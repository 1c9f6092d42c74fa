/** Where the revisions a device writes at come from. */
module SettingsRevisions {
  import opened Prelude
  import opened SettingsSync
  import opened SettingsWorld
  import opened SettingsKeys

  /** A row of a roster shows this revision of this key; a key the row does not list is at 0. */
  ghost predicate Shows(rows: seq<Row>, place: Place, revision: int) {
    exists k :: 0 <= k < |rows| && rows[k].name == place.profile && RevisionIn(rows[k].revisions, place.key) == revision
  }

  predicate Tells(answer: Answer, key: string, revision: int) {
    || (key in answer.conflicts && answer.conflicts[key] == revision)
    || (key in answer.revisions && answer.revisions[key] == revision)
  }

  /** What device `i` takes in with this step shows it this revision of this key. */
  ghost predicate Hears(w: World, a: Action, i: nat, place: Place, revision: int)
    requires Enabled(w, a)
  {
    !a.Foreign? && a.i == i &&
    var d := w.devices[i];
    match a
    case TakeRoster(_, j, _) => Shows(d.pulls[j].roster.rows, place, revision)
    case TakeReread(_, _) => Shows(d.flow.roster.value.rows, place, revision)
    case TakeAnswer(_) => d.flow.batch.profile == place.profile && Tells(d.flow.reply.value, place.key, revision)
    case _ => false
  }

  ghost predicate HearsIn(w: World, actions: seq<Action>, home: Place, i: nat, place: Place, revision: int)
    requires Run(w, actions, home).Some?
    decreases |actions|
  {
    actions != [] &&
    (Hears(w, actions[0], i, place, revision)
     || HearsIn(Next(w, actions[0], home), actions[1..], home, i, place, revision))
  }

  /** The device knows the key at this revision, or is writing it at it; 0 is what it takes an unheard-of key to be at. */
  predicate Holds(d: Device, place: Place, revision: int) {
    || revision == 0 || Known(d.sync, place) == revision
    || (d.flow.Sending? && d.flow.request.profile == place.profile && place.key in d.flow.request.expected
        && d.flow.request.expected[place.key] == revision)
  }

  lemma {:induction false} ReadRowsShow(r: Reading, rows: seq<Row>, appKey: Option<string>, place: Place)
    ensures var read := ReadRows(r, rows, appKey);
            place in read.revisions ==>
              (place in r.revisions && r.revisions[place] == read.revisions[place]) || Shows(rows, place, read.revisions[place])
    decreases |rows|
  {
    if rows != [] {
      var front, last := rows[..|rows| - 1], rows[|rows| - 1];
      ReadRowsShow(r, front, appKey, place);
      var read := ReadRows(r, rows, appKey);
      if place in read.revisions {
        if Shows(front, place, read.revisions[place]) {
          var k :| 0 <= k < |front| && front[k].name == place.profile
                   && RevisionIn(front[k].revisions, place.key) == read.revisions[place];
          assert rows[k] == front[k];
        }
        if last.name == place.profile && RevisionIn(last.revisions, place.key) == read.revisions[place] {
          assert rows[|rows| - 1] == last;
        }
      }
    }
  }

  lemma PulledShows(s: Sync, roster: Roster, place: Place)
    ensures var revision := Known(Pulled(s, roster), place);
            revision == 0 || revision == Known(s, place) || Shows(roster.rows, place, revision)
  {
    ReadRowsShow(Reading(s.revisions, s.defaultProfile, map[], None, None), roster.rows, AppKey(s), place);
  }

  lemma NotedTells(s: Sync, profile: string, answer: Answer, place: Place)
    ensures var revision := Known(NoteAnswer(s, profile, answer), place);
            revision == Known(s, place) || (profile == place.profile && Tells(answer, place.key, revision))
  {
  }

  // ---------------------------------------------------- what is built, holds

  lemma AttemptHolds(s: Sync, batch: Batch, local: Local, place: Place)
    ensures var request := Attempt(s, batch, local);
            request.profile == place.profile && place.key in request.expected ==> request.expected[place.key] == Known(s, place)
  {
    assert Place(place.profile, place.key) == place;
  }

  /** Whatever a flush goes on to send is at what the device knows. */
  lemma SendNextHolds(d: Device, rest: seq<Batch>, place: Place, revision: int)
    requires Holds(SendNext(d, rest), place, revision)
    ensures revision == 0 || Known(d.sync, place) == revision
  {
    if rest != [] {
      AttemptHolds(d.sync, rest[0], d.local, place);
    }
  }

  lemma BeginFlushHolds(d: Device, place: Place, revision: int)
    requires Holds(BeginFlush(d), place, revision)
    ensures Holds(d, place, revision)
  {
    if d.flow.Idle? {
      SendNextHolds(d, Batches(d.sync), place, revision);
    }
  }

  lemma NextAttemptHolds(d: Device, batch: Batch, attempt: nat, rest: seq<Batch>, place: Place, revision: int)
    requires Holds(NextAttempt(d, batch, attempt, rest), place, revision)
    ensures revision == 0 || Known(d.sync, place) == revision
  {
    if attempt < RETRIES {
      AttemptHolds(d.sync, batch, d.local, place);
    } else {
      SendNextHolds(d, rest, place, revision);
    }
  }

  lemma TakingRosterHolds(d: Device, j: nat, adopted: Local, place: Place, revision: int)
    requires j < |d.pulls| && d.pulls[j].Listed? && Holds(TakingRoster(d, j, adopted), place, revision)
    ensures Holds(d, place, revision) || Shows(d.pulls[j].roster.rows, place, revision)
  {
    var roster := d.pulls[j].roster;
    var taken := d.(sync := Reconciled(d.sync, roster, d.local, adopted), local := adopted, pulls := DropAt(d.pulls, j));
    BeginFlushHolds(taken, place, revision);
    ReconciledKeeps(d.sync, roster, d.local, adopted);
    PulledShows(d.sync, roster, place);
  }

  lemma TakingRereadHolds(d: Device, adopted: Local, place: Place, revision: int)
    requires d.flow.Rereading? && d.flow.roster.Some? && Holds(TakingReread(d, adopted), place, revision)
    ensures Holds(d, place, revision) || Shows(d.flow.roster.value.rows, place, revision)
  {
    var roster := d.flow.roster.value;
    NextAttemptHolds(d.(sync := Pulled(d.sync, roster), local := adopted), d.flow.batch, d.flow.attempt, d.flow.rest,
                     place, revision);
    PulledShows(d.sync, roster, place);
  }

  lemma TakingAnswerHolds(d: Device, place: Place, revision: int)
    requires d.flow.Sending? && d.flow.reply.Some? && Holds(TakingAnswer(d), place, revision)
    ensures Holds(d, place, revision)
            || (d.flow.batch.profile == place.profile && Tells(d.flow.reply.value, place.key, revision))
  {
    var batch, answer := d.flow.batch, d.flow.reply.value;
    var noted := NoteAnswer(d.sync, batch.profile, answer);
    NotedTells(d.sync, batch.profile, answer, place);
    if answer.conflicts == map[] {
      ClearDirtyKeeps(noted, batch.profile, batch.keys);
      SendNextHolds(d.(sync := ClearDirty(noted, batch.profile, batch.keys)), d.flow.rest, place, revision);
    }
  }

  // ----------------------------------------------------------------- steps

  lemma OwnHolds(w: World, a: Action, home: Place, place: Place, revision: int)
    requires Enabled(w, a) && !a.Foreign? && !a.ApplyWrite? && Holds(Next(w, a, home).devices[a.i], place, revision)
    ensures Holds(w.devices[a.i], place, revision) || Hears(w, a, a.i, place, revision)
  {
    if a.TakeRoster? || a.TakeReread? || a.TakeAnswer? {
      HearingHolds(w, a, home, place, revision);
    } else {
      DeafHolds(w, a, home, place, revision);
    }
  }

  lemma HearingHolds(w: World, a: Action, home: Place, place: Place, revision: int)
    requires Enabled(w, a) && (a.TakeRoster? || a.TakeReread? || a.TakeAnswer?)
    requires Holds(Next(w, a, home).devices[a.i], place, revision)
    ensures Holds(w.devices[a.i], place, revision) || Hears(w, a, a.i, place, revision)
  {
    var d := w.devices[a.i];
    match a
    case TakeRoster(_, j, adopted) => TakingRosterHolds(d, j, adopted, place, revision);
    case TakeReread(_, adopted) => TakingRereadHolds(d, adopted, place, revision);
    case TakeAnswer(_) => TakingAnswerHolds(d, place, revision);
  }

  lemma DeafHolds(w: World, a: Action, home: Place, place: Place, revision: int)
    requires Enabled(w, a) && !a.Foreign? && !a.ApplyWrite? && !a.TakeRoster? && !a.TakeReread? && !a.TakeAnswer?
    requires Holds(Next(w, a, home).devices[a.i], place, revision)
    ensures Holds(w.devices[a.i], place, revision)
  {
    var d := w.devices[a.i];
    match a
    case Flush(_) => BeginFlushHolds(d, place, revision);
    case LoseWrite(_) => SendNextHolds(d.(sync := d.sync.(synced := false)), d.flow.rest, place, revision);
    case LoseReread(_) =>
      NextAttemptHolds(d.(sync := d.sync.(synced := false)), d.flow.batch, d.flow.attempt, d.flow.rest, place, revision);
    case _ =>
  }

  lemma StepHolds(w: World, a: Action, home: Place, i: nat, place: Place, revision: int)
    requires Enabled(w, a) && i < |w.devices| && Holds(Next(w, a, home).devices[i], place, revision)
    ensures Holds(w.devices[i], place, revision) || Hears(w, a, i, place, revision)
  {
    if !a.Foreign? && !a.ApplyWrite? {
      OthersStay(w, a, home);
      if a.i == i {
        OwnHolds(w, a, home, place, revision);
      }
    }
  }

  lemma {:induction false} RunHolds(w: World, actions: seq<Action>, home: Place, i: nat, place: Place, revision: int)
    requires Run(w, actions, home).Some? && i < |w.devices|
    requires Holds(Run(w, actions, home).value.devices[i], place, revision)
    ensures Holds(w.devices[i], place, revision) || HearsIn(w, actions, home, i, place, revision)
    decreases |actions|
  {
    if actions != [] {
      RunHolds(Next(w, actions[0], home), actions[1..], home, i, place, revision);
      if !HearsIn(Next(w, actions[0], home), actions[1..], home, i, place, revision) {
        StepHolds(w, actions[0], home, i, place, revision);
      }
    }
  }

  /**
   * At any moment of any run from devices that have read nothing, whatever a device is writing names
   * only keys of its own, every one of them conditionally, and at a revision that a roster it took
   * showed or an answer it took told; or at 0, for a key it never heard of.
   */
  lemma EveryWriteIsAtARevisionHeard(start: World, actions: seq<Action>, home: Place, i: nat, key: string)
    requires Starting(start) && Run(start, actions, home).Some? && i < |start.devices|
    requires start.devices[i].sync.revisions == map[]
    requires var d := Run(start, actions, home).value.devices[i];
             d.flow.Sending? && key in d.flow.request.sections
    ensures var d := Run(start, actions, home).value.devices[i];
            && OwnKey(d.sync.userId, key) && key in d.flow.request.expected
            && var revision := d.flow.request.expected[key];
               revision == 0 || HearsIn(start, actions, home, i, Place(d.flow.request.profile, key), revision)
  {
    RunNames(start, actions, home);
    var w := Run(start, actions, home).value;
    var d := w.devices[i];
    assert DeviceNames(d, w.accepted);
    assert OwnBatch(d.sync.userId, Queue(d.flow)[0]);
    var place := Place(d.flow.request.profile, key);
    var revision := d.flow.request.expected[key];
    RunHolds(start, actions, home, i, place, revision);
  }
}
