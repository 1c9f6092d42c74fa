/** The stamp of a person's app section never goes back, and what that takes. */
module SettingsStamps {
  import opened Prelude
  import opened SettingsSync
  import opened SettingsWorld
  import opened SettingsKeys

  // --------------------------------------------------------------- history

  /** The key of the person called `user`, on the one default profile. */
  ghost predicate Home(g: Gateway, home: Place, user: string) {
    && user != "" && home.profile != "" && home.key == AppKeyFor(user)
    && home.profile in g
    && (forall name :: name in g ==> (g[name].isDefault <==> name == home.profile))
  }

  /** `history` records the stamp of every revision up to the current one; revision 0 is "never written". */
  ghost predicate Chronicle(g: Gateway, history: map<int, nat>, home: Place) {
    && 0 in history && history[0] == 0
    && RevisionAt(g, home) in history && history[RevisionAt(g, home)] == StampAt(g, home)
    && (forall r :: r in history ==> r <= RevisionAt(g, home))
  }

  ghost predicate Extends(history: map<int, nat>, longer: map<int, nat>) {
    forall r :: r in history ==> r in longer && longer[r] == history[r]
  }

  /** The revision and the section belong together. */
  ghost predicate Shown(history: map<int, nat>, revision: int, section: Option<Section>) {
    revision in history && history[revision] == AppStampOf(section)
  }

  ghost predicate RowOk(row: Row, history: map<int, nat>, home: Place) {
    && row.name == home.profile && row.isDefault
    && Shown(history, RevisionIn(row.revisions, home.key), ReadSection(row.meta, home.key))
  }

  /** A roster says of the home key what the gateway held at some moment. */
  ghost predicate RosterOk(roster: Roster, history: map<int, nat>, home: Place) {
    && (exists i :: 0 <= i < |roster.rows| && roster.rows[i].isDefault)
    && (forall i :: 0 <= i < |roster.rows| && (roster.rows[i].isDefault || roster.rows[i].name == home.profile) ==>
          RowOk(roster.rows[i], history, home))
  }

  // ------------------------------------------------------------- invariant

  /**
   * A device that passes the compare-and-swap at the home key with a section older than the one there:
   * it knows the current revision, has a profile to write to, and holds less than that revision holds.
   */
  predicate Behind(d: Device, g: Gateway, home: Place) {
    d.sync.defaultProfile.Some? && Known(d.sync, home) == RevisionAt(g, home) && AppStampOf(d.local.app) < StampAt(g, home)
  }

  /** A re-read brings what is missing before anything else is built. */
  predicate Exposed(d: Device, g: Gateway, home: Place) {
    !d.flow.Rereading? && Behind(d, g, home)
  }

  /** A device that would pass the compare-and-swap at revision `now` holds nothing older than what it would replace. */
  ghost predicate Backed(s: Sync, local: Local, history: map<int, nat>, now: int, home: Place) {
    && Known(s, home) in history
    && (s.defaultProfile.Some? && Known(s, home) == now ==> history[Known(s, home)] <= AppStampOf(local.app))
  }

  predicate NamesApp(b: Batch) {
    exists key :: key in b.keys && key != HERMIE_KEY
  }

  /** The app section is only ever queued for the default profile. */
  ghost predicate QueueReady(s: Sync, queue: seq<Batch>) {
    forall i :: 0 <= i < |queue| && NamesApp(queue[i]) ==> s.defaultProfile.Some?
  }

  predicate Carries(flow: Flow, home: Place) {
    flow.Sending? && flow.request.profile == home.profile && home.key in flow.request.sections
  }

  /** The bytes in flight are no older than what they would replace, if they are to land at all. */
  ghost predicate RequestOk(request: Request, history: map<int, nat>, now: int, home: Place)
    requires home.key in request.sections
  {
    var section := request.sections[home.key];
    && (section.Some? ==> "v" in section.value && section.value["v"] == Num(SECTION_VERSION))
    && home.key in request.expected && request.expected[home.key] in history
    && (request.expected[home.key] == now ==> history[now] <= AppStampOf(section))
  }

  /** What an answer says of the home key is on record. */
  ghost predicate ReplyOk(flow: Flow, history: map<int, nat>, home: Place) {
    flow.Sending? && flow.reply.Some? && flow.request.profile == home.profile ==>
      var answer := flow.reply.value;
      && (home.key in answer.conflicts ==> answer.conflicts[home.key] in history)
      && (home.key in answer.revisions ==> answer.revisions[home.key] in history)
  }

  ghost predicate PullsOk(pulls: seq<Pull>, history: map<int, nat>, home: Place) {
    forall j :: 0 <= j < |pulls| && pulls[j].Listed? ==> RosterOk(pulls[j].roster, history, home)
  }

  ghost predicate FlowOk(flow: Flow, history: map<int, nat>, now: int, home: Place) {
    && (Carries(flow, home) ==> RequestOk(flow.request, history, now, home))
    && ReplyOk(flow, history, home)
    && (flow.Rereading? && flow.roster.Some? ==> RosterOk(flow.roster.value, history, home))
  }

  ghost predicate DeviceOk(d: Device, history: map<int, nat>, now: int, home: Place) {
    && Known(d.sync, home) in history
    && (d.sync.defaultProfile.Some? ==> d.sync.defaultProfile.value == home.profile)
    && (!d.flow.Rereading? ==> Backed(d.sync, d.local, history, now, home))
    && QueueReady(d.sync, Queue(d.flow))
    && PullsOk(d.pulls, history, home)
    && FlowOk(d.flow, history, now, home)
  }

  ghost predicate Ordered(w: World, home: Place, user: string) {
    && Names(w) && Home(w.gateway, home, user) && Chronicle(w.gateway, w.history, home)
    && (forall i :: 0 <= i < |w.devices| && w.devices[i].sync.userId == user ==>
          DeviceOk(w.devices[i], w.history, RevisionAt(w.gateway, home), home))
  }

  // -------------------------------------------------------------- sections

  lemma HomeKeyIsItsOwn(home: Place, user: string)
    requires home.key == AppKeyFor(user)
    ensures home.key != HERMIE_KEY && home.key != HERMIE_APP_KEY
  {
  }

  lemma AppKeysDiffer(a: string, b: string)
    requires AppKeyFor(a) == AppKeyFor(b)
    ensures a == b
  {
    assert a == AppKeyFor(a)[|HERMIE_APP_KEY| + 1..];
    assert b == AppKeyFor(b)[|HERMIE_APP_KEY| + 1..];
  }

  /** The section that goes out is dated as the app is. */
  lemma SentStamp(s: Sync, profile: string, home: Place, user: string, local: Local)
    requires home.key == AppKeyFor(user)
    ensures var section := SectionFor(s, profile, home.key, local);
            AppStampOf(section) == AppStampOf(local.app)
            && (section.Some? ==> "v" in section.value && section.value["v"] == Num(SECTION_VERSION))
  {
  }

  // ---------------------------------------------------------------- rosters

  lemma {:induction false} ReadRowsHome(r: Reading, rows: seq<Row>, history: map<int, nat>, home: Place, user: string)
    requires home.key == AppKeyFor(user)
    requires forall i :: 0 <= i < |rows| && (rows[i].isDefault || rows[i].name == home.profile) ==> RowOk(rows[i], history, home)
    requires home.profile != ""
    ensures var read := ReadRows(r, rows, Some(home.key));
            (exists i :: 0 <= i < |rows| && rows[i].isDefault) ==>
              home in read.revisions && Shown(history, read.revisions[home], read.app)
              && read.defaultProfile == Some(home.profile)
    decreases |rows|
  {
    HomeKeyIsItsOwn(home, user);
    if rows != [] {
      var front, last := rows[..|rows| - 1], rows[|rows| - 1];
      assert forall i :: 0 <= i < |front| ==> front[i] == rows[i];
      ReadRowsHome(r, front, history, home, user);
      if !last.isDefault {
        assert last.name != home.profile;
      } else {
        assert RowOk(last, history, home);
      }
    }
  }

  lemma PullShows(s: Sync, roster: Roster, history: map<int, nat>, home: Place, user: string)
    requires user != "" && s.userId == user && home.key == AppKeyFor(user) && home.profile != ""
    requires RosterOk(roster, history, home)
    ensures Shown(history, Known(Pulled(s, roster), home), ReadingOf(s, roster).app)
    ensures Pulled(s, roster).defaultProfile == Some(home.profile)
  {
    ReadRowsHome(Reading(s.revisions, s.defaultProfile, map[], None, None), roster.rows, history, home, user);
  }

  lemma ListShows(g: Gateway, names: seq<string>, perUser: bool, history: map<int, nat>, home: Place, user: string)
    requires Home(g, home, user) && Chronicle(g, history, home) && Lists(g, names)
    ensures RosterOk(ListOf(g, names, perUser), history, home)
  {
    var rows := ListOf(g, names, perUser).rows;
    var i :| 0 <= i < |names| && names[i] == home.profile;
    assert rows[i].isDefault;
  }

  // -------------------------------------------------------------- adoption

  /** Whatever the app is handed, it ends up no older than what the gateway showed, nor than itself while dirty. */
  lemma AdoptionBacks(s: Sync, roster: Roster, local: Local, adopted: Local, history: map<int, nat>, home: Place, noted: bool)
    requires s.userId != ""
    requires Shown(history, Known(Pulled(s, roster), home), ReadingOf(s, roster).app)
    requires var remote := Remote(s, roster);
             var pulled := Pulled(s, roster);
             Adopts(local, WithPendingKept(if noted then NoteNewerLocalApp(pulled, remote, local) else pulled, remote, local), adopted)
    ensures history[Known(Pulled(s, roster), home)] <= AppStampOf(adopted.app)
    ensures s.dirtyApp ==> AppStampOf(local.app) <= AppStampOf(adopted.app)
  {
  }

  // ----------------------------------------------------------------- flush

  lemma BatchesReady(s: Sync)
    ensures QueueReady(s, Batches(s))
  {
    assert forall i :: 0 <= i < |s.dirtyBots| ==> !NamesApp(BotBatches(s.dirtyBots)[i]);
  }

  lemma AttemptOk(d: Device, batch: Batch, history: map<int, nat>, now: int, home: Place, user: string)
    requires home.key == AppKeyFor(user) && Backed(d.sync, d.local, history, now, home)
    requires NamesApp(batch) ==> d.sync.defaultProfile.Some?
    ensures var request := Attempt(d.sync, batch, d.local);
            batch.profile == home.profile && home.key in request.sections ==> RequestOk(request, history, now, home)
  {
    HomeKeyIsItsOwn(home, user);
    assert Place(home.profile, home.key) == home;
    if home.key in batch.keys {
      assert NamesApp(batch);
    }
  }

  /** A device whose flow does not matter: what it knows and what it has been handed are in order. */
  ghost predicate SettledOk(d: Device, history: map<int, nat>, now: int, home: Place) {
    && Backed(d.sync, d.local, history, now, home) && PullsOk(d.pulls, history, home)
    && (d.sync.defaultProfile.Some? ==> d.sync.defaultProfile.value == home.profile)
  }

  lemma SendNextOk(d: Device, rest: seq<Batch>, history: map<int, nat>, now: int, home: Place, user: string)
    requires home.key == AppKeyFor(user)
    requires SettledOk(d, history, now, home) && QueueReady(d.sync, rest)
    ensures DeviceOk(SendNext(d, rest), history, now, home)
  {
    if rest != [] {
      assert [rest[0]] + rest[1..] == rest;
      AttemptOk(d, rest[0], history, now, home, user);
    }
  }

  lemma BeginFlushOk(d: Device, history: map<int, nat>, now: int, home: Place, user: string)
    requires home.key == AppKeyFor(user) && DeviceOk(d, history, now, home)
    ensures DeviceOk(BeginFlush(d), history, now, home)
  {
    if d.flow.Idle? {
      BatchesReady(d.sync);
      SendNextOk(d, Batches(d.sync), history, now, home, user);
    }
  }

  lemma NextAttemptOk(d: Device, batch: Batch, attempt: nat, rest: seq<Batch>, history: map<int, nat>, now: int, home: Place,
                      user: string)
    requires home.key == AppKeyFor(user)
    requires SettledOk(d, history, now, home) && QueueReady(d.sync, [batch] + rest)
    ensures DeviceOk(NextAttempt(d, batch, attempt, rest), history, now, home)
  {
    assert ([batch] + rest)[0] == batch;
    if attempt < RETRIES {
      AttemptOk(d, batch, history, now, home, user);
    } else {
      RestReady(d.sync, batch, rest);
      SendNextOk(d, rest, history, now, home, user);
    }
  }

  lemma RestReady(s: Sync, batch: Batch, rest: seq<Batch>)
    requires QueueReady(s, [batch] + rest)
    ensures QueueReady(s, rest)
  {
    var queue := [batch] + rest;
    assert forall i :: 0 <= i < |rest| ==> rest[i] == queue[i + 1];
  }

  // ------------------------------------------------------------ one device

  /**
   * A step is careful when it does not leave the device that takes it exposed. Only three steps can:
   * an edit that dates the app back, the answer to a write, and a re-read that fails. What others
   * write at the home key must not be dated back either.
   */
  predicate Careful(w: World, a: Action, home: Place, user: string)
    requires Enabled(w, a)
  {
    if a.Foreign? then StampAt(w.gateway, home) <= StampAt(Next(w, a, home).gateway, home)
    else
      w.devices[a.i].sync.userId == user && (a.Edit? || a.TakeAnswer? || a.LoseReread?) ==>
        !Exposed(Next(w, a, home).devices[a.i], w.gateway, home)
  }

  /** Against the record, not being exposed is being backed. */
  lemma NotExposedIsBacked(d: Device, g: Gateway, history: map<int, nat>, home: Place)
    requires Chronicle(g, history, home) && Known(d.sync, home) in history && !d.flow.Rereading?
    ensures !Exposed(d, g, home) <==> Backed(d.sync, d.local, history, RevisionAt(g, home), home)
  {
  }

  lemma TakingRosterOk(d: Device, j: nat, adopted: Local, history: map<int, nat>, now: int, home: Place, user: string)
    requires user != "" && home.key == AppKeyFor(user) && home.profile != "" && d.sync.userId == user
    requires DeviceOk(d, history, now, home)
    requires j < |d.pulls| && d.pulls[j].Listed? && Adopts(d.local, Offered(d.sync, d.pulls[j].roster, d.local), adopted)
    ensures DeviceOk(TakingRoster(d, j, adopted), history, now, home)
  {
    var roster := d.pulls[j].roster;
    var taken := d.(sync := Reconciled(d.sync, roster, d.local, adopted), local := adopted, pulls := DropAt(d.pulls, j));
    PullShows(d.sync, roster, history, home, user);
    AdoptionBacks(d.sync, roster, d.local, adopted, history, home, true);
    ReconciledKeeps(d.sync, roster, d.local, adopted);
    BeginFlushOk(taken, history, now, home, user);
  }

  lemma TakingRereadOk(d: Device, adopted: Local, history: map<int, nat>, now: int, home: Place, user: string)
    requires user != "" && home.key == AppKeyFor(user) && home.profile != "" && d.sync.userId == user
    requires DeviceOk(d, history, now, home) && d.flow.Rereading? && d.flow.roster.Some?
    requires Adopts(d.local, Merged(d, d.flow.roster.value), adopted)
    ensures DeviceOk(TakingReread(d, adopted), history, now, home)
  {
    var roster := d.flow.roster.value;
    PullShows(d.sync, roster, history, home, user);
    AdoptionBacks(d.sync, roster, d.local, adopted, history, home, false);
    NextAttemptOk(d.(sync := Pulled(d.sync, roster), local := adopted), d.flow.batch, d.flow.attempt, d.flow.rest,
                  history, now, home, user);
  }

  lemma NotedHome(s: Sync, profile: string, answer: Answer, home: Place)
    ensures Known(NoteAnswer(s, profile, answer), home) ==
            if profile != home.profile then Known(s, home)
            else if home.key in answer.conflicts then answer.conflicts[home.key]
            else if home.key in answer.revisions then answer.revisions[home.key]
            else Known(s, home)
  {
  }

  /** Whatever an answer says of the home key, the device then knows a revision that is on record. */
  lemma NotedIsOnRecord(d: Device, history: map<int, nat>, now: int, home: Place, accepted: set<Write>)
    requires DeviceOk(d, history, now, home) && DeviceNames(d, accepted) && d.flow.Sending? && d.flow.reply.Some?
    ensures Known(TakingAnswer(d).sync, home) in history
    ensures TakingAnswer(d).sync.defaultProfile == d.sync.defaultProfile
  {
    var batch, answer := d.flow.batch, d.flow.reply.value;
    NotedHome(d.sync, batch.profile, answer, home);
    ClearDirtyKeeps(NoteAnswer(d.sync, batch.profile, answer), batch.profile, batch.keys);
  }

  lemma TakingAnswerOk(d: Device, history: map<int, nat>, now: int, home: Place, user: string, accepted: set<Write>)
    requires home.key == AppKeyFor(user) && DeviceOk(d, history, now, home) && DeviceNames(d, accepted)
    requires d.flow.Sending? && d.flow.reply.Some?
    requires var d' := TakingAnswer(d); d'.flow.Rereading? || Backed(d'.sync, d'.local, history, now, home)
    ensures DeviceOk(TakingAnswer(d), history, now, home)
  {
    var batch, answer := d.flow.batch, d.flow.reply.value;
    NotedIsOnRecord(d, history, now, home, accepted);
    if answer.conflicts == map[] {
      var cleared := ClearDirty(NoteAnswer(d.sync, batch.profile, answer), batch.profile, batch.keys);
      RestReady(d.sync, batch, d.flow.rest);
      SendNextOk(d.(sync := cleared), d.flow.rest, history, now, home, user);
    }
  }

  lemma LosingWriteOk(d: Device, history: map<int, nat>, now: int, home: Place, user: string)
    requires home.key == AppKeyFor(user) && DeviceOk(d, history, now, home) && d.flow.Sending?
    ensures DeviceOk(SendNext(d.(sync := d.sync.(synced := false)), d.flow.rest), history, now, home)
  {
    RestReady(d.sync, d.flow.batch, d.flow.rest);
    SendNextOk(d.(sync := d.sync.(synced := false)), d.flow.rest, history, now, home, user);
  }

  lemma LosingRereadOk(d: Device, history: map<int, nat>, now: int, home: Place, user: string)
    requires home.key == AppKeyFor(user) && DeviceOk(d, history, now, home) && d.flow.Rereading?
    requires Backed(d.sync, d.local, history, now, home)
    ensures DeviceOk(NextAttempt(d.(sync := d.sync.(synced := false)), d.flow.batch, d.flow.attempt, d.flow.rest),
                     history, now, home)
  {
    NextAttemptOk(d.(sync := d.sync.(synced := false)), d.flow.batch, d.flow.attempt, d.flow.rest, history, now, home, user);
  }

  lemma LocalOk(w: World, a: Action, home: Place, user: string)
    requires Ordered(w, home, user) && Enabled(w, a) && Careful(w, a, home, user)
    requires !a.Foreign? && !a.ApplyWrite? && w.devices[a.i].sync.userId == user
    ensures DeviceOk(Next(w, a, home).devices[a.i], w.history, RevisionAt(w.gateway, home), home)
  {
    if a.AnswerRoster? || a.AnswerReread? {
      ListedOk(w, a, home, user);
    } else if a.TakeRoster? || a.TakeReread? {
      TakingOk(w, a, home, user);
    } else if a.Flush? || a.LoseWrite? {
      FlushingOk(w, a, home, user);
    } else if a.TakeAnswer? || a.LoseReread? || a.Edit? {
      RiskyOk(w, a, home, user);
    } else {
      MinorOk(w, a, home, user);
    }
  }

  lemma TakingOk(w: World, a: Action, home: Place, user: string)
    requires Enabled(w, a) && (a.TakeRoster? || a.TakeReread?) && w.devices[a.i].sync.userId == user
    requires Home(w.gateway, home, user)
    requires DeviceOk(w.devices[a.i], w.history, RevisionAt(w.gateway, home), home)
    ensures DeviceOk(Next(w, a, home).devices[a.i], w.history, RevisionAt(w.gateway, home), home)
  {
    var d, now := w.devices[a.i], RevisionAt(w.gateway, home);
    match a
    case TakeRoster(_, j, adopted) => TakingRosterOk(d, j, adopted, w.history, now, home, user);
    case TakeReread(_, adopted) => TakingRereadOk(d, adopted, w.history, now, home, user);
  }

  lemma FlushingOk(w: World, a: Action, home: Place, user: string)
    requires Enabled(w, a) && (a.Flush? || a.LoseWrite?) && Home(w.gateway, home, user)
    requires DeviceOk(w.devices[a.i], w.history, RevisionAt(w.gateway, home), home)
    ensures DeviceOk(Next(w, a, home).devices[a.i], w.history, RevisionAt(w.gateway, home), home)
  {
    var d, now := w.devices[a.i], RevisionAt(w.gateway, home);
    match a
    case Flush(_) => BeginFlushOk(d, w.history, now, home, user);
    case LoseWrite(_) => LosingWriteOk(d, w.history, now, home, user);
  }

  /** The three steps the condition is about. */
  lemma RiskyOk(w: World, a: Action, home: Place, user: string)
    requires Enabled(w, a) && (a.Edit? || a.TakeAnswer? || a.LoseReread?) && w.devices[a.i].sync.userId == user
    requires Chronicle(w.gateway, w.history, home) && Home(w.gateway, home, user)
    requires DeviceOk(w.devices[a.i], w.history, RevisionAt(w.gateway, home), home) && DeviceNames(w.devices[a.i], w.accepted)
    requires !Exposed(Next(w, a, home).devices[a.i], w.gateway, home)
    ensures DeviceOk(Next(w, a, home).devices[a.i], w.history, RevisionAt(w.gateway, home), home)
  {
    if a.TakeAnswer? {
      AnsweredOk(w, a.i, home, user);
    } else if a.LoseReread? {
      LostOk(w, a.i, home, user);
    } else {
      var d' := Next(w, a, home).devices[a.i];
      if !d'.flow.Rereading? {
        NotExposedIsBacked(d', w.gateway, w.history, home);
      }
    }
  }

  lemma AnsweredOk(w: World, i: nat, home: Place, user: string)
    requires Enabled(w, TakeAnswer(i)) && Chronicle(w.gateway, w.history, home) && Home(w.gateway, home, user)
    requires DeviceOk(w.devices[i], w.history, RevisionAt(w.gateway, home), home) && DeviceNames(w.devices[i], w.accepted)
    requires !Exposed(TakingAnswer(w.devices[i]), w.gateway, home)
    ensures DeviceOk(TakingAnswer(w.devices[i]), w.history, RevisionAt(w.gateway, home), home)
  {
    var d, now := w.devices[i], RevisionAt(w.gateway, home);
    var d' := TakingAnswer(d);
    NotedIsOnRecord(d, w.history, now, home, w.accepted);
    if !d'.flow.Rereading? {
      NotExposedIsBacked(d', w.gateway, w.history, home);
    }
    TakingAnswerOk(d, w.history, now, home, user, w.accepted);
  }

  lemma LostOk(w: World, i: nat, home: Place, user: string)
    requires Enabled(w, LoseReread(i)) && Chronicle(w.gateway, w.history, home) && Home(w.gateway, home, user)
    requires DeviceOk(w.devices[i], w.history, RevisionAt(w.gateway, home), home)
    requires !Exposed(Next(w, LoseReread(i), home).devices[i], w.gateway, home)
    ensures DeviceOk(Next(w, LoseReread(i), home).devices[i], w.history, RevisionAt(w.gateway, home), home)
  {
    var d' := Next(w, LoseReread(i), home).devices[i];
    NotExposedIsBacked(d', w.gateway, w.history, home);
    LosingRereadOk(w.devices[i], w.history, RevisionAt(w.gateway, home), home, user);
  }

  lemma ListedOk(w: World, a: Action, home: Place, user: string)
    requires Enabled(w, a) && (a.AnswerRoster? || a.AnswerReread?)
    requires Home(w.gateway, home, user) && Chronicle(w.gateway, w.history, home)
    requires DeviceOk(w.devices[a.i], w.history, RevisionAt(w.gateway, home), home)
    ensures DeviceOk(Next(w, a, home).devices[a.i], w.history, RevisionAt(w.gateway, home), home)
  {
    ListShows(w.gateway, a.names, a.perUser, w.history, home, user);
  }

  lemma MinorOk(w: World, a: Action, home: Place, user: string)
    requires Enabled(w, a) && (a.MarkApp? || a.MarkName? || a.AskRoster? || a.LoseRoster?)
    requires w.devices[a.i].sync.userId == user
    requires DeviceOk(w.devices[a.i], w.history, RevisionAt(w.gateway, home), home)
    ensures DeviceOk(Next(w, a, home).devices[a.i], w.history, RevisionAt(w.gateway, home), home)
  {
  }

  // ----------------------------------------------------------- the gateway

  /** The record only grows, and what was known before a write is not the revision after it. */
  ghost predicate Grows(history: map<int, nat>, now: int, longer: map<int, nat>, later: int) {
    && Extends(history, longer) && (forall r :: r in history ==> r <= now) && now <= later
    && (now in history && later in longer)
  }

  lemma {:induction false} DeviceGrows(d: Device, history: map<int, nat>, now: int, longer: map<int, nat>, later: int, home: Place)
    requires DeviceOk(d, history, now, home) && Grows(history, now, longer, later)
    ensures DeviceOk(d, longer, later, home)
  {
    forall j | 0 <= j < |d.pulls| && d.pulls[j].Listed? ensures RosterOk(d.pulls[j].roster, longer, home) {
      assert RosterOk(d.pulls[j].roster, history, home);
    }
    StaysOnRecord(history, longer, Known(d.sync, home));
    FlowGrows(d.flow, history, now, longer, later, home);
  }

  lemma StaysOnRecord(history: map<int, nat>, longer: map<int, nat>, revision: int)
    requires Extends(history, longer)
    ensures revision in history ==> revision in longer && longer[revision] == history[revision]
  {
  }

  lemma FlowGrows(flow: Flow, history: map<int, nat>, now: int, longer: map<int, nat>, later: int, home: Place)
    requires FlowOk(flow, history, now, home) && Grows(history, now, longer, later)
    ensures FlowOk(flow, longer, later, home)
  {
    if Carries(flow, home) {
      StaysOnRecord(history, longer, flow.request.expected[home.key]);
    }
    if flow.Sending? && flow.reply.Some? && flow.request.profile == home.profile {
      var answer := flow.reply.value;
      if home.key in answer.conflicts {
        StaysOnRecord(history, longer, answer.conflicts[home.key]);
      }
      if home.key in answer.revisions {
        StaysOnRecord(history, longer, answer.revisions[home.key]);
      }
    }
  }

  /** What the gateway holds of a key after a request: the request's bytes where they landed. */
  lemma WrittenHome(p: Profile, request: Request, home: Place)
    ensures var q := Written(p, request);
            if Lands(p, request, home.key) then
              RevisionIn(q.revisions, home.key) == RevisionIn(p.revisions, home.key) + 1
              && (if request.sections[home.key].None? then home.key !in q.bag
                  else home.key in q.bag && q.bag[home.key] == Obj(request.sections[home.key].value))
            else
              RevisionIn(q.revisions, home.key) == RevisionIn(p.revisions, home.key)
              && (home.key in q.bag <==> home.key in p.bag) && (home.key in p.bag ==> q.bag[home.key] == p.bag[home.key])
  {
  }

  /** Only this person's devices can name the home key. */
  lemma OnlyOwnersCarry(d: Device, home: Place, user: string, accepted: set<Write>)
    requires user != "" && home.key == AppKeyFor(user) && DeviceNames(d, accepted) && Carries(d.flow, home)
    ensures d.sync.userId == user
  {
    HomeKeyIsItsOwn(home, user);
    assert OwnBatch(d.sync.userId, Queue(d.flow)[0]);
    assert OwnKey(d.sync.userId, home.key);
    AppKeysDiffer(d.sync.userId, user);
  }

  /** The home key's bytes that land are those of a person's device, and no older than what they replace. */
  lemma LandingIsNoOlder(w: World, i: nat, home: Place, user: string)
    requires Ordered(w, home, user) && Enabled(w, ApplyWrite(i))
    requires var request := w.devices[i].flow.request;
             request.profile == home.profile && Lands(w.gateway[home.profile], request, home.key)
    ensures var request := w.devices[i].flow.request;
            && StampAt(w.gateway, home) <= AppStampOf(request.sections[home.key])
            && StampAt(Applied(w, i).gateway, home) == AppStampOf(request.sections[home.key])
            && RevisionAt(Applied(w, i).gateway, home) == RevisionAt(w.gateway, home) + 1
  {
    var d := w.devices[i];
    assert DeviceNames(d, w.accepted);
    OnlyOwnersCarry(d, home, user, w.accepted);
    assert DeviceOk(d, w.history, RevisionAt(w.gateway, home), home);
    assert RequestOk(d.flow.request, w.history, RevisionAt(w.gateway, home), home);
    WrittenHome(w.gateway[home.profile], d.flow.request, home);
  }

  /** A write that does not land at the home key leaves it as it was. */
  lemma OtherwiseUntouched(w: World, i: nat, home: Place)
    requires Enabled(w, ApplyWrite(i))
    requires var request := w.devices[i].flow.request;
             !(request.profile == home.profile && home.profile in w.gateway
               && Lands(w.gateway[home.profile], request, home.key))
    ensures var g' := Applied(w, i).gateway;
            StampAt(g', home) == StampAt(w.gateway, home) && RevisionAt(g', home) == RevisionAt(w.gateway, home)
  {
    var request := w.devices[i].flow.request;
    if request.profile == home.profile {
      WrittenHome(w.gateway[home.profile], request, home);
    }
  }

  lemma AppliedChronicle(w: World, i: nat, home: Place, user: string)
    requires Ordered(w, home, user) && Enabled(w, ApplyWrite(i))
    ensures var w' := Recorded(Applied(w, i), home);
            && Home(w'.gateway, home, user) && Chronicle(w'.gateway, w'.history, home)
            && Grows(w.history, RevisionAt(w.gateway, home), w'.history, RevisionAt(w'.gateway, home))
            && StampAt(w.gateway, home) <= StampAt(w'.gateway, home)
  {
    var request := w.devices[i].flow.request;
    if request.profile == home.profile && Lands(w.gateway[home.profile], request, home.key) {
      LandingIsNoOlder(w, i, home, user);
    } else {
      OtherwiseUntouched(w, i, home);
    }
  }

  lemma AppliedReply(w: World, i: nat, home: Place, user: string)
    requires Ordered(w, home, user) && Enabled(w, ApplyWrite(i)) && w.devices[i].sync.userId == user
    ensures var w' := Recorded(Applied(w, i), home);
            DeviceOk(w'.devices[i], w'.history, RevisionAt(w'.gateway, home), home)
  {
    var d, w' := w.devices[i], Recorded(Applied(w, i), home);
    AppliedChronicle(w, i, home, user);
    DeviceGrows(d, w.history, RevisionAt(w.gateway, home), w'.history, RevisionAt(w'.gateway, home), home);
    var request := d.flow.request;
    if request.profile == home.profile {
      WrittenHome(w.gateway[home.profile], request, home);
    }
  }

  // ----------------------------------------------------------------- steps

  lemma StepOrdered(w: World, a: Action, home: Place, user: string)
    requires Ordered(w, home, user) && Enabled(w, a) && Careful(w, a, home, user)
    ensures Ordered(Next(w, a, home), home, user)
    ensures StampAt(w.gateway, home) <= StampAt(Next(w, a, home).gateway, home)
  {
    StepNames(w, a, home);
    if a.ApplyWrite? {
      ApplyOrdered(w, a.i, home, user);
    } else if a.Foreign? {
      ForeignOrdered(w, a, home, user);
    } else {
      OwnOrdered(w, a, home, user);
    }
  }

  lemma OwnOrdered(w: World, a: Action, home: Place, user: string)
    requires Ordered(w, home, user) && Enabled(w, a) && Careful(w, a, home, user) && Names(Next(w, a, home))
    requires !a.Foreign? && !a.ApplyWrite?
    ensures Ordered(Next(w, a, home), home, user) && Next(w, a, home).gateway == w.gateway
  {
    OthersStay(w, a, home);
    StepKeepsUsers(w, a, home);
    if w.devices[a.i].sync.userId == user {
      LocalOk(w, a, home, user);
    }
  }

  lemma ApplyOrdered(w: World, i: nat, home: Place, user: string)
    requires Ordered(w, home, user) && Enabled(w, ApplyWrite(i)) && Names(Next(w, ApplyWrite(i), home))
    ensures Ordered(Next(w, ApplyWrite(i), home), home, user)
    ensures StampAt(w.gateway, home) <= StampAt(Next(w, ApplyWrite(i), home).gateway, home)
  {
    var w' := Next(w, ApplyWrite(i), home);
    var now, later := RevisionAt(w.gateway, home), RevisionAt(w'.gateway, home);
    AppliedChronicle(w, i, home, user);
    forall j | 0 <= j < |w'.devices| && w'.devices[j].sync.userId == user ensures DeviceOk(w'.devices[j], w'.history, later, home) {
      if j == i {
        AppliedReply(w, i, home, user);
      } else {
        DeviceGrows(w.devices[j], w.history, now, w'.history, later, home);
      }
    }
  }

  lemma ForeignOrdered(w: World, a: Action, home: Place, user: string)
    requires Ordered(w, home, user) && Enabled(w, a) && a.Foreign? && Careful(w, a, home, user) && Names(Next(w, a, home))
    ensures Ordered(Next(w, a, home), home, user)
    ensures StampAt(w.gateway, home) <= StampAt(Next(w, a, home).gateway, home)
  {
    var w' := Next(w, a, home);
    var now, later := RevisionAt(w.gateway, home), RevisionAt(w'.gateway, home);
    assert later == if a.place == home then now + 1 else now;
    assert Grows(w.history, now, w'.history, later);
    forall j | 0 <= j < |w'.devices| && w'.devices[j].sync.userId == user ensures DeviceOk(w'.devices[j], w'.history, later, home) {
      DeviceGrows(w.devices[j], w.history, now, w'.history, later, home);
    }
  }

  // ------------------------------------------------------------ over runs

  predicate CarefulRun(w: World, actions: seq<Action>, home: Place, user: string)
    requires Run(w, actions, home).Some?
    decreases |actions|
  {
    actions == [] || (Careful(w, actions[0], home, user) && CarefulRun(Next(w, actions[0], home), actions[1..], home, user))
  }

  /** Devices that have read nothing yet, and a gateway whose revisions count writes. */
  ghost predicate Beginning(w: World, home: Place, user: string) {
    && Starting(w) && Home(w.gateway, home, user)
    && (forall i :: 0 <= i < |w.devices| ==> w.devices[i].sync.revisions == map[] && w.devices[i].sync.defaultProfile.None?)
    && RevisionAt(w.gateway, home) >= 0
    && (RevisionAt(w.gateway, home) == 0 ==> StampAt(w.gateway, home) == 0)
    && w.history == map[0 := 0][RevisionAt(w.gateway, home) := StampAt(w.gateway, home)]
  }

  lemma BeginsOrdered(w: World, home: Place, user: string)
    requires Beginning(w, home, user)
    ensures Ordered(w, home, user)
  {
  }

  lemma {:induction false} RunOrdered(w: World, actions: seq<Action>, home: Place, user: string)
    requires Ordered(w, home, user) && Run(w, actions, home).Some? && CarefulRun(w, actions, home, user)
    ensures var w' := Run(w, actions, home).value;
            Ordered(w', home, user) && StampAt(w.gateway, home) <= StampAt(w'.gateway, home)
    decreases |actions|
  {
    if actions != [] {
      StepOrdered(w, actions[0], home, user);
      RunOrdered(Next(w, actions[0], home), actions[1..], home, user);
    }
  }

  /**
   * Over any interleaving of any number of devices, the stamp of a person's app section never goes
   * back: from any moment of a run to any later one.
   */
  lemma StampsNeverGoBack(w: World, before: seq<Action>, after: seq<Action>, home: Place, user: string)
    requires Beginning(w, home, user)
    requires Run(w, before, home).Some? && CarefulRun(w, before, home, user)
    requires Run(Run(w, before, home).value, after, home).Some?
             && CarefulRun(Run(w, before, home).value, after, home, user)
    ensures var mid := Run(w, before, home).value;
            StampAt(w.gateway, home) <= StampAt(mid.gateway, home)
            && StampAt(mid.gateway, home) <= StampAt(Run(mid, after, home).value.gateway, home)
  {
    BeginsOrdered(w, home, user);
    RunOrdered(w, before, home, user);
    RunOrdered(Run(w, before, home).value, after, home, user);
  }
}
