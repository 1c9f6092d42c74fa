/** Which steps can be careless at all: not an answer to a write of the app section itself. */
module SettingsAnswers {
  import opened Prelude
  import opened SettingsSync
  import opened SettingsWorld
  import opened SettingsKeys
  import opened SettingsStamps

  // ------------------------------------------------------------- invariant

  /** At most one profile of a flush carries the app section, and it is dirty until that profile is done. */
  ghost predicate QueueOk(dirtyApp: bool, queue: seq<Batch>) {
    && (forall i :: 0 <= i < |queue| && NamesApp(queue[i]) ==> dirtyApp)
    && (forall i, j :: 0 <= i < j < |queue| ==> !(NamesApp(queue[i]) && NamesApp(queue[j])))
  }

  /** The app section in flight is no newer than the app, and its answer names the revision it became. */
  ghost predicate CarriedOk(flow: Flow, local: Local, history: map<int, nat>, home: Place) {
    Carries(flow, home) ==>
      && AppStampOf(flow.request.sections[home.key]) <= AppStampOf(local.app)
      && (flow.reply.Some? && home.key !in flow.reply.value.conflicts ==>
            home.key in flow.reply.value.revisions
            && Shown(history, flow.reply.value.revisions[home.key], flow.request.sections[home.key]))
  }

  ghost predicate Aligned(d: Device, history: map<int, nat>, home: Place) {
    QueueOk(d.sync.dirtyApp, Queue(d.flow)) && CarriedOk(d.flow, d.local, history, home)
  }

  ghost predicate AllAligned(w: World, home: Place, user: string) {
    forall i :: 0 <= i < |w.devices| && w.devices[i].sync.userId == user ==> Aligned(w.devices[i], w.history, home)
  }

  // -------------------------------------------------------------- the queue

  lemma {:induction false} AddKeysQueue(batches: seq<Batch>, profile: string, keys: seq<string>)
    requires forall i :: 0 <= i < |batches| ==> !NamesApp(batches[i])
    ensures QueueOk(true, AddKeys(batches, profile, keys))
    ensures var added := AddKeys(batches, profile, keys); |added| > 0
    decreases |batches|
  {
    if batches != [] && batches[0].profile != profile {
      AddKeysQueue(batches[1..], profile, keys);
      var rest := AddKeys(batches[1..], profile, keys);
      assert forall i :: 1 <= i < |[batches[0]] + rest| ==> ([batches[0]] + rest)[i] == rest[i - 1];
    } else if batches != [] {
      assert forall i :: 1 <= i < |batches| ==> batches[1..][i - 1] == batches[i];
    }
  }

  lemma BatchesQueue(s: Sync)
    ensures QueueOk(s.dirtyApp, Batches(s))
  {
    assert forall i :: 0 <= i < |s.dirtyBots| ==> !NamesApp(BotBatches(s.dirtyBots)[i]);
    if s.dirtyApp && s.defaultProfile.Some? && s.userId != "" {
      AddKeysQueue(BotBatches(s.dirtyBots), s.defaultProfile.value, AppKeys(s));
    }
  }

  /** What is left of a queue; and nothing left names the app section once its batch is done. */
  lemma RestQueue(dirtyApp: bool, batch: Batch, rest: seq<Batch>)
    requires QueueOk(dirtyApp, [batch] + rest)
    ensures QueueOk(dirtyApp, rest) && (NamesApp(batch) ==> QueueOk(false, rest))
  {
    var queue := [batch] + rest;
    assert forall i :: 0 <= i < |rest| ==> rest[i] == queue[i + 1];
    assert queue[0] == batch;
  }

  lemma SendNextAligned(d: Device, rest: seq<Batch>, history: map<int, nat>, home: Place, user: string)
    requires home.key == AppKeyFor(user) && QueueOk(d.sync.dirtyApp, rest)
    ensures Aligned(SendNext(d, rest), history, home)
  {
    if rest != [] {
      assert [rest[0]] + rest[1..] == rest;
      SentStamp(d.sync, rest[0].profile, home, user, d.local);
    }
  }

  lemma BeginFlushAligned(d: Device, history: map<int, nat>, home: Place, user: string)
    requires home.key == AppKeyFor(user) && Aligned(d, history, home)
    ensures Aligned(BeginFlush(d), history, home)
  {
    if d.flow.Idle? {
      BatchesQueue(d.sync);
      SendNextAligned(d, Batches(d.sync), history, home, user);
    }
  }

  lemma NextAttemptAligned(d: Device, batch: Batch, attempt: nat, rest: seq<Batch>, history: map<int, nat>, home: Place,
                           user: string)
    requires home.key == AppKeyFor(user) && QueueOk(d.sync.dirtyApp, [batch] + rest)
    ensures Aligned(NextAttempt(d, batch, attempt, rest), history, home)
  {
    if attempt < RETRIES {
      SentStamp(d.sync, batch.profile, home, user, d.local);
    } else {
      RestQueue(d.sync.dirtyApp, batch, rest);
      SendNextAligned(d, rest, history, home, user);
    }
  }

  lemma CarriedIsDirty(d: Device, history: map<int, nat>, home: Place, user: string, accepted: set<Write>)
    requires home.key == AppKeyFor(user) && Aligned(d, history, home) && DeviceNames(d, accepted) && Carries(d.flow, home)
    ensures d.sync.dirtyApp && NamesApp(d.flow.batch)
  {
    HomeKeyIsItsOwn(home, user);
    assert home.key in d.flow.batch.keys;
    assert NamesApp(Queue(d.flow)[0]);
  }

  // ----------------------------------------------------------------- steps

  /**
   * An app that never dates itself back, nobody else dating the home key back, and two things that need
   * watching: a re-read that fails, and an answer to a write of other keys.
   */
  predicate Prudent(w: World, a: Action, home: Place, user: string)
    requires Enabled(w, a)
  {
    if a.Foreign? then StampAt(w.gateway, home) <= StampAt(Next(w, a, home).gateway, home)
    else
      w.devices[a.i].sync.userId == user ==>
        && (a.Edit? ==> AppStampOf(w.devices[a.i].local.app) <= AppStampOf(a.local.app))
        && (a.LoseReread? || (a.TakeAnswer? && !Carries(w.devices[a.i].flow, home)) ==>
              !Exposed(Next(w, a, home).devices[a.i], w.gateway, home))
  }

  /** The answer to a write of the app section brings the device no revision it does not hold. */
  lemma ItsOwnAnswerIsCareful(d: Device, g: Gateway, history: map<int, nat>, home: Place, user: string, accepted: set<Write>)
    requires home.key == AppKeyFor(user) && Aligned(d, history, home) && DeviceNames(d, accepted)
    requires Home(g, home, user) && Chronicle(g, history, home)
    requires Carries(d.flow, home) && d.flow.reply.Some?
    ensures !Exposed(TakingAnswer(d), g, home)
  {
    var batch, answer := d.flow.batch, d.flow.reply.value;
    NotedHome(d.sync, batch.profile, answer, home);
    ClearDirtyKeeps(NoteAnswer(d.sync, batch.profile, answer), batch.profile, batch.keys);
  }

  lemma PrudentIsCareful(w: World, a: Action, home: Place, user: string)
    requires Ordered(w, home, user) && AllAligned(w, home, user) && Enabled(w, a) && Prudent(w, a, home, user)
    ensures Careful(w, a, home, user)
  {
    if a.Foreign? {
    } else if w.devices[a.i].sync.userId == user && a.TakeAnswer? {
      var d := w.devices[a.i];
      assert DeviceNames(d, w.accepted);
      if Carries(d.flow, home) {
        ItsOwnAnswerIsCareful(d, w.gateway, w.history, home, user, w.accepted);
      }
    } else if w.devices[a.i].sync.userId == user && a.Edit? {
      var d := w.devices[a.i];
      assert DeviceOk(d, w.history, RevisionAt(w.gateway, home), home);
      if !d.flow.Rereading? {
        NotExposedIsBacked(d, w.gateway, w.history, home);
      }
    }
  }

  lemma TakingRosterAligned(d: Device, j: nat, adopted: Local, history: map<int, nat>, now: int, home: Place, user: string,
                            accepted: set<Write>)
    requires user != "" && home.key == AppKeyFor(user) && home.profile != "" && d.sync.userId == user
    requires DeviceOk(d, history, now, home) && Aligned(d, history, home) && DeviceNames(d, accepted)
    requires j < |d.pulls| && d.pulls[j].Listed? && Adopts(d.local, Offered(d.sync, d.pulls[j].roster, d.local), adopted)
    ensures Aligned(TakingRoster(d, j, adopted), history, home)
  {
    var roster := d.pulls[j].roster;
    var taken := d.(sync := Reconciled(d.sync, roster, d.local, adopted), local := adopted, pulls := DropAt(d.pulls, j));
    PullShows(d.sync, roster, history, home, user);
    AdoptionBacks(d.sync, roster, d.local, adopted, history, home, true);
    ReconciledKeeps(d.sync, roster, d.local, adopted);
    if Carries(d.flow, home) {
      CarriedIsDirty(d, history, home, user, accepted);
    }
    BeginFlushAligned(taken, history, home, user);
  }

  lemma TakingAnswerAligned(d: Device, history: map<int, nat>, home: Place, user: string)
    requires home.key == AppKeyFor(user) && Aligned(d, history, home) && d.flow.Sending? && d.flow.reply.Some?
    ensures Aligned(TakingAnswer(d), history, home)
  {
    var batch, answer := d.flow.batch, d.flow.reply.value;
    var noted := NoteAnswer(d.sync, batch.profile, answer);
    if answer.conflicts == map[] {
      ClearDirtyKeeps(noted, batch.profile, batch.keys);
      RestQueue(d.sync.dirtyApp, batch, d.flow.rest);
      assert OnlyBots(batch.keys) || NamesApp(batch);
      SendNextAligned(d.(sync := ClearDirty(noted, batch.profile, batch.keys)), d.flow.rest, history, home, user);
    }
  }

  lemma LosingWriteAligned(d: Device, history: map<int, nat>, home: Place, user: string)
    requires home.key == AppKeyFor(user) && Aligned(d, history, home) && d.flow.Sending?
    ensures Aligned(SendNext(d.(sync := d.sync.(synced := false)), d.flow.rest), history, home)
  {
    RestQueue(d.sync.dirtyApp, d.flow.batch, d.flow.rest);
    SendNextAligned(d.(sync := d.sync.(synced := false)), d.flow.rest, history, home, user);
  }

  lemma LocalAligned(w: World, a: Action, home: Place, user: string)
    requires Ordered(w, home, user) && Enabled(w, a) && Prudent(w, a, home, user)
    requires !a.Foreign? && !a.ApplyWrite? && w.devices[a.i].sync.userId == user && Aligned(w.devices[a.i], w.history, home)
    ensures Aligned(Next(w, a, home).devices[a.i], w.history, home)
  {
    if a.TakeRoster? || a.TakeReread? || a.LoseReread? {
      ReadAligned(w, a, home, user);
    } else if a.Flush? || a.LoseWrite? || a.TakeAnswer? {
      FlushAligned(w, a, home, user);
    } else {
      MinorAligned(w, a, home, user);
    }
  }

  lemma ReadAligned(w: World, a: Action, home: Place, user: string)
    requires Ordered(w, home, user) && Enabled(w, a) && (a.TakeRoster? || a.TakeReread? || a.LoseReread?)
    requires w.devices[a.i].sync.userId == user && Aligned(w.devices[a.i], w.history, home)
    ensures Aligned(Next(w, a, home).devices[a.i], w.history, home)
  {
    var d := w.devices[a.i];
    assert DeviceNames(d, w.accepted) && DeviceOk(d, w.history, RevisionAt(w.gateway, home), home);
    match a
    case TakeRoster(_, j, adopted) =>
      TakingRosterAligned(d, j, adopted, w.history, RevisionAt(w.gateway, home), home, user, w.accepted);
    case TakeReread(_, adopted) =>
      NextAttemptAligned(d.(sync := Pulled(d.sync, d.flow.roster.value), local := adopted),
                         d.flow.batch, d.flow.attempt, d.flow.rest, w.history, home, user);
    case LoseReread(_) =>
      NextAttemptAligned(d.(sync := d.sync.(synced := false)), d.flow.batch, d.flow.attempt, d.flow.rest,
                         w.history, home, user);
  }

  lemma FlushAligned(w: World, a: Action, home: Place, user: string)
    requires Enabled(w, a) && (a.Flush? || a.LoseWrite? || a.TakeAnswer?) && home.key == AppKeyFor(user)
    requires Aligned(w.devices[a.i], w.history, home)
    ensures Aligned(Next(w, a, home).devices[a.i], w.history, home)
  {
    var d := w.devices[a.i];
    match a
    case Flush(_) => BeginFlushAligned(d, w.history, home, user);
    case LoseWrite(_) => LosingWriteAligned(d, w.history, home, user);
    case TakeAnswer(_) => TakingAnswerAligned(d, w.history, home, user);
  }

  lemma MinorAligned(w: World, a: Action, home: Place, user: string)
    requires Enabled(w, a) && Prudent(w, a, home, user)
    requires a.Edit? || a.MarkApp? || a.MarkName? || a.AskRoster? || a.AnswerRoster? || a.LoseRoster? || a.AnswerReread?
    requires w.devices[a.i].sync.userId == user
    requires Aligned(w.devices[a.i], w.history, home)
    ensures Aligned(Next(w, a, home).devices[a.i], w.history, home)
  {
  }

  lemma AlignedGrows(d: Device, history: map<int, nat>, longer: map<int, nat>, home: Place)
    requires Aligned(d, history, home) && Extends(history, longer)
    ensures Aligned(d, longer, home)
  {
    if Carries(d.flow, home) && d.flow.reply.Some? && home.key !in d.flow.reply.value.conflicts {
      StaysOnRecord(history, longer, d.flow.reply.value.revisions[home.key]);
    }
  }

  /** The answer to the app section's own write names what the gateway holds of it from then on. */
  lemma AppliedAligned(w: World, i: nat, home: Place, user: string)
    requires Ordered(w, home, user) && Enabled(w, ApplyWrite(i)) && w.devices[i].sync.userId == user
    requires Aligned(w.devices[i], w.history, home)
    ensures var w' := Recorded(Applied(w, i), home); Aligned(w'.devices[i], w'.history, home)
  {
    var d, w' := w.devices[i], Recorded(Applied(w, i), home);
    AppliedChronicle(w, i, home, user);
    AlignedGrows(d, w.history, w'.history, home);
    var request := d.flow.request;
    if Carries(d.flow, home) && Lands(w.gateway[home.profile], request, home.key) {
      LandingIsNoOlder(w, i, home, user);
    }
  }

  lemma ApplyAligned(w: World, i: nat, home: Place, user: string)
    requires Ordered(w, home, user) && AllAligned(w, home, user) && Enabled(w, ApplyWrite(i))
    ensures AllAligned(Next(w, ApplyWrite(i), home), home, user)
  {
    var w' := Next(w, ApplyWrite(i), home);
    AppliedChronicle(w, i, home, user);
    forall j | 0 <= j < |w'.devices| && w'.devices[j].sync.userId == user ensures Aligned(w'.devices[j], w'.history, home) {
      if j == i {
        AppliedAligned(w, i, home, user);
      } else {
        AlignedGrows(w.devices[j], w.history, w'.history, home);
      }
    }
  }

  /** Whatever others write, what was on record stays there. */
  lemma OverwritingAligned(w: World, a: Action, home: Place, user: string)
    requires Ordered(w, home, user) && AllAligned(w, home, user) && Enabled(w, a) && a.Foreign?
    ensures AllAligned(Next(w, a, home), home, user)
  {
    var w' := Next(w, a, home);
    assert w'.devices == w.devices && Extends(w.history, w'.history);
    forall j | 0 <= j < |w'.devices| && w'.devices[j].sync.userId == user ensures Aligned(w'.devices[j], w'.history, home) {
      AlignedGrows(w.devices[j], w.history, w'.history, home);
    }
  }

  lemma StepAligned(w: World, a: Action, home: Place, user: string)
    requires Ordered(w, home, user) && AllAligned(w, home, user) && Enabled(w, a) && Prudent(w, a, home, user)
    ensures AllAligned(Next(w, a, home), home, user)
  {
    if a.ApplyWrite? {
      ApplyAligned(w, a.i, home, user);
    } else if a.Foreign? {
      OverwritingAligned(w, a, home, user);
    } else {
      OwnAligned(w, a, home, user);
    }
  }

  lemma OwnAligned(w: World, a: Action, home: Place, user: string)
    requires Ordered(w, home, user) && AllAligned(w, home, user) && Enabled(w, a) && Prudent(w, a, home, user)
    requires !a.Foreign? && !a.ApplyWrite?
    ensures AllAligned(Next(w, a, home), home, user)
  {
    OthersStay(w, a, home);
    StepKeepsUsers(w, a, home);
    if w.devices[a.i].sync.userId == user {
      LocalAligned(w, a, home, user);
    }
  }

  // ------------------------------------------------------------ over runs

  predicate PrudentRun(w: World, actions: seq<Action>, home: Place, user: string)
    requires Run(w, actions, home).Some?
    decreases |actions|
  {
    actions == [] || (Prudent(w, actions[0], home, user) && PrudentRun(Next(w, actions[0], home), actions[1..], home, user))
  }

  lemma {:induction false} PrudentFrom(w: World, actions: seq<Action>, home: Place, user: string)
    requires Ordered(w, home, user) && AllAligned(w, home, user)
    requires Run(w, actions, home).Some? && PrudentRun(w, actions, home, user)
    ensures CarefulRun(w, actions, home, user)
    decreases |actions|
  {
    if actions != [] {
      PrudentIsCareful(w, actions[0], home, user);
      StepOrdered(w, actions[0], home, user);
      StepAligned(w, actions[0], home, user);
      PrudentFrom(Next(w, actions[0], home), actions[1..], home, user);
    }
  }

  /**
   * In every run whose edits are not dated back, the answer to a write of the app section is careful
   * of itself, whatever happened while it was on its way: only answers about other keys and lost
   * re-reads need to be.
   */
  lemma PrudentRunsAreCareful(w: World, actions: seq<Action>, home: Place, user: string)
    requires Beginning(w, home, user) && Run(w, actions, home).Some? && PrudentRun(w, actions, home, user)
    ensures CarefulRun(w, actions, home, user)
    ensures StampAt(w.gateway, home) <= StampAt(Run(w, actions, home).value.gateway, home)
  {
    BeginsOrdered(w, home, user);
    PrudentFrom(w, actions, home, user);
    RunOrdered(w, actions, home, user);
  }
}
