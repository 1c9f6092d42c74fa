/** What a device may write, and what a cleared mark proves. */
module SettingsKeys {
  import opened Prelude
  import opened SettingsSync
  import opened SettingsWorld

  // ------------------------------------------------------------- invariant

  /** The only keys a client signed in as `userId` ever names. */
  predicate OwnKey(userId: string, key: string) {
    key == HERMIE_KEY || key == HERMIE_APP_KEY || (userId != "" && key == AppKeyFor(userId))
  }

  ghost predicate OwnBatch(userId: string, b: Batch) {
    forall key :: key in b.keys ==> OwnKey(userId, key)
  }

  ghost predicate OwnBatches(userId: string, batches: seq<Batch>) {
    forall i :: 0 <= i < |batches| ==> OwnBatch(userId, batches[i])
  }

  /** The batches of a flush that are not finished, the one under way first. */
  function Queue(flow: Flow): seq<Batch> {
    match flow
    case Idle => []
    case Sending(batch, _, rest, _, _) => [batch] + rest
    case Rereading(batch, _, rest, _) => [batch] + rest
  }

  /** The request is the one built for the batch, conditional on every key it names. */
  ghost predicate Sent(flow: Flow) {
    flow.Sending? ==>
      && flow.request.profile == flow.batch.profile
      && (forall key :: key in flow.request.sections <==> key in flow.batch.keys)
      && (forall key :: key in flow.batch.keys ==> key in flow.request.expected)
  }

  /** What an answer without a refusal says the gateway took. */
  ghost predicate Taken(flow: Flow, accepted: set<Write>) {
    flow.Sending? && flow.reply.Some? && flow.reply.value.conflicts == map[] ==>
      forall key :: key in flow.request.sections ==> Write(Place(flow.request.profile, key), flow.request.sections[key]) in accepted
  }

  ghost predicate DeviceNames(d: Device, accepted: set<Write>) {
    OwnBatches(d.sync.userId, Queue(d.flow)) && Sent(d.flow) && Taken(d.flow, accepted)
  }

  ghost predicate Names(w: World) {
    forall i :: 0 <= i < |w.devices| ==> DeviceNames(w.devices[i], w.accepted)
  }

  // ----------------------------------------------------------- preservation

  lemma {:induction false} AddKeysOwn(userId: string, batches: seq<Batch>, profile: string, keys: seq<string>)
    requires OwnBatches(userId, batches) && OwnBatch(userId, Batch(profile, keys))
    ensures OwnBatches(userId, AddKeys(batches, profile, keys))
    decreases |batches|
  {
    if batches != [] && batches[0].profile != profile {
      AddKeysOwn(userId, batches[1..], profile, keys);
    } else if batches != [] {
      assert OwnBatch(userId, batches[0]);
      assert forall i :: 1 <= i < |batches| ==> OwnBatch(userId, batches[i]);
    }
  }

  lemma BatchesOwn(s: Sync)
    ensures OwnBatches(s.userId, Batches(s))
  {
    if s.dirtyApp && s.defaultProfile.Some? && s.userId != "" {
      AddKeysOwn(s.userId, BotBatches(s.dirtyBots), s.defaultProfile.value, AppKeys(s));
    }
  }

  lemma SendNextNames(d: Device, rest: seq<Batch>, accepted: set<Write>)
    requires OwnBatches(d.sync.userId, rest)
    ensures DeviceNames(SendNext(d, rest), accepted)
  {
  }

  lemma BeginFlushNames(d: Device, accepted: set<Write>)
    requires DeviceNames(d, accepted)
    ensures DeviceNames(BeginFlush(d), accepted)
  {
    if d.flow.Idle? {
      BatchesOwn(d.sync);
      SendNextNames(d, Batches(d.sync), accepted);
    }
  }

  ghost predicate OnlyBots(keys: seq<string>) {
    forall key :: key in keys ==> key == HERMIE_KEY
  }

  lemma {:induction false} ClearDirtyKeeps(s: Sync, profile: string, keys: seq<string>)
    ensures var c := ClearDirty(s, profile, keys);
            c == s.(dirtyBots := c.dirtyBots, dirtyApp := c.dirtyApp)
            && c.dirtyApp == (s.dirtyApp && OnlyBots(keys))
            && (forall name :: name in c.dirtyBots <==> name in s.dirtyBots && (name == profile ==> HERMIE_KEY !in keys))
    decreases |keys|
  {
    if keys != [] {
      ClearDirtyKeeps(s, profile, keys[..|keys| - 1]);
      var front, last := keys[..|keys| - 1], keys[|keys| - 1];
      assert forall key :: key in keys <==> key in front || key == last;
      assert last in keys;
      assert OnlyBots(keys) ==> OnlyBots(front) && last == HERMIE_KEY;
    }
  }

  lemma {:induction false} SeedBotsKeeps(s: Sync, names: seq<string>, remote: Snapshot, local: Local)
    ensures var c := SeedBots(s, names, remote, local); c == s.(dirtyBots := c.dirtyBots)
    decreases |names|
  {
    if names != [] {
      SeedBotsKeeps(s, names[..|names| - 1], remote, local);
    }
  }

  /** Reconciling changes what is known and what is dirty, and never drops the mark on the app section. */
  lemma ReconciledKeeps(s: Sync, roster: Roster, local: Local, adopted: Local)
    ensures var c := Reconciled(s, roster, local, adopted);
            c.userId == s.userId && c.revisions == Pulled(s, roster).revisions && (s.dirtyApp ==> c.dirtyApp)
            && c.defaultProfile == Pulled(s, roster).defaultProfile
  {
    var remote := Remote(s, roster);
    var noted := NoteNewerLocalApp(Pulled(s, roster), remote, local);
    SeedBotsKeeps(if remote.app.None? && adopted.app.Some? then noted.(dirtyApp := true) else noted,
                  adopted.names, remote, adopted);
  }

  lemma NextAttemptNames(d: Device, batch: Batch, attempt: nat, rest: seq<Batch>, accepted: set<Write>)
    requires OwnBatches(d.sync.userId, [batch] + rest)
    ensures DeviceNames(NextAttempt(d, batch, attempt, rest), accepted)
  {
    if attempt >= RETRIES {
      assert ([batch] + rest)[1..] == rest;
      SendNextNames(d, rest, accepted);
    }
  }

  lemma TakingAnswerNames(d: Device, accepted: set<Write>)
    requires DeviceNames(d, accepted) && d.flow.Sending? && d.flow.reply.Some?
    ensures DeviceNames(TakingAnswer(d), accepted)
  {
    var noted := NoteAnswer(d.sync, d.flow.batch.profile, d.flow.reply.value);
    ClearDirtyKeeps(noted, d.flow.batch.profile, d.flow.batch.keys);
    if d.flow.reply.value.conflicts == map[] {
      assert ([d.flow.batch] + d.flow.rest)[1..] == d.flow.rest;
      SendNextNames(d.(sync := ClearDirty(noted, d.flow.batch.profile, d.flow.batch.keys)), d.flow.rest, accepted);
    }
  }

  lemma AppliedNames(w: World, i: nat)
    requires Names(w) && Enabled(w, ApplyWrite(i))
    ensures Names(Applied(w, i))
  {
    var d, w' := w.devices[i], Applied(w, i);
    var request, p := d.flow.request, w.gateway[d.flow.request.profile];
    assert DeviceNames(d, w.accepted);
    assert DeviceNames(w'.devices[i], w'.accepted) by {
      if AnswerTo(p, request).conflicts == map[] {
        forall key | key in request.sections
          ensures Write(Place(request.profile, key), request.sections[key]) in w'.accepted
        {
          assert key !in AnswerTo(p, request).conflicts;
          assert key in Landed(p, request);
        }
      }
    }
    forall j | 0 <= j < |w.devices| && j != i ensures DeviceNames(w'.devices[j], w'.accepted) {
      assert DeviceNames(w.devices[j], w.accepted);
    }
  }

  /** A device's own step, other than the gateway's answer to it. */
  lemma LocalNames(w: World, a: Action, home: Place)
    requires Names(w) && Enabled(w, a) && !a.Foreign? && !a.ApplyWrite?
    ensures DeviceNames(Next(w, a, home).devices[a.i], w.accepted)
  {
    var d := w.devices[a.i];
    assert DeviceNames(d, w.accepted);
    match a
    case TakeRoster(i, j, adopted) =>
      ReconciledKeeps(d.sync, d.pulls[j].roster, d.local, adopted);
      BeginFlushNames(d.(sync := Reconciled(d.sync, d.pulls[j].roster, d.local, adopted), local := adopted,
                         pulls := DropAt(d.pulls, j)), w.accepted);
    case Flush(i) => BeginFlushNames(d, w.accepted);
    case LoseWrite(i) =>
      assert ([d.flow.batch] + d.flow.rest)[1..] == d.flow.rest;
      SendNextNames(d.(sync := d.sync.(synced := false)), d.flow.rest, w.accepted);
    case TakeAnswer(i) => TakingAnswerNames(d, w.accepted);
    case LoseReread(i) =>
      NextAttemptNames(d.(sync := d.sync.(synced := false)), d.flow.batch, d.flow.attempt, d.flow.rest, w.accepted);
    case TakeReread(i, adopted) =>
      NextAttemptNames(d.(sync := Pulled(d.sync, d.flow.roster.value), local := adopted),
                       d.flow.batch, d.flow.attempt, d.flow.rest, w.accepted);
    case _ =>
  }

  lemma StepNames(w: World, a: Action, home: Place)
    requires Names(w) && Enabled(w, a)
    ensures Names(Next(w, a, home))
  {
    if a.ApplyWrite? {
      AppliedNames(w, a.i);
    } else if !a.Foreign? {
      LocalNames(w, a, home);
      OthersStay(w, a, home);
    }
  }

  /** A device's own step touches no other device, and nothing the gateway keeps. */
  lemma OthersStay(w: World, a: Action, home: Place)
    requires Enabled(w, a) && !a.Foreign? && !a.ApplyWrite?
    ensures var w' := Next(w, a, home); w' == w.(devices := w.devices[a.i := w'.devices[a.i]])
  {
  }

  // ----------------------------------------------------------------- runs

  function Run(w: World, actions: seq<Action>, home: Place): (r: Option<World>)
    ensures r.Some? ==> |r.value.devices| == |w.devices|
    decreases |actions|
  {
    if actions == [] then Some(w)
    else if !Enabled(w, actions[0]) then None
    else Run(Next(w, actions[0], home), actions[1..], home)
  }

  /** Devices that have not done anything yet. */
  ghost predicate Starting(w: World) {
    forall i :: 0 <= i < |w.devices| ==> w.devices[i].flow.Idle? && w.devices[i].pulls == []
  }

  ghost predicate Untouched(g: Gateway, g': Gateway, place: Place) {
    && (place.profile in g <==> place.profile in g')
    && (place.profile in g ==>
          && RevisionAt(g, place) == RevisionAt(g', place)
          && (place.key in g[place.profile].bag <==> place.key in g'[place.profile].bag)
          && (place.key in g[place.profile].bag ==> g[place.profile].bag[place.key] == g'[place.profile].bag[place.key]))
  }

  /** A key that is neither Hermie's nor that of anybody signed in. */
  ghost predicate Elsewhere(w: World, key: string) {
    forall i :: 0 <= i < |w.devices| ==> !OwnKey(w.devices[i].sync.userId, key)
  }

  lemma StepKeepsUsers(w: World, a: Action, home: Place)
    requires Enabled(w, a)
    ensures var w' := Next(w, a, home);
            |w'.devices| == |w.devices|
            && (forall i :: 0 <= i < |w.devices| ==> w'.devices[i].sync.userId == w.devices[i].sync.userId)
  {
    if !a.Foreign? {
      var d := w.devices[a.i];
      match a
      case TakeRoster(_, j, adopted) => ReconciledKeeps(d.sync, d.pulls[j].roster, d.local, adopted);
      case TakeAnswer(_) =>
        ClearDirtyKeeps(NoteAnswer(d.sync, d.flow.batch.profile, d.flow.reply.value), d.flow.batch.profile, d.flow.batch.keys);
      case _ =>
    }
  }

  lemma StepElsewhere(w: World, a: Action, home: Place, place: Place)
    requires Names(w) && Enabled(w, a) && Elsewhere(w, place.key) && !(a.Foreign? && a.place == place)
    ensures Untouched(w.gateway, Next(w, a, home).gateway, place)
  {
    if a.ApplyWrite? {
      var d := w.devices[a.i];
      assert DeviceNames(d, w.accepted) && Queue(d.flow)[0] == d.flow.batch;
      assert OwnBatch(d.sync.userId, d.flow.batch);
    }
  }

  /** In any run, a key that is not Hermie's keeps the value and the revision its owner gave it. */
  lemma {:induction false} OtherKeysKeepTheirValue(w: World, actions: seq<Action>, home: Place, place: Place)
    requires Names(w) && Elsewhere(w, place.key) && Run(w, actions, home).Some?
    requires forall i :: 0 <= i < |actions| ==> !(actions[i].Foreign? && actions[i].place == place)
    ensures Untouched(w.gateway, Run(w, actions, home).value.gateway, place)
    decreases |actions|
  {
    if actions != [] {
      var a := actions[0];
      StepElsewhere(w, a, home, place);
      StepNames(w, a, home);
      StepKeepsUsers(w, a, home);
      OtherKeysKeepTheirValue(Next(w, a, home), actions[1..], home, place);
    }
  }

  lemma {:induction false} RunNames(w: World, actions: seq<Action>, home: Place)
    requires Names(w) && Run(w, actions, home).Some?
    ensures Names(Run(w, actions, home).value)
    decreases |actions|
  {
    if actions != [] {
      StepNames(w, actions[0], home);
      RunNames(Next(w, actions[0], home), actions[1..], home);
    }
  }

  /** The mark a key is dirty by: its bot's, or the app section's. */
  predicate Dirty(s: Sync, place: Place) {
    if place.key == HERMIE_KEY then place.profile in s.dirtyBots else s.dirtyApp
  }

  /** The request named the key whose mark this is. */
  ghost predicate Settles(request: Request, place: Place) {
    if place.key == HERMIE_KEY then HERMIE_KEY in request.sections && request.profile == place.profile
    else exists key :: key in request.sections && key != HERMIE_KEY
  }

  /** Every byte of the request is on the gateway's record of what it took. */
  ghost predicate Accepted(request: Request, accepted: set<Write>) {
    forall key :: key in request.sections ==> Write(Place(request.profile, key), request.sections[key]) in accepted
  }

  lemma OnlyAnswersClear(w: World, a: Action, home: Place, place: Place)
    requires Names(w) && Enabled(w, a) && !a.Foreign? && Dirty(w.devices[a.i].sync, place)
    requires !Dirty(Next(w, a, home).devices[a.i].sync, place)
    ensures var flow := w.devices[a.i].flow;
            a.TakeAnswer? && flow.Sending? && Settles(flow.request, place) && Accepted(flow.request, w.accepted)
  {
    var d := w.devices[a.i];
    assert DeviceNames(d, w.accepted);
    match a
    case TakeRoster(_, j, adopted) =>
      ReconciledKeeps(d.sync, d.pulls[j].roster, d.local, adopted);
      ReconciledKeepsBots(d.sync, d.pulls[j].roster, d.local, adopted);
    case TakeAnswer(_) =>
      var noted := NoteAnswer(d.sync, d.flow.batch.profile, d.flow.reply.value);
      ClearDirtyKeeps(noted, d.flow.batch.profile, d.flow.batch.keys);
      if place.key != HERMIE_KEY {
        assert !OnlyBots(d.flow.batch.keys);
        var key :| key in d.flow.batch.keys && key != HERMIE_KEY;
        assert key in d.flow.request.sections;
      }
    case _ =>
  }

  /**
   * Whenever a step of any run clears a mark, the gateway had accepted, for every key of the request
   * that cleared it, the bytes built for that attempt.
   */
  lemma AClearedMarkWasAccepted(start: World, actions: seq<Action>, home: Place, a: Action, place: Place)
    requires Starting(start) && Run(start, actions, home).Some?
    requires var w := Run(start, actions, home).value;
             Enabled(w, a) && !a.Foreign? && Dirty(w.devices[a.i].sync, place)
             && !Dirty(Next(w, a, home).devices[a.i].sync, place)
    ensures var w := Run(start, actions, home).value;
            var flow := w.devices[a.i].flow;
            a.TakeAnswer? && flow.Sending? && Settles(flow.request, place) && Accepted(flow.request, w.accepted)
  {
    assert Names(start);
    RunNames(start, actions, home);
    OnlyAnswersClear(Run(start, actions, home).value, a, home, place);
  }

  lemma {:induction false} SeedBotsMarks(s: Sync, names: seq<string>, remote: Snapshot, local: Local)
    ensures forall name :: name in s.dirtyBots ==> name in SeedBots(s, names, remote, local).dirtyBots
    decreases |names|
  {
    if names != [] {
      SeedBotsMarks(s, names[..|names| - 1], remote, local);
    }
  }

  lemma ReconciledKeepsBots(s: Sync, roster: Roster, local: Local, adopted: Local)
    ensures forall name :: name in s.dirtyBots ==> name in Reconciled(s, roster, local, adopted).dirtyBots
  {
    var remote := Remote(s, roster);
    var noted := NoteNewerLocalApp(Pulled(s, roster), remote, local);
    SeedBotsMarks(if remote.app.None? && adopted.app.Some? then noted.(dirtyApp := true) else noted,
                  adopted.names, remote, adopted);
  }
}
