/** Exactly which steps of a run put a person's stamp at risk. */
module SettingsExposure {
  import opened Prelude
  import opened SettingsSync
  import opened SettingsWorld
  import opened SettingsKeys
  import opened SettingsStamps

  // ---------------------------------------------------------- careful runs

  ghost predicate Goes<W(!new), A(!new)>(step: (W, A) -> Option<W>, w: W, run: seq<A>, w': W)
    decreases |run|
  {
    if run == [] then w == w' else step(w, run[0]).Some? && Goes(step, step(w, run[0]).value, run[1..], w')
  }

  lemma {:induction false} GoesJoin<W(!new), A(!new)>(step: (W, A) -> Option<W>, w: W, first: seq<A>, mid: W, second: seq<A>,
                                                      end: W)
    requires Goes(step, w, first, mid) && Goes(step, mid, second, end)
    ensures Goes(step, w, first + second, end)
    decreases |first|
  {
    if first == [] {
      assert first + second == second;
    } else {
      GoesJoin(step, step(w, first[0]).value, first[1..], mid, second, end);
      assert (first + second)[0] == first[0] && (first + second)[1..] == first[1..] + second;
    }
  }

  ghost function CarefulStep(home: Place, user: string): (World, Action) -> Option<World> {
    (w: World, a: Action) => if Enabled(w, a) && Careful(w, a, home, user) then Some(Next(w, a, home)) else None
  }

  ghost predicate Leads(w: World, run: seq<Action>, w': World, home: Place, user: string) {
    Goes(CarefulStep(home, user), w, run, w')
  }

  lemma {:induction false} LeadsRuns(w: World, run: seq<Action>, w': World, home: Place, user: string)
    requires Leads(w, run, w', home, user)
    ensures Run(w, run, home) == Some(w') && CarefulRun(w, run, home, user)
    decreases |run|
  {
    if run != [] {
      LeadsRuns(Next(w, run[0], home), run[1..], w', home, user);
    }
  }

  lemma OneLeads(w: World, a: Action, home: Place, user: string)
    requires Enabled(w, a) && Careful(w, a, home, user)
    ensures Leads(w, [a], Next(w, a, home), home, user)
  {
    assert [a][1..] == [];
  }

  lemma LeadsJoin(w: World, first: seq<Action>, mid: World, second: seq<Action>, end: World, home: Place, user: string)
    requires Leads(w, first, mid, home, user) && Leads(mid, second, end, home, user)
    ensures Leads(w, first + second, end, home, user)
  {
    GoesJoin(CarefulStep(home, user), w, first, mid, second, end);
  }

  // --------------------------------------------------- what a flush names

  ghost predicate Naming(b: Batch, place: Place) {
    b.profile == place.profile && place.key in b.keys
  }

  ghost predicate Named(batches: seq<Batch>, place: Place) {
    exists k :: 0 <= k < |batches| && Naming(batches[k], place)
  }

  lemma NamedSplits(first: Batch, rest: seq<Batch>, place: Place)
    ensures Named([first] + rest, place) <==> Naming(first, place) || Named(rest, place)
  {
    var all := [first] + rest;
    assert all[0] == first;
    if Named(rest, place) {
      var k :| 0 <= k < |rest| && Naming(rest[k], place);
      assert all[k + 1] == rest[k];
    }
    assert forall k :: 1 <= k < |all| ==> all[k] == rest[k - 1];
  }

  lemma {:induction false} AddKeysNames(batches: seq<Batch>, profile: string, keys: seq<string>, place: Place)
    ensures Named(AddKeys(batches, profile, keys), place) <==>
              Named(batches, place) || (place.profile == profile && place.key in keys)
    decreases |batches|
  {
    if batches == [] {
      assert AddKeys(batches, profile, keys) == [Batch(profile, keys)] + [];
      NamedSplits(Batch(profile, keys), [], place);
    } else {
      assert batches == [batches[0]] + batches[1..];
      NamedSplits(batches[0], batches[1..], place);
      if batches[0].profile == profile {
        NamedSplits(Batch(profile, batches[0].keys + keys), batches[1..], place);
      } else {
        AddKeysNames(batches[1..], profile, keys, place);
        NamedSplits(batches[0], AddKeys(batches[1..], profile, keys), place);
      }
    }
  }

  lemma BotBatchesName(names: seq<string>, place: Place)
    ensures Named(BotBatches(names), place) <==> place.key == HERMIE_KEY && place.profile in names
  {
    if place.key == HERMIE_KEY && place.profile in names {
      var k :| 0 <= k < |names| && names[k] == place.profile;
      assert Naming(BotBatches(names)[k], place);
    }
  }

  /** What a flush writes, of what is dirty. */
  lemma AFlushNames(s: Sync, place: Place)
    ensures Named(Batches(s), place) <==>
              || (place.key == HERMIE_KEY && place.profile in s.dirtyBots)
              || (s.dirtyApp && s.userId != "" && s.defaultProfile == Some(place.profile) && place.key in AppKeys(s))
  {
    BotBatchesName(s.dirtyBots, place);
    if s.dirtyApp && s.defaultProfile.Some? && s.userId != "" {
      AddKeysNames(BotBatches(s.dirtyBots), s.defaultProfile.value, AppKeys(s), place);
    }
  }

  // ------------------------------------------------- a device on its own

  /** Nothing but this device's flow has moved: its writes were lost. */
  ghost predicate OnlyLost(w: World, w': World, i: nat) {
    && i < |w.devices| && |w'.devices| == |w.devices| && w'.gateway == w.gateway
    && var d, d' := w.devices[i], w'.devices[i];
       d' == d.(flow := d'.flow, sync := d.sync.(synced := d'.sync.synced))
  }

  lemma LosingOne(w: World, i: nat, home: Place, user: string)
    requires i < |w.devices| && w.devices[i].flow.Sending?
    ensures Enabled(w, LoseWrite(i))
    ensures var w' := Next(w, LoseWrite(i), home);
            && Leads(w, [LoseWrite(i)], w', home, user) && OnlyLost(w, w', i)
            && w'.devices[i] == SendNext(w.devices[i].(sync := w.devices[i].sync.(synced := false)), w.devices[i].flow.rest)
  {
    OneLeads(w, LoseWrite(i), home, user);
  }

  /** A flush all of whose writes are lost is over. */
  lemma {:induction false} Drains(w: World, i: nat, home: Place, user: string) returns (run: seq<Action>, w': World)
    requires i < |w.devices| && !w.devices[i].flow.Rereading?
    ensures Leads(w, run, w', home, user) && OnlyLost(w, w', i) && w'.devices[i].flow.Idle?
    decreases |Queue(w.devices[i].flow)|
  {
    run, w' := [], w;
    if w.devices[i].flow.Sending? {
      LosingOne(w, i, home, user);
      var mid := Next(w, LoseWrite(i), home);
      var more;
      more, w' := Drains(mid, i, home, user);
      run := [LoseWrite(i)] + more;
      LeadsJoin(w, [LoseWrite(i)], mid, more, w', home, user);
    }
  }

  /** The request under way was built from what the device knows and holds. */
  ghost predicate JustBuilt(d: Device) {
    d.flow.Sending? ==> d.flow.reply.None? && d.flow.request == Attempt(d.sync, d.flow.batch, d.local)
  }

  /** Every write of a flush has its turn: here, after those before it are lost. */
  lemma {:induction false} ItsTurnComes(w: World, i: nat, place: Place, home: Place, user: string)
    returns (run: seq<Action>, w': World)
    requires i < |w.devices| && !w.devices[i].flow.Rereading? && JustBuilt(w.devices[i])
    requires Named(Queue(w.devices[i].flow), place)
    ensures Leads(w, run, w', home, user) && OnlyLost(w, w', i)
    ensures var d := w'.devices[i]; d.flow.Sending? && JustBuilt(d) && Naming(d.flow.batch, place)
    decreases |Queue(w.devices[i].flow)|
  {
    var flow := w.devices[i].flow;
    NamedSplits(flow.batch, flow.rest, place);
    if Naming(flow.batch, place) {
      run, w' := [], w;
    } else {
      LosingOne(w, i, home, user);
      var mid := Next(w, LoseWrite(i), home);
      assert [flow.rest[0]] + flow.rest[1..] == flow.rest;
      var more;
      more, w' := ItsTurnComes(mid, i, place, home, user);
      run := [LoseWrite(i)] + more;
      LeadsJoin(w, [LoseWrite(i)], mid, more, w', home, user);
    }
  }

  /** A flush begun by an idle device reaches the write of every key it names. */
  lemma AFlushReaches(w: World, i: nat, place: Place, home: Place, user: string) returns (run: seq<Action>, w': World)
    requires i < |w.devices| && w.devices[i].flow.Idle? && Named(Batches(w.devices[i].sync), place)
    ensures Leads(w, run, w', home, user) && OnlyLost(w, w', i)
    ensures var d := w'.devices[i]; d.flow.Sending? && JustBuilt(d) && Naming(d.flow.batch, place)
  {
    var batches := Batches(w.devices[i].sync);
    assert [batches[0]] + batches[1..] == batches;
    OneLeads(w, Flush(i), home, user);
    var mid := Next(w, Flush(i), home);
    var more;
    more, w' := ItsTurnComes(mid, i, place, home, user);
    run := [Flush(i)] + more;
    LeadsJoin(w, [Flush(i)], mid, more, w', home, user);
  }

  /** The write of a device that is behind, built from what it knows, lands with what it holds. */
  lemma BehindLands(w: World, i: nat, home: Place, user: string)
    requires user != "" && home.key == AppKeyFor(user) && home.profile in w.gateway
    requires i < |w.devices| && w.devices[i].flow.Sending? && JustBuilt(w.devices[i]) && Naming(w.devices[i].flow.batch, home)
    requires Behind(w.devices[i], w.gateway, home)
    ensures Enabled(w, ApplyWrite(i))
    ensures StampAt(Next(w, ApplyWrite(i), home).gateway, home) < StampAt(w.gateway, home)
  {
    var d := w.devices[i];
    assert Place(home.profile, home.key) == home;
    WrittenHome(w.gateway[home.profile], d.flow.request, home);
    SentStamp(d.sync, home.profile, home, user, d.local);
  }

  /**
   * From a device that is exposed, a continuation without a careless step lowers the stamp: it loses
   * the writes it had under way, is marked, and writes.
   */
  lemma AnExposedDeviceLowers(w: World, i: nat, home: Place, user: string) returns (more: seq<Action>)
    requires user != "" && home.key == AppKeyFor(user) && home.profile in w.gateway
    requires i < |w.devices| && w.devices[i].sync.userId == user && w.devices[i].sync.defaultProfile == Some(home.profile)
    requires Exposed(w.devices[i], w.gateway, home)
    ensures Run(w, more, home).Some? && CarefulRun(w, more, home, user)
    ensures StampAt(Run(w, more, home).value.gateway, home) < StampAt(w.gateway, home)
  {
    var drain, idle := Drains(w, i, home, user);
    var marked := Next(idle, MarkApp(i), home);
    OneLeads(idle, MarkApp(i), home, user);
    AFlushNames(marked.devices[i].sync, home);
    var flush, sending := AFlushReaches(marked, i, home, home, user);
    BehindLands(sending, i, home, user);
    OneLeads(sending, ApplyWrite(i), home, user);
    var end := Next(sending, ApplyWrite(i), home);
    LeadsJoin(w, drain, idle, [MarkApp(i)], marked, home, user);
    LeadsJoin(w, drain + [MarkApp(i)], marked, flush, sending, home, user);
    LeadsJoin(w, drain + [MarkApp(i)] + flush, sending, [ApplyWrite(i)], end, home, user);
    more := drain + [MarkApp(i)] + flush + [ApplyWrite(i)];
    LeadsRuns(w, more, end, home, user);
  }

  // -------------------------------------- the condition, before the step

  lemma WhatAnAnswerLeaves(d: Device, home: Place)
    requires d.flow.Sending? && d.flow.reply.Some? && d.flow.request.profile == d.flow.batch.profile
    ensures var answer, d' := d.flow.reply.value, TakingAnswer(d);
            && (d'.flow.Rereading? <==> answer.conflicts != map[])
            && d'.local == d.local && d'.sync.defaultProfile == d.sync.defaultProfile
            && (answer.conflicts == map[] ==>
                  Known(d'.sync, home) == if d.flow.request.profile == home.profile && home.key in answer.revisions
                                          then answer.revisions[home.key] else Known(d.sync, home))
  {
    var batch, answer := d.flow.batch, d.flow.reply.value;
    NotedHome(d.sync, batch.profile, answer, home);
    ClearDirtyKeeps(NoteAnswer(d.sync, batch.profile, answer), batch.profile, batch.keys);
  }

  /**
   * An answer is careless exactly when it refuses nothing and tells a device with a default profile
   * the gateway's own revision of the home key, while the app holds an older section than that.
   */
  lemma AnAnswerIsCarelessExactlyWhen(w: World, i: nat, home: Place, user: string)
    requires Ordered(w, home, user) && Enabled(w, TakeAnswer(i)) && w.devices[i].sync.userId == user
    ensures var d := w.devices[i];
            var answer := d.flow.reply.value;
            !Careful(w, TakeAnswer(i), home, user) <==>
              && answer.conflicts == map[] && d.sync.defaultProfile.Some?
              && d.flow.request.profile == home.profile && home.key in answer.revisions
              && answer.revisions[home.key] == RevisionAt(w.gateway, home)
              && AppStampOf(d.local.app) < StampAt(w.gateway, home)
  {
    var d := w.devices[i];
    assert DeviceNames(d, w.accepted);
    assert DeviceOk(d, w.history, RevisionAt(w.gateway, home), home);
    NotExposedIsBacked(d, w.gateway, w.history, home);
    WhatAnAnswerLeaves(d, home);
  }

  // ------------------------------------------------------ exactly when

  /** No careful continuation ever shows less than `stamp` at the home key. */
  ghost predicate NeverBelow(w: World, stamp: nat, home: Place, user: string) {
    forall more: seq<Action> :: Run(w, more, home).Some? && CarefulRun(w, more, home, user) ==>
      stamp <= StampAt(Run(w, more, home).value.gateway, home)
  }

  lemma CarefulIsNeverBelow(w: World, a: Action, home: Place, user: string)
    requires Ordered(w, home, user) && Enabled(w, a) && Careful(w, a, home, user)
    ensures NeverBelow(Next(w, a, home), StampAt(w.gateway, home), home, user)
  {
    StepOrdered(w, a, home, user);
    var w' := Next(w, a, home);
    forall more: seq<Action> | Run(w', more, home).Some? && CarefulRun(w', more, home, user)
      ensures StampAt(w.gateway, home) <= StampAt(Run(w', more, home).value.gateway, home)
    {
      RunOrdered(w', more, home, user);
    }
  }

  lemma CarelessIsBelow(w: World, a: Action, home: Place, user: string)
    requires Ordered(w, home, user) && Enabled(w, a) && !Careful(w, a, home, user)
    ensures !NeverBelow(Next(w, a, home), StampAt(w.gateway, home), home, user)
  {
    var w' := Next(w, a, home);
    if a.Foreign? {
      assert Run(w', [], home) == Some(w') && CarefulRun(w', [], home, user);
    } else {
      OthersStay(w, a, home);
      StepKeepsUsers(w, a, home);
      StaysAtHome(w, a, home, user);
      var more := AnExposedDeviceLowers(w', a.i, home, user);
    }
  }

  /** A device that writes its app section anywhere writes it at the home key. */
  lemma StaysAtHome(w: World, a: Action, home: Place, user: string)
    requires Ordered(w, home, user) && Enabled(w, a) && (a.Edit? || a.TakeAnswer? || a.LoseReread?)
    requires w.devices[a.i].sync.userId == user
    ensures var s := Next(w, a, home).devices[a.i].sync; s.defaultProfile.Some? ==> s.defaultProfile.value == home.profile
  {
    var d, now := w.devices[a.i], RevisionAt(w.gateway, home);
    assert DeviceOk(d, w.history, now, home) && DeviceNames(d, w.accepted);
    if a.TakeAnswer? {
      NotedIsOnRecord(d, w.history, now, home, w.accepted);
    }
  }

  /**
   * At any moment of any careful run, a step is careful exactly when no careful continuation of it
   * ever shows an older section than the gateway holds now: each careless step is the first half of
   * a lowering, and no other step is.
   */
  lemma AStepIsSafeExactlyWhen(start: World, before: seq<Action>, a: Action, home: Place, user: string)
    requires Beginning(start, home, user) && Run(start, before, home).Some? && CarefulRun(start, before, home, user)
    requires Enabled(Run(start, before, home).value, a)
    ensures var w := Run(start, before, home).value;
            Careful(w, a, home, user) <==> NeverBelow(Next(w, a, home), StampAt(w.gateway, home), home, user)
  {
    BeginsOrdered(start, home, user);
    RunOrdered(start, before, home, user);
    var w := Run(start, before, home).value;
    if Careful(w, a, home, user) {
      CarefulIsNeverBelow(w, a, home, user);
    } else {
      CarelessIsBelow(w, a, home, user);
    }
  }
}
