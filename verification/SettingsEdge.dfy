/** What happens where the conditions of the settings theorems are not met. */
module SettingsEdge {
  import opened Prelude
  import opened SettingsSync
  import opened SettingsWorld
  import opened SettingsKeys
  import opened SettingsStamps
  import opened SettingsExposure
  import opened SettingsVersions

  // ------------------------------------------------------------- the scene

  const USER := "u"
  const KEY := "hermie-app:u"
  const HOME := Place("d", "hermie-app:u")

  function Dated(at: int): Section {
    map["v" := Num(1.0), APP_UPDATED_AT := Num(at as real)]
  }

  function Holding(at: int): Local {
    Local(Some(Dated(at)), map[], [])
  }

  lemma DatedStamp(at: nat)
    ensures AppStampOf(Some(Dated(at))) == at
  {
  }

  lemma KeyIsHome()
    ensures KEY == AppKeyFor(USER) && KEY != HERMIE_KEY && KEY != HERMIE_APP_KEY
  {
  }

  /** One profile nobody has written, and two devices of one person that have read nothing. */
  const Empty := map["d" := Profile(true, map[], map[])]
  const Nothing := Local(None, map[], [])
  const New := Device(Sync(map[], None, USER, false, None, [], false, false), Nothing, [], Idle)
  const Both := World(Empty, [New, New], {}, map[0 := 0])

  lemma BothBegin()
    ensures Beginning(Both, HOME, USER)
  {
    KeyIsHome();
  }

  predicate Looks(w: World, first: Device, second: Device, g: Gateway, history: map<int, nat>) {
    w.devices == [first, second] && w.gateway == g && w.history == history
  }

  // ------------------------------------------------------- both have read

  const EmptyRoster := Roster([Row("d", true, Obj(map[]), map[])], true)
  const ReadNothing := map[Place("d", HERMIE_KEY) := 0, Place("d", HERMIE_APP_KEY) := 0, HOME := 0]
  const Ready := New.(sync := Sync(ReadNothing, Some("d"), USER, true, None, [], false, true))

  lemma ListingNothing()
    ensures Lists(Empty, ["d"]) && ListOf(Empty, ["d"], true) == EmptyRoster
  {
    assert ListOf(Empty, ["d"], true).rows == EmptyRoster.rows;
  }

  lemma ReadOneRow(r: Reading, row: Row, appKey: Option<string>)
    ensures ReadRows(r, [row], appKey) == ReadRow(r, row, appKey)
  {
  }

  lemma PullingNothing()
    ensures Pulled(New.sync, EmptyRoster) == Ready.sync && Remote(New.sync, EmptyRoster) == Snapshot(None, map[], None, None, false)
  {
    KeyIsHome();
    ReadOneRow(Reading(map[], None, map[], None, None), EmptyRoster.rows[0], AppKey(New.sync));
    assert Pulled(New.sync, EmptyRoster).revisions == ReadNothing;
  }

  lemma TakingNothing()
    ensures Adopts(Nothing, Offered(New.sync, EmptyRoster, Nothing), Nothing)
    ensures TakingRoster(New.(pulls := [Listed(EmptyRoster)]), 0, Nothing) == Ready
  {
    PullingNothing();
    assert Reconciled(New.sync, EmptyRoster, Nothing, Nothing) == Ready.sync;
    assert BotBatches([]) == [];
  }

  lemma Reads(w: World, i: nat)
    requires i < |w.devices| && w.devices[i] == New && w.gateway == Empty
    ensures Leads(w, [AskRoster(i), AnswerRoster(i, 0, ["d"], true), TakeRoster(i, 0, Nothing)], With(w, i, Ready), HOME, USER)
  {
    ListingNothing();
    TakingNothing();
    var asked := With(w, i, New.(pulls := [Unanswered]));
    var answered := With(w, i, New.(pulls := [Listed(EmptyRoster)]));
    var ask, answer, take := AskRoster(i), AnswerRoster(i, 0, ["d"], true), TakeRoster(i, 0, Nothing);
    assert [] + [Unanswered] == [Unanswered] && [Unanswered][0 := Listed(EmptyRoster)] == [Listed(EmptyRoster)];
    assert Next(w, ask, HOME) == asked;
    assert asked.devices[i := New.(pulls := [Listed(EmptyRoster)])] == answered.devices;
    assert answered.devices[i := Ready] == With(w, i, Ready).devices;
    OneLeads(w, ask, HOME, USER);
    OneLeads(asked, answer, HOME, USER);
    OneLeads(answered, take, HOME, USER);
    LeadsJoin(w, [ask], asked, [answer], answered, HOME, USER);
    LeadsJoin(w, [ask, answer], answered, [take], With(w, i, Ready), HOME, USER);
  }

  lemma BothRead()
    ensures Leads(Both, ReadRun, ReadWorld, HOME, USER) && Looks(ReadWorld, Ready, Ready, Empty, map[0 := 0])
  {
    Reads(Both, 0);
    var one := With(Both, 0, Ready);
    assert one.devices == [Ready, New];
    Reads(one, 1);
    assert With(one, 1, Ready).devices == [Ready, Ready];
    LeadsJoin(Both, ReadFirst, one, ReadSecond, ReadWorld, HOME, USER);
  }

  const ReadFirst := [AskRoster(0), AnswerRoster(0, 0, ["d"], true), TakeRoster(0, 0, Nothing)]
  const ReadSecond := [AskRoster(1), AnswerRoster(1, 0, ["d"], true), TakeRoster(1, 0, Nothing)]
  const ReadRun := ReadFirst + ReadSecond
  const ReadWorld := World(Empty, [Ready, Ready], {}, map[0 := 0])

  // --------------------------------------------- the second device writes

  const Written20 := map["d" := Profile(true, map[KEY := Obj(Dated(20))], map[KEY := 1])]
  const Older := Ready.(local := Holding(10))
  const Newer := Ready.(local := Holding(20))
  const Marked := Newer.(sync := Newer.sync.(dirtyApp := true))
  const NewerRequest := Request("d", map[KEY := Some(Dated(20))], map[KEY := 0])
  const NewerSent := Marked.(flow := Sending(Batch("d", [KEY]), 0, [], NewerRequest, None))

  /** What a device of this scene sends for its app section. */
  lemma AppAttempt(s: Sync, at: int)
    requires s.userId == USER && s.perUser
    ensures Attempt(s, Batch("d", [KEY]), Holding(at)) == Request("d", map[KEY := Some(Dated(at))], map[KEY := Known(s, HOME)])
  {
    KeyIsHome();
    assert Dated(at)["v" := Num(SECTION_VERSION)] == Dated(at);
    assert SectionsFor(s, "d", [KEY], Holding(at)) == map[KEY := Some(Dated(at))];
    assert ExpectedFor(s, "d", [KEY]) == map[KEY := Known(s, HOME)];
  }

  lemma AppFlush(d: Device, at: int)
    requires d.flow.Idle? && d.local == Holding(at)
    requires d.sync.userId == USER && d.sync.perUser && d.sync.dirtyApp && d.sync.dirtyBots == [] && d.sync.defaultProfile == Some("d")
    ensures BeginFlush(d) == d.(flow := Sending(Batch("d", [KEY]), 0, [],
                                                Request("d", map[KEY := Some(Dated(at))], map[KEY := Known(d.sync, HOME)]), None))
  {
    KeyIsHome();
    assert BotBatches([]) == [];
    assert AppKeys(d.sync) == [KEY];
    assert Batches(d.sync) == [Batch("d", [KEY])];
    assert [Batch("d", [KEY])][1..] == [];
    AppAttempt(d.sync, at);
  }

  lemma EditsAreCareful(w: World, i: nat, at: nat)
    requires w.gateway == Empty && i < |w.devices|
    ensures Careful(w, Edit(i, Holding(at)), HOME, USER)
  {
    assert StampAt(w.gateway, HOME) == 0;
  }

  /** The first device has changed the section at 10, the second at 20, and the second is writing it. */
  lemma TheSecondSends(w: World) returns (run: seq<Action>, w': World)
    requires Looks(w, Ready, Ready, Empty, map[0 := 0])
    ensures Leads(w, run, w', HOME, USER) && Looks(w', Older, NewerSent, Empty, map[0 := 0])
  {
    var w1, w2 := Next(w, Edit(0, Holding(10)), HOME), w.(devices := [Older, Newer]);
    var w3 := w.(devices := [Older, Marked]);
    w' := w.(devices := [Older, NewerSent]);
    EditsAreCareful(w, 0, 10);
    OneLeads(w, Edit(0, Holding(10)), HOME, USER);
    assert w1.devices == [Older, Ready];
    EditsAreCareful(w1, 1, 20);
    OneLeads(w1, Edit(1, Holding(20)), HOME, USER);
    assert Next(w1, Edit(1, Holding(20)), HOME).devices == w2.devices;
    OneLeads(w2, MarkApp(1), HOME, USER);
    assert Next(w2, MarkApp(1), HOME).devices == w3.devices;
    AppFlush(Marked, 20);
    OneLeads(w3, Flush(1), HOME, USER);
    assert Next(w3, Flush(1), HOME).devices == w'.devices;
    LeadsJoin(w, [Edit(0, Holding(10))], w1, [Edit(1, Holding(20))], w2, HOME, USER);
    LeadsJoin(w, [Edit(0, Holding(10))] + [Edit(1, Holding(20))], w2, [MarkApp(1)], w3, HOME, USER);
    LeadsJoin(w, [Edit(0, Holding(10))] + [Edit(1, Holding(20))] + [MarkApp(1)], w3, [Flush(1)], w', HOME, USER);
    run := [Edit(0, Holding(10))] + [Edit(1, Holding(20))] + [MarkApp(1)] + [Flush(1)];
  }

  lemma NewerIsWritten()
    ensures Written(Empty["d"], NewerRequest) == Written20["d"]
  {
    var q := Written(Empty["d"], NewerRequest);
    assert q.bag == Written20["d"].bag && q.revisions == Written20["d"].revisions;
  }

  /** The first device has not read what the second wrote: it knows revision 0, and the gateway is at 1. */
  lemma TheSecondWrites(w: World) returns (w': World)
    requires Looks(w, Older, NewerSent, Empty, map[0 := 0])
    ensures Leads(w, [ApplyWrite(1)], w', HOME, USER)
    ensures Looks(w', Older, w'.devices[1], Written20, map[0 := 0, 1 := 20]) && StampAt(w'.gateway, HOME) == 20
  {
    NewerIsWritten();
    DatedStamp(20);
    w' := Next(w, ApplyWrite(1), HOME);
    OneLeads(w, ApplyWrite(1), HOME, USER);
    assert Empty["d" := Written20["d"]] == Written20;
    assert map[0 := 0][1 := 20] == map[0 := 0, 1 := 20];
  }

  ghost predicate Behindhand(w: World) {
    |w.devices| == 2 && w.devices[0] == Older && w.gateway == Written20 && StampAt(w.gateway, HOME) == 20
  }

  lemma TheFirstFallsBehind() returns (run: seq<Action>, w: World)
    ensures Beginning(Both, HOME, USER) && Leads(Both, run, w, HOME, USER) && Behindhand(w)
  {
    BothBegin();
    BothRead();
    var send, sent := TheSecondSends(ReadWorld);
    w := TheSecondWrites(sent);
    LeadsJoin(Both, ReadRun, ReadWorld, send, sent, HOME, USER);
    LeadsJoin(Both, ReadRun + send, sent, [ApplyWrite(1)], w, HOME, USER);
    run := ReadRun + send + [ApplyWrite(1)];
  }

  // ------------------------------------------------ an answer brings the news

  const BotMarked := Older.(sync := Older.sync.(dirtyBots := ["d"]))
  const BotRequest := Request("d", map[HERMIE_KEY := None], map[HERMIE_KEY := 0])
  const BotSent := BotMarked.(flow := Sending(Batch("d", [HERMIE_KEY]), 0, [], BotRequest, None))
  const BotAnswer := Answer(map[KEY := 1, HERMIE_KEY := 1], map[])
  const Told := BotSent.(flow := BotSent.flow.(reply := Some(BotAnswer)))

  lemma BotFlush()
    ensures BeginFlush(BotMarked) == BotSent
  {
    assert Batches(BotMarked.sync) == [Batch("d", [HERMIE_KEY])];
    assert [Batch("d", [HERMIE_KEY])][1..] == [];
    assert SectionsFor(BotMarked.sync, "d", [HERMIE_KEY], Holding(10)) == BotRequest.sections;
    assert ExpectedFor(BotMarked.sync, "d", [HERMIE_KEY]) == BotRequest.expected;
  }

  lemma BotIsAnswered()
    ensures AnswerTo(Written20["d"], BotRequest) == BotAnswer
    ensures ReadSection(Obj(Written(Written20["d"], BotRequest).bag), KEY) == Some(Dated(20))
    ensures RevisionIn(Written(Written20["d"], BotRequest).revisions, KEY) == 1
  {
    KeyIsHome();
    var answer := AnswerTo(Written20["d"], BotRequest);
    assert answer.revisions == BotAnswer.revisions && answer.conflicts == BotAnswer.conflicts;
    WrittenHome(Written20["d"], BotRequest, HOME);
  }

  lemma TheBotIsSent(w: World)
    requires Behindhand(w)
    ensures Leads(w, [MarkName(0, "d"), Flush(0)], With(w, 0, BotSent), HOME, USER)
  {
    BotFlush();
    var marked := With(w, 0, BotMarked);
    assert [] + ["d"] == ["d"];
    OneLeads(w, MarkName(0, "d"), HOME, USER);
    OneLeads(marked, Flush(0), HOME, USER);
    assert marked.devices[0 := BotSent] == With(w, 0, BotSent).devices;
    LeadsJoin(w, [MarkName(0, "d")], marked, [Flush(0)], With(w, 0, BotSent), HOME, USER);
  }

  /** The first device writes its bot section, and the answer lists every revision of the profile. */
  lemma TheNewsArrives(w: World) returns (run: seq<Action>, w': World)
    requires Behindhand(w)
    ensures Leads(w, run, w', HOME, USER)
    ensures |w'.devices| == 2 && w'.devices[0] == Told && StampAt(w'.gateway, HOME) == 20 && RevisionAt(w'.gateway, HOME) == 1
  {
    var sent := With(w, 0, BotSent);
    TheBotIsSent(w);
    w' := Next(sent, ApplyWrite(0), HOME);
    OneLeads(sent, ApplyWrite(0), HOME, USER);
    LeadsJoin(w, [MarkName(0, "d"), Flush(0)], sent, [ApplyWrite(0)], w', HOME, USER);
    run := [MarkName(0, "d"), Flush(0)] + [ApplyWrite(0)];
    BotIsAnswered();
    DatedStamp(20);
  }

  lemma TheNewsExposes(g: Gateway)
    requires StampAt(g, HOME) == 20 && RevisionAt(g, HOME) == 1
    ensures Exposed(TakingAnswer(Told), g, HOME)
  {
    NotedHome(Told.sync, "d", BotAnswer, HOME);
    ClearDirtyKeeps(NoteAnswer(Told.sync, "d", BotAnswer), "d", [HERMIE_KEY]);
    DatedStamp(10);
  }

  /**
   * A careful run from a beginning whose next step is the answer to a write of other keys. It names
   * the home key's new revision; from then on this device passes the compare-and-swap for a section
   * it never read, and its older one can replace the newer.
   */
  lemma AnAnswerAboutOtherKeysLowersTheStamp() returns (run: seq<Action>)
    ensures Beginning(Both, HOME, USER) && Run(Both, run, HOME).Some? && CarefulRun(Both, run, HOME, USER)
    ensures var w := Run(Both, run, HOME).value;
            && Enabled(w, TakeAnswer(0)) && KEY !in w.devices[0].flow.request.sections
            && w.devices[0].flow.reply.value.conflicts == map[] && StampAt(w.gateway, HOME) == 20
            && !NeverBelow(Next(w, TakeAnswer(0), HOME), 20, HOME, USER)
  {
    var fall, behind := TheFirstFallsBehind();
    var news, told := TheNewsArrives(behind);
    LeadsJoin(Both, fall, behind, news, told, HOME, USER);
    run := fall + news;
    LeadsRuns(Both, run, told, HOME, USER);
    TheNewsExposes(told.gateway);
    AStepIsSafeExactlyWhen(Both, run, TakeAnswer(0), HOME, USER);
  }

  // ------------------------------------------------------ the re-read fails

  const Late := Older.(sync := Older.sync.(dirtyApp := true))
  const LateRequest := Request("d", map[KEY := Some(Dated(10))], map[KEY := 0])
  const LateSent := Late.(flow := Sending(Batch("d", [KEY]), 0, [], LateRequest, None))
  const Refusal := Answer(map[KEY := 1], map[KEY := 1])
  const Refused := LateSent.(flow := LateSent.flow.(reply := Some(Refusal)))

  lemma LateIsRefused()
    ensures Written(Written20["d"], LateRequest) == Written20["d"] && AnswerTo(Written20["d"], LateRequest) == Refusal
  {
    var q := Written(Written20["d"], LateRequest);
    assert q.bag == Written20["d"].bag && q.revisions == Written20["d"].revisions;
    var answer := AnswerTo(Written20["d"], LateRequest);
    assert answer.revisions == Refusal.revisions && answer.conflicts == Refusal.conflicts;
  }

  lemma LateIsSent(w: World)
    requires Behindhand(w)
    ensures Leads(w, [MarkApp(0), Flush(0)], With(w, 0, LateSent), HOME, USER)
  {
    AppFlush(Late, 10);
    var marked := With(w, 0, Late);
    OneLeads(w, MarkApp(0), HOME, USER);
    OneLeads(marked, Flush(0), HOME, USER);
    assert marked.devices[0 := LateSent] == With(w, 0, LateSent).devices;
    LeadsJoin(w, [MarkApp(0)], marked, [Flush(0)], With(w, 0, LateSent), HOME, USER);
  }

  lemma LateIsApplied(w: World)
    requires |w.devices| == 2 && w.devices[0] == LateSent && w.gateway == Written20
    ensures var w' := Next(w, ApplyWrite(0), HOME);
            Leads(w, [ApplyWrite(0)], w', HOME, USER) && |w'.devices| == 2 && w'.devices[0] == Refused && w'.gateway == Written20
  {
    LateIsRefused();
    assert Written20["d" := Written20["d"]] == Written20;
    OneLeads(w, ApplyWrite(0), HOME, USER);
  }

  lemma TheRefusalIsTaken(w: World)
    requires |w.devices| == 2 && w.devices[0] == Refused && w.gateway == Written20
    ensures var w' := Next(w, TakeAnswer(0), HOME);
            && Leads(w, [TakeAnswer(0)], w', HOME, USER)
            && |w'.devices| == 2 && w'.devices[0] == TakingAnswer(Refused) && w'.gateway == Written20
            && TakingAnswer(Refused).flow.Rereading?
  {
    assert KEY in Refusal.conflicts;
    OneLeads(w, TakeAnswer(0), HOME, USER);
  }

  /** The first device's write is refused, and it re-reads. */
  lemma TheWriteIsRefused(w: World) returns (run: seq<Action>, w': World)
    requires Behindhand(w)
    ensures Leads(w, run, w', HOME, USER)
    ensures |w'.devices| == 2 && w'.devices[0] == TakingAnswer(Refused) && w'.gateway == w.gateway
  {
    var sent := With(w, 0, LateSent);
    LateIsSent(w);
    LateIsApplied(sent);
    var answered := Next(sent, ApplyWrite(0), HOME);
    TheRefusalIsTaken(answered);
    w' := Next(answered, TakeAnswer(0), HOME);
    LeadsJoin(w, [MarkApp(0), Flush(0)], sent, [ApplyWrite(0)], answered, HOME, USER);
    LeadsJoin(w, [MarkApp(0), Flush(0)] + [ApplyWrite(0)], answered, [TakeAnswer(0)], w', HOME, USER);
    run := [MarkApp(0), Flush(0)] + [ApplyWrite(0)] + [TakeAnswer(0)];
  }

  lemma TheLossExposes(w: World)
    requires |w.devices| == 2 && w.devices[0] == TakingAnswer(Refused) && w.gateway == Written20 && StampAt(w.gateway, HOME) == 20
    ensures Enabled(w, LoseReread(0)) && !Careful(w, LoseReread(0), HOME, USER)
  {
    assert KEY in Refusal.conflicts;
    NotedHome(Refused.sync, "d", Refusal, HOME);
    DatedStamp(10);
  }

  /**
   * A careful run from a beginning whose next step is a re-read that fails. The second attempt sends
   * the losing bytes at the revision that won.
   */
  lemma AFailedRereadLowersTheStamp() returns (run: seq<Action>)
    ensures Beginning(Both, HOME, USER) && Run(Both, run, HOME).Some? && CarefulRun(Both, run, HOME, USER)
    ensures var w := Run(Both, run, HOME).value;
            && Enabled(w, LoseReread(0)) && StampAt(w.gateway, HOME) == 20
            && !NeverBelow(Next(w, LoseReread(0), HOME), 20, HOME, USER)
  {
    var fall, behind := TheFirstFallsBehind();
    var refuse, refused := TheWriteIsRefused(behind);
    LeadsJoin(Both, fall, behind, refuse, refused, HOME, USER);
    run := fall + refuse;
    LeadsRuns(Both, run, refused, HOME, USER);
    TheLossExposes(refused);
    AStepIsSafeExactlyWhen(Both, run, LoseReread(0), HOME, USER);
  }

  // --------------------------------------------------- marks made in flight

  /** What the answer to a batch settles: its bot, and the app section with any of its keys. */
  predicate Settled(batch: Batch, place: Place) {
    if place.key == HERMIE_KEY then batch.profile == place.profile && HERMIE_KEY in batch.keys else NamesApp(batch)
  }

  /**
   * A mark made while a write is on its way is cleared with it, whatever the app holds by then,
   * exactly when the answer refuses nothing and the write was of the key the mark is for.
   */
  lemma AMarkInFlightIsForgottenExactlyWhen(d: Device, edited: Local, place: Place)
    requires d.flow.Sending? && d.flow.reply.Some? && Dirty(d.sync, place)
    ensures var after := TakingAnswer(d.(local := edited));
            after.local == edited
            && (!Dirty(after.sync, place) <==> d.flow.reply.value.conflicts == map[] && Settled(d.flow.batch, place))
  {
    var noted := NoteAnswer(d.sync, d.flow.batch.profile, d.flow.reply.value);
    ClearDirtyKeeps(noted, d.flow.batch.profile, d.flow.batch.keys);
    assert OnlyBots(d.flow.batch.keys) <==> !NamesApp(d.flow.batch);
  }

  const Renewed := NewerSent.(local := Holding(30))
  const Landed20 := Answer(map[KEY := 1], map[])
  const Settling := Renewed.(flow := Renewed.flow.(reply := Some(Landed20)))

  lemma NewerIsAnswered()
    ensures AnswerTo(Empty["d"], NewerRequest) == Landed20
  {
    NewerIsWritten();
    assert AnswerTo(Empty["d"], NewerRequest).conflicts == map[];
  }

  /** The second device edits and marks its app once more while its write is on its way. */
  lemma TheSecondEditsAgain(w: World)
    requires Looks(w, Older, NewerSent, Empty, map[0 := 0])
    ensures Leads(w, [Edit(1, Holding(30)), MarkApp(1)], w.(devices := [Older, Renewed]), HOME, USER)
  {
    var edited := w.(devices := [Older, Renewed]);
    EditsAreCareful(w, 1, 30);
    OneLeads(w, Edit(1, Holding(30)), HOME, USER);
    assert w.devices[1 := Renewed] == edited.devices;
    OneLeads(edited, MarkApp(1), HOME, USER);
    assert edited.devices[1 := Renewed] == edited.devices;
    LeadsJoin(w, [Edit(1, Holding(30))], edited, [MarkApp(1)], edited, HOME, USER);
  }

  lemma TheGatewayTakesIt(w: World)
    requires Looks(w, Older, Renewed, Empty, map[0 := 0])
    ensures var w' := Next(w, ApplyWrite(1), HOME);
            Leads(w, [ApplyWrite(1)], w', HOME, USER) && w'.devices == [Older, Settling] && StampAt(w'.gateway, HOME) == 20
  {
    NewerIsAnswered();
    NewerIsWritten();
    DatedStamp(20);
    OneLeads(w, ApplyWrite(1), HOME, USER);
    assert Empty["d" := Written20["d"]] == Written20;
    assert w.devices[1 := Settling] == [Older, Settling];
  }

  /**
   * A run from a beginning at whose end a device holds a section edited and marked while its write was
   * on its way, the gateway holds the older one, and nothing is marked any more.
   */
  lemma AMarkIsForgotten() returns (run: seq<Action>)
    ensures Beginning(Both, HOME, USER) && Run(Both, run, HOME).Some?
    ensures var w := Run(Both, run, HOME).value;
            && Enabled(w, TakeAnswer(1)) && Dirty(w.devices[1].sync, HOME) && StampAt(w.gateway, HOME) == 20
            && var d := Next(w, TakeAnswer(1), HOME).devices[1];
               !Dirty(d.sync, HOME) && AppStampOf(d.local.app) == 30
  {
    BothBegin();
    BothRead();
    var send, sent := TheSecondSends(ReadWorld);
    TheSecondEditsAgain(sent);
    var edited := sent.(devices := [Older, Renewed]);
    TheGatewayTakesIt(edited);
    var w := Next(edited, ApplyWrite(1), HOME);
    LeadsJoin(Both, ReadRun, ReadWorld, send, sent, HOME, USER);
    LeadsJoin(Both, ReadRun + send, sent, [Edit(1, Holding(30)), MarkApp(1)], edited, HOME, USER);
    LeadsJoin(Both, ReadRun + send + [Edit(1, Holding(30)), MarkApp(1)], edited, [ApplyWrite(1)], w, HOME, USER);
    run := ReadRun + send + [Edit(1, Holding(30)), MarkApp(1)] + [ApplyWrite(1)];
    LeadsRuns(Both, run, w, HOME, USER);
    TheMarkGoes(w);
  }

  lemma TheMarkGoes(w: World)
    requires w.devices == [Older, Settling]
    ensures Enabled(w, TakeAnswer(1)) && Dirty(w.devices[1].sync, HOME)
    ensures var d := Next(w, TakeAnswer(1), HOME).devices[1]; !Dirty(d.sync, HOME) && AppStampOf(d.local.app) == 30
  {
    KeyIsHome();
    DatedStamp(30);
    assert KEY in Settling.flow.batch.keys;
    AMarkInFlightIsForgottenExactlyWhen(Settling, Holding(30), HOME);
    assert Settling.(local := Holding(30)) == Settling;
  }

  /** Only a date brings it back: a reconcile marks the section exactly when it is newer, absent or inherited. */
  lemma AReconcileMarks(s: Sync, roster: Roster, local: Local, adopted: Local)
    requires !s.dirtyApp
    ensures var remote := Remote(s, roster);
            Reconciled(s, roster, local, adopted).dirtyApp <==>
              || remote.migrated
              || (local.app.Some? && AppStampOf(local.app) > AppStampOf(remote.app))
              || (remote.app.None? && adopted.app.Some?)
  {
    var remote := Remote(s, roster);
    var noted := NoteNewerLocalApp(Pulled(s, roster), remote, local);
    SeedBotsKeeps(if remote.app.None? && adopted.app.Some? then noted.(dirtyApp := true) else noted,
                  adopted.names, remote, adopted);
  }

  // ------------------------------------------------ a later version is lost

  /** A profile a later build has written, and a device of this one with a section of its own. */
  const Future := map["d" := Profile(true, map[KEY := Obj(map["v" := Num(2.0)])], map[KEY := 1])]
  const Owner := New.(local := Holding(10))
  const Facing := World(Future, [Owner], {}, map[0 := 0, 1 := 0])

  lemma FacingBegins()
    ensures Beginning(Facing, HOME, USER) && VersionAt(Future, HOME) == 2.0
  {
    KeyIsHome();
    assert map[0 := 0][1 := 0] == map[0 := 0, 1 := 0];
  }

  lemma FutureIsListed()
    ensures Home(Future, HOME, USER) && Lists(Future, ["d"])
    ensures var roster := ListOf(Future, ["d"], true);
            Adopts(Holding(10), Offered(New.sync, roster, Holding(10)), Holding(10))
  {
    FacingBegins();
    DatedStamp(10);
    LaterReadsAsAbsent(Future, HOME);
    ReadingsApp(New.sync, Future, ["d"], true, HOME, USER);
  }

  /** A run from a beginning at whose end this build's section stands where the later one was. */
  lemma AnUnknownVersionIsLost() returns (run: seq<Action>)
    ensures Beginning(Facing, HOME, USER) && VersionAt(Facing.gateway, HOME) > SECTION_VERSION
    ensures Run(Facing, run, HOME).Some? && VersionAt(Run(Facing, run, HOME).value.gateway, HOME) <= SECTION_VERSION
  {
    FacingBegins();
    FutureIsListed();
    var roster := ListOf(Future, ["d"], true);
    var asked, listed := With(Facing, 0, Owner.(pulls := [Unanswered])), With(Facing, 0, Owner.(pulls := [Listed(roster)]));
    var take := TakeRoster(0, 0, Holding(10));
    TheRosterComes(asked, listed);
    OneLeads(listed, take, HOME, USER);
    var taken := Next(listed, take, HOME);
    var more := AnUnknownVersionIsReplacedExactlyWhen(listed, 0, 0, ["d"], true, Holding(10), HOME, HOME, USER);
    LeadsJoin(Facing, [AskRoster(0), AnswerRoster(0, 0, ["d"], true)], listed, [take], taken, HOME, USER);
    var first := [AskRoster(0), AnswerRoster(0, 0, ["d"], true)] + [take];
    LeadsRuns(Facing, first, taken, HOME, USER);
    RunsJoin(Facing, first, more);
    run := first + more;
  }

  lemma TheRosterComes(asked: World, listed: World)
    requires asked == With(Facing, 0, Owner.(pulls := [Unanswered])) && Lists(Future, ["d"])
    requires listed == With(Facing, 0, Owner.(pulls := [Listed(ListOf(Future, ["d"], true))]))
    ensures Leads(Facing, [AskRoster(0), AnswerRoster(0, 0, ["d"], true)], listed, HOME, USER)
  {
    var ask, answer := AskRoster(0), AnswerRoster(0, 0, ["d"], true);
    assert [] + [Unanswered] == [Unanswered];
    assert [Unanswered][0 := Listed(ListOf(Future, ["d"], true))] == [Listed(ListOf(Future, ["d"], true))];
    assert Next(Facing, ask, HOME) == asked;
    assert asked.devices[0 := listed.devices[0]] == listed.devices;
    OneLeads(Facing, ask, HOME, USER);
    OneLeads(asked, answer, HOME, USER);
    LeadsJoin(Facing, [ask], asked, [answer], listed, HOME, USER);
  }

  lemma {:induction false} RunsJoin(w: World, first: seq<Action>, second: seq<Action>)
    requires Run(w, first, HOME).Some?
    ensures Run(w, first + second, HOME) == Run(Run(w, first, HOME).value, second, HOME)
    decreases |first|
  {
    if first == [] {
      assert first + second == second;
    } else {
      RunsJoin(Next(w, first[0], HOME), first[1..], second);
      assert (first + second)[0] == first[0] && (first + second)[1..] == first[1..] + second;
    }
  }
}
