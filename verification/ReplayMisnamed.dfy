/**
 * What keeps the order of the numbers after a dial over a replay whose answers are no longer news of the
 * server at the other end: the client can go back to an older name, and is then told the new server's frames in it.
 */
module ReplayMisnamed {
  import opened Prelude
  import opened ReplayClient
  import opened ReplayNumbers
  import opened ReplayWorld
  import opened ReplayDial
  import opened ReplayOrder

  function Recordless(c: Client, k: Epoch): Client {
    c.(epoch := Some(k), lastSeen := map[], sessions := [], delivered := [])
  }

  /**
   * The world without its record: what the wire, the hold and the logs have to do with one another does not
   * depend on what was told, nor on which answers came. `k` is the last server that greeted.
   */
  ghost function Skeleton(w: World, k: Epoch): World {
    w.(c := Recordless(w.c, k),
       flight := match w.flight case None => None case Some(f) => Some(f.(got := map[])))
  }

  lemma NothingOnRecord(w: World)
    requires w.c.delivered == [] && w.c.lastSeen == map[]
    ensures forall s :: LogOk(w, s)
  {
  }

  lemma BareHeld(w: World, k: Epoch, s: Session)
    requires w.flight.Some? && HeldOk(w, s) && w.c.epoch == Some(k)
    ensures HeldOk(Skeleton(w, k), s)
  {
    assert Parked(Skeleton(w, k), s) == Parked(w, s);
  }

  lemma BareWire(w: World, k: Epoch, s: Session)
    requires w.link.Some? && WireOk(w, s) && w.c.epoch == Some(k) && (HoldsFor(w, s) ==> HeldOk(w, s))
    ensures WireOk(Skeleton(w, k), s)
  {
    assert Parked(Skeleton(w, k), s) == Parked(w, s);
  }

  lemma BareFlight(w: World, k: Epoch)
    requires w.flight.Some? && w.c.hold.Some? && FlightOk(w) && w.c.epoch == Some(k)
    ensures FlightOk(Skeleton(w, k))
  {
    forall s | s in w.flight.value.asked ensures HeldOk(Skeleton(w, k), s) {
      BareHeld(w, k, s);
    }
  }

  lemma BareLink(w: World, k: Epoch)
    requires LinkOk(w) && w.c.epoch == Some(k) && forall s :: HoldsFor(w, s) ==> HeldOk(w, s)
    ensures LinkOk(Skeleton(w, k))
  {
    if w.link.Some? {
      SameReplies(w.link.value.wire, w, Skeleton(w, k));
      forall s ensures WireOk(Skeleton(w, k), s) {
        BareWire(w, k, s);
      }
    }
  }

  lemma BareIsBarren(w: World, k: Epoch)
    requires forall s :: Parked(w, s) == []
    ensures Barren(Skeleton(w, k))
  {
    assert forall s :: Parked(Skeleton(w, k), s) == Parked(w, s);
  }

  lemma RecordlessIsSafe(w: World, k: Epoch)
    requires Safe(w) && w.c.epoch == Some(k)
    ensures Safe(Skeleton(w, k))
  {
    NothingOnRecord(Skeleton(w, k));
    BareLink(w, k);
    if w.flight.Some? {
      BareFlight(w, k);
    }
    if w.c.state.Connecting? && w.flight.Some? {
      BareIsBarren(w, k);
    }
  }

  /** Who greeted last, after one more step. */
  ghost function Greeter(w: World, k: Epoch, a: Action): Epoch
    requires Enabled(w, a)
  {
    if a.Deliver? && w.link.value.wire[0].Live? && w.link.value.wire[0].event.kind.Ready? then w.epoch else k
  }

  ghost predicate ServerStep(a: Action) {
    a.Emit? || a.Notice? || a.Dial? || a.DialFailed? || a.Closing? || a.Dropped? || a.Cut? || a.Restart? || a.Serve?
  }

  lemma ServerStepsSkeleton(w: World, k: Epoch, a: Action)
    requires Safe(Skeleton(w, k)) && Enabled(w, a) && (a.Dial? ==> forall s :: Parked(w, s) == [])
    requires ServerStep(a)
    ensures Safe(Skeleton(Next(w, a), k))
  {
    if a.Dial? {
      BareIsBarren(w, k);
    }
    StepKeepsSafe(Skeleton(w, k), a);
    ServerStepsAlike(w, k, a);
  }

  lemma ServerStepsAlike(w: World, k: Epoch, a: Action)
    requires Enabled(w, a)
    requires ServerStep(a)
    ensures Enabled(Skeleton(w, k), a) && Skeleton(Next(w, a), k) == Next(Skeleton(w, k), a)
  {
  }

  lemma FrameStepsAlike(w: World, k: Epoch)
    requires Enabled(w, Deliver)
    ensures var k', v := Greeter(w, k, Deliver), Next(Skeleton(w, k), Deliver);
            Skeleton(Next(w, Deliver), k') == Skeleton(v, k')
  {
    if w.link.value.wire[0].Live? && w.c.socket.Some? {
      HandledAlike(w.c, k, w.link.value.wire[0].event, Greeter(w, k, Deliver));
    }
  }

  /** All that handling a frame leaves behind besides the record is what it parks. */
  lemma HandledIsParked(c: Client, e: Event, k: Epoch)
    ensures Recordless(HandleEvent(c, e), k)
            == Recordless(if Parks(c, e) then c.(hold := Some(Park(c.hold.value, e))) else c, k)
  {
  }

  lemma HandledAlike(c: Client, k: Epoch, e: Event, k': Epoch)
    ensures Recordless(HandleEvent(Recordless(c, k), e), k') == Recordless(HandleEvent(c, e), k')
  {
    HandledIsParked(c, e, k');
    HandledIsParked(Recordless(c, k), e, k');
  }

  lemma FrameStepsSkeleton(w: World, k: Epoch)
    requires Safe(Skeleton(w, k)) && Enabled(w, Deliver)
    ensures Safe(Skeleton(Next(w, Deliver), Greeter(w, k, Deliver)))
  {
    var k', v := Greeter(w, k, Deliver), Next(Skeleton(w, k), Deliver);
    StepKeepsSafe(Skeleton(w, k), Deliver);
    FrameStepsAlike(w, k);
    RecordlessIsSafe(v, k');
  }

  lemma SettledWire(v: World, u: World, s: Session)
    requires v.link.Some? && WireOk(v, s) && v.c.lastSeen == map[]
    requires u == v.(c := v.c.(hold := None, inFlight := false), flight := None)
    ensures WireOk(u, s)
  {
  }

  lemma SettledLink(v: World, u: World)
    requires LinkOk(v) && v.c.lastSeen == map[] && u == v.(c := v.c.(hold := None, inFlight := false), flight := None)
    ensures LinkOk(u)
  {
    if v.link.Some? {
      SameReplies(v.link.value.wire, v, u);
      forall s ensures WireOk(u, s) {
        SettledWire(v, u, s);
      }
    }
  }

  lemma SettleStepsSkeleton(w: World, k: Epoch)
    requires Safe(Skeleton(w, k)) && Enabled(w, Settle) && w.c.hold.Some?
    ensures Safe(Skeleton(Next(w, Settle), k))
  {
    var v := Skeleton(w, k);
    var u := v.(c := v.c.(hold := None, inFlight := false), flight := None);
    SettledSkeleton(w, k);
    NothingOnRecord(u);
    SettledLink(v, u);
  }

  lemma SettledSkeleton(w: World, k: Epoch)
    requires Enabled(w, Settle) && w.c.hold.Some?
    ensures var v := Skeleton(w, k);
            Skeleton(Next(w, Settle), k) == v.(c := v.c.(hold := None, inFlight := false), flight := None)
  {
    var answers := Answers(w.flight.value.order, w.flight.value.got);
    var absorbed := AbsorbAll(w.c, answers);
    AbsorbingKeepsRest(w.c, answers);
    DispatchAllBySession(absorbed.(hold := None), ParkedInOrder(w.c.hold.value.order, w.c.hold.value.parked), "");
  }

  lemma AskingHeld(o: World, u: World, s: Session)
    requires u.flight.Some? && u.flight.value.epoch == o.epoch && u.flight.value.got == map[]
    requires u.flight.value.base == if o.epoch in o.heads then o.heads[o.epoch] else map[]
    requires u.heads == o.heads && u.epoch == o.epoch && u.c.lastSeen == map[] && Parked(u, s) == []
    ensures HeldOk(u, s)
  {
  }

  lemma AskingWire(o: World, u: World, s: Session)
    requires u.flight.Some? && u.flight.value.base == if o.epoch in o.heads then o.heads[o.epoch] else map[]
    requires u.heads == o.heads && u.epoch == o.epoch && u.link == Some(Link([Live(ReadyEvent(o.epoch))]))
    requires u.c.lastSeen == map[] && Parked(u, s) == []
    ensures WireOk(u, s)
  {
  }

  /** Opening asks for what the client remembers, and nothing of that is there yet. */
  lemma AskingSkeleton(w: World, k: Epoch)
    requires Safe(Skeleton(w, k)) && Enabled(w, Opened) && SessionsListed(w.c) && "" !in w.c.lastSeen
    requires w.c.replay && !w.c.inFlight && w.c.lastSeen != map[]
    ensures Safe(Skeleton(Next(w, Opened), k))
  {
    var u := Skeleton(Next(w, Opened), k);
    NothingOnRecord(u);
    forall s ensures HeldOk(u, s) && WireOk(u, s) {
      assert Parked(u, s) == [];
      AskingHeld(w, u, s);
      AskingWire(w, u, s);
    }
    assert u.link.value.wire[1..] == [] && RepliesFit(u.link.value.wire[1..], u);
  }

  lemma OpenedStepsSkeleton(w: World, k: Epoch)
    requires Safe(Skeleton(w, k)) && Enabled(w, Opened) && SessionsListed(w.c) && "" !in w.c.lastSeen
    ensures Safe(Skeleton(Next(w, Opened), k))
  {
    if w.c.replay && !w.c.inFlight && w.c.lastSeen != map[] {
      AskingSkeleton(w, k);
    } else {
      OpenedKeepsSafe(Skeleton(w, k));
      assert Skeleton(Next(w, Opened), k) == Next(Skeleton(w, k), Opened);
    }
  }

  // ------------------------------------------------- what the record then obeys

  ghost predicate Below(w: World, epoch: Option<Epoch>, s: Session, m: int) {
    forall n :: n in Seqs(w.c.delivered, epoch, s) ==> n <= m
  }

  /** How far the log of server `k` has left its side: what is still on the wire is above it. */
  function Taken(w: World, k: Epoch, s: Session): int {
    if w.link.Some? && k == w.epoch then Head(w, k, s) - |LiveNums(w.link.value.wire, s)| else Head(w, k, s)
  }

  ghost predicate RecordOk(w: World, k: Epoch, s: Session) {
    && (forall e :: Increasing(Seqs(w.c.delivered, e, s)))
    && (forall e: Epoch :: e > k ==> Seqs(w.c.delivered, Some(e), s) == [])
    && Below(w, Some(k), s, Taken(w, k, s))
    && (s in w.c.lastSeen ==> Below(w, w.c.epoch, s, w.c.lastSeen[s]) && Below(w, Some(k), s, w.c.lastSeen[s]))
    && (HoldsFor(w, s) && w.flight.value.epoch == k ==>
          Below(w, Some(k), s, Base(w.flight.value, s)) && Below(w, Some(k), s, w.flight.value.asked[s]))
  }

  /** A client in an older name than that of the last server to greet it is told that server's frames in it. */
  ghost predicate MisnamedOk(w: World, k: Epoch) {
    w.c.epoch != Some(k) ==>
      && Barren(w)
      && (w.link.Some? && NoReady(w.link.value.wire) ==>
            w.flight.None? && k == w.epoch && forall s :: Below(w, w.c.epoch, s, Taken(w, k, s)))
  }

  ghost predicate RepliesReach(w: World) {
    w.link.Some? && w.flight.Some? ==>
      forall i :: 0 <= i < |w.link.value.wire| && w.link.value.wire[i].Reply? && HoldsFor(w, w.link.value.wire[i].sid) ==>
        w.link.value.wire[i].lo >= w.flight.value.asked[w.link.value.wire[i].sid]
  }

  /** An answer of the server the client is in the name of, about numbers it was not told. */
  ghost predicate FreshAnswer(w: World, k: Epoch, s: Session)
    requires w.flight.Some? && Answered(w.flight.value.got, s)
  {
    var g := w.flight.value.got[s];
    g.epoch == k && w.c.epoch == Some(k) && Below(w, Some(k), s, g.lo) && g.upto <= Taken(w, k, s)
  }

  /** No call is out and no more answers are on their way, and of those that came only the first carries numbers. */
  ghost predicate Finished(w: World)
    requires w.flight.Some?
  {
    && w.flight.value.waiting == {}
    && (w.link.Some? ==> forall i :: 0 <= i < |w.link.value.wire| ==> w.link.value.wire[i].Live?)
    && Alone(w.flight.value)
  }

  /** The old socket's answers, before another server has greeted. */
  ghost predicate Pending(w: World, k: Epoch)
    requires w.flight.Some?
  {
    Finished(w) && w.c.epoch == Some(k) && Untold(w, k) && forall s :: Parked(w, s) == []
  }

  /** The same answers, after one has: their server has told nothing in its own name. */
  ghost predicate Superseded(w: World, k: Epoch, e: Epoch)
    requires w.flight.Some?
  {
    && Finished(w) && Heard(w.flight.value.order, w.flight.value.got)
    && e < k && w.c.epoch == Some(k) && Untold(w, e)
    && forall s :: Answered(w.flight.value.got, s) ==> w.flight.value.got[s].epoch == e
  }

  ghost predicate FreshNews(w: World, k: Epoch)
    requires w.flight.Some?
  {
    && (forall s :: Answered(w.flight.value.got, s) ==> FreshAnswer(w, k, s))
    && ((w.c.state.Connecting? || w.flight.value.epoch != k) && !Barren(w) ==> Pending(w, k))
  }

  ghost predicate NewsOk(w: World, k: Epoch) {
    w.flight.Some? ==>
      && w.flight.value.got.Keys <= w.flight.value.asked.Keys && k <= w.flight.value.epoch
      && (FreshNews(w, k) || exists e :: Superseded(w, k, e))
  }

  /** What the record obeys: in order, in names up to `k`, and below whatever is still to come. */
  ghost predicate Recorded(w: World, k: Epoch) {
    && SessionsListed(w.c) && "" !in w.c.lastSeen && w.c.epoch.Some? && w.c.epoch.value <= k
    && (forall s :: RecordOk(w, k, s))
    && MisnamedOk(w, k) && RepliesReach(w) && NewsOk(w, k)
  }

  /** `k` is the last server that greeted the client. */
  ghost predicate Loose(w: World, k: Epoch) {
    Safe(Skeleton(w, k)) && Recorded(w, k)
  }

  // ------------------------------------------------------------- the dial itself

  lemma DialedRecord(w: World, k: Epoch, s: Session)
    requires LogOk(w, s) && w.c.epoch == Some(k) && w.c.lastSeen == map[] && Enabled(w, Dial)
    ensures RecordOk(Next(w, Dial), k, s)
  {
    assert CurrentOk(w, s) && FutureEmpty(w.c, s);
  }

  lemma DialedAnswer(w: World, k: Epoch, s: Session)
    requires w.flight.Some? && Answered(w.flight.value.got, s) && HeldOk(w, s) && LogOk(w, s)
    requires w.c.epoch == Some(k) && w.c.lastSeen == map[] && Enabled(w, Dial)
    ensures FreshAnswer(Next(w, Dial), k, s)
  {
    assert CurrentOk(w, s);
  }

  lemma DialedRecords(w: World, k: Epoch)
    requires (forall s :: LogOk(w, s)) && w.c.epoch == Some(k) && w.c.lastSeen == map[] && Enabled(w, Dial)
    ensures var w' := Next(w, Dial);
            forall s :: RecordOk(w', k, s) && Seqs(w'.c.delivered, Some(k), s) == []
  {
    var w' := Next(w, Dial);
    forall s ensures RecordOk(w', k, s) && Seqs(w'.c.delivered, Some(k), s) == [] {
      assert LogOk(w, s) && CurrentOk(w, s);
      DialedRecord(w, k, s);
    }
  }

  lemma DialedParks(w: World)
    requires Enabled(w, Dial)
    ensures forall s :: Parked(Next(w, Dial), s) == Parked(w, s)
  {
  }

  lemma UntoldHasNoMarks(w: World, k: Epoch)
    requires Untold(w, k) && w.c.epoch == Some(k) && forall s :: LogOk(w, s)
    ensures w.c.lastSeen == map[]
  {
    forall s ensures s !in w.c.lastSeen {
      assert LogOk(w, s) && CurrentOk(w, s);
    }
  }

  lemma DialedNews(w: World, k: Epoch)
    requires Safe(w) && Enabled(w, Dial) && w.flight.Some? && w.c.epoch == Some(k) && w.c.lastSeen == map[]
    requires w.flight.value.epoch == k && Alone(w.flight.value) && forall s :: Parked(w, s) == []
    ensures NewsOk(Next(w, Dial), k)
  {
    var w' := Next(w, Dial);
    forall s | Answered(w'.flight.value.got, s) ensures FreshAnswer(w', k, s) {
      assert s in w.flight.value.asked && HeldOk(w, s) && LogOk(w, s);
      DialedAnswer(w, k, s);
    }
    DialedRecords(w, k);
    DialedParks(w);
    assert FreshNews(w', k);
  }

  lemma DialedSkeleton(w: World, k: Epoch)
    requires Safe(w) && Enabled(w, Dial) && w.c.epoch == Some(k) && forall s :: Parked(w, s) == []
    ensures Safe(Skeleton(Next(w, Dial), k))
  {
    RecordlessIsSafe(w, k);
    ServerStepsSkeleton(w, k, Dial);
  }

  lemma AnswersNameTheClient(w: World, k: Epoch)
    requires Safe(w) && w.flight.Some? && w.c.epoch == Some(k) && exists s :: Answered(w.flight.value.got, s)
    ensures w.flight.value.epoch == k && (Orderly(w) ==> Untold(w, k))
  {
    var s :| Answered(w.flight.value.got, s);
    assert s in w.flight.value.asked && HeldOk(w, s);
  }

  /** Dialling over answers that leave the order alone. */
  lemma DialedIsLoose(w: World, k: Epoch)
    requires Safe(w) && Enabled(w, Dial) && Orderly(w) && w.flight.Some? && w.c.epoch == Some(k)
    requires exists s :: Answered(w.flight.value.got, s)
    ensures Loose(Next(w, Dial), k)
  {
    DialedSkeleton(w, k);
    AnswersNameTheClient(w, k);
    UntoldHasNoMarks(w, k);
    DialedRecords(w, k);
    DialedNews(w, k);
  }

  // -------------------------------------------- steps that leave the record alone

  ghost predicate SameTold(w: World, w': World) {
    && w'.c.delivered == w.c.delivered && w'.c.lastSeen == w.c.lastSeen && w'.c.epoch == w.c.epoch
  }

  /** The replay is the same up to calls lost with the socket. */
  ghost predicate SameFlight(w: World, w': World) {
    w'.flight.Some? ==>
      && w.flight.Some? && w'.c.hold == w.c.hold
      && w'.flight.value == w.flight.value.(waiting := w'.flight.value.waiting)
      && w'.flight.value.waiting <= w.flight.value.waiting
  }

  /** The wire only grew at its end, with nothing that greets; or it is gone. */
  ghost predicate WireGrew(w: World, w': World) {
    w'.link.Some? ==>
      && w.link.Some? && w'.epoch == w.epoch
      && |w.link.value.wire| <= |w'.link.value.wire|
      && (forall i :: 0 <= i < |w.link.value.wire| ==> w'.link.value.wire[i] == w.link.value.wire[i])
  }

  lemma SameRecordOk(w: World, w': World, k: Epoch, s: Session)
    requires RecordOk(w, k, s) && SameTold(w, w') && SameFlight(w, w') && Taken(w, k, s) <= Taken(w', k, s)
    ensures RecordOk(w', k, s)
  {
  }

  lemma SameMisnamedOk(w: World, w': World, k: Epoch)
    requires MisnamedOk(w, k) && SameTold(w, w') && SameFlight(w, w') && WireGrew(w, w')
    requires forall s :: Taken(w, k, s) <= Taken(w', k, s)
    ensures MisnamedOk(w', k)
  {
    SameBarren(w, w');
  }

  lemma SameBarren(w: World, w': World)
    requires SameFlight(w, w')
    ensures Barren(w) ==> Barren(w')
    ensures w'.flight.Some? ==> (Barren(w') ==> Barren(w)) && forall s :: Parked(w', s) == Parked(w, s)
  {
    assert w'.flight.Some? ==> forall s :: Parked(w', s) == Parked(w, s);
  }

  lemma SameNewsOk(w: World, w': World, k: Epoch)
    requires NewsOk(w, k) && SameTold(w, w') && SameFlight(w, w') && WireGrew(w, w')
    requires forall s :: Taken(w, k, s) <= Taken(w', k, s)
    requires w'.c.state.Connecting? ==> w.c.state.Connecting? || Barren(w)
    requires w'.flight.Some? && w.flight.value.waiting == {} && w'.link.Some? ==>
               forall i :: |w.link.value.wire| <= i < |w'.link.value.wire| ==> w'.link.value.wire[i].Live?
    ensures NewsOk(w', k)
  {
    SameBarren(w, w');
    if w'.flight.Some? {
      if FreshNews(w, k) {
        forall s | Answered(w'.flight.value.got, s) ensures FreshAnswer(w', k, s) {
          assert FreshAnswer(w, k, s);
        }
        assert FreshNews(w', k);
      } else {
        var e :| Superseded(w, k, e);
        assert Superseded(w', k, e);
      }
    }
  }

  lemma SameRepliesReach(w: World, w': World)
    requires RepliesReach(w) && SameFlight(w, w') && WireGrew(w, w')
    requires w'.link.Some? ==> forall i :: |w.link.value.wire| <= i < |w'.link.value.wire| ==>
                 w'.link.value.wire[i].Live?
                 || (w'.flight.Some? && HoldsFor(w', w'.link.value.wire[i].sid) ==>
                       w'.link.value.wire[i].lo >= w'.flight.value.asked[w'.link.value.wire[i].sid])
    ensures RepliesReach(w')
  {
  }

  lemma StepsOnward(w: World, a: Action, k: Epoch)
    requires Enabled(w, a) && (forall e :: e in w.heads ==> e <= w.epoch) && k <= w.epoch
    requires ServerStep(a)
    ensures forall s :: Taken(w, k, s) <= Taken(Next(w, a), k, s)
  {
    forall s ensures Taken(w, k, s) <= Taken(Next(w, a), k, s) {
      if w.link.Some? {
        match a
        case Emit(x) => LiveNumsAppend(w.link.value.wire, Live(EventAt(x, Head(w, w.epoch, x) + 1)), s);
        case Notice(e) => LiveNumsAppend(w.link.value.wire, Live(e), s);
        case Serve(x, from) => LiveNumsAppend(w.link.value.wire, Reply(x, w.epoch, from, Head(w, w.epoch, x)), s);
        case _ =>
      }
    }
  }

  lemma ServerStepTells(w: World, a: Action)
    requires Enabled(w, a) && ServerStep(a)
    ensures var w' := Next(w, a);
            && SameTold(w, w') && SameFlight(w, w') && WireGrew(w, w') && w'.c.sessions == w.c.sessions
            && (w'.c.state.Connecting? ==> w.c.state.Connecting? || a.Dial?)
            && (w'.link.Some? ==> forall i :: |w.link.value.wire| <= i < |w'.link.value.wire| ==>
                  w'.link.value.wire[i].Live?
                  || (a.Serve? && w'.link.value.wire[i].sid == a.s && w'.link.value.wire[i].lo == a.from))
  {
  }

  lemma ServerStepKeeps(w: World, k: Epoch, a: Action)
    requires Loose(w, k) && Enabled(w, a) && ServerStep(a) && !a.Dial?
    ensures Recorded(Next(w, a), k)
  {
    var w' := Next(w, a);
    ServerStepTells(w, a);
    StepsOnward(w, a, k);
    forall s ensures RecordOk(w', k, s) {
      assert RecordOk(w, k, s);
      SameRecordOk(w, w', k, s);
    }
    SameMisnamedOk(w, w', k);
    SameRepliesReach(w, w');
    SameNewsOk(w, w', k);
  }

  /** Dialling over answers leaves them pending, or superseded as they were. */
  lemma DialedNewsAgain(w: World, k: Epoch)
    requires NewsOk(w, k) && Enabled(w, Dial) && Orderly(w) && w.flight.Some?
    requires forall s :: Taken(w, k, s) <= Taken(Next(w, Dial), k, s)
    ensures NewsOk(Next(w, Dial), k)
  {
    var w' := Next(w, Dial);
    DialedParks(w);
    if FreshNews(w, k) {
      forall s | Answered(w'.flight.value.got, s) ensures FreshAnswer(w', k, s) {
        assert FreshAnswer(w, k, s);
      }
      if s :| Answered(w.flight.value.got, s) {
        assert FreshAnswer(w, k, s);
        assert Untold(w, k) && Untold(w', k);
        assert Pending(w', k);
      } else {
        assert Barren(w');
      }
      assert FreshNews(w', k);
    } else {
      var e :| Superseded(w, k, e);
      assert Superseded(w', k, e);
    }
  }

  lemma DialKeeps(w: World, k: Epoch)
    requires Loose(w, k) && Enabled(w, Dial) && Orderly(w)
    ensures Recorded(Next(w, Dial), k)
  {
    var w' := Next(w, Dial);
    ServerStepTells(w, Dial);
    StepsOnward(w, Dial, k);
    forall s ensures RecordOk(w', k, s) {
      assert RecordOk(w, k, s);
      SameRecordOk(w, w', k, s);
    }
    SameMisnamedOk(w, w', k);
    SameRepliesReach(w, w');
    if w.flight.Some? {
      DialedNewsAgain(w, k);
    }
  }

  lemma ExpireStepsSkeleton(w: World, k: Epoch, s: Session)
    requires Enabled(w, Expire(s))
    ensures Skeleton(Next(w, Expire(s)), k) == Skeleton(w, k)
  {
  }

  /** One more call settled: none of the predicates reads a lost one. */
  lemma ExpireTells(w: World, s: Session)
    requires Enabled(w, Expire(s))
    ensures var w' := Next(w, Expire(s));
            && w'.flight.Some? && w' == w.(flight := w'.flight)
            && (forall x :: Answered(w'.flight.value.got, x) <==> Answered(w.flight.value.got, x))
            && (forall x :: Answered(w.flight.value.got, x) ==> w'.flight.value.got[x] == w.flight.value.got[x])
            && (Alone(w.flight.value) ==> Alone(w'.flight.value))
            && (Heard(w.flight.value.order, w.flight.value.got) ==> Heard(w'.flight.value.order, w'.flight.value.got))
            && (Barren(w) <==> Barren(w'))
            && forall x :: Parked(w', x) == Parked(w, x)
  {
    var f, g := w.flight.value, Next(w, Expire(s)).flight.value;
    AfterFirstStays(f.order, f.got, g.got);
    assert forall x :: Parked(Next(w, Expire(s)), x) == Parked(w, x);
    assert forall x :: Answered(g.got, x) <==> Answered(f.got, x);
  }

  lemma ExpireNews(w: World, k: Epoch, s: Session)
    requires NewsOk(w, k) && Enabled(w, Expire(s))
    ensures NewsOk(Next(w, Expire(s)), k)
  {
    var w' := Next(w, Expire(s));
    ExpireTells(w, s);
    if FreshNews(w, k) {
      forall x | Answered(w'.flight.value.got, x) ensures FreshAnswer(w', k, x) {
        assert FreshAnswer(w, k, x);
      }
      assert FreshNews(w', k);
    } else {
      var e :| Superseded(w, k, e);
      assert Superseded(w', k, e);
    }
  }

  lemma ExpireRecords(w: World, k: Epoch, s: Session)
    requires Enabled(w, Expire(s)) && forall x :: RecordOk(w, k, x)
    ensures forall x :: RecordOk(Next(w, Expire(s)), k, x)
  {
    forall x ensures RecordOk(Next(w, Expire(s)), k, x) {
      assert RecordOk(w, k, x);
    }
  }

  lemma ExpireKeeps(w: World, k: Epoch, s: Session)
    requires Recorded(w, k) && Enabled(w, Expire(s))
    ensures Recorded(Next(w, Expire(s)), k)
  {
    ExpireTells(w, s);
    ExpireNews(w, k, s);
    ExpireRecords(w, k, s);
  }

  // ---------------------------------------------------------------- opening

  lemma OpenedTells(w: World)
    requires Enabled(w, Opened)
    ensures var w' := Next(w, Opened);
            && SameTold(w, w') && w'.c.sessions == w.c.sessions && w'.heads == w.heads && w'.epoch == w.epoch
            && w'.link == Some(Link([Live(ReadyEvent(w.epoch))])) && w'.c.state.Open?
  {
  }

  lemma OpenedTaken(w: World, k: Epoch)
    requires Enabled(w, Opened) && w.link.None?
    ensures forall s :: Taken(Next(w, Opened), k, s) == Taken(w, k, s)
  {
    forall s ensures LiveNums([Live(ReadyEvent(w.epoch))], s) == [] {
      assert [Live(ReadyEvent(w.epoch))][1..] == [];
    }
  }

  /** A new replay asks from what the client was told, and its base is the head. */
  lemma AskedRecord(w: World, k: Epoch, s: Session)
    requires Enabled(w, Opened) && w.link.None? && RecordOk(w, k, s)
    requires w.c.replay && !w.c.inFlight && w.c.lastSeen != map[]
    ensures RecordOk(Next(w, Opened), k, s)
  {
    OpenedTaken(w, k);
  }

  lemma ReopenedRecord(w: World, k: Epoch, s: Session)
    requires Enabled(w, Opened) && w.link.None? && RecordOk(w, k, s)
    requires !(w.c.replay && !w.c.inFlight && w.c.lastSeen != map[])
    requires w.flight.Some? ==> k <= w.flight.value.epoch <= w.epoch
    ensures RecordOk(Next(w, Opened), k, s)
  {
    OpenedTaken(w, k);
  }

  lemma ReopenedNews(w: World, k: Epoch)
    requires Enabled(w, Opened) && w.link.None? && NewsOk(w, k) && w.flight.Some? && w.flight.value.epoch <= w.epoch
    requires !(w.c.replay && !w.c.inFlight && w.c.lastSeen != map[])
    ensures NewsOk(Next(w, Opened), k)
  {
    var w' := Next(w, Opened);
    OpenedTaken(w, k);
    assert forall s :: Parked(w', s) == Parked(w, s);
    if FreshNews(w, k) {
      forall s | Answered(w'.flight.value.got, s) ensures FreshAnswer(w', k, s) {
        assert FreshAnswer(w, k, s);
      }
      assert FreshNews(w', k);
    } else {
      var e :| Superseded(w, k, e);
      assert Superseded(w', k, e);
    }
  }

  lemma OpenedMisnamed(w: World, k: Epoch)
    requires Enabled(w, Opened) && MisnamedOk(w, k)
    requires w.flight.None? ==> !w.c.inFlight && w.c.hold.None?
    requires w.flight.Some? ==> w.c.inFlight
    ensures MisnamedOk(Next(w, Opened), k)
  {
    var w' := Next(w, Opened);
    assert w'.link.value.wire[0] == Live(ReadyEvent(w.epoch)) && !NoReady(w'.link.value.wire);
    if w.flight.Some? {
      assert forall s :: Parked(w', s) == Parked(w, s);
    } else if w'.flight.Some? {
      assert forall s :: Parked(w', s) == [];
    }
  }

  lemma AskedKeeps(w: World, k: Epoch)
    requires Recorded(w, k) && Enabled(w, Opened) && w.link.None? && w.flight.None? && k <= w.epoch && w.c.hold.None?
    requires w.c.replay && !w.c.inFlight && w.c.lastSeen != map[]
    ensures Recorded(Next(w, Opened), k)
  {
    var w' := Next(w, Opened);
    OpenedTells(w);
    OpenedMisnamed(w, k);
    forall s ensures RecordOk(w', k, s) && Parked(w', s) == [] {
      assert RecordOk(w, k, s);
      AskedRecord(w, k, s);
    }
  }

  lemma ReopenedKeeps(w: World, k: Epoch)
    requires Recorded(w, k) && Enabled(w, Opened) && w.link.None?
    requires w.flight.Some? ==> w.flight.value.epoch <= w.epoch
    requires (w.flight.Some? <==> w.c.inFlight) && (w.flight.Some? <==> w.c.hold.Some?)
    requires !(w.c.replay && !w.c.inFlight && w.c.lastSeen != map[])
    ensures Recorded(Next(w, Opened), k)
  {
    var w' := Next(w, Opened);
    OpenedTells(w);
    OpenedMisnamed(w, k);
    forall s ensures RecordOk(w', k, s) {
      assert RecordOk(w, k, s);
      ReopenedRecord(w, k, s);
    }
    if w.flight.Some? {
      ReopenedNews(w, k);
    }
  }

  lemma BeforeOpening(w: World, k: Epoch)
    requires Safe(Skeleton(w, k)) && Enabled(w, Opened)
    ensures w.link.None? && k <= w.epoch && (w.flight.Some? ==> w.flight.value.epoch <= w.epoch)
    ensures (w.flight.Some? <==> w.c.inFlight) && (w.flight.Some? <==> w.c.hold.Some?)
  {
  }

  lemma OpenedKeeps(w: World, k: Epoch)
    requires Loose(w, k) && Enabled(w, Opened)
    ensures Recorded(Next(w, Opened), k)
  {
    BeforeOpening(w, k);
    if w.c.replay && !w.c.inFlight && w.c.lastSeen != map[] {
      AskedKeeps(w, k);
    } else {
      ReopenedKeeps(w, k);
    }
  }

  // ---------------------------------------------------------------- a greeting

  lemma GreetingIsNoNumber(w: World)
    requires w.link.Some? && w.link.value.wire != [] && w.link.value.wire[0] == Live(ReadyEvent(w.epoch))
    ensures forall s, e :: Seqs(GreetedClient(w).delivered, e, s) == Seqs(w.c.delivered, e, s)
    ensures forall s :: LiveNums(w.link.value.wire[1..], s) == LiveNums(w.link.value.wire, s)
  {
    forall s, e ensures Seqs(GreetedClient(w).delivered, e, s) == Seqs(w.c.delivered, e, s) {
      DeliverOne(w.c.delivered, Delivery(Some(w.epoch), ReadyEvent(w.epoch)), e, s);
    }
  }

  lemma GreetedRecord(w: World, k: Epoch, w': World, s: Session)
    requires RecordOk(w, k, s) && k <= w.epoch && w.c.epoch.Some? && w.c.epoch.value <= k && w.link.Some? && w.link.value.wire != []
    requires w' == Popped(w).(c := GreetedClient(w))
    requires w.flight.Some? ==> w.flight.value.epoch == w.epoch
    requires forall e :: Seqs(w'.c.delivered, e, s) == Seqs(w.c.delivered, e, s)
    requires LiveNums(w.link.value.wire[1..], s) == LiveNums(w.link.value.wire, s)
    ensures RecordOk(w', w.epoch, s)
  {
    if k < w.epoch {
      NewNameRecord(w, w', s);
    } else {
      KnownNameRecord(w, w', s);
    }
  }

  lemma KnownNameRecord(w: World, w': World, s: Session)
    requires RecordOk(w, w.epoch, s) && Taken(w', w.epoch, s) == Taken(w, w.epoch, s) && w'.epoch == w.epoch
    requires forall e :: Seqs(w'.c.delivered, e, s) == Seqs(w.c.delivered, e, s)
    requires w'.c.lastSeen == map[] || (w'.c.lastSeen == w.c.lastSeen && w'.c.epoch == w.c.epoch)
    requires w'.flight == w.flight
    ensures RecordOk(w', w.epoch, s)
  {
    assert Seqs(w'.c.delivered, Some(w.epoch), s) == Seqs(w.c.delivered, Some(w.epoch), s);
    assert Seqs(w'.c.delivered, w.c.epoch, s) == Seqs(w.c.delivered, w.c.epoch, s);
  }

  /** A server heard for the first time has nothing on record, and the marks are gone. */
  lemma NewNameRecord(w: World, w': World, s: Session)
    requires (forall e :: Increasing(Seqs(w'.c.delivered, e, s)))
    requires forall e: Epoch :: e >= w.epoch ==> Seqs(w'.c.delivered, Some(e), s) == []
    requires w'.epoch == w.epoch && w'.c.lastSeen == map[]
    ensures RecordOk(w', w.epoch, s)
  {
  }

  lemma GreetedHold(w: World)
    requires w.link.Some? && w.link.value.wire != []
    ensures forall s :: Parked(Popped(w).(c := GreetedClient(w)), s) == Parked(w, s)
    ensures Barren(Popped(w).(c := GreetedClient(w))) <==> Barren(w)
  {
    assert forall s :: Parked(Popped(w).(c := GreetedClient(w)), s) == Parked(w, s);
  }

  lemma GreetedNews(w: World, k: Epoch, w': World)
    requires NewsOk(w, k) && w.flight.Some? && w.flight.value.epoch == w.epoch && k <= w.epoch && w.c.epoch.Some?
    requires w.link.Some? && w.link.value.wire != [] && w.link.value.wire[0] == Live(ReadyEvent(w.epoch))
    requires w' == Popped(w).(c := GreetedClient(w)) && !w.c.state.Connecting?
    requires forall s, e :: Seqs(w'.c.delivered, e, s) == Seqs(w.c.delivered, e, s)
    requires forall s :: Answered(w.flight.value.got, s) ==> s in w.flight.value.order
    ensures NewsOk(w', w.epoch)
  {
    GreetedHold(w);
    if e :| Superseded(w, k, e) {
      assert Superseded(w', w.epoch, e);
    } else if k == w.epoch {
      GreetedFresh(w, k, w');
    } else if x :| Answered(w.flight.value.got, x) {
      assert Pending(w, k) && FreshAnswer(w, k, x);
      assert Heard(w.flight.value.order, w.flight.value.got);
      GreetedAnswers(w, k);
      assert Superseded(w', w.epoch, k);
    } else {
      assert FreshNews(w', w.epoch);
    }
  }

  lemma GreetedAnswers(w: World, k: Epoch)
    requires w.flight.Some? && FreshNews(w, k)
    ensures forall s :: Answered(w.flight.value.got, s) ==> w.flight.value.got[s].epoch == k
  {
    forall s | Answered(w.flight.value.got, s) ensures w.flight.value.got[s].epoch == k {
      assert FreshAnswer(w, k, s);
    }
  }

  lemma GreetedFresh(w: World, k: Epoch, w': World)
    requires w.flight.Some? && FreshNews(w, k) && w.flight.value.epoch == k && k == w.epoch && w.c.epoch.Some?
    requires w.link.Some? && w.link.value.wire != [] && w.link.value.wire[0] == Live(ReadyEvent(w.epoch))
    requires w' == Popped(w).(c := GreetedClient(w)) && !w.c.state.Connecting?
    requires forall s, e :: Seqs(w'.c.delivered, e, s) == Seqs(w.c.delivered, e, s)
    ensures FreshNews(w', k)
  {
    forall s | Answered(w'.flight.value.got, s) ensures FreshAnswer(w', k, s) {
      assert FreshAnswer(w, k, s);
    }
  }

  lemma GreetedWire(w: World, k: Epoch)
    requires Safe(Skeleton(w, k)) && Enabled(w, Deliver)
    ensures w.c.socket.Some? && !w.c.state.Connecting? && k <= w.epoch && (w.flight.Some? ==> w.flight.value.epoch == w.epoch)
    ensures w.link.value.wire[0].Live? && w.link.value.wire[0].event.kind.Ready? ==>
              w.link.value.wire[0] == Live(ReadyEvent(w.epoch)) && Next(w, Deliver) == Popped(w).(c := GreetedClient(w))
    ensures !(w.link.value.wire[0].Live? && w.link.value.wire[0].event.kind.Ready?) ==>
              k == w.epoch && NoReady(w.link.value.wire)
  {
  }

  lemma GreetedKeeps(w: World, k: Epoch)
    requires Loose(w, k) && Enabled(w, Deliver) && w.link.value.wire[0].Live? && w.link.value.wire[0].event.kind.Ready?
    ensures Recorded(Next(w, Deliver), w.epoch)
  {
    GreetedWire(w, k);
    GreetingIsNoNumber(w);
    AnsweredInOrder(w, k);
    GreetedTells(w, k);
  }

  lemma AnsweredInOrder(w: World, k: Epoch)
    requires Safe(Skeleton(w, k)) && NewsOk(w, k)
    ensures w.flight.Some? ==> forall s :: Answered(w.flight.value.got, s) ==> s in w.flight.value.order
  {
  }

  lemma GreetedTells(w: World, k: Epoch)
    requires Recorded(w, k) && k <= w.epoch && w.link.Some? && w.link.value.wire != [] && !w.c.state.Connecting?
    requires w.link.value.wire[0] == Live(ReadyEvent(w.epoch)) && (w.flight.Some? ==> w.flight.value.epoch == w.epoch)
    requires forall s, e :: Seqs(GreetedClient(w).delivered, e, s) == Seqs(w.c.delivered, e, s)
    requires forall s :: LiveNums(w.link.value.wire[1..], s) == LiveNums(w.link.value.wire, s)
    requires w.flight.Some? ==> forall s :: Answered(w.flight.value.got, s) ==> s in w.flight.value.order
    ensures Recorded(Popped(w).(c := GreetedClient(w)), w.epoch)
  {
    var w' := Popped(w).(c := GreetedClient(w));
    forall s ensures RecordOk(w', w.epoch, s) {
      assert RecordOk(w, k, s);
      GreetedRecord(w, k, w', s);
    }
    if w.flight.Some? {
      GreetedNews(w, k, w');
    }
  }

  // ------------------------------------------------------------------ a reply

  lemma PoppedRecord(w: World, k: Epoch, s: Session)
    requires RecordOk(w, k, s) && w.link.Some? && w.link.value.wire != [] && LiveNums(w.link.value.wire, s) == LiveNums(w.link.value.wire[1..], s)
    ensures RecordOk(Popped(w), k, s)
  {
  }

  /** A frame without a number comes off the wire. */
  lemma PoppedTells(w: World, k: Epoch)
    requires Recorded(w, k) && w.link.Some? && w.link.value.wire != [] && NoReady(w.link.value.wire)
    requires forall s :: LiveNums(w.link.value.wire, s) == LiveNums(w.link.value.wire[1..], s)
    ensures Recorded(Popped(w), k)
  {
    forall s ensures RecordOk(Popped(w), k, s) {
      assert RecordOk(w, k, s);
      PoppedRecord(w, k, s);
    }
    PoppedMisnamed(w, k);
    PoppedNews(w, k);
  }

  lemma PoppedMisnamed(w: World, k: Epoch)
    requires MisnamedOk(w, k) && w.link.Some? && w.link.value.wire != [] && NoReady(w.link.value.wire)
    requires forall s :: LiveNums(w.link.value.wire, s) == LiveNums(w.link.value.wire[1..], s)
    ensures MisnamedOk(Popped(w), k)
  {
    var w' := Popped(w);
    assert forall s :: Parked(w', s) == Parked(w, s);
    assert forall s :: Taken(w', k, s) == Taken(w, k, s);
    assert w.c.epoch != Some(k) ==> forall s :: Below(w', w.c.epoch, s, Taken(w', k, s)) by {
      if w.c.epoch != Some(k) {
        forall s ensures Below(w', w.c.epoch, s, Taken(w', k, s)) {
          assert Below(w, w.c.epoch, s, Taken(w, k, s));
        }
      }
    }
  }

  lemma PoppedNews(w: World, k: Epoch)
    requires NewsOk(w, k) && w.link.Some? && w.link.value.wire != []
    requires forall s :: LiveNums(w.link.value.wire, s) == LiveNums(w.link.value.wire[1..], s)
    ensures NewsOk(Popped(w), k)
  {
    var w' := Popped(w);
    assert forall s :: Parked(w', s) == Parked(w, s);
    if w.flight.Some? {
      if FreshNews(w, k) {
        forall s | Answered(w'.flight.value.got, s) ensures FreshAnswer(w', k, s) {
          assert FreshAnswer(w, k, s);
        }
        assert FreshNews(w', k);
      } else {
        var e :| Superseded(w, k, e);
        assert Superseded(w', k, e);
      }
    }
  }

  lemma ReplyFits(w: World, k: Epoch)
    requires Safe(Skeleton(w, k)) && Enabled(w, Deliver) && w.link.value.wire[0].Reply?
    ensures var r := w.link.value.wire[0];
            && r.epoch == w.epoch
            && r.upto == Head(w, w.epoch, r.sid) - |LiveNums(w.link.value.wire, r.sid)|
  {
  }

  lemma ReplyIsFresh(w: World, k: Epoch)
    requires Recorded(w, k) && Enabled(w, Deliver) && w.link.value.wire[0].Reply? && HoldsFor(w, w.link.value.wire[0].sid)
    requires k == w.epoch && w.flight.value.epoch == k && NoReady(w.link.value.wire)
    ensures var r := w.link.value.wire[0];
            w.c.epoch == Some(k) && Below(w, Some(k), r.sid, r.lo)
  {
    assert RecordOk(w, k, w.link.value.wire[0].sid);
  }

  /** A fresh answer joins others that are, since none is out once the news is old. */
  lemma FreshAnswerJoins(w: World, w': World, k: Epoch, r: Frame)
    requires Recorded(w, k) && w.flight.Some? && FreshNews(w, k) && r.Reply? && HoldsFor(w, r.sid) && r.sid !in w.flight.value.got
    requires w' == w.(flight := Some(w.flight.value.(got := w.flight.value.got[r.sid := Served(r.epoch, r.lo, r.upto)])))
    requires r.epoch == k && w.c.epoch == Some(k) && Below(w, Some(k), r.sid, r.lo) && r.upto <= Taken(w, k, r.sid)
    requires w.flight.value.epoch == k && !w.c.state.Connecting?
    ensures Recorded(w', k)
  {
    forall s | Answered(w'.flight.value.got, s) ensures FreshAnswer(w', k, s) {
      if s != r.sid {
        assert FreshAnswer(w, k, s);
      }
    }
    forall s ensures RecordOk(w', k, s) {
      assert RecordOk(w, k, s);
    }
    assert FreshNews(w', k);
  }

  lemma ReplyKeeps(w: World, k: Epoch)
    requires Loose(w, k) && Enabled(w, Deliver) && w.link.value.wire[0].Reply?
    ensures Recorded(Next(w, Deliver), k)
  {
    var r, rest := w.link.value.wire[0], Popped(w);
    GreetedWire(w, k);
    PoppedTells(w, k);
    if w.flight.Some? && r.sid in w.flight.value.asked && r.sid !in w.flight.value.got {
      ReplyFits(w, k);
      ReplyIsFresh(w, k);
      ReplyJoins(w, k);
    }
  }

  lemma ReplyJoins(w: World, k: Epoch)
    requires Enabled(w, Deliver) && w.link.value.wire[0].Reply? && Recorded(Popped(w), k) && NewsOk(w, k)
    requires HoldsFor(w, w.link.value.wire[0].sid) && w.link.value.wire[0].sid !in w.flight.value.got
    requires var r := w.link.value.wire[0];
             r.epoch == k && w.c.epoch == Some(k) && Below(w, Some(k), r.sid, r.lo) && r.upto == Taken(w, k, r.sid)
    requires w.flight.value.epoch == k && !w.c.state.Connecting?
    ensures Recorded(Next(w, Deliver), k)
  {
    var r, rest := w.link.value.wire[0], Popped(w);
    assert Taken(rest, k, r.sid) == Taken(w, k, r.sid);
    assert FreshNews(w, k);
    forall s | Answered(rest.flight.value.got, s) ensures FreshAnswer(rest, k, s) {
      assert FreshAnswer(w, k, s);
    }
    FreshAnswerJoins(rest, Next(w, Deliver), k, r);
  }

  // -------------------------------------------------------------- a live frame

  lemma ParkedStepTells(w: World, k: Epoch, e: Event)
    requires Enabled(w, Deliver) && w.link.value.wire[0] == Live(e) && w.c.socket.Some? && !e.kind.Ready? && Parks(w.c, e)
    ensures var w' := Next(w, Deliver);
            && w' == Popped(w).(c := w.c.(hold := Some(Park(w.c.hold.value, e))))
            && SameTold(w, w')
            && forall s :: Taken(w, k, s) <= Taken(w', k, s)
  {
    var w' := Next(w, Deliver);
    ParkIsNext(w, e);
    forall s ensures Taken(w, k, s) <= Taken(w', k, s) {
      WireHead(w, e, s);
    }
  }

  lemma ParkedNews(w: World, w': World, k: Epoch)
    requires NewsOk(w, k) && w.flight.Some? && w.flight.value.epoch == k && !w.c.state.Connecting?
    requires w.link.Some? && w.link.value.wire != [] && SameTold(w, w') && forall s :: Taken(w, k, s) <= Taken(w', k, s)
    requires w' == Popped(w).(c := w.c.(hold := w'.c.hold))
    ensures NewsOk(w', k)
  {
    if FreshNews(w, k) {
      forall s | Answered(w'.flight.value.got, s) ensures FreshAnswer(w', k, s) {
        assert FreshAnswer(w, k, s);
      }
      assert FreshNews(w', k);
    } else {
      var e :| Superseded(w, k, e);
      assert Superseded(w', k, e);
    }
  }

  lemma ParkedKeeps(w: World, k: Epoch, e: Event)
    requires Loose(w, k) && Enabled(w, Deliver) && w.link.value.wire[0] == Live(e) && !e.kind.Ready? && Parks(w.c, e)
    ensures Recorded(Next(w, Deliver), k)
  {
    GreetedWire(w, k);
    ParkedStepTells(w, k, e);
    HoldIsFlight(w, k);
    ParkedTells(w, Next(w, Deliver), k);
  }

  lemma HoldIsFlight(w: World, k: Epoch)
    requires Safe(Skeleton(w, k))
    ensures w.flight.Some? <==> w.c.hold.Some?
    ensures w.flight.Some? ==> w.c.hold.value.parked.Keys == w.flight.value.asked.Keys
  {
  }

  lemma ParkedTells(w: World, w': World, k: Epoch)
    requires Recorded(w, k) && w.flight.Some? && w.flight.value.epoch == k && !w.c.state.Connecting?
    requires w.link.Some? && w.link.value.wire != [] && NoReady(w.link.value.wire)
    requires SameTold(w, w') && forall s :: Taken(w, k, s) <= Taken(w', k, s)
    requires w' == Popped(w).(c := w.c.(hold := w'.c.hold))
    ensures Recorded(w', k)
  {
    forall s ensures RecordOk(w', k, s) {
      assert RecordOk(w, k, s);
      ParkedRecord(w, w', k, s);
    }
    ParkedNews(w, w', k);
  }

  lemma ParkedRecord(w: World, w': World, k: Epoch, s: Session)
    requires RecordOk(w, k, s) && SameTold(w, w') && w'.flight == w.flight && Taken(w, k, s) <= Taken(w', k, s)
    ensures RecordOk(w', k, s)
  {
  }

  // --------------------------------------------------- straight to the handlers

  lemma LiveIsNext(w: World, k: Epoch, e: Event)
    requires Safe(Skeleton(w, k)) && Enabled(w, Deliver) && w.link.value.wire[0] == Live(e) && !e.kind.Ready? && !Parks(w.c, e)
    ensures Next(w, Deliver) == Popped(w).(c := Dispatch(RecordSeq(w.c, e), e))
    ensures Numbered(e) ==> !HoldsFor(w, e.sid) && e.seqno.n == Taken(w, k, e.sid) + 1 && e.seqno.n >= 1
    ensures Numbered(e) ==> Taken(Next(w, Deliver), k, e.sid) == e.seqno.n
    ensures forall s :: !(Numbered(e) && e.sid == s) ==> Taken(Next(w, Deliver), k, s) == Taken(w, k, s)
  {
    GreetedWire(w, k);
    HoldIsFlight(w, k);
    var w' := Next(w, Deliver);
    forall s | !(Numbered(e) && e.sid == s) ensures Taken(w', k, s) == Taken(w, k, s) {
      WireHead(w, e, s);
    }
    if Numbered(e) {
      WireHead(w, e, e.sid);
      assert WireOk(Skeleton(w, k), e.sid);
    }
  }

  lemma LiveSeqsOfOthers(w: World, e: Event, s: Session)
    requires !(Numbered(e) && e.sid == s)
    ensures forall x :: Seqs(Dispatch(RecordSeq(w.c, e), e).delivered, x, s) == Seqs(w.c.delivered, x, s)
  {
    forall x ensures Seqs(Dispatch(RecordSeq(w.c, e), e).delivered, x, s) == Seqs(w.c.delivered, x, s) {
      DeliverOne(w.c.delivered, Delivery(w.c.epoch, e), x, s);
    }
  }

  lemma LiveRecord(w: World, w': World, k: Epoch, s: Session)
    requires RecordOk(w, k, s) && w'.flight == w.flight && w'.c.epoch == w.c.epoch && Taken(w', k, s) == Taken(w, k, s)
    requires s in w'.c.lastSeen ==> s in w.c.lastSeen && w'.c.lastSeen[s] == w.c.lastSeen[s]
    requires forall x :: Seqs(w'.c.delivered, x, s) == Seqs(w.c.delivered, x, s)
    ensures RecordOk(w', k, s)
  {
    assert Seqs(w'.c.delivered, Some(k), s) == Seqs(w.c.delivered, Some(k), s);
    assert Seqs(w'.c.delivered, w.c.epoch, s) == Seqs(w.c.delivered, w.c.epoch, s);
  }

  lemma LiveSeqs(w: World, w': World, e: Event)
    requires Numbered(e) && w'.c == Dispatch(RecordSeq(w.c, e), e)
    ensures forall x :: Seqs(w'.c.delivered, x, e.sid)
                        == Seqs(w.c.delivered, x, e.sid) + (if x == w.c.epoch then [e.seqno.n] else [])
  {
    forall x ensures Seqs(w'.c.delivered, x, e.sid)
                     == Seqs(w.c.delivered, x, e.sid) + (if x == w.c.epoch then [e.seqno.n] else []) {
      DeliverOne(w.c.delivered, Delivery(w.c.epoch, e), x, e.sid);
    }
  }

  /** One more number, above everything told of the session in this name and in the server's own. */
  lemma NumberIsAbove(w: World, w': World, k: Epoch, s: Session, n: int)
    requires forall x :: Seqs(w'.c.delivered, x, s) == Seqs(w.c.delivered, x, s) + (if x == w.c.epoch then [n] else [])
    requires (forall x :: Increasing(Seqs(w.c.delivered, x, s)))
    requires forall m :: m in Seqs(w.c.delivered, w.c.epoch, s) ==> m < n
    requires forall m :: m in Seqs(w.c.delivered, Some(k), s) ==> m < n
    ensures (forall x :: Increasing(Seqs(w'.c.delivered, x, s)))
    ensures Below(w', w.c.epoch, s, n) && Below(w', Some(k), s, n)
  {
    var before := Seqs(w.c.delivered, w.c.epoch, s);
    assert before != [] ==> before[|before| - 1] in before;
    IncreasingSnoc(before, n);
    forall x ensures Increasing(Seqs(w'.c.delivered, x, s)) {
      assert Increasing(Seqs(w.c.delivered, x, s));
    }
  }

  lemma LiveNumber(w: World, w': World, k: Epoch, e: Event)
    requires Numbered(e) && RecordOk(w, k, e.sid) && w.c.epoch.Some? && w.c.epoch.value <= k
    requires w'.c == Dispatch(RecordSeq(w.c, e), e) && w'.flight == w.flight && !HoldsFor(w, e.sid)
    requires Below(w, w.c.epoch, e.sid, Taken(w, k, e.sid))
    requires e.seqno.n == Taken(w, k, e.sid) + 1 && e.seqno.n >= 1 && Taken(w', k, e.sid) == e.seqno.n
    ensures RecordOk(w', k, e.sid) && Below(w', w.c.epoch, e.sid, e.seqno.n)
    ensures forall x :: x != w.c.epoch ==> Seqs(w'.c.delivered, x, e.sid) == Seqs(w.c.delivered, x, e.sid)
  {
    LiveSeqs(w, w', e);
    NumberIsAbove(w, w', k, e.sid, e.seqno.n);
    assert w'.c.lastSeen[e.sid] >= e.seqno.n;
  }

  lemma LiveNews(w: World, w': World, k: Epoch, e: Event)
    requires NewsOk(w, k) && w.flight.Some? && w.flight.value.epoch == k && !w.c.state.Connecting?
    requires w.link.Some? && w.link.value.wire != [] && w' == Popped(w).(c := Dispatch(RecordSeq(w.c, e), e))
    requires Numbered(e) ==> !HoldsFor(w, e.sid)
    requires forall s :: Taken(w, k, s) <= Taken(w', k, s)
    requires forall s, x :: x != w.c.epoch || !(Numbered(e) && e.sid == s) ==> Seqs(w'.c.delivered, x, s) == Seqs(w.c.delivered, x, s)
    ensures NewsOk(w', k)
  {
    if FreshNews(w, k) {
      forall s | Answered(w'.flight.value.got, s) ensures FreshAnswer(w', k, s) {
        assert FreshAnswer(w, k, s);
        assert s in w.flight.value.asked;
      }
      assert FreshNews(w', k);
    } else {
      var past :| Superseded(w, k, past);
      assert Superseded(w', k, past);
    }
  }

  lemma LiveMisnamed(w: World, w': World, k: Epoch, e: Event)
    requires MisnamedOk(w, k) && w.link.Some? && w.link.value.wire != [] && NoReady(w.link.value.wire)
    requires w' == Popped(w).(c := Dispatch(RecordSeq(w.c, e), e))
    requires w.c.epoch != Some(k) ==> forall s :: Below(w', w.c.epoch, s, Taken(w', k, s))
    ensures MisnamedOk(w', k)
  {
    assert forall s :: Parked(w', s) == Parked(w, s);
  }

  lemma LiveKeeps(w: World, k: Epoch, e: Event)
    requires Loose(w, k) && Enabled(w, Deliver) && w.link.value.wire[0] == Live(e) && !e.kind.Ready? && !Parks(w.c, e)
    ensures Recorded(Next(w, Deliver), k)
  {
    GreetedWire(w, k);
    LiveIsNext(w, k, e);
    LiveTells(w, Next(w, Deliver), k, e);
  }

  lemma LiveTells(w: World, w': World, k: Epoch, e: Event)
    requires Recorded(w, k) && !w.c.state.Connecting? && (w.flight.Some? ==> w.flight.value.epoch == k)
    requires w.link.Some? && w.link.value.wire != [] && NoReady(w.link.value.wire)
    requires w' == Popped(w).(c := Dispatch(RecordSeq(w.c, e), e))
    requires Numbered(e) ==> !HoldsFor(w, e.sid) && e.seqno.n == Taken(w, k, e.sid) + 1 && e.seqno.n >= 1
    requires Numbered(e) ==> Taken(w', k, e.sid) == e.seqno.n
    requires forall s :: !(Numbered(e) && e.sid == s) ==> Taken(w', k, s) == Taken(w, k, s)
    ensures Recorded(w', k)
  {
    forall s ensures RecordOk(w', k, s) && (w.c.epoch != Some(k) ==> Below(w', w.c.epoch, s, Taken(w', k, s)))
      ensures forall x :: x != w.c.epoch || !(Numbered(e) && e.sid == s) ==> Seqs(w'.c.delivered, x, s) == Seqs(w.c.delivered, x, s) {
      assert RecordOk(w, k, s);
      assert Below(w, w.c.epoch, s, Taken(w, k, s));
      if Numbered(e) && e.sid == s {
        LiveNumber(w, w', k, e);
      } else {
        LiveSeqsOfOthers(w, e, s);
        LiveRecord(w, w', k, s);
      }
    }
    LiveMisnamed(w, w', k, e);
    if w.flight.Some? {
      LiveNews(w, w', k, e);
    }
  }

  // ------------------------------------------------------------------ settling

  lemma {:induction false} AcceptedWithin(m: int, ns: seq<int>)
    ensures forall n :: n in Accepted(m, ns) ==> n in ns && n > m
  {
    if ns != [] {
      AcceptedWithin(m, ns[..|ns| - 1]);
      GateIncreases(m, ns[..|ns| - 1]);
    }
  }

  lemma ShapeOfHold(w: World, k: Epoch)
    requires Safe(Skeleton(w, k)) && w.flight.Some?
    ensures w.c.hold.Some? && HoldShape(w.flight.value, w.c.hold.value)
    ensures forall s :: s in w.flight.value.order <==> s in w.flight.value.asked
  {
  }

  /** With answers of the server the client is in the name of, or none, everything passes its own gate. */
  lemma SettlingOwn(w: World)
    requires w.flight.Some? && w.c.hold.Some?
    requires forall s :: Answered(w.flight.value.got, s) ==> w.c.epoch == Some(w.flight.value.got[s].epoch)
    ensures var f, h := w.flight.value, w.c.hold.value;
            Settled(w) == DispatchAll(w.c.(hold := None), Replayed(f.order, f.got) + ParkedInOrder(h.order, h.parked)).(inFlight := false)
  {
    var f, h := w.flight.value, w.c.hold.value;
    AbsorbedIsGated(w.c, f.order, f.got);
    DispatchAllBySession(w.c, Replayed(f.order, f.got), "");
    DispatchAllIgnoresHold(w.c, Replayed(f.order, f.got), None);
    DispatchAllConcat(w.c.(hold := None), Replayed(f.order, f.got), ParkedInOrder(h.order, h.parked));
  }

  lemma OwnBrought(w: World, s: Session)
    requires w.flight.Some? && w.c.hold.Some? && HoldShape(w.flight.value, w.c.hold.value)
    requires forall x :: x in w.flight.value.order <==> x in w.flight.value.asked
    ensures var f, h := w.flight.value, w.c.hold.value;
            Nums(Replayed(f.order, f.got) + ParkedInOrder(h.order, h.parked), s) == Brought(w, s)
  {
    var f, h := w.flight.value, w.c.hold.value;
    NumsConcat(Replayed(f.order, f.got), ParkedInOrder(h.order, h.parked), s);
    ReplayedNums(f.order, f.got, s);
    ParkedNums(h.order, h.parked, s);
  }

  ghost predicate Above(w: World, k: Epoch, s: Session, n: int) {
    forall m :: m in Seqs(w.c.delivered, Some(k), s) ==> m < n
  }

  /** Above everything told of the session in the server's own name, and within what was taken of its log. */
  ghost predicate Between(w: World, k: Epoch, s: Session, ns: seq<int>) {
    forall n :: n in ns ==> n <= Taken(w, k, s) && Above(w, k, s, n)
  }

  lemma ParkedBetween(w: World, k: Epoch, s: Session)
    requires Safe(Skeleton(w, k)) && RecordOk(w, k, s) && HoldsFor(w, s) && Parked(w, s) != []
    ensures w.flight.value.epoch == k && Between(w, k, s, Parked(w, s))
  {
    var v := Skeleton(w, k);
    assert Parked(v, s) == Parked(w, s) && HeldOk(v, s) && (v.link.Some? ==> WireOk(v, s));
  }

  lemma AnswerBetween(w: World, k: Epoch, s: Session)
    requires w.flight.Some? && Answered(w.flight.value.got, s) && FreshAnswer(w, k, s)
    ensures Between(w, k, s, Span(w.flight.value.got[s].lo, w.flight.value.got[s].upto))
  {
  }

  lemma BetweenJoins(w: World, k: Epoch, s: Session, a: seq<int>, b: seq<int>)
    requires Between(w, k, s, a) && Between(w, k, s, b)
    ensures Between(w, k, s, a + b)
  {
  }

  lemma BroughtBetween(w: World, k: Epoch, s: Session)
    requires Safe(Skeleton(w, k)) && RecordOk(w, k, s) && w.flight.Some? && FreshNews(w, k)
    ensures Between(w, k, s, Brought(w, s))
  {
    if HoldsFor(w, s) {
      var f := w.flight.value;
      if Parked(w, s) != [] {
        ParkedBetween(w, k, s);
      }
      if Answered(f.got, s) {
        AnswerBetween(w, k, s);
      }
      BetweenJoins(w, k, s, if Answered(f.got, s) then Span(f.got[s].lo, f.got[s].upto) else [], Parked(w, s));
    }
  }

  lemma AboveAndWithin(w: World, k: Epoch, s: Session, ns: seq<int>, told: seq<int>)
    requires Between(w, k, s, ns) && forall n :: n in told ==> n in ns
    ensures Between(w, k, s, told)
  {
  }

  lemma GatedRecord(w: World, w': World, k: Epoch, s: Session, ns: seq<int>)
    requires RecordOk(w, k, s) && w.c.epoch.Some? && Released(w.c.(hold := None, inFlight := false), w'.c, ns, s)
    requires w'.flight.None? && Taken(w', k, s) == Taken(w, k, s)
    requires Between(w, k, s, ns) && (ns != [] ==> w.c.epoch == Some(k))
    ensures RecordOk(w', k, s)
  {
    var m := Watermark(w.c, s);
    var told := Accepted(m, ns);
    AcceptedWithin(m, ns);
    GateIncreases(m, ns);
    if told == [] {
      NothingTold(w, w', k, s);
    } else {
      assert told[0] in ns;
      AboveAndWithin(w, k, s, ns, told);
      ToldAbove(w, w', k, s, told);
    }
  }

  lemma NothingTold(w: World, w': World, k: Epoch, s: Session)
    requires RecordOk(w, k, s) && w'.c.epoch == w.c.epoch && w'.flight.None? && Taken(w', k, s) == Taken(w, k, s)
    requires Seqs(w'.c.delivered, w.c.epoch, s) == Seqs(w.c.delivered, w.c.epoch, s) + []
    requires forall x :: x != w.c.epoch ==> Seqs(w'.c.delivered, x, s) == Seqs(w.c.delivered, x, s)
    requires (s in w'.c.lastSeen <==> s in w.c.lastSeen) && Watermark(w'.c, s) == Watermark(w.c, s)
    ensures RecordOk(w', k, s)
  {
    assert forall x :: Seqs(w'.c.delivered, x, s) == Seqs(w.c.delivered, x, s);
  }

  lemma RecordGoesOn(before: seq<int>, told: seq<int>)
    requires Increasing(before) && Increasing(told) && told != []
    requires forall m :: m in before ==> m < told[0]
    ensures Increasing(before + told) && forall n :: n in before + told ==> n <= told[|told| - 1]
  {
    assert before != [] ==> before[|before| - 1] in before;
    IncreasingConcat(before, told);
    BelowTheLast(before + told);
  }

  lemma ToldAbove(w: World, w': World, k: Epoch, s: Session, told: seq<int>)
    requires RecordOk(w, k, s) && w.c.epoch == Some(k) && w'.c.epoch == w.c.epoch
    requires w'.flight.None? && Taken(w', k, s) == Taken(w, k, s)
    requires Seqs(w'.c.delivered, Some(k), s) == Seqs(w.c.delivered, Some(k), s) + told
    requires forall x :: x != Some(k) ==> Seqs(w'.c.delivered, x, s) == Seqs(w.c.delivered, x, s)
    requires told != [] && Increasing(told) && Between(w, k, s, told)
    requires s in w'.c.lastSeen && w'.c.lastSeen[s] == told[|told| - 1]
    ensures RecordOk(w', k, s)
  {
    assert told[0] in told && told[|told| - 1] in told;
    assert Above(w, k, s, told[0]);
    RecordGoesOn(Seqs(w.c.delivered, Some(k), s), told);
    forall x ensures Increasing(Seqs(w'.c.delivered, x, s)) {
      assert x != Some(k) ==> Seqs(w'.c.delivered, x, s) == Seqs(w.c.delivered, x, s);
    }
  }

  /** Past the gate only the record moved, session by session. */
  lemma PastTheGate(w: World, w': World, es: seq<Event>, s: Session)
    requires w'.c == DispatchAll(w.c.(hold := None), es).(inFlight := false)
    ensures Released(w.c.(hold := None, inFlight := false), w'.c, Nums(es, s), s)
  {
    DispatchAllBySession(w.c.(hold := None), es, s);
  }

  lemma GatedList(w: World, w': World, es: seq<Event>)
    requires w'.c == DispatchAll(w.c.(hold := None), es).(inFlight := false)
    requires SessionsListed(w.c) && "" !in w.c.lastSeen && Nums(es, "") == []
    ensures SessionsListed(w'.c) && "" !in w'.c.lastSeen && w'.c.epoch == w.c.epoch
  {
    DispatchAllKeepsList(w.c.(hold := None), es);
    DispatchAllBySession(w.c.(hold := None), es, "");
  }

  lemma OwnRecord(w: World, w': World, k: Epoch, es: seq<Event>, s: Session)
    requires RecordOk(w, k, s) && MisnamedOk(w, k) && w.c.epoch.Some? && w.flight.Some? && w'.flight.None?
    requires Between(w, k, s, Brought(w, s)) && Nums(es, s) == Brought(w, s)
    requires w'.c == DispatchAll(w.c.(hold := None), es).(inFlight := false)
    requires w'.link == w.link && w'.epoch == w.epoch && w'.heads == w.heads
    ensures RecordOk(w', k, s)
  {
    PastTheGate(w, w', es, s);
    GatedRecord(w, w', k, s, Brought(w, s));
  }

  lemma SettleOwnKeeps(w: World, k: Epoch)
    requires Loose(w, k) && Enabled(w, Settle) && FreshNews(w, k)
    ensures Recorded(Next(w, Settle), k)
  {
    var w', f := Next(w, Settle), w.flight.value;
    ShapeOfHold(w, k);
    forall s | Answered(f.got, s) ensures w.c.epoch == Some(f.got[s].epoch) {
      assert FreshAnswer(w, k, s);
    }
    SettlingOwn(w);
    var es := Replayed(f.order, f.got) + ParkedInOrder(w.c.hold.value.order, w.c.hold.value.parked);
    forall s ensures RecordOk(w', k, s) {
      assert RecordOk(w, k, s);
      OwnBrought(w, s);
      BroughtBetween(w, k, s);
      OwnRecord(w, w', k, es, s);
    }
    OwnBrought(w, "");
    GatedList(w, w', es);
    SettledMisnamed(w, w', k);
  }

  /** A misnamed client has no replay to settle on a socket that has greeted. */
  lemma SettledMisnamed(w: World, w': World, k: Epoch)
    requires MisnamedOk(w, k) && w.flight.Some?
    requires w'.c.epoch == w.c.epoch && w'.flight.None? && w'.link == w.link
    ensures MisnamedOk(w', k)
  {
  }

  // -------------------------------------------------- settling under the old name

  lemma {:induction false} NothingPasses(m: int, ns: seq<int>)
    requires forall i :: 0 <= i < |ns| ==> ns[i] <= m
    ensures Accepted(m, ns) == [] && Top(m, ns) == m
  {
    if ns != [] {
      NothingPasses(m, ns[..|ns| - 1]);
    }
  }

  /** Only the new server's parked frames are told, in the name of the old one. */
  lemma HandedIsParked(w: World, s: Session)
    requires w.flight.Some? && w.c.hold.Some? && Alone(w.flight.value)
    ensures var ns := HandedOf(w.flight.value, w.c.hold.value, s);
            && Accepted(0, ns) == Accepted(0, Parked(w, s)) && Top(0, ns) == Top(0, Parked(w, s))
  {
    var f, parked := w.flight.value, Parked(w, s);
    if s in AfterFirst(f.order, f.got) && Answered(f.got, s) {
      var span := Span(f.got[s].lo, f.got[s].upto);
      NothingPasses(0, span);
      GateConcat(0, span, parked);
      assert [] + Accepted(0, parked) == Accepted(0, parked);
    } else {
      assert [] + parked == parked;
    }
  }

  lemma PassesTop(m: int, ns: seq<int>)
    ensures var told := Accepted(m, ns);
            && Increasing(told) && (forall n :: n in told ==> n in ns && n <= Top(m, ns))
            && (told != [] ==> Top(m, ns) in ns)
  {
    AcceptedWithin(m, ns);
    GateIncreases(m, ns);
    var told := Accepted(m, ns);
    if told != [] {
      assert told[|told| - 1] in told;
    }
  }

  /** The record under the old name was empty, and what it takes is above the record of the new. */
  lemma RenamedRecord(w: World, w': World, k: Epoch, e: Epoch, s: Session, told: seq<int>)
    requires RecordOk(w, k, s) && e < k && Between(w, k, s, told) && Increasing(told)
    requires w'.c.epoch == Some(e) && w'.flight.None? && Taken(w', k, s) == Taken(w, k, s)
    requires Seqs(w'.c.delivered, Some(e), s) == told
    requires forall x :: x != Some(e) ==> Seqs(w'.c.delivered, x, s) == Seqs(w.c.delivered, x, s)
    requires s in w'.c.lastSeen ==> Above(w, k, s, w'.c.lastSeen[s]) && forall n :: n in told ==> n <= w'.c.lastSeen[s]
    ensures RecordOk(w', k, s)
    ensures Below(w', Some(e), s, Taken(w, k, s))
  {
    assert Seqs(w'.c.delivered, Some(k), s) == Seqs(w.c.delivered, Some(k), s);
    forall x ensures Increasing(Seqs(w'.c.delivered, x, s)) {
      assert x != Some(e) ==> Seqs(w'.c.delivered, x, s) == Seqs(w.c.delivered, x, s);
    }
  }

  lemma SupersededHands(w: World, w': World, k: Epoch, e: Epoch, s: Session)
    requires w.flight.Some? && w.c.hold.Some? && HoldShape(w.flight.value, w.c.hold.value) && Alone(w.flight.value)
    requires w'.c == DispatchAll(Renamed(w.c, e).(hold := None), Handed(w.flight.value, w.c.hold.value)).(inFlight := false)
    ensures w'.c.epoch == Some(e)
    ensures Seqs(w'.c.delivered, Some(e), s) == Seqs(w.c.delivered, Some(e), s) + Accepted(0, Parked(w, s))
    ensures forall x :: x != Some(e) ==> Seqs(w'.c.delivered, x, s) == Seqs(w.c.delivered, x, s)
    ensures (s in w'.c.lastSeen <==> Accepted(0, Parked(w, s)) != []) && Watermark(w'.c, s) == Top(0, Parked(w, s))
  {
    var f, h := w.flight.value, w.c.hold.value;
    DispatchAllBySession(Renamed(w.c, e).(hold := None), Handed(f, h), s);
    HandedNums(f, h, s);
    HandedIsParked(w, s);
  }

  lemma ParkedIsBetween(w: World, k: Epoch, s: Session)
    requires Safe(Skeleton(w, k)) && RecordOk(w, k, s)
    ensures Between(w, k, s, Parked(w, s))
  {
    if Parked(w, s) != [] {
      assert w.flight.Some? && HoldsFor(w, s) by {
        HoldIsFlight(w, k);
      }
      ParkedBetween(w, k, s);
    }
  }

  lemma SupersededRecord(w: World, w': World, k: Epoch, e: Epoch, s: Session)
    requires RecordOk(w, k, s) && e < k && Seqs(w.c.delivered, Some(e), s) == [] && Between(w, k, s, Parked(w, s))
    requires w.flight.Some? && w.c.hold.Some? && HoldShape(w.flight.value, w.c.hold.value) && Alone(w.flight.value)
    requires w'.c == DispatchAll(Renamed(w.c, e).(hold := None), Handed(w.flight.value, w.c.hold.value)).(inFlight := false)
    requires w'.flight.None? && Taken(w', k, s) == Taken(w, k, s)
    ensures RecordOk(w', k, s) && Below(w', Some(e), s, Taken(w', k, s))
  {
    var told := Accepted(0, Parked(w, s));
    SupersededHands(w, w', k, e, s);
    PassesTop(0, Parked(w, s));
    AboveAndWithin(w, k, s, Parked(w, s), told);
    assert [] + told == told;
    RenamedRecord(w, w', k, e, s, told);
  }

  lemma ParkedAllBetween(w: World, k: Epoch)
    requires Safe(Skeleton(w, k)) && forall s :: RecordOk(w, k, s)
    ensures forall s :: Between(w, k, s, Parked(w, s))
  {
    forall s ensures Between(w, k, s, Parked(w, s)) {
      assert RecordOk(w, k, s);
      ParkedIsBetween(w, k, s);
    }
  }

  lemma SupersededRecords(w: World, w': World, k: Epoch, e: Epoch)
    requires w.flight.Some? && Superseded(w, k, e) && forall s :: RecordOk(w, k, s) && Between(w, k, s, Parked(w, s))
    requires w.c.hold.Some? && HoldShape(w.flight.value, w.c.hold.value)
    requires w'.c == DispatchAll(Renamed(w.c, e).(hold := None), Handed(w.flight.value, w.c.hold.value)).(inFlight := false)
    requires w'.flight.None? && forall s :: Taken(w', k, s) == Taken(w, k, s)
    ensures forall s :: RecordOk(w', k, s) && Below(w', Some(e), s, Taken(w', k, s))
  {
    forall s ensures RecordOk(w', k, s) && Below(w', Some(e), s, Taken(w', k, s)) {
      assert RecordOk(w, k, s) && Between(w, k, s, Parked(w, s));
      SupersededRecord(w, w', k, e, s);
    }
  }

  lemma OldNameTells(w: World, k: Epoch, e: Epoch)
    requires w.flight.None? && w.c.epoch == Some(e) && e < k && SessionsListed(w.c) && "" !in w.c.lastSeen
    requires forall s :: RecordOk(w, k, s) && Below(w, Some(e), s, Taken(w, k, s))
    requires w.link.Some? && NoReady(w.link.value.wire) ==> k == w.epoch
    ensures Recorded(w, k)
  {
  }

  lemma SettleOldTells(w: World, k: Epoch, e: Epoch)
    requires Recorded(w, k) && Enabled(w, Settle) && Superseded(w, k, e)
    requires w.c.hold.Some? && HoldShape(w.flight.value, w.c.hold.value) && forall s :: Between(w, k, s, Parked(w, s))
    requires w.link.Some? && NoReady(w.link.value.wire) ==> k == w.epoch
    ensures Recorded(Next(w, Settle), k)
  {
    var w' := w.(c := Settled(w), flight := None);
    SettledIsLive(w);
    SettlingAnother(w, e);
    SupersededRecords(w, w', k, e);
    SettledList(w, w', k, e);
    SupersededHands(w, w', k, e, "");
    OldNameTells(w', k, e);
  }

  lemma SettleOldKeeps(w: World, k: Epoch, e: Epoch)
    requires Loose(w, k) && Enabled(w, Settle) && Superseded(w, k, e)
    ensures Recorded(Next(w, Settle), k)
  {
    ShapeOfHold(w, k);
    ParkedAllBetween(w, k);
    if w.link.Some? && NoReady(w.link.value.wire) {
      OldNameIsGreeted(w, k);
    }
    SettleOldTells(w, k, e);
  }

  lemma SettledList(w: World, w': World, k: Epoch, e: Epoch)
    requires w.flight.Some? && w.c.hold.Some? && HoldShape(w.flight.value, w.c.hold.value) && Alone(w.flight.value)
    requires w'.c == DispatchAll(Renamed(w.c, e).(hold := None), Handed(w.flight.value, w.c.hold.value)).(inFlight := false)
    ensures SessionsListed(w'.c) && "" !in w'.c.lastSeen
  {
    DispatchAllKeepsList(Renamed(w.c, e).(hold := None), Handed(w.flight.value, w.c.hold.value));
    SupersededHands(w, w', 0, e, "");
    assert Parked(w, "") == [];
  }

  lemma OldNameIsGreeted(w: World, k: Epoch)
    requires Safe(Skeleton(w, k)) && w.link.Some? && NoReady(w.link.value.wire)
    ensures k == w.epoch
  {
  }

  // ------------------------------------------------------------------- every run

  lemma DeliverKeeps(w: World, k: Epoch)
    requires Loose(w, k) && Enabled(w, Deliver)
    ensures Recorded(Next(w, Deliver), Greeter(w, k, Deliver))
  {
    match w.link.value.wire[0]
    case Reply(_, _, _, _) => ReplyKeeps(w, k);
    case Live(e) =>
      if e.kind.Ready? {
        GreetedKeeps(w, k);
      } else if Parks(w.c, e) {
        ParkedKeeps(w, k, e);
      } else {
        LiveKeeps(w, k, e);
      }
  }

  lemma SettleKeeps(w: World, k: Epoch)
    requires Loose(w, k) && Enabled(w, Settle)
    ensures Recorded(Next(w, Settle), k)
  {
    if FreshNews(w, k) {
      SettleOwnKeeps(w, k);
    } else {
      var e :| Superseded(w, k, e);
      SettleOldKeeps(w, k, e);
    }
  }

  lemma StepKeepsSkeleton(w: World, k: Epoch, a: Action)
    requires Loose(w, k) && Enabled(w, a) && (a.Dial? ==> Orderly(w))
    ensures Safe(Skeleton(Next(w, a), Greeter(w, k, a)))
  {
    match a
    case Opened => OpenedStepsSkeleton(w, k);
    case Deliver => FrameStepsSkeleton(w, k);
    case Expire(s) => ExpireStepsSkeleton(w, k, s);
    case Settle => SettleStepsSkeleton(w, k);
    case SettleStale(_, _) =>
    case _ => ServerStepsSkeleton(w, k, a);
  }

  lemma StepKeepsRecorded(w: World, k: Epoch, a: Action)
    requires Loose(w, k) && Enabled(w, a) && (a.Dial? ==> Orderly(w))
    ensures Recorded(Next(w, a), Greeter(w, k, a))
  {
    match a
    case Opened => OpenedKeeps(w, k);
    case Deliver => DeliverKeeps(w, k);
    case Expire(s) => ExpireKeeps(w, k, s);
    case Settle => SettleKeeps(w, k);
    case SettleStale(_, _) =>
    case Dial => DialKeeps(w, k);
    case _ => ServerStepKeeps(w, k, a);
  }

  lemma StepKeepsLoose(w: World, k: Epoch, a: Action)
    requires Loose(w, k) && Enabled(w, a) && (a.Dial? ==> Orderly(w))
    ensures Loose(Next(w, a), Greeter(w, k, a))
  {
    StepKeepsSkeleton(w, k, a);
    StepKeepsRecorded(w, k, a);
  }

  lemma {:induction false} LooseRunsStayInOrder(w: World, k: Epoch, actions: seq<Action>)
    requires Loose(w, k) && FollowsInOrder(w, actions)
    ensures InOrder(Run(w, actions))
    decreases |actions|
  {
    if actions == [] {
      forall s, epoch ensures Increasing(Seqs(w.c.delivered, epoch, s)) {
        assert RecordOk(w, k, s);
      }
    } else {
      StepKeepsLoose(w, k, actions[0]);
      LooseRunsStayInOrder(Next(w, actions[0]), Greeter(w, k, actions[0]), actions[1..]);
    }
  }

  lemma SafeIsInOrder(w: World)
    requires Safe(w)
    ensures InOrder(w)
  {
    forall s, epoch ensures Increasing(Seqs(w.c.delivered, epoch, s)) {
      assert LogOk(w, s);
    }
  }

  lemma AnswersHaveAName(w: World)
    requires Safe(w) && Orderly(w) && !Barren(w)
    ensures w.flight.Some? && w.c.epoch.Some? && exists s :: Answered(w.flight.value.got, s)
  {
    var s :| s in w.flight.value.got && !w.flight.value.got[s].Lost?;
    assert Answered(w.flight.value.got, s) && s in w.flight.value.asked && HeldOk(w, s);
  }

  lemma {:induction false} OrderlyRunsStayInOrder(w: World, actions: seq<Action>)
    requires Safe(w) && FollowsInOrder(w, actions)
    ensures InOrder(Run(w, actions))
    decreases |actions|
  {
    if actions == [] {
      SafeIsInOrder(w);
    } else if actions[0].Dial? && !Barren(w) {
      AnswersHaveAName(w);
      DialedIsLoose(w, w.c.epoch.value);
      LooseRunsStayInOrder(Next(w, Dial), w.c.epoch.value, actions[1..]);
    } else {
      StepKeepsSafe(w, actions[0]);
      OrderlyRunsStayInOrder(Next(w, actions[0]), actions[1..]);
    }
  }

  /** In every run whose dials are orderly, the numbers of a session go up within every server's name. */
  lemma EveryOrderlyRunIsInOrder(w: World, actions: seq<Action>)
    requires Init(w) && FollowsInOrder(w, actions)
    ensures InOrder(Run(w, actions))
  {
    InitIsSafe(w);
    OrderlyRunsStayInOrder(w, actions);
  }

  /**
   * And a dial keeps the order, whatever happens after it, exactly when it is orderly: the replay it is over,
   * if any, has parked no numbered frame, and its answers, if any, are of a server in whose name nothing was
   * told, none but the first with a number in it.
   */
  lemma ADialKeepsTheOrderExactlyWhen(w: World)
    requires Safe(w) && Enabled(w, Dial)
    ensures (forall actions :: FollowsInOrder(Next(w, Dial), actions) ==> InOrder(Run(Next(w, Dial), actions))) <==> Orderly(w)
  {
    if Orderly(w) {
      forall actions | FollowsInOrder(Next(w, Dial), actions) ensures InOrder(Run(Next(w, Dial), actions)) {
        assert ([Dial] + actions)[1..] == actions;
        OrderlyRunsStayInOrder(w, [Dial] + actions);
      }
    } else {
      var actions := ADialSendsBack(w);
    }
  }
}
