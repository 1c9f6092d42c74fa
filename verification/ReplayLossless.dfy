/**
 * What keeps a session without a gap: as long as the ring holds the log and the replays that settle were
 * fulfilled, every step but a dial over a replay leaves each session delivered up to its watermark, and
 * the next number on the wire the one after it. Which of those dials do is in `ReplayGaps`.
 */
module ReplayLossless {
  import opened Prelude
  import opened ReplayClient
  import opened ReplayNumbers
  import opened ReplayWorld

  /** From the first number the handlers saw up to the watermark, nothing is missing. */
  ghost predicate Gapless(c: Client, s: Session) {
    var seen := Seqs(c.delivered, c.epoch, s);
    s in c.lastSeen ==> seen != [] && seen == Span(seen[0] - 1, c.lastSeen[s])
  }

  /** A parked session is asked for from its own watermark, and answered from there. */
  ghost predicate AskedWell(w: World, s: Session) {
    HoldsFor(w, s) ==>
      var f := w.flight.value;
      && 1 <= f.asked[s]
      && (Mark(w.c, f.epoch, s) > 0 ==> f.asked[s] == Watermark(w.c, s))
      && (s in f.got && f.got[s].Served? ==> f.got[s].lo == f.asked[s])
  }

  /** The next number on the wire for a session that is not parked is the one after its mark. */
  ghost predicate Level(w: World, s: Session) {
    w.link.Some? && !HoldsFor(w, s) && Mark(w.c, w.epoch, s) > 0 ==>
      Mark(w.c, w.epoch, s) == Head(w, w.epoch, s) - |LiveNums(w.link.value.wire, s)|
  }

  ghost predicate RepliesAsked(w: World) {
    w.link.Some? ==>
      forall i :: 0 <= i < |w.link.value.wire| && w.link.value.wire[i].Reply? && HoldsFor(w, w.link.value.wire[i].sid) ==>
        w.link.value.wire[i].lo == w.flight.value.asked[w.link.value.wire[i].sid]
  }

  /** The replay in flight, if any, parks every session the client has a mark of in the server's log. */
  ghost predicate Covered(w: World) {
    w.flight.Some? ==> forall s :: Mark(w.c, w.epoch, s) > 0 ==> HoldsFor(w, s)
  }

  /** A replay is started for some session, by a client that is in no later name than the socket's server. */
  ghost predicate AsksInName(w: World) {
    w.flight.Some? ==>
      && w.flight.value.asked != map[]
      && (w.c.epoch.Some? ==> w.c.epoch.value <= w.flight.value.epoch)
  }

  ghost predicate Kept(w: World) {
    && w.c.replay
    && RepliesAsked(w) && AsksInName(w)
    && (w.c.state.Connecting? ==> Covered(w))
    && forall s :: Gapless(w.c, s) && AskedWell(w, s) && Level(w, s)
  }

  /** The client's record is as it was, and so is what each session is owed. */
  ghost predicate SameDebt(w: World, w': World) {
    && w'.c.delivered == w.c.delivered && w'.c.epoch == w.c.epoch && w'.c.lastSeen == w.c.lastSeen
    && w'.c.replay == w.c.replay
    && (w'.flight.Some? ==> w.flight.Some? && w'.flight.value == w.flight.value.(waiting := w'.flight.value.waiting, got := w'.flight.value.got))
    && (w'.link.Some? ==>
          && w.link.Some? && w'.epoch == w.epoch && (w.flight.Some? ==> w'.flight.Some?)
          && forall s :: Head(w', w.epoch, s) - |LiveNums(w'.link.value.wire, s)|
                         == Head(w, w.epoch, s) - |LiveNums(w.link.value.wire, s)|)
  }

  lemma DebtStays(w: World, w': World)
    requires Kept(w) && SameDebt(w, w') && RepliesAsked(w')
    requires w'.c.state.Connecting? ==> Covered(w')
    requires w'.flight.Some? ==> forall s :: s in w'.flight.value.got ==>
                                               (s in w.flight.value.got && w'.flight.value.got[s] == w.flight.value.got[s])
                                               || (HoldsFor(w, s) && w'.flight.value.got[s].Served? ==>
                                                     w'.flight.value.got[s].lo == w.flight.value.asked[s])
    ensures Kept(w')
  {
    forall s ensures Gapless(w'.c, s) && AskedWell(w', s) && Level(w', s) {
      assert Gapless(w.c, s) && AskedWell(w, s) && Level(w, s);
    }
  }

  /** A frame at the end of the wire is owed only if it is a number, and then the head moved too. */
  lemma SentDebt(w: World, w': World, f: Frame)
    requires Kept(w) && w'.c == w.c
    requires w.link.Some? && w'.link == Some(Link(w.link.value.wire + [f])) && FitsAtEnd(f, w, w')
    requires w.flight.Some? <==> w'.flight.Some?
    requires w.flight.Some? ==> w'.flight.value == w.flight.value.(waiting := w'.flight.value.waiting)
    requires f.Reply? && HoldsFor(w, f.sid) ==> f.lo == w.flight.value.asked[f.sid]
    ensures Kept(w')
  {
    forall s {
      LiveNumsAppend(w.link.value.wire, f, s);
    }
    DebtStays(w, w');
  }

  lemma EmitKeeps(w: World, s: Session)
    requires Kept(w) && Enabled(w, Emit(s))
    ensures Kept(Next(w, Emit(s)))
  {
    EmitHeads(w, s);
    if w.link.Some? {
      SentDebt(w, Next(w, Emit(s)), Live(EventAt(s, Head(w, w.epoch, s) + 1)));
    } else {
      DebtStays(w, Next(w, Emit(s)));
    }
  }

  lemma NoticeKeeps(w: World, e: Event)
    requires Kept(w) && Enabled(w, Notice(e))
    ensures Kept(Next(w, Notice(e)))
  {
    SentDebt(w, Next(w, Notice(e)), Live(e));
  }

  lemma ServeKeeps(w: World, s: Session, from: int)
    requires Safe(w) && Kept(w) && Enabled(w, Serve(s, from)) && Complete(w, Serve(s, from))
    ensures Kept(Next(w, Serve(s, from)))
  {
    ServeStep(w, s, from);
    SentDebt(w, Next(w, Serve(s, from)), Reply(s, w.epoch, from, Head(w, w.epoch, s)));
  }

  predicate SocketStep(a: Action) {
    a.Dial? || a.DialFailed? || a.Closing? || a.Dropped? || a.Cut? || a.Restart?
  }

  lemma SocketDebt(w: World, a: Action)
    requires Enabled(w, a) && SocketStep(a) && ClientOk(w)
    ensures var w' := Next(w, a);
            && SameDebt(w, w') && (w'.link.Some? ==> w'.link == w.link)
            && (w'.flight.Some? ==> w'.flight.value.got == w.flight.value.got)
            && (w'.c.state.Connecting? ==> w.c.state.Connecting? || a.Dial?)
            && (w'.epoch == w.epoch || (w'.epoch > w.epoch && w'.link.None?))
  {
  }

  lemma CoveredStays(w: World, w': World)
    requires Covered(w) && ClientOk(w) && SameDebt(w, w') && w.epoch <= w'.epoch
    ensures Covered(w')
  {
    assert forall s :: Mark(w'.c, w'.epoch, s) == if w'.epoch == w.epoch then Mark(w.c, w.epoch, s) else 0;
  }

  lemma SocketStepKeeps(w: World, a: Action)
    requires Safe(w) && Kept(w) && Enabled(w, a) && (a.Dial? ==> Covered(w)) && SocketStep(a)
    ensures Kept(Next(w, a))
  {
    SocketDebt(w, a);
    if Next(w, a).c.state.Connecting? {
      CoveredStays(w, Next(w, a));
    }
    DebtStays(w, Next(w, a));
  }

  lemma ExpireKeeps(w: World, s: Session)
    requires Kept(w) && Enabled(w, Expire(s))
    ensures Kept(Next(w, Expire(s)))
  {
    DebtStays(w, Next(w, Expire(s)));
  }

  lemma OpenedKeepsOne(w: World, s: Session)
    requires ClientOk(w) && w.c.replay && Enabled(w, Opened) && Covered(w) && AsksInName(w)
    requires Gapless(w.c, s) && AskedWell(w, s) && CurrentOk(w, s) && (w.flight.Some? ==> w.flight.value.epoch <= w.epoch)
    requires w.flight.Some? ==> forall x :: x in w.flight.value.got ==> w.flight.value.got[x].Lost?
    ensures var w' := Next(w, Opened); Gapless(w'.c, s) && AskedWell(w', s) && Level(w', s)
  {
  }

  lemma OpenedKeeps(w: World)
    requires Safe(w) && Kept(w) && Enabled(w, Opened)
    ensures Kept(Next(w, Opened))
  {
    var w' := Next(w, Opened);
    forall s ensures Gapless(w'.c, s) && AskedWell(w', s) && Level(w', s) {
      assert Gapless(w.c, s) && AskedWell(w, s) && LogOk(w, s) && CurrentOk(w, s);
      OpenedKeepsOne(w, s);
    }
  }

  lemma DeliverReplyKeeps(w: World)
    requires Safe(w) && Kept(w) && Enabled(w, Deliver) && w.link.value.wire[0].Reply?
    ensures Kept(Next(w, Deliver))
  {
    var r, rest := w.link.value.wire[0], Popped(w);
    assert r.Reply? && LiveNums(w.link.value.wire, "") == LiveNums(rest.link.value.wire, "");
    DebtStays(w, rest);
    if w.flight.Some? && r.sid in w.flight.value.asked && r.sid !in w.flight.value.got {
      var got := w.flight.value.got[r.sid := Served(r.epoch, r.lo, r.upto)];
      assert Next(w, Deliver) == rest.(flight := Some(w.flight.value.(got := got)));
      AnswerKeeps(rest, got, r.sid);
    }
  }

  lemma AnswerKeeps(w: World, got: map<Session, Got>, s: Session)
    requires Kept(w) && w.flight.Some? && HoldsFor(w, s) && s !in w.flight.value.got
    requires s in got && got == w.flight.value.got[s := got[s]] && (got[s].Served? ==> got[s].lo == w.flight.value.asked[s])
    ensures Kept(w.(flight := Some(w.flight.value.(got := got))))
  {
    DebtStays(w, w.(flight := Some(w.flight.value.(got := got))));
  }

  lemma ReadyKeepsOne(w: World, w': World, s: Session)
    requires w.link.Some? && w.link.value.wire != [] && w.link.value.wire[0] == Live(ReadyEvent(w.epoch))
    requires w' == Popped(w).(c := GreetedClient(w))
    requires Gapless(w.c, s) && AskedWell(w, s) && Level(w, s)
    requires w.c.epoch.None? ==> w.c.lastSeen == map[]
    requires w.flight.Some? ==> w.flight.value.epoch == w.epoch
    ensures Gapless(w'.c, s) && AskedWell(w', s) && Level(w', s)
  {
  }

  lemma DeliverReadyKeeps(w: World)
    requires Safe(w) && Kept(w) && Enabled(w, Deliver) && w.link.value.wire[0].Live?
    requires w.link.value.wire[0].event.kind.Ready?
    ensures Kept(Next(w, Deliver))
  {
    var w' := Popped(w).(c := GreetedClient(w));
    assert Next(w, Deliver) == w';
    forall s ensures Gapless(w'.c, s) && AskedWell(w', s) && Level(w', s) {
      assert Gapless(w.c, s) && AskedWell(w, s) && Level(w, s);
      ReadyKeepsOne(w, w', s);
    }
  }

  lemma ParkKeepsOne(w: World, w': World, e: Event, s: Session)
    requires w.link.Some? && w.link.value.wire != [] && w.link.value.wire[0] == Live(e)
    requires Numbered(e) ==> HoldsFor(w, e.sid)
    requires w' == Popped(w).(c := w.c.(hold := w'.c.hold))
    requires Gapless(w.c, s) && AskedWell(w, s) && Level(w, s)
    ensures Gapless(w'.c, s) && AskedWell(w', s) && Level(w', s)
  {
  }

  lemma DeliverParkedKeeps(w: World, e: Event)
    requires Safe(w) && Kept(w) && Enabled(w, Deliver) && w.link.value.wire[0] == Live(e)
    requires !e.kind.Ready? && Parks(w.c, e)
    ensures Kept(Next(w, Deliver))
  {
    var w' := Popped(w).(c := w.c.(hold := Some(Park(w.c.hold.value, e))));
    assert Next(w, Deliver) == w';
    forall s ensures Gapless(w'.c, s) && AskedWell(w', s) && Level(w', s) {
      assert Gapless(w.c, s) && AskedWell(w, s) && Level(w, s);
      ParkKeepsOne(w, w', e, s);
    }
  }

  lemma DeliverLiveKeeps(w: World, e: Event)
    requires Safe(w) && Kept(w) && Enabled(w, Deliver) && w.link.value.wire[0] == Live(e)
    requires !e.kind.Ready? && !Parks(w.c, e)
    ensures Kept(Next(w, Deliver))
  {
    var w' := Popped(w).(c := Dispatch(RecordSeq(w.c, e), e));
    assert Next(w, Deliver) == w';
    forall s ensures Gapless(w'.c, s) && AskedWell(w', s) && Level(w', s) {
      assert Gapless(w.c, s) && AskedWell(w, s) && Level(w, s) && LogOk(w, s) && WireOk(w, s);
      WireHead(w, e, s);
      LiveKeepsOne(w, w', e, s);
    }
  }

  lemma LiveKeepsOne(w: World, w': World, e: Event, s: Session)
    requires w.link.Some? && w.link.value.wire != [] && w.link.value.wire[0] == Live(e)
    requires Gapless(w.c, s) && AskedWell(w, s) && Level(w, s) && CurrentOk(w, s) && WireOk(w, s)
    requires w.c.epoch == Some(w.epoch) && !(Numbered(e) && HoldsFor(w, e.sid))
    requires w' == Popped(w).(c := Dispatch(RecordSeq(w.c, e), e))
    ensures Gapless(w'.c, s) && AskedWell(w', s) && Level(w', s)
  {
    if Numbered(e) && e.sid == s {
      NextNumber(w, e);
      LiveGapless(w.c, e);
      assert Watermark(w'.c, s) == e.seqno.n;
    } else {
      OtherGapless(w.c, e, s);
      SkippedFrame(w, e, s);
    }
  }

  lemma OtherGapless(c: Client, e: Event, s: Session)
    requires Gapless(c, s) && !(Numbered(e) && e.sid == s)
    ensures var d := Dispatch(RecordSeq(c, e), e);
            Gapless(d, s) && Watermark(d, s) == Watermark(c, s) && d.epoch == c.epoch
  {
  }

  /** A live number that is not parked is the one after the session's mark, if it has one. */
  lemma NextNumber(w: World, e: Event)
    requires w.link.Some? && w.link.value.wire != [] && w.link.value.wire[0] == Live(e)
    requires Numbered(e) && !HoldsFor(w, e.sid) && w.c.epoch == Some(w.epoch)
    requires WireOk(w, e.sid) && Level(w, e.sid) && CurrentOk(w, e.sid)
    ensures e.seqno.n > Watermark(w.c, e.sid)
    ensures e.sid in w.c.lastSeen ==> e.seqno.n == w.c.lastSeen[e.sid] + 1
    ensures e.seqno.n == Head(w, w.epoch, e.sid) - |LiveNums(w.link.value.wire[1..], e.sid)|
  {
    var nums := LiveNums(w.link.value.wire, e.sid);
    WireHead(w, e, e.sid);
    assert nums[0] == Head(w, w.epoch, e.sid) - |nums| + 1;
  }

  /** The number after the mark extends a gapless record; any number starts one. */
  lemma LiveGapless(c: Client, e: Event)
    requires Numbered(e) && Gapless(c, e.sid) && e.seqno.n > Watermark(c, e.sid)
    requires e.sid in c.lastSeen ==> e.seqno.n == c.lastSeen[e.sid] + 1
    requires e.sid !in c.lastSeen ==> Seqs(c.delivered, c.epoch, e.sid) == []
    ensures Gapless(Dispatch(RecordSeq(c, e), e), e.sid)
  {
  }

  lemma DeliverKeeps(w: World)
    requires Safe(w) && Kept(w) && Enabled(w, Deliver)
    ensures Kept(Next(w, Deliver))
  {
    match w.link.value.wire[0]
    case Reply(_, _, _, _) => DeliverReplyKeeps(w);
    case Live(e) =>
      if e.kind.Ready? {
        DeliverReadyKeeps(w);
      } else if Parks(w.c, e) {
        DeliverParkedKeeps(w, e);
      } else {
        DeliverLiveKeeps(w, e);
      }
  }

  /** The gap and then the parked frames: the overlap falls to the gate, nothing else. */
  lemma GapThenParked(m: int, lo: int, base: int, upto: int, end: int)
    requires m <= base <= upto <= end && 1 <= lo && (m == lo || m == 0)
    ensures var ns := Span(lo, upto) + Span(base, end);
            var start := if m == lo || lo < upto then lo else base;
            && Accepted(m, ns) == Span(start, end)
            && Top(m, ns) == (if start < end then end else m)
  {
    GateConcat(m, Span(lo, upto), Span(base, end));
    GateSpan(m, lo, upto);
    var top := if lo < upto then upto else m;
    GateSpan(top, base, end);
    if lo < upto {
      SpansMeet(lo, upto, end);
    } else {
      assert Span(lo, upto) == [];
      assert [] + Span(Max(top, base), end) == Span(Max(top, base), end);
    }
  }

  /** Spans that meet are one span. */
  lemma SpansMeet(a: int, b: int, c: int)
    requires a <= b <= c
    ensures Span(a, b) + Span(b, c) == Span(a, c)
  {
  }

  lemma SettleKeepsHeld(w: World, c: Client, s: Session)
    requires HoldsFor(w, s) && HeldOk(w, s) && AskedWell(w, s) && Gapless(w.c, s) && CurrentOk(w, s)
    requires s in w.flight.value.got && w.flight.value.got[s].Served?
    requires Released(w.c.(hold := None, inFlight := false), c, Brought(w, s), s)
    ensures Gapless(c, s)
    ensures Mark(c, w.flight.value.epoch, s) > 0 ==>
              Mark(c, w.flight.value.epoch, s) == Base(w.flight.value, s) + |Parked(w, s)|
  {
    var f, m := w.flight.value, Watermark(w.c, s);
    var lo, base, upto, end := f.asked[s], Base(f, s), f.got[s].upto, Base(f, s) + |Parked(w, s)|;
    assert Brought(w, s) == Span(lo, upto) + Span(base, end);
    GapThenParked(m, lo, base, upto, end);
    SpanReleased(w.c.(hold := None, inFlight := false), c, Brought(w, s), s, if m == lo || lo < upto then lo else base, end);
  }

  /** A span released at the end of a gapless record leaves it gapless. */
  lemma SpanReleased(c: Client, d: Client, ns: seq<int>, s: Session, start: int, end: int)
    requires Gapless(c, s) && Released(c, d, ns, s) && Accepted(Watermark(c, s), ns) == Span(start, end)
    requires Top(Watermark(c, s), ns) == if start < end then end else Watermark(c, s)
    requires if s in c.lastSeen then start == c.lastSeen[s] else Seqs(c.delivered, c.epoch, s) == []
    ensures Gapless(d, s)
  {
    var seen := Seqs(c.delivered, c.epoch, s);
    assert Seqs(d.delivered, d.epoch, s) == seen + Span(start, end);
    if start < end {
      assert Watermark(d, s) == end;
      if s in c.lastSeen {
        assert seen == Span(seen[0] - 1, start) && |seen| > 0;
        SpansMeet(seen[0] - 1, start, end);
        SpanIsGapless(d, s, seen[0] - 1, end);
      } else {
        assert [] + Span(start, end) == Span(start, end);
        SpanIsGapless(d, s, start, end);
      }
    } else {
      NothingIsGapless(c, d, s, start, end);
    }
  }

  lemma NothingIsGapless(c: Client, d: Client, s: Session, start: int, end: int)
    requires Gapless(c, s) && end <= start && d.epoch == c.epoch && Watermark(d, s) == Watermark(c, s)
    requires (s in d.lastSeen <==> s in c.lastSeen) && Seqs(d.delivered, d.epoch, s) == Seqs(c.delivered, c.epoch, s) + Span(start, end)
    ensures Gapless(d, s)
  {
    assert Span(start, end) == [] && Seqs(c.delivered, c.epoch, s) + [] == Seqs(c.delivered, c.epoch, s);
  }

  lemma SpanIsGapless(c: Client, s: Session, first: int, last: int)
    requires first < last && Seqs(c.delivered, c.epoch, s) == Span(first, last) && Watermark(c, s) == last
    ensures Gapless(c, s)
  {
    assert Span(first, last)[0] == first + 1;
  }

  lemma SettleKeepsOne(w: World, w': World, s: Session)
    requires Safe(w) && Enabled(w, Settle) && Complete(w, Settle) && w' == w.(c := Settled(w), flight := None)
    requires Gapless(w.c, s) && AskedWell(w, s) && Level(w, s)
    ensures Gapless(w'.c, s) && Level(w', s)
  {
    SettleBySession(w, s);
    assert LogOk(w, s) && CurrentOk(w, s);
    if HoldsFor(w, s) {
      assert HeldOk(w, s);
      SettleKeepsHeld(w, w'.c, s);
      assert w.link.Some? ==> WireOk(w, s);
    } else {
      SettleKeepsOther(w, w'.c, s);
    }
  }

  lemma SettleKeepsOther(w: World, c: Client, s: Session)
    requires w.flight.Some? && !HoldsFor(w, s) && Gapless(w.c, s)
    requires Released(w.c.(hold := None, inFlight := false), c, Brought(w, s), s)
    ensures Gapless(c, s) && Watermark(c, s) == Watermark(w.c, s) && c.epoch == w.c.epoch
  {
  }

  lemma SettleKeeps(w: World)
    requires Safe(w) && Kept(w) && Enabled(w, Settle) && Complete(w, Settle)
    ensures Kept(Next(w, Settle))
  {
    var w' := w.(c := Settled(w), flight := None);
    assert Next(w, Settle) == w';
    SettleKeepsClient(w);
    forall s ensures Gapless(w'.c, s) && AskedWell(w', s) && Level(w', s) {
      assert Gapless(w.c, s) && AskedWell(w, s) && Level(w, s);
      SettleKeepsOne(w, w', s);
    }
  }

  lemma StepKeeps(w: World, a: Action)
    requires Safe(w) && Kept(w) && Enabled(w, a) && Complete(w, a) && (a.Dial? ==> Barren(w) && Covered(w))
    ensures Safe(Next(w, a)) && Kept(Next(w, a))
  {
    StepKeepsSafe(w, a);
    match a
    case Emit(s) => EmitKeeps(w, s);
    case Notice(e) => NoticeKeeps(w, e);
    case Serve(s, from) => ServeKeeps(w, s, from);
    case Opened => OpenedKeeps(w);
    case Deliver => DeliverKeeps(w);
    case Settle => SettleKeeps(w);
    case Expire(s) => ExpireKeeps(w, s);
    case SettleStale(_, _) =>
    case _ => SocketStepKeeps(w, a);
  }
}
