/**
 * Which dials lose numbers. `connect` can replace a bound socket whose replay is still under way: the new
 * socket then asks for nothing, and whatever that replay does not park can run past a number it missed.
 */
module ReplayGaps {
  import opened Prelude
  import opened ReplayClient
  import opened ReplayNumbers
  import opened ReplayWorld
  import opened ReplayLossless
  import opened ReplayDial
  import opened ReplayOrder
  import ReplayEdge

  // ------------------------------------------------ dialling over a replay

  /** A call of the replay that brought no answer. */
  predicate Unserved(f: Flight, s: Session) {
    s in f.asked && (s in f.got ==> f.got[s].Lost?)
  }

  /** Some call of the replay in flight, if there is one, has no answer; dialled over, it never gets one. */
  ghost predicate Unfinished(w: World) {
    w.flight.Some? ==> exists s :: Unserved(w.flight.value, s)
  }

  /** What a dial asks of the owner so that nothing is lost. */
  ghost predicate Sparing(w: World) {
    Covered(w) && Unfinished(w)
  }

  /** A run in which the ring holds the log, the replays that settle were fulfilled, and the dials are sparing. */
  ghost predicate FollowsFully(w: World, actions: seq<Action>)
    decreases |actions|
  {
    actions == []
    || (Enabled(w, actions[0]) && Complete(w, actions[0]) && (actions[0].Dial? ==> Sparing(w))
        && FollowsFully(Next(w, actions[0]), actions[1..]))
  }

  /**
   * `v` is `w` without what a replay had brought when it was dialled over. That replay cannot settle
   * fulfilled any more, so nothing of it is ever told, and `w` goes on as `v` does.
   */
  ghost predicate Shadows(w: World, v: World) {
    && w.flight.Some? && v.flight.Some? && w.c.hold.Some? && v.c.hold.Some?
    && v == w.(c := w.c.(hold := v.c.hold), flight := v.flight)
    && v.flight.value == w.flight.value.(got := v.flight.value.got)
    && v.c.hold.value.order == w.c.hold.value.order && v.c.hold.value.parked.Keys == w.c.hold.value.parked.Keys
    && v.flight.value.got.Keys <= w.flight.value.got.Keys && (forall s :: s in v.flight.value.got ==> v.flight.value.got[s].Lost?)
    && Stranded(w)
  }

  /** No call is out, no answer is under way, and one is missing. */
  ghost predicate Stranded(w: World)
    requires w.flight.Some?
  {
    && w.flight.value.waiting == {} && Unfinished(w)
    && (w.link.Some? ==> forall i :: 0 <= i < |w.link.value.wire| ==> w.link.value.wire[i].Live?)
  }

  ghost predicate Secure(w: World) {
    (Safe(w) && Kept(w)) || exists v :: Safe(v) && Kept(v) && Shadows(w, v)
  }

  /** The world at a dial, without the socket and what its replay brought. */
  function Rested(w: World): World
    requires w.flight.Some? && w.c.hold.Some?
  {
    var h := w.c.hold.value;
    w.(c := w.c.(hold := Some(h.(parked := map s | s in h.parked :: []))), link := None,
       flight := Some(w.flight.value.(waiting := {}, got := map[])))
  }

  lemma RestedHeld(w: World, s: Session)
    requires w.flight.Some? && w.c.hold.Some? && HeldOk(w, s)
    ensures HeldOk(Rested(w), s) && Parked(Rested(w), s) == []
  {
  }

  lemma RestedIsSafe(w: World)
    requires Safe(w) && w.flight.Some? && w.c.hold.Some? && !w.c.state.Connecting?
    ensures Safe(Rested(w)) && Barren(Rested(w))
  {
    var v := Rested(w);
    LogStays(w, v);
    assert forall s :: Parked(v, s) == [];
    forall s | s in w.flight.value.asked ensures HeldOk(v, s) {
      RestedHeld(w, s);
    }
  }

  lemma RestedIsKept(w: World)
    requires Kept(w) && w.flight.Some? && w.c.hold.Some? && !w.c.state.Connecting?
    ensures Kept(Rested(w)) && (Covered(w) ==> Covered(Rested(w)))
  {
    assert forall s :: Mark(Rested(w).c, w.epoch, s) == Mark(w.c, w.epoch, s);
    DebtStays(w, Rested(w));
  }

  /** The client past a dial, up to what its replay had brought. */
  lemma DialsAlike(w: World, v: World)
    requires Enabled(w, Dial) && w.flight.Some? && w.c.hold.Some? && Unfinished(w) && (w == v || Shadows(w, v))
    ensures Enabled(Rested(v), Dial) && Shadows(Next(w, Dial), Next(Rested(v), Dial))
  {
    var s :| Unserved(w.flight.value, s);
    assert Unserved(Next(w, Dial).flight.value, s);
  }

  lemma DialIsShadowed(w: World, v: World)
    requires Safe(v) && Kept(v) && (w == v || Shadows(w, v)) && Enabled(w, Dial) && w.flight.Some? && Sparing(w)
    ensures Secure(Next(w, Dial))
  {
    assert Covered(v) by {
      assert forall s :: Mark(v.c, v.epoch, s) == Mark(w.c, w.epoch, s);
    }
    RestedIsSafe(v);
    RestedIsKept(v);
    DialsAlike(w, v);
    StepKeeps(Rested(v), Dial);
  }

  lemma StrandedNeverSettles(w: World, a: Action)
    requires w.flight.Some? && Stranded(w) && Enabled(w, a) && Complete(w, a)
    ensures !a.Settle? && !a.Serve?
  {
  }

  /** The same client with something else parked for the same sessions. */
  ghost predicate Beside(c: Client, d: Client) {
    && c.hold.Some? && d.hold.Some? && d == c.(hold := d.hold)
    && d.hold.value.order == c.hold.value.order && d.hold.value.parked.Keys == c.hold.value.parked.Keys
  }

  lemma NamedBeside(c: Client, d: Client, e: Event)
    requires Beside(c, d)
    ensures var epoch := e.epoch.GetOr(0); Beside(AdoptEpoch(c, epoch), AdoptEpoch(d, epoch))
    ensures Beside(Dispatch(RecordSeq(c, e), e), Dispatch(RecordSeq(d, e), e))
    ensures Parks(c, e) <==> Parks(d, e)
  {
  }

  lemma ParkedBeside(c: Client, d: Client, e: Event)
    requires Beside(c, d) && Parks(c, e)
    ensures Beside(c.(hold := Some(Park(c.hold.value, e))), d.(hold := Some(Park(d.hold.value, e))))
  {
  }

  /** What is parked makes no difference to how a frame is handled. */
  lemma HandledBeside(c: Client, d: Client, e: Event)
    requires Beside(c, d)
    ensures Beside(HandleEvent(c, e), HandleEvent(d, e))
  {
    NamedBeside(c, d, e);
    var greets := e.kind.Ready? && e.epoch.Some?;
    var c', d' := if greets then AdoptEpoch(c, e.epoch.value) else c, if greets then AdoptEpoch(d, e.epoch.value) else d;
    NamedBeside(c', d', e);
    if Parks(c', e) {
      ParkedBeside(c', d', e);
    }
  }

  lemma ShadowedFrame(w: World, v: World)
    requires Shadows(w, v) && Enabled(w, Deliver)
    ensures Enabled(v, Deliver) && Shadows(Next(w, Deliver), Next(v, Deliver))
  {
    if w.c.socket.Some? {
      HandledBeside(w.c, v.c, w.link.value.wire[0].event);
    }
  }

  lemma ShadowedServer(w: World, v: World, a: Action)
    requires Shadows(w, v) && Enabled(w, a) && (a.Emit? || a.Notice? || a.Cut? || a.Restart? || a.Closing?)
    ensures Enabled(v, a) && Complete(v, a) && Shadows(Next(w, a), Next(v, a))
  {
    assert Unfinished(Next(w, a));
  }

  lemma ShadowedClient(w: World, v: World, a: Action)
    requires Shadows(w, v) && Enabled(w, a) && v.c.inFlight
    requires a.Opened? || a.DialFailed? || a.Expire? || a.SettleStale?
    ensures Enabled(v, a) && Complete(v, a) && Shadows(Next(w, a), Next(v, a))
  {
    var s :| Unserved(w.flight.value, s);
    assert Unserved(Next(w, a).flight.value, s);
  }

  lemma ShadowedDrop(w: World, v: World)
    requires Shadows(w, v) && Enabled(w, Dropped)
    ensures Enabled(v, Dropped) && Next(w, Dropped) == Next(v, Dropped)
  {
  }

  lemma ShadowedStep(w: World, v: World, a: Action)
    requires Safe(v) && Kept(v) && Shadows(w, v) && Enabled(w, a) && Complete(w, a) && (a.Dial? ==> Sparing(w))
    ensures Secure(Next(w, a))
  {
    StrandedNeverSettles(w, a);
    match a
    case Dial => DialIsShadowed(w, v);
    case Deliver =>
      ShadowedFrame(w, v);
      StepKeeps(v, Deliver);
    case Dropped =>
      ShadowedDrop(w, v);
      StepKeeps(v, Dropped);
    case Opened =>
      ShadowedClient(w, v, a);
      StepKeeps(v, a);
    case DialFailed(_) =>
      ShadowedClient(w, v, a);
      StepKeeps(v, a);
    case Expire(_) =>
      ShadowedClient(w, v, a);
      StepKeeps(v, a);
    case SettleStale(_, _) =>
      ShadowedClient(w, v, a);
      StepKeeps(v, a);
    case _ =>
      ShadowedServer(w, v, a);
      StepKeeps(v, a);
  }

  lemma StepKeepsSecure(w: World, a: Action)
    requires Secure(w) && Enabled(w, a) && Complete(w, a) && (a.Dial? ==> Sparing(w))
    ensures Secure(Next(w, a))
  {
    if Safe(w) && Kept(w) {
      if a.Dial? && w.flight.Some? {
        DialIsShadowed(w, w);
      } else {
        StepKeeps(w, a);
      }
    } else {
      var v :| Safe(v) && Kept(v) && Shadows(w, v);
      ShadowedStep(w, v, a);
    }
  }

  lemma {:induction false} RunKeepsSecure(w: World, actions: seq<Action>)
    requires Secure(w) && FollowsFully(w, actions)
    ensures Secure(Run(w, actions))
    decreases |actions|
  {
    if actions != [] {
      StepKeepsSecure(w, actions[0]);
      RunKeepsSecure(Next(w, actions[0]), actions[1..]);
    }
  }

  lemma KeptIsGapless(w: World, s: Session)
    requires Kept(w)
    ensures Gapless(w.c, s)
  {
  }

  lemma GaplessAlike(c: Client, d: Client, s: Session)
    requires Gapless(c, s) && d.delivered == c.delivered && d.epoch == c.epoch && d.lastSeen == c.lastSeen
    ensures Gapless(d, s)
  {
  }

  lemma SecureIsGapless(w: World, s: Session)
    requires Secure(w)
    ensures Gapless(w.c, s)
  {
    if Safe(w) && Kept(w) {
      KeptIsGapless(w, s);
    } else {
      var v :| Safe(v) && Kept(v) && Shadows(w, v);
      KeptIsGapless(v, s);
      GaplessAlike(v.c, w.c, s);
    }
  }

  lemma InitIsKept(w: World)
    requires Init(w) && w.c.replay
    ensures Safe(w) && Kept(w)
  {
    InitIsSafe(w);
  }

  /**
   * Every run, drops in the middle of a replay included: from the first event
   * of a session the handlers saw up to its watermark, every one was delivered.
   */
  lemma NothingIsLost(w: World, actions: seq<Action>, s: Session)
    requires Init(w) && w.c.replay && FollowsFully(w, actions)
    ensures Gapless(Run(w, actions).c, s)
  {
    InitIsKept(w);
    RunKeepsSecure(w, actions);
    SecureIsGapless(Run(w, actions), s);
  }

  /** A drained socket with no replay under way leaves the client level with the server. */
  lemma DrainedIsLevel(w: World, actions: seq<Action>, s: Session)
    requires Init(w) && w.c.replay && FollowsFully(w, actions)
    requires var end := Run(w, actions); end.link == Some(Link([])) && end.flight.None? && s in end.c.lastSeen
    ensures var end := Run(w, actions);
            && end.c.lastSeen[s] == Head(end, end.epoch, s)
            && var seen := Seqs(end.c.delivered, Some(end.epoch), s);
               seen != [] && seen == Span(seen[0] - 1, Head(end, end.epoch, s))
  {
    InitIsKept(w);
    RunKeepsSecure(w, actions);
    var end := Run(w, actions);
    assert LogOk(end, s) && CurrentOk(end, s) && Level(end, s) && Gapless(end.c, s);
    assert Greeted(end);
  }

  // ------------------------------------------------------------- losing a number

  lemma {:induction false} FullyJoin(w: World, a: seq<Action>, b: seq<Action>)
    requires FollowsFully(w, a) && FollowsFully(Run(w, a), b)
    ensures FollowsFully(w, a + b) && Run(w, a + b) == Run(Run(w, a), b)
    decreases |a|
  {
    if a == [] {
      assert a + b == b;
    } else {
      assert (a + b)[1..] == a[1..] + b;
      FullyJoin(Next(w, a[0]), a[1..], b);
    }
  }

  lemma OneFully(w: World, a: Action)
    requires Enabled(w, a) && Complete(w, a) && (a.Dial? ==> Sparing(w))
    ensures FollowsFully(w, [a]) && Run(w, [a]) == Next(w, a)
  {
    assert [a][1..] == [];
    assert Run(Next(w, a), []) == Next(w, a);
  }

  ghost predicate Unparked(c: Client, s: Session) {
    c.hold.Some? ==> s !in c.hold.value.parked
  }

  /** The socket opens and the server of the moment greets. */
  lemma Reopening(w: World, s: Session) returns (actions: seq<Action>, u: World)
    requires w.c.state.Connecting? && w.c.socket.Some? && w.c.epoch.Some?
    requires Unparked(w.c, s) && (!w.c.inFlight ==> s !in w.c.lastSeen)
    ensures FollowsFully(w, actions) && u == Run(w, actions)
    ensures u.link == Some(Link([])) && u.c.socket.Some? && u.epoch == w.epoch && u.heads == w.heads
    ensures Unparked(u.c, s) && (forall e, x :: Seqs(u.c.delivered, e, x) == Seqs(w.c.delivered, e, x))
    ensures u.c.epoch == Some(w.epoch) && u.c.lastSeen == if w.c.epoch == Some(w.epoch) then w.c.lastSeen else map[]
    ensures w.c.inFlight ==> u.c.hold == w.c.hold && u.c.inFlight
    ensures w.c.inFlight && w.flight.Some? ==>
              u.flight.Some? && u.flight.value.asked == w.flight.value.asked
              && u.flight.value.order == w.flight.value.order && u.flight.value.got == w.flight.value.got
  {
    var o := Next(w, Opened);
    OneFully(w, Opened);
    OneFully(o, Deliver);
    FullyJoin(w, [Opened], [Deliver]);
    actions, u := [Opened] + [Deliver], Next(o, Deliver);
    assert o.link.value.wire == [Live(ReadyEvent(w.epoch))] && o.link.value.wire[1..] == [];
    forall e, x ensures Seqs(u.c.delivered, e, x) == Seqs(w.c.delivered, e, x) {
      DeliverOne(w.c.delivered, Delivery(Some(w.epoch), ReadyEvent(w.epoch)), e, x);
    }
  }

  lemma SentIsDelivered(w: World, s: Session)
    requires w.link == Some(Link([])) && w.c.socket.Some? && Unparked(w.c, s) && s != ""
    ensures var e, sent := EventAt(s, Head(w, w.epoch, s) + 1), Next(w, Emit(s));
            && Enabled(sent, Deliver)
            && Next(sent, Deliver) == w.(c := Dispatch(RecordSeq(w.c, e), e), heads := sent.heads)
  {
    var sent, e := Next(w, Emit(s)), EventAt(s, Head(w, w.epoch, s) + 1);
    assert sent.link.value.wire == [Live(e)] && sent.link.value.wire[1..] == [];
  }

  /** The server's next number of a session that is not parked goes straight to the handlers. */
  lemma NextIsTold(w: World, s: Session) returns (actions: seq<Action>, u: World)
    requires w.link == Some(Link([])) && w.c.socket.Some? && Unparked(w.c, s) && s != ""
    ensures var e := EventAt(s, Head(w, w.epoch, s) + 1);
            && FollowsFully(w, actions) && u == Run(w, actions)
            && u == w.(c := Dispatch(RecordSeq(w.c, e), e), heads := u.heads)
            && (forall k, x :: Head(u, k, x) == Head(w, k, x) + (if x == s && k == w.epoch then 1 else 0))
  {
    var sent := Next(w, Emit(s));
    SentIsDelivered(w, s);
    OneFully(w, Emit(s));
    OneFully(sent, Deliver);
    FullyJoin(w, [Emit(s)], [Deliver]);
    actions, u := [Emit(s)] + [Deliver], Next(sent, Deliver);
    EmitHeads(w, s);
    HeadsAlike(sent, u);
  }

  lemma HeadsAlike(w: World, u: World)
    requires w.heads == u.heads
    ensures forall k, x :: Head(u, k, x) == Head(w, k, x)
  {
  }

  lemma ToldNumber(c: Client, s: Session, n: int)
    requires s != ""
    ensures forall k :: Seqs(Dispatch(RecordSeq(c, EventAt(s, n)), EventAt(s, n)).delivered, k, s)
                        == Seqs(c.delivered, k, s) + (if k == c.epoch then [n] else [])
  {
    forall k ensures Seqs(Dispatch(RecordSeq(c, EventAt(s, n)), EventAt(s, n)).delivered, k, s)
                     == Seqs(c.delivered, k, s) + (if k == c.epoch then [n] else []) {
      DeliverOne(c.delivered, Delivery(c.epoch, EventAt(s, n)), k, s);
    }
  }

  /** The record of a session stops short of the head, and the next number is told all the same. */
  lemma TellingPastAGap(w: World, s: Session) returns (actions: seq<Action>)
    requires w.link == Some(Link([])) && w.c.socket.Some? && Unparked(w.c, s) && s != "" && w.c.epoch == Some(w.epoch)
    requires var seen, head := Seqs(w.c.delivered, w.c.epoch, s), Head(w, w.epoch, s);
             seen != [] && seen[|seen| - 1] < head && Watermark(w.c, s) <= head
    ensures FollowsFully(w, actions) && !Gapless(Run(w, actions).c, s)
    ensures Seqs(Run(w, actions).c.delivered, w.c.epoch, s) == Seqs(w.c.delivered, w.c.epoch, s) + [Head(w, w.epoch, s) + 1]
  {
    var u;
    actions, u := NextIsTold(w, s);
    ToldNumber(w.c, s, Head(w, w.epoch, s) + 1);
    GapIsNoSpan(Seqs(w.c.delivered, w.c.epoch, s), Head(w, w.epoch, s) + 1);
  }

  lemma GapIsNoSpan(seen: seq<int>, n: int)
    requires seen != [] && seen[|seen| - 1] < n - 1
    ensures seen + [n] != Span((seen + [n])[0] - 1, n)
  {
    var all := seen + [n];
    assert all[|all| - 1] == n && all[|all| - 2] < n - 1;
  }

  /** A session the replay in flight does not park runs past the number sent while nothing was connected. */
  lemma RunningPast(w: World, s: Session) returns (actions: seq<Action>)
    requires Enabled(w, Dial) && w.c.inFlight && Unparked(w.c, s) && s != "" && w.c.epoch == Some(w.epoch)
    requires var seen, head := Seqs(w.c.delivered, w.c.epoch, s), Head(w, w.epoch, s);
             seen != [] && seen[|seen| - 1] <= head && Watermark(w.c, s) <= head
    ensures FollowsFully(Next(w, Dial), actions) && !Gapless(Run(Next(w, Dial), actions).c, s)
    ensures Seqs(Run(Next(w, Dial), actions).c.delivered, w.c.epoch, s)
            == Seqs(w.c.delivered, w.c.epoch, s) + [Head(w, w.epoch, s) + 2]
  {
    var d := Next(w, Dial);
    LostAtTheDial(w, s);
    OneFully(d, Emit(s));
    var rest := AfterTheLoss(Next(d, Emit(s)), s);
    FullyJoin(d, [Emit(s)], rest);
    actions := [Emit(s)] + rest;
  }

  lemma LostAtTheDial(w: World, s: Session)
    requires Enabled(w, Dial) && s != ""
    ensures var sent := Next(Next(w, Dial), Emit(s));
            && sent.c == w.c.(socket := sent.c.socket, state := Connecting) && sent.c.socket.Some? && sent.link.None?
            && sent.epoch == w.epoch && Head(sent, w.epoch, s) == Head(w, w.epoch, s) + 1
  {
    EmitHeads(Next(w, Dial), s);
    HeadsAlike(w, Next(w, Dial));
  }

  /** The number sent while nothing was connected is on nobody's list. */
  lemma AfterTheLoss(w: World, s: Session) returns (actions: seq<Action>)
    requires w.c.state.Connecting? && w.c.socket.Some? && w.c.inFlight && Unparked(w.c, s) && s != ""
    requires w.c.epoch == Some(w.epoch)
    requires var seen, head := Seqs(w.c.delivered, w.c.epoch, s), Head(w, w.epoch, s);
             seen != [] && seen[|seen| - 1] < head && Watermark(w.c, s) <= head
    ensures FollowsFully(w, actions) && !Gapless(Run(w, actions).c, s)
    ensures Seqs(Run(w, actions).c.delivered, w.c.epoch, s) == Seqs(w.c.delivered, w.c.epoch, s) + [Head(w, w.epoch, s) + 1]
  {
    var first, u := Reopening(w, s);
    HeadsAlike(w, u);
    var last := TellingPastAGap(u, s);
    FullyJoin(w, first, last);
    actions := first + last;
  }

  lemma AnUncoveredSessionLoses(w: World, v: World, s: Session) returns (actions: seq<Action>)
    requires Safe(v) && (w == v || Shadows(w, v)) && Enabled(w, Dial) && w.flight.Some?
    requires Mark(w.c, w.epoch, s) > 0 && !HoldsFor(w, s)
    ensures FollowsFully(Next(w, Dial), actions) && !Gapless(Run(Next(w, Dial), actions).c, s)
  {
    RecordedThere(w, v, s);
    actions := RunningPast(w, s);
  }

  lemma RecordedThere(w: World, v: World, s: Session)
    requires Safe(v) && (w == v || Shadows(w, v)) && w.flight.Some? && Mark(w.c, w.epoch, s) > 0 && !HoldsFor(w, s)
    ensures w.c.inFlight && Unparked(w.c, s) && s != "" && w.c.epoch == Some(w.epoch)
    ensures var seen, head := Seqs(w.c.delivered, w.c.epoch, s), Head(w, w.epoch, s);
            seen != [] && seen[|seen| - 1] <= head && Watermark(w.c, s) <= head
  {
    assert Mark(v.c, v.epoch, s) == Mark(w.c, w.epoch, s);
    MarkIsRecorded(v, s);
    assert Seqs(v.c.delivered, v.c.epoch, s) == Seqs(w.c.delivered, w.c.epoch, s);
    assert Head(v, v.epoch, s) == Head(w, w.epoch, s);
  }

  lemma MarkIsRecorded(w: World, s: Session)
    requires Safe(w) && Mark(w.c, w.epoch, s) > 0
    ensures s != "" && s in w.c.lastSeen && w.c.epoch == Some(w.epoch) && w.c.lastSeen[s] <= Head(w, w.epoch, s)
    ensures var seen := Seqs(w.c.delivered, w.c.epoch, s); seen != [] && seen[|seen| - 1] == w.c.lastSeen[s]
    ensures w.flight.Some? ==> w.c.inFlight && w.c.hold.Some? && w.c.hold.value.parked.Keys == w.flight.value.asked.Keys
  {
    assert LogOk(w, s) && CurrentOk(w, s);
    SeqsOfNobody(w.c.delivered, w.c.epoch);
  }

  // ------------------------------------------------ over a replay that is answered

  /** The new server has told its first number of a session nobody asked for; the old answers are still to come. */
  ghost predicate Interrupted(u: World, e: Epoch, s: Session) {
    && u.link == Some(Link([])) && u.c.socket.Some? && u.flight.Some? && u.c.hold.Some?
    && HoldShape(u.flight.value, u.c.hold.value) && (forall x :: x in u.flight.value.order <==> x in u.flight.value.asked)
    && s != "" && s !in u.flight.value.asked
    && (forall x :: x in u.flight.value.asked ==> Answered(u.flight.value.got, x))
    && (forall x :: Answered(u.flight.value.got, x) ==> u.flight.value.got[x].epoch == e)
    && Heard(u.flight.value.order, u.flight.value.got)
    && u.c.epoch == Some(u.epoch) && e != u.epoch
    && Seqs(u.c.delivered, Some(u.epoch), s) == [1] && Head(u, u.epoch, s) == 1
  }

  /** All calls answered by server `e`, whose name the client is in. */
  ghost predicate AllAnswered(w: World, e: Epoch) {
    && w.flight.Some? && w.c.hold.Some? && w.c.inFlight && HoldShape(w.flight.value, w.c.hold.value)
    && w.c.epoch == Some(e) && e <= w.epoch
    && (forall s :: s in w.flight.value.asked ==> Answered(w.flight.value.got, s))
    && (forall s :: Answered(w.flight.value.got, s) ==> w.flight.value.got[s].epoch == e)
    && Heard(w.flight.value.order, w.flight.value.got)
    && (forall s :: s in w.flight.value.order <==> s in w.flight.value.asked)
  }

  lemma EveryCallHasItsAnswer(w: World, s: Session)
    requires w.flight.Some? && w.c.hold.Some? && FlightOk(w) && !Unfinished(w) && s in w.flight.value.asked
    ensures Answered(w.flight.value.got, s) && w.flight.value.got[s].epoch == w.flight.value.epoch
    ensures w.c.epoch == Some(w.flight.value.epoch) && s in w.flight.value.order
  {
    assert !Unserved(w.flight.value, s) && HeldOk(w, s);
  }

  lemma EveryCallIsAnswered(w: World)
    requires w.flight.Some? && w.c.hold.Some? && FlightOk(w) && !Unfinished(w)
    ensures forall s :: s in w.flight.value.asked ==>
              Answered(w.flight.value.got, s) && w.flight.value.got[s].epoch == w.flight.value.epoch
              && w.c.epoch == Some(w.flight.value.epoch)
  {
    forall s | s in w.flight.value.asked
      ensures Answered(w.flight.value.got, s) && w.flight.value.got[s].epoch == w.flight.value.epoch
      ensures w.c.epoch == Some(w.flight.value.epoch) {
      EveryCallHasItsAnswer(w, s);
    }
  }

  lemma ShapeIsHeld(w: World)
    requires w.flight.Some? && w.c.hold.Some? && FlightShape(w)
    ensures HoldShape(w.flight.value, w.c.hold.value) && w.flight.value.got.Keys <= w.flight.value.asked.Keys
    ensures forall s :: s in w.flight.value.order <==> s in w.flight.value.asked
  {
  }

  lemma FinishedIsAnswered(w: World)
    requires ClientOk(w) && AsksInName(w) && w.flight.Some? && w.c.hold.Some? && FlightOk(w) && !Unfinished(w)
    ensures AllAnswered(w, w.flight.value.epoch)
  {
    EveryCallIsAnswered(w);
    ShapeIsHeld(w);
    NamedAnswers(w, w.flight.value.epoch);
  }

  lemma NamedAnswers(w: World, e: Epoch)
    requires w.flight.Some? && w.c.hold.Some? && w.c.inFlight && HoldShape(w.flight.value, w.c.hold.value) && e <= w.epoch
    requires w.flight.value.asked != map[] && w.flight.value.got.Keys <= w.flight.value.asked.Keys
    requires forall s :: s in w.flight.value.order <==> s in w.flight.value.asked
    requires forall s :: s in w.flight.value.asked ==>
               Answered(w.flight.value.got, s) && w.flight.value.got[s].epoch == e && w.c.epoch == Some(e)
    ensures AllAnswered(w, e)
  {
    var s :| s in w.flight.value.asked;
    assert s in w.flight.value.order && Answered(w.flight.value.got, s);
  }

  lemma NewServerGreetsOver(w: World, e: Epoch, s: Session) returns (actions: seq<Action>, u: World)
    requires AllAnswered(w, e) && Enabled(w, Dial) && s !in w.flight.value.asked
    ensures FollowsFully(Next(w, Dial), actions) && u == Run(Next(w, Dial), actions)
    ensures u.flight.Some? && u.c.hold == w.c.hold && u.flight.value.asked == w.flight.value.asked
    ensures u.flight.value.order == w.flight.value.order && u.flight.value.got == w.flight.value.got
    ensures u.link == Some(Link([])) && u.c.socket.Some? && u.epoch == w.epoch + 1 && u.c.epoch == Some(u.epoch)
    ensures u.heads == w.heads[u.epoch := map[]] && Unparked(u.c, s)
    ensures forall k, x :: Seqs(u.c.delivered, k, x) == Seqs(w.c.delivered, k, x)
  {
    var d := Next(w, Dial);
    OneFully(d, Restart);
    var first;
    first, u := Reopening(Next(d, Restart), s);
    FullyJoin(d, [Restart], first);
    actions := [Restart] + first;
  }

  lemma Interrupting(w: World, e: Epoch, s: Session) returns (actions: seq<Action>, u: World)
    requires AllAnswered(w, e) && Enabled(w, Dial) && FutureEmpty(w.c, s)
    requires s != "" && s !in w.flight.value.asked
    ensures FollowsFully(Next(w, Dial), actions) && u == Run(Next(w, Dial), actions)
    ensures Interrupted(u, e, s)
  {
    var first, greeted := NewServerGreetsOver(w, e, s);
    var second;
    second, u := NextIsTold(greeted, s);
    ToldNumber(greeted.c, s, 1);
    FullyJoin(Next(w, Dial), first, second);
    actions := first + second;
    assert Seqs(w.c.delivered, Some(u.epoch), s) == [];
    InterruptedHere(w, greeted, u, e, s);
  }

  lemma InterruptedHere(w: World, g: World, u: World, e: Epoch, s: Session)
    requires AllAnswered(w, e) && s != "" && s !in w.flight.value.asked
    requires g.flight.Some? && g.c.hold == w.c.hold && g.flight.value.asked == w.flight.value.asked
    requires g.flight.value.order == w.flight.value.order && g.flight.value.got == w.flight.value.got
    requires g.link == Some(Link([])) && g.c.socket.Some? && g.epoch == w.epoch + 1 && g.c.epoch == Some(g.epoch)
    requires Seqs(g.c.delivered, Some(g.epoch), s) == []
    requires u == g.(c := Dispatch(RecordSeq(g.c, EventAt(s, 1)), EventAt(s, 1)), heads := u.heads) && Head(u, u.epoch, s) == 1
    requires Seqs(u.c.delivered, Some(u.epoch), s) == Seqs(g.c.delivered, Some(g.epoch), s) + [1]
    ensures Interrupted(u, e, s)
  {
  }

  /** The old answers settle in the old name, and the session is in none of them. */
  lemma OldAnswersSettle(u: World, e: Epoch, s: Session)
    requires Interrupted(u, e, s)
    ensures Enabled(u, Settle) && Complete(u, Settle)
    ensures var v := Next(u, Settle);
            && v.c.epoch == Some(e) && s !in v.c.lastSeen && v.c.socket.Some? && v.c.hold.None?
            && v.epoch == u.epoch && v.heads == u.heads && v.flight.None?
            && Seqs(v.c.delivered, Some(u.epoch), s) == [1]
  {
    var f, h := u.flight.value, u.c.hold.value;
    SettlingAnother(u, e);
    HandedNums(f, h, s);
    AfterFirstWithin(f.order, f.got);
    assert HandedOf(f, h, s) == [];
    DispatchAllBySession(Renamed(u.c, e).(hold := None), Handed(f, h), s);
  }

  /** Back with the new server, the number sent meanwhile was never asked for. */
  lemma ComingBackLoses(v: World, s: Session) returns (actions: seq<Action>)
    requires v.c.epoch.Some? && v.c.epoch != Some(v.epoch) && s !in v.c.lastSeen && v.c.socket.Some? && s != ""
    requires Seqs(v.c.delivered, Some(v.epoch), s) == [1] && Head(v, v.epoch, s) == 1
    ensures FollowsFully(v, actions) && !Gapless(Run(v, actions).c, s)
  {
    var dropped := Next(v, Dropped);
    OneFully(v, Dropped);
    var sent := Next(dropped, Emit(s));
    OneFully(dropped, Emit(s));
    EmitHeads(dropped, s);
    FullyJoin(v, [Dropped], [Emit(s)]);
    var dialed := Next(sent, Dial);
    OneFully(sent, Dial);
    FullyJoin(v, [Dropped] + [Emit(s)], [Dial]);
    var opening, u := Reopening(dialed, s);
    FullyJoin(v, [Dropped] + [Emit(s)] + [Dial], opening);
    var last := TellingPastAGap(u, s);
    FullyJoin(v, [Dropped] + [Emit(s)] + [Dial] + opening, last);
    actions := [Dropped] + [Emit(s)] + [Dial] + opening + last;
  }

  lemma SettlingLoses(u: World, e: Epoch, s: Session) returns (actions: seq<Action>)
    requires Interrupted(u, e, s)
    ensures FollowsFully(u, actions) && !Gapless(Run(u, actions).c, s)
  {
    OldAnswersSettle(u, e, s);
    OneFully(u, Settle);
    var last := ComingBackLoses(Next(u, Settle), s);
    FullyJoin(u, [Settle], last);
    actions := [Settle] + last;
  }

  /** Dialled over, a replay whose calls were all answered settles under another server's name. */
  lemma AnAnsweredReplayLoses(w: World) returns (actions: seq<Action>, s: Session)
    requires Safe(w) && Kept(w) && Enabled(w, Dial) && w.flight.Some? && !Unfinished(w)
    ensures FollowsFully(Next(w, Dial), actions) && !Gapless(Run(Next(w, Dial), actions).c, s)
  {
    s := Unheard(w.flight.value.asked.Keys);
    FinishedIsAnswered(w);
    assert LogOk(w, s) && FutureEmpty(w.c, s);
    var first, u := Interrupting(w, w.flight.value.epoch, s);
    var last := SettlingLoses(u, w.flight.value.epoch, s);
    FullyJoin(Next(w, Dial), first, last);
    actions := first + last;
  }

  // --------------------------------------------------------------------- the dial

  ghost predicate NeverLoses(w: World) {
    forall actions, s :: FollowsFully(w, actions) ==> Gapless(Run(w, actions).c, s)
  }

  lemma ASparingDialIsSafe(w: World)
    requires Secure(w) && Enabled(w, Dial) && Sparing(w)
    ensures NeverLoses(Next(w, Dial))
  {
    StepKeepsSecure(w, Dial);
    forall actions, s | FollowsFully(Next(w, Dial), actions) ensures Gapless(Run(Next(w, Dial), actions).c, s) {
      RunKeepsSecure(Next(w, Dial), actions);
      SecureIsGapless(Run(Next(w, Dial), actions), s);
    }
  }

  lemma AnotherDialLoses(w: World)
    requires Secure(w) && Enabled(w, Dial) && !Sparing(w)
    ensures !NeverLoses(Next(w, Dial))
  {
    if Covered(w) {
      var actions, s := AnAnsweredReplayLoses(w);
    } else {
      var s :| Mark(w.c, w.epoch, s) > 0 && !HoldsFor(w, s);
      var v :| Safe(v) && (w == v || Shadows(w, v));
      var actions := AnUncoveredSessionLoses(w, v, s);
    }
  }

  /**
   * At any moment of any such run, a dial loses nothing, whatever happens after it, exactly when the replay
   * it is over, if any, parks every session the client has a watermark of at the server of the moment, and
   * some call of it has no answer.
   */
  lemma ADialLosesNothingExactlyWhen(start: World, before: seq<Action>)
    requires Init(start) && start.c.replay && FollowsFully(start, before) && Enabled(Run(start, before), Dial)
    ensures var w := Run(start, before); NeverLoses(Next(w, Dial)) <==> Sparing(w)
  {
    var w := Run(start, before);
    InitIsKept(start);
    RunKeepsSecure(start, before);
    if Sparing(w) {
      ASparingDialIsSafe(w);
    } else {
      AnotherDialLoses(w);
    }
  }

  // ----------------------------------------------------------------------- a run

  lemma PairIsFull(w: World, a: Action, b: Action)
    requires ReplayEdge.Possible(w, [a, b]) && (a.Dial? ==> Sparing(w)) && !b.Dial?
    requires !a.Serve? && !a.Settle? && !b.Serve? && !b.Settle?
    ensures FollowsFully(w, [a, b])
  {
    assert [a, b][1..] == [b] && [b][1..] == [];
  }

  /** Two sessions were told, the socket was lost, and the next one is asking for both. */
  lemma ReachesAsking() returns (actions: seq<Action>)
    ensures FollowsFully(ReplayEdge.Start, actions) && Run(ReplayEdge.Start, actions) == ReplayEdge.Asking
  {
    ReplayEdge.Opening();
    ReplayEdge.FirstSocket();
    ReplayEdge.SecondSocket();
    PairIsFull(ReplayEdge.Start, Dial, Opened);
    PairIsFull(ReplayEdge.Fresh, Deliver, Emit("a"));
    PairIsFull(ReplayEdge.Sending, Emit("b"), Deliver);
    PairIsFull(ReplayEdge.Halfway, Deliver, Dropped);
    PairIsFull(ReplayEdge.Dropping, Dial, Opened);
    actions := [Dial, Opened];
    FullyJoin(ReplayEdge.Start, actions, [Deliver, Emit("a")]);
    actions := actions + [Deliver, Emit("a")];
    FullyJoin(ReplayEdge.Start, actions, [Emit("b"), Deliver]);
    actions := actions + [Emit("b"), Deliver];
    FullyJoin(ReplayEdge.Start, actions, [Deliver, Dropped]);
    actions := actions + [Deliver, Dropped];
    FullyJoin(ReplayEdge.Start, actions, [Dial, Opened]);
    actions := actions + [Dial, Opened];
  }

  /** The new socket has greeted, and both calls are out. */
  const Listening: World :=
    ReplayEdge.Asking.(c := ReplayEdge.Asking.c.(delivered := ReplayEdge.Dropping.c.delivered + [ReplayEdge.Greeting(0)]),
                       link := Some(Link([])))

  lemma Greeting()
    ensures FollowsFully(ReplayEdge.Asking, [Deliver]) && Run(ReplayEdge.Asking, [Deliver]) == Listening
  {
    assert ReplayEdge.Asking.link.value.wire[1..] == [];
    assert Next(ReplayEdge.Asking, Deliver) == Listening;
    OneFully(ReplayEdge.Asking, Deliver);
  }

  lemma NothingOfC()
    ensures Seqs(Listening.c.delivered, Some(0), "c") == [] && Head(Listening, 0, "c") == 0
    ensures Unparked(Listening.c, "c") && Watermark(Listening.c, "c") == 0
  {
    var g, a, b := ReplayEdge.Greeting(0), ReplayEdge.Told(0, "a", 1), ReplayEdge.Told(0, "b", 1);
    DeliverOne([], g, Some(0), "c");
    DeliverOne([g], a, Some(0), "c");
    DeliverOne([g] + [a], b, Some(0), "c");
    DeliverOne([g] + [a] + [b], g, Some(0), "c");
    assert [] + [g] == [g] && [g] + [a] + [b] == [g, a, b];
    assert Listening.c.delivered == [g] + [a] + [b] + [g];
  }

  /** Both calls are out, nothing is parked, and a third session was told its first `n` numbers. */
  ghost predicate ThirdSession(w: World, n: nat) {
    && w.live && w.c.inFlight && w.flight.Some? && w.flight.value.got == map[] && w.c.state.Open?
    && w.link == Some(Link([])) && w.c.socket.Some?
    && Unparked(w.c, "c") && w.epoch == 0 && w.c.epoch == Some(0) && (forall s :: Parked(w, s) == [])
    && Watermark(w.c, "c") == n && Head(w, 0, "c") == n
  }

  lemma NothingIsParked()
    ensures ThirdSession(Listening, 0)
  {
    NothingOfC();
    assert forall s :: Parked(Listening, s) == [];
  }

  /** A session heard for the first time after the hold was taken. */
  lemma HearsAnother(w: World) returns (actions: seq<Action>, u: World)
    requires ThirdSession(w, 0) && Seqs(w.c.delivered, Some(0), "c") == []
    ensures FollowsFully(w, actions) && u == Run(w, actions) && ThirdSession(u, 1)
    ensures Seqs(u.c.delivered, Some(0), "c") == [1]
  {
    actions, u := NextIsTold(w, "c");
    ToldNumber(w.c, "c", 1);
    assert [] + [1] == [1];
    FirstIsTold(w, u);
  }

  lemma FirstIsTold(w: World, u: World)
    requires ThirdSession(w, 0) && Head(u, 0, "c") == 1
    requires u == w.(c := Dispatch(RecordSeq(w.c, EventAt("c", 1)), EventAt("c", 1)), heads := u.heads)
    ensures ThirdSession(u, 1)
  {
    assert u.c.hold == w.c.hold;
    assert forall s :: Parked(u, s) == Parked(w, s);
  }

  /** Then the socket stops reporting itself open. */
  lemma ReachesTheDial() returns (actions: seq<Action>, w: World)
    ensures FollowsFully(ReplayEdge.Start, actions) && w == Run(ReplayEdge.Start, actions)
    ensures Enabled(w, Dial) && Barren(w) && w.c.inFlight && Unparked(w.c, "c") && w.epoch == 0 && w.c.epoch == Some(0)
    ensures Seqs(w.c.delivered, Some(0), "c") == [1] && Watermark(w.c, "c") == 1 && Head(w, 0, "c") == 1
  {
    var first := ReachesAsking();
    Greeting();
    FullyJoin(ReplayEdge.Start, first, [Deliver]);
    NothingOfC();
    NothingIsParked();
    var second, u := HearsAnother(Listening);
    FullyJoin(ReplayEdge.Start, first + [Deliver], second);
    OneFully(u, Closing);
    FullyJoin(ReplayEdge.Start, first + [Deliver] + second, [Closing]);
    actions, w := first + [Deliver] + second + [Closing], Next(u, Closing);
    assert forall s :: Parked(w, s) == Parked(u, s);
  }

  /**
   * The condition is needed: nothing was answered or parked at the dial, no call was refused and no server
   * restarted, and a session is told its first number and its third.
   */
  lemma AnOrphanedHoldLosesANumber() returns (before: seq<Action>, after: seq<Action>)
    ensures Init(ReplayEdge.Start) && ReplayEdge.Start.c.replay && FollowsFully(ReplayEdge.Start, before)
    ensures var w := Run(ReplayEdge.Start, before);
            && Enabled(w, Dial) && Barren(w) && FollowsFully(Next(w, Dial), after)
            && Seqs(Run(Next(w, Dial), after).c.delivered, Some(0), "c") == [1, 3]
            && !Gapless(Run(Next(w, Dial), after).c, "c")
  {
    var w;
    before, w := ReachesTheDial();
    after := RunningPast(w, "c");
    assert [1] + [3] == [1, 3];
  }
}
