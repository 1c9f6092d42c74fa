/** Which dials keep the record honest: exactly those over a replay that has brought nothing. */
module ReplayDial {
  import opened Prelude
  import opened ReplayClient
  import opened ReplayNumbers
  import opened ReplayWorld

  /** Each session's numbers only go up, and none is above what the server of the current epoch logged. */
  ghost predicate Honest(w: World) {
    forall s :: OrderedFor(w, s)
  }

  ghost predicate OrderedFor(w: World, s: Session) {
    && (forall epoch :: Increasing(Seqs(w.c.delivered, epoch, s)))
    && (forall n :: n in Seqs(w.c.delivered, w.c.epoch, s) ==> n <= Head(w, w.c.epoch.GetOr(0), s))
  }

  lemma SafeIsHonest(w: World)
    requires Safe(w)
    ensures Honest(w)
  {
    forall s ensures OrderedFor(w, s) {
      assert LogOk(w, s);
      BelowTheLast(Seqs(w.c.delivered, w.c.epoch, s));
    }
  }

  lemma BelowTheLast(ns: seq<int>)
    requires Increasing(ns)
    ensures forall n :: n in ns ==> n <= ns[|ns| - 1]
  {
  }

  /** The handlers are told nothing out of order in any run, and nothing under a server's name that is not its own. */
  lemma EveryRunIsHonest(w: World, actions: seq<Action>)
    requires Init(w) && Follows(w, actions)
    ensures Honest(Run(w, actions))
  {
    InitIsSafe(w);
    RunKeepsSafe(w, actions);
    SafeIsHonest(Run(w, actions));
  }

  lemma {:induction false} FollowsJoin(w: World, a: seq<Action>, b: seq<Action>)
    requires Follows(w, a) && Follows(Run(w, a), b)
    ensures Follows(w, a + b) && Run(w, a + b) == Run(Run(w, a), b)
    decreases |a|
  {
    if a == [] {
      assert a + b == b;
    } else {
      assert (a + b)[1..] == a[1..] + b;
      FollowsJoin(Next(w, a[0]), a[1..], b);
    }
  }

  lemma OneStep(w: World, a: Action)
    requires Enabled(w, a) && !a.Dial?
    ensures Follows(w, [a]) && Run(w, [a]) == Next(w, a)
  {
    assert [a][1..] == [];
    assert Run(Next(w, a), []) == Next(w, a);
  }

  // --------------------------------------------- over a replay that has news

  /** What a new server's greeting makes of the client that dialled over its replay. */
  ghost predicate Overtaken(w: World, v: World) {
    && w.flight.Some? && v.flight.Some?
    && v.epoch == w.epoch + 1 && v.heads == w.heads[v.epoch := map[]] && v.link == Some(Link([]))
    && v.c == w.c.(state := Open, socket := v.c.socket, epoch := Some(v.epoch), lastSeen := map[], sessions := [],
                   delivered := w.c.delivered + [Delivery(Some(v.epoch), ReadyEvent(v.epoch))])
    && v.c.socket.Some?
    && v.flight.value.asked == w.flight.value.asked && v.flight.value.order == w.flight.value.order
    && v.flight.value.got == w.flight.value.got
  }

  lemma NewServerGreets(w: World)
    requires Enabled(w, Dial) && w.c.inFlight && w.flight.Some? && w.c.epoch.Some? && w.c.epoch.value <= w.epoch
    ensures var w1 := Next(w, Dial);
            var w2 := Next(w1, Restart);
            && Enabled(w2, Opened)
            && Enabled(Next(w2, Opened), Deliver)
            && Overtaken(w, Next(Next(w2, Opened), Deliver))
  {
    var w3 := Next(Next(Next(w, Dial), Restart), Opened);
    assert w3.link.value.wire == [Live(ReadyEvent(w.epoch + 1))];
    assert w3.link.value.wire[1..] == [];
  }

  lemma Overtaking(w: World) returns (actions: seq<Action>)
    requires Enabled(w, Dial) && w.c.inFlight && w.flight.Some? && w.c.epoch.Some? && w.c.epoch.value <= w.epoch
    ensures Follows(Next(w, Dial), actions) && Overtaken(w, Run(Next(w, Dial), actions))
  {
    var w1 := Next(w, Dial);
    NewServerGreets(w);
    var w2 := Next(w1, Restart);
    OneStep(w1, Restart);
    OneStep(w2, Opened);
    FollowsJoin(w1, [Restart], [Opened]);
    OneStep(Next(w2, Opened), Deliver);
    FollowsJoin(w1, [Restart] + [Opened], [Deliver]);
    actions := [Restart] + [Opened] + [Deliver];
  }

  lemma ExpiringOne(w: World, s: Session)
    requires w.flight.Some? && s in w.flight.value.asked && s !in w.flight.value.got
    ensures var f := w.flight.value;
            && Follows(w, [Expire(s)]) && Run(w, [Expire(s)]) == Next(w, Expire(s))
            && Next(w, Expire(s)) == w.(flight := Some(f.(got := f.got[s := Lost])))
            && f.asked.Keys - f.got[s := Lost].Keys == (f.asked.Keys - f.got.Keys) - {s}
  {
    OneStep(w, Expire(s));
  }

  /** Every call that is still out expires; those that were answered keep their answers. */
  lemma {:induction false} Expiring(w: World) returns (actions: seq<Action>)
    requires w.flight.Some?
    ensures Follows(w, actions)
    ensures var v, f := Run(w, actions), w.flight.value;
            && v.flight.Some? && v == w.(flight := Some(f.(got := v.flight.value.got)))
            && f.asked.Keys <= v.flight.value.got.Keys
            && (forall s :: s in v.flight.value.got ==> if s in f.got then v.flight.value.got[s] == f.got[s] else v.flight.value.got[s].Lost?)
            && (forall s :: s in f.got ==> s in v.flight.value.got)
    decreases |w.flight.value.asked.Keys - w.flight.value.got.Keys|
  {
    var f := w.flight.value;
    if f.asked.Keys <= f.got.Keys {
      actions := [];
    } else {
      var s :| s in f.asked && s !in f.got;
      var next := Next(w, Expire(s));
      ExpiringOne(w, s);
      var rest := Expiring(next);
      FollowsJoin(w, [Expire(s)], rest);
      actions := [Expire(s)] + rest;
    }
  }

  // -------------------------------------------------- an answer of the old one

  /** Answers of another server end in its epoch. */
  lemma {:induction false} AbsorbingOld(c: Client, order: seq<Session>, got: map<Session, Got>, e: Epoch)
    requires c.epoch.Some? && forall s :: s in got && got[s].Served? ==> got[s].epoch == e
    ensures var d := AbsorbAll(c, Answers(order, got));
            && d == c.(epoch := d.epoch, lastSeen := d.lastSeen, sessions := d.sessions, delivered := d.delivered)
            && d.epoch == if exists s :: s in order && s in got && got[s].Served? then Some(e) else c.epoch
  {
    if order != [] {
      var front, s := order[..|order| - 1], order[|order| - 1];
      var answers := Answers(order, got);
      AbsorbingOld(c, front, got, e);
      assert answers[..|answers| - 1] == Answers(front, got);
      assert order == front + [s];
      var mid := AbsorbAll(c, Answers(front, got));
      if s in got && got[s].Served? {
        AbsorbingOne(mid, s, got[s]);
      }
    }
  }

  lemma AbsorbingOne(c: Client, s: Session, g: Got)
    requires c.epoch.Some? && g.Served?
    ensures var d := Absorb(c, AnswerOf(s, g));
            d == c.(epoch := Some(g.epoch), lastSeen := d.lastSeen, sessions := d.sessions, delivered := d.delivered)
  {
    DispatchAllBySession(c, Typed(Log(s, g.lo, g.upto)), s);
  }

  /** The settled client believes the old server is back; the hold is empty and nothing is in flight. */
  lemma SettlingOld(w: World, e: Epoch)
    requires w.flight.Some? && w.c.epoch.Some? && w.c.hold.Some?
    requires forall s :: s in w.flight.value.got && w.flight.value.got[s].Served? ==> w.flight.value.got[s].epoch == e
    requires exists s :: s in w.flight.value.order && s in w.flight.value.got && w.flight.value.got[s].Served?
    ensures var c := Settled(w);
            c == w.c.(epoch := Some(e), lastSeen := c.lastSeen, sessions := c.sessions, delivered := c.delivered, hold := None, inFlight := false)
  {
    var f, h := w.flight.value, w.c.hold.value;
    AbsorbingOld(w.c, f.order, f.got, e);
    DispatchAllBySession(AbsorbAll(w.c, Answers(f.order, f.got)).(hold := None), ParkedInOrder(h.order, h.parked), "");
  }

  /** A session no server has ever numbered. */
  lemma {:induction false} Unheard(known: set<Session>) returns (s: Session)
    ensures s != "" && forall x :: x in known ==> |x| < |s|
    decreases known
  {
    if known == {} {
      s := "x";
    } else {
      var x :| x in known;
      s := Unheard(known - {x});
      if |s| <= |x| {
        s := x + "x";
      }
    }
  }

  /** Then the new server's first number is told under the old one's name. */
  lemma ToldUnderTheOldName(w: World, e: Epoch) returns (actions: seq<Action>)
    requires w.link == Some(Link([])) && w.c.socket.Some? && w.c.hold.None? && w.c.epoch == Some(e) && e != w.epoch
    ensures Follows(w, actions) && !Honest(Run(w, actions))
  {
    var s := Unheard((if e in w.heads then w.heads[e].Keys else {}) + (if w.epoch in w.heads then w.heads[w.epoch].Keys else {}));
    EmitAndDeliver(w, s);
    var sent := Next(w, Emit(s));
    OneStep(w, Emit(s));
    OneStep(sent, Deliver);
    FollowsJoin(w, [Emit(s)], [Deliver]);
    actions := [Emit(s)] + [Deliver];
    DeliverOne(w.c.delivered, Delivery(Some(e), EventAt(s, 1)), Some(e), s);
    var ns := Seqs(Next(sent, Deliver).c.delivered, Some(e), s);
    assert ns[|ns| - 1] == 1 && ns[|ns| - 1] in ns;
    NotIts(Next(sent, Deliver), e, s);
  }

  lemma EmitAndDeliver(w: World, s: Session)
    requires w.link == Some(Link([])) && w.c.socket.Some? && w.c.hold.None? && w.c.epoch.Some? && w.c.epoch.value != w.epoch
    requires s != "" && Head(w, w.epoch, s) == 0
    ensures var sent := Next(w, Emit(s));
            && Enabled(sent, Deliver)
            && Next(sent, Deliver).c.epoch == w.c.epoch
            && Next(sent, Deliver).c.delivered == w.c.delivered + [Delivery(w.c.epoch, EventAt(s, 1))]
            && Head(Next(sent, Deliver), w.c.epoch.value, s) == Head(w, w.c.epoch.value, s)
  {
    var sent := Next(w, Emit(s));
    assert sent.link.value.wire == [Live(EventAt(s, 1))];
  }

  /** A number the server of that name never logged. */
  lemma NotIts(w: World, e: Epoch, s: Session)
    requires w.c.epoch == Some(e) && Head(w, e, s) == 0
    requires exists n :: n in Seqs(w.c.delivered, Some(e), s) && n > 0
    ensures !Honest(w)
  {
    assert !OrderedFor(w, s);
  }

  lemma AnAnswerMisleads(w: World) returns (actions: seq<Action>)
    requires Safe(w) && Enabled(w, Dial) && w.flight.Some?
    requires exists s :: s in w.flight.value.got && w.flight.value.got[s].Served?
    ensures Follows(Next(w, Dial), actions) && !Honest(Run(Next(w, Dial), actions))
  {
    var w1, e := Next(w, Dial), w.flight.value.epoch;
    forall s | s in w.flight.value.got && w.flight.value.got[s].Served?
      ensures w.c.epoch == Some(e) && w.flight.value.got[s].epoch == e && s in w.flight.value.order
    {
      assert HeldOk(w, s);
    }
    var first := Overtaking(w);
    var v := Run(w1, first);
    var second := Expiring(v);
    var u := Run(v, second);
    SettlingOld(u, e);
    OneStep(u, Settle);
    var third := ToldUnderTheOldName(Next(u, Settle), e);
    FollowsJoin(u, [Settle], third);
    FollowsJoin(v, second, [Settle] + third);
    FollowsJoin(w1, first, second + ([Settle] + third));
    actions := first + (second + ([Settle] + third));
  }

  // ------------------------------------------------ a frame of the old one

  lemma {:induction false} TopCovers(m: int, ns: seq<int>)
    ensures forall n :: n in ns ==> n <= Top(m, ns)
  {
    if ns != [] {
      TopCovers(m, ns[..|ns| - 1]);
      assert ns == ns[..|ns| - 1] + [ns[|ns| - 1]];
    }
  }

  /** A client that has seen nothing is told a positive number of what it is handed, if there is one. */
  lemma FramesAreTold(c: Client, frames: seq<Event>, s: Session)
    requires c.epoch.Some? && c.lastSeen == map[] && exists n :: n in Nums(frames, s) && n > 0
    ensures var d := DispatchAll(c, frames);
            d.epoch == c.epoch && exists n :: n in Seqs(d.delivered, c.epoch, s) && n > 0
  {
    DispatchAllBySession(c, frames, s);
    var ns := Nums(frames, s);
    TopCovers(0, ns);
    GateIncreases(0, ns);
    var told := Accepted(0, ns);
    assert told != [] && told[|told| - 1] > 0;
    LastIsIn(Seqs(c.delivered, c.epoch, s), told);
  }

  lemma LastIsIn(before: seq<int>, told: seq<int>)
    requires told != []
    ensures told[|told| - 1] in before + told
  {
    assert (before + told)[|before| + |told| - 1] == told[|told| - 1];
  }

  lemma SettledIsDispatched(w: World)
    requires w.flight.Some? && w.c.hold.Some?
    requires forall x :: x in w.flight.value.got ==> w.flight.value.got[x].Lost?
    ensures var h := w.c.hold.value;
            var d := DispatchAll(w.c.(hold := None), ParkedInOrder(h.order, h.parked));
            Settled(w).epoch == d.epoch && Settled(w).delivered == d.delivered
  {
    var f := w.flight.value;
    AbsorbedIsGated(w.c, f.order, f.got);
    NothingReplayed(f.order, f.got);
  }

  /** With no answers the settled client is told the parked numbers, under whatever epoch it is in. */
  lemma SettlingFrames(w: World, s: Session)
    requires w.flight.Some? && w.c.hold.Some? && w.c.epoch.Some? && w.c.lastSeen == map[]
    requires forall x :: x in w.flight.value.got ==> w.flight.value.got[x].Lost?
    requires w.c.hold.value.order == w.flight.value.order && Distinct(w.flight.value.order) && s in w.flight.value.order
    requires forall x, i :: x in w.c.hold.value.parked && 0 <= i < |w.c.hold.value.parked[x]| ==> w.c.hold.value.parked[x][i].sid == x
    requires exists n :: n in Parked(w, s) && n > 0
    ensures Settled(w).epoch == w.c.epoch
    ensures exists n :: n in Seqs(Settled(w).delivered, w.c.epoch, s) && n > 0
  {
    var h := w.c.hold.value;
    SettledIsDispatched(w);
    ParkedNums(h.order, h.parked, s);
    FramesAreTold(w.c.(hold := None), ParkedInOrder(h.order, h.parked), s);
  }

  lemma {:induction false} NothingReplayed(order: seq<Session>, got: map<Session, Got>)
    requires forall x :: x in got ==> got[x].Lost?
    ensures Replayed(order, got) == []
  {
    if order != [] {
      NothingReplayed(order[..|order| - 1], got);
    }
  }

  lemma AFrameMisleads(w: World, s: Session) returns (actions: seq<Action>)
    requires Safe(w) && Enabled(w, Dial) && w.flight.Some? && Parked(w, s) != []
    requires forall x :: x in w.flight.value.got ==> w.flight.value.got[x].Lost?
    ensures Follows(Next(w, Dial), actions) && !Honest(Run(Next(w, Dial), actions))
  {
    var w1 := Next(w, Dial);
    assert s in w.flight.value.asked && HeldOk(w, s);
    ParkedIsPositive(w, s);
    var first := Overtaking(w);
    var v := Run(w1, first);
    var second := Expiring(v);
    var u := Run(v, second);
    assert Parked(u, s) == Parked(w, s);
    SettlingFrames(u, s);
    OneStep(u, Settle);
    NotIts(Next(u, Settle), u.epoch, s);
    FollowsJoin(v, second, [Settle]);
    FollowsJoin(w1, first, second + [Settle]);
    actions := first + (second + [Settle]);
  }

  lemma ParkedIsPositive(w: World, s: Session)
    requires w.flight.Some? && HeldOk(w, s) && Parked(w, s) != []
    ensures exists n :: n in Parked(w, s) && n > 0
  {
    var parked, base := Parked(w, s), Base(w.flight.value, s);
    assert base >= 0 && parked[0] == base + 1;
    assert parked[0] in parked;
  }

  // --------------------------------------------------------------- the dial

  /**
   * A dial keeps the record honest, whatever happens after it, exactly when it is not over a replay that
   * has already brought something: an answer to one of its calls, or a numbered frame it parked.
   */
  lemma ADialIsHonestExactlyWhen(w: World)
    requires Safe(w) && Enabled(w, Dial)
    ensures (forall actions :: Follows(Next(w, Dial), actions) ==> Honest(Run(Next(w, Dial), actions))) <==> Barren(w)
  {
    if Barren(w) {
      StepKeepsSafe(w, Dial);
      forall actions | Follows(Next(w, Dial), actions) ensures Honest(Run(Next(w, Dial), actions)) {
        RunKeepsSafe(Next(w, Dial), actions);
        SafeIsHonest(Run(Next(w, Dial), actions));
      }
    } else if exists s :: s in w.flight.value.got && w.flight.value.got[s].Served? {
      var actions := AnAnswerMisleads(w);
    } else {
      var s :| Parked(w, s) != [];
      var actions := AFrameMisleads(w, s);
    }
  }
}
