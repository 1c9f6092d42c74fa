/**
 * The order of the numbers alone. A dial over a replay that has brought something can name a number
 * after a server that never logged it (`ReplayDial`); this is when it can also send the numbers of a
 * session back, and why nothing else can.
 */
module ReplayOrder {
  import opened Prelude
  import opened ReplayClient
  import opened ReplayNumbers
  import opened ReplayWorld
  import opened ReplayDial

  ghost predicate InOrder(w: World) {
    forall s, epoch :: Increasing(Seqs(w.c.delivered, epoch, s))
  }

  predicate Answered(got: map<Session, Got>, s: Session) {
    s in got && got[s].Served?
  }

  predicate Heard(order: seq<Session>, got: map<Session, Got>) {
    exists s :: s in order && Answered(got, s)
  }

  /** The sessions whose turn comes after the first answered call. */
  function AfterFirst(order: seq<Session>, got: map<Session, Got>): seq<Session> {
    if order == [] then []
    else
      var front, last := order[..|order| - 1], order[|order| - 1];
      if Heard(front, got) then AfterFirst(front, got) + [last] else []
  }

  /** No answer after the first one carries a number. */
  ghost predicate Alone(f: Flight) {
    forall s :: s in AfterFirst(f.order, f.got) && Answered(f.got, s) ==> f.got[s].upto <= Max(f.got[s].lo, 0)
  }

  /** No number has been told in the name of server `e`. */
  ghost predicate Untold(w: World, e: Epoch) {
    forall s :: Seqs(w.c.delivered, Some(e), s) == []
  }

  /**
   * What a replay may have brought by the time it is dialled over: no numbered frame, and either no answer,
   * or answers of a server in whose name nothing was told, of which only the first carries numbers.
   */
  ghost predicate Orderly(w: World) {
    w.flight.Some? ==>
      && (forall s :: Parked(w, s) == [])
      && (Alone(w.flight.value) || forall s :: !Answered(w.flight.value.got, s))
      && (forall s :: Answered(w.flight.value.got, s) ==> Untold(w, w.flight.value.got[s].epoch))
  }

  /** A run whose dials are all orderly. */
  ghost predicate FollowsInOrder(w: World, actions: seq<Action>)
    decreases |actions|
  {
    actions == []
    || (Enabled(w, actions[0]) && (actions[0].Dial? ==> Orderly(w)) && FollowsInOrder(Next(w, actions[0]), actions[1..]))
  }

  /** A dial over a replay that has brought nothing is orderly. */
  lemma {:induction false} HonestRunsAreOrderly(w: World, actions: seq<Action>)
    requires Follows(w, actions)
    ensures FollowsInOrder(w, actions)
    decreases |actions|
  {
    if actions != [] {
      HonestRunsAreOrderly(Next(w, actions[0]), actions[1..]);
    }
  }

  // ------------------------------------------------ settling under another name

  function Renamed(c: Client, e: Epoch): Client {
    c.(epoch := Some(e), lastSeen := map[], sessions := [])
  }

  lemma HeardOneMore(front: seq<Session>, last: Session, got: map<Session, Got>)
    ensures Heard(front + [last], got) <==> Heard(front, got) || Answered(got, last)
  {
    if Answered(got, last) {
      assert last in front + [last];
    }
    if Heard(front, got) {
      var s :| s in front && Answered(got, s);
      assert s in front + [last];
    }
  }

  /** The first answer of another server takes its name and is skipped; the others pass an empty gate. */
  lemma {:induction false} AbsorbingAnother(c: Client, order: seq<Session>, got: map<Session, Got>, e: Epoch)
    requires c.epoch.Some? && c.epoch != Some(e)
    requires forall s :: Answered(got, s) ==> got[s].epoch == e
    ensures AbsorbAll(c, Answers(order, got))
            == if Heard(order, got) then DispatchAll(Renamed(c, e), Replayed(AfterFirst(order, got), got)) else c
  {
    if order != [] {
      var front, last := order[..|order| - 1], order[|order| - 1];
      var answers := Answers(order, got);
      AbsorbingAnother(c, front, got, e);
      assert answers[..|answers| - 1] == Answers(front, got);
      assert order == front + [last];
      HeardOneMore(front, last, got);
      if Heard(front, got) {
        AbsorbingOneMore(c, AfterFirst(front, got), last, got, e);
      }
    }
  }

  lemma AbsorbingOneMore(c: Client, done: seq<Session>, last: Session, got: map<Session, Got>, e: Epoch)
    requires Answered(got, last) ==> got[last].epoch == e
    ensures var mid := DispatchAll(Renamed(c, e), Replayed(done, got));
            Absorb(mid, if last in got then AnswerOf(last, got[last]) else Rejected)
            == DispatchAll(Renamed(c, e), Replayed(done + [last], got))
  {
    var mid := DispatchAll(Renamed(c, e), Replayed(done, got));
    DispatchAllBySession(Renamed(c, e), Replayed(done, got), last);
    assert (done + [last])[..|done|] == done;
    DispatchAllConcat(Renamed(c, e), Replayed(done, got), AnswerLog(last, got));
    if Answered(got, last) {
      LogIsTyped(last, got[last].lo, got[last].upto);
    } else {
      assert AnswerLog(last, got) == [];
    }
  }

  lemma {:induction false} AfterFirstWithin(order: seq<Session>, got: map<Session, Got>)
    requires Distinct(order)
    ensures Distinct(AfterFirst(order, got)) && forall s :: s in AfterFirst(order, got) ==> s in order
  {
    if order != [] {
      var front, last := order[..|order| - 1], order[|order| - 1];
      assert order == front + [last] && last !in front;
      AfterFirstWithin(front, got);
    }
  }

  /** Calls that come to nothing move no turn. */
  lemma {:induction false} AfterFirstStays(order: seq<Session>, got: map<Session, Got>, got': map<Session, Got>)
    requires forall s :: Answered(got, s) <==> Answered(got', s)
    ensures AfterFirst(order, got') == AfterFirst(order, got) && (Heard(order, got') <==> Heard(order, got))
  {
    if order != [] {
      var front, last := order[..|order| - 1], order[|order| - 1];
      AfterFirstStays(front, got, got');
      assert order == front + [last];
      HeardOneMore(front, last, got);
      HeardOneMore(front, last, got');
    }
  }

  /** What passes the gate when the answers of another server settle. */
  function Handed(f: Flight, h: Hold): seq<Event> {
    Replayed(AfterFirst(f.order, f.got), f.got) + ParkedInOrder(h.order, h.parked)
  }

  lemma SettlingAnother(w: World, e: Epoch)
    requires w.flight.Some? && w.c.hold.Some? && w.c.epoch.Some? && w.c.epoch != Some(e)
    requires forall s :: Answered(w.flight.value.got, s) ==> w.flight.value.got[s].epoch == e
    requires Heard(w.flight.value.order, w.flight.value.got)
    ensures Settled(w) == DispatchAll(Renamed(w.c, e).(hold := None), Handed(w.flight.value, w.c.hold.value)).(inFlight := false)
  {
    var f, h := w.flight.value, w.c.hold.value;
    var replayed := Replayed(AfterFirst(f.order, f.got), f.got);
    AbsorbingAnother(w.c, f.order, f.got, e);
    DispatchAllBySession(Renamed(w.c, e), replayed, "");
    DispatchAllIgnoresHold(Renamed(w.c, e), replayed, None);
    DispatchAllConcat(Renamed(w.c, e).(hold := None), replayed, ParkedInOrder(h.order, h.parked));
  }

  ghost predicate HoldShape(f: Flight, h: Hold) {
    && h.order == f.order && Distinct(f.order) && "" !in f.order
    && (forall s :: s in f.order <==> s in h.parked)
    && (forall s, i :: s in h.parked && 0 <= i < |h.parked[s]| ==> h.parked[s][i].sid == s)
  }

  /** The numbers of `s` among what is handed on. */
  ghost function HandedOf(f: Flight, h: Hold, s: Session): seq<int> {
    (if s in AfterFirst(f.order, f.got) && Answered(f.got, s) then Span(f.got[s].lo, f.got[s].upto) else [])
    + (if s in h.parked then Nums(h.parked[s], s) else [])
  }

  lemma RestNums(f: Flight, s: Session)
    requires Distinct(f.order) && "" !in f.order
    ensures Nums(Replayed(AfterFirst(f.order, f.got), f.got), s)
            == if s in AfterFirst(f.order, f.got) && Answered(f.got, s) then Span(f.got[s].lo, f.got[s].upto) else []
  {
    AfterFirstWithin(f.order, f.got);
    ReplayedNums(AfterFirst(f.order, f.got), f.got, s);
  }

  lemma HandedNums(f: Flight, h: Hold, s: Session)
    requires HoldShape(f, h)
    ensures Nums(Handed(f, h), s) == HandedOf(f, h, s)
  {
    NumsConcat(Replayed(AfterFirst(f.order, f.got), f.got), ParkedInOrder(h.order, h.parked), s);
    RestNums(f, s);
    ParkedNums(h.order, h.parked, s);
  }

  // --------------------------------------------------- a dial that breaks it

  /** Every watermark was told to the handlers under the name the client is in. */
  ghost predicate MarksTold(c: Client) {
    forall s :: Watermark(c, s) > 0 ==> Watermark(c, s) in Seqs(c.delivered, c.epoch, s)
  }

  lemma DispatchKeepsMarks(c: Client, es: seq<Event>)
    requires MarksTold(c)
    ensures MarksTold(DispatchAll(c, es))
  {
    var d := DispatchAll(c, es);
    forall s | Watermark(d, s) > 0 ensures Watermark(d, s) in Seqs(d.delivered, d.epoch, s) {
      DispatchAllBySession(c, es, s);
      var before, told := Seqs(c.delivered, c.epoch, s), Accepted(Watermark(c, s), Nums(es, s));
      GateIncreases(Watermark(c, s), Nums(es, s));
      if told != [] {
        LastIsIn(before, told);
      }
    }
  }

  /** With a watermark left over, a new server's first live number is told out of order. */
  lemma TheFirstNumberRepeats(w: World, s: Session) returns (actions: seq<Action>)
    requires w.link == Some(Link([])) && w.c.socket.Some? && w.c.hold.None?
    requires s != "" && Head(w, w.epoch, s) == 0
    requires exists n :: n in Seqs(w.c.delivered, w.c.epoch, s) && n > 0
    ensures Follows(w, actions) && !InOrder(Run(w, actions))
  {
    var sent := Next(w, Emit(s));
    assert sent.link.value.wire == [Live(EventAt(s, 1))];
    OneStep(w, Emit(s));
    OneStep(sent, Deliver);
    FollowsJoin(w, [Emit(s)], [Deliver]);
    actions := [Emit(s)] + [Deliver];
    DeliverOne(w.c.delivered, Delivery(w.c.epoch, EventAt(s, 1)), w.c.epoch, s);
    NotAboveItself(Seqs(w.c.delivered, w.c.epoch, s));
    assert !Increasing(Seqs(Next(sent, Deliver).c.delivered, w.c.epoch, s));
  }

  lemma NotAboveItself(ns: seq<int>)
    requires exists n :: n in ns && n > 0
    ensures !Increasing(ns + [1])
  {
    var i :| 0 <= i < |ns| && ns[i] > 0;
    assert (ns + [1])[i] == ns[i] && (ns + [1])[|ns|] == 1;
  }

  /** Something positive stands on record for `s` under the name the client is in. */
  ghost predicate OnRecord(c: Client, s: Session) {
    s != "" && exists n :: n in Seqs(c.delivered, c.epoch, s) && n > 0
  }

  /** `u` is `w` dialled over, greeted by a new server, with every call settled that had not been answered. */
  ghost predicate Outlived(w: World, u: World) {
    && w.flight.Some? && u.flight.Some? && u.c.hold == w.c.hold
    && u.link == Some(Link([])) && u.c.socket.Some? && u.epoch == w.epoch + 1
    && u.heads == w.heads[u.epoch := map[]]
    && u.c.epoch == Some(u.epoch) && u.c.lastSeen == map[]
    && u.c.delivered == w.c.delivered + [Delivery(Some(u.epoch), ReadyEvent(u.epoch))]
    && u.flight.value.order == w.flight.value.order && u.flight.value.asked == w.flight.value.asked
    && u.flight.value.asked.Keys <= u.flight.value.got.Keys
    && (forall s :: Answered(u.flight.value.got, s) <==> Answered(w.flight.value.got, s))
    && (forall s :: Answered(w.flight.value.got, s) ==> u.flight.value.got[s] == w.flight.value.got[s])
  }

  lemma Outliving(w: World) returns (actions: seq<Action>, u: World)
    requires Safe(w) && Enabled(w, Dial) && w.flight.Some? && w.c.epoch.Some?
    ensures Follows(Next(w, Dial), actions) && u == Run(Next(w, Dial), actions) && Outlived(w, u)
  {
    var first := Overtaking(w);
    var v := Run(Next(w, Dial), first);
    var second := Expiring(v);
    FollowsJoin(Next(w, Dial), first, second);
    actions, u := first + second, Run(v, second);
  }

  lemma NewsHasAName(w: World)
    requires w.flight.Some? && w.c.hold.Some? && FlightOk(w) && !Orderly(w)
    ensures w.c.epoch.Some? && HoldShape(w.flight.value, w.c.hold.value)
    ensures forall s :: Answered(w.flight.value.got, s) ==>
                          s in w.flight.value.order && w.c.epoch == Some(w.flight.value.got[s].epoch)
  {
    forall s | s in w.flight.value.asked ensures HeldOk(w, s) {
    }
  }

  /** What was on record of the old server still is, whatever is handed on. */
  lemma OldRecordStays(c: Client, es: seq<Event>, s: Session)
    requires OnRecord(c, s)
    ensures OnRecord(DispatchAll(c, es), s)
  {
    DispatchAllBySession(c, es, s);
    var n :| n in Seqs(c.delivered, c.epoch, s) && n > 0;
    assert n in Seqs(DispatchAll(c, es).delivered, c.epoch, s);
  }

  /** An empty gate lets a positive number through, and the record ends in one. */
  lemma EmptyGateTells(c: Client, es: seq<Event>, s: Session)
    requires c.lastSeen == map[] && s != "" && exists n :: n in Nums(es, s) && n > 0
    ensures OnRecord(DispatchAll(c, es), s)
  {
    DispatchAllBySession(c, es, s);
    DispatchKeepsMarks(c, es);
    TopCovers(0, Nums(es, s));
    MarkTells(DispatchAll(c, es), s);
  }

  lemma MarkTells(c: Client, s: Session)
    requires MarksTold(c) && s != "" && Watermark(c, s) > 0
    ensures OnRecord(c, s)
  {
    assert Watermark(c, s) in Seqs(c.delivered, c.epoch, s);
  }

  lemma MarkIsOnRecord(w: World, u: World, e: Epoch, s: Session)
    requires LogOk(w, s) && s in w.c.lastSeen && w.c.epoch == Some(e) && e != u.epoch
    requires u.c.delivered == w.c.delivered + [Delivery(Some(u.epoch), ReadyEvent(u.epoch))]
    ensures OnRecord(Renamed(u.c, e), s)
  {
    var before := Seqs(w.c.delivered, Some(e), s);
    assert CurrentOk(w, s) && before[|before| - 1] in before;
    if s == "" {
      SeqsOfNobody(w.c.delivered, Some(e));
    }
    DeliverOne(w.c.delivered, Delivery(Some(u.epoch), ReadyEvent(u.epoch)), Some(e), s);
    assert Seqs(u.c.delivered, Some(e), s) == before;
    assert w.c.lastSeen[s] in Seqs(Renamed(u.c, e).delivered, Some(e), s);
  }

  lemma AFrameIsHanded(w: World, s: Session) returns (n: int)
    requires w.flight.Some? && w.c.hold.Some? && FlightOk(w) && Parked(w, s) != []
    ensures s != "" && n > 0 && n in HandedOf(w.flight.value, w.c.hold.value, s)
  {
    assert s in w.flight.value.asked && HeldOk(w, s);
    ParkedIsPositive(w, s);
    n :| n in Parked(w, s) && n > 0;
  }

  lemma AnAnswerIsHanded(f: Flight, h: Hold, s: Session)
    requires s in AfterFirst(f.order, f.got) && Answered(f.got, s) && f.got[s].lo < f.got[s].upto
    ensures f.got[s].upto in HandedOf(f, h, s)
  {
    var span, parked := Span(f.got[s].lo, f.got[s].upto), if s in h.parked then Nums(h.parked[s], s) else [];
    assert (span + parked)[|span| - 1] == f.got[s].upto;
  }

  /** A number behind the first answer, or a parked one. */
  lemma SomethingIsHanded(w: World) returns (s: Session, n: int)
    requires w.flight.Some? && w.c.hold.Some? && FlightOk(w) && "" !in w.flight.value.order && !Orderly(w)
    requires forall x :: Answered(w.flight.value.got, x) ==> Untold(w, w.flight.value.got[x].epoch)
    ensures s != "" && n > 0 && n in HandedOf(w.flight.value, w.c.hold.value, s)
  {
    if t :| Parked(w, t) != [] {
      s := t;
      n := AFrameIsHanded(w, s);
    } else {
      s, n := ALateAnswer(w.flight.value, w.c.hold.value);
    }
  }

  lemma ALateAnswer(f: Flight, h: Hold) returns (s: Session, n: int)
    requires Distinct(f.order) && "" !in f.order && !Alone(f)
    ensures s != "" && n > 0 && n in HandedOf(f, h, s)
  {
    s :| s in AfterFirst(f.order, f.got) && Answered(f.got, s) && f.got[s].upto > Max(f.got[s].lo, 0);
    n := f.got[s].upto;
    AnAnswerIsHanded(f, h, s);
    AfterFirstWithin(f.order, f.got);
  }

  lemma HandedStays(f: Flight, g: Flight, h: Hold, s: Session)
    requires f.order == g.order && (forall x :: Answered(f.got, x) <==> Answered(g.got, x))
    requires forall x :: Answered(f.got, x) ==> x in g.got && f.got[x] == g.got[x]
    ensures HandedOf(f, h, s) == HandedOf(g, h, s)
  {
    AfterFirstStays(f.order, f.got, g.got);
  }

  /** Whatever it brought beyond the condition, the old replay leaves a record to go back behind. */
  lemma AnsweredIsOnRecord(w: World, u: World, e: Epoch) returns (s: Session)
    requires w.flight.Some? && w.c.hold.Some? && FlightOk(w) && !Orderly(w) && (forall x :: LogOk(w, x))
    requires Outlived(w, u) && w.c.epoch == Some(e) && e != u.epoch && Heard(u.flight.value.order, u.flight.value.got)
    requires forall x :: Answered(u.flight.value.got, x) ==> u.flight.value.got[x].epoch == e
    requires HoldShape(u.flight.value, u.c.hold.value)
    ensures OnRecord(Settled(u), s)
  {
    var f, h := u.flight.value, u.c.hold.value;
    SettlingAnother(u, e);
    if t :| Seqs(w.c.delivered, Some(e), t) != [] {
      s := t;
      assert LogOk(w, s) && CurrentOk(w, s);
      MarkIsOnRecord(w, u, e, s);
      OldRecordStays(Renamed(u.c, e).(hold := None), Handed(f, h), s);
    } else {
      assert forall x :: Answered(w.flight.value.got, x) ==> w.flight.value.got[x] == f.got[x];
      var n;
      s, n := SomethingIsHanded(w);
      HandedStays(w.flight.value, f, h, s);
      HandedNums(f, h, s);
      EmptyGateTells(Renamed(u.c, e).(hold := None), Handed(f, h), s);
    }
  }

  lemma FramesAreOnRecord(w: World, u: World) returns (s: Session)
    requires w.flight.Some? && w.c.hold.Some? && FlightOk(w) && !Orderly(w)
    requires Outlived(w, u) && HoldShape(u.flight.value, u.c.hold.value) && forall x :: !Answered(w.flight.value.got, x)
    ensures OnRecord(Settled(u), s)
  {
    s :| Parked(w, s) != [];
    assert s in w.flight.value.asked && HeldOk(w, s);
    ParkedIsPositive(w, s);
    assert Parked(u, s) == Parked(w, s);
    SettlingFrames(u, s);
  }

  lemma SomethingIsOnRecord(w: World, u: World) returns (s: Session)
    requires Safe(w) && Outlived(w, u) && !Orderly(w)
    ensures OnRecord(Settled(u), s)
  {
    NewsHasAName(w);
    if x :| Answered(w.flight.value.got, x) {
      assert x in u.flight.value.order && Answered(u.flight.value.got, x);
      s := AnsweredIsOnRecord(w, u, w.c.epoch.value);
    } else {
      s := FramesAreOnRecord(w, u);
    }
  }

  /** A settling replay leaves the socket alone and parks nothing more. */
  lemma {:induction false} AbsorbingKeepsRest(c: Client, answers: seq<Answer>)
    ensures var d := AbsorbAll(c, answers);
            d == c.(epoch := d.epoch, lastSeen := d.lastSeen, sessions := d.sessions, delivered := d.delivered)
    decreases |answers|
  {
    if answers != [] {
      var mid, last := AbsorbAll(c, answers[..|answers| - 1]), answers[|answers| - 1];
      AbsorbingKeepsRest(c, answers[..|answers| - 1]);
      if last.Fulfilled? {
        DispatchAllBySession(if last.epoch.Some? && mid.epoch.None? then mid.(epoch := last.epoch) else mid, Typed(last.events), "");
      }
    }
  }

  lemma SettledIsQuiet(u: World)
    requires u.flight.Some? && u.c.hold.Some?
    ensures Settled(u).hold.None? && Settled(u).socket == u.c.socket
  {
    var absorbed := AbsorbAll(u.c, Answers(u.flight.value.order, u.flight.value.got));
    AbsorbingKeepsRest(u.c, Answers(u.flight.value.order, u.flight.value.got));
    DispatchAllBySession(absorbed.(hold := None), ParkedInOrder(u.c.hold.value.order, u.c.hold.value.parked), "");
  }

  lemma SettledIsLive(u: World)
    requires u.flight.Some? && u.flight.value.asked.Keys <= u.flight.value.got.Keys
    ensures Enabled(u, Settle) && Next(u, Settle) == u.(c := Settled(u), flight := None)
  {
  }

  lemma GoingBack(u: World, s: Session) returns (actions: seq<Action>)
    requires u.flight.Some? && u.c.hold.Some? && u.flight.value.asked.Keys <= u.flight.value.got.Keys
    requires u.link == Some(Link([])) && u.c.socket.Some? && Head(u, u.epoch, s) == 0 && OnRecord(Settled(u), s)
    ensures Follows(u, actions) && !InOrder(Run(u, actions))
  {
    SettledIsLive(u);
    SettledIsQuiet(u);
    OneStep(u, Settle);
    var last := TheFirstNumberRepeats(Next(u, Settle), s);
    FollowsJoin(u, [Settle], last);
    actions := [Settle] + last;
  }

  lemma ADialSendsBack(w: World) returns (actions: seq<Action>)
    requires Safe(w) && Enabled(w, Dial) && !Orderly(w)
    ensures FollowsInOrder(Next(w, Dial), actions) && !InOrder(Run(Next(w, Dial), actions))
  {
    NewsHasAName(w);
    var first, u := Outliving(w);
    var s := SomethingIsOnRecord(w, u);
    var second := GoingBack(u, s);
    FollowsJoin(Next(w, Dial), first, second);
    actions := first + second;
    HonestRunsAreOrderly(Next(w, Dial), actions);
  }
}
