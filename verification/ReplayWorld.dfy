/**
 * The replay client against a server: one numbered log per session, one process
 * identity, an ordered wire per socket, and every order of drops, reopens,
 * replays, lost calls, restarts and live frames in between.
 */
module ReplayWorld {
  import opened Prelude
  import opened ReplayClient
  import opened ReplayNumbers

  /** A reply carries the events `lo + 1 .. upto` of one session. */
  datatype Frame = Live(event: Event) | Reply(sid: Session, epoch: Epoch, lo: int, upto: int)

  datatype Link = Link(wire: seq<Frame>)

  datatype Got = Lost | Served(epoch: Epoch, lo: int, upto: int)

  /**
   * A replay under way. `epoch` and `base` are what the server was when the last
   * socket opened; `waiting` are the calls it has not answered yet.
   */
  datatype Flight = Flight(
    asked: map<Session, int>,
    order: seq<Session>,
    waiting: set<Session>,
    got: map<Session, Got>,
    epoch: Epoch,
    base: map<Session, nat>)

  datatype World = World(
    c: Client,
    epoch: Epoch,
    heads: map<Epoch, map<Session, nat>>,
    link: Option<Link>,
    flight: Option<Flight>,
    sockets: nat,
    live: bool)

  datatype Action =
    | Emit(s: Session)                // the server logs one event and, with a socket, sends it
    | Notice(e: Event)                // an event outside the numbering
    | Dial
    | Opened
    | DialFailed(timeout: bool)
    | Closing                         // the bound socket stops reporting itself open
    | Dropped                         // its close event, or an invalidation
    | Cut                             // the server's end goes away first
    | Restart                         // a new server process: new identity, empty logs
    | Serve(s: Session, from: int)    // answer one call, from what the ring still holds
    | Deliver                         // the client takes the next frame off the wire
    | Expire(s: Session)              // one call times out or is refused
    | Settle                          // every call settled: the replay's continuation runs
    | SettleStale(generation: nat, answers: seq<Answer>)

  function Head(w: World, e: Epoch, s: Session): nat {
    if e in w.heads && s in w.heads[e] then w.heads[e][s] else 0
  }

  function EventAt(s: Session, n: int): Event {
    Event(Named, None, s, Seq(n))
  }

  function Log(s: Session, lo: int, upto: int): seq<Event> {
    seq(Max(upto - lo, 0), i => EventAt(s, lo + 1 + i))
  }

  function ReadyEvent(e: Epoch): Event {
    Event(Ready, Some(e), "", Unnumbered)
  }

  function Send(w: World, f: Frame): World {
    if w.link.Some? then w.(link := Some(Link(w.link.value.wire + [f]))) else w
  }

  /** Calls in flight die with the server's end of the socket. */
  function Unplug(w: World): World {
    w.(link := None, flight := match w.flight case None => None case Some(f) => Some(f.(waiting := {})))
  }

  function AnswerOf(s: Session, g: Got): Answer {
    match g
    case Lost => Rejected
    case Served(e, lo, upto) => Fulfilled(Some(e), Log(s, lo, upto))
  }

  function Answers(order: seq<Session>, got: map<Session, Got>): seq<Answer> {
    if order == [] then []
    else
      var s := order[|order| - 1];
      Answers(order[..|order| - 1], got) + [if s in got then AnswerOf(s, got[s]) else Rejected]
  }

  predicate Enabled(w: World, a: Action) {
    match a
    case Emit(s) => s != ""
    case Notice(e) => w.link.Some? && !Numbered(e) && !e.kind.Ready?
    case Dial => !w.c.state.Connecting? && !(w.c.socket.Some? && w.live)
    case Opened => w.c.state.Connecting? && w.c.socket.Some?
    case DialFailed(_) => w.c.state.Connecting? && w.c.socket.Some?
    case Closing => w.live
    case Dropped => w.c.socket.Some?
    case Cut => w.link.Some?
    case Restart => true
    case Serve(s, from) =>
      w.link.Some? && w.flight.Some? && s in w.flight.value.waiting && s in w.flight.value.asked
      && from >= w.flight.value.asked[s]
    case Deliver => w.link.Some? && w.link.value.wire != []
    case Expire(s) => w.flight.Some? && s in w.flight.value.asked && s !in w.flight.value.got
    case Settle => w.flight.Some? && w.flight.value.asked.Keys <= w.flight.value.got.Keys
    case SettleStale(generation, _) => generation < w.c.generation
  }

  function Next(w: World, a: Action): World
    requires Enabled(w, a)
  {
    match a
    case Emit(s) =>
      var n := Head(w, w.epoch, s) + 1;
      var logs := (if w.epoch in w.heads then w.heads[w.epoch] else map[])[s := n];
      Send(w.(heads := w.heads[w.epoch := logs]), Live(EventAt(s, n)))
    case Notice(e) => Send(w, Live(e))
    case Dial => Unplug(w).(c := Connect(w.c, w.sockets, w.live), sockets := w.sockets + 1, live := false)
    case Opened =>
      var c := OnOpen(w.c, w.c.socket.value);
      var heads := if w.epoch in w.heads then w.heads[w.epoch] else map[];
      w.(c := c, live := true, link := Some(Link([Live(ReadyEvent(w.epoch))])),
         flight := if c.generation != w.c.generation then
                     Some(Flight(c.lastSeen, c.sessions, c.lastSeen.Keys, map[], w.epoch, heads))
                   else if w.flight.Some? then Some(w.flight.value.(epoch := w.epoch, base := heads))
                   else None)
    case DialFailed(timeout) =>
      w.(c := if timeout then OnConnectTimeout(w.c, w.c.socket.value) else OnError(w.c, w.c.socket.value))
    case Closing => w.(live := false)
    case Dropped => w.(c := OnClose(w.c, w.c.socket.value), link := None, flight := None, live := false)
    case Cut => Unplug(w)
    case Restart => Unplug(w).(epoch := w.epoch + 1, heads := w.heads[w.epoch + 1 := map[]])
    case Serve(s, from) =>
      var f := w.flight.value;
      Send(w.(flight := Some(f.(waiting := f.waiting - {s}))),
           Reply(s, w.epoch, from, Head(w, w.epoch, s)))
    case Deliver =>
      var rest := w.(link := Some(Link(w.link.value.wire[1..])));
      (match w.link.value.wire[0]
       case Live(e) =>
         rest.(c := if w.c.socket.Some? then OnMessage(w.c, w.c.socket.value, e) else w.c)
       case Reply(s, e, lo, upto) =>
         if w.flight.Some? && s in w.flight.value.asked && s !in w.flight.value.got then
           rest.(flight := Some(w.flight.value.(got := w.flight.value.got[s := Served(e, lo, upto)])))
         else rest)
    case Expire(s) => w.(flight := Some(w.flight.value.(got := w.flight.value.got[s := Lost])))
    case Settle =>
      var f := w.flight.value;
      w.(c := ResumeReplay(w.c, w.c.generation, Answers(f.order, f.got)), flight := None)
    case SettleStale(generation, answers) => w.(c := ResumeReplay(w.c, generation, answers))
  }

  ghost predicate Init(w: World) {
    && w.c.lastSeen == map[] && w.c.sessions == [] && !w.c.inFlight && w.c.hold.None? && w.c.epoch.None?
    && w.c.socket.None? && w.c.state.Idle? && w.c.delivered == []
    && w.link.None? && w.flight.None? && !w.live
    && forall e :: e in w.heads ==> e <= w.epoch
  }

  /** The numbers parked for `s` so far. */
  ghost function Parked(w: World, s: Session): seq<int> {
    if w.c.hold.Some? && s in w.c.hold.value.parked then Nums(w.c.hold.value.parked[s], s) else []
  }

  /** A replay that has brought nothing yet: no call of it was answered, and no numbered frame is parked. */
  ghost predicate Barren(w: World) {
    w.flight.Some? ==>
      && (forall s :: s in w.flight.value.got ==> w.flight.value.got[s].Lost?)
      && (forall s :: Parked(w, s) == [])
  }

  /** The owner dials over a replay only while it has brought nothing. */
  ghost predicate Harmless(w: World, a: Action) {
    a.Dial? ==> Barren(w)
  }

  /** The ring still held the log, and the replay that settles was fulfilled. */
  ghost predicate Complete(w: World, a: Action)
    requires Enabled(w, a)
  {
    && (a.Serve? ==> a.from == w.flight.value.asked[a.s])
    && (a.Settle? ==> forall s :: s in w.flight.value.asked ==> w.flight.value.got[s].Served?)
  }

  ghost predicate Follows(w: World, actions: seq<Action>)
    decreases |actions|
  {
    actions == [] || (Enabled(w, actions[0]) && Harmless(w, actions[0]) && Follows(Next(w, actions[0]), actions[1..]))
  }

  function Run(w: World, actions: seq<Action>): World
    decreases |actions|
  {
    if actions == [] || !Enabled(w, actions[0]) then w else Run(Next(w, actions[0]), actions[1..])
  }

  // ---------------------------------------------------------------- invariant

  function LiveNums(wire: seq<Frame>, s: Session): seq<int> {
    if wire == [] then []
    else
      (match wire[0]
       case Live(e) => if Numbered(e) && e.sid == s then [e.seqno.n] else []
       case Reply(_, _, _, _) => [])
      + LiveNums(wire[1..], s)
  }

  ghost predicate NoReady(wire: seq<Frame>) {
    forall i :: 0 <= i < |wire| && wire[i].Live? ==> !wire[i].event.kind.Ready?
  }

  /** Each reply on the wire reaches exactly to the frames that follow it. */
  ghost predicate RepliesFit(wire: seq<Frame>, w: World) {
    wire == []
    || (RepliesFit(wire[1..], w)
        && (wire[0].Reply? ==>
              && wire[0].epoch == w.epoch
              && wire[0].upto == Head(w, w.epoch, wire[0].sid) - |LiveNums(wire[1..], wire[0].sid)|))
  }

  /** The watermark as a number in the log of server `e`. */
  function Mark(c: Client, e: Epoch, s: Session): int {
    if c.epoch == Some(e) then Watermark(c, s) else 0
  }

  ghost predicate HoldsFor(w: World, s: Session) {
    w.flight.Some? && s in w.flight.value.asked
  }

  ghost function Base(f: Flight, s: Session): int {
    if s in f.base then f.base[s] else 0
  }

  ghost predicate ClientOk(w: World) {
    && SessionsListed(w.c)
    && (w.c.hold.Some? <==> w.c.inFlight)
    && (w.c.hold.Some? <==> w.flight.Some?)
    && (w.c.state.Connecting? ==> w.link.None?)
    && (forall e :: e in w.heads ==> e <= w.epoch)
    && (w.c.epoch.None? ==> w.c.lastSeen == map[])
    && (w.c.epoch.Some? ==> w.c.epoch.value <= w.epoch)
  }

  ghost predicate CurrentOk(w: World, s: Session) {
    var current := Seqs(w.c.delivered, w.c.epoch, s);
    if s in w.c.lastSeen then
      && current != [] && current[|current| - 1] == w.c.lastSeen[s]
      && 1 <= w.c.lastSeen[s] <= Head(w, w.c.epoch.GetOr(0), s)
    else current == []
  }

  ghost predicate FutureEmpty(c: Client, s: Session) {
    forall e: Epoch :: (c.epoch.None? || e > c.epoch.value) ==> Seqs(c.delivered, Some(e), s) == []
  }

  ghost predicate LogOk(w: World, s: Session) {
    && (forall e :: Increasing(Seqs(w.c.delivered, e, s)))
    && CurrentOk(w, s)
    && FutureEmpty(w.c, s)
  }

  ghost predicate FlightOk(w: World)
    requires w.flight.Some? && w.c.hold.Some?
  {
    FlightShape(w) && forall s :: s in w.flight.value.asked ==> HeldOk(w, s)
  }

  ghost predicate FlightShape(w: World)
    requires w.flight.Some? && w.c.hold.Some?
  {
    var f, h := w.flight.value, w.c.hold.value;
    && h.order == f.order && Distinct(f.order)
    && h.parked.Keys == f.asked.Keys
    && (forall s :: s in f.order <==> s in f.asked)
    && f.got.Keys <= f.asked.Keys && "" !in f.asked
    && f.epoch <= w.epoch
    && (w.link.Some? ==> f.epoch == w.epoch)
    && (forall s, i :: s in h.parked && 0 <= i < |h.parked[s]| ==> h.parked[s][i].sid == s)
  }

  /** What a parked session has on hand: the live frames since the socket opened. */
  ghost predicate HeldOk(w: World, s: Session)
    requires w.flight.Some?
  {
    var f, p := w.flight.value, |Parked(w, s)|;
    && Parked(w, s) == Span(Base(f, s), Base(f, s) + p)
    && Mark(w.c, f.epoch, s) <= Base(f, s)
    && Base(f, s) + p <= Head(w, f.epoch, s)
    && (w.c.epoch != Some(f.epoch) ==> p == 0)
    && (s in f.got && f.got[s].Served? ==>
          && w.c.epoch == Some(f.epoch) && f.got[s].epoch == f.epoch
          && Base(f, s) <= f.got[s].upto <= Base(f, s) + p)
  }

  ghost predicate Greeted(w: World)
    requires w.link.Some?
  {
    var wire := w.link.value.wire;
    || (wire != [] && wire[0] == Live(ReadyEvent(w.epoch)) && NoReady(wire[1..]))
    || (NoReady(wire) && w.c.epoch == Some(w.epoch))
  }

  /** The wire holds a contiguous end of the log, above everything taken so far. */
  ghost predicate WireOk(w: World, s: Session)
    requires w.link.Some?
  {
    var head, nums := Head(w, w.epoch, s), LiveNums(w.link.value.wire, s);
    && nums == Span(head - |nums|, head)
    && |nums| <= head
    && (if HoldsFor(w, s) then Base(w.flight.value, s) + |Parked(w, s)| == head - |nums|
        else Mark(w.c, w.epoch, s) <= head - |nums|)
  }

  ghost predicate LinkOk(w: World) {
    w.link.Some? ==>
      && w.c.socket.Some? && w.c.state.Open?
      && Greeted(w)
      && RepliesFit(w.link.value.wire, w)
      && forall s :: WireOk(w, s)
  }

  ghost predicate Safe(w: World) {
    && ClientOk(w)
    && (w.flight.Some? ==> FlightOk(w))
    && (forall s :: LogOk(w, s))
    && LinkOk(w)
    && (w.c.state.Connecting? ==> Barren(w))
  }

  // ------------------------------------------------- preservation, by action

  lemma {:induction false} LiveNumsAppend(wire: seq<Frame>, f: Frame, s: Session)
    ensures LiveNums(wire + [f], s) == LiveNums(wire, s) + LiveNums([f], s)
  {
    if wire == [] {
      assert wire + [f] == [f];
    } else {
      assert (wire + [f])[1..] == wire[1..] + [f];
      LiveNumsAppend(wire[1..], f, s);
    }
  }

  /** A frame at the end: a live event is the new head, a reply reaches the head. */
  ghost predicate FitsAtEnd(f: Frame, w: World, w': World) {
    && w'.epoch == w.epoch
    && (f.Reply? ==> f.epoch == w.epoch && f.upto == Head(w', w.epoch, f.sid))
    && (forall s :: Head(w', w.epoch, s) == Head(w, w.epoch, s) + |LiveNums([f], s)|)
  }

  lemma {:induction false} RepliesFitAppend(wire: seq<Frame>, f: Frame, w: World, w': World)
    requires RepliesFit(wire, w) && FitsAtEnd(f, w, w')
    ensures RepliesFit(wire + [f], w')
  {
    if wire == [] {
      assert wire + [f] == [f];
      assert RepliesFit([f][1..], w');
    } else {
      assert (wire + [f])[1..] == wire[1..] + [f];
      RepliesFitAppend(wire[1..], f, w, w');
      if wire[0].Reply? {
        LiveNumsAppend(wire[1..], f, wire[0].sid);
      }
    }
  }

  /** What `LogOk` and `HeldOk` read is the same in both worlds, up to growing logs. */
  ghost predicate SameRecord(w: World, w': World) {
    && w'.c.delivered == w.c.delivered && w'.c.lastSeen == w.c.lastSeen && w'.c.epoch == w.c.epoch
    && (forall e, s :: Head(w, e, s) <= Head(w', e, s))
  }

  lemma LogStays(w: World, w': World)
    requires SameRecord(w, w') && forall s :: LogOk(w, s)
    ensures forall s :: LogOk(w', s)
  {
    forall s ensures LogOk(w', s) {
      assert LogOk(w, s);
    }
  }

  ghost predicate SameHold(w: World, w': World, s: Session) {
    && w.flight.Some? && w'.flight.Some?
    && w'.flight.value.base == w.flight.value.base && w'.flight.value.epoch == w.flight.value.epoch
    && (s in w'.flight.value.got <==> s in w.flight.value.got)
    && (s in w.flight.value.got ==> w'.flight.value.got[s] == w.flight.value.got[s])
    && w'.c.hold == w.c.hold
  }

  lemma HeldStays(w: World, w': World, s: Session)
    requires SameRecord(w, w') && SameHold(w, w', s) && HeldOk(w, s)
    ensures HeldOk(w', s)
  {
  }

  /** The server's side moved on and the client's did not. */
  ghost predicate ServerOnly(w: World, w': World) {
    && w'.c == w.c
    && w.epoch <= w'.epoch
    && (forall e :: e in w'.heads ==> e <= w'.epoch)
    && (forall e, s :: Head(w, e, s) <= Head(w', e, s))
    && (w.flight.Some? <==> w'.flight.Some?)
    && (w.flight.Some? ==> w'.flight.value == w.flight.value.(waiting := w'.flight.value.waiting))
    && (w'.link.Some? ==> w.link.Some? && w'.epoch == w.epoch)
  }

  lemma ServerOnlyKeeps(w: World, w': World)
    requires ClientOk(w) && (w.flight.Some? ==> FlightOk(w)) && (forall s :: LogOk(w, s))
    requires ServerOnly(w, w')
    ensures ClientOk(w') && (w'.flight.Some? ==> FlightOk(w')) && (forall s :: LogOk(w', s))
  {
    LogStays(w, w');
    if w.flight.Some? {
      forall s | s in w.flight.value.asked ensures HeldOk(w', s) {
        HeldStays(w, w', s);
      }
    }
  }

  lemma SendKeepsLink(w: World, w': World, f: Frame)
    requires LinkOk(w) && w.link.Some? && w'.link == Some(Link(w.link.value.wire + [f]))
    requires w'.c == w.c
    requires w.flight.Some? <==> w'.flight.Some?
    requires w.flight.Some? ==> w'.flight.value == w.flight.value.(waiting := w'.flight.value.waiting)
    requires FitsAtEnd(f, w, w')
    requires f.Live? ==> !f.event.kind.Ready?
    requires forall s :: LiveNums([f], s) == [] || LiveNums([f], s) == [Head(w', w.epoch, s)]
    ensures LinkOk(w')
  {
    var wire := w.link.value.wire;
    RepliesFitAppend(wire, f, w, w');
    forall s ensures WireOk(w', s) {
      assert WireOk(w, s);
      SendKeepsWire(w, w', f, s);
    }
    if wire != [] {
      assert (wire + [f])[1..] == wire[1..] + [f];
    }
  }

  lemma SendKeepsWire(w: World, w': World, f: Frame, s: Session)
    requires w.link.Some? && w'.link == Some(Link(w.link.value.wire + [f])) && WireOk(w, s)
    requires w'.c == w.c && w'.epoch == w.epoch
    requires w.flight.Some? <==> w'.flight.Some?
    requires w.flight.Some? ==> w'.flight.value == w.flight.value.(waiting := w'.flight.value.waiting)
    requires Head(w', w.epoch, s) == Head(w, w.epoch, s) + |LiveNums([f], s)|
    requires LiveNums([f], s) == [] || LiveNums([f], s) == [Head(w', w.epoch, s)]
    ensures WireOk(w', s)
  {
    LiveNumsAppend(w.link.value.wire, f, s);
    assert HoldsFor(w', s) == HoldsFor(w, s);
  }

  lemma EmitKeepsSafe(w: World, s: Session)
    requires Safe(w) && Enabled(w, Emit(s))
    ensures Safe(Next(w, Emit(s)))
  {
    var w' := Next(w, Emit(s));
    EmitHeads(w, s);
    ServerOnlyKeeps(w, w');
    if w.link.Some? {
      SendKeepsLink(w, w', Live(EventAt(s, Head(w, w.epoch, s) + 1)));
    }
  }

  lemma EmitHeads(w: World, s: Session)
    requires Enabled(w, Emit(s))
    ensures forall e, x :: Head(Next(w, Emit(s)), e, x) == Head(w, e, x) + (if x == s && e == w.epoch then 1 else 0)
  {
  }

  lemma NoticeKeepsSafe(w: World, e: Event)
    requires Safe(w) && Enabled(w, Notice(e))
    ensures Safe(Next(w, Notice(e)))
  {
    ServerOnlyKeeps(w, Next(w, Notice(e)));
    SendKeepsLink(w, Next(w, Notice(e)), Live(e));
  }

  lemma ServeKeepsSafe(w: World, s: Session, from: int)
    requires Safe(w) && Enabled(w, Serve(s, from))
    ensures Safe(Next(w, Serve(s, from)))
  {
    var w' := Next(w, Serve(s, from));
    var reply := Reply(s, w.epoch, from, Head(w, w.epoch, s));
    ServeStep(w, s, from);
    ServerOnlyKeeps(w, w');
    ReplyHasNoNumber(reply);
    SendKeepsLink(w, w', reply);
  }

  lemma ReplyHasNoNumber(f: Frame)
    requires f.Reply?
    ensures forall s :: LiveNums([f], s) == []
  {
  }

  lemma ServeStep(w: World, s: Session, from: int)
    requires Enabled(w, Serve(s, from)) && forall e :: e in w.heads ==> e <= w.epoch
    ensures var w' := Next(w, Serve(s, from));
            && ServerOnly(w, w')
            && w'.heads == w.heads && w'.epoch == w.epoch
            && w'.link == Some(Link(w.link.value.wire + [Reply(s, w.epoch, from, Head(w, w.epoch, s))]))
            && FitsAtEnd(Reply(s, w.epoch, from, Head(w, w.epoch, s)), w, w')
  {
  }

  /** Dialling, failing, cutting, restarting: the socket goes, the record stays. */
  lemma UnlinkedKeepsSafe(w: World, w': World)
    requires Safe(w) && w'.link.None?
    requires w'.c == w.c.(socket := w'.c.socket, state := w'.c.state)
    requires w'.c.state.Connecting? ==> Barren(w)
    requires ServerOnly(w.(c := w'.c), w')
    ensures Safe(w')
  {
    var mid := w.(c := w'.c, link := None);
    LogStays(w, mid);
    if w.flight.Some? {
      forall s | s in w.flight.value.asked ensures HeldOk(mid, s) {
        HeldStays(w, mid, s);
      }
    }
    ServerOnlyKeeps(mid, w');
  }

  lemma SocketLossKeepsSafe(w: World, a: Action)
    requires Safe(w) && Enabled(w, a) && Harmless(w, a)
    requires a.Dial? || a.DialFailed? || a.Cut? || a.Restart? || a.Closing?
    ensures Safe(Next(w, a))
  {
    if a.Closing? {
      ServerOnlyKeeps(w, Next(w, a));
      if w.link.Some? {
        SameWire(w, Next(w, a));
      }
    } else {
      UnlinkedKeepsSafe(w, Next(w, a));
    }
  }

  lemma {:induction false} SameReplies(wire: seq<Frame>, w: World, w': World)
    requires RepliesFit(wire, w) && w'.epoch == w.epoch && w'.heads == w.heads
    ensures RepliesFit(wire, w')
  {
    if wire != [] {
      SameReplies(wire[1..], w, w');
    }
  }

  lemma SameWire(w: World, w': World)
    requires LinkOk(w) && w.link.Some? && w'.link == w.link
    requires w'.c == w.c && w'.epoch == w.epoch && w'.heads == w.heads
    requires w.flight.Some? <==> w'.flight.Some?
    requires w.flight.Some? ==> w'.flight.value.asked == w.flight.value.asked
    requires w.flight.Some? ==> w'.flight.value.base == w.flight.value.base
    ensures LinkOk(w')
  {
    SameReplies(w.link.value.wire, w, w');
    forall s ensures WireOk(w', s) {
      assert WireOk(w, s);
    }
  }

  lemma DroppedKeepsSafe(w: World)
    requires Safe(w) && Enabled(w, Dropped)
    ensures Safe(Next(w, Dropped))
  {
    LogStays(w, Next(w, Dropped));
  }

  lemma ExpireKeepsSafe(w: World, s: Session)
    requires Safe(w) && Enabled(w, Expire(s))
    ensures Safe(Next(w, Expire(s)))
  {
    GotKeepsSafe(w, Next(w, Expire(s)), s, Lost);
  }

  /** One call of the replay settles; nothing else moves. */
  lemma GotKeepsSafe(w: World, w': World, s: Session, g: Got)
    requires Safe(w) && w.flight.Some? && s in w.flight.value.asked
    requires w' == w.(flight := Some(w.flight.value.(got := w.flight.value.got[s := g])))
    requires g.Served? ==>
               && w.c.epoch == Some(w.flight.value.epoch) && g.epoch == w.flight.value.epoch
               && Base(w.flight.value, s) <= g.upto <= Base(w.flight.value, s) + |Parked(w, s)|
    requires w.c.state.Connecting? ==> g.Lost?
    ensures Safe(w')
  {
    LogStays(w, w');
    LostIsBarren(w, w', s, g);
    forall x | x in w.flight.value.asked ensures HeldOk(w', x) {
      if x != s {
        HeldStays(w, w', x);
      } else {
        GotHeld(w, w', s, g);
      }
    }
    if w.link.Some? {
      SameWire(w, w');
    }
  }

  lemma LostIsBarren(w: World, w': World, s: Session, g: Got)
    requires w.flight.Some? && w' == w.(flight := Some(w.flight.value.(got := w.flight.value.got[s := g])))
    ensures Barren(w) && g.Lost? ==> Barren(w')
  {
    assert forall x :: Parked(w', x) == Parked(w, x);
  }

  lemma GotHeld(w: World, w': World, s: Session, g: Got)
    requires w.flight.Some? && HeldOk(w, s)
    requires w' == w.(flight := Some(w.flight.value.(got := w.flight.value.got[s := g])))
    requires g.Served? ==>
               && w.c.epoch == Some(w.flight.value.epoch) && g.epoch == w.flight.value.epoch
               && Base(w.flight.value, s) <= g.upto <= Base(w.flight.value, s) + |Parked(w, s)|
    ensures HeldOk(w', s)
  {
  }

  lemma {:induction false} SeqsOfNobody(ds: seq<Delivery>, epoch: Option<Epoch>)
    ensures Seqs(ds, epoch, "") == []
  {
    if ds != [] {
      SeqsOfNobody(ds[..|ds| - 1], epoch);
    }
  }

  lemma OpenedWire(w: World, w': World, s: Session)
    requires w'.link == Some(Link([Live(ReadyEvent(w.epoch))])) && w'.epoch == w.epoch && w'.heads == w.heads
    requires w'.c.lastSeen == w.c.lastSeen && w'.c.epoch == w.c.epoch && CurrentOk(w, s)
    requires HoldsFor(w', s) ==> Parked(w', s) == [] && Base(w'.flight.value, s) == Head(w, w.epoch, s)
    ensures WireOk(w', s)
  {
  }

  lemma OpenedHeld(w: World, w': World, s: Session)
    requires Enabled(w, Opened) && w' == Next(w, Opened) && CurrentOk(w, s) && w'.flight.Some? && s in w'.flight.value.asked
    requires Barren(w) && (w.flight.Some? ==> w.c.inFlight)
    ensures HeldOk(w', s) && Parked(w', s) == []
  {
    if w.flight.Some? {
      assert w'.c.hold == w.c.hold && Parked(w', s) == Parked(w, s);
    }
  }

  lemma OpenedKeepsNumbers(w: World)
    requires Safe(w) && Enabled(w, Opened)
    ensures var w' := Next(w, Opened); forall s :: WireOk(w', s) && (HoldsFor(w', s) ==> HeldOk(w', s))
  {
    var w' := Next(w, Opened);
    forall s ensures WireOk(w', s) && (HoldsFor(w', s) ==> HeldOk(w', s)) {
      assert LogOk(w, s);
      if HoldsFor(w', s) {
        OpenedHeld(w, w', s);
      }
      OpenedWire(w, w', s);
    }
  }

  lemma OpenedKeepsClient(w: World)
    requires Safe(w) && Enabled(w, Opened)
    ensures var w' := Next(w, Opened); ClientOk(w') && !w'.c.state.Connecting?
  {
  }

  lemma OpenedKeepsShape(w: World)
    requires Safe(w) && Enabled(w, Opened)
    ensures var w' := Next(w, Opened); w'.flight.Some? ==> w'.c.hold.Some? && FlightShape(w')
  {
    assert LogOk(w, "");
    SeqsOfNobody(w.c.delivered, w.c.epoch);
  }

  lemma OpenedKeepsLink(w: World)
    requires Safe(w) && Enabled(w, Opened)
    requires forall s :: WireOk(Next(w, Opened), s)
    ensures LinkOk(Next(w, Opened))
  {
    var w' := Next(w, Opened);
    var wire := w'.link.value.wire;
    assert wire[1..] == [] && RepliesFit(wire[1..], w');
  }

  lemma OpenedKeepsSafe(w: World)
    requires Safe(w) && Enabled(w, Opened)
    ensures Safe(Next(w, Opened))
  {
    LogStays(w, Next(w, Opened));
    OpenedKeepsNumbers(w);
    OpenedKeepsClient(w);
    OpenedKeepsShape(w);
    OpenedKeepsLink(w);
  }

  // ------------------------------------------ preservation, frame by frame

  /** The world after the head frame left the wire, before the client acts on it. */
  function Popped(w: World): World
    requires w.link.Some? && w.link.value.wire != []
  {
    w.(link := Some(Link(w.link.value.wire[1..])))
  }

  lemma RestOfWire(w: World)
    requires LinkOk(w) && w.link.Some? && w.link.value.wire != []
    ensures RepliesFit(Popped(w).link.value.wire, Popped(w))
    ensures NoReady(Popped(w).link.value.wire)
  {
    SameReplies(w.link.value.wire[1..], w, Popped(w));
  }

  /** A frame that carries no number leaves every session's wire as it was. */
  lemma PopKeepsSafe(w: World)
    requires Safe(w) && w.link.Some? && w.link.value.wire != []
    requires w.c.epoch == Some(w.epoch)
    requires forall s :: LiveNums(w.link.value.wire, s) == LiveNums(w.link.value.wire[1..], s)
    ensures Safe(Popped(w))
  {
    var rest := Popped(w);
    RestOfWire(w);
    LogStays(w, rest);
    forall s ensures WireOk(rest, s) {
      assert WireOk(w, s);
    }
    if w.flight.Some? {
      forall s | s in w.flight.value.asked ensures HeldOk(rest, s) {
        HeldStays(w, rest, s);
      }
    }
  }

  lemma DeliverReplyKeepsSafe(w: World)
    requires Safe(w) && Enabled(w, Deliver) && w.link.value.wire[0].Reply?
    ensures Safe(Next(w, Deliver))
  {
    var r, rest := w.link.value.wire[0], Popped(w);
    PopKeepsSafe(w);
    if w.flight.Some? && r.sid in w.flight.value.asked && r.sid !in w.flight.value.got {
      assert WireOk(rest, r.sid);
      GotKeepsSafe(rest, Next(w, Deliver), r.sid, Served(r.epoch, r.lo, r.upto));
    }
  }

  /** The greeting: an unchanged identity changes nothing, a new one clears the marks. */
  function GreetedClient(w: World): Client {
    Dispatch(AdoptEpoch(w.c, w.epoch), ReadyEvent(w.epoch))
  }

  lemma UnseenKeepsLog(w: World, w': World, e: Event, s: Session)
    requires LogOk(w, s) && !(Numbered(e) && e.sid == s) && w'.heads == w.heads
    requires w'.c.delivered == w.c.delivered + [Delivery(w.c.epoch, e)] && w'.c.epoch == w.c.epoch
    requires (s in w'.c.lastSeen <==> s in w.c.lastSeen) && Watermark(w'.c, s) == Watermark(w.c, s)
    ensures LogOk(w', s)
  {
  }

  lemma AdoptKeepsLog(w: World, w': World, s: Session)
    requires LogOk(w, s) && ClientOk(w) && w'.c == AdoptEpoch(w.c, w.epoch) && w'.heads == w.heads
    ensures LogOk(w', s)
  {
  }

  lemma ReadyLog(w: World, w': World, s: Session)
    requires LogOk(w, s) && ClientOk(w) && w'.c == GreetedClient(w) && w'.heads == w.heads
    ensures LogOk(w', s)
  {
    var mid := w.(c := AdoptEpoch(w.c, w.epoch));
    AdoptKeepsLog(w, mid, s);
    UnseenKeepsLog(mid, w', ReadyEvent(w.epoch), s);
  }

  lemma ReadyHeld(w: World, w': World, s: Session)
    requires w.flight.Some? && HeldOk(w, s) && w.flight.value.epoch == w.epoch && ClientOk(w)
    requires w'.c == GreetedClient(w) && w'.heads == w.heads && w'.flight == w.flight
    ensures HeldOk(w', s)
  {
  }

  lemma DeliverReadyKeepsSafe(w: World)
    requires Safe(w) && Enabled(w, Deliver) && w.link.value.wire[0].Live?
    requires w.link.value.wire[0].event.kind.Ready?
    ensures Safe(Next(w, Deliver))
  {
    var w' := Popped(w).(c := GreetedClient(w));
    assert Next(w, Deliver) == w';
    RestOfWire(w);
    SameReplies(w'.link.value.wire, Popped(w), w');
    forall s ensures LogOk(w', s) {
      ReadyLog(w, w', s);
    }
    forall s ensures WireOk(w', s) && (HoldsFor(w', s) ==> HeldOk(w', s)) {
      assert WireOk(w, s);
      ReadyWire(w, w', s);
      if HoldsFor(w, s) {
        ReadyHeld(w, w', s);
      }
    }
  }

  lemma ReadyWire(w: World, w': World, s: Session)
    requires w.link.Some? && w.link.value.wire != [] && w.link.value.wire[0] == Live(ReadyEvent(w.epoch))
    requires WireOk(w, s) && ClientOk(w) && w' == Popped(w).(c := GreetedClient(w))
    ensures WireOk(w', s)
  {
  }

  /** A live frame for a parked session joins the end of what is parked. */
  lemma DeliverParkedKeepsSafe(w: World, e: Event)
    requires Safe(w) && Enabled(w, Deliver) && w.link.value.wire[0] == Live(e)
    requires !e.kind.Ready? && Parks(w.c, e)
    ensures Safe(Next(w, Deliver))
  {
    ParkIsNext(w, e);
    ParkedIsSafe(w, e);
  }

  lemma ParkKeepsClient(w: World, w': World)
    requires ClientOk(w) && w.c.hold.Some? && w.link.Some?
    requires w'.c == w.c.(hold := w'.c.hold) && w'.c.hold.Some?
    requires w'.flight == w.flight && w'.heads == w.heads && w'.epoch == w.epoch
    ensures ClientOk(w') && !w'.c.state.Connecting?
  {
  }

  lemma ParkKeepsFlight(w: World, w': World, e: Event)
    requires w.flight.Some? && w.c.hold.Some? && FlightShape(w) && e.sid in w.c.hold.value.parked
    requires w'.flight == w.flight && w'.epoch == w.epoch && (w'.link.Some? <==> w.link.Some?)
    requires w'.c.hold == Some(Park(w.c.hold.value, e))
    requires forall s :: s in w.flight.value.asked ==> HeldOk(w', s)
    ensures FlightOk(w')
  {
    ParkKeepsShape(w, w', e);
  }

  lemma ParkedIsSafe(w: World, e: Event)
    requires Safe(w) && Enabled(w, Deliver) && w.link.value.wire[0] == Live(e)
    requires !e.kind.Ready? && Parks(w.c, e)
    ensures Safe(Popped(w).(c := w.c.(hold := Some(Park(w.c.hold.value, e)))))
  {
    var w' := Popped(w).(c := w.c.(hold := Some(Park(w.c.hold.value, e))));
    LogStays(w, w');
    ParkKeepsNumbers(w, w', e);
    ParkKeepsClient(w, w');
    ParkKeepsFlight(w, w', e);
    ParkKeepsLink(w, w', e);
  }

  lemma ParkIsNext(w: World, e: Event)
    requires Enabled(w, Deliver) && w.link.value.wire[0] == Live(e) && w.c.socket.Some? && !e.kind.Ready? && Parks(w.c, e)
    ensures Next(w, Deliver) == Popped(w).(c := w.c.(hold := Some(Park(w.c.hold.value, e))))
  {
  }

  lemma ParkKeepsLink(w: World, w': World, e: Event)
    requires LinkOk(w) && w.link.Some? && w.link.value.wire != [] && w.link.value.wire[0] == Live(e) && !e.kind.Ready?
    requires w' == Popped(w).(c := w.c.(hold := w'.c.hold))
    requires forall s :: WireOk(w', s)
    ensures LinkOk(w')
  {
    RestOfWire(w);
    SameReplies(w'.link.value.wire, Popped(w), w');
  }

  lemma ParkKeepsNumbers(w: World, w': World, e: Event)
    requires Safe(w) && Enabled(w, Deliver) && w.link.value.wire[0] == Live(e)
    requires Parks(w.c, e) && w' == Popped(w).(c := w.c.(hold := Some(Park(w.c.hold.value, e))))
    requires w.c.epoch == Some(w.epoch)
    ensures forall s :: WireOk(w', s) && (s in w.flight.value.asked ==> HeldOk(w', s))
  {
    forall s ensures WireOk(w', s) && (s in w.flight.value.asked ==> HeldOk(w', s)) {
      assert WireOk(w, s);
      ParkGrows(w, w', e, s);
      ParkOne(w, w', e, s);
    }
  }

  lemma ParkKeepsShape(w: World, w': World, e: Event)
    requires w.flight.Some? && w.c.hold.Some? && FlightShape(w) && e.sid in w.c.hold.value.parked
    requires w'.flight == w.flight && w'.epoch == w.epoch && (w'.link.Some? <==> w.link.Some?)
    requires w'.c.hold == Some(Park(w.c.hold.value, e))
    ensures FlightShape(w')
  {
  }

  lemma ParkGrows(w: World, w': World, e: Event, s: Session)
    requires w.c.hold.Some? && e.sid in w.c.hold.value.parked
    requires w'.c.hold == Some(Park(w.c.hold.value, e))
    ensures Parked(w', s) == Parked(w, s) + (if s == e.sid && Numbered(e) then [e.seqno.n] else [])
  {
  }

  lemma ParkOne(w: World, w': World, e: Event, s: Session)
    requires w.link.Some? && w.link.value.wire != [] && w.link.value.wire[0] == Live(e)
    requires w.flight.Some? && WireOk(w, s) && (s in w.flight.value.asked ==> HeldOk(w, s))
    requires w.c.epoch == Some(w.epoch) && w.flight.value.epoch == w.epoch && e.sid in w.flight.value.asked
    requires w' == Popped(w).(c := w.c.(hold := w'.c.hold))
    requires Parked(w', s) == Parked(w, s) + (if s == e.sid && Numbered(e) then [e.seqno.n] else [])
    ensures WireOk(w', s) && (s in w.flight.value.asked ==> HeldOk(w', s))
  {
    WireHead(w, e, s);
    if s == e.sid && Numbered(e) {
      FirstMoves(LiveNums(w.link.value.wire, s), Head(w, w.epoch, s), Base(w.flight.value, s), Parked(w, s), e.seqno.n);
      OneMoreParked(w, w', s);
    } else {
      NothingParked(w, w', s);
    }
  }

  lemma NothingParked(w: World, w': World, s: Session)
    requires w.link.Some? && w'.link.Some? && w.flight.Some? && WireOk(w, s) && (HoldsFor(w, s) ==> HeldOk(w, s))
    requires w' == w.(c := w.c.(hold := w'.c.hold), link := w'.link)
    requires Parked(w', s) == Parked(w, s) && LiveNums(w'.link.value.wire, s) == LiveNums(w.link.value.wire, s)
    ensures WireOk(w', s) && (HoldsFor(w, s) ==> HeldOk(w', s))
  {
  }

  /** The first number of the wire is the one after the parked ones, and can join them. */
  lemma FirstMoves(nums: seq<int>, head: int, base: int, parked: seq<int>, n: int)
    requires nums != [] && nums[0] == n && nums == Span(head - |nums|, head)
    requires parked == Span(base, base + |parked|) && base + |parked| == head - |nums|
    ensures nums[1..] == Span(head - |nums[1..]|, head)
    ensures parked + [n] == Span(base, base + |parked + [n]|) && base + |parked + [n]| == head - |nums[1..]|
  {
  }

  lemma OneMoreParked(w: World, w': World, s: Session)
    requires w.link.Some? && w'.link.Some? && HoldsFor(w, s) && WireOk(w, s) && HeldOk(w, s)
    requires w' == w.(c := w.c.(hold := w'.c.hold), link := w'.link)
    requires w.c.epoch == Some(w.epoch) && w.flight.value.epoch == w.epoch
    requires var nums, head, base := LiveNums(w'.link.value.wire, s), Head(w, w.epoch, s), Base(w.flight.value, s);
             && |nums| <= head && nums == Span(head - |nums|, head)
             && Parked(w', s) == Span(base, base + |Parked(w', s)|) && base + |Parked(w', s)| == head - |nums|
             && |Parked(w, s)| < |Parked(w', s)|
    ensures WireOk(w', s) && HeldOk(w', s)
  {
  }

  /** A live frame for a session that is not parked goes straight to the handlers. */
  lemma DeliverLiveKeepsSafe(w: World, e: Event)
    requires Safe(w) && Enabled(w, Deliver) && w.link.value.wire[0] == Live(e)
    requires !e.kind.Ready? && !Parks(w.c, e)
    ensures Safe(Next(w, Deliver))
  {
    var w' := Popped(w).(c := Dispatch(RecordSeq(w.c, e), e));
    assert Next(w, Deliver) == w';
    RestOfWire(w);
    SameReplies(w'.link.value.wire, Popped(w), w');
    forall s ensures LogOk(w', s) && WireOk(w', s) && (HoldsFor(w', s) ==> HeldOk(w', s)) {
      assert LogOk(w, s) && WireOk(w, s);
      assert w.flight.Some? ==> w.c.hold.Some?;
      LiveWire(w, w', e, s);
      LiveLog(w, w', e, s);
    }
  }

  /** The head frame's number, if it is one of `s`, is the first of the wire's. */
  lemma WireHead(w: World, e: Event, s: Session)
    requires w.link.Some? && w.link.value.wire != [] && w.link.value.wire[0] == Live(e)
    ensures var nums, rest := LiveNums(w.link.value.wire, s), LiveNums(Popped(w).link.value.wire, s);
            if s == e.sid && Numbered(e) then |nums| > 0 && nums[0] == e.seqno.n && nums[1..] == rest else nums == rest
  {
  }

  /** A frame without a number of `s` leaves the numbers of `s` on the wire alone. */
  lemma SkippedFrame(w: World, e: Event, s: Session)
    requires w.link.Some? && w.link.value.wire != [] && w.link.value.wire[0] == Live(e)
    requires !(Numbered(e) && e.sid == s)
    ensures LiveNums(w.link.value.wire, s) == LiveNums(w.link.value.wire[1..], s)
  {
  }

  lemma LiveWireOwn(w: World, w': World, e: Event)
    requires w.link.Some? && w.link.value.wire != [] && w.link.value.wire[0] == Live(e)
    requires Numbered(e) && WireOk(w, e.sid) && !HoldsFor(w, e.sid) && w.c.epoch == Some(w.epoch)
    requires w' == Popped(w).(c := Dispatch(RecordSeq(w.c, e), e))
    ensures WireOk(w', e.sid)
    ensures Watermark(w.c, e.sid) < e.seqno.n <= Head(w, w.epoch, e.sid) && e.seqno.n >= 1
  {
    WireHead(w, e, e.sid);
    var nums, rest := LiveNums(w.link.value.wire, e.sid), LiveNums(w'.link.value.wire, e.sid);
    assert nums[0] == Head(w, w.epoch, e.sid) - |nums| + 1;
    assert Watermark(w'.c, e.sid) == e.seqno.n;
  }

  lemma LiveWire(w: World, w': World, e: Event, s: Session)
    requires w.link.Some? && w.link.value.wire != [] && w.link.value.wire[0] == Live(e)
    requires WireOk(w, s) && (HoldsFor(w, s) ==> HeldOk(w, s))
    requires w.c.epoch == Some(w.epoch) && !(Numbered(e) && HoldsFor(w, e.sid))
    requires w' == Popped(w).(c := Dispatch(RecordSeq(w.c, e), e))
    ensures WireOk(w', s) && (HoldsFor(w', s) ==> HeldOk(w', s))
    ensures Numbered(e) && e.sid == s ==>
              Watermark(w.c, s) < e.seqno.n <= Head(w, w.epoch, s) && e.seqno.n >= 1
  {
    if Numbered(e) && e.sid == s {
      LiveWireOwn(w, w', e);
    } else {
      LiveWireOther(w, w', e, s);
    }
  }

  lemma LiveWireOther(w: World, w': World, e: Event, s: Session)
    requires w.link.Some? && w.link.value.wire != [] && w.link.value.wire[0] == Live(e) && !(Numbered(e) && e.sid == s)
    requires WireOk(w, s) && (HoldsFor(w, s) ==> HeldOk(w, s)) && w.c.epoch == Some(w.epoch)
    requires w' == Popped(w).(c := Dispatch(RecordSeq(w.c, e), e))
    ensures WireOk(w', s) && (HoldsFor(w', s) ==> HeldOk(w', s))
  {
    SkippedFrame(w, e, s);
    assert Watermark(w'.c, s) == Watermark(w.c, s);
    assert Parked(w', s) == Parked(w, s) && HoldsFor(w', s) == HoldsFor(w, s);
    SameMarkHeld(w, w', s);
  }

  lemma SameMarkHeld(w: World, w': World, s: Session)
    requires HoldsFor(w, s) ==> HeldOk(w, s)
    requires w'.flight == w.flight && w'.heads == w.heads && w'.c.epoch == w.c.epoch
    requires Watermark(w'.c, s) == Watermark(w.c, s) && Parked(w', s) == Parked(w, s)
    ensures HoldsFor(w', s) ==> HeldOk(w', s)
  {
  }

  lemma LiveLog(w: World, w': World, e: Event, s: Session)
    requires LogOk(w, s) && w.c.epoch == Some(w.epoch) && w'.heads == w.heads
    requires Numbered(e) && e.sid == s ==>
               Watermark(w.c, s) < e.seqno.n <= Head(w, w.epoch, s) && e.seqno.n >= 1
    requires w'.c == Dispatch(RecordSeq(w.c, e), e)
    ensures LogOk(w', s)
  {
    if Numbered(e) && e.sid == s {
      LogGrows(w, w', e, s);
    } else {
      UnseenKeepsLog(w, w', e, s);
    }
  }

  lemma LogGrows(w: World, w': World, e: Event, s: Session)
    requires LogOk(w, s) && w.c.epoch == Some(w.epoch) && w'.heads == w.heads
    requires Numbered(e) && e.sid == s
    requires Watermark(w.c, s) < e.seqno.n <= Head(w, w.epoch, s) && e.seqno.n >= 1
    requires w'.c == Dispatch(SetMark(w.c, s, e.seqno.n), e)
    ensures LogOk(w', s)
  {
    var before := Seqs(w.c.delivered, w.c.epoch, s);
    forall x ensures Increasing(Seqs(w'.c.delivered, x, s)) {
      DeliverOne(w.c.delivered, Delivery(w.c.epoch, e), x, s);
      IncreasingSnoc(before, e.seqno.n);
    }
    forall x: Epoch | x > w.epoch ensures Seqs(w'.c.delivered, Some(x), s) == [] {
      DeliverOne(w.c.delivered, Delivery(w.c.epoch, e), Some(x), s);
    }
    DeliverOne(w.c.delivered, Delivery(w.c.epoch, e), w.c.epoch, s);
  }

  lemma IncreasingSnoc(ns: seq<int>, n: int)
    requires Increasing(ns) && (ns != [] ==> ns[|ns| - 1] < n)
    ensures Increasing(ns + [n])
  {
  }

  // ----------------------------------------------- preservation, settling

  /** What one answer replays. */
  function AnswerLog(s: Session, got: map<Session, Got>): seq<Event> {
    if s in got && got[s].Served? then Log(s, got[s].lo, got[s].upto) else []
  }

  /** Everything the fulfilled calls of a replay brought back. */
  function Replayed(order: seq<Session>, got: map<Session, Got>): seq<Event> {
    if order == [] then []
    else
      var s := order[|order| - 1];
      Replayed(order[..|order| - 1], got) + AnswerLog(s, got)
  }

  lemma {:induction false} LogIsTyped(s: Session, lo: int, upto: int)
    ensures Typed(Log(s, lo, upto)) == Log(s, lo, upto)
    decreases upto - lo
  {
    if lo < upto {
      var log := Log(s, lo, upto);
      assert log == Log(s, lo, upto - 1) + [EventAt(s, upto)];
      assert log[..|log| - 1] == Log(s, lo, upto - 1);
      LogIsTyped(s, lo, upto - 1);
    } else {
      assert Log(s, lo, upto) == [];
    }
  }

  lemma {:induction false} LogNums(s: Session, lo: int, upto: int, x: Session)
    requires s != ""
    ensures Nums(Log(s, lo, upto), x) == if x == s then Span(lo, upto) else []
    decreases upto - lo
  {
    if lo < upto {
      var log := Log(s, lo, upto);
      assert log == Log(s, lo, upto - 1) + [EventAt(s, upto)];
      assert log[..|log| - 1] == Log(s, lo, upto - 1);
      LogNums(s, lo, upto - 1, x);
      assert Span(lo, upto) == Span(lo, upto - 1) + [upto];
    } else {
      assert Log(s, lo, upto) == [] && Span(lo, upto) == [];
    }
  }

  lemma {:induction false} AbsorbedIsGated(c: Client, order: seq<Session>, got: map<Session, Got>)
    requires forall s :: s in got && got[s].Served? ==> c.epoch == Some(got[s].epoch)
    ensures AbsorbAll(c, Answers(order, got)) == DispatchAll(c, Replayed(order, got))
  {
    if order != [] {
      var front, s := order[..|order| - 1], order[|order| - 1];
      var answers := Answers(order, got);
      AbsorbedIsGated(c, front, got);
      assert answers[..|answers| - 1] == Answers(front, got);
      var mid := DispatchAll(c, Replayed(front, got));
      if s in got && got[s].Served? {
        LogIsTyped(s, got[s].lo, got[s].upto);
        DispatchAllBySession(c, Replayed(front, got), s);
        DispatchAllConcat(c, Replayed(front, got), Log(s, got[s].lo, got[s].upto));
      } else {
        assert Replayed(front, got) + [] == Replayed(front, got);
      }
    }
  }

  lemma AnswerNums(last: Session, got: map<Session, Got>, s: Session)
    requires last != ""
    ensures Nums(AnswerLog(last, got), s)
            == if last == s && s in got && got[s].Served? then Span(got[s].lo, got[s].upto) else []
  {
    if last in got && got[last].Served? {
      LogNums(last, got[last].lo, got[last].upto, s);
    }
  }

  lemma ReplayedOneMore(front: seq<Session>, last: Session, got: map<Session, Got>, s: Session)
    ensures Nums(Replayed(front + [last], got), s) == Nums(Replayed(front, got), s) + Nums(AnswerLog(last, got), s)
  {
    assert (front + [last])[..|front|] == front;
    NumsConcat(Replayed(front, got), AnswerLog(last, got), s);
  }

  lemma {:induction false} ReplayedNums(order: seq<Session>, got: map<Session, Got>, s: Session)
    requires Distinct(order) && "" !in order
    ensures Nums(Replayed(order, got), s)
            == if s in order && s in got && got[s].Served? then Span(got[s].lo, got[s].upto) else []
    decreases |order|
  {
    if order != [] {
      var front, last := order[..|order| - 1], order[|order| - 1];
      assert order == front + [last] && last !in front && Distinct(front);
      ReplayedNums(front, got, s);
      AnswerNums(last, got, s);
      ReplayedOneMore(front, last, got, s);
    }
  }

  /** What the settling replay hands to the gate for session `s`. */
  ghost function Brought(w: World, s: Session): seq<int>
    requires w.flight.Some?
  {
    var f := w.flight.value;
    if s in f.asked then
      (if s in f.got && f.got[s].Served? then Span(f.got[s].lo, f.got[s].upto) else []) + Parked(w, s)
    else []
  }

  lemma SettleBySession(w: World, s: Session)
    requires ClientOk(w) && w.flight.Some? && FlightOk(w)
    ensures Released(w.c.(hold := None, inFlight := false), Settled(w), Brought(w, s), s)
  {
    var f, h := w.flight.value, w.c.hold.value;
    forall x | x in f.got && f.got[x].Served? ensures w.c.epoch == Some(f.got[x].epoch) {
      assert HeldOk(w, x);
    }
    AbsorbedIsGated(w.c, f.order, f.got);
    var replayed, parked := Replayed(f.order, f.got), ParkedInOrder(h.order, h.parked);
    DispatchAllBySession(w.c, replayed, s);
    DispatchAllIgnoresHold(w.c, replayed, None);
    DispatchAllConcat(w.c.(hold := None), replayed, parked);
    var c0 := w.c.(hold := None);
    DispatchAllBySession(c0, replayed + parked, s);
    NumsConcat(replayed, parked, s);
    ReplayedNums(f.order, f.got, s);
    ParkedNums(h.order, h.parked, s);
  }

  ghost function Settled(w: World): Client
    requires w.flight.Some?
  {
    ResumeReplay(w.c, w.c.generation, Answers(w.flight.value.order, w.flight.value.got))
  }

  /** Nothing a replay brings back lies beyond what was parked, or in another log. */
  lemma BroughtWithin(w: World, s: Session)
    requires HoldsFor(w, s) && HeldOk(w, s)
    ensures forall n :: n in Brought(w, s) ==>
                          n <= Base(w.flight.value, s) + |Parked(w, s)| && w.c.epoch == Some(w.flight.value.epoch)
  {
  }

  /** Gated release keeps a session's log: increasing, inside the server's, up to the mark. */
  lemma GateKeepsLog(w: World, w': World, ns: seq<int>, s: Session)
    requires LogOk(w, s) && w'.heads == w.heads && (w.c.epoch.None? ==> ns == [])
    requires Released(w.c.(hold := None, inFlight := false), w'.c, ns, s)
    requires forall n :: n in ns ==> n <= Head(w, w.c.epoch.GetOr(0), s)
    ensures LogOk(w', s)
  {
    GateKeepsOrder(w, w', ns, s);
    GateKeepsCurrent(w, w', ns, s);
    GateKeepsFuture(w, w', ns, s);
  }

  lemma GateKeepsOrder(w: World, w': World, ns: seq<int>, s: Session)
    requires CurrentOk(w, s) && forall e :: Increasing(Seqs(w.c.delivered, e, s))
    requires Released(w.c.(hold := None, inFlight := false), w'.c, ns, s)
    ensures forall e :: Increasing(Seqs(w'.c.delivered, e, s))
  {
    var m := Watermark(w.c, s);
    GateIncreases(m, ns);
    IncreasingConcat(Seqs(w.c.delivered, w.c.epoch, s), Accepted(m, ns));
    forall e ensures Increasing(Seqs(w'.c.delivered, e, s)) {
      if e != w.c.epoch {
        assert Seqs(w'.c.delivered, e, s) == Seqs(w.c.delivered, e, s);
      }
    }
  }

  lemma GateKeepsFuture(w: World, w': World, ns: seq<int>, s: Session)
    requires FutureEmpty(w.c, s) && (w.c.epoch.None? ==> ns == [])
    requires Released(w.c.(hold := None, inFlight := false), w'.c, ns, s)
    ensures FutureEmpty(w'.c, s)
  {
    forall e: Epoch | w.c.epoch.None? || e > w.c.epoch.value ensures Seqs(w'.c.delivered, Some(e), s) == [] {
      assert Seqs(w.c.delivered, Some(e), s) == [];
      assert Seqs(w'.c.delivered, Some(e), s) == Seqs(w.c.delivered, Some(e), s);
    }
  }

  lemma GateKeepsCurrent(w: World, w': World, ns: seq<int>, s: Session)
    requires CurrentOk(w, s) && w'.heads == w.heads
    requires Released(w.c.(hold := None, inFlight := false), w'.c, ns, s)
    requires forall n :: n in ns ==> n <= Head(w, w.c.epoch.GetOr(0), s)
    ensures CurrentOk(w', s)
  {
    var before, m := Seqs(w.c.delivered, w.c.epoch, s), Watermark(w.c, s);
    assert w'.c.epoch == w.c.epoch && Head(w', w'.c.epoch.GetOr(0), s) == Head(w, w.c.epoch.GetOr(0), s);
    assert s !in w.c.lastSeen ==> m == 0;
    GateExtends(before, m, ns, Head(w, w.c.epoch.GetOr(0), s));
    assert Seqs(w'.c.delivered, w'.c.epoch, s) == before + Accepted(m, ns);
  }

  /** What a gate adds to a record that ends at its mark ends at the new mark. */
  lemma GateExtends(before: seq<int>, m: int, ns: seq<int>, head: int)
    requires if before == [] then m == 0 else before[|before| - 1] == m && 1 <= m <= head
    requires forall n :: n in ns ==> n <= head
    ensures var after := before + Accepted(m, ns);
            after != [] ==> after[|after| - 1] == Top(m, ns) && 1 <= Top(m, ns) <= head
  {
    GateIncreases(m, ns);
  }

  lemma SettleOne(w: World, w': World, s: Session)
    requires ClientOk(w) && LogOk(w, s) && (HoldsFor(w, s) ==> HeldOk(w, s)) && w.flight.Some?
    requires Released(w.c.(hold := None, inFlight := false), w'.c, Brought(w, s), s) && w'.heads == w.heads
    ensures LogOk(w', s)
    ensures !HoldsFor(w, s) ==> Watermark(w'.c, s) == Watermark(w.c, s)
    ensures HoldsFor(w, s) ==>
              Mark(w'.c, w.flight.value.epoch, s) <= Base(w.flight.value, s) + |Parked(w, s)|
  {
    GateIncreases(Watermark(w.c, s), Brought(w, s));
    if HoldsFor(w, s) {
      BroughtWithin(w, s);
    }
    GateKeepsLog(w, w', Brought(w, s), s);
  }

  lemma IncreasingConcat(a: seq<int>, b: seq<int>)
    requires Increasing(a) && Increasing(b)
    requires a != [] && b != [] ==> a[|a| - 1] < b[0]
    ensures Increasing(a + b)
  {
  }

  lemma SettleKeepsSession(w: World, w': World, s: Session)
    requires Safe(w) && w.flight.Some? && w' == w.(c := Settled(w), flight := None)
    ensures LogOk(w', s) && (w.link.Some? ==> WireOk(w', s))
  {
    assert LogOk(w, s) && (w.link.Some? ==> WireOk(w, s));
    SettleBySession(w, s);
    SettleOne(w, w', s);
    if w.link.Some? {
      SettleWire(w, w', s);
    }
  }

  lemma SettleKeepsSessions(w: World, w': World)
    requires Safe(w) && w.flight.Some? && w' == w.(c := Settled(w), flight := None)
    ensures forall s :: LogOk(w', s)
    ensures w.link.Some? ==> forall s :: WireOk(w', s)
  {
    forall s ensures LogOk(w', s) && (w.link.Some? ==> WireOk(w', s)) {
      SettleKeepsSession(w, w', s);
    }
  }

  /** Settling touches the record, the hold and the flag; and no record without an epoch. */
  lemma SettleKeepsClient(w: World)
    requires ClientOk(w) && w.flight.Some? && FlightOk(w)
    ensures var c := Settled(w);
            && c == w.c.(lastSeen := c.lastSeen, sessions := c.sessions, delivered := c.delivered,
                         hold := None, inFlight := false)
            && SessionsListed(c)
            && (c.epoch.None? ==> c.lastSeen == map[])
  {
    SettleKeepsList(w);
    SettleBySession(w, "");
    if w.c.epoch.None? {
      forall s ensures s !in Settled(w).lastSeen {
        SettleBySession(w, s);
        if HoldsFor(w, s) {
          BroughtWithin(w, s);
          assert Brought(w, s) == [];
        }
      }
    }
  }

  lemma SettleKeepsSafe(w: World)
    requires Safe(w) && Enabled(w, Settle)
    ensures Safe(Next(w, Settle))
  {
    var w' := w.(c := Settled(w), flight := None);
    assert Next(w, Settle) == w';
    SettleKeepsClient(w);
    SettleKeepsSessions(w, w');
    if w.link.Some? {
      SameReplies(w.link.value.wire, w, w');
    }
  }

  lemma SettleWire(w: World, w': World, s: Session)
    requires w.link.Some? && w.flight.Some? && WireOk(w, s) && w.flight.value.epoch == w.epoch
    requires w'.link == w.link && w'.epoch == w.epoch && w'.heads == w.heads && w'.flight.None?
    requires w'.c.epoch == w.c.epoch
    requires !HoldsFor(w, s) ==> Watermark(w'.c, s) == Watermark(w.c, s)
    requires HoldsFor(w, s) ==>
               Mark(w'.c, w.flight.value.epoch, s) <= Base(w.flight.value, s) + |Parked(w, s)|
    ensures WireOk(w', s)
  {
  }

  lemma SettleKeepsList(w: World)
    requires ClientOk(w) && w.flight.Some? && FlightOk(w)
    ensures SessionsListed(Settled(w))
  {
    var f, h := w.flight.value, w.c.hold.value;
    forall x | x in f.got && f.got[x].Served? ensures w.c.epoch == Some(f.got[x].epoch) {
      assert HeldOk(w, x);
    }
    AbsorbedIsGated(w.c, f.order, f.got);
    DispatchAllKeepsList(w.c, Replayed(f.order, f.got));
    DispatchAllBySession(w.c, Replayed(f.order, f.got), "");
    DispatchAllKeepsList(AbsorbAll(w.c, Answers(f.order, f.got)).(hold := None), ParkedInOrder(h.order, h.parked));
  }

  lemma StepKeepsSafe(w: World, a: Action)
    requires Safe(w) && Enabled(w, a) && Harmless(w, a)
    ensures Safe(Next(w, a))
  {
    match a
    case Emit(s) => EmitKeepsSafe(w, s);
    case Notice(e) => NoticeKeepsSafe(w, e);
    case Dial => SocketLossKeepsSafe(w, a);
    case Opened => OpenedKeepsSafe(w);
    case DialFailed(_) => SocketLossKeepsSafe(w, a);
    case Closing => SocketLossKeepsSafe(w, a);
    case Dropped => DroppedKeepsSafe(w);
    case Cut => SocketLossKeepsSafe(w, a);
    case Restart => SocketLossKeepsSafe(w, a);
    case Serve(s, from) => ServeKeepsSafe(w, s, from);
    case Deliver => DeliverKeepsSafe(w);
    case Expire(s) => ExpireKeepsSafe(w, s);
    case Settle => SettleKeepsSafe(w);
    case SettleStale(_, _) =>
  }

  lemma DeliverKeepsSafe(w: World)
    requires Safe(w) && Enabled(w, Deliver)
    ensures Safe(Next(w, Deliver))
  {
    match w.link.value.wire[0]
    case Reply(_, _, _, _) => DeliverReplyKeepsSafe(w);
    case Live(e) =>
      if e.kind.Ready? {
        DeliverReadyKeepsSafe(w);
      } else if Parks(w.c, e) {
        DeliverParkedKeepsSafe(w, e);
      } else {
        DeliverLiveKeepsSafe(w, e);
      }
  }

  lemma InitIsSafe(w: World)
    requires Init(w)
    ensures Safe(w)
  {
  }

  lemma {:induction false} RunKeepsSafe(w: World, actions: seq<Action>)
    requires Safe(w) && Follows(w, actions)
    ensures Safe(Run(w, actions))
    decreases |actions|
  {
    if actions != [] {
      StepKeepsSafe(w, actions[0]);
      RunKeepsSafe(Next(w, actions[0]), actions[1..]);
    }
  }

  /**
   * In every run, whatever is dropped, raced, lost or restarted, and whatever is
   * dialled over while its replay has brought nothing, what the handlers see of
   * one session within one server epoch only ever goes up.
   */
  lemma {:induction false} EverySessionIncreases(w: World, actions: seq<Action>, epoch: Option<Epoch>, s: Session)
    requires Init(w) && Follows(w, actions)
    ensures Increasing(Seqs(Run(w, actions).c.delivered, epoch, s))
  {
    InitIsSafe(w);
    RunKeepsSafe(w, actions);
    assert LogOk(Run(w, actions), s);
  }
}
