/**
 * The replay half of the gateway client: a watermark per session, a hold that
 * parks live frames while the gap is being fetched, a generation that fences an
 * interrupted fetch, and the server epoch that gives the numbers their meaning.
 *
 * `Client` and the functions on it say what each handler does to the whole
 * state; `JsonRpcGatewayClient` is the object that does it field by field.
 */
module ReplayClient {
  import opened Prelude

  /** `""` stands for an event that names no session. */
  type Session = string

  /** The server's opaque process identity; only equality is ever asked of it. */
  type Epoch = nat

  /** JSON can spell a number too large to be finite, and the code asks. */
  datatype Seqno = Unnumbered | NotFinite | Seq(n: int)

  datatype Kind = Untyped | Ready | Named

  datatype Event = Event(kind: Kind, epoch: Option<Epoch>, sid: Session, seqno: Seqno)

  datatype SocketState = Idle | Connecting | Open | Closed | Failed

  /** Frames parked per session; `order` is the insertion order of the map. */
  datatype Hold = Hold(order: seq<Session>, parked: map<Session, seq<Event>>)

  /** One call of the event handlers, with the epoch the client was in. */
  datatype Delivery = Delivery(epoch: Option<Epoch>, event: Event)

  /** How one `session.events.since` call settled. */
  datatype Answer = Rejected | Fulfilled(epoch: Option<Epoch>, events: seq<Event>)

  datatype Client = Client(
    replay: bool,
    lastSeen: map<Session, int>,
    sessions: seq<Session>,
    inFlight: bool,
    generation: nat,
    hold: Option<Hold>,
    epoch: Option<Epoch>,
    socket: Option<nat>,
    state: SocketState,
    delivered: seq<Delivery>)

  predicate Numbered(e: Event) {
    e.sid != "" && e.seqno.Seq?
  }

  function Watermark(c: Client, s: Session): int {
    if s in c.lastSeen then c.lastSeen[s] else 0
  }

  function SetMark(c: Client, s: Session, n: int): Client {
    c.(lastSeen := c.lastSeen[s := n],
       sessions := if s in c.lastSeen then c.sessions else c.sessions + [s])
  }

  function Dispatch(c: Client, e: Event): Client {
    c.(delivered := c.delivered + [Delivery(c.epoch, e)])
  }

  function RecordSeq(c: Client, e: Event): Client {
    if Numbered(e) && e.seqno.n > Watermark(c, e.sid) then SetMark(c, e.sid, e.seqno.n) else c
  }

  function DispatchIfNewer(c: Client, e: Event): Client {
    if !Numbered(e) then Dispatch(c, e)
    else if e.seqno.n <= Watermark(c, e.sid) then c
    else Dispatch(SetMark(c, e.sid, e.seqno.n), e)
  }

  function DispatchAll(c: Client, es: seq<Event>): Client {
    if es == [] then c
    else DispatchIfNewer(DispatchAll(c, es[..|es| - 1]), es[|es| - 1])
  }

  function AdoptEpoch(c: Client, epoch: Epoch): Client {
    if c.epoch == Some(epoch) then c
    else if c.epoch.None? then c.(epoch := Some(epoch))
    else c.(epoch := Some(epoch), lastSeen := map[], sessions := [])
  }

  predicate Parks(c: Client, e: Event) {
    c.hold.Some? && e.sid != "" && !e.seqno.Unnumbered? && e.sid in c.hold.value.parked
  }

  function Park(h: Hold, e: Event): Hold
    requires e.sid in h.parked
  {
    h.(parked := h.parked[e.sid := h.parked[e.sid] + [e]])
  }

  function HandleEvent(c: Client, e: Event): Client {
    var greeted := if e.kind.Ready? && e.epoch.Some? then AdoptEpoch(c, e.epoch.value) else c;
    if Parks(greeted, e) then greeted.(hold := Some(Park(greeted.hold.value, e)))
    else Dispatch(RecordSeq(greeted, e), e)
  }

  function StartReplay(c: Client): Client {
    if !c.replay || c.inFlight || c.lastSeen == map[] then c
    else c.(inFlight := true,
            generation := c.generation + 1,
            hold := Some(Hold(c.sessions, map s | s in c.lastSeen :: [])))
  }

  function Typed(es: seq<Event>): seq<Event> {
    if es == [] then []
    else
      var front := Typed(es[..|es| - 1]);
      if es[|es| - 1].kind.Untyped? then front else front + [es[|es| - 1]]
  }

  function Absorb(c: Client, a: Answer): Client {
    match a
    case Rejected => c
    case Fulfilled(epoch, events) =>
      if epoch.Some? && c.epoch.Some? && epoch != c.epoch then AdoptEpoch(c, epoch.value)
      else
        var named := if epoch.Some? && c.epoch.None? then c.(epoch := epoch) else c;
        DispatchAll(named, Typed(events))
  }

  function AbsorbAll(c: Client, answers: seq<Answer>): Client {
    if answers == [] then c
    else Absorb(AbsorbAll(c, answers[..|answers| - 1]), answers[|answers| - 1])
  }

  function ParkedInOrder(order: seq<Session>, parked: map<Session, seq<Event>>): seq<Event> {
    if order == [] then []
    else
      var last := order[|order| - 1];
      ParkedInOrder(order[..|order| - 1], parked) + (if last in parked then parked[last] else [])
  }

  function FlushHold(c: Client): Client {
    match c.hold
    case None => c
    case Some(h) => DispatchAll(c.(hold := None), ParkedInOrder(h.order, h.parked))
  }

  /** The continuation of a replay that was started as `generation`. */
  function ResumeReplay(c: Client, generation: nat, answers: seq<Answer>): Client {
    if c.generation != generation then c
    else FlushHold(AbsorbAll(c, answers)).(inFlight := false)
  }

  function DropSocket(c: Client): Client {
    c.(generation := c.generation + 1, inFlight := false, hold := None, socket := None, state := Closed)
  }

  /** `live` is whether the bound socket still reports itself open. */
  function Connect(c: Client, id: nat, live: bool): Client {
    if (c.socket.Some? && live) || c.state.Connecting? then c
    else c.(state := Connecting, socket := Some(id))
  }

  function OnOpen(c: Client, socket: nat): Client {
    if c.socket != Some(socket) then c else StartReplay(c.(state := Open))
  }

  function OnError(c: Client, socket: nat): Client {
    if c.socket != Some(socket) then c else c.(state := Failed)
  }

  function OnConnectTimeout(c: Client, socket: nat): Client {
    if c.socket != Some(socket) then c else c.(socket := None, state := Failed)
  }

  function OnClose(c: Client, socket: nat): Client {
    if c.socket != Some(socket) then c else DropSocket(c)
  }

  function OnMessage(c: Client, socket: nat, e: Event): Client {
    if c.socket != Some(socket) then c else HandleEvent(c, e)
  }

  lemma DispatchOneMore(c: Client, done: seq<Event>, frames: seq<Event>, j: nat)
    requires j < |frames|
    ensures DispatchAll(c, done + frames[..j + 1]) == DispatchIfNewer(DispatchAll(c, done + frames[..j]), frames[j])
  {
    var more := done + frames[..j + 1];
    assert more == (done + frames[..j]) + [frames[j]];
    assert more[..|more| - 1] == done + frames[..j];
  }

  lemma ParkedOneMore(order: seq<Session>, parked: map<Session, seq<Event>>, i: nat)
    requires i < |order|
    ensures ParkedInOrder(order[..i + 1], parked) ==
            ParkedInOrder(order[..i], parked) + (if order[i] in parked then parked[order[i]] else [])
  {
    assert order[..i + 1][..i] == order[..i];
  }

  class JsonRpcGatewayClient {
    const replay: bool
    var lastSeenSeq: map<Session, int>
    var sessions: seq<Session>
    var replayInFlight: bool
    var replayGeneration: nat
    var replayHold: Option<Hold>
    var replayEpoch: Option<Epoch>
    var socket: Option<nat>
    var state: SocketState
    ghost var delivered: seq<Delivery>

    ghost function Model(): Client
      reads this
    {
      Client(replay, lastSeenSeq, sessions, replayInFlight, replayGeneration, replayHold,
             replayEpoch, socket, state, delivered)
    }

    constructor (replay: bool)
      ensures Model() == Client(replay, map[], [], false, 0, None, None, None, Idle, [])
    {
      this.replay := replay;
      lastSeenSeq, sessions := map[], [];
      replayInFlight, replayGeneration, replayHold, replayEpoch := false, 0, None, None;
      socket, state, delivered := None, Idle, [];
    }

    method SetSeq(s: Session, n: int)
      modifies this
      ensures Model() == SetMark(old(Model()), s, n)
    {
      if s !in lastSeenSeq {
        sessions := sessions + [s];
      }
      lastSeenSeq := lastSeenSeq[s := n];
    }

    method DispatchEvent(e: Event)
      modifies this
      ensures Model() == Dispatch(old(Model()), e)
    {
      delivered := delivered + [Delivery(replayEpoch, e)];
    }

    method Record(e: Event)
      modifies this
      ensures Model() == RecordSeq(old(Model()), e)
    {
      if e.sid == "" || !e.seqno.Seq? {
        return;
      }
      var prev := if e.sid in lastSeenSeq then lastSeenSeq[e.sid] else 0;
      if e.seqno.n > prev {
        SetSeq(e.sid, e.seqno.n);
      }
    }

    method DispatchNewer(e: Event)
      modifies this
      ensures Model() == DispatchIfNewer(old(Model()), e)
    {
      if e.sid != "" && e.seqno.Seq? {
        var prev := if e.sid in lastSeenSeq then lastSeenSeq[e.sid] else 0;
        if e.seqno.n <= prev {
          return;
        }
        SetSeq(e.sid, e.seqno.n);
      }
      DispatchEvent(e);
    }

    method AdoptReplayEpoch(epoch: Epoch)
      modifies this
      ensures Model() == AdoptEpoch(old(Model()), epoch)
    {
      if replayEpoch == Some(epoch) {
        return;
      }
      if replayEpoch != None {
        lastSeenSeq, sessions := map[], [];
      }
      replayEpoch := Some(epoch);
    }

    method Handle(e: Event)
      modifies this
      ensures Model() == HandleEvent(old(Model()), e)
    {
      if e.kind.Ready? && e.epoch.Some? {
        AdoptReplayEpoch(e.epoch.value);
      }
      if replayHold.Some? && e.sid != "" && !e.seqno.Unnumbered? && e.sid in replayHold.value.parked {
        replayHold := Some(Park(replayHold.value, e));
        return;
      }
      Record(e);
      DispatchEvent(e);
    }

    /** The part of `fetchReplay` before its requests go out. */
    method BeginReplay() returns (asked: map<Session, int>)
      modifies this
      ensures Model() == StartReplay(old(Model()))
      ensures asked == if replayGeneration != old(replayGeneration) then lastSeenSeq else map[]
    {
      if !replay || replayInFlight || lastSeenSeq == map[] {
        return map[];
      }
      replayInFlight := true;
      replayGeneration := replayGeneration + 1;
      replayHold := Some(Hold(sessions, map s | s in lastSeenSeq :: []));
      asked := lastSeenSeq;
    }

    /** The part of `fetchReplay` that runs once every request has settled. */
    method FinishReplay(generation: nat, answers: seq<Answer>)
      modifies this
      ensures Model() == ResumeReplay(old(Model()), generation, answers)
    {
      if replayGeneration != generation {
        return;
      }
      var i := 0;
      while i < |answers|
        invariant 0 <= i <= |answers|
        invariant Model() == AbsorbAll(old(Model()), answers[..i])
      {
        AbsorbOne(answers[i]);
        assert answers[..i + 1][..i] == answers[..i];
        i := i + 1;
      }
      assert answers[..|answers|] == answers;
      FlushReplayHold();
      replayInFlight := false;
    }

    method AbsorbOne(a: Answer)
      modifies this
      ensures Model() == Absorb(old(Model()), a)
    {
      if a.Rejected? {
        return;
      }
      if a.epoch.Some? && replayEpoch.Some? && a.epoch != replayEpoch {
        AdoptReplayEpoch(a.epoch.value);
        return;
      }
      if a.epoch.Some? && replayEpoch.None? {
        replayEpoch := a.epoch;
      }
      ghost var named := Model();
      var i := 0;
      while i < |a.events|
        invariant 0 <= i <= |a.events|
        invariant Model() == DispatchAll(named, Typed(a.events[..i]))
      {
        assert a.events[..i + 1][..i] == a.events[..i];
        if !a.events[i].kind.Untyped? {
          ghost var done := Typed(a.events[..i]);
          assert (done + [a.events[i]])[..|done|] == done;
          DispatchNewer(a.events[i]);
        }
        i := i + 1;
      }
      assert a.events[..|a.events|] == a.events;
    }

    method FlushReplayHold()
      modifies this
      ensures Model() == FlushHold(old(Model()))
    {
      var hold := replayHold;
      replayHold := None;
      if hold.None? {
        return;
      }
      ghost var released := Model();
      var order, parked := hold.value.order, hold.value.parked;
      var i := 0;
      while i < |order|
        invariant 0 <= i <= |order|
        invariant Model() == DispatchAll(released, ParkedInOrder(order[..i], parked))
      {
        ParkedOneMore(order, parked, i);
        var frames := if order[i] in parked then parked[order[i]] else [];
        DispatchEach(frames, released, ParkedInOrder(order[..i], parked));
        i := i + 1;
      }
      assert order[..|order|] == order;
    }

    /** Seq-gated release of `frames`, after `done` was released the same way. */
    method DispatchEach(frames: seq<Event>, ghost start: Client, ghost done: seq<Event>)
      requires Model() == DispatchAll(start, done)
      modifies this
      ensures Model() == DispatchAll(start, done + frames)
    {
      assert done + frames[..0] == done;
      var j := 0;
      while j < |frames|
        invariant 0 <= j <= |frames|
        invariant Model() == DispatchAll(start, done + frames[..j])
      {
        DispatchOneMore(start, done, frames, j);
        DispatchNewer(frames[j]);
        j := j + 1;
      }
      assert frames[..|frames|] == frames;
    }

    method Drop()
      modifies this
      ensures Model() == DropSocket(old(Model()))
    {
      replayGeneration := replayGeneration + 1;
      replayInFlight := false;
      replayHold := None;
      socket := None;
      state := Closed;
    }

    /** `close()` and `invalidate()`. */
    method Invalidate()
      modifies this
      ensures Model() == if old(socket).None? then old(Model()) else DropSocket(old(Model()))
    {
      if socket.None? {
        return;
      }
      Drop();
    }

    method Dial(id: nat, live: bool)
      modifies this
      ensures Model() == Connect(old(Model()), id, live)
    {
      if (socket.Some? && live) || state.Connecting? {
        return;
      }
      state := Connecting;
      socket := Some(id);
    }

    method SocketOpened(k: nat) returns (asked: map<Session, int>)
      modifies this
      ensures Model() == OnOpen(old(Model()), k)
    {
      asked := map[];
      if socket != Some(k) {
        return;
      }
      state := Open;
      asked := BeginReplay();
    }

    method SocketErrored(k: nat)
      modifies this
      ensures Model() == OnError(old(Model()), k)
    {
      if socket != Some(k) {
        return;
      }
      state := Failed;
    }

    method ConnectTimedOut(k: nat)
      modifies this
      ensures Model() == OnConnectTimeout(old(Model()), k)
    {
      if socket == Some(k) {
        socket := None;
        state := Failed;
      }
    }

    method SocketClosed(k: nat)
      modifies this
      ensures Model() == OnClose(old(Model()), k)
    {
      if socket != Some(k) {
        return;
      }
      Drop();
    }

    method MessageArrived(k: nat, e: Event)
      modifies this
      ensures Model() == OnMessage(old(Model()), k, e)
    {
      if socket != Some(k) {
        return;
      }
      Handle(e);
    }
  }
}
