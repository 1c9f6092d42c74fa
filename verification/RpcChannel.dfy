/**
 * The JSON-RPC request channel: pending calls, server requests that are answered
 * once, and a heartbeat with a bounded set of pings.
 *
 * What a handler of a server request does while it is called arrives with the
 * event, as do the clock and whether a send throws. Frames are already decoded.
 */
module RpcChannel {
  import opened Prelude
  import opened Decimal

  datatype Id = Text(text: string) | Number(number: real)

  datatype Settlement = Resolved | Refused | TimedOut | Aborted | SendFailed | Dropped | NotConnected

  /** One call of `request`, and whether a timer and an abort listener hang on it. */
  datatype Call = Call(number: nat, timed: bool, abortable: bool)

  datatype Reply = Result | Failure(code: int)

  const METHOD_NOT_FOUND := -32601
  const INTERNAL_ERROR := -32603
  const MAX_OUTSTANDING_PINGS := 8

  /** What a handler does with a request: the answers it gives at once, and how it returns. */
  datatype Verdict = Accepts | Declines | Throws

  datatype Reaction = Reaction(answers: seq<Reply>, verdict: Verdict)

  /** One delivery of a server request, and whether it was answered. */
  datatype Delivery = Delivery(id: string, settled: bool)

  datatype Sent = Request(number: nat, under: Id) | Ping(ping: string) | Answer(delivery: nat, to: string, reply: Reply)

  datatype Options = Options(prefix: string, timed: bool, anyInbound: bool, intervalMs: int, deadlineMs: int)

  datatype Channel = Channel(
    options: Options,
    nextId: nat, pending: map<Id, Call>, transport: Option<nat>,
    heartbeat: Option<nat>, sequence: nat, pings: seq<string>, lastLivenessAt: int,
    handlers: seq<nat>,
    issued: nat, settled: map<nat, Settlement>, deliveries: seq<Delivery>, wire: seq<Sent>)

  datatype Signal = NoSignal | Armed | AlreadyAborted

  /** A delivered request's handlers, one reaction for each in order; `sends` says whether the transport takes the answer. */
  datatype Handling = Handling(reactions: seq<Reaction>, sends: bool)

  datatype Frame =
    | ServerRequest(asked: string, handling: Handling)
    | Response(id: Id, error: bool, open: seq<(string, Handling)>)
    | Event(ready: bool, sends: bool)
    | Unreadable
    | Ignored

  datatype Action =
    | Attach(transport: nat, now: int) | Detach
    | Issue(timed: bool, signal: Signal, sends: bool) | TimerFires(id: Id, number: nat) | AbortFires(id: Id, number: nat)
    | Receive(frame: Frame, now: int) | Redeliver(asked: string, handling: Handling) | LateAnswer(delivery: nat, reply: Reply, sends: bool)
    | StartHeartbeat(now: int) | Tick(now: int, sends: bool) | StopHeartbeat
    | OnRequest(handler: nat) | OffRequest(handler: nat)

  function Idle(options: Options): Channel {
    Channel(options, 0, map[], None, None, 0, [], 0, [], 0, map[], [], [])
  }

  function RequestId(prefix: string, n: nat): Id {
    Text(prefix + Numeral(n))
  }

  // ---------------------------------------------------------------- calls

  function Settle(c: Channel, number: nat, how: Settlement): Channel {
    c.(settled := c.settled[number := how])
  }

  /** `request`: the call is rejected at once, or pends under a new id. */
  function IssueCall(c: Channel, timed: bool, signal: Signal, sends: bool): Channel {
    var number, counted := c.issued, c.(issued := c.issued + 1);
    if c.transport.None? then Settle(counted, number, NotConnected)
    else if signal.AlreadyAborted? then Settle(counted, number, Aborted)
    else
      var id := RequestId(c.options.prefix, c.nextId + 1);
      var numbered := counted.(nextId := c.nextId + 1);
      if sends then
        numbered.(pending := c.pending[id := Call(number, timed, signal.Armed?)], wire := c.wire + [Request(number, id)])
      else Settle(numbered.(pending := c.pending - {id}), number, SendFailed)
  }

  function SettlePending(c: Channel, id: Id, how: Settlement): Channel
    requires id in c.pending
  {
    Settle(c.(pending := c.pending - {id}), c.pending[id].number, how)
  }

  /** A call's timer and abort listener go with its pending entry, so they only ever find their own. */
  predicate Pends(c: Channel, id: Id, number: nat) {
    id in c.pending && c.pending[id].number == number
  }

  function FireTimer(c: Channel, id: Id, number: nat): Channel {
    if Pends(c, id, number) && c.pending[id].timed then SettlePending(c, id, TimedOut) else c
  }

  function FireAbort(c: Channel, id: Id, number: nat): Channel {
    if Pends(c, id, number) && c.pending[id].abortable then SettlePending(c, id, Aborted) else c
  }

  function Numbers(pending: map<Id, Call>): (numbers: set<nat>)
    ensures forall n :: n in numbers <==> exists id :: id in pending && pending[id].number == n
  {
    set id | id in pending :: pending[id].number
  }

  function RejectAll(c: Channel): Channel {
    c.(pending := map[], settled := c.settled + (map n | n in Numbers(c.pending) :: Dropped))
  }

  // ------------------------------------------------------- server requests

  /** `send` of one delivery: the first answer wins, and a lost transport swallows it. */
  function Answered(c: Channel, d: nat, reply: Reply, sends: bool): (after: Channel)
    ensures after == c.(deliveries := after.deliveries, wire := after.wire)
  {
    if d >= |c.deliveries| || c.deliveries[d].settled then c
    else
      var settled := c.(deliveries := c.deliveries[d := c.deliveries[d].(settled := true)]);
      if c.transport.Some? && sends then settled.(wire := c.wire + [Answer(d, c.deliveries[d].id, reply)]) else settled
  }

  function AnsweredAll(c: Channel, d: nat, replies: seq<Reply>, sends: bool): (after: Channel)
    ensures after == c.(deliveries := after.deliveries, wire := after.wire)
    decreases |replies|
  {
    if replies == [] then c
    else Answered(AnsweredAll(c, d, replies[..|replies| - 1], sends), d, replies[|replies| - 1], sends)
  }

  function ReactionAt(h: Handling, i: nat): Reaction {
    if i < |h.reactions| then h.reactions[i] else Reaction([], Declines)
  }

  /** The handlers from `i` on are tried in order until one does not decline. */
  function Offered(c: Channel, d: nat, h: Handling, i: nat): (after: Channel)
    ensures after == c.(deliveries := after.deliveries, wire := after.wire)
    decreases |c.handlers| - i
  {
    if i >= |c.handlers| then Answered(c, d, Failure(METHOD_NOT_FOUND), h.sends)
    else
      var told := AnsweredAll(c, d, ReactionAt(h, i).answers, h.sends);
      match ReactionAt(h, i).verdict
      case Accepts => told
      case Throws => Answered(told, d, Failure(INTERNAL_ERROR), h.sends)
      case Declines => Offered(told, d, h, i + 1)
  }

  function Deliver(c: Channel, id: string, h: Handling): (after: Channel)
    ensures after == c.(deliveries := after.deliveries, wire := after.wire)
  {
    Offered(c.(deliveries := c.deliveries + [Delivery(id, false)]), |c.deliveries|, h, 0)
  }

  function DeliverAll(c: Channel, open: seq<(string, Handling)>): (after: Channel)
    ensures after == c.(deliveries := after.deliveries, wire := after.wire)
    decreases |open|
  {
    if open == [] then c
    else Deliver(DeliverAll(c, open[..|open| - 1]), open[|open| - 1].0, open[|open| - 1].1)
  }

  // -------------------------------------------------------------- inbound

  function DropPing(pings: seq<string>, id: string): seq<string> {
    if pings == [] then [] else if pings[0] == id then pings[1..] else [pings[0]] + DropPing(pings[1..], id)
  }

  function TakeResponse(c: Channel, id: Id, error: bool, open: seq<(string, Handling)>, now: int): Channel {
    if id.Text? && id.text in c.pings then c.(pings := DropPing(c.pings, id.text), lastLivenessAt := now)
    else if id !in c.pending then c
    else
      var taken := c.(lastLivenessAt := now, pending := c.pending - {id});
      var told := if error then taken else DeliverAll(taken, open);
      Settle(told, c.pending[id].number, if error then Refused else Resolved)
  }

  function HandleFrame(c: Channel, frame: Frame, now: int): Channel {
    if frame.Unreadable? then c
    else
      var heard := if c.options.anyInbound then c.(lastLivenessAt := now) else c;
      match frame
      case ServerRequest(id, handling) => Deliver(heard, id, handling)
      case Response(id, error, open) => TakeResponse(heard, id, error, open, now)
      case Event(ready, sends) => if ready then IssueCall(heard, c.options.timed, NoSignal, sends) else heard
      case _ => heard
  }

  // ------------------------------------------------------------ heartbeat

  function HeartbeatStopped(c: Channel): Channel {
    c.(pings := [], heartbeat := None)
  }

  function HeartbeatStarted(c: Channel, now: int): Channel {
    var stopped := HeartbeatStopped(c).(lastLivenessAt := now);
    if c.options.intervalMs <= 0 || c.options.deadlineMs <= 0 then stopped else stopped.(heartbeat := c.transport)
  }

  function PingId(sequence: nat): string {
    "heartbeat-" + Numeral(sequence)
  }

  function AddPing(pings: seq<string>, id: string): seq<string> {
    var added := if id in pings then pings else pings + [id];
    if |added| > MAX_OUTSTANDING_PINGS then added[1..] else added
  }

  function Ticked(c: Channel, now: int, sends: bool): Channel {
    if c.heartbeat.None? || c.transport != c.heartbeat then c
    else if now - c.lastLivenessAt >= c.options.deadlineMs then HeartbeatStopped(c)
    else
      var id := PingId(c.sequence + 1);
      var sent := c.(sequence := c.sequence + 1, pings := AddPing(c.pings, id));
      if sends then sent.(wire := c.wire + [Ping(id)]) else HeartbeatStopped(sent)
  }

  function Without(handlers: seq<nat>, handler: nat): seq<nat> {
    if handlers == [] then [] else if handlers[0] == handler then handlers[1..] else [handlers[0]] + Without(handlers[1..], handler)
  }

  function Step(c: Channel, a: Action): Channel {
    match a
    case Attach(transport, now) => HeartbeatStopped(c).(transport := Some(transport), lastLivenessAt := now)
    case Detach => RejectAll(HeartbeatStopped(c).(transport := None))
    case Issue(timed, signal, sends) => IssueCall(c, timed, signal, sends)
    case TimerFires(id, number) => FireTimer(c, id, number)
    case AbortFires(id, number) => FireAbort(c, id, number)
    case Receive(frame, now) => HandleFrame(c, frame, now)
    case Redeliver(id, handling) => Deliver(c, id, handling)
    case LateAnswer(d, reply, sends) => Answered(c, d, reply, sends)
    case StartHeartbeat(now) => HeartbeatStarted(c, now)
    case Tick(now, sends) => Ticked(c, now, sends)
    case StopHeartbeat => HeartbeatStopped(c)
    case OnRequest(handler) => c.(handlers := c.handlers + [handler])
    case OffRequest(handler) => c.(handlers := Without(c.handlers, handler))
  }

  function Run(c: Channel, actions: seq<Action>): Channel
    decreases |actions|
  {
    if actions == [] then c else Step(Run(c, actions[..|actions| - 1]), actions[|actions| - 1])
  }
}
