/**
 * The gateway connection: dial tokens, the waiter for `gateway.ready`, a retry
 * ladder, an offline grace, two failure tallies and the credential verdicts.
 *
 * A step is one outside event with everything it wakes up before the next one.
 * Minting a dial plan and asking the credentials for a verdict are the points at
 * which a call is left suspended.
 */
module Connection {
  import opened Prelude
  import opened Backoff

  datatype Kind = Network | Timeout | Protocol | Auth | Server | Tls | Config | OtherKind

  datatype Failure = Failure(kind: Kind, closeCode: Option<int>)

  datatype Status = Disconnected | Authenticating | Connecting | Ready | Reconnecting | Paused | Offline | NeedsSignin

  /** The promise a dial awaits for its `gateway.ready`. */
  datatype Promise = Pending | Arrived | Refused(failure: Failure)

  /** Where the dial that holds the current token is suspended. */
  datatype Phase = Planning | Opening(socket: nat, ready: Promise) | Waiting(ready: Promise)

  datatype SocketState = Idle | Dialling | Open | Closed | Failed

  datatype Wait = Wait(delay: real, after: Kind)

  datatype Cause = Asked | Ladder | Ticket | Verdict(id: nat, window: nat)

  /** A call to `onRejected` that has not answered, and the failure it is about. */
  datatype Question = Question(failure: Failure, window: nat)

  /**
   * What happened since the tallies were last put back to zero: redials without
   * a wait, by cause; the questions already open then (`inherited`) and those of
   * them that were answered with a redial (`late`); and auth-class failures.
   */
  datatype Window = Window(id: nat, ticket: nat, verdict: nat, late: set<nat>, inherited: set<nat>, streak: nat)

  datatype Conn = Conn(
    running: bool, paused: bool, online: bool,
    attempt: nat, authFailures: nat, ticketRejections: nat,
    token: nat, dial: Option<Phase>, stale: set<nat>,
    retryTimer: Option<Wait>, offlineTimer: bool,
    lastFailureAt: Option<int>, lastCloseCode: Option<int>,
    waiter: Option<nat>,
    status: Status, error: Option<Failure>,
    state: SocketState, socket: Option<nat>, live: bool, handshakes: set<nat>, sockets: nat,
    questions: map<nat, Question>, asked: nat,
    window: Window)

  /** The clock and the random draw an event happens under. */
  datatype Env = Env(now: int, draw: real)

  datatype Plan = Minted | Throws(failure: Failure) | SocketThrows(failure: Failure)

  datatype Answer = Retry | Reauth | Broken(failure: Failure)

  datatype Event =
    | Start | Stop | Pause | Resume | RetryNow | SetOnline(online: bool)
    | PlanSettled(token: nat, plan: Plan)
    | SocketOpened(k: nat) | SocketErrored(k: nat) | SocketClosed(k: nat, code: int) | HandshakeTimedOut(k: nat)
    | SocketClosing | Invalidated
    | GatewayReady | ReadyTimedOut | RetryFires | GraceEnds
    | VerdictSettled(id: nat, answer: Answer)

  const DIAL_FAILURE_RECENT_MS := 30000

  predicate IsConfigCode(code: Option<int>) {
    code == Some(4403) || code == Some(4408) || code == Some(4404)
  }

  predicate Up(c: Conn) {
    c.running && !c.paused
  }

  /** The tallies go back to zero, and a new window opens. */
  function ResetTallies(c: Conn): Conn {
    c.(authFailures := 0, ticketRejections := 0,
       window := Window(c.window.id + 1, 0, 0, {}, c.questions.Keys, 0))
  }

  function SetStatus(c: Conn, status: Status): Conn {
    c.(status := status)
  }

  function CountRedial(w: Window, cause: Cause): Window {
    match cause
    case Asked => w
    case Ladder => w
    case Ticket => w.(ticket := w.ticket + 1)
    case Verdict(id, window) => if window == w.id then w.(verdict := w.verdict + 1) else w.(late := w.late + {id})
  }

  /** A token bump leaves the dial that held it suspended, and harmless. */
  function BumpToken(c: Conn): Conn {
    c.(token := c.token + 1, dial := None, stale := if c.dial.Some? then c.stale + {c.token} else c.stale)
  }

  /** `runDial` up to the minting of its plan. */
  function RunDial(c: Conn, cause: Cause): Conn {
    SetStatus(BumpToken(c).(dial := Some(Planning), retryTimer := None, lastCloseCode := None,
                            window := CountRedial(c.window, cause)), Authenticating)
  }

  /** Tokens and windows are only ever replaced by later ones, and a dial that lost its token held an earlier one. */
  ghost predicate Onward(c: Conn, d: Conn) {
    && c.token <= d.token && (forall t :: t in d.stale ==> t in c.stale || t < d.token)
    && c.window.id <= d.window.id && (c.window.id == d.window.id ==> d.window.inherited == c.window.inherited)
  }

  function SettlePromise(c: Conn, p: Promise): (d: Conn)
    ensures d == c.(waiter := None, dial := d.dial) && (d.dial.Some? <==> c.dial.Some?)
  {
    var own := c.(waiter := None);
    if c.waiter != Some(c.token) then own
    else match c.dial
         case Some(Opening(k, Pending)) => own.(dial := Some(Opening(k, p)))
         case Some(Waiting(Pending)) => own.(dial := Some(Waiting(p)))
         case _ => own
  }

  function RejectWaiter(c: Conn, failure: Failure): (d: Conn)
    ensures d == c.(waiter := None, dial := d.dial) && (d.dial.Some? <==> c.dial.Some?)
  {
    if c.waiter.None? then c else SettlePromise(c, Refused(failure))
  }

  function SocketWeight(c: Conn): nat {
    if c.socket.Some? then 1 else 0
  }

  function Unplugged(c: Conn): Conn {
    if c.socket.None? then c else c.(socket := None, live := false, state := Closed)
  }

  /** The transport went to `closed` or `error`. */
  function OnTransportClosed(c: Conn, env: Env): (d: Conn)
    ensures d.handshakes == c.handshakes && (c.socket.None? ==> d.socket.None? && d.state == c.state)
    ensures !Up(c) || (c.waiter.None? && c.status != Ready) ==> d == c
    ensures Onward(c, d)
    decreases SocketWeight(c), 9
  {
    if !Up(c) then c
    else if c.waiter.Some? then RejectWaiter(c, Failure(Network, c.lastCloseCode))
    else if c.status != Ready then c
    else HandleFailure(c, Failure(Network, c.lastCloseCode), env)
  }

  /** `client.close()`: the generation is dropped, and its listeners hear of it. */
  function CloseClient(c: Conn, env: Env): (d: Conn)
    ensures d.socket.None? && d.handshakes == c.handshakes && d.state == (if c.socket.Some? then Closed else c.state)
    ensures !Up(c) || (c.waiter.None? && c.status != Ready) ==> d == Unplugged(c)
    ensures Onward(c, d)
    decreases SocketWeight(c), 0
  {
    if c.socket.None? then c
    else
      var dropped := c.(socket := None, live := false, state := Closed);
      if c.state.Closed? then dropped else OnTransportClosed(dropped, env)
  }

  function TeardownSocket(c: Conn, env: Env): (d: Conn)
    ensures d.socket.None? && d.handshakes == c.handshakes && d.state == (if c.socket.Some? then Closed else c.state)
    ensures !Up(c) || c.status != Ready ==> d == Unplugged(RejectWaiter(c, Failure(Network, None)))
    ensures Onward(c, d)
    decreases SocketWeight(c), 1
  {
    CloseClient(RejectWaiter(c, Failure(Network, None)), env)
  }

  /** Only ever called once the connection is stopped or paused, so nothing answers it. */
  function Teardown(c: Conn, env: Env): (d: Conn)
    ensures d.socket.None? && d.handshakes == c.handshakes && d.state == (if c.socket.Some? then Closed else c.state)
    ensures !Up(c) ==>
              d == Unplugged(RejectWaiter(BumpToken(c).(retryTimer := None, offlineTimer := false), Failure(Network, None)))
    ensures Onward(c, d)
    decreases SocketWeight(c), 2
  {
    TeardownSocket(BumpToken(c).(retryTimer := None, offlineTimer := false), env)
  }

  function Explain(c: Conn, status: Status, failure: Failure): Conn {
    SetStatus(c, status).(error := Some(failure))
  }

  /** Stop for a reason that dialling again cannot change. */
  function Terminate(c: Conn, status: Status, failure: Failure, env: Env): (d: Conn)
    ensures d.socket.None? && d.handshakes == c.handshakes && d.state == (if c.socket.Some? then Closed else c.state)
    ensures Onward(c, d)
    decreases SocketWeight(c), 3
  {
    Explain(Teardown(c.(running := false), env), status, failure)
  }

  function HandleFailure(c: Conn, failure: Failure, env: Env): (d: Conn)
    ensures d.socket.None? && d.handshakes == c.handshakes && d.state == (if c.socket.Some? then Closed else c.state)
    ensures Onward(c, d)
    decreases SocketWeight(c), 8
  {
    var code := if failure.closeCode.Some? then failure.closeCode else c.lastCloseCode;
    var noted := c.(lastFailureAt := Some(env.now));
    if IsConfigCode(code) then Terminate(noted, Disconnected, Failure(Config, code), env)
    else if failure.kind.Tls? || failure.kind.Config? then Terminate(noted, Disconnected, failure, env)
    else Recover(noted, failure, code, env)
  }

  /** A failure dialling again may mend. */
  function Recover(c: Conn, failure: Failure, code: Option<int>, env: Env): (d: Conn)
    ensures d.socket.None? && d.handshakes == c.handshakes && d.state == (if c.socket.Some? then Closed else c.state)
    ensures Onward(c, d)
    decreases SocketWeight(c), 7
  {
    if code == Some(4401) then HandleTicketRejection(Streak(c), failure, env)
    else if failure.kind.Auth? then HandleAuthFailure(Streak(c), failure, env)
    else ScheduleReconnect(c, failure, env)
  }

  function Streak(c: Conn): Conn {
    c.(window := c.window.(streak := c.window.streak + 1))
  }

  function HandleTicketRejection(c: Conn, failure: Failure, env: Env): (d: Conn)
    ensures d.socket.None? && d.handshakes == c.handshakes && d.state == (if c.socket.Some? then Closed else c.state)
    ensures Onward(c, d)
    decreases SocketWeight(c), 6
  {
    var counted := c.(ticketRejections := c.ticketRejections + 1);
    if counted.ticketRejections == 1 then
      var down := TeardownSocket(counted, env);
      if !Up(down) then down else RunDial(down.(error := Some(failure)), Ticket)
    else HandleAuthFailure(counted, failure, env)
  }

  function Ask(c: Conn, failure: Failure): Conn {
    c.(questions := c.questions[c.asked := Question(failure, c.window.id)], asked := c.asked + 1)
  }

  function HandleAuthFailure(c: Conn, failure: Failure, env: Env): (d: Conn)
    ensures d.socket.None? && d.handshakes == c.handshakes && d.state == (if c.socket.Some? then Closed else c.state)
    ensures Onward(c, d)
    decreases SocketWeight(c), 5
  {
    var down := TeardownSocket(c.(authFailures := c.authFailures + 1), env);
    if down.authFailures > 1 then Terminate(down, NeedsSignin, Failure(Auth, failure.closeCode), env)
    else Ask(down, failure)
  }

  function ScheduleReconnect(c: Conn, failure: Failure, env: Env): (d: Conn)
    ensures d.socket.None? && d.handshakes == c.handshakes && d.state == (if c.socket.Some? then Closed else c.state)
    ensures Onward(c, d)
    decreases SocketWeight(c), 4
  {
    var down := ResetTallies(TeardownSocket(c, env));
    if !Up(down) then down else Climb(down, failure, env)
  }

  /** One rung up the ladder: the status says why, and the timer says when. */
  function Climb(c: Conn, failure: Failure, env: Env): Conn {
    var rung := if failure.kind.Protocol? then Max(c.attempt, PROTOCOL_LADDER_FLOOR) else c.attempt;
    Explain(c, if c.online then Reconnecting else Offline, failure)
      .(attempt := rung + 1, retryTimer := Some(Wait(DelayMs(rung, env.draw), failure.kind)))
  }

  // ------------------------------------------------------------ the events

  function Succeed(c: Conn): Conn {
    SetStatus(ResetTallies(c.(dial := None, attempt := 0, lastFailureAt := None)), Ready).(error := None)
  }

  /** The dial's continuation; `alive` asks for the token and for the connection to be up. */
  function Fail(c: Conn, failure: Failure, env: Env): Conn {
    var ended := c.(dial := None);
    if !Up(c) then ended else HandleFailure(ended, failure, env)
  }

  /** What the settled promise of the current dial wakes up. */
  function Microtasks(c: Conn, env: Env): Conn {
    match c.dial
    case Some(Waiting(Arrived)) => if Up(c) then Succeed(c) else c.(dial := None)
    case Some(Waiting(Refused(failure))) => Fail(c, failure, env)
    case _ => c
  }

  /** `connect()` rejects for socket `k`: only the dial that awaits that handshake hears of it. */
  function ConnectRejected(c: Conn, k: nat, env: Env): Conn {
    match c.dial
    case Some(Opening(socket, _)) => if socket == k then Fail(c, Failure(Network, None), env) else c
    case _ => c
  }

  function OnPlan(c: Conn, plan: Plan, env: Env): Conn {
    if plan.Throws? then Fail(c, plan.failure, env)
    else if !Up(c) then c.(dial := None)
    else
      var waiting := SetStatus(RejectWaiter(c, Failure(Network, None)).(waiter := Some(c.token)), Connecting);
      if (c.socket.Some? && c.live) || c.state.Dialling? then waiting.(dial := Some(Waiting(Pending)))
      else if plan.SocketThrows? then Fail(waiting.(state := Dialling), plan.failure, env)
      else waiting.(dial := Some(Opening(c.sockets, Pending)), state := Dialling, socket := Some(c.sockets), live := false,
                    handshakes := c.handshakes + {c.sockets}, sockets := c.sockets + 1)
  }

  function OnOpened(c: Conn, k: nat): Conn {
    if k !in c.handshakes || c.socket != Some(k) then c
    else
      var open := c.(handshakes := c.handshakes - {k}, state := Open, live := true);
      match c.dial
      case Some(Opening(socket, ready)) => if socket == k then open.(dial := Some(Waiting(ready))) else open
      case _ => open
  }

  function OnErrored(c: Conn, k: nat, env: Env): Conn {
    if k !in c.handshakes || c.socket != Some(k) then c
    else
      var failed := c.(handshakes := c.handshakes - {k}, state := Failed);
      ConnectRejected(if c.state.Failed? then failed else OnTransportClosed(failed, env), k, env)
  }

  function OnHandshakeTimeout(c: Conn, k: nat, env: Env): Conn {
    if k !in c.handshakes then c
    else
      var settled := c.(handshakes := c.handshakes - {k});
      ConnectRejected(
        if c.socket != Some(k) then settled
        else
          var failed := settled.(socket := None, live := false, state := Failed);
          if c.state.Failed? then failed else OnTransportClosed(failed, env),
        k, env)
  }

  function OnSocketClosed(c: Conn, k: nat, code: int, env: Env): Conn {
    if k >= c.sockets then c
    else
      var coded := c.(lastCloseCode := Some(code));
      var dropped := if c.socket == Some(k) then CloseClient(coded, env) else coded;
      if k !in c.handshakes then dropped
      else ConnectRejected(dropped.(handshakes := dropped.handshakes - {k}), k, env)
  }

  function OnOnline(c: Conn, online: bool, env: Env): Conn {
    var heard := if online then c.(offlineTimer := false) else c;
    if c.online == online then heard
    else
      var told := heard.(online := online);
      if !online then
        if c.status != Ready then (if Up(c) then SetStatus(told, Offline) else told)
        else told.(offlineTimer := true)
      else if c.offlineTimer || !Up(c) || c.status == Ready then told
      else if c.lastFailureAt.Some? && env.now - c.lastFailureAt.value <= DIAL_FAILURE_RECENT_MS then
        SetStatus(told, Reconnecting)
      else AskToDial(told)
  }

  function AskToDial(c: Conn): Conn {
    if !Up(c) then c else RunDial(ResetTallies(c.(attempt := 0)), Asked)
  }

  function OnVerdict(c: Conn, id: nat, answer: Answer, env: Env): Conn {
    if id !in c.questions then c
    else
      var q, heard := c.questions[id], c.(questions := c.questions - {id});
      if answer.Broken? then ScheduleReconnect(heard, answer.failure, env)
      else if !Up(heard) then heard
      else if answer.Reauth? then Terminate(heard, NeedsSignin, Failure(Auth, None), env)
      else RunDial(heard.(error := Some(q.failure)), Verdict(id, q.window))
  }

  function OnResume(c: Conn): Conn {
    if !c.paused && c.running then c
    else RunDial(ResetTallies(c.(running := true, paused := false, attempt := 0)).(offlineTimer := false), Asked)
  }

  function OnGraceEnds(c: Conn, env: Env): Conn {
    if !c.offlineTimer then c
    else ScheduleReconnect(TeardownSocket(c.(offlineTimer := false), env), Failure(Network, None), env)
  }

  function React(c: Conn, e: Event, env: Env): Conn {
    match e
    case Start =>
      if c.running then c
      else RunDial(ResetTallies(c.(running := true, paused := false, attempt := 0)), Asked)
    case Stop =>
      SetStatus(Teardown(c.(running := false, paused := false), env), Disconnected).(error := None)
    case Pause =>
      if c.paused || !c.running then c
      else SetStatus(Teardown(c.(paused := true), env), Paused).(error := None)
    case Resume => OnResume(c)
    case RetryNow => AskToDial(c)
    case SetOnline(online) => OnOnline(c, online, env)
    case PlanSettled(token, plan) =>
      if token in c.stale then c.(stale := c.stale - {token})
      else if token == c.token && c.dial == Some(Planning) then OnPlan(c, plan, env)
      else c
    case SocketOpened(k) => OnOpened(c, k)
    case SocketErrored(k) => OnErrored(c, k, env)
    case SocketClosed(k, code) => OnSocketClosed(c, k, code, env)
    case HandshakeTimedOut(k) => OnHandshakeTimeout(c, k, env)
    case SocketClosing => c.(live := false)
    case Invalidated => CloseClient(c, env)
    case GatewayReady => if c.socket.Some? && c.state.Open? then SettlePromise(c, Arrived) else c
    case ReadyTimedOut => if c.waiter.Some? then SettlePromise(c, Refused(Failure(Timeout, None))) else c
    case RetryFires => if c.retryTimer.Some? then RunDial(c.(retryTimer := None), Ladder) else c
    case GraceEnds => OnGraceEnds(c, env)
    case VerdictSettled(id, answer) => OnVerdict(c, id, answer, env)
  }

  function Step(c: Conn, e: Event, env: Env): Conn {
    Microtasks(React(c, e, env), env)
  }

  function Run(c: Conn, events: seq<(Event, Env)>): Conn
    decreases |events|
  {
    if events == [] then c else Run(Step(c, events[0].0, events[0].1), events[1..])
  }

  const Fresh: Conn :=
    Conn(false, false, true, 0, 0, 0, 0, None, {}, None, false, None, None, None, Disconnected, None,
         Idle, None, false, {}, 0, map[], 0, Window(0, 0, 0, {}, {}, 0))
}
