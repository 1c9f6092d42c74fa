/** The connection is never stuck: what every step keeps, and what that means over whole runs. */
module ConnectionFlow {
  import opened Prelude
  import opened Backoff
  import opened Connection

  // ------------------------------------------------------------- invariant

  /** A dial is suspended on something that will still answer it. */
  ghost predicate DialOk(dial: Option<Phase>, handshakes: set<nat>, waiter: Option<nat>, token: nat) {
    match dial
    case None => true
    case Some(Planning) => true
    case Some(Opening(k, ready)) => k in handshakes && waiter == (if ready.Pending? then Some(token) else None)
    case Some(Waiting(ready)) => waiter == (if ready.Pending? then Some(token) else None)
  }

  /** Every wait the retry timer is ever set to keeps the ladder's bounds. */
  ghost predicate LadderOk(timer: Option<Wait>) {
    timer.Some? ==>
      && 150.0 <= timer.value.delay < 15000.0
      && (timer.value.after.Protocol? ==> 1200.0 <= timer.value.delay)
  }

  ghost predicate SocketsOk(socket: Option<nat>, handshakes: set<nat>, sockets: nat) {
    && (socket.Some? ==> socket.value < sockets)
    && (forall k :: k in handshakes ==> k < sockets)
  }

  /** Holds at every moment, inside a step as well as between steps. */
  ghost predicate Flow(c: Conn) {
    && (c.paused ==> c.running)
    && (c.dial.Some? ==> Up(c) && c.status != Ready && c.status != NeedsSignin)
    && DialOk(c.dial, c.handshakes, c.waiter, c.token)
    && (!Up(c) ==> c.retryTimer.None? && !c.offlineTimer && c.status != Ready)
    && (c.status == Ready ==> c.waiter.None? && c.ticketRejections == 0)
    && SocketsOk(c.socket, c.handshakes, c.sockets)
    && LadderOk(c.retryTimer)
  }

  ghost predicate EnvOk(env: Env) {
    0.0 <= env.draw < 1.0
  }

  /** A failure is handled when nothing is dialling and the socket of a live connection is gone. */
  ghost predicate MayFail(c: Conn) {
    Flow(c) && Up(c) && c.dial.None? && (c.status == Ready ==> c.socket.None?)
  }

  /** Something is under way: a dial, a wait, or a question. */
  ghost predicate Busy(c: Conn) {
    c.dial.Some? || c.retryTimer.Some? || c.questions != map[]
  }

  /** What a handled failure leaves behind: something under way, or a full stop. */
  ghost predicate Recovering(d: Conn) {
    && Flow(d) && d.status != Ready
    && (d.dial.None? || d.dial == Some(Planning))
    && (Up(d) ==> Busy(d))
  }

  // ------------------------------------------------------ failure handling

  lemma TerminateStops(c: Conn, status: Status, failure: Failure, env: Env)
    requires Flow(c) && !c.paused && status != Ready
    ensures var d := Terminate(c, status, failure, env);
            Recovering(d) && !d.running && d.status == status && d.error == Some(failure)
  {
  }

  lemma ClimbRecovers(c: Conn, failure: Failure, env: Env)
    requires Flow(c) && Up(c) && EnvOk(env)
    ensures var d := Climb(c, failure, env); Flow(d) && d.status != Ready && d.retryTimer.Some? && d.dial == c.dial
  {
    var rung := if failure.kind.Protocol? then Max(c.attempt, PROTOCOL_LADDER_FLOOR) else c.attempt;
    LadderBounds(rung, 0, env.draw);
    if failure.kind.Protocol? {
      ProtocolWaits(rung, env.draw);
    }
  }

  /** Nothing is left to hear of it when no live connection is torn down. */
  lemma QuietTeardown(c: Conn, env: Env)
    requires Flow(c) && (c.status == Ready ==> c.socket.None?)
    ensures var d := TeardownSocket(c, env);
            && Flow(d) && d.dial.Some? == c.dial.Some?
            && d == c.(waiter := None, dial := d.dial, socket := None, live := d.live, state := d.state)
            && (c.dial.None? || c.dial == Some(Planning) ==> d.dial == c.dial)
  {
  }

  lemma IdleTeardown(c: Conn, env: Env)
    requires c.dial.None? && (c.status == Ready ==> c.socket.None?)
    ensures TeardownSocket(c, env) == Unplugged(c.(waiter := None))
  {
  }

  lemma FailureRecovers(c: Conn, failure: Failure, env: Env)
    requires MayFail(c) && EnvOk(env) && (c.status == Ready ==> !failure.kind.Auth?)
    ensures Recovering(HandleFailure(c, failure, env))
    decreases SocketWeight(c), 7
  {
    var noted := c.(lastFailureAt := Some(env.now));
    var code := if failure.closeCode.Some? then failure.closeCode else c.lastCloseCode;
    if IsConfigCode(code) {
      TerminateStops(noted, Disconnected, Failure(Config, code), env);
    } else if failure.kind.Tls? || failure.kind.Config? {
      TerminateStops(noted, Disconnected, failure, env);
    } else {
      RecoverRecovers(noted, failure, code, env);
    }
  }

  lemma RecoverRecovers(c: Conn, failure: Failure, code: Option<int>, env: Env)
    requires MayFail(c) && EnvOk(env) && (c.status == Ready ==> !failure.kind.Auth?)
    ensures Recovering(Recover(c, failure, code, env))
    decreases SocketWeight(c), 6
  {
    if code == Some(4401) {
      TicketRecovers(Streak(c), failure, env);
    } else if failure.kind.Auth? {
      AuthRecovers(Streak(c), failure, env);
    } else {
      ScheduleRecovers(c, failure, env);
    }
  }

  lemma TicketRecovers(c: Conn, failure: Failure, env: Env)
    requires MayFail(c) && EnvOk(env)
    ensures Recovering(HandleTicketRejection(c, failure, env))
  {
    var counted := c.(ticketRejections := c.ticketRejections + 1);
    if counted.ticketRejections == 1 {
      IdleTeardown(counted, env);
    } else {
      AuthRecovers(counted, failure, env);
    }
  }

  lemma AuthRecovers(c: Conn, failure: Failure, env: Env)
    requires MayFail(c) && c.status != Ready && EnvOk(env)
    ensures Recovering(HandleAuthFailure(c, failure, env))
  {
    var counted := c.(authFailures := c.authFailures + 1);
    QuietTeardown(counted, env);
    var down := TeardownSocket(counted, env);
    if down.authFailures > 1 {
      TerminateStops(down, NeedsSignin, Failure(Auth, failure.closeCode), env);
    } else {
      assert down.asked in Ask(down, failure).questions;
    }
  }

  /** Closing the client under a live connection is a drop like any other. */
  lemma CloseRecovers(c: Conn, env: Env)
    requires Flow(c) && EnvOk(env) && c.status == Ready && c.socket.Some? && c.state.Open?
    ensures Recovering(CloseClient(c, env))
    ensures TeardownSocket(c, env) == CloseClient(c, env)
    decreases SocketWeight(c), 0
  {
    var dropped := c.(socket := None, live := false, state := Closed);
    FailureRecovers(dropped, Failure(Network, c.lastCloseCode), env);
  }

  lemma ScheduleRecovers(c: Conn, failure: Failure, env: Env)
    requires Flow(c) && EnvOk(env)
    requires c.status == Ready ==> c.socket.None? || c.state.Open?
    ensures var d := ScheduleReconnect(c, failure, env);
            Flow(d) && d.status != Ready && (Up(d) ==> d.retryTimer.Some?)
    ensures c.dial.None? || c.dial == Some(Planning) ==> Recovering(ScheduleReconnect(c, failure, env))
    decreases SocketWeight(c), 4
  {
    if c.status == Ready && c.socket.Some? {
      CloseRecovers(c, env);
    } else {
      QuietTeardown(c, env);
    }
    var down := TeardownSocket(c, env);
    if Up(down) {
      ClimbRecovers(ResetTallies(down), failure, env);
    }
  }

  // ------------------------------------------------------------- one event

  /** A socket whose handshake is open is being dialled, and a live connection has an open socket. */
  ghost predicate Bound(c: Conn) {
    && (c.socket.Some? && c.socket.value in c.handshakes ==> c.state.Dialling?)
    && (c.status == Ready ==> c.socket.Some? && c.state.Open?)
  }

  /** After an event, before what it woke up has run. */
  ghost predicate Stirred(c: Conn) {
    && Flow(c) && Bound(c)
    && (Up(c) ==> c.status == Ready || Busy(c))
    && (c.dial == Some(Waiting(Arrived)) ==> c.socket.Some? && c.state.Open?)
  }

  /** Between events. */
  ghost predicate Steady(c: Conn) {
    && Flow(c) && Bound(c)
    && (Up(c) ==> c.status == Ready || Busy(c))
    && (c.dial.Some? && c.dial.value.Waiting? ==> c.dial.value.ready.Pending?)
  }

  lemma FailStirs(c: Conn, failure: Failure, env: Env)
    requires Flow(c.(dial := None)) && Up(c) && c.status != Ready && EnvOk(env)
    ensures Steady(Fail(c, failure, env))
  {
    FailureRecovers(c.(dial := None), failure, env);
  }

  lemma RunDialStirs(c: Conn, cause: Cause)
    requires Up(c) && Bound(c) && SocketsOk(c.socket, c.handshakes, c.sockets)
    ensures Steady(RunDial(c, cause))
  {
  }

  lemma StoppingStirs(c: Conn, status: Status, env: Env)
    requires Flow(c.(running := true, paused := false)) && !Up(c) && (c.paused ==> c.running) && status != Ready
    ensures Steady(SetStatus(Teardown(c, env), status).(error := None))
  {
  }

  lemma TerminateStirs(c: Conn, failure: Failure, env: Env)
    requires Flow(c) && Up(c)
    ensures Steady(Terminate(c, NeedsSignin, failure, env))
  {
  }

  lemma PlanStirs(c: Conn, plan: Plan, env: Env)
    requires Steady(c) && c.dial == Some(Planning) && EnvOk(env)
    ensures Stirred(OnPlan(c, plan, env))
  {
    if plan.Throws? {
      FailStirs(c, plan.failure, env);
    } else if plan.SocketThrows? && !((c.socket.Some? && c.live) || c.state.Dialling?) {
      var waiting := SetStatus(RejectWaiter(c, Failure(Network, None)).(waiter := Some(c.token)), Connecting);
      FailStirs(waiting.(state := Dialling), plan.failure, env);
    }
  }

  lemma OpenedStirs(c: Conn, k: nat)
    requires Steady(c)
    ensures Stirred(OnOpened(c, k))
  {
  }

  /** A failed handshake ends the dial that awaited it, and no other. */
  lemma RejectionStirs(c: Conn, k: nat, env: Env)
    requires Flow(c.(dial := None)) && EnvOk(env)
    requires c.dial.Some? ==> Up(c) && c.status != Ready && c.status != NeedsSignin
    requires DialOk(c.dial, c.handshakes + {k}, c.waiter, c.token)
    requires Bound(c) && (Up(c) ==> c.status == Ready || Busy(c)) && c.dial != Some(Waiting(Arrived))
    requires k !in c.handshakes
    ensures Stirred(ConnectRejected(c, k, env))
  {
    match c.dial
    case Some(Opening(socket, _)) =>
      if socket == k {
        FailStirs(c, Failure(Network, None), env);
      }
    case _ =>
  }

  lemma ErroredStirs(c: Conn, k: nat, env: Env)
    requires Steady(c) && EnvOk(env)
    ensures Stirred(OnErrored(c, k, env))
  {
    if k in c.handshakes && c.socket == Some(k) {
      var failed := c.(handshakes := c.handshakes - {k}, state := Failed);
      assert c.handshakes == failed.handshakes + {k};
      RejectionStirs(if c.state.Failed? then failed else OnTransportClosed(failed, env), k, env);
    }
  }

  lemma HandshakeTimeoutStirs(c: Conn, k: nat, env: Env)
    requires Steady(c) && EnvOk(env)
    ensures Stirred(OnHandshakeTimeout(c, k, env))
  {
    if k in c.handshakes {
      var settled := c.(handshakes := c.handshakes - {k});
      assert c.handshakes == settled.handshakes + {k};
      if c.socket != Some(k) {
        RejectionStirs(settled, k, env);
      } else {
        var failed := settled.(socket := None, live := false, state := Failed);
        RejectionStirs(if c.state.Failed? then failed else OnTransportClosed(failed, env), k, env);
      }
    }
  }

  lemma CloseStirs(c: Conn, env: Env)
    requires Steady(c) && EnvOk(env)
    ensures var d := CloseClient(c, env);
            Stirred(d) && d.dial != Some(Waiting(Arrived)) && (c.status == Ready ==> Recovering(d))
    ensures CloseClient(c, env).handshakes == c.handshakes
  {
    if c.status == Ready {
      CloseRecovers(c, env);
    } else {
      MidDialClose(c, env);
    }
  }

  lemma MidDialClose(c: Conn, env: Env)
    requires Steady(c) && c.status != Ready
    ensures var d := CloseClient(c, env); Stirred(d) && d.dial != Some(Waiting(Arrived))
  {
  }

  lemma SocketClosedStirs(c: Conn, k: nat, code: int, env: Env)
    requires Steady(c) && EnvOk(env)
    ensures Stirred(OnSocketClosed(c, k, code, env))
  {
    var coded := c.(lastCloseCode := Some(code));
    CloseStirs(coded, env);
    if k < c.sockets && k in c.handshakes {
      var dropped := if c.socket == Some(k) then CloseClient(coded, env) else coded;
      assert dropped.handshakes == dropped.handshakes - {k} + {k};
      RejectionStirs(dropped.(handshakes := dropped.handshakes - {k}), k, env);
    }
  }

  lemma OnlineStirs(c: Conn, online: bool, env: Env)
    requires Steady(c)
    ensures Stirred(OnOnline(c, online, env))
  {
    var told := (if online then c.(offlineTimer := false) else c).(online := online);
    if Up(told) {
      RunDialStirs(ResetTallies(told.(attempt := 0)), Asked);
    }
  }

  lemma GraceStirs(c: Conn, env: Env)
    requires Steady(c) && c.offlineTimer && EnvOk(env)
    ensures Stirred(React(c, GraceEnds, env))
  {
    var ended := c.(offlineTimer := false);
    if c.status == Ready {
      CloseRecovers(ended, env);
    } else {
      QuietTeardown(ended, env);
    }
    ScheduleStirs(TeardownSocket(ended, env), Failure(Network, None), env);
  }

  lemma ScheduleStirs(c: Conn, failure: Failure, env: Env)
    requires Flow(c) && Bound(c) && EnvOk(env) && c.dial != Some(Waiting(Arrived))
    ensures Stirred(ScheduleReconnect(c, failure, env))
  {
    ScheduleRecovers(c, failure, env);
  }

  lemma VerdictStirs(c: Conn, id: nat, answer: Answer, env: Env)
    requires Steady(c) && EnvOk(env)
    ensures Stirred(OnVerdict(c, id, answer, env))
  {
    if id in c.questions {
      var heard := c.(questions := c.questions - {id});
      if answer.Broken? {
        ScheduleStirs(heard, answer.failure, env);
      } else if Up(heard) && answer.Reauth? {
        TerminateStirs(heard, Failure(Auth, None), env);
      }
    }
  }

  lemma PromiseStirs(c: Conn, p: Promise)
    requires Steady(c) && (p.Arrived? ==> c.socket.Some? && c.state.Open?)
    ensures Stirred(SettlePromise(c, p)) || p.Pending?
  {
  }

  lemma PlainStirs(c: Conn, e: Event, env: Env)
    requires Steady(c) && EnvOk(env)
    requires e.Start? || e.Resume? || e.RetryNow? || e.RetryFires? || e.SocketClosing? || e.GatewayReady? || e.ReadyTimedOut?
    ensures Stirred(React(c, e, env))
  {
    match e
    case Start =>
      if !c.running {
        RunDialStirs(ResetTallies(c.(running := true, paused := false, attempt := 0)), Asked);
      }
    case Resume =>
      if c.paused || !c.running {
        RunDialStirs(ResetTallies(c.(running := true, paused := false, attempt := 0)).(offlineTimer := false), Asked);
      }
    case RetryNow =>
      if Up(c) {
        RunDialStirs(ResetTallies(c.(attempt := 0)), Asked);
      }
    case RetryFires =>
      if c.retryTimer.Some? {
        RunDialStirs(c.(retryTimer := None), Ladder);
      }
    case GatewayReady => PromiseStirs(c, if c.socket.Some? && c.state.Open? then Arrived else Pending);
    case ReadyTimedOut => PromiseStirs(c, Refused(Failure(Timeout, None)));
    case _ =>
  }

  /** An event about a socket. */
  predicate OfSocket(e: Event) {
    e.SocketOpened? || e.SocketErrored? || e.SocketClosed? || e.HandshakeTimedOut? || e.Invalidated?
  }

  lemma SocketStirs(c: Conn, e: Event, env: Env)
    requires Steady(c) && EnvOk(env) && OfSocket(e)
    ensures Stirred(React(c, e, env))
  {
    match e
    case SocketOpened(k) => OpenedStirs(c, k);
    case SocketErrored(k) => ErroredStirs(c, k, env);
    case SocketClosed(k, code) => SocketClosedStirs(c, k, code, env);
    case HandshakeTimedOut(k) => HandshakeTimeoutStirs(c, k, env);
    case Invalidated => CloseStirs(c, env);
  }

  lemma StopStirs(c: Conn, e: Event, env: Env)
    requires Steady(c) && (e.Stop? || e.Pause?)
    ensures Stirred(React(c, e, env))
  {
    if e.Stop? {
      StoppingStirs(c.(running := false, paused := false), Disconnected, env);
    } else if c.running && !c.paused {
      StoppingStirs(c.(paused := true), Paused, env);
    }
  }

  lemma CallStirs(c: Conn, e: Event, env: Env)
    requires Steady(c) && EnvOk(env) && (e.PlanSettled? || e.VerdictSettled? || e.GraceEnds?)
    ensures Stirred(React(c, e, env))
  {
    match e
    case PlanSettled(token, plan) =>
      if token !in c.stale && token == c.token && c.dial == Some(Planning) {
        PlanStirs(c, plan, env);
      }
    case VerdictSettled(id, answer) => VerdictStirs(c, id, answer, env);
    case GraceEnds =>
      if c.offlineTimer {
        GraceStirs(c, env);
      }
  }

  lemma ReactStirs(c: Conn, e: Event, env: Env)
    requires Steady(c) && EnvOk(env)
    ensures Stirred(React(c, e, env))
  {
    if OfSocket(e) {
      SocketStirs(c, e, env);
    } else if e.Stop? || e.Pause? {
      StopStirs(c, e, env);
    } else if e.PlanSettled? || e.VerdictSettled? || e.GraceEnds? {
      CallStirs(c, e, env);
    } else if e.SetOnline? {
      OnlineStirs(c, e.online, env);
    } else {
      PlainStirs(c, e, env);
    }
  }

  lemma WakingSteadies(c: Conn, env: Env)
    requires Stirred(c) && EnvOk(env)
    ensures Steady(Microtasks(c, env))
  {
    match c.dial
    case Some(Waiting(Refused(failure))) => FailStirs(c, failure, env);
    case _ =>
  }

  lemma StepSteady(c: Conn, e: Event, env: Env)
    requires Steady(c) && EnvOk(env)
    ensures Steady(Step(c, e, env))
  {
    ReactStirs(c, e, env);
    WakingSteadies(React(c, e, env), env);
  }

  ghost predicate EnvsOk(events: seq<(Event, Env)>) {
    forall i :: 0 <= i < |events| ==> EnvOk(events[i].1)
  }

  lemma {:induction false} RunSteady(c: Conn, events: seq<(Event, Env)>)
    requires Steady(c) && EnvsOk(events)
    ensures Steady(Run(c, events))
    decreases |events|
  {
    if events != [] {
      assert EnvOk(events[0].1);
      StepSteady(c, events[0].0, events[0].1);
      RunSteady(Step(c, events[0].0, events[0].1), events[1..]);
    }
  }

  // --------------------------------------------------------- over whole runs

  /**
   * Whatever happened before, a running connection that is not paused is ready on a bound and open
   * socket, or holds the current token in a dial something will still answer, or waits for the retry
   * timer, or waits for a verdict on its credentials.
   */
  lemma NeverStuck(events: seq<(Event, Env)>)
    requires EnvsOk(events)
    ensures var c := Run(Fresh, events);
            Up(c) ==>
              || (c.status == Ready && c.socket.Some? && c.state.Open?)
              || c.dial == Some(Planning)
              || (c.dial.Some? && c.dial.value.Opening? && c.dial.value.socket in c.handshakes)
              || (c.dial == Some(Waiting(Pending)) && c.waiter == Some(c.token))
              || c.retryTimer.Some?
              || c.questions != map[]
  {
    RunSteady(Fresh, events);
  }

  /** Every wait before a redial is within the ladder, and a protocol failure starts part-way up it. */
  lemma EveryWaitIsOnTheLadder(events: seq<(Event, Env)>)
    requires EnvsOk(events)
    ensures var timer := Run(Fresh, events).retryTimer;
            timer.Some? ==>
              && 150.0 <= timer.value.delay < 15000.0
              && (timer.value.after.Protocol? ==> 1200.0 <= timer.value.delay)
  {
    RunSteady(Fresh, events);
  }

  // ------------------------------------------------------ stopped or paused

  /** Nothing but the owner's own call speaks for a connection that is stopped or paused. */
  predicate Commanded(c: Conn, e: Event) {
    e.Start? || e.Resume? || e.Stop?
  }

  ghost predicate SaysTheSame(c: Conn, d: Conn) {
    && d.status == c.status && d.error == c.error && d.running == c.running && d.paused == c.paused
    && d.dial.None?
  }

  /** An event that ends an open handshake badly. */
  predicate OfHandshake(e: Event) {
    e.SocketErrored? || e.HandshakeTimedOut?
  }

  lemma HandshakeQuiet(c: Conn, e: Event, env: Env)
    requires Flow(c) && !Up(c) && OfHandshake(e)
    ensures SaysTheSame(c, React(c, e, env))
  {
    if e.SocketErrored? {
      ErroredQuiet(c, e.k, env);
    } else {
      TimeoutQuiet(c, e.k, env);
    }
  }

  lemma ErroredQuiet(c: Conn, k: nat, env: Env)
    requires Flow(c) && !Up(c)
    ensures SaysTheSame(c, OnErrored(c, k, env))
  {
  }

  lemma TimeoutQuiet(c: Conn, k: nat, env: Env)
    requires Flow(c) && !Up(c)
    ensures SaysTheSame(c, OnHandshakeTimeout(c, k, env))
  {
  }

  lemma SocketQuiet(c: Conn, e: Event, env: Env)
    requires Flow(c) && !Up(c) && OfSocket(e)
    ensures SaysTheSame(c, React(c, e, env))
  {
    if OfHandshake(e) {
      HandshakeQuiet(c, e, env);
    } else if e.SocketClosed? {
      ClosedQuiet(c, e.k, e.code, env);
    }
  }

  lemma ClosedQuiet(c: Conn, k: nat, code: int, env: Env)
    requires Flow(c) && !Up(c)
    ensures SaysTheSame(c, OnSocketClosed(c, k, code, env))
  {
  }

  lemma ReactQuiet(c: Conn, e: Event, env: Env)
    requires Flow(c) && !Up(c) && !Commanded(c, e)
    ensures SaysTheSame(c, React(c, e, env))
  {
    if OfSocket(e) {
      SocketQuiet(c, e, env);
    }
  }

  lemma StepQuiet(c: Conn, e: Event, env: Env)
    requires Steady(c) && !Up(c) && !Commanded(c, e)
    ensures var d := Step(c, e, env);
            d.status == c.status && d.error == c.error && d.running == c.running && d.paused == c.paused
  {
    ReactQuiet(c, e, env);
  }

  /**
   * No stale dial, timer, late close or late verdict, and no `pause` or `retryNow`, changes what a
   * connection that was stopped, paused or refused for good says about itself.
   */
  lemma {:induction false} StaysQuiet(c: Conn, events: seq<(Event, Env)>)
    requires Steady(c) && EnvsOk(events) && !Up(c)
    requires forall i :: 0 <= i < |events| ==> !Commanded(c, events[i].0)
    ensures var d := Run(c, events);
            d.status == c.status && d.error == c.error && d.running == c.running && d.paused == c.paused
    decreases |events|
  {
    if events != [] {
      assert EnvOk(events[0].1) && !Commanded(c, events[0].0);
      StepSteady(c, events[0].0, events[0].1);
      StepQuiet(c, events[0].0, events[0].1);
      StaysQuiet(Step(c, events[0].0, events[0].1), events[1..]);
    }
  }

  // ------------------------------------------- a socket that cannot be built

  /** The client believes it is dialling, and has no socket that could ever finish. */
  predicate Wedged(c: Conn) {
    c.state.Dialling? && c.socket.None?
  }

  lemma HandshakeWedges(c: Conn, e: Event, env: Env)
    requires Bound(c) && OfHandshake(e)
    ensures Wedged(React(c, e, env)) == Wedged(c)
  {
    if e.SocketErrored? {
      ErroredWedges(c, e.k, env);
    } else {
      TimeoutWedges(c, e.k, env);
    }
  }

  lemma ErroredWedges(c: Conn, k: nat, env: Env)
    requires Bound(c)
    ensures Wedged(OnErrored(c, k, env)) == Wedged(c)
  {
    if k in c.handshakes && c.socket == Some(k) {
      var failed := c.(handshakes := c.handshakes - {k}, state := Failed);
      RejectedWedges(if c.state.Failed? then failed else OnTransportClosed(failed, env), k, env);
    }
  }

  lemma TimeoutWedges(c: Conn, k: nat, env: Env)
    requires Bound(c)
    ensures Wedged(OnHandshakeTimeout(c, k, env)) == Wedged(c)
  {
    if k in c.handshakes {
      var settled := c.(handshakes := c.handshakes - {k});
      var failed := settled.(socket := None, live := false, state := Failed);
      RejectedWedges(if c.socket != Some(k) then settled
                     else if c.state.Failed? then failed else OnTransportClosed(failed, env), k, env);
    }
  }

  lemma SocketWedges(c: Conn, e: Event, env: Env)
    requires Bound(c) && OfSocket(e)
    ensures Wedged(React(c, e, env)) == Wedged(c)
  {
    if OfHandshake(e) {
      HandshakeWedges(c, e, env);
    } else if e.SocketClosed? {
      CloseWedges(c, e.k, e.code, env);
    }
  }

  lemma CloseWedges(c: Conn, k: nat, code: int, env: Env)
    requires Bound(c)
    ensures Wedged(OnSocketClosed(c, k, code, env)) == Wedged(c)
  {
    if k < c.sockets && k in c.handshakes {
      var coded := c.(lastCloseCode := Some(code));
      var dropped := if c.socket == Some(k) then CloseClient(coded, env) else coded;
      RejectedWedges(dropped.(handshakes := dropped.handshakes - {k}), k, env);
    }
  }

  lemma RejectedWedges(c: Conn, k: nat, env: Env)
    ensures Wedged(ConnectRejected(c, k, env)) <==> Wedged(c)
  {
  }

  lemma PlanWedges(c: Conn, plan: Plan, env: Env)
    requires c.dial == Some(Planning) && Up(c)
    ensures Wedged(OnPlan(c, plan, env)) <==> Wedged(c) || (plan.SocketThrows? && c.socket.None?)
  {
  }

  lemma OwnerWedges(c: Conn, e: Event, env: Env)
    requires !OfSocket(e) && !e.PlanSettled?
    ensures Wedged(React(c, e, env)) == Wedged(c)
  {
  }

  lemma ReactWedges(c: Conn, e: Event, env: Env)
    requires Steady(c)
    ensures Wedged(React(c, e, env)) <==>
              || Wedged(c)
              || (&& e.PlanSettled? && e.plan.SocketThrows?
                  && e.token !in c.stale && e.token == c.token && c.dial == Some(Planning)
                  && c.socket.None?)
  {
    if OfSocket(e) {
      SocketWedges(c, e, env);
    } else if e.PlanSettled? {
      if c.dial == Some(Planning) {
        PlanWedges(c, e.plan, env);
      }
    } else {
      OwnerWedges(c, e, env);
    }
  }

  /**
   * A dial wedges the client exactly when building the socket throws while no socket is bound: the
   * client announced the dial before it built the socket.
   */
  lemma WedgesExactlyWhen(c: Conn, e: Event, env: Env)
    requires Steady(c) && EnvOk(env) && !Wedged(c)
    ensures Wedged(Step(c, e, env)) <==>
              && e.PlanSettled? && e.plan.SocketThrows?
              && e.token !in c.stale && e.token == c.token && c.dial == Some(Planning)
              && c.socket.None?
  {
    ReactStirs(c, e, env);
    ReactWedges(c, e, env);
    WakingWedges(React(c, e, env), env);
  }

  /** A promise that settles ends a dial or completes it; either way no dial is announced. */
  lemma WakingWedges(c: Conn, env: Env)
    requires Stirred(c)
    ensures Wedged(Microtasks(c, env)) == Wedged(c)
  {
  }

  lemma StepWedged(c: Conn, e: Event, env: Env)
    requires Steady(c) && EnvOk(env) && Wedged(c)
    ensures var d := Step(c, e, env); Wedged(d) && d.status != Ready
  {
    ReactWedges(c, e, env);
    StepSteady(c, e, env);
  }

  /** Once wedged, no run of events ever makes the connection ready: every later dial waits for nothing. */
  lemma {:induction false} WedgedForEver(c: Conn, events: seq<(Event, Env)>)
    requires Steady(c) && EnvsOk(events) && Wedged(c)
    ensures Wedged(Run(c, events)) && Run(c, events).status != Ready
    decreases |events|
  {
    if events != [] {
      assert EnvOk(events[0].1);
      StepSteady(c, events[0].0, events[0].1);
      StepWedged(c, events[0].0, events[0].1);
      WedgedForEver(Step(c, events[0].0, events[0].1), events[1..]);
    }
  }

  const NoSocket := Failure(Network, None)

  /** Two events do it: a first dial whose socket cannot be built. */
  lemma ASocketThatCannotBeBuiltWedges(env: Env)
    requires EnvOk(env)
    ensures var events := [(Start, env), (PlanSettled(1, SocketThrows(NoSocket)), env)];
            EnvsOk(events) && Wedged(Run(Fresh, events)) && Up(Run(Fresh, events))
  {
    var first, second := (Start, env), (PlanSettled(1, SocketThrows(NoSocket)), env);
    RunTwo(Fresh, first, second);
    TheSocketThrows(Step(Fresh, Start, env), env);
  }

  lemma RunTwo(c: Conn, first: (Event, Env), second: (Event, Env))
    ensures Run(c, [first, second]) == Step(Step(c, first.0, first.1), second.0, second.1)
  {
    assert [first, second][1..] == [second];
    var d := Step(c, first.0, first.1);
    assert Run(d, [second]) == Run(Step(d, second.0, second.1), []);
  }

  lemma TheSocketThrows(c: Conn, env: Env)
    requires Up(c) && c.dial == Some(Planning) && c.token == 1 && c.stale == {} && c.status != Ready
    requires c.socket.None? && c.waiter.None? && c.lastCloseCode.None? && !c.state.Dialling?
    ensures var d := Step(c, PlanSettled(1, SocketThrows(NoSocket)), env); Wedged(d) && Up(d)
  {
    var failed := c.(dial := None, waiter := Some(1), status := Connecting, state := Dialling);
    assert React(c, PlanSettled(1, SocketThrows(NoSocket)), env) == HandleFailure(failed, NoSocket, env);
    NoSocketClimbs(failed, env);
  }

  lemma NoSocketClimbs(c: Conn, env: Env)
    requires Up(c) && c.dial.None? && c.socket.None? && c.status != Ready && c.lastCloseCode.None?
    ensures var d := HandleFailure(c, NoSocket, env); Up(d) && d.dial.None? && d.socket.None? && d.state == c.state
  {
    var noted := c.(lastFailureAt := Some(env.now));
    IdleTeardown(noted, env);
    assert HandleFailure(c, NoSocket, env) == ScheduleReconnect(noted, NoSocket, env);
  }
}
