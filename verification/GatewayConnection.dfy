/** The connection as the object it is: every method leaves the state its specification computes. */
module GatewayConnection {
  import opened Prelude
  import opened Backoff
  import C = Connection

  /** The client's state and bound socket, the handshakes still open, and how many sockets there have been. */
  datatype Client = Client(state: C.SocketState, socket: Option<nat>, live: bool, handshakes: set<nat>, sockets: nat)

  /** Where the dial with the current token stands, the abandoned ones, and the verdicts asked for. */
  datatype Calls = Calls(dial: Option<C.Phase>, stale: set<nat>, questions: map<nat, C.Question>, asked: nat)

  class GatewayConnection {
    var running: bool
    var paused: bool
    var online: bool
    var attempt: nat
    var consecutiveAuthFailures: nat
    var consecutiveTicketRejections: nat
    var dialToken: nat
    var retryTimer: Option<C.Wait>
    var offlineTimer: bool
    var lastDialFailureAt: Option<int>
    var lastCloseCode: Option<int>
    /** The token of the dial that registered the waiter. */
    var readyWaiter: Option<nat>
    var currentStatus: C.Status
    var currentError: Option<C.Failure>

    /** The client and its socket generations. */
    var client: Client
    /** The calls that are suspended: the dials, and those to `onRejected`. */
    var calls: Calls

    /** What happened since the tallies were last put back to zero; nothing above depends on it. */
    var window: C.Window

    ghost function Model(): C.Conn
      reads this
    {
      C.Conn(running, paused, online, attempt, consecutiveAuthFailures, consecutiveTicketRejections,
             dialToken, calls.dial, calls.stale, retryTimer, offlineTimer, lastDialFailureAt, lastCloseCode, readyWaiter,
             currentStatus, currentError,
             client.state, client.socket, client.live, client.handshakes, client.sockets,
             calls.questions, calls.asked, window)
    }

    ghost function Weight(): nat
      reads this
    {
      if client.socket.Some? then 1 else 0
    }

    constructor ()
      ensures Model() == C.Fresh
    {
      running, paused, online, attempt := false, false, true, 0;
      consecutiveAuthFailures, consecutiveTicketRejections := 0, 0;
      dialToken, calls := 0, Calls(None, {}, map[], 0);
      retryTimer, offlineTimer, lastDialFailureAt, lastCloseCode, readyWaiter := None, false, None, None, None;
      currentStatus, currentError := C.Disconnected, None;
      client := Client(C.Idle, None, false, {}, 0);
      window := C.Window(0, 0, 0, {}, {}, 0);
    }

    // ------------------------------------------------------- the inner steps

    method ResetTallies()
      modifies this
      ensures Model() == C.ResetTallies(old(Model()))
    {
      consecutiveAuthFailures := 0;
      consecutiveTicketRejections := 0;
      window := C.Window(window.id + 1, 0, 0, {}, calls.questions.Keys, 0);
    }

    /** `setStatus` without an error leaves the explanation as it is. */
    method SetStatus(status: C.Status)
      modifies `currentStatus
      ensures Model() == C.SetStatus(old(Model()), status)
    {
      currentStatus := status;
    }

    method SetStatusAndError(status: C.Status, error: Option<C.Failure>)
      modifies `currentStatus, `currentError
      ensures Model() == old(Model()).(status := status, error := error)
    {
      currentError := error;
      currentStatus := status;
    }

    method BumpToken()
      modifies this
      ensures Model() == C.BumpToken(old(Model()))
    {
      calls := calls.(dial := None, stale := if calls.dial.Some? then calls.stale + {dialToken} else calls.stale);
      dialToken := dialToken + 1;
    }

    method RunDial(cause: C.Cause)
      modifies this
      ensures Model() == C.RunDial(old(Model()), cause)
    {
      BumpToken();
      retryTimer := None;
      lastCloseCode := None;
      window := C.CountRedial(window, cause);
      SetStatus(C.Authenticating);
      calls := calls.(dial := Some(C.Planning));
    }

    method SettlePromise(p: C.Promise)
      modifies this
      ensures Model() == C.SettlePromise(old(Model()), p)
    {
      var waiter := readyWaiter;
      readyWaiter := None;
      if waiter == Some(dialToken) {
        match calls.dial
        case Some(Opening(k, Pending)) => calls := calls.(dial := Some(C.Opening(k, p)));
        case Some(Waiting(Pending)) => calls := calls.(dial := Some(C.Waiting(p)));
        case _ =>
      }
    }

    method RejectReadyWaiter(failure: C.Failure)
      modifies this
      ensures Model() == C.RejectWaiter(old(Model()), failure)
    {
      if readyWaiter.Some? {
        SettlePromise(C.Refused(failure));
      }
    }

    method OnTransportClosed(env: C.Env)
      modifies this
      ensures Model() == C.OnTransportClosed(old(Model()), env)
      decreases Weight(), 9
    {
      if !running || paused {
        return;
      }
      if readyWaiter.Some? {
        RejectReadyWaiter(C.Failure(C.Network, lastCloseCode));
      } else if currentStatus == C.Ready {
        HandleFailure(C.Failure(C.Network, lastCloseCode), env);
      }
    }

    method CloseClient(env: C.Env)
      modifies this
      ensures Model() == C.CloseClient(old(Model()), env)
      decreases Weight(), 0
    {
      if client.socket.Some? {
        var already := client.state.Closed?;
        client := client.(socket := None, live := false, state := C.Closed);
        assert Model() == old(Model()).(socket := None, live := false, state := C.Closed);
        if !already {
          OnTransportClosed(env);
        }
      }
    }

    method TeardownSocket(env: C.Env)
      modifies this
      ensures Model() == C.TeardownSocket(old(Model()), env)
      decreases Weight(), 1
    {
      RejectReadyWaiter(C.Failure(C.Network, None));
      CloseClient(env);
    }

    method Teardown(env: C.Env)
      modifies this
      ensures Model() == C.Teardown(old(Model()), env)
      decreases Weight(), 2
    {
      BumpToken();
      retryTimer := None;
      offlineTimer := false;
      TeardownSocket(env);
    }

    method Terminate(status: C.Status, failure: C.Failure, env: C.Env)
      modifies this
      ensures Model() == C.Terminate(old(Model()), status, failure, env)
      decreases Weight(), 3
    {
      running := false;
      assert Model() == old(Model()).(running := false);
      Teardown(env);
      SetStatusAndError(status, Some(failure));
    }

    method HandleFailure(failure: C.Failure, env: C.Env)
      modifies this
      ensures Model() == C.HandleFailure(old(Model()), failure, env)
      decreases Weight(), 8
    {
      var code := if failure.closeCode.Some? then failure.closeCode else lastCloseCode;
      lastDialFailureAt := Some(env.now);
      assert Model() == old(Model()).(lastFailureAt := Some(env.now));
      if C.IsConfigCode(code) {
        Terminate(C.Disconnected, C.Failure(C.Config, code), env);
      } else if failure.kind.Tls? || failure.kind.Config? {
        Terminate(C.Disconnected, failure, env);
      } else {
        Recover(failure, code, env);
      }
    }

    /** The failures that dialling again can change. */
    method Recover(failure: C.Failure, code: Option<int>, env: C.Env)
      modifies this
      ensures Model() == C.Recover(old(Model()), failure, code, env)
      decreases Weight(), 7
    {
      if code == Some(4401) {
        CountStreak();
        HandleTicketRejection(failure, env);
      } else if failure.kind.Auth? {
        CountStreak();
        HandleAuthFailure(failure, env);
      } else {
        ScheduleReconnect(failure, env);
      }
    }

    method CountStreak()
      modifies `window
      ensures Model() == C.Streak(old(Model()))
    {
      window := window.(streak := window.streak + 1);
    }

    method ExplainWith(failure: C.Failure)
      modifies `currentError
      ensures Model() == old(Model()).(error := Some(failure))
    {
      currentError := Some(failure);
    }

    method HandleTicketRejection(failure: C.Failure, env: C.Env)
      modifies this
      ensures Model() == C.HandleTicketRejection(old(Model()), failure, env)
      decreases Weight(), 6
    {
      consecutiveTicketRejections := consecutiveTicketRejections + 1;
      assert Model() == old(Model()).(ticketRejections := old(Model()).ticketRejections + 1);
      if consecutiveTicketRejections == 1 {
        TeardownSocket(env);
        if !running || paused {
          return;
        }
        ExplainWith(failure);
        RunDial(C.Ticket);
      } else {
        HandleAuthFailure(failure, env);
      }
    }

    method HandleAuthFailure(failure: C.Failure, env: C.Env)
      modifies this
      ensures Model() == C.HandleAuthFailure(old(Model()), failure, env)
      decreases Weight(), 5
    {
      consecutiveAuthFailures := consecutiveAuthFailures + 1;
      ghost var counted := Model();
      assert counted == old(Model()).(authFailures := old(Model()).authFailures + 1);
      TeardownSocket(env);
      assert Model() == C.TeardownSocket(counted, env);
      if consecutiveAuthFailures > 1 {
        Terminate(C.NeedsSignin, C.Failure(C.Auth, failure.closeCode), env);
      } else {
        AskForAVerdict(failure);
      }
    }

    /** The call to `onRejected` goes out, and is left suspended. */
    method AskForAVerdict(failure: C.Failure)
      modifies `calls
      ensures Model() == C.Ask(old(Model()), failure)
    {
      calls := calls.(questions := calls.questions[calls.asked := C.Question(failure, window.id)],
                      asked := calls.asked + 1);
    }

    method ScheduleReconnect(failure: C.Failure, env: C.Env)
      modifies this
      ensures Model() == C.ScheduleReconnect(old(Model()), failure, env)
      decreases Weight(), 4
    {
      TeardownSocket(env);
      ResetTallies();
      if running && !paused {
        Climb(failure, env.draw);
      }
    }

    method Climb(failure: C.Failure, draw: real)
      modifies this
      ensures forall env: C.Env :: env.draw == draw ==> Model() == C.Climb(old(Model()), failure, env)
    {
      var rung := if failure.kind.Protocol? then Max(attempt, PROTOCOL_LADDER_FLOOR) else attempt;
      attempt := rung + 1;
      SetStatusAndError(if online then C.Reconnecting else C.Offline, Some(failure));
      retryTimer := Some(C.Wait(DelayMs(rung, draw), failure.kind));
    }

    // -------------------------------------------------- the owner's own calls

    method Start(env: C.Env)
      modifies this
      ensures Model() == C.React(old(Model()), C.Start, env)
    {
      if running {
        return;
      }
      running, paused, attempt := true, false, 0;
      assert Model() == old(Model()).(running := true, paused := false, attempt := 0);
      ResetTallies();
      RunDial(C.Asked);
    }

    method Stop(env: C.Env)
      modifies this
      ensures Model() == C.React(old(Model()), C.Stop, env)
    {
      running, paused := false, false;
      assert Model() == old(Model()).(running := false, paused := false);
      Teardown(env);
      SetStatusAndError(C.Disconnected, None);
    }

    method Pause(env: C.Env)
      modifies this
      ensures Model() == C.React(old(Model()), C.Pause, env)
    {
      if paused || !running {
        return;
      }
      paused := true;
      Teardown(env);
      SetStatusAndError(C.Paused, None);
    }

    method Resume(env: C.Env)
      modifies this
      ensures Model() == C.OnResume(old(Model()))
    {
      if !paused && running {
        return;
      }
      paused, running, attempt := false, true, 0;
      assert Model() == old(Model()).(running := true, paused := false, attempt := 0);
      ResetTallies();
      ghost var reset := Model();
      offlineTimer := false;
      assert Model() == reset.(offlineTimer := false);
      RunDial(C.Asked);
    }

    method RetryNow(env: C.Env)
      modifies this
      ensures Model() == C.React(old(Model()), C.RetryNow, env)
    {
      if !running || paused {
        return;
      }
      attempt := 0;
      ResetTallies();
      RunDial(C.Asked);
    }

    method SetOnline(reported: bool, env: C.Env)
      modifies this
      ensures Model() == C.React(old(Model()), C.SetOnline(reported), env)
    {
      var withinGrace := offlineTimer;
      if reported {
        offlineTimer := false;
      }
      if online == reported {
        return;
      }
      online := reported;
      if !reported {
        if currentStatus != C.Ready {
          if running && !paused {
            SetStatus(C.Offline);
          }
          return;
        }
        offlineTimer := true;
        return;
      }
      if withinGrace || !running || paused || currentStatus == C.Ready {
        return;
      }
      if lastDialFailureAt.Some? && env.now - lastDialFailureAt.value <= C.DIAL_FAILURE_RECENT_MS {
        SetStatus(C.Reconnecting);
        return;
      }
      RetryNow(env);
    }

    // ------------------------------------------------------ what wakes a dial

    method Fail(failure: C.Failure, env: C.Env)
      modifies this
      ensures Model() == C.Fail(old(Model()), failure, env)
    {
      calls := calls.(dial := None);
      if running && !paused {
        HandleFailure(failure, env);
      }
    }

    method RunMicrotasks(env: C.Env)
      modifies this
      ensures Model() == C.Microtasks(old(Model()), env)
    {
      match calls.dial
      case Some(Waiting(Arrived)) =>
        calls := calls.(dial := None);
        if running && !paused {
          attempt, lastDialFailureAt := 0, None;
          assert Model() == old(Model()).(dial := None, attempt := 0, lastFailureAt := None);
          ResetTallies();
          SetStatusAndError(C.Ready, None);
        }
      case Some(Waiting(Refused(failure))) => Fail(failure, env);
      case _ =>
    }

    method PlanSettled(token: nat, plan: C.Plan, env: C.Env)
      modifies this
      ensures Model() == C.React(old(Model()), C.PlanSettled(token, plan), env)
    {
      if token in calls.stale {
        calls := calls.(stale := calls.stale - {token});
      } else if token == dialToken && calls.dial == Some(C.Planning) {
        if plan.Throws? {
          Fail(plan.failure, env);
        } else if !running || paused {
          calls := calls.(dial := None);
        } else {
          RejectReadyWaiter(C.Failure(C.Network, None));
          readyWaiter := Some(dialToken);
          SetStatus(C.Connecting);
          Connect(plan, env);
        }
      }
    }

    /** `client.connect`: the client announces the dial, and then builds the socket. */
    method Connect(plan: C.Plan, env: C.Env)
      requires !plan.Throws? && running && !paused && calls.dial == Some(C.Planning)
      modifies this
      ensures var c := old(Model());
              Model() == if (c.socket.Some? && c.live) || c.state.Dialling? then c.(dial := Some(C.Waiting(C.Pending)))
                         else if plan.SocketThrows? then C.Fail(c.(state := C.Dialling), plan.failure, env)
                         else c.(dial := Some(C.Opening(c.sockets, C.Pending)), state := C.Dialling,
                                 socket := Some(c.sockets), live := false,
                                 handshakes := c.handshakes + {c.sockets}, sockets := c.sockets + 1)
    {
      if (client.socket.Some? && client.live) || client.state.Dialling? {
        calls := calls.(dial := Some(C.Waiting(C.Pending)));
        return;
      }
      client := client.(state := C.Dialling);
      assert Model() == old(Model()).(state := C.Dialling);
      if plan.SocketThrows? {
        Fail(plan.failure, env);
        return;
      }
      calls := calls.(dial := Some(C.Opening(client.sockets, C.Pending)));
      client := client.(socket := Some(client.sockets), live := false,
                        handshakes := client.handshakes + {client.sockets}, sockets := client.sockets + 1);
    }

    /** `connect()` rejects: only the dial that awaits that handshake hears of it. */
    method ConnectRejected(k: nat, env: C.Env)
      modifies this
      ensures Model() == C.ConnectRejected(old(Model()), k, env)
    {
      match calls.dial
      case Some(Opening(awaited, _)) =>
        if awaited == k {
          Fail(C.Failure(C.Network, None), env);
        }
      case _ =>
    }

    // -------------------------------------------------------- socket, timers

    method SocketOpened(k: nat, env: C.Env)
      modifies this
      ensures Model() == C.React(old(Model()), C.SocketOpened(k), env)
    {
      if k !in client.handshakes || client.socket != Some(k) {
        return;
      }
      client := client.(handshakes := client.handshakes - {k}, state := C.Open, live := true);
      match calls.dial
      case Some(Opening(awaited, ready)) =>
        if awaited == k {
          calls := calls.(dial := Some(C.Waiting(ready)));
        }
      case _ =>
    }

    method SocketErrored(k: nat, env: C.Env)
      modifies this
      ensures Model() == C.React(old(Model()), C.SocketErrored(k), env)
    {
      if k !in client.handshakes || client.socket != Some(k) {
        return;
      }
      var already := client.state.Failed?;
      client := client.(handshakes := client.handshakes - {k}, state := C.Failed);
      if !already {
        OnTransportClosed(env);
      }
      ConnectRejected(k, env);
    }

    method HandshakeTimedOut(k: nat, env: C.Env)
      modifies this
      ensures Model() == C.React(old(Model()), C.HandshakeTimedOut(k), env)
    {
      if k !in client.handshakes {
        return;
      }
      client := client.(handshakes := client.handshakes - {k});
      ghost var settled := Model();
      assert settled == old(Model()).(handshakes := old(Model()).handshakes - {k});
      if client.socket == Some(k) {
        var already := client.state.Failed?;
        client := client.(socket := None, live := false, state := C.Failed);
        assert Model() == settled.(socket := None, live := false, state := C.Failed);
        if !already {
          OnTransportClosed(env);
        }
      }
      ConnectRejected(k, env);
    }

    method SocketClosed(k: nat, code: int, env: C.Env)
      modifies this
      ensures Model() == C.OnSocketClosed(old(Model()), k, code, env)
    {
      if k >= client.sockets {
        return;
      }
      lastCloseCode := Some(code);
      assert Model() == old(Model()).(lastCloseCode := Some(code));
      if client.socket == Some(k) {
        CloseClient(env);
      }
      if k in client.handshakes {
        client := client.(handshakes := client.handshakes - {k});
        ConnectRejected(k, env);
      }
    }

    method OnGatewayReady(env: C.Env)
      modifies this
      ensures Model() == C.React(old(Model()), C.GatewayReady, env)
    {
      if client.socket.Some? && client.state.Open? {
        SettlePromise(C.Arrived);
      }
    }

    method ReadyTimedOut(env: C.Env)
      modifies this
      ensures Model() == C.React(old(Model()), C.ReadyTimedOut, env)
    {
      RejectReadyWaiter(C.Failure(C.Timeout, None));
    }

    method RetryFires(env: C.Env)
      modifies this
      ensures Model() == C.React(old(Model()), C.RetryFires, env)
    {
      if retryTimer.Some? {
        retryTimer := None;
        RunDial(C.Ladder);
      }
    }

    method GraceEnds(env: C.Env)
      modifies this
      ensures Model() == C.OnGraceEnds(old(Model()), env)
    {
      if offlineTimer {
        offlineTimer := false;
        TeardownSocket(env);
        ScheduleReconnect(C.Failure(C.Network, None), env);
      }
    }

    method VerdictSettled(id: nat, answer: C.Answer, env: C.Env)
      modifies this
      ensures Model() == C.React(old(Model()), C.VerdictSettled(id, answer), env)
    {
      if id !in calls.questions {
        return;
      }
      var question := calls.questions[id];
      calls := calls.(questions := calls.questions - {id});
      ghost var heard := Model();
      assert heard == old(Model()).(questions := old(Model()).questions - {id});
      if answer.Broken? {
        ScheduleReconnect(answer.failure, env);
        return;
      }
      if !running || paused {
        return;
      }
      if answer.Reauth? {
        Terminate(C.NeedsSignin, C.Failure(C.Auth, None), env);
        return;
      }
      ExplainWith(question.failure);
      RunDial(C.Verdict(id, question.window));
    }
  }
}
