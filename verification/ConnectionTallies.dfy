/** The two tallies: how often the connection redials at once, and when it asks for a sign-in. */
module ConnectionTallies {
  import opened Prelude
  import opened Connection
  import opened ConnectionFlow

  // ------------------------------------------------------------- invariant

  ghost predicate Own(window: nat, questions: map<nat, Question>, id: nat) {
    id in questions && questions[id].window == window
  }

  /** The tallies account for the redials that did not wait, and for the auth-class failures. */
  ghost predicate Counted(w: Window, tickets: nat, auth: nat) {
    && w.ticket <= 1 && (tickets == 0 ==> w.ticket == 0)
    && w.verdict <= 1 && (auth == 0 ==> w.verdict == 0)
    && auth <= w.streak
    && w.late <= w.inherited
  }

  /** At most one open question is about this window's failures; the others were open before it. */
  ghost predicate QuestionsOk(window: nat, answered: bool, inherited: set<nat>, questions: map<nat, Question>, asked: nat) {
    && (answered ==> forall id :: !Own(window, questions, id))
    && (forall i, j :: Own(window, questions, i) && Own(window, questions, j) ==> i == j)
    && (forall id :: id in questions ==> id < asked && questions[id].window <= window)
    && (forall id :: id in questions && !Own(window, questions, id) ==> id in inherited)
  }

  ghost predicate Tally(c: Conn) {
    && Counted(c.window, c.ticketRejections, c.authFailures)
    && QuestionsOk(c.window.id, c.window.verdict == 1 || c.authFailures == 0, c.window.inherited, c.questions, c.asked)
  }

  /** `d` keeps the books of `c` as they are. */
  ghost predicate SameBooks(c: Conn, d: Conn) {
    && d.window == c.window && d.questions == c.questions && d.asked == c.asked
    && d.ticketRejections == c.ticketRejections && d.authFailures == c.authFailures
  }

  /** `needs_signin` was there already, or two auth-class failures in a row explain it. */
  ghost predicate Deserved(c: Conn, d: Conn) {
    d.status == NeedsSignin ==> c.status == NeedsSignin || d.window.streak >= 2
  }

  lemma SameBooksTally(c: Conn, d: Conn)
    requires Tally(c) && SameBooks(c, d)
    ensures Tally(d)
  {
  }

  // -------------------------------------------------------- the operations

  lemma ResetTally(c: Conn)
    requires Tally(c)
    ensures Tally(ResetTallies(c))
  {
  }

  lemma AskTally(c: Conn, failure: Failure)
    requires Counted(c.window, c.ticketRejections, c.authFailures) && c.authFailures > 0 && c.window.verdict == 0
    requires QuestionsOk(c.window.id, true, c.window.inherited, c.questions, c.asked)
    ensures Tally(Ask(c, failure))
  {
    var d := Ask(c, failure);
    forall id | id != c.asked ensures Own(d.window.id, d.questions, id) == Own(c.window.id, c.questions, id) {
    }
  }

  lemma StreakTally(c: Conn, env: Env)
    requires Tally(c)
    ensures var d := Streak(c.(lastFailureAt := Some(env.now))); Tally(d) && d.authFailures < d.window.streak
  {
  }

  lemma CountTicketTally(c: Conn)
    requires Tally(c)
    ensures Tally(c.(ticketRejections := c.ticketRejections + 1))
  {
  }

  lemma CountAuthTally(c: Conn)
    requires Tally(c) && c.authFailures < c.window.streak
    ensures Tally(c.(authFailures := c.authFailures + 1))
  {
  }

  lemma TerminateTallies(c: Conn, status: Status, failure: Failure, env: Env)
    requires Flow(c) && Tally(c)
    ensures var d := Terminate(c, status, failure, env); Tally(d) && SameBooks(c, d) && d.status == status
  {
  }

  /** The ticket is refused for the first time: one redial, and only one, goes out at once. */
  lemma FirstTicketTallies(c: Conn, failure: Failure, env: Env)
    requires MayFail(c) && Tally(c) && c.ticketRejections == 0
    ensures var d := HandleTicketRejection(c, failure, env); Tally(d) && d.status != NeedsSignin
  {
    var counted := c.(ticketRejections := 1);
    IdleTeardown(counted, env);
    SameBooksTally(counted, TeardownSocket(counted, env).(error := Some(failure)));
  }

  lemma AuthTallies(c: Conn, failure: Failure, env: Env)
    requires MayFail(c) && c.status != Ready && Tally(c) && c.authFailures < c.window.streak
    ensures var d := HandleAuthFailure(c, failure, env); Tally(d) && Deserved(c, d)
  {
    var counted := c.(authFailures := c.authFailures + 1);
    CountAuthTally(c);
    QuietTeardown(counted, env);
    var down := TeardownSocket(counted, env);
    if down.authFailures > 1 {
      SameBooksTally(counted, down);
      TerminateTallies(down, NeedsSignin, Failure(Auth, failure.closeCode), env);
    } else {
      AskTally(down, failure);
    }
  }

  lemma TicketTallies(c: Conn, failure: Failure, env: Env)
    requires MayFail(c) && Tally(c) && c.authFailures < c.window.streak
    ensures var d := HandleTicketRejection(c, failure, env);
            Tally(d) && Deserved(c, d) && (c.status == Ready ==> d.status != NeedsSignin)
  {
    var counted := c.(ticketRejections := c.ticketRejections + 1);
    if c.ticketRejections == 0 {
      FirstTicketTallies(c, failure, env);
    } else {
      CountTicketTally(c);
      AuthTallies(counted, failure, env);
    }
  }

  /** The two kinds of failure the tallies count. */
  predicate AuthClass(c: Conn, failure: Failure) {
    var code := if failure.closeCode.Some? then failure.closeCode else c.lastCloseCode;
    !IsConfigCode(code) && !failure.kind.Tls? && !failure.kind.Config? && (code == Some(4401) || failure.kind.Auth?)
  }

  lemma AuthClassTallies(c: Conn, failure: Failure, env: Env)
    requires MayFail(c) && Tally(c) && (c.status == Ready ==> !failure.kind.Auth?) && AuthClass(c, failure)
    ensures var d := HandleFailure(c, failure, env);
            Tally(d) && Deserved(c, d) && (c.status == Ready ==> d.status != NeedsSignin)
  {
    var noted := c.(lastFailureAt := Some(env.now));
    var code := if failure.closeCode.Some? then failure.closeCode else c.lastCloseCode;
    StreakTally(c, env);
    if code == Some(4401) {
      TicketTallies(Streak(noted), failure, env);
    } else {
      AuthTallies(Streak(noted), failure, env);
    }
  }

  lemma FailureTallies(c: Conn, failure: Failure, env: Env)
    requires MayFail(c) && Tally(c) && (c.status == Ready ==> !failure.kind.Auth?)
    ensures var d := HandleFailure(c, failure, env);
            Tally(d) && Deserved(c, d) && (c.status == Ready ==> d.status != NeedsSignin)
    decreases SocketWeight(c), 7
  {
    var noted := c.(lastFailureAt := Some(env.now));
    var code := if failure.closeCode.Some? then failure.closeCode else c.lastCloseCode;
    SameBooksTally(c, noted);
    if AuthClass(c, failure) {
      AuthClassTallies(c, failure, env);
    } else if IsConfigCode(code) {
      TerminateTallies(noted, Disconnected, Failure(Config, code), env);
    } else if failure.kind.Tls? || failure.kind.Config? {
      TerminateTallies(noted, Disconnected, failure, env);
    } else {
      ScheduleTallies(noted, failure, env);
    }
  }

  lemma LiveTeardown(c: Conn, env: Env)
    requires Flow(c) && c.status == Ready && c.socket.Some? && c.state.Open?
    ensures TeardownSocket(c, env) ==
            HandleFailure(c.(socket := None, live := false, state := Closed), Failure(Network, c.lastCloseCode), env)
  {
    var dropped := c.(socket := None, live := false, state := Closed);
    assert OnTransportClosed(dropped, env) == HandleFailure(dropped, Failure(Network, c.lastCloseCode), env);
    assert CloseClient(c, env) == OnTransportClosed(dropped, env);
    assert RejectWaiter(c, Failure(Network, None)) == c;
  }

  /** A live connection that is closed fails as if its socket had dropped; anything else only unplugs. */
  lemma TeardownTallies(c: Conn, env: Env)
    requires Flow(c) && Tally(c)
    requires c.status == Ready ==> c.socket.None? || c.state.Open?
    ensures var d := TeardownSocket(c, env); Tally(d) && (d.status == NeedsSignin ==> c.status == NeedsSignin)
    decreases SocketWeight(c), 1
  {
    if c.status == Ready && c.socket.Some? {
      LiveTeardown(c, env);
      FailureTallies(c.(socket := None, live := false, state := Closed), Failure(Network, c.lastCloseCode), env);
    } else {
      QuietTeardown(c, env);
      SameBooksTally(c, TeardownSocket(c, env));
    }
  }

  /** Waiting on the ladder is never the same as asking for a sign-in. */
  lemma ScheduleTallies(c: Conn, failure: Failure, env: Env)
    requires Flow(c) && Tally(c)
    requires c.status == Ready ==> c.socket.None? || c.state.Open?
    ensures var d := ScheduleReconnect(c, failure, env); Tally(d) && (d.status == NeedsSignin ==> c.status == NeedsSignin)
    decreases SocketWeight(c), 4
  {
    TeardownTallies(c, env);
    ResetTally(TeardownSocket(c, env));
  }

  // --------------------------------------------------------------- one step

  lemma FailTallies(c: Conn, failure: Failure, env: Env)
    requires Flow(c.(dial := None)) && Up(c) && c.status != Ready && Tally(c)
    ensures var d := Fail(c, failure, env); Tally(d) && Deserved(c, d)
  {
    SameBooksTally(c, c.(dial := None));
    FailureTallies(c.(dial := None), failure, env);
  }

  /** A dial nobody waits for any longer, or one that was asked for, counts for nothing. */
  lemma FreeDialTallies(c: Conn, cause: Cause)
    requires Tally(c) && (cause.Asked? || cause.Ladder?)
    ensures Tally(RunDial(c, cause))
  {
  }

  lemma OwnVerdictTallies(c: Conn, id: nat)
    requires Tally(c) && Own(c.window.id, c.questions, id)
    ensures var q := c.questions[id];
            Tally(RunDial(c.(questions := c.questions - {id}, error := Some(q.failure)), Verdict(id, q.window)))
  {
    var heard := c.questions - {id};
    forall i ensures Own(c.window.id, heard, i) <==> i != id && Own(c.window.id, c.questions, i) {
    }
    assert c.window.verdict == 0 && c.authFailures > 0;
  }

  lemma LateVerdictTallies(c: Conn, id: nat)
    requires Tally(c) && id in c.questions && !Own(c.window.id, c.questions, id)
    ensures var q := c.questions[id];
            Tally(RunDial(c.(questions := c.questions - {id}, error := Some(q.failure)), Verdict(id, q.window)))
  {
    ForgetTallies(c, id);
  }

  lemma ForgetTallies(c: Conn, id: nat)
    requires Tally(c)
    ensures Tally(c.(questions := c.questions - {id}))
  {
    var heard := c.questions - {id};
    forall i ensures Own(c.window.id, heard, i) <==> i != id && Own(c.window.id, c.questions, i) {
    }
  }

  lemma VerdictTallies(c: Conn, id: nat, answer: Answer, env: Env)
    requires Steady(c) && Tally(c) && EnvOk(env)
    ensures var d := OnVerdict(c, id, answer, env);
            Tally(d) && (d.status == NeedsSignin && c.status != NeedsSignin ==> answer.Reauth? && id in c.questions && Up(c))
  {
    if id in c.questions {
      var heard := c.(questions := c.questions - {id});
      ForgetTallies(c, id);
      if answer.Broken? {
        ScheduleTallies(heard, answer.failure, env);
      } else if Up(heard) {
        if answer.Reauth? {
          TerminateTallies(heard, NeedsSignin, Failure(Auth, None), env);
        } else {
          if c.questions[id].window == c.window.id {
            OwnVerdictTallies(c, id);
          } else {
            LateVerdictTallies(c, id);
          }
        }
      }
    }
  }

  /** What an event makes of the tallies, a verdict aside. */
  ghost predicate Keeps(c: Conn, d: Conn) {
    Tally(d) && Deserved(c, d)
  }

  lemma CloseTallies(c: Conn, env: Env)
    requires Steady(c) && Tally(c)
    ensures Keeps(c, CloseClient(c, env)) && (c.status != Ready ==> SameBooks(c, CloseClient(c, env)))
  {
    if c.status == Ready {
      LiveTeardown(c, env);
      assert TeardownSocket(c, env) == CloseClient(c, env);
      FailureTallies(c.(socket := None, live := false, state := Closed), Failure(Network, c.lastCloseCode), env);
    } else {
      var dropped := c.(socket := None, live := false, state := Closed);
      assert SameBooks(dropped, OnTransportClosed(dropped, env));
      SameBooksTally(c, CloseClient(c, env));
    }
  }

  lemma PlanTallies(c: Conn, plan: Plan, env: Env)
    requires Steady(c) && Tally(c) && c.dial == Some(Planning)
    ensures Keeps(c, OnPlan(c, plan, env))
  {
    var waiting := SetStatus(RejectWaiter(c, Failure(Network, None)).(waiter := Some(c.token)), Connecting);
    if plan.Throws? {
      FailTallies(c, plan.failure, env);
    } else if (c.socket.Some? && c.live) || c.state.Dialling? || plan.Minted? {
      SameBooksTally(c, OnPlan(c, plan, env));
    } else {
      SameBooksTally(c, waiting.(state := Dialling));
      FailTallies(waiting.(state := Dialling), plan.failure, env);
    }
  }

  lemma RejectionTallies(c: Conn, k: nat, env: Env)
    requires Flow(c.(dial := None)) && Tally(c)
    requires c.dial.Some? ==> Up(c) && c.status != Ready && c.status != NeedsSignin
    ensures Keeps(c, ConnectRejected(c, k, env))
  {
    match c.dial
    case Some(Opening(socket, _)) =>
      if socket == k {
        FailTallies(c, Failure(Network, None), env);
      }
    case _ =>
  }

  lemma ErroredTallies(c: Conn, k: nat, env: Env)
    requires Steady(c) && Tally(c)
    ensures Keeps(c, OnErrored(c, k, env))
  {
    if k in c.handshakes && c.socket == Some(k) {
      var failed := c.(handshakes := c.handshakes - {k}, state := Failed);
      var told := if c.state.Failed? then failed else OnTransportClosed(failed, env);
      SameBooksTally(c, told);
      RejectionTallies(told, k, env);
    }
  }

  lemma HandshakeTimeoutTallies(c: Conn, k: nat, env: Env)
    requires Steady(c) && Tally(c)
    ensures Keeps(c, OnHandshakeTimeout(c, k, env))
  {
    if k in c.handshakes {
      var settled := c.(handshakes := c.handshakes - {k});
      var failed := settled.(socket := None, live := false, state := Failed);
      var told := if c.socket != Some(k) then settled
                  else if c.state.Failed? then failed else OnTransportClosed(failed, env);
      SameBooksTally(c, told);
      RejectionTallies(told, k, env);
    }
  }

  lemma SocketClosedTallies(c: Conn, k: nat, code: int, env: Env)
    requires Steady(c) && Tally(c) && EnvOk(env)
    ensures Keeps(c, OnSocketClosed(c, k, code, env))
  {
    var coded := c.(lastCloseCode := Some(code));
    SameBooksTally(c, coded);
    CloseTallies(coded, env);
    CloseStirs(coded, env);
    if k < c.sockets && k in c.handshakes {
      var dropped := if c.socket == Some(k) then CloseClient(coded, env) else coded;
      SameBooksTally(dropped, dropped.(handshakes := dropped.handshakes - {k}));
      RejectionTallies(dropped.(handshakes := dropped.handshakes - {k}), k, env);
    }
  }

  lemma StoppingTallies(c: Conn, status: Status, env: Env)
    requires !Up(c) && Tally(c)
    ensures Tally(SetStatus(Teardown(c, env), status).(error := None))
  {
  }

  /** The owner's own calls and the two timers of the retry loop. */
  predicate OfOwner(e: Event) {
    e.Start? || e.Stop? || e.Pause? || e.Resume? || e.RetryNow? || e.RetryFires? || e.SetOnline?
  }

  lemma ReviveTallies(c: Conn)
    requires Tally(c)
    ensures Tally(RunDial(ResetTallies(c), Asked))
  {
  }

  lemma OwnerTallies(c: Conn, e: Event, env: Env)
    requires Steady(c) && Tally(c) && OfOwner(e)
    ensures Keeps(c, React(c, e, env))
  {
    match e
    case Start => ReviveTallies(c.(running := true, paused := false, attempt := 0));
    case Stop => StoppingTallies(c.(running := false, paused := false), Disconnected, env);
    case Pause =>
      if c.running && !c.paused {
        StoppingTallies(c.(paused := true), Paused, env);
      }
    case Resume =>
      var up := c.(running := true, paused := false, attempt := 0);
      ReviveTallies(up);
      SameBooksTally(RunDial(ResetTallies(up), Asked), RunDial(ResetTallies(up).(offlineTimer := false), Asked));
    case RetryNow => ReviveTallies(c.(attempt := 0));
    case RetryFires => FreeDialTallies(c.(retryTimer := None), Ladder);
    case SetOnline(online) => OnlineTallies(c, online, env);
  }

  lemma OnlineTallies(c: Conn, online: bool, env: Env)
    requires Steady(c) && Tally(c)
    ensures Keeps(c, OnOnline(c, online, env))
  {
    var told := (if online then c.(offlineTimer := false) else c).(online := online);
    SameBooksTally(c, told);
    ReviveTallies(told.(attempt := 0));
    var d := OnOnline(c, online, env);
    if SameBooks(c, d) {
      SameBooksTally(c, d);
    }
  }

  lemma GraceTallies(c: Conn, env: Env)
    requires Steady(c) && Tally(c) && EnvOk(env)
    ensures Keeps(c, React(c, GraceEnds, env))
  {
    if c.offlineTimer {
      var ended := c.(offlineTimer := false);
      SameBooksTally(c, ended);
      TeardownTallies(ended, env);
      if c.status == Ready {
        CloseRecovers(ended, env);
      } else {
        QuietTeardown(ended, env);
      }
      ScheduleTallies(TeardownSocket(ended, env), Failure(Network, None), env);
    }
  }

  lemma MinorTallies(c: Conn, e: Event, env: Env)
    requires Tally(c) && (e.SocketOpened? || e.SocketClosing? || e.GatewayReady? || e.ReadyTimedOut?)
    ensures Keeps(c, React(c, e, env))
  {
    MinorBooks(c, e, env);
    SameBooksTally(c, React(c, e, env));
  }

  lemma MinorBooks(c: Conn, e: Event, env: Env)
    requires e.SocketOpened? || e.SocketClosing? || e.GatewayReady? || e.ReadyTimedOut?
    ensures SameBooks(c, React(c, e, env)) && React(c, e, env).status == c.status
  {
    if e.SocketOpened? {
      OpenedBooks(c, e.k);
    } else if e.GatewayReady? || e.ReadyTimedOut? {
      PromiseBooks(c, if e.GatewayReady? then Arrived else Refused(Failure(Timeout, None)));
    }
  }

  lemma OpenedBooks(c: Conn, k: nat)
    ensures SameBooks(c, OnOpened(c, k)) && OnOpened(c, k).status == c.status
  {
  }

  lemma PromiseBooks(c: Conn, p: Promise)
    ensures SameBooks(c, SettlePromise(c, p)) && SettlePromise(c, p).status == c.status
  {
  }

  lemma ReactTallies(c: Conn, e: Event, env: Env)
    requires Steady(c) && Tally(c) && EnvOk(env) && !e.VerdictSettled?
    ensures Keeps(c, React(c, e, env))
  {
    match e
    case PlanSettled(token, plan) =>
      if token !in c.stale && token == c.token && c.dial == Some(Planning) {
        PlanTallies(c, plan, env);
      } else {
        SameBooksTally(c, React(c, e, env));
      }
    case SocketErrored(k) => ErroredTallies(c, k, env);
    case SocketClosed(k, code) => SocketClosedTallies(c, k, code, env);
    case HandshakeTimedOut(k) => HandshakeTimeoutTallies(c, k, env);
    case Invalidated => CloseTallies(c, env);
    case GraceEnds => GraceTallies(c, env);
    case _ =>
      if OfOwner(e) {
        OwnerTallies(c, e, env);
      } else {
        MinorTallies(c, e, env);
      }
  }

  lemma SucceedTallies(c: Conn)
    requires Tally(c)
    ensures Tally(Succeed(c)) && Succeed(c).status == Ready
  {
  }

  lemma MicrotaskTallies(c: Conn, env: Env)
    requires Stirred(c) && Tally(c)
    ensures Keeps(c, Microtasks(c, env))
    ensures c.status == NeedsSignin ==> Microtasks(c, env) == c
  {
    match c.dial
    case Some(Waiting(Arrived)) => SucceedTallies(c);
    case Some(Waiting(Refused(failure))) => FailTallies(c, failure, env);
    case _ =>
  }

  /** A verdict that says the credential is spent, heard by a connection that is up. */
  predicate Condemned(c: Conn, e: Event) {
    e.VerdictSettled? && e.answer.Reauth? && e.id in c.questions && Up(c)
  }

  lemma StepTallies(c: Conn, e: Event, env: Env)
    requires Steady(c) && Tally(c) && EnvOk(env)
    ensures var d := Step(c, e, env);
            Tally(d) && (d.status == NeedsSignin && c.status != NeedsSignin ==> Condemned(c, e) || d.window.streak >= 2)
  {
    ReactStirs(c, e, env);
    match e {
      case VerdictSettled(id, answer) => VerdictTallies(c, id, answer, env);
      case _ => ReactTallies(c, e, env);
    }
    MicrotaskTallies(React(c, e, env), env);
  }

  // --------------------------------------------------------- over whole runs

  lemma {:induction false} RunTallies(c: Conn, events: seq<(Event, Env)>)
    requires Steady(c) && Tally(c) && EnvsOk(events)
    ensures Steady(Run(c, events)) && Tally(Run(c, events))
    decreases |events|
  {
    if events != [] {
      assert EnvOk(events[0].1);
      StepSteady(c, events[0].0, events[0].1);
      StepTallies(c, events[0].0, events[0].1);
      RunTallies(Step(c, events[0].0, events[0].1), events[1..]);
    }
  }

  /** The redials of a window that went out without a wait. */
  function Redials(w: Window): nat {
    w.ticket + w.verdict + |w.late|
  }

  lemma {:induction false} SubsetIsNoLarger(a: set<nat>, b: set<nat>)
    requires a <= b
    ensures |a| <= |b|
  {
    if a != {} {
      var x :| x in a;
      SubsetIsNoLarger(a - {x}, b - {x});
    }
  }

  /**
   * Between two moments at which the connection is told to dial, becomes ready or waits on the ladder,
   * at most two redials go out at once, plus one for each verdict that was still open at the start.
   */
  lemma FewRedialsWithoutAWait(events: seq<(Event, Env)>)
    requires EnvsOk(events)
    ensures var w := Run(Fresh, events).window; Redials(w) <= 2 + |w.inherited|
  {
    RunTallies(Fresh, events);
    var w := Run(Fresh, events).window;
    SubsetIsNoLarger(w.late, w.inherited);
  }

  /**
   * A sign-in is asked for only by a verdict that says so, or on the second auth-class failure with
   * no other outcome since the first.
   */
  lemma SigninIsDeserved(events: seq<(Event, Env)>, e: Event, env: Env)
    requires EnvsOk(events) && EnvOk(env)
    ensures var c := Run(Fresh, events);
            var d := Step(c, e, env);
            d.status == NeedsSignin && c.status != NeedsSignin ==> Condemned(c, e) || d.window.streak >= 2
  {
    RunTallies(Fresh, events);
    StepTallies(Run(Fresh, events), e, env);
  }
}
