/** How many redials go out without a wait: the most each window can reach, and exactly when that is two. */
module ConnectionRedials {
  import opened Prelude
  import opened Connection
  import opened ConnectionFlow
  import opened ConnectionTallies

  // --------------------------------------------------- tokens and windows

  lemma OnwardTwice(c: Conn, d: Conn, e: Conn)
    requires Onward(c, d) && Onward(d, e)
    ensures Onward(c, e)
  {
  }

  lemma FailOnward(c: Conn, failure: Failure, env: Env)
    ensures Onward(c, Fail(c, failure, env))
  {
    var ended := c.(dial := None);
    assert Up(c) ==> Onward(ended, HandleFailure(ended, failure, env));
  }

  lemma RejectedOnward(c: Conn, k: nat, env: Env)
    ensures Onward(c, ConnectRejected(c, k, env))
  {
    FailOnward(c, Failure(Network, None), env);
  }

  lemma MicrotasksOnward(c: Conn, env: Env)
    ensures Onward(c, Microtasks(c, env))
  {
    match c.dial
    case Some(Waiting(Refused(failure))) => FailOnward(c, failure, env);
    case _ =>
  }

  lemma PlanOnward(c: Conn, plan: Plan, env: Env)
    ensures Onward(c, OnPlan(c, plan, env))
  {
    if plan.Throws? {
      FailOnward(c, plan.failure, env);
    } else if plan.SocketThrows? {
      var waiting := SetStatus(RejectWaiter(c, Failure(Network, None)).(waiter := Some(c.token)), Connecting);
      FailOnward(waiting.(state := Dialling), plan.failure, env);
    }
  }

  lemma ErroredOnward(c: Conn, k: nat, env: Env)
    ensures Onward(c, OnErrored(c, k, env))
  {
    var failed := c.(handshakes := c.handshakes - {k}, state := Failed);
    var told := if c.state.Failed? then failed else OnTransportClosed(failed, env);
    RejectedOnward(told, k, env);
    OnwardTwice(c, told, ConnectRejected(told, k, env));
  }

  lemma TimeoutOnward(c: Conn, k: nat, env: Env)
    ensures Onward(c, OnHandshakeTimeout(c, k, env))
  {
    var settled := c.(handshakes := c.handshakes - {k});
    var failed := settled.(socket := None, live := false, state := Failed);
    var told := if c.socket != Some(k) then settled
                else if c.state.Failed? then failed else OnTransportClosed(failed, env);
    RejectedOnward(told, k, env);
    OnwardTwice(c, told, ConnectRejected(told, k, env));
  }

  lemma ClosedOnward(c: Conn, k: nat, code: int, env: Env)
    ensures Onward(c, OnSocketClosed(c, k, code, env))
  {
    var coded := c.(lastCloseCode := Some(code));
    var dropped := if c.socket == Some(k) then CloseClient(coded, env) else coded;
    var settled := dropped.(handshakes := dropped.handshakes - {k});
    RejectedOnward(settled, k, env);
    OnwardTwice(c, settled, ConnectRejected(settled, k, env));
  }

  lemma VerdictOnward(c: Conn, id: nat, answer: Answer, env: Env)
    ensures Onward(c, OnVerdict(c, id, answer, env))
  {
  }

  lemma GraceOnward(c: Conn, env: Env)
    ensures Onward(c, OnGraceEnds(c, env))
  {
    var down := TeardownSocket(c.(offlineTimer := false), env);
    OnwardTwice(c, down, ScheduleReconnect(down, Failure(Network, None), env));
  }

  lemma AskedOnward(c: Conn, d: Conn)
    requires d.token == c.token && d.stale == c.stale && d.dial == c.dial && d.window.id == c.window.id + 1
    ensures Onward(c, RunDial(d, Asked))
  {
  }

  lemma OnlineOnward(c: Conn, online: bool, env: Env)
    ensures Onward(c, OnOnline(c, online, env))
  {
    var told := (if online then c.(offlineTimer := false) else c).(online := online);
    AskedOnward(c, ResetTallies(told.(attempt := 0)));
  }

  lemma OwnerOnward(c: Conn, e: Event, env: Env)
    requires OfOwner(e)
    ensures Onward(c, React(c, e, env))
  {
    match e
    case Start => AskedOnward(c, ResetTallies(c.(running := true, paused := false, attempt := 0)));
    case Resume => AskedOnward(c, ResetTallies(c.(running := true, paused := false, attempt := 0)).(offlineTimer := false));
    case RetryNow => AskedOnward(c, ResetTallies(c.(attempt := 0)));
    case SetOnline(online) => OnlineOnward(c, online, env);
    case _ =>
  }

  lemma ReactOnward(c: Conn, e: Event, env: Env)
    ensures Onward(c, React(c, e, env))
  {
    match e
    case PlanSettled(token, plan) => PlanOnward(c, plan, env);
    case SocketErrored(k) => ErroredOnward(c, k, env);
    case SocketClosed(k, code) => ClosedOnward(c, k, code, env);
    case HandshakeTimedOut(k) => TimeoutOnward(c, k, env);
    case VerdictSettled(id, answer) => VerdictOnward(c, id, answer, env);
    case GraceEnds => GraceOnward(c, env);
    case _ =>
      if OfOwner(e) {
        OwnerOnward(c, e, env);
      }
  }

  lemma StepOnward(c: Conn, e: Event, env: Env)
    ensures Onward(c, Step(c, e, env))
  {
    var stirred := React(c, e, env);
    ReactOnward(c, e, env);
    MicrotasksOnward(stirred, env);
    OnwardTwice(c, stirred, Microtasks(stirred, env));
  }

  lemma {:induction false} RunOnward(c: Conn, events: seq<(Event, Env)>)
    ensures Onward(c, Run(c, events))
    decreases |events|
  {
    if events != [] {
      var d := Step(c, events[0].0, events[0].1);
      StepOnward(c, events[0].0, events[0].1);
      RunOnward(d, events[1..]);
      OnwardTwice(c, d, Run(d, events[1..]));
    }
  }

  /** No dial that lost its token holds the current one. */
  ghost predicate Fenced(c: Conn) {
    forall t :: t in c.stale ==> t < c.token
  }

  // ------------------------------------------------- events at one moment

  const Moment := Env(0, 0.0)

  function Then(c: Conn, e: Event): Conn {
    Step(c, e, Moment)
  }

  function ThenAll(c: Conn, events: seq<Event>): Conn
    decreases |events|
  {
    if events == [] then c else ThenAll(Then(c, events[0]), events[1..])
  }

  lemma {:induction false} ThenAllIsARun(c: Conn, events: seq<Event>)
    ensures Run(c, seq(|events|, i requires 0 <= i < |events| => (events[i], Moment))) == ThenAll(c, events)
    decreases |events|
  {
    if events != [] {
      var timed := seq(|events|, i requires 0 <= i < |events| => (events[i], Moment));
      assert timed[1..] == seq(|events[1..]|, i requires 0 <= i < |events[1..]| => (events[1..][i], Moment));
      ThenAllIsARun(Then(c, events[0]), events[1..]);
    }
  }

  lemma ThenTwo(c: Conn, e0: Event, e1: Event, rest: seq<Event>)
    ensures ThenAll(c, [e0, e1] + rest) == ThenAll(Then(Then(c, e0), e1), rest)
  {
  }

  lemma ThenOne(c: Conn, e: Event, rest: seq<Event>)
    ensures ThenAll(c, [e] + rest) == ThenAll(Then(c, e), rest)
  {
  }

  lemma {:induction false} ThenJoin(c: Conn, first: seq<Event>, second: seq<Event>)
    ensures ThenAll(c, first + second) == ThenAll(ThenAll(c, first), second)
    decreases |first|
  {
    if first == [] {
      assert first + second == second;
    } else {
      ThenJoin(Then(c, first[0]), first[1..], second);
      assert (first + second)[1..] == first[1..] + second;
    }
  }

  // ------------------------------------------------------ an open window

  /** A dial is being prepared, and of this window nothing is counted but `tickets` and the late verdicts. */
  ghost predicate Preparing(c: Conn, tickets: nat) {
    && Up(c) && c.dial == Some(Planning) && c.status != Ready && Fenced(c)
    && tickets <= 1 && c.ticketRejections == tickets && c.window.ticket == tickets
    && c.authFailures == 0 && c.window.verdict == 0
    && c.window.late !! c.questions.Keys && c.window.late + c.questions.Keys == c.window.inherited
    && (forall id :: id in c.questions ==> id < c.asked && !Own(c.window.id, c.questions, id))
  }

  /** A ticket that is refused when the plan is made. */
  function NoTicket(): Failure {
    Failure(Network, Some(4401))
  }

  predicate SameWindow(c: Conn, d: Conn) {
    d.window.id == c.window.id && d.window.inherited == c.window.inherited
  }

  /** The first refused ticket is answered with a redial at once. */
  lemma FirstTicket(c: Conn)
    requires Up(c) && c.dial.None? && (c.status == Ready ==> c.socket.None?) && c.ticketRejections == 0
    ensures var d := HandleFailure(c, NoTicket(), Moment);
            && Up(d) && d.dial == Some(Planning) && d.status == Authenticating
            && d.token == c.token + 1 && d.stale == c.stale
            && d.ticketRejections == 1 && d.authFailures == c.authFailures
            && d.window == c.window.(ticket := c.window.ticket + 1, streak := c.window.streak + 1)
            && d.questions == c.questions && d.asked == c.asked
  {
    var noted := Streak(c.(lastFailureAt := Some(Moment.now)));
    var counted := noted.(ticketRejections := 1);
    IdleTeardown(counted, Moment);
    assert HandleFailure(c, NoTicket(), Moment) == HandleTicketRejection(noted, NoTicket(), Moment);
    assert HandleTicketRejection(noted, NoTicket(), Moment)
        == RunDial(Unplugged(counted.(waiter := None)).(error := Some(NoTicket())), Ticket);
  }

  /** The second asks for a verdict. */
  lemma SecondTicket(c: Conn)
    requires Up(c) && c.dial.None? && c.status != Ready && c.ticketRejections == 1 && c.authFailures == 0
    ensures var d := HandleFailure(c, NoTicket(), Moment);
            && Up(d) && d.dial.None? && d.status == c.status && d.token == c.token && d.stale == c.stale
            && d.authFailures == 1 && d.window == c.window.(streak := c.window.streak + 1)
            && d.questions == c.questions[c.asked := Question(NoTicket(), c.window.id)] && d.asked == c.asked + 1
  {
    var counted := Streak(c.(lastFailureAt := Some(Moment.now))).(ticketRejections := 2);
    var failed := counted.(authFailures := 1);
    IdleTeardown(failed, Moment);
    assert HandleTicketRejection(Streak(c.(lastFailureAt := Some(Moment.now))), NoTicket(), Moment)
        == HandleAuthFailure(counted, NoTicket(), Moment);
    assert HandleAuthFailure(counted, NoTicket(), Moment) == Ask(TeardownSocket(failed, Moment), NoTicket());
  }

  /** A live connection whose socket closes with a refused ticket dials again at once. */
  lemma ReadyDrops(c: Conn)
    requires Steady(c) && Up(c) && c.status == Ready
    ensures var coded := c.(lastCloseCode := Some(4401));
            React(c, SocketClosed(c.socket.value, 4401), Moment)
            == HandleFailure(coded.(socket := None, live := false, state := Closed), NoTicket(), Moment)
  {
    var coded := c.(lastCloseCode := Some(4401));
    var dropped := coded.(socket := None, live := false, state := Closed);
    assert OnTransportClosed(dropped, Moment) == HandleFailure(dropped, NoTicket(), Moment);
    assert CloseClient(coded, Moment) == OnTransportClosed(dropped, Moment);
  }

  lemma PlanRefused(c: Conn)
    requires Up(c) && c.dial == Some(Planning) && c.token !in c.stale
    ensures React(c, PlanSettled(c.token, Throws(NoTicket())), Moment) == HandleFailure(c.(dial := None), NoTicket(), Moment)
  {
  }

  // ------------------------------------------------- as many as there can be

  /** The window has just opened: nothing is counted, and the connection is live, preparing a dial or waiting for one. */
  ghost predicate Opened(c: Conn) {
    && Up(c) && (c.status == Ready || c.dial == Some(Planning) || c.retryTimer.Some?)
    && c.ticketRejections == 0 && c.authFailures == 0
    && c.window.ticket == 0 && c.window.verdict == 0 && c.window.late == {} && c.window.inherited == c.questions.Keys
  }

  /** From an open window a dial is being prepared, at the cost of at most the one redial after a refused ticket. */
  lemma Prepares(c: Conn) returns (events: seq<Event>, tickets: nat)
    requires Opened(c) && Steady(c) && Tally(c) && Fenced(c)
    ensures var d := ThenAll(c, events);
            && Preparing(d, tickets) && SameWindow(c, d) && d.window.late == {} && d.questions == c.questions
  {
    if c.status == Ready {
      var dropped := c.(lastCloseCode := Some(4401), socket := None, live := false, state := Closed);
      ReadyDrops(c);
      FirstTicket(dropped);
      events, tickets := [SocketClosed(c.socket.value, 4401)], 1;
      ThenOne(c, events[0], []);
    } else if c.dial == Some(Planning) {
      events, tickets := [], 0;
    } else {
      events, tickets := [RetryFires], 0;
      ThenOne(c, RetryFires, []);
    }
  }

  lemma LateVerdict(c: Conn, tickets: nat, id: nat)
    requires Preparing(c, tickets) && id in c.questions
    ensures var d := Then(c, VerdictSettled(id, Retry));
            && Preparing(d, tickets) && SameWindow(c, d) && d.questions == c.questions - {id}
            && d.window.late == c.window.late + {id}
  {
  }

  /** Every verdict still open is answered, each with a redial of its own. */
  lemma {:induction false} AnswersAll(c: Conn, tickets: nat) returns (events: seq<Event>)
    requires Preparing(c, tickets)
    ensures var d := ThenAll(c, events);
            && Preparing(d, tickets) && SameWindow(c, d) && d.questions == map[] && d.window.late == c.window.inherited
    decreases |c.questions|
  {
    if c.questions == map[] {
      events := [];
    } else {
      var id :| id in c.questions;
      LateVerdict(c, tickets, id);
      var d := Then(c, VerdictSettled(id, Retry));
      assert |c.questions - {id}| < |c.questions|;
      var rest := AnswersAll(d, tickets);
      events := [VerdictSettled(id, Retry)] + rest;
      ThenOne(c, VerdictSettled(id, Retry), rest);
    }
  }

  lemma TicketRedials(c: Conn)
    requires Preparing(c, 0)
    ensures var d := Then(c, PlanSettled(c.token, Throws(NoTicket())));
            Preparing(d, 1) && SameWindow(c, d) && d.questions == c.questions && d.window.late == c.window.late
  {
    PlanRefused(c);
    FirstTicket(c.(dial := None));
  }

  lemma VerdictRedials(c: Conn)
    requires Preparing(c, 1) && c.questions == map[]
    ensures var d := Then(Then(c, PlanSettled(c.token, Throws(NoTicket()))), VerdictSettled(c.asked, Retry));
            SameWindow(c, d) && Redials(d.window) == 2 + |c.window.late|
  {
    PlanRefused(c);
    SecondTicket(c.(dial := None));
  }

  /** In the window just opened there can be one redial for each open verdict, and two more. */
  lemma ReachesTheMost(c: Conn) returns (events: seq<Event>)
    requires Opened(c) && Steady(c) && Tally(c) && Fenced(c)
    ensures var d := ThenAll(c, events); SameWindow(c, d) && Redials(d.window) == 2 + |c.questions|
  {
    var prepare, tickets := Prepares(c);
    var prepared := ThenAll(c, prepare);
    var answer := AnswersAll(prepared, tickets);
    var answered := ThenAll(prepared, answer);
    ThenJoin(c, prepare, answer);
    var refuse := if tickets == 0 then [PlanSettled(answered.token, Throws(NoTicket()))] else [];
    if tickets == 0 {
      TicketRedials(answered);
      ThenOne(answered, refuse[0], []);
    }
    var refused := ThenAll(answered, refuse);
    ThenJoin(c, prepare + answer, refuse);
    VerdictRedials(refused);
    var last := [PlanSettled(refused.token, Throws(NoTicket())), VerdictSettled(refused.asked, Retry)];
    ThenTwo(refused, last[0], last[1], []);
    assert last + [] == last;
    ThenJoin(c, prepare + answer + refuse, last);
    events := prepare + answer + refuse + last;
  }

  // --------------------------------------------------------- over whole runs

  /** A continuation that stays in the window. */
  ghost predicate Within(c: Conn, events: seq<(Event, Env)>) {
    EnvsOk(events) && Run(c, events).window.id == c.window.id
  }

  ghost predicate WithinReaches(c: Conn, events: seq<(Event, Env)>, n: nat) {
    Within(c, events) && Redials(Run(c, events).window) == n
  }

  /** No continuation in this window sends out more than `n` redials without a wait. */
  ghost predicate AtMost(c: Conn, n: nat) {
    forall events :: Within(c, events) ==> Redials(Run(c, events).window) <= n
  }

  /** What holds between the events of every run. */
  ghost predicate Good(c: Conn) {
    Steady(c) && Tally(c) && Fenced(c)
  }

  lemma FreshIsGood()
    ensures Good(Fresh)
  {
  }

  lemma RunIsGood(c: Conn, events: seq<(Event, Env)>)
    requires Good(c) && EnvsOk(events)
    ensures Good(Run(c, events))
  {
    RunTallies(c, events);
    RunOnward(c, events);
  }

  lemma WithinIsFew(c: Conn, events: seq<(Event, Env)>)
    requires Opened(c) && Steady(c) && Tally(c) && Within(c, events)
    ensures Redials(Run(c, events).window) <= 2 + |c.questions|
  {
    RunTallies(c, events);
    RunOnward(c, events);
    var w := Run(c, events).window;
    SubsetIsNoLarger(w.late, w.inherited);
  }

  lemma ReachesTheMostInARun(c: Conn) returns (timed: seq<(Event, Env)>)
    requires Opened(c) && Steady(c) && Tally(c) && Fenced(c)
    ensures WithinReaches(c, timed, 2 + |c.questions|)
  {
    var events := ReachesTheMost(c);
    timed := seq(|events|, i requires 0 <= i < |events| => (events[i], Moment));
    ThenAllIsARun(c, events);
  }

  lemma MostIsReached(c: Conn) returns (most: seq<(Event, Env)>)
    requires Opened(c) && Good(c)
    ensures AtMost(c, 2 + |c.questions|) && WithinReaches(c, most, 2 + |c.questions|)
    ensures AtMost(c, 2) <==> c.questions == map[]
  {
    forall events | Within(c, events) ensures Redials(Run(c, events).window) <= 2 + |c.questions| {
      WithinIsFew(c, events);
    }
    most := ReachesTheMostInARun(c);
    assert Within(c, most) && Redials(Run(c, most).window) == 2 + |c.questions|;
  }

  /**
   * At any moment of any run at which a window has just opened, the most redials any continuation sends
   * out without a wait before the tallies are next put back is two and one for each verdict still open.
   */
  lemma TheMostRedialsOfAWindow(before: seq<(Event, Env)>) returns (most: seq<(Event, Env)>)
    requires EnvsOk(before) && Opened(Run(Fresh, before))
    ensures var c := Run(Fresh, before); AtMost(c, 2 + |c.questions|) && WithinReaches(c, most, 2 + |c.questions|)
  {
    FreshIsGood();
    RunIsGood(Fresh, before);
    most := MostIsReached(Run(Fresh, before));
  }

  /** So at most two go out, whatever happens, exactly when no verdict is still open. */
  lemma AtMostTwoRedialsExactlyWhen(before: seq<(Event, Env)>)
    requires EnvsOk(before) && Opened(Run(Fresh, before))
    ensures var c := Run(Fresh, before); AtMost(c, 2) <==> c.questions == map[]
  {
    FreshIsGood();
    RunIsGood(Fresh, before);
    var most := MostIsReached(Run(Fresh, before));
  }

  /** Being told to dial, and having done so, opens a window. */
  lemma AskingOpensAWindow(before: seq<(Event, Env)>, e: Event, env: Env)
    requires EnvsOk(before) && (e.Start? || e.Resume? || e.RetryNow? || e.SetOnline?)
    requires Run(Fresh, before + [(e, env)]).window.id != Run(Fresh, before).window.id
    ensures Opened(Run(Fresh, before + [(e, env)])) && Run(Fresh, before + [(e, env)]).dial == Some(Planning)
  {
    FreshIsGood();
    RunIsGood(Fresh, before);
    RunOneMore(Fresh, before, e, env);
    AskedOpens(Run(Fresh, before), e, env);
  }

  lemma RunOneMore(c: Conn, before: seq<(Event, Env)>, e: Event, env: Env)
    ensures Run(c, before + [(e, env)]) == Step(Run(c, before), e, env)
  {
    RunJoin(c, before, [(e, env)]);
    assert [(e, env)][1..] == [];
  }

  lemma DialOpens(c: Conn)
    requires Up(c)
    ensures Opened(RunDial(ResetTallies(c), Asked)) && RunDial(ResetTallies(c), Asked).dial == Some(Planning)
  {
  }

  lemma AskedOpens(c: Conn, e: Event, env: Env)
    requires e.Start? || e.Resume? || e.RetryNow? || e.SetOnline?
    requires Step(c, e, env).window.id != c.window.id && Steady(c)
    ensures Opened(Step(c, e, env)) && Step(c, e, env).dial == Some(Planning)
  {
    var up := c.(running := true, paused := false, attempt := 0);
    match e
    case Start => DialOpens(up);
    case Resume =>
      assert ResetTallies(up).(offlineTimer := false) == ResetTallies(up.(offlineTimer := false));
      DialOpens(up.(offlineTimer := false));
    case RetryNow => AskingOpens(c);
    case SetOnline(online) => OnlineOpens(c, online, env);
  }

  lemma AskingOpens(c: Conn)
    ensures AskToDial(c) == c || (Opened(AskToDial(c)) && AskToDial(c).dial == Some(Planning))
  {
    if Up(c) {
      DialOpens(c.(attempt := 0));
    }
  }

  lemma OnlineOpens(c: Conn, online: bool, env: Env)
    ensures var d := OnOnline(c, online, env);
            (d.window == c.window && d.dial == c.dial) || (Opened(d) && d.dial == Some(Planning))
  {
    AskingOpens((if online then c.(offlineTimer := false) else c).(online := online));
  }

  // --------------------------------------- three redials that did not wait

  const Denied := Failure(Auth, None)

  /** The first failure asks for a verdict, and `retryNow` opens a new window before it answers. */
  const Asking: Conn :=
    Fresh.(running := true, token := 2, dial := Some(Planning), lastFailureAt := Some(0), status := Authenticating,
           questions := map[0 := Question(Denied, 1)], asked := 1, window := Window(2, 0, 0, {}, {0}, 0))

  /** The first dial's plan was refused, and the credentials are asked. */
  const FirstAsked: Conn := Asking.(token := 1, dial := None, authFailures := 1, window := Window(1, 0, 0, {}, {}, 1))

  lemma ToFirstAsked()
    ensures Then(Then(Fresh, Start), PlanSettled(1, Throws(Denied))) == FirstAsked
  {
    var started := Then(Fresh, Start);
    assert map[][0 := Question(Denied, 1)] == map[0 := Question(Denied, 1)];
    var idle := started.(dial := None, lastFailureAt := Some(0), window := started.window.(streak := 1));
    FirstDenial(idle, Denied);
    assert React(started, PlanSettled(1, Throws(Denied)), Moment) == HandleAuthFailure(idle, Denied, Moment);
  }

  lemma ToAsking()
    ensures Then(Then(Then(Fresh, Start), PlanSettled(1, Throws(Denied))), RetryNow) == Asking
  {
    ToFirstAsked();
    assert FirstAsked.questions.Keys == {0};
  }

  lemma FirstDenial(c: Conn, failure: Failure)
    requires c.dial.None? && c.socket.None? && c.waiter.None? && c.authFailures == 0 && Up(c)
    ensures HandleAuthFailure(c, failure, Moment) == Ask(c.(authFailures := 1), failure)
  {
    IdleTeardown(c.(authFailures := 1), Moment);
  }

  lemma {:induction false} RunJoin(c: Conn, first: seq<(Event, Env)>, second: seq<(Event, Env)>)
    ensures Run(c, first + second) == Run(Run(c, first), second)
    decreases |first|
  {
    if first == [] {
      assert first + second == second;
    } else {
      RunJoin(Step(c, first[0].0, first[0].1), first[1..], second);
      assert (first + second)[1..] == first[1..] + second;
    }
  }

  lemma ToAskingInARun() returns (timed: seq<(Event, Env)>)
    ensures EnvsOk(timed) && Run(Fresh, timed) == Asking
  {
    var events := [Start, PlanSettled(1, Throws(Denied))] + ([RetryNow] + []);
    ThenTwo(Fresh, Start, PlanSettled(1, Throws(Denied)), [RetryNow] + []);
    ThenOne(Then(Then(Fresh, Start), PlanSettled(1, Throws(Denied))), RetryNow, []);
    ToAsking();
    timed := seq(|events|, i requires 0 <= i < |events| => (events[i], Moment));
    ThenAllIsARun(Fresh, events);
  }

  lemma AskingIsOpened()
    ensures Opened(Asking) && |Asking.questions| == 1
  {
  }

  /** Three at once, because an old verdict answers after `retryNow` opened a new window. */
  lemma ALateVerdictAddsARedial() returns (events: seq<(Event, Env)>)
    ensures EnvsOk(events) && Redials(Run(Fresh, events).window) == 3
  {
    var before := ToAskingInARun();
    AskingIsOpened();
    FreshIsGood();
    RunIsGood(Fresh, before);
    var most := MostIsReached(Asking);
    RunJoin(Fresh, before, most);
    events := before + most;
  }
}
