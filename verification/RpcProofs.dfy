/** What the request channel keeps over every order of calls, frames, timers, aborts and drops. */
module RpcProofs {
  import opened Prelude
  import opened Decimal
  import opened RpcChannel

  // ------------------------------------------------------------ the calls

  ghost predicate Minted(c: Channel, id: Id) {
    exists n :: 1 <= n <= c.nextId && id == RequestId(c.options.prefix, n)
  }

  /** Every call that was issued is settled or pends under one id of its own, and was sent under it. */
  ghost predicate CallsOk(c: Channel) {
    && (forall id :: id in c.pending ==>
          && Minted(c, id)
          && c.pending[id].number < c.issued && c.pending[id].number !in c.settled
          && Request(c.pending[id].number, id) in c.wire)
    && (forall i, j :: i in c.pending && j in c.pending && c.pending[i].number == c.pending[j].number ==> i == j)
    && (forall n :: n in c.settled ==> n < c.issued)
    && (forall n :: 0 <= n < c.issued ==> n in c.settled || n in Numbers(c.pending))
  }

  /** No two requests on the wire share an id. */
  ghost predicate RequestsOk(c: Channel) {
    && (forall i :: 0 <= i < |c.wire| && c.wire[i].Request? ==> c.wire[i].number < c.issued && Minted(c, c.wire[i].under))
    && (forall i, j :: 0 <= i < j < |c.wire| && c.wire[i].Request? && c.wire[j].Request? ==> c.wire[i].under != c.wire[j].under)
  }

  /** Each delivery has at most one answer on the wire, and none before it was answered. */
  ghost predicate AnswersOk(c: Channel) {
    && (forall i :: 0 <= i < |c.wire| && c.wire[i].Answer? ==>
          c.wire[i].delivery < |c.deliveries| && c.deliveries[c.wire[i].delivery] == Delivery(c.wire[i].to, true))
    && (forall i, j :: 0 <= i < j < |c.wire| && c.wire[i].Answer? && c.wire[j].Answer? ==>
          c.wire[i].delivery != c.wire[j].delivery)
  }

  ghost predicate PingsOk(c: Channel) {
    |c.pings| <= MAX_OUTSTANDING_PINGS
  }

  ghost predicate Sound(c: Channel) {
    CallsOk(c) && RequestsOk(c) && AnswersOk(c) && PingsOk(c)
  }

  lemma NewIdIsNew(c: Channel)
    ensures !Minted(c, RequestId(c.options.prefix, c.nextId + 1))
  {
    if n :| 1 <= n <= c.nextId && RequestId(c.options.prefix, c.nextId + 1) == RequestId(c.options.prefix, n) {
      PrefixedNumeralsDiffer(c.options.prefix, c.nextId + 1, n);
    }
  }

  lemma MintedStays(c: Channel, d: Channel, id: Id)
    requires Minted(c, id) && c.options == d.options && c.nextId <= d.nextId
    ensures Minted(d, id)
  {
  }

  lemma IssuePends(c: Channel, timed: bool, signal: Signal)
    requires Sound(c) && c.transport.Some? && !signal.AlreadyAborted?
    ensures Sound(IssueCall(c, timed, signal, true))
  {
    NewIdIsNew(c);
    IssueMints(c, timed, signal);
    IssuePendsCall(c, timed, signal);
    IssueSendsRequest(c, timed, signal);
  }

  lemma IssueMints(c: Channel, timed: bool, signal: Signal)
    requires c.transport.Some? && !signal.AlreadyAborted?
    ensures var d := IssueCall(c, timed, signal, true);
            Minted(d, RequestId(c.options.prefix, c.nextId + 1)) && forall id :: Minted(c, id) ==> Minted(d, id)
  {
  }

  lemma IssuePendsCall(c: Channel, timed: bool, signal: Signal)
    requires CallsOk(c) && c.transport.Some? && !signal.AlreadyAborted?
    ensures CallsOk(IssueCall(c, timed, signal, true))
  {
    var d := IssueCall(c, timed, signal, true);
    var id := RequestId(c.options.prefix, c.nextId + 1);
    NewIdIsNew(c);
    IssueMints(c, timed, signal);
    IssueSendsEverybody(c, timed, signal);
    IssueCountsEverybody(c, timed, signal);
  }

  lemma IssueSendsEverybody(c: Channel, timed: bool, signal: Signal)
    requires CallsOk(c) && c.transport.Some? && !signal.AlreadyAborted?
    ensures var d := IssueCall(c, timed, signal, true);
            forall i :: i in d.pending ==> Request(d.pending[i].number, i) in d.wire
  {
  }

  lemma IssueCountsEverybody(c: Channel, timed: bool, signal: Signal)
    requires CallsOk(c) && c.transport.Some? && !signal.AlreadyAborted?
    requires RequestId(c.options.prefix, c.nextId + 1) !in c.pending
    ensures var d := IssueCall(c, timed, signal, true);
            forall n :: 0 <= n < d.issued ==> n in d.settled || n in Numbers(d.pending)
  {
    var d := IssueCall(c, timed, signal, true);
    assert d.pending[RequestId(c.options.prefix, c.nextId + 1)].number == c.issued;
    forall n | 0 <= n < c.issued && n !in c.settled ensures n in Numbers(d.pending) {
      var i :| i in c.pending && c.pending[i].number == n;
      assert d.pending[i].number == n;
    }
  }

  lemma IssueSendsRequest(c: Channel, timed: bool, signal: Signal)
    requires RequestsOk(c) && c.transport.Some? && !signal.AlreadyAborted?
    requires !Minted(c, RequestId(c.options.prefix, c.nextId + 1))
    ensures RequestsOk(IssueCall(c, timed, signal, true))
  {
  }

  lemma IssueFails(c: Channel, d: Channel, how: Settlement)
    requires Sound(c)
    requires c.nextId <= d.nextId
    requires d == c.(issued := c.issued + 1, nextId := d.nextId, settled := c.settled[c.issued := how])
    ensures Sound(d)
  {
  }

  lemma IssueKeeps(c: Channel, timed: bool, signal: Signal, sends: bool)
    requires Sound(c)
    ensures Sound(IssueCall(c, timed, signal, sends))
  {
    if c.transport.None? {
      IssueFails(c, IssueCall(c, timed, signal, sends), NotConnected);
    } else if signal.AlreadyAborted? {
      IssueFails(c, IssueCall(c, timed, signal, sends), Aborted);
    } else if sends {
      IssuePends(c, timed, signal);
    } else {
      NewIdIsNew(c);
      assert c.pending - {RequestId(c.options.prefix, c.nextId + 1)} == c.pending;
      IssueFails(c, IssueCall(c, timed, signal, sends), SendFailed);
    }
  }

  lemma SettleKeeps(c: Channel, id: Id, how: Settlement)
    requires CallsOk(c) && id in c.pending
    ensures CallsOk(SettlePending(c, id, how))
  {
    var d := SettlePending(c, id, how);
    forall n | 0 <= n < d.issued ensures n in d.settled || n in Numbers(d.pending) {
      if n !in c.settled && n != c.pending[id].number {
        var i :| i in c.pending && c.pending[i].number == n;
        assert d.pending[i].number == n;
      }
    }
    forall i | i in d.pending ensures Minted(d, i) {
      MintedStays(c, d, i);
    }
  }

  lemma RejectAllKeeps(c: Channel)
    requires CallsOk(c)
    ensures CallsOk(RejectAll(c))
  {
  }

  // ------------------------------------------------------ server requests

  lemma AnsweredKeeps(c: Channel, d: nat, reply: Reply, sends: bool)
    requires Sound(c)
    ensures Sound(Answered(c, d, reply, sends))
  {
    var after := Answered(c, d, reply, sends);
    MinorKeeps(c, after);
  }

  /** Answers and deliveries leave the calls alone. */
  lemma MinorKeeps(c: Channel, d: Channel)
    requires CallsOk(c) && RequestsOk(c)
    requires d == c.(deliveries := d.deliveries, wire := d.wire, pings := d.pings, transport := d.transport,
                     heartbeat := d.heartbeat, sequence := d.sequence, lastLivenessAt := d.lastLivenessAt, handlers := d.handlers)
    requires c.wire <= d.wire && forall i :: |c.wire| <= i < |d.wire| ==> !d.wire[i].Request?
    ensures CallsOk(d) && RequestsOk(d)
  {
  }

  lemma {:induction false} AnsweredAllKeeps(c: Channel, d: nat, replies: seq<Reply>, sends: bool)
    requires Sound(c)
    ensures Sound(AnsweredAll(c, d, replies, sends))
    decreases |replies|
  {
    if replies != [] {
      AnsweredAllKeeps(c, d, replies[..|replies| - 1], sends);
      AnsweredKeeps(AnsweredAll(c, d, replies[..|replies| - 1], sends), d, replies[|replies| - 1], sends);
    }
  }

  lemma {:induction false} OfferedKeeps(c: Channel, d: nat, h: Handling, i: nat)
    requires Sound(c)
    ensures Sound(Offered(c, d, h, i))
    decreases |c.handlers| - i
  {
    if i >= |c.handlers| {
      AnsweredKeeps(c, d, Failure(METHOD_NOT_FOUND), h.sends);
    } else {
      var told := AnsweredAll(c, d, ReactionAt(h, i).answers, h.sends);
      AnsweredAllKeeps(c, d, ReactionAt(h, i).answers, h.sends);
      match ReactionAt(h, i).verdict
      case Accepts =>
      case Throws => AnsweredKeeps(told, d, Failure(INTERNAL_ERROR), h.sends);
      case Declines => OfferedKeeps(told, d, h, i + 1);
    }
  }

  lemma DeliverKeeps(c: Channel, id: string, h: Handling)
    requires Sound(c)
    ensures Sound(Deliver(c, id, h))
  {
    var listed := c.(deliveries := c.deliveries + [Delivery(id, false)]);
    MinorKeeps(c, listed);
    OfferedKeeps(listed, |c.deliveries|, h, 0);
  }

  lemma {:induction false} DeliverAllKeeps(c: Channel, open: seq<(string, Handling)>)
    requires Sound(c)
    ensures Sound(DeliverAll(c, open))
    decreases |open|
  {
    if open != [] {
      DeliverAllKeeps(c, open[..|open| - 1]);
      DeliverKeeps(DeliverAll(c, open[..|open| - 1]), open[|open| - 1].0, open[|open| - 1].1);
    }
  }

  // ---------------------------------------------------------------- steps

  lemma {:induction false} DropPingShrinks(pings: seq<string>, id: string)
    ensures |DropPing(pings, id)| <= |pings|
  {
    if pings != [] && pings[0] != id {
      DropPingShrinks(pings[1..], id);
    }
  }

  lemma ResponseKeeps(c: Channel, id: Id, error: bool, open: seq<(string, Handling)>, now: int)
    requires Sound(c)
    ensures Sound(TakeResponse(c, id, error, open, now))
  {
    if id.Text? && id.text in c.pings {
      DropPingShrinks(c.pings, id.text);
      MinorKeeps(c, TakeResponse(c, id, error, open, now));
    } else if id in c.pending {
      var how := if error then Refused else Resolved;
      var heard := c.(lastLivenessAt := now);
      MinorKeeps(c, heard);
      SettleKeeps(heard, id, how);
      var settled := SettlePending(heard, id, how);
      RequestsStay(heard, settled);
      if !error {
        DeliverAllKeeps(settled, open);
        SettlingCommutes(heard, id, open);
      }
    }
  }

  lemma RequestsStay(c: Channel, d: Channel)
    requires RequestsOk(c) && d == c.(pending := d.pending, settled := d.settled)
    ensures RequestsOk(d)
  {
  }

  /** The open requests are delivered before the caller hears of its result, which changes neither. */
  lemma SettlingCommutes(c: Channel, id: Id, open: seq<(string, Handling)>)
    requires id in c.pending
    ensures Settle(DeliverAll(c.(pending := c.pending - {id}), open), c.pending[id].number, Resolved) ==
            DeliverAll(SettlePending(c, id, Resolved), open)
  {
    DeliverAllIgnoresCalls(c.(pending := c.pending - {id}), SettlePending(c, id, Resolved), open);
  }

  ghost predicate SameTalk(c: Channel, d: Channel) {
    d == c.(pending := d.pending, settled := d.settled)
  }

  lemma {:induction false} AnsweredAllIgnoresCalls(c: Channel, d: Channel, k: nat, replies: seq<Reply>, sends: bool)
    requires SameTalk(c, d)
    ensures SameTalk(AnsweredAll(c, k, replies, sends), AnsweredAll(d, k, replies, sends))
    decreases |replies|
  {
    if replies != [] {
      AnsweredAllIgnoresCalls(c, d, k, replies[..|replies| - 1], sends);
    }
  }

  lemma {:induction false} OfferedIgnoresCalls(c: Channel, d: Channel, k: nat, h: Handling, i: nat)
    requires SameTalk(c, d)
    ensures SameTalk(Offered(c, k, h, i), Offered(d, k, h, i))
    decreases |c.handlers| - i
  {
    if i < |c.handlers| {
      AnsweredAllIgnoresCalls(c, d, k, ReactionAt(h, i).answers, h.sends);
      if ReactionAt(h, i).verdict.Declines? {
        OfferedIgnoresCalls(AnsweredAll(c, k, ReactionAt(h, i).answers, h.sends),
                            AnsweredAll(d, k, ReactionAt(h, i).answers, h.sends), k, h, i + 1);
      }
    }
  }

  lemma {:induction false} DeliverAllIgnoresCalls(c: Channel, d: Channel, open: seq<(string, Handling)>)
    requires SameTalk(c, d)
    ensures SameTalk(DeliverAll(c, open), DeliverAll(d, open))
    decreases |open|
  {
    if open != [] {
      var front, last := open[..|open| - 1], open[|open| - 1];
      DeliverAllIgnoresCalls(c, d, front);
      var c', d' := DeliverAll(c, front), DeliverAll(d, front);
      OfferedIgnoresCalls(c'.(deliveries := c'.deliveries + [Delivery(last.0, false)]),
                          d'.(deliveries := d'.deliveries + [Delivery(last.0, false)]), |c'.deliveries|, last.1, 0);
    }
  }

  lemma FrameKeeps(c: Channel, frame: Frame, now: int)
    requires Sound(c)
    ensures Sound(HandleFrame(c, frame, now))
  {
    var heard := if c.options.anyInbound && !frame.Unreadable? then c.(lastLivenessAt := now) else c;
    MinorKeeps(c, heard);
    match frame
    case ServerRequest(id, handling) => DeliverKeeps(heard, id, handling);
    case Response(id, error, open) => ResponseKeeps(heard, id, error, open, now);
    case Event(ready, sends) => IssueKeeps(heard, c.options.timed, NoSignal, sends);
    case _ =>
  }

  lemma StepKeeps(c: Channel, a: Action)
    requires Sound(c)
    ensures Sound(Step(c, a))
  {
    if a.Issue? || a.TimerFires? || a.AbortFires? || a.Detach? {
      CallStepKeeps(c, a);
    } else if a.Receive? || a.Redeliver? || a.LateAnswer? {
      TalkStepKeeps(c, a);
    } else {
      MinorStepKeeps(c, a);
    }
  }

  lemma CallStepKeeps(c: Channel, a: Action)
    requires Sound(c) && (a.Issue? || a.TimerFires? || a.AbortFires? || a.Detach?)
    ensures Sound(Step(c, a))
  {
    match a
    case Detach => DetachKeeps(c);
    case Issue(timed, signal, sends) => IssueKeeps(c, timed, signal, sends);
    case TimerFires(id, number) => FiringKeeps(c, id, TimedOut);
    case AbortFires(id, number) => FiringKeeps(c, id, Aborted);
  }

  lemma TalkStepKeeps(c: Channel, a: Action)
    requires Sound(c) && (a.Receive? || a.Redeliver? || a.LateAnswer?)
    ensures Sound(Step(c, a))
  {
    match a
    case Receive(frame, now) => FrameKeeps(c, frame, now);
    case Redeliver(id, handling) => DeliverKeeps(c, id, handling);
    case LateAnswer(d, reply, sends) => AnsweredKeeps(c, d, reply, sends);
  }

  lemma MinorStepKeeps(c: Channel, a: Action)
    requires Sound(c)
    requires a.Attach? || a.StartHeartbeat? || a.Tick? || a.StopHeartbeat? || a.OnRequest? || a.OffRequest?
    ensures Sound(Step(c, a))
  {
    MinorStepIsMinor(c, a);
    MinorKeeps(c, Step(c, a));
  }

  lemma MinorStepIsMinor(c: Channel, a: Action)
    requires a.Attach? || a.StartHeartbeat? || a.Tick? || a.StopHeartbeat? || a.OnRequest? || a.OffRequest?
    ensures var d := Step(c, a);
            d == c.(wire := d.wire, pings := d.pings, transport := d.transport, heartbeat := d.heartbeat,
                    sequence := d.sequence, lastLivenessAt := d.lastLivenessAt, handlers := d.handlers)
            && (d.wire == c.wire || exists id :: d.wire == c.wire + [Ping(id)])
            && (|c.pings| <= MAX_OUTSTANDING_PINGS ==> |d.pings| <= MAX_OUTSTANDING_PINGS)
  {
  }

  lemma DetachKeeps(c: Channel)
    requires Sound(c)
    ensures Sound(Step(c, Detach))
  {
    var loose := HeartbeatStopped(c).(transport := None);
    MinorKeeps(c, loose);
    RejectAllKeeps(loose);
    RequestsStay(loose, RejectAll(loose));
  }

  lemma FiringKeeps(c: Channel, id: Id, how: Settlement)
    requires Sound(c)
    ensures id in c.pending ==> Sound(SettlePending(c, id, how))
  {
    if id in c.pending {
      SettleKeeps(c, id, how);
      RequestsStay(c, SettlePending(c, id, how));
    }
  }

  lemma {:induction false} RunKeeps(c: Channel, actions: seq<Action>)
    requires Sound(c)
    ensures Sound(Run(c, actions))
    decreases |actions|
  {
    if actions != [] {
      RunKeeps(c, actions[..|actions| - 1]);
      StepKeeps(Run(c, actions[..|actions| - 1]), actions[|actions| - 1]);
    }
  }

  // --------------------------------------------------------- over whole runs

  /** In every run each issued call is either settled or pending, under exactly one id, and never both. */
  lemma EveryCallIsSettledOrPending(options: Options, actions: seq<Action>, n: nat)
    ensures var c := Run(Idle(options), actions);
            n < c.issued ==> (n in c.settled <==> !exists id :: Pends(c, id, n))
    ensures var c := Run(Idle(options), actions);
            forall i, j :: Pends(c, i, n) && Pends(c, j, n) ==> i == j
    ensures n < Run(Idle(options), actions).issued ==> n in Step(Run(Idle(options), actions), Detach).settled
  {
    RunKeeps(Idle(options), actions);
    var c := Run(Idle(options), actions);
    if n < c.issued && n !in c.settled {
      var id :| id in c.pending && c.pending[id].number == n;
      assert Pends(c, id, n);
    }
  }

  ghost predicate StillSettled(c: Channel, d: Channel, n: nat) {
    n in c.settled ==> n in d.settled && d.settled[n] == c.settled[n]
  }

  lemma IssueIsFinal(c: Channel, timed: bool, signal: Signal, sends: bool, n: nat)
    requires CallsOk(c)
    ensures StillSettled(c, IssueCall(c, timed, signal, sends), n)
  {
  }

  lemma SettlingIsFinal(c: Channel, id: Id, how: Settlement, n: nat)
    requires CallsOk(c) && id in c.pending
    ensures StillSettled(c, SettlePending(c, id, how), n)
  {
  }

  lemma FrameIsFinal(c: Channel, frame: Frame, now: int, n: nat)
    requires CallsOk(c)
    ensures StillSettled(c, HandleFrame(c, frame, now), n)
  {
    match frame
    case Response(id, error, open) =>
      if id in c.pending {
        assert c.pending[id].number !in c.settled;
      }
    case Event(ready, sends) =>
      assert c.issued !in c.settled;
    case _ =>
  }

  /** A settlement is final: no later response, timeout, abort, failed send or drop changes it. */
  lemma ASettlementIsFinal(options: Options, actions: seq<Action>, a: Action, n: nat)
    ensures var c := Run(Idle(options), actions);
            n in c.settled ==> n in Step(c, a).settled && Step(c, a).settled[n] == c.settled[n]
  {
    RunKeeps(Idle(options), actions);
    StepIsFinal(Run(Idle(options), actions), a, n);
  }

  lemma StepIsFinal(c: Channel, a: Action, n: nat)
    requires CallsOk(c)
    ensures StillSettled(c, Step(c, a), n)
  {
    match a
    case Issue(timed, signal, sends) => IssueIsFinal(c, timed, signal, sends, n);
    case TimerFires(id, number) =>
      if id in c.pending {
        SettlingIsFinal(c, id, TimedOut, n);
      }
    case AbortFires(id, number) =>
      if id in c.pending {
        SettlingIsFinal(c, id, Aborted, n);
      }
    case Receive(frame, now) => FrameIsFinal(c, frame, now, n);
    case _ =>
  }

  /** No pending entry is ever overwritten: the id of the next call is not in use, on the wire or in the map. */
  lemma NoPendingIdIsReused(options: Options, actions: seq<Action>)
    ensures var c := Run(Idle(options), actions);
            var id := RequestId(c.options.prefix, c.nextId + 1);
            id !in c.pending && forall n :: Request(n, id) !in c.wire
  {
    RunKeeps(Idle(options), actions);
    NewIdIsNew(Run(Idle(options), actions));
  }

  lemma OneCallPerId(c: Channel, id: Id, n: nat)
    requires CallsOk(c) && RequestsOk(c) && id in c.pending && Request(n, id) in c.wire
    ensures c.pending[id].number == n
  {
  }

  /** The channel an answer to a pending call leaves: the call settled, then the open requests delivered. */
  function SettledThenTold(c: Channel, id: Id, error: bool, open: seq<(string, Handling)>, now: int): Channel
    requires id in c.pending
  {
    var settled := SettlePending(c.(lastLivenessAt := now), id, if error then Refused else Resolved);
    if error then settled else DeliverAll(settled, open)
  }

  lemma AnswerSettles(c: Channel, id: Id, error: bool, open: seq<(string, Handling)>, now: int)
    requires id in c.pending && !(id.Text? && id.text in c.pings)
    ensures Step(c, Receive(Response(id, error, open), now)) == SettledThenTold(c, id, error, open, now)
  {
    SettlingCommutes(c.(lastLivenessAt := now), id, open);
  }

  /**
   * An answer settles the one call whose request carried its id, and no other, whatever requests it
   * brings along; those are then delivered to the channel as it is with that call settled.
   */
  lemma AnAnswerSettlesTheCallThatAsked(options: Options, actions: seq<Action>, id: Id, error: bool,
                                        open: seq<(string, Handling)>, now: int, n: nat)
    requires var c := Run(Idle(options), actions);
             Request(n, id) in c.wire && id in c.pending && !(id.Text? && id.text in c.pings)
    ensures var c := Run(Idle(options), actions);
            var d := Step(c, Receive(Response(id, error, open), now));
            && d.settled == c.settled[n := if error then Refused else Resolved] && d.pending == c.pending - {id}
            && d == SettledThenTold(c, id, error, open, now)
  {
    RunKeeps(Idle(options), actions);
    OneCallPerId(Run(Idle(options), actions), id, n);
    AnswerSettles(Run(Idle(options), actions), id, error, open, now);
  }

  /** At most one answer per delivered server request ever goes out, whoever answers, and however late. */
  lemma AtMostOneAnswer(options: Options, actions: seq<Action>, i: nat, j: nat)
    ensures var wire := Run(Idle(options), actions).wire;
            i < j < |wire| && wire[i].Answer? && wire[j].Answer? ==> wire[i].delivery != wire[j].delivery
  {
    RunKeeps(Idle(options), actions);
  }

  /** However long a gateway streams without a pong, at most eight pings are remembered. */
  lemma AtMostEightPings(options: Options, actions: seq<Action>)
    ensures |Run(Idle(options), actions).pings| <= 8
  {
    RunKeeps(Idle(options), actions);
  }

  // --------------------------------------------- what a delivery answers

  /** The answer a delivery gives at once: the first one a handler gives, or the channel's own. */
  function FirstAnswer(h: Handling, handlers: nat, i: nat): Option<Reply>
    decreases handlers - i
  {
    if i >= handlers then Some(Failure(METHOD_NOT_FOUND))
    else if ReactionAt(h, i).answers != [] then Some(ReactionAt(h, i).answers[0])
    else
      match ReactionAt(h, i).verdict
      case Accepts => None
      case Throws => Some(Failure(INTERNAL_ERROR))
      case Declines => FirstAnswer(h, handlers, i + 1)
  }

  lemma {:induction false} FirstOfMany(c: Channel, d: nat, replies: seq<Reply>, sends: bool)
    requires d < |c.deliveries|
    ensures var after := AnsweredAll(c, d, replies, sends);
            d < |after.deliveries|
            && (c.deliveries[d].settled || replies == [] ==> after == c)
            && (replies != [] ==> after == Answered(c, d, replies[0], sends) && after.deliveries[d].settled)
    decreases |replies|
  {
    if replies != [] {
      FirstOfMany(c, d, replies[..|replies| - 1], sends);
    }
  }

  lemma {:induction false} OfferedAnswers(c: Channel, d: nat, h: Handling, i: nat)
    requires d < |c.deliveries|
    ensures Offered(c, d, h, i).wire ==
            if !c.deliveries[d].settled && FirstAnswer(h, |c.handlers|, i).Some? && c.transport.Some? && h.sends then
              c.wire + [Answer(d, c.deliveries[d].id, FirstAnswer(h, |c.handlers|, i).value)]
            else c.wire
    decreases |c.handlers| - i
  {
    if i < |c.handlers| {
      var reaction := ReactionAt(h, i);
      FirstOfMany(c, d, reaction.answers, h.sends);
      if reaction.verdict.Declines? {
        OfferedAnswers(AnsweredAll(c, d, reaction.answers, h.sends), d, h, i + 1);
      }
    }
  }

  /** What a delivered request puts on the wire while its handlers run. */
  lemma ADeliveryAnswersOnce(c: Channel, id: string, h: Handling)
    ensures var first := FirstAnswer(h, |c.handlers|, 0);
            Deliver(c, id, h).wire ==
              if first.Some? && c.transport.Some? && h.sends then c.wire + [Answer(|c.deliveries|, id, first.value)] else c.wire
  {
    OfferedAnswers(c.(deliveries := c.deliveries + [Delivery(id, false)]), |c.deliveries|, h, 0);
  }

  /** Nobody took the request: every handler declined it, and none had answered first. */
  ghost predicate NobodyTakes(h: Handling, handlers: nat, i: nat) {
    forall k :: i <= k < handlers ==> ReactionAt(h, k).verdict.Declines? && ReactionAt(h, k).answers == []
  }

  /** Handlers never give "method not found" themselves. */
  ghost predicate NotTheirs(h: Handling) {
    forall i, k :: 0 <= i < |h.reactions| && 0 <= k < |h.reactions[i].answers| ==>
      h.reactions[i].answers[k] != Failure(METHOD_NOT_FOUND)
  }

  lemma {:induction false} NotFoundWhenNobodyTakes(h: Handling, handlers: nat, i: nat)
    requires NotTheirs(h)
    ensures FirstAnswer(h, handlers, i) == Some(Failure(METHOD_NOT_FOUND)) <==> NobodyTakes(h, handlers, i)
    decreases handlers - i
  {
    if i < handlers {
      NotFoundWhenNobodyTakes(h, handlers, i + 1);
      assert ReactionAt(h, i).verdict.Declines? && ReactionAt(h, i).answers == [] && NobodyTakes(h, handlers, i + 1)
             <==> NobodyTakes(h, handlers, i);
    }
  }

  /** "Method not found" goes out exactly when no handler takes the request, and then exactly once. */
  lemma NotFoundExactlyWhenNobodyTakes(c: Channel, id: string, h: Handling)
    requires c.transport.Some? && h.sends && NotTheirs(h)
    ensures Deliver(c, id, h).wire == c.wire + [Answer(|c.deliveries|, id, Failure(METHOD_NOT_FOUND))]
            <==> NobodyTakes(h, |c.handlers|, 0)
  {
    ADeliveryAnswersOnce(c, id, h);
    NotFoundWhenNobodyTakes(h, |c.handlers|, 0);
    var first := FirstAnswer(h, |c.handlers|, 0);
    if first.Some? {
      assert (c.wire + [Answer(|c.deliveries|, id, first.value)])[|c.wire|].reply == first.value;
    }
  }
}
