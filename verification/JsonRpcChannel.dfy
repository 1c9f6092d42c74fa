/** The request channel as the object it is: every method leaves the state its specification computes. */
module JsonRpcChannel {
  import opened Prelude
  import opened Decimal
  import R = RpcChannel

  class JsonRpcRequestChannel {
    const options: R.Options
    var nextId: nat
    var pending: map<R.Id, R.Call>
    var transport: Option<nat>
    var heartbeatTimer: Option<nat>
    var heartbeatSequence: nat
    var outstandingPings: seq<string>
    var lastLivenessAt: int
    var requestHandlers: seq<nat>

    /** How many calls there were, how the settled ones ended, the server requests delivered, and what was sent. */
    var issued: nat
    var settled: map<nat, R.Settlement>
    var deliveries: seq<R.Delivery>
    var wire: seq<R.Sent>

    ghost function Model(): R.Channel
      reads this
    {
      R.Channel(options, nextId, pending, transport, heartbeatTimer, heartbeatSequence, outstandingPings, lastLivenessAt,
                requestHandlers, issued, settled, deliveries, wire)
    }

    constructor (options: R.Options)
      ensures Model() == R.Idle(options)
    {
      this.options := options;
      nextId, pending, transport, heartbeatTimer, heartbeatSequence := 0, map[], None, None, 0;
      outstandingPings, lastLivenessAt, requestHandlers := [], 0, [];
      issued, settled, deliveries, wire := 0, map[], [], [];
    }

    method StopHeartbeat()
      modifies `outstandingPings, `heartbeatTimer
      ensures Model() == R.HeartbeatStopped(old(Model()))
    {
      outstandingPings := [];
      heartbeatTimer := None;
    }

    method Attach(t: nat, now: int)
      modifies this
      ensures Model() == R.Step(old(Model()), R.Attach(t, now))
    {
      StopHeartbeat();
      transport := Some(t);
      lastLivenessAt := now;
    }

    method Detach()
      modifies this
      ensures Model() == R.Step(old(Model()), R.Detach)
    {
      StopHeartbeat();
      transport := None;
      RejectAllPending();
    }

    /** Every pending call is dropped, whatever the order they are visited in. */
    method RejectAllPending()
      modifies `pending, `settled
      ensures Model() == R.RejectAll(old(Model()))
    {
      ghost var start := pending;
      while pending != map[]
        invariant pending.Keys <= start.Keys && forall id :: id in pending ==> pending[id] == start[id]
        invariant SettledSoFar(start, pending.Keys, old(settled), settled)
        decreases |pending|
      {
        var id :| id in pending;
        OneMore(start, pending.Keys, old(settled), settled, id);
        SmallerMap(pending, id);
        settled := settled[pending[id].number := R.Dropped];
        pending := pending - {id};
      }
      AllSettled(start, old(settled), settled);
    }

    /** The call `n` was pending at the start, and its entry is gone. */
    static ghost predicate Gone(start: map<R.Id, R.Call>, left: set<R.Id>, n: nat) {
      exists id :: id in start && id !in left && start[id].number == n
    }

    static ghost predicate SettledSoFar(start: map<R.Id, R.Call>, left: set<R.Id>,
                                        was: map<nat, R.Settlement>, now: map<nat, R.Settlement>) {
      && (forall n :: n in now <==> n in was || Gone(start, left, n))
      && (forall n :: n in now ==> now[n] == if Gone(start, left, n) then R.Dropped else was[n])
    }

    static lemma OneMore(start: map<R.Id, R.Call>, left: set<R.Id>, was: map<nat, R.Settlement>, now: map<nat, R.Settlement>,
                         id: R.Id)
      requires id in left && left <= start.Keys && SettledSoFar(start, left, was, now)
      ensures SettledSoFar(start, left - {id}, was, now[start[id].number := R.Dropped])
    {
    }

    static lemma AllSettled(start: map<R.Id, R.Call>, was: map<nat, R.Settlement>, now: map<nat, R.Settlement>)
      requires SettledSoFar(start, {}, was, now)
      ensures now == was + (map n | n in R.Numbers(start) :: R.Dropped)
    {
    }

    static lemma SmallerMap(m: map<R.Id, R.Call>, id: R.Id)
      requires id in m
      ensures |m - {id}| < |m|
    {
    }

    method Request(timed: bool, signal: R.Signal, sends: bool)
      modifies this
      ensures Model() == R.IssueCall(old(Model()), timed, signal, sends)
    {
      var number := issued;
      issued := issued + 1;
      if transport.None? {
        settled := settled[number := R.NotConnected];
        return;
      }
      if signal.AlreadyAborted? {
        settled := settled[number := R.Aborted];
        return;
      }
      nextId := nextId + 1;
      var id := R.RequestId(options.prefix, nextId);
      pending := pending[id := R.Call(number, timed, signal.Armed?)];
      if sends {
        wire := wire + [R.Request(number, id)];
      } else {
        pending := pending - {id};
        settled := settled[number := R.SendFailed];
        assert pending == old(pending) - {id};
      }
    }

    method TimerFires(id: R.Id, number: nat)
      modifies this
      ensures Model() == R.Step(old(Model()), R.TimerFires(id, number))
    {
      if id in pending && pending[id].number == number && pending[id].timed {
        pending := pending - {id};
        settled := settled[number := R.TimedOut];
      }
    }

    method AbortFires(id: R.Id, number: nat)
      modifies this
      ensures Model() == R.Step(old(Model()), R.AbortFires(id, number))
    {
      if id in pending && pending[id].number == number && pending[id].abortable {
        pending := pending - {id};
        settled := settled[number := R.Aborted];
      }
    }

    method OnRequest(handler: nat)
      modifies `requestHandlers
      ensures Model() == R.Step(old(Model()), R.OnRequest(handler))
    {
      requestHandlers := requestHandlers + [handler];
    }

    method Send(d: nat, reply: R.Reply, sends: bool)
      modifies `deliveries, `wire
      ensures Model() == R.Answered(old(Model()), d, reply, sends)
    {
      if d >= |deliveries| || deliveries[d].settled {
        return;
      }
      deliveries := deliveries[d := deliveries[d].(settled := true)];
      if transport.Some? && sends {
        wire := wire + [R.Answer(d, deliveries[d].id, reply)];
      }
    }

    /** The answers a handler gives while it is called. */
    method SendAll(d: nat, replies: seq<R.Reply>, sends: bool)
      modifies `deliveries, `wire
      ensures Model() == R.AnsweredAll(old(Model()), d, replies, sends)
    {
      ghost var start := Model();
      var i := 0;
      while i < |replies|
        invariant 0 <= i <= |replies|
        invariant Model() == R.AnsweredAll(start, d, replies[..i], sends)
      {
        Send(d, replies[i], sends);
        assert replies[..i + 1][..i] == replies[..i];
        i := i + 1;
      }
      assert replies[..i] == replies;
    }

    method DeliverRequest(id: string, h: R.Handling) returns (taken: bool)
      modifies `deliveries, `wire
      ensures Model() == R.Deliver(old(Model()), id, h)
    {
      var d := |deliveries|;
      deliveries := deliveries + [R.Delivery(id, false)];
      ghost var start := Model();
      var i := 0;
      while i < |requestHandlers|
        invariant 0 <= i <= |requestHandlers|
        invariant R.Offered(Model(), d, h, i) == R.Offered(start, d, h, 0)
      {
        var reaction := R.ReactionAt(h, i);
        SendAll(d, reaction.answers, h.sends);
        match reaction.verdict {
          case Throws =>
            Send(d, R.Failure(R.INTERNAL_ERROR), h.sends);
            return false;
          case Accepts =>
            return true;
          case Declines =>
        }
        i := i + 1;
      }
      Send(d, R.Failure(R.METHOD_NOT_FOUND), h.sends);
      taken := false;
    }

    method DeliverOpenRequests(open: seq<(string, R.Handling)>)
      modifies `deliveries, `wire
      ensures Model() == R.DeliverAll(old(Model()), open)
    {
      ghost var start := Model();
      var i := 0;
      while i < |open|
        invariant 0 <= i <= |open|
        invariant Model() == R.DeliverAll(start, open[..i])
      {
        var _ := DeliverRequest(open[i].0, open[i].1);
        assert open[..i + 1][..i] == open[..i];
        i := i + 1;
      }
      assert open[..i] == open;
    }

    method HandleFrame(frame: R.Frame, now: int)
      modifies this
      ensures Model() == R.Step(old(Model()), R.Receive(frame, now))
    {
      if frame.Unreadable? {
        return;
      }
      if options.anyInbound {
        lastLivenessAt := now;
      }
      match frame
      case ServerRequest(id, handling) => var _ := DeliverRequest(id, handling);
      case Response(id, error, open) => TakeResponse(id, error, open, now);
      case Event(ready, sends) =>
        if ready {
          Request(options.timed, R.NoSignal, sends);
        }
      case _ =>
    }

    method TakeResponse(id: R.Id, error: bool, open: seq<(string, R.Handling)>, now: int)
      modifies this
      ensures Model() == R.TakeResponse(old(Model()), id, error, open, now)
    {
      if id.Text? && id.text in outstandingPings {
        outstandingPings := R.DropPing(outstandingPings, id.text);
        lastLivenessAt := now;
        return;
      }
      if id !in pending {
        return;
      }
      var call := pending[id];
      lastLivenessAt := now;
      pending := pending - {id};
      if error {
        settled := settled[call.number := R.Refused];
      } else {
        DeliverOpenRequests(open);
        settled := settled[call.number := R.Resolved];
      }
    }

    method StartHeartbeat(now: int)
      modifies this
      ensures Model() == R.Step(old(Model()), R.StartHeartbeat(now))
    {
      StopHeartbeat();
      lastLivenessAt := now;
      if transport.None? || options.intervalMs <= 0 || options.deadlineMs <= 0 {
        return;
      }
      heartbeatTimer := transport;
    }

    /** One firing of the heartbeat's interval; a failure is the owner's to act on. */
    method HeartbeatTick(now: int, sends: bool) returns (failed: bool)
      modifies this
      ensures Model() == R.Step(old(Model()), R.Tick(now, sends))
      ensures failed ==> heartbeatTimer.None? && outstandingPings == []
    {
      if heartbeatTimer.None? || transport != heartbeatTimer {
        return false;
      }
      if now - lastLivenessAt >= options.deadlineMs {
        StopHeartbeat();
        return true;
      }
      heartbeatSequence := heartbeatSequence + 1;
      var id := R.PingId(heartbeatSequence);
      if id !in outstandingPings {
        outstandingPings := outstandingPings + [id];
      }
      if |outstandingPings| > R.MAX_OUTSTANDING_PINGS {
        outstandingPings := outstandingPings[1..];
      }
      if sends {
        wire := wire + [R.Ping(id)];
        return false;
      }
      StopHeartbeat();
      failed := true;
    }
  }
}
