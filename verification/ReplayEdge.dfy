/**
 * A replay that outlives its socket. Dropped with the socket it is harmless;
 * but `connect` accepts a bound socket that is no longer open, and then does not
 * drop it first. If that socket's replay is still under way, the new socket
 * never asks for anything and the old answers are read as if they were about
 * the new server.
 */
module ReplayEdge {
  import opened Prelude
  import opened ReplayClient
  import opened ReplayNumbers
  import opened ReplayWorld

  // ------------------------------------------------- a replay that is dropped

  lemma {:induction false} AbsorbingKeepsGeneration(c: Client, answers: seq<Answer>)
    ensures AbsorbAll(c, answers).generation == c.generation
    decreases |answers|
  {
    if answers != [] {
      var mid, last := AbsorbAll(c, answers[..|answers| - 1]), answers[|answers| - 1];
      AbsorbingKeepsGeneration(c, answers[..|answers| - 1]);
      if last.Fulfilled? {
        DispatchAllBySession(if last.epoch.Some? && mid.epoch.None? then mid.(epoch := last.epoch) else mid, Typed(last.events), "");
      }
    }
  }

  lemma ResumingKeepsGeneration(c: Client, generation: nat, answers: seq<Answer>)
    ensures ResumeReplay(c, generation, answers).generation == c.generation
  {
    var absorbed := AbsorbAll(c, answers);
    AbsorbingKeepsGeneration(c, answers);
    if absorbed.hold.Some? {
      DispatchAllBySession(absorbed.(hold := None), ParkedInOrder(absorbed.hold.value.order, absorbed.hold.value.parked), "");
    }
  }

  lemma GenerationGrows(w: World, a: Action)
    requires Enabled(w, a)
    ensures w.c.generation <= Next(w, a).c.generation
  {
    match a
    case Settle => ResumingKeepsGeneration(w.c, w.c.generation, Answers(w.flight.value.order, w.flight.value.got));
    case SettleStale(generation, answers) => ResumingKeepsGeneration(w.c, generation, answers);
    case _ =>
  }

  lemma {:induction false} GenerationsGrow(w: World, actions: seq<Action>)
    ensures w.c.generation <= Run(w, actions).c.generation
    decreases |actions|
  {
    if actions != [] && Enabled(w, actions[0]) {
      GenerationGrows(w, actions[0]);
      GenerationsGrow(Next(w, actions[0]), actions[1..]);
    }
  }

  /**
   * Once a socket was dropped, no continuation of a replay started before changes anything: no mark, no
   * hold, no epoch, no delivery, at any later moment of any run, whatever its calls were answered.
   */
  lemma AStaleReplayTouchesNothing(w: World, actions: seq<Action>, generation: nat, answers: seq<Answer>)
    requires Enabled(w, Dropped) && generation <= w.c.generation
    ensures var c := Run(Next(w, Dropped), actions).c; ResumeReplay(c, generation, answers) == c
  {
    GenerationsGrow(Next(w, Dropped), actions);
  }

  // ------------------------------------------- a replay that is dialled over

  /**
   * Exactly when a redial asks for everything: the new socket is asked for the gap of every
   * session with a watermark if and only if no replay was under way at the dial.
   */
  lemma NewSocketAsksForEveryGap(w: World)
    requires Safe(w) && w.c.replay && w.c.lastSeen != map[] && Enabled(w, Dial)
    ensures var after := Next(Next(w, Dial), Opened);
            (after.flight.Some? && after.flight.value.waiting == w.c.lastSeen.Keys) <==> !w.c.inFlight
  {
  }

  /** Whether each step of a run was possible when it was taken. */
  ghost predicate Possible(w: World, actions: seq<Action>)
    decreases |actions|
  {
    actions == [] || (Enabled(w, actions[0]) && Possible(Next(w, actions[0]), actions[1..]))
  }

  lemma TwoSteps(w: World, a: Action, b: Action, end: World)
    requires Enabled(w, a) && Enabled(Next(w, a), b) && Next(Next(w, a), b) == end
    ensures Possible(w, [a, b]) && Run(w, [a, b]) == end
  {
    assert [a, b][1..] == [b] && [b][1..] == [];
    assert Run(Next(w, a), [b]) == Run(end, []);
  }

  lemma {:induction false} RunsJoin(w: World, a: seq<Action>, b: seq<Action>)
    requires Possible(w, a) && Possible(Run(w, a), b)
    ensures Possible(w, a + b) && Run(w, a + b) == Run(Run(w, a), b)
    decreases |a|
  {
    if a == [] {
      assert a + b == b;
    } else {
      assert (a + b)[1..] == a[1..] + b;
      RunsJoin(Next(w, a[0]), a[1..], b);
    }
  }

  function Told(epoch: Epoch, s: Session, n: int): Delivery {
    Delivery(Some(epoch), EventAt(s, n))
  }

  function Greeting(epoch: Epoch): Delivery {
    Delivery(Some(epoch), ReadyEvent(epoch))
  }

  const Logs: map<Session, nat> := map["a" := 1, "b" := 1]

  const Empty: Client := Client(true, map[], [], false, 0, None, None, None, Idle, [])

  /** Connected to the first server, which has logged one event of each session. */
  const Start: World := World(Empty, 0, map[], None, None, 0, false)

  const Fresh: World :=
    World(Empty.(state := Open, socket := Some(0)), 0, map[], Some(Link([Live(ReadyEvent(0))])), None, 1, true)

  const Sending: World :=
    World(Empty.(state := Open, socket := Some(0), epoch := Some(0), delivered := [Greeting(0)]),
          0, map[0 := map["a" := 1]], Some(Link([Live(EventAt("a", 1))])), None, 1, true)

  const Halfway: World :=
    World(Client(true, map["a" := 1], ["a"], false, 0, None, Some(0), Some(0), Open, [Greeting(0), Told(0, "a", 1)]),
          0, map[0 := Logs], Some(Link([Live(EventAt("b", 1))])), None, 1, true)

  /** Both events delivered, the socket lost, a second one opened. */
  const Dropping: World :=
    World(Client(true, Logs, ["a", "b"], false, 1, None, Some(0), None, Closed,
                 [Greeting(0), Told(0, "a", 1), Told(0, "b", 1)]),
          0, map[0 := Logs], None, None, 1, false)

  const Asking: World :=
    World(Dropping.c.(state := Open, socket := Some(1), inFlight := true, generation := 2,
                      hold := Some(Hold(["a", "b"], map["a" := [], "b" := []]))),
          0, map[0 := Logs], Some(Link([Live(ReadyEvent(0))])),
          Some(Flight(Logs, ["a", "b"], {"a", "b"}, map[], 0, Logs)), 2, true)

  /** One of the two calls is answered. */
  const Answering: World :=
    Asking.(c := Asking.c.(delivered := Dropping.c.delivered + [Greeting(0)]),
            link := Some(Link([Reply("a", 0, 1, 1)])),
            flight := Some(Flight(Logs, ["a", "b"], {"b"}, map[], 0, Logs)))

  const HalfAnswered: World :=
    Answering.(link := Some(Link([])), live := false,
               flight := Some(Flight(Logs, ["a", "b"], {"b"}, map["a" := Served(0, 1, 1)], 0, Logs)))

  /** The server restarts, and the closing socket is dialled over. */
  const Replaced: World :=
    World(Answering.c.(state := Connecting, socket := Some(2)), 1, map[0 := Logs, 1 := map[]], None,
          Some(Flight(Logs, ["a", "b"], {}, map["a" := Served(0, 1, 1)], 0, Logs)), 3, false)

  const Regreeted: World :=
    Replaced.(c := Replaced.c.(state := Open, epoch := Some(1), lastSeen := map[], sessions := [],
                               delivered := Answering.c.delivered + [Greeting(1)]),
              link := Some(Link([])), live := true,
              flight := Some(Replaced.flight.value.(epoch := 1, base := map[])))

  const Parking: World :=
    Regreeted.(c := Regreeted.c.(hold := Some(Hold(["a", "b"], map["a" := [EventAt("a", 1)], "b" := []]))),
               heads := map[0 := Logs, 1 := map["a" := 1]])

  /** The replay settles: the answer of the first server is read as news, and the numbers start over. */
  const Misread: World :=
    Parking.(c := Parking.c.(epoch := Some(0), lastSeen := map["a" := 1], sessions := ["a"], inFlight := false, hold := None,
                             delivered := Regreeted.c.delivered + [Told(0, "a", 1)]),
             flight := None)

  lemma Opening()
    ensures Possible(Start, [Dial, Opened]) && Run(Start, [Dial, Opened]) == Fresh
    ensures Possible(Fresh, [Deliver, Emit("a")]) && Run(Fresh, [Deliver, Emit("a")]) == Sending
  {
    TwoSteps(Start, Dial, Opened, Fresh);
    var greeted := Next(Fresh, Deliver);
    assert greeted.link.value.wire == [] && greeted.c.delivered == [Greeting(0)];
    assert Next(greeted, Emit("a")).link.value.wire == Sending.link.value.wire;
    TwoSteps(Fresh, Deliver, Emit("a"), Sending);
  }

  lemma FirstSocket()
    ensures Possible(Sending, [Emit("b"), Deliver]) && Run(Sending, [Emit("b"), Deliver]) == Halfway
    ensures Possible(Halfway, [Deliver, Dropped]) && Run(Halfway, [Deliver, Dropped]) == Dropping
  {
    var both := Next(Sending, Emit("b"));
    assert both.heads == map[0 := Logs];
    assert both.link.value.wire == [Live(EventAt("a", 1)), Live(EventAt("b", 1))];
    assert Next(both, Deliver).link.value.wire == Halfway.link.value.wire;
    TwoSteps(Sending, Emit("b"), Deliver, Halfway);
    var told := Next(Halfway, Deliver);
    assert told.c.delivered == Dropping.c.delivered && told.c.sessions == ["a", "b"] && told.c.lastSeen == Logs;
    TwoSteps(Halfway, Deliver, Dropped, Dropping);
  }

  lemma SecondSocket()
    ensures Possible(Dropping, [Dial, Opened]) && Run(Dropping, [Dial, Opened]) == Asking
  {
    var asking := Next(Next(Dropping, Dial), Opened);
    assert "a" in Logs;
    assert asking.c.hold.value.parked == Asking.c.hold.value.parked;
    assert asking.flight.value.waiting == Asking.flight.value.waiting;
    TwoSteps(Dropping, Dial, Opened, Asking);
  }

  lemma FirstAnswer()
    ensures Possible(Asking, [Deliver, Serve("a", 1)]) && Run(Asking, [Deliver, Serve("a", 1)]) == Answering
    ensures Possible(Answering, [Deliver, Closing]) && Run(Answering, [Deliver, Closing]) == HalfAnswered
  {
    var greeted := Next(Asking, Deliver);
    assert greeted.link.value.wire == [] && greeted.c.delivered == Answering.c.delivered;
    var served := Next(greeted, Serve("a", 1));
    assert served.link.value.wire == Answering.link.value.wire;
    assert served.flight.value.waiting == {"b"};
    TwoSteps(Asking, Deliver, Serve("a", 1), Answering);
    assert Next(Answering, Deliver).link.value.wire == [];
    TwoSteps(Answering, Deliver, Closing, HalfAnswered);
  }

  lemma ThirdSocket()
    ensures Possible(HalfAnswered, [Restart, Dial]) && Run(HalfAnswered, [Restart, Dial]) == Replaced
    ensures Possible(Replaced, [Opened, Deliver]) && Run(Replaced, [Opened, Deliver]) == Regreeted
  {
    TwoSteps(HalfAnswered, Restart, Dial, Replaced);
    var open := Next(Replaced, Opened);
    assert Next(open, Deliver).link.value.wire == [] && Next(open, Deliver).c.delivered == Regreeted.c.delivered;
    TwoSteps(Replaced, Opened, Deliver, Regreeted);
  }

  lemma NewServerSpeaks()
    ensures Possible(Regreeted, [Emit("a"), Deliver]) && Run(Regreeted, [Emit("a"), Deliver]) == Parking
  {
    var sent := Next(Regreeted, Emit("a"));
    assert sent.link.value.wire == [Live(EventAt("a", 1))] && sent.heads == Parking.heads;
    var taken := Next(sent, Deliver);
    assert taken.link.value.wire == [];
    assert taken.c.hold.value.parked["a"] == [EventAt("a", 1)];
    assert taken.c.hold.value.parked == Parking.c.hold.value.parked;
    TwoSteps(Regreeted, Emit("a"), Deliver, Parking);
  }

  lemma Misreading()
    ensures Possible(Parking, [Expire("b"), Settle]) && Run(Parking, [Expire("b"), Settle]) == Misread
  {
    SettlesWrongly(Next(Parking, Expire("b")));
    TwoSteps(Parking, Expire("b"), Settle, Misread);
  }

  /** The first server's empty answer makes the client forget the second one's identity. */
  lemma AbsorbsWrongly(c: Client)
    requires c.epoch == Some(1)
    ensures AbsorbAll(c, [Fulfilled(Some(0), []), Rejected]) == c.(epoch := Some(0), lastSeen := map[], sessions := [])
  {
    var one, both := [Fulfilled(Some(0), [])], [Fulfilled(Some(0), []), Rejected];
    assert both[..1] == one && one[..0] == [];
    assert AbsorbAll(c, one) == Absorb(AbsorbAll(c, []), one[0]);
    assert AbsorbAll(c, both) == Absorb(AbsorbAll(c, one), both[1]);
  }

  lemma AnswersOf(got: map<Session, Got>)
    requires got == map["a" := Served(0, 1, 1), "b" := Lost]
    ensures Answers(["a", "b"], got) == [Fulfilled(Some(0), []), Rejected]
  {
    assert Log("a", 1, 1) == [];
    assert ["a", "b"][..1] == ["a"] && ["a"][..0] == [];
    assert Answers(["a"], got) == [Fulfilled(Some(0), [])];
  }

  lemma OneParked(parked: map<Session, seq<Event>>)
    requires parked == map["a" := [EventAt("a", 1)], "b" := []]
    ensures ParkedInOrder(["a", "b"], parked) == [EventAt("a", 1)]
  {
    assert ["a", "b"][..1] == ["a"] && ["a"][..0] == [];
    assert ParkedInOrder([], parked) + parked["a"] == [EventAt("a", 1)];
    assert ParkedInOrder(["a"], parked) == [EventAt("a", 1)];
    assert [EventAt("a", 1)] + parked["b"] == [EventAt("a", 1)];
  }

  lemma DispatchOne(c: Client, e: Event)
    ensures DispatchAll(c, [e]) == DispatchIfNewer(c, e)
  {
    assert [e][..0] == [];
  }

  lemma FlushesOne(c: Client, parked: map<Session, seq<Event>>)
    requires parked == map["a" := [EventAt("a", 1)], "b" := []] && c.lastSeen == map[] && c.sessions == []
    ensures DispatchAll(c, ParkedInOrder(["a", "b"], parked))
            == c.(lastSeen := map["a" := 1], sessions := ["a"],
                  delivered := c.delivered + [Delivery(c.epoch, EventAt("a", 1))])
  {
    OneParked(parked);
    DispatchOne(c, EventAt("a", 1));
    assert c.sessions + ["a"] == ["a"];
  }

  lemma SettlesWrongly(w: World)
    requires w == Next(Parking, Expire("b"))
    ensures Enabled(w, Settle) && Next(w, Settle) == Misread
  {
    AnswersOf(w.flight.value.got);
    AbsorbsWrongly(w.c);
    var reset := w.c.(epoch := Some(0), lastSeen := map[], sessions := []);
    assert AbsorbAll(w.c, Answers(w.flight.value.order, w.flight.value.got)) == reset;
    FlushesOne(reset.(hold := None), w.c.hold.value.parked);
    assert FlushHold(reset).(inFlight := false) == Misread.c;
  }

  const ToHalfAnswered: seq<Action> :=
    [Dial, Opened] + [Deliver, Emit("a")] + [Emit("b"), Deliver] + [Deliver, Dropped]
    + [Dial, Opened] + [Deliver, Serve("a", 1)] + [Deliver, Closing]

  const ToMisread: seq<Action> :=
    [Restart, Dial] + [Opened, Deliver] + [Emit("a"), Deliver] + [Expire("b"), Settle]

  lemma ReachesHalfAnswered()
    ensures Possible(Start, ToHalfAnswered) && Run(Start, ToHalfAnswered) == HalfAnswered
  {
    Opening();
    FirstSocket();
    SecondSocket();
    FirstAnswer();
    var run := [Dial, Opened];
    RunsJoin(Start, run, [Deliver, Emit("a")]);
    run := run + [Deliver, Emit("a")];
    RunsJoin(Start, run, [Emit("b"), Deliver]);
    run := run + [Emit("b"), Deliver];
    RunsJoin(Start, run, [Deliver, Dropped]);
    run := run + [Deliver, Dropped];
    RunsJoin(Start, run, [Dial, Opened]);
    run := run + [Dial, Opened];
    RunsJoin(Start, run, [Deliver, Serve("a", 1)]);
    run := run + [Deliver, Serve("a", 1)];
    RunsJoin(Start, run, [Deliver, Closing]);
  }

  lemma ReachesMisread()
    ensures Possible(HalfAnswered, ToMisread) && Run(HalfAnswered, ToMisread) == Misread
  {
    ThirdSocket();
    NewServerSpeaks();
    Misreading();
    var run := [Restart, Dial];
    RunsJoin(HalfAnswered, run, [Opened, Deliver]);
    run := run + [Opened, Deliver];
    RunsJoin(HalfAnswered, run, [Emit("a"), Deliver]);
    run := run + [Emit("a"), Deliver];
    RunsJoin(HalfAnswered, run, [Expire("b"), Settle]);
  }

  /**
   * Without the owner's care the promise fails: in this possible run the same
   * number of the same session is delivered twice within one epoch.
   */
  lemma OrphanedReplayRepeatsANumber()
    ensures Init(Start) && Possible(Start, ToHalfAnswered + ToMisread)
    ensures Seqs(Run(Start, ToHalfAnswered + ToMisread).c.delivered, Some(0), "a") == [1, 1]
    ensures !Increasing(Seqs(Run(Start, ToHalfAnswered + ToMisread).c.delivered, Some(0), "a"))
  {
    ReachesHalfAnswered();
    ReachesMisread();
    RunsJoin(Start, ToHalfAnswered, ToMisread);
    MisreadTwice();
    assert !([1, 1][0] < [1, 1][1]);
  }

  const Heard: seq<Delivery> := [Greeting(0), Told(0, "a", 1), Told(0, "b", 1), Greeting(0)]

  lemma HeardOnce()
    ensures Seqs(Heard, Some(0), "a") == [1]
  {
    DeliverOne([], Greeting(0), Some(0), "a");
    assert Heard[..1] == [] + [Greeting(0)];
    DeliverOne(Heard[..1], Heard[1], Some(0), "a");
    assert Heard[..2] == Heard[..1] + [Heard[1]];
    DeliverOne(Heard[..2], Heard[2], Some(0), "a");
    assert Heard[..3] == Heard[..2] + [Heard[2]];
    DeliverOne(Heard[..3], Heard[3], Some(0), "a");
    assert Heard == Heard[..3] + [Heard[3]];
  }

  lemma MisreadTwice()
    ensures Seqs(Misread.c.delivered, Some(0), "a") == [1, 1]
  {
    HeardOnce();
    var greeted := Heard + [Greeting(1)];
    DeliverOne(Heard, Greeting(1), Some(0), "a");
    DeliverOne(greeted, Told(0, "a", 1), Some(0), "a");
    assert Misread.c.delivered == greeted + [Told(0, "a", 1)];
  }
}
