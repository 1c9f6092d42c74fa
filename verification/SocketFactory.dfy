/** The socket factory: armed with a plan just before a dial, and emptied by the one socket it builds. */
module SocketFactory {
  import opened Prelude

  /** A single-use dial plan; `ticket` tells apart two plans for one address. */
  datatype Plan = Plan(url: string, ticket: nat)

  /** `builds` is whether the platform's own constructor returns. */
  datatype Op = Arm(plan: Plan) | Disarm | Create(url: string, builds: bool)

  datatype Result = Built(plan: Plan) | Unarmed | Elsewhere(plan: Plan) | Thrown(plan: Plan)

  /** `spent` is which `arm`, counted from the start, each attempt to build a socket used. */
  datatype Factory = Factory(plan: Option<Plan>, armedAt: nat, ops: nat, spent: seq<nat>)

  const Fresh: Factory := Factory(None, 0, 0, [])

  function Answer(f: Factory, url: string, builds: bool): Result {
    if f.plan.None? then Unarmed
    else if f.plan.value.url != url then Elsewhere(f.plan.value)
    else if builds then Built(f.plan.value)
    else Thrown(f.plan.value)
  }

  function Step(f: Factory, op: Op): Factory {
    var next := f.(ops := f.ops + 1);
    match op
    case Arm(plan) => next.(plan := Some(plan), armedAt := f.ops)
    case Disarm => next.(plan := None)
    case Create(url, builds) =>
      if f.plan.None? || f.plan.value.url != url then next else next.(plan := None, spent := f.spent + [f.armedAt])
  }

  function Run(ops: seq<Op>): Factory
    decreases |ops|
  {
    if ops == [] then Fresh else Step(Run(ops[..|ops| - 1]), ops[|ops| - 1])
  }

  class DialPlanSocketFactory {
    var plan: Option<Plan>
    ghost var armedAt: nat
    ghost var ops: nat
    ghost var spent: seq<nat>

    ghost function Model(): Factory
      reads this
    {
      Factory(plan, armedAt, ops, spent)
    }

    constructor ()
      ensures Model() == Fresh
    {
      plan := None;
      armedAt, ops, spent := 0, 0, [];
    }

    method ArmWith(plan: Plan)
      modifies this
      ensures Model() == Step(old(Model()), Arm(plan))
    {
      this.plan := Some(plan);
      armedAt, ops := ops, ops + 1;
    }

    method Clear()
      modifies this
      ensures Model() == Step(old(Model()), Disarm)
    {
      plan := None;
      ops := ops + 1;
    }

    method Build(url: string, builds: bool) returns (result: Result)
      modifies this
      ensures Model() == Step(old(Model()), Create(url, builds))
      ensures result == Answer(old(Model()), url, builds)
    {
      ops := ops + 1;
      if plan.None? {
        return Unarmed;
      }
      var armed := plan.value;
      if armed.url != url {
        return Elsewhere(armed);
      }
      plan := None;
      spent := spent + [armedAt];
      result := if builds then Built(armed) else Thrown(armed);
    }
  }

  // ---------------------------------------------------------------- proofs

  /** The plan of the `i`th operation is still there: nothing since has replaced, forgotten or used it. */
  ghost predicate StillArmed(ops: seq<Op>, i: nat, plan: Plan) {
    && i < |ops| && ops[i] == Arm(plan)
    && forall j :: i < j < |ops| ==> !ops[j].Arm? && !ops[j].Disarm? && !(ops[j].Create? && ops[j].url == plan.url)
  }

  /** A socket is refused exactly when no plan for its address is waiting. */
  lemma {:induction false} ArmedExactlyWhen(ops: seq<Op>, plan: Plan)
    ensures Run(ops).plan == Some(plan) <==> exists i :: StillArmed(ops, i, plan)
    ensures Run(ops).plan == Some(plan) ==> StillArmed(ops, Run(ops).armedAt, plan)
    decreases |ops|
  {
    if ops != [] {
      var n := |ops| - 1;
      var front := ops[..n];
      OpsAreCounted(front);
      ArmedExactlyWhen(front, plan);
      forall i: nat | i < n && StillArmed(ops, i, plan) ensures StillArmed(front, i, plan) {
        assert front[i] == ops[i];
      }
      if ops[n] == Arm(plan) {
        assert StillArmed(ops, n, plan);
      } else if Run(ops).plan == Some(plan) {
        assert StillArmed(ops, Run(front).armedAt, plan);
      }
    }
  }

  lemma {:induction false} OpsAreCounted(ops: seq<Op>)
    ensures Run(ops).ops == |ops|
    decreases |ops|
  {
    if ops != [] {
      OpsAreCounted(ops[..|ops| - 1]);
    }
  }

  ghost predicate SpentOk(f: Factory) {
    && (forall i, j :: 0 <= i < j < |f.spent| ==> f.spent[i] < f.spent[j])
    && (forall i :: 0 <= i < |f.spent| ==> f.spent[i] < f.ops)
    && (f.plan.Some? ==> f.armedAt < f.ops && forall i :: 0 <= i < |f.spent| ==> f.spent[i] < f.armedAt)
  }

  lemma {:induction false} RunSpends(ops: seq<Op>)
    ensures SpentOk(Run(ops))
    decreases |ops|
  {
    if ops != [] {
      RunSpends(ops[..|ops| - 1]);
    }
  }

  /** In any order of calls no plan is used for two sockets: a ticket is for a single dial. */
  lemma APlanIsForOneSocket(ops: seq<Op>, i: nat, j: nat)
    ensures var spent := Run(ops).spent; i < j < |spent| ==> spent[i] != spent[j]
  {
    RunSpends(ops);
  }

  /** A dial that arms and connects at once builds from its own plan, whatever any other dial left or forgot. */
  lemma ADialUsesItsOwnPlan(before: seq<Op>, plan: Plan, builds: bool)
    ensures var armed := Run(before + [Arm(plan)]);
            && Answer(armed, plan.url, builds) == (if builds then Built(plan) else Thrown(plan))
            && Run(before + [Arm(plan), Create(plan.url, builds)]).plan.None?
  {
    var one, two := before + [Arm(plan)], before + [Arm(plan), Create(plan.url, builds)];
    assert one[..|before|] == before && two[..|one|] == one;
  }
}
