/** What the token coordinator keeps over every order of reads, rotations, sign-ins and sign-outs. */
module TokenProofs {
  import opened Prelude
  import opened TokenRefresh

  // ------------------------------------------------------------- invariant

  /** A rotation that may still speak for the current epoch is the one flight on record. */
  ghost predicate FlightsOk(c: Coord) {
    && (c.refreshFlight.Some? ==> c.refreshFlight.value in c.flights && c.flights[c.refreshFlight.value].epoch == c.authEpoch)
    && (forall f :: f in c.flights ==>
          && f < c.started && c.flights[f].epoch <= c.authEpoch
          && (c.flights[f].phase.Forsaking? ==> c.flights[f].epoch < c.authEpoch)
          && (c.flights[f].epoch == c.authEpoch ==> c.refreshFlight == Some(f)))
    && (forall f, g :: f in c.flights && g in c.flights && c.flights[f].epoch == c.flights[g].epoch ==> f == g)
  }

  /** The store is only read before anything was remembered, once at a time. */
  ghost predicate LoadsOk(c: Coord) {
    && (c.loadFlight.Some? ==> c.loadFlight.value in c.loads && c.loads[c.loadFlight.value] == c.authEpoch)
    && (forall l :: l in c.loads ==>
          && l < c.asked && c.loads[l] <= c.authEpoch
          && (c.loads[l] == c.authEpoch ==> c.loadFlight == Some(l) && c.cached.Unset?))
    && (c.cached.Unset? ==> c.written.None? && c.authEpoch == 0)
  }

  /** What memory serves is the last thing that was written. */
  ghost predicate Agrees(c: Coord) {
    c.written.Some? ==> c.cached == Memo(c.written.value)
  }

  /** Nobody waits for a call that is over. */
  ghost predicate NobodyIsLost(c: Coord) {
    forall id :: id in c.callers ==>
      && (c.callers[id].Joined? ==> c.callers[id].flight in c.flights)
      && (c.callers[id].Loading? || c.callers[id].Peeking? ==> c.callers[id].load in c.loads)
  }

  /** Nothing rotates, and nobody has read, before something is remembered. */
  ghost predicate NothingFromNothing(c: Coord) {
    c.cached.Unset? ==> c.flights == map[] && forall id :: id in c.callers ==> !c.callers[id].Read?
  }

  ghost predicate Sound(c: Coord) {
    FlightsOk(c) && LoadsOk(c) && Agrees(c) && NobodyIsLost(c) && NothingFromNothing(c)
  }

  // ----------------------------------------------------------- preservation

  lemma AskKeeps(c: Coord, id: nat, options: Options)
    requires Sound(c)
    ensures Sound(AskFor(c, id, options))
  {
    if c.refreshFlight.Some? {
      PutKeeps(c, id, Joined(c.refreshFlight.value));
    } else {
      ReadForKeeps(c, id, Some(options));
    }
  }

  lemma ReadForKeeps(c: Coord, id: nat, options: Option<Options>)
    requires Sound(c)
    ensures Sound(ReadFor(c, id, options))
  {
    if c.cached.Memo? {
      PutKeeps(c, id, Reads(options, c.cached.tokens));
    }
  }

  lemma ChangeKeeps(c: Coord, tokens: Option<TokenSet>)
    requires Sound(c)
    ensures Sound(Change(c, tokens))
  {
  }

  lemma LoadKeeps(c: Coord, load: nat, result: Option<Option<TokenSet>>)
    requires Sound(c)
    ensures Sound(SettleLoad(c, load, result))
  {
    if load in c.loads {
      var answer := if result.Some? && c.authEpoch != c.loads[load] then Some(Held(c.cached)) else result;
      NobodyWaitsAnyLonger(c, load, answer);
    }
  }

  lemma NobodyWaitsAnyLonger(c: Coord, load: nat, answer: Option<Option<TokenSet>>)
    requires NobodyIsLost(c)
    ensures NobodyIsLost(c.(loads := c.loads - {load}, callers := WakeReaders(c.callers, load, answer)))
  {
  }

  lemma PutKeeps(c: Coord, id: nat, caller: Caller)
    requires Sound(c) && !caller.Loading? && !caller.Peeking? && (caller.Read? ==> c.cached.Memo?)
    requires caller.Joined? ==> caller.flight in c.flights
    ensures Sound(Put(c, id, caller))
  {
  }

  lemma DecideKeeps(c: Coord, id: nat, options: Options, tokens: TokenSet, now: int, skew: int)
    requires Sound(c) && c.cached.Memo?
    ensures Sound(Decide(c, id, options, tokens, now, skew))
  {
    var d := Decide(c, id, options, tokens, now, skew);
    if d == Put(c, id, Done(Served(tokens.access))) {
      PutKeeps(c, id, Done(Served(tokens.access)));
    } else if tokens.refresh == "" {
      ChangeKeeps(c, None);
      PutKeeps(Change(c, None), id, Forgetting);
    } else if c.refreshFlight.Some? {
      PutKeeps(c, id, Joined(c.refreshFlight.value));
    } else {
      StartKeeps(c, id, tokens);
    }
  }

  lemma StartKeeps(c: Coord, id: nat, tokens: TokenSet)
    requires Sound(c) && c.refreshFlight.None? && c.cached.Memo?
    ensures Sound(StartRefresh(c, id, tokens))
  {
  }

  lemma EndFlightKeeps(c: Coord, flight: nat, outcome: Outcome)
    requires Sound(c)
    ensures Sound(EndFlight(c, flight, outcome))
  {
  }

  lemma RefreshKeeps(c: Coord, flight: nat, answer: Answer)
    requires Sound(c)
    ensures Sound(SettleRefresh(c, flight, answer))
  {
    if flight in c.flights && c.flights[flight].phase.Refreshing? {
      EndFlightKeeps(c, flight, Threw);
      ChangeKeeps(c, None);
    }
  }

  lemma StoreKeeps(c: Coord, flight: nat, ok: bool)
    requires Sound(c)
    ensures Sound(SettleStore(c, flight, ok))
  {
    if flight in c.flights {
      match c.flights[flight].phase
      case Refreshing =>
      case Saving(rotated) => EndFlightKeeps(c, flight, Served(rotated.access));
      case Forsaking => EndFlightKeeps(c, flight, if ok then SignedOut else Threw);
    }
  }

  lemma GoOnKeeps(c: Coord, id: nat, now: int, skew: int)
    requires Sound(c)
    ensures Sound(Resume(c, id, now, skew))
  {
    if id in c.callers && c.callers[id].Read? {
      if c.callers[id].tokens.None? {
        PutKeeps(c, id, Done(SignedOut));
      } else {
        DecideKeeps(c, id, c.callers[id].options, c.callers[id].tokens.value, now, skew);
      }
    }
  }

  lemma StepKeeps(c: Coord, e: Event)
    requires Sound(c)
    ensures Sound(Step(c, e))
  {
    match e
    case Ask(id, options) => AskKeeps(c, id, options);
    case Peek(id) => ReadForKeeps(c, id, None);
    case LoadSettles(load, result) => LoadKeeps(c, load, result);
    case GoOn(id, now, skew) => GoOnKeeps(c, id, now, skew);
    case RefreshSettles(flight, answer) => RefreshKeeps(c, flight, answer);
    case StoreSettles(flight, ok) => StoreKeeps(c, flight, ok);
    case ForgotSettles(id, ok) => PutKeeps(c, id, Done(if ok then SignedOut else Threw));
    case Save(tokens) => ChangeKeeps(c, Some(tokens));
    case Clear => ChangeKeeps(c, None);
  }

  lemma {:induction false} RunKeeps(c: Coord, events: seq<Event>)
    requires Sound(c)
    ensures Sound(Run(c, events))
    decreases |events|
  {
    if events != [] {
      RunKeeps(c, events[..|events| - 1]);
      StepKeeps(Run(c, events[..|events| - 1]), events[|events| - 1]);
    }
  }

  // --------------------------------------------------------- over whole runs

  /** In every run there is at most one rotation per epoch, and in the current one it is the flight new callers join. */
  lemma OneRotationPerEpoch(events: seq<Event>, f: nat, g: nat)
    ensures var c := Run(Fresh, events);
            f in c.flights && g in c.flights ==>
              && (c.flights[f].epoch == c.flights[g].epoch ==> f == g)
              && (c.flights[f].epoch == c.authEpoch ==>
                    c.refreshFlight == Some(f) && forall id, o :: AskFor(c, id, o).callers[id] == Joined(f))
  {
    RunKeeps(Fresh, events);
  }

  /** Whatever was last written to the store is what memory serves, rotation or not, failed write or not. */
  lemma MemoryIsTheLastWrite(events: seq<Event>)
    ensures var c := Run(Fresh, events);
            c.written.Some? ==> c.cached == Memo(c.written.value)
  {
    RunKeeps(Fresh, events);
  }

  /** Every suspended caller waits for a call that is still out. */
  lemma EveryCallerIsAnswerable(events: seq<Event>, id: nat)
    ensures var c := Run(Fresh, events);
            id in c.callers ==>
              && (c.callers[id].Joined? ==> c.callers[id].flight in c.flights)
              && (c.callers[id].Loading? || c.callers[id].Peeking? ==> c.callers[id].load in c.loads)
  {
    RunKeeps(Fresh, events);
  }

  // ------------------------------------------------- a rotation is not lost

  ghost predicate HoldsRotation(c: Coord, flight: nat, tokens: TokenSet) {
    flight in c.flights && flight < c.started && c.flights[flight].phase == Saving(tokens)
  }

  lemma StepHoldsRotation(c: Coord, e: Event, flight: nat, tokens: TokenSet)
    requires HoldsRotation(c, flight, tokens) && !(e.StoreSettles? && e.flight == flight)
    ensures HoldsRotation(Step(c, e), flight, tokens)
  {
  }

  lemma {:induction false} RunHoldsRotation(c: Coord, events: seq<Event>, flight: nat, tokens: TokenSet)
    requires HoldsRotation(c, flight, tokens)
    requires forall i :: 0 <= i < |events| ==> !(events[i].StoreSettles? && events[i].flight == flight)
    ensures HoldsRotation(Run(c, events), flight, tokens)
    decreases |events|
  {
    if events != [] {
      RunHoldsRotation(c, events[..|events| - 1], flight, tokens);
      StepHoldsRotation(Run(c, events[..|events| - 1]), events[|events| - 1], flight, tokens);
    }
  }

  /**
   * A rotation accepted in its own epoch is remembered at once, and every caller who joined it by the
   * time its store write settles is served the rotated token, whether the write succeeded or not.
   */
  lemma AnAcceptedRotationIsServed(before: seq<Event>, flight: nat, tokens: TokenSet, between: seq<Event>, ok: bool, id: nat)
    requires var c := Run(Fresh, before);
             flight in c.flights && c.flights[flight].phase.Refreshing? && c.flights[flight].epoch == c.authEpoch
    requires forall i :: 0 <= i < |between| ==> !(between[i].StoreSettles? && between[i].flight == flight)
    ensures var accepted := Step(Run(Fresh, before), RefreshSettles(flight, Rotated(tokens)));
            var c := Run(accepted, between);
            && accepted.cached == Memo(Some(tokens))
            && (id in c.callers && c.callers[id] == Joined(flight) ==>
                  Step(c, StoreSettles(flight, ok)).callers[id] == Done(Served(tokens.access)))
  {
    RunKeeps(Fresh, before);
    AcceptanceHolds(Run(Fresh, before), flight, tokens);
    var accepted := Step(Run(Fresh, before), RefreshSettles(flight, Rotated(tokens)));
    RunHoldsRotation(accepted, between, flight, tokens);
    WriteServes(Run(accepted, between), flight, tokens, ok);
  }

  lemma AcceptanceHolds(c: Coord, flight: nat, tokens: TokenSet)
    requires Sound(c) && flight in c.flights && c.flights[flight].phase.Refreshing? && c.flights[flight].epoch == c.authEpoch
    ensures var d := Step(c, RefreshSettles(flight, Rotated(tokens))); d.cached == Memo(Some(tokens)) && HoldsRotation(d, flight, tokens)
  {
  }

  lemma WriteServes(c: Coord, flight: nat, tokens: TokenSet, ok: bool)
    requires HoldsRotation(c, flight, tokens)
    ensures var d := Step(c, StoreSettles(flight, ok));
            forall id :: id in c.callers && c.callers[id] == Joined(flight) ==> id in d.callers && d.callers[id] == Done(Served(tokens.access))
  {
  }

  // ----------------------------------------------------- what signs out

  /** The tokens are forgotten only on request, for want of a refresh token, or when this epoch's rotation is refused. */
  lemma WhatForgetsTheTokens(c: Coord, e: Event)
    requires Held(c.cached).Some? && Sound(c) && Held(Step(c, e).cached).None?
    ensures || e.Clear?
            || (e.GoOn? && e.caller in c.callers && c.callers[e.caller].Read?
                && c.callers[e.caller].tokens.Some? && c.callers[e.caller].tokens.value.refresh == "")
            || (e.RefreshSettles? && e.answer.Rejected? && c.refreshFlight == Some(e.flight))
  {
  }
}
