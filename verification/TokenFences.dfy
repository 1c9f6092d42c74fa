/** What a sign-in or sign-out is fenced against, and exactly when what it saved is safe. */
module TokenFences {
  import opened Prelude
  import opened TokenRefresh
  import opened TokenProofs

  lemma RunStep(c: Coord, events: seq<Event>, e: Event)
    ensures Run(c, events + [e]) == Step(Run(c, events), e)
  {
  }

  // ------------------------------------------------------------- the fence

  /** A rotation that started in an earlier epoch, if it is still out. */
  ghost predicate FlightOutdated(c: Coord, flight: nat) {
    flight < c.started && (flight in c.flights ==> c.flights[flight].epoch < c.authEpoch)
  }

  /** A read that started in an earlier epoch, if it is still out. */
  ghost predicate LoadOutdated(c: Coord, load: nat) {
    load < c.asked && (load in c.loads ==> c.loads[load] < c.authEpoch)
  }

  lemma StepOutdates(c: Coord, e: Event, flight: nat, load: nat)
    ensures FlightOutdated(c, flight) ==> FlightOutdated(Step(c, e), flight)
    ensures LoadOutdated(c, load) ==> LoadOutdated(Step(c, e), load)
  {
  }

  lemma {:induction false} RunOutdates(c: Coord, events: seq<Event>, flight: nat, load: nat)
    ensures FlightOutdated(c, flight) ==> FlightOutdated(Run(c, events), flight)
    ensures LoadOutdated(c, load) ==> LoadOutdated(Run(c, events), load)
    decreases |events|
  {
    if events != [] {
      RunOutdates(c, events[..|events| - 1], flight, load);
      StepOutdates(Run(c, events[..|events| - 1]), events[|events| - 1], flight, load);
    }
  }

  /**
   * Once a sign-in or a sign-out has happened, no rotation that was out at that moment ever touches the
   * remembered tokens, what was written or the epoch, whatever it answers and however late.
   */
  lemma ARotationIsFenced(before: seq<Event>, change: Event, after: seq<Event>, flight: nat, answer: Answer)
    requires change.Save? || change.Clear?
    requires flight in Run(Fresh, before).flights
    ensures var c := Run(Step(Run(Fresh, before), change), after);
            var d := Step(c, RefreshSettles(flight, answer));
            d.cached == c.cached && d.written == c.written && d.authEpoch == c.authEpoch
  {
    RunKeeps(Fresh, before);
    ChangeOutdates(Run(Fresh, before), change, flight);
    RunOutdates(Step(Run(Fresh, before), change), after, flight, 0);
    OutdatedIsHarmless(Run(Step(Run(Fresh, before), change), after), flight, answer);
  }

  lemma ChangeOutdates(c: Coord, change: Event, flight: nat)
    requires FlightsOk(c) && flight in c.flights && (change.Save? || change.Clear?)
    ensures FlightOutdated(Step(c, change), flight)
  {
  }

  lemma OutdatedIsHarmless(c: Coord, flight: nat, answer: Answer)
    requires FlightOutdated(c, flight)
    ensures var d := Step(c, RefreshSettles(flight, answer));
            d.cached == c.cached && d.written == c.written && d.authEpoch == c.authEpoch
  {
  }

  /** And no read of the store that was out at that moment ever touches the remembered tokens. */
  lemma AReadIsFenced(before: seq<Event>, change: Event, after: seq<Event>, load: nat, result: Option<Option<TokenSet>>)
    requires change.Save? || change.Clear?
    requires load in Run(Fresh, before).loads
    ensures var c := Run(Step(Run(Fresh, before), change), after);
            Step(c, LoadSettles(load, result)).cached == c.cached
  {
    RunKeeps(Fresh, before);
    ChangeOutdatesRead(Run(Fresh, before), change, load);
    RunOutdates(Step(Run(Fresh, before), change), after, 0, load);
    OutdatedReadIsHarmless(Run(Step(Run(Fresh, before), change), after), load, result);
  }

  lemma ChangeOutdatesRead(c: Coord, change: Event, load: nat)
    requires Sound(c) && (change.Save? || change.Clear?) && load in c.loads
    ensures LoadOutdated(Step(c, change), load)
  {
  }

  lemma OutdatedReadIsHarmless(c: Coord, load: nat, result: Option<Option<TokenSet>>)
    requires LoadOutdated(c, load)
    ensures Step(c, LoadSettles(load, result)).cached == c.cached
  {
  }

  // ---------------------------------------------------- where tokens come from

  /** A rotation whose answer would be taken. */
  predicate Accepts(c: Coord, flight: nat) {
    flight in c.flights && c.flights[flight].phase.Refreshing? && c.flights[flight].epoch == c.authEpoch
  }

  /** One generation more: a sign-in founds a line, and an accepted rotation continues the one it spends. */
  function Grown(family: set<TokenSet>, c: Coord, e: Event): set<TokenSet> {
    match e
    case Save(tokens) => family + {tokens}
    case RefreshSettles(flight, Rotated(tokens)) =>
      if Accepts(c, flight) && c.flights[flight].spent in family then family + {tokens} else family
    case _ => family
  }

  /** The token sets that descend from `first`, or from a later sign-in, by the end of a run. */
  function Family(c: Coord, first: set<TokenSet>, events: seq<Event>): set<TokenSet>
    decreases |events|
  {
    if events == [] then first
    else Grown(Family(c, first, events[..|events| - 1]), Run(c, events[..|events| - 1]), events[|events| - 1])
  }

  function OnlyOf(tokens: Option<TokenSet>): set<TokenSet> {
    if tokens.Some? then {tokens.value} else {}
  }

  function SetBy(change: Event): Option<TokenSet>
    requires change.Save? || change.Clear?
  {
    if change.Save? then Some(change.tokens) else None
  }

  /** A caller with these would rotate them at some moment: it was forced to, or they expire. */
  predicate CouldRotate(options: Options, tokens: TokenSet) {
    && tokens.refresh != ""
    && (|| (options.force && (options.rejected.None? || options.rejected == Some("") || options.rejected == Some(tokens.access)))
        || (tokens.expiresAt.Some? && tokens.expiresAt.value != 0))
  }

  /** A caller that has read tokens other than those now held, and may still rotate them. */
  predicate IsStale(caller: Caller, held: Option<TokenSet>) {
    caller.Read? && caller.tokens.Some? && caller.tokens != held && CouldRotate(caller.options, caller.tokens.value)
  }

  /** Everything that may still rotate in this epoch belongs to the family. */
  ghost predicate Pure(c: Coord, family: set<TokenSet>) {
    && c.cached.Memo?
    && (Held(c.cached).Some? ==> Held(c.cached).value in family)
    && (forall id :: id in c.callers && c.callers[id].Read? && c.callers[id].tokens.Some? ==>
          CouldRotate(c.callers[id].options, c.callers[id].tokens.value) ==> c.callers[id].tokens.value in family)
    && (forall f :: f in c.flights ==>
          c.flights[f].epoch <= c.authEpoch && (c.flights[f].epoch == c.authEpoch ==> c.flights[f].spent in family))
    && (forall l :: l in c.loads ==> c.loads[l] < c.authEpoch)
  }

  lemma SettlingIsPure(c: Coord, flight: nat, answer: Answer, family: set<TokenSet>)
    requires Pure(c, family)
    ensures Pure(SettleRefresh(c, flight, answer), Grown(family, c, RefreshSettles(flight, answer)))
  {
  }

  lemma GoingOnIsPure(c: Coord, id: nat, now: int, skew: int, family: set<TokenSet>)
    requires Pure(c, family)
    ensures Pure(Resume(c, id, now, skew), family)
  {
  }

  lemma WakingIsPure(c: Coord, load: nat, result: Option<Option<TokenSet>>, family: set<TokenSet>)
    requires Pure(c, family)
    ensures Pure(SettleLoad(c, load, result), family)
  {
  }

  lemma StepIsPure(c: Coord, e: Event, family: set<TokenSet>)
    requires Pure(c, family)
    ensures Pure(Step(c, e), Grown(family, c, e))
  {
    match e
    case RefreshSettles(flight, answer) => SettlingIsPure(c, flight, answer, family);
    case GoOn(id, now, skew) => GoingOnIsPure(c, id, now, skew, family);
    case LoadSettles(load, result) => WakingIsPure(c, load, result, family);
    case _ =>
  }

  lemma {:induction false} RunIsPure(c: Coord, events: seq<Event>, family: set<TokenSet>)
    requires Pure(c, family)
    ensures Pure(Run(c, events), Family(c, family, events))
    decreases |events|
  {
    if events != [] {
      RunIsPure(c, events[..|events| - 1], family);
      StepIsPure(Run(c, events[..|events| - 1]), events[|events| - 1], Family(c, family, events[..|events| - 1]));
    }
  }

  /** However the run goes on, every rotation that could be accepted spends a descendant, and memory holds one. */
  ghost predicate EveryRotationDescends(c: Coord, first: set<TokenSet>) {
    forall events :: Descends(c, first, events)
  }

  ghost predicate Descends(c: Coord, first: set<TokenSet>, events: seq<Event>) {
    && (Held(Run(c, events).cached).Some? ==> Held(Run(c, events).cached).value in Family(c, first, events))
    && forall flight :: Accepts(Run(c, events), flight) ==> Run(c, events).flights[flight].spent in Family(c, first, events)
  }

  lemma ChangeIsPure(c: Coord, change: Event)
    requires Sound(c) && (change.Save? || change.Clear?)
    requires forall id :: id in c.callers ==> !IsStale(c.callers[id], SetBy(change))
    ensures Pure(Step(c, change), OnlyOf(SetBy(change)))
  {
  }

  /** A moment at which tokens that expire need a refresh. */
  function Expiry(tokens: TokenSet): int {
    if tokens.expiresAt.Some? then tokens.expiresAt.value + 1 else 0
  }

  lemma AStaleCallerRotates(c: Coord, change: Event, id: nat)
    requires (change.Save? || change.Clear?) && id in c.callers && IsStale(c.callers[id], SetBy(change))
    ensures var changed := Step(c, change);
            var d := Step(changed, GoOn(id, Expiry(c.callers[id].tokens.value), 0));
            d == StartRefresh(changed, id, c.callers[id].tokens.value) && Accepts(d, changed.started)
            && d.flights[changed.started].spent == c.callers[id].tokens.value
  {
  }

  /**
   * A sign-in or sign-out is safe exactly when no caller is between its read and its decision with other
   * tokens it may still rotate: then every rotation ever accepted afterwards, and everything memory ever
   * holds, descends from what was saved or from a later sign-in.
   */
  lemma AChangeIsSafeExactlyWhen(before: seq<Event>, change: Event)
    requires change.Save? || change.Clear?
    ensures var c := Run(Fresh, before);
            EveryRotationDescends(Step(c, change), OnlyOf(SetBy(change))) <==>
              forall id :: id in c.callers ==> !IsStale(c.callers[id], SetBy(change))
  {
    RunKeeps(Fresh, before);
    var c := Run(Fresh, before);
    if forall id :: id in c.callers ==> !IsStale(c.callers[id], SetBy(change)) {
      SafeWithoutStaleCallers(c, change);
    } else {
      var id :| id in c.callers && IsStale(c.callers[id], SetBy(change));
      UnsafeWithAStaleCaller(c, change, id);
    }
  }

  lemma SafeWithoutStaleCallers(c: Coord, change: Event)
    requires Sound(c) && (change.Save? || change.Clear?)
    requires forall id :: id in c.callers ==> !IsStale(c.callers[id], SetBy(change))
    ensures EveryRotationDescends(Step(c, change), OnlyOf(SetBy(change)))
  {
    ChangeIsPure(c, change);
    var changed, first := Step(c, change), OnlyOf(SetBy(change));
    forall events ensures Descends(changed, first, events) {
      RunIsPure(changed, events, first);
      PureDescends(changed, first, events);
    }
  }

  lemma PureDescends(c: Coord, first: set<TokenSet>, events: seq<Event>)
    requires Pure(Run(c, events), Family(c, first, events))
    ensures Descends(c, first, events)
  {
  }

  lemma UnsafeWithAStaleCaller(c: Coord, change: Event, id: nat)
    requires (change.Save? || change.Clear?) && id in c.callers && IsStale(c.callers[id], SetBy(change))
    ensures !EveryRotationDescends(Step(c, change), OnlyOf(SetBy(change)))
  {
    var changed, first := Step(c, change), OnlyOf(SetBy(change));
    var late := GoOn(id, Expiry(c.callers[id].tokens.value), 0);
    AStaleCallerRotates(c, change, id);
    RunStep(changed, [], late);
    assert [] + [late] == [late];
    FamilyStays(changed, first, late);
    assert !Descends(changed, first, [late]);
  }

  lemma FamilyStays(c: Coord, first: set<TokenSet>, e: Event)
    requires e.GoOn?
    ensures Family(c, first, [e]) == first
  {
    assert [e][..0] == [];
  }

  /** A stale caller's rotation does replace the change: memory ends up with whatever it was answered. */
  lemma AStaleCallerReplacesTheChange(before: seq<Event>, change: Event, id: nat, rotated: TokenSet)
    requires change.Save? || change.Clear?
    requires var c := Run(Fresh, before); id in c.callers && IsStale(c.callers[id], SetBy(change))
    ensures var c := Run(Fresh, before);
            var changed := Step(c, change);
            Run(changed, [GoOn(id, Expiry(c.callers[id].tokens.value), 0), RefreshSettles(changed.started, Rotated(rotated))]).cached
            == Memo(Some(rotated))
  {
    var c := Run(Fresh, before);
    var changed := Step(c, change);
    var late, answer := GoOn(id, Expiry(c.callers[id].tokens.value), 0), RefreshSettles(changed.started, Rotated(rotated));
    AStaleCallerRotates(c, change, id);
    RunStep(changed, [], late);
    assert [] + [late] == [late];
    RunStep(changed, [late], answer);
    assert [late] + [answer] == [late, answer];
  }

  /** Such a caller is one `accessToken` call away: forced, and asked just before the sign-in. */
  lemma AStaleReaderOverwritesASignin(first: TokenSet, second: TokenSet, rotated: TokenSet)
    requires first.refresh != "" && first != second
    ensures var before := [Save(first), Ask(0, Options(true, None))];
            && 0 in Run(Fresh, before).callers && IsStale(Run(Fresh, before).callers[0], Some(second))
            && Run(Step(Run(Fresh, before), Save(second)), [GoOn(0, Expiry(first), 0), RefreshSettles(0, Rotated(rotated))]).cached
               == Memo(Some(rotated))
  {
    var ask := Ask(0, Options(true, None));
    RunStep(Fresh, [], Save(first));
    assert [] + [Save(first)] == [Save(first)];
    RunStep(Fresh, [Save(first)], ask);
    assert [Save(first)] + [ask] == [Save(first), ask];
    AStaleCallerReplacesTheChange([Save(first), ask], Save(second), 0, rotated);
  }
}
