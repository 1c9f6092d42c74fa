/** Any number of requests refused with one access token: how many rotations they cost. */
module TokenBurst {
  import opened Prelude
  import opened TokenRefresh
  import opened TokenProofs

  /**
   * What may happen while requests refused with `access` are answered: whoever asks or decides was refused
   * with it, nobody hands it out again, and a token that is not the refused one does not expire meanwhile.
   */
  ghost predicate InBurst(c: Coord, e: Event, access: string) {
    match e
    case Ask(_, options) => options.rejected == Some(access)
    case GoOn(id, now, skew) =>
      id in c.callers && c.callers[id].Read? ==>
        && c.callers[id].options.rejected == Some(access)
        && (c.callers[id].tokens.Some? && c.callers[id].tokens.value.access != access ==>
              !TokenNeedsRefresh(c.callers[id].tokens.value, now, skew))
    case RefreshSettles(_, answer) => answer.Rotated? ==> answer.tokens.access != access
    case LoadSettles(_, result) => result.Some? && result.value.Some? ==> result.value.value.access != access
    case Save(tokens) => tokens.access != access
    case _ => true
  }

  ghost predicate Burst(c: Coord, events: seq<Event>, access: string)
    decreases |events|
  {
    events == [] ||
    (Burst(c, events[..|events| - 1], access) && InBurst(Run(c, events[..|events| - 1]), events[|events| - 1], access))
  }

  predicate IsFailure(e: Event) {
    e.RefreshSettles? && e.answer.Unavailable?
  }

  /** How many rotations came to nothing. */
  function Failures(events: seq<Event>): nat
    decreases |events|
  {
    if events == [] then 0 else Failures(events[..|events| - 1]) + (if IsFailure(events[|events| - 1]) then 1 else 0)
  }

  predicate Refused(tokens: Option<TokenSet>, access: string) {
    tokens.Some? && tokens.value.access == access
  }

  /** A caller has read the refused token and not decided yet. */
  predicate InHand(c: Coord, access: string) {
    exists id :: id in c.callers && c.callers[id].Read? && Refused(c.callers[id].tokens, access)
  }

  /** A rotation that was under way is over, with the refused token still in somebody's hand. */
  predicate LeavesOne(c: Coord, e: Event, access: string) {
    !IsFailure(e) && c.refreshFlight.Some? && Step(c, e).refreshFlight.None? && InHand(Step(c, e), access)
  }

  function Leftovers(c: Coord, events: seq<Event>, access: string): nat
    decreases |events|
  {
    if events == [] then 0
    else
      var front := events[..|events| - 1];
      Leftovers(c, front, access) + (if LeavesOne(Run(c, front), events[|events| - 1], access) then 1 else 0)
  }

  /** A rotation of the refused token could start: none is under way, and memory or a caller has it. */
  predicate Armed(c: Coord, access: string) {
    c.refreshFlight.None? && (Refused(Held(c.cached), access) || InHand(c, access))
  }

  /** Once a rotation is accepted, the refused token is no longer in memory. */
  predicate Replaced(c: Coord, access: string) {
    c.refreshFlight.Some? && c.refreshFlight.value in c.flights && !c.flights[c.refreshFlight.value].phase.Refreshing? ==>
      !Refused(Held(c.cached), access)
  }

  lemma MemoryOnlyLosesIt(c: Coord, e: Event, access: string)
    requires InBurst(c, e, access) && Refused(Held(Step(c, e).cached), access)
    ensures Step(c, e).cached == c.cached
  {
  }

  lemma DecidingReplaces(c: Coord, id: nat, now: int, skew: int, access: string)
    requires Sound(c) && Replaced(c, access)
    ensures Replaced(Resume(c, id, now, skew), access)
  {
  }

  lemma SettlingReplaces(c: Coord, e: Event, access: string)
    requires Sound(c) && InBurst(c, e, access) && Replaced(c, access) && (e.RefreshSettles? || e.StoreSettles?)
    ensures Replaced(Step(c, e), access)
  {
  }

  lemma ReplacedStays(c: Coord, e: Event, access: string)
    requires Sound(c) && InBurst(c, e, access) && Replaced(c, access)
    ensures Replaced(Step(c, e), access)
  {
    match e
    case GoOn(id, now, skew) => DecidingReplaces(c, id, now, skew, access);
    case RefreshSettles(_, _) => SettlingReplaces(c, e, access);
    case StoreSettles(_, _) => SettlingReplaces(c, e, access);
    case _ =>
  }

  lemma AReadFindsIt(c: Coord, e: Event, access: string, id: nat)
    requires e.LoadSettles? && InBurst(c, e, access)
    requires id in c.callers && !c.callers[id].Read? && Step(c, e).callers[id].Read?
    requires Refused(Step(c, e).callers[id].tokens, access)
    ensures Refused(Held(c.cached), access)
  {
  }

  lemma DecidingReads(c: Coord, caller: nat, now: int, skew: int, id: nat)
    requires var d := Resume(c, caller, now, skew); id in d.callers && d.callers[id].Read?
    ensures id in c.callers && Resume(c, caller, now, skew).callers[id] == c.callers[id]
  {
  }

  lemma AskingReads(c: Coord, caller: nat, options: Option<Options>, id: nat)
    requires var d := ReadFor(c, caller, options); id in d.callers && d.callers[id].Read?
    ensures var d := ReadFor(c, caller, options);
            (id in c.callers && d.callers[id] == c.callers[id]) || (options.Some? && d.callers[id].tokens == Held(c.cached))
  {
  }

  lemma OnlyReadersRead(c: Coord, e: Event, id: nat)
    requires !e.LoadSettles? && id in Step(c, e).callers && Step(c, e).callers[id].Read?
    ensures (id in c.callers && Step(c, e).callers[id] == c.callers[id])
            || (e.Ask? && Step(c, e).callers[id].tokens == Held(c.cached))
  {
    match e
    case Ask(caller, options) =>
      if caller !in c.callers && c.refreshFlight.None? {
        AskingReads(c, caller, Some(options), id);
      }
    case Peek(caller) =>
      if caller !in c.callers {
        AskingReads(c, caller, None, id);
      }
    case GoOn(caller, now, skew) => DecidingReads(c, caller, now, skew, id);
    case _ =>
  }

  /** The refused token comes from where it was. */
  lemma NobodyPicksItUp(c: Coord, e: Event, access: string)
    requires InBurst(c, e, access) && InHand(Step(c, e), access)
    ensures Refused(Held(c.cached), access) || InHand(c, access)
  {
    var d := Step(c, e);
    var id :| id in d.callers && d.callers[id].Read? && Refused(d.callers[id].tokens, access);
    if e.LoadSettles? {
      if !c.callers[id].Read? {
        AReadFindsIt(c, e, access, id);
      }
    } else {
      OnlyReadersRead(c, e, id);
    }
  }

  lemma OnlyTheseEndIt(c: Coord, e: Event, access: string)
    requires Sound(c) && InBurst(c, e, access) && Replaced(c, access) && !IsFailure(e)
    requires c.refreshFlight.Some? && Step(c, e).refreshFlight.None?
    ensures !Refused(Held(Step(c, e).cached), access)
  {
  }

  lemma ArmedAgain(c: Coord, e: Event, access: string)
    requires Sound(c) && InBurst(c, e, access) && Replaced(c, access)
    requires !Armed(c, access) && Armed(Step(c, e), access) && !IsFailure(e)
    ensures LeavesOne(c, e, access)
  {
    if Refused(Held(Step(c, e).cached), access) {
      MemoryOnlyLosesIt(c, e, access);
    } else {
      NobodyPicksItUp(c, e, access);
    }
    if c.refreshFlight.Some? && Step(c, e).refreshFlight.None? {
      OnlyTheseEndIt(c, e, access);
    }
  }

  /** Only a caller with the refused token in hand starts a rotation, and none while one is under way. */
  lemma StartingDisarms(c: Coord, e: Event, access: string)
    requires InBurst(c, e, access) && access != ""
    ensures var d := Step(c, e);
            d.started == c.started || (d.started == c.started + 1 && Armed(c, access) && !Armed(d, access))
  {
    if e.GoOn? && e.caller in c.callers && c.callers[e.caller].Read? && Refused(c.callers[e.caller].tokens, access) {
      assert InHand(c, access);
    }
  }

  ghost function Due(c: Coord, access: string): nat {
    c.started + (if Armed(c, access) then 1 else 0)
  }

  lemma StepIsPaid(c: Coord, e: Event, access: string)
    requires Sound(c) && InBurst(c, e, access) && access != "" && Replaced(c, access)
    ensures Due(Step(c, e), access)
            <= Due(c, access) + (if IsFailure(e) then 1 else 0) + (if LeavesOne(c, e, access) then 1 else 0)
  {
    StartingDisarms(c, e, access);
    if !Armed(c, access) && Armed(Step(c, e), access) && !IsFailure(e) {
      ArmedAgain(c, e, access);
    }
  }

  lemma {:induction false} RunIsPaid(c: Coord, burst: seq<Event>, access: string)
    requires Sound(c) && access != "" && Burst(c, burst, access) && Replaced(c, access)
    ensures Due(Run(c, burst), access) <= Due(c, access) + Failures(burst) + Leftovers(c, burst, access)
    ensures Sound(Run(c, burst)) && Replaced(Run(c, burst), access)
    decreases |burst|
  {
    if burst != [] {
      var front, e := burst[..|burst| - 1], burst[|burst| - 1];
      RunIsPaid(c, front, access);
      RunKeeps(c, burst);
      ReplacedStays(Run(c, front), e, access);
      StepIsPaid(Run(c, front), e, access);
    }
  }

  /**
   * However many requests are refused with one token, and in whatever order they arrive, decide and are
   * answered, they cost one rotation, one more for each that came to nothing, and one more for each that
   * ended while a caller had read the refused token and not decided yet.
   */
  lemma ABurstOfRejectionsCostsOneRotation(before: seq<Event>, burst: seq<Event>, access: string)
    requires var c := Run(Fresh, before); c.refreshFlight.None? && Burst(c, burst, access)
    requires access != ""
    ensures var c := Run(Fresh, before);
            Run(c, burst).started <= c.started + 1 + Failures(burst) + Leftovers(c, burst, access)
  {
    RunKeeps(Fresh, before);
    RunIsPaid(Run(Fresh, before), burst, access);
  }
}
