/**
 * The access-token coordinator: one refresh flight, one read of the secret
 * store, and an epoch that fences both against a sign-in or sign-out.
 *
 * A flight, a read and a caller are suspended calls; an event settles one of
 * them or lets one of them go on. Refreshing, the secret store and the clock
 * answer through the events.
 */
module TokenRefresh {
  import opened Prelude

  datatype TokenSet = TokenSet(access: string, refresh: string, expiresAt: Option<int>)

  datatype Memo = Unset | Memo(tokens: Option<TokenSet>)

  datatype Options = Options(force: bool, rejected: Option<string>)

  datatype Outcome = Served(access: string) | SignedOut | Threw

  /** `Peeking` and `Told` are a call of `current` on its own, which refreshes nothing. */
  datatype Caller =
    | Loading(options: Options, load: nat)
    | Read(options: Options, tokens: Option<TokenSet>)
    | Peeking(load: nat)
    | Told(tokens: Option<TokenSet>)
    | Joined(flight: nat)
    | Forgetting
    | Done(outcome: Outcome)

  datatype Phase = Refreshing | Saving(rotated: TokenSet) | Forsaking

  /** A rotation, the epoch it started in, and what it rotates. */
  datatype Flight = Flight(epoch: nat, spent: TokenSet, phase: Phase)

  /** `written` is the last write issued to the store. */
  datatype Coord = Coord(authEpoch: nat, cached: Memo, refreshFlight: Option<nat>, loadFlight: Option<nat>,
                         flights: map<nat, Flight>, loads: map<nat, nat>, callers: map<nat, Caller>,
                         started: nat, asked: nat, written: Option<Option<TokenSet>>)

  datatype Answer = Rotated(tokens: TokenSet) | Rejected | Unavailable

  datatype Event =
    | Ask(caller: nat, options: Options)
    | Peek(caller: nat)
    | LoadSettles(load: nat, result: Option<Option<TokenSet>>)
    | GoOn(caller: nat, now: int, skew: int)
    | RefreshSettles(flight: nat, answer: Answer)
    | StoreSettles(flight: nat, ok: bool)
    | ForgotSettles(caller: nat, ok: bool)
    | Save(tokens: TokenSet)
    | Clear

  const Fresh := Coord(0, Unset, None, None, map[], map[], map[], 0, 0, None)

  function Held(m: Memo): Option<TokenSet> {
    if m.Unset? then None else m.tokens
  }

  /** An absent or zero expiry never asks for a refresh. */
  predicate TokenNeedsRefresh(tokens: TokenSet, now: int, skew: int) {
    tokens.expiresAt.Some? && tokens.expiresAt.value != 0 && tokens.expiresAt.value - now < skew
  }

  function BeginAuthChange(c: Coord): Coord {
    c.(authEpoch := c.authEpoch + 1, refreshFlight := None, loadFlight := None)
  }

  /** `save` and `clear`: the memo changes with the epoch, and the write goes out. */
  function Change(c: Coord, tokens: Option<TokenSet>): Coord {
    BeginAuthChange(c).(cached := Memo(tokens), written := Some(tokens))
  }

  function Put(c: Coord, id: nat, caller: Caller): Coord {
    c.(callers := c.callers[id := caller])
  }

  /** Without options the call is `current` itself. */
  function Waiting(options: Option<Options>, load: nat): Caller {
    if options.Some? then Loading(options.value, load) else Peeking(load)
  }

  function Reads(options: Option<Options>, tokens: Option<TokenSet>): Caller {
    if options.Some? then Read(options.value, tokens) else Told(tokens)
  }

  /** `current` up to its await: memory answers at once, and otherwise all callers share one read. */
  function ReadFor(c: Coord, id: nat, options: Option<Options>): Coord {
    if c.cached.Memo? then Put(c, id, Reads(options, c.cached.tokens))
    else if c.loadFlight.Some? then Put(c, id, Waiting(options, c.loadFlight.value))
    else Put(c, id, Waiting(options, c.asked)).(loads := c.loads[c.asked := c.authEpoch], loadFlight := Some(c.asked), asked := c.asked + 1)
  }

  /** `accessToken` up to its first await. */
  function AskFor(c: Coord, id: nat, options: Options): Coord {
    if c.refreshFlight.Some? then Put(c, id, Joined(c.refreshFlight.value)) else ReadFor(c, id, Some(options))
  }

  function WakeReader(caller: Caller, load: nat, answer: Option<Option<TokenSet>>): Caller {
    if (caller.Loading? || caller.Peeking?) && caller.load == load then
      if answer.None? then Done(Threw)
      else Reads(if caller.Loading? then Some(caller.options) else None, answer.value)
    else caller
  }

  function WakeReaders(callers: map<nat, Caller>, load: nat, answer: Option<Option<TokenSet>>): map<nat, Caller> {
    map id | id in callers :: WakeReader(callers[id], load, answer)
  }

  /** `None` is a read that failed: it is not remembered, and the callers that waited for it fail. */
  function SettleLoad(c: Coord, load: nat, result: Option<Option<TokenSet>>): Coord {
    if load !in c.loads then c
    else
      var epoch, dropped := c.loads[load], c.(loads := c.loads - {load});
      if result.Some? && c.authEpoch != epoch then
        dropped.(callers := WakeReaders(c.callers, load, Some(Held(c.cached))))
      else
        var told := dropped.(loadFlight := if c.loadFlight == Some(load) then None else c.loadFlight,
                             callers := WakeReaders(c.callers, load, result));
        if result.Some? then told.(cached := Memo(result.value)) else told
  }

  function StartRefresh(c: Coord, id: nat, tokens: TokenSet): Coord {
    Put(c, id, Joined(c.started)).(flights := c.flights[c.started := Flight(c.authEpoch, tokens, Refreshing)],
                                   refreshFlight := Some(c.started), started := c.started + 1)
  }

  /** `accessToken` behind the read: serve, sign out, join, or rotate. */
  function Decide(c: Coord, id: nat, options: Options, tokens: TokenSet, now: int, skew: int): Coord {
    var rejectedCurrent := options.rejected.None? || options.rejected == Some("") || options.rejected == Some(tokens.access);
    if !(options.force && rejectedCurrent) && !TokenNeedsRefresh(tokens, now, skew) then Put(c, id, Done(Served(tokens.access)))
    else if tokens.refresh == "" then Put(Change(c, None), id, Forgetting)
    else if c.refreshFlight.Some? then Put(c, id, Joined(c.refreshFlight.value))
    else StartRefresh(c, id, tokens)
  }

  function Resume(c: Coord, id: nat, now: int, skew: int): Coord {
    if id !in c.callers || !c.callers[id].Read? then c
    else if c.callers[id].tokens.None? then Put(c, id, Done(SignedOut))
    else Decide(c, id, c.callers[id].options, c.callers[id].tokens.value, now, skew)
  }

  function Land(callers: map<nat, Caller>, flight: nat, outcome: Outcome): map<nat, Caller> {
    map id | id in callers :: if callers[id] == Joined(flight) then Done(outcome) else callers[id]
  }

  /** The flight ends, and everybody who joined it hears the same. */
  function EndFlight(c: Coord, flight: nat, outcome: Outcome): Coord {
    c.(flights := c.flights - {flight}, callers := Land(c.callers, flight, outcome),
       refreshFlight := if c.refreshFlight == Some(flight) then None else c.refreshFlight)
  }

  function SettleRefresh(c: Coord, flight: nat, answer: Answer): Coord {
    if flight !in c.flights || !c.flights[flight].phase.Refreshing? then c
    else if c.flights[flight].epoch != c.authEpoch then EndFlight(c, flight, Threw)
    else
      var f := c.flights[flight];
      match answer
      case Rotated(tokens) =>
        c.(cached := Memo(Some(tokens)), written := Some(Some(tokens)),
           flights := c.flights[flight := f.(phase := Saving(tokens))])
      case Rejected => Change(c, None).(flights := c.flights[flight := f.(phase := Forsaking)])
      case Unavailable => EndFlight(c, flight, Threw)
  }

  /** A failed write is not the flight's failure: the rotated token is served from memory. */
  function SettleStore(c: Coord, flight: nat, ok: bool): Coord {
    if flight !in c.flights then c
    else
      match c.flights[flight].phase
      case Refreshing => c
      case Saving(rotated) => EndFlight(c, flight, Served(rotated.access))
      case Forsaking => EndFlight(c, flight, if ok then SignedOut else Threw)
  }

  function Step(c: Coord, e: Event): Coord {
    match e
    case Ask(id, options) => if id in c.callers then c else AskFor(c, id, options)
    case Peek(id) => if id in c.callers then c else ReadFor(c, id, None)
    case LoadSettles(load, result) => SettleLoad(c, load, result)
    case GoOn(id, now, skew) => Resume(c, id, now, skew)
    case RefreshSettles(flight, answer) => SettleRefresh(c, flight, answer)
    case StoreSettles(flight, ok) => SettleStore(c, flight, ok)
    case ForgotSettles(id, ok) =>
      if id in c.callers && c.callers[id].Forgetting? then Put(c, id, Done(if ok then SignedOut else Threw)) else c
    case Save(tokens) => Change(c, Some(tokens))
    case Clear => Change(c, None)
  }

  function Run(c: Coord, events: seq<Event>): Coord
    decreases |events|
  {
    if events == [] then c else Step(Run(c, events[..|events| - 1]), events[|events| - 1])
  }
}
