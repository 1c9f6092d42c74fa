/** The token coordinator as the object it is, between one await and the next. */
module TokenCoordinator {
  import opened Prelude
  import T = TokenRefresh

  class TokenCoordinator {
    var refreshFlight: Option<nat>
    var authEpoch: nat
    var cached: T.Memo
    var loadFlight: Option<nat>

    /** The calls that are suspended, and what was last written to the store. */
    var flights: map<nat, T.Flight>
    var loads: map<nat, nat>
    var callers: map<nat, T.Caller>
    var started: nat
    var asked: nat
    var written: Option<Option<T.TokenSet>>

    ghost function Model(): T.Coord
      reads this
    {
      T.Coord(authEpoch, cached, refreshFlight, loadFlight, flights, loads, callers, started, asked, written)
    }

    constructor ()
      ensures Model() == T.Fresh
    {
      refreshFlight, authEpoch, cached, loadFlight := None, 0, T.Unset, None;
      flights, loads, callers, started, asked, written := map[], map[], map[], 0, 0, None;
    }

    method BeginAuthChange()
      modifies this
      ensures Model() == T.BeginAuthChange(old(Model()))
    {
      authEpoch := authEpoch + 1;
      refreshFlight := None;
      loadFlight := None;
    }

    method Save(tokens: T.TokenSet)
      modifies this
      ensures Model() == T.Step(old(Model()), T.Save(tokens))
    {
      BeginAuthChange();
      cached := T.Memo(Some(tokens));
      written := Some(Some(tokens));
    }

    method Clear()
      modifies this
      ensures Model() == T.Step(old(Model()), T.Clear)
    {
      BeginAuthChange();
      cached := T.Memo(None);
      written := Some(None);
    }

    /**
     * `current`, up to its await: it resolves at once, or waits for a read. `options` are those of the
     * `accessToken` call it serves, if it serves one.
     */
    method Current(id: nat, options: Option<T.Options>)
      modifies this
      ensures Model() == T.ReadFor(old(Model()), id, options)
    {
      if cached.Memo? {
        callers := callers[id := T.Reads(options, cached.tokens)];
        return;
      }
      if loadFlight.None? {
        loads := loads[asked := authEpoch];
        loadFlight := Some(asked);
        asked := asked + 1;
      }
      callers := callers[id := T.Waiting(options, loadFlight.value)];
    }

    /** `accessToken` up to its first await; `id` is a new call. */
    method AccessToken(id: nat, options: T.Options)
      requires id !in callers
      modifies this
      ensures Model() == T.Step(old(Model()), T.Ask(id, options))
    {
      if refreshFlight.Some? {
        callers := callers[id := T.Joined(refreshFlight.value)];
        return;
      }
      Current(id, Some(options));
    }

    method LoadSettles(load: nat, result: Option<Option<T.TokenSet>>)
      modifies this
      ensures Model() == T.Step(old(Model()), T.LoadSettles(load, result))
    {
      if load !in loads {
        return;
      }
      var flightEpoch := loads[load];
      loads := loads - {load};
      if result.Some? && authEpoch != flightEpoch {
        callers := T.WakeReaders(callers, load, Some(T.Held(cached)));
        return;
      }
      if result.Some? {
        cached := T.Memo(result.value);
      }
      if loadFlight == Some(load) {
        loadFlight := None;
      }
      callers := T.WakeReaders(callers, load, result);
    }

    /** `accessToken` behind the read. */
    method GoOn(id: nat, now: int, skew: int)
      requires id in callers && callers[id].Read?
      modifies this
      ensures Model() == T.Step(old(Model()), T.GoOn(id, now, skew))
    {
      var options := callers[id].options;
      if callers[id].tokens.None? {
        callers := callers[id := T.Done(T.SignedOut)];
        return;
      }
      var tokens := callers[id].tokens.value;
      var rejectedCurrent := options.rejected.None? || options.rejected == Some("") || options.rejected == Some(tokens.access);
      if !(options.force && rejectedCurrent) && !T.TokenNeedsRefresh(tokens, now, skew) {
        callers := callers[id := T.Done(T.Served(tokens.access))];
        return;
      }
      if tokens.refresh == "" {
        Clear();
        callers := callers[id := T.Forgetting];
        return;
      }
      if refreshFlight.Some? {
        callers := callers[id := T.Joined(refreshFlight.value)];
        return;
      }
      StartRefresh(id, tokens);
    }

    method StartRefresh(id: nat, tokens: T.TokenSet)
      modifies this
      ensures Model() == T.StartRefresh(old(Model()), id, tokens)
    {
      flights := flights[started := T.Flight(authEpoch, tokens, T.Refreshing)];
      refreshFlight := Some(started);
      callers := callers[id := T.Joined(started)];
      started := started + 1;
    }

    method EndFlight(flight: nat, outcome: T.Outcome)
      modifies this
      ensures Model() == T.EndFlight(old(Model()), flight, outcome)
    {
      flights := flights - {flight};
      callers := T.Land(callers, flight, outcome);
      if refreshFlight == Some(flight) {
        refreshFlight := None;
      }
    }

    method RefreshSettles(flight: nat, answer: T.Answer)
      modifies this
      ensures Model() == T.Step(old(Model()), T.RefreshSettles(flight, answer))
    {
      if flight !in flights || !flights[flight].phase.Refreshing? {
        return;
      }
      var f := flights[flight];
      if authEpoch != f.epoch {
        EndFlight(flight, T.Threw);
        return;
      }
      match answer
      case Rejected =>
        Clear();
        flights := flights[flight := f.(phase := T.Forsaking)];
      case Unavailable => EndFlight(flight, T.Threw);
      case Rotated(tokens) =>
        cached := T.Memo(Some(tokens));
        written := Some(Some(tokens));
        flights := flights[flight := f.(phase := T.Saving(tokens))];
    }

    method StoreSettles(flight: nat, ok: bool)
      modifies this
      ensures Model() == T.Step(old(Model()), T.StoreSettles(flight, ok))
    {
      if flight !in flights {
        return;
      }
      match flights[flight].phase
      case Refreshing =>
      case Saving(rotated) => EndFlight(flight, T.Served(rotated.access));
      case Forsaking => EndFlight(flight, if ok then T.SignedOut else T.Threw);
    }
  }
}
