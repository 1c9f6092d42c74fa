/** The reconnect ladder: an exponential ceiling and a bounded jitter over it. */
module Backoff {
  import opened Prelude

  const BASE_DELAY_MS := 300
  const RECONNECT_CAP_MS := 15000
  const MAX_EXPONENT := 32
  const PROTOCOL_LADDER_FLOOR := 3

  function Pow2(e: nat): (p: nat)
    ensures p >= 1
  {
    if e == 0 then 1 else 2 * Pow2(e - 1)
  }

  /** `reconnectBackoffDelayMs` without jitter; `attempt` is never negative here. */
  function Ceiling(attempt: nat): int {
    Min(RECONNECT_CAP_MS, BASE_DELAY_MS * Pow2(Min(attempt, MAX_EXPONENT)))
  }

  /** `draw` is the random draw, in `[0, 1)`. */
  function DelayMs(attempt: nat, draw: real): real {
    Ceiling(attempt) as real * (0.5 + 0.5 * draw)
  }

  lemma {:induction false} Pow2Grows(a: nat, b: nat)
    requires a <= b
    ensures Pow2(a) <= Pow2(b)
    decreases b
  {
    if a < b {
      Pow2Grows(a, b - 1);
    }
  }

  lemma ScaledBelow(c: real, high: real, f: real)
    requires 0.0 < c <= high && f < 1.0
    ensures c * f < high
  {
  }

  lemma ScaledAbove(c: real, low: real, f: real)
    requires 0.0 < c && low <= c && f >= 0.5
    ensures low * 0.5 <= c * f
  {
  }

  lemma CeilingBounds(attempt: nat, floor: nat)
    requires floor <= attempt
    ensures 300 <= Ceiling(floor) <= Ceiling(attempt) <= 15000
  {
    Pow2Grows(Min(floor, MAX_EXPONENT), Min(attempt, MAX_EXPONENT));
  }

  /** No rung waits less than 150 ms or as long as 15 s, and none is below the ones under it. */
  lemma LadderBounds(attempt: nat, floor: nat, draw: real)
    requires 0.0 <= draw < 1.0 && floor <= attempt
    ensures 150.0 <= DelayMs(attempt, draw) < 15000.0
    ensures Ceiling(floor) as real * 0.5 <= DelayMs(attempt, draw)
  {
    CeilingBounds(attempt, floor);
    ScaledBelow(Ceiling(attempt) as real, 15000.0, 0.5 + 0.5 * draw);
    ScaledAbove(Ceiling(attempt) as real, Ceiling(floor) as real, 0.5 + 0.5 * draw);
  }

  /** After a failure that is not a gateway's the wait is at least 1.2 s. */
  lemma ProtocolWaits(attempt: nat, draw: real)
    requires 0.0 <= draw < 1.0 && PROTOCOL_LADDER_FLOOR <= attempt
    ensures 1200.0 <= DelayMs(attempt, draw)
  {
    LadderBounds(attempt, PROTOCOL_LADDER_FLOOR, draw);
    assert Pow2(3) == 8;
  }
}
