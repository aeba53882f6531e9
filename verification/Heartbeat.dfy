/** internal/hostdrun/runner.go: the heartbeat durations, in nanoseconds, with Go's 64-bit
    wrap-around written out. */
module Heartbeat {

  const SECOND := 1_000_000_000
  const MILLISECOND := 1_000_000
  const TWO_TO_64 := 0x1_0000_0000_0000_0000
  const TWO_TO_63 := 0x8000_0000_0000_0000

  const MAX_PROBE := 5 * SECOND
  const MIN_ACK := 3 * SECOND
  const MAX_ACK := 10 * SECOND

  type Int64 = x: int | -TWO_TO_63 <= x < TWO_TO_63

  /** Two's complement wrap-around of an exact result. */
  function Wrap(x: int): Int64 {
    (x + TWO_TO_63) % TWO_TO_64 - TWO_TO_63
  }

  /** `heartbeatProbeInterval`. */
  function ProbeInterval(interval: int): (probe: int)
    ensures 0 < probe <= MAX_PROBE
  {
    if interval <= 0 then SECOND else if interval > MAX_PROBE then MAX_PROBE else interval
  }

  /** `heartbeatAckTimeout`; Go's division truncates, which agrees with `/` on a positive probe. */
  function AckTimeout(probe: int): int {
    var p := if probe <= 0 then SECOND else probe;
    var timeout := p + p / 2;
    var raised := if timeout < MIN_ACK then MIN_ACK else timeout;
    if raised > MAX_ACK then MAX_ACK else raised
  }

  /** The interval `runOnce` works with: the server's tick when positive, else the configured seconds. */
  function Interval(heartbeatSeconds: Int64, tickMs: Int64): Int64 {
    if tickMs > 0 then Wrap(tickMs * MILLISECOND) else Wrap(heartbeatSeconds * SECOND)
  }

  function Probe(heartbeatSeconds: Int64, tickMs: Int64): int {
    ProbeInterval(Interval(heartbeatSeconds, tickMs))
  }

  function Ack(heartbeatSeconds: Int64, tickMs: Int64): int {
    AckTimeout(Probe(heartbeatSeconds, tickMs))
  }

  /** `ttlSeconds` in the heartbeat payload. */
  function TtlSeconds(heartbeatSeconds: Int64): int {
    var tripled := Wrap(heartbeatSeconds * 3);
    if 5 > tripled then 5 else tripled
  }

  /** For every configured interval and every server tick, overflowed products included: the probe is
      positive and at most 5 s, the acknowledgement timeout lies between 3 s and 7.5 s, so the 10 s cap
      never acts, and it is longer than the probe. */
  lemma {:induction false} DurationsBounded(heartbeatSeconds: Int64, tickMs: Int64)
    ensures var probe := Probe(heartbeatSeconds, tickMs);
            var ack := Ack(heartbeatSeconds, tickMs);
            && 0 < probe <= 5 * SECOND
            && 3 * SECOND <= ack <= 7 * SECOND + 500 * MILLISECOND
            && probe < ack
            && probe + ack <= 12 * SECOND + 500 * MILLISECOND
  {
  }

  lemma {:induction false} WrapIsExact(x: int)
    requires -TWO_TO_63 <= x < TWO_TO_63
    ensures Wrap(x) == x
  {
  }

  // ---------------------------------------------------------------- the gap between heartbeats

  /** The longest gap between two heartbeats on a surviving link. Heartbeats fall on the ticker's grid; the
      last tick that can find one still outstanding is the last within the acknowledgement timeout, and
      the next tick sends again. */
  function LongestGap(probe: int, ack: int): int
    requires probe > 0
  {
    (ack / probe + 1) * probe
  }

  /** The longest gap fits the advertised lifetime. */
  predicate GapFits(heartbeatSeconds: Int64, tickMs: Int64) {
    LongestGap(Probe(heartbeatSeconds, tickMs), Ack(heartbeatSeconds, tickMs)) <= TtlSeconds(heartbeatSeconds) * SECOND
  }

  lemma {:induction false} DivisionBounds(x: int, p: int)
    requires x >= 0 && p > 0
    ensures x < (x / p + 1) * p <= x + p
  {
    assert (x / p + 1) * p == p * (x / p) + p;
  }

  lemma {:induction false} TwoProbes(x: int, p: int)
    requires 0 < p <= x < 2 * p
    ensures (x / p + 1) * p == 2 * p
  {
    assert x / p == 1;
  }

  lemma {:induction false} AckBounds(probe: int)
    requires 0 < probe <= MAX_PROBE
    ensures probe < 2 * SECOND ==> AckTimeout(probe) == 3 * SECOND
    ensures probe >= 2 * SECOND ==> probe <= AckTimeout(probe) < 2 * probe
  {
  }

  /** From a probe of 2 s on the longest gap is two probes; below, it is less than 5 s. */
  lemma {:induction false} GapValue(probe: int)
    requires 0 < probe <= MAX_PROBE
    ensures probe >= 2 * SECOND ==> LongestGap(probe, AckTimeout(probe)) == 2 * probe
    ensures probe < 2 * SECOND ==> LongestGap(probe, AckTimeout(probe)) < 5 * SECOND
  {
    AckBounds(probe);
    if probe >= 2 * SECOND {
      TwoProbes(AckTimeout(probe), probe);
    } else {
      DivisionBounds(3 * SECOND, probe);
    }
  }

  /** For every setting and every server tick, overflowed products included, the gap fits exactly when the
      lifetime is at least 10 s or two probes. */
  lemma {:induction false} GapFitsExactly(heartbeatSeconds: Int64, tickMs: Int64)
    ensures GapFits(heartbeatSeconds, tickMs) <==>
              || TtlSeconds(heartbeatSeconds) >= 10
              || 2 * Probe(heartbeatSeconds, tickMs) <= TtlSeconds(heartbeatSeconds) * SECOND
  {
    GapValue(Probe(heartbeatSeconds, tickMs));
  }

  /** Without a server tick the gap fits the lifetime for every positive setting whose triple does not overflow. */
  lemma {:induction false} GapFitsWithoutTick(heartbeatSeconds: Int64, tickMs: Int64)
    requires 1 <= heartbeatSeconds && heartbeatSeconds * 3 < TWO_TO_63 && tickMs <= 0
    ensures GapFits(heartbeatSeconds, tickMs)
  {
    GapFitsExactly(heartbeatSeconds, tickMs);
    WrapIsExact(heartbeatSeconds * 3);
    if heartbeatSeconds <= 3 {
      WrapIsExact(heartbeatSeconds * SECOND);
    }
  }

  /** With server ticks the gap fits the lifetime for every tick exactly from 4 s on; below, a server tick
      of 5 s makes the gap 10 s while the advertised lifetime is at most 9 s. */
  lemma {:induction false} GapFitsEveryTick(heartbeatSeconds: Int64)
    requires 1 <= heartbeatSeconds && heartbeatSeconds * 3 < TWO_TO_63
    ensures (forall tickMs: Int64 :: GapFits(heartbeatSeconds, tickMs)) <==> heartbeatSeconds >= 4
  {
    WrapIsExact(heartbeatSeconds * 3);
    if heartbeatSeconds >= 4 {
      forall tickMs: Int64 ensures GapFits(heartbeatSeconds, tickMs) {
        GapFitsExactly(heartbeatSeconds, tickMs);
      }
    } else {
      WrapIsExact(5000 * MILLISECOND);
      GapFitsExactly(heartbeatSeconds, 5000);
      assert !GapFits(heartbeatSeconds, 5000);
    }
  }

  /** The exact condition for one tick: below a 4 s setting the tick must not exceed 2.5 s at 1 s, or 1.5
      times the setting above that. */
  lemma {:induction false} GapFitsTick(heartbeatSeconds: Int64, tickMs: Int64)
    requires 1 <= heartbeatSeconds && heartbeatSeconds * 3 < TWO_TO_63 && tickMs > 0
    requires tickMs * MILLISECOND < TWO_TO_63
    ensures GapFits(heartbeatSeconds, tickMs) <==>
              heartbeatSeconds >= 4 || tickMs <= (if heartbeatSeconds == 1 then 2500 else 1500 * heartbeatSeconds)
  {
    GapFitsExactly(heartbeatSeconds, tickMs);
    WrapIsExact(heartbeatSeconds * 3);
    WrapIsExact(tickMs * MILLISECOND);
  }
}
