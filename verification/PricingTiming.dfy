/** Pricing schedule validation in unsigned 64-bit arithmetic, and the durations built from accepted
    seconds (go/internal/config/config.go, go/internal/chain/registry.go, go/internal/app/app.go). */
module PricingTiming {

  const TWO_64: nat := 0x1_0000_0000_0000_0000
  const MAX_INT64: nat := 0x7fff_ffff_ffff_ffff
  const NANOS_PER_SECOND: nat := 1_000_000_000
  const MAX_DURATION_SECONDS: nat := MAX_INT64 / NANOS_PER_SECOND
  const MAX_STALE_AFTER_SECONDS: nat := 86400
  const MIN_FRESHNESS_MARGIN_SECONDS: nat := 600

  type Uint64 = n: nat | n < TWO_64

  /** Unsigned subtraction wraps below zero. */
  function Sub(a: Uint64, b: Uint64): Uint64 {
    (a - b) % TWO_64
  }

  /** Reading a number as a signed 64-bit word. */
  function AsInt64(n: int): int {
    var m := n % TWO_64;
    if m <= MAX_INT64 then m else m - TWO_64
  }

  /** time.Duration(seconds) * time.Second. */
  function Duration(seconds: Uint64): int {
    AsInt64(AsInt64(seconds) * NANOS_PER_SECOND)
  }

  datatype Pricing = Pricing(
    enabled: bool, signerOk: bool, interval: Uint64, staleAfter: Uint64, maxDeviationBps: Uint64,
    minUpdateDeviationBps: Uint64, heartbeat: Uint64, sourceTimeout: Uint64, gasSpikeBps: Uint64)

  datatype PricingError =
    | SignerMissing
    | IntervalInvalid
    | StaleAfterInvalid
    | DeviationInvalid
    | HeartbeatInvalid
    | HeartbeatNotBelowStale
    | ScheduleTooLong
    | MarginTooSmall
    | TimeoutInvalid
    | GasSpikeMissing

  datatype Verdict = Accepted | Rejected(error: PricingError)

  predicate DurationOk(seconds: Uint64) {
    seconds <= MAX_DURATION_SECONDS
  }

  function ValidateSchedule(p: Pricing): Verdict {
    if !p.enabled then Accepted
    else if !p.signerOk then Rejected(SignerMissing)
    else if p.interval == 0 || !DurationOk(p.interval) then Rejected(IntervalInvalid)
    else if p.staleAfter == 0 || !DurationOk(p.staleAfter) || p.staleAfter > MAX_STALE_AFTER_SECONDS then Rejected(StaleAfterInvalid)
    else if p.maxDeviationBps == 0 || p.minUpdateDeviationBps == 0 || p.minUpdateDeviationBps > 10_000 then Rejected(DeviationInvalid)
    else if p.heartbeat == 0 || !DurationOk(p.heartbeat) then Rejected(HeartbeatInvalid)
    else if p.heartbeat >= p.staleAfter then Rejected(HeartbeatNotBelowStale)
    else if p.interval >= Sub(p.staleAfter, p.heartbeat) then Rejected(ScheduleTooLong)
    else if Sub(Sub(p.staleAfter, p.heartbeat), p.interval) < MIN_FRESHNESS_MARGIN_SECONDS then Rejected(MarginTooSmall)
    else if p.sourceTimeout == 0 || !DurationOk(p.sourceTimeout) then Rejected(TimeoutInvalid)
    else if p.gasSpikeBps == 0 then Rejected(GasSpikeMissing)
    else Accepted
  }

  /** The schedule over the true integers, with sums where the code subtracts. */
  predicate SoundSchedule(p: Pricing) {
    && p.signerOk && p.interval >= 1 && p.heartbeat >= 1
    && p.heartbeat + p.interval + MIN_FRESHNESS_MARGIN_SECONDS <= p.staleAfter <= MAX_STALE_AFTER_SECONDS
    && p.maxDeviationBps >= 1 && 1 <= p.minUpdateDeviationBps <= 10_000
    && 1 <= p.sourceTimeout <= MAX_DURATION_SECONDS && p.gasSpikeBps >= 1
  }

  /** A checked subtraction is the true one. */
  lemma SubIsExact(a: Uint64, b: Uint64)
    requires b <= a
    ensures Sub(a, b) == a - b
  {
  }

  /** For all 64-bit inputs, wrap-around included, an enabled pricing config is accepted exactly when
      its schedule is sound over the true integers. */
  lemma AcceptedIffSound(p: Pricing)
    requires p.enabled
    ensures ValidateSchedule(p) == Accepted <==> SoundSchedule(p)
  {
    if p.heartbeat < p.staleAfter {
      SubIsExact(p.staleAfter, p.heartbeat);
      if p.interval < p.staleAfter - p.heartbeat { SubIsExact(Sub(p.staleAfter, p.heartbeat), p.interval); }
    }
  }

  lemma SmallIsItself(n: nat)
    requires n <= MAX_INT64
    ensures AsInt64(n) == n
  {
  }

  lemma AsInt64Fits(n: int)
    ensures AsInt64(n) <= MAX_INT64
  {
  }

  /** Seconds that pass the duration check, and only those, keep their value in int64 nanoseconds. */
  lemma DurationExactIffOk(seconds: Uint64)
    ensures Duration(seconds) == seconds * NANOS_PER_SECOND <==> DurationOk(seconds)
  {
    AsInt64Fits(AsInt64(seconds) * NANOS_PER_SECOND);
    if DurationOk(seconds) {
      SmallIsItself(seconds);
      SmallIsItself(seconds * NANOS_PER_SECOND);
    }
  }

  /** Every duration an accepted pricing config is turned into is exact and positive. */
  lemma AcceptedDurationsFit(p: Pricing, seconds: Uint64)
    requires p.enabled && ValidateSchedule(p) == Accepted
    requires seconds in {p.interval, p.staleAfter, p.heartbeat, p.sourceTimeout}
    ensures 0 < Duration(seconds) == seconds * NANOS_PER_SECOND <= MAX_INT64
  {
    AcceptedIffSound(p);
    DurationExactIffOk(seconds);
  }
}
