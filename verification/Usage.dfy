/** What an attempt is charged for: usage and cost are fixed once, when it ends. */
module Usage {
  import opened Common

  datatype Usage = Usage(
    capacityOccupiedMs: Option<int>, browserConnectedMs: Option<int>, chargeableMs: Option<int>,
    rate: Option<int>, modeledCost: Option<int>)

  const NOTHING: Usage := Usage(None, None, None, None, None)

  /** Microseconds to whole milliseconds; a tie goes to the even number. */
  function RoundMs(duration: int): int {
    var q, r := duration / 1000, duration % 1000;
    if r < 500 || (r == 500 && q % 2 == 0) then q else q + 1
  }

  /** Whole milliseconds for a duration in microseconds, to the nearest. */
  predicate Nearest(ms: int, duration: int) {
    -500 <= 1000 * ms - duration <= 500
  }

  /** Rounding to milliseconds is to the nearest, and a tie goes to the even one. */
  lemma RoundedToNearest(duration: int)
    ensures Nearest(RoundMs(duration), duration)
    ensures duration % 1000 == 500 ==> RoundMs(duration) % 2 == 0
    ensures duration >= 0 ==> RoundMs(duration) >= 0
  {
  }

  lemma RoundMsMonotone(a: int, b: int)
    requires a <= b
    ensures RoundMs(a) <= RoundMs(b)
  {
    if a / 1000 == b / 1000 {
      assert a % 1000 <= b % 1000;
    }
  }

  function Elapsed(since: Option<int>, now: int): Option<int> {
    if since.None? then None else Some(Max(0, RoundMs(now - since.value)))
  }

  /** Cost units for a time at a rate per second, rounded up. */
  function CostUnits(ms: int, rate: int): int {
    (ms * rate + 999) / 1000
  }

  function Finalized(usage: Usage, acquiringAt: Option<int>, activeAt: Option<int>,
                     rate: Option<int>, now: int): Usage
  {
    var occupied := if acquiringAt.Some? then Elapsed(acquiringAt, now) else usage.capacityOccupiedMs;
    var connected := if activeAt.Some? then Elapsed(activeAt, now) else usage.browserConnectedMs;
    if rate.Some? && occupied.Some? then
      Usage(occupied, connected, occupied, rate, Some(CostUnits(occupied.value, rate.value)))
    else Usage(occupied, connected, occupied, usage.rate, usage.modeledCost)
  }

  /** What the ledger may rely on: browser time is within the time charged for, and a cost is the
      charged time at the recorded rate, to the next whole unit. */
  predicate Chargeable(usage: Usage) {
    && usage.chargeableMs == usage.capacityOccupiedMs
    && (usage.browserConnectedMs.Some? ==>
          usage.chargeableMs.Some?
          && 0 <= usage.browserConnectedMs.value <= usage.chargeableMs.value)
    && (usage.chargeableMs.Some? ==> usage.chargeableMs.value >= 0)
    && (usage.modeledCost.Some? ==>
          && usage.chargeableMs.Some? && usage.rate.Some?
          && usage.chargeableMs.value * usage.rate.value <= 1000 * usage.modeledCost.value
          && 1000 * usage.modeledCost.value < usage.chargeableMs.value * usage.rate.value + 1000)
  }

  /** The time charged for runs from acquisition, the browser time from activation, up to now; what never
      began is not counted. */
  predicate Measures(usage: Usage, acquiringAt: Option<int>, activeAt: Option<int>, now: int) {
    && (if acquiringAt.Some? then usage.chargeableMs.Some? && Nearest(usage.chargeableMs.value, now - acquiringAt.value)
        else usage.chargeableMs.None?)
    && (if activeAt.Some? then
          usage.browserConnectedMs.Some? && Nearest(usage.browserConnectedMs.value, now - activeAt.value)
        else usage.browserConnectedMs.None?)
  }

  lemma FinalizedMeasures(acquiringAt: Option<int>, activeAt: Option<int>, rate: Option<int>, now: int)
    requires (acquiringAt.Some? ==> acquiringAt.value <= now) && (activeAt.Some? ==> activeAt.value <= now)
    ensures Measures(Finalized(NOTHING, acquiringAt, activeAt, rate, now), acquiringAt, activeAt, now)
  {
    if acquiringAt.Some? {
      RoundedToNearest(now - acquiringAt.value);
    }
    if activeAt.Some? {
      RoundedToNearest(now - activeAt.value);
    }
  }

  /** The charge is for the time since acquisition; browser time, since activation, never exceeds it because
      acquisition comes before activation. */
  lemma FinalizedIsChargeable(acquiringAt: Option<int>, activeAt: Option<int>, rate: Option<int>, now: int)
    requires activeAt.Some? ==> acquiringAt.Some? && acquiringAt.value <= activeAt.value
    ensures var usage := Finalized(NOTHING, acquiringAt, activeAt, rate, now);
            && Chargeable(usage)
            && ((acquiringAt.Some? ==> acquiringAt.value <= now) && (activeAt.Some? ==> activeAt.value <= now) ==>
                  Measures(usage, acquiringAt, activeAt, now))
  {
    if (acquiringAt.Some? ==> acquiringAt.value <= now) && (activeAt.Some? ==> activeAt.value <= now) {
      FinalizedMeasures(acquiringAt, activeAt, rate, now);
    }
    if activeAt.Some? {
      RoundMsMonotone(now - activeAt.value, now - acquiringAt.value);
    }
  }

  /** The assignments of finalize_attempt_usage, in order. */
  method FinalizeAttemptUsage(row: Usage, acquiringAt: Option<int>, activeAt: Option<int>,
                              rate: Option<int>, now: int)
    returns (usage: Usage)
    ensures usage == Finalized(row, acquiringAt, activeAt, rate, now)
  {
    usage := row;
    if acquiringAt.Some? {
      usage := usage.(capacityOccupiedMs := Some(Max(0, RoundMs(now - acquiringAt.value))));
    }
    if activeAt.Some? {
      usage := usage.(browserConnectedMs := Some(Max(0, RoundMs(now - activeAt.value))));
    }
    usage := usage.(chargeableMs := usage.capacityOccupiedMs);
    if rate.Some? && usage.chargeableMs.Some? {
      usage := usage.(rate := rate);
      usage := usage.(modeledCost := Some((usage.chargeableMs.value * rate.value + 999) / 1000));
    }
  }
}
