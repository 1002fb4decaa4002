/** The pure feedback rules of domain pacing: an additive-increase, multiplicative-decrease
    controller over one host's allowance (concurrency and spacing).

    Instants and durations are whole microseconds, which is the resolution of the source's
    datetimes and of its six-digit rounding of spacing. */
module PacingController {
  import opened Common

  const SECOND: int := 1_000_000
  const MAXIMUM_RETRY: int := 31_536_000 * SECOND

  datatype Settings = Settings(
    defaultConcurrency: int, defaultSpacing: int,
    maximumConcurrency: int, minimumSpacing: int, maximumSpacing: int,
    learnedTtl: int, healthySamples: int, overloadSamples: int, cooldown: int)
  {
    predicate Valid() {
      && 1 <= defaultConcurrency <= maximumConcurrency <= 100
      && 10_000 <= minimumSpacing <= defaultSpacing <= maximumSpacing <= 3600 * SECOND
      && minimumSpacing <= 60 * SECOND && defaultSpacing <= 60 * SECOND
      && 60 * SECOND <= learnedTtl <= 2_592_000 * SECOND
      && 2 <= healthySamples <= 1000
      && 2 <= overloadSamples <= 100
      && SECOND <= cooldown <= 3600 * SECOND
    }
  }

  datatype Reason =
    | Initial | TtlExpired | SettingsChanged | OperatorReset
    | HealthyAtLimit | OriginThrottled | OriginOverload

  datatype Policy = Policy(
    concurrency: int, spacing: int, expiresAt: int, cooldownUntil: Option<int>,
    healthySamples: int, concurrencySamples: int, overloadSamples: int,
    generation: int, reason: Reason, adjustedAt: Option<int>)
  {
    predicate InBounds(settings: Settings) {
      && 1 <= concurrency <= settings.maximumConcurrency
      && settings.minimumSpacing <= spacing <= settings.maximumSpacing
    }

    predicate SamplesBelowThresholds(settings: Settings) {
      && 0 <= concurrencySamples <= healthySamples < settings.healthySamples
      && 0 <= overloadSamples < settings.overloadSamples
    }

    predicate CoolingAt(now: int) {
      cooldownUntil.Some? && now < cooldownUntil.value
    }
  }

  datatype Outcome = Healthy | Throttled | Overload | Neutral

  /** The origin's Retry-After: absent, not a finite number, or a duration (possibly negative). */
  datatype Retry = NoRetry | NotFinite | After(duration: int)

  datatype Observation = Observation(outcome: Outcome, retry: Retry)

  function Reset(settings: Settings, policy: Policy, now: int): Policy {
    Policy(settings.defaultConcurrency, settings.defaultSpacing, now + settings.learnedTtl,
           policy.cooldownUntil, 0, 0, 0, policy.generation + 1, TtlExpired, Some(now))
  }

  /** Rounds spacing * 0.8 to the nearest microsecond; a tie cannot occur. */
  function Shorten(spacing: int): int {
    (4 * spacing + 2) / 5
  }

  function CooldownAfter(settings: Settings, policy: Policy, retry: Retry, now: int): int {
    var wait := if retry.After? && retry.duration >= 0 then retry.duration else settings.cooldown;
    var until := now + Min(wait, MAXIMUM_RETRY);
    if policy.cooldownUntil.Some? then Max(until, policy.cooldownUntil.value) else until
  }

  function UpdateHealthy(settings: Settings, policy: Policy, now: int,
                         atLimit: bool, concurrencyAtLimit: bool, generation: int): Policy
  {
    if generation != policy.generation || policy.CoolingAt(now) then policy
    else
      var calm := policy.(overloadSamples := 0);
      if !atLimit then calm
      else
        var counted := calm.(
          healthySamples := calm.healthySamples + 1,
          concurrencySamples := calm.concurrencySamples + (if concurrencyAtLimit then 1 else 0),
          expiresAt := now + settings.learnedTtl);
        if counted.healthySamples < settings.healthySamples then counted
        else
          var widen := counted.concurrencySamples >= settings.healthySamples / 2
                       && counted.concurrency < settings.maximumConcurrency;
          var concurrency := if widen then Min(settings.maximumConcurrency, counted.concurrency + 1)
                             else counted.concurrency;
          var spacing := if widen then counted.spacing
                         else Max(settings.minimumSpacing, Shorten(counted.spacing));
          var changed := concurrency != counted.concurrency || spacing != counted.spacing;
          counted.(
            concurrency := concurrency, spacing := spacing,
            healthySamples := 0, concurrencySamples := 0,
            generation := counted.generation + (if changed then 1 else 0),
            reason := if changed then HealthyAtLimit else counted.reason,
            adjustedAt := if changed then Some(now) else counted.adjustedAt)
  }

  function UpdateRefused(settings: Settings, policy: Policy, observation: Observation, now: int,
                         generation: int): Policy
  {
    var count := policy.overloadSamples + 1;
    if observation.outcome.Overload? && count < settings.overloadSamples then
      policy.(overloadSamples := count, healthySamples := 0, concurrencySamples := 0)
    else
      var until := CooldownAfter(settings, policy, observation.retry, now);
      if generation != policy.generation then
        if !observation.outcome.Throttled? || Some(until) == policy.cooldownUntil then policy
        else policy.(cooldownUntil := Some(until), generation := policy.generation + 1,
                     reason := OriginThrottled, adjustedAt := Some(now))
      else
        policy.(
          concurrency := Max(1, policy.concurrency / 2),
          spacing := Min(settings.maximumSpacing, policy.spacing * 2),
          cooldownUntil := Some(until),
          expiresAt := now + settings.learnedTtl,
          healthySamples := 0, concurrencySamples := 0, overloadSamples := 0,
          generation := policy.generation + 1,
          reason := if observation.outcome.Throttled? then OriginThrottled else OriginOverload,
          adjustedAt := Some(now))
  }

  function Update(settings: Settings, policy: Policy, observation: Observation, now: int,
                  atLimit: bool, concurrencyAtLimit: bool, generation: int): Policy
  {
    if observation.outcome.Neutral? then policy
    else if observation.outcome.Overload? && generation != policy.generation then policy
    else if observation.outcome.Healthy? then
      UpdateHealthy(settings, policy, now, atLimit, concurrencyAtLimit, generation)
    else UpdateRefused(settings, policy, observation, now, generation)
  }

  /** A refusal that counts against the allowance: a throttle, or the overload that completes a
      full count, reported by a capture admitted under the present generation. */
  predicate BacksOff(settings: Settings, policy: Policy, observation: Observation, generation: int) {
    && generation == policy.generation
    && (observation.outcome.Throttled?
        || (observation.outcome.Overload? && policy.overloadSamples + 1 >= settings.overloadSamples))
  }

  /** A usable Retry-After is finite and not negative. */
  predicate Usable(retry: Retry) {
    retry.After? && retry.duration >= 0
  }

  /** What one refusal must do to the cooldown: last as long as the origin asked, up to a year, or as long
      as the settings say where it did not ask; never end earlier than before; and end no later
      than these ask for. */
  predicate CoolsAsAsked(settings: Settings, before: Option<int>, after: Option<int>, retry: Retry, now: int) {
    && after.Some?
    && (!Usable(retry) ==> now + settings.cooldown <= after.value)
    && (Usable(retry) ==> now + retry.duration <= after.value || now + 365 * 86_400 * SECOND <= after.value)
    && (before.Some? ==> before.value <= after.value)
    && (|| before == after
        || (!Usable(retry) && after.value <= now + settings.cooldown)
        || (Usable(retry) && after.value <= now + retry.duration && after.value <= now + 365 * 86_400 * SECOND))
  }

  // ---- What one observation can do -------------------------------------------------------

  /** Only a backoff lowers the allowance; it halves it exactly and cools down as long as was asked.  Only a
      full count of healthy captures raises it; whatever else happens, the allowance stands. */
  lemma AllowanceMoves(settings: Settings, p: Policy, obs: Observation, now: int,
                       atLimit: bool, concurrencyAtLimit: bool, generation: int)
    requires settings.Valid() && p.InBounds(settings)
    ensures var q := Update(settings, p, obs, now, atLimit, concurrencyAtLimit, generation);
            && (BacksOff(settings, p, obs, generation) ==>
                  && q.concurrency == (if p.concurrency == 1 then 1 else p.concurrency / 2)
                  && q.spacing == Min(2 * p.spacing, settings.maximumSpacing)
                  && q.generation == p.generation + 1
                  && CoolsAsAsked(settings, p.cooldownUntil, q.cooldownUntil, obs.retry, now))
            && (q.concurrency < p.concurrency || q.spacing > p.spacing ==>
                  BacksOff(settings, p, obs, generation))
            && (q.concurrency > p.concurrency || q.spacing < p.spacing ==>
                  && obs.outcome.Healthy? && generation == p.generation && atLimit
                  && !p.CoolingAt(now)
                  && p.healthySamples + 1 >= settings.healthySamples)
            && (q.concurrency > p.concurrency ==>
                  q.concurrency == p.concurrency + 1 && q.spacing == p.spacing)
            && (q.spacing < p.spacing ==>
                  q.concurrency == p.concurrency && q.spacing == Max(settings.minimumSpacing, Shorten(p.spacing)))
  {
    if p.concurrency >= 2 {
      assert p.concurrency / 2 >= 1;
    }
  }

  /** One observation keeps bounds and sample counts and never shortens a cooldown.  It moves the
      generation by at most one, exactly when it backs off or moves the allowance or the cooldown: a
      backoff counts even where it finds nothing left to lower. */
  lemma UpdateKeeps(settings: Settings, p: Policy, obs: Observation, now: int,
                    atLimit: bool, concurrencyAtLimit: bool, generation: int)
    requires settings.Valid() && p.InBounds(settings) && p.SamplesBelowThresholds(settings)
    ensures var q := Update(settings, p, obs, now, atLimit, concurrencyAtLimit, generation);
            && q.InBounds(settings) && q.SamplesBelowThresholds(settings)
            && (q.generation == p.generation || q.generation == p.generation + 1)
            && (q.generation == p.generation ==>
                  q.concurrency == p.concurrency && q.spacing == p.spacing && q.reason == p.reason
                  && q.cooldownUntil == p.cooldownUntil)
            && (q.generation != p.generation <==>
                  || BacksOff(settings, p, obs, generation)
                  || q.concurrency != p.concurrency || q.spacing != p.spacing
                  || q.cooldownUntil != p.cooldownUntil)
            && (q.generation != p.generation ==> q.reason in {HealthyAtLimit, OriginThrottled, OriginOverload})
            && (p.cooldownUntil.Some? ==>
                  q.cooldownUntil.Some? && q.cooldownUntil.value >= p.cooldownUntil.value)
  {
  }

  /** A backoff that finds nothing left to lower and a cooldown at least as late as its own. */
  predicate Saturated(settings: Settings, p: Policy, obs: Observation, now: int, generation: int) {
    && BacksOff(settings, p, obs, generation)
    && p.concurrency == 1 && p.spacing == settings.maximumSpacing
    && p.cooldownUntil == Some(CooldownAfter(settings, p, obs.retry, now))
  }

  /** Exactly when a moved generation means a moved allowance or cooldown: unless the observation is a
      backoff of a policy that is already as low, and cooling down as long, as the backoff would make it. */
  lemma GenerationMeansChange(settings: Settings, p: Policy, obs: Observation, now: int,
                              atLimit: bool, concurrencyAtLimit: bool, generation: int)
    requires settings.Valid() && p.InBounds(settings) && p.SamplesBelowThresholds(settings)
    ensures var q := Update(settings, p, obs, now, atLimit, concurrencyAtLimit, generation);
            (q.generation != p.generation ==>
               q.concurrency != p.concurrency || q.spacing != p.spacing || q.cooldownUntil != p.cooldownUntil)
            <==> !Saturated(settings, p, obs, now, generation)
  {
  }

  /** A throttle right after a throttle that asked for a longer wait, at concurrency one and the greatest
      spacing, is such a backoff: the generation moves and nothing else that admission looks at. */
  lemma SaturatedBackoff(settings: Settings, now: int, generation: int)
    requires settings.Valid()
    ensures var p := Policy(1, settings.maximumSpacing, now, Some(now + 2 * SECOND), 0, 0, 0, generation,
                            OriginThrottled, Some(now));
            var obs := Observation(Throttled, After(SECOND));
            var q := Update(settings, p, obs, now, false, false, generation);
            && p.InBounds(settings) && p.SamplesBelowThresholds(settings)
            && Saturated(settings, p, obs, now, generation)
            && q.generation == p.generation + 1
            && q.concurrency == p.concurrency && q.spacing == p.spacing && q.cooldownUntil == p.cooldownUntil
  {
  }

  /** Old successes never undo a backoff, and an old overload counts for nothing: a stale
      observation can only extend the cooldown, and only as an explicit throttle. */
  lemma StaleObservations(settings: Settings, p: Policy, obs: Observation, now: int,
                          atLimit: bool, concurrencyAtLimit: bool, generation: int)
    requires generation != p.generation
    ensures var q := Update(settings, p, obs, now, atLimit, concurrencyAtLimit, generation);
            && (!obs.outcome.Throttled? ==> q == p)
            && (q != p <==> obs.outcome.Throttled?
                            && Some(CooldownAfter(settings, p, obs.retry, now)) != p.cooldownUntil)
            && q.(cooldownUntil := p.cooldownUntil, generation := p.generation,
                  reason := p.reason, adjustedAt := p.adjustedAt) == p
  {
  }

  // ---- Runs of the controller ------------------------------------------------------------

  datatype Feedback =
    | Restart(now: int)
    | Observe(observation: Observation, now: int, atLimit: bool, concurrencyAtLimit: bool, generation: int)

  function Apply(settings: Settings, p: Policy, f: Feedback): Policy {
    match f
    case Restart(now) => Reset(settings, p, now)
    case Observe(obs, now, atLimit, cAtLimit, generation) =>
      Update(settings, p, obs, now, atLimit, cAtLimit, generation)
  }

  function Run(settings: Settings, p: Policy, fs: seq<Feedback>): Policy {
    if fs == [] then p
    else Apply(settings, Run(settings, p, fs[..|fs|-1]), fs[|fs|-1])
  }

  lemma {:induction false} RunKeeps(settings: Settings, p: Policy, fs: seq<Feedback>)
    requires settings.Valid() && p.InBounds(settings) && p.SamplesBelowThresholds(settings)
    ensures Run(settings, p, fs).InBounds(settings)
    ensures Run(settings, p, fs).SamplesBelowThresholds(settings)
    ensures p.generation <= Run(settings, p, fs).generation
  {
    if fs != [] {
      RunKeeps(settings, p, fs[..|fs|-1]);
      var q := Run(settings, p, fs[..|fs|-1]);
      match fs[|fs|-1]
      case Restart(now) =>
      case Observe(obs, now, a, c, g) => UpdateKeeps(settings, q, obs, now, a, c, g);
    }
  }

  /** How far the allowance can still climb: concurrency steps plus microseconds of spacing. */
  function Headroom(settings: Settings, p: Policy): int {
    (settings.maximumConcurrency - p.concurrency) + (p.spacing - settings.minimumSpacing)
  }

  predicate Encouraging(f: Feedback) {
    f.Observe? && f.observation.outcome in {Healthy, Neutral}
  }

  /** However many healthy or neutral captures arrive, in any order, at any time and under any
      generation, they change the allowance at most Headroom times, and each change spends it. */
  lemma {:induction false} BoundedClimbing(settings: Settings, p: Policy, fs: seq<Feedback>)
    requires settings.Valid() && p.InBounds(settings) && p.SamplesBelowThresholds(settings)
    requires forall f :: f in fs ==> Encouraging(f)
    ensures var q := Run(settings, p, fs);
            && 0 <= Headroom(settings, q)
            && 0 <= q.generation - p.generation <= Headroom(settings, p) - Headroom(settings, q)
            && q.concurrency >= p.concurrency && q.spacing <= p.spacing
            && q.cooldownUntil == p.cooldownUntil
  {
    if fs != [] {
      var init, f := fs[..|fs|-1], fs[|fs|-1];
      assert forall g :: g in init ==> g in fs;
      BoundedClimbing(settings, p, init);
      RunKeeps(settings, p, init);
      assert Encouraging(f);
      UpdateKeeps(settings, Run(settings, p, init), f.observation, f.now, f.atLimit,
                  f.concurrencyAtLimit, f.generation);
    }
  }

  /** A healthy capture that counts towards an increase. */
  predicate Qualifies(p: Policy, f: Feedback) {
    && f.Observe? && f.observation.outcome.Healthy?
    && f.generation == p.generation && f.atLimit && !p.CoolingAt(f.now)
  }

  /** An overload or throttle reported under the present generation. */
  predicate Refuses(p: Policy, f: Feedback) {
    f.Observe? && f.observation.outcome in {Throttled, Overload} && f.generation == p.generation
  }

  /** The feedback completes a full count of qualifying captures, whether or not there is anything left
      to raise. */
  predicate Completes(settings: Settings, p: Policy, f: Feedback, evidence: nat) {
    Qualifies(p, f) && evidence + 1 >= settings.healthySamples
  }

  /** The qualifying captures of a run since the last restart, refusal, full count or change of
      allowance; with onlyConcurrency, just those that also pressed against the concurrency. */
  function Evidence(settings: Settings, p: Policy, fs: seq<Feedback>, onlyConcurrency: bool): nat {
    if fs == [] then 0
    else
      var init, f := fs[..|fs|-1], fs[|fs|-1];
      var before := Run(settings, p, init);
      var after := Apply(settings, before, f);
      if f.Restart? || Refuses(before, f) || Completes(settings, before, f, Evidence(settings, p, init, false))
         || after.concurrency != before.concurrency || after.spacing != before.spacing then 0
      else
        Evidence(settings, p, init, onlyConcurrency)
        + (if Qualifies(before, f) && (onlyConcurrency ==> f.concurrencyAtLimit) then 1 else 0)
  }

  lemma {:induction false} CountsAreEvidence(settings: Settings, p: Policy, fs: seq<Feedback>)
    requires p.healthySamples == 0 && p.concurrencySamples == 0
    ensures Run(settings, p, fs).healthySamples == Evidence(settings, p, fs, false)
    ensures Run(settings, p, fs).concurrencySamples == Evidence(settings, p, fs, true)
  {
    if fs != [] {
      CountsAreEvidence(settings, p, fs[..|fs|-1]);
    }
  }

  /** Every increase is earned: the capture that causes it qualifies, and together with the
      qualifying captures since the last restart, refusal, full count or change it makes a full count;
      a wider concurrency also needs half a count that pressed against the concurrency. */
  lemma IncreaseIsEarned(settings: Settings, p: Policy, fs: seq<Feedback>, f: Feedback)
    requires settings.Valid() && p.InBounds(settings) && p.SamplesBelowThresholds(settings)
    requires p.healthySamples == 0 && p.concurrencySamples == 0
    requires f.Observe?
    requires var q := Run(settings, p, fs); var r := Run(settings, p, fs + [f]);
             r.concurrency > q.concurrency || r.spacing < q.spacing
    ensures var q := Run(settings, p, fs); var r := Run(settings, p, fs + [f]);
            && Qualifies(q, f)
            && Evidence(settings, p, fs, false) + 1 >= settings.healthySamples
            && (r.concurrency > q.concurrency ==>
                  Evidence(settings, p, fs, true) + (if f.concurrencyAtLimit then 1 else 0)
                  >= settings.healthySamples / 2)
  {
    assert (fs + [f])[..|fs|] == fs;
    RunKeeps(settings, p, fs);
    CountsAreEvidence(settings, p, fs);
    AllowanceMoves(settings, Run(settings, p, fs), f.observation, f.now, f.atLimit,
                   f.concurrencyAtLimit, f.generation);
  }
}
