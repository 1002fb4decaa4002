/** What the feedback rules and the two transactions come to: how long a refusal keeps a host quiet, how
    long a learned allowance and a lease last, and exactly when a capture is admitted. */
module PacingOutcomes {
  import opened Common
  import opened PacingController
  import opened PacingRepository
  import opened PacingRuns
  import opened PacingClimbing

  // ---- How long a refusal keeps a host quiet -----------------------------------------------------

  /** A refusal sets the cooldown it asks for: every throttle, of the present generation or an older one,
      and every overload that completes a count. */
  lemma RefusalCools(settings: Settings, p: Policy, obs: Observation, now: int,
                     atLimit: bool, concurrencyAtLimit: bool, generation: int)
    requires settings.Valid() && p.SamplesBelowThresholds(settings)
    requires obs.outcome.Throttled? || BacksOff(settings, p, obs, generation)
    ensures CoolsAsAsked(settings, p.cooldownUntil,
                         Update(settings, p, obs, now, atLimit, concurrencyAtLimit, generation).cooldownUntil,
                         obs.retry, now)
  {
  }

  /** Nothing else touches the cooldown. */
  lemma OnlyRefusalsCool(settings: Settings, p: Policy, obs: Observation, now: int,
                         atLimit: bool, concurrencyAtLimit: bool, generation: int)
    requires !obs.outcome.Throttled? && !BacksOff(settings, p, obs, generation)
    ensures Update(settings, p, obs, now, atLimit, concurrencyAtLimit, generation).cooldownUntil == p.cooldownUntil
  {
  }

  /** The release reports a refusal that cools the host down. */
  predicate RefusalHeard(s: State, op: Op)
    requires s.archive != []
  {
    && Hears(s, op)
    && (op.observation.value.outcome.Throttled?
        || BacksOff(Current(s.archive), HeardBy(s, op), op.observation.value, s.host.value.leases[op.id].generation))
  }

  /** The wait a refusal is owed: what the origin asked for, up to a year, or what the settings say. */
  predicate Owed(settings: Settings, retry: Retry, wait: int) {
    if Usable(retry) then wait <= retry.duration && wait <= 365 * 86_400 * SECOND else wait <= settings.cooldown
  }

  lemma RefusalHolds(s: State, op: Op, wait: int)
    requires Ok(s) && Enabled(s, op) && RefusalHeard(s, op)
    requires Owed(Current(s.archive), op.observation.value.retry, wait)
    ensures CoolingUntil(Step(s, op), op.now + wait)
    ensures Step(s, op).host.Some?
    ensures CoolsAsAsked(Current(s.archive), s.host.value.row.policy.cooldownUntil,
                         Step(s, op).host.value.row.policy.cooldownUntil, op.observation.value.retry, op.now)
  {
    var held := s.host.value.leases[op.id];
    RefreshedKeeps(s.archive, s.host.value, held.sessionId, op.now);
    RefusalCools(Current(s.archive), HeardBy(s, op), op.observation.value, op.now,
                 held.atLimit, held.concurrencyAtLimit, held.generation);
  }

  /** After a refusal no capture of the host is admitted for as long as the origin asked, or for the
      configured cooldown where it asked nothing usable, whatever resets, settings changes, purges
      and other feedback come between. */
  lemma NoneAdmittedAfterRefusal(states: seq<State>, ops: seq<Op>, i: nat, k: nat, wait: int)
    requires IsRun(states, ops) && i < k < |ops|
    requires RefusalHeard(states[i], ops[i]) && Admits(states[k], ops[k])
    requires Owed(Current(states[i].archive), ops[i].observation.value.retry, wait)
    ensures ops[i].now + wait <= ops[k].now
  {
    RefusalInRun(states, ops, i, wait);
    AdmittedAfterCooldown(states, ops, i, k, ops[i].now + wait);
  }

  lemma RefusalInRun(states: seq<State>, ops: seq<Op>, i: nat, wait: int)
    requires IsRun(states, ops) && i < |ops| && RefusalHeard(states[i], ops[i])
    requires Owed(Current(states[i].archive), ops[i].observation.value.retry, wait)
    ensures CoolingUntil(states[i + 1], ops[i].now + wait)
  {
    RunOk(states, ops, i);
    RefusalHolds(states[i], ops[i], wait);
  }

  // ---- What healthy captures and overloads are counted for ---------------------------------------

  /** Shortening takes a fifth off, to the nearest microsecond. */
  lemma ShortenedByAFifth(spacing: int)
    ensures -2 <= 5 * Shorten(spacing) - 4 * spacing <= 2
    ensures spacing >= 3 ==> Shorten(spacing) < spacing
  {
  }

  /** What a qualifying capture is counted for: short of a full count it is one more, and one more that
      pressed if it did; a full count widens the concurrency by one if half of it pressed and there
      is room, and shortens the spacing otherwise, and the count starts again.  Either way the
      allowance lives on for its whole lifetime. */
  lemma QualifyingPays(settings: Settings, p: Policy, f: Feedback)
    requires settings.Valid() && p.InBounds(settings) && p.SamplesBelowThresholds(settings) && Qualifies(p, f)
    ensures var q := Apply(settings, p, f);
            var pressing := p.concurrencySamples + if f.concurrencyAtLimit then 1 else 0;
            && q.expiresAt == f.now + settings.learnedTtl && q.overloadSamples == 0
            && (p.healthySamples + 1 < settings.healthySamples ==>
                  q.healthySamples == p.healthySamples + 1 && q.concurrencySamples == pressing
                  && q.concurrency == p.concurrency && q.spacing == p.spacing)
            && (p.healthySamples + 1 >= settings.healthySamples ==>
                  && q.healthySamples == 0 && q.concurrencySamples == 0
                  && (if 2 * pressing + 1 >= settings.healthySamples && p.concurrency < settings.maximumConcurrency
                      then q.concurrency == p.concurrency + 1 && q.spacing == p.spacing
                      else q.concurrency == p.concurrency
                           && (p.spacing > settings.minimumSpacing ==> q.spacing < p.spacing)
                           && (q.spacing == settings.minimumSpacing
                               || -2 <= 5 * q.spacing - 4 * p.spacing <= 2)))
  {
    ShortenedByAFifth(p.spacing);
  }

  /** Every full count pays: in every run the qualifying capture that completes a count of those released
      before it raises the allowance, as far as there is room. */
  lemma EveryFullCountPays(states: seq<State>, ops: seq<Op>, n: nat)
    requires IsRun(states, ops) && n < |ops| && Hears(states[n], ops[n]) && !Restarts(states[n], ops[n])
    requires Qualifies(states[n].host.value.row.policy, FeedbackOf(states[n], ops[n]))
    requires Released(states, ops, n).all + 1 >= Current(states[n].archive).healthySamples
    ensures states[n + 1].host.Some?
    ensures var p, q := states[n].host.value.row.policy, states[n + 1].host.value.row.policy;
            var settings, t := Current(states[n].archive), Released(states, ops, n);
            var pressing := t.pressing + if FeedbackOf(states[n], ops[n]).concurrencyAtLimit then 1 else 0;
            if 2 * pressing + 1 >= settings.healthySamples && p.concurrency < settings.maximumConcurrency
            then q.concurrency == p.concurrency + 1
            else p.spacing > settings.minimumSpacing ==> q.spacing < p.spacing
  {
    RunOk(states, ops, n);
    SamplesAreReleases(states, ops, n);
    FullCountPays(states[n], ops[n]);
  }

  lemma FullCountPays(s: State, op: Op)
    requires Ok(s) && Enabled(s, op) && Hears(s, op) && !Restarts(s, op)
    requires Qualifies(s.host.value.row.policy, FeedbackOf(s, op))
    requires s.host.value.row.policy.healthySamples + 1 >= Current(s.archive).healthySamples
    ensures Step(s, op).host.Some?
    ensures var p, q := s.host.value.row.policy, Step(s, op).host.value.row.policy;
            var settings := Current(s.archive);
            var pressing := p.concurrencySamples + if FeedbackOf(s, op).concurrencyAtLimit then 1 else 0;
            if 2 * pressing + 1 >= settings.healthySamples && p.concurrency < settings.maximumConcurrency
            then q.concurrency == p.concurrency + 1
            else p.spacing > settings.minimumSpacing ==> q.spacing < p.spacing
  {
    RefreshedRestores(s.archive, s.host.value, s.host.value.leases[op.id].sessionId, op.now);
    QualifyingPays(Current(s.archive), s.host.value.row.policy, FeedbackOf(s, op));
  }

  /** An overload of the present generation that completes no count yet is noted, and takes the healthy
      count with it; a healthy capture outside a cooldown takes the overloads with it. */
  lemma OverloadIsNoted(settings: Settings, p: Policy, obs: Observation, now: int,
                        atLimit: bool, concurrencyAtLimit: bool, generation: int)
    requires generation == p.generation
    ensures var q := Update(settings, p, obs, now, atLimit, concurrencyAtLimit, generation);
            && (obs.outcome.Overload? && p.overloadSamples + 1 < settings.overloadSamples ==>
                  q == p.(overloadSamples := p.overloadSamples + 1, healthySamples := 0, concurrencySamples := 0))
            && (obs.outcome.Healthy? && (p.cooldownUntil.Some? ==> p.cooldownUntil.value <= now) ==>
                  q.overloadSamples == 0)
            && (obs.outcome.Neutral? ==> q == p)
  {
  }

  /** An update that moves the generation says why and when; any other leaves both as they were. */
  lemma ChangeIsExplained(settings: Settings, p: Policy, obs: Observation, now: int,
                          atLimit: bool, concurrencyAtLimit: bool, generation: int)
    ensures var q := Update(settings, p, obs, now, atLimit, concurrencyAtLimit, generation);
            if q.generation == p.generation then q.reason == p.reason && q.adjustedAt == p.adjustedAt
            else
              && q.adjustedAt == Some(now)
              && (q.reason == HealthyAtLimit <==> obs.outcome.Healthy?)
              && (q.reason == OriginThrottled <==> obs.outcome.Throttled?)
              && (q.reason == OriginOverload <==> obs.outcome.Overload?)
  {
  }

  /** The overloads reported in a row: since the row was made or reset, a backoff, or a healthy capture
      outside a cooldown; each under the generation that was then in force. */
  function Strikes(s: State, op: Op, before: nat): nat
    requires s.archive != []
  {
    var kept := if s.host.None? || Restarts(s, op) then 0 else before;
    if !Hears(s, op) || FeedbackOf(s, op).generation != HeardBy(s, op).generation then kept
    else
      match op.observation.value.outcome
      case Neutral => kept
      case Throttled => 0
      case Healthy => if HeardBy(s, op).CoolingAt(op.now) then kept else 0
      case Overload => if kept + 1 >= Current(s.archive).overloadSamples then 0 else kept + 1
  }

  ghost function Overloads(states: seq<State>, ops: seq<Op>, n: nat): nat
    requires IsRun(states, ops) && n < |states|
  {
    if n == 0 then 0 else Strikes(states[n - 1], ops[n - 1], Overloads(states, ops, n - 1))
  }

  lemma StrikeStep(s: State, op: Op, before: nat)
    requires Ok(s) && Enabled(s, op) && Step(s, op).host.Some?
    requires s.host.Some? ==> s.host.value.row.policy.overloadSamples == before
    ensures Step(s, op).host.value.row.policy.overloadSamples == Strikes(s, op, before)
  {
    if op.TryAcquire? && s.host.Some? {
      RefreshedRestores(s.archive, s.host.value, op.sessionId, op.now);
    }
    if Hears(s, op) {
      RefreshedRestores(s.archive, s.host.value, s.host.value.leases[op.id].sessionId, op.now);
    }
  }

  /** The overloads a row counts are the overloads that were reported, in every run. */
  lemma {:induction false} OverloadsAreReleases(states: seq<State>, ops: seq<Op>, n: nat)
    requires IsRun(states, ops) && n < |states| && states[n].host.Some?
    ensures states[n].host.value.row.policy.overloadSamples == Overloads(states, ops, n)
  {
    if n > 0 {
      if states[n - 1].host.Some? {
        OverloadsAreReleases(states, ops, n - 1);
      }
      RunOk(states, ops, n - 1);
      assert Enabled(states[n - 1], ops[n - 1]);
      StrikeStep(states[n - 1], ops[n - 1], Overloads(states, ops, n - 1));
    }
  }

  /** An overload backs the host off if and only if it completes a full count of overloads in a row, and
      comes from a capture of the present generation. */
  lemma OverloadBackoffIsEarned(states: seq<State>, ops: seq<Op>, n: nat)
    requires IsRun(states, ops) && n < |ops| && Hears(states[n], ops[n]) && !Restarts(states[n], ops[n])
    requires ops[n].observation.value.outcome.Overload?
    ensures BackoffStep(states[n], ops[n]) <==>
      && FeedbackOf(states[n], ops[n]).generation == Gen(states[n])
      && Overloads(states, ops, n) + 1 >= Current(states[n].archive).overloadSamples
  {
    OverloadsAreReleases(states, ops, n);
    RunOk(states, ops, n);
  }

  // ---- How long what was learned lasts -----------------------------------------------------------

  /** The release confirms the allowance: a refusal that backs it off, or a qualifying capture. */
  predicate Confirms(s: State, op: Op)
    requires s.archive != []
  {
    Hears(s, op) && (BackoffStep(s, op) || Qualifies(HeardBy(s, op), FeedbackOf(s, op)))
  }

  /** The row lives under this version of the settings until this time at least. */
  predicate LastsUntil(s: State, version: int, until: int) {
    s.host.Some? && s.host.value.row.settingsVersion == version && until <= s.host.value.row.policy.expiresAt
  }

  lemma ConfirmedLasts(s: State, op: Op)
    requires Ok(s) && Enabled(s, op) && Confirms(s, op)
    ensures LastsUntil(Step(s, op), |s.archive|, op.now + Current(s.archive).learnedTtl)
  {
    RefreshedRestores(s.archive, s.host.value, s.host.value.leases[op.id].sessionId, op.now);
  }

  lemma LastingStep(s: State, op: Op, version: int, until: int)
    requires Ok(s) && Enabled(s, op) && LastsUntil(s, version, until) && !Restarts(s, op)
    requires Timed(op) ==> op.now < until <= op.now + s.archive[version - 1].learnedTtl
    ensures LastsUntil(Step(s, op), version, until)
  {
    if op.TryAcquire? {
      RefreshedRestores(s.archive, s.host.value, op.sessionId, op.now);
    }
    if Hears(s, op) {
      RefreshedRestores(s.archive, s.host.value, s.host.value.leases[op.id].sessionId, op.now);
    }
  }

  predicate Timed(op: Op) {
    op.TryAcquire? || op.GiveBack? || op.Collect?
  }

  lemma ClockIsNow(states: seq<State>, ops: seq<Op>, i: nat, j: nat)
    requires IsRun(states, ops) && i < j < |ops| && Timed(ops[i]) && Timed(ops[j])
    ensures ops[i].now <= ops[j].now
  {
    ClockMonotone(states, ops, i + 1, j);
    assert Enabled(states[i], ops[i]) && Enabled(states[j], ops[j]);
    TimeIsKept(states[i], ops[i]);
    TimeIsKept(states[j], ops[j]);
  }

  lemma TimeIsKept(s: State, op: Op)
    requires s.archive != [] && Enabled(s, op) && Timed(op)
    ensures s.clock <= op.now && Step(s, op).clock == op.now
  {
  }

  /** What was learned is neither reset for its age nor purged before its lifetime has passed since it was
      last confirmed: until then, and until a reset for another reason, the row lives on. */
  lemma {:induction false} LearnedLasts(states: seq<State>, ops: seq<Op>, i: nat, j: nat)
    requires IsRun(states, ops) && i < j < |states| && Confirms(states[i], ops[i])
    requires forall m {:trigger ops[m]} :: i < m < j ==>
               && !Restarts(states[m], ops[m])
               && (Timed(ops[m]) ==> ops[m].now < ops[i].now + Current(states[i].archive).learnedTtl)
    ensures |states[i].archive| <= |states[j].archive|
    ensures states[j].archive[|states[i].archive| - 1] == Current(states[i].archive)
    ensures LastsUntil(states[j], |states[i].archive|, ops[i].now + Current(states[i].archive).learnedTtl)
  {
    if i + 1 == j {
      RunOk(states, ops, i);
      ConfirmedLasts(states[i], ops[i]);
    } else {
      LearnedLasts(states, ops, i, j - 1);
      RunOk(states, ops, j - 1);
      if Timed(ops[j - 1]) {
        ClockIsNow(states, ops, i, j - 1);
      }
      StepKeeps(states[j - 1], ops[j - 1]);
      LastingStep(states[j - 1], ops[j - 1], |states[i].archive|, ops[i].now + Current(states[i].archive).learnedTtl);
    }
  }

  /** So the first reset after that which neither the operator nor changed settings ask for comes when the
      lifetime has passed, and so does a purge. */
  lemma AgedOutOnlyLater(states: seq<State>, ops: seq<Op>, i: nat, k: nat)
    requires IsRun(states, ops) && i < k < |ops| && Confirms(states[i], ops[i])
    requires forall m {:trigger ops[m]} :: i < m < k ==>
               && !Restarts(states[m], ops[m])
               && (Timed(ops[m]) ==> ops[m].now < ops[i].now + Current(states[i].archive).learnedTtl)
    requires || (Restarts(states[k], ops[k]) && !states[k].host.value.row.resetRequested
                 && states[k].host.value.row.settingsVersion == |states[k].archive|)
             || (ops[k].Collect? && states[k + 1].host.None?)
    ensures ops[i].now + Current(states[i].archive).learnedTtl <= ops[k].now
  {
    LearnedLasts(states, ops, i, k);
    assert Enabled(states[k], ops[k]);
    AgedStep(states[k], ops[k], |states[i].archive|, ops[i].now + Current(states[i].archive).learnedTtl);
  }

  lemma AgedStep(s: State, op: Op, version: int, until: int)
    requires s.archive != [] && LastsUntil(s, version, until)
    requires || (Restarts(s, op) && !s.host.value.row.resetRequested
                 && s.host.value.row.settingsVersion == |s.archive|)
             || (op.Collect? && Step(s, op).host.None?)
    ensures until <= op.now
  {
  }

  // ---- When a capture is admitted ----------------------------------------------------------------

  /** The leases of a host that are live at an instant. */
  function Live(found: Option<Host>, now: int): set<string> {
    if found.None? then {} else set id | id in found.value.leases && found.value.leases[id].expiresAt > now
  }

  /** How many captures a host may have at once: what it learned, or the default where a reset is due. */
  function Allowed(archive: seq<Settings>, found: Option<Host>, now: int): int
    requires archive != []
  {
    if found.None? || found.value.row.resetRequested || found.value.row.policy.expiresAt <= now
       || found.value.row.settingsVersion != |archive|
    then Current(archive).defaultConcurrency else found.value.row.policy.concurrency
  }

  predicate Cool(found: Option<Host>, now: int) {
    found.Some? && found.value.row.policy.cooldownUntil.Some? ==> found.value.row.policy.cooldownUntil.value <= now
  }

  predicate Spaced(found: Option<Host>, now: int) {
    found.Some? ==> found.value.row.nextStartAt <= now
  }

  lemma LiveLeases(archive: seq<Settings>, found: Option<Host>, sessionId: string, now: int)
    requires ArchiveOk(archive) && FoundOk(archive, found)
    ensures Prepared(archive, found, sessionId, now).leases.Keys == Live(found, now)
    ensures |Prepared(archive, found, sessionId, now).leases| == |Live(found, now)|
    ensures Prepared(archive, found, sessionId, now).row.policy.concurrency == Allowed(archive, found, now)
  {
    if found.Some? {
      RefreshedRestores(archive, found.value, sessionId, now);
    }
    var leases := Prepared(archive, found, sessionId, now).leases;
    assert leases.Keys == Live(found, now);
    assert |leases| == |leases.Keys|;
  }

  /** Exactly what acquire decides, from the row as it was found: a capture is admitted if and only if the
      cooldown and the spacing have passed and fewer captures are live than the host is allowed;
      otherwise it is refused for the first of the three that fails. */
  lemma AdmittedWithRoom(archive: seq<Settings>, found: Option<Host>, id: string, sessionId: string,
                         duration: int, now: int)
    requires ArchiveOk(archive) && FoundOk(archive, found)
    ensures var verdict := Acquire(archive, found, id, sessionId, duration, now).0;
            var live, allowed := Live(found, now), Allowed(archive, found, now);
            && (verdict == Admitted <==> Cool(found, now) && Spaced(found, now) && |live| < allowed && id !in live)
            && (verdict == Refused(DomainCooldown) <==> !Cool(found, now))
            && (verdict == Refused(DomainSpacing) <==> Cool(found, now) && !Spaced(found, now))
            && (verdict == Refused(DomainConcurrency) <==>
                  Cool(found, now) && Spaced(found, now) && |live| >= allowed)
  {
    LiveLeases(archive, found, sessionId, now);
    if found.Some? {
      RefreshedKeeps(archive, found.value, sessionId, now);
    }
  }

  /** The lease of an admitted capture lasts the time it was asked for and carries the generation in force.
      It presses against the concurrency when it fills the allowance beside others, and against
      the allowance when it does that, or comes within one and a half spacings of the last start, or
      soon after a refusal for spacing. */
  lemma AdmissionGrants(archive: seq<Settings>, found: Option<Host>, id: string, sessionId: string,
                        duration: int, now: int)
    requires ArchiveOk(archive) && FoundOk(archive, found)
    requires Acquire(archive, found, id, sessionId, duration, now).0.Admitted?
    ensures var after := Acquire(archive, found, id, sessionId, duration, now).1;
            && after.Some? && after.value.leases.Keys == Live(found, now) + {id}
            && var lease, row := after.value.leases[id], after.value.row;
               && lease.expiresAt == now + duration && lease.sessionId == sessionId
               && lease.generation == row.policy.generation
               && (lease.concurrencyAtLimit <==>
                     Live(found, now) != {} && |Live(found, now)| + 1 >= Allowed(archive, found, now))
               && (lease.concurrencyAtLimit ==> lease.atLimit)
               && row.lastStartedAt == Some(now) && row.nextStartAt == now + row.policy.spacing
               && row.spacingRefusedAt.None?
               && (forall other :: other in Live(found, now) ==>
                     after.value.leases[other] == found.value.leases[other])
  {
    LiveLeases(archive, found, sessionId, now);
    if found.Some? {
      RefreshedKeeps(archive, found.value, sessionId, now);
    }
  }

  /** When the spacing makes a lease press, on a row that needs no reset: the last start is at most one and
      a half spacings ago, or a capture was refused for spacing that recently or in the last two
      seconds. */
  lemma SpacingPresses(archive: seq<Settings>, host: Host, id: string, sessionId: string, duration: int, now: int)
    requires ArchiveOk(archive) && HostOk(archive, host) && !NeedsReset(archive, host.row, now)
    requires Acquire(archive, Some(host), id, sessionId, duration, now).0.Admitted?
    ensures var lease := Acquire(archive, Some(host), id, sessionId, duration, now).1.value.leases[id];
            var window := (3 * host.row.policy.spacing) as real / 2.0;
            lease.atLimit <==>
              || lease.concurrencyAtLimit
              || (host.row.lastStartedAt.Some? && (now - host.row.lastStartedAt.value) as real <= window)
              || (host.row.spacingRefusedAt.Some?
                  && ((now - host.row.spacingRefusedAt.value) as real <= window
                      || now - host.row.spacingRefusedAt.value <= 2 * SECOND))
  {
  }

  /** A refusal leaves its evidence, and nothing else: one for spacing its instant, one for concurrency a
      mark on every live lease, one in a cooldown none. */
  lemma RefusalLeaves(archive: seq<Settings>, found: Option<Host>, id: string, sessionId: string,
                      duration: int, now: int)
    requires ArchiveOk(archive) && FoundOk(archive, found)
    requires Acquire(archive, found, id, sessionId, duration, now).0.Refused?
    ensures var (verdict, after) := Acquire(archive, found, id, sessionId, duration, now);
            var ready := Prepared(archive, found, sessionId, now);
            && after.Some? && after.value.leases.Keys == Live(found, now)
            && after.value.row == ready.row.(spacingRefusedAt :=
                 if verdict.reason.DomainSpacing? then Some(now) else ready.row.spacingRefusedAt)
            && after.value.log == ready.log
            && (forall other :: other in Live(found, now) ==>
                  after.value.leases[other] ==
                    if verdict.reason.DomainConcurrency?
                    then found.value.leases[other].(atLimit := true, concurrencyAtLimit := true)
                    else found.value.leases[other])
  {
    LiveLeases(archive, found, sessionId, now);
  }

  /** A release teaches exactly what its observation says of the row as it then stands, with the marks and
      the generation of its lease, if it brings an observation before the lease has expired; it
      teaches nothing otherwise. */
  lemma ReleaseTeaches(archive: seq<Settings>, host: Host, id: string, observation: Option<Observation>, now: int)
    requires ArchiveOk(archive) && HostOk(archive, host) && id in host.leases
    ensures var after, held := Release(archive, Some(host), id, observation, now), host.leases[id];
            && after.Some? && after.value.leases == host.leases - {id}
            && if observation.None? || held.expiresAt <= now then after.value.row == host.row else
                 var ready := Refreshed(archive, host, held.sessionId, now).row;
                 && after.value.row.policy == Update(Current(archive), ready.policy, observation.value, now,
                                                     held.atLimit, held.concurrencyAtLimit, held.generation)
                 && after.value.row.settingsVersion == |archive|
                 && after.value.row.spacingRefusedAt == ready.spacingRefusedAt
  {
    RefreshedRestores(archive, host, host.leases[id].sessionId, now);
  }

  /** The retention job deletes a row if and only if nothing in it matters any more: its allowance, its
      cooldown, its spacing and all its leases have run out. */
  lemma PurgedWhenIdle(s: State, now: int)
    requires Ok(s) && s.host.Some? && Enabled(s, Collect(now))
    ensures Step(s, Collect(now)).host ==
      if && s.host.value.row.policy.expiresAt <= now && Cool(s.host, now) && Spaced(s.host, now)
         && Live(s.host, now) == {}
      then None else s.host
  {
    var leases := Unexpired(s.host.value.leases, now);
    assert leases.Keys == Live(s.host, now);
    if leases.Keys == {} {
      assert leases == map[];
    }
  }

  /** A reset that the operator asks for is served by the next capture that comes or reports, and not before:
      it brings the defaults back and keeps the cooldown. */
  lemma ResetIsServed(archive: seq<Settings>, host: Host, sessionId: string, now: int)
    requires ArchiveOk(archive) && HostOk(archive, host)
    ensures var asked := RequestReset(Some(host));
            && asked.Some? && asked.value.row.policy == host.row.policy && asked.value.leases == host.leases
            && var ready := Refreshed(archive, asked.value, sessionId, now).row;
               && ready.policy.reason == OperatorReset && !ready.resetRequested
               && ready.policy.concurrency == Current(archive).defaultConcurrency
               && ready.policy.spacing == Current(archive).defaultSpacing
               && ready.policy.cooldownUntil == host.row.policy.cooldownUntil
               && ready.policy.generation == host.row.policy.generation + 1
               && ready.policy.adjustedAt == Some(now)
  {
    RefreshedRestores(archive, RequestReset(Some(host)).value, sessionId, now);
  }

  /** A host that is met for the first time starts with the defaults, for their whole lifetime, and may start
      at once. */
  lemma FirstMet(archive: seq<Settings>, sessionId: string, now: int)
    requires ArchiveOk(archive)
    ensures var host := Prepared(archive, None, sessionId, now);
            && host.row.policy.concurrency == Current(archive).defaultConcurrency
            && host.row.policy.spacing == Current(archive).defaultSpacing
            && host.row.policy.expiresAt == now + Current(archive).learnedTtl
            && host.row.policy.generation == 0 && host.row.policy.reason == Initial
            && host.row.nextStartAt == now && host.leases == map[] && host.log == []
            && host.row.settingsVersion == |archive| && !host.row.resetRequested
  {
    assert !NeedsReset(archive, Inserted(archive, now).row, now);
  }

  // ---- How long a lease is held ------------------------------------------------------------------

  lemma HeldStep(s: State, op: Op, id: string, expiry: int)
    requires Ok(s) && Enabled(s, op) && s.host.Some? && id in s.host.value.leases
    requires s.host.value.leases[id].expiresAt == expiry
    requires Timed(op) ==> op.now < expiry
    requires op.GiveBack? ==> op.id != id
    ensures Step(s, op).host.Some? && id in Step(s, op).host.value.leases
    ensures Step(s, op).host.value.leases[id].expiresAt == expiry
  {
    if op.TryAcquire? {
      LiveLeases(s.archive, s.host, op.sessionId, op.now);
      assert id in Live(s.host, op.now);
      RefreshedKeeps(s.archive, s.host.value, op.sessionId, op.now);
    } else if op.GiveBack? {
      ReleaseKeeps(s.archive, s.host, op.id, op.observation, op.now);
      LeaseStep(s, op, id);
    } else if op.Collect? {
      assert id in Unexpired(s.host.value.leases, op.now);
    }
  }

  lemma GrantedStep(s: State, op: Op)
    requires Ok(s) && Enabled(s, op) && Admits(s, op)
    ensures Step(s, op).host.Some? && op.id in Step(s, op).host.value.leases
    ensures Step(s, op).host.value.leases[op.id].expiresAt == op.now + op.duration
  {
    AdmissionGrants(s.archive, s.host, op.id, op.sessionId, op.duration, op.now);
  }

  /** An admitted capture holds its place for the time it was granted, unless it gives it back: no reset,
      purge, settings change or feedback takes it away, and no other capture is admitted under it. */
  lemma {:induction false} LeaseLasts(states: seq<State>, ops: seq<Op>, k: nat, j: nat)
    requires IsRun(states, ops) && k < j < |states| && Admits(states[k], ops[k])
    requires forall m {:trigger ops[m]} :: k < m < j ==>
               && (Timed(ops[m]) ==> ops[m].now < ops[k].now + ops[k].duration)
               && (ops[m].GiveBack? ==> ops[m].id != ops[k].id)
    ensures states[j].host.Some? && ops[k].id in states[j].host.value.leases
    ensures states[j].host.value.leases[ops[k].id].expiresAt == ops[k].now + ops[k].duration
  {
    if k + 1 == j {
      RunOk(states, ops, k);
      assert Enabled(states[k], ops[k]);
      GrantedStep(states[k], ops[k]);
    } else {
      LeaseLasts(states, ops, k, j - 1);
      RunOk(states, ops, j - 1);
      assert Enabled(states[j - 1], ops[j - 1]);
      HeldStep(states[j - 1], ops[j - 1], ops[k].id, ops[k].now + ops[k].duration);
    }
  }
}
