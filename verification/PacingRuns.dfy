/** Runs of the pacing state machine for one host: every interleaving of acquire, release, operator
    resets, settings changes and purges, under a clock that never goes back. */
module PacingRuns {
  import opened Common
  import opened PacingController
  import opened PacingRepository

  datatype State = State(archive: seq<Settings>, host: Option<Host>, clock: int)

  datatype Op =
    | TryAcquire(id: string, sessionId: string, duration: int, now: int)
    | GiveBack(id: string, observation: Option<Observation>, now: int)
    | AskReset
    | ChangeSettings(changed: Settings)
    | Collect(now: int)

  predicate Enabled(s: State, op: Op) {
    match op
    case TryAcquire(_, _, _, now) => s.clock <= now
    case GiveBack(_, _, now) => s.clock <= now
    case AskReset => true
    case ChangeSettings(changed) => changed.Valid()
    case Collect(now) => s.clock <= now
  }

  function Step(s: State, op: Op): State
    requires s.archive != []
  {
    match op
    case TryAcquire(id, sessionId, duration, now) =>
      s.(host := Acquire(s.archive, s.host, id, sessionId, duration, now).1, clock := now)
    case GiveBack(id, observation, now) =>
      s.(host := Release(s.archive, s.host, id, observation, now), clock := now)
    case AskReset => s.(host := RequestReset(s.host))
    case ChangeSettings(changed) => s.(archive := s.archive + [changed])
    case Collect(now) =>
      if s.host.Some? && Purgeable(s.host.value, now) then s.(host := None, clock := now)
      else s.(clock := now)
  }

  predicate Ok(s: State) {
    && ArchiveOk(s.archive)
    && FoundOk(s.archive, s.host)
    && (s.host.Some? && s.host.value.row.lastStartedAt.Some? ==>
          s.host.value.row.lastStartedAt.value <= s.clock)
  }

  lemma StepKeeps(s: State, op: Op)
    requires Ok(s) && Enabled(s, op)
    ensures Ok(Step(s, op)) && s.clock <= Step(s, op).clock && s.archive <= Step(s, op).archive
  {
    match op
    case TryAcquire(id, sessionId, duration, now) =>
      AcquireKeeps(s.archive, s.host, id, sessionId, duration, now);
    case GiveBack(id, observation, now) =>
      ReleaseKeeps(s.archive, s.host, id, observation, now);
    case AskReset =>
    case ChangeSettings(changed) =>
    case Collect(now) =>
  }

  /** states[i] is what ops[..i] made of an empty pacing table. */
  ghost predicate IsRun(states: seq<State>, ops: seq<Op>) {
    && |states| == |ops| + 1
    && states[0].host.None? && |states[0].archive| == 1 && ArchiveOk(states[0].archive)
    && forall i {:trigger ops[i]} :: 0 <= i < |ops| ==>
         states[i].archive != [] && Enabled(states[i], ops[i]) && states[i + 1] == Step(states[i], ops[i])
  }

  lemma {:induction false} RunOk(states: seq<State>, ops: seq<Op>, i: nat)
    requires IsRun(states, ops) && i < |states|
    ensures Ok(states[i])
  {
    if i > 0 {
      RunOk(states, ops, i - 1);
      StepKeeps(states[i - 1], ops[i - 1]);
    }
  }

  lemma {:induction false} ClockMonotone(states: seq<State>, ops: seq<Op>, i: nat, j: nat)
    requires IsRun(states, ops) && i <= j < |states|
    ensures states[i].clock <= states[j].clock
  {
    if i < j {
      ClockMonotone(states, ops, i, j - 1);
      RunOk(states, ops, j - 1);
      StepKeeps(states[j - 1], ops[j - 1]);
    }
  }

  /** The step admits a capture. */
  predicate Admits(s: State, op: Op)
    requires s.archive != []
  {
    op.TryAcquire? && Acquire(s.archive, s.host, op.id, op.sessionId, op.duration, op.now).0.Admitted?
  }

  /** The feedback a release applies, after the reset it may owe. */
  predicate Hears(s: State, op: Op) {
    op.GiveBack? && s.host.Some? && Heard(s.host.value, op.id, op.observation, op.now)
  }

  function HeardBy(s: State, op: Op): Policy
    requires s.archive != [] && Hears(s, op)
  {
    Refreshed(s.archive, s.host.value, s.host.value.leases[op.id].sessionId, op.now).row.policy
  }

  /** The step is a backoff: it halves the concurrency and doubles the spacing, up to the bounds. */
  predicate BackoffStep(s: State, op: Op)
    requires s.archive != []
  {
    Hears(s, op)
    && BacksOff(Current(s.archive), HeardBy(s, op), op.observation.value, s.host.value.leases[op.id].generation)
  }

  /** The step applies an observation that moves the generation. */
  predicate AdjustStep(s: State, op: Op)
    requires s.archive != []
  {
    Hears(s, op)
    && Update(Current(s.archive), HeardBy(s, op), op.observation.value, op.now,
              s.host.value.leases[op.id].atLimit, s.host.value.leases[op.id].concurrencyAtLimit,
              s.host.value.leases[op.id].generation).generation != HeardBy(s, op).generation
  }

  predicate Alive(states: seq<State>, i: int, j: int) {
    0 <= i <= j < |states| && forall m :: i <= m <= j ==> states[m].host.Some?
  }

  function Gen(s: State): int
    requires s.host.Some?
  {
    s.host.value.row.policy.generation
  }

  /** What may move on a host that lives on, and in which direction. */
  predicate Onward(host: Host, host': Host) {
    && host.row.policy.generation <= host'.row.policy.generation
    && host.row.nextStartAt <= host'.row.nextStartAt
    && (host.row.lastStartedAt.Some? ==>
          host'.row.lastStartedAt.Some? && host.row.lastStartedAt.value <= host'.row.lastStartedAt.value)
    && (host.row.policy.cooldownUntil.Some? ==>
          host'.row.policy.cooldownUntil.Some?
          && host.row.policy.cooldownUntil.value <= host'.row.policy.cooldownUntil.value)
  }

  lemma AcquireOnward(s: State, op: Op)
    requires Ok(s) && Enabled(s, op) && op.TryAcquire? && s.host.Some?
    ensures Step(s, op).host.Some? && Onward(s.host.value, Step(s, op).host.value)
  {
    RefreshedKeeps(s.archive, s.host.value, op.sessionId, op.now);
  }

  lemma ReleaseOnward(s: State, op: Op)
    requires Ok(s) && Enabled(s, op) && Hears(s, op)
    ensures Step(s, op).host.Some? && Onward(s.host.value, Step(s, op).host.value)
  {
    var held := s.host.value.leases[op.id];
    RefreshedKeeps(s.archive, s.host.value, held.sessionId, op.now);
    UpdateKeeps(Current(s.archive), HeardBy(s, op), op.observation.value, op.now,
                held.atLimit, held.concurrencyAtLimit, held.generation);
  }

  lemma LivingStep(s: State, op: Op)
    requires Ok(s) && Enabled(s, op) && s.host.Some? && Step(s, op).host.Some?
    ensures Onward(s.host.value, Step(s, op).host.value)
  {
    if op.TryAcquire? {
      AcquireOnward(s, op);
    } else if Hears(s, op) {
      ReleaseOnward(s, op);
    }
  }

  lemma {:induction false} GenerationMonotone(states: seq<State>, ops: seq<Op>, i: nat, j: nat)
    requires IsRun(states, ops) && Alive(states, i, j)
    ensures Gen(states[i]) <= Gen(states[j])
  {
    if i < j {
      GenerationMonotone(states, ops, i, j - 1);
      RunOk(states, ops, j - 1);
      assert states[j - 1].host.Some? && states[j].host.Some?;
      LivingStep(states[j - 1], ops[j - 1]);
    }
  }

  /** A step that does not admit under an id leaves that id's lease as it was, or takes it. */
  lemma LeaseStep(s: State, op: Op, id: string)
    requires Ok(s) && Enabled(s, op)
    requires Step(s, op).host.Some? && id in Step(s, op).host.value.leases
    ensures var lease' := Step(s, op).host.value.leases[id];
            if Admits(s, op) && op.id == id then lease'.generation == Gen(Step(s, op))
            else s.host.Some? && id in s.host.value.leases
                 && s.host.value.leases[id].generation == lease'.generation
                 && s.host.value.leases[id].expiresAt == lease'.expiresAt
  {
    match op
    case TryAcquire(_, sessionId, duration, now) =>
      if s.host.Some? {
        RefreshedKeeps(s.archive, s.host.value, sessionId, now);
      }
    case GiveBack(released, observation, now) =>
      ReleaseKeeps(s.archive, s.host, released, observation, now);
    case AskReset =>
    case ChangeSettings(changed) =>
    case Collect(now) =>
  }

  /** Every lease traces back to its admission, on a row that has lived ever since and that had
      the lease's generation right after it. */
  lemma {:induction false} LeaseOrigin(states: seq<State>, ops: seq<Op>, j: nat, id: string) returns (k: nat)
    requires IsRun(states, ops) && j < |states|
    requires states[j].host.Some? && id in states[j].host.value.leases
    ensures k < j && Admits(states[k], ops[k]) && ops[k].id == id
    ensures Alive(states, k + 1, j)
    ensures Gen(states[k + 1]) == states[j].host.value.leases[id].generation
  {
    RunOk(states, ops, j - 1);
    LeaseStep(states[j - 1], ops[j - 1], id);
    if Admits(states[j - 1], ops[j - 1]) && ops[j - 1].id == id {
      k := j - 1;
    } else {
      k := LeaseOrigin(states, ops, j - 1, id);
    }
  }

  /** A cooldown, once set, is in force until the clock has passed it, whatever resets,
      settings changes or purges come between. */
  predicate CoolingUntil(s: State, until: int) {
    until <= s.clock
    || (s.host.Some? && s.host.value.row.policy.cooldownUntil.Some?
        && until <= s.host.value.row.policy.cooldownUntil.value)
  }

  lemma {:induction false} CooldownPersists(states: seq<State>, ops: seq<Op>, i: nat, j: nat, until: int)
    requires IsRun(states, ops) && i <= j < |states| && CoolingUntil(states[i], until)
    ensures CoolingUntil(states[j], until)
  {
    if i < j {
      CooldownPersists(states, ops, i, j - 1, until);
      RunOk(states, ops, j - 1);
      StepKeeps(states[j - 1], ops[j - 1]);
      if states[j - 1].host.Some? && states[j].host.Some? {
        LivingStep(states[j - 1], ops[j - 1]);
      }
    }
  }

  /** No capture is admitted while its host cools down. */
  lemma AdmissionWaits(s: State, op: Op, until: int)
    requires Ok(s) && Enabled(s, op) && Admits(s, op) && CoolingUntil(s, until)
    ensures until <= op.now
  {
    if s.host.Some? {
      RefreshedKeeps(s.archive, s.host.value, op.sessionId, op.now);
    }
  }

  /** A backoff comes from a lease of the present generation, moves the generation on and cools the host down
      as long as was asked. */
  lemma BackoffMoves(s: State, op: Op)
    requires Ok(s) && Enabled(s, op) && BackoffStep(s, op)
    ensures Step(s, op).host.Some?
    ensures s.host.value.leases[op.id].generation == Gen(s) == Gen(Step(s, op)) - 1
    ensures var row, row' := s.host.value.row, Step(s, op).host.value.row;
            && row'.policy.concurrency == Max(1, row.policy.concurrency / 2)
            && row'.policy.spacing == Min(2 * row.policy.spacing, Current(s.archive).maximumSpacing)
            && CoolsAsAsked(Current(s.archive), row.policy.cooldownUntil, row'.policy.cooldownUntil,
                            op.observation.value.retry, op.now)
  {
    var host := s.host.value;
    RefreshedKeeps(s.archive, host, host.leases[op.id].sessionId, op.now);
    AllowanceMoves(Current(s.archive), HeardBy(s, op), op.observation.value, op.now,
                   host.leases[op.id].atLimit, host.leases[op.id].concurrencyAtLimit,
                   host.leases[op.id].generation);
  }

  /** The same for a step of a run. */
  lemma BackoffInRun(states: seq<State>, ops: seq<Op>, i: nat)
    requires IsRun(states, ops) && i < |ops| && BackoffStep(states[i], ops[i])
    ensures states[i].host.Some? && states[i + 1].host.Some?
    ensures ops[i].id in states[i].host.value.leases
    ensures states[i].host.value.leases[ops[i].id].generation == Gen(states[i]) == Gen(states[i + 1]) - 1
    ensures states[i + 1].host.value.row.policy.cooldownUntil.Some?
    ensures states[i + 1].host.value.row.policy.cooldownUntil.value >= ops[i].now
  {
    RunOk(states, ops, i);
    BackoffMoves(states[i], ops[i]);
  }

  /** A row that lives through a move of its generation ends with another one. */
  lemma NoSharedGeneration(states: seq<State>, ops: seq<Op>, a: nat, i: nat, j: nat)
    requires IsRun(states, ops) && a <= i < j && Alive(states, a, j)
    requires Gen(states[i]) < Gen(states[i + 1])
    ensures Gen(states[a]) < Gen(states[j])
  {
    assert Alive(states, a, i) && Alive(states, i + 1, j);
    GenerationMonotone(states, ops, a, i);
    GenerationMonotone(states, ops, i + 1, j);
  }

  lemma AdmittedAfterCooldown(states: seq<State>, ops: seq<Op>, i: nat, k: nat, until: int)
    requires IsRun(states, ops) && i < k < |ops| && Admits(states[k], ops[k])
    requires CoolingUntil(states[i + 1], until)
    ensures until <= ops[k].now
  {
    CooldownPersists(states, ops, i + 1, k, until);
    AdmissionWaitsInRun(states, ops, k, until);
  }

  lemma AdmissionWaitsInRun(states: seq<State>, ops: seq<Op>, k: nat, until: int)
    requires IsRun(states, ops) && k < |ops| && Admits(states[k], ops[k]) && CoolingUntil(states[k], until)
    ensures until <= ops[k].now
  {
    RunOk(states, ops, k);
    AdmissionWaits(states[k], ops[k], until);
  }

  /** No cascade: one burst of failures causes one reduction.  Between any two backoffs of a host
      the very capture whose refusal causes the second one was admitted, and not before the
      cooldown the first one set had passed. */
  lemma NoCascade(states: seq<State>, ops: seq<Op>, i: nat, j: nat) returns (k: nat)
    requires IsRun(states, ops) && i < j < |ops|
    requires BackoffStep(states[i], ops[i]) && BackoffStep(states[j], ops[j])
    ensures i < k < j && Admits(states[k], ops[k]) && ops[k].id == ops[j].id
    ensures states[i + 1].host.Some? && states[i + 1].host.value.row.policy.cooldownUntil.Some?
    ensures ops[k].now >= states[i + 1].host.value.row.policy.cooldownUntil.value >= ops[i].now
  {
    BackoffInRun(states, ops, i);
    BackoffInRun(states, ops, j);
    k := LeaseOrigin(states, ops, j, ops[j].id);
    if k < i {
      NoSharedGeneration(states, ops, k + 1, i, j);
    }
    AdmittedAfterCooldown(states, ops, i, k, states[i + 1].host.value.row.policy.cooldownUntil.value);
  }

  // ---- Spacing ------------------------------------------------------------------------------

  /** No admission before `floor`: the clock has passed it or the row's next start has not. */
  predicate NoStartBefore(s: State, floor: int) {
    floor <= s.clock || (s.host.Some? && floor <= s.host.value.row.nextStartAt)
  }

  lemma {:induction false} FloorPersists(states: seq<State>, ops: seq<Op>, i: nat, j: nat, floor: int)
    requires IsRun(states, ops) && i <= j < |states| && NoStartBefore(states[i], floor)
    ensures NoStartBefore(states[j], floor)
  {
    if i < j {
      FloorPersists(states, ops, i, j - 1, floor);
      RunOk(states, ops, j - 1);
      StepKeeps(states[j - 1], ops[j - 1]);
      if states[j - 1].host.Some? && states[j].host.Some? {
        LivingStep(states[j - 1], ops[j - 1]);
      }
    }
  }

  lemma FloorHolds(s: State, op: Op, floor: int)
    requires Ok(s) && Enabled(s, op) && Admits(s, op) && NoStartBefore(s, floor)
    ensures floor <= op.now
  {
    if s.host.Some? {
      RefreshedKeeps(s.archive, s.host.value, op.sessionId, op.now);
    }
  }

  /** What an admission leaves behind. */
  lemma AdmissionLeaves(s: State, op: Op)
    requires Ok(s) && Enabled(s, op) && Admits(s, op)
    ensures var t := Step(s, op);
            && t.host.Some? && t.clock == op.now
            && op.id in t.host.value.leases
            && t.host.value.row.lastStartedAt == Some(op.now)
            && t.host.value.row.nextStartAt == op.now + t.host.value.row.policy.spacing
            && |t.host.value.leases| <= t.host.value.row.policy.concurrency
  {
  }

  /** The last start only moves to the instant of an admission. */
  lemma LastStartStep(s: State, op: Op)
    requires Ok(s) && Enabled(s, op)
    requires Step(s, op).host.Some? && Step(s, op).host.value.row.lastStartedAt.Some?
    ensures var last := Step(s, op).host.value.row.lastStartedAt;
            || (s.host.Some? && s.host.value.row.lastStartedAt == last)
            || (Admits(s, op) && last == Some(op.now))
  {
    match op
    case TryAcquire(id, sessionId, duration, now) =>
      if s.host.Some? {
        RefreshedKeeps(s.archive, s.host.value, sessionId, now);
      }
    case GiveBack(id, observation, now) =>
      if Hears(s, op) {
        RefreshedKeeps(s.archive, s.host.value, s.host.value.leases[id].sessionId, now);
      }
    case AskReset =>
    case ChangeSettings(changed) =>
    case Collect(now) =>
  }

  /** After an admission, the host never remembers an earlier start as its last one. */
  lemma {:induction false} LastStartMonotone(states: seq<State>, ops: seq<Op>, k: nat, j: nat)
    requires IsRun(states, ops) && k < j < |states| && Admits(states[k], ops[k])
    ensures states[j].host.Some? && states[j].host.value.row.lastStartedAt.Some? ==>
              ops[k].now <= states[j].host.value.row.lastStartedAt.value
  {
    RunOk(states, ops, k);
    AdmissionLeaves(states[k], ops[k]);
    if k + 1 < j && states[j].host.Some? && states[j].host.value.row.lastStartedAt.Some? {
      LastStartMonotone(states, ops, k, j - 1);
      RunOk(states, ops, j - 1);
      LastStartStep(states[j - 1], ops[j - 1]);
      ClockMonotone(states, ops, k + 1, j - 1);
    }
  }

  /** Admissions of a host keep the distance in force: at least the spacing that stood at the
      earlier one. */
  lemma SpacingAtAdmission(states: seq<State>, ops: seq<Op>, i: nat, j: nat)
    requires IsRun(states, ops) && i < j < |ops|
    requires Admits(states[i], ops[i]) && Admits(states[j], ops[j])
    ensures states[i + 1].host.Some?
    ensures ops[j].now >= ops[i].now + states[i + 1].host.value.row.policy.spacing
  {
    RunOk(states, ops, i);
    RunOk(states, ops, j);
    AdmissionLeaves(states[i], ops[i]);
    var floor := ops[i].now + states[i + 1].host.value.row.policy.spacing;
    FloorPersists(states, ops, i + 1, j, floor);
    FloorHolds(states[j], ops[j], floor);
  }

  /** An adjustment pushes the next start out to its own spacing after the last one. */
  lemma AdjustmentHoldsBack(s: State, op: Op)
    requires Ok(s) && Enabled(s, op) && AdjustStep(s, op)
    ensures s.host.Some? && s.host.value.row.lastStartedAt.Some? && Step(s, op).host.Some?
    ensures var row' := Step(s, op).host.value.row;
            s.host.value.row.lastStartedAt.value + row'.policy.spacing <= row'.nextStartAt
  {
    RefreshedKeeps(s.archive, s.host.value, s.host.value.leases[op.id].sessionId, op.now);
    assert s.host.value.leases != map[];
  }

  /** They also keep every spacing an observation puts in force between them, resets and purges
      notwithstanding. */
  lemma SpacingAfterAdjustment(states: seq<State>, ops: seq<Op>, i: nat, u: nat, j: nat)
    requires IsRun(states, ops) && i < u < j < |ops|
    requires Admits(states[i], ops[i]) && AdjustStep(states[u], ops[u]) && Admits(states[j], ops[j])
    ensures states[u + 1].host.Some?
    ensures ops[j].now >= ops[i].now + states[u + 1].host.value.row.policy.spacing
  {
    RunOk(states, ops, u);
    RunOk(states, ops, j);
    LastStartMonotone(states, ops, i, u);
    AdjustmentHoldsBack(states[u], ops[u]);
    var floor := states[u].host.value.row.lastStartedAt.value + states[u + 1].host.value.row.policy.spacing;
    FloorPersists(states, ops, u + 1, j, floor);
    FloorHolds(states[j], ops[j], floor);
  }

  /** A step that does not admit adds no lease. */
  lemma LeasesShrink(s: State, op: Op)
    requires Ok(s) && Enabled(s, op) && !Admits(s, op) && Step(s, op).host.Some?
    ensures var leases' := Step(s, op).host.value.leases;
            |leases'| <= (if s.host.Some? then |s.host.value.leases| else 0)
  {
    var before := if s.host.Some? then s.host.value.leases.Keys else {};
    var leases' := Step(s, op).host.value.leases;
    forall id | id in leases'
      ensures id in before
    {
      LeaseStep(s, op, id);
    }
    SubsetSize(leases'.Keys, before);
    assert |leases'.Keys| == |leases'|;
  }

  /** No capture was admitted after k and before j. */
  ghost predicate NoneAdmitted(states: seq<State>, ops: seq<Op>, k: nat, j: nat)
    requires IsRun(states, ops) && j < |states|
  {
    forall m {:trigger ops[m]} :: k < m < j ==> !Admits(states[m], ops[m])
  }

  lemma StillNoneAdmitted(states: seq<State>, ops: seq<Op>, k: nat, j: nat)
    requires IsRun(states, ops) && k + 1 < j < |states| && NoneAdmitted(states, ops, k, j)
    ensures NoneAdmitted(states, ops, k, j - 1)
  {
  }

  lemma {:induction false} LeasesStayWithin(states: seq<State>, ops: seq<Op>, k: nat, j: nat, limit: nat)
    requires IsRun(states, ops) && k < j < |states| && NoneAdmitted(states, ops, k, j)
    requires states[k + 1].host.Some? ==> |states[k + 1].host.value.leases| <= limit
    ensures states[j].host.Some? ==> |states[j].host.value.leases| <= limit
  {
    if k + 1 < j && states[j].host.Some? {
      StillNoneAdmitted(states, ops, k, j);
      LeasesStayWithin(states, ops, k, j - 1, limit);
      LeasesShrinkInRun(states, ops, k, j);
    }
  }

  /** Live leases never exceed the concurrency in force at the latest admission, however the
      concurrency has been halved, reset or reconfigured since. */
  lemma LeasesWithinConcurrency(states: seq<State>, ops: seq<Op>, k: nat, j: nat)
    requires IsRun(states, ops) && k < j < |states| && Admits(states[k], ops[k])
    requires NoneAdmitted(states, ops, k, j)
    ensures states[k + 1].host.Some?
    ensures states[j].host.Some? ==>
              |states[j].host.value.leases| <= states[k + 1].host.value.row.policy.concurrency
  {
    AdmissionWithinConcurrency(states, ops, k);
    LeasesStayWithin(states, ops, k, j, states[k + 1].host.value.row.policy.concurrency);
  }

  lemma AdmissionWithinConcurrency(states: seq<State>, ops: seq<Op>, k: nat)
    requires IsRun(states, ops) && k < |ops| && Admits(states[k], ops[k])
    ensures states[k + 1].host.Some?
    ensures |states[k + 1].host.value.leases| <= states[k + 1].host.value.row.policy.concurrency
    ensures states[k + 1].host.value.row.policy.concurrency >= 1
  {
    RunOk(states, ops, k);
    RunOk(states, ops, k + 1);
    AdmissionLeaves(states[k], ops[k]);
  }

  lemma LeasesShrinkInRun(states: seq<State>, ops: seq<Op>, k: nat, j: nat)
    requires IsRun(states, ops) && k + 1 < j < |states| && NoneAdmitted(states, ops, k, j) && states[j].host.Some?
    ensures |states[j].host.value.leases|
         <= if states[j - 1].host.Some? then |states[j - 1].host.value.leases| else 0
  {
    RunOk(states, ops, j - 1);
    LeasesShrink(states[j - 1], ops[j - 1]);
  }

  // ---- The adjustment log -------------------------------------------------------------------

  /** One step on a host that lives on: the log grows with the generation and with nothing else. */
  predicate LogGrows(host: Host, host': Host) {
    && host.log <= host'.log
    && host.row.policy.generation <= host'.row.policy.generation
    && (host.row.policy.generation == host'.row.policy.generation ==>
          && host.row.policy.concurrency == host'.row.policy.concurrency
          && host.row.policy.spacing == host'.row.policy.spacing
          && host.row.policy.reason == host'.row.policy.reason
          && host.log == host'.log)
    && |host'.log| - |host.log| == host'.row.policy.generation - host.row.policy.generation
  }

  lemma RefreshGrows(archive: seq<Settings>, host: Host, sessionId: string, now: int)
    requires archive != []
    ensures LogGrows(host, Refreshed(archive, host, sessionId, now))
  {
  }

  lemma LearningGrows(archive: seq<Settings>, host: Host, held: Lease, observation: Observation, now: int)
    requires ArchiveOk(archive) && HostOk(archive, host) && held.generation <= host.row.policy.generation
    requires host.row.settingsVersion == |archive|
    ensures LogGrows(host, Learned(archive, host, held, observation, now))
  {
    UpdateKeeps(Current(archive), host.row.policy, observation, now,
                held.atLimit, held.concurrencyAtLimit, held.generation);
  }

  lemma LogStep(s: State, op: Op)
    requires Ok(s) && Enabled(s, op) && s.host.Some? && Step(s, op).host.Some?
    ensures LogGrows(s.host.value, Step(s, op).host.value)
  {
    match op
    case TryAcquire(id, sessionId, duration, now) =>
      RefreshGrows(s.archive, s.host.value, sessionId, now);
    case GiveBack(id, observation, now) =>
      if Hears(s, op) {
        var held := s.host.value.leases[id];
        var current := Refreshed(s.archive, s.host.value, held.sessionId, now);
        RefreshedKeeps(s.archive, s.host.value, held.sessionId, now);
        RefreshGrows(s.archive, s.host.value, held.sessionId, now);
        LearningGrows(s.archive, current, held, observation.value, now);
      }
    case AskReset =>
    case ChangeSettings(changed) =>
    case Collect(now) =>
  }

  lemma LogStepInRun(states: seq<State>, ops: seq<Op>, j: nat)
    requires IsRun(states, ops) && j < |ops| && states[j].host.Some? && states[j + 1].host.Some?
    ensures var host, host' := states[j].host.value, states[j + 1].host.value;
            && LogReplays(host')
            && host.log <= host'.log
            && (Gen(states[j]) == Gen(states[j + 1]) ==>
                  && host.row.policy.concurrency == host'.row.policy.concurrency
                  && host.row.policy.spacing == host'.row.policy.spacing
                  && host.row.policy.reason == host'.row.policy.reason
                  && host.log == host'.log)
  {
    RunOk(states, ops, j);
    RunOk(states, ops, j + 1);
    LogStep(states[j], ops[j]);
  }

  /** Over a row's life the log only grows, by entries numbered without a gap, and while the
      generation stands so does the allowance. */
  lemma {:induction false} LogTellsAll(states: seq<State>, ops: seq<Op>, i: nat, j: nat)
    requires IsRun(states, ops) && Alive(states, i, j)
    ensures states[i].host.value.log <= states[j].host.value.log
    ensures LogReplays(states[j].host.value)
    ensures Gen(states[i]) == Gen(states[j]) ==>
              && states[i].host.value.row.policy.concurrency == states[j].host.value.row.policy.concurrency
              && states[i].host.value.row.policy.spacing == states[j].host.value.row.policy.spacing
              && states[i].host.value.row.policy.reason == states[j].host.value.row.policy.reason
              && states[i].host.value.log == states[j].host.value.log
  {
    if i < j {
      assert states[j - 1].host.Some? && states[j].host.Some?;
      LogTellsAll(states, ops, i, j - 1);
      GenerationMonotone(states, ops, i, j - 1);
      GenerationMonotone(states, ops, j - 1, j);
      LogStepInRun(states, ops, j - 1);
    } else {
      RunOk(states, ops, j);
    }
  }

  /** At every point of every run the row is within the bounds of the settings version it was
      written under, and its sample counts are below that version's thresholds. */
  lemma AlwaysWithinBounds(states: seq<State>, ops: seq<Op>, i: nat)
    requires IsRun(states, ops) && i < |states| && states[i].host.Some?
    ensures WrittenUnder(states[i].archive, states[i].host.value.row)
    ensures var settings := Governing(states[i].archive, states[i].host.value.row);
            var policy := states[i].host.value.row.policy;
            && policy.InBounds(settings)
            && 0 <= policy.concurrencySamples <= policy.healthySamples < settings.healthySamples
            && 0 <= policy.overloadSamples < settings.overloadSamples
  {
    RunOk(states, ops, i);
  }

  // ---- Purging ------------------------------------------------------------------------------

  /** Purging is invisible to admission: from a row that could have been purged, acquire decides
      and leaves the same concurrency, spacing, expiry and next start as after the purge, at that
      time or any later one, and after any settings changes. */
  lemma PurgeInvisible(archive: seq<Settings>, host: Host, purgedAt: int, now: int,
                       id: string, sessionId: string, duration: int)
    requires ArchiveOk(archive) && Purgeable(host, purgedAt) && purgedAt <= now
    ensures var (kept, afterKept) := Acquire(archive, Some(host), id, sessionId, duration, now);
            var (purged, afterPurge) := Acquire(archive, None, id, sessionId, duration, now);
            && kept == purged == Admitted
            && afterKept.Some? && afterPurge.Some?
            && var row, row' := afterKept.value.row, afterPurge.value.row;
               && row.policy.concurrency == row'.policy.concurrency
               && row.policy.spacing == row'.policy.spacing
               && row.policy.expiresAt == row'.policy.expiresAt
               && row.nextStartAt == row'.nextStartAt
               && row.policy.healthySamples == row'.policy.healthySamples == 0
               && row.policy.overloadSamples == row'.policy.overloadSamples == 0
               && afterKept.value.leases.Keys == afterPurge.value.leases.Keys == {id}
               && afterKept.value.leases[id].expiresAt == afterPurge.value.leases[id].expiresAt
  {
    forall key | key in host.leases
      ensures host.leases[key].expiresAt <= now
    {
      assert key !in Unexpired(host.leases, purgedAt);
    }
    assert Unexpired(Refreshed(archive, host, sessionId, now).leases, now) == map[];
  }

  /** What a purge forgets is only history: the admission after it starts at generation zero with
      an empty log, where the row kept would count on. */
  lemma PurgeForgetsHistory(archive: seq<Settings>, host: Host, now: int,
                            id: string, sessionId: string, duration: int)
    requires ArchiveOk(archive) && HostOk(archive, host) && Purgeable(host, now)
    ensures var afterKept := Acquire(archive, Some(host), id, sessionId, duration, now).1.value;
            var afterPurge := Acquire(archive, None, id, sessionId, duration, now).1.value;
            && afterPurge.log == [] && afterPurge.row.policy.generation == 0
            && afterKept.log == host.log + [afterKept.log[|afterKept.log| - 1]]
            && afterKept.row.policy.generation == host.row.policy.generation + 1
  {
    PurgeInvisible(archive, host, now, now, id, sessionId, duration);
    RefreshedKeeps(archive, host, sessionId, now);
  }
}
