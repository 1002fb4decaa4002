/** How the allowance of a host climbs, over whole runs: every increase is earned, and climbing ends. */
module PacingClimbing {
  import opened Common
  import opened PacingController
  import opened PacingRepository
  import opened PacingRuns

  /** The step applies a reset that was due. */
  predicate Restarts(s: State, op: Op)
    requires s.archive != []
  {
    && s.host.Some? && (op.TryAcquire? || Hears(s, op)) && NeedsReset(s.archive, s.host.value.row, op.now)
    && (op.TryAcquire? ==>
          !Acquire(s.archive, s.host, op.id, op.sessionId, op.duration, op.now).0.DuplicateLease?)
  }

  /** The feedback of a released lease, as its admission marked it. */
  function FeedbackOf(s: State, op: Op): Feedback
    requires Hears(s, op)
  {
    var held := s.host.value.leases[op.id];
    Observe(op.observation.value, op.now, held.atLimit, held.concurrencyAtLimit, held.generation)
  }

  /** How many qualifying captures were released, and how many of them pressed against the concurrency. */
  datatype Tally = Tally(all: nat, pressing: nat)

  /** What one observation makes of the tally. */
  function Counted(settings: Settings, p: Policy, f: Feedback, t: Tally): Tally {
    var after := Apply(settings, p, f);
    if f.Restart? || Refuses(p, f) || Completes(settings, p, f, t.all)
       || after.concurrency != p.concurrency || after.spacing != p.spacing then Tally(0, 0)
    else if !Qualifies(p, f) then t
    else Tally(t.all + 1, t.pressing + if f.concurrencyAtLimit then 1 else 0)
  }

  function Next(s: State, op: Op, t: Tally): Tally
    requires s.archive != []
  {
    var before := if s.host.None? || Restarts(s, op) then Tally(0, 0) else t;
    if Hears(s, op) then Counted(Current(s.archive), HeardBy(s, op), FeedbackOf(s, op), before) else before
  }

  /** The qualifying captures released since the row was made, or since the last reset, refusal, full
      count or change of allowance. */
  ghost function Released(states: seq<State>, ops: seq<Op>, n: nat): Tally
    requires IsRun(states, ops) && n < |states|
  {
    if n == 0 then Tally(0, 0) else Next(states[n - 1], ops[n - 1], Released(states, ops, n - 1))
  }

  predicate Matches(p: Policy, t: Tally) {
    p.healthySamples == t.all && p.concurrencySamples == t.pressing
  }

  lemma ObservationCounts(settings: Settings, p: Policy, f: Feedback, t: Tally)
    requires f.Observe? && Matches(p, t)
    ensures Matches(Apply(settings, p, f), Counted(settings, p, f, t))
  {
  }

  lemma ReleaseCounts(s: State, op: Op, t: Tally)
    requires Ok(s) && Enabled(s, op) && Hears(s, op) && Matches(s.host.value.row.policy, t)
    ensures Step(s, op).host.Some? && Matches(Step(s, op).host.value.row.policy, Next(s, op, t))
  {
    RefreshedRestores(s.archive, s.host.value, s.host.value.leases[op.id].sessionId, op.now);
    ObservationCounts(Current(s.archive), HeardBy(s, op), FeedbackOf(s, op),
                      if Restarts(s, op) then Tally(0, 0) else t);
  }

  lemma AcquireCounts(s: State, op: Op, t: Tally)
    requires Ok(s) && Enabled(s, op) && op.TryAcquire? && Step(s, op).host.Some?
    requires s.host.Some? ==> Matches(s.host.value.row.policy, t)
    ensures Matches(Step(s, op).host.value.row.policy, Next(s, op, t))
  {
    if s.host.Some? {
      RefreshedRestores(s.archive, s.host.value, op.sessionId, op.now);
    }
  }

  lemma StepCounts(s: State, op: Op, t: Tally)
    requires Ok(s) && Enabled(s, op) && Step(s, op).host.Some?
    requires s.host.Some? ==> Matches(s.host.value.row.policy, t)
    ensures Matches(Step(s, op).host.value.row.policy, Next(s, op, t))
  {
    if op.TryAcquire? {
      AcquireCounts(s, op, t);
    } else if Hears(s, op) {
      ReleaseCounts(s, op, t);
    }
  }

  /** The counts a row stores are the qualifying captures that were released, in every run. */
  lemma {:induction false} SamplesAreReleases(states: seq<State>, ops: seq<Op>, n: nat)
    requires IsRun(states, ops) && n < |states| && states[n].host.Some?
    ensures Matches(states[n].host.value.row.policy, Released(states, ops, n))
  {
    if n > 0 {
      if states[n - 1].host.Some? {
        SamplesAreReleases(states, ops, n - 1);
      }
      RunOk(states, ops, n - 1);
      assert Enabled(states[n - 1], ops[n - 1]);
      StepCounts(states[n - 1], ops[n - 1], Released(states, ops, n - 1));
    }
  }

  /** The allowance of the host is wider after the step. */
  predicate Raises(s: State, op: Op)
    requires s.archive != []
  {
    && s.host.Some? && Step(s, op).host.Some?
    && (Step(s, op).host.value.row.policy.concurrency > s.host.value.row.policy.concurrency
        || Step(s, op).host.value.row.policy.spacing < s.host.value.row.policy.spacing)
  }

  lemma RaisedByRelease(s: State, op: Op)
    requires Ok(s) && Enabled(s, op) && Raises(s, op) && !Restarts(s, op)
    ensures Hears(s, op) && HeardBy(s, op) == s.host.value.row.policy
    ensures Step(s, op).host.value.row.policy == Apply(Current(s.archive), HeardBy(s, op), FeedbackOf(s, op))
    ensures s.host.value.row.settingsVersion == |s.archive|
  {
    if op.TryAcquire? {
      RefreshedRestores(s.archive, s.host.value, op.sessionId, op.now);
    }
    if Hears(s, op) {
      RefreshedRestores(s.archive, s.host.value, s.host.value.leases[op.id].sessionId, op.now);
    }
  }

  /** A released capture that earns an increase: it was healthy, admitted under the present generation,
      pressed against the allowance, outside the cooldown, and it completes a full count of such
      captures; for a wider concurrency, half a count pressed against the concurrency. */
  predicate Earns(s: State, op: Op, t: Tally)
    requires s.archive != []
  {
    && Hears(s, op)
    && Qualifies(s.host.value.row.policy, FeedbackOf(s, op))
    && t.all + 1 >= Current(s.archive).healthySamples
    && (Step(s, op).host.Some?
        && Step(s, op).host.value.row.policy.concurrency > s.host.value.row.policy.concurrency ==>
          t.pressing + (if FeedbackOf(s, op).concurrencyAtLimit then 1 else 0)
            >= Current(s.archive).healthySamples / 2)
  }

  lemma RaiseIsEarned(s: State, op: Op, t: Tally)
    requires Ok(s) && Enabled(s, op) && Raises(s, op) && !Restarts(s, op)
    requires Matches(s.host.value.row.policy, t)
    ensures Earns(s, op, t)
  {
    RaisedByRelease(s, op);
    RaiseQualifies(Current(s.archive), s.host.value.row.policy, FeedbackOf(s, op));
  }

  /** Every increase in every run is earned by the captures released before it, unless a reset restores
      the defaults. */
  lemma EveryIncreaseIsEarned(states: seq<State>, ops: seq<Op>, n: nat)
    requires IsRun(states, ops) && n < |ops|
    requires Raises(states[n], ops[n]) && !Restarts(states[n], ops[n])
    ensures Earns(states[n], ops[n], Released(states, ops, n))
  {
    RunOk(states, ops, n);
    SamplesAreReleases(states, ops, n);
    RaiseIsEarned(states[n], ops[n], Released(states, ops, n));
  }

  lemma RaiseQualifies(settings: Settings, p: Policy, f: Feedback)
    requires settings.Valid() && p.InBounds(settings) && f.Observe?
    requires var q := Apply(settings, p, f); q.concurrency > p.concurrency || q.spacing < p.spacing
    ensures Qualifies(p, f) && p.healthySamples + 1 >= settings.healthySamples
    ensures Apply(settings, p, f).concurrency > p.concurrency ==>
      p.concurrencySamples + (if f.concurrencyAtLimit then 1 else 0) >= settings.healthySamples / 2
  {
    AllowanceMoves(settings, p, f.observation, f.now, f.atLimit, f.concurrencyAtLimit, f.generation);
  }

  // ---- Climbing ends --------------------------------------------------------------------------------

  /** The step gives no reason to hold back: no reset, and no refusal in what is released. */
  predicate Encourages(s: State, op: Op)
    requires s.archive != []
  {
    !Restarts(s, op) && (Hears(s, op) ==> op.observation.value.outcome in {Healthy, Neutral})
  }

  lemma ClimbStep(s: State, op: Op)
    requires Ok(s) && Enabled(s, op) && Encourages(s, op) && s.host.Some? && Step(s, op).host.Some?
    ensures var row, row' := s.host.value.row, Step(s, op).host.value.row;
            var settings := Governing(s.archive, row);
            && row'.settingsVersion == row.settingsVersion
            && 0 <= row'.policy.generation - row.policy.generation
                 <= Headroom(settings, row.policy) - Headroom(settings, row'.policy)
            && row'.policy.concurrency >= row.policy.concurrency && row'.policy.spacing <= row.policy.spacing
  {
    var host := s.host.value;
    if op.TryAcquire? {
      RefreshedRestores(s.archive, host, op.sessionId, op.now);
    }
    if Hears(s, op) {
      RefreshedRestores(s.archive, host, host.leases[op.id].sessionId, op.now);
      ClimbOnce(Current(s.archive), host.row.policy, FeedbackOf(s, op));
    }
  }

  lemma ClimbOnce(settings: Settings, p: Policy, f: Feedback)
    requires settings.Valid() && p.InBounds(settings) && p.SamplesBelowThresholds(settings) && Encouraging(f)
    ensures var q := Apply(settings, p, f);
            && 0 <= q.generation - p.generation <= Headroom(settings, p) - Headroom(settings, q)
            && q.concurrency >= p.concurrency && q.spacing <= p.spacing
  {
    assert [f][..0] == [] && Run(settings, p, [f]) == Apply(settings, p, f);
    BoundedClimbing(settings, p, [f]);
  }

  lemma ClimbInRun(states: seq<State>, ops: seq<Op>, n: nat)
    requires IsRun(states, ops) && n < |ops| && states[n].host.Some? && states[n + 1].host.Some?
    requires Encourages(states[n], ops[n])
    ensures states[n].archive <= states[n + 1].archive
    ensures Ok(states[n]) && Ok(states[n + 1])
    ensures var row, row' := states[n].host.value.row, states[n + 1].host.value.row;
            var settings := Governing(states[n].archive, row);
            && row'.settingsVersion == row.settingsVersion
            && 0 <= row'.policy.generation - row.policy.generation
                 <= Headroom(settings, row.policy) - Headroom(settings, row'.policy)
  {
    RunOk(states, ops, n);
    RunOk(states, ops, n + 1);
    assert Enabled(states[n], ops[n]);
    StepKeeps(states[n], ops[n]);
    ClimbStep(states[n], ops[n]);
  }

  /** All steps from i to j encourage. */
  ghost predicate Climbing(states: seq<State>, ops: seq<Op>, i: nat, j: nat)
    requires IsRun(states, ops) && i <= j < |states|
  {
    forall m {:trigger ops[m]} :: i <= m < j ==> Encourages(states[m], ops[m])
  }

  /** In every run, while a row lives and nothing but healthy and neutral captures is released, its
      allowance changes at most as often as there is room: concurrency steps and microseconds of
      spacing between it and the bounds it was written under. */
  lemma {:induction false} ClimbingEnds(states: seq<State>, ops: seq<Op>, i: nat, j: nat)
    requires IsRun(states, ops) && Alive(states, i, j) && Climbing(states, ops, i, j)
    ensures Ok(states[i]) && Ok(states[j])
    ensures states[i].archive <= states[j].archive
    ensures states[j].host.value.row.settingsVersion == states[i].host.value.row.settingsVersion
    ensures var p, q := states[i].host.value.row.policy, states[j].host.value.row.policy;
            var settings := Governing(states[i].archive, states[i].host.value.row);
            && 0 <= Headroom(settings, q)
            && 0 <= q.generation - p.generation <= Headroom(settings, p) - Headroom(settings, q)
  {
    RunOk(states, ops, i);
    if i < j {
      assert states[j - 1].host.Some? && states[j].host.Some?;
      ClimbingEnds(states, ops, i, j - 1);
      assert Encourages(states[j - 1], ops[j - 1]);
      ClimbInRun(states, ops, j - 1);
    }
  }
}
