/** The reconciler that brings a provider's instances to the desired count, interleaved with
    everybody else's transactions at each of its awaits. */
module FleetReconciler {
  import opened Common
  import opened Admission
  import opened AdmissionInvariant
  import opened AdmissionSteps
  import opened AdmissionTransactions
  import opened AdmissionRuns

  // ---- Draining -----------------------------------------------------------------------------------------

  /** The instance is draining and nobody with a live lease is on it, now or at any later time. */
  predicate Drained(db: Db, i: Id) {
    i in db.instances && db.instances[i].state.Draining? && Occupants(db, i, db.clock) == {}
  }

  /** A fleet transaction that may give instances of a provider another state. */
  predicate OwnFleetOp(op: Op, provider: Id) {
    (op.DoObserve? || op.DoPrepare? || op.DoCancel?) && op.provider == provider
  }

  /** Another provider's observation does not see this provider's instances. */
  predicate Foreign(db: Db, op: Op, provider: Id) {
    && !OwnFleetOp(op, provider)
    && (op.DoObserve? ==> forall i :: i in op.seen && i in db.instances ==> db.instances[i].provider != provider)
  }

  lemma DrainingStands(db: Db, op: Op, i: Id)
    requires Enabled(db, op) && i in db.instances && Foreign(db, op, db.instances[i].provider)
    ensures i in Step(db, op).instances && Step(db, op).instances[i] == db.instances[i]
  {
    if !FleetOp(op) {
      TablesUntouched(db, op);
    }
  }

  /** No transaction of anybody else puts an attempt on a drained instance. */
  lemma DrainedStep(db: Db, op: Op, i: Id)
    requires Inv(db) && Enabled(db, op) && Drained(db, i) && Foreign(db, op, db.instances[i].provider)
    ensures Drained(Step(db, op), i) && Step(db, op).instances[i] == db.instances[i]
  {
    var after, granted := Step(db, op), Granted(db, op);
    DrainingStands(db, op, i);
    StepAdvances(db, op);
    OccupantsStep(db, after, i, op.now, granted);
    OccupantsShrink(db, i, db.clock, op.now);
    if granted.Some? && granted.value in after.attempts && after.attempts[granted.value].instance == Some(i) {
      GrantFindsRoom(db, op, granted.value, i);
    }
  }

  /** Others ran the transactions ops, one after another. */
  ghost predicate OthersRan(states: seq<Db>, ops: seq<Op>, provider: Id) {
    && |states| == |ops| + 1
    && forall k {:trigger ops[k]} :: 0 <= k < |ops| ==>
         Enabled(states[k], ops[k]) && Foreign(states[k], ops[k], provider) && states[k + 1] == Step(states[k], ops[k])
  }

  /** Others took the tables from before to after. */
  ghost predicate Interferes(states: seq<Db>, ops: seq<Op>, provider: Id, before: Db, after: Db) {
    OthersRan(states, ops, provider) && states[0] == before && states[|states| - 1] == after
  }

  lemma {:induction false} InterferenceKeeps(states: seq<Db>, ops: seq<Op>, provider: Id, n: nat)
    requires OthersRan(states, ops, provider) && n < |states| && Inv(states[0])
    ensures Inv(states[n]) && states[0].clock <= states[n].clock
  {
    if n > 0 {
      InterferenceKeeps(states, ops, provider, n - 1);
      assert Enabled(states[n - 1], ops[n - 1]);
      StepInv(states[n - 1], ops[n - 1]);
    }
  }

  /** Drain safety: once drained, an instance stays empty through any interleaving of sessions,
      heartbeats, enqueues, claims and other providers' fleets. */
  lemma {:induction false} DrainedForGood(states: seq<Db>, ops: seq<Op>, i: Id, n: nat)
    requires |states| >= 1 && Inv(states[0]) && Drained(states[0], i)
    requires OthersRan(states, ops, states[0].instances[i].provider) && n < |states|
    ensures Drained(states[n], i) && states[n].instances[i] == states[0].instances[i]
    ensures forall later :: states[n].clock <= later ==> Occupants(states[n], i, later) == {}
  {
    if n > 0 {
      DrainedForGood(states, ops, i, n - 1);
      InterferenceKeeps(states, ops, states[0].instances[i].provider, n - 1);
      assert Enabled(states[n - 1], ops[n - 1]);
      DrainedStep(states[n - 1], ops[n - 1], i);
    }
    forall later | states[n].clock <= later
      ensures Occupants(states[n], i, later) == {}
    {
      OccupantsShrink(states[n], i, states[n].clock, later);
    }
  }

  /** A scale-down check that succeeds leaves the instance drained. */
  lemma PreparedIsDrained(db: Db, provider: Id, i: Id, now: int)
    requires Inv(db) && db.clock <= now && PrepareScaleDown(db, provider, i, now).0
    ensures var after := Step(db, DoPrepare(provider, i, now));
            Inv(after) && Drained(after, i) && after.instances[i].provider == provider
  {
    StepInv(db, DoPrepare(provider, i, now));
    var after := Step(db, DoPrepare(provider, i, now));
    assert Occupants(after, i, now) == Occupants(db, i, now);
  }

  // ---- The reconciler ------------------------------------------------------------------------------------

  datatype RuntimeInstance = RuntimeInstance(id: Id, sessionCapacity: Option<int>, stale: bool)

  datatype Path = DownPath | ReplacePath

  /** A request to the runtime to remove an instance, with who was on it at that moment. */
  datatype Removal = Removal(instance: Id, path: Path, occupants: set<Id>)

  datatype Direction = Stay | Up | Down | Configure

  datatype Outcome = Reconciled(direction: Direction, replaced: nat) | RuntimeFailed

  predicate Safe(removals: seq<Removal>) {
    forall k :: 0 <= k < |removals| ==> removals[k].occupants == {}
  }

  /** Only the scale-down candidate of an oversized fleet, or a listed instance whose port is closed,
      is ever removed. */
  predicate Justified(removal: Removal, candidate: Option<Id>, oversized: bool,
                      relisted: seq<RuntimeInstance>, open: set<Id>)
  {
    match removal.path
    case DownPath => candidate == Some(removal.instance) && oversized
    case ReplacePath =>
      removal.instance !in open && exists n :: 0 <= n < |relisted| && relisted[n].id == removal.instance
  }

  predicate Outdated(instance: RuntimeInstance, sessionCapacity: int) {
    instance.stale || instance.sessionCapacity != Some(sessionCapacity)
  }

  // ---- What a pass records ---------------------------------------------------------------------------------

  predicate Listed(instances: seq<RuntimeInstance>, i: Id) {
    exists n :: 0 <= n < |instances| && instances[n].id == i
  }

  /** The fleet is configured, and every listed instance has a capacity of at least one: its own, or where it
      reports none or zero the fleet's. */
  predicate Recordable(db: Db, provider: Id, instances: seq<RuntimeInstance>) {
    && provider in db.fleets
    && forall n :: 0 <= n < |instances| ==>
         var capacity := instances[n].sessionCapacity;
         if capacity.Some? && capacity.value != 0 then capacity.value >= 1 else db.fleets[provider].sessionCapacity >= 1
  }

  /** The table says what the pass has seen: a listed instance whose port was open is ready, unless it is being
      drained, and counts as seen until its time is up; one whose port was closed is not ready, and one that
      was not listed has stopped. */
  predicate Shown(db: Db, provider: Id, instances: seq<RuntimeInstance>, open: set<Id>, ttl: int) {
    && (forall i :: i in open && Listed(instances, i) ==> i in db.instances)
    && forall i :: i in db.instances && db.instances[i].provider == provider ==>
         if !Listed(instances, i) then db.instances[i].state == Stopped
         else if i in open then
           && (db.instances[i].state == Ready || db.instances[i].state == Draining)
           && db.instances[i].observationExpiresAt == db.clock + ttl
         else db.instances[i].state != Ready
  }

  /** The table takes the observations: the fleet is configured and no capacity is below one. */
  predicate Accepted(db: Db, provider: Id, seen: map<Id, Observation>) {
    provider in db.fleets && forall i :: i in seen ==> ObservedCapacity(db.fleets[provider], seen[i]) >= 1
  }

  /** Nothing but listed instances whose port was closed is replaced. */
  predicate Replaces(removals: seq<Removal>, instances: seq<RuntimeInstance>, open: set<Id>) {
    forall k :: 0 <= k < |removals| ==>
      removals[k].path == ReplacePath && removals[k].instance !in open && Listed(instances, removals[k].instance)
  }

  lemma OneMoreReplaced(before: seq<Removal>, after: seq<Removal>, from: nat, instances: seq<RuntimeInstance>, n: nat,
                        open: set<Id>)
    requires from <= |before| && Replaces(before[from..], instances, open)
    requires n < |instances| && instances[n].id !in open
    requires after == before + [Removal(instances[n].id, ReplacePath, {})]
    ensures Replaces(after[from..], instances, open)
  {
    assert after[from..] == before[from..] + [Removal(instances[n].id, ReplacePath, {})];
  }

  lemma ReplacedAreJustified(removals: seq<Removal>, candidate: Option<Id>, oversized: bool,
                             instances: seq<RuntimeInstance>, open: set<Id>)
    requires Replaces(removals, instances, open)
    ensures forall k :: 0 <= k < |removals| ==> Justified(removals[k], candidate, oversized, instances, open)
  {
  }

  predicate SeenOnce(o: Observation, instances: seq<RuntimeInstance>, i: Id) {
    exists n :: 0 <= n < |instances| && instances[n].id == i && instances[n].sessionCapacity == o.sessionCapacity
  }

  /** What was seen of the instances passed so far. */
  predicate Sees(seen: map<Id, Observation>, instances: seq<RuntimeInstance>, open: set<Id>) {
    && (forall i :: i in seen ==>
          SeenOnce(seen[i], instances, i) && seen[i].state in {Ready, Starting, Unhealthy}
          && (seen[i].state == Ready <==> i in open))
    && (forall n :: 0 <= n < |instances| && instances[n].id in open ==> instances[n].id in seen)
  }

  lemma SeesMore(seen: map<Id, Observation>, passed: seq<RuntimeInstance>, instance: RuntimeInstance, open: set<Id>,
                 observed: Option<InstanceState>)
    requires Sees(seen, passed, open) && (observed == Some(Ready) <==> instance.id in open)
    requires observed.None? || observed.value in {Ready, Starting, Unhealthy}
    ensures Sees(if observed.Some? then seen[instance.id := Observation(observed.value, instance.sessionCapacity)]
                 else seen, passed + [instance], open)
  {
    var more, all := Observation(if observed.Some? then observed.value else Ready, instance.sessionCapacity),
                     passed + [instance];
    assert all[|passed|] == instance && SeenOnce(more, all, instance.id);
    forall i | i in seen
      ensures SeenOnce(seen[i], all, i)
    {
      var n :| 0 <= n < |passed| && passed[n].id == i && passed[n].sessionCapacity == seen[i].sessionCapacity;
      assert all[n] == passed[n];
    }
  }

  lemma RecordedIsShown(before: Db, db: Db, provider: Id, instances: seq<RuntimeInstance>, open: set<Id>,
                        seen: map<Id, Observation>, ttl: int)
    requires Sees(seen, instances, open) && Recordable(before, provider, instances)
    requires db == if Accepted(before, provider, seen) then Observe(before, provider, seen, ttl, before.clock)
                   else before
    ensures Shown(db, provider, instances, open, ttl)
  {
    forall i | i in seen
      ensures Listed(instances, i) && ObservedCapacity(before.fleets[provider], seen[i]) >= 1
    {
      var n :| 0 <= n < |instances| && instances[n].id == i && instances[n].sessionCapacity == seen[i].sessionCapacity;
    }
    assert Accepted(before, provider, seen);
  }

  class Reconciler {
    const provider: Id
    const startupTimeout: int
    const ttl: int
    var db: Db
    var unhealthySince: map<Id, int>
    var removals: seq<Removal>

    constructor (provider: Id, startupTimeout: int, ttl: int, db: Db)
      requires Inv(db)
      ensures this.provider == provider && this.db == db && removals == [] && unhealthySince == map[]
    {
      this.provider, this.startupTimeout, this.ttl := provider, startupTimeout, ttl;
      this.db := db;
      unhealthySince, removals := map[], [];
    }

    /** An await: any number of transactions of others may run, and nothing else is known.  The body
        does nothing, callers learn only the contract. */
    method Await()
      modifies this`db
      ensures exists states, ops :: Interferes(states, ops, provider, old(db), db)
    {
      assert Interferes([db], [], provider, db, db);
    }

    /** What the transactions of others keep of the tables. */
    method AwaitOthers()
      requires Inv(db)
      modifies this`db
      ensures Inv(db) && old(db).clock <= db.clock
    {
      ghost var before := db;
      Await();
      ghost var states, ops :| Interferes(states, ops, provider, before, db);
      InterferenceKeeps(states, ops, provider, |states| - 1);
    }

    /** An await between the drain and the removal: the instance is still drained afterwards. */
    method AwaitDrained(i: Id)
      requires Inv(db) && Drained(db, i) && db.instances[i].provider == provider
      modifies this`db
      ensures Inv(db) && old(db).clock <= db.clock
      ensures Drained(db, i) && db.instances[i] == old(db).instances[i]
    {
      ghost var before := db;
      Await();
      ghost var states, ops :| Interferes(states, ops, provider, before, db);
      InterferenceKeeps(states, ops, provider, |states| - 1);
      DrainedForGood(states, ops, i, |states| - 1);
    }

    /** Drains one instance and checks, in the same transaction, that nobody is on it. */
    method Prepare(i: Id) returns (safe: bool)
      requires Inv(db)
      modifies this`db
      ensures Inv(db) && old(db).clock <= db.clock
      ensures safe ==> Drained(db, i) && db.instances[i].provider == provider
      ensures safe == PrepareScaleDown(old(db), provider, i, db.clock).0
      ensures db == PrepareScaleDown(old(db), provider, i, db.clock).1.(clock := db.clock)
    {
      var reading: int := *;
      var now := Max(db.clock, reading);
      ghost var op := DoPrepare(provider, i, now);
      StepInv(db, op);
      if PrepareScaleDown(db, provider, i, now).0 {
        PreparedIsDrained(db, provider, i, now);
      }
      safe := PrepareScaleDown(db, provider, i, now).0;
      db := PrepareScaleDown(db, provider, i, now).1.(clock := now);
    }

    method CancelDrains()
      requires Inv(db)
      modifies this`db
      ensures Inv(db) && db == CancelScaleDown(old(db), provider)
    {
      StepInv(db, DoCancel(provider, db.clock));
      db := CancelScaleDown(db, provider);
    }

    /** Asks the runtime to remove an instance. */
    method Remove(i: Id, path: Path)
      modifies this`removals
      ensures removals == old(removals) + [Removal(i, path, Occupants(db, i, db.clock))]
    {
      removals := removals + [Removal(i, path, Occupants(db, i, db.clock))];
    }

    /** The scaling half: one instance less if there are too many and the candidate drains, one more if there
        are too few, and a new configuration if the number is right, some instance is outdated and nobody
        asks for one.  Growing and configuring take back every drain. */
    method Scale(listed: seq<RuntimeInstance>, candidate: Option<Id>, desired: int, demand: int,
                 sessionCapacity: int, scaleFails: bool)
      returns (direction: Direction, failed: bool)
      requires Inv(db)
      modifies this`db, this`removals
      ensures Inv(db)
      ensures direction.Down? ==>
                |listed| > desired && candidate.Some?
                && exists now :: old(db).clock <= now && PrepareScaleDown(old(db), provider, candidate.value, now).0
      ensures |listed| > desired && direction.Stay? ==>
                candidate.None? || !PrepareScaleDown(old(db), provider, candidate.value, db.clock).0
      ensures direction.Up? <==> |listed| < desired
      ensures direction.Configure? <==>
                |listed| == desired && demand == 0
                && exists k :: 0 <= k < |listed|
                     && (listed[k].stale || listed[k].sessionCapacity != Some(sessionCapacity))
      ensures direction.Up? || direction.Configure? ==> db == CancelScaleDown(old(db), provider)
      ensures failed <==> !direction.Stay? && scaleFails
      ensures removals == if direction.Down?
                          then old(removals) + [Removal(candidate.value, DownPath, {})]
                          else old(removals)
    {
      direction, failed := Stay, false;
      var capacityChanged := exists k :: 0 <= k < |listed| && Outdated(listed[k], sessionCapacity);
      var reconfigure := capacityChanged && demand == 0;
      if |listed| != desired || reconfigure {
        if |listed| == desired {
          direction := Configure;
        } else if |listed| < desired {
          direction := Up;
        } else {
          direction := Down;
        }
        if direction.Down? {
          var safe := false;
          ghost var now := db.clock;
          if candidate.Some? {
            safe := Prepare(candidate.value);
            now := db.clock;
          }
          if !safe {
            direction := Stay;
          }
        } else {
          CancelDrains();
        }
        if direction.Down? {
          AwaitDrained(candidate.value);
          Remove(candidate.value, DownPath);
        }
        failed := direction != Stay && scaleFails;
      }
    }

    /** The instance has been unhealthy for the whole startup timeout. */
    predicate StartupExpired(unhealthy: map<Id, int>, i: Id, now: int) {
      now - (if i in unhealthy then unhealthy[i] else now) >= startupTimeout
    }

    /** One pass over one instance: replace it when it has been unhealthy too long and is empty. */
    method Tend(instance: RuntimeInstance, ready: bool, now: int, removeFails: bool)
      returns (observed: Option<InstanceState>, failed: bool)
      requires Inv(db)
      modifies this`db, this`removals, this`unhealthySince
      ensures Inv(db)
      ensures observed.None? <==>
                removals == old(removals) + [Removal(instance.id, ReplacePath, {})]
      ensures observed.Some? ==> removals == old(removals) && !failed
      ensures ready <==> observed == Some(Ready)
      ensures ready ==> instance.id !in unhealthySince
      ensures observed == Some(Starting) <==> !ready && !StartupExpired(old(unhealthySince), instance.id, now)
      ensures observed.None? || observed == Some(Unhealthy)
         <==> !ready && StartupExpired(old(unhealthySince), instance.id, now)
      ensures observed == Some(Unhealthy) ==> !PrepareScaleDown(old(db), provider, instance.id, db.clock).0
      ensures observed.None? || observed.value in {Ready, Starting, Unhealthy}
      ensures unhealthySince - {instance.id} == old(unhealthySince) - {instance.id}
      ensures instance.id in unhealthySince ==>
                unhealthySince[instance.id] ==
                  if instance.id in old(unhealthySince) then old(unhealthySince)[instance.id] else now
      ensures instance.id in unhealthySince <==> !ready && (observed.Some? || failed)
    {
      failed := false;
      if ready {
        unhealthySince := unhealthySince - {instance.id};
      } else if instance.id !in unhealthySince {
        unhealthySince := unhealthySince[instance.id := now];
      }
      var expired := instance.id in unhealthySince && now - unhealthySince[instance.id] >= startupTimeout;
      if expired {
        var safe := Prepare(instance.id);
        if !safe {
          observed := Some(Unhealthy);
          return;
        }
        AwaitDrained(instance.id);
        Remove(instance.id, ReplacePath);
        observed, failed := None, removeFails;
        if !failed {
          unhealthySince := unhealthySince - {instance.id};
        }
        return;
      }
      observed := if ready then Some(Ready) else Some(Starting);
    }

    /** The pass over the listed instances, up to the first removal that fails. */
    method TendAll(relisted: seq<RuntimeInstance>, open: set<Id>, nows: seq<int>, stuck: set<Id>)
      returns (seen: map<Id, Observation>, replaced: nat, broken: bool)
      requires Inv(db) && Safe(removals) && |nows| == |relisted|
      modifies this`db, this`removals, this`unhealthySince
      ensures Inv(db) && Safe(removals) && old(removals) <= removals
      ensures Replaces(removals[|old(removals)|..], relisted, open)
      ensures !broken ==> |removals| == |old(removals)| + replaced && Sees(seen, relisted, open)
    {
      seen, replaced, broken := map[], 0, false;
      for n := 0 to |relisted|
        invariant Inv(db) && Safe(removals) && old(removals) <= removals
        invariant Replaces(removals[|old(removals)|..], relisted, open)
        invariant |removals| == |old(removals)| + replaced && Sees(seen, relisted[..n], open)
      {
        AwaitOthers();
        ghost var before := removals;
        var observed;
        observed, broken := Tend(relisted[n], relisted[n].id in open, nows[n], relisted[n].id in stuck);
        if observed.None? {
          OneMoreReplaced(before, removals, |old(removals)|, relisted, n, open);
        }
        if broken {
          return;
        }
        SeesMore(seen, relisted[..n], relisted[n], open, observed);
        assert relisted[..n + 1] == relisted[..n] + [relisted[n]];
        if observed.Some? {
          seen := seen[relisted[n].id := Observation(observed.value, relisted[n].sessionCapacity)];
        } else {
          replaced := replaced + 1;
        }
      }
      assert relisted[..|relisted|] == relisted;
    }

    /** One reconciliation.  What the runtime answers, and when, is arbitrary: the instances it lists
        before and after scaling, its scale-down candidate, which ports are open, and which of its
        operations fail.  Whatever happens, no instance is removed with a live assignment on it; and when it
        comes to an end the table says of each instance what the pass has seen. */
    method Reconcile(listed: seq<RuntimeInstance>, candidate: Option<Id>, desired: int, demand: int,
                     sessionCapacity: int, scaleFails: bool,
                     relisted: seq<RuntimeInstance>, open: set<Id>, nows: seq<int>, stuck: set<Id>)
      returns (outcome: Outcome)
      requires Inv(db) && Safe(removals) && |nows| == |relisted|
      modifies this`db, this`removals, this`unhealthySince
      ensures Inv(db) && Safe(removals) && old(removals) <= removals
      ensures forall k :: |old(removals)| <= k < |removals| ==>
                Justified(removals[k], candidate, |listed| > desired, relisted, open)
      ensures outcome.Reconciled? ==>
                |removals| == |old(removals)| + outcome.replaced + if outcome.direction.Down? then 1 else 0
      ensures outcome.Reconciled? && Recordable(db, provider, relisted) ==> Shown(db, provider, relisted, open, ttl)
    {
      var direction, failed := Scale(listed, candidate, desired, demand, sessionCapacity, scaleFails);
      if failed {
        outcome := RuntimeFailed;
        return;
      }
      AwaitOthers();
      var live := set n | 0 <= n < |relisted| :: relisted[n].id;
      unhealthySince := map i | i in unhealthySince && i in live :: unhealthySince[i];
      ghost var scaled := removals;
      var seen, replaced, broken := TendAll(relisted, open, nows, stuck);
      ReplacedAreJustified(removals[|scaled|..], candidate, |listed| > desired, relisted, open);
      assert forall k :: |scaled| <= k < |removals| ==> removals[k] == removals[|scaled|..][k - |scaled|];
      if broken {
        outcome := RuntimeFailed;
        return;
      }
      AwaitOthers();
      RecordPass(relisted, open, seen);
      outcome := Reconciled(direction, replaced);
    }

    method RecordPass(relisted: seq<RuntimeInstance>, open: set<Id>, seen: map<Id, Observation>)
      requires Inv(db) && Sees(seen, relisted, open)
      modifies this`db
      ensures Inv(db)
      ensures Recordable(db, provider, relisted) ==> Shown(db, provider, relisted, open, ttl)
    {
      ghost var before := db;
      RecordObservations(seen);
      if Recordable(before, provider, relisted) {
        RecordedIsShown(before, db, provider, relisted, open, seen, ttl);
      }
    }

    /** Writes what was observed; the table refuses a capacity below one, and then nothing changes. */
    method RecordObservations(seen: map<Id, Observation>)
      requires Inv(db)
      modifies this`db
      ensures Inv(db)
      ensures db == if Accepted(old(db), provider, seen) then Observe(old(db), provider, seen, ttl, old(db).clock)
                    else old(db)
    {
      if Accepted(db, provider, seen) {
        StepInv(db, DoObserve(provider, seen, ttl, db.clock));
        db := Observe(db, provider, seen, ttl, db.clock);
      }
    }
  }
}
