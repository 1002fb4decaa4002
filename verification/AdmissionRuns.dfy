/** Runs of the gateway's transactions: slot bounds, fairness, and a lifecycle that leaks nothing. */
module AdmissionRuns {
  import opened Common
  import opened Usage
  import opened Admission
  import opened AdmissionInvariant
  import opened AdmissionSteps
  import opened AdmissionTransactions

  function Empty(clock: int): Db {
    Db(map[], map[], map[], map[], map[], map[], 0, [], clock)
  }

  /** states[i] is what ops[..i] made of empty tables. */
  ghost predicate IsRun(states: seq<Db>, ops: seq<Op>) {
    && |states| == |ops| + 1
    && states[0] == Empty(states[0].clock)
    && forall i {:trigger ops[i]} :: 0 <= i < |ops| ==>
         Enabled(states[i], ops[i]) && states[i + 1] == Step(states[i], ops[i])
  }

  lemma EmptyInv(clock: int)
    ensures Inv(Empty(clock))
  {
    forall s
      ensures AtMostTwo(Empty(clock), s)
    {
      assert LiveAttemptsOf(Empty(clock), s) == {};
    }
  }

  lemma {:induction false} RunInv(states: seq<Db>, ops: seq<Op>, n: nat)
    requires IsRun(states, ops) && n < |states|
    ensures Inv(states[n])
  {
    if n == 0 {
      EmptyInv(states[0].clock);
    } else {
      RunInv(states, ops, n - 1);
      assert Enabled(states[n - 1], ops[n - 1]);
      StepInv(states[n - 1], ops[n - 1]);
    }
  }

  lemma RunAdvances(states: seq<Db>, ops: seq<Op>, n: nat)
    requires IsRun(states, ops) && n < |ops|
    ensures Advances(states[n], states[n + 1], ops[n].now)
    ensures states[n].clock <= ops[n].now == states[n + 1].clock
  {
    RunInv(states, ops, n);
    assert Enabled(states[n], ops[n]);
    StepAdvances(states[n], ops[n]);
  }

  // ---- Lifecycle and log ---------------------------------------------------------------------------------

  /** In every reachable state nothing leaks: an ended session has no live attempt and a session has at
      most two; ended rows are logged as ended exactly once, connections at most once, and nothing of a
      session is logged after its end. */
  lemma NothingLeaks(states: seq<Db>, ops: seq<Op>, n: nat, s: Id, a: Id)
    requires IsRun(states, ops) && n < |states|
    ensures var db := states[n];
            && (s in db.sessions && Terminal(db.sessions[s].state) ==> LiveAttemptsOf(db, s) == {})
            && |LiveAttemptsOf(db, s)| <= 2
            && (a in db.attempts ==>
                  && Count(db.log, EndsOf(a)) == (if LiveAttemptState(db.attempts[a].state) then 0 else 1)
                  && Count(db.log, ConnectsOf(a)) == (if db.attempts[a].activeAt.Some? then 1 else 0))
            && (s in db.sessions ==>
                  Count(db.log, EndOfSession(s)) == (if LiveState(db.sessions[s].state) then 0 else 1))
            && (forall i, j :: 0 <= i < j < |db.log| && db.log[i].session == s && EndsSession(db.log[i]) ==>
                  db.log[j].session != s)
  {
    RunInv(states, ops, n);
    var db := states[n];
    assert AtMostTwo(db, s) && AttemptCounts(db, a) && SessionCounts(db, s);
    if s in db.sessions && Terminal(db.sessions[s].state) {
      TerminalSessionHasNoLive(db, s);
    }
    if a in db.attempts {
      assert AttemptOk(db, db.attempts[a]);
    }
  }

  /** Terminal states are absorbing: an ended row never changes again. */
  lemma {:induction false} EndedRowsAreFinal(states: seq<Db>, ops: seq<Op>, m: nat, n: nat, s: Id, a: Id)
    requires IsRun(states, ops) && m <= n < |states|
    ensures s in states[m].sessions ==>
              s in states[n].sessions
              && (Terminal(states[m].sessions[s].state) ==> states[n].sessions[s] == states[m].sessions[s])
    ensures a in states[m].attempts ==>
              a in states[n].attempts
              && (TerminalAttempt(states[m].attempts[a].state) ==> states[n].attempts[a] == states[m].attempts[a])
    ensures states[m].log <= states[n].log
  {
    if m < n {
      EndedRowsAreFinal(states, ops, m, n - 1, s, a);
      RunAdvances(states, ops, n - 1);
    }
  }

  /** An expired lease is never revived: a session without a live lease at some time has none later. */
  lemma {:induction false} LeasesStayExpired(states: seq<Db>, ops: seq<Op>, m: nat, n: nat, s: Id)
    requires IsRun(states, ops) && m <= n < |states|
    requires s in states[m].sessions && !LeaseLive(states[m], s, states[m].clock)
    ensures s in states[n].sessions && !LeaseLive(states[n], s, states[n].clock)
  {
    if m < n {
      LeasesStayExpired(states, ops, m, n - 1, s);
      RunAdvances(states, ops, n - 1);
      assert SessionAdvances(states[n - 1].sessions[s], states[n].sessions[s], states[n].clock);
    }
  }

  /** That needs the clock to be read at the step.  With a reading from before it had the row, a heartbeat
      revives an expired lease exactly if the lease was live at the reading and the new one is not over
      yet. */
  lemma EarlyReadingRevives(db: Db, s: Id, owner: Id, token: Id, duration: int, read: int)
    requires s in db.sessions && read <= db.clock && !LeaseLive(db, s, db.clock)
    ensures LeaseLive(Heartbeat(db, s, owner, token, duration, read), s, db.clock) <==>
      Owned(db, s, owner, token) && LeaseLive(db, s, read) && read + duration > db.clock
  {
  }

  /** Browser time of a finished attempt never exceeds the time it is charged for, in every run. */
  lemma FinishedIsChargeable(states: seq<Db>, ops: seq<Op>, n: nat, a: Id)
    requires IsRun(states, ops) && n < |states| && a in states[n].attempts
    requires TerminalAttempt(states[n].attempts[a].state)
    ensures states[n].attempts[a].finishedAt.Some? && Chargeable(states[n].attempts[a].usage)
  {
    RunInv(states, ops, n);
    assert AttemptOk(states[n], states[n].attempts[a]);
  }

  // ---- Slots ---------------------------------------------------------------------------------------------

  lemma OccupantsShrink(db: Db, i: Id, earlier: int, later: int)
    requires earlier <= later
    ensures Occupants(db, i, later) <= Occupants(db, i, earlier)
  {
  }

  /** A step adds no occupant of an instance but the attempt it grants there. */
  lemma OccupantsStep(db: Db, after: Db, i: Id, now: int, granted: Option<Id>)
    requires AttemptsOk(db) && Advances(db, after, now) && HoldersWithin(db, after, granted)
    ensures Occupants(after, i, now) <= Occupants(db, i, now) + (if granted.Some? then {granted.value} else {})
    ensures granted.Some? && granted.value in after.attempts && after.attempts[granted.value].instance != Some(i) ==>
              Occupants(after, i, now) <= Occupants(db, i, now)
  {
    forall a | a in Occupants(after, i, now) && granted != Some(a)
      ensures a in Occupants(db, i, now)
    {
      assert AttemptOk(db, db.attempts[a]);
      var s := db.attempts[a].session;
      assert SessionAdvances(db.sessions[s], after.sessions[s], now);
    }
  }

  /** The sweep takes no occupant away: those it ends had no live lease. */
  lemma SweptOccupants(db: Db, provider: Id, rows: seq<Id>, i: Id, now: int)
    requires Lists(rows, StaleAttempts(db, provider, now))
    ensures LiveRows(db, rows)
    ensures Occupants(Swept(db, rows, now), i, now) == Occupants(db, i, now)
  {
    SweptFrame(db, provider, rows, now);
    var swept := Swept(db, rows, now);
    forall a | a in db.attempts
      ensures a in Occupants(swept, i, now) <==> a in Occupants(db, i, now)
    {
      if a !in StaleAttempts(db, provider, now) {
        assert swept.attempts[a] == db.attempts[a];
      }
    }
  }

  /** A slot is only granted on an instance that is ready, freshly observed and has one free. */
  lemma GrantFindsRoom(db: Db, op: Op, a: Id, i: Id)
    requires Enabled(db, op) && Granted(db, op) == Some(a)
    requires a in Step(db, op).attempts && Step(db, op).attempts[a].instance == Some(i)
    ensures i in db.instances && db.instances[i].state.Ready? && db.instances[i].observationExpiresAt > op.now
    ensures |Occupants(db, i, op.now)| < db.instances[i].capacity
    ensures Step(db, op).instances == db.instances
  {
    SweptOccupants(db, op.provider, op.rows, i, op.now);
    assert op.chosen == Some(i);
  }

  predicate SlotBound(db: Db, i: Id) {
    i in db.instances ==> |Occupants(db, i, db.clock)| <= db.instances[i].capacity
  }

  /** An observation that lowers an instance's capacity. */
  ghost predicate Lowers(db: Db, op: Op, i: Id)
    requires Enabled(db, op)
  {
    op.DoObserve? && i in db.instances && Step(db, op).instances[i].capacity < db.instances[i].capacity
  }

  /** Session and attempt transactions leave the fleet's tables alone. */
  lemma TablesUntouched(db: Db, op: Op)
    requires Enabled(db, op) && !FleetOp(op)
    ensures Step(db, op).instances == db.instances && Step(db, op).fleets == db.fleets
            && Step(db, op).limits == db.limits
  {
  }

  lemma CapacityStands(db: Db, op: Op, i: Id)
    requires Enabled(db, op) && !Lowers(db, op, i) && i in Step(db, op).instances
    ensures if i in db.instances then db.instances[i].capacity <= Step(db, op).instances[i].capacity
            else Step(db, op).instances[i].capacity >= 1
  {
    if !FleetOp(op) {
      TablesUntouched(db, op);
    }
  }

  lemma NoInstanceNoOccupants(db: Db, i: Id, now: int)
    requires AttemptsOk(db) && i !in db.instances
    ensures Occupants(db, i, now) == {}
  {
    forall a | a in db.attempts
      ensures a !in Occupants(db, i, now)
    {
      assert AttemptOk(db, db.attempts[a]);
    }
  }

  lemma SlotStep(db: Db, op: Op, i: Id)
    requires Inv(db) && Enabled(db, op) && SlotBound(db, i) && !Lowers(db, op, i)
    ensures SlotBound(Step(db, op), i)
  {
    var after, granted := Step(db, op), Granted(db, op);
    if i in after.instances {
      StepAdvances(db, op);
      OccupantsStep(db, after, i, op.now, granted);
      OccupantsShrink(db, i, db.clock, op.now);
      SubsetSize(Occupants(db, i, op.now), Occupants(db, i, db.clock));
      CapacityStands(db, op, i);
      if i !in db.instances {
        NoInstanceNoOccupants(db, i, op.now);
      }
      if granted.Some? && granted.value in after.attempts && after.attempts[granted.value].instance == Some(i) {
        GrantFindsRoom(db, op, granted.value, i);
        SubsetSize(Occupants(after, i, op.now), Occupants(db, i, op.now) + {granted.value});
      } else {
        assert Occupants(after, i, op.now) <= Occupants(db, i, op.now);
        SubsetSize(Occupants(after, i, op.now), Occupants(db, i, op.now));
      }
    }
  }

  /** Slots are never oversubscribed: in every run, as long as no observation lowers an instance's
      capacity, its live holders never exceed it, through expiry, replacement and draining. */
  lemma {:induction false} SlotsNeverOversubscribed(states: seq<Db>, ops: seq<Op>, n: nat, i: Id)
    requires IsRun(states, ops) && n < |states|
    requires forall m {:trigger ops[m]} :: 0 <= m < n ==> Enabled(states[m], ops[m]) && !Lowers(states[m], ops[m], i)
    ensures SlotBound(states[n], i)
  {
    if n > 0 {
      SlotsNeverOversubscribed(states, ops, n - 1, i);
      RunInv(states, ops, n - 1);
      assert !Lowers(states[n - 1], ops[n - 1], i);
      SlotStep(states[n - 1], ops[n - 1], i);
    }
  }

  /** What a provider without a managed fleet may hold; nothing while no limit is configured. */
  function Limit(db: Db, provider: Id): int {
    if provider in db.limits then Max(0, db.limits[provider].maxActive) else 0
  }

  /** A provider without a managed fleet stays within its external limit. */
  predicate LimitBound(db: Db, provider: Id) {
    provider !in db.fleets ==> |Holding(db, provider, db.clock)| <= Limit(db, provider)
  }

  /** A configuration that lowers the provider's limit, or that puts a managed provider under one. */
  ghost predicate LowersLimit(db: Db, op: Op, provider: Id)
    requires Enabled(db, op)
  {
    op.DoConfigure? && provider !in op.fleets
    && (provider in db.fleets || Limit(Step(db, op), provider) < Limit(db, provider))
  }

  lemma HoldingStep(db: Db, after: Db, provider: Id, now: int, granted: Option<Id>)
    requires AttemptsOk(db) && Advances(db, after, now) && HoldersWithin(db, after, granted)
    ensures Holding(after, provider, now)
         <= Holding(db, provider, now) + (if granted.Some? then {granted.value} else {})
    ensures granted.Some? && granted.value in after.attempts && after.attempts[granted.value].provider != provider ==>
              Holding(after, provider, now) <= Holding(db, provider, now)
  {
    forall a | a in Holding(after, provider, now) && granted != Some(a)
      ensures a in Holding(db, provider, now)
    {
      assert AttemptOk(db, db.attempts[a]);
      assert SessionAdvances(db.sessions[db.attempts[a].session], after.sessions[db.attempts[a].session], now);
    }
  }

  lemma SweptHolding(db: Db, provider: Id, rows: seq<Id>, now: int)
    requires Lists(rows, StaleAttempts(db, provider, now))
    ensures LiveRows(db, rows)
    ensures Holding(Swept(db, rows, now), provider, now) == Holding(db, provider, now)
  {
    SweptFrame(db, provider, rows, now);
    var swept := Swept(db, rows, now);
    forall a | a in db.attempts
      ensures a in Holding(swept, provider, now) <==> a in Holding(db, provider, now)
    {
      if a !in StaleAttempts(db, provider, now) {
        assert swept.attempts[a] == db.attempts[a];
      }
    }
  }

  lemma GrantWithinLimit(db: Db, op: Op, a: Id)
    requires Enabled(db, op) && Granted(db, op) == Some(a) && op.provider !in db.fleets
    ensures |Holding(db, op.provider, op.now)| < Limit(db, op.provider)
  {
    SweptHolding(db, op.provider, op.rows, op.now);
  }

  lemma GrantedProvider(db: Db, op: Op, a: Id)
    requires Enabled(db, op) && Granted(db, op) == Some(a)
    ensures a in Step(db, op).attempts && Step(db, op).attempts[a].provider == op.provider
  {
  }

  lemma HoldingShrinks(db: Db, provider: Id, now: int)
    requires db.clock <= now
    ensures |Holding(db, provider, now)| <= |Holding(db, provider, db.clock)|
  {
    assert Holding(db, provider, now) <= Holding(db, provider, db.clock);
    SubsetSize(Holding(db, provider, now), Holding(db, provider, db.clock));
  }

  lemma LimitStep(db: Db, op: Op, provider: Id)
    requires Inv(db) && Enabled(db, op) && !op.DoConfigure? && LimitBound(db, provider)
    ensures LimitBound(Step(db, op), provider)
  {
    var after, granted := Step(db, op), Granted(db, op);
    LimitsUntouched(db, op);
    if provider !in db.fleets {
      StepAdvances(db, op);
      HoldingStep(db, after, provider, op.now, granted);
      HoldingShrinks(db, provider, op.now);
      if granted.Some? {
        GrantedProvider(db, op, granted.value);
      }
      if granted.Some? && op.provider == provider {
        GrantWithinLimit(db, op, granted.value);
        SubsetSize(Holding(after, provider, op.now), Holding(db, provider, op.now) + {granted.value});
      } else {
        SubsetSize(Holding(after, provider, op.now), Holding(db, provider, op.now));
      }
    }
  }

  lemma ConfigureStep(db: Db, op: Op, provider: Id)
    requires Enabled(db, op) && op.DoConfigure? && !LowersLimit(db, op, provider) && LimitBound(db, provider)
    ensures LimitBound(Step(db, op), provider)
  {
    HoldingShrinks(db, provider, op.now);
    assert Holding(Step(db, op), provider, op.now) == Holding(db, provider, op.now);
  }

  /** A provider without a managed fleet never holds more than its limit, in every run in which no
      configuration lowers that limit; other configurations may come at any time. */
  lemma {:induction false} LimitsNeverExceeded(states: seq<Db>, ops: seq<Op>, n: nat, provider: Id)
    requires IsRun(states, ops) && n < |states|
    requires forall m {:trigger ops[m]} :: 0 <= m < n ==>
      Enabled(states[m], ops[m]) && !LowersLimit(states[m], ops[m], provider)
    ensures LimitBound(states[n], provider)
  {
    if n == 0 {
      assert Holding(states[0], provider, states[0].clock) == {};
    } else {
      LimitsNeverExceeded(states, ops, n - 1, provider);
      RunInv(states, ops, n - 1);
      assert !LowersLimit(states[n - 1], ops[n - 1], provider);
      if ops[n - 1].DoConfigure? {
        ConfigureStep(states[n - 1], ops[n - 1], provider);
      } else {
        LimitStep(states[n - 1], ops[n - 1], provider);
      }
    }
  }

  lemma LimitsUntouched(db: Db, op: Op)
    requires Enabled(db, op) && !op.DoConfigure?
    ensures Step(db, op).limits == db.limits && Step(db, op).fleets == db.fleets
  {
    if !FleetOp(op) {
      TablesUntouched(db, op);
    }
  }

  // ---- Sessions ------------------------------------------------------------------------------------------

  lemma LiveSessionsShrink(db: Db, after: Db, now: int)
    requires Advances(db, after, now) && after.sessions.Keys <= db.sessions.Keys
    ensures LiveSessions(after, now) <= LiveSessions(db, now)
  {
    forall s | s in LiveSessions(after, now)
      ensures s in LiveSessions(db, now)
    {
      assert SessionAdvances(db.sessions[s], after.sessions[s], now);
    }
  }

  lemma NoNewSession(db: Db, op: Op)
    requires Enabled(db, op) && !op.DoAdmit?
    ensures Step(db, op).sessions.Keys == db.sessions.Keys
  {
    match op
    case DoEnqueue(_, _, _, _, _, _, _, _, _, _) => NoNewSessionOfAttempt(db, op);
    case DoClaim(_, _, _, _, _, _, _, _) => NoNewSessionOfAttempt(db, op);
    case _ =>
  }

  lemma NoNewSessionOfAttempt(db: Db, op: Op)
    requires Enabled(db, op) && (op.DoEnqueue? || op.DoClaim?)
    ensures Step(db, op).sessions.Keys == db.sessions.Keys
  {
  }

  lemma LiveSessionsStep(db: Db, op: Op)
    requires Inv(db) && Enabled(db, op) && !op.DoAdmit?
    ensures LiveSessions(Step(db, op), op.now) <= LiveSessions(db, op.now)
  {
    StepAdvances(db, op);
    NoNewSession(db, op);
    LiveSessionsShrink(db, Step(db, op), op.now);
  }

  lemma SweepEndsOnly(db: Db, stale: seq<StaleSession>, now: int)
    requires Inv(db) && ListsStale(db, stale, now)
    ensures forall row :: row in stale ==> row.session in db.sessions && forall a :: a in row.live ==> a in db.attempts
    ensures |LiveSessions(ExpireSessions(db, stale, now), now)| <= |LiveSessions(db, now)|
  {
    StaleIsLive(db, stale, now);
    ExpireSessionsFrame(db, stale, now);
    var swept := ExpireSessions(db, stale, now);
    forall s | s in LiveSessions(swept, now)
      ensures s in LiveSessions(db, now)
    {
      assert SessionAdvances(db.sessions[s], swept.sessions[s], now);
    }
    SubsetSize(LiveSessions(swept, now), LiveSessions(db, now));
  }

  lemma AdmitStep(db: Db, op: Op)
    requires Inv(db) && Enabled(db, op) && op.DoAdmit?
    ensures var after := Step(db, op);
            |LiveSessions(after, op.now)| <= Max(op.maxActive, |LiveSessions(db, op.now)|)
  {
    SweepEndsOnly(db, op.stale, op.now);
    var swept, after := ExpireSessions(db, op.stale, op.now), Step(db, op);
    assert LiveSessions(after, op.now) <= LiveSessions(swept, op.now) + {op.s};
    SubsetSize(LiveSessions(after, op.now), LiveSessions(swept, op.now) + {op.s});
    if |LiveSessions(swept, op.now)| >= op.maxActive {
      assert LiveSessions(after, op.now) <= LiveSessions(swept, op.now);
      SubsetSize(LiveSessions(after, op.now), LiveSessions(swept, op.now));
    }
  }

  /** Sessions with a live lease never exceed the greatest limit any admission was given. */
  lemma {:induction false} SessionsBounded(states: seq<Db>, ops: seq<Op>, n: nat, limit: nat)
    requires IsRun(states, ops) && n < |states|
    requires forall m {:trigger ops[m]} :: 0 <= m < n && ops[m].DoAdmit? ==> ops[m].maxActive <= limit
    ensures |LiveSessions(states[n], states[n].clock)| <= limit
  {
    if n > 0 {
      SessionsBounded(states, ops, n - 1, limit);
      var db, op := states[n - 1], ops[n - 1];
      RunInv(states, ops, n - 1);
      assert LiveSessions(db, op.now) <= LiveSessions(db, db.clock);
      SubsetSize(LiveSessions(db, op.now), LiveSessions(db, db.clock));
      if op.DoAdmit? {
        AdmitStep(db, op);
      } else {
        LiveSessionsStep(db, op);
        SubsetSize(LiveSessions(Step(db, op), op.now), LiveSessions(db, op.now));
      }
    } else {
      assert LiveSessions(states[0], states[0].clock) == {};
    }
  }

  // ---- First come, first served ------------------------------------------------------------------------------

  lemma SweptWaiting(db: Db, provider: Id, rows: seq<Id>, now: int)
    requires Lists(rows, StaleAttempts(db, provider, now))
    ensures LiveRows(db, rows)
    ensures Waiting(Swept(db, rows, now), provider, now) == Waiting(db, provider, now)
  {
    SweptFrame(db, provider, rows, now);
    var swept := Swept(db, rows, now);
    forall a | a in db.attempts
      ensures a in Waiting(swept, provider, now) <==> a in Waiting(db, provider, now)
    {
      if a !in StaleAttempts(db, provider, now) {
        assert swept.attempts[a] == db.attempts[a];
      }
    }
  }

  /** A grant goes to the head of the queue, or past an empty one. */
  lemma GrantServesHead(db: Db, op: Op, b: Id)
    requires Enabled(db, op) && Granted(db, op) == Some(b)
    ensures b in Step(db, op).attempts && Step(db, op).attempts[b].state.Acquiring?
    ensures Step(db, op).attempts[b].provider == op.provider
    ensures Step(db, op).sessions == db.sessions
    ensures if op.DoEnqueue? then Waiting(db, op.provider, op.now) == {} && b !in db.attempts
            else b in Waiting(db, op.provider, op.now)
                 && forall a :: a in Waiting(db, op.provider, op.now) ==>
                      db.attempts[b].queueSequence <= db.attempts[a].queueSequence
  {
    SweptWaiting(db, op.provider, op.rows, op.now);
    SweptFrame(db, op.provider, op.rows, op.now);
    if op.DoClaim? {
      assert b in Waiting(Swept(db, op.rows, op.now), op.provider, op.now);
      assert b !in StaleAttempts(db, op.provider, op.now);
      forall a | a in Waiting(db, op.provider, op.now)
        ensures db.attempts[b].queueSequence <= db.attempts[a].queueSequence
      {
        assert a !in StaleAttempts(db, op.provider, op.now);
      }
    }
  }

  /** Attempts of a provider that wait for a slot after a step waited before, or have just queued. */
  lemma WaitingStep(db: Db, op: Op, provider: Id)
    requires Inv(db) && Enabled(db, op)
    ensures forall a :: a in Waiting(Step(db, op), provider, op.now) ==>
              a in Waiting(db, provider, op.now)
              || (a !in db.attempts && Step(db, op).attempts[a].queueSequence >= db.nextSequence)
  {
    StepAdvances(db, op);
    var after := Step(db, op);
    forall a | a in Waiting(after, provider, op.now) && a in db.attempts
      ensures a in Waiting(db, provider, op.now)
    {
      assert AttemptOk(db, db.attempts[a]);
      assert RowAdvances(db.attempts[a], after.attempts[a]);
      var s := db.attempts[a].session;
      assert SessionAdvances(db.sessions[s], after.sessions[s], op.now);
    }
  }

  /** No overtaking: when b gets its slot, every attempt of the provider that queued before b has
      already had one, has ended, or belongs to a session without a live lease. */
  lemma NoOvertaking(db: Db, op: Op, b: Id, a: Id)
    requires Inv(db) && Enabled(db, op) && Granted(db, op) == Some(b)
    requires a in db.attempts && db.attempts[a].provider == op.provider
    ensures b in Step(db, op).attempts
    ensures db.attempts[a].queueSequence < Step(db, op).attempts[b].queueSequence ==>
              || db.attempts[a].acquiringAt.Some?
              || TerminalAttempt(db.attempts[a].state)
              || !LeaseLive(db, db.attempts[a].session, op.now)
  {
    GrantServesHead(db, op, b);
    StepAdvances(db, op);
    assert AttemptOk(db, db.attempts[a]);
    if b in db.attempts {
      assert RowAdvances(db.attempts[b], Step(db, op).attempts[b]);
    }
    if db.attempts[a].state.Queued? && LeaseLive(db, db.attempts[a].session, op.now) {
      assert a in Waiting(db, op.provider, op.now);
    }
  }

  /** The attempts that wait in front of w. */
  function Ahead(db: Db, w: Id, now: int): set<Id>
    requires w in db.attempts
  {
    set a | a in Waiting(db, db.attempts[w].provider, now)
            && db.attempts[a].queueSequence < db.attempts[w].queueSequence
  }

  /** Progress: while w waits, the number of attempts in front of it never grows, and every grant of
      its provider brings it down. */
  lemma QueueOnlyAdvances(db: Db, op: Op, w: Id)
    requires Inv(db) && Enabled(db, op) && w in db.attempts
    requires w in Waiting(Step(db, op), db.attempts[w].provider, op.now)
    ensures var n, m := |Ahead(Step(db, op), w, op.now)|, |Ahead(db, w, db.clock)|;
            && n <= m
            && (Granted(db, op).Some? && op.provider == db.attempts[w].provider ==> n < m)
  {
    var after, provider := Step(db, op), db.attempts[w].provider;
    StepAdvances(db, op);
    WaitingStep(db, op, provider);
    assert AttemptOk(db, db.attempts[w]);
    assert RowAdvances(db.attempts[w], after.attempts[w]);
    forall a | a in Ahead(after, w, op.now)
      ensures a in Ahead(db, w, op.now)
    {
      if a in db.attempts {
        assert RowAdvances(db.attempts[a], after.attempts[a]);
      }
    }
    assert Ahead(db, w, op.now) <= Ahead(db, w, db.clock);
    SubsetSize(Ahead(after, w, op.now), Ahead(db, w, db.clock));
    if Granted(db, op).Some? && op.provider == provider {
      var b := Granted(db, op).value;
      GrantServesHead(db, op, b);
      assert b in Waiting(db, provider, op.now);
      assert b in Ahead(db, w, op.now) && b !in Ahead(after, w, op.now);
      StrictSubsetSize(Ahead(after, w, op.now), Ahead(db, w, db.clock), b);
    }
  }

  /** In every run: when an attempt gets its slot, every attempt of the provider that queued before it has
      already had one, has ended, or belongs to a session without a live lease. */
  lemma NeverOvertaken(states: seq<Db>, ops: seq<Op>, n: nat, b: Id, a: Id)
    requires IsRun(states, ops) && n < |ops| && Enabled(states[n], ops[n]) && Granted(states[n], ops[n]) == Some(b)
    requires a in states[n].attempts && states[n].attempts[a].provider == ops[n].provider
    ensures b in states[n + 1].attempts
    ensures states[n].attempts[a].queueSequence < states[n + 1].attempts[b].queueSequence ==>
              || states[n].attempts[a].acquiringAt.Some?
              || TerminalAttempt(states[n].attempts[a].state)
              || !LeaseLive(states[n], states[n].attempts[a].session, ops[n].now)
  {
    RunInv(states, ops, n);
    NoOvertaking(states[n], ops[n], b, a);
  }

  /** Step n is a grant of the provider. */
  ghost predicate GrantsAt(states: seq<Db>, ops: seq<Op>, provider: Id, n: nat)
    requires IsRun(states, ops) && n < |ops|
  {
    assert Enabled(states[n], ops[n]);
    Granted(states[n], ops[n]).Some? && ops[n].provider == provider
  }

  /** Which steps from m up to n are grants of the provider. */
  ghost function Grants(states: seq<Db>, ops: seq<Op>, provider: Id, m: nat, n: nat): (r: seq<bool>)
    requires IsRun(states, ops) && m <= n < |states|
    ensures |r| == n - m
  {
    seq(n - m, k requires 0 <= k < n - m => GrantsAt(states, ops, provider, m + k))
  }

  function HowMany(flags: seq<bool>): nat {
    if flags == [] then 0 else HowMany(flags[..|flags| - 1]) + if flags[|flags| - 1] then 1 else 0
  }

  predicate WaitsIn(db: Db, w: Id, provider: Id) {
    w in Waiting(db, provider, db.clock)
  }

  /** w waits from step m up to step n. */
  predicate Waits(states: seq<Db>, w: Id, provider: Id, m: nat, n: nat) {
    && m <= n < |states|
    && forall k :: m <= k <= n ==> WaitsIn(states[k], w, provider)
  }

  /** How many wait in front of w. */
  function AheadOf(db: Db, w: Id): nat {
    if w in db.attempts then |Ahead(db, w, db.clock)| else 0
  }

  lemma AheadInRun(states: seq<Db>, ops: seq<Op>, w: Id, provider: Id, n: nat)
    requires IsRun(states, ops) && n < |ops| && Waits(states, w, provider, n, n + 1)
    ensures w in states[n].attempts && w in states[n + 1].attempts
    ensures AheadOf(states[n + 1], w) <= AheadOf(states[n], w)
    ensures GrantsAt(states, ops, provider, n) ==> AheadOf(states[n + 1], w) < AheadOf(states[n], w)
  {
    RunInv(states, ops, n);
    assert Enabled(states[n], ops[n]);
    assert WaitsIn(states[n], w, provider) && WaitsIn(states[n + 1], w, provider);
    QueueOnlyAdvances(states[n], ops[n], w);
  }

  /** A number that never grows, and falls at every flag, falls by as many as there are flags. */
  lemma {:induction false} FallsByFlags(falling: seq<int>, flags: seq<bool>)
    requires |falling| == |flags| + 1
    requires forall k :: 0 <= k < |flags| ==> FallsAt(falling, flags, k)
    ensures falling[|flags|] + HowMany(flags) <= falling[0]
  {
    if flags != [] {
      var last := |flags| - 1;
      forall k | 0 <= k < last ensures FallsAt(falling[..|flags|], flags[..last], k) {
        assert FallsAt(falling, flags, k);
      }
      FallsByFlags(falling[..|flags|], flags[..last]);
      assert FallsAt(falling, flags, last);
    }
  }

  lemma WaitsThroughout(states: seq<Db>, w: Id, provider: Id, m: nat, n: nat, k: nat)
    requires Waits(states, w, provider, m, n) && m <= k <= n
    ensures w in states[k].attempts && (k < n ==> Waits(states, w, provider, k, k + 1))
  {
    assert WaitsIn(states[k], w, provider);
  }

  /** How many wait in front of w, from step m up to n. */
  function AheadFrom(states: seq<Db>, w: Id, m: nat, n: nat): (r: seq<int>)
    requires m <= n < |states|
    ensures |r| == n - m + 1 && r[0] == AheadOf(states[m], w) && r[n - m] == AheadOf(states[n], w)
  {
    seq(n - m + 1, k requires 0 <= k <= n - m => AheadOf(states[m + k], w))
  }

  lemma AheadAt(states: seq<Db>, w: Id, m: nat, n: nat, k: nat)
    requires m <= n < |states| && k <= n - m
    ensures AheadFrom(states, w, m, n)[k] == AheadOf(states[m + k], w)
  {
  }

  lemma GrantFalls(states: seq<Db>, ops: seq<Op>, w: Id, provider: Id, m: nat, n: nat, k: nat)
    requires IsRun(states, ops) && m <= n < |states| && k < n - m && Waits(states, w, provider, m + k, m + k + 1)
    ensures w in states[m + k].attempts && w in states[m + k + 1].attempts
    ensures AheadOf(states[m + k + 1], w) <= AheadOf(states[m + k], w)
    ensures Grants(states, ops, provider, m, n)[k] ==> AheadOf(states[m + k + 1], w) < AheadOf(states[m + k], w)
  {
    AheadInRun(states, ops, w, provider, m + k);
    GrantsIn(states, ops, provider, m, n, k);
  }

  lemma GrantsIn(states: seq<Db>, ops: seq<Op>, provider: Id, m: nat, n: nat, k: nat)
    requires IsRun(states, ops) && m <= n < |states| && k < n - m
    ensures Grants(states, ops, provider, m, n)[k] == GrantsAt(states, ops, provider, m + k)
  {
  }

  lemma AheadFalls(states: seq<Db>, ops: seq<Op>, w: Id, provider: Id, m: nat, n: nat, k: nat)
    requires IsRun(states, ops) && m <= n < |states| && k < n - m && Waits(states, w, provider, m + k, m + k + 1)
    ensures FallsAt(AheadFrom(states, w, m, n), Grants(states, ops, provider, m, n), k)
  {
    var falling, grants := AheadFrom(states, w, m, n), Grants(states, ops, provider, m, n);
    assert falling[k] == AheadOf(states[m + k], w) && falling[k + 1] == AheadOf(states[m + k + 1], w) by {
      AheadAt(states, w, m, n, k);
      AheadAt(states, w, m, n, k + 1);
    }
    assert falling[k + 1] <= falling[k] && (grants[k] ==> falling[k + 1] < falling[k]) by {
      GrantFalls(states, ops, w, provider, m, n, k);
    }
  }

  predicate FallsAt(falling: seq<int>, flags: seq<bool>, k: nat)
    requires |falling| == |flags| + 1 && k < |flags|
  {
    falling[k + 1] <= falling[k] && (flags[k] ==> falling[k + 1] < falling[k])
  }

  lemma AllFall(states: seq<Db>, ops: seq<Op>, w: Id, provider: Id, m: nat, n: nat)
    requires IsRun(states, ops) && Waits(states, w, provider, m, n)
    ensures forall k :: 0 <= k < n - m ==>
      FallsAt(AheadFrom(states, w, m, n), Grants(states, ops, provider, m, n), k)
  {
    forall k | 0 <= k < n - m
      ensures FallsAt(AheadFrom(states, w, m, n), Grants(states, ops, provider, m, n), k)
    {
      WaitsThroughout(states, w, provider, m, n, m + k);
      AheadFalls(states, ops, w, provider, m, n, k);
    }
  }

  /** In every run, as long as w waits, the attempts in front of it become fewer by at least the grants its
      provider makes, so their number bounds how many grants w has to wait for. */
  lemma EveryGrantBringsItForward(states: seq<Db>, ops: seq<Op>, w: Id, provider: Id, m: nat, n: nat)
    requires IsRun(states, ops) && Waits(states, w, provider, m, n)
    ensures w in states[m].attempts && w in states[n].attempts
    ensures AheadOf(states[n], w) + HowMany(Grants(states, ops, provider, m, n)) <= AheadOf(states[m], w)
  {
    WaitsThroughout(states, w, provider, m, n, m);
    WaitsThroughout(states, w, provider, m, n, n);
    AllFall(states, ops, w, provider, m, n);
    FallsByFlags(AheadFrom(states, w, m, n), Grants(states, ops, provider, m, n));
  }
}
