/** What each transaction answers and leaves, told by the tables it found: who is granted, queued or
    refused, how long leases last, how sessions end, and how long the queues can be. */
module AdmissionOutcomes {
  import opened Common
  import opened Usage
  import opened Admission
  import opened AdmissionInvariant
  import opened AdmissionSteps
  import opened AdmissionTransactions
  import opened AdmissionRuns

  // ---- Room --------------------------------------------------------------------------------------

  /** A ready instance of the provider, seen lately, with a slot that no live attempt occupies. */
  predicate Offers(db: Db, provider: Id, now: int, i: Id) {
    && i in db.instances && db.instances[i].provider == provider && db.instances[i].state == Ready
    && now < db.instances[i].observationExpiresAt && |Occupants(db, i, now)| < db.instances[i].capacity
  }

  /** The provider has room: an enabled fleet with such an instance, or an enabled limit not reached. */
  predicate HasRoom(db: Db, provider: Id, now: int) {
    if provider in db.fleets then
      db.fleets[provider].enabled && exists i :: i in db.instances && Offers(db, provider, now, i)
    else
      && provider in db.limits && db.limits[provider].enabled
      && |Holding(db, provider, now)| < db.limits[provider].maxActive
  }

  /** The provider's queue takes one more. */
  predicate QueueOpen(db: Db, provider: Id, now: int) {
    if provider in db.fleets then
      db.fleets[provider].enabled && |Waiting(db, provider, now)| < db.fleets[provider].maxQueued
    else
      && provider in db.limits && db.limits[provider].enabled
      && |Waiting(db, provider, now)| < db.limits[provider].maxQueued
  }

  /** The session is the caller's, its lease has not run out and it has the attempts it should have: none, or
      just the active one that is to be replaced. */
  predicate MayEnqueue(db: Db, s: Id, owner: Id, token: Id, provider: Id, source: Option<Id>, now: int) {
    && Owned(db, s, owner, token) && LeaseLive(db, s, now)
    && (provider in db.fleets || provider in db.limits)
    && match source
       case None => LiveAttemptsOf(db, s) == {}
       case Some(active) =>
         LiveAttemptsOf(db, s) == {active} && active in db.attempts && db.attempts[active].state == Active
  }

  lemma SweptLive(db: Db, provider: Id, rows: seq<Id>, s: Id, now: int)
    requires Lists(rows, StaleAttempts(db, provider, now)) && LeaseLive(db, s, now)
    ensures LiveRows(db, rows)
    ensures LiveAttemptsOf(Swept(db, rows, now), s) == LiveAttemptsOf(db, s)
    ensures forall a :: a in LiveAttemptsOf(db, s) ==> Swept(db, rows, now).attempts[a] == db.attempts[a]
  {
    SweptFrame(db, provider, rows, now);
    var swept := Swept(db, rows, now);
    forall a | a in db.attempts
      ensures a in LiveAttemptsOf(swept, s) <==> a in LiveAttemptsOf(db, s)
      ensures db.attempts[a].session == s ==> swept.attempts[a] == db.attempts[a]
    {
      if a in StaleAttempts(db, provider, now) {
        assert db.attempts[a].session != s;
        assert a in rows;
        EndAttemptsFrame(db, rows, true, EXPIRED, now);
        assert EndsRow(db.attempts[a], swept.attempts[a], true, now);
      }
    }
  }

  lemma SweptOffers(db: Db, provider: Id, rows: seq<Id>, now: int)
    requires Lists(rows, StaleAttempts(db, provider, now))
    ensures LiveRows(db, rows)
    ensures forall i :: i in db.instances ==>
      (Candidate(Swept(db, rows, now), provider, now, i) <==> Offers(db, provider, now, i))
      && Occupants(Swept(db, rows, now), i, now) == Occupants(db, i, now)
  {
    SweptFrame(db, provider, rows, now);
    forall i | i in db.instances
      ensures Candidate(Swept(db, rows, now), provider, now, i) <==> Offers(db, provider, now, i)
      ensures Occupants(Swept(db, rows, now), i, now) == Occupants(db, i, now)
    {
      SweptOccupants(db, provider, rows, i, now);
    }
  }

  /** The instance that is chosen offers a slot, whenever one does, and is the fullest of those that do,
      among equals the one with the greatest id. */
  lemma ChosenOffers(db: Db, provider: Id, rows: seq<Id>, chosen: Option<Id>, now: int)
    requires Lists(rows, StaleAttempts(db, provider, now))
    requires forall a :: a in rows ==> a in db.attempts
    requires Selects(Swept(db, rows, now), provider, now, chosen)
    ensures chosen.Some? <==> exists i :: i in db.instances && Offers(db, provider, now, i)
    ensures chosen.Some? ==>
      && Offers(db, provider, now, chosen.value)
      && forall i :: i in db.instances && Offers(db, provider, now, i) ==>
           var n, m := |Occupants(db, i, now)|, |Occupants(db, chosen.value, now)|;
           n < m || (n == m && i <= chosen.value)
  {
    SweptOffers(db, provider, rows, now);
    assert Swept(db, rows, now).instances == db.instances;
  }

  // ---- Enqueueing --------------------------------------------------------------------------------

  lemma RaisesUnlessItMay(db: Db, s: Id, owner: Id, token: Id, provider: Id, source: Option<Id>,
                          rows: seq<Id>, now: int)
    requires Lists(rows, StaleAttempts(db, provider, now))
    ensures LiveRows(db, rows)
    ensures EnqueueRaises(db, s, owner, token, provider, source, rows, now)
            <==> !MayEnqueue(db, s, owner, token, provider, source, now)
  {
    SweptFrame(db, provider, rows, now);
    if LeaseLive(db, s, now) {
      SweptLive(db, provider, rows, s, now);
      if source.Some? && LiveAttemptsOf(db, s) == {source.value} {
        assert source.value in LiveAttemptsOf(db, s);
      }
    }
  }

  /** Where an enqueue puts its attempt.  It raises and changes nothing unless it may; otherwise its attempt
      is granted if and only if nobody waits and there is room, queued if and only if it is not granted
      and the queue takes one more, and refused in the remaining case. */
  lemma EnqueueOutcome(db: Db, s: Id, owner: Id, token: Id, a: Id, provider: Id, source: Option<Id>,
                       rows: seq<Id>, ordinal: nat, chosen: Option<Id>, now: int)
    requires Enabled(db, DoEnqueue(s, owner, token, a, provider, source, rows, ordinal, chosen, now))
    ensures var (status, after) := Enqueue(db, s, owner, token, a, provider, source, rows, ordinal, chosen, now);
            var granted := Waiting(db, provider, now) == {} && HasRoom(db, provider, now);
            if !MayEnqueue(db, s, owner, token, provider, source, now) then status == Raised && after == db
            else
              && (status == StatusAcquiring <==> granted)
              && (status == StatusQueued <==> !granted && QueueOpen(db, provider, now))
              && (status == StatusFull <==> !granted && !QueueOpen(db, provider, now))
  {
    RaisesUnlessItMay(db, s, owner, token, provider, source, rows, now);
    if MayEnqueue(db, s, owner, token, provider, source, now) {
      PlacementOutcome(db, provider, rows, chosen, now);
    }
  }

  lemma PlacementOutcome(db: Db, provider: Id, rows: seq<Id>, chosen: Option<Id>, now: int)
    requires Lists(rows, StaleAttempts(db, provider, now)) && (provider in db.fleets || provider in db.limits)
    requires forall a :: a in rows ==> a in db.attempts
    requires Selects(Swept(db, rows, now), provider, now, chosen)
    ensures var status := Placement(Swept(db, rows, now), provider, chosen, now);
            var granted := Waiting(db, provider, now) == {} && HasRoom(db, provider, now);
            && (status == StatusAcquiring <==> granted)
            && (status == StatusQueued <==> !granted && QueueOpen(db, provider, now))
            && (status == StatusFull <==> !granted && !QueueOpen(db, provider, now))
  {
    SweptWaiting(db, provider, rows, now);
    SweptHolding(db, provider, rows, now);
    ChosenOffers(db, provider, rows, chosen, now);
    var queued := Waiting(db, provider, now);
    assert |queued| == 0 <==> queued == {};
  }

  /** The slot of a grant: on the fullest instance of a managed fleet that offers one, among equals the one with
      the greatest id; on none under an external limit. */
  predicate TakesSlot(db: Db, row: Attempt, provider: Id, now: int) {
    && row.state == Acquiring && row.acquiringAt == Some(now)
    && if provider !in db.fleets then row.instance.None?
       else
         && row.instance.Some? && Offers(db, provider, now, row.instance.value)
         && forall i :: i in db.instances && Offers(db, provider, now, i) ==>
              var n, m := |Occupants(db, i, now)|, |Occupants(db, row.instance.value, now)|;
              n < m || (n == m && i <= row.instance.value)
  }

  /** What an accepted enqueue leaves: its attempt behind all others in the state its status names, the
      provider's attempts without a live lease failed, and every other attempt as it was. */
  lemma EnqueueLeaves(db: Db, s: Id, owner: Id, token: Id, a: Id, provider: Id, source: Option<Id>,
                      rows: seq<Id>, ordinal: nat, chosen: Option<Id>, now: int)
    requires Enabled(db, DoEnqueue(s, owner, token, a, provider, source, rows, ordinal, chosen, now))
    requires MayEnqueue(db, s, owner, token, provider, source, now)
    ensures var (status, after) := Enqueue(db, s, owner, token, a, provider, source, rows, ordinal, chosen, now);
            && after.attempts.Keys == db.attempts.Keys + {a}
            && after.sessions == db.sessions && after.nextSequence == db.nextSequence + 1
            && SweptOf(db, after, provider, now)
            && var row := after.attempts[a];
               && row.session == s && row.provider == provider && row.ordinal == ordinal
               && row.queueSequence == db.nextSequence
               && (status == StatusAcquiring ==> TakesSlot(db, row, provider, now))
               && (status == StatusQueued ==> row.state == Queued && row.acquiringAt.None? && row.instance.None?)
               && (status == StatusFull ==>
                     row.state == Failed && row.finishedAt == Some(now)
                     && row.terminalReason == Some("provider_queue_full") && row.instance.None?)
  {
    RaisesUnlessItMay(db, s, owner, token, provider, source, rows, now);
    SweepLeaves(db, provider, rows, now);
    var swept := Swept(db, rows, now);
    var instance := if provider in db.fleets then chosen else None;
    var status := Placement(swept, provider, chosen, now);
    InsertedLeaves(swept, status, s, a, provider, ordinal, instance, now);
    SlotIsTaken(db, Inserted(swept, status, s, a, provider, ordinal, instance, now).attempts[a],
                provider, rows, chosen, now);
  }

  lemma InsertedLeaves(db: Db, status: EnqueueStatus, s: Id, a: Id, provider: Id, ordinal: nat,
                       instance: Option<Id>, now: int)
    requires a !in db.attempts && status != Raised
    ensures var after := Inserted(db, status, s, a, provider, ordinal, instance, now);
            && after.attempts.Keys == db.attempts.Keys + {a}
            && after.sessions == db.sessions && after.nextSequence == db.nextSequence + 1
            && (forall x :: x in db.attempts ==> after.attempts[x] == db.attempts[x])
            && var row := after.attempts[a];
               && row.session == s && row.provider == provider && row.ordinal == ordinal
               && row.queueSequence == db.nextSequence
               && (status == StatusAcquiring ==>
                     row.state == Acquiring && row.acquiringAt == Some(now) && row.instance == instance)
               && (status == StatusQueued ==> row.state == Queued && row.acquiringAt.None? && row.instance.None?)
               && (status == StatusFull ==>
                     row.state == Failed && row.finishedAt == Some(now)
                     && row.terminalReason == Some("provider_queue_full") && row.instance.None?)
  {
  }

  lemma SlotIsTaken(db: Db, row: Attempt, provider: Id, rows: seq<Id>, chosen: Option<Id>, now: int)
    requires Lists(rows, StaleAttempts(db, provider, now)) && (provider in db.fleets || provider in db.limits)
    requires forall a :: a in rows ==> a in db.attempts
    requires Selects(Swept(db, rows, now), provider, now, chosen)
    ensures Placement(Swept(db, rows, now), provider, chosen, now) == StatusAcquiring
            && row.state == Acquiring && row.acquiringAt == Some(now)
            && row.instance == (if provider in db.fleets then chosen else None) ==>
              TakesSlot(db, row, provider, now)
  {
    ChosenOffers(db, provider, rows, chosen, now);
  }

  /** The provider's live attempts without a live lease have failed, and all others are as they were. */
  predicate SweptOf(db: Db, after: Db, provider: Id, now: int) {
    forall x :: x in db.attempts ==>
      x in after.attempts
      && if db.attempts[x].provider == provider && LiveAttemptState(db.attempts[x].state)
            && !LeaseLive(db, db.attempts[x].session, now)
         then after.attempts[x].state == Failed && after.attempts[x].finishedAt == Some(now)
              && after.attempts[x].terminalReason == Some("session_lease_expired")
         else after.attempts[x] == db.attempts[x]
  }

  lemma SweepLeaves(db: Db, provider: Id, rows: seq<Id>, now: int)
    requires Lists(rows, StaleAttempts(db, provider, now))
    ensures LiveRows(db, rows)
    ensures SweptOf(db, Swept(db, rows, now), provider, now)
  {
    SweptFrame(db, provider, rows, now);
    ReasonIsKept(db, rows, true, EXPIRED, now);
    EndAttemptsFrame(db, rows, true, EXPIRED, now);
    forall x | x in StaleAttempts(db, provider, now)
      ensures Swept(db, rows, now).attempts[x].finishedAt == Some(now)
    {
      assert x in rows;
      assert EndsRow(db.attempts[x], Swept(db, rows, now).attempts[x], true, now);
    }
  }

  lemma {:induction false} ReasonIsKept(db: Db, rows: seq<Id>, failed: bool, reason: string, now: int)
    requires LiveRows(db, rows)
    ensures forall a :: a in rows ==>
      EndAttempts(db, rows, failed, reason, now).attempts[a].terminalReason == Some(reason)
  {
    if rows != [] {
      var init, last := rows[..|rows| - 1], rows[|rows| - 1];
      assert last !in init;
      ReasonIsKept(db, init, failed, reason, now);
    }
  }

  // ---- Claiming ----------------------------------------------------------------------------------

  /** The attempt waits, and nobody of its provider has waited longer. */
  predicate FirstInLine(db: Db, a: Id, provider: Id, now: int) {
    && a in Waiting(db, provider, now)
    && forall other :: other in Waiting(db, provider, now) ==>
         db.attempts[a].queueSequence <= db.attempts[other].queueSequence
  }

  /** A claim is granted if and only if the session is the caller's and live, the attempt is its own and first
      in line, and there is room; and no external limit configured beside a fleet is switched off. */
  lemma ClaimOutcome(db: Db, s: Id, owner: Id, token: Id, a: Id, provider: Id,
                     rows: seq<Id>, chosen: Option<Id>, now: int)
    requires Enabled(db, DoClaim(s, owner, token, a, provider, rows, chosen, now))
    ensures var (granted, after) := Claim(db, s, owner, token, a, provider, rows, chosen, now);
            && (granted <==>
                  && Owned(db, s, owner, token) && LeaseLive(db, s, now)
                  && FirstInLine(db, a, provider, now) && db.attempts[a].session == s
                  && HasRoom(db, provider, now)
                  && (provider in db.limits ==> db.limits[provider].enabled))
            && (granted ==>
                  && after.attempts.Keys == db.attempts.Keys && a in db.attempts
                  && TakesSlot(db, after.attempts[a], provider, now)
                  && after.attempts[a] == db.attempts[a].(
                       state := Acquiring, acquiringAt := Some(now), instance := after.attempts[a].instance))
  {
    SweptWaiting(db, provider, rows, now);
    SweptHolding(db, provider, rows, now);
    SweptFrame(db, provider, rows, now);
    ChosenOffers(db, provider, rows, chosen, now);
    HeadIsFirst(db, Swept(db, rows, now), a, provider, now);
    ClaimCases(db, s, owner, token, a, provider, rows, chosen, now);
  }

  lemma HeadIsFirst(db: Db, swept: Db, a: Id, provider: Id, now: int)
    requires Waiting(swept, provider, now) == Waiting(db, provider, now)
    requires forall x :: x in Waiting(db, provider, now) ==> x in swept.attempts && swept.attempts[x] == db.attempts[x]
    ensures IsHead(swept, a, provider, now) <==> FirstInLine(db, a, provider, now)
  {
  }

  lemma ClaimCases(db: Db, s: Id, owner: Id, token: Id, a: Id, provider: Id,
                   rows: seq<Id>, chosen: Option<Id>, now: int)
    requires forall x :: x in rows ==> x in db.attempts
    ensures var (granted, after) := Claim(db, s, owner, token, a, provider, rows, chosen, now);
            var swept := Swept(db, rows, now);
            && (granted <==>
                  && Owned(db, s, owner, token) && LeaseLive(db, s, now)
                  && IsHead(swept, a, provider, now) && swept.attempts[a].session == s
                  && (provider in db.fleets || provider in db.limits)
                  && (provider in db.limits ==> db.limits[provider].enabled)
                  && (if provider in db.fleets then db.fleets[provider].enabled && chosen.Some?
                      else |Holding(swept, provider, now)| < db.limits[provider].maxActive))
            && (granted ==>
                  after == Grant(swept, a, if provider in db.fleets then chosen else None, now))
  {
  }

  // ---- How long a queue can be -------------------------------------------------------------------

  /** How many may wait for the provider: its configured number while it is enabled. */
  function QueueLimit(db: Db, provider: Id): int {
    if provider in db.fleets then if db.fleets[provider].enabled then Max(0, db.fleets[provider].maxQueued) else 0
    else if provider in db.limits && db.limits[provider].enabled then Max(0, db.limits[provider].maxQueued)
    else 0
  }

  predicate QueueBound(db: Db, provider: Id) {
    |Waiting(db, provider, db.clock)| <= QueueLimit(db, provider)
  }

  /** A configuration that lets fewer wait than before. */
  ghost predicate LowersQueue(db: Db, op: Op, provider: Id)
    requires Enabled(db, op)
  {
    op.DoConfigure? && QueueLimit(Step(db, op), provider) < QueueLimit(db, provider)
  }

  lemma NewAttemptIsEnqueued(db: Db, op: Op)
    requires Enabled(db, op) && !op.DoEnqueue?
    ensures Step(db, op).attempts.Keys == db.attempts.Keys
  {
    match op
    case DoAdmit(_, _, _, _, _, _, _) =>
    case DoRelease(_, _, _, _, _, _, _) =>
    case DoClaim(_, _, _, _, _, _, _, _) =>
    case _ =>
  }

  lemma QueuesOnlyIfOpen(db: Db, op: Op, provider: Id)
    requires Enabled(db, op) && op.DoEnqueue?
    ensures Step(db, op).attempts.Keys <= db.attempts.Keys + {op.a}
    ensures op.a in Waiting(Step(db, op), provider, op.now) ==>
      op.provider == provider && |Waiting(db, provider, op.now)| < QueueLimit(db, provider)
  {
    EnqueueOutcome(db, op.s, op.owner, op.token, op.a, op.provider, op.source, op.rows, op.ordinal, op.chosen, op.now);
    if MayEnqueue(db, op.s, op.owner, op.token, op.provider, op.source, op.now) {
      EnqueueLeaves(db, op.s, op.owner, op.token, op.a, op.provider, op.source, op.rows, op.ordinal, op.chosen, op.now);
    }
  }

  lemma WaitingGrows(db: Db, op: Op, provider: Id)
    requires Inv(db) && Enabled(db, op)
    ensures var before, after := Waiting(db, provider, op.now), Waiting(Step(db, op), provider, op.now);
            || after <= before
            || (op.DoEnqueue? && after <= before + {op.a} && |before| < QueueLimit(db, provider))
  {
    WaitingStep(db, op, provider);
    if op.DoEnqueue? {
      QueuesOnlyIfOpen(db, op, provider);
    } else {
      NewAttemptIsEnqueued(db, op);
    }
  }

  lemma WaitingFades(db: Db, provider: Id, now: int)
    requires db.clock <= now
    ensures |Waiting(db, provider, now)| <= |Waiting(db, provider, db.clock)|
  {
    assert Waiting(db, provider, now) <= Waiting(db, provider, db.clock);
    SubsetSize(Waiting(db, provider, now), Waiting(db, provider, db.clock));
  }

  lemma QueueStep(db: Db, op: Op, provider: Id)
    requires Inv(db) && Enabled(db, op) && QueueBound(db, provider) && !LowersQueue(db, op, provider)
    ensures QueueBound(Step(db, op), provider)
  {
    WaitingGrows(db, op, provider);
    WaitingFades(db, provider, op.now);
    var before, after := Waiting(db, provider, op.now), Waiting(Step(db, op), provider, op.now);
    if !op.DoConfigure? {
      LimitsUntouched(db, op);
    }
    if after <= before {
      SubsetSize(after, before);
    } else {
      SubsetSize(after, before + {op.a});
    }
  }

  /** In every run, while no configuration lowers it, no more attempts wait for a provider than its
      configuration lets wait. */
  lemma {:induction false} QueueNeverOverflows(states: seq<Db>, ops: seq<Op>, n: nat, provider: Id)
    requires IsRun(states, ops) && n < |states|
    requires forall m {:trigger ops[m]} :: 0 <= m < n ==>
      Enabled(states[m], ops[m]) && !LowersQueue(states[m], ops[m], provider)
    ensures |Waiting(states[n], provider, states[n].clock)| <= QueueLimit(states[n], provider)
  {
    if n == 0 {
      assert Waiting(states[0], provider, states[0].clock) == {};
    } else {
      QueueNeverOverflows(states, ops, n - 1, provider);
      RunInv(states, ops, n - 1);
      assert !LowersQueue(states[n - 1], ops[n - 1], provider);
      QueueStep(states[n - 1], ops[n - 1], provider);
    }
  }

  // ---- Sessions ----------------------------------------------------------------------------------

  lemma {:induction false} ExpiredSessionsFail(db: Db, rows: seq<StaleSession>, now: int)
    requires ListsLive(db, rows)
    ensures forall row :: row in rows ==> row.session in db.sessions && forall a :: a in row.live ==> a in db.attempts
    ensures forall s :: s in SessionsOf(rows) ==>
      s in db.sessions && ExpireSessions(db, rows, now).sessions[s]
      == db.sessions[s].(state := SessionFailed, lease := None, terminalReason := Some("session_lease_expired"))
  {
    ListedRowsExist(db, rows);
    if rows != [] {
      var init, row := rows[..|rows| - 1], rows[|rows| - 1];
      ListsLivePrefix(db, rows);
      ExpiredSessionsFail(db, init, now);
      ExpireSessionsFrame(db, init, now);
    }
  }

  /** And the log tells it of each. */
  lemma {:induction false} ExpiryIsLogged(db: Db, rows: seq<StaleSession>, now: int, i: nat)
    requires ListsLive(db, rows) && i < |rows|
    ensures forall row :: row in rows ==> row.session in db.sessions && forall a :: a in row.live ==> a in db.attempts
    ensures Event(rows[i].session, None, SessionFailedEvent, Some("session_lease_expired"), now)
            in ExpireSessions(db, rows, now).log
  {
    ListedRowsExist(db, rows);
    var init, row := rows[..|rows| - 1], rows[|rows| - 1];
    ListsLivePrefix(db, rows);
    ListedRowsExist(db, init);
    LogIsKept(ExpireSessions(db, init, now), row, now);
    if i < |rows| - 1 {
      ExpiryIsLogged(db, init, now, i);
    }
  }

  lemma LogIsKept(db: Db, row: StaleSession, now: int)
    requires row.session in db.sessions && forall a :: a in row.live ==> a in db.attempts
    ensures var log := ExpireSession(db, row, now).log;
            db.log <= log && Event(row.session, None, SessionFailedEvent, Some("session_lease_expired"), now) in log
  {
    EndsOnlyAppend(db, row.live, true, EXPIRED, now);
  }

  lemma {:induction false} EndsOnlyAppend(db: Db, rows: seq<Id>, failed: bool, reason: string, now: int)
    requires forall a :: a in rows ==> a in db.attempts
    ensures db.log <= EndAttempts(db, rows, failed, reason, now).log
  {
    if rows != [] {
      EndsOnlyAppend(db, rows[..|rows| - 1], failed, reason, now);
    }
  }

  lemma SweepCoversStale(db: Db, rows: seq<StaleSession>, now: int)
    requires ListsStale(db, rows, now)
    ensures SessionsOf(rows) == StaleSessions(db, now)
  {
    forall s
      ensures s in SessionsOf(rows) <==> s in StaleSessions(db, now)
    {
      if s in SessionsOf(rows) {
        var i :| 0 <= i < |rows| && rows[i].session == s;
        assert rows[i] in rows;
      }
    }
  }

  /** The session rows after the sweep: those that ran out have failed, the others stand. */
  ghost predicate RunOutFailed(db: Db, after: Db, now: int) {
    forall s :: s in db.sessions ==>
      s in after.sessions
      && after.sessions[s] ==
           if LiveState(db.sessions[s].state) && db.sessions[s].lease.Some? && db.sessions[s].lease.value <= now
           then db.sessions[s].(state := SessionFailed, lease := None, terminalReason := Some("session_lease_expired"))
           else db.sessions[s]
  }

  lemma SweepFailsRunOut(db: Db, rows: seq<StaleSession>, now: int)
    requires ListsStale(db, rows, now)
    ensures forall row :: row in rows ==> row.session in db.sessions && forall a :: a in row.live ==> a in db.attempts
    ensures RunOutFailed(db, ExpireSessions(db, rows, now), now)
  {
    StaleIsLive(db, rows, now);
    ExpireSessionsFrame(db, rows, now);
    ExpiredSessionsFail(db, rows, now);
    SweepCoversStale(db, rows, now);
  }

  lemma SameLiveSessions(db: Db, after: Db, now: int)
    requires RunOutFailed(db, after, now) && after.sessions.Keys == db.sessions.Keys
    ensures LiveSessions(after, now) == LiveSessions(db, now)
  {
    forall s | s in db.sessions
      ensures s in LiveSessions(after, now) <==> s in LiveSessions(db, now)
    {
    }
  }

  /** An admission first fails every session whose lease has run out, and then admits the new one for the time
      it asks for if and only if fewer sessions than allowed are live. */
  lemma AdmitOutcome(db: Db, s: Id, owner: Id, token: Id, maxActive: int, duration: int,
                     rows: seq<StaleSession>, now: int)
    requires Enabled(db, DoAdmit(s, owner, token, maxActive, duration, rows, now))
    ensures var (admitted, after) := Admit(db, s, owner, token, maxActive, duration, rows, now);
            && (admitted <==> |LiveSessions(db, now)| < maxActive)
            && after.sessions.Keys == db.sessions.Keys + {s}
            && after.sessions[s] ==
                 (if admitted then Session(owner, token, Admitted, Some(now + duration), None)
                  else Session(owner, token, SessionFailed, None, Some("gateway_capacity_full")))
            && RunOutFailed(db, after, now)
            && (!admitted ==>
                  Event(s, None, SessionFailedEvent, Some("gateway_capacity_full"), now) in after.log)
  {
    SweepFailsRunOut(db, rows, now);
    var swept := ExpireSessions(db, rows, now);
    SameLiveSessions(db, swept, now);
    AdmitShape(db, s, owner, token, maxActive, duration, rows, now);
    RunOutThenAdded(db, swept, Admit(db, s, owner, token, maxActive, duration, rows, now).1, s, now);
  }

  lemma AdmitShape(db: Db, s: Id, owner: Id, token: Id, maxActive: int, duration: int,
                   rows: seq<StaleSession>, now: int)
    requires s !in db.sessions && ListsStale(db, rows, now)
    requires forall row :: row in rows ==> row.session in db.sessions && forall a :: a in row.live ==> a in db.attempts
    ensures var (admitted, after) := Admit(db, s, owner, token, maxActive, duration, rows, now);
            var swept := ExpireSessions(db, rows, now);
            && (admitted <==> |LiveSessions(swept, now)| < maxActive)
            && after.sessions == swept.sessions[s :=
                 if admitted then Session(owner, token, Admitted, Some(now + duration), None)
                 else Session(owner, token, SessionFailed, None, Some("gateway_capacity_full"))]
            && (!admitted ==>
                  Event(s, None, SessionFailedEvent, Some("gateway_capacity_full"), now) in after.log)
  {
  }

  lemma RunOutThenAdded(db: Db, swept: Db, after: Db, s: Id, now: int)
    requires RunOutFailed(db, swept, now) && s !in db.sessions && s in after.sessions
    requires after.sessions == swept.sessions[s := after.sessions[s]]
    ensures RunOutFailed(db, after, now)
  {
  }

  /** The attempts of the sessions that run out fail with them. */
  lemma {:induction false} ExpiredAttemptsFail(db: Db, rows: seq<StaleSession>, now: int, a: Id)
    requires ListsLive(db, rows) && a in db.attempts
    ensures forall row :: row in rows ==> row.session in db.sessions && forall x :: x in row.live ==> x in db.attempts
    ensures LiveAttemptState(db.attempts[a].state) && db.attempts[a].session in SessionsOf(rows) ==>
      && ExpireSessions(db, rows, now).attempts[a].state == Failed
      && ExpireSessions(db, rows, now).attempts[a].terminalReason == Some("session_lease_expired")
    ensures db.attempts[a].session !in SessionsOf(rows) ==>
      ExpireSessions(db, rows, now).attempts[a] == db.attempts[a]
  {
    ListedRowsExist(db, rows);
    if rows != [] {
      var init, row := rows[..|rows| - 1], rows[|rows| - 1];
      ListsLivePrefix(db, rows);
      ExpiredAttemptsFail(db, init, now, a);
      ExpireSessionsFrame(db, init, now);
      OneMoreFailsAfter(db, ExpireSessions(db, init, now), SessionsOf(init), row, now, a);
    }
  }

  lemma OneMoreFailsAfter(db: Db, mid: Db, ended: set<Id>, row: StaleSession, now: int, a: Id)
    requires ExpiredOnly(db, mid, ended, now) && row.session !in ended && row.session in db.sessions
    requires Lists(row.live, LiveAttemptsOf(db, row.session)) && a in db.attempts
    ensures LiveRows(mid, row.live) && row.session in mid.sessions
    ensures db.attempts[a].session == row.session && LiveAttemptState(db.attempts[a].state) ==>
      && ExpireSession(mid, row, now).attempts[a].state == Failed
      && ExpireSession(mid, row, now).attempts[a].terminalReason == Some("session_lease_expired")
    ensures db.attempts[a].session != row.session ==>
      ExpireSession(mid, row, now).attempts[a] == mid.attempts[a]
  {
    StillListed(db, mid, ended, row, now);
    OneMoreFails(mid, row, now, a);
    if mid.attempts[a] != db.attempts[a] {
      assert RowAdvances(db.attempts[a], mid.attempts[a]);
    }
  }

  lemma OneMoreFails(db: Db, row: StaleSession, now: int, a: Id)
    requires row.session in db.sessions && Lists(row.live, LiveAttemptsOf(db, row.session)) && a in db.attempts
    ensures LiveRows(db, row.live)
    ensures if LiveAttemptState(db.attempts[a].state) && db.attempts[a].session == row.session
            then ExpireSession(db, row, now).attempts[a].state == Failed
                 && ExpireSession(db, row, now).attempts[a].terminalReason == Some("session_lease_expired")
            else ExpireSession(db, row, now).attempts[a] == db.attempts[a]
  {
    ListedRowsAreLive(db, row.session, row.live);
    EndAttemptsFrame(db, row.live, true, EXPIRED, now);
    ReasonIsKept(db, row.live, true, EXPIRED, now);
    if a in row.live {
      assert EndsRow(db.attempts[a], ExpireSession(db, row, now).attempts[a], true, now);
    } else {
      assert a !in LiveAttemptsOf(db, row.session);
    }
  }

  /** The session is the caller's, and its lease has not run out. */
  predicate Mine(row: Session, owner: Id, token: Id, now: int) {
    && row.owner == owner && row.token == token && (row.state == Admitted || row.state == Opened)
    && row.lease.Some? && now < row.lease.value
  }

  /** A lease is renewed for the time that is asked for if and only if the caller owns the session and its
      lease has not run out. */
  lemma HeartbeatOutcome(db: Db, s: Id, owner: Id, token: Id, duration: int, now: int)
    requires s in db.sessions
    ensures var row, after := db.sessions[s], Heartbeat(db, s, owner, token, duration, now);
            after == if Mine(row, owner, token, now)
                     then db.(sessions := db.sessions[s := row.(lease := Some(now + duration))]) else db
  {
  }

  /** A session opens, with a lease for the time that is asked for, under the same condition if it is admitted
      and not open yet. */
  lemma OpenOutcome(db: Db, s: Id, owner: Id, token: Id, duration: int, now: int)
    requires s in db.sessions
    ensures var row, after := db.sessions[s], Open(db, s, owner, token, duration, now);
            after == if Mine(row, owner, token, now) && row.state == Admitted
                     then db.(sessions := db.sessions[s := row.(state := Opened, lease := Some(now + duration))],
                              log := db.log + [Event(s, None, SessionOpenEvent, None, now)]) else db
  {
  }

  /** The session's live attempts have ended, and every other attempt is as it was. */
  predicate EndedWith(db: Db, after: Db, s: Id, failed: bool, reason: string, now: int) {
    && after.attempts.Keys == db.attempts.Keys
    && forall a :: a in db.attempts ==>
         if LiveAttemptState(db.attempts[a].state) && db.attempts[a].session == s then
           && after.attempts[a].state == (if failed then Failed else Completed)
           && after.attempts[a].finishedAt == Some(now) && after.attempts[a].terminalReason == Some(reason)
         else after.attempts[a] == db.attempts[a]
  }

  lemma LiveAttemptsEnd(db: Db, s: Id, live: seq<Id>, failed: bool, reason: string, now: int)
    requires Lists(live, LiveAttemptsOf(db, s))
    ensures LiveRows(db, live)
    ensures EndedWith(db, EndAttempts(db, live, failed, reason, now), s, failed, reason, now)
  {
    ListedRowsAreLive(db, s, live);
    EndAttemptsFrame(db, live, failed, reason, now);
    ReasonIsKept(db, live, failed, reason, now);
    var cleared := EndAttempts(db, live, failed, reason, now);
    forall a | a in db.attempts
      ensures if LiveAttemptState(db.attempts[a].state) && db.attempts[a].session == s
              then EndsRow(db.attempts[a], cleared.attempts[a], failed, now)
                   && cleared.attempts[a].terminalReason == Some(reason)
              else cleared.attempts[a] == db.attempts[a]
    {
      assert a in live <==> a in LiveAttemptsOf(db, s);
    }
  }

  /** A release of a live session by its owner ends it as it is told to, with the reason it is given, and with
      it all its live attempts; by anyone else it changes nothing. */
  lemma ReleaseOutcome(db: Db, s: Id, owner: Id, token: Id, failed: bool, reason: string, live: seq<Id>, now: int)
    requires Lists(live, LiveAttemptsOf(db, s)) && s in db.sessions && LiveState(db.sessions[s].state)
    requires db.sessions[s].terminalReason.None?
    ensures var after, row := Release(db, s, owner, token, failed, reason, live, now), db.sessions[s];
            if row.owner != owner || row.token != token then after == db
            else
              && after.sessions == db.sessions[s := row.(
                   state := if failed then SessionFailed else Closed, lease := None, terminalReason := Some(reason))]
              && EndedWith(db, after, s, failed, reason, now)
              && after.log[|after.log| - 1] ==
                   Event(s, None, if failed then SessionFailedEvent else SessionClosedEvent, Some(reason), now)
  {
    LiveAttemptsEnd(db, s, live, failed, reason, now);
  }

  /** In every run a live session has no reason to have ended yet. */
  lemma {:induction false} LiveHasNoReason(states: seq<Db>, ops: seq<Op>, n: nat, s: Id)
    requires IsRun(states, ops) && n < |states| && s in states[n].sessions && LiveState(states[n].sessions[s].state)
    ensures states[n].sessions[s].terminalReason.None?
  {
    if n > 0 {
      RunInv(states, ops, n - 1);
      assert Enabled(states[n - 1], ops[n - 1]);
      LiveStaysReasonless(states[n - 1], ops[n - 1], s);
      if s in states[n - 1].sessions && LiveState(states[n - 1].sessions[s].state) {
        LiveHasNoReason(states, ops, n - 1, s);
      }
    }
  }

  /** A session that is live after a step was live before with the same reason, or has just been admitted
      without one. */
  lemma LiveStaysReasonless(db: Db, op: Op, s: Id)
    requires Inv(db) && Enabled(db, op) && s in Step(db, op).sessions && LiveState(Step(db, op).sessions[s].state)
    ensures if s in db.sessions
            then LiveState(db.sessions[s].state)
                 && Step(db, op).sessions[s].terminalReason == db.sessions[s].terminalReason
            else Step(db, op).sessions[s].terminalReason.None?
  {
    match op
    case DoAdmit(_, _, _, _, _, _, _) => AdmitKeepsReason(db, op, s);
    case DoHeartbeat(_, _, _, _, _) => LeaseKeepsReason(db, op, s);
    case DoOpen(_, _, _, _, _) => LeaseKeepsReason(db, op, s);
    case DoRelease(_, _, _, _, _, _, _) => ReleaseKeepsReason(db, op, s);
    case DoEnqueue(_, _, _, _, _, _, _, _, _, _) => SameSessions(db, op);
    case DoClaim(_, _, _, _, _, _, _, _) => SameSessions(db, op);
    case _ =>
  }

  lemma AdmitKeepsReason(db: Db, op: Op, s: Id)
    requires Enabled(db, op) && op.DoAdmit? && s in Step(db, op).sessions
    requires LiveState(Step(db, op).sessions[s].state)
    ensures if s in db.sessions then Step(db, op).sessions[s] == db.sessions[s]
            else Step(db, op).sessions[s].terminalReason.None?
  {
    AdmitOutcome(db, op.s, op.owner, op.token, op.maxActive, op.duration, op.stale, op.now);
  }

  lemma LeaseKeepsReason(db: Db, op: Op, s: Id)
    requires Enabled(db, op) && (op.DoHeartbeat? || op.DoOpen?) && s in Step(db, op).sessions
    requires LiveState(Step(db, op).sessions[s].state)
    ensures s in db.sessions && LiveState(db.sessions[s].state)
    ensures Step(db, op).sessions[s].terminalReason == db.sessions[s].terminalReason
  {
  }

  lemma ReleaseKeepsReason(db: Db, op: Op, s: Id)
    requires Enabled(db, op) && op.DoRelease? && s in Step(db, op).sessions
    requires LiveState(Step(db, op).sessions[s].state)
    ensures s in db.sessions && Step(db, op).sessions[s] == db.sessions[s]
  {
  }

  lemma SameSessions(db: Db, op: Op)
    requires Enabled(db, op) && (op.DoEnqueue? || op.DoClaim?)
    ensures Step(db, op).sessions == db.sessions
  {
  }

  // ---- One attempt -------------------------------------------------------------------------------

  /** An attempt is activated if and only if it has its slot and is not active yet, and it ends if and only if
      it has not ended; each at the time of the step. */
  lemma AttemptOutcome(db: Db, a: Id, failed: bool, reason: string, now: int)
    requires Inv(db) && a in db.attempts
    ensures var row, after := db.attempts[a], Activate(db, a, now);
            && (row.state == Acquiring ==>
                  after.attempts == db.attempts[a := row.(state := Active, activeAt := Some(now))]
                  && after.log == db.log + [Event(row.session, Some(a), ConnectedEvent, None, now)])
            && (row.state != Acquiring ==> after == db)
    ensures var row, after := db.attempts[a], Finish(db, a, failed, reason, now);
            if row.state == Completed || row.state == Failed then after == db
            else
              && after.attempts.Keys == db.attempts.Keys
              && after.attempts[a].state == (if failed then Failed else Completed)
              && after.attempts[a].finishedAt == Some(now) && after.attempts[a].terminalReason == Some(reason)
              && forall other :: other in db.attempts && other != a ==> after.attempts[other] == db.attempts[other]
  {
  }

  // ---- Fleets ------------------------------------------------------------------------------------

  /** What an observation of a fleet leaves: an instance that is seen has the state it was seen in, except that
      a draining one does not become ready by being seen ready; its capacity is the one it reports, or the
      fleet's where it reports none; it counts as seen for the given time.  An instance of the fleet that is
      not seen has stopped, and other fleets' instances that are not seen stand as they were. */
  lemma ObserveOutcome(db: Db, provider: Id, seen: map<Id, Observation>, ttl: int, now: int, i: Id)
    requires provider in db.fleets
    ensures var after := Observe(db, provider, seen, ttl, now).instances;
            && (i in after <==> i in db.instances || i in seen)
            && (i in seen ==>
                  && after[i].observationExpiresAt == now + ttl
                  && after[i].state ==
                       (if i in db.instances && db.instances[i].state == Draining && seen[i].state == Ready
                        then Draining else seen[i].state)
                  && after[i].provider == (if i in db.instances then db.instances[i].provider else provider)
                  && (seen[i].sessionCapacity.Some? && seen[i].sessionCapacity.value > 0 ==>
                        after[i].capacity == seen[i].sessionCapacity.value)
                  && (seen[i].sessionCapacity.None? || seen[i].sessionCapacity.value == 0 ==>
                        after[i].capacity == db.fleets[provider].sessionCapacity))
            && (i !in seen && i in db.instances ==>
                  if db.instances[i].provider == provider
                  then after[i].state == Stopped
                       && (db.instances[i].state != Stopped ==> after[i].observationExpiresAt == now)
                  else after[i] == db.instances[i])
  {
  }

  /** A configuration puts the given tables in place, and changes nothing else but the clock. */
  lemma ConfigureOutcome(db: Db, fleets: map<Id, Fleet>, limits: map<Id, ExternalLimit>, rates: map<Id, int>, now: int)
    requires Enabled(db, DoConfigure(fleets, limits, rates, now))
    ensures Step(db, DoConfigure(fleets, limits, rates, now))
            == db.(fleets := fleets, limits := limits, rates := rates, clock := now)
  {
  }

  /** Preparing to scale down stops an instance from being offered and answers whether it is empty; cancelling
      sends the provider's draining instances, and no others, back to wait for an observation. */
  lemma DrainOutcome(db: Db, provider: Id, i: Id, now: int)
    requires i in db.instances
    ensures var (empty, after) := PrepareScaleDown(db, provider, i, now);
            if db.instances[i].provider != provider then !empty && after == db
            else
              && after.instances == db.instances[i := db.instances[i].(state := Draining)]
              && (empty <==> Occupants(db, i, now) == {})
              && !Offers(after, provider, now, i)
    ensures CancelScaleDown(db, provider).instances.Keys == db.instances.Keys
    ensures CancelScaleDown(db, provider).instances[i] ==
      if db.instances[i].provider == provider && db.instances[i].state == Draining
      then db.instances[i].(state := Starting) else db.instances[i]
  {
  }
}
