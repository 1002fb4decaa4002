/** The session, attempt and fleet repositories over one set of tables.  Every method is one
    transaction; it is proved to be the step of the same name. */
module AdmissionRepository {
  import opened Common
  import opened Usage
  import opened Admission
  import opened AdmissionSteps
  import opened AdmissionTransactions

  /** The rows a query returns, in some order. */
  method Query(ids: set<Id>) returns (rows: seq<Id>)
    ensures Lists(rows, ids)
  {
    var rest := ids;
    rows := [];
    while rest != {}
      invariant rest <= ids && forall x :: x in rows ==> x in ids && x !in rest
      invariant forall x :: x in ids ==> x in rest || x in rows
      invariant forall i, j :: 0 <= i < j < |rows| ==> rows[i] != rows[j]
      decreases rest
    {
      var x :| x in rest;
      rows, rest := rows + [x], rest - {x};
    }
  }

  class Gateway {
    var sessions: map<Id, Session>
    var attempts: map<Id, Attempt>
    var instances: map<Id, Instance>
    var fleets: map<Id, Fleet>
    var limits: map<Id, ExternalLimit>
    var rates: map<Id, int>
    var nextSequence: nat
    var log: seq<Event>
    var clock: int

    function View(): Db
      reads this
    {
      Db(sessions, attempts, instances, fleets, limits, rates, nextSequence, log, clock)
    }

    method AddEvent(session: Id, attempt: Option<Id>, kind: Kind, reason: Option<string>, now: int)
      modifies this`log
      ensures log == old(log) + [Event(session, attempt, kind, reason, now)]
    {
      log := log + [Event(session, attempt, kind, reason, now)];
    }

    /** Sets a live attempt's terminal columns one after another and logs the event. */
    method EndRow(a: Id, failed: bool, reason: string, now: int)
      requires a in attempts
      modifies this`attempts, this`log
      ensures View() == EndAttempt(old(View()), a, failed, reason, now)
    {
      var row := attempts[a];
      row := row.(state := if failed then Failed else Completed);
      row := row.(finishedAt := Some(now));
      var usage := FinalizeAttemptUsage(row.usage, row.acquiringAt, row.activeAt, Rate(View(), row.provider), now);
      row := row.(usage := usage);
      row := row.(terminalReason := Some(reason));
      attempts := attempts[a := row];
      AddEvent(row.session, Some(a), if failed then AttemptFailedEvent else AttemptClosedEvent,
               if failed then Some(reason) else None, now);
    }

    method EndRows(rows: seq<Id>, failed: bool, reason: string, now: int)
      requires forall a :: a in rows ==> a in attempts
      modifies this`attempts, this`log
      ensures View() == EndAttempts(old(View()), rows, failed, reason, now)
    {
      for k := 0 to |rows|
        invariant attempts.Keys == old(attempts).Keys
        invariant View() == EndAttempts(old(View()), rows[..k], failed, reason, now)
      {
        EndRow(rows[k], failed, reason, now);
        assert rows[..k + 1][..k] == rows[..k];
      }
      assert rows[..|rows|] == rows;
    }

    method EndSessionRow(s: Id, failed: bool, reason: string, now: int)
      requires s in sessions
      modifies this`sessions, this`log
      ensures View() == EndSession(old(View()), s, failed, reason, now)
    {
      var row := sessions[s];
      row := row.(state := if failed then SessionFailed else Closed);
      row := row.(lease := None);
      row := row.(terminalReason := Some(reason));
      sessions := sessions[s := row];
      AddEvent(s, None, if failed then SessionFailedEvent else SessionClosedEvent, Some(reason), now);
    }

    // ---- Sessions --------------------------------------------------------------------------------------

    /** One expired session: its live attempts are queried and ended, then the session. */
    method ExpireOne(s: Id, now: int) returns (ghost row: StaleSession)
      requires s in sessions
      modifies this`sessions, this`attempts, this`log
      ensures row.session == s && Lists(row.live, LiveAttemptsOf(old(View()), s))
      ensures forall a :: a in row.live ==> a in old(attempts)
      ensures View() == ExpireSession(old(View()), row, now)
    {
      var live := Query(LiveAttemptsOf(View(), s));
      row := StaleSession(s, live);
      EndRows(live, true, EXPIRED, now);
      EndSessionRow(s, true, EXPIRED, now);
    }

    /** The sweep at the start of every admission. */
    method ExpireStaleSessions(now: int) returns (ghost stale: seq<StaleSession>)
      modifies this`sessions, this`attempts, this`log
      ensures ListsStale(old(View()), stale, now)
      ensures forall row :: row in stale ==>
                row.session in old(sessions) && forall a :: a in row.live ==> a in old(attempts)
      ensures View() == ExpireSessions(old(View()), stale, now)
    {
      ghost var db := View();
      var rows := Query(StaleSessions(View(), now));
      stale := [];
      for k := 0 to |rows|
        invariant |stale| == k && Sweeping(db, rows, stale)
        invariant View() == ExpireSessions(db, stale, now)
      {
        ghost var mid := View();
        StaleRowLives(db, rows, k, stale, now);
        ghost var row := ExpireOne(rows[k], now);
        SweepOn(db, rows, stale, mid, row, now);
        stale := stale + [row];
      }
      StaleListed(db, rows, stale, now);
    }

    /** A new session; a key that exists already raises, and changes nothing. */
    method AdmitNew(s: Id, owner: Id, token: Id, maxActive: int, duration: int, now: int)
      returns (admitted: bool, ghost stale: seq<StaleSession>)
      requires s !in sessions && clock <= now
      modifies this`sessions, this`attempts, this`log, this`clock
      ensures ListsStale(old(View()), stale, now)
      ensures (admitted, View()) == (Admit(old(View()), s, owner, token, maxActive, duration, stale, now).0,
                                     Step(old(View()), DoAdmit(s, owner, token, maxActive, duration, stale, now)))
    {
      stale := ExpireStaleSessions(now);
      clock := now;
      var row := Session(owner, token, SessionRequested, None, None);
      var active := |LiveSessions(View(), now)|;
      ghost var swept := ExpireSessions(old(View()), stale, now);
      assert LiveSessions(View(), now) == LiveSessions(swept, now);
      if active >= maxActive {
        row := row.(state := SessionFailed);
        row := row.(terminalReason := Some("gateway_capacity_full"));
        sessions := sessions[s := row];
        AddEvent(s, None, SessionFailedEvent, Some("gateway_capacity_full"), now);
        admitted := false;
        return;
      }
      row := row.(state := Admitted);
      row := row.(lease := Some(now + duration));
      sessions := sessions[s := row];
      admitted := true;
    }

    method RenewLease(s: Id, owner: Id, token: Id, duration: int, now: int) returns (held: bool)
      requires clock <= now
      modifies this`sessions, this`clock
      ensures held == (Owned(old(View()), s, owner, token) && LeaseLive(old(View()), s, now))
      ensures View() == Step(old(View()), DoHeartbeat(s, owner, token, duration, now))
    {
      clock := now;
      if !(s in sessions && sessions[s].owner == owner && sessions[s].token == token) {
        return false;
      }
      var row := sessions[s];
      if !LiveState(row.state) || row.lease.None? || row.lease.value <= now {
        return false;
      }
      sessions := sessions[s := row.(lease := Some(now + duration))];
      held := true;
    }

    method OpenSession(s: Id, owner: Id, token: Id, duration: int, now: int) returns (succeeded: bool)
      requires clock <= now
      modifies this`sessions, this`log, this`clock
      ensures View() == Step(old(View()), DoOpen(s, owner, token, duration, now))
      ensures succeeded == (Owned(old(View()), s, owner, token) && LeaseLive(old(View()), s, now)
                            && old(sessions)[s].state.Admitted?)
    {
      clock := now;
      if !(s in sessions && sessions[s].owner == owner && sessions[s].token == token) {
        return false;
      }
      var row := sessions[s];
      if !row.state.Admitted? || row.lease.None? || row.lease.value <= now {
        return false;
      }
      row := row.(state := Opened);
      row := row.(lease := Some(now + duration));
      sessions := sessions[s := row];
      AddEvent(s, None, SessionOpenEvent, None, now);
      succeeded := true;
    }

    method ReleaseSession(s: Id, owner: Id, token: Id, failed: bool, reason: string, now: int)
      returns (known: bool, ghost live: seq<Id>)
      requires clock <= now
      modifies this`sessions, this`attempts, this`log, this`clock
      ensures known == Owned(old(View()), s, owner, token)
      ensures s in old(sessions) ==> Lists(live, LiveAttemptsOf(old(View()), s))
      ensures View() == Step(old(View()), DoRelease(s, owner, token, failed, reason, live, now))
    {
      var attemptsOfSession := Query(LiveAttemptsOf(View(), s));
      live := attemptsOfSession;
      known := s in sessions && sessions[s].owner == owner && sessions[s].token == token;
      if known {
        EndOwnedSession(s, owner, token, failed, reason, attemptsOfSession, now);
      }
      clock := now;
    }

    /** Ends the session's attempts, and the session itself unless it has ended before. */
    method EndOwnedSession(s: Id, owner: Id, token: Id, failed: bool, reason: string, live: seq<Id>, now: int)
      requires Owned(View(), s, owner, token) && Lists(live, LiveAttemptsOf(View(), s))
      modifies this`sessions, this`attempts, this`log
      ensures View() == Release(old(View()), s, owner, token, failed, reason, live, now)
    {
      var row := sessions[s];
      var cleanupReason := if row.terminalReason.Some? && row.terminalReason.value != ""
                           then row.terminalReason.value else reason;
      EndRows(live, failed || row.state.SessionFailed?, cleanupReason, now);
      if !Terminal(row.state) {
        EndSessionRow(s, failed, reason, now);
      }
    }

    // ---- Attempts --------------------------------------------------------------------------------------

    method ExpireStaleAttempts(provider: Id, now: int) returns (ghost rows: seq<Id>)
      modifies this`attempts, this`log
      ensures Lists(rows, StaleAttempts(old(View()), provider, now))
      ensures forall a :: a in rows ==> a in old(attempts)
      ensures View() == Swept(old(View()), rows, now)
    {
      var stale := Query(StaleAttempts(View(), provider, now));
      rows := stale;
      EndRows(stale, true, EXPIRED, now);
    }

    /** Looks at every ready instance in turn and keeps the fullest one that has room. */
    method SelectInstance(provider: Id, now: int) returns (chosen: Option<Id>)
      ensures Selects(View(), provider, now, chosen)
    {
      var db := View();
      var rest := instances.Keys;
      chosen := None;
      var fullest := 0;
      while rest != {}
        invariant rest <= instances.Keys
        invariant chosen.None? ==> forall i :: i in instances && i !in rest ==> !Candidate(db, provider, now, i)
        invariant chosen.Some? ==>
                    Candidate(db, provider, now, chosen.value) && fullest == |Occupants(db, chosen.value, now)|
        invariant chosen.Some? ==>
                    forall i :: i in instances && i !in rest && Candidate(db, provider, now, i) ==>
                      |Occupants(db, i, now)| < fullest || (|Occupants(db, i, now)| == fullest && i <= chosen.value)
        decreases rest
      {
        var i :| i in rest;
        rest := rest - {i};
        var row := instances[i];
        if row.provider == provider && row.state.Ready? && row.observationExpiresAt > now {
          var occupied := |Occupants(db, i, now)|;
          if occupied < row.capacity {
            if chosen.None? || occupied > fullest || (occupied == fullest && i > chosen.value) {
              chosen, fullest := Some(i), occupied;
            }
          }
        }
      }
    }

    method GreatestOrdinal(s: Id) returns (ordinal: nat)
      ensures NextOrdinal(View(), s, ordinal + 1)
    {
      var rest := attempts.Keys;
      ordinal := 0;
      while rest != {}
        invariant rest <= attempts.Keys
        invariant forall a :: a in attempts && a !in rest && attempts[a].session == s ==> attempts[a].ordinal <= ordinal
        invariant ordinal > 0 ==>
          exists a :: a in attempts && attempts[a].session == s && attempts[a].ordinal == ordinal
        decreases rest
      {
        var a :| a in rest;
        rest := rest - {a};
        if attempts[a].session == s && attempts[a].ordinal > ordinal {
          ordinal := attempts[a].ordinal;
        }
      }
    }

    /** Queues an attempt, grants it a slot at once, or records that the queue is full.  Where it
        raises, the transaction is rolled back and only time has passed. */
    method EnqueueAttempt(s: Id, owner: Id, token: Id, a: Id, provider: Id, source: Option<Id>, now: int)
      returns (status: EnqueueStatus, ghost rows: seq<Id>, ghost ordinal: nat, ghost chosen: Option<Id>)
      requires a !in attempts && clock <= now
      modifies this`attempts, this`log, this`nextSequence, this`clock
      ensures Lists(rows, StaleAttempts(old(View()), provider, now))
      ensures forall x :: x in rows ==> x in old(attempts)
      ensures NextOrdinal(old(View()), s, ordinal) && Selects(Swept(old(View()), rows, now), provider, now, chosen)
      ensures (status, View()) ==
                (Enqueue(old(View()), s, owner, token, a, provider, source, rows, ordinal, chosen, now).0,
                 Enqueue(old(View()), s, owner, token, a, provider, source, rows, ordinal, chosen, now)
                 .1.(clock := now))
    {
      var before := View();
      var greatest := GreatestOrdinal(s);
      ordinal := greatest + 1;
      rows := ExpireStaleAttempts(provider, now);
      ghost var swept := View();
      var instance := SelectInstance(provider, now);
      chosen := instance;
      status := Decide(before, s, owner, token, a, provider, source, greatest + 1, instance, now, rows);
      clock := now;
    }

    /** The part of enqueue after the sweep; where it raises, the sweep is rolled back too. */
    method Decide(before: Db, s: Id, owner: Id, token: Id, a: Id, provider: Id, source: Option<Id>,
                  ordinal: nat, selected: Option<Id>, now: int, ghost rows: seq<Id>)
      returns (status: EnqueueStatus)
      requires forall x :: x in rows ==> x in before.attempts
      requires View() == Swept(before, rows, now)
      modifies this`attempts, this`log, this`nextSequence
      ensures status == Enqueue(before, s, owner, token, a, provider, source, rows, ordinal, selected, now).0
      ensures View() == Enqueue(before, s, owner, token, a, provider, source, rows, ordinal, selected, now).1
    {
      var accepted := Accepts(before, s, owner, token, provider, source, now, rows);
      if accepted {
        status := FindRoom(provider, selected, now);
        InsertAttempt(status, s, a, provider, ordinal, if provider in fleets then selected else None, now);
      } else {
        attempts, log := before.attempts, before.log;
        status := Raised;
      }
    }

    /** A session enqueues its first attempt, or a replacement for its one active attempt. */
    method Accepts(before: Db, s: Id, owner: Id, token: Id, provider: Id, source: Option<Id>, now: int,
                   ghost rows: seq<Id>)
      returns (accepted: bool)
      requires forall x :: x in rows ==> x in before.attempts
      requires View() == Swept(before, rows, now)
      ensures accepted == !EnqueueRaises(before, s, owner, token, provider, source, rows, now)
    {
      var live := LiveAttemptsOf(View(), s);
      if !Owned(before, s, owner, token) || !LeaseLive(before, s, now) {
        return false;
      }
      if provider !in fleets && provider !in limits {
        return false;
      }
      match source {
        case None => accepted := live == {};
        case Some(active) => accepted := live == {active} && before.attempts[active].state.Active?;
      }
    }

    method FindRoom(provider: Id, selected: Option<Id>, now: int) returns (status: EnqueueStatus)
      requires provider in fleets || provider in limits
      ensures status == Placement(View(), provider, selected, now)
    {
      var queued := |Waiting(View(), provider, now)|;
      var managed := provider in fleets;
      var maxActive, maxQueued := 0, 0;
      if managed {
        if fleets[provider].enabled {
          maxQueued := fleets[provider].maxQueued;
        }
      } else if limits[provider].enabled {
        maxActive, maxQueued := limits[provider].maxActive, limits[provider].maxQueued;
      }
      var instance := if managed && fleets[provider].enabled && queued == 0 then selected else None;
      var active := |Holding(View(), provider, now)|;
      if queued == 0 && (if managed then instance.Some? else active < maxActive) {
        status := StatusAcquiring;
      } else if queued < maxQueued {
        status := StatusQueued;
      } else {
        status := StatusFull;
      }
    }

    /** Inserts the attempt in the state its provider has room for. */
    method InsertAttempt(status: EnqueueStatus, s: Id, a: Id, provider: Id, ordinal: nat,
                         instance: Option<Id>, now: int)
      requires !status.Raised?
      modifies this`attempts, this`log, this`nextSequence
      ensures View() == Inserted(old(View()), status, s, a, provider, ordinal, instance, now)
    {
      var row := NewAttempt(View(), s, ordinal, provider);
      nextSequence := nextSequence + 1;
      match status {
        case StatusAcquiring =>
          row := row.(state := Acquiring);
          row := row.(acquiringAt := Some(now));
          row := row.(instance := instance);
        case StatusQueued =>
          row := row.(state := Queued);
        case StatusFull =>
          row := row.(state := Failed);
          row := row.(finishedAt := Some(now));
          row := row.(terminalReason := Some("provider_queue_full"));
          AddEvent(s, Some(a), AttemptFailedEvent, Some("provider_queue_full"), now);
      }
      attempts := attempts[a := row];
    }

    /** Grants a queued attempt its slot if it heads its provider's queue and there is room. */
    method ClaimAttempt(s: Id, owner: Id, token: Id, a: Id, provider: Id, now: int)
      returns (granted: bool, ghost rows: seq<Id>, ghost chosen: Option<Id>)
      requires clock <= now
      modifies this`attempts, this`log, this`clock
      ensures Lists(rows, StaleAttempts(old(View()), provider, now))
      ensures forall x :: x in rows ==> x in old(attempts)
      ensures Selects(Swept(old(View()), rows, now), provider, now, chosen)
      ensures (granted, View()) ==
                (Claim(old(View()), s, owner, token, a, provider, rows, chosen, now).0,
                 Claim(old(View()), s, owner, token, a, provider, rows, chosen, now).1.(clock := now))
    {
      var before := View();
      rows := ExpireStaleAttempts(provider, now);
      var instance := SelectInstance(provider, now);
      chosen := instance;
      granted := DecideClaim(before, s, owner, token, a, provider, instance, now, rows);
      clock := now;
    }

    /** The part of claim after the sweep. */
    method DecideClaim(before: Db, s: Id, owner: Id, token: Id, a: Id, provider: Id,
                       selected: Option<Id>, now: int, ghost rows: seq<Id>)
      returns (granted: bool)
      requires forall x :: x in rows ==> x in before.attempts
      requires View() == Swept(before, rows, now)
      modifies this`attempts, this`log
      ensures (granted, View()) == Claim(before, s, owner, token, a, provider, rows, selected, now)
    {
      granted := false;
      if !(Owned(before, s, owner, token) && LeaseLive(before, s, now)) {
        attempts, log := before.attempts, before.log;
        return;
      }
      if a !in attempts || attempts[a].session != s || !attempts[a].state.Queued?
         || !IsHead(View(), a, provider, now) {
        return;
      }
      if provider !in fleets && provider !in limits {
        attempts, log := before.attempts, before.log;
        return;
      }
      var room, instance := ClaimRoom(provider, selected, now);
      if room {
        GrantRow(a, instance, now);
        granted := true;
      }
    }

    /** Whether the provider has room for one more, and on which instance. */
    method ClaimRoom(provider: Id, selected: Option<Id>, now: int)
      returns (room: bool, instance: Option<Id>)
      requires provider in fleets || provider in limits
      ensures room == ClaimFits(View(), provider, selected, now)
      ensures room ==> instance == if provider in fleets then selected else None
    {
      room, instance := false, None;
      if provider in limits && !limits[provider].enabled {
        return;
      }
      instance := if provider in fleets && fleets[provider].enabled then selected else None;
      if provider in fleets {
        if !fleets[provider].enabled || instance.None? {
          return;
        }
      } else if |Holding(View(), provider, now)| >= limits[provider].maxActive {
        return;
      }
      room := true;
    }

    method GrantRow(a: Id, instance: Option<Id>, now: int)
      requires a in attempts
      modifies this`attempts
      ensures View() == Grant(old(View()), a, instance, now)
    {
      var row := attempts[a];
      row := row.(state := Acquiring);
      row := row.(acquiringAt := Some(now));
      row := row.(instance := instance);
      attempts := attempts[a := row];
    }

    method ActivateAttempt(a: Id, now: int) returns (activated: bool)
      requires clock <= now
      modifies this`attempts, this`log, this`clock
      ensures activated == (a in old(attempts) && old(attempts)[a].state.Acquiring?)
      ensures View() == Step(old(View()), DoActivate(a, now))
    {
      clock := now;
      if a !in attempts || !attempts[a].state.Acquiring? {
        return false;
      }
      var row := attempts[a];
      row := row.(state := Active);
      row := row.(activeAt := Some(now));
      attempts := attempts[a := row];
      AddEvent(row.session, Some(a), ConnectedEvent, None, now);
      activated := true;
    }

    method FinishAttempt(a: Id, failed: bool, reason: string, now: int) returns (known: bool)
      requires clock <= now
      modifies this`attempts, this`log, this`clock
      ensures known == (a in old(attempts))
      ensures View() == Step(old(View()), DoFinish(a, failed, reason, now))
    {
      known := a in attempts;
      if known && !attempts[a].state.Completed? && !attempts[a].state.Failed? {
        EndRow(a, failed, reason, now);
      }
      clock := now;
    }

    // ---- Fleet ------------------------------------------------------------------------------------------

    /** Inserts or updates the row of every observed instance. */
    method Upsert(provider: Id, seen: map<Id, Observation>, expires: int)
      requires provider in fleets
      modifies this`instances
      ensures instances.Keys == old(instances).Keys + seen.Keys
      ensures forall i :: i in instances ==>
                instances[i] == if i in seen then ObservedRow(old(View()), provider, i, seen[i], expires)
                                else old(instances)[i]
    {
      ghost var db := View();
      var observations := Query(seen.Keys);
      ghost var done := {};
      for k := 0 to |observations|
        invariant forall i :: i in done <==> i in observations[..k]
        invariant done <= seen.Keys && instances == UpsertedRows(db, provider, seen, expires, done)
      {
        var i := observations[k];
        assert i in observations && i !in observations[..k];
        UpsertedOne(db, provider, seen, expires, done, i, instances);
        ObserveOne(provider, i, seen[i], expires);
        assert observations[..k + 1] == observations[..k] + [i];
        done := done + {i};
      }
      assert observations[..|observations|] == observations;
      assert done == seen.Keys;
    }

    method ObserveOne(provider: Id, i: Id, observation: Observation, expires: int)
      requires provider in fleets
      modifies this`instances
      ensures instances == old(instances)[i := ObservedRow(old(View()), provider, i, observation, expires)]
    {
      var capacity := ObservedCapacity(fleets[provider], observation);
      if i !in instances {
        instances := instances[i := Instance(provider, observation.state, capacity, expires)];
        return;
      }
      var row := instances[i];
      if !(row.state.Draining? && observation.state.Ready?) {
        row := row.(state := observation.state);
      }
      row := row.(capacity := capacity);
      row := row.(observationExpiresAt := expires);
      instances := instances[i := row];
    }

    /** Stops the provider's instances that were not seen. */
    method StopUnseen(provider: Id, seen: set<Id>, now: int)
      modifies this`instances
      ensures instances.Keys == old(instances).Keys
      ensures forall i :: i in instances ==>
                instances[i] == if i !in seen && old(instances)[i].provider == provider
                                   && !old(instances)[i].state.Stopped?
                                then old(instances)[i].(state := Stopped, observationExpiresAt := now)
                                else old(instances)[i]
    {
      ghost var before := old(instances);
      var unseen := Query(set i | i in instances && i !in seen && instances[i].provider == provider
                                  && !instances[i].state.Stopped?);
      for k := 0 to |unseen|
        invariant instances.Keys == before.Keys
        invariant forall i :: i in instances ==>
                    instances[i] == if i in unseen[..k] then before[i].(state := Stopped, observationExpiresAt := now)
                                    else before[i]
      {
        assert unseen[k] in unseen;
        var row := instances[unseen[k]];
        row := row.(state := Stopped);
        row := row.(observationExpiresAt := now);
        instances := instances[unseen[k] := row];
      }
      assert unseen[..|unseen|] == unseen;
    }

    method ObserveInstances(provider: Id, seen: map<Id, Observation>, ttl: int, now: int) returns (known: bool)
      requires clock <= now
      modifies this`instances, this`clock
      ensures known == (provider in fleets)
      ensures View() == Observe(old(View()), provider, seen, ttl, now).(clock := now)
    {
      clock := now;
      known := provider in fleets;
      if known {
        Upsert(provider, seen, now + ttl);
        StopUnseen(provider, seen.Keys, now);
        assert instances == Observe(old(View()), provider, seen, ttl, now).instances;
      }
    }

    method PrepareToScaleDown(provider: Id, i: Id, now: int) returns (safe: bool)
      requires clock <= now
      modifies this`instances, this`clock
      ensures safe == PrepareScaleDown(old(View()), provider, i, now).0
      ensures View() == Step(old(View()), DoPrepare(provider, i, now))
    {
      clock := now;
      if i !in instances || instances[i].provider != provider {
        return false;
      }
      instances := instances[i := instances[i].(state := Draining)];
      safe := |Occupants(View(), i, now)| == 0;
      assert Occupants(View(), i, now) == Occupants(old(View()), i, now);
    }

    /** Draining instances need a fresh ready observation before they serve again. */
    method CancelDrains(provider: Id, now: int)
      requires clock <= now
      modifies this`instances, this`clock
      ensures View() == Step(old(View()), DoCancel(provider, now))
    {
      clock := now;
      var rows := Query(set i | i in instances && instances[i].provider == provider && instances[i].state.Draining?);
      RestartEach(rows);
      assert instances == CancelScaleDown(old(View()), provider).instances;
    }

    method RestartEach(rows: seq<Id>)
      requires forall i :: i in rows ==> i in instances
      modifies this`instances
      ensures instances == map i | i in old(instances) ::
                             if i in rows then old(instances)[i].(state := Starting) else old(instances)[i]
    {
      for k := 0 to |rows|
        invariant instances.Keys == old(instances).Keys
        invariant forall i :: i in instances ==>
                    instances[i] == if i in rows[..k] then old(instances)[i].(state := Starting) else old(instances)[i]
      {
        assert rows[k] in rows;
        instances := instances[rows[k] := instances[rows[k]].(state := Starting)];
      }
      assert rows[..|rows|] == rows;
    }
  }

  /** The instances after the rows of some of those seen have been written. */
  function UpsertedRows(db: Db, provider: Id, seen: map<Id, Observation>, expires: int, done: set<Id>)
    : map<Id, Instance>
    requires provider in db.fleets && done <= seen.Keys
  {
    map i | i in db.instances.Keys + done ::
      if i in done then ObservedRow(db, provider, i, seen[i], expires) else db.instances[i]
  }

  lemma UpsertedOne(db: Db, provider: Id, seen: map<Id, Observation>, expires: int, done: set<Id>, i: Id,
                    instances: map<Id, Instance>)
    requires provider in db.fleets && done <= seen.Keys && i in seen && i !in done
    requires instances == UpsertedRows(db, provider, seen, expires, done)
    ensures instances[i := ObservedRow(db.(instances := instances), provider, i, seen[i], expires)]
         == UpsertedRows(db, provider, seen, expires, done + {i})
  {
  }

  /** The sessions swept so far, each with the attempts that were live at the start of the sweep. */
  predicate Sweeping(db: Db, rows: seq<Id>, stale: seq<StaleSession>) {
    && |stale| <= |rows| && (forall i :: 0 <= i < |stale| ==> stale[i].session == rows[i])
    && ListsLive(db, stale)
    && (forall row :: row in stale ==> row.session in db.sessions && forall a :: a in row.live ==> a in db.attempts)
  }

  lemma SweepOn(db: Db, rows: seq<Id>, stale: seq<StaleSession>, mid: Db, row: StaleSession, now: int)
    requires Lists(rows, StaleSessions(db, now)) && Sweeping(db, rows, stale) && |stale| < |rows|
    requires mid == ExpireSessions(db, stale, now) && row.session == rows[|stale|]
    requires Lists(row.live, LiveAttemptsOf(mid, row.session)) && forall a :: a in row.live ==> a in mid.attempts
    ensures Sweeping(db, rows, stale + [row])
    ensures ExpireSessions(db, stale + [row], now) == ExpireSession(mid, row, now)
  {
    StaleRowLives(db, rows, |stale|, stale, now);
    OneMoreListed(db, stale, mid, row, now);
  }

  /** What a sweep lists for a session it has not reached yet is what the tables held at its start. */
  lemma StillAsListed(db: Db, mid: Db, ended: set<Id>, s: Id, live: seq<Id>, now: int)
    requires ExpiredOnly(db, mid, ended, now) && s !in ended && s in db.sessions
    requires Lists(live, LiveAttemptsOf(mid, s))
    ensures Lists(live, LiveAttemptsOf(db, s))
  {
    forall a
      ensures a in LiveAttemptsOf(mid, s) <==> a in LiveAttemptsOf(db, s)
    {
      if a in db.attempts && mid.attempts[a] != db.attempts[a] {
        assert RowAdvances(db.attempts[a], mid.attempts[a]);
      }
    }
    assert LiveAttemptsOf(mid, s) == LiveAttemptsOf(db, s);
  }

  lemma StaleListed(db: Db, rows: seq<Id>, stale: seq<StaleSession>, now: int)
    requires Lists(rows, StaleSessions(db, now)) && ListsLive(db, stale)
    requires |stale| == |rows| && forall i :: 0 <= i < |rows| ==> stale[i].session == rows[i]
    ensures ListsStale(db, stale, now)
  {
    forall row | row in stale
      ensures row.session in StaleSessions(db, now) && Lists(row.live, LiveAttemptsOf(db, row.session))
    {
      var i :| 0 <= i < |stale| && stale[i] == row;
      assert rows[i] in rows;
    }
    forall s | s in StaleSessions(db, now)
      ensures exists i :: 0 <= i < |stale| && stale[i].session == s
    {
      var i :| 0 <= i < |rows| && rows[i] == s;
      assert stale[i].session == s;
    }
  }

  lemma StaleRowLives(db: Db, rows: seq<Id>, k: nat, stale: seq<StaleSession>, now: int)
    requires Lists(rows, StaleSessions(db, now)) && k < |rows| && ListsLive(db, stale)
    requires |stale| == k && forall i :: 0 <= i < k ==> stale[i].session == rows[i]
    ensures rows[k] in db.sessions && LiveState(db.sessions[rows[k]].state) && rows[k] !in SessionsOf(stale)
    ensures forall row :: row in stale ==> row.session in db.sessions && forall a :: a in row.live ==> a in db.attempts
    ensures rows[k] in ExpireSessions(db, stale, now).sessions
  {
    assert rows[k] in rows;
    ListedRowsExist(db, stale);
    ExpireSessionsFrame(db, stale, now);
  }

  lemma OneMoreListed(db: Db, stale: seq<StaleSession>, mid: Db, row: StaleSession, now: int)
    requires ListsLive(db, stale)
    requires forall x :: x in stale ==> x.session in db.sessions && forall a :: a in x.live ==> a in db.attempts
    requires mid == ExpireSessions(db, stale, now)
    requires row.session in db.sessions && LiveState(db.sessions[row.session].state)
    requires row.session !in SessionsOf(stale) && Lists(row.live, LiveAttemptsOf(mid, row.session))
    requires forall a :: a in row.live ==> a in mid.attempts
    ensures ListsLive(db, stale + [row])
    ensures forall x :: x in stale + [row] ==> x.session in db.sessions && forall a :: a in x.live ==> a in db.attempts
    ensures ExpireSessions(db, stale + [row], now) == ExpireSession(mid, row, now)
  {
    OneMoreLive(db, stale, mid, row, now);
    ListedRowsExist(db, stale + [row]);
    assert (stale + [row])[..|stale|] == stale;
  }

  lemma OneMoreLive(db: Db, stale: seq<StaleSession>, mid: Db, row: StaleSession, now: int)
    requires ListsLive(db, stale)
    requires forall x :: x in stale ==> x.session in db.sessions && forall a :: a in x.live ==> a in db.attempts
    requires mid == ExpireSessions(db, stale, now)
    requires row.session in db.sessions && LiveState(db.sessions[row.session].state)
    requires row.session !in SessionsOf(stale) && Lists(row.live, LiveAttemptsOf(mid, row.session))
    ensures ListsLive(db, stale + [row])
  {
    ExpireSessionsFrame(db, stale, now);
    StillAsListed(db, mid, SessionsOf(stale), row.session, row.live, now);
    AppendLive(db, stale, row);
  }

  lemma AppendLive(db: Db, stale: seq<StaleSession>, row: StaleSession)
    requires ListsLive(db, stale) && row.session !in SessionsOf(stale)
    requires row.session in db.sessions && LiveState(db.sessions[row.session].state)
    requires Lists(row.live, LiveAttemptsOf(db, row.session))
    ensures ListsLive(db, stale + [row])
  {
    forall i | 0 <= i < |stale|
      ensures stale[i].session != row.session
    {
      assert stale[i].session in SessionsOf(stale);
    }
  }
}
