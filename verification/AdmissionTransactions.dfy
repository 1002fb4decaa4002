/** Every transaction of the gateway keeps the invariant and rewrites no history. */
module AdmissionTransactions {
  import opened Common
  import opened Usage
  import opened Admission
  import opened AdmissionInvariant
  import opened AdmissionSteps

  lemma ClockOn(db: Db, now: int)
    requires Inv(db) && db.clock <= now
    ensures Inv(db.(clock := now))
  {
    TablesKeep(db, db.(clock := now));
  }

  // ---- Sessions --------------------------------------------------------------------------------------

  lemma StaleIsLive(db: Db, stale: seq<StaleSession>, now: int)
    requires ListsStale(db, stale, now)
    ensures ListsLive(db, stale)
  {
    forall i | 0 <= i < |stale|
      ensures stale[i].session in db.sessions && LiveState(db.sessions[stale[i].session].state)
              && Lists(stale[i].live, LiveAttemptsOf(db, stale[i].session))
    {
      assert stale[i] in stale;
    }
  }

  lemma AdmitInv(db: Db, s: Id, owner: Id, token: Id, maxActive: int, duration: int,
                 stale: seq<StaleSession>, now: int)
    requires Inv(db) && db.clock <= now && s !in db.sessions && ListsStale(db, stale, now)
    ensures Inv(Admit(db, s, owner, token, maxActive, duration, stale, now).1)
  {
    StaleIsLive(db, stale, now);
    ExpireSessionsInv(db, stale, now);
    var swept := ExpireSessions(db, stale, now);
    AdmitSessionKeeps(swept, s, owner, token, now + duration);
    RejectSessionKeeps(swept, s, owner, token, now);
  }

  lemma NewSessionAdvances(db: Db, after: Db, s: Id, now: int)
    requires s !in db.sessions && s in after.sessions && db.log <= after.log && after.nextSequence == db.nextSequence
    requires after.attempts == db.attempts && after.sessions == db.sessions[s := after.sessions[s]]
    ensures Advances(db, after, now) && HoldersWithin(db, after, None)
  {
  }

  lemma AdmitAdvances(db: Db, s: Id, owner: Id, token: Id, maxActive: int, duration: int,
                      stale: seq<StaleSession>, now: int)
    requires s !in db.sessions && ListsStale(db, stale, now)
    ensures Advances(db, Admit(db, s, owner, token, maxActive, duration, stale, now).1, now)
    ensures HoldersWithin(db, Admit(db, s, owner, token, maxActive, duration, stale, now).1, None)
  {
    StaleIsLive(db, stale, now);
    ExpireSessionsFrame(db, stale, now);
    var swept := ExpireSessions(db, stale, now);
    ExpiredOnlyAdvances(db, swept, SessionsOf(stale), now);
    var admitted := AdmitSession(swept, s, owner, token, now + duration);
    var rejected := RejectSession(swept, s, owner, token, now);
    NewSessionAdvances(swept, admitted, s, now);
    NewSessionAdvances(swept, rejected, s, now);
    SweptThenAdded(db, swept, admitted, None, now);
    SweptThenAdded(db, swept, rejected, None, now);
  }

  lemma TerminalSessionHasNoLive(db: Db, s: Id)
    requires Inv(db) && s in db.sessions && Terminal(db.sessions[s].state)
    ensures LiveAttemptsOf(db, s) == {}
  {
    forall a | a in db.attempts
      ensures a !in LiveAttemptsOf(db, s)
    {
      assert AttemptOk(db, db.attempts[a]);
    }
  }

  lemma HeadListed(rows: seq<Id>, ids: set<Id>)
    requires Lists(rows, ids) && rows != []
    ensures rows[0] in ids
  {
    assert rows[0] in rows;
  }

  lemma NoRows(rows: seq<Id>)
    requires Lists(rows, {})
    ensures rows == []
  {
    if rows != [] {
      HeadListed(rows, {});
    }
  }

  lemma ReleaseInv(db: Db, s: Id, owner: Id, token: Id, failed: bool, reason: string, live: seq<Id>, now: int)
    requires Inv(db) && db.clock <= now && s in db.sessions && Lists(live, LiveAttemptsOf(db, s))
    ensures Inv(Release(db, s, owner, token, failed, reason, live, now))
  {
    var row := db.sessions[s];
    if Terminal(row.state) {
      TerminalSessionHasNoLive(db, s);
      NoRows(live);
    } else {
      var cleanup := if row.terminalReason.Some? && row.terminalReason.value != ""
                     then row.terminalReason.value else reason;
      EndedInv(db, s, live, failed || row.state.SessionFailed?, cleanup, failed, reason, now);
    }
  }

  lemma ReleaseAdvances(db: Db, s: Id, owner: Id, token: Id, failed: bool, reason: string, live: seq<Id>, now: int)
    requires Inv(db) && s in db.sessions && Lists(live, LiveAttemptsOf(db, s))
    ensures var after := Release(db, s, owner, token, failed, reason, live, now);
            Advances(db, after, now) && HoldersWithin(db, after, None)
  {
    var row, after := db.sessions[s], Release(db, s, owner, token, failed, reason, live, now);
    if Terminal(row.state) {
      TerminalSessionHasNoLive(db, s);
      NoRows(live);
    } else if Owned(db, s, owner, token) {
      var cleanup := if row.terminalReason.Some? && row.terminalReason.value != ""
                     then row.terminalReason.value else reason;
      EndedFrame(db, s, live, failed || row.state.SessionFailed?, cleanup, failed, reason, now);
      ExpiredOnlyAdvances(db, after, {s}, now);
    }
  }

  lemma LeaseInv(db: Db, op: Op)
    requires Inv(db) && Enabled(db, op) && (op.DoHeartbeat? || op.DoOpen?)
    ensures Inv(Step(db, op))
  {
    if Owned(db, op.s, op.owner, op.token) && LeaseLive(db, op.s, op.now) {
      RenewKeeps(db, op.s, op.now + op.duration);
      if db.sessions[op.s].state.Admitted? {
        OpenRowKeeps(db, op.s, op.now + op.duration, op.now);
      }
    }
    ClockOn(Step(db, op).(clock := db.clock), op.now);
  }

  lemma SameSessionAdvances(db: Db, after: Db, s: Id, now: int)
    requires LeaseLive(db, s, now) && s in after.sessions
    requires after == db.(sessions := db.sessions[s := after.sessions[s]], log := after.log) && db.log <= after.log
    requires after.sessions[s] == db.sessions[s].(state := after.sessions[s].state, lease := after.sessions[s].lease)
    ensures Advances(db, after, now) && HoldersWithin(db, after, None)
  {
  }

  lemma LeaseAdvances(db: Db, op: Op)
    requires Enabled(db, op) && (op.DoHeartbeat? || op.DoOpen?)
    ensures Advances(db, Step(db, op), op.now) && HoldersWithin(db, Step(db, op), None)
  {
    match op
    case DoHeartbeat(s, owner, token, duration, now) =>
      HeartbeatAdvances(db, s, owner, token, duration, now);
      ClockAdvances(db, Heartbeat(db, s, owner, token, duration, now), op.now);
    case DoOpen(s, owner, token, duration, now) =>
      OpenAdvances(db, s, owner, token, duration, now);
      ClockAdvances(db, Open(db, s, owner, token, duration, now), op.now);
  }

  lemma HeartbeatAdvances(db: Db, s: Id, owner: Id, token: Id, duration: int, now: int)
    ensures Advances(db, Heartbeat(db, s, owner, token, duration, now), now)
    ensures HoldersWithin(db, Heartbeat(db, s, owner, token, duration, now), None)
  {
    if Owned(db, s, owner, token) && LeaseLive(db, s, now) {
      SameSessionAdvances(db, Renew(db, s, now + duration), s, now);
    } else {
      UnchangedAdvances(db, now);
    }
  }

  lemma OpenAdvances(db: Db, s: Id, owner: Id, token: Id, duration: int, now: int)
    ensures Advances(db, Open(db, s, owner, token, duration, now), now)
    ensures HoldersWithin(db, Open(db, s, owner, token, duration, now), None)
  {
    if Owned(db, s, owner, token) && LeaseLive(db, s, now) && db.sessions[s].state.Admitted? {
      SameSessionAdvances(db, OpenRow(db, s, now + duration, now), s, now);
    } else {
      UnchangedAdvances(db, now);
    }
  }

  lemma UnchangedAdvances(db: Db, now: int)
    ensures Advances(db, db, now) && HoldersWithin(db, db, None)
  {
  }

  lemma ClockAdvances(db: Db, after: Db, now: int)
    requires Advances(db, after, now) && HoldersWithin(db, after, None)
    ensures Advances(db, after.(clock := now), now) && HoldersWithin(db, after.(clock := now), None)
  {
  }

  // ---- Attempts --------------------------------------------------------------------------------------

  /** The sweep over a provider's stale attempts keeps everything else. */
  lemma SweptInv(db: Db, provider: Id, rows: seq<Id>, now: int)
    requires Inv(db) && db.clock <= now && Lists(rows, StaleAttempts(db, provider, now))
    ensures LiveRows(db, rows) && Inv(Swept(db, rows, now))
  {
    EndAttemptsInv(db, rows, true, EXPIRED, now);
  }

  lemma SweptAdvances(db: Db, provider: Id, rows: seq<Id>, now: int)
    requires Lists(rows, StaleAttempts(db, provider, now))
    ensures LiveRows(db, rows)
    ensures Advances(db, Swept(db, rows, now), now) && HoldersWithin(db, Swept(db, rows, now), None)
  {
    EndAttemptsAdvances(db, rows, true, EXPIRED, now);
  }

  /** Afterwards the provider's live attempts are those that were live under a live lease. */
  lemma SweptFrame(db: Db, provider: Id, rows: seq<Id>, now: int)
    requires Lists(rows, StaleAttempts(db, provider, now))
    ensures LiveRows(db, rows)
    ensures var swept := Swept(db, rows, now);
            && (forall a :: a in db.attempts && a !in StaleAttempts(db, provider, now) ==>
                  swept.attempts[a] == db.attempts[a])
            && (forall a :: a in StaleAttempts(db, provider, now) ==> swept.attempts[a].state.Failed?)
  {
    EndAttemptsFrame(db, rows, true, EXPIRED, now);
    var swept := Swept(db, rows, now);
    forall a | a in StaleAttempts(db, provider, now)
      ensures swept.attempts[a].state.Failed?
    {
      assert a in rows;
      assert EndsRow(db.attempts[a], swept.attempts[a], true, now);
    }
  }

  lemma AddedAcquiringInv(db: Db, a: Id, s: Id, ordinal: nat, provider: Id, chosen: Option<Id>, now: int)
    requires Inv(db) && db.clock == now && a !in db.attempts
    requires s in db.sessions && LiveState(db.sessions[s].state) && |LiveAttemptsOf(db, s)| <= 1
    requires chosen.Some? ==> chosen.value in db.instances
    ensures Inv(AddAcquiring(db, a, s, ordinal, provider, chosen, now))
  {
    AddAttemptKeeps(db, a, NewAttempt(db, s, ordinal, provider).(
      state := Acquiring, acquiringAt := Some(now), instance := chosen));
  }

  lemma AddedQueuedInv(db: Db, a: Id, s: Id, ordinal: nat, provider: Id)
    requires Inv(db) && a !in db.attempts
    requires s in db.sessions && LiveState(db.sessions[s].state) && |LiveAttemptsOf(db, s)| <= 1
    ensures Inv(AddQueued(db, a, s, ordinal, provider))
  {
    AddAttemptKeeps(db, a, NewAttempt(db, s, ordinal, provider).(state := Queued));
  }

  lemma AddedInv(db: Db, a: Id, s: Id, ordinal: nat, provider: Id, chosen: Option<Id>, now: int)
    requires Inv(db) && db.clock <= now && a !in db.attempts
    requires s in db.sessions && LiveState(db.sessions[s].state) && |LiveAttemptsOf(db, s)| <= 1
    requires chosen.Some? ==> chosen.value in db.instances
    ensures Inv(AddAcquiring(db, a, s, ordinal, provider, chosen, now).(clock := now))
    ensures Inv(AddQueued(db, a, s, ordinal, provider).(clock := now))
    ensures Inv(AddFull(db, a, s, ordinal, provider, now).(clock := now))
  {
    ClockOn(db, now);
    var base := db.(clock := now);
    assert LiveAttemptsOf(base, s) == LiveAttemptsOf(db, s);
    AddedAcquiringInv(base, a, s, ordinal, provider, chosen, now);
    AddedQueuedInv(base, a, s, ordinal, provider);
    AddFullKeeps(base, a, s, ordinal, provider, now);
    AddedShapes(db, a, s, ordinal, provider, chosen, now);
  }

  lemma AddedShapes(db: Db, a: Id, s: Id, ordinal: nat, provider: Id, chosen: Option<Id>, now: int)
    ensures var base := db.(clock := now);
            && AddAcquiring(db, a, s, ordinal, provider, chosen, now).(clock := now)
               == AddAcquiring(base, a, s, ordinal, provider, chosen, now)
            && AddQueued(db, a, s, ordinal, provider).(clock := now) == AddQueued(base, a, s, ordinal, provider)
            && AddFull(db, a, s, ordinal, provider, now).(clock := now)
               == AddFull(base, a, s, ordinal, provider, now)
  {
  }

  lemma SelectedExists(db: Db, provider: Id, now: int, chosen: Option<Id>)
    requires Selects(db, provider, now, chosen)
    ensures chosen.Some? ==> chosen.value in db.instances
  {
  }

  lemma EnqueueInv(db: Db, s: Id, owner: Id, token: Id, a: Id, provider: Id, source: Option<Id>,
                   rows: seq<Id>, ordinal: nat, chosen: Option<Id>, now: int)
    requires Inv(db) && Enabled(db, DoEnqueue(s, owner, token, a, provider, source, rows, ordinal, chosen, now))
    ensures Inv(Enqueue(db, s, owner, token, a, provider, source, rows, ordinal, chosen, now).1.(clock := now))
  {
    SweptInv(db, provider, rows, now);
    if EnqueueRaises(db, s, owner, token, provider, source, rows, now) {
      ClockOn(db, now);
    } else {
      var swept := Swept(db, rows, now);
      SelectedExists(swept, provider, now, chosen);
      AddedInv(swept, a, s, ordinal, provider, chosen, now);
      AddedInv(swept, a, s, ordinal, provider, None, now);
      EnqueueShape(db, s, owner, token, a, provider, source, rows, ordinal, chosen, now);
    }
  }

  /** An enqueue that does not raise adds its attempt to the swept tables in one of three ways. */
  lemma EnqueueShape(db: Db, s: Id, owner: Id, token: Id, a: Id, provider: Id, source: Option<Id>,
                     rows: seq<Id>, ordinal: nat, chosen: Option<Id>, now: int)
    requires forall x :: x in rows ==> x in db.attempts
    requires !EnqueueRaises(db, s, owner, token, provider, source, rows, now)
    ensures var (status, after) := Enqueue(db, s, owner, token, a, provider, source, rows, ordinal, chosen, now);
            var swept := Swept(db, rows, now);
            match status
            case Raised => false
            case StatusAcquiring =>
              after == AddAcquiring(swept, a, s, ordinal, provider, chosen, now)
              || after == AddAcquiring(swept, a, s, ordinal, provider, None, now)
            case StatusQueued => after == AddQueued(swept, a, s, ordinal, provider)
            case StatusFull => after == AddFull(swept, a, s, ordinal, provider, now)
  {
  }

  lemma NewAttemptAdvances(db: Db, after: Db, a: Id, now: int)
    requires a !in db.attempts && a in after.attempts && after.attempts == db.attempts[a := after.attempts[a]]
    requires after.attempts[a].queueSequence == db.nextSequence && after.nextSequence == db.nextSequence + 1
    requires after.sessions == db.sessions && db.log <= after.log
    ensures Advances(db, after, now)
    ensures HoldersWithin(db, after, if Holds(after.attempts[a].state) then Some(a) else None)
  {
  }

  lemma EnqueueAdvances(db: Db, s: Id, owner: Id, token: Id, a: Id, provider: Id, source: Option<Id>,
                        rows: seq<Id>, ordinal: nat, chosen: Option<Id>, now: int)
    requires a !in db.attempts && Lists(rows, StaleAttempts(db, provider, now))
    ensures forall x :: x in rows ==> x in db.attempts
    ensures var (status, after) := Enqueue(db, s, owner, token, a, provider, source, rows, ordinal, chosen, now);
            Advances(db, after, now) && HoldersWithin(db, after, if status.StatusAcquiring? then Some(a) else None)
  {
    SweptAdvances(db, provider, rows, now);
    var (status, after) := Enqueue(db, s, owner, token, a, provider, source, rows, ordinal, chosen, now);
    if !status.Raised? {
      EnqueueShape(db, s, owner, token, a, provider, source, rows, ordinal, chosen, now);
      var swept := Swept(db, rows, now);
      AddedAdvances(swept, a, s, ordinal, provider, chosen, now);
      AddedAdvances(swept, a, s, ordinal, provider, None, now);
      SweptThenAdded(db, swept, after, if status.StatusAcquiring? then Some(a) else None, now);
    }
  }

  lemma AddedAdvances(db: Db, a: Id, s: Id, ordinal: nat, provider: Id, chosen: Option<Id>, now: int)
    requires a !in db.attempts
    ensures Advances(db, AddAcquiring(db, a, s, ordinal, provider, chosen, now), now)
    ensures HoldersWithin(db, AddAcquiring(db, a, s, ordinal, provider, chosen, now), Some(a))
    ensures Advances(db, AddQueued(db, a, s, ordinal, provider), now)
    ensures HoldersWithin(db, AddQueued(db, a, s, ordinal, provider), None)
    ensures Advances(db, AddFull(db, a, s, ordinal, provider, now), now)
    ensures HoldersWithin(db, AddFull(db, a, s, ordinal, provider, now), None)
  {
    NewAttemptAdvances(db, AddAcquiring(db, a, s, ordinal, provider, chosen, now), a, now);
    NewAttemptAdvances(db, AddQueued(db, a, s, ordinal, provider), a, now);
    NewAttemptAdvances(db, AddFull(db, a, s, ordinal, provider, now), a, now);
  }

  lemma SweptThenAdded(db: Db, swept: Db, after: Db, granted: Option<Id>, now: int)
    requires Advances(db, swept, now) && HoldersWithin(db, swept, None)
    requires Advances(swept, after, now) && HoldersWithin(swept, after, granted)
    ensures Advances(db, after, now) && HoldersWithin(db, after, granted)
  {
    AdvancesTransitive(db, swept, after, now);
    HoldersTransitive(db, swept, after, granted);
  }

  lemma ClaimInv(db: Db, s: Id, owner: Id, token: Id, a: Id, provider: Id,
                 rows: seq<Id>, chosen: Option<Id>, now: int)
    requires Inv(db) && Enabled(db, DoClaim(s, owner, token, a, provider, rows, chosen, now))
    ensures Inv(Claim(db, s, owner, token, a, provider, rows, chosen, now).1.(clock := now))
  {
    SweptInv(db, provider, rows, now);
    ClaimShape(db, s, owner, token, a, provider, rows, chosen, now);
    SelectedExists(Swept(db, rows, now), provider, now, chosen);
    var (granted, after) := Claim(db, s, owner, token, a, provider, rows, chosen, now);
    ClaimedInv(db, Swept(db, rows, now), after, granted, a, if provider in db.fleets then chosen else None, now);
  }

  lemma ClaimedInv(db: Db, swept: Db, after: Db, granted: bool, a: Id, chosen: Option<Id>, now: int)
    requires Inv(db) && Inv(swept) && db.clock == swept.clock <= now
    requires chosen.Some? ==> chosen.value in swept.instances
    requires if granted then
               a in swept.attempts && swept.attempts[a].state.Queued? && after == Grant(swept, a, chosen, now)
             else after == db || after == swept
    ensures Inv(after.(clock := now))
  {
    if granted {
      GrantKeeps(swept, a, chosen, now);
    } else {
      ClockOn(db, now);
      ClockOn(swept, now);
    }
  }

  /** A claim leaves the tables alone, only sweeps them, or grants the attempt it names. */
  lemma ClaimShape(db: Db, s: Id, owner: Id, token: Id, a: Id, provider: Id,
                   rows: seq<Id>, chosen: Option<Id>, now: int)
    requires forall x :: x in rows ==> x in db.attempts
    ensures var (granted, after) := Claim(db, s, owner, token, a, provider, rows, chosen, now);
            var swept := Swept(db, rows, now);
            if granted then
              && a in swept.attempts && swept.attempts[a].state.Queued? && LeaseLive(db, s, now)
              && swept.attempts[a].session == s
              && (provider in db.fleets ==> ClaimFits(swept, provider, chosen, now))
              && after == Grant(swept, a, if provider in db.fleets then chosen else None, now)
            else after == db || after == swept
  {
  }

  lemma GrantAdvances(db: Db, a: Id, chosen: Option<Id>, now: int)
    requires a in db.attempts && db.attempts[a].state.Queued? && Plain(db.attempts[a])
    ensures Advances(db, Grant(db, a, chosen, now), now)
    ensures HoldersWithin(db, Grant(db, a, chosen, now), Some(a))
  {
  }

  lemma ClaimAdvances(db: Db, s: Id, owner: Id, token: Id, a: Id, provider: Id,
                      rows: seq<Id>, chosen: Option<Id>, now: int)
    requires Lists(rows, StaleAttempts(db, provider, now)) && forall x :: x in db.attempts ==> Plain(db.attempts[x])
    ensures forall x :: x in rows ==> x in db.attempts
    ensures var (granted, after) := Claim(db, s, owner, token, a, provider, rows, chosen, now);
            Advances(db, after, now) && HoldersWithin(db, after, if granted then Some(a) else None)
  {
    SweptAdvances(db, provider, rows, now);
    var (granted, after) := Claim(db, s, owner, token, a, provider, rows, chosen, now);
    if granted {
      var swept := Swept(db, rows, now);
      SweptFrame(db, provider, rows, now);
      assert swept.attempts[a] == db.attempts[a];
      GrantAdvances(swept, a, if provider in db.fleets then chosen else None, now);
      AdvancesTransitive(db, swept, after, now);
      HoldersTransitive(db, swept, after, Some(a));
    }
  }

  lemma FinishInv(db: Db, a: Id, failed: bool, reason: string, now: int)
    requires Inv(db) && db.clock <= now
    ensures Inv(Finish(db, a, failed, reason, now).(clock := now))
  {
    if a in db.attempts && !TerminalAttempt(db.attempts[a].state) {
      assert AttemptOk(db, db.attempts[a]);
      EndAttemptKeeps(db, a, failed, reason, now);
    }
    ClockOn(Finish(db, a, failed, reason, now), now);
  }

  lemma FinishAdvances(db: Db, a: Id, failed: bool, reason: string, now: int)
    requires forall x :: x in db.attempts ==> Plain(db.attempts[x])
    ensures Advances(db, Finish(db, a, failed, reason, now), now)
    ensures HoldersWithin(db, Finish(db, a, failed, reason, now), None)
  {
    if a in db.attempts && !TerminalAttempt(db.attempts[a].state) {
      EndAttemptFrame(db, a, failed, reason, now);
      EndedOnlyAdvances(db, EndAttempt(db, a, failed, reason, now), failed, now);
    }
  }

  lemma ActivateInv(db: Db, a: Id, now: int)
    requires Inv(db) && db.clock <= now
    ensures Inv(Activate(db, a, now).(clock := now))
  {
    ClockOn(db, now);
    if a in db.attempts && db.attempts[a].state.Acquiring? {
      ActivateRowKeeps(db, a, now);
    }
  }

  lemma ActivateAdvances(db: Db, a: Id, now: int)
    requires forall x :: x in db.attempts ==> Plain(db.attempts[x])
    ensures Advances(db, Activate(db, a, now), now) && HoldersWithin(db, Activate(db, a, now), None)
  {
    if a in db.attempts && db.attempts[a].state.Acquiring? {
      assert RowAdvances(db.attempts[a], ActivateRow(db, a, now).attempts[a]);
      HeldRowAdvances(db, ActivateRow(db, a, now), a, now);
    }
  }

  /** A row that held a slot before may go on. */
  lemma HeldRowAdvances(db: Db, after: Db, a: Id, now: int)
    requires a in db.attempts && a in after.attempts && after.attempts == db.attempts[a := after.attempts[a]]
    requires after == db.(attempts := after.attempts, log := after.log) && db.log <= after.log
    requires RowAdvances(db.attempts[a], after.attempts[a]) && Holds(db.attempts[a].state)
    requires after.attempts[a].instance == db.attempts[a].instance
    ensures Advances(db, after, now) && HoldersWithin(db, after, None)
  {
  }

  // ---- Fleet ----------------------------------------------------------------------------------------------

  predicate FleetOp(op: Op) {
    op.DoObserve? || op.DoPrepare? || op.DoCancel? || op.DoConfigure?
  }

  lemma FleetInv(db: Db, op: Op)
    requires Inv(db) && Enabled(db, op) && FleetOp(op)
    ensures Inv(Step(db, op))
  {
    TablesKeep(db, Step(db, op));
  }

  lemma FleetAdvances(db: Db, op: Op)
    requires Enabled(db, op) && FleetOp(op)
    ensures Step(db, op).sessions == db.sessions && Step(db, op).attempts == db.attempts
    ensures Advances(db, Step(db, op), op.now) && HoldersWithin(db, Step(db, op), None)
  {
  }

  // ---- All of them -----------------------------------------------------------------------------------------

  /** The attempt a step grants a slot, if any. */
  ghost function Granted(db: Db, op: Op): Option<Id>
    requires Enabled(db, op)
  {
    match op
    case DoEnqueue(s, owner, token, a, provider, source, rows, ordinal, chosen, now) =>
      if Enqueue(db, s, owner, token, a, provider, source, rows, ordinal, chosen, now).0.StatusAcquiring?
      then Some(a) else None
    case DoClaim(s, owner, token, a, provider, rows, chosen, now) =>
      if Claim(db, s, owner, token, a, provider, rows, chosen, now).0 then Some(a) else None
    case _ => None
  }

  /** Every transaction keeps the invariant. */
  lemma StepInv(db: Db, op: Op)
    requires Inv(db) && Enabled(db, op)
    ensures Inv(Step(db, op))
  {
    match op
    case DoAdmit(s, owner, token, maxActive, duration, stale, now) =>
      AdmitInv(db, s, owner, token, maxActive, duration, stale, now);
      ClockOn(Admit(db, s, owner, token, maxActive, duration, stale, now).1, now);
    case DoHeartbeat(_, _, _, _, _) => LeaseInv(db, op);
    case DoOpen(_, _, _, _, _) => LeaseInv(db, op);
    case DoRelease(s, owner, token, failed, reason, live, now) =>
      if s in db.sessions {
        ReleaseInv(db, s, owner, token, failed, reason, live, now);
        ClockOn(Release(db, s, owner, token, failed, reason, live, now), now);
      } else {
        ClockOn(db, now);
      }
    case DoEnqueue(s, owner, token, a, provider, source, rows, ordinal, chosen, now) =>
      EnqueueInv(db, s, owner, token, a, provider, source, rows, ordinal, chosen, now);
    case DoClaim(s, owner, token, a, provider, rows, chosen, now) =>
      ClaimInv(db, s, owner, token, a, provider, rows, chosen, now);
    case DoActivate(a, now) => ActivateInv(db, a, now);
    case DoFinish(a, failed, reason, now) => FinishInv(db, a, failed, reason, now);
    case DoObserve(_, _, _, _) => FleetInv(db, op);
    case DoPrepare(_, _, _) => FleetInv(db, op);
    case DoCancel(_, _) => FleetInv(db, op);
    case DoConfigure(_, _, _, _) => FleetInv(db, op);
  }

  lemma SessionStepAdvances(db: Db, op: Op)
    requires Inv(db) && Enabled(db, op) && (op.DoAdmit? || op.DoHeartbeat? || op.DoOpen? || op.DoRelease?)
    ensures Advances(db, Step(db, op), op.now)
    ensures HoldersWithin(db, Step(db, op), None)
  {
    InvPlain(db);
    match op
    case DoAdmit(s, owner, token, maxActive, duration, stale, now) =>
      AdmitAdvances(db, s, owner, token, maxActive, duration, stale, now);
    case DoHeartbeat(_, _, _, _, _) => LeaseAdvances(db, op);
    case DoOpen(_, _, _, _, _) => LeaseAdvances(db, op);
    case DoRelease(s, owner, token, failed, reason, live, now) =>
      if s in db.sessions {
        ReleaseAdvances(db, s, owner, token, failed, reason, live, now);
      }
  }

  lemma GrantingStepAdvances(db: Db, op: Op)
    requires Inv(db) && Enabled(db, op) && (op.DoEnqueue? || op.DoClaim?)
    ensures Advances(db, Step(db, op), op.now)
    ensures HoldersWithin(db, Step(db, op), Granted(db, op))
  {
    InvPlain(db);
    match op
    case DoEnqueue(s, owner, token, a, provider, source, rows, ordinal, chosen, now) =>
      EnqueueAdvances(db, s, owner, token, a, provider, source, rows, ordinal, chosen, now);
    case DoClaim(s, owner, token, a, provider, rows, chosen, now) =>
      ClaimAdvances(db, s, owner, token, a, provider, rows, chosen, now);
  }

  /** Every transaction rewrites no history, revives no lease, and adds no holder of a slot but the
      attempt it grants. */
  lemma StepAdvances(db: Db, op: Op)
    requires Inv(db) && Enabled(db, op)
    ensures Advances(db, Step(db, op), op.now)
    ensures HoldersWithin(db, Step(db, op), Granted(db, op))
  {
    InvPlain(db);
    match op
    case DoAdmit(_, _, _, _, _, _, _) => SessionStepAdvances(db, op);
    case DoHeartbeat(_, _, _, _, _) => SessionStepAdvances(db, op);
    case DoOpen(_, _, _, _, _) => SessionStepAdvances(db, op);
    case DoRelease(_, _, _, _, _, _, _) => SessionStepAdvances(db, op);
    case DoEnqueue(_, _, _, _, _, _, _, _, _, _) => GrantingStepAdvances(db, op);
    case DoClaim(_, _, _, _, _, _, _, _) => GrantingStepAdvances(db, op);
    case DoActivate(a, now) => ActivateAdvances(db, a, now);
    case DoFinish(a, failed, reason, now) => FinishAdvances(db, a, failed, reason, now);
    case DoObserve(_, _, _, _) => FleetAdvances(db, op);
    case DoPrepare(_, _, _) => FleetAdvances(db, op);
    case DoCancel(_, _) => FleetAdvances(db, op);
    case DoConfigure(_, _, _, _) => FleetAdvances(db, op);
  }
}
