/** What an ended attempt is charged, told by the times of its own row: over every run, however it ended. */
module AdmissionUsage {
  import opened Common
  import opened Usage
  import opened Admission
  import opened AdmissionInvariant
  import opened AdmissionSteps
  import opened AdmissionTransactions
  import opened AdmissionRuns

  /** The attempt is charged from its acquisition to its end, and its browser time runs from its
      activation to its end; what never began is not counted. */
  predicate Measured(row: Attempt) {
    row.finishedAt.Some? && Measures(row.usage, row.acquiringAt, row.activeAt, row.finishedAt.value)
  }

  /** An acquired attempt costs its time at its provider's rate, if there is one, to the next whole unit. */
  predicate Priced(row: Attempt, rates: map<Id, int>) {
    if row.acquiringAt.Some? && row.provider in rates then
      && row.usage.rate == Some(rates[row.provider])
      && row.usage.chargeableMs.Some? && row.usage.modeledCost.Some?
      && 0 <= 1000 * row.usage.modeledCost.value - row.usage.chargeableMs.value * rates[row.provider] < 1000
    else row.usage.rate.None? && row.usage.modeledCost.None?
  }

  function TerminalEvent(a: Id, row: Attempt, at: int): Event {
    Event(row.session, Some(a), if row.state.Failed? then AttemptFailedEvent else AttemptClosedEvent,
          if row.state.Failed? then row.terminalReason else None, at)
  }

  /** The attempt has ended at this time, and is charged and logged for it. */
  predicate Settled(db: Db, a: Id, rates: map<Id, int>, at: int)
    requires a in db.attempts
  {
    var row := db.attempts[a];
    && row.finishedAt == Some(at) && Measured(row) && Priced(row, rates) && TerminalEvent(a, row, at) in db.log
  }

  /** Until an attempt ends nothing is charged, and its times have come. */
  predicate Unsettled(row: Attempt, now: int) {
    && row.usage == NOTHING
    && (row.acquiringAt.Some? ==> row.acquiringAt.value <= now)
    && (row.activeAt.Some? ==> row.activeAt.value <= now)
  }

  predicate Timely(db: Db, now: int) {
    forall a :: a in db.attempts && !TerminalAttempt(db.attempts[a].state) ==> Unsettled(db.attempts[a], now)
  }

  predicate EndedAlready(db: Db, after: Db, a: Id)
    requires a in after.attempts
  {
    a in db.attempts && TerminalAttempt(db.attempts[a].state) && after.attempts[a] == db.attempts[a]
  }

  /** Whatever has ended in between is settled. */
  predicate EndsWell(db: Db, after: Db, now: int) {
    && after.rates == db.rates && db.log <= after.log && Timely(after, now)
    && forall a :: a in after.attempts && TerminalAttempt(after.attempts[a].state) ==>
         EndedAlready(db, after, a) || Settled(after, a, db.rates, now)
  }

  lemma InvTimely(db: Db, now: int)
    requires Inv(db) && db.clock <= now
    ensures Timely(db, now) && EndsWell(db, db, now)
  {
    forall a | a in db.attempts && !TerminalAttempt(db.attempts[a].state)
      ensures Unsettled(db.attempts[a], now)
    {
      assert AttemptOk(db, db.attempts[a]);
    }
  }

  lemma FinalizedIsMeasured(row: Attempt, rates: map<Id, int>, now: int)
    requires Unsettled(row, now) && row.finishedAt == Some(now)
    ensures var rate := if row.provider in rates then Some(rates[row.provider]) else None;
            var done := row.(usage := Finalized(NOTHING, row.acquiringAt, row.activeAt, rate, now));
            Measured(done) && Priced(done, rates)
  {
    FinalizedMeasures(row.acquiringAt, row.activeAt,
                      if row.provider in rates then Some(rates[row.provider]) else None, now);
  }

  lemma EndAttemptSettles(db: Db, a: Id, failed: bool, reason: string, now: int)
    requires Timely(db, now) && a in db.attempts && !TerminalAttempt(db.attempts[a].state)
    ensures EndsWell(db, EndAttempt(db, a, failed, reason, now), now)
  {
    var row, after := db.attempts[a], EndAttempt(db, a, failed, reason, now);
    FinalizedIsMeasured(row.(state := after.attempts[a].state, finishedAt := Some(now),
                             terminalReason := Some(reason)), db.rates, now);
    assert Settled(after, a, db.rates, now);
  }

  lemma SettledOn(db: Db, after: Db, a: Id, rates: map<Id, int>, at: int)
    requires a in db.attempts && Settled(db, a, rates, at) && a in after.attempts && db.log <= after.log
    requires after.attempts[a] == db.attempts[a]
    ensures Settled(after, a, rates, at)
  {
  }

  lemma WellThenWell(x: Db, y: Db, z: Db, now: int)
    requires EndsWell(x, y, now) && EndsWell(y, z, now)
    ensures EndsWell(x, z, now)
  {
    forall a | a in z.attempts && TerminalAttempt(z.attempts[a].state)
      ensures EndedAlready(x, z, a) || Settled(z, a, x.rates, now)
    {
      if EndedAlready(y, z, a) && !EndedAlready(x, y, a) {
        SettledOn(y, z, a, x.rates, now);
      }
    }
  }

  lemma {:induction false} EndAttemptsSettle(db: Db, rows: seq<Id>, failed: bool, reason: string, now: int)
    requires Timely(db, now) && LiveRows(db, rows)
    ensures EndsWell(db, EndAttempts(db, rows, failed, reason, now), now)
  {
    if rows != [] {
      var init, last := rows[..|rows| - 1], rows[|rows| - 1];
      assert last !in init;
      EndAttemptsFrame(db, init, failed, reason, now);
      EndAttemptsSettle(db, init, failed, reason, now);
      var mid := EndAttempts(db, init, failed, reason, now);
      EndAttemptSettles(mid, last, failed, reason, now);
      WellThenWell(db, mid, EndAttempt(mid, last, failed, reason, now), now);
    }
  }

  /** The attempts stand as they were. */
  lemma SameAttempts(db: Db, after: Db, now: int)
    requires Timely(db, now) && after.attempts == db.attempts && after.rates == db.rates && db.log <= after.log
    ensures EndsWell(db, after, now)
  {
  }

  lemma WellThenSame(db: Db, mid: Db, after: Db, now: int)
    requires EndsWell(db, mid, now)
    requires after.attempts == mid.attempts && after.rates == mid.rates && mid.log <= after.log
    ensures EndsWell(db, after, now)
  {
    SameAttempts(mid, after, now);
    WellThenWell(db, mid, after, now);
  }

  lemma {:induction false} ExpireSessionsSettle(db: Db, rows: seq<StaleSession>, now: int)
    requires Timely(db, now) && ListsLive(db, rows)
    ensures forall row :: row in rows ==> row.session in db.sessions && forall a :: a in row.live ==> a in db.attempts
    ensures EndsWell(db, ExpireSessions(db, rows, now), now)
  {
    ListedRowsExist(db, rows);
    if rows != [] {
      var init, row := rows[..|rows| - 1], rows[|rows| - 1];
      ListsLivePrefix(db, rows);
      ExpireSessionsFrame(db, init, now);
      ExpireSessionsSettle(db, init, now);
      ExpireOneSettles(db, ExpireSessions(db, init, now), SessionsOf(init), row, now);
    }
  }

  lemma ExpireOneSettles(db: Db, mid: Db, ended: set<Id>, row: StaleSession, now: int)
    requires EndsWell(db, mid, now) && ExpiredOnly(db, mid, ended, now)
    requires row.session !in ended && row.session in db.sessions
    requires Lists(row.live, LiveAttemptsOf(db, row.session))
    ensures forall a :: a in row.live ==> a in mid.attempts
    ensures EndsWell(db, ExpireSession(mid, row, now), now)
  {
    StillListed(db, mid, ended, row, now);
    ListedRowsAreLive(mid, row.session, row.live);
    EndAttemptsSettle(mid, row.live, true, EXPIRED, now);
    var cleared := EndAttempts(mid, row.live, true, EXPIRED, now);
    WellThenWell(db, mid, cleared, now);
    EndSessionSettles(db, cleared, row.session, true, EXPIRED, now);
  }

  lemma AdmitSettles(db: Db, op: Op)
    requires Inv(db) && Enabled(db, op) && op.DoAdmit?
    ensures EndsWell(db, Step(db, op), op.now)
  {
    InvTimely(db, op.now);
    StaleIsLive(db, op.stale, op.now);
    ExpireSessionsSettle(db, op.stale, op.now);
    AdmittedIsSwept(db, op.s, op.owner, op.token, op.maxActive, op.duration, op.stale, op.now);
    var after := Admit(db, op.s, op.owner, op.token, op.maxActive, op.duration, op.stale, op.now).1;
    WellThenSame(db, ExpireSessions(db, op.stale, op.now), after, op.now);
    WellThenSame(db, after, Step(db, op), op.now);
  }

  lemma AdmittedIsSwept(db: Db, s: Id, owner: Id, token: Id, maxActive: int, duration: int,
                        rows: seq<StaleSession>, now: int)
    requires s !in db.sessions && ListsStale(db, rows, now)
    requires forall row :: row in rows ==> row.session in db.sessions && forall a :: a in row.live ==> a in db.attempts
    ensures var after := Admit(db, s, owner, token, maxActive, duration, rows, now).1;
            var swept := ExpireSessions(db, rows, now);
            after.attempts == swept.attempts && after.rates == swept.rates && swept.log <= after.log
  {
  }

  lemma ReleaseSettles(db: Db, s: Id, owner: Id, token: Id, failed: bool, reason: string, live: seq<Id>, now: int)
    requires Timely(db, now) && s in db.sessions && Lists(live, LiveAttemptsOf(db, s))
    ensures EndsWell(db, Release(db, s, owner, token, failed, reason, live, now), now)
  {
    var row := db.sessions[s];
    var cleanup := if row.terminalReason.Some? && row.terminalReason.value != ""
                   then row.terminalReason.value else reason;
    ListedRowsAreLive(db, s, live);
    EndAttemptsSettle(db, live, failed || row.state.SessionFailed?, cleanup, now);
    var cleared := EndAttempts(db, live, failed || row.state.SessionFailed?, cleanup, now);
    EndSessionSettles(db, cleared, s, failed, reason, now);
    SameAttempts(db, db, now);
  }

  lemma EndSessionSettles(db: Db, cleared: Db, s: Id, failed: bool, reason: string, now: int)
    requires EndsWell(db, cleared, now) && s in cleared.sessions
    ensures EndsWell(db, EndSession(cleared, s, failed, reason, now), now)
  {
    WellThenSame(db, cleared, EndSession(cleared, s, failed, reason, now), now);
  }

  lemma ReleaseStepSettles(db: Db, op: Op)
    requires Inv(db) && Enabled(db, op) && op.DoRelease?
    ensures EndsWell(db, Step(db, op), op.now)
  {
    InvTimely(db, op.now);
    if op.s in db.sessions {
      ReleaseSettles(db, op.s, op.owner, op.token, op.failed, op.reason, op.live, op.now);
      WellThenSame(db, Release(db, op.s, op.owner, op.token, op.failed, op.reason, op.live, op.now),
                   Step(db, op), op.now);
    } else {
      SameAttempts(db, Step(db, op), op.now);
    }
  }

  lemma SweptSettles(db: Db, provider: Id, rows: seq<Id>, now: int)
    requires Timely(db, now) && Lists(rows, StaleAttempts(db, provider, now))
    ensures LiveRows(db, rows) && EndsWell(db, Swept(db, rows, now), now)
  {
    SweptAdvances(db, provider, rows, now);
    EndAttemptsSettle(db, rows, true, EXPIRED, now);
  }

  lemma AddedSettles(db: Db, a: Id, s: Id, ordinal: nat, provider: Id, chosen: Option<Id>, now: int)
    requires Timely(db, now)
    ensures EndsWell(db, AddAcquiring(db, a, s, ordinal, provider, chosen, now), now)
    ensures EndsWell(db, AddQueued(db, a, s, ordinal, provider), now)
    ensures EndsWell(db, AddFull(db, a, s, ordinal, provider, now), now)
  {
  }

  lemma EnqueueSettles(db: Db, s: Id, owner: Id, token: Id, a: Id, provider: Id, source: Option<Id>,
                       rows: seq<Id>, ordinal: nat, chosen: Option<Id>, now: int)
    requires Timely(db, now) && a !in db.attempts && Lists(rows, StaleAttempts(db, provider, now))
    ensures LiveRows(db, rows)
    ensures EndsWell(db, Enqueue(db, s, owner, token, a, provider, source, rows, ordinal, chosen, now).1, now)
  {
    SweptSettles(db, provider, rows, now);
    var after := Enqueue(db, s, owner, token, a, provider, source, rows, ordinal, chosen, now).1;
    if EnqueueRaises(db, s, owner, token, provider, source, rows, now) {
      SameAttempts(db, after, now);
    } else {
      var swept := Swept(db, rows, now);
      AddedSettles(swept, a, s, ordinal, provider, chosen, now);
      AddedSettles(swept, a, s, ordinal, provider, None, now);
      EnqueueShape(db, s, owner, token, a, provider, source, rows, ordinal, chosen, now);
      WellThenWell(db, swept, after, now);
    }
  }

  lemma GrantSettles(db: Db, a: Id, chosen: Option<Id>, now: int)
    requires Timely(db, now) && a in db.attempts && db.attempts[a].state.Queued?
    ensures EndsWell(db, Grant(db, a, chosen, now), now)
  {
    assert Unsettled(db.attempts[a], now);
  }

  lemma ClaimSettles(db: Db, s: Id, owner: Id, token: Id, a: Id, provider: Id,
                     rows: seq<Id>, chosen: Option<Id>, now: int)
    requires Timely(db, now) && Lists(rows, StaleAttempts(db, provider, now))
    ensures LiveRows(db, rows)
    ensures EndsWell(db, Claim(db, s, owner, token, a, provider, rows, chosen, now).1, now)
  {
    SweptSettles(db, provider, rows, now);
    SameAttempts(db, db, now);
    ClaimShape(db, s, owner, token, a, provider, rows, chosen, now);
    var (granted, after) := Claim(db, s, owner, token, a, provider, rows, chosen, now);
    if granted {
      var swept := Swept(db, rows, now);
      GrantSettles(swept, a, if provider in db.fleets then chosen else None, now);
      WellThenWell(db, swept, after, now);
    }
  }

  lemma GrantingStepSettles(db: Db, op: Op)
    requires Inv(db) && Enabled(db, op) && (op.DoEnqueue? || op.DoClaim?)
    ensures EndsWell(db, Step(db, op), op.now)
  {
    InvTimely(db, op.now);
    match op
    case DoEnqueue(s, owner, token, a, provider, source, rows, ordinal, chosen, now) =>
      EnqueueSettles(db, s, owner, token, a, provider, source, rows, ordinal, chosen, now);
      WellThenSame(db, Enqueue(db, s, owner, token, a, provider, source, rows, ordinal, chosen, now).1,
                   Step(db, op), now);
    case DoClaim(s, owner, token, a, provider, rows, chosen, now) =>
      ClaimSettles(db, s, owner, token, a, provider, rows, chosen, now);
      WellThenSame(db, Claim(db, s, owner, token, a, provider, rows, chosen, now).1, Step(db, op), now);
  }

  lemma FinishSettles(db: Db, op: Op)
    requires Inv(db) && Enabled(db, op) && op.DoFinish?
    ensures EndsWell(db, Step(db, op), op.now)
  {
    InvTimely(db, op.now);
    if op.a in db.attempts && !TerminalAttempt(db.attempts[op.a].state) {
      EndAttemptSettles(db, op.a, op.failed, op.reason, op.now);
    }
    WellThenSame(db, Finish(db, op.a, op.failed, op.reason, op.now), Step(db, op), op.now);
  }

  lemma ActivateRowSettles(db: Db, a: Id, now: int)
    requires Timely(db, now) && a in db.attempts && db.attempts[a].state.Acquiring?
    ensures EndsWell(db, ActivateRow(db, a, now), now)
  {
    assert Unsettled(db.attempts[a], now);
  }

  lemma ActivateSettles(db: Db, op: Op)
    requires Inv(db) && Enabled(db, op) && op.DoActivate?
    ensures EndsWell(db, Step(db, op), op.now)
  {
    InvTimely(db, op.now);
    if op.a in db.attempts && db.attempts[op.a].state.Acquiring? {
      ActivateRowSettles(db, op.a, op.now);
    }
    WellThenSame(db, Activate(db, op.a, op.now), Step(db, op), op.now);
  }

  predicate LeavesAttempts(op: Op) {
    op.DoHeartbeat? || op.DoOpen? || op.DoObserve? || op.DoPrepare? || op.DoCancel?
  }

  lemma LeftAlone(db: Db, op: Op)
    requires Enabled(db, op) && LeavesAttempts(op)
    ensures Step(db, op).attempts == db.attempts && Step(db, op).rates == db.rates && db.log <= Step(db, op).log
  {
    match op
    case DoHeartbeat(_, _, _, _, _) =>
    case DoOpen(_, _, _, _, _) =>
    case DoObserve(_, _, _, _) =>
    case DoPrepare(_, _, _) =>
    case DoCancel(_, _) =>
  }

  lemma OtherStepSettles(db: Db, op: Op)
    requires Inv(db) && Enabled(db, op) && LeavesAttempts(op)
    ensures EndsWell(db, Step(db, op), op.now)
  {
    InvTimely(db, op.now);
    LeftAlone(db, op);
    SameAttempts(db, Step(db, op), op.now);
  }

  /** Every step settles what it ends, however it ends it; a configuration ends nothing. */
  lemma StepSettles(db: Db, op: Op)
    requires Inv(db) && Enabled(db, op)
    ensures if op.DoConfigure? then Step(db, op).attempts == db.attempts && Step(db, op).log == db.log
            else EndsWell(db, Step(db, op), op.now)
  {
    match op
    case DoAdmit(_, _, _, _, _, _, _) => AdmitSettles(db, op);
    case DoRelease(_, _, _, _, _, _, _) => ReleaseStepSettles(db, op);
    case DoEnqueue(_, _, _, _, _, _, _, _, _, _) => GrantingStepSettles(db, op);
    case DoClaim(_, _, _, _, _, _, _, _) => GrantingStepSettles(db, op);
    case DoActivate(_, _) => ActivateSettles(db, op);
    case DoFinish(_, _, _, _) => FinishSettles(db, op);
    case DoConfigure(_, _, _, _) =>
    case _ => OtherStepSettles(db, op);
  }

  /** In every run a step that ends an attempt fixes its end, its charge at the rate then in force and its
      event, whether the attempt is finished, released, swept or refused by a full queue. */
  lemma EndIsSettled(states: seq<Db>, ops: seq<Op>, n: nat, a: Id)
    requires IsRun(states, ops) && n < |ops|
    requires a in states[n + 1].attempts && TerminalAttempt(states[n + 1].attempts[a].state)
    requires a in states[n].attempts ==> !TerminalAttempt(states[n].attempts[a].state)
    ensures Settled(states[n + 1], a, states[n].rates, ops[n].now)
  {
    RunInv(states, ops, n);
    assert Enabled(states[n], ops[n]);
    StepSettles(states[n], ops[n]);
    assert !EndedAlready(states[n], states[n + 1], a);
  }

  /** The row's times bear out its charge, and the log tells its end. */
  predicate BorneOut(row: Attempt, a: Id, log: seq<Event>) {
    Measured(row) && TerminalEvent(a, row, row.finishedAt.value) in log
  }

  lemma StaysEnded(states: seq<Db>, ops: seq<Op>, n: nat, a: Id)
    requires IsRun(states, ops) && 0 < n < |states|
    requires a in states[n - 1].attempts && TerminalAttempt(states[n - 1].attempts[a].state)
    ensures a in states[n].attempts && states[n].attempts[a] == states[n - 1].attempts[a]
    ensures states[n - 1].log <= states[n].log
  {
    EndedRowsAreFinal(states, ops, n - 1, n, 0, a);
  }

  /** Over every run an ended attempt is charged, to the nearest millisecond, from its acquisition to its
      end, with the browser time from its activation to its end, and the log tells its end. */
  lemma {:induction false} ChargedForItsTime(states: seq<Db>, ops: seq<Op>, n: nat, a: Id)
    requires IsRun(states, ops) && n < |states|
    requires a in states[n].attempts && TerminalAttempt(states[n].attempts[a].state)
    ensures BorneOut(states[n].attempts[a], a, states[n].log)
  {
    if a in states[n - 1].attempts && TerminalAttempt(states[n - 1].attempts[a].state) {
      ChargedForItsTime(states, ops, n - 1, a);
      StaysEnded(states, ops, n, a);
    } else {
      EndIsSettled(states, ops, n - 1, a);
    }
  }

  /** Where it was acquired and its provider had a rate when it ended, it has the cost of that time. */
  lemma {:induction false} CostedAtItsEnd(states: seq<Db>, ops: seq<Op>, n: nat, a: Id) returns (end: nat)
    requires IsRun(states, ops) && n < |states|
    requires a in states[n].attempts && TerminalAttempt(states[n].attempts[a].state)
    ensures end < n && states[n].attempts[a].finishedAt == Some(ops[end].now)
    ensures a in states[end].attempts ==> !TerminalAttempt(states[end].attempts[a].state)
    ensures a in states[end + 1].attempts && states[end + 1].attempts[a] == states[n].attempts[a]
    ensures Priced(states[n].attempts[a], states[end].rates)
  {
    if a in states[n - 1].attempts && TerminalAttempt(states[n - 1].attempts[a].state) {
      end := CostedAtItsEnd(states, ops, n - 1, a);
      StaysEnded(states, ops, n, a);
    } else {
      end := n - 1;
      EndIsSettled(states, ops, n - 1, a);
    }
  }
}
