/** Cost rates are never negative, so neither is any rate an attempt was charged at. */
module AdmissionRates {
  import opened Common
  import opened Usage
  import opened Admission
  import opened AdmissionInvariant
  import opened AdmissionSteps
  import opened AdmissionTransactions
  import opened AdmissionRuns

  predicate RateOk(usage: Usage) {
    usage.rate.Some? ==> usage.rate.value >= 0
  }

  predicate RatesOk(db: Db) {
    && (forall provider :: provider in db.rates ==> db.rates[provider] >= 0)
    && (forall a :: a in db.attempts ==> RateOk(db.attempts[a].usage))
  }

  /** The attempts' usage is as it was, where there was an attempt. */
  predicate SameUsage(db: Db, after: Db) {
    && after.rates == db.rates
    && forall a :: a in after.attempts ==>
         if a in db.attempts then after.attempts[a].usage == db.attempts[a].usage
         else after.attempts[a].usage == NOTHING
  }

  lemma SameUsageKeeps(db: Db, after: Db)
    requires RatesOk(db) && SameUsage(db, after)
    ensures RatesOk(after)
  {
  }

  lemma EndAttemptRates(db: Db, a: Id, failed: bool, reason: string, now: int)
    requires RatesOk(db) && a in db.attempts
    ensures RatesOk(EndAttempt(db, a, failed, reason, now))
  {
    assert RateOk(db.attempts[a].usage);
  }

  lemma {:induction false} EndAttemptsRates(db: Db, rows: seq<Id>, failed: bool, reason: string, now: int)
    requires RatesOk(db) && forall a :: a in rows ==> a in db.attempts
    ensures RatesOk(EndAttempts(db, rows, failed, reason, now))
  {
    if rows != [] {
      EndAttemptsRates(db, rows[..|rows| - 1], failed, reason, now);
      EndAttemptRates(EndAttempts(db, rows[..|rows| - 1], failed, reason, now), rows[|rows| - 1], failed, reason, now);
    }
  }

  lemma {:induction false} ExpireSessionsRates(db: Db, stale: seq<StaleSession>, now: int)
    requires RatesOk(db)
    requires forall row :: row in stale ==>
      row.session in db.sessions && forall a :: a in row.live ==> a in db.attempts
    ensures RatesOk(ExpireSessions(db, stale, now))
  {
    if stale != [] {
      var before, row := ExpireSessions(db, stale[..|stale| - 1], now), stale[|stale| - 1];
      ExpireSessionsRates(db, stale[..|stale| - 1], now);
      EndAttemptsRates(before, row.live, true, EXPIRED, now);
      SameUsageKeeps(EndAttempts(before, row.live, true, EXPIRED, now), ExpireSession(before, row, now));
    }
  }

  lemma AdmitRates(db: Db, op: Op)
    requires RatesOk(db) && Enabled(db, op) && op.DoAdmit?
    ensures RatesOk(Step(db, op))
  {
    StaleIsLive(db, op.stale, op.now);
    ListedRowsExist(db, op.stale);
    ExpireSessionsRates(db, op.stale, op.now);
    SameUsageKeeps(ExpireSessions(db, op.stale, op.now), Step(db, op));
  }

  lemma ReleasedRates(db: Db, s: Id, owner: Id, token: Id, failed: bool, reason: string, live: seq<Id>, now: int)
    requires RatesOk(db) && s in db.sessions && Lists(live, LiveAttemptsOf(db, s))
    ensures RatesOk(Release(db, s, owner, token, failed, reason, live, now))
  {
    var row := db.sessions[s];
    var cleanup := if row.terminalReason.Some? && row.terminalReason.value != ""
                   then row.terminalReason.value else reason;
    ListedRowsAreLive(db, s, live);
    var ended := EndAttempts(db, live, failed || row.state.SessionFailed?, cleanup, now);
    EndAttemptsRates(db, live, failed || row.state.SessionFailed?, cleanup, now);
    EndSessionRates(ended, s, failed, reason, now);
  }

  lemma EndSessionRates(db: Db, s: Id, failed: bool, reason: string, now: int)
    requires RatesOk(db) && s in db.sessions
    ensures RatesOk(EndSession(db, s, failed, reason, now))
  {
  }

  lemma ReleaseRates(db: Db, op: Op)
    requires RatesOk(db) && Enabled(db, op) && op.DoRelease?
    ensures RatesOk(Step(db, op))
  {
    if op.s in db.sessions {
      ReleasedRates(db, op.s, op.owner, op.token, op.failed, op.reason, op.live, op.now);
    }
  }

  lemma SweptRates(db: Db, provider: Id, rows: seq<Id>, now: int)
    requires RatesOk(db) && Lists(rows, StaleAttempts(db, provider, now))
    ensures LiveRows(db, rows) && RatesOk(Swept(db, rows, now))
  {
    SweptAdvances(db, provider, rows, now);
    EndAttemptsRates(db, rows, true, EXPIRED, now);
  }

  lemma ClockRates(db: Db, now: int)
    requires RatesOk(db)
    ensures RatesOk(db.(clock := now))
  {
  }

  lemma AddedRates(db: Db, a: Id, s: Id, ordinal: nat, provider: Id, chosen: Option<Id>, now: int)
    requires RatesOk(db)
    ensures RatesOk(AddAcquiring(db, a, s, ordinal, provider, chosen, now))
    ensures RatesOk(AddQueued(db, a, s, ordinal, provider))
    ensures RatesOk(AddFull(db, a, s, ordinal, provider, now))
  {
  }

  lemma EnqueueRates(db: Db, s: Id, owner: Id, token: Id, a: Id, provider: Id, source: Option<Id>,
                     rows: seq<Id>, ordinal: nat, chosen: Option<Id>, now: int)
    requires RatesOk(db) && Lists(rows, StaleAttempts(db, provider, now))
    ensures LiveRows(db, rows)
    ensures RatesOk(Enqueue(db, s, owner, token, a, provider, source, rows, ordinal, chosen, now).1)
  {
    SweptRates(db, provider, rows, now);
    if !EnqueueRaises(db, s, owner, token, provider, source, rows, now) {
      AddedRates(Swept(db, rows, now), a, s, ordinal, provider, chosen, now);
      AddedRates(Swept(db, rows, now), a, s, ordinal, provider, None, now);
      EnqueueShape(db, s, owner, token, a, provider, source, rows, ordinal, chosen, now);
    }
  }

  lemma GrantRates(db: Db, a: Id, chosen: Option<Id>, now: int)
    requires RatesOk(db) && a in db.attempts
    ensures RatesOk(Grant(db, a, chosen, now))
  {
    assert RateOk(db.attempts[a].usage);
  }

  lemma ClaimRates(db: Db, s: Id, owner: Id, token: Id, a: Id, provider: Id,
                   rows: seq<Id>, chosen: Option<Id>, now: int)
    requires RatesOk(db) && Lists(rows, StaleAttempts(db, provider, now))
    ensures LiveRows(db, rows)
    ensures RatesOk(Claim(db, s, owner, token, a, provider, rows, chosen, now).1)
  {
    SweptRates(db, provider, rows, now);
    ClaimShape(db, s, owner, token, a, provider, rows, chosen, now);
    if Claim(db, s, owner, token, a, provider, rows, chosen, now).0 {
      GrantRates(Swept(db, rows, now), a, if provider in db.fleets then chosen else None, now);
    }
  }

  lemma GrantingStepRates(db: Db, op: Op)
    requires RatesOk(db) && Enabled(db, op) && (op.DoEnqueue? || op.DoClaim?)
    ensures RatesOk(Step(db, op))
  {
    match op
    case DoEnqueue(s, owner, token, a, provider, source, rows, ordinal, chosen, now) =>
      EnqueueRates(db, s, owner, token, a, provider, source, rows, ordinal, chosen, now);
      ClockRates(Enqueue(db, s, owner, token, a, provider, source, rows, ordinal, chosen, now).1, now);
    case DoClaim(s, owner, token, a, provider, rows, chosen, now) =>
      ClaimRates(db, s, owner, token, a, provider, rows, chosen, now);
      ClockRates(Claim(db, s, owner, token, a, provider, rows, chosen, now).1, now);
  }

  lemma OtherStepRates(db: Db, op: Op)
    requires RatesOk(db) && Enabled(db, op)
    requires !op.DoAdmit? && !op.DoRelease? && !op.DoEnqueue? && !op.DoClaim?
    ensures RatesOk(Step(db, op))
  {
    if op.DoFinish? && op.a in db.attempts {
      EndAttemptRates(db, op.a, op.failed, op.reason, op.now);
    }
  }

  lemma StepRates(db: Db, op: Op)
    requires RatesOk(db) && Enabled(db, op)
    ensures RatesOk(Step(db, op))
  {
    match op
    case DoAdmit(_, _, _, _, _, _, _) => AdmitRates(db, op);
    case DoRelease(_, _, _, _, _, _, _) => ReleaseRates(db, op);
    case DoEnqueue(_, _, _, _, _, _, _, _, _, _) => GrantingStepRates(db, op);
    case DoClaim(_, _, _, _, _, _, _, _) => GrantingStepRates(db, op);
    case _ => OtherStepRates(db, op);
  }

  /** In every run no rate is negative, in the tables or in what an attempt was charged. */
  lemma {:induction false} RatesInRun(states: seq<Db>, ops: seq<Op>, n: nat)
    requires IsRun(states, ops) && n < |states|
    ensures RatesOk(states[n])
  {
    if n > 0 {
      RatesInRun(states, ops, n - 1);
      assert Enabled(states[n - 1], ops[n - 1]);
      StepRates(states[n - 1], ops[n - 1]);
    }
  }
}
