/** What every transaction of the gateway keeps. */
module AdmissionInvariant {
  import opened Common
  import opened Usage
  import opened Admission

  // ---- Counting events -------------------------------------------------------------------------

  datatype Query = EndsOf(attempt: Id) | ConnectsOf(attempt: Id) | EndOfSession(session: Id) | OpensOf(session: Id)

  predicate EndsSession(e: Event) {
    e.kind.SessionClosedEvent? || e.kind.SessionFailedEvent?
  }

  predicate Matches(q: Query, e: Event) {
    match q
    case EndsOf(a) => e.attempt == Some(a) && (e.kind.AttemptClosedEvent? || e.kind.AttemptFailedEvent?)
    case ConnectsOf(a) => e.attempt == Some(a) && e.kind.ConnectedEvent?
    case EndOfSession(s) => e.session == s && EndsSession(e)
    case OpensOf(s) => e.session == s && e.kind.SessionOpenEvent?
  }

  function Count(log: seq<Event>, q: Query): nat {
    if log == [] then 0
    else Count(log[..|log| - 1], q) + (if Matches(q, log[|log| - 1]) then 1 else 0)
  }

  lemma CountAppend(log: seq<Event>, e: Event, q: Query)
    ensures Count(log + [e], q) == Count(log, q) + (if Matches(q, e) then 1 else 0)
  {
    assert (log + [e])[..|log|] == log;
  }

  lemma CountAppendAll(log: seq<Event>, e: Event)
    ensures forall q :: Count(log + [e], q) == Count(log, q) + (if Matches(q, e) then 1 else 0)
  {
    forall q {
      CountAppend(log, e, q);
    }
  }

  lemma {:induction false} CountZero(log: seq<Event>, q: Query)
    requires Count(log, q) == 0
    ensures forall i :: 0 <= i < |log| ==> !Matches(q, log[i])
  {
    if log != [] {
      CountZero(log[..|log| - 1], q);
    }
  }

  // ---- The invariant ------------------------------------------------------------------------------

  predicate SessionsOk(db: Db) {
    forall s :: s in db.sessions ==>
      var row := db.sessions[s];
      (LiveState(row.state) && row.lease.Some?) || (Terminal(row.state) && row.lease.None?)
  }

  /** What an attempt's own columns say, and that a live attempt belongs to a live session. */
  predicate AttemptOk(db: Db, row: Attempt) {
    && row.session in db.sessions
    && row.queueSequence < db.nextSequence
    && (row.instance.Some? ==> row.instance.value in db.instances)
    && (LiveAttemptState(row.state) ==> LiveState(db.sessions[row.session].state))
    && (row.state.Queued? ==> row.acquiringAt.None? && row.activeAt.None?)
    && (row.state.Acquiring? ==> row.acquiringAt.Some? && row.activeAt.None?)
    && (row.state.Active? ==> row.activeAt.Some?)
    && (row.acquiringAt.Some? ==> row.acquiringAt.value <= db.clock)
    && (row.activeAt.Some? ==>
          row.acquiringAt.Some? && row.acquiringAt.value <= row.activeAt.value <= db.clock)
    && (if LiveAttemptState(row.state) then row.usage == NOTHING && row.finishedAt.None?
        else TerminalAttempt(row.state) && row.finishedAt.Some? && Chargeable(row.usage))
  }

  predicate AttemptsOk(db: Db) {
    forall a :: a in db.attempts ==> AttemptOk(db, db.attempts[a])
  }

  predicate SequencesOk(db: Db) {
    forall a, b :: a in db.attempts && b in db.attempts && a != b ==>
      db.attempts[a].queueSequence != db.attempts[b].queueSequence
  }

  predicate AtMostTwo(db: Db, s: Id) {
    |LiveAttemptsOf(db, s)| <= 2
  }

  ghost predicate AtMostTwoAttempts(db: Db) {
    forall s :: AtMostTwo(db, s)
  }

  predicate AttemptCounts(db: Db, a: Id) {
    && Count(db.log, EndsOf(a)) == (if a in db.attempts && TerminalAttempt(db.attempts[a].state) then 1 else 0)
    && Count(db.log, ConnectsOf(a)) == (if a in db.attempts && db.attempts[a].activeAt.Some? then 1 else 0)
  }

  predicate SessionCounts(db: Db, s: Id) {
    && Count(db.log, EndOfSession(s)) == (if s in db.sessions && Terminal(db.sessions[s].state) then 1 else 0)
    && Count(db.log, OpensOf(s)) <= 1
    && (s !in db.sessions || db.sessions[s].state.Admitted? ==> Count(db.log, OpensOf(s)) == 0)
    && (s in db.sessions && db.sessions[s].state.Opened? ==> Count(db.log, OpensOf(s)) == 1)
  }

  ghost predicate CountsOk(db: Db) {
    (forall a :: AttemptCounts(db, a)) && (forall s :: SessionCounts(db, s))
  }

  /** Nothing of a session is logged after its terminal event. */
  predicate SilentAfterEnd(log: seq<Event>) {
    forall i, j :: 0 <= i < j < |log| && log[i].session == log[j].session ==> !EndsSession(log[i])
  }

  ghost predicate Inv(db: Db) {
    && SessionsOk(db) && AttemptsOk(db) && SequencesOk(db) && AtMostTwoAttempts(db)
    && CountsOk(db) && SilentAfterEnd(db.log)
  }

  /** A live session has not ended in the log, so an event of it may follow. */
  lemma LiveSessionMayLog(db: Db, e: Event)
    requires Inv(db) && (e.session !in db.sessions || !Terminal(db.sessions[e.session].state))
    ensures SilentAfterEnd(db.log + [e])
  {
    assert SessionCounts(db, e.session);
    CountZero(db.log, EndOfSession(e.session));
    forall i | 0 <= i < |db.log| && db.log[i].session == e.session
      ensures !EndsSession(db.log[i])
    {
      assert !Matches(EndOfSession(e.session), db.log[i]);
    }
  }

  lemma FewerLiveAttempts(db: Db, after: Db)
    requires AtMostTwoAttempts(db)
    requires forall s :: LiveAttemptsOf(after, s) <= LiveAttemptsOf(db, s)
    ensures AtMostTwoAttempts(after)
  {
    forall s
      ensures AtMostTwo(after, s)
    {
      SubsetSize(LiveAttemptsOf(after, s), LiveAttemptsOf(db, s));
      assert AtMostTwo(db, s);
    }
  }

  // ---- Row updates keep it ------------------------------------------------------------------------

  lemma EndAttemptCounts(db: Db, a: Id, failed: bool, reason: string, now: int)
    requires Inv(db) && a in db.attempts && LiveAttemptState(db.attempts[a].state)
    ensures CountsOk(EndAttempt(db, a, failed, reason, now))
  {
    var after := EndAttempt(db, a, failed, reason, now);
    CountAppendAll(db.log, after.log[|db.log|]);
    forall b
      ensures AttemptCounts(after, b)
    {
      assert AttemptCounts(db, b);
    }
    forall s
      ensures SessionCounts(after, s)
    {
      assert SessionCounts(db, s);
    }
  }

  lemma EndAttemptKeeps(db: Db, a: Id, failed: bool, reason: string, now: int)
    requires Inv(db) && db.clock <= now && a in db.attempts && LiveAttemptState(db.attempts[a].state)
    ensures Inv(EndAttempt(db, a, failed, reason, now))
  {
    var row, after := db.attempts[a], EndAttempt(db, a, failed, reason, now);
    assert AttemptOk(db, row);
    FinalizedIsChargeable(row.acquiringAt, row.activeAt, Rate(db, row.provider), now);
    EndAttemptCounts(db, a, failed, reason, now);
    LiveSessionMayLog(db, after.log[|db.log|]);
    FewerLiveAttempts(db, after);
  }

  lemma EndSessionKeeps(db: Db, s: Id, failed: bool, reason: string, now: int)
    requires Inv(db) && s in db.sessions && LiveState(db.sessions[s].state) && LiveAttemptsOf(db, s) == {}
    ensures Inv(EndSession(db, s, failed, reason, now))
  {
    var after := EndSession(db, s, failed, reason, now);
    CountAppendAll(db.log, after.log[|db.log|]);
    LiveSessionMayLog(db, after.log[|db.log|]);
    forall a
      ensures AttemptCounts(after, a)
    {
      assert AttemptCounts(db, a);
    }
    forall x
      ensures SessionCounts(after, x)
    {
      assert SessionCounts(db, x);
    }
    forall a | a in after.attempts
      ensures AttemptOk(after, after.attempts[a])
    {
      assert AttemptOk(db, db.attempts[a]);
      assert a !in LiveAttemptsOf(db, s);
    }
    FewerLiveAttempts(db, after);
  }

  lemma AdmitSessionKeeps(db: Db, s: Id, owner: Id, token: Id, lease: int)
    requires Inv(db) && s !in db.sessions
    ensures Inv(AdmitSession(db, s, owner, token, lease))
  {
    var after := AdmitSession(db, s, owner, token, lease);
    forall a
      ensures AttemptCounts(after, a)
    {
      assert AttemptCounts(db, a);
    }
    forall x
      ensures SessionCounts(after, x)
    {
      assert SessionCounts(db, x);
    }
    forall a | a in after.attempts
      ensures AttemptOk(after, after.attempts[a])
    {
      assert AttemptOk(db, db.attempts[a]);
    }
    FewerLiveAttempts(db, after);
  }

  lemma RejectSessionKeeps(db: Db, s: Id, owner: Id, token: Id, now: int)
    requires Inv(db) && s !in db.sessions
    ensures Inv(RejectSession(db, s, owner, token, now))
  {
    var after := RejectSession(db, s, owner, token, now);
    CountAppendAll(db.log, after.log[|db.log|]);
    LiveSessionMayLog(db, after.log[|db.log|]);
    forall a
      ensures AttemptCounts(after, a)
    {
      assert AttemptCounts(db, a);
    }
    forall x
      ensures SessionCounts(after, x)
    {
      assert SessionCounts(db, x);
    }
    forall a | a in after.attempts
      ensures AttemptOk(after, after.attempts[a])
    {
      assert AttemptOk(db, db.attempts[a]);
    }
    FewerLiveAttempts(db, after);
  }

  lemma RenewKeeps(db: Db, s: Id, lease: int)
    requires Inv(db) && s in db.sessions && LiveState(db.sessions[s].state)
    ensures Inv(Renew(db, s, lease))
  {
    var after := Renew(db, s, lease);
    forall a
      ensures AttemptCounts(after, a)
    {
      assert AttemptCounts(db, a);
    }
    forall x
      ensures SessionCounts(after, x)
    {
      assert SessionCounts(db, x);
    }
    FewerLiveAttempts(db, after);
  }

  lemma OpenRowKeeps(db: Db, s: Id, lease: int, now: int)
    requires Inv(db) && s in db.sessions && db.sessions[s].state.Admitted?
    ensures Inv(OpenRow(db, s, lease, now))
  {
    var after := OpenRow(db, s, lease, now);
    CountAppendAll(db.log, after.log[|db.log|]);
    LiveSessionMayLog(db, after.log[|db.log|]);
    forall a
      ensures AttemptCounts(after, a)
    {
      assert AttemptCounts(db, a);
    }
    forall x
      ensures SessionCounts(after, x)
    {
      assert SessionCounts(db, x);
    }
    FewerLiveAttempts(db, after);
  }

  lemma OneMoreLiveAttempt(db: Db, a: Id, row: Attempt)
    requires AtMostTwoAttempts(db) && |LiveAttemptsOf(db, row.session)| <= 1
    ensures AtMostTwoAttempts(AddAttempt(db, a, row))
  {
    var after := AddAttempt(db, a, row);
    forall x
      ensures AtMostTwo(after, x)
    {
      assert AtMostTwo(db, x);
      var bound := LiveAttemptsOf(db, x) + (if x == row.session then {a} else {});
      assert LiveAttemptsOf(after, x) <= bound;
      SubsetSize(LiveAttemptsOf(after, x), bound);
    }
  }

  lemma AddAttemptKeeps(db: Db, a: Id, row: Attempt)
    requires Inv(db) && a !in db.attempts
    requires row.queueSequence == db.nextSequence && AttemptOk(db.(nextSequence := db.nextSequence + 1), row)
    requires LiveAttemptState(row.state) && row.activeAt.None? && |LiveAttemptsOf(db, row.session)| <= 1
    ensures Inv(AddAttempt(db, a, row))
  {
    var after := AddAttempt(db, a, row);
    forall b
      ensures AttemptCounts(after, b)
    {
      assert AttemptCounts(db, b);
    }
    forall x
      ensures SessionCounts(after, x)
    {
      assert SessionCounts(db, x);
    }
    forall b | b in after.attempts
      ensures AttemptOk(after, after.attempts[b])
    {
      if b != a {
        assert AttemptOk(db, db.attempts[b]);
      }
    }
    OneMoreLiveAttempt(db, a, row);
  }

  lemma AddFullKeeps(db: Db, a: Id, s: Id, ordinal: nat, provider: Id, now: int)
    requires Inv(db) && a !in db.attempts && s in db.sessions && LiveState(db.sessions[s].state)
    ensures Inv(AddFull(db, a, s, ordinal, provider, now))
  {
    var after := AddFull(db, a, s, ordinal, provider, now);
    CountAppendAll(db.log, after.log[|db.log|]);
    LiveSessionMayLog(db, after.log[|db.log|]);
    forall b
      ensures AttemptCounts(after, b)
    {
      assert AttemptCounts(db, b);
    }
    forall x
      ensures SessionCounts(after, x)
    {
      assert SessionCounts(db, x);
    }
    forall b | b in after.attempts
      ensures AttemptOk(after, after.attempts[b])
    {
      if b != a {
        assert AttemptOk(db, db.attempts[b]);
      }
    }
    FewerLiveAttempts(db, after);
  }

  lemma GrantKeeps(db: Db, a: Id, chosen: Option<Id>, now: int)
    requires Inv(db) && a in db.attempts && db.attempts[a].state.Queued?
    requires chosen.Some? ==> chosen.value in db.instances
    ensures Inv(Grant(db, a, chosen, now).(clock := Max(db.clock, now)))
  {
    var after := Grant(db, a, chosen, now).(clock := Max(db.clock, now));
    forall b
      ensures AttemptCounts(after, b)
    {
      assert AttemptCounts(db, b);
    }
    forall x
      ensures SessionCounts(after, x)
    {
      assert SessionCounts(db, x);
    }
    forall b | b in after.attempts
      ensures AttemptOk(after, after.attempts[b])
    {
      assert AttemptOk(db, db.attempts[b]);
    }
    FewerLiveAttempts(db, after);
  }

  lemma ActivateRowKeeps(db: Db, a: Id, now: int)
    requires Inv(db) && db.clock <= now && a in db.attempts && db.attempts[a].state.Acquiring?
    ensures Inv(ActivateRow(db, a, now).(clock := now))
  {
    var after := ActivateRow(db, a, now).(clock := now);
    assert AttemptOk(db, db.attempts[a]);
    CountAppendAll(db.log, after.log[|db.log|]);
    LiveSessionMayLog(db, after.log[|db.log|]);
    forall b
      ensures AttemptCounts(after, b)
    {
      assert AttemptCounts(db, b);
    }
    forall x
      ensures SessionCounts(after, x)
    {
      assert SessionCounts(db, x);
    }
    forall b | b in after.attempts
      ensures AttemptOk(after, after.attempts[b])
    {
      assert AttemptOk(db, db.attempts[b]);
    }
    FewerLiveAttempts(db, after);
  }

  /** The tables the invariant does not look at, and the clock, may move on. */
  lemma TablesKeep(db: Db, after: Db)
    requires Inv(db) && db.clock <= after.clock && db.instances.Keys <= after.instances.Keys
    requires after == db.(clock := after.clock, instances := after.instances, fleets := after.fleets,
                          limits := after.limits, rates := after.rates)
    ensures Inv(after)
  {
    forall b
      ensures AttemptCounts(after, b)
    {
      assert AttemptCounts(db, b);
    }
    forall x
      ensures SessionCounts(after, x)
    {
      assert SessionCounts(db, x);
    }
    forall b | b in after.attempts
      ensures AttemptOk(after, after.attempts[b])
    {
      assert AttemptOk(db, db.attempts[b]);
    }
    FewerLiveAttempts(db, after);
  }
}
