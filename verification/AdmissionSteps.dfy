/** What one transaction of the gateway can and cannot change. */
module AdmissionSteps {
  import opened Common
  import opened Usage
  import opened Admission
  import opened AdmissionInvariant

  // ---- History is never rewritten --------------------------------------------------------------------

  /** An attempt keeps its place in the queue, its first acquisition and its activation; a terminal
      attempt is final; an attempt that holds a slot was queued or holding there before. */
  predicate RowAdvances(row: Attempt, after: Attempt) {
    && after.session == row.session && after.provider == row.provider
    && after.queueSequence == row.queueSequence && after.ordinal == row.ordinal
    && (TerminalAttempt(row.state) ==> after == row)
    && (row.acquiringAt.Some? ==> after.acquiringAt == row.acquiringAt && after.instance == row.instance)
    && (row.activeAt.Some? ==> after.activeAt == row.activeAt)
    && (after.state.Queued? ==> row.state.Queued?)
    && (Holds(after.state) && !Holds(row.state) ==> row.state.Queued?)
  }

  predicate SessionAdvances(row: Session, after: Session, now: int) {
    && after.owner == row.owner && after.token == row.token
    && (Terminal(row.state) ==> after == row)
    && (LiveState(after.state) && after.lease.Some? && after.lease.value > now ==>
          LiveState(row.state) && row.lease.Some? && row.lease.value > now)
  }

  /** Rows only advance, new attempts queue behind all others, the log only grows, and an expired
      lease is never revived. */
  predicate Advances(db: Db, after: Db, now: int) {
    && db.log <= after.log && db.nextSequence <= after.nextSequence
    && (forall s :: s in db.sessions ==>
          s in after.sessions && SessionAdvances(db.sessions[s], after.sessions[s], now))
    && (forall a :: a in db.attempts ==>
          a in after.attempts && RowAdvances(db.attempts[a], after.attempts[a]))
    && (forall a :: a in after.attempts && a !in db.attempts ==>
          after.attempts[a].queueSequence >= db.nextSequence)
  }

  /** No attempt but `granted` comes to hold a slot. */
  predicate HoldersWithin(db: Db, after: Db, granted: Option<Id>) {
    forall a :: a in after.attempts && Holds(after.attempts[a].state) && granted != Some(a) ==>
      a in db.attempts && Holds(db.attempts[a].state)
      && after.attempts[a].instance == db.attempts[a].instance
      && after.attempts[a].provider == db.attempts[a].provider
      && after.attempts[a].session == db.attempts[a].session
  }

  /** The states a live row can be in, as far as history is concerned. */
  predicate Plain(row: Attempt) {
    && (row.state.Queued? ==> row.acquiringAt.None? && row.activeAt.None?)
    && (row.state.Acquiring? ==> row.acquiringAt.Some? && row.activeAt.None?)
    && !row.state.Requested?
  }

  lemma InvPlain(db: Db)
    requires Inv(db)
    ensures forall a :: a in db.attempts ==> Plain(db.attempts[a])
  {
    forall a | a in db.attempts
      ensures Plain(db.attempts[a])
    {
      assert AttemptOk(db, db.attempts[a]);
    }
  }

  lemma AdvancesTransitive(a: Db, b: Db, c: Db, now: int)
    requires Advances(a, b, now) && Advances(b, c, now)
    ensures Advances(a, c, now)
  {
    forall x | x in c.attempts && x !in a.attempts
      ensures c.attempts[x].queueSequence >= a.nextSequence
    {
      if x in b.attempts {
        assert RowAdvances(b.attempts[x], c.attempts[x]);
      }
    }
    forall x | x in a.attempts
      ensures x in c.attempts && RowAdvances(a.attempts[x], c.attempts[x])
    {
      assert RowAdvances(a.attempts[x], b.attempts[x]) && RowAdvances(b.attempts[x], c.attempts[x]);
    }
    forall s | s in a.sessions
      ensures s in c.sessions && SessionAdvances(a.sessions[s], c.sessions[s], now)
    {
      assert SessionAdvances(a.sessions[s], b.sessions[s], now);
      assert SessionAdvances(b.sessions[s], c.sessions[s], now);
    }
  }

  lemma HoldersTransitive(a: Db, b: Db, c: Db, granted: Option<Id>)
    requires HoldersWithin(a, b, None) && HoldersWithin(b, c, granted)
    ensures HoldersWithin(a, c, granted)
  {
  }

  predicate LiveRows(db: Db, rows: seq<Id>) {
    && (forall i, j :: 0 <= i < j < |rows| ==> rows[i] != rows[j])
    && (forall a :: a in rows ==> a in db.attempts && LiveAttemptState(db.attempts[a].state))
  }

  /** What ending a live attempt does to its row. */
  predicate EndsRow(row: Attempt, after: Attempt, failed: bool, now: int) {
    && after == row.(state := if failed then Failed else Completed, finishedAt := Some(now),
                     usage := after.usage, terminalReason := after.terminalReason)
  }

  lemma EndAttemptFrame(db: Db, a: Id, failed: bool, reason: string, now: int)
    requires a in db.attempts
    ensures var after := EndAttempt(db, a, failed, reason, now);
            && after.attempts.Keys == db.attempts.Keys
            && (forall x :: x in db.attempts && x != a ==> after.attempts[x] == db.attempts[x])
            && EndsRow(db.attempts[a], after.attempts[a], failed, now)
            && db.log <= after.log
  {
  }

  /** Ending a list of live attempts ends exactly those. */
  lemma {:induction false} EndAttemptsFrame(db: Db, rows: seq<Id>, failed: bool, reason: string, now: int)
    requires LiveRows(db, rows)
    ensures var after := EndAttempts(db, rows, failed, reason, now);
            && (forall a :: a in db.attempts && a !in rows ==> after.attempts[a] == db.attempts[a])
            && (forall a :: a in rows ==> EndsRow(db.attempts[a], after.attempts[a], failed, now))
            && db.log <= after.log
  {
    if rows != [] {
      var init, last := rows[..|rows| - 1], rows[|rows| - 1];
      assert last !in init;
      EndAttemptsFrame(db, init, failed, reason, now);
      var mid := EndAttempts(db, init, failed, reason, now);
      EndAttemptFrame(mid, last, failed, reason, now);
      var after := EndAttempt(mid, last, failed, reason, now);
      forall a | a in rows
        ensures EndsRow(db.attempts[a], after.attempts[a], failed, now)
      {
        assert a in init || a == last;
      }
      assert forall a :: a in db.attempts && a !in rows ==> a !in init && a != last;
    }
  }

  predicate EndedOnly(db: Db, after: Db, failed: bool, now: int) {
    && after.attempts.Keys == db.attempts.Keys
    && after == db.(attempts := after.attempts, log := after.log)
    && db.log <= after.log
    && (forall a :: a in db.attempts && after.attempts[a] != db.attempts[a] ==>
          LiveAttemptState(db.attempts[a].state) && EndsRow(db.attempts[a], after.attempts[a], failed, now))
  }

  lemma EndedOnlyAdvances(db: Db, after: Db, failed: bool, now: int)
    requires EndedOnly(db, after, failed, now)
    ensures Advances(db, after, now) && HoldersWithin(db, after, None)
  {
  }

  lemma EndAttemptsAdvances(db: Db, rows: seq<Id>, failed: bool, reason: string, now: int)
    requires LiveRows(db, rows)
    ensures var after := EndAttempts(db, rows, failed, reason, now);
            Advances(db, after, now) && HoldersWithin(db, after, None)
  {
    EndAttemptsFrame(db, rows, failed, reason, now);
    EndedOnlyAdvances(db, EndAttempts(db, rows, failed, reason, now), failed, now);
  }

  lemma {:induction false} EndAttemptsInv(db: Db, rows: seq<Id>, failed: bool, reason: string, now: int)
    requires Inv(db) && db.clock <= now && LiveRows(db, rows)
    ensures Inv(EndAttempts(db, rows, failed, reason, now))
  {
    if rows != [] {
      var init, last := rows[..|rows| - 1], rows[|rows| - 1];
      assert last !in init;
      EndAttemptsFrame(db, init, failed, reason, now);
      EndAttemptsInv(db, init, failed, reason, now);
      EndAttemptKeeps(EndAttempts(db, init, failed, reason, now), last, failed, reason, now);
    }
  }

  // ---- Ending sessions ---------------------------------------------------------------------------------

  /** Ends a live session's attempts, then the session. */
  function Ended(db: Db, s: Id, live: seq<Id>, attemptsFailed: bool, attemptsReason: string,
                 failed: bool, reason: string, now: int): Db
    requires s in db.sessions && forall a :: a in live ==> a in db.attempts
  {
    EndSession(EndAttempts(db, live, attemptsFailed, attemptsReason, now), s, failed, reason, now)
  }

  /** Only the ended sessions, and live attempts of theirs, have changed: they have ended. */
  predicate ExpiredOnly(db: Db, after: Db, ended: set<Id>, now: int) {
    && after.sessions.Keys == db.sessions.Keys && after.attempts.Keys == db.attempts.Keys
    && (forall s :: s in db.sessions && s !in ended ==> after.sessions[s] == db.sessions[s])
    && (forall s :: s in db.sessions && s in ended ==>
          Terminal(after.sessions[s].state) && SessionAdvances(db.sessions[s], after.sessions[s], now))
    && (forall a :: a in db.attempts && db.attempts[a].session !in ended ==> after.attempts[a] == db.attempts[a])
    && (forall a :: a in db.attempts && after.attempts[a] != db.attempts[a] ==>
          TerminalAttempt(after.attempts[a].state) && RowAdvances(db.attempts[a], after.attempts[a]))
    && db.log <= after.log
  }

  lemma ListedRowsAreLive(db: Db, s: Id, live: seq<Id>)
    requires Lists(live, LiveAttemptsOf(db, s))
    ensures LiveRows(db, live)
  {
  }

  lemma EndedFrame(db: Db, s: Id, live: seq<Id>, attemptsFailed: bool, attemptsReason: string,
                   failed: bool, reason: string, now: int)
    requires s in db.sessions && LiveState(db.sessions[s].state) && Lists(live, LiveAttemptsOf(db, s))
    ensures ExpiredOnly(db, Ended(db, s, live, attemptsFailed, attemptsReason, failed, reason, now), {s}, now)
  {
    ListedRowsAreLive(db, s, live);
    EndAttemptsFrame(db, live, attemptsFailed, attemptsReason, now);
    var mid := EndAttempts(db, live, attemptsFailed, attemptsReason, now);
    EndSessionExpires(db, mid, s, attemptsFailed, failed, reason, now);
  }

  lemma EndSessionExpires(db: Db, mid: Db, s: Id, attemptsFailed: bool, failed: bool, reason: string, now: int)
    requires s in db.sessions && LiveState(db.sessions[s].state)
    requires EndedOnly(db, mid, attemptsFailed, now)
    requires forall a :: a in db.attempts && mid.attempts[a] != db.attempts[a] ==> db.attempts[a].session == s
    ensures ExpiredOnly(db, EndSession(mid, s, failed, reason, now), {s}, now)
  {
  }

  lemma EndedInv(db: Db, s: Id, live: seq<Id>, attemptsFailed: bool, attemptsReason: string,
                 failed: bool, reason: string, now: int)
    requires Inv(db) && db.clock <= now && s in db.sessions && LiveState(db.sessions[s].state)
    requires Lists(live, LiveAttemptsOf(db, s))
    ensures Inv(Ended(db, s, live, attemptsFailed, attemptsReason, failed, reason, now))
  {
    ListedRowsAreLive(db, s, live);
    EndAttemptsInv(db, live, attemptsFailed, attemptsReason, now);
    NothingLiveLeft(db, s, live, attemptsFailed, attemptsReason, now);
    EndSessionKeeps(EndAttempts(db, live, attemptsFailed, attemptsReason, now), s, failed, reason, now);
  }

  lemma NothingLiveLeft(db: Db, s: Id, live: seq<Id>, failed: bool, reason: string, now: int)
    requires Lists(live, LiveAttemptsOf(db, s))
    ensures LiveAttemptsOf(EndAttempts(db, live, failed, reason, now), s) == {}
  {
    ListedRowsAreLive(db, s, live);
    EndAttemptsFrame(db, live, failed, reason, now);
    forall a | a in db.attempts
      ensures a !in LiveAttemptsOf(EndAttempts(db, live, failed, reason, now), s)
    {
      if a !in live {
        assert a !in LiveAttemptsOf(db, s);
      }
    }
  }

  predicate ListsLive(db: Db, rows: seq<StaleSession>) {
    && (forall i, j :: 0 <= i < j < |rows| ==> rows[i].session != rows[j].session)
    && (forall i :: 0 <= i < |rows| ==>
          rows[i].session in db.sessions && LiveState(db.sessions[rows[i].session].state)
          && Lists(rows[i].live, LiveAttemptsOf(db, rows[i].session)))
  }

  function SessionsOf(rows: seq<StaleSession>): set<Id> {
    set i | 0 <= i < |rows| :: rows[i].session
  }

  lemma ExpiredOnlyAdvances(db: Db, after: Db, ended: set<Id>, now: int)
    requires ExpiredOnly(db, after, ended, now) && db.nextSequence <= after.nextSequence
    ensures Advances(db, after, now) && HoldersWithin(db, after, None)
  {
  }

  /** After the first rows of a sweep, the next one is still as it was listed. */
  lemma StillListed(db: Db, mid: Db, ended: set<Id>, row: StaleSession, now: int)
    requires ExpiredOnly(db, mid, ended, now) && row.session !in ended && row.session in db.sessions
    requires Lists(row.live, LiveAttemptsOf(db, row.session))
    ensures Lists(row.live, LiveAttemptsOf(mid, row.session))
    ensures mid.sessions[row.session] == db.sessions[row.session]
  {
    forall a
      ensures a in LiveAttemptsOf(mid, row.session) <==> a in LiveAttemptsOf(db, row.session)
    {
      if a in db.attempts && mid.attempts[a] != db.attempts[a] {
        assert RowAdvances(db.attempts[a], mid.attempts[a]);
      }
    }
    assert LiveAttemptsOf(mid, row.session) == LiveAttemptsOf(db, row.session);
  }

  lemma ExpiredMore(db: Db, mid: Db, after: Db, ended: set<Id>, s: Id, now: int)
    requires ExpiredOnly(db, mid, ended, now) && ExpiredOnly(mid, after, {s}, now)
    requires s in db.sessions && mid.sessions[s] == db.sessions[s]
    ensures ExpiredOnly(db, after, ended + {s}, now)
  {
    forall a | a in db.attempts && after.attempts[a] != db.attempts[a]
      ensures TerminalAttempt(after.attempts[a].state) && RowAdvances(db.attempts[a], after.attempts[a])
    {
      if mid.attempts[a] != db.attempts[a] {
        assert RowAdvances(db.attempts[a], mid.attempts[a]);
      }
    }
  }

  lemma ExpireOneMore(db: Db, mid: Db, ended: set<Id>, row: StaleSession, now: int)
    requires ExpiredOnly(db, mid, ended, now) && row.session !in ended && row.session in db.sessions
    requires LiveState(db.sessions[row.session].state) && Lists(row.live, LiveAttemptsOf(db, row.session))
    ensures forall a :: a in row.live ==> a in mid.attempts
    ensures ExpiredOnly(db, ExpireSession(mid, row, now), ended + {row.session}, now)
  {
    StillListed(db, mid, ended, row, now);
    EndedFrame(mid, row.session, row.live, true, EXPIRED, true, EXPIRED, now);
    ExpiredMore(db, mid, ExpireSession(mid, row, now), ended, row.session, now);
  }

  lemma ListsLivePrefix(db: Db, rows: seq<StaleSession>)
    requires ListsLive(db, rows) && rows != []
    ensures var init, row := rows[..|rows| - 1], rows[|rows| - 1];
            && ListsLive(db, init) && row.session !in SessionsOf(init)
            && SessionsOf(rows) == SessionsOf(init) + {row.session}
            && row.session in db.sessions && LiveState(db.sessions[row.session].state)
            && Lists(row.live, LiveAttemptsOf(db, row.session))
  {
    var init, row := rows[..|rows| - 1], rows[|rows| - 1];
    forall s
      ensures s in SessionsOf(rows) <==> s in SessionsOf(init) + {row.session}
    {
      if s in SessionsOf(rows) {
        var i :| 0 <= i < |rows| && rows[i].session == s;
        if i < |init| {
          assert init[i].session == s;
        }
      }
      if s in SessionsOf(init) {
        var i :| 0 <= i < |init| && init[i].session == s;
        assert rows[i].session == s;
      }
      if s == row.session {
        assert rows[|rows| - 1].session == s;
      }
    }
  }

  lemma ListedRowsExist(db: Db, rows: seq<StaleSession>)
    requires ListsLive(db, rows)
    ensures forall row :: row in rows ==> row.session in db.sessions && forall a :: a in row.live ==> a in db.attempts
  {
    forall row | row in rows
      ensures row.session in db.sessions && forall a :: a in row.live ==> a in db.attempts
    {
      var i :| 0 <= i < |rows| && rows[i] == row;
      ListedRowsAreLive(db, row.session, row.live);
    }
  }

  /** The sweep over expired sessions ends exactly those and their attempts. */
  lemma {:induction false} ExpireSessionsFrame(db: Db, rows: seq<StaleSession>, now: int)
    requires ListsLive(db, rows)
    ensures forall row :: row in rows ==> row.session in db.sessions && forall a :: a in row.live ==> a in db.attempts
    ensures ExpiredOnly(db, ExpireSessions(db, rows, now), SessionsOf(rows), now)
  {
    ListedRowsExist(db, rows);
    if rows != [] {
      var init, row := rows[..|rows| - 1], rows[|rows| - 1];
      ListsLivePrefix(db, rows);
      ExpireSessionsFrame(db, init, now);
      ExpireOneMore(db, ExpireSessions(db, init, now), SessionsOf(init), row, now);
    }
  }

  lemma {:induction false} ExpireSessionsInv(db: Db, rows: seq<StaleSession>, now: int)
    requires Inv(db) && db.clock <= now && ListsLive(db, rows)
    ensures forall row :: row in rows ==> row.session in db.sessions && forall a :: a in row.live ==> a in db.attempts
    ensures Inv(ExpireSessions(db, rows, now))
  {
    ListedRowsExist(db, rows);
    if rows != [] {
      var init, row := rows[..|rows| - 1], rows[|rows| - 1];
      ListsLivePrefix(db, rows);
      ExpireSessionsFrame(db, init, now);
      ExpireSessionsInv(db, init, now);
      StillListed(db, ExpireSessions(db, init, now), SessionsOf(init), row, now);
      EndedInv(ExpireSessions(db, init, now), row.session, row.live, true, EXPIRED, true, EXPIRED, now);
    }
  }
}
