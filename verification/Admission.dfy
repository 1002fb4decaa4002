/** The tables of the gateway and what its transactions do to them.  Each transaction is one atomic
    step that reads the clock once.  Where a transaction loops over the rows of a query, the rows are
    a parameter: the query's result, in whatever order the database returned it. */
module Admission {
  import opened Common
  import opened Usage

  type Id = nat

  datatype SessionState = SessionRequested | Admitted | Opened | Closing | Closed | SessionFailed

  datatype AttemptState = Requested | Queued | Acquiring | Active | Completed | Failed

  datatype InstanceState = Starting | Ready | Draining | Unhealthy | Stopped

  datatype Session = Session(
    owner: Id, token: Id, state: SessionState, lease: Option<int>, terminalReason: Option<string>)

  datatype Attempt = Attempt(
    session: Id, ordinal: nat, provider: Id, state: AttemptState, queueSequence: nat,
    instance: Option<Id>, acquiringAt: Option<int>, activeAt: Option<int>, finishedAt: Option<int>,
    usage: Usage, terminalReason: Option<string>)

  datatype Instance = Instance(
    provider: Id, state: InstanceState, capacity: int, observationExpiresAt: int)

  datatype Fleet = Fleet(enabled: bool, maxQueued: int, sessionCapacity: int)

  datatype ExternalLimit = ExternalLimit(enabled: bool, maxActive: int, maxQueued: int)

  datatype Kind =
    | SessionOpenEvent | SessionClosedEvent | SessionFailedEvent
    | ConnectedEvent | AttemptClosedEvent | AttemptFailedEvent

  datatype Event = Event(session: Id, attempt: Option<Id>, kind: Kind, reason: Option<string>, at: int)

  datatype Db = Db(
    sessions: map<Id, Session>, attempts: map<Id, Attempt>, instances: map<Id, Instance>,
    fleets: map<Id, Fleet>, limits: map<Id, ExternalLimit>, rates: map<Id, int>,
    nextSequence: nat, log: seq<Event>, clock: int)

  // ---- Queries -----------------------------------------------------------------------------------

  predicate LiveState(state: SessionState) {
    state.Admitted? || state.Opened?
  }

  predicate LiveAttemptState(state: AttemptState) {
    state.Queued? || state.Acquiring? || state.Active?
  }

  predicate Holds(state: AttemptState) {
    state.Acquiring? || state.Active?
  }

  /** The session is admitted or open and its lease has not run out. */
  predicate LeaseLive(db: Db, s: Id, now: int) {
    && s in db.sessions && LiveState(db.sessions[s].state)
    && db.sessions[s].lease.Some? && db.sessions[s].lease.value > now
  }

  predicate Owned(db: Db, s: Id, owner: Id, token: Id) {
    s in db.sessions && db.sessions[s].owner == owner && db.sessions[s].token == token
  }

  function LiveSessions(db: Db, now: int): set<Id> {
    set s | s in db.sessions && LeaseLive(db, s, now)
  }

  function LiveAttemptsOf(db: Db, s: Id): set<Id> {
    set a | a in db.attempts && db.attempts[a].session == s && LiveAttemptState(db.attempts[a].state)
  }

  /** Queued attempts of a provider whose session still holds its lease. */
  function Waiting(db: Db, provider: Id, now: int): set<Id> {
    set a | a in db.attempts && db.attempts[a].provider == provider && db.attempts[a].state.Queued?
            && LeaseLive(db, db.attempts[a].session, now)
  }

  function Holding(db: Db, provider: Id, now: int): set<Id> {
    set a | a in db.attempts && db.attempts[a].provider == provider && Holds(db.attempts[a].state)
            && LeaseLive(db, db.attempts[a].session, now)
  }

  /** The attempts that occupy a slot of an instance. */
  function Occupants(db: Db, i: Id, now: int): set<Id> {
    set a | a in db.attempts && db.attempts[a].instance == Some(i) && Holds(db.attempts[a].state)
            && LeaseLive(db, db.attempts[a].session, now)
  }

  predicate Candidate(db: Db, provider: Id, now: int, i: Id) {
    && i in db.instances && db.instances[i].provider == provider && db.instances[i].state.Ready?
    && db.instances[i].observationExpiresAt > now
    && |Occupants(db, i, now)| < db.instances[i].capacity
  }

  /** The fullest candidate, and among equals the one with the greatest id. */
  predicate Selects(db: Db, provider: Id, now: int, chosen: Option<Id>) {
    match chosen
    case None => forall i :: i in db.instances ==> !Candidate(db, provider, now, i)
    case Some(best) =>
      && Candidate(db, provider, now, best)
      && forall i :: i in db.instances && Candidate(db, provider, now, i) ==>
           var n, m := |Occupants(db, i, now)|, |Occupants(db, best, now)|;
           n < m || (n == m && i <= best)
  }

  predicate IsHead(db: Db, a: Id, provider: Id, now: int) {
    a in Waiting(db, provider, now)
    && forall other :: other in Waiting(db, provider, now) ==>
         db.attempts[a].queueSequence <= db.attempts[other].queueSequence
  }

  /** A query result: the ids of a set, each once. */
  predicate Lists(rows: seq<Id>, ids: set<Id>) {
    && (forall i, j :: 0 <= i < j < |rows| ==> rows[i] != rows[j])
    && (forall x :: x in rows ==> x in ids)
    && (forall x :: x in ids ==> x in rows)
  }

  function StaleAttempts(db: Db, provider: Id, now: int): set<Id> {
    set a | a in db.attempts && db.attempts[a].provider == provider
            && LiveAttemptState(db.attempts[a].state)
            && !LeaseLive(db, db.attempts[a].session, now)
  }

  function StaleSessions(db: Db, now: int): set<Id> {
    set s | s in db.sessions && LiveState(db.sessions[s].state)
            && db.sessions[s].lease.Some? && db.sessions[s].lease.value <= now
  }

  // ---- Row updates ---------------------------------------------------------------------------------

  function Rate(db: Db, provider: Id): Option<int> {
    if provider in db.rates then Some(db.rates[provider]) else None
  }

  /** A live attempt ends: usage is fixed and the terminal event logged. */
  function EndAttempt(db: Db, a: Id, failed: bool, reason: string, now: int): Db
    requires a in db.attempts
  {
    var row := db.attempts[a];
    db.(attempts := db.attempts[a := row.(
          state := if failed then Failed else Completed,
          finishedAt := Some(now),
          usage := Finalized(row.usage, row.acquiringAt, row.activeAt, Rate(db, row.provider), now),
          terminalReason := Some(reason))],
        log := db.log + [Event(row.session, Some(a), if failed then AttemptFailedEvent else AttemptClosedEvent,
                               if failed then Some(reason) else None, now)])
  }

  function EndAttempts(db: Db, rows: seq<Id>, failed: bool, reason: string, now: int): (r: Db)
    requires forall a :: a in rows ==> a in db.attempts
    ensures r.attempts.Keys == db.attempts.Keys && r == db.(attempts := r.attempts, log := r.log)
  {
    if rows == [] then db
    else
      EndAttempt(EndAttempts(db, rows[..|rows| - 1], failed, reason, now), rows[|rows| - 1],
                 failed, reason, now)
  }

  function EndSession(db: Db, s: Id, failed: bool, reason: string, now: int): Db
    requires s in db.sessions
  {
    db.(sessions := db.sessions[s := db.sessions[s].(
          state := if failed then SessionFailed else Closed, lease := None, terminalReason := Some(reason))],
        log := db.log + [Event(s, None, if failed then SessionFailedEvent else SessionClosedEvent,
                               Some(reason), now)])
  }

  function AdmitSession(db: Db, s: Id, owner: Id, token: Id, lease: int): Db {
    db.(sessions := db.sessions[s := Session(owner, token, Admitted, Some(lease), None)])
  }

  function RejectSession(db: Db, s: Id, owner: Id, token: Id, now: int): Db {
    db.(sessions := db.sessions[s := Session(owner, token, SessionFailed, None, Some("gateway_capacity_full"))],
        log := db.log + [Event(s, None, SessionFailedEvent, Some("gateway_capacity_full"), now)])
  }

  function Renew(db: Db, s: Id, lease: int): Db
    requires s in db.sessions
  {
    db.(sessions := db.sessions[s := db.sessions[s].(lease := Some(lease))])
  }

  function OpenRow(db: Db, s: Id, lease: int, now: int): Db
    requires s in db.sessions
  {
    db.(sessions := db.sessions[s := db.sessions[s].(state := Opened, lease := Some(lease))],
        log := db.log + [Event(s, None, SessionOpenEvent, None, now)])
  }

  /** The next ordinal of a session: one more than its greatest so far. */
  predicate NextOrdinal(db: Db, s: Id, ordinal: nat) {
    && ordinal >= 1
    && (forall a :: a in db.attempts && db.attempts[a].session == s ==> db.attempts[a].ordinal < ordinal)
    && (ordinal > 1 ==> exists a :: a in db.attempts && db.attempts[a].session == s
                                    && db.attempts[a].ordinal == ordinal - 1)
  }

  function NewAttempt(db: Db, s: Id, ordinal: nat, provider: Id): Attempt {
    Attempt(s, ordinal, provider, Requested, db.nextSequence, None, None, None, None, NOTHING, None)
  }

  function AddAttempt(db: Db, a: Id, row: Attempt): Db {
    db.(attempts := db.attempts[a := row], nextSequence := db.nextSequence + 1)
  }

  function AddAcquiring(db: Db, a: Id, s: Id, ordinal: nat, provider: Id, chosen: Option<Id>, now: int): Db {
    AddAttempt(db, a, NewAttempt(db, s, ordinal, provider).(
      state := Acquiring, acquiringAt := Some(now), instance := chosen))
  }

  function AddQueued(db: Db, a: Id, s: Id, ordinal: nat, provider: Id): Db {
    AddAttempt(db, a, NewAttempt(db, s, ordinal, provider).(state := Queued))
  }

  function AddFull(db: Db, a: Id, s: Id, ordinal: nat, provider: Id, now: int): Db {
    AddAttempt(db, a, NewAttempt(db, s, ordinal, provider).(
      state := Failed, finishedAt := Some(now), terminalReason := Some("provider_queue_full")))
    .(log := db.log + [Event(s, Some(a), AttemptFailedEvent, Some("provider_queue_full"), now)])
  }

  function Grant(db: Db, a: Id, chosen: Option<Id>, now: int): Db
    requires a in db.attempts
  {
    db.(attempts := db.attempts[a := db.attempts[a].(
          state := Acquiring, acquiringAt := Some(now), instance := chosen)])
  }

  function ActivateRow(db: Db, a: Id, now: int): Db
    requires a in db.attempts
  {
    var row := db.attempts[a];
    db.(attempts := db.attempts[a := row.(state := Active, activeAt := Some(now))],
        log := db.log + [Event(row.session, Some(a), ConnectedEvent, None, now)])
  }

  // ---- Transactions ------------------------------------------------------------------------------

  const EXPIRED: string := "session_lease_expired"

  /** A session whose lease ran out, with its live attempts as the database listed them. */
  datatype StaleSession = StaleSession(session: Id, live: seq<Id>)

  predicate ListsStale(db: Db, rows: seq<StaleSession>, now: int) {
    && (forall i, j :: 0 <= i < j < |rows| ==> rows[i].session != rows[j].session)
    && (forall row :: row in rows ==>
          row.session in StaleSessions(db, now) && Lists(row.live, LiveAttemptsOf(db, row.session)))
    && (forall s :: s in StaleSessions(db, now) ==> exists i :: 0 <= i < |rows| && rows[i].session == s)
  }

  function ExpireSession(db: Db, row: StaleSession, now: int): (r: Db)
    requires row.session in db.sessions && forall a :: a in row.live ==> a in db.attempts
    ensures r.attempts.Keys == db.attempts.Keys && r.sessions.Keys == db.sessions.Keys
    ensures r == db.(sessions := r.sessions, attempts := r.attempts, log := r.log)
  {
    EndSession(EndAttempts(db, row.live, true, EXPIRED, now), row.session, true, EXPIRED, now)
  }

  function ExpireSessions(db: Db, rows: seq<StaleSession>, now: int): (r: Db)
    requires forall row :: row in rows ==>
               row.session in db.sessions && forall a :: a in row.live ==> a in db.attempts
    ensures r.attempts.Keys == db.attempts.Keys && r.sessions.Keys == db.sessions.Keys
    ensures r == db.(sessions := r.sessions, attempts := r.attempts, log := r.log)
  {
    if rows == [] then db
    else ExpireSession(ExpireSessions(db, rows[..|rows| - 1], now), rows[|rows| - 1], now)
  }

  function Admit(db: Db, s: Id, owner: Id, token: Id, maxActive: int, duration: int,
                 rows: seq<StaleSession>, now: int): (r: (bool, Db))
    requires s !in db.sessions && ListsStale(db, rows, now)
    ensures r.1.instances == db.instances && r.1.fleets == db.fleets && r.1.limits == db.limits
  {
    var swept := ExpireSessions(db, rows, now);
    if |LiveSessions(swept, now)| >= maxActive then (false, RejectSession(swept, s, owner, token, now))
    else (true, AdmitSession(swept, s, owner, token, now + duration))
  }

  function Heartbeat(db: Db, s: Id, owner: Id, token: Id, duration: int, now: int): Db {
    if Owned(db, s, owner, token) && LeaseLive(db, s, now) then Renew(db, s, now + duration) else db
  }

  function Open(db: Db, s: Id, owner: Id, token: Id, duration: int, now: int): Db {
    if Owned(db, s, owner, token) && LeaseLive(db, s, now) && db.sessions[s].state.Admitted?
    then OpenRow(db, s, now + duration, now) else db
  }

  predicate Terminal(state: SessionState) {
    state.Closed? || state.SessionFailed?
  }

  predicate TerminalAttempt(state: AttemptState) {
    state.Completed? || state.Failed?
  }

  function Release(db: Db, s: Id, owner: Id, token: Id, failed: bool, reason: string,
                   live: seq<Id>, now: int): (r: Db)
    requires s in db.sessions ==> Lists(live, LiveAttemptsOf(db, s))
    ensures r.instances == db.instances && r.fleets == db.fleets && r.limits == db.limits
  {
    if !Owned(db, s, owner, token) then db
    else
      var row := db.sessions[s];
      var cleanupReason := if row.terminalReason.Some? && row.terminalReason.value != ""
                           then row.terminalReason.value else reason;
      var cleared := EndAttempts(db, live, failed || row.state.SessionFailed?, cleanupReason, now);
      if Terminal(row.state) then cleared else EndSession(cleared, s, failed, reason, now)
  }

  function Swept(db: Db, rows: seq<Id>, now: int): (r: Db)
    requires forall a :: a in rows ==> a in db.attempts
    ensures r.attempts.Keys == db.attempts.Keys && r == db.(attempts := r.attempts, log := r.log)
  {
    EndAttempts(db, rows, true, EXPIRED, now)
  }

  datatype EnqueueStatus = Raised | StatusAcquiring | StatusQueued | StatusFull

  /** Why an enqueue raises, and so leaves nothing behind. */
  predicate EnqueueRaises(db: Db, s: Id, owner: Id, token: Id, provider: Id, source: Option<Id>,
                          rows: seq<Id>, now: int)
    requires forall a :: a in rows ==> a in db.attempts
  {
    || !(Owned(db, s, owner, token) && LeaseLive(db, s, now))
    || (var live := LiveAttemptsOf(Swept(db, rows, now), s);
        match source
        case None => live != {}
        case Some(active) => live != {active} || !db.attempts[active].state.Active?)
    || (provider !in db.fleets && provider !in db.limits)
  }

  /** Where an accepted attempt goes: to a slot if nobody waits, to the queue, or nowhere. */
  function Placement(db: Db, provider: Id, chosen: Option<Id>, now: int): (r: EnqueueStatus)
    requires provider in db.fleets || provider in db.limits
    ensures !r.Raised?
  {
    var queued := |Waiting(db, provider, now)|;
    var managed := provider in db.fleets;
    var enabled := if managed then db.fleets[provider].enabled else db.limits[provider].enabled;
    var maxActive := if !managed && enabled then db.limits[provider].maxActive else 0;
    var maxQueued := if !enabled then 0
                     else if managed then db.fleets[provider].maxQueued else db.limits[provider].maxQueued;
    if queued == 0 && (if managed then enabled && chosen.Some? else |Holding(db, provider, now)| < maxActive)
    then StatusAcquiring
    else if queued < maxQueued then StatusQueued
    else StatusFull
  }

  function Placed(db: Db, s: Id, a: Id, provider: Id, ordinal: nat, chosen: Option<Id>, now: int)
    : (r: (EnqueueStatus, Db))
    requires provider in db.fleets || provider in db.limits
    ensures r.1.instances == db.instances && r.1.fleets == db.fleets && r.1.limits == db.limits
  {
    var status := Placement(db, provider, chosen, now);
    (status, Inserted(db, status, s, a, provider, ordinal, if provider in db.fleets then chosen else None, now))
  }

  /** The new attempt in the state its status names. */
  function Inserted(db: Db, status: EnqueueStatus, s: Id, a: Id, provider: Id, ordinal: nat,
                    instance: Option<Id>, now: int): (r: Db)
    ensures r.instances == db.instances && r.fleets == db.fleets && r.limits == db.limits
  {
    match status
    case Raised => db
    case StatusAcquiring => AddAcquiring(db, a, s, ordinal, provider, instance, now)
    case StatusQueued => AddQueued(db, a, s, ordinal, provider)
    case StatusFull => AddFull(db, a, s, ordinal, provider, now)
  }

  function Enqueue(db: Db, s: Id, owner: Id, token: Id, a: Id, provider: Id, source: Option<Id>,
                   rows: seq<Id>, ordinal: nat, chosen: Option<Id>, now: int): (r: (EnqueueStatus, Db))
    requires forall x :: x in rows ==> x in db.attempts
    ensures r.1.instances == db.instances && r.1.fleets == db.fleets && r.1.limits == db.limits
  {
    if EnqueueRaises(db, s, owner, token, provider, source, rows, now) then (Raised, db)
    else Placed(Swept(db, rows, now), s, a, provider, ordinal, chosen, now)
  }

  /** Capacity for a claim: a ready instance of a managed fleet, or room under an external limit. */
  predicate ClaimFits(db: Db, provider: Id, chosen: Option<Id>, now: int)
    requires provider in db.fleets || provider in db.limits
  {
    && (provider in db.limits ==> db.limits[provider].enabled)
    && (if provider in db.fleets then db.fleets[provider].enabled && chosen.Some?
        else |Holding(db, provider, now)| < db.limits[provider].maxActive)
  }

  function Claim(db: Db, s: Id, owner: Id, token: Id, a: Id, provider: Id,
                 rows: seq<Id>, chosen: Option<Id>, now: int): (r: (bool, Db))
    requires forall x :: x in rows ==> x in db.attempts
    ensures r.1.instances == db.instances && r.1.fleets == db.fleets && r.1.limits == db.limits
  {
    if !(Owned(db, s, owner, token) && LeaseLive(db, s, now)) then (false, db)
    else
      var swept := Swept(db, rows, now);
      if a !in swept.attempts || swept.attempts[a].session != s || !swept.attempts[a].state.Queued?
         || !IsHead(swept, a, provider, now) then (false, swept)
      else if provider !in db.fleets && provider !in db.limits then (false, db)
      else if !ClaimFits(swept, provider, chosen, now) then (false, swept)
      else (true, Grant(swept, a, if provider in db.fleets then chosen else None, now))
  }

  function Activate(db: Db, a: Id, now: int): Db {
    if a in db.attempts && db.attempts[a].state.Acquiring? then ActivateRow(db, a, now) else db
  }

  function Finish(db: Db, a: Id, failed: bool, reason: string, now: int): Db {
    if a !in db.attempts || TerminalAttempt(db.attempts[a].state) then db
    else EndAttempt(db, a, failed, reason, now)
  }

  // ---- Fleet transactions ----------------------------------------------------------------------------

  datatype Observation = Observation(state: InstanceState, sessionCapacity: Option<int>)

  function ObservedCapacity(fleet: Fleet, observation: Observation): int {
    if observation.sessionCapacity.Some? && observation.sessionCapacity.value != 0
    then observation.sessionCapacity.value else fleet.sessionCapacity
  }

  /** One observed row; a draining instance does not become ready by being seen ready. */
  function ObservedRow(db: Db, provider: Id, i: Id, observation: Observation, expires: int): Instance
    requires provider in db.fleets
  {
    var capacity := ObservedCapacity(db.fleets[provider], observation);
    if i !in db.instances then Instance(provider, observation.state, capacity, expires)
    else
      var row := db.instances[i];
      row.(state := if row.state.Draining? && observation.state.Ready? then row.state else observation.state,
           capacity := capacity, observationExpiresAt := expires)
  }

  function Observe(db: Db, provider: Id, seen: map<Id, Observation>, ttl: int, now: int): Db {
    if provider !in db.fleets then db
    else db.(instances := map i | i in db.instances.Keys + seen.Keys ::
           if i in seen then ObservedRow(db, provider, i, seen[i], now + ttl)
           else if db.instances[i].provider == provider && !db.instances[i].state.Stopped?
           then db.instances[i].(state := Stopped, observationExpiresAt := now)
           else db.instances[i])
  }

  function PrepareScaleDown(db: Db, provider: Id, i: Id, now: int): (bool, Db) {
    if i !in db.instances || db.instances[i].provider != provider then (false, db)
    else (Occupants(db, i, now) == {}, db.(instances := db.instances[i := db.instances[i].(state := Draining)]))
  }

  function CancelScaleDown(db: Db, provider: Id): Db {
    db.(instances := map i | i in db.instances ::
      if db.instances[i].provider == provider && db.instances[i].state.Draining?
      then db.instances[i].(state := Starting) else db.instances[i])
  }

  // ---- Steps ----------------------------------------------------------------------------------------------

  datatype Op =
    | DoAdmit(s: Id, owner: Id, token: Id, maxActive: int, duration: int, stale: seq<StaleSession>, now: int)
    | DoHeartbeat(s: Id, owner: Id, token: Id, duration: int, now: int)
    | DoOpen(s: Id, owner: Id, token: Id, duration: int, now: int)
    | DoRelease(s: Id, owner: Id, token: Id, failed: bool, reason: string, live: seq<Id>, now: int)
    | DoEnqueue(s: Id, owner: Id, token: Id, a: Id, provider: Id, source: Option<Id>,
                rows: seq<Id>, ordinal: nat, chosen: Option<Id>, now: int)
    | DoClaim(s: Id, owner: Id, token: Id, a: Id, provider: Id, rows: seq<Id>, chosen: Option<Id>, now: int)
    | DoActivate(a: Id, now: int)
    | DoFinish(a: Id, failed: bool, reason: string, now: int)
    | DoObserve(provider: Id, seen: map<Id, Observation>, ttl: int, now: int)
    | DoPrepare(provider: Id, i: Id, now: int)
    | DoCancel(provider: Id, now: int)
    | DoConfigure(fleets: map<Id, Fleet>, limits: map<Id, ExternalLimit>, rates: map<Id, int>, now: int)

  /** The rows a step works on are the rows its queries return, and new rows have new keys. */
  ghost predicate Enabled(db: Db, op: Op) {
    && db.clock <= op.now
    && match op
       case DoAdmit(s, _, _, _, _, stale, now) => s !in db.sessions && ListsStale(db, stale, now)
       case DoRelease(s, _, _, _, _, live, now) => s in db.sessions ==> Lists(live, LiveAttemptsOf(db, s))
       case DoEnqueue(s, _, _, a, provider, _, rows, ordinal, chosen, now) =>
         && a !in db.attempts
         && Lists(rows, StaleAttempts(db, provider, now))
         && NextOrdinal(db, s, ordinal)
         && Selects(Swept(db, rows, now), provider, now, chosen)
       case DoClaim(_, _, _, a, provider, rows, chosen, now) =>
         && Lists(rows, StaleAttempts(db, provider, now))
         && Selects(Swept(db, rows, now), provider, now, chosen)
       case DoObserve(provider, seen, _, _) =>
         // The table refuses a capacity below one.
         provider in db.fleets ==> forall i :: i in seen ==> ObservedCapacity(db.fleets[provider], seen[i]) >= 1
       case DoConfigure(_, _, rates, _) =>
         // The table refuses a negative rate.
         forall provider :: provider in rates ==> rates[provider] >= 0
       case _ => true
  }

  ghost function Step(db: Db, op: Op): Db
    requires Enabled(db, op)
  {
    var after :=
      match op
      case DoAdmit(s, owner, token, maxActive, duration, stale, now) =>
        Admit(db, s, owner, token, maxActive, duration, stale, now).1
      case DoHeartbeat(s, owner, token, duration, now) => Heartbeat(db, s, owner, token, duration, now)
      case DoOpen(s, owner, token, duration, now) => Open(db, s, owner, token, duration, now)
      case DoRelease(s, owner, token, failed, reason, live, now) =>
        Release(db, s, owner, token, failed, reason, if s in db.sessions then live else [], now)
      case DoEnqueue(s, owner, token, a, provider, source, rows, ordinal, chosen, now) =>
        Enqueue(db, s, owner, token, a, provider, source, rows, ordinal, chosen, now).1
      case DoClaim(s, owner, token, a, provider, rows, chosen, now) =>
        Claim(db, s, owner, token, a, provider, rows, chosen, now).1
      case DoActivate(a, now) => Activate(db, a, now)
      case DoFinish(a, failed, reason, now) => Finish(db, a, failed, reason, now)
      case DoObserve(provider, seen, ttl, now) => Observe(db, provider, seen, ttl, now)
      case DoPrepare(provider, i, now) => PrepareScaleDown(db, provider, i, now).1
      case DoCancel(provider, now) => CancelScaleDown(db, provider)
      case DoConfigure(fleets, limits, rates, now) => db.(fleets := fleets, limits := limits, rates := rates);
    after.(clock := op.now)
  }
}
