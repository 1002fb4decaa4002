/** Admission and release of captures on one host's allowance, as the transactions the pacing
    repository runs.  Each transaction is one atomic step that reads the clock once.

    The settings row is kept with its past: `archive[v - 1]` holds version v, so the current
    settings are the last entry and the version is the length. */
module PacingRepository {
  import opened Common
  import opened PacingController

  datatype Row = Row(
    policy: Policy, nextStartAt: int, lastStartedAt: Option<int>,
    resetRequested: bool, spacingRefusedAt: Option<int>, settingsVersion: int)

  datatype Lease = Lease(
    sessionId: string, expiresAt: int, generation: int, atLimit: bool, concurrencyAtLimit: bool)

  /** A capture.pacing_adjusted event. */
  datatype Adjustment = Adjustment(
    sessionId: string, concurrency: int, spacing: int, reason: Reason, generation: int, at: int)

  /** A host's row, the leases that reference it and the adjustments logged since it was inserted. */
  datatype Host = Host(row: Row, leases: map<string, Lease>, log: seq<Adjustment>)

  datatype Refusal = DomainCooldown | DomainSpacing | DomainConcurrency

  datatype Verdict = Admitted | Refused(reason: Refusal) | DuplicateLease

  // ---- Specification ---------------------------------------------------------------------

  function Current(archive: seq<Settings>): Settings
    requires archive != []
  {
    archive[|archive| - 1]
  }

  function Inserted(archive: seq<Settings>, now: int): Host
    requires archive != []
  {
    var settings := Current(archive);
    Host(Row(Policy(settings.defaultConcurrency, settings.defaultSpacing, now + settings.learnedTtl,
                    None, 0, 0, 0, 0, Initial, None),
             now, None, false, None, |archive|),
         map[], [])
  }

  function Logged(sessionId: string, row: Row, now: int): Adjustment {
    Adjustment(sessionId, row.policy.concurrency, row.policy.spacing, row.policy.reason,
               row.policy.generation, now)
  }

  predicate NeedsReset(archive: seq<Settings>, row: Row, now: int) {
    row.resetRequested || row.policy.expiresAt <= now || row.settingsVersion != |archive|
  }

  /** The reset both transactions apply first, when one is due. */
  function Refreshed(archive: seq<Settings>, host: Host, sessionId: string, now: int): Host
    requires archive != []
  {
    var row := host.row;
    if !NeedsReset(archive, row, now) then host
    else
      var reason := if row.resetRequested then OperatorReset
                    else if row.settingsVersion != |archive| then SettingsChanged
                    else TtlExpired;
      var renewed := row.(policy := Reset(Current(archive), row.policy, now).(reason := reason),
                        resetRequested := false, spacingRefusedAt := None,
                        settingsVersion := |archive|);
      host.(row := renewed, log := host.log + [Logged(sessionId, renewed, now)])
  }

  function Unexpired(leases: map<string, Lease>, now: int): map<string, Lease> {
    map id | id in leases && leases[id].expiresAt > now :: leases[id]
  }

  function MarkedAtLimit(leases: map<string, Lease>): map<string, Lease> {
    map id | id in leases :: leases[id].(atLimit := true, concurrencyAtLimit := true)
  }

  function NewLease(row: Row, occupied: nat, sessionId: string, duration: int, now: int): Lease {
    var spacing := row.policy.spacing;
    var pressed := occupied > 0 && occupied + 1 >= row.policy.concurrency;
    var tight := row.lastStartedAt.Some? && 2 * (now - row.lastStartedAt.value) <= 3 * spacing;
    var wanted := row.spacingRefusedAt.Some?
                  && 2 * (now - row.spacingRefusedAt.value) <= Max(4 * SECOND, 3 * spacing);
    Lease(sessionId, now + duration, row.policy.generation, pressed || tight || wanted, pressed)
  }

  /** What acquire decides and leaves, once a due reset and the expired leases are out of the way. */
  function Decide(host: Host, id: string, sessionId: string, duration: int, now: int): (Verdict, Host) {
    var row := host.row;
    if row.policy.CoolingAt(now) then (Refused(DomainCooldown), host)
    else if now < row.nextStartAt then
      (Refused(DomainSpacing), host.(row := row.(spacingRefusedAt := Some(now))))
    else if |host.leases| >= row.policy.concurrency then
      (Refused(DomainConcurrency), host.(leases := MarkedAtLimit(host.leases)))
    else if id in host.leases then (DuplicateLease, host)
    else
      (Admitted,
       host.(leases := host.leases[id := NewLease(row, |host.leases|, sessionId, duration, now)],
             row := row.(nextStartAt := now + row.policy.spacing, lastStartedAt := Some(now),
                         spacingRefusedAt := None)))
  }

  function Prepared(archive: seq<Settings>, found: Option<Host>, sessionId: string, now: int): Host
    requires archive != []
  {
    var host := if found.Some? then found.value else Inserted(archive, now);
    var current := Refreshed(archive, host, sessionId, now);
    current.(leases := Unexpired(current.leases, now))
  }

  /** The acquire transaction; a duplicate lease key rolls it back. */
  function Acquire(archive: seq<Settings>, found: Option<Host>, id: string, sessionId: string,
                   duration: int, now: int): (Verdict, Option<Host>)
    requires archive != []
  {
    var (verdict, after) := Decide(Prepared(archive, found, sessionId, now), id, sessionId, duration, now);
    (verdict, if verdict.DuplicateLease? then found else Some(after))
  }

  /** The feedback of one released lease, applied to a row that is up to date. */
  function Learned(archive: seq<Settings>, host: Host, held: Lease, observation: Observation, now: int): Host
    requires archive != []
  {
    var row := host.row;
    var after := Update(Current(archive), row.policy, observation, now,
                        held.atLimit, held.concurrencyAtLimit, held.generation);
    if after.generation == row.policy.generation then host.(row := row.(policy := after))
    else
      var next := if row.lastStartedAt.Some?
                  then Max(row.nextStartAt, row.lastStartedAt.value + after.spacing)
                  else row.nextStartAt;
      var adjusted := row.(policy := after, nextStartAt := next);
      host.(row := adjusted, log := host.log + [Logged(held.sessionId, adjusted, now)])
  }

  predicate Heard(host: Host, id: string, observation: Option<Observation>, now: int) {
    id in host.leases && observation.Some? && host.leases[id].expiresAt > now
  }

  /** The release transaction: the lease goes in every case, its feedback counts while it is live. */
  function Release(archive: seq<Settings>, found: Option<Host>, id: string,
                   observation: Option<Observation>, now: int): Option<Host>
    requires archive != []
  {
    if found.None? || id !in found.value.leases then found
    else
      var host := found.value;
      var held := host.leases[id];
      var after := if Heard(host, id, observation, now)
                   then Learned(archive, Refreshed(archive, host, held.sessionId, now),
                                held, observation.value, now)
                   else host;
      Some(after.(leases := after.leases - {id}))
  }

  function RequestReset(found: Option<Host>): Option<Host> {
    if found.None? then None
    else Some(found.value.(row := found.value.row.(resetRequested := true)))
  }

  /** Rows the retention job may delete. */
  predicate Purgeable(host: Host, now: int) {
    && host.row.policy.expiresAt <= now
    && host.row.nextStartAt <= now
    && (host.row.policy.cooldownUntil.Some? ==> host.row.policy.cooldownUntil.value <= now)
    && Unexpired(host.leases, now) == map[]
  }

  // ---- What every transaction keeps ---------------------------------------------------------

  predicate ArchiveOk(archive: seq<Settings>) {
    archive != [] && forall v :: 0 <= v < |archive| ==> archive[v].Valid()
  }

  /** What the event registry accepts as a capture.pacing_adjusted payload. */
  predicate PayloadAccepted(entry: Adjustment) {
    && 1 <= entry.concurrency <= 100
    && 0 < entry.spacing <= 3600 * SECOND
    && entry.generation >= 1
    && entry.reason != Initial
  }

  /** The allowance and reason the log says are in force, starting from the first settings. */
  predicate LogReplays(host: Host) {
    var policy, log := host.row.policy, host.log;
    && policy.generation == |log|
    && (forall i :: 0 <= i < |log| ==> log[i].generation == i + 1 && PayloadAccepted(log[i]))
    && (log == [] <==> policy.reason == Initial)
    && (log != [] ==>
          var last := log[|log| - 1];
          last.concurrency == policy.concurrency && last.spacing == policy.spacing
          && last.reason == policy.reason && last.generation == policy.generation)
  }

  /** The settings version a row was last written under. */
  predicate WrittenUnder(archive: seq<Settings>, row: Row) {
    1 <= row.settingsVersion <= |archive|
  }

  function Governing(archive: seq<Settings>, row: Row): Settings
    requires WrittenUnder(archive, row)
  {
    archive[row.settingsVersion - 1]
  }

  predicate LeasesOk(host: Host) {
    && (forall id :: id in host.leases ==> host.leases[id].generation <= host.row.policy.generation)
    && (host.leases != map[] ==> host.row.lastStartedAt.Some?)
  }

  /** The representation invariant of a host. */
  predicate HostOk(archive: seq<Settings>, host: Host) {
    && WrittenUnder(archive, host.row)
    && host.row.policy.InBounds(Governing(archive, host.row))
    && host.row.policy.SamplesBelowThresholds(Governing(archive, host.row))
    && LogReplays(host)
    && LeasesOk(host)
    && (host.log == [] ==>
          host.row.policy.concurrency == Governing(archive, host.row).defaultConcurrency
          && host.row.policy.spacing == Governing(archive, host.row).defaultSpacing)
  }

  predicate FoundOk(archive: seq<Settings>, found: Option<Host>) {
    found.Some? ==> HostOk(archive, found.value)
  }

  /** A due reset restores the defaults of the present settings and starts the counts again, keeps the
      cooldown, moves the generation by one and logs that; one that is not due changes nothing. */
  lemma RefreshedRestores(archive: seq<Settings>, host: Host, sessionId: string, now: int)
    requires archive != []
    ensures var after, settings := Refreshed(archive, host, sessionId, now), Current(archive);
            if !NeedsReset(archive, host.row, now) then after == host else
              && after.row.policy.concurrency == settings.defaultConcurrency
              && after.row.policy.spacing == settings.defaultSpacing
              && after.row.policy.expiresAt == now + settings.learnedTtl
              && after.row.policy.healthySamples == 0 && after.row.policy.concurrencySamples == 0
              && after.row.policy.overloadSamples == 0
              && after.row.policy.cooldownUntil == host.row.policy.cooldownUntil
              && after.row.policy.generation == host.row.policy.generation + 1
              && after.row.policy.reason ==
                   (if host.row.resetRequested then OperatorReset
                    else if host.row.settingsVersion != |archive| then SettingsChanged else TtlExpired)
              && after.row.settingsVersion == |archive| && !after.row.resetRequested
              && after.row.spacingRefusedAt.None? && after.leases == host.leases
              && |after.log| == |host.log| + 1 && host.log <= after.log
  {
  }

  lemma RefreshedKeeps(archive: seq<Settings>, host: Host, sessionId: string, now: int)
    requires ArchiveOk(archive) && HostOk(archive, host)
    ensures var after := Refreshed(archive, host, sessionId, now);
            && HostOk(archive, after)
            && after.row.settingsVersion == |archive|
            && after.leases == host.leases
            && after.row.nextStartAt == host.row.nextStartAt
            && after.row.lastStartedAt == host.row.lastStartedAt
            && after.row.policy.cooldownUntil == host.row.policy.cooldownUntil
            && after.row.policy.expiresAt > now
            && !after.row.resetRequested
            && host.log <= after.log
            && (after == host || after.row.policy.generation == host.row.policy.generation + 1)
  {
  }

  /** Acquire keeps the invariant; refusals of a due reset included. */
  lemma AcquireKeeps(archive: seq<Settings>, found: Option<Host>, id: string, sessionId: string,
                     duration: int, now: int)
    requires ArchiveOk(archive) && FoundOk(archive, found)
    ensures var (verdict, after) := Acquire(archive, found, id, sessionId, duration, now);
            && FoundOk(archive, after)
            && (after.Some? <==> found.Some? || !verdict.DuplicateLease?)
  {
    PreparedKeeps(archive, found, sessionId, now);
    DecideKeeps(archive, Prepared(archive, found, sessionId, now), id, sessionId, duration, now);
  }

  lemma PreparedKeeps(archive: seq<Settings>, found: Option<Host>, sessionId: string, now: int)
    requires ArchiveOk(archive) && FoundOk(archive, found)
    ensures HostOk(archive, Prepared(archive, found, sessionId, now))
  {
    RefreshedKeeps(archive, if found.Some? then found.value else Inserted(archive, now), sessionId, now);
  }

  lemma DecideKeeps(archive: seq<Settings>, host: Host, id: string, sessionId: string, duration: int, now: int)
    requires ArchiveOk(archive) && HostOk(archive, host)
    ensures HostOk(archive, Decide(host, id, sessionId, duration, now).1)
  {
  }

  lemma LearnedKeeps(archive: seq<Settings>, host: Host, held: Lease, observation: Observation, now: int)
    requires ArchiveOk(archive) && HostOk(archive, host) && host.row.settingsVersion == |archive|
    ensures HostOk(archive, Learned(archive, host, held, observation, now))
    ensures Learned(archive, host, held, observation, now).leases == host.leases
  {
    UpdateKeeps(Current(archive), host.row.policy, observation, now,
                held.atLimit, held.concurrencyAtLimit, held.generation);
  }

  /** Release keeps the invariant and takes exactly the released lease. */
  lemma ReleaseKeeps(archive: seq<Settings>, found: Option<Host>, id: string,
                     observation: Option<Observation>, now: int)
    requires ArchiveOk(archive) && FoundOk(archive, found)
    ensures FoundOk(archive, Release(archive, found, id, observation, now))
    ensures found.Some? ==>
              Release(archive, found, id, observation, now).Some?
              && Release(archive, found, id, observation, now).value.leases == found.value.leases - {id}
  {
    if found.Some? && id in found.value.leases {
      var host := found.value;
      var held := host.leases[id];
      if Heard(host, id, observation, now) {
        RefreshedKeeps(archive, host, held.sessionId, now);
        LearnedKeeps(archive, Refreshed(archive, host, held.sessionId, now), held, observation.value, now);
      }
    } else if found.Some? {
      assert found.value.leases - {id} == found.value.leases;
    }
  }

  // ---- The transactions, step by step -------------------------------------------------------

  /** The hint a refused caller gets: whole seconds, at least one. */
  function WholeSeconds(delay: int): (s: int)
    ensures s >= 1 && s * SECOND >= delay && (s > 1 ==> (s - 1) * SECOND < delay)
  {
    Max(1, (delay + SECOND - 1) / SECOND)
  }

  predicate Soonest(leases: map<string, Lease>, expiry: int) {
    && (exists id :: id in leases && leases[id].expiresAt == expiry)
    && (forall id :: id in leases ==> expiry <= leases[id].expiresAt)
  }

  method SoonestExpiry(leases: map<string, Lease>) returns (soonest: int)
    requires leases != map[]
    ensures Soonest(leases, soonest)
  {
    var rest := leases.Keys;
    assert |rest| > 0;
    var first :| first in rest;
    soonest := leases[first].expiresAt;
    rest := rest - {first};
    while rest != {}
      invariant rest <= leases.Keys
      invariant exists id :: id in leases && leases[id].expiresAt == soonest
      invariant forall id :: id in leases && id !in rest ==> soonest <= leases[id].expiresAt
      decreases rest
    {
      var id :| id in rest;
      if leases[id].expiresAt < soonest {
        soonest := leases[id].expiresAt;
      }
      rest := rest - {id};
    }
  }

  /** The retry hint that goes with a refusal: until the cooldown ends, until the next start, or
      until the soonest lease expires, but then no more than five seconds. */
  ghost predicate Hint(row: Row, leases: map<string, Lease>, reason: Refusal, retryAfter: int, now: int) {
    match reason
    case DomainCooldown =>
      row.policy.cooldownUntil.Some? && retryAfter == WholeSeconds(row.policy.cooldownUntil.value - now)
    case DomainSpacing => retryAfter == WholeSeconds(row.nextStartAt - now)
    case DomainConcurrency =>
      exists expiry :: Soonest(leases, expiry) && retryAfter == WholeSeconds(Min(5 * SECOND, expiry - now))
  }

  function Stale(hosts: map<string, Host>, now: int): set<string> {
    set hostname | hostname in hosts && Purgeable(hosts[hostname], now)
  }

  class Repository {
    var archive: seq<Settings>
    var hosts: map<string, Host>

    ghost predicate Valid()
      reads this
    {
      ArchiveOk(archive) && forall hostname :: hostname in hosts ==> HostOk(archive, hosts[hostname])
    }

    ghost function Find(hostname: string): Option<Host>
      reads this
    {
      if hostname in hosts then Some(hosts[hostname]) else None
    }

    constructor (defaults: Settings)
      requires defaults.Valid()
      ensures Valid() && archive == [defaults] && hosts == map[]
    {
      archive := [defaults];
      hosts := map[];
    }

    /** Rejected changes leave the settings alone; accepted ones make a new version. */
    method UpdateSettings(changed: Settings) returns (accepted: bool)
      requires Valid()
      modifies this`archive
      ensures Valid() && accepted == changed.Valid()
      ensures archive == if accepted then old(archive) + [changed] else old(archive)
    {
      accepted := changed.Valid();
      if accepted {
        archive := archive + [changed];
      }
    }

    method ResetIfDue(row0: Row, log0: seq<Adjustment>, ghost leases: map<string, Lease>,
                      sessionId: string, now: int)
      returns (row: Row, log: seq<Adjustment>)
      requires archive != []
      ensures Host(row, leases, log) == Refreshed(archive, Host(row0, leases, log0), sessionId, now)
    {
      row, log := row0, log0;
      if row.resetRequested || now >= row.policy.expiresAt || row.settingsVersion != |archive| {
        var policy := Reset(archive[|archive| - 1], row.policy, now);
        if row.settingsVersion != |archive| {
          policy := policy.(reason := SettingsChanged);
        }
        if row.resetRequested {
          policy := policy.(reason := OperatorReset);
        }
        row := row.(resetRequested := false);
        row := row.(policy := policy);
        row := row.(spacingRefusedAt := None);
        row := row.(settingsVersion := |archive|);
        log := log + [Logged(sessionId, row, now)];
      }
    }

    /** The part of acquire that decides: every branch updates the row or the leases in place. */
    static method Admit(row0: Row, leases0: map<string, Lease>, ghost log: seq<Adjustment>,
                        id: string, sessionId: string, duration: int, now: int)
      returns (row: Row, leases: map<string, Lease>, verdict: Verdict, retryAfter: int)
      requires row0.policy.concurrency >= 1
      ensures (verdict, Host(row, leases, log)) == Decide(Host(row0, leases0, log), id, sessionId, duration, now)
      ensures verdict.Refused? ==> Hint(row, leases, verdict.reason, retryAfter, now)
    {
      row, leases, retryAfter := row0, leases0, 0;
      if row.policy.cooldownUntil.Some? && row.policy.cooldownUntil.value > now {
        verdict, retryAfter := Refused(DomainCooldown), WholeSeconds(row.policy.cooldownUntil.value - now);
      } else if now < row.nextStartAt {
        row := row.(spacingRefusedAt := Some(now));
        verdict, retryAfter := Refused(DomainSpacing), WholeSeconds(row.nextStartAt - now);
      } else if |leases| >= row.policy.concurrency {
        var soonest := SoonestExpiry(leases);
        leases := map key | key in leases :: leases[key].(atLimit := true, concurrencyAtLimit := true);
        verdict, retryAfter := Refused(DomainConcurrency), WholeSeconds(Min(5 * SECOND, soonest - now));
        assert Soonest(leases, soonest) by {
          var key :| key in leases0 && leases0[key].expiresAt == soonest;
          assert key in leases && leases[key].expiresAt == soonest;
        }
      } else if id in leases {
        verdict := DuplicateLease;
      } else {
        var concurrencyAtLimit := |leases| > 0 && |leases| + 1 >= row.policy.concurrency;
        var spacingAtLimit := row.lastStartedAt.Some?
                              && 2 * (now - row.lastStartedAt.value) <= 3 * row.policy.spacing;
        var recentSpacingDemand := row.spacingRefusedAt.Some?
          && 2 * (now - row.spacingRefusedAt.value) <= Max(4 * SECOND, 3 * row.policy.spacing);
        leases := leases[id := Lease(sessionId, now + duration, row.policy.generation,
                                     concurrencyAtLimit || spacingAtLimit || recentSpacingDemand,
                                     concurrencyAtLimit)];
        row := row.(nextStartAt := now + row.policy.spacing);
        row := row.(lastStartedAt := Some(now));
        row := row.(spacingRefusedAt := None);
        verdict := Admitted;
      }
    }

    /** Admits or refuses one capture of a host; other hosts are not touched. */
    method AcquireLease(hostname: string, id: string, sessionId: string, duration: int, now: int)
      returns (verdict: Verdict, retryAfter: int)
      requires Valid()
      modifies this`hosts
      ensures Valid()
      ensures (verdict, Find(hostname)) == Acquire(archive, old(Find(hostname)), id, sessionId, duration, now)
      ensures forall other :: other != hostname ==> Find(other) == old(Find(other))
      ensures verdict.Refused? ==>
                hostname in hosts
                && Hint(hosts[hostname].row, hosts[hostname].leases, verdict.reason, retryAfter, now)
    {
      ghost var found := Find(hostname);
      AcquireKeeps(archive, found, id, sessionId, duration, now);
      var row: Row, leases: map<string, Lease>, log: seq<Adjustment>;
      if hostname in hosts {
        row, leases, log := hosts[hostname].row, hosts[hostname].leases, hosts[hostname].log;
      } else {
        var settings := archive[|archive| - 1];
        var policy := Policy(settings.defaultConcurrency, settings.defaultSpacing,
                             now + settings.learnedTtl, None, 0, 0, 0, 0, Initial, None);
        row := Row(policy, now, None, false, None, |archive|);
        leases, log := map[], [];
      }
      ghost var start := Host(row, leases, log);
      RefreshedKeeps(archive, start, sessionId, now);
      row, log := ResetIfDue(row, log, leases, sessionId, now);
      leases := map key | key in leases && leases[key].expiresAt > now :: leases[key];
      assert Host(row, leases, log) == Prepared(archive, found, sessionId, now);
      row, leases, verdict, retryAfter := Admit(row, leases, log, id, sessionId, duration, now);
      if !verdict.DuplicateLease? {
        hosts := hosts[hostname := Host(row, leases, log)];
      }
    }

    /** The part of release that learns. */
    method Learn(row0: Row, log0: seq<Adjustment>, ghost leases: map<string, Lease>,
                 held: Lease, observation: Observation, now: int)
      returns (row: Row, log: seq<Adjustment>)
      requires archive != []
      ensures Host(row, leases, log) == Learned(archive, Host(row0, leases, log0), held, observation, now)
    {
      row, log := row0, log0;
      var before := row.policy;
      var after := Update(archive[|archive| - 1], before, observation, now,
                          held.atLimit, held.concurrencyAtLimit, held.generation);
      row := row.(policy := after);
      if after.generation != before.generation {
        if row.lastStartedAt.Some? {
          row := row.(nextStartAt := Max(row.nextStartAt, row.lastStartedAt.value + after.spacing));
        }
        log := log + [Logged(held.sessionId, row, now)];
      }
    }

    /** Takes a lease back and learns from it; other hosts are not touched. */
    method ReleaseLease(hostname: string, id: string, observation: Option<Observation>, now: int)
      requires Valid()
      modifies this`hosts
      ensures Valid()
      ensures Find(hostname) == Release(archive, old(Find(hostname)), id, observation, now)
      ensures forall other :: other != hostname ==> Find(other) == old(Find(other))
    {
      ReleaseKeeps(archive, Find(hostname), id, observation, now);
      if hostname !in hosts || id !in hosts[hostname].leases {
        return;
      }
      var row, leases, log := hosts[hostname].row, hosts[hostname].leases, hosts[hostname].log;
      var held := leases[id];
      if observation.Some? && held.expiresAt > now {
        row, log := ResetIfDue(row, log, leases, held.sessionId, now);
        row, log := Learn(row, log, leases, held, observation.value, now);
      }
      leases := leases - {id};
      hosts := hosts[hostname := Host(row, leases, log)];
    }

    /** Flags a known host; the reset itself waits for the next capture transaction. */
    method RequestHostReset(hostname: string) returns (known: bool)
      requires Valid()
      modifies this`hosts
      ensures Valid() && known == (hostname in old(hosts))
      ensures Find(hostname) == RequestReset(old(Find(hostname)))
      ensures forall other :: other != hostname ==> Find(other) == old(Find(other))
    {
      known := hostname in hosts;
      if known {
        var row := hosts[hostname].row;
        row := row.(resetRequested := true);
        hosts := hosts[hostname := hosts[hostname].(row := row)];
      }
    }

    /** Deletes selected rows, one by one, until the batch is full. */
    static method DeleteRows(rows: map<string, Host>, selected: set<string>, limit: nat)
      returns (remaining: map<string, Host>, gone: set<string>, deleted: nat)
      requires selected <= rows.Keys
      ensures gone <= selected && deleted == |gone| <= limit
      ensures remaining == rows - gone
      ensures deleted < limit ==> gone == selected
    {
      var todo := selected;
      remaining, gone, deleted := rows, {}, 0;
      while todo != {} && deleted < limit
        invariant deleted == |gone| <= limit
        invariant gone + todo == selected && gone !! todo
        invariant remaining == rows - gone
        decreases todo
      {
        var hostname :| hostname in todo;
        remaining := remaining - {hostname};
        todo := todo - {hostname};
        gone := gone + {hostname};
        deleted := deleted + 1;
        assert remaining == rows - gone;
      }
    }

    /** Deletes at most `limit` stale rows, with their leases, and changes nothing else; a batch
        that is not full has taken every stale row it could lock. */
    method Purge(limit: nat, locked: set<string>, now: int) returns (ghost gone: set<string>, deleted: nat)
      requires Valid()
      modifies this`hosts
      ensures Valid()
      ensures hosts == old(hosts) - gone && deleted == |gone| <= limit
      ensures gone <= Stale(old(hosts), now) - locked
      ensures deleted < limit ==> gone == Stale(old(hosts), now) - locked
    {
      hosts, gone, deleted := DeleteRows(hosts, Stale(hosts, now) - locked, limit);
    }
  }
}
