/** The ledger of domain and command costs, built from events that may be delivered again and from
    batches that may be cut short. */
module CostProjection {
  import opened Common
  import opened Usage
  import opened Costs

  type Id = nat

  datatype Attempt = Attempt(
    provider: Id, domain: Option<Id>, finished: bool, usage: Usage, summary: Option<Summary>,
    commandCostProjected: bool, costProjected: bool)

  datatype DomainCost = DomainCost(observed: int, cost: int)

  /** Domain costs are keyed by domain and provider, command costs by provider and method. */
  datatype Ledger = Ledger(
    attempts: map<Id, Attempt>, domainCosts: map<(Id, Id), DomainCost>, commandCosts: map<Id, Rows>)

  function RowsOf(l: Ledger, provider: Id): Rows {
    if provider in l.commandCosts then l.commandCosts[provider] else map[]
  }

  function DomainCostAt(l: Ledger, domain: Id, provider: Id): DomainCost {
    if (domain, provider) in l.domainCosts then l.domainCosts[(domain, provider)] else DomainCost(0, 0)
  }

  // ---- Projection of one attempt ------------------------------------------------------------------------

  predicate CostDue(row: Attempt) {
    row.domain.Some? && row.usage.modeledCost.Some? && !row.costProjected
  }

  function ProjectCost(l: Ledger, a: Id): (r: Ledger)
    requires a in l.attempts
    ensures r == l.(attempts := r.attempts, domainCosts := r.domainCosts)
    ensures a in r.attempts
    ensures r.attempts == l.attempts[a := l.attempts[a].(costProjected := r.attempts[a].costProjected)]
  {
    var row := l.attempts[a];
    if !CostDue(row) then l
    else
      var so := DomainCostAt(l, row.domain.value, row.provider);
      l.(domainCosts := l.domainCosts[(row.domain.value, row.provider) :=
           DomainCost(so.observed + 1, so.cost + row.usage.modeledCost.value)],
         attempts := l.attempts[a := row.(costProjected := true)])
  }

  function Methods(row: Attempt): Summary {
    if row.summary.Some? then row.summary.value else []
  }

  function RetainedFor(l: Ledger, provider: Id, methods: Summary): (r: map<string, string>)
    ensures AllRetained(methods, r)
  {
    var names := Names(methods);
    RetainedNames(RowsOf(l, provider).Keys - {OVERHEAD}, names);
    assert forall i :: 0 <= i < |methods| ==> names[i] in names;
    Retain(RowsOf(l, provider).Keys - {OVERHEAD}, names).retained
  }

  function RowsDue(l: Ledger, a: Id): Rows
    requires a in l.attempts
  {
    var row := l.attempts[a];
    Settled(BillOf(row.usage), Methods(row), RetainedFor(l, row.provider, Methods(row)))
  }

  function ProjectSummary(l: Ledger, a: Id): (r: Ledger)
    requires a in l.attempts
    ensures r.attempts.Keys == l.attempts.Keys
  {
    var row := l.attempts[a];
    if !row.finished || row.commandCostProjected then l
    else Settle(ProjectCost(l, a), a)
  }

  function Settle(l: Ledger, a: Id): (r: Ledger)
    requires a in l.attempts
    ensures r == l.(attempts := r.attempts, commandCosts := r.commandCosts)
  {
    var row := l.attempts[a];
    l.(commandCosts := l.commandCosts[row.provider := Merged(RowsOf(l, row.provider), RowsDue(l, a))],
       attempts := l.attempts[a := row.(commandCostProjected := true, summary := None)])
  }

  function Assign(l: Ledger, a: Id, domain: Option<Id>): Ledger
    requires a in l.attempts
  {
    if domain.None? then l else l.(attempts := l.attempts[a := l.attempts[a].(domain := domain)])
  }

  function ProjectAttempt(l: Ledger, a: Id, domain: Option<Id>, summarised: bool): (r: Ledger)
    requires a in l.attempts
    ensures r.attempts.Keys == l.attempts.Keys
  {
    var charged := ProjectCost(Assign(l, a, domain), a);
    if summarised then ProjectSummary(charged, a) else charged
  }

  function Given(domains: map<Id, Id>, a: Id): Option<Id> {
    if a in domains then Some(domains[a]) else None
  }

  /** Attempts one after another; ids that are not in the table are passed over. */
  function ProjectAll(l: Ledger, ids: seq<Id>, domains: map<Id, Id>, summarised: set<Id>): (r: Ledger)
    ensures r.attempts.Keys == l.attempts.Keys
  {
    if ids == [] then l
    else
      var before, a := ProjectAll(l, ids[..|ids| - 1], domains, summarised), ids[|ids| - 1];
      if a in before.attempts then ProjectAttempt(before, a, Given(domains, a), a in summarised) else before
  }

  lemma {:induction false} ProjectAllSplit(l: Ledger, a: seq<Id>, b: seq<Id>, domains: map<Id, Id>, summarised: set<Id>)
    ensures ProjectAll(l, a + b, domains, summarised)
         == ProjectAll(ProjectAll(l, a, domains, summarised), b, domains, summarised)
  {
    if b == [] {
      assert a + b == a;
    } else {
      ProjectAllSplit(l, a, b[..|b| - 1], domains, summarised);
      assert (a + b)[..|a + b| - 1] == a + b[..|b| - 1];
    }
  }

  // ---- Delivered again ----------------------------------------------------------------------------------

  /** Nothing is left to project for an attempt. */
  predicate Quiet(row: Attempt, domain: Option<Id>, summarised: bool) {
    && (domain.Some? ==> row.domain == domain)
    && !CostDue(row)
    && (summarised ==> !row.finished || row.commandCostProjected)
  }

  lemma QuietStands(l: Ledger, a: Id, domain: Option<Id>, summarised: bool)
    requires a in l.attempts && Quiet(l.attempts[a], domain, summarised)
    ensures ProjectAttempt(l, a, domain, summarised) == l
  {
    assert Assign(l, a, domain) == l;
  }

  lemma ProjectedIsQuiet(l: Ledger, a: Id, domain: Option<Id>, summarised: bool)
    requires a in l.attempts
    ensures var r := ProjectAttempt(l, a, domain, summarised);
      && Quiet(r.attempts[a], domain, summarised)
      && forall b :: b in l.attempts && b != a ==> r.attempts[b] == l.attempts[b]
  {
  }

  /** After a projection every attempt it named is done: nothing was flagged too late, and a summary
      that could be charged has been charged. */
  lemma {:induction false} AllQuiet(l: Ledger, ids: seq<Id>, domains: map<Id, Id>, summarised: set<Id>, a: Id)
    requires a in ids && a in l.attempts
    ensures Quiet(ProjectAll(l, ids, domains, summarised).attempts[a], Given(domains, a), a in summarised)
  {
    var rest, last := ids[..|ids| - 1], ids[|ids| - 1];
    var before := ProjectAll(l, rest, domains, summarised);
    assert ids == rest + [last];
    if last in before.attempts {
      ProjectedIsQuiet(before, last, Given(domains, last), last in summarised);
    }
    if a != last {
      AllQuiet(l, rest, domains, summarised, a);
    }
  }

  lemma {:induction false} QuietAllStand(l: Ledger, ids: seq<Id>, domains: map<Id, Id>, summarised: set<Id>)
    requires forall a :: a in ids && a in l.attempts ==> Quiet(l.attempts[a], Given(domains, a), a in summarised)
    ensures ProjectAll(l, ids, domains, summarised) == l
  {
    if ids != [] {
      var rest, last := ids[..|ids| - 1], ids[|ids| - 1];
      assert ids == rest + [last];
      QuietAllStand(l, rest, domains, summarised);
      if last in l.attempts {
        QuietStands(l, last, Given(domains, last), last in summarised);
      }
    }
  }

  /** Exactly once: a projection cut short anywhere and then delivered again in full leaves the very
      ledger that one undisturbed projection leaves. Delivered twice in full is the case k == |ids|. */
  lemma RedeliveryChangesNothing(l: Ledger, ids: seq<Id>, domains: map<Id, Id>, summarised: set<Id>, k: nat)
    requires k <= |ids|
    ensures ProjectAll(ProjectAll(l, ids[..k], domains, summarised), ids, domains, summarised)
         == ProjectAll(l, ids, domains, summarised)
  {
    var done := ProjectAll(l, ids[..k], domains, summarised);
    forall a | a in ids[..k] && a in done.attempts
      ensures Quiet(done.attempts[a], Given(domains, a), a in summarised)
    {
      AllQuiet(l, ids[..k], domains, summarised, a);
    }
    QuietAllStand(done, ids[..k], domains, summarised);
    assert ids == ids[..k] + ids[k..];
    ProjectAllSplit(done, ids[..k], ids[k..], domains, summarised);
    ProjectAllSplit(l, ids[..k], ids[k..], domains, summarised);
  }

  // ---- What the ledger holds ----------------------------------------------------------------------------

  function CostOf(row: Attempt): int {
    OrZero(row.usage.modeledCost)
  }

  /** The domain costs of a provider, and how many attempts they stand for. */
  ghost function DomainCosts(l: Ledger, provider: Id): map<(Id, Id), int> {
    map key | key in l.domainCosts :: if key.1 == provider then l.domainCosts[key].cost else 0
  }

  ghost function DomainCounts(l: Ledger, provider: Id): map<(Id, Id), int> {
    map key | key in l.domainCosts :: if key.1 == provider then l.domainCosts[key].observed else 0
  }

  predicate Charged(row: Attempt, provider: Id) {
    row.provider == provider && row.costProjected
  }

  ghost function ChargedCosts(l: Ledger, provider: Id): map<Id, int> {
    map a | a in l.attempts :: if Charged(l.attempts[a], provider) then CostOf(l.attempts[a]) else 0
  }

  ghost function ChargedCounts(l: Ledger, provider: Id): map<Id, int> {
    map a | a in l.attempts :: if Charged(l.attempts[a], provider) then 1 else 0
  }

  predicate IsSettled(row: Attempt, provider: Id) {
    row.provider == provider && row.commandCostProjected
  }

  ghost function SettledCosts(l: Ledger, provider: Id): map<Id, int> {
    map a | a in l.attempts :: if IsSettled(l.attempts[a], provider) then CostOf(l.attempts[a]) else 0
  }

  ghost function SettledTimes(l: Ledger, provider: Id): map<Id, int> {
    map a | a in l.attempts ::
      if IsSettled(l.attempts[a], provider) then BillOf(l.attempts[a].usage).browser else 0
  }

  /** What domain rows hold beyond the charged attempts they are compared with. */
  datatype Excess = Excess(cost: int, count: int)

  /** What command rows hold beyond the settled attempts. */
  datatype Surplus = Surplus(cost: int, time: int)

  ghost function DomainExcess(l: Ledger, provider: Id): Excess {
    Excess(Sum(DomainCosts(l, provider)) - Sum(ChargedCosts(l, provider)),
           Sum(DomainCounts(l, provider)) - Sum(ChargedCounts(l, provider)))
  }

  ghost function CommandSurplus(l: Ledger, provider: Id): Surplus {
    Surplus(Total(RowsOf(l, provider), CostColumn) - Sum(SettledCosts(l, provider)),
            Total(RowsOf(l, provider), BrowserColumn) - Sum(SettledTimes(l, provider)))
  }

  /** A provider's domain costs are the costs of its charged attempts, and count them. */
  ghost predicate DomainTotals(l: Ledger, provider: Id) {
    && Sum(DomainCosts(l, provider)) == Sum(ChargedCosts(l, provider))
    && Sum(DomainCounts(l, provider)) == Sum(ChargedCounts(l, provider))
  }

  /** A provider's command rows hold the cost and browser time of its settled attempts. */
  ghost predicate CommandTotals(l: Ledger, provider: Id) {
    && Total(RowsOf(l, provider), CostColumn) == Sum(SettledCosts(l, provider))
    && Total(RowsOf(l, provider), BrowserColumn) == Sum(SettledTimes(l, provider))
  }

  predicate AttemptOk(row: Attempt) {
    && BillOk(BillOf(row.usage))
    && LatenciesOk(Methods(row))
    && (!row.finished ==> row.usage == NOTHING && !row.commandCostProjected)
    && (row.costProjected ==> row.usage.modeledCost.Some?)
  }

  predicate AttemptsOk(l: Ledger) {
    forall a :: a in l.attempts ==> AttemptOk(l.attempts[a])
  }

  // ---- Each piece keeps it ------------------------------------------------------------------------------

  /** Neither which domain an attempt has now nor anything of its commands matters to domain totals. */
  lemma DomainFrame(l: Ledger, r: Ledger, provider: Id)
    requires r.domainCosts == l.domainCosts && r.attempts.Keys == l.attempts.Keys
    requires forall a :: a in l.attempts ==>
      && r.attempts[a].provider == l.attempts[a].provider && r.attempts[a].usage == l.attempts[a].usage
      && r.attempts[a].costProjected == l.attempts[a].costProjected
    ensures DomainExcess(r, provider) == DomainExcess(l, provider)
  {
    assert DomainCosts(r, provider) == DomainCosts(l, provider);
    assert DomainCounts(r, provider) == DomainCounts(l, provider);
    assert ChargedCosts(r, provider) == ChargedCosts(l, provider);
    assert ChargedCounts(r, provider) == ChargedCounts(l, provider);
  }

  lemma CommandFrame(l: Ledger, r: Ledger, provider: Id)
    requires r.commandCosts == l.commandCosts && r.attempts.Keys == l.attempts.Keys
    requires forall a :: a in l.attempts ==>
      && r.attempts[a].provider == l.attempts[a].provider && r.attempts[a].usage == l.attempts[a].usage
      && r.attempts[a].commandCostProjected == l.attempts[a].commandCostProjected
    ensures CommandSurplus(r, provider) == CommandSurplus(l, provider)
  {
    assert SettledCosts(r, provider) == SettledCosts(l, provider);
    assert SettledTimes(r, provider) == SettledTimes(l, provider);
  }

  /** The ledger is as true to its attempts as it was. */
  ghost predicate SameGap(l: Ledger, r: Ledger, provider: Id) {
    && DomainExcess(r, provider) == DomainExcess(l, provider)
    && CommandSurplus(r, provider) == CommandSurplus(l, provider)
  }

  lemma AssignKeeps(l: Ledger, a: Id, domain: Option<Id>, provider: Id)
    requires a in l.attempts
    ensures SameGap(l, Assign(l, a, domain), provider)
  {
    DomainFrame(l, Assign(l, a, domain), provider);
    CommandFrame(l, Assign(l, a, domain), provider);
  }

  /** A charge grows the domain costs of its provider by what it adds to the charged attempts. */
  lemma ChargeMoves(l: Ledger, a: Id, provider: Id)
    requires a in l.attempts && CostDue(l.attempts[a])
    ensures DomainExcess(ProjectCost(l, a), provider) == DomainExcess(l, provider)
  {
    DomainRowsMove(l, a, provider);
    ChargedMoves(l, a, provider);
  }

  lemma DomainRowsMove(l: Ledger, a: Id, provider: Id)
    requires a in l.attempts && CostDue(l.attempts[a])
    ensures var row, r := l.attempts[a], ProjectCost(l, a);
      var mine := row.provider == provider;
      && Sum(DomainCosts(r, provider)) == Sum(DomainCosts(l, provider)) + (if mine then CostOf(row) else 0)
      && Sum(DomainCounts(r, provider)) == Sum(DomainCounts(l, provider)) + (if mine then 1 else 0)
  {
    var row, r := l.attempts[a], ProjectCost(l, a);
    var key, mine := (row.domain.value, row.provider), row.provider == provider;
    SumGrows(DomainCosts(l, provider), DomainCosts(r, provider), key, if mine then CostOf(row) else 0);
    SumGrows(DomainCounts(l, provider), DomainCounts(r, provider), key, if mine then 1 else 0);
  }

  lemma ChargedMoves(l: Ledger, a: Id, provider: Id)
    requires a in l.attempts && CostDue(l.attempts[a])
    ensures var row, r := l.attempts[a], ProjectCost(l, a);
      var mine := row.provider == provider;
      && Sum(ChargedCosts(r, provider)) == Sum(ChargedCosts(l, provider)) + (if mine then CostOf(row) else 0)
      && Sum(ChargedCounts(r, provider)) == Sum(ChargedCounts(l, provider)) + (if mine then 1 else 0)
  {
    var row, r := l.attempts[a], ProjectCost(l, a);
    var mine := row.provider == provider;
    SumGrows(ChargedCosts(l, provider), ChargedCosts(r, provider), a, if mine then CostOf(row) else 0);
    SumGrows(ChargedCounts(l, provider), ChargedCounts(r, provider), a, if mine then 1 else 0);
  }

  lemma ProjectCostKeeps(l: Ledger, a: Id, provider: Id)
    requires a in l.attempts
    ensures SameGap(l, ProjectCost(l, a), provider)
  {
    if CostDue(l.attempts[a]) {
      ChargeMoves(l, a, provider);
      CommandFrame(l, ProjectCost(l, a), provider);
    }
  }

  lemma SettledMoves(l: Ledger, a: Id, provider: Id)
    requires a in l.attempts && !l.attempts[a].commandCostProjected
    ensures var row, r := l.attempts[a], Settle(l, a);
      var mine := row.provider == provider;
      && Sum(SettledCosts(r, provider)) == Sum(SettledCosts(l, provider)) + (if mine then CostOf(row) else 0)
      && Sum(SettledTimes(r, provider))
           == Sum(SettledTimes(l, provider)) + (if mine then BillOf(row.usage).browser else 0)
  {
    var row, r := l.attempts[a], Settle(l, a);
    var mine := row.provider == provider;
    SumGrows(SettledCosts(l, provider), SettledCosts(r, provider), a, if mine then CostOf(row) else 0);
    SumGrows(SettledTimes(l, provider), SettledTimes(r, provider), a, if mine then BillOf(row.usage).browser else 0);
  }

  /** A settlement grows the command rows of its provider by what it adds to the settled attempts. */
  lemma SettlementMoves(l: Ledger, a: Id, provider: Id)
    requires a in l.attempts && AttemptOk(l.attempts[a]) && !l.attempts[a].commandCostProjected
    ensures CommandSurplus(Settle(l, a), provider) == CommandSurplus(l, provider)
  {
    SettledMoves(l, a, provider);
    TablesMove(l, a, provider);
  }

  lemma TablesMove(l: Ledger, a: Id, provider: Id)
    requires a in l.attempts && AttemptOk(l.attempts[a])
    ensures var row, r := l.attempts[a], Settle(l, a);
      var mine := row.provider == provider;
      && Total(RowsOf(r, provider), CostColumn)
           == Total(RowsOf(l, provider), CostColumn) + (if mine then CostOf(row) else 0)
      && Total(RowsOf(r, provider), BrowserColumn)
           == Total(RowsOf(l, provider), BrowserColumn) + (if mine then BillOf(row.usage).browser else 0)
  {
    if l.attempts[a].provider == provider {
      RowsMove(l, a, CostColumn);
      RowsMove(l, a, BrowserColumn);
    } else {
      OtherTable(l, a, provider);
    }
  }

  lemma OtherTable(l: Ledger, a: Id, provider: Id)
    requires a in l.attempts && provider != l.attempts[a].provider
    ensures RowsOf(Settle(l, a), provider) == RowsOf(l, provider)
  {
  }

  lemma RowsMove(l: Ledger, a: Id, c: Column)
    requires a in l.attempts && AttemptOk(l.attempts[a]) && (c.CostColumn? || c.BrowserColumn?)
    ensures var row := l.attempts[a];
      Total(RowsOf(Settle(l, a), row.provider), c) == Total(RowsOf(l, row.provider), c)
        + if c.CostColumn? then CostOf(row) else BillOf(row.usage).browser
  {
    var row := l.attempts[a];
    TotalMerged(RowsOf(l, row.provider), RowsDue(l, a), c);
    Conserved(BillOf(row.usage), Methods(row), RetainedFor(l, row.provider, Methods(row)), c);
  }

  lemma SettleKeeps(l: Ledger, a: Id, provider: Id)
    requires a in l.attempts && AttemptOk(l.attempts[a]) && !l.attempts[a].commandCostProjected
    ensures SameGap(l, Settle(l, a), provider)
  {
    SettlementMoves(l, a, provider);
    DomainFrame(l, Settle(l, a), provider);
  }

  lemma ProjectAttemptKeeps(l: Ledger, a: Id, domain: Option<Id>, summarised: bool, provider: Id)
    requires a in l.attempts && AttemptOk(l.attempts[a])
    ensures SameGap(l, ProjectAttempt(l, a, domain, summarised), provider)
  {
    var moved := Assign(l, a, domain);
    var charged := ProjectCost(moved, a);
    AssignKeeps(l, a, domain, provider);
    ProjectCostKeeps(moved, a, provider);
    if summarised && charged.attempts[a].finished && !charged.attempts[a].commandCostProjected {
      assert ProjectCost(charged, a) == charged;
      SettleKeeps(charged, a, provider);
    }
  }

  lemma ProjectedIsOk(l: Ledger, a: Id, domain: Option<Id>, summarised: bool)
    requires AttemptsOk(l) && a in l.attempts
    ensures AttemptsOk(ProjectAttempt(l, a, domain, summarised))
  {
    ProjectedIsQuiet(l, a, domain, summarised);
    assert AttemptOk(l.attempts[a]);
  }

  /** However attempts are projected, the ledger stays as true to them as it was. */
  lemma {:induction false} ProjectAllKeeps(l: Ledger, ids: seq<Id>, domains: map<Id, Id>, summarised: set<Id>,
                                           provider: Id)
    requires AttemptsOk(l)
    ensures AttemptsOk(ProjectAll(l, ids, domains, summarised))
    ensures SameGap(l, ProjectAll(l, ids, domains, summarised), provider)
  {
    if ids != [] {
      var before, a := ProjectAll(l, ids[..|ids| - 1], domains, summarised), ids[|ids| - 1];
      ProjectAllKeeps(l, ids[..|ids| - 1], domains, summarised, provider);
      if a in before.attempts {
        ProjectAttemptKeeps(before, a, Given(domains, a), a in summarised, provider);
        ProjectedIsOk(before, a, Given(domains, a), a in summarised);
      }
    }
  }

  // ---- Retention ----------------------------------------------------------------------------------------

  /** A deleted domain takes its cost rows along; its attempts stay and no longer name one. */
  function ForgetDomain(l: Ledger, domain: Id): Ledger {
    l.(domainCosts := map key | key in l.domainCosts && key.0 != domain :: l.domainCosts[key],
       attempts := map a | a in l.attempts ::
         if l.attempts[a].domain == Some(domain) then l.attempts[a].(domain := None) else l.attempts[a])
  }

  /** A deleted session takes its attempts along. */
  function ForgetAttempt(l: Ledger, a: Id): Ledger {
    l.(attempts := l.attempts - {a})
  }

  /** What a domain row held for the provider. */
  function RowExcess(l: Ledger, domain: Id, provider: Id): Excess {
    Excess(DomainCostAt(l, domain, provider).cost, DomainCostAt(l, domain, provider).observed)
  }

  /** What an attempt was charged with, for one provider; and what it was settled for. */
  function ChargeOf(row: Attempt, provider: Id): Excess {
    if Charged(row, provider) then Excess(CostOf(row), 1) else Excess(0, 0)
  }

  function SettlementOf(row: Attempt, provider: Id): Surplus {
    if IsSettled(row, provider) then Surplus(CostOf(row), BillOf(row.usage).browser) else Surplus(0, 0)
  }

  function More(a: Excess, b: Excess): Excess {
    Excess(a.cost + b.cost, a.count + b.count)
  }

  function Less(a: Excess, b: Excess): Excess {
    Excess(a.cost - b.cost, a.count - b.count)
  }

  /** Of the rows of one domain only that of the provider counts. */
  lemma {:induction false} SumWithout(m: map<(Id, Id), int>, after: map<(Id, Id), int>, domain: Id, provider: Id)
    requires after == map key | key in m && key.0 != domain :: m[key]
    requires forall key :: key in m && key.0 == domain && key.1 != provider ==> m[key] == 0
    ensures Sum(after) == Sum(m) - if (domain, provider) in m then m[(domain, provider)] else 0
  {
    if key :| key in m && key.0 == domain {
      SumSplit(m, key);
      assert after == map k | k in m - {key} && k.0 != domain :: (m - {key})[k];
      SumWithout(m - {key}, after, domain, provider);
    } else {
      assert after == m;
    }
  }

  /** Deleting a domain takes its row out of the domain totals, and nothing else. */
  lemma ForgettingDomain(l: Ledger, domain: Id, provider: Id)
    ensures DomainExcess(ForgetDomain(l, domain), provider)
         == Less(DomainExcess(l, provider), RowExcess(l, domain, provider))
  {
    ForgottenRows(l, domain, provider);
    SameCharges(l, ForgetDomain(l, domain), provider);
  }

  lemma ForgettingDomainCommands(l: Ledger, domain: Id, provider: Id)
    ensures CommandSurplus(ForgetDomain(l, domain), provider) == CommandSurplus(l, provider)
  {
    CommandFrame(l, ForgetDomain(l, domain), provider);
  }

  lemma ForgottenRows(l: Ledger, domain: Id, provider: Id)
    ensures Sum(DomainCosts(ForgetDomain(l, domain), provider))
         == Sum(DomainCosts(l, provider)) - RowExcess(l, domain, provider).cost
    ensures Sum(DomainCounts(ForgetDomain(l, domain), provider))
         == Sum(DomainCounts(l, provider)) - RowExcess(l, domain, provider).count
  {
    SumWithout(DomainCosts(l, provider), DomainCosts(ForgetDomain(l, domain), provider), domain, provider);
    SumWithout(DomainCounts(l, provider), DomainCounts(ForgetDomain(l, domain), provider), domain, provider);
  }

  lemma SameCharges(l: Ledger, r: Ledger, provider: Id)
    requires r.attempts.Keys == l.attempts.Keys
    requires forall a :: a in l.attempts ==>
      && r.attempts[a].provider == l.attempts[a].provider && r.attempts[a].usage == l.attempts[a].usage
      && r.attempts[a].costProjected == l.attempts[a].costProjected
    ensures ChargedCosts(r, provider) == ChargedCosts(l, provider)
    ensures ChargedCounts(r, provider) == ChargedCounts(l, provider)
  {
  }

  /** Deleting an attempt leaves what it was charged with, and settled for, in the totals. */
  lemma ForgottenCharge(l: Ledger, a: Id, provider: Id)
    requires a in l.attempts
    ensures DomainExcess(ForgetAttempt(l, a), provider)
         == More(DomainExcess(l, provider), ChargeOf(l.attempts[a], provider))
  {
    ChargedWithout(l, a, provider);
    assert DomainCosts(ForgetAttempt(l, a), provider) == DomainCosts(l, provider);
    assert DomainCounts(ForgetAttempt(l, a), provider) == DomainCounts(l, provider);
  }

  lemma ChargedWithout(l: Ledger, a: Id, provider: Id)
    requires a in l.attempts
    ensures var r, charge := ForgetAttempt(l, a), ChargeOf(l.attempts[a], provider);
      && Sum(ChargedCosts(r, provider)) == Sum(ChargedCosts(l, provider)) - charge.cost
      && Sum(ChargedCounts(r, provider)) == Sum(ChargedCounts(l, provider)) - charge.count
  {
    var r := ForgetAttempt(l, a);
    SumSplit(ChargedCosts(l, provider), a);
    assert ChargedCosts(l, provider) - {a} == ChargedCosts(r, provider);
    SumSplit(ChargedCounts(l, provider), a);
    assert ChargedCounts(l, provider) - {a} == ChargedCounts(r, provider);
  }

  lemma ForgottenSettlement(l: Ledger, a: Id, provider: Id)
    requires a in l.attempts
    ensures CommandSurplus(ForgetAttempt(l, a), provider)
         == Surplus(CommandSurplus(l, provider).cost + SettlementOf(l.attempts[a], provider).cost,
                    CommandSurplus(l, provider).time + SettlementOf(l.attempts[a], provider).time)
  {
    var r := ForgetAttempt(l, a);
    SumSplit(SettledCosts(l, provider), a);
    SumSplit(SettledTimes(l, provider), a);
    assert SettledCosts(l, provider) - {a} == SettledCosts(r, provider);
    assert SettledTimes(l, provider) - {a} == SettledTimes(r, provider);
  }

  // ---- How many rows there can be -----------------------------------------------------------------------

  /** Besides overhead and the shared row there are at most 511, so at most 512 besides overhead. */
  predicate RowsFit(rows: Rows) {
    |rows.Keys - {OVERHEAD} - {OTHER}| <= MAX_METHODS - 1
  }

  predicate TablesFit(l: Ledger) {
    forall provider :: provider in l.commandCosts ==> RowsFit(l.commandCosts[provider])
  }

  lemma RowsFitMeans(rows: Rows)
    requires RowsFit(rows)
    ensures |rows.Keys - {OVERHEAD}| <= MAX_METHODS
  {
    SubsetSize(rows.Keys - {OVERHEAD}, (rows.Keys - {OVERHEAD} - {OTHER}) + {OTHER});
  }

  /** Every row due goes to a retained name. */
  lemma RowsDueNames(l: Ledger, a: Id, name: string)
    requires a in l.attempts
    ensures var row := l.attempts[a];
      name in RowsDue(l, a) && name != OVERHEAD ==>
        name in Retain(RowsOf(l, row.provider).Keys - {OVERHEAD}, Names(Methods(row))).existing + {OTHER}
  {
    var row := l.attempts[a];
    var methods, existing := Methods(row), RowsOf(l, row.provider).Keys - {OVERHEAD};
    var retained := RetainedFor(l, row.provider, methods);
    RetainedNames(existing, Names(methods));
    if name in RowsDue(l, a) && name != OVERHEAD {
      RowsByName(BillOf(row.usage), methods, retained, name, CostColumn);
      var entry :| entry in methods && retained[entry.name] == name;
      var i :| 0 <= i < |methods| && methods[i] == entry;
      assert Names(methods)[i] in Names(methods);
    }
  }

  /** Whatever methods arrive, the merged table still fits. */
  lemma MergedFits(l: Ledger, a: Id)
    requires a in l.attempts && RowsFit(RowsOf(l, l.attempts[a].provider))
    ensures RowsFit(Merged(RowsOf(l, l.attempts[a].provider), RowsDue(l, a)))
  {
    var row := l.attempts[a];
    var table, due := RowsOf(l, row.provider), RowsDue(l, a);
    var existing, names := table.Keys - {OVERHEAD}, Names(Methods(row));
    var kept, after := Retain(existing, names).existing - {OTHER}, Merged(table, due).Keys - {OVERHEAD} - {OTHER};
    RetainedNames(existing, names);
    RetainedFit(existing, names);
    forall name | name in after ensures name in kept {
      if name !in table {
        RowsDueNames(l, a, name);
      }
    }
    SubsetSize(after, kept);
  }

  lemma NothingFits(none: Rows)
    requires none == map[]
    ensures RowsFit(none)
  {
    assert none.Keys - {OVERHEAD} - {OTHER} == {};
  }

  lemma TableReplaced(l: Ledger, r: Ledger, provider: Id)
    requires TablesFit(l) && provider in r.commandCosts && RowsFit(r.commandCosts[provider])
    requires r.commandCosts == l.commandCosts[provider := r.commandCosts[provider]]
    ensures TablesFit(r)
  {
  }

  lemma SettleFits(l: Ledger, a: Id)
    requires a in l.attempts && TablesFit(l)
    ensures TablesFit(Settle(l, a))
  {
    NothingFits(map[]);
    MergedFits(l, a);
    TableReplaced(l, Settle(l, a), l.attempts[a].provider);
  }

  /** However methods arrive, a provider never has more than 512 rows besides overhead. */
  lemma {:induction false} ProjectAllFits(l: Ledger, ids: seq<Id>, domains: map<Id, Id>, summarised: set<Id>)
    requires TablesFit(l)
    ensures TablesFit(ProjectAll(l, ids, domains, summarised))
  {
    if ids != [] {
      var before, a := ProjectAll(l, ids[..|ids| - 1], domains, summarised), ids[|ids| - 1];
      ProjectAllFits(l, ids[..|ids| - 1], domains, summarised);
      if a in before.attempts {
        var charged := ProjectCost(Assign(before, a, Given(domains, a)), a);
        if a in summarised && charged.attempts[a].finished && !charged.attempts[a].commandCostProjected {
          SettleFits(ProjectCost(charged, a), a);
        }
      }
    }
  }
}
