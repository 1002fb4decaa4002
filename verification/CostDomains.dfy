/** The ledger by domain: how far the row of a domain is from the charged attempts that name the domain. */
module CostDomains {
  import opened Common
  import opened Usage
  import opened Costs
  import opened CostProjection
  import opened CostRuns

  ghost function CostsIn(l: Ledger, domain: Id, provider: Id): map<Id, int> {
    map a | a in l.attempts ::
      if Charged(l.attempts[a], provider) && l.attempts[a].domain == Some(domain) then CostOf(l.attempts[a]) else 0
  }

  ghost function CountsIn(l: Ledger, domain: Id, provider: Id): map<Id, int> {
    map a | a in l.attempts ::
      if Charged(l.attempts[a], provider) && l.attempts[a].domain == Some(domain) then 1 else 0
  }

  /** What the row of a domain and provider holds beyond the charged attempts that name the domain now. */
  ghost function ExcessIn(l: Ledger, domain: Id, provider: Id): Excess {
    Excess(DomainCostAt(l, domain, provider).cost - Sum(CostsIn(l, domain, provider)),
           DomainCostAt(l, domain, provider).observed - Sum(CountsIn(l, domain, provider)))
  }

  /** The row is about exactly those attempts. */
  ghost predicate DomainAgrees(l: Ledger, domain: Id, provider: Id) {
    && DomainCostAt(l, domain, provider).cost == Sum(CostsIn(l, domain, provider))
    && DomainCostAt(l, domain, provider).observed == Sum(CountsIn(l, domain, provider))
  }

  ghost predicate AgreesByDomain(l: Ledger) {
    forall domain, provider :: DomainAgrees(l, domain, provider)
  }

  // ---- Renaming -----------------------------------------------------------------------------------------

  /** A late navigation names another domain for an attempt that is already charged. */
  predicate Moves(row: Attempt, domain: Option<Id>) {
    row.costProjected && domain.Some? && domain != row.domain
  }

  /** The charge of an attempt, if it names the domain. */
  function ChargeIn(row: Attempt, named: Option<Id>, domain: Id, provider: Id): Excess {
    if named == Some(domain) then ChargeOf(row, provider) else Excess(0, 0)
  }

  /** A charged attempt that leaves a domain leaves its charge there, and arrives without one. */
  function Renamed(row: Attempt, named: Option<Id>, domain: Id, provider: Id): Excess {
    if Moves(row, named)
    then Less(ChargeIn(row, row.domain, domain, provider), ChargeIn(row, named, domain, provider))
    else Excess(0, 0)
  }

  lemma AssignDrifts(l: Ledger, a: Id, named: Option<Id>, domain: Id, provider: Id)
    requires a in l.attempts
    ensures ExcessIn(Assign(l, a, named), domain, provider)
         == More(ExcessIn(l, domain, provider), Renamed(l.attempts[a], named, domain, provider))
  {
    var r, drift := Assign(l, a, named), Renamed(l.attempts[a], named, domain, provider);
    SumGrows(CostsIn(l, domain, provider), CostsIn(r, domain, provider), a, -drift.cost);
    SumGrows(CountsIn(l, domain, provider), CountsIn(r, domain, provider), a, -drift.count);
  }

  lemma ChargeDrifts(l: Ledger, a: Id, domain: Id, provider: Id)
    requires a in l.attempts && CostDue(l.attempts[a])
    ensures ExcessIn(ProjectCost(l, a), domain, provider) == ExcessIn(l, domain, provider)
  {
    var row, r := l.attempts[a], ProjectCost(l, a);
    var mine := row.provider == provider && row.domain == Some(domain);
    SumGrows(CostsIn(l, domain, provider), CostsIn(r, domain, provider), a, if mine then CostOf(row) else 0);
    SumGrows(CountsIn(l, domain, provider), CountsIn(r, domain, provider), a, if mine then 1 else 0);
  }

  lemma SameDomains(l: Ledger, r: Ledger, domain: Id, provider: Id)
    requires r.domainCosts == l.domainCosts && r.attempts.Keys == l.attempts.Keys
    requires forall a :: a in l.attempts ==>
      && r.attempts[a].provider == l.attempts[a].provider && r.attempts[a].usage == l.attempts[a].usage
      && r.attempts[a].domain == l.attempts[a].domain && r.attempts[a].costProjected == l.attempts[a].costProjected
    ensures ExcessIn(r, domain, provider) == ExcessIn(l, domain, provider)
  {
    assert CostsIn(r, domain, provider) == CostsIn(l, domain, provider);
    assert CountsIn(r, domain, provider) == CountsIn(l, domain, provider);
  }

  lemma SettleDrifts(l: Ledger, a: Id, domain: Id, provider: Id)
    requires a in l.attempts
    ensures ExcessIn(Settle(l, a), domain, provider) == ExcessIn(l, domain, provider)
  {
    SameDomains(l, Settle(l, a), domain, provider);
  }

  /** The projection of one attempt moves a domain row against its attempts exactly by a renaming. */
  lemma ProjectDrifts(l: Ledger, a: Id, named: Option<Id>, summarised: bool, domain: Id, provider: Id)
    requires a in l.attempts
    ensures ExcessIn(ProjectAttempt(l, a, named, summarised), domain, provider)
         == More(ExcessIn(l, domain, provider), Renamed(l.attempts[a], named, domain, provider))
  {
    var moved := Assign(l, a, named);
    var charged := ProjectCost(moved, a);
    AssignDrifts(l, a, named, domain, provider);
    if CostDue(moved.attempts[a]) {
      ChargeDrifts(moved, a, domain, provider);
    }
    if summarised && charged.attempts[a].finished && !charged.attempts[a].commandCostProjected {
      assert ProjectCost(charged, a) == charged;
      SettleDrifts(charged, a, domain, provider);
    }
  }

  /** A renaming leaves every domain row as it is. */
  lemma RenamingKeepsRows(l: Ledger, a: Id, named: Option<Id>, summarised: bool)
    requires a in l.attempts && Moves(l.attempts[a], named)
    ensures ProjectAttempt(l, a, named, summarised).domainCosts == l.domainCosts
    ensures ProjectAttempt(l, a, named, summarised).attempts[a].domain == named
  {
    assert ProjectCost(Assign(l, a, named), a) == Assign(l, a, named);
  }

  lemma Agreement(l: Ledger, domain: Id, provider: Id)
    ensures DomainAgrees(l, domain, provider) <==> ExcessIn(l, domain, provider) == Excess(0, 0)
  {
  }

  /** Exactly when one projection keeps the ledger by domain true to the domains the attempts name: it
      must not rename the domain of an attempt that is already charged. */
  lemma AgreesUnlessMoved(l: Ledger, a: Id, named: Option<Id>, summarised: bool)
    requires a in l.attempts && AgreesByDomain(l)
    ensures AgreesByDomain(ProjectAttempt(l, a, named, summarised)) <==> !Moves(l.attempts[a], named)
  {
    if Moves(l.attempts[a], named) {
      assert DomainAgrees(l, named.value, l.attempts[a].provider);
      MovedDisagrees(l, a, named, summarised);
    } else {
      forall domain, provider
        ensures DomainAgrees(ProjectAttempt(l, a, named, summarised), domain, provider)
      {
        assert DomainAgrees(l, domain, provider);
        UnmovedAgrees(l, a, named, summarised, domain, provider);
      }
    }
  }

  lemma UnmovedAgrees(l: Ledger, a: Id, named: Option<Id>, summarised: bool, domain: Id, provider: Id)
    requires a in l.attempts && !Moves(l.attempts[a], named) && DomainAgrees(l, domain, provider)
    ensures DomainAgrees(ProjectAttempt(l, a, named, summarised), domain, provider)
  {
    ProjectDrifts(l, a, named, summarised, domain, provider);
    Agreement(l, domain, provider);
    Agreement(ProjectAttempt(l, a, named, summarised), domain, provider);
  }

  /** The domain a charged attempt arrives in has no charge for it. */
  lemma MovedDisagrees(l: Ledger, a: Id, named: Option<Id>, summarised: bool)
    requires a in l.attempts && Moves(l.attempts[a], named)
    requires DomainAgrees(l, named.value, l.attempts[a].provider)
    ensures !DomainAgrees(ProjectAttempt(l, a, named, summarised), named.value, l.attempts[a].provider)
  {
    ProjectDrifts(l, a, named, summarised, named.value, l.attempts[a].provider);
    Agreement(l, named.value, l.attempts[a].provider);
    Agreement(ProjectAttempt(l, a, named, summarised), named.value, l.attempts[a].provider);
  }

  // ---- Over runs ----------------------------------------------------------------------------------------

  /** What the renamings of a batch leave in a domain, less what they bring there. */
  function BatchDrift(l: Ledger, ids: seq<Id>, domains: map<Id, Id>, summarised: set<Id>,
                      domain: Id, provider: Id): Excess
  {
    if ids == [] then Excess(0, 0)
    else
      var rest, a := ids[..|ids| - 1], ids[|ids| - 1];
      var before := ProjectAll(l, rest, domains, summarised);
      var drift := BatchDrift(l, rest, domains, summarised, domain, provider);
      if a in before.attempts then More(drift, Renamed(before.attempts[a], Given(domains, a), domain, provider))
      else drift
  }

  lemma {:induction false} BatchDrifts(l: Ledger, ids: seq<Id>, domains: map<Id, Id>, summarised: set<Id>,
                                       domain: Id, provider: Id)
    ensures ExcessIn(ProjectAll(l, ids, domains, summarised), domain, provider)
         == More(ExcessIn(l, domain, provider), BatchDrift(l, ids, domains, summarised, domain, provider))
  {
    if ids != [] {
      var rest, a := ids[..|ids| - 1], ids[|ids| - 1];
      var before := ProjectAll(l, rest, domains, summarised);
      BatchDrifts(l, rest, domains, summarised, domain, provider);
      if a in before.attempts {
        ProjectDrifts(before, a, Given(domains, a), a in summarised, domain, provider);
        MoreAndMore(ExcessIn(l, domain, provider), BatchDrift(l, rest, domains, summarised, domain, provider),
                    Renamed(before.attempts[a], Given(domains, a), domain, provider));
      }
    } else {
      AddNothing(ExcessIn(l, domain, provider));
    }
  }

  lemma MoreAndMore(a: Excess, b: Excess, c: Excess)
    ensures More(More(a, b), c) == More(a, More(b, c))
  {
  }

  /** What one step does to the excess of a domain: renamings move charges, a deleted attempt leaves its
      charge behind, and a deleted domain is gone with its row. */
  function Drifted(l: Ledger, op: Op, domain: Id, provider: Id, drift: Excess): Excess
    requires Enabled(l, op)
  {
    match op
    case Project(ids, domains, summarised) =>
      More(drift, BatchDrift(l, ids, domains, summarised, domain, provider))
    case DropDomain(gone) => if gone == domain then Excess(0, 0) else drift
    case DropAttempt(a) => More(drift, ChargeIn(l.attempts[a], l.attempts[a].domain, domain, provider))
    case _ => drift
  }

  ghost function RunDrift(states: seq<Ledger>, ops: seq<Op>, n: nat, domain: Id, provider: Id): Excess
    requires IsRun(states, ops) && n < |states|
  {
    if n == 0 then Excess(0, 0)
    else Drifted(states[n - 1], ops[n - 1], domain, provider, RunDrift(states, ops, n - 1, domain, provider))
  }

  lemma {:induction false} NothingSummed(m: map<Id, int>)
    requires forall a :: a in m ==> m[a] == 0
    ensures Sum(m) == 0
  {
    if m != map[] {
      var a :| a in m;
      SumSplit(m, a);
      NothingSummed(m - {a});
    }
  }

  lemma DroppedDomainDrifts(l: Ledger, gone: Id, domain: Id, provider: Id)
    ensures ExcessIn(ForgetDomain(l, gone), domain, provider)
         == if gone == domain then Excess(0, 0) else ExcessIn(l, domain, provider)
  {
    if gone == domain {
      NothingSummed(CostsIn(ForgetDomain(l, gone), domain, provider));
      NothingSummed(CountsIn(ForgetDomain(l, gone), domain, provider));
    } else {
      OtherDomainStands(l, gone, domain, provider);
    }
  }

  lemma OtherDomainStands(l: Ledger, gone: Id, domain: Id, provider: Id)
    requires gone != domain
    ensures ExcessIn(ForgetDomain(l, gone), domain, provider) == ExcessIn(l, domain, provider)
  {
    var r := ForgetDomain(l, gone);
    assert CostsIn(r, domain, provider) == CostsIn(l, domain, provider);
    assert CountsIn(r, domain, provider) == CountsIn(l, domain, provider);
  }

  lemma DroppedAttemptDrifts(l: Ledger, a: Id, domain: Id, provider: Id)
    requires a in l.attempts
    ensures ExcessIn(ForgetAttempt(l, a), domain, provider)
         == More(ExcessIn(l, domain, provider), ChargeIn(l.attempts[a], l.attempts[a].domain, domain, provider))
  {
    AttemptsWithout(l, a, domain, provider);
    assert DomainCostAt(ForgetAttempt(l, a), domain, provider) == DomainCostAt(l, domain, provider);
  }

  lemma AttemptsWithout(l: Ledger, a: Id, domain: Id, provider: Id)
    requires a in l.attempts
    ensures var r, charge := ForgetAttempt(l, a), ChargeIn(l.attempts[a], l.attempts[a].domain, domain, provider);
      && Sum(CostsIn(r, domain, provider)) == Sum(CostsIn(l, domain, provider)) - charge.cost
      && Sum(CountsIn(r, domain, provider)) == Sum(CountsIn(l, domain, provider)) - charge.count
  {
    var r := ForgetAttempt(l, a);
    SumSplit(CostsIn(l, domain, provider), a);
    assert CostsIn(l, domain, provider) - {a} == CostsIn(r, domain, provider);
    SumSplit(CountsIn(l, domain, provider), a);
    assert CountsIn(l, domain, provider) - {a} == CountsIn(r, domain, provider);
  }

  lemma UnchargedDrifts(l: Ledger, r: Ledger, a: Id, domain: Id, provider: Id)
    requires OnlyUncharged(l, r, a)
    ensures ExcessIn(r, domain, provider) == ExcessIn(l, domain, provider)
  {
    SumGrows(CostsIn(l, domain, provider), CostsIn(r, domain, provider), a, 0);
    SumGrows(CountsIn(l, domain, provider), CountsIn(r, domain, provider), a, 0);
  }

  lemma StepDrifts(l: Ledger, op: Op, domain: Id, provider: Id)
    requires AttemptsOk(l) && Enabled(l, op)
    ensures ExcessIn(Step(l, op), domain, provider)
         == Drifted(l, op, domain, provider, ExcessIn(l, domain, provider))
  {
    match op
    case Open(a, _) => LifecycleUncharged(l, op); UnchargedDrifts(l, Step(l, op), a, domain, provider);
    case Finish(a, _, _) => LifecycleUncharged(l, op); UnchargedDrifts(l, Step(l, op), a, domain, provider);
    case Project(ids, domains, summarised) => BatchDrifts(l, ids, domains, summarised, domain, provider);
    case DropDomain(gone) => DroppedDomainDrifts(l, gone, domain, provider);
    case DropAttempt(a) => DroppedAttemptDrifts(l, a, domain, provider);
  }

  lemma {:induction false} ExcessInRun(states: seq<Ledger>, ops: seq<Op>, n: nat, domain: Id, provider: Id)
    requires IsRun(states, ops) && n < |states|
    ensures ExcessIn(states[n], domain, provider) == RunDrift(states, ops, n, domain, provider)
  {
    if n == 0 {
      NothingSummed(CostsIn(states[0], domain, provider));
      NothingSummed(CountsIn(states[0], domain, provider));
    } else {
      ExcessInRun(states, ops, n - 1, domain, provider);
      RunOk(states, ops, n - 1);
      assert Enabled(states[n - 1], ops[n - 1]);
      StepDrifts(states[n - 1], ops[n - 1], domain, provider);
    }
  }

  /** In every run the row of a domain holds, beyond the charged attempts that name the domain, exactly the
      charges that renamed and deleted attempts left there, less those that renamed attempts owe it; so it
      is true to its attempts if and only if these come to nothing. */
  lemma RowsKeepWhatLeft(states: seq<Ledger>, ops: seq<Op>, n: nat, domain: Id, provider: Id)
    requires IsRun(states, ops) && n < |states|
    ensures ExcessIn(states[n], domain, provider) == RunDrift(states, ops, n, domain, provider)
    ensures DomainAgrees(states[n], domain, provider)
       <==> RunDrift(states, ops, n, domain, provider) == Excess(0, 0)
  {
    ExcessInRun(states, ops, n, domain, provider);
    Agreement(states[n], domain, provider);
  }

  /** A step that renames no charged attempt and deletes none. */
  predicate Settling(l: Ledger, op: Op)
    requires Enabled(l, op)
  {
    && (op.Project? ==>
          forall a :: a in op.ids && a in l.attempts ==> !Moves(l.attempts[a], Given(op.domains, a)))
    && (op.DropAttempt? ==> !l.attempts[op.a].costProjected)
  }

  lemma {:induction false} SettlingBatch(l: Ledger, ids: seq<Id>, domains: map<Id, Id>, summarised: set<Id>,
                                         domain: Id, provider: Id)
    requires forall a :: a in ids && a in l.attempts ==> !Moves(l.attempts[a], Given(domains, a))
    ensures BatchDrift(l, ids, domains, summarised, domain, provider) == Excess(0, 0)
    ensures forall a :: a in l.attempts && !Moves(l.attempts[a], Given(domains, a)) ==>
      !Moves(ProjectAll(l, ids, domains, summarised).attempts[a], Given(domains, a))
  {
    if ids != [] {
      var rest, last := ids[..|ids| - 1], ids[|ids| - 1];
      assert ids == rest + [last];
      SettlingBatch(l, rest, domains, summarised, domain, provider);
      var before := ProjectAll(l, rest, domains, summarised);
      if last in before.attempts {
        ProjectedIsQuiet(before, last, Given(domains, last), last in summarised);
      }
    }
  }

  lemma {:induction false} NoDrift(states: seq<Ledger>, ops: seq<Op>, n: nat, domain: Id, provider: Id)
    requires IsRun(states, ops) && n < |states|
    requires forall i {:trigger ops[i]} :: 0 <= i < n ==> Enabled(states[i], ops[i]) && Settling(states[i], ops[i])
    ensures RunDrift(states, ops, n, domain, provider) == Excess(0, 0)
  {
    if n > 0 {
      NoDrift(states, ops, n - 1, domain, provider);
      var l, op := states[n - 1], ops[n - 1];
      assert Settling(l, op);
      if op.Project? {
        SettlingBatch(l, op.ids, op.domains, op.summarised, domain, provider);
      }
    }
  }

  /** The ledger by domain is true to the attempts in every run that renames and deletes no charged
      attempt, whatever domains are deleted. */
  lemma AgreesInRun(states: seq<Ledger>, ops: seq<Op>, n: nat)
    requires IsRun(states, ops) && n < |states|
    requires forall i {:trigger ops[i]} :: 0 <= i < n ==> Enabled(states[i], ops[i]) && Settling(states[i], ops[i])
    ensures AgreesByDomain(states[n])
  {
    forall domain, provider ensures DomainAgrees(states[n], domain, provider) {
      NoDrift(states, ops, n, domain, provider);
      RowsKeepWhatLeft(states, ops, n, domain, provider);
    }
  }

  // ---- A late navigation --------------------------------------------------------------------------------

  /** The four steps of a late navigation. */
  function LateRun(a: Id, provider: Id, usage: Usage, first: Id, second: Id): seq<Op> {
    [Open(a, provider), Finish(a, usage, None), Project([a], map[a := first], {}), Project([a], map[a := second], {})]
  }

  /** The ledgers of a late navigation. */
  function LateStates(a: Id, provider: Id, usage: Usage, first: Id, second: Id): (r: seq<Ledger>)
    requires Enabled(Step(EMPTY, Open(a, provider)), Finish(a, usage, None))
  {
    var open := Step(EMPTY, Open(a, provider));
    var finished := Step(open, Finish(a, usage, None));
    var charged := Step(finished, Project([a], map[a := first], {}));
    [EMPTY, open, finished, charged, Step(charged, Project([a], map[a := second], {}))]
  }

  lemma OneAttempt(l: Ledger, a: Id, domains: map<Id, Id>)
    requires a in l.attempts
    ensures ProjectAll(l, [a], domains, {}) == ProjectAttempt(l, a, Given(domains, a), false)
  {
    assert [a][..0] == [];
    assert ProjectAll(l, [a][..0], domains, {}) == l;
  }

  /** After the first navigation the attempt is charged to the first domain. */
  lemma FirstNavigation(states: seq<Ledger>, a: Id, provider: Id, usage: Usage, first: Id, second: Id)
    requires IsRun(states, LateRun(a, provider, usage, first, second)) && usage.modeledCost.Some?
    ensures a in states[3].attempts
    ensures var row := states[3].attempts[a];
      && row.provider == provider && row.domain == Some(first) && row.usage == usage && row.costProjected
      && states[3].domainCosts == map[(first, provider) := DomainCost(1, usage.modeledCost.value)]
  {
    var ops := LateRun(a, provider, usage, first, second);
    assert forall i :: 0 <= i < 4 ==> Enabled(states[i], ops[i]) && states[i + 1] == Step(states[i], ops[i]);
    OneAttempt(states[2], a, map[a := first]);
  }

  /** The old domain keeps the charge, the new one gets none, and the rows no longer agree with the
      attempts: one late navigation is enough, whatever the attempt cost. */
  lemma LateNavigation(states: seq<Ledger>, a: Id, provider: Id, usage: Usage, first: Id, second: Id)
    requires IsRun(states, LateRun(a, provider, usage, first, second))
    requires usage.modeledCost.Some? && first != second
    ensures a in states[4].attempts && states[4].attempts[a].domain == Some(second)
    ensures DomainCostAt(states[4], first, provider) == DomainCost(1, usage.modeledCost.value)
    ensures DomainCostAt(states[4], second, provider) == DomainCost(0, 0)
    ensures !AgreesByDomain(states[4])
  {
    var ops := LateRun(a, provider, usage, first, second);
    assert Enabled(states[3], ops[3]) && states[4] == Step(states[3], ops[3]);
    FirstNavigation(states, a, provider, usage, first, second);
    OneAttempt(states[3], a, map[a := second]);
    RenamingKeepsRows(states[3], a, Some(second), false);
    var named: map<Id, int> := CountsIn(states[4], second, provider);
    assert named[a] == 1 && named - {a} == map[] by {
      LateRows(states, a, provider, usage, first, second);
    }
    SumSplit(named, a);
    NothingSummed(named - {a});
    assert !DomainAgrees(states[4], second, provider);
  }

  lemma LateRows(states: seq<Ledger>, a: Id, provider: Id, usage: Usage, first: Id, second: Id)
    requires IsRun(states, LateRun(a, provider, usage, first, second))
    requires usage.modeledCost.Some? && first != second
    ensures states[4].attempts.Keys == {a} && Charged(states[4].attempts[a], provider)
    ensures states[4].attempts[a].domain == Some(second)
  {
    var ops := LateRun(a, provider, usage, first, second);
    assert forall i :: 0 <= i < 4 ==> Enabled(states[i], ops[i]) && states[i + 1] == Step(states[i], ops[i]);
    OneAttempt(states[2], a, map[a := first]);
    OneAttempt(states[3], a, map[a := second]);
  }

  /** Any attempt with a known cost can meet with it: this is such a run. */
  lemma LateNavigationHappens(a: Id, provider: Id, usage: Usage, first: Id, second: Id)
    requires Chargeable(usage) && usage.modeledCost.Some? && usage.rate.value >= 0 && first != second
    ensures Enabled(Step(EMPTY, Open(a, provider)), Finish(a, usage, None))
    ensures var states := LateStates(a, provider, usage, first, second);
      IsRun(states, LateRun(a, provider, usage, first, second)) && !AgreesByDomain(states[4])
  {
    LateNavigation(LateStates(a, provider, usage, first, second), a, provider, usage, first, second);
  }

  /** One that cost nothing is enough, for the count of its domain. */
  lemma LateNavigationExists()
    ensures exists states, ops :: IsRun(states, ops) && |states| == 5 && !AgreesByDomain(states[4])
  {
    var usage := Usage(Some(0), None, Some(0), Some(0), Some(0));
    LateNavigationHappens(0, 0, usage, 1, 2);
    assert |LateStates(0, 0, usage, 1, 2)| == 5;
  }
}
