/** When the totals survive retention, which deletes old domains with their costs, and old sessions with
    their attempts, but no command costs. */
module CostRetention {
  import opened Common
  import opened Usage
  import opened Costs
  import opened CostProjection
  import opened CostRuns
  import opened CostDomains

  /** Deleting a domain leaves every domain's costs and the command totals as true to the attempts as they
      were. */
  lemma ForgettingDomainKeeps(l: Ledger, gone: Id, domain: Id, provider: Id)
    requires DomainAgrees(l, domain, provider) && CommandTotals(l, provider)
    ensures DomainAgrees(ForgetDomain(l, gone), domain, provider)
    ensures CommandTotals(ForgetDomain(l, gone), provider)
  {
    DroppedDomainDrifts(l, gone, domain, provider);
    Agreement(l, domain, provider);
    Agreement(ForgetDomain(l, gone), domain, provider);
    ForgettingDomainCommands(l, gone, provider);
  }

  /** The domain total of a provider stays the cost of its charged attempts exactly if the domain that is
      deleted had none of it. */
  lemma TotalSurvivesForgettingDomain(l: Ledger, gone: Id, provider: Id)
    requires DomainTotals(l, provider)
    ensures DomainTotals(ForgetDomain(l, gone), provider)
       <==> DomainCostAt(l, gone, provider) == DomainCost(0, 0)
  {
    ForgettingDomain(l, gone, provider);
  }

  /** The totals of a provider count an attempt on after its session is deleted: they stay the sums over
      the attempts that are left exactly if the deleted one was not charged, and was not settled for
      anything. */
  lemma TotalsSurviveForgettingAttempt(l: Ledger, a: Id, provider: Id)
    requires a in l.attempts && DomainTotals(l, provider) && CommandTotals(l, provider)
    ensures DomainTotals(ForgetAttempt(l, a), provider) <==> !Charged(l.attempts[a], provider)
    ensures CommandTotals(ForgetAttempt(l, a), provider) <==>
      (IsSettled(l.attempts[a], provider) ==>
         CostOf(l.attempts[a]) == 0 && BillOf(l.attempts[a].usage).browser == 0)
  {
    DomainTotalSurvives(l, a, provider);
    CommandTotalSurvives(l, a, provider);
  }

  lemma DomainTotalSurvives(l: Ledger, a: Id, provider: Id)
    requires a in l.attempts && DomainTotals(l, provider)
    ensures DomainTotals(ForgetAttempt(l, a), provider) <==> !Charged(l.attempts[a], provider)
  {
    ChargedWithout(l, a, provider);
    SameRows(l, a, provider);
  }

  lemma SameRows(l: Ledger, a: Id, provider: Id)
    ensures DomainCosts(ForgetAttempt(l, a), provider) == DomainCosts(l, provider)
    ensures DomainCounts(ForgetAttempt(l, a), provider) == DomainCounts(l, provider)
  {
  }

  lemma CommandTotalSurvives(l: Ledger, a: Id, provider: Id)
    requires a in l.attempts && CommandTotals(l, provider)
    ensures CommandTotals(ForgetAttempt(l, a), provider) <==>
      (IsSettled(l.attempts[a], provider) ==>
         CostOf(l.attempts[a]) == 0 && BillOf(l.attempts[a].usage).browser == 0)
  {
    ForgottenSettlement(l, a, provider);
  }

  /** A reachable ledger for both: one charged attempt, and its domain or its session deleted. */
  lemma TotalsAreLost(a: Id, provider: Id, usage: Usage, first: Id, second: Id)
    requires Chargeable(usage) && usage.modeledCost.Some? && usage.rate.value >= 0 && first != second
    ensures Enabled(Step(EMPTY, Open(a, provider)), Finish(a, usage, None))
    ensures var states := LateStates(a, provider, usage, first, second);
      && IsRun(states, LateRun(a, provider, usage, first, second))
      && DomainTotals(states[3], provider) && a in states[3].attempts
      && !DomainTotals(ForgetDomain(states[3], first), provider)
      && !DomainTotals(ForgetAttempt(states[3], a), provider)
  {
    LateNavigationHappens(a, provider, usage, first, second);
    var states, ops := LateStates(a, provider, usage, first, second), LateRun(a, provider, usage, first, second);
    FirstNavigation(states, a, provider, usage, first, second);
    TotalsOfAttempts(states, ops, 3, provider);
    TotalSurvivesForgettingDomain(states[3], first, provider);
    TotalsSurviveForgettingAttempt(states[3], a, provider);
  }

  /** The three steps of a settlement, and its ledgers. */
  function SettledRun(a: Id, provider: Id, usage: Usage): seq<Op> {
    [Open(a, provider), Finish(a, usage, None), Project([a], map[], {a})]
  }

  function SettledStates(a: Id, provider: Id, usage: Usage): seq<Ledger>
    requires Enabled(Step(EMPTY, Open(a, provider)), Finish(a, usage, None))
  {
    var open := Step(EMPTY, Open(a, provider));
    var finished := Step(open, Finish(a, usage, None));
    [EMPTY, open, finished, Step(finished, Project([a], map[], {a}))]
  }

  lemma SettledIsRun(a: Id, provider: Id, usage: Usage)
    requires Chargeable(usage) && (usage.rate.Some? ==> usage.rate.value >= 0)
    ensures Enabled(Step(EMPTY, Open(a, provider)), Finish(a, usage, None))
    ensures IsRun(SettledStates(a, provider, usage), SettledRun(a, provider, usage))
    ensures var l := SettledStates(a, provider, usage)[2];
      && a in l.attempts && l.attempts[a].finished && l.attempts[a].usage == usage
      && l.attempts[a].provider == provider
  {
  }

  /** And one for the command totals: a settled attempt of some cost, and its session deleted. */
  lemma CommandTotalsAreLost(a: Id, provider: Id, usage: Usage)
    requires Chargeable(usage) && OrZero(usage.modeledCost) != 0 && usage.rate.value >= 0
    ensures Enabled(Step(EMPTY, Open(a, provider)), Finish(a, usage, None))
    ensures var states := SettledStates(a, provider, usage);
      && IsRun(states, SettledRun(a, provider, usage))
      && CommandTotals(states[3], provider) && a in states[3].attempts
      && !CommandTotals(ForgetAttempt(states[3], a), provider)
  {
    var states, ops := SettledStates(a, provider, usage), SettledRun(a, provider, usage);
    SettledIsRun(a, provider, usage);
    SettledOnce(states[2], a);
    TotalsOfAttempts(states, ops, 3, provider);
    CommandTotalSurvives(states[3], a, provider);
  }

  lemma SettledOnce(l: Ledger, a: Id)
    requires a in l.attempts && l.attempts[a].finished
    ensures var r := ProjectAll(l, [a], map[], {a});
      && a in r.attempts && r.attempts[a].commandCostProjected
      && r.attempts[a].provider == l.attempts[a].provider && r.attempts[a].usage == l.attempts[a].usage
  {
    AllQuiet(l, [a], map[], {a}, a);
    ProjectAllKeepsRows(l, [a], map[], {a}, a);
  }
}
