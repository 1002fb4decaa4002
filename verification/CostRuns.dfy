/** Whole runs of the ledger: attempts open and finish, batches are projected in any order, cut short and
    delivered again, and retention deletes domains and attempts in between. */
module CostRuns {
  import opened Common
  import opened Usage
  import opened Costs
  import opened CostProjection
  import Admission
  import AdmissionRuns
  import AdmissionRates

  datatype Op =
    | Open(a: Id, provider: Id)
    | Finish(a: Id, usage: Usage, summary: Option<Summary>)
    | Project(ids: seq<Id>, domains: map<Id, Id>, summarised: set<Id>)
    | DropDomain(domain: Id)
    | DropAttempt(a: Id)

  /** An attempt ends once, with the usage its lifecycle gives it and with what its observer counted. */
  predicate Enabled(l: Ledger, op: Op) {
    match op
    case Open(a, _) => a !in l.attempts
    case Finish(a, usage, summary) =>
      && a in l.attempts && !l.attempts[a].finished
      && Chargeable(usage) && (usage.rate.Some? ==> usage.rate.value >= 0)
      && (summary.Some? ==> LatenciesOk(summary.value))
    case Project(_, _, _) => true
    case DropDomain(_) => true
    case DropAttempt(a) => a in l.attempts
  }

  function Step(l: Ledger, op: Op): Ledger
    requires Enabled(l, op)
  {
    match op
    case Open(a, provider) =>
      l.(attempts := l.attempts[a := Attempt(provider, None, false, NOTHING, None, false, false)])
    case Finish(a, usage, summary) =>
      l.(attempts := l.attempts[a := l.attempts[a].(finished := true, usage := usage, summary := summary)])
    case Project(ids, domains, summarised) => ProjectAll(l, ids, domains, summarised)
    case DropDomain(domain) => ForgetDomain(l, domain)
    case DropAttempt(a) => ForgetAttempt(l, a)
  }

  const EMPTY := Ledger(map[], map[], map[])

  ghost predicate IsRun(states: seq<Ledger>, ops: seq<Op>) {
    && |states| == |ops| + 1 && states[0] == EMPTY
    && forall i {:trigger ops[i]} :: 0 <= i < |ops| ==>
         Enabled(states[i], ops[i]) && states[i + 1] == Step(states[i], ops[i])
  }

  // ---- Exactly once -------------------------------------------------------------------------------------

  /** The step is one of retention. */
  predicate Deletes(op: Op) {
    op.DropDomain? || op.DropAttempt?
  }

  /** What a step deletes with an attempt, and with a domain, of a provider's charges and settlements. */
  function DroppedCharge(l: Ledger, op: Op, provider: Id): Excess
    requires Enabled(l, op)
  {
    if op.DropAttempt? then ChargeOf(l.attempts[op.a], provider) else Excess(0, 0)
  }

  function DroppedRow(l: Ledger, op: Op, provider: Id): Excess {
    if op.DropDomain? then RowExcess(l, op.domain, provider) else Excess(0, 0)
  }

  function DroppedSettlement(l: Ledger, op: Op, provider: Id): Surplus
    requires Enabled(l, op)
  {
    if op.DropAttempt? then SettlementOf(l.attempts[op.a], provider) else Surplus(0, 0)
  }

  /** The same of the first n steps of a run. */
  ghost function DroppedCharges(states: seq<Ledger>, ops: seq<Op>, n: nat, provider: Id): Excess
    requires IsRun(states, ops) && n < |states|
  {
    if n == 0 then Excess(0, 0)
    else More(DroppedCharges(states, ops, n - 1, provider), DroppedCharge(states[n - 1], ops[n - 1], provider))
  }

  ghost function DroppedRows(states: seq<Ledger>, ops: seq<Op>, n: nat, provider: Id): Excess
    requires IsRun(states, ops) && n < |states|
  {
    if n == 0 then Excess(0, 0)
    else More(DroppedRows(states, ops, n - 1, provider), DroppedRow(states[n - 1], ops[n - 1], provider))
  }

  ghost function DroppedSettlements(states: seq<Ledger>, ops: seq<Op>, n: nat, provider: Id): Surplus
    requires IsRun(states, ops) && n < |states|
  {
    if n == 0 then Surplus(0, 0)
    else
      var before := DroppedSettlements(states, ops, n - 1, provider);
      var more := DroppedSettlement(states[n - 1], ops[n - 1], provider);
      Surplus(before.cost + more.cost, before.time + more.time)
  }

  /** Only the row of a changes, and it is neither charged nor settled before or after. */
  predicate OnlyUncharged(l: Ledger, r: Ledger, a: Id) {
    && r == l.(attempts := r.attempts) && r.attempts.Keys == l.attempts.Keys + {a}
    && (forall b :: b in l.attempts && b != a ==> r.attempts[b] == l.attempts[b])
    && (a in l.attempts ==> !l.attempts[a].costProjected && !l.attempts[a].commandCostProjected)
    && !r.attempts[a].costProjected && !r.attempts[a].commandCostProjected
  }

  lemma UnchargedDomains(l: Ledger, r: Ledger, a: Id, provider: Id)
    requires OnlyUncharged(l, r, a)
    ensures DomainExcess(r, provider) == DomainExcess(l, provider)
  {
    UnchargedSums(l, r, a, provider);
    assert DomainCosts(r, provider) == DomainCosts(l, provider);
    assert DomainCounts(r, provider) == DomainCounts(l, provider);
  }

  lemma UnchargedSums(l: Ledger, r: Ledger, a: Id, provider: Id)
    requires OnlyUncharged(l, r, a)
    ensures Sum(ChargedCosts(r, provider)) == Sum(ChargedCosts(l, provider))
    ensures Sum(ChargedCounts(r, provider)) == Sum(ChargedCounts(l, provider))
  {
    SumGrows(ChargedCosts(l, provider), ChargedCosts(r, provider), a, 0);
    SumGrows(ChargedCounts(l, provider), ChargedCounts(r, provider), a, 0);
  }

  lemma UnchargedCommands(l: Ledger, r: Ledger, a: Id, provider: Id)
    requires OnlyUncharged(l, r, a)
    ensures CommandSurplus(r, provider) == CommandSurplus(l, provider)
  {
    SumGrows(SettledCosts(l, provider), SettledCosts(r, provider), a, 0);
    SumGrows(SettledTimes(l, provider), SettledTimes(r, provider), a, 0);
  }

  lemma LifecycleUncharged(l: Ledger, op: Op)
    requires AttemptsOk(l) && Enabled(l, op) && (op.Open? || op.Finish?)
    ensures OnlyUncharged(l, Step(l, op), op.a)
  {
    if op.Finish? {
      assert AttemptOk(l.attempts[op.a]);
    }
  }

  lemma UndroppedDomains(l: Ledger, op: Op, provider: Id)
    requires AttemptsOk(l) && Enabled(l, op) && !Deletes(op)
    ensures DomainExcess(Step(l, op), provider) == DomainExcess(l, provider)
  {
    match op
    case Open(a, _) => LifecycleUncharged(l, op); UnchargedDomains(l, Step(l, op), a, provider);
    case Finish(a, _, _) => LifecycleUncharged(l, op); UnchargedDomains(l, Step(l, op), a, provider);
    case Project(ids, domains, summarised) => ProjectAllKeeps(l, ids, domains, summarised, provider);
  }

  /** One step moves the domain totals against the attempts by what it deletes, and by nothing else. */
  lemma StepDomains(l: Ledger, op: Op, provider: Id)
    requires AttemptsOk(l) && Enabled(l, op)
    ensures DomainExcess(Step(l, op), provider)
         == Less(More(DomainExcess(l, provider), DroppedCharge(l, op, provider)), DroppedRow(l, op, provider))
  {
    if op.DropDomain? {
      ForgettingDomain(l, op.domain, provider);
      AddNothing(DomainExcess(l, provider));
    } else if op.DropAttempt? {
      ForgottenCharge(l, op.a, provider);
      AddNothing(More(DomainExcess(l, provider), DroppedCharge(l, op, provider)));
    } else {
      UndroppedDomains(l, op, provider);
      AddNothing(DomainExcess(l, provider));
    }
  }

  lemma AddNothing(e: Excess)
    ensures More(e, Excess(0, 0)) == e && Less(e, Excess(0, 0)) == e
  {
  }

  lemma Rebalance(a: Excess, b: Excess, c: Excess, d: Excess)
    ensures Less(More(Less(a, b), c), d) == Less(More(a, c), More(b, d))
  {
  }

  lemma StepCommands(l: Ledger, op: Op, provider: Id)
    requires AttemptsOk(l) && Enabled(l, op)
    ensures CommandSurplus(Step(l, op), provider)
         == Surplus(CommandSurplus(l, provider).cost + DroppedSettlement(l, op, provider).cost,
                    CommandSurplus(l, provider).time + DroppedSettlement(l, op, provider).time)
  {
    match op
    case Open(a, _) => LifecycleUncharged(l, op); UnchargedCommands(l, Step(l, op), a, provider);
    case Finish(a, _, _) => LifecycleUncharged(l, op); UnchargedCommands(l, Step(l, op), a, provider);
    case Project(ids, domains, summarised) => ProjectAllKeeps(l, ids, domains, summarised, provider);
    case DropDomain(domain) => ForgettingDomainCommands(l, domain, provider);
    case DropAttempt(a) => ForgottenSettlement(l, a, provider);
  }

  lemma StepKeeps(l: Ledger, op: Op)
    requires AttemptsOk(l) && Enabled(l, op)
    ensures AttemptsOk(Step(l, op))
  {
    match op
    case Finish(a, usage, _) =>
      ChargeableBill(usage);
      assert AttemptOk(l.attempts[a]);
    case Project(ids, domains, summarised) => ProjectAllKeeps(l, ids, domains, summarised, 0);
    case DropDomain(domain) => ForgottenIsOk(l, domain);
    case _ =>
  }

  lemma ForgottenIsOk(l: Ledger, domain: Id)
    requires AttemptsOk(l)
    ensures AttemptsOk(ForgetDomain(l, domain))
  {
    forall a | a in l.attempts ensures AttemptOk(ForgetDomain(l, domain).attempts[a]) {
      assert AttemptOk(l.attempts[a]);
    }
  }

  lemma StepFits(l: Ledger, op: Op)
    requires TablesFit(l) && Enabled(l, op)
    ensures TablesFit(Step(l, op))
  {
    match op
    case Project(ids, domains, summarised) => ProjectAllFits(l, ids, domains, summarised);
    case _ =>
  }

  lemma {:induction false} RunOk(states: seq<Ledger>, ops: seq<Op>, n: nat)
    requires IsRun(states, ops) && n < |states|
    ensures AttemptsOk(states[n]) && TablesFit(states[n])
  {
    if n > 0 {
      RunOk(states, ops, n - 1);
      assert Enabled(states[n - 1], ops[n - 1]);
      StepKeeps(states[n - 1], ops[n - 1]);
      StepFits(states[n - 1], ops[n - 1]);
    }
  }

  lemma {:induction false} DomainsInRun(states: seq<Ledger>, ops: seq<Op>, n: nat, provider: Id)
    requires IsRun(states, ops) && n < |states|
    ensures DomainExcess(states[n], provider)
         == Less(DroppedCharges(states, ops, n, provider), DroppedRows(states, ops, n, provider))
  {
    if n > 0 {
      DomainsInRun(states, ops, n - 1, provider);
      RunOk(states, ops, n - 1);
      assert Enabled(states[n - 1], ops[n - 1]);
      StepDomains(states[n - 1], ops[n - 1], provider);
      Rebalance(DroppedCharges(states, ops, n - 1, provider), DroppedRows(states, ops, n - 1, provider),
                DroppedCharge(states[n - 1], ops[n - 1], provider), DroppedRow(states[n - 1], ops[n - 1], provider));
    }
  }

  lemma {:induction false} CommandsInRun(states: seq<Ledger>, ops: seq<Op>, n: nat, provider: Id)
    requires IsRun(states, ops) && n < |states|
    ensures CommandSurplus(states[n], provider) == DroppedSettlements(states, ops, n, provider)
  {
    if n > 0 {
      CommandsInRun(states, ops, n - 1, provider);
      RunOk(states, ops, n - 1);
      assert Enabled(states[n - 1], ops[n - 1]);
      StepCommands(states[n - 1], ops[n - 1], provider);
    }
  }

  /** Exactly once: whatever was delivered, however often, and whatever retention deleted in between, the
      command rows of a provider hold the cost and browser time of its settled attempts, those still there
      and those deleted, each once; its domain costs and those of deleted domains are together the costs
      of its charged attempts, those still there and those deleted, each once; and it has at most 512
      command rows besides overhead. */
  lemma ExactlyOnce(states: seq<Ledger>, ops: seq<Op>, n: nat, provider: Id)
    requires IsRun(states, ops) && n < |states|
    ensures var l, dropped := states[n], DroppedSettlements(states, ops, n, provider);
      && Total(RowsOf(l, provider), CostColumn) == Sum(SettledCosts(l, provider)) + dropped.cost
      && Total(RowsOf(l, provider), BrowserColumn) == Sum(SettledTimes(l, provider)) + dropped.time
    ensures var l := states[n];
      var rows, charges := DroppedRows(states, ops, n, provider), DroppedCharges(states, ops, n, provider);
      && Sum(DomainCosts(l, provider)) + rows.cost == Sum(ChargedCosts(l, provider)) + charges.cost
      && Sum(DomainCounts(l, provider)) + rows.count == Sum(ChargedCounts(l, provider)) + charges.count
    ensures |RowsOf(states[n], provider).Keys - {OVERHEAD}| <= MAX_METHODS
  {
    DomainsInRun(states, ops, n, provider);
    CommandsInRun(states, ops, n, provider);
    FitsInRun(states, ops, n, provider);
  }

  lemma FitsInRun(states: seq<Ledger>, ops: seq<Op>, n: nat, provider: Id)
    requires IsRun(states, ops) && n < |states|
    ensures |RowsOf(states[n], provider).Keys - {OVERHEAD}| <= MAX_METHODS
  {
    RunOk(states, ops, n);
    if provider in states[n].commandCosts {
      RowsFitMeans(states[n].commandCosts[provider]);
    } else {
      assert RowsOf(states[n], provider).Keys - {OVERHEAD} == {};
    }
  }

  /** So while retention has deleted nothing, the totals are those of the attempts that are there. */
  lemma {:induction false} TotalsOfAttempts(states: seq<Ledger>, ops: seq<Op>, n: nat, provider: Id)
    requires IsRun(states, ops) && n < |states|
    requires forall i {:trigger ops[i]} :: 0 <= i < n ==> !Deletes(ops[i])
    ensures DomainTotals(states[n], provider) && CommandTotals(states[n], provider)
  {
    NothingDropped(states, ops, n, provider);
    DomainsInRun(states, ops, n, provider);
    CommandsInRun(states, ops, n, provider);
  }

  lemma {:induction false} NothingDropped(states: seq<Ledger>, ops: seq<Op>, n: nat, provider: Id)
    requires IsRun(states, ops) && n < |states|
    requires forall i {:trigger ops[i]} :: 0 <= i < n ==> !Deletes(ops[i])
    ensures DroppedCharges(states, ops, n, provider) == Excess(0, 0)
    ensures DroppedRows(states, ops, n, provider) == Excess(0, 0)
    ensures DroppedSettlements(states, ops, n, provider) == Surplus(0, 0)
  {
    if n > 0 {
      NothingDropped(states, ops, n - 1, provider);
      assert !Deletes(ops[n - 1]);
    }
  }

  // ---- From the lifecycle to the ledger -----------------------------------------------------------------

  /** Whatever path an attempt took to its end, a ledger may take its usage, and its rows will hold
      exactly its cost and its browser time. */
  lemma EveryEndIsConserved(states: seq<Admission.Db>, ops: seq<Admission.Op>, n: nat, a: Id,
                            methods: Summary, retained: map<string, string>)
    requires AdmissionRuns.IsRun(states, ops) && n < |states| && a in states[n].attempts
    requires Admission.TerminalAttempt(states[n].attempts[a].state)
    requires LatenciesOk(methods) && AllRetained(methods, retained)
    ensures var usage := states[n].attempts[a].usage;
      var rows := Settled(BillOf(usage), methods, retained);
      && Chargeable(usage)
      && Total(rows, CostColumn) == OrZero(usage.modeledCost)
      && Total(rows, BrowserColumn) == OrZero(usage.browserConnectedMs)
  {
    var usage := states[n].attempts[a].usage;
    AdmissionRuns.FinishedIsChargeable(states, ops, n, a);
    AdmissionRates.RatesInRun(states, ops, n);
    assert AdmissionRates.RateOk(usage);
    ChargeableBill(usage);
    Conserved(BillOf(usage), methods, retained, CostColumn);
    Conserved(BillOf(usage), methods, retained, BrowserColumn);
  }

  // ---- What an attempt owes is fixed --------------------------------------------------------------------

  /** Once finished, an attempt's usage is final, and flags are never taken back. */
  predicate RowKept(before: Attempt, after: Attempt) {
    && after.provider == before.provider
    && (before.finished ==> after.finished && after.usage == before.usage)
    && (before.costProjected ==> after.costProjected)
    && (before.commandCostProjected ==> after.commandCostProjected)
  }

  lemma {:induction false} ProjectAllKeepsRows(l: Ledger, ids: seq<Id>, domains: map<Id, Id>,
                                               summarised: set<Id>, a: Id)
    requires a in l.attempts
    ensures var r := ProjectAll(l, ids, domains, summarised);
      && RowKept(l.attempts[a], r.attempts[a]) && r.attempts[a].usage == l.attempts[a].usage
      && (l.attempts[a].domain.Some? ==> r.attempts[a].domain.Some?)
  {
    if ids != [] {
      ProjectAllKeepsRows(l, ids[..|ids| - 1], domains, summarised, a);
      var before, last := ProjectAll(l, ids[..|ids| - 1], domains, summarised), ids[|ids| - 1];
      if last in before.attempts {
        ProjectedIsQuiet(before, last, Given(domains, last), last in summarised);
      }
    }
  }

  /** What was settled once stays settled for the same amount, for as long as the attempt is there. */
  lemma {:induction false} SettledForGood(states: seq<Ledger>, ops: seq<Op>, m: nat, n: nat, a: Id)
    requires IsRun(states, ops) && m <= n < |states|
    requires forall i :: m <= i <= n ==> a in states[i].attempts
    ensures RowKept(states[m].attempts[a], states[n].attempts[a])
  {
    if m < n {
      SettledForGood(states, ops, m, n - 1, a);
      KeptInRun(states, ops, n - 1, a);
    }
  }

  lemma KeptInRun(states: seq<Ledger>, ops: seq<Op>, n: nat, a: Id)
    requires IsRun(states, ops) && n < |ops| && a in states[n].attempts && a in states[n + 1].attempts
    ensures RowKept(states[n].attempts[a], states[n + 1].attempts[a])
  {
    var l, op := states[n], ops[n];
    assert Enabled(l, op);
    if op.Project? {
      ProjectAllKeepsRows(l, op.ids, op.domains, op.summarised, a);
    }
  }

  /** The attempt has what it reported when it finished: its usage, and its summary until it is settled. */
  predicate Reported(row: Attempt, usage: Usage, summary: Option<Summary>) {
    row.finished && row.usage == usage && (!row.commandCostProjected ==> row.summary == summary)
  }

  lemma ProjectKeepsReport(l: Ledger, a: Id, domain: Option<Id>, summarised: bool, b: Id, usage: Usage,
                           summary: Option<Summary>)
    requires a in l.attempts && b in l.attempts && Reported(l.attempts[b], usage, summary)
    ensures Reported(ProjectAttempt(l, a, domain, summarised).attempts[b], usage, summary)
  {
    ProjectedIsQuiet(l, a, domain, summarised);
  }

  lemma {:induction false} ProjectAllKeepsReport(l: Ledger, ids: seq<Id>, domains: map<Id, Id>, summarised: set<Id>,
                                                 b: Id, usage: Usage, summary: Option<Summary>)
    requires b in l.attempts && Reported(l.attempts[b], usage, summary)
    ensures Reported(ProjectAll(l, ids, domains, summarised).attempts[b], usage, summary)
  {
    if ids != [] {
      var before, a := ProjectAll(l, ids[..|ids| - 1], domains, summarised), ids[|ids| - 1];
      ProjectAllKeepsReport(l, ids[..|ids| - 1], domains, summarised, b, usage, summary);
      if a in before.attempts {
        ProjectKeepsReport(before, a, Given(domains, a), a in summarised, b, usage, summary);
      }
    }
  }

  lemma StepKeepsReport(l: Ledger, op: Op, a: Id, usage: Usage, summary: Option<Summary>)
    requires Enabled(l, op) && a in l.attempts && Reported(l.attempts[a], usage, summary)
    requires a in Step(l, op).attempts
    ensures Reported(Step(l, op).attempts[a], usage, summary)
  {
    if op.Project? {
      ProjectAllKeepsReport(l, op.ids, op.domains, op.summarised, a, usage, summary);
    }
  }

  /** What an attempt reported when it finished stands in every run, as long as the attempt is there: its usage
      for good, and its command summary until it has been settled. */
  lemma {:induction false} ReportStands(states: seq<Ledger>, ops: seq<Op>, m: nat, n: nat)
    requires IsRun(states, ops) && m < n < |states| && ops[m].Finish?
    requires forall i :: m < i <= n ==> ops[m].a in states[i].attempts
    ensures Reported(states[n].attempts[ops[m].a], ops[m].usage, ops[m].summary)
  {
    assert Enabled(states[n - 1], ops[n - 1]);
    if m + 1 < n {
      ReportStands(states, ops, m, n - 1);
      StepKeepsReport(states[n - 1], ops[n - 1], ops[m].a, ops[m].usage, ops[m].summary);
    }
  }
}
