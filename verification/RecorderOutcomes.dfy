/** What a delivery of events comes to, told by the events themselves: which of them name an attempt's
    domain, which report that it has ended, and what is then written under which name. */
module RecorderOutcomes {
  import opened Common
  import opened Usage
  import opened Costs
  import opened CostProjection
  import opened EventRecorder

  // ---- Domains -----------------------------------------------------------------------------------

  /** The event is a navigation response of the attempt, with a URL whose host has a row. */
  predicate Navigates(e: Event, a: Id) {
    e.kind == NavigationResponse && e.hasUrl && e.domain.Some? && e.attempt == Some(a)
  }

  predicate NavigatedIn(events: seq<Event>, a: Id) {
    exists i :: 0 <= i < |events| && Navigates(events[i], a)
  }

  /** The i-th event is the attempt's last navigation response. */
  predicate LastNavigation(events: seq<Event>, a: Id, i: nat) {
    && i < |events| && Navigates(events[i], a)
    && forall j :: i < j < |events| ==> !Navigates(events[j], a)
  }

  lemma {:induction false} NavigatedHasDomain(events: seq<Event>, a: Id)
    ensures a in AttemptDomains(events) <==> NavigatedIn(events, a)
  {
    if events != [] {
      var rest, last := events[..|events| - 1], events[|events| - 1];
      NavigatedHasDomain(rest, a);
      if i :| 0 <= i < |rest| && Navigates(rest[i], a) {
        assert Navigates(events[i], a);
      }
      if Navigates(last, a) {
        assert Navigates(events[|events| - 1], a);
      }
    }
  }

  /** The last navigation response of an attempt names its domain. */
  lemma {:induction false} LastNavigationWins(events: seq<Event>, a: Id, i: nat)
    requires LastNavigation(events, a, i)
    ensures a in AttemptDomains(events) && AttemptDomains(events)[a] == events[i].domain.value
  {
    var rest := events[..|events| - 1];
    if i < |rest| {
      assert !Navigates(events[|events| - 1], a);
      LastNavigationWins(rest, a, i);
    }
  }

  lemma {:induction false} DomainOnlyIfGiven(l: Ledger, ids: seq<Id>, domains: map<Id, Id>, summarised: set<Id>, a: Id)
    requires a in l.attempts && a !in domains
    ensures ProjectAll(l, ids, domains, summarised).attempts[a].domain == l.attempts[a].domain
  {
    if ids != [] {
      DomainOnlyIfGiven(l, ids[..|ids| - 1], domains, summarised, a);
      var before, last := ProjectAll(l, ids[..|ids| - 1], domains, summarised), ids[|ids| - 1];
      if last in before.attempts {
        ProjectedIsQuiet(before, last, Given(domains, last), last in summarised);
      }
    }
  }

  /** After a delivery an attempt has the domain of its last navigation response in it; one without any
      keeps the domain it had. */
  lemma DeliveryNames(l: Ledger, events: seq<Event>, a: Id)
    requires a in l.attempts
    ensures var r := ProjectAll(l, Delivered(events), AttemptDomains(events), SummaryIds(events));
            && (forall i: nat :: LastNavigation(events, a, i) ==> r.attempts[a].domain == events[i].domain)
            && (!NavigatedIn(events, a) ==> r.attempts[a].domain == l.attempts[a].domain)
  {
    var domains, summarised := AttemptDomains(events), SummaryIds(events);
    NavigatedHasDomain(events, a);
    forall i: nat | LastNavigation(events, a, i) ensures a in domains && domains[a] == events[i].domain.value {
      LastNavigationWins(events, a, i);
    }
    if a in domains {
      SortedIsPermutation(domains.Keys + summarised);
      AllQuiet(l, Delivered(events), domains, summarised, a);
    } else {
      DomainOnlyIfGiven(l, Delivered(events), domains, summarised, a);
    }
  }

  // ---- Summaries ---------------------------------------------------------------------------------

  /** The event reports that the attempt ended, or brings its command summary. */
  predicate Reports(e: Event, a: Id) {
    (e.kind == CommandSummary || e.kind == AttemptClosed || e.kind == AttemptFailed) && e.attempt == Some(a)
  }

  predicate ReportedIn(events: seq<Event>, a: Id) {
    exists e :: e in events && Reports(e, a)
  }

  /** A delivery charges and settles what its own events call for: an attempt it navigates is charged as soon
      as its cost is known, one it reports on is settled as soon as it has finished. */
  lemma DeliveryCharges(l: Ledger, events: seq<Event>, a: Id)
    requires a in l.attempts
    ensures var r := ProjectAll(l, Delivered(events), AttemptDomains(events), SummaryIds(events));
            && (ReportedIn(events, a) && l.attempts[a].finished ==>
                  r.attempts[a].commandCostProjected
                  && (!l.attempts[a].commandCostProjected ==> r.attempts[a].summary.None?))
            && (NavigatedIn(events, a) && l.attempts[a].usage.modeledCost.Some? ==> r.attempts[a].costProjected)
            && (!ReportedIn(events, a) ==>
                  r.attempts[a].commandCostProjected == l.attempts[a].commandCostProjected
                  && r.attempts[a].summary == l.attempts[a].summary)
            && (!ReportedIn(events, a) && !NavigatedIn(events, a) ==> r.attempts[a] == l.attempts[a])
  {
    DeliverySettles(l, events, a);
    NavigatedHasDomain(events, a);
    var domains, summarised := AttemptDomains(events), SummaryIds(events);
    SortedIsPermutation(domains.Keys + summarised);
    assert a in summarised <==> ReportedIn(events, a);
    if a !in summarised {
      SettledOnlyIfReported(l, Delivered(events), domains, summarised, a);
    }
    if !l.attempts[a].commandCostProjected {
      SettlingDropsSummary(l, Delivered(events), domains, summarised, a);
    }
    if a !in Delivered(events) {
      UnnamedStands(l, Delivered(events), domains, summarised, a);
    }
  }

  lemma {:induction false} SettledOnlyIfReported(l: Ledger, ids: seq<Id>, domains: map<Id, Id>, summarised: set<Id>,
                                                 a: Id)
    requires a in l.attempts && a !in summarised
    ensures var r := ProjectAll(l, ids, domains, summarised).attempts[a];
            r.commandCostProjected == l.attempts[a].commandCostProjected && r.summary == l.attempts[a].summary
  {
    if ids != [] {
      SettledOnlyIfReported(l, ids[..|ids| - 1], domains, summarised, a);
      var before, last := ProjectAll(l, ids[..|ids| - 1], domains, summarised), ids[|ids| - 1];
      if last in before.attempts {
        ProjectedIsQuiet(before, last, Given(domains, last), last in summarised);
      }
    }
  }

  /** What is settled drops its summary. */
  lemma {:induction false} SettlingDropsSummary(l: Ledger, ids: seq<Id>, domains: map<Id, Id>, summarised: set<Id>,
                                                a: Id)
    requires a in l.attempts && !l.attempts[a].commandCostProjected
    ensures var r := ProjectAll(l, ids, domains, summarised).attempts[a];
            r.commandCostProjected ==> r.summary.None?
  {
    if ids != [] {
      SettlingDropsSummary(l, ids[..|ids| - 1], domains, summarised, a);
      var before, last := ProjectAll(l, ids[..|ids| - 1], domains, summarised), ids[|ids| - 1];
      if last in before.attempts {
        ProjectedIsQuiet(before, last, Given(domains, last), last in summarised);
      }
    }
  }

  lemma {:induction false} UnnamedStands(l: Ledger, ids: seq<Id>, domains: map<Id, Id>, summarised: set<Id>, a: Id)
    requires a in l.attempts && a !in ids
    ensures ProjectAll(l, ids, domains, summarised).attempts[a] == l.attempts[a]
  {
    if ids != [] {
      var rest, last := ids[..|ids| - 1], ids[|ids| - 1];
      assert ids == rest + [last];
      UnnamedStands(l, rest, domains, summarised, a);
      var before := ProjectAll(l, rest, domains, summarised);
      if last in before.attempts {
        ProjectedIsQuiet(before, last, Given(domains, last), last in summarised);
      }
    }
  }

  /** An event is passed on to the projections if and only if it has a URL or reports on an attempt. */
  lemma PassedOn(events: seq<Event>, e: Event)
    ensures e in Needed(events) <==>
      e in events && (e.hasUrl || e.kind == CommandSummary || e.kind == AttemptClosed || e.kind == AttemptFailed)
  {
    NeededIds(events);
  }

  // ---- Names and rows ----------------------------------------------------------------------------

  /** The name stands for its own row, unless it is the name of the overhead row. */
  predicate OwnRow(retained: map<string, string>, name: string) {
    name in retained && retained[name] == if name == "__session_overhead__" then "__other__" else name
  }

  lemma OwnRowStands(slots: Slots, name: string, next: string)
    requires name in slots.existing && (next == name || OwnRow(slots.retained, name))
    ensures name in RetainOne(slots, next).existing && OwnRow(RetainOne(slots, next).retained, name)
  {
  }

  lemma ExistingStands(existing: set<string>, names: seq<string>, name: string)
    requires name in existing
    ensures name in Retain(existing, names).existing
  {
    RetainedFit(existing, names);
  }

  /** A method that has a row already goes on in that row, whatever else the attempt ran; only the name of the
      overhead row is never a method's. */
  lemma {:induction false} ExistingKeepsItsRow(existing: set<string>, names: seq<string>, name: string)
    requires name in existing && name in names
    ensures OwnRow(Retain(existing, names).retained, name)
  {
    var rest, last := names[..|names| - 1], names[|names| - 1];
    assert names == rest + [last];
    ExistingStands(existing, rest, name);
    if last != name {
      ExistingKeepsItsRow(existing, rest, name);
    }
    OwnRowStands(Retain(existing, rest), name, last);
  }

  /** What is attributed is the attempt's own usage: its browser time and its cost, in the proportion its browser
      time has to the time it is charged for; what it lacks counts as nothing. */
  lemma BillIsTheUsage(usage: Usage, total: int, figures: Figures)
    requires usage.browserConnectedMs.Some? && usage.chargeableMs.Some? && usage.modeledCost.Some?
    requires total > 0 && usage.chargeableMs.value > 0
    ensures var share, attributable := Share(BillOf(usage), total, figures), Min(usage.browserConnectedMs.value, total);
            && share.figures == figures
            && share.browser == attributable * figures.latency / total
            && share.cost == usage.modeledCost.value * share.browser / usage.chargeableMs.value
    ensures Share(BillOf(usage.(modeledCost := None)), total, figures).cost == 0
    ensures figures.latency >= 0 ==> Share(BillOf(usage.(browserConnectedMs := None)), total, figures).browser <= 0
  {
  }

  /** The upsert adds up, name by name and column by column, and touches no other name. */
  lemma UpsertAddsByName(table: Rows, rows: Rows, name: string, c: Column)
    ensures name in Merged(table, rows) <==> name in table || name in rows
    ensures name in Merged(table, rows) ==>
      At(Merged(table, rows)[name], c)
      == (if name in table then At(table[name], c) else 0) + (if name in rows then At(rows[name], c) else 0)
  {
  }
}
