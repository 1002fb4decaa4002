/** The recorder: raw events first, then the projections, each in a transaction of its own. */
module EventRecorder {
  import opened Common
  import opened Usage
  import opened Costs
  import opened CostProjection

  datatype Kind = NavigationResponse | CommandSummary | AttemptClosed | AttemptFailed | OtherKind

  /** An event as it is delivered; domain is the row of its URL's host, if it has one. */
  datatype Event = Event(id: Id, kind: Kind, attempt: Option<Id>, hasUrl: bool, domain: Option<Id>)

  const BATCH := 25

  predicate Summarising(kind: Kind) {
    kind.CommandSummary? || kind.AttemptClosed? || kind.AttemptFailed?
  }

  predicate NeedsProjection(event: Event) {
    event.hasUrl || Summarising(event.kind)
  }

  /** The host that the last navigation response of each attempt came from. */
  function AttemptDomains(events: seq<Event>): map<Id, Id> {
    if events == [] then map[]
    else
      var rest, e := AttemptDomains(events[..|events| - 1]), events[|events| - 1];
      if e.hasUrl && e.domain.Some? && e.kind.NavigationResponse? && e.attempt.Some?
      then rest[e.attempt.value := e.domain.value] else rest
  }

  function SummaryIds(events: seq<Event>): set<Id> {
    set e | e in events && e.attempt.Some? && Summarising(e.kind) :: e.attempt.value
  }

  function EventIds(events: seq<Event>): set<Id> {
    set e | e in events :: e.id
  }

  // ---- Ids in order -------------------------------------------------------------------------------------

  predicate IsLeast(least: Id, ids: set<Id>) {
    least in ids && forall id :: id in ids ==> least <= id
  }

  lemma {:induction false} LeastExists(ids: set<Id>)
    requires ids != {}
    ensures exists least :: IsLeast(least, ids)
  {
    var some :| some in ids;
    if ids == {some} {
      assert IsLeast(some, ids);
    } else {
      LeastExists(ids - {some});
      var other :| IsLeast(other, ids - {some});
      var least := if some < other then some else other;
      forall id | id in ids ensures least <= id {
        assert id == some || id in ids - {some};
      }
      assert IsLeast(least, ids);
    }
  }

  function Sorted(ids: set<Id>): seq<Id>
    decreases |ids|
  {
    if ids == {} then []
    else
      LeastExists(ids);
      var least :| IsLeast(least, ids);
      [least] + Sorted(ids - {least})
  }

  lemma {:induction false} SortedIsPermutation(ids: set<Id>)
    ensures forall id :: id in Sorted(ids) <==> id in ids
    ensures forall i, j :: 0 <= i < j < |Sorted(ids)| ==> Sorted(ids)[i] < Sorted(ids)[j]
    decreases |ids|
  {
    if ids != {} {
      LeastExists(ids);
      var least := Sorted(ids)[0];
      SortedIsPermutation(ids - {least});
      var rest := Sorted(ids - {least});
      assert Sorted(ids) == [least] + rest;
      forall j | 0 <= j < |rest| ensures least < rest[j] {
        assert rest[j] in rest;
      }
    }
  }

  // ---- The whole projection of a delivery ---------------------------------------------------------------

  function Delivered(events: seq<Event>): seq<Id> {
    Sorted(AttemptDomains(events).Keys + SummaryIds(events))
  }

  /** The events that were not skipped lead to the same projections as all of them. */
  lemma {:induction false} OnlyNeeded(events: seq<Event>, needed: seq<Event>)
    requires needed == Needed(events)
    ensures AttemptDomains(needed) == AttemptDomains(events)
    ensures SummaryIds(needed) == SummaryIds(events)
  {
    NeededIds(events);
    if events != [] {
      var rest, last := events[..|events| - 1], events[|events| - 1];
      OnlyNeeded(rest, Needed(rest));
      if NeedsProjection(last) {
        assert needed[..|needed| - 1] == Needed(rest);
      }
    }
  }

  lemma {:induction false} NeededIds(events: seq<Event>)
    ensures forall e :: e in Needed(events) <==> e in events && NeedsProjection(e)
  {
    if events != [] {
      var rest, last := events[..|events| - 1], events[|events| - 1];
      assert events == rest + [last];
      NeededIds(rest);
    }
  }

  function Needed(events: seq<Event>): seq<Event> {
    if events == [] then []
    else
      var rest, last := Needed(events[..|events| - 1]), events[|events| - 1];
      if NeedsProjection(last) then rest + [last] else rest
  }

  /** A delivery repairs what an earlier one left undone: every finished attempt it reports on is
      settled, and every attempt it names a host for is charged if its cost is known, whether or not
      the events had been recorded before. */
  lemma DeliverySettles(l: Ledger, events: seq<Event>, a: Id)
    requires a in l.attempts
    ensures var r := ProjectAll(l, Delivered(events), AttemptDomains(events), SummaryIds(events));
      && (a in SummaryIds(events) && l.attempts[a].finished ==> r.attempts[a].commandCostProjected)
      && (a in AttemptDomains(events) && l.attempts[a].usage.modeledCost.Some? ==> r.attempts[a].costProjected)
  {
    var domains, summarised := AttemptDomains(events), SummaryIds(events);
    SortedIsPermutation(domains.Keys + summarised);
    ProjectionKeeps(l, Delivered(events), domains, summarised, a);
    if a in Delivered(events) {
      AllQuiet(l, Delivered(events), domains, summarised, a);
    }
  }

  lemma {:induction false} ProjectionKeeps(l: Ledger, ids: seq<Id>, domains: map<Id, Id>, summarised: set<Id>, a: Id)
    requires a in l.attempts
    ensures var r := ProjectAll(l, ids, domains, summarised);
      r.attempts[a].finished == l.attempts[a].finished && r.attempts[a].usage == l.attempts[a].usage
  {
    if ids != [] {
      ProjectionKeeps(l, ids[..|ids| - 1], domains, summarised, a);
      var before, last := ProjectAll(l, ids[..|ids| - 1], domains, summarised), ids[|ids| - 1];
      if last in before.attempts {
        ProjectedIsQuiet(before, last, Given(domains, last), last in summarised);
      }
    }
  }

  // ---- The recorder -------------------------------------------------------------------------------------

  class Recorder {
    var events: set<Id>
    var attempts: map<Id, Attempt>
    var domainCosts: map<(Id, Id), DomainCost>
    var commandCosts: map<Id, Rows>

    constructor ()
      ensures View() == Ledger(map[], map[], map[]) && events == {}
    {
      events, attempts, domainCosts, commandCosts := {}, map[], map[], map[];
    }

    function View(): Ledger
      reads this
    {
      Ledger(attempts, domainCosts, commandCosts)
    }

    method ProjectAttemptCost(a: Id)
      requires a in attempts
      modifies this`attempts, this`domainCosts
      ensures View() == ProjectCost(old(View()), a)
    {
      var row := attempts[a];
      if row.domain.None? || row.usage.modeledCost.None? || row.costProjected {
        return;
      }
      var key := (row.domain.value, row.provider);
      if key in domainCosts {
        var so := domainCosts[key];
        domainCosts := domainCosts[key := DomainCost(so.observed + 1, so.cost + row.usage.modeledCost.value)];
      } else {
        domainCosts := domainCosts[key := DomainCost(1, row.usage.modeledCost.value)];
      }
      attempts := attempts[a := row.(costProjected := true)];
    }

    method ProjectCommandSummary(a: Id)
      requires a in attempts
      modifies this`attempts, this`domainCosts, this`commandCosts
      ensures View() == ProjectSummary(old(View()), a)
    {
      if !attempts[a].finished || attempts[a].commandCostProjected {
        return;
      }
      ProjectAttemptCost(a);
      SettleCommands(a);
    }

    method SettleCommands(a: Id)
      requires a in attempts
      modifies this`attempts, this`commandCosts
      ensures View() == Settle(old(View()), a)
    {
      var row := attempts[a];
      var methods: Summary := if row.summary.Some? then row.summary.value else [];
      var table: Rows := if row.provider in commandCosts then commandCosts[row.provider] else map[];
      var retained := RetainedCommandMethods(table.Keys - {OVERHEAD}, Names(methods));
      assert retained == RetainedFor(View(), row.provider, methods);
      var rows := Attribute(BillOf(row.usage), methods, retained);
      commandCosts := commandCosts[row.provider := Merged(table, rows)];
      attempts := attempts[a := row.(commandCostProjected := true, summary := None)];
    }

    /** One transaction over at most 25 attempts. */
    method ProjectBatch(ids: seq<Id>, domains: map<Id, Id>, summarised: set<Id>)
      modifies this`attempts, this`domainCosts, this`commandCosts
      ensures View() == ProjectAll(old(View()), ids, domains, summarised)
    {
      for i := 0 to |ids|
        invariant View() == ProjectAll(old(View()), ids[..i], domains, summarised)
      {
        var a := ids[i];
        assert ids[..i + 1][..i] == ids[..i];
        if a !in attempts {
          continue;
        }
        if a in domains {
          attempts := attempts[a := attempts[a].(domain := Some(domains[a]))];
        }
        ProjectAttemptCost(a);
        if a in summarised {
          ProjectCommandSummary(a);
        }
      }
      assert ids[..|ids|] == ids;
    }

    /** All attempts, 25 to a transaction; completed says how many transactions were not cut off. */
    method ProjectAttempts(domains: map<Id, Id>, summarised: set<Id>, completed: nat) returns (reached: nat)
      modifies this`attempts, this`domainCosts, this`commandCosts
      ensures var ids := Sorted(domains.Keys + summarised);
        && reached == Min(|ids|, completed * BATCH)
        && View() == ProjectAll(old(View()), ids[..reached], domains, summarised)
    {
      var ids := Sorted(domains.Keys + summarised);
      var done := 0;
      reached := 0;
      while reached < |ids| && done < completed
        invariant done <= completed && reached == Min(|ids|, done * BATCH)
        invariant View() == ProjectAll(old(View()), ids[..reached], domains, summarised)
      {
        var end := Min(|ids|, reached + BATCH);
        ProjectBatch(ids[reached..end], domains, summarised);
        ProjectAllSplit(old(View()), ids[..reached], ids[reached..end], domains, summarised);
        assert ids[..end] == ids[..reached] + ids[reached..end];
        reached, done := end, done + 1;
      }
    }

    /** The first transaction: an event that is already there is not inserted again, but it is
        projected again. */
    method InsertEvents(delivered: seq<Event>) returns (recorded: nat, needed: seq<Event>)
      modifies this`events
      ensures events == old(events) + EventIds(delivered)
      ensures recorded == |events| - |old(events)|
      ensures needed == Needed(delivered)
    {
      recorded := InsertRows(delivered);
      needed := [];
      for i := 0 to |delivered|
        invariant needed == Needed(delivered[..i])
      {
        assert delivered[..i + 1][..i] == delivered[..i];
        if NeedsProjection(delivered[i]) {
          needed := needed + [delivered[i]];
        }
      }
      assert delivered[..|delivered|] == delivered;
    }

    method InsertRows(delivered: seq<Event>) returns (recorded: nat)
      modifies this`events
      ensures events == old(events) + EventIds(delivered)
      ensures recorded == |events| - |old(events)|
    {
      recorded := 0;
      for i := 0 to |delivered|
        invariant events == old(events) + EventIds(delivered[..i])
        invariant recorded == |events| - |old(events)|
      {
        var id := delivered[i].id;
        OneMoreId(delivered, i);
        if id !in events {
          events := events + {id};
          recorded := recorded + 1;
        }
      }
      assert delivered[..|delivered|] == delivered;
    }

    /** A delivery that is interrupted after some of its transactions. */
    method Record(delivered: seq<Event>, completed: nat) returns (recorded: nat, reached: nat)
      modifies this
      ensures events == old(events) + EventIds(delivered)
      ensures recorded == |events| - |old(events)|
      ensures reached == Min(|Delivered(delivered)|, completed * BATCH)
      ensures View() == ProjectAll(old(View()), Delivered(delivered)[..reached],
                                   AttemptDomains(delivered), SummaryIds(delivered))
    {
      var needed;
      recorded, needed := InsertEvents(delivered);
      OnlyNeeded(delivered, needed);
      reached := ProjectAttempts(AttemptDomains(needed), SummaryIds(needed), completed);
    }
  }

  lemma OneMoreId(events: seq<Event>, i: nat)
    requires i < |events|
    ensures EventIds(events[..i + 1]) == EventIds(events[..i]) + {events[i].id}
  {
    assert events[..i + 1] == events[..i] + [events[i]];
  }

  /** At-least-once delivery: one that is cut short anywhere and then made again in full records no
      event twice and leaves the ledger as one undisturbed delivery does. */
  method DeliverAgain(recorder: Recorder, delivered: seq<Event>, completed: nat) returns (recorded: nat, again: nat)
    modifies recorder
    ensures recorded == |recorder.events| - |old(recorder.events)| && again == 0
    ensures recorder.View() == ProjectAll(old(recorder.View()), Delivered(delivered),
                                          AttemptDomains(delivered), SummaryIds(delivered))
  {
    ghost var before := recorder.View();
    var reached, all;
    recorded, reached := recorder.Record(delivered, completed);
    assert recorder.events + EventIds(delivered) == recorder.events;
    again, all := recorder.Record(delivered, |Delivered(delivered)|);
    assert Delivered(delivered)[..all] == Delivered(delivered);
    RedeliveryChangesNothing(before, Delivered(delivered), AttemptDomains(delivered), SummaryIds(delivered), reached);
  }
}
