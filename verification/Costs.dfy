/** How the cost of one attempt is spread over the commands it ran, to the last unit. */
module Costs {
  import opened Common
  import opened Usage

  const OTHER := "__other__"
  const OVERHEAD := "__session_overhead__"
  const MAX_METHODS := 512

  /** What an observer counted for one command method. */
  datatype Figures = Figures(count: int, failed: int, interrupted: int, duration: int, latency: int, queue: int)

  datatype Row = Row(figures: Figures, browser: int, cost: int)

  datatype Column =
    | CountColumn | FailedColumn | InterruptedColumn | DurationColumn | LatencyColumn | QueueColumn
    | BrowserColumn | CostColumn

  function At(row: Row, c: Column): int {
    match c
    case CountColumn => row.figures.count
    case FailedColumn => row.figures.failed
    case InterruptedColumn => row.figures.interrupted
    case DurationColumn => row.figures.duration
    case LatencyColumn => row.figures.latency
    case QueueColumn => row.figures.queue
    case BrowserColumn => row.browser
    case CostColumn => row.cost
  }

  /** The cost rows of one provider, by method. */
  type Rows = map<string, Row>

  /** One item of an attempt's command summary; Malformed stands for a value of the wrong shape. */
  datatype Entry = Counted(name: string, figures: Figures) | Malformed(name: string)
  type Summary = seq<Entry>

  /** What is to be attributed; an absent column counts as zero. */
  datatype Bill = Bill(browser: int, chargeable: int, cost: int)

  function OrZero(value: Option<int>): int {
    if value.Some? then value.value else 0
  }

  function BillOf(usage: Usage): Bill {
    Bill(OrZero(usage.browserConnectedMs), OrZero(usage.chargeableMs), OrZero(usage.modeledCost))
  }

  // ---- Adding up ----------------------------------------------------------------------------------------

  ghost function ColumnOf<K>(rows: map<K, Row>, c: Column): map<K, int> {
    map key | key in rows :: At(rows[key], c)
  }

  /** What a table of rows holds in one column. */
  ghost function Total<K>(rows: map<K, Row>, c: Column): int {
    Sum(ColumnOf(rows, c))
  }

  function Together(a: Figures, b: Figures): Figures {
    Figures(a.count + b.count, a.failed + b.failed, a.interrupted + b.interrupted,
            a.duration + b.duration, a.latency + b.latency, a.queue + b.queue)
  }

  function Plus(a: Row, b: Row): Row {
    Row(Together(a.figures, b.figures), a.browser + b.browser, a.cost + b.cost)
  }

  function Accumulated(rows: Rows, name: string, row: Row): Rows {
    rows[name := if name in rows then Plus(rows[name], row) else row]
  }

  lemma TotalAccumulated(rows: Rows, name: string, row: Row, c: Column)
    ensures Total(Accumulated(rows, name, row), c) == Total(rows, c) + At(row, c)
  {
    SumGrows(ColumnOf(rows, c), ColumnOf(Accumulated(rows, name, row), c), name, At(row, c));
  }

  /** The upsert: a new row is inserted, an existing one grows. */
  function Merged(table: Rows, rows: Rows): Rows {
    map name | name in table.Keys + rows.Keys ::
      if name !in rows then table[name] else if name in table then Plus(table[name], rows[name]) else rows[name]
  }

  lemma {:induction false} TotalMerged(table: Rows, rows: Rows, c: Column)
    ensures Total(Merged(table, rows), c) == Total(table, c) + Total(rows, c)
  {
    if rows == map[] {
      assert Merged(table, rows) == table;
    } else {
      var name :| name in rows;
      var rest := rows - {name};
      TotalMerged(table, rest, c);
      MergedStep(table, rows, name);
      TotalAccumulated(Merged(table, rest), name, rows[name], c);
      TotalAccumulated(rest, name, rows[name], c);
    }
  }

  lemma MergedStep(table: Rows, rows: Rows, name: string)
    requires name in rows
    ensures Merged(table, rows) == Accumulated(Merged(table, rows - {name}), name, rows[name])
    ensures rows == Accumulated(rows - {name}, name, rows[name])
  {
  }

  // ---- Which methods keep a row of their own ------------------------------------------------------------

  datatype Slots = Slots(existing: set<string>, available: nat, retained: map<string, string>)

  function FirstSlots(existing: set<string>): Slots {
    Slots(existing, Max(0, MAX_METHODS - 1 - |existing - {OTHER}|), map[])
  }

  function RetainOne(slots: Slots, name: string): Slots {
    if name == OVERHEAD then slots.(retained := slots.retained[name := OTHER])
    else if name in slots.existing then slots.(retained := slots.retained[name := name])
    else if slots.available > 0 then
      Slots(slots.existing + {name}, slots.available - 1, slots.retained[name := name])
    else
      slots.(existing := slots.existing + {OTHER}, retained := slots.retained[name := OTHER])
  }

  function Retain(existing: set<string>, names: seq<string>): Slots {
    if names == [] then FirstSlots(existing)
    else RetainOne(Retain(existing, names[..|names| - 1]), names[|names| - 1])
  }

  /** What holds of every name that has been retained. */
  predicate Placed(slots: Slots, name: string) {
    && name in slots.retained
    && (slots.retained[name] == name || slots.retained[name] == OTHER)
    && (name == OVERHEAD ==> slots.retained[name] == OTHER)
    && (slots.retained[name] != OTHER ==> slots.retained[name] in slots.existing)
    && (slots.retained[name] != name && name != OVERHEAD ==> slots.available == 0)
  }

  lemma RetainOnePlaces(slots: Slots, name: string, other: string)
    requires slots.available >= 0 && (other == name || Placed(slots, other))
    ensures Placed(RetainOne(slots, name), other)
  {
  }

  /** Every method goes to its own row or to the shared one, and a method shares a row only because the
      exact ones are used up. */
  lemma {:induction false} RetainedNames(existing: set<string>, names: seq<string>)
    ensures var slots := Retain(existing, names);
      && slots.retained.Keys == (set name | name in names)
      && (forall name :: name in names ==> Placed(slots, name))
      && slots.available >= 0
  {
    if names != [] {
      var before, name := names[..|names| - 1], names[|names| - 1];
      RetainedNames(existing, before);
      assert names == before + [name];
      forall other | other in names ensures Placed(Retain(existing, names), other) {
        RetainOnePlaces(Retain(existing, before), name, other);
      }
    }
  }

  function Exact(slots: Slots): int {
    |slots.existing - {OTHER}| + slots.available
  }

  /** A name takes a slot for a row of its own; only the shared name takes one without needing it. */
  lemma RetainOneExact(slots: Slots, name: string)
    ensures var after := RetainOne(slots, name);
      && slots.existing <= after.existing
      && Exact(after) == Exact(slots)
           - (if name == OTHER && OTHER !in slots.existing && slots.available > 0 then 1 else 0)
  {
    if name != OVERHEAD && name !in slots.existing && slots.available > 0 && name != OTHER {
      OneMore(slots.existing, name);
    } else {
      SameExact(slots.existing, RetainOne(slots, name).existing);
    }
  }

  lemma OneMore(existing: set<string>, name: string)
    requires name !in existing && name != OTHER
    ensures |(existing + {name}) - {OTHER}| == |existing - {OTHER}| + 1
  {
    assert (existing + {name}) - {OTHER} == (existing - {OTHER}) + {name};
  }

  lemma SameExact(a: set<string>, b: set<string>)
    requires a == b || a + {OTHER} == b
    ensures |a - {OTHER}| == |b - {OTHER}|
  {
    assert a - {OTHER} == b - {OTHER};
  }

  /** The rows fit: at most 511 methods are exact however they arrive, unless the table already held
      more; and no slot is given up, except that the shared name itself may take one. */
  lemma {:induction false} RetainedFit(existing: set<string>, names: seq<string>)
    ensures var after, most := Retain(existing, names), Max(MAX_METHODS - 1, |existing - {OTHER}|);
      && existing <= after.existing
      && (Exact(after) == most || (Exact(after) == most - 1 && OTHER in names && OTHER in after.existing - existing))
  {
    if names != [] {
      var before, name := names[..|names| - 1], names[|names| - 1];
      RetainedFit(existing, before);
      RetainOneExact(Retain(existing, before), name);
      assert names == before + [name];
    }
  }

  /** The loop over an attempt's methods. */
  method RetainedCommandMethods(found: set<string>, methods: seq<string>)
    returns (retained: map<string, string>)
    ensures retained == Retain(found, methods).retained
  {
    var existing, available := found, MAX_METHODS - 1 - |found - {OTHER}|;
    if available < 0 {
      available := 0;
    }
    retained := map[];
    for i := 0 to |methods|
      invariant available >= 0
      invariant Slots(existing, available, retained) == Retain(found, methods[..i])
    {
      var name := methods[i];
      assert methods[..i + 1][..i] == methods[..i];
      if name == OVERHEAD {
        retained := retained[name := OTHER];
      } else if name in existing {
        retained := retained[name := name];
      } else if available > 0 {
        retained := retained[name := name];
        existing := existing + {name};
        available := available - 1;
      } else {
        retained := retained[name := OTHER];
        existing := existing + {OTHER};
      }
    }
    assert methods[..|methods|] == methods;
  }

  // ---- Attribution --------------------------------------------------------------------------------------

  function Names(methods: Summary): (r: seq<string>)
    ensures |r| == |methods| && forall i :: 0 <= i < |r| ==> r[i] == methods[i].name
  {
    seq(|methods|, i requires 0 <= i < |methods| => methods[i].name)
  }

  /** A counter summed over all methods. */
  function Observed(methods: Summary, c: Column): int {
    if methods == [] then 0
    else
      var rest, last := Observed(methods[..|methods| - 1], c), methods[|methods| - 1];
      if last.Malformed? then rest else rest + At(Row(last.figures, 0, 0), c)
  }

  /** The provider latency of all methods together. */
  function AllLatency(methods: Summary): int {
    Observed(methods, LatencyColumn)
  }

  predicate LatenciesOk(methods: Summary) {
    forall entry :: entry in methods && entry.Counted? ==> entry.figures.latency >= 0
  }

  predicate AllRetained(methods: Summary, retained: map<string, string>) {
    forall entry :: entry in methods ==> entry.name in retained
  }

  /** The share of one method: browser time in proportion to provider latency, then cost in
      proportion to browser time, both rounded down. */
  function Share(bill: Bill, total: int, figures: Figures): Row {
    var browser := if total == 0 then 0 else Min(bill.browser, total) * figures.latency / total;
    var cost := if bill.chargeable == 0 then 0 else bill.cost * browser / bill.chargeable;
    Row(figures, browser, cost)
  }

  /** The shares of all methods together, in one column. */
  function Shares(bill: Bill, total: int, methods: Summary, c: Column): int {
    if methods == [] then 0
    else
      var rest, last := Shares(bill, total, methods[..|methods| - 1], c), methods[|methods| - 1];
      if last.Malformed? then rest else rest + At(Share(bill, total, last.figures), c)
  }

  /** The shares of the methods retained under one name. */
  function SharesUnder(bill: Bill, total: int, methods: Summary, retained: map<string, string>,
                       name: string, c: Column): int
    requires AllRetained(methods, retained)
  {
    if methods == [] then 0
    else
      var rest := SharesUnder(bill, total, methods[..|methods| - 1], retained, name, c);
      var last := methods[|methods| - 1];
      if last.Counted? && retained[last.name] == name then rest + At(Share(bill, total, last.figures), c) else rest
  }

  function Attributed(bill: Bill, total: int, methods: Summary, retained: map<string, string>): Rows
    requires AllRetained(methods, retained)
  {
    if methods == [] then map[]
    else
      var rows, last := Attributed(bill, total, methods[..|methods| - 1], retained), methods[|methods| - 1];
      if last.Malformed? then rows
      else Accumulated(rows, retained[last.name], Share(bill, total, last.figures))
  }

  function NoFigures(): Figures {
    Figures(0, 0, 0, 0, 0, 0)
  }

  /** What is left of the bill, if anything. */
  function Overhead(bill: Bill, browser: int, cost: int): Row {
    Row(NoFigures(), Max(0, bill.browser - browser), Max(0, bill.cost - cost))
  }

  function WithOverhead(rows: Rows, overhead: Row): Rows {
    if overhead.browser != 0 || overhead.cost != 0 then Accumulated(rows, OVERHEAD, overhead) else rows
  }

  function Settled(bill: Bill, methods: Summary, retained: map<string, string>): Rows
    requires AllRetained(methods, retained)
  {
    var total := AllLatency(methods);
    WithOverhead(Attributed(bill, total, methods, retained),
                 Overhead(bill, Shares(bill, total, methods, BrowserColumn), Shares(bill, total, methods, CostColumn)))
  }

  /** The loop over the summary and the overhead row after it. */
  method Attribute(bill: Bill, methods: Summary, retained: map<string, string>) returns (rows: Rows)
    requires AllRetained(methods, retained)
    ensures rows == Settled(bill, methods, retained)
  {
    rows := map[];
    var total := AllLatency(methods);
    var attributable := Min(bill.browser, total);
    var allocatedBrowser, allocatedCost := 0, 0;
    for i := 0 to |methods|
      invariant rows == Attributed(bill, total, methods[..i], retained)
      invariant allocatedBrowser == Shares(bill, total, methods[..i], BrowserColumn)
      invariant allocatedCost == Shares(bill, total, methods[..i], CostColumn)
    {
      assert methods[..i + 1][..i] == methods[..i];
      var entry := methods[i];
      if entry.Malformed? {
        continue;
      }
      var browser := if total == 0 then 0 else attributable * entry.figures.latency / total;
      var cost := if bill.chargeable == 0 then 0 else bill.cost * browser / bill.chargeable;
      allocatedBrowser := allocatedBrowser + browser;
      allocatedCost := allocatedCost + cost;
      rows := Accumulated(rows, retained[entry.name], Row(entry.figures, browser, cost));
    }
    assert methods[..|methods|] == methods;
    var overheadBrowser := Max(0, bill.browser - allocatedBrowser);
    var overheadCost := Max(0, bill.cost - allocatedCost);
    if overheadBrowser != 0 || overheadCost != 0 {
      rows := Accumulated(rows, OVERHEAD, Row(NoFigures(), overheadBrowser, overheadCost));
    }
  }

  // ---- Conservation -------------------------------------------------------------------------------------

  /** A bill as the lifecycle produces it. */
  predicate BillOk(bill: Bill) {
    0 <= bill.browser <= bill.chargeable && 0 <= bill.cost
  }

  lemma ChargeableBill(usage: Usage)
    requires Chargeable(usage) && (usage.rate.Some? ==> usage.rate.value >= 0)
    ensures BillOk(BillOf(usage))
  {
    if usage.modeledCost.Some? {
      NonNegative(usage.chargeableMs.value, usage.rate.value);
    }
  }

  lemma NonNegative(a: int, b: int)
    requires a >= 0 && b >= 0
    ensures a * b >= 0
  {
  }

  lemma Distribute(a: int, b: int, c: int)
    ensures a * (b + c) == a * b + a * c
  {
  }

  lemma Cancel(d: int, a: int, b: int)
    requires d > 0 && d * a <= d * b
    ensures a <= b
  {
  }

  lemma Product(a: int, b: int, c: int)
    requires a >= 0 && b <= c
    ensures a * b <= c * a
  {
  }

  /** Rounding down never takes more than was there. */
  lemma Floor(a: int, n: int, d: int)
    requires a >= 0 && n >= 0 && d > 0
    ensures 0 <= d * (a * n / d) <= a * n && 0 <= a * n / d && a * n < d * (a * n / d) + d
  {
    NonNegative(a, n);
  }

  lemma {:induction false} LatencyNonNegative(methods: Summary)
    requires LatenciesOk(methods)
    ensures AllLatency(methods) >= 0
  {
    if methods != [] {
      LatencyNonNegative(methods[..|methods| - 1]);
    }
  }

  /** One more rounded share of a proportion. */
  lemma OneMoreShare(part: int, whole: int, all: int, more: int, given: int, n: int)
    requires part >= 0 && more >= 0 && whole > 0
    requires whole * given <= part * all <= whole * (given + n)
    ensures part * more / whole >= 0
    ensures whole * (given + part * more / whole) <= part * (all + more)
    ensures part * (all + more) <= whole * (given + part * more / whole + (n + 1))
  {
    Floor(part, more, whole);
    Distribute(part, all, more);
    Distribute(whole, given, part * more / whole);
    Distribute(whole, given + n, part * more / whole + 1);
    Distribute(whole, part * more / whole, 1);
  }

  lemma NoShareNoLoss(whole: int, given: int, n: int, bound: int)
    requires whole >= 0 && bound <= whole * (given + n)
    ensures bound <= whole * (given + (n + 1))
  {
    Distribute(whole, given + n, 1);
    assert given + (n + 1) == given + n + 1;
  }

  /** The browser shares of any prefix stay within their proportion, and lose less than one
      millisecond per method. */
  lemma {:induction false} BrowserShares(bill: Bill, total: int, methods: Summary)
    requires BillOk(bill) && LatenciesOk(methods) && total > 0
    ensures var given, part := Shares(bill, total, methods, BrowserColumn), Min(bill.browser, total);
      && 0 <= given && total * given <= part * AllLatency(methods)
      && part * AllLatency(methods) <= total * (given + |methods|)
  {
    if methods != [] {
      var before, last := methods[..|methods| - 1], methods[|methods| - 1];
      var part, given := Min(bill.browser, total), Shares(bill, total, before, BrowserColumn);
      BrowserShares(bill, total, before);
      if last.Counted? {
        OneMoreShare(part, total, AllLatency(before), last.figures.latency, given, |before|);
      } else {
        NoShareNoLoss(total, given, |before|, part * AllLatency(before));
      }
    }
  }

  /** The same of the cost shares. */
  lemma {:induction false} CostShares(bill: Bill, total: int, methods: Summary)
    requires BillOk(bill) && LatenciesOk(methods) && total > 0 && bill.chargeable > 0
    ensures var browser, given := Shares(bill, total, methods, BrowserColumn), Shares(bill, total, methods, CostColumn);
      && 0 <= given && bill.chargeable * given <= bill.cost * browser
      && bill.cost * browser <= bill.chargeable * (given + |methods|)
  {
    if methods != [] {
      var before, last := methods[..|methods| - 1], methods[|methods| - 1];
      var given := Shares(bill, total, before, CostColumn);
      var browser := Shares(bill, total, before, BrowserColumn);
      CostShares(bill, total, before);
      if last.Counted? {
        Floor(Min(bill.browser, total), last.figures.latency, total);
        OneMoreShare(bill.cost, bill.chargeable, browser, Share(bill, total, last.figures).browser, given, |before|);
      } else {
        NoShareNoLoss(bill.chargeable, given, |before|, bill.cost * browser);
      }
    }
  }

  lemma {:induction false} NoBrowserTime(bill: Bill, methods: Summary)
    ensures Shares(bill, 0, methods, BrowserColumn) == 0 && Shares(bill, 0, methods, CostColumn) == 0
  {
    if methods != [] {
      NoBrowserTime(bill, methods[..|methods| - 1]);
    }
  }

  lemma {:induction false} NoCost(bill: Bill, total: int, methods: Summary)
    requires bill.chargeable == 0
    ensures Shares(bill, total, methods, CostColumn) == 0
  {
    if methods != [] {
      NoCost(bill, total, methods[..|methods| - 1]);
    }
  }

  /** A method gets the greatest whole share that is within its proportion: of the attributable
      browser time by its provider latency, and of the cost by its browser time. */
  lemma ShareIsProportional(bill: Bill, total: int, figures: Figures)
    requires BillOk(bill) && total > 0 && figures.latency >= 0
    ensures var share, part := Share(bill, total, figures), Min(bill.browser, total);
      && total * share.browser <= part * figures.latency < total * share.browser + total
      && (bill.chargeable > 0 ==>
            bill.chargeable * share.cost <= bill.cost * share.browser < bill.chargeable * share.cost + bill.chargeable)
      && 0 <= share.browser && (bill.chargeable == 0 ==> share.cost == 0)
      && share.figures == figures
  {
    Floor(Min(bill.browser, total), figures.latency, total);
    if bill.chargeable > 0 {
      Floor(bill.cost, Share(bill, total, figures).browser, bill.chargeable);
    }
  }

  /** No share exceeds what there is to share, so the clips at zero never take effect; and rounding
      moves less than one millisecond, and less than one cost unit, per method to the overhead. */
  lemma SharesFit(bill: Bill, methods: Summary)
    requires BillOk(bill) && LatenciesOk(methods)
    ensures var total := AllLatency(methods);
      var browser, cost := Shares(bill, total, methods, BrowserColumn), Shares(bill, total, methods, CostColumn);
      && 0 <= browser <= bill.browser && 0 <= cost <= bill.cost
      && browser <= Min(bill.browser, total) <= browser + |methods|
      && bill.cost * browser <= bill.chargeable * (cost + |methods|)
  {
    var total := AllLatency(methods);
    LatencyNonNegative(methods);
    if total > 0 {
      BrowserShares(bill, total, methods);
      var browser, part := Shares(bill, total, methods, BrowserColumn), Min(bill.browser, total);
      Cancel(total, browser, part);
      Cancel(total, part, browser + |methods|);
      if bill.chargeable > 0 {
        CostShares(bill, total, methods);
        Product(bill.cost, browser, bill.chargeable);
        Cancel(bill.chargeable, Shares(bill, total, methods, CostColumn), bill.cost);
      } else {
        NoCost(bill, total, methods);
      }
    } else {
      NoBrowserTime(bill, methods);
      NonNegative(bill.chargeable, |methods|);
    }
  }

  /** No share is lost on its way into the rows. */
  lemma {:induction false} AttributedTotal(bill: Bill, total: int, methods: Summary,
                                           retained: map<string, string>, c: Column)
    requires AllRetained(methods, retained)
    ensures Total(Attributed(bill, total, methods, retained), c) == Shares(bill, total, methods, c)
  {
    if methods != [] {
      var before, last := methods[..|methods| - 1], methods[|methods| - 1];
      AttributedTotal(bill, total, before, retained, c);
      if last.Counted? {
        TotalAccumulated(Attributed(bill, total, before, retained), retained[last.name],
                         Share(bill, total, last.figures), c);
      }
    }
  }

  lemma {:induction false} CountersShared(bill: Bill, total: int, methods: Summary, c: Column)
    requires !c.BrowserColumn? && !c.CostColumn?
    ensures Shares(bill, total, methods, c) == Observed(methods, c)
  {
    if methods != [] {
      CountersShared(bill, total, methods[..|methods| - 1], c);
    }
  }

  /** Conservation: the rows of an attempt hold its whole browser time and its whole cost, exactly,
      and every count and every time that was observed. */
  lemma Conserved(bill: Bill, methods: Summary, retained: map<string, string>, c: Column)
    requires BillOk(bill) && LatenciesOk(methods) && AllRetained(methods, retained)
    ensures Total(Settled(bill, methods, retained), c) ==
      match c
      case BrowserColumn => bill.browser
      case CostColumn => bill.cost
      case _ => Observed(methods, c)
  {
    var total := AllLatency(methods);
    var browser, cost := Shares(bill, total, methods, BrowserColumn), Shares(bill, total, methods, CostColumn);
    AttributedTotal(bill, total, methods, retained, c);
    if c.BrowserColumn? || c.CostColumn? {
      SharesFit(bill, methods);
    } else {
      CountersShared(bill, total, methods, c);
    }
    TotalAccumulated(Attributed(bill, total, methods, retained), OVERHEAD, Overhead(bill, browser, cost), c);
  }

  function ValueAt(rows: Rows, name: string, c: Column): int {
    if name in rows then At(rows[name], c) else 0
  }

  lemma {:induction false} AttributedByName(bill: Bill, total: int, methods: Summary,
                                            retained: map<string, string>, name: string, c: Column)
    requires AllRetained(methods, retained)
    ensures ValueAt(Attributed(bill, total, methods, retained), name, c)
         == SharesUnder(bill, total, methods, retained, name, c)
    ensures name in Attributed(bill, total, methods, retained) ==>
      exists entry :: entry in methods && retained[entry.name] == name
  {
    if methods != [] {
      AttributedByName(bill, total, methods[..|methods| - 1], retained, name, c);
    }
  }

  /** Each method's row holds the shares retained under its name and nothing else; what the overhead
      row holds beyond that is what SharesFit leaves over. */
  lemma RowsByName(bill: Bill, methods: Summary, retained: map<string, string>, name: string, c: Column)
    requires AllRetained(methods, retained)
    ensures var total := AllLatency(methods);
      var browser, cost := Shares(bill, total, methods, BrowserColumn), Shares(bill, total, methods, CostColumn);
      ValueAt(Settled(bill, methods, retained), name, c) ==
        SharesUnder(bill, total, methods, retained, name, c)
          + if name == OVERHEAD then At(Overhead(bill, browser, cost), c) else 0
    ensures name in Settled(bill, methods, retained) ==>
      name == OVERHEAD || exists entry :: entry in methods && retained[entry.name] == name
  {
    AttributedByName(bill, AllLatency(methods), methods, retained, name, c);
  }
}
