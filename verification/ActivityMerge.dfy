/** The bounded list of live events: merged as events arrive, one batch or one event at a time. */
module ActivityMerge {
  import opened Common

  /** What a stream may hand over: only a value with an id, a type and a time is an activity event.
      Ids and times are whole numbers in the order the page sorts them by. */
  datatype Item = Item(id: Option<nat>, eventType: Option<string>, occurredAt: Option<int>, body: string)

  predicate IsActivityEvent(e: Item) {
    e.id.Some? && e.eventType.Some? && e.occurredAt.Some?
  }

  type Event = e: Item | IsActivityEvent(e) witness Item(Some(0), Some(""), Some(0), "")

  // ---- Order --------------------------------------------------------------------------------------------

  predicate Before(a: Event, b: Event) {
    a.occurredAt.value < b.occurredAt.value
    || (a.occurredAt.value == b.occurredAt.value && a.id.value < b.id.value)
  }

  /** What an event says is settled by its id. */
  predicate Consistent(events: set<Event>) {
    forall a, b :: a in events && b in events && a.id == b.id ==> a == b
  }

  predicate IsSorted(s: seq<Event>) {
    forall i, j :: 0 <= i < j < |s| ==> Before(s[i], s[j])
  }

  function SetOf(s: seq<Event>): set<Event> {
    set e | e in s
  }

  lemma InSomeOrder(a: Event, b: Event)
    requires a.id != b.id
    ensures Before(a, b) != Before(b, a)
  {
  }

  predicate IsLast(last: Event, events: set<Event>) {
    last in events && forall e :: e in events && e != last ==> Before(e, last)
  }

  lemma LaterLast(last: Event, other: Event, rest: set<Event>)
    requires IsLast(other, rest) && Before(other, last)
    ensures IsLast(last, rest + {last})
  {
  }

  lemma {:induction false} LastExists(events: set<Event>)
    requires events != {} && Consistent(events)
    ensures exists last :: IsLast(last, events)
  {
    var some :| some in events;
    var rest := events - {some};
    assert events == rest + {some};
    if rest == {} {
      assert IsLast(some, events);
    } else {
      LastExists(rest);
      var other :| IsLast(other, rest);
      InSomeOrder(some, other);
      if Before(other, some) {
        LaterLast(some, other, rest);
      } else {
        assert IsLast(other, events);
      }
    }
  }

  /** The events in order: what the sort makes of them, whatever order they come in. */
  function Ordered(events: set<Event>): seq<Event>
    requires Consistent(events)
    decreases |events|
  {
    if events == {} then []
    else
      LastExists(events);
      var last :| IsLast(last, events);
      Ordered(events - {last}) + [last]
  }

  lemma {:induction false} OrderedSorts(events: set<Event>)
    requires Consistent(events)
    ensures IsSorted(Ordered(events)) && SetOf(Ordered(events)) == events && |Ordered(events)| == |events|
    decreases |events|
  {
    if events != {} {
      LastExists(events);
      var s := Ordered(events);
      var last := s[|s| - 1];
      OrderedSorts(events - {last});
      var front := Ordered(events - {last});
      assert s == front + [last];
      forall i | 0 <= i < |front| ensures Before(front[i], last) {
        assert front[i] in SetOf(front);
      }
    }
  }

  /** Only one list of these events is sorted. */
  lemma {:induction false} SortedIsUnique(a: seq<Event>, b: seq<Event>)
    requires IsSorted(a) && IsSorted(b) && SetOf(a) == SetOf(b)
    ensures a == b
  {
    SortedSize(a);
    SortedSize(b);
    if a != [] {
      var x, y := a[|a| - 1], b[|b| - 1];
      assert x in SetOf(a) && y in SetOf(b);
      assert x == y;
      WithoutLast(a);
      WithoutLast(b);
      SortedIsUnique(a[..|a| - 1], b[..|b| - 1]);
      assert a == a[..|a| - 1] + [x];
      assert b == b[..|b| - 1] + [y];
    }
  }

  lemma WithoutLast(s: seq<Event>)
    requires IsSorted(s) && s != []
    ensures SetOf(s[..|s| - 1]) == SetOf(s) - {s[|s| - 1]}
  {
    var front, last := s[..|s| - 1], s[|s| - 1];
    assert s == front + [last];
    assert last !in front;
  }

  lemma {:induction false} SortedSize(s: seq<Event>)
    requires IsSorted(s)
    ensures |SetOf(s)| == |s|
  {
    if s != [] {
      WithoutLast(s);
      SortedSize(s[..|s| - 1]);
      assert s[|s| - 1] in SetOf(s);
    }
  }

  // ---- Merging ------------------------------------------------------------------------------------------

  function Put(m: map<nat, Event>, e: Item): map<nat, Event> {
    if IsActivityEvent(e) then m[e.id.value := e] else m
  }

  /** The last event of each id. */
  function PutAll(m: map<nat, Event>, items: seq<Item>): map<nat, Event> {
    if items == [] then m else Put(PutAll(m, items[..|items| - 1]), items[|items| - 1])
  }

  /** A slice from minus the limit; minus zero is zero, so a limit of zero takes everything. */
  function Limited(s: seq<Event>, limit: Option<int>): seq<Event> {
    if limit.None? || limit.value == 0 then s
    else if limit.value > 0 then s[|s| - Min(limit.value, |s|)..]
    else s[Min(-limit.value, |s|)..]
  }

  lemma {:induction false} KeyedById(items: seq<Item>)
    ensures forall id :: id in PutAll(map[], items) ==> PutAll(map[], items)[id].id == Some(id)
    ensures Consistent(PutAll(map[], items).Values)
  {
    if items != [] {
      KeyedById(items[..|items| - 1]);
    }
    var m := PutAll(map[], items);
    forall a, b | a in m.Values && b in m.Values && a.id == b.id ensures a == b {
      var i :| i in m && m[i] == a;
      var j :| j in m && m[j] == b;
    }
  }

  function Merged(current: seq<Item>, incoming: seq<Item>, limit: Option<int>): seq<Event> {
    KeyedById(current + incoming);
    Limited(Ordered(PutAll(map[], current + incoming).Values), limit)
  }

  lemma {:induction false} PutAllSplit(m: map<nat, Event>, a: seq<Item>, b: seq<Item>)
    ensures PutAll(m, a + b) == PutAll(PutAll(m, a), b)
  {
    if b == [] {
      assert a + b == a;
    } else {
      PutAllSplit(m, a, b[..|b| - 1]);
      assert (a + b)[..|a + b| - 1] == a + b[..|b| - 1];
    }
  }

  method SetEach(m: map<nat, Event>, items: seq<Item>) returns (events: map<nat, Event>)
    ensures events == PutAll(m, items)
  {
    events := m;
    for i := 0 to |items|
      invariant events == PutAll(m, items[..i])
    {
      assert items[..i + 1][..i] == items[..i];
      if !IsActivityEvent(items[i]) {
        continue;
      }
      events := events[items[i].id.value := items[i]];
    }
    assert items[..|items|] == items;
  }

  /** The map is filled from the current list and then from the incoming one, sorted, and sliced. */
  method MergeEvents(current: seq<Item>, incoming: seq<Item>, limit: Option<int>) returns (merged: seq<Event>)
    ensures merged == Merged(current, incoming, limit)
  {
    var events := SetEach(map[], current);
    events := SetEach(events, incoming);
    PutAllSplit(map[], current, incoming);
    KeyedById(current + incoming);
    merged := Ordered(events.Values);
    if limit.Some? && limit.value > 0 && limit.value < |merged| {
      merged := merged[|merged| - limit.value..];
    } else if limit.Some? && limit.value < 0 {
      merged := merged[Min(-limit.value, |merged|)..];
    }
  }

  // ---- The latest events of a set -----------------------------------------------------------------------

  function Latest(n: nat, events: set<Event>): seq<Event>
    requires Consistent(events)
  {
    Limited(Ordered(events), Some(n))
  }

  /** These are the n latest: as many as there can be, and everything else comes before them. */
  predicate AreLatest(top: set<Event>, n: nat, events: set<Event>) {
    && top <= events && |top| == Min(n, |events|)
    && forall x, y :: x in events - top && y in top ==> Before(x, y)
  }

  lemma LatestAre(n: nat, events: set<Event>)
    requires Consistent(events) && n >= 1
    ensures AreLatest(SetOf(Latest(n, events)), n, events) && IsSorted(Latest(n, events))
  {
    var s, top := Ordered(events), Latest(n, events);
    OrderedSorts(events);
    var k := |s| - Min(n, |s|);
    assert top == s[k..];
    SortedSize(top);
    assert SetOf(top) <= SetOf(s);
    forall x, y | x in events - SetOf(top) && y in SetOf(top) ensures Before(x, y) {
      InSuffix(s, k, x, y);
    }
  }

  lemma InSuffix(s: seq<Event>, k: nat, x: Event, y: Event)
    requires IsSorted(s) && k <= |s| && x in s && x !in s[k..] && y in s[k..]
    ensures Before(x, y)
  {
    var i :| 0 <= i < |s| && s[i] == x;
    var j :| 0 <= j < |s[k..]| && s[k..][j] == y;
    assert s[k + j] == y;
    assert i < k;
  }

  /** No other set is. */
  lemma LatestAreUnique(a: set<Event>, b: set<Event>, n: nat, events: set<Event>)
    requires AreLatest(a, n, events) && AreLatest(b, n, events)
    ensures a == b
  {
    if x :| x in a && x !in b {
      assert exists y :: y in b && y !in a by {
        if b <= a {
          StrictSubsetSize(b, a, x);
        }
      }
      var y :| y in b && y !in a;
      NotBoth(x, y);
      assert false;
    }
    if y :| y in b && y !in a {
      StrictSubsetSize(a, b, y);
    }
  }

  lemma NotBoth(a: Event, b: Event)
    ensures !(Before(a, b) && Before(b, a))
  {
  }

  /** What was dropped before never comes back: the latest of the latest and some more are the latest
      of all. */
  lemma LatestOfLatest(n: nat, top: set<Event>, known: set<Event>, more: set<Event>, result: set<Event>)
    requires n >= 1 && Consistent(known + more)
    requires AreLatest(top, n, known) && AreLatest(result, n, top + more)
    ensures AreLatest(result, n, known + more)
  {
    SubsetSize(top, top + more);
    SubsetSize(top + more, known + more);
    if |top| < n {
      assert top == known by {
        if x :| x in known && x !in top {
          StrictSubsetSize(top, known, x);
        }
      }
    } else {
      forall x, y | x in known + more - result && y in result ensures Before(x, y) {
        if x !in top + more && y !in top {
          assert exists z :: z in top && z !in result by {
            if top <= result {
              StrictSubsetSize(top, result, y);
            }
          }
          var z :| z in top && z !in result;
          assert Before(x, z) && Before(z, y);
        }
      }
    }
  }

  // ---- A stream and one batch ---------------------------------------------------------------------------

  function Valid(items: seq<Item>): set<Event> {
    set e | e in items && IsActivityEvent(e)
  }

  lemma {:induction false} ValuesAreValid(items: seq<Item>)
    requires Consistent(Valid(items))
    ensures PutAll(map[], items).Values == Valid(items)
  {
    if items != [] {
      var rest, last := items[..|items| - 1], items[|items| - 1];
      assert items == rest + [last];
      assert Valid(rest) <= Valid(items);
      ValuesAreValid(rest);
      if IsActivityEvent(last) {
        KeyedById(rest);
        PutKnown(PutAll(map[], rest), last, Valid(items));
        assert Valid(items) == Valid(rest) + {last};
      } else {
        assert Valid(items) == Valid(rest);
      }
    }
  }

  lemma PutKnown(m: map<nat, Event>, e: Event, events: set<Event>)
    requires Consistent(events) && m.Values <= events && e in events
    requires forall id :: id in m ==> m[id].id == Some(id)
    ensures Put(m, e).Values == m.Values + {e}
  {
    var after := m[e.id.value := e];
    assert e.id.value in m ==> m[e.id.value] == e;
    forall x | x in m.Values ensures x in after.Values {
      var id :| id in m && m[id] == x;
      assert after[id] == x;
    }
    assert after[e.id.value] == e;
  }

  /** A merge with a limit gives the latest of what it was given. */
  lemma MergedIsLatest(current: seq<Item>, incoming: seq<Item>, n: nat)
    requires Consistent(Valid(current) + Valid(incoming))
    ensures Merged(current, incoming, Some(n)) == Latest(n, Valid(current) + Valid(incoming))
  {
    assert Valid(current + incoming) == Valid(current) + Valid(incoming);
    ValuesAreValid(current + incoming);
  }

  lemma SameLatest(n: nat, a: seq<Event>, events: set<Event>)
    requires n >= 1 && Consistent(events) && IsSorted(a) && AreLatest(SetOf(a), n, events)
    ensures a == Latest(n, events)
  {
    LatestAre(n, events);
    LatestAreUnique(SetOf(a), SetOf(Latest(n, events)), n, events);
    SortedIsUnique(a, Latest(n, events));
  }

  /** Merging on top of the latest is merging on top of everything. */
  lemma LatestThenMore(n: nat, known: set<Event>, more: set<Event>)
    requires n >= 1 && Consistent(known + more)
    ensures SetOf(Latest(n, known)) <= known
    ensures Latest(n, SetOf(Latest(n, known)) + more) == Latest(n, known + more)
  {
    LatestAre(n, known);
    var top := SetOf(Latest(n, known));
    LatestAre(n, top + more);
    LatestOfLatest(n, top, known, more, SetOf(Latest(n, top + more)));
    SameLatest(n, Latest(n, top + more), known + more);
  }

  function AsItems(s: seq<Event>): (r: seq<Item>)
    ensures |r| == |s| && Valid(r) == SetOf(s)
  {
    var r: seq<Item> := s;
    assert forall e :: e in Valid(r) <==> e in SetOf(s);
    r
  }

  function Flat(batches: seq<seq<Item>>): seq<Item> {
    if batches == [] then [] else Flat(batches[..|batches| - 1]) + batches[|batches| - 1]
  }

  /** Every batch is merged into the bounded list as it comes. */
  function Streamed(batches: seq<seq<Item>>, n: nat): seq<Event> {
    if batches == [] then []
    else Merged(AsItems(Streamed(batches[..|batches| - 1], n)), batches[|batches| - 1], Some(n))
  }

  lemma {:induction false} StreamedIsLatest(batches: seq<seq<Item>>, n: nat)
    requires n >= 1 && Consistent(Valid(Flat(batches)))
    ensures Streamed(batches, n) == Latest(n, Valid(Flat(batches)))
  {
    if batches != [] {
      var before, last := batches[..|batches| - 1], batches[|batches| - 1];
      var known, more := Valid(Flat(before)), Valid(last);
      assert Valid(Flat(batches)) == known + more;
      StreamedIsLatest(before, n);
      LatestThenMore(n, known, more);
      MergedIsLatest(AsItems(Streamed(before, n)), last, n);
    }
  }

  /** Streaming equals one batch: with a limit of at least one, merging batch by batch leaves exactly
      the last events of one unlimited merge of everything. */
  lemma StreamIsBatch(batches: seq<seq<Item>>, n: nat)
    requires n >= 1 && Consistent(Valid(Flat(batches)))
    ensures var all := Merged([], Flat(batches), None);
      && Streamed(batches, n) == all[|all| - Min(n, |all|)..]
      && IsSorted(all) && SetOf(all) == Valid(Flat(batches))
  {
    StreamedIsLatest(batches, n);
    MergedAll(Flat(batches));
    OrderedSorts(Valid(Flat(batches)));
  }

  lemma MergedAll(items: seq<Item>)
    requires Consistent(Valid(items))
    ensures Merged([], items, None) == Ordered(Valid(items))
  {
    assert [] + items == items;
    ValuesAreValid(items);
  }

  /** A limit bounds the list exactly if it is not zero, or there is nothing to show. */
  lemma BoundedUnlessZero(current: seq<Item>, incoming: seq<Item>, n: nat)
    ensures |Merged(current, incoming, Some(n))| <= n <==>
      n >= 1 || forall e :: e in current + incoming ==> !IsActivityEvent(e)
  {
    var m := PutAll(map[], current + incoming);
    KeyedById(current + incoming);
    OrderedSorts(m.Values);
    SomethingToShow(current + incoming);
    if m != map[] {
      var id :| id in m;
      assert m[id] in m.Values;
    }
  }

  lemma {:induction false} SomethingToShow(items: seq<Item>)
    ensures PutAll(map[], items) == map[] <==> forall e :: e in items ==> !IsActivityEvent(e)
  {
    if items != [] {
      var rest, last := items[..|items| - 1], items[|items| - 1];
      assert items == rest + [last];
      SomethingToShow(rest);
      if IsActivityEvent(last) {
        assert last.id.value in PutAll(map[], items);
      }
    }
  }

  // ---- Pausing ------------------------------------------------------------------------------------------

  /** The lists of the page, and the buffer as the page last rendered it: that is the one which leaving
      a pause merges in. */
  datatype Feed = Feed(paused: bool, live: seq<Event>, buffered: seq<Event>, rendered: seq<Event>)

  datatype Op = Arrive(event: Event) | Render | Toggle

  /** An event goes to the buffer while the page is paused; leaving the pause merges in what the page has
      rendered of the buffer, and empties it. */
  function Step(feed: Feed, op: Op, n: nat): Feed {
    match op
    case Arrive(e) =>
      if feed.paused then feed.(buffered := Merged(AsItems(feed.buffered), [e], Some(n)))
      else feed.(live := Merged(AsItems(feed.live), [e], Some(n)))
    case Render => feed.(rendered := feed.buffered)
    case Toggle =>
      if feed.paused then
        feed.(paused := false, live := Merged(AsItems(feed.live), AsItems(feed.rendered), Some(n)), buffered := [])
      else feed.(paused := true)
  }

  function After(ops: seq<Op>, n: nat): Feed {
    if ops == [] then Feed(false, [], [], []) else Step(After(ops[..|ops| - 1], n), ops[|ops| - 1], n)
  }

  function Arrived(ops: seq<Op>): set<Event> {
    set op | op in ops && op.Arrive? :: op.event
  }

  /** The events behind the three lists: those shown, those held while the page is paused, and those that
      were held when the page last rendered. */
  datatype Behind = Behind(shown: set<Event>, held: set<Event>, seen: set<Event>)

  /** Leaving a pause shows what was held if that was rendered, and else what had been rendered. */
  function BehindStep(feed: Feed, b: Behind, op: Op): Behind {
    match op
    case Arrive(e) => if feed.paused then b.(held := b.held + {e}) else b.(shown := b.shown + {e})
    case Render => b.(seen := b.held)
    case Toggle =>
      if !feed.paused then b
      else Behind(b.shown + (if feed.rendered == feed.buffered then b.held else b.seen), {}, b.seen)
  }

  function BehindAfter(ops: seq<Op>, n: nat): Behind {
    if ops == [] then Behind({}, {}, {})
    else BehindStep(After(ops[..|ops| - 1], n), BehindAfter(ops[..|ops| - 1], n), ops[|ops| - 1])
  }

  function All(b: Behind): set<Event> {
    b.shown + b.held + b.seen
  }

  lemma {:induction false} BehindArrived(ops: seq<Op>, n: nat)
    ensures All(BehindAfter(ops, n)) <= Arrived(ops)
    ensures !After(ops, n).paused ==> BehindAfter(ops, n).held == {}
  {
    if ops != [] {
      var rest, last := ops[..|ops| - 1], ops[|ops| - 1];
      assert ops == rest + [last];
      BehindArrived(rest, n);
      assert Arrived(ops) == Arrived(rest) + if last.Arrive? then {last.event} else {};
    }
  }

  /** Each list shows the latest of the events behind it. */
  predicate FeedOk(feed: Feed, b: Behind, n: nat)
    requires Consistent(All(b))
  {
    assert b.shown <= All(b) && b.held <= All(b) && b.seen <= All(b);
    feed.live == Latest(n, b.shown) && feed.buffered == Latest(n, b.held) && feed.rendered == Latest(n, b.seen)
  }

  lemma ArriveOk(feed: Feed, e: Event, b: Behind, n: nat)
    requires n >= 1 && Consistent(All(b) + {e}) && Consistent(All(b)) && FeedOk(feed, b, n)
    ensures Consistent(All(BehindStep(feed, b, Arrive(e))))
    ensures FeedOk(Step(feed, Arrive(e), n), BehindStep(feed, b, Arrive(e)), n)
  {
    assert All(BehindStep(feed, b, Arrive(e))) <= All(b) + {e};
    if feed.paused {
      MergeOne(n, b.held, e);
    } else {
      MergeOne(n, b.shown, e);
    }
  }

  lemma ResumeShows(feed: Feed, shown: set<Event>, more: set<Event>, n: nat)
    requires n >= 1 && Consistent(shown + more) && feed.paused
    requires Consistent(shown) && Consistent(more)
    requires feed.live == Latest(n, shown) && feed.rendered == Latest(n, more)
    ensures Step(feed, Toggle, n).live == Latest(n, shown + more)
  {
    MergeHeld(n, shown, more);
  }

  lemma ToggleOk(feed: Feed, b: Behind, n: nat)
    requires n >= 1 && Consistent(All(b)) && FeedOk(feed, b, n)
    requires !feed.paused ==> b.held == {}
    ensures Consistent(All(BehindStep(feed, b, Toggle)))
    ensures FeedOk(Step(feed, Toggle, n), BehindStep(feed, b, Toggle), n)
  {
    assert All(BehindStep(feed, b, Toggle)) <= All(b);
    if feed.paused {
      var more := if feed.rendered == feed.buffered then b.held else b.seen;
      Subsets(b);
      ResumeShows(feed, b.shown, more, n);
      Resumed(Step(feed, Toggle, n), Behind(b.shown + more, {}, b.seen), n);
    }
  }

  lemma Subsets(b: Behind)
    requires Consistent(All(b))
    ensures Consistent(b.shown) && Consistent(b.held) && Consistent(b.seen)
    ensures Consistent(b.shown + b.held) && Consistent(b.shown + b.seen)
  {
  }

  lemma Resumed(feed: Feed, b: Behind, n: nat)
    requires Consistent(All(b)) && Consistent(b.shown) && Consistent(b.seen) && b.held == {}
    requires feed.live == Latest(n, b.shown) && feed.buffered == [] && feed.rendered == Latest(n, b.seen)
    ensures FeedOk(feed, b, n)
  {
    NothingLatest(n);
  }

  lemma {:induction false} FeedIsLatest(ops: seq<Op>, n: nat)
    requires n >= 1 && Consistent(Arrived(ops))
    ensures Consistent(All(BehindAfter(ops, n))) && FeedOk(After(ops, n), BehindAfter(ops, n), n)
  {
    BehindArrived(ops, n);
    if ops == [] {
      NothingLatest(n);
    } else {
      var rest, last := ops[..|ops| - 1], ops[|ops| - 1];
      assert ops == rest + [last];
      assert Arrived(rest) <= Arrived(ops);
      BehindArrived(rest, n);
      FeedIsLatest(rest, n);
      match last
      case Arrive(e) =>
        assert All(BehindAfter(rest, n)) + {e} <= Arrived(ops);
        ArriveOk(After(rest, n), e, BehindAfter(rest, n), n);
      case Render =>
      case Toggle => ToggleOk(After(rest, n), BehindAfter(rest, n), n);
    }
  }

  lemma NothingLatest(n: nat)
    ensures Latest(n, {}) == []
  {
  }

  lemma MergeOne(n: nat, known: set<Event>, e: Event)
    requires n >= 1 && Consistent(known + {e})
    ensures Merged(AsItems(Latest(n, known)), [e], Some(n)) == Latest(n, known + {e})
  {
    assert Valid([e]) == {e};
    LatestThenMore(n, known, {e});
    MergedIsLatest(AsItems(Latest(n, known)), [e], n);
  }

  lemma MergeHeld(n: nat, shown: set<Event>, held: set<Event>)
    requires n >= 1 && Consistent(shown + held)
    ensures Merged(AsItems(Latest(n, shown)), AsItems(Latest(n, held)), Some(n)) == Latest(n, shown + held)
  {
    BothAreLatest(n, shown, held);
    MergedIsLatest(AsItems(Latest(n, shown)), AsItems(Latest(n, held)), n);
  }

  lemma BothAreLatest(n: nat, shown: set<Event>, held: set<Event>)
    requires n >= 1 && Consistent(shown + held)
    ensures SetOf(Latest(n, shown)) <= shown && SetOf(Latest(n, held)) <= held
    ensures Latest(n, SetOf(Latest(n, shown)) + SetOf(Latest(n, held))) == Latest(n, shown + held)
  {
    var top, buffer := SetOf(Latest(n, shown)), SetOf(Latest(n, held));
    LatestThenMore(n, shown, held);
    LatestAre(n, held);
    assert held + top == top + held && buffer + top == top + buffer;
    LatestThenMore(n, held, top);
  }

  /** Every pause so far was left with the buffer as it had been rendered. */
  predicate Prompt(ops: seq<Op>, n: nat) {
    ops != [] ==>
      var rest, last := ops[..|ops| - 1], ops[|ops| - 1];
      && Prompt(rest, n)
      && (last.Toggle? && After(rest, n).paused ==> After(rest, n).rendered == After(rest, n).buffered)
  }

  lemma {:induction false} NothingMissing(ops: seq<Op>, n: nat)
    requires Prompt(ops, n)
    ensures BehindAfter(ops, n).shown + BehindAfter(ops, n).held == Arrived(ops)
  {
    if ops != [] {
      var rest, last := ops[..|ops| - 1], ops[|ops| - 1];
      assert ops == rest + [last];
      NothingMissing(rest, n);
      assert Arrived(ops) == Arrived(rest) + if last.Arrive? then {last.event} else {};
    }
  }

  /** A page that is not paused shows the latest of all that ever arrived, if every pause was left with
      its buffer rendered. */
  lemma LiveShowsLatest(ops: seq<Op>, n: nat)
    requires n >= 1 && Consistent(Arrived(ops)) && Prompt(ops, n) && !After(ops, n).paused
    ensures After(ops, n).live == Latest(n, Arrived(ops))
  {
    NothingMissing(ops, n);
    BehindArrived(ops, n);
    FeedIsLatest(ops, n);
    assert BehindAfter(ops, n).shown == Arrived(ops);
  }

  /** The latest of what the list and the buffer hold now. */
  function DueAfterPause(feed: Feed, n: nat): seq<Event>
    requires Consistent(SetOf(feed.live) + SetOf(feed.buffered))
  {
    Latest(n, SetOf(feed.live) + SetOf(feed.buffered))
  }

  /** Exactly when leaving a pause loses nothing, in terms of what the page holds at that moment: the latest
      of its list and its buffer must all be in the list or in the buffer as it was last rendered. */
  lemma ResumeLosesNothing(ops: seq<Op>, n: nat)
    requires n >= 1 && Consistent(Arrived(ops)) && Prompt(ops, n) && After(ops, n).paused
    ensures Consistent(SetOf(After(ops, n).live) + SetOf(After(ops, n).buffered))
    ensures After(ops + [Toggle], n).live == Latest(n, Arrived(ops)) <==>
      SetOf(DueAfterPause(After(ops, n), n)) <= SetOf(After(ops, n).live) + SetOf(After(ops, n).rendered)
  {
    HeldIsDue(ops, n);
    ResumeShowsArrived(ops, n);
  }

  /** What the list and the buffer hold has the latest of all that arrived. */
  lemma HeldIsDue(ops: seq<Op>, n: nat)
    requires n >= 1 && Consistent(Arrived(ops)) && Prompt(ops, n)
    ensures SetOf(After(ops, n).live) + SetOf(After(ops, n).buffered) <= Arrived(ops)
    ensures DueAfterPause(After(ops, n), n) == Latest(n, Arrived(ops))
  {
    var b := BehindAfter(ops, n);
    BehindArrived(ops, n);
    NothingMissing(ops, n);
    FeedIsLatest(ops, n);
    Subsets(b);
    BothAreLatest(n, b.shown, b.held);
    assert b.shown + b.held == Arrived(ops);
  }

  lemma ResumeShowsArrived(ops: seq<Op>, n: nat)
    requires n >= 1 && Consistent(Arrived(ops)) && After(ops, n).paused
    ensures After(ops + [Toggle], n).live == Latest(n, Arrived(ops)) <==>
      SetOf(Latest(n, Arrived(ops))) <= SetOf(After(ops, n).live) + SetOf(After(ops, n).rendered)
  {
    OneMoreOp(ops, Toggle, n);
    ListsArrived(ops, n);
    ResumeIsLatest(n, After(ops, n), Arrived(ops));
  }

  lemma OneMoreOp(ops: seq<Op>, op: Op, n: nat)
    ensures After(ops + [op], n) == Step(After(ops, n), op, n)
  {
    assert (ops + [op])[..|ops|] == ops;
  }

  /** The lists show nothing that did not arrive. */
  lemma ListsArrived(ops: seq<Op>, n: nat)
    requires n >= 1 && Consistent(Arrived(ops))
    ensures SetOf(After(ops, n).live) + SetOf(After(ops, n).rendered) <= Arrived(ops)
  {
    var b := BehindAfter(ops, n);
    BehindArrived(ops, n);
    FeedIsLatest(ops, n);
    assert b.shown <= All(b) && b.seen <= All(b);
    LatestAre(n, b.shown);
    LatestAre(n, b.seen);
  }

  lemma ResumeIsLatest(n: nat, feed: Feed, all: set<Event>)
    requires n >= 1 && Consistent(all) && feed.paused && SetOf(feed.live) + SetOf(feed.rendered) <= all
    ensures Step(feed, Toggle, n).live == Latest(n, all) <==>
      SetOf(Latest(n, all)) <= SetOf(feed.live) + SetOf(feed.rendered)
  {
    LatestWithin(n, all, SetOf(feed.live) + SetOf(feed.rendered));
    MergedIsLatest(AsItems(feed.live), AsItems(feed.rendered), n);
  }

  /** The latest of a part are the latest of the whole exactly if the part has them. */
  lemma LatestWithin(n: nat, all: set<Event>, part: set<Event>)
    requires n >= 1 && Consistent(all) && part <= all
    ensures Latest(n, part) == Latest(n, all) <==> SetOf(Latest(n, all)) <= part
  {
    var top := SetOf(Latest(n, all));
    LatestAre(n, all);
    LatestAre(n, part);
    if top <= part {
      SubsetSize(top, part);
      SubsetSize(part, all);
      assert AreLatest(top, n, part);
      SameLatest(n, Latest(n, all), part);
    }
  }

  /** A pause that is left right after a rendering loses nothing. */
  lemma PausingLosesNothing(ops: seq<Op>, n: nat)
    requires n >= 1 && Consistent(Arrived(ops)) && Prompt(ops, n) && After(ops, n).paused
    ensures After(ops + [Render, Toggle], n).live == Latest(n, Arrived(ops))
  {
    var rendered, resumed := ops + [Render], ops + [Render, Toggle];
    assert rendered[..|rendered| - 1] == ops;
    assert resumed[..|resumed| - 1] == rendered;
    assert Arrived(resumed) == Arrived(ops) by {
      assert forall op :: op in resumed && op.Arrive? <==> op in ops && op.Arrive?;
    }
    LiveShowsLatest(resumed, n);
  }

  /** One that is not may: an event that arrives after the last rendering is not in the list when the
      pause is left, whether or not it is among the latest. */
  lemma LateEventIsLost(ops: seq<Op>, e: Event, n: nat)
    requires n >= 1 && Consistent(Arrived(ops)) && After(ops, n).paused
    requires e !in After(ops, n).live && e !in After(ops, n).rendered
    ensures e !in After(ops + [Arrive(e)] + [Toggle], n).live
  {
    var feed := After(ops, n);
    OneMoreOp(ops, Arrive(e), n);
    OneMoreOp(ops + [Arrive(e)], Toggle, n);
    ListsArrived(ops, n);
    assert e !in SetOf(feed.live) + SetOf(feed.rendered);
    ResumeShowsLists(n, Step(feed, Arrive(e), n), Arrived(ops), e);
  }

  /** Leaving a pause shows nothing but what the two lists had. */
  lemma ResumeShowsLists(n: nat, feed: Feed, all: set<Event>, e: Event)
    requires n >= 1 && Consistent(all) && feed.paused && SetOf(feed.live) + SetOf(feed.rendered) <= all
    requires e !in SetOf(feed.live) + SetOf(feed.rendered)
    ensures e !in Step(feed, Toggle, n).live
  {
    var lists := SetOf(feed.live) + SetOf(feed.rendered);
    MergedIsLatest(AsItems(feed.live), AsItems(feed.rendered), n);
    LatestAre(n, lists);
    assert e !in SetOf(Latest(n, lists));
  }

  /** It happens on an empty page: the first event of a pause, before the page is rendered again. */
  lemma FirstEventIsLost(e: Event, n: nat)
    requires n >= 1
    ensures e !in After([Toggle] + [Arrive(e)] + [Toggle], n).live
  {
    assert [Toggle][..0] == [] && After([Toggle], n) == Feed(true, [], [], []);
    LateEventIsLost([Toggle], e, n);
  }

  /** The page's state and its callbacks. */
  class ActivityFeed {
    const limit: nat
    var paused: bool
    var live: seq<Event>
    var buffered: seq<Event>
    var rendered: seq<Event>

    constructor (limit: nat)
      ensures View() == Feed(false, [], [], []) && this.limit == limit
    {
      this.limit := limit;
      paused, live, buffered, rendered := false, [], [], [];
    }

    function View(): Feed
      reads this
    {
      Feed(paused, live, buffered, rendered)
    }

    method OnEvent(event: Event)
      modifies this`live, this`buffered
      ensures View() == Step(old(View()), Arrive(event), limit)
    {
      if paused {
        buffered := MergeEvents(AsItems(buffered), [event], Some(limit));
        return;
      }
      live := MergeEvents(AsItems(live), [event], Some(limit));
    }

    /** A rendering makes a new callback, which keeps the buffer of that moment. */
    method OnRender()
      modifies this`rendered
      ensures View() == Step(old(View()), Render, limit)
    {
      rendered := buffered;
    }

    method TogglePause()
      modifies this`paused, this`live, this`buffered
      ensures View() == Step(old(View()), Toggle, limit)
    {
      if paused {
        live := MergeEvents(AsItems(live), AsItems(rendered), Some(limit));
        buffered := [];
      }
      paused := !paused;
    }
  }
}
