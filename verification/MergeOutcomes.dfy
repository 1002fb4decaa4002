/** What a merge of activity events shows, told by the entries it was given and their own members. */
module MergeOutcomes {
  import opened Common
  import opened ActivityMerge

  /** The entry has an id, a type and a time, and no later entry of its id has. */
  predicate LastOfItsId(items: seq<Item>, k: nat) {
    && k < |items|
    && items[k].id.Some? && items[k].eventType.Some? && items[k].occurredAt.Some?
    && forall j :: k < j < |items| && items[j].id == items[k].id ==>
         items[j].eventType.None? || items[j].occurredAt.None?
  }

  /** Earlier in time, or at the same time with a smaller id. */
  predicate Earlier(a: Item, b: Item) {
    && a.occurredAt.Some? && b.occurredAt.Some? && a.id.Some? && b.id.Some?
    && (a.occurredAt.value < b.occurredAt.value
        || (a.occurredAt.value == b.occurredAt.value && a.id.value < b.id.value))
  }

  lemma {:induction false} LastEntryWins(items: seq<Item>, k: nat)
    requires LastOfItsId(items, k)
    ensures items[k].id.value in PutAll(map[], items) && PutAll(map[], items)[items[k].id.value] == items[k]
  {
    var rest := items[..|items| - 1];
    if k < |rest| {
      assert LastOfItsId(rest, k);
      LastEntryWins(rest, k);
    }
  }

  lemma {:induction false} EveryEntryIsLast(items: seq<Item>, id: nat) returns (k: nat)
    requires id in PutAll(map[], items)
    ensures LastOfItsId(items, k) && items[k].id == Some(id)
  {
    var rest, last := items[..|items| - 1], items[|items| - 1];
    if last.id == Some(id) && last.eventType.Some? && last.occurredAt.Some? {
      k := |items| - 1;
    } else {
      k := EveryEntryIsLast(rest, id);
      assert items[k] == rest[k];
    }
  }

  ghost predicate Shows(items: seq<Item>, e: Item) {
    exists k: nat :: LastOfItsId(items, k) && items[k] == e
  }

  lemma ValuesAreLast(items: seq<Item>, e: Event)
    ensures e in PutAll(map[], items).Values <==> Shows(items, e)
  {
    if k: nat :| LastOfItsId(items, k) && items[k] == e {
      LastEntryWins(items, k);
    }
    if e in PutAll(map[], items).Values {
      var id :| id in PutAll(map[], items) && PutAll(map[], items)[id] == e;
      var k := EveryEntryIsLast(items, id);
      LastEntryWins(items, k);
    }
  }

  /** A merge without a limit shows the last entry of each id, from the current list or the incoming one, and
      no other; and it shows them by time, and at one time by id. */
  lemma MergeShowsLastEntries(current: seq<Item>, incoming: seq<Item>)
    ensures var all := Merged(current, incoming, None);
            && (forall e :: e in all <==> Shows(current + incoming, e))
            && (forall i, j :: 0 <= i < j < |all| ==> Earlier(all[i], all[j]))
  {
    var items := current + incoming;
    var values, all := PutAll(map[], items).Values, Merged(current, incoming, None);
    KeyedById(items);
    OrderedSorts(values);
    forall e
      ensures e in all <==> Shows(items, e)
    {
      if e in all {
        assert e in SetOf(all);
        ValuesAreLast(items, e);
      }
      if Shows(items, e) {
        ValuesAreLast(items, e);
        assert e in SetOf(all);
      }
    }
  }

  /** A limit keeps the last so many of them: all of them if there are no more or the limit is zero, and
      without the first so many if it is negative. */
  lemma LimitKeepsTheLast(current: seq<Item>, incoming: seq<Item>, limit: int)
    ensures var all, some := Merged(current, incoming, None), Merged(current, incoming, Some(limit));
            && (limit == 0 || limit >= |all| ==> some == all)
            && (0 < limit < |all| ==> |some| == limit && some == all[|all| - limit..])
            && (limit < 0 && -limit <= |all| ==> some == all[-limit..])
            && (limit < 0 && -limit > |all| ==> some == [])
  {
  }
}
