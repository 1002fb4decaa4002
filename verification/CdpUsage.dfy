/** What the summary of an attempt says of each method, told by the commands that were handed over and
    answered: over every run. */
module CdpUsage {
  import opened Common
  import opened Usage
  import opened CdpAccounting

  // ---- Which command a reply is for, and which row it goes to ------------------------------------

  /** The reply names this command by session and number; or it names no session, no command without one
      has its number, and this is the only command that has it. */
  predicate Answers(keys: set<Key>, session: Option<Id>, id: int, key: Key) {
    && key in keys && key.id == id
    && (|| key.session == session
        || (session.None? && Key(None, id) !in keys
            && forall other :: other in keys && other.id == id ==> other == key))
  }

  lemma ReplyFinds(keys: set<Key>, session: Option<Id>, id: int, key: Key)
    ensures Resolved(keys, session, id) == Some(key) <==> Answers(keys, session, id, key)
  {
    if Key(session, id) !in keys && session.None? && key in keys && key.id == id {
      assert key in Matches(keys, id);
      if Resolved(keys, session, id) == Some(key) {
        forall other | other in keys && other.id == id ensures other == key {
          assert other in Matches(keys, id);
          OnlyMatch(keys, id, other, key);
        }
      }
      if Answers(keys, session, id, key) {
        assert Matches(keys, id) == {key};
      }
    }
  }

  /** Forwarding stamps a pending command with the time it is forwarded, and only that. */
  lemma ForwardingStamps(o: Observer, key: Key, at: int)
    ensures var after := Forwarded(o, key, at);
            if key !in o.pending then after == o
            else
              && after.pending == o.pending[key := Pending(o.pending[key].name, o.pending[key].startedAt, Some(at))]
              && after.phaseKeys == o.phaseKeys + {key} && after.methods == o.methods
              && after.phase.activeCount == o.phase.activeCount + if key in o.phaseKeys then 0 else 1
  {
  }

  /** What each step ends: a reply the command it answers, if there is one, an interruption the command it
      names, and the handing over of a command none. */
  lemma StepEnds(w: World, op: Op, key: Key)
    ensures Ends(w, op) == Some(key) <==>
      || (op.Reply? && Answers(w.o.pending.Keys, op.session, op.id, key))
      || (op.Interrupt? && Answers(w.o.pending.Keys, op.key.session, op.key.id, key))
  {
    if op.Reply? {
      ReplyFinds(w.o.pending.Keys, op.session, op.id, key);
    } else if op.Interrupt? {
      ReplyFinds(w.o.pending.Keys, op.key.session, op.key.id, key);
    }
  }

  /** A method has the row of its name, up to 128 characters, if it has one already or fewer than 255 rows
      are there; otherwise it shares one. */
  predicate RowFor(methods: map<string, MethodUsage>, name: string, row: string) {
    var own := if |name| <= 128 then name else name[..128];
    row == if own in methods || |methods| < 255 then own else "__other__"
  }

  /** The step ends this command, and its figures go to this row. */
  ghost predicate EndsUnder(w: World, op: Op, key: Key, row: string) {
    Ends(w, op) == Some(key) && key in w.o.pending && RowFor(w.o.methods, w.o.pending[key].name, row)
  }

  // ---- The commands of a run ---------------------------------------------------------------------

  /** The last of the first n operations that handed over a command of this key. */
  function Latest(ops: seq<Op>, n: nat, key: Key): (i: Option<nat>)
    requires n <= |ops|
    ensures i.Some? ==> i.value < n && ops[i.value].Command? && ops[i.value].key == key
    ensures i.Some? ==> forall j :: i.value < j < n ==> !(ops[j].Command? && ops[j].key == key)
    ensures i.None? ==> forall j :: 0 <= j < n ==> !(ops[j].Command? && ops[j].key == key)
  {
    if n == 0 then None
    else if ops[n - 1].Command? && ops[n - 1].key == key then Some(n - 1)
    else Latest(ops, n - 1, key)
  }

  /** The observer keeps the name and the times of the operation that handed the command over. */
  predicate KeptFrom(w: World, key: Key, op: Op) {
    && op.Command? && key in w.o.pending && w.o.pending[key] == Pending(op.name, op.received, Some(op.forwarded))
  }

  lemma PendingStep(w: World, op: Op, key: Key)
    requires Paired(w) && Enabled(w, op) && key in Step(w, op).o.pending
    ensures if op.Command? && op.key == key then KeptFrom(Step(w, op), key, op)
            else key in w.o.pending && Step(w, op).o.pending[key] == w.o.pending[key]
  {
    if !op.Command? && Ends(w, op).Some? {
      EndIs(w, op, Ends(w, op).value);
    }
  }

  /** What is pending is the last command that was handed over under its key. */
  lemma {:induction false} PendingIsLatest(states: seq<World>, ops: seq<Op>, n: nat, key: Key)
    requires IsRun(states, ops) && n < |states| && key in states[n].o.pending
    ensures Latest(ops, n, key).Some? && KeptFrom(states[n], key, ops[Latest(ops, n, key).value])
  {
    RunOk(states, ops, n - 1);
    assert Enabled(states[n - 1], ops[n - 1]);
    PendingStep(states[n - 1], ops[n - 1], key);
    if !(ops[n - 1].Command? && ops[n - 1].key == key) {
      PendingIsLatest(states, ops, n - 1, key);
    }
  }

  // ---- The sums of a row -------------------------------------------------------------------------

  datatype Measure = Duration | Latency | Queue

  /** From receipt to end; from forwarding to end; from receipt to forwarding. */
  function Microseconds(command: Op, m: Measure, end: int): int
    requires command.Command?
  {
    match m
    case Duration => end - command.received
    case Latency => end - command.forwarded
    case Queue => command.forwarded - command.received
  }

  function Recording(usage: MethodUsage, m: Measure): int {
    match m
    case Duration => usage.duration
    case Latency => usage.latency
    case Queue => usage.queue
  }

  /** How many commands the first n operations ended under this row, of one kind. */
  ghost function EndedUnder(states: seq<World>, ops: seq<Op>, n: nat, row: string, c: Counter): nat
    requires n <= |states| && n <= |ops|
  {
    if n == 0 then 0
    else
      var ended := Ends(states[n - 1], ops[n - 1]);
      EndedUnder(states, ops, n - 1, row, c)
      + if ended.Some? && EndsUnder(states[n - 1], ops[n - 1], ended.value, row)
           && Counting(OutcomeOf(ops[n - 1]), c) then 1 else 0
  }

  /** The exact time they took. */
  ghost function TookUnder(states: seq<World>, ops: seq<Op>, n: nat, row: string, m: Measure): int
    requires n <= |states| && n <= |ops|
  {
    if n == 0 then 0
    else
      var ended := Ends(states[n - 1], ops[n - 1]);
      TookUnder(states, ops, n - 1, row, m)
      + if ended.Some? && EndsUnder(states[n - 1], ops[n - 1], ended.value, row) then
          var handed := Latest(ops, n - 1, ended.value);
          if handed.Some? then Microseconds(ops[handed.value], m, Time(ops[n - 1])) else 0
        else 0
  }

  function Row(methods: map<string, MethodUsage>, row: string): MethodUsage {
    if row in methods then methods[row] else MethodUsage(0, 0, 0, 0, 0, 0)
  }

  predicate Near(ms: int, micros: int, commands: int) {
    -500 * commands <= 1000 * ms - micros <= 500 * commands
  }

  lemma NearAdds(a: int, x: int, n: int, b: int, y: int, m: int)
    requires Near(a, x, n) && Near(b, y, m)
    ensures Near(a + b, x + y, n + m)
  {
  }

  /** What recording a command adds to a row. */
  predicate Adds(before: MethodUsage, after: MethodUsage, p: Pending, outcome: Outcome, at: int) {
    && p.forwardedAt.Some?
    && after.count == before.count + 1
    && after.failed == before.failed + (if outcome.Failed? then 1 else 0)
    && after.interrupted == before.interrupted + (if outcome.Interrupted? then 1 else 0)
    && Near(after.duration - before.duration, at - p.startedAt, 1)
    && Near(after.latency - before.latency, at - p.forwardedAt.value, 1)
    && Near(after.queue - before.queue, p.forwardedAt.value - p.startedAt, 1)
  }

  lemma TimesAreNear(p: Pending, outcome: Outcome, at: int)
    requires p.forwardedAt.Some?
    ensures var more := WithOutcome(TimesOf(p, at), outcome);
            && more.count == 1 && more.failed == (if outcome.Failed? then 1 else 0)
            && more.interrupted == (if outcome.Interrupted? then 1 else 0)
            && Near(more.duration, at - p.startedAt, 1)
            && Near(more.latency, at - p.forwardedAt.value, 1)
            && Near(more.queue, p.forwardedAt.value - p.startedAt, 1)
  {
    TimesAddUp(p, at);
  }

  lemma RecordedAdds(methods: map<string, MethodUsage>, p: Pending, outcome: Outcome, at: int, row: string)
    requires p.forwardedAt.Some?
    ensures var after := Recorded(methods, p, outcome, at);
            if RowFor(methods, p.name, row) then Adds(Row(methods, row), Row(after, row), p, outcome, at)
            else Row(after, row) == Row(methods, row)
  {
    TimesAreNear(p, outcome, at);
  }

  /** One ended command adds itself to its row, by count, outcome and time, and to no other. */
  lemma EndAdds(w: World, op: Op, key: Key, row: string)
    requires Ends(w, op) == Some(key) && key in w.o.pending && w.o.pending[key].forwardedAt.Some?
    ensures var before, after := Row(w.o.methods, row), Row(Step(w, op).o.methods, row);
            if EndsUnder(w, op, key, row) then Adds(before, after, w.o.pending[key], OutcomeOf(op), Time(op))
            else after == before
  {
    RecordedAdds(w.o.methods, w.o.pending[key], OutcomeOf(op), Time(op), row);
    EndRecords(w, op, key);
  }

  lemma EndRecords(w: World, op: Op, key: Key)
    requires Ends(w, op) == Some(key) && key in w.o.pending
    ensures Step(w, op).o.methods == Recorded(w.o.methods, w.o.pending[key], OutcomeOf(op), Time(op))
  {
  }

  lemma NothingAdds(w: World, op: Op)
    requires Ends(w, op).None?
    ensures Step(w, op).o.methods == w.o.methods
  {
  }

  /** The row tells of so many commands that took so long. */
  ghost predicate Tells(usage: MethodUsage, states: seq<World>, ops: seq<Op>, n: nat, row: string)
    requires n <= |states| && n <= |ops|
  {
    && (forall c :: Value(usage, c) == EndedUnder(states, ops, n, row, c))
    && (forall m :: Near(Recording(usage, m), TookUnder(states, ops, n, row, m), usage.count))
  }

  lemma TellsMore(states: seq<World>, ops: seq<Op>, n: nat, row: string)
    requires IsRun(states, ops) && n < |ops| && Tells(Row(states[n].o.methods, row), states, ops, n, row)
    ensures Tells(Row(states[n + 1].o.methods, row), states, ops, n + 1, row)
  {
    assert states[n + 1] == Step(states[n], ops[n]);
    if Ends(states[n], ops[n]).None? {
      NothingAdds(states[n], ops[n]);
    } else {
      var key := Ends(states[n], ops[n]).value;
      EndedIsPending(states[n], ops[n], key);
      PendingIsLatest(states, ops, n, key);
      EndAdds(states[n], ops[n], key, row);
      if EndsUnder(states[n], ops[n], key, row) {
        OneMoreTold(states, ops, n, row, key);
      }
    }
  }

  lemma TookMore(states: seq<World>, ops: seq<Op>, n: nat, row: string, key: Key, m: Measure)
    requires n < |ops| && n < |states| && EndsUnder(states[n], ops[n], key, row) && Latest(ops, n, key).Some?
    ensures TookUnder(states, ops, n + 1, row, m)
         == TookUnder(states, ops, n, row, m) + Microseconds(ops[Latest(ops, n, key).value], m, Time(ops[n]))
  {
  }

  lemma EndedMore(states: seq<World>, ops: seq<Op>, n: nat, row: string, key: Key, c: Counter)
    requires n < |ops| && n < |states| && EndsUnder(states[n], ops[n], key, row)
    ensures EndedUnder(states, ops, n + 1, row, c)
         == EndedUnder(states, ops, n, row, c) + if Counting(OutcomeOf(ops[n]), c) then 1 else 0
  {
  }

  lemma MeasureAdds(before: MethodUsage, after: MethodUsage, p: Pending, outcome: Outcome, at: int,
                    command: Op, m: Measure, took: int)
    requires Adds(before, after, p, outcome, at) && command.Command?
    requires p == Pending(command.name, command.received, Some(command.forwarded))
    requires Near(Recording(before, m), took, before.count)
    ensures Near(Recording(after, m), took + Microseconds(command, m, at), after.count)
  {
    NearAdds(Recording(before, m), took, before.count,
             Recording(after, m) - Recording(before, m), Microseconds(command, m, at), 1);
  }

  lemma OneMoreTold(states: seq<World>, ops: seq<Op>, n: nat, row: string, key: Key)
    requires n + 1 < |states| && n < |ops| && Tells(Row(states[n].o.methods, row), states, ops, n, row)
    requires Latest(ops, n, key).Some? && KeptFrom(states[n], key, ops[Latest(ops, n, key).value])
    requires EndsUnder(states[n], ops[n], key, row)
    requires Adds(Row(states[n].o.methods, row), Row(states[n + 1].o.methods, row), states[n].o.pending[key],
                  OutcomeOf(ops[n]), Time(ops[n]))
    ensures Tells(Row(states[n + 1].o.methods, row), states, ops, n + 1, row)
  {
    var before, after := Row(states[n].o.methods, row), Row(states[n + 1].o.methods, row);
    forall c
      ensures Value(after, c) == EndedUnder(states, ops, n + 1, row, c)
    {
      EndedMore(states, ops, n, row, key, c);
    }
    forall m
      ensures Near(Recording(after, m), TookUnder(states, ops, n + 1, row, m), after.count)
    {
      TookMore(states, ops, n, row, key, m);
      MeasureAdds(before, after, states[n].o.pending[key], OutcomeOf(ops[n]), Time(ops[n]),
                  ops[Latest(ops, n, key).value], m, TookUnder(states, ops, n, row, m));
    }
  }

  lemma EndedIsPending(w: World, op: Op, key: Key)
    requires Ends(w, op) == Some(key)
    ensures key in w.o.pending
  {
  }

  lemma NothingToTell(states: seq<World>, ops: seq<Op>, row: string)
    requires |states| > 0 && states[0] == Beginning(states[0].clock)
    ensures Tells(Row(states[0].o.methods, row), states, ops, 0, row)
  {
    assert Row(states[0].o.methods, row) == MethodUsage(0, 0, 0, 0, 0, 0);
  }

  ghost predicate ToldAt(states: seq<World>, ops: seq<Op>, n: nat, row: string)
    requires n < |states| && n <= |ops|
  {
    Tells(Row(states[n].o.methods, row), states, ops, n, row)
  }

  ghost predicate Carries(states: seq<World>, ops: seq<Op>, n: nat, row: string)
    requires n + 1 < |states| && n < |ops|
  {
    ToldAt(states, ops, n, row) ==> ToldAt(states, ops, n + 1, row)
  }

  lemma StepCarries(states: seq<World>, ops: seq<Op>, n: nat, row: string)
    requires IsRun(states, ops) && n < |ops|
    ensures Carries(states, ops, n, row)
  {
    if ToldAt(states, ops, n, row) {
      TellsMore(states, ops, n, row);
    }
  }

  lemma {:induction false} CarriedOn(states: seq<World>, ops: seq<Op>, n: nat, row: string)
    requires n < |states| == |ops| + 1 && ToldAt(states, ops, 0, row)
    requires forall k :: 0 <= k < n ==> Carries(states, ops, k, row)
    ensures ToldAt(states, ops, n, row)
  {
    if n > 0 {
      CarriedOn(states, ops, n - 1, row);
      assert Carries(states, ops, n - 1, row);
    }
  }

  /** Over every run each row counts the commands that ended under it, by outcome; and its sums are, to half a
      millisecond a command, the times from the receipt of those commands to their end, from their
      forwarding to their end, and from their receipt to their forwarding. */
  lemma RowsTellTheRun(states: seq<World>, ops: seq<Op>, n: nat, row: string)
    requires IsRun(states, ops) && n < |states|
    ensures Tells(Row(states[n].o.methods, row), states, ops, n, row)
  {
    NothingToTell(states, ops, row);
    forall k | 0 <= k < n ensures Carries(states, ops, k, row) {
      StepCarries(states, ops, k, row);
    }
    CarriedOn(states, ops, n, row);
  }

  // ---- The marks of a snapshot -------------------------------------------------------------------

  ghost predicate NoneBefore(w: World) {
    forall t :: t in CdpAccounting.Begins(w) ==> w.o.phase.startedAt <= t
  }

  lemma StepNoneBefore(w: World, op: Op)
    requires Paired(w) && Enabled(w, op) && NoneBefore(w)
    ensures NoneBefore(Step(w, op)) && Step(w, op).o.phase.startedAt == w.o.phase.startedAt
  {
    if op.Command? {
      CommandBegins(w, op);
    } else if Ends(w, op).Some? {
      EndBegins(w, op, Ends(w, op).value);
      EndIs(w, op, Ends(w, op).value);
    } else {
      assert Step(w, op).flights == w.flights && Step(w, op).since == w.since;
      assert CdpAccounting.Begins(Step(w, op)) == CdpAccounting.Begins(w);
    }
  }

  lemma {:induction false} NoneBeforeInRun(states: seq<World>, ops: seq<Op>, n: nat)
    requires IsRun(states, ops) && n < |states|
    ensures NoneBefore(states[n])
  {
    if n > 0 {
      NoneBeforeInRun(states, ops, n - 1);
      RunOk(states, ops, n - 1);
      assert Enabled(states[n - 1], ops[n - 1]);
      StepNoneBefore(states[n - 1], ops[n - 1]);
    }
  }

  /** A snapshot tells, to half a millisecond, how long the attempt waited for its first command, once one
      was forwarded, and how long ago the last one ended, once one did. */
  lemma SnapshotTellsTheEdges(states: seq<World>, ops: seq<Op>, n: nat, now: int)
    requires IsRun(states, ops) && n < |states| && states[n].clock <= now
    ensures var w, s := states[n], SnapshotOf(states[n].o.phase, now);
            && (s.preFirst.None? <==> CdpAccounting.Begins(w) == {})
            && (s.postLast.None? <==> Finishes(w) == {})
            && (s.preFirst.Some? ==>
                  exists first :: first in CdpAccounting.Begins(w)
                    && (forall t :: t in CdpAccounting.Begins(w) ==> first <= t)
                    && Nearest(s.preFirst.value, first - w.o.phase.startedAt))
            && (s.postLast.Some? ==>
                  exists last :: last in Finishes(w) && (forall t :: t in Finishes(w) ==> t <= last)
                    && Nearest(s.postLast.value, now - last))
  {
    RunEdges(states, ops, n);
    NoneBeforeInRun(states, ops, n);
    var phase := states[n].o.phase;
    if phase.firstCommandAt.Some? {
      RoundedToNearest(phase.firstCommandAt.value - phase.startedAt);
    }
    if phase.lastCommandAt.Some? {
      RoundedToNearest(now - phase.lastCommandAt.value);
    }
  }
}
