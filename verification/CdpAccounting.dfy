/** Accounting of the commands one attempt has in flight: how long any was, and what each cost in time. */
module CdpAccounting {
  import opened Common
  import opened Usage
  import Costs

  type Id = nat

  /** A command is named by its number and, if it has one, its target session. */
  datatype Key = Key(session: Option<Id>, id: int)

  /** Times are whole microseconds of one clock. */
  datatype Pending = Pending(name: string, startedAt: int, forwardedAt: Option<int>)

  datatype Phase = Phase(
    startedAt: int, firstCommandAt: Option<int>, lastCommandAt: Option<int>,
    activeStartedAt: Option<int>, activeCount: int, activeTime: int)

  datatype MethodUsage = MethodUsage(
    count: int, failed: int, interrupted: int, duration: int, latency: int, queue: int)

  datatype Outcome = Succeeded | Failed | Interrupted

  datatype Observer = Observer(
    pending: map<Key, Pending>, phaseKeys: set<Key>, phase: Phase, methods: map<string, MethodUsage>)

  const METHOD_LIMIT := 256
  const NAME_LENGTH := 128
  const OTHER := "__other__"

  // ---- One command --------------------------------------------------------------------------------------

  function Started(phase: Phase, at: int): Phase {
    phase.(firstCommandAt := if phase.firstCommandAt.None? then Some(at) else phase.firstCommandAt,
           activeStartedAt := if phase.activeCount == 0 then Some(at) else phase.activeStartedAt,
           activeCount := phase.activeCount + 1)
  }

  function Stopped(phase: Phase, at: int): Phase {
    if phase.activeCount <= 0 then phase
    else
      var less := phase.(activeCount := phase.activeCount - 1, lastCommandAt := Some(at));
      if less.activeCount == 0 && phase.activeStartedAt.Some? then
        less.(activeTime := phase.activeTime + Max(0, at - phase.activeStartedAt.value), activeStartedAt := None)
      else less
  }

  function Received(o: Observer, key: Key, name: string, at: int): Observer {
    o.(pending := o.pending[key := Pending(name, at, None)])
  }

  function Forwarded(o: Observer, key: Key, at: int): Observer {
    if key !in o.pending then o
    else
      var p := o.(pending := o.pending[key := o.pending[key].(forwardedAt := Some(at))]);
      if key in o.phaseKeys then p
      else p.(phase := Started(o.phase, at), phaseKeys := o.phaseKeys + {key})
  }

  function Matches(keys: set<Key>, id: int): set<Key> {
    set key | key in keys && key.id == id
  }

  /** The command a reply is for: the one it names, or, when it names no session, the only one with
      its number. */
  ghost function Resolved(keys: set<Key>, session: Option<Id>, id: int): (r: Option<Key>)
    ensures r.Some? ==> r.value in keys && r.value.id == id
  {
    if Key(session, id) in keys then Some(Key(session, id))
    else if session.None? && |Matches(keys, id)| == 1 then
      var key :| key in Matches(keys, id);
      Some(key)
    else None
  }

  function RetainedName(methods: map<string, MethodUsage>, name: string): string {
    var short := if |name| <= NAME_LENGTH then name else name[..NAME_LENGTH];
    if short !in methods && |methods| >= METHOD_LIMIT - 1 then OTHER else short
  }

  function TimesOf(p: Pending, at: int): MethodUsage {
    MethodUsage(1, 0, 0, RoundMs(at - p.startedAt),
                if p.forwardedAt.Some? then RoundMs(at - p.forwardedAt.value) else 0,
                if p.forwardedAt.Some? then RoundMs(p.forwardedAt.value - p.startedAt) else 0)
  }

  function WithOutcome(usage: MethodUsage, outcome: Outcome): MethodUsage {
    match outcome
    case Succeeded => usage
    case Failed => usage.(failed := 1)
    case Interrupted => usage.(interrupted := 1)
  }

  function Plus(a: MethodUsage, b: MethodUsage): MethodUsage {
    MethodUsage(a.count + b.count, a.failed + b.failed, a.interrupted + b.interrupted,
                a.duration + b.duration, a.latency + b.latency, a.queue + b.queue)
  }

  function Recorded(methods: map<string, MethodUsage>, p: Pending, outcome: Outcome, at: int)
    : map<string, MethodUsage>
  {
    var name, more := RetainedName(methods, p.name), WithOutcome(TimesOf(p, at), outcome);
    methods[name := if name in methods then Plus(methods[name], more) else more]
  }

  ghost function Finished(o: Observer, session: Option<Id>, id: int, outcome: Outcome, at: int): Observer {
    var key := Resolved(o.pending.Keys, session, id);
    if key.None? then o
    else
      var counted := Resolved(o.phaseKeys, session, id);
      Observer(
        o.pending - {key.value},
        if counted.Some? then o.phaseKeys - {counted.value} else o.phaseKeys,
        if counted.Some? then Stopped(o.phase, at) else o.phase,
        Recorded(o.methods, o.pending[key.value], outcome, at))
  }

  function ActiveTime(phase: Phase, at: int): int {
    phase.activeTime
      + if phase.activeCount != 0 && phase.activeStartedAt.Some? then Max(0, at - phase.activeStartedAt.value) else 0
  }

  datatype Snapshot = Snapshot(observed: int, active: int, idle: int, preFirst: Option<int>, postLast: Option<int>)

  function SnapshotOf(phase: Phase, at: int): Snapshot {
    var observed := Max(0, RoundMs(at - phase.startedAt));
    var active := Min(observed, Max(0, RoundMs(ActiveTime(phase, at))));
    Snapshot(observed, active, Max(0, observed - active),
      if phase.firstCommandAt.Some? then Some(Max(0, RoundMs(phase.firstCommandAt.value - phase.startedAt))) else None,
      if phase.lastCommandAt.Some? then Some(Max(0, RoundMs(at - phase.lastCommandAt.value))) else None)
  }

  // ---- A reply and the two maps -------------------------------------------------------------------------

  lemma OnlyMatch(keys: set<Key>, id: int, a: Key, b: Key)
    requires |Matches(keys, id)| == 1 && a in Matches(keys, id) && b in Matches(keys, id)
    ensures a == b
  {
    if a != b {
      SubsetSize({a, b}, Matches(keys, id));
    }
  }

  /** The reply names a command that is not counted, while exactly one counted command has its number. */
  predicate Mistaken(o: Observer, session: Option<Id>, id: int) {
    && session.None? && Key(None, id) in o.pending && Key(None, id) !in o.phaseKeys
    && |Matches(o.phaseKeys, id)| == 1
  }

  /** Exactly when a reply stops counting the command it finishes and no other: always, but for a
      command that was received and not yet forwarded. */
  lemma FinishCountsTheSame(o: Observer, session: Option<Id>, id: int, outcome: Outcome, at: int)
    requires o.phaseKeys <= o.pending.Keys
    requires Resolved(o.pending.Keys, session, id).Some?
    ensures Finished(o, session, id, outcome, at).phaseKeys
              == o.phaseKeys - {Resolved(o.pending.Keys, session, id).value}
            <==> !Mistaken(o, session, id)
  {
    var key := Resolved(o.pending.Keys, session, id).value;
    var counted := Resolved(o.phaseKeys, session, id);
    if Mistaken(o, session, id) {
      assert counted.Some? && counted.value != key;
      assert counted.value in o.phaseKeys - {key};
    } else if Key(session, id) !in o.pending {
      assert Matches(o.phaseKeys, id) <= Matches(o.pending.Keys, id);
      if key in o.phaseKeys {
        assert Matches(o.phaseKeys, id) == {key} by {
          forall other | other in Matches(o.phaseKeys, id) ensures other == key {
            OnlyMatch(o.pending.Keys, id, other, key);
          }
        }
      } else if counted.Some? {
        OnlyMatch(o.pending.Keys, id, counted.value, key);
      }
    }
  }

  /** Such a reply exists once two commands share a number and one of them is not forwarded yet: the
      other one is then still in flight but no longer counted. */
  lemma UnforwardedReply(phase: Phase, s: Id, id: int, at: int)
    requires phase.activeCount == 0
    ensures var key := Key(Some(s), id);
      var first := Forwarded(Received(Observer(map[], {}, phase, map[]), key, "a", at), key, at);
      var o := Finished(Received(first, Key(None, id), "b", at), None, id, Succeeded, at);
      o.pending.Keys == {Key(Some(s), id)} && o.phaseKeys == {} && o.phase.activeCount == 0
  {
    var key := Key(Some(s), id);
    var first := Forwarded(Received(Observer(map[], {}, phase, map[]), key, "a", at), key, at);
    var both := Received(first, Key(None, id), "b", at);
    assert first.phaseKeys == {Key(Some(s), id)};
    assert Matches(both.phaseKeys, id) == {Key(Some(s), id)};
    assert both.pending.Keys == {Key(Some(s), id), Key(None, id)};
  }

  // ---- Runs ---------------------------------------------------------------------------------------------

  /** When one command was in flight. */
  datatype Flight = Flight(from: int, to: int)

  /** The observer, its clock, and beside it every flight there was and since when each open one lasts. */
  datatype World = World(o: Observer, clock: int, flights: seq<Flight>, since: map<Key, int>)

  /** The relay hands a command over and forwards it without an await in between; a reply is matched
      by session and number; the end of the session interrupts what is left, one after another. */
  datatype Op =
    | Command(key: Key, name: string, received: int, forwarded: int)
    | Reply(session: Option<Id>, id: int, failed: bool, at: int)
    | Interrupt(key: Key, at: int)

  predicate Enabled(w: World, op: Op) {
    match op
    case Command(_, _, received, forwarded) => w.clock <= received <= forwarded
    case Reply(_, _, _, at) => w.clock <= at
    case Interrupt(key, at) => w.clock <= at && key in w.o.pending
  }

  /** What one operation finishes. */
  ghost function Ends(w: World, op: Op): Option<Key> {
    match op
    case Command(_, _, _, _) => None
    case Reply(session, id, _, _) => Resolved(w.o.pending.Keys, session, id)
    case Interrupt(key, _) => Resolved(w.o.pending.Keys, key.session, key.id)
  }

  ghost function Apply(o: Observer, op: Op): Observer {
    match op
    case Command(key, name, received, forwarded) => Forwarded(Received(o, key, name, received), key, forwarded)
    case Reply(session, id, failed, at) => Finished(o, session, id, if failed then Failed else Succeeded, at)
    case Interrupt(key, at) => Finished(o, key.session, key.id, Interrupted, at)
  }

  function Time(op: Op): int {
    match op
    case Command(_, _, _, forwarded) => forwarded
    case Reply(_, _, _, at) => at
    case Interrupt(_, at) => at
  }

  ghost function Step(w: World, op: Op): World {
    var o, ended := Apply(w.o, op), Ends(w, op);
    if op.Command? then
      World(o, op.forwarded, w.flights, if op.key in w.since then w.since else w.since[op.key := op.forwarded])
    else if ended.Some? && ended.value in w.since then
      World(o, Time(op), w.flights + [Flight(w.since[ended.value], Time(op))], w.since - {ended.value})
    else World(o, Time(op), w.flights, w.since)
  }

  function Beginning(start: int): World {
    World(Observer(map[], {}, Phase(start, None, None, None, 0, 0), map[]), start, [], map[])
  }

  ghost predicate IsRun(states: seq<World>, ops: seq<Op>) {
    && |states| == |ops| + 1 && states[0] == Beginning(states[0].clock)
    && forall i {:trigger ops[i]} :: 0 <= i < |ops| ==>
         Enabled(states[i], ops[i]) && states[i + 1] == Step(states[i], ops[i])
  }

  /** The maps agree with each other, with the count, and with the flights. */
  predicate Paired(w: World) {
    && w.o.pending.Keys == w.o.phaseKeys == w.since.Keys
    && w.o.phase.activeCount == |w.o.phaseKeys|
    && (w.o.phase.activeStartedAt.Some? <==> w.o.phase.activeCount > 0)
    && w.o.phase.startedAt <= w.clock
    && (forall key :: key in w.o.pending ==>
          w.o.pending[key].forwardedAt.Some?
          && w.o.pending[key].startedAt <= w.o.pending[key].forwardedAt.value <= w.clock)
  }

  lemma ResolvedExact(keys: set<Key>, key: Key)
    requires key in keys
    ensures Resolved(keys, key.session, key.id) == Some(key)
  {
    assert Key(key.session, key.id) == key;
  }

  lemma CommandPairs(w: World, op: Op)
    requires Paired(w) && Enabled(w, op) && op.Command?
    ensures Paired(Step(w, op))
  {
    var r := Step(w, op);
    assert r.o.pending.Keys == w.o.pending.Keys + {op.key};
    assert r.o.phaseKeys == w.o.phaseKeys + {op.key};
    assert r.since.Keys == w.since.Keys + {op.key};
  }

  /** What a finish does once the two maps agree. */
  lemma EndIs(w: World, op: Op, key: Key)
    requires w.o.pending.Keys == w.o.phaseKeys && Ends(w, op) == Some(key)
    ensures var r := Step(w, op);
      && r.o.pending == w.o.pending - {key} && r.o.phaseKeys == w.o.phaseKeys - {key}
      && r.o.phase == Stopped(w.o.phase, Time(op)) && r.clock == Time(op)
  {
  }

  lemma EndPairs(w: World, op: Op, key: Key)
    requires Paired(w) && Enabled(w, op) && Ends(w, op) == Some(key)
    ensures Paired(Step(w, op))
  {
    EndIs(w, op, key);
    var r := Step(w, op);
    assert r.since == w.since - {key};
    assert r.o.pending.Keys == w.o.pending.Keys - {key};
    assert r.since.Keys == w.since.Keys - {key};
    assert |r.o.phaseKeys| == |w.o.phaseKeys| - 1;
    assert forall other :: other in r.o.pending ==> r.o.pending[other] == w.o.pending[other];
  }

  lemma StepPairs(w: World, op: Op)
    requires Paired(w) && Enabled(w, op)
    ensures Paired(Step(w, op))
  {
    if op.Command? {
      CommandPairs(w, op);
    } else if Ends(w, op).Some? {
      EndPairs(w, op, Ends(w, op).value);
    }
  }

  // ---- Active time --------------------------------------------------------------------------------------

  predicate InFlight(w: World, t: int) {
    || (exists f :: f in w.flights && f.from <= t < f.to)
    || (exists key :: key in w.since && w.since[key] <= t)
  }

  /** The microseconds up to now in which some command was in flight: the union of all flights. */
  ghost function Covered(w: World, now: int): set<int> {
    set t | w.o.phase.startedAt <= t < now && InFlight(w, t)
  }

  predicate Between(from: int, t: int, to: int) {
    from <= t < to
  }

  function Span(from: int, to: int): set<int> {
    set t | from <= t < to && Between(from, t, to)
  }

  lemma {:induction false} SpanLength(from: int, length: nat)
    ensures |Span(from, from + length)| == length
  {
    if length > 0 {
      SpanLength(from, length - 1);
      assert Span(from, from + length) == Span(from, from + length - 1) + {from + length - 1};
    } else {
      assert Span(from, from + length) == {};
    }
  }

  lemma SpanSize(from: int, to: int)
    requires from <= to
    ensures |Span(from, to)| == to - from
  {
    SpanLength(from, to - from);
  }

  /** Flights lie in the past, and open ones began there. */
  predicate FlightsOk(w: World) {
    && (forall f :: f in w.flights ==> f.to <= w.clock)
    && (forall key :: key in w.since ==> w.since[key] <= w.clock)
    && (w.o.phase.activeStartedAt.Some? ==> w.o.phase.activeStartedAt.value <= w.clock)
  }

  /** What the counter and the covered microseconds have in common. */
  ghost predicate Measured(w: World) {
    ActiveTime(w.o.phase, w.clock) == |Covered(w, w.clock)|
  }

  /** While time passes, the counter runs exactly when something is in flight. */
  lemma MeasuredLater(w: World, now: int)
    requires Paired(w) && FlightsOk(w) && Measured(w) && w.clock <= now
    ensures ActiveTime(w.o.phase, now) == |Covered(w, now)|
  {
    if w.o.phase.activeCount > 0 {
      NoneLeft(w.o.phaseKeys);
      var key :| key in w.since;
      assert Covered(w, now) == Covered(w, w.clock) + Span(w.clock, now);
      assert Covered(w, w.clock) !! Span(w.clock, now);
      SpanSize(w.clock, now);
    } else {
      NoneLeft(w.o.phaseKeys);
      assert Covered(w, now) == Covered(w, w.clock);
    }
  }

  /** An operation does not rewrite the past. */
  lemma CoveredStands(w: World, op: Op)
    requires Paired(w) && FlightsOk(w) && Enabled(w, op)
    ensures Covered(Step(w, op), Time(op)) == Covered(w, Time(op))
  {
    var r, now := Step(w, op), Time(op);
    assert r.o.phase.startedAt == w.o.phase.startedAt;
    forall t ensures t in Covered(r, now) <==> t in Covered(w, now) {
      if t < now {
        StandsAt(w, op, t);
      }
    }
  }

  lemma StandsAt(w: World, op: Op, t: int)
    requires Paired(w) && FlightsOk(w) && Enabled(w, op) && t < Time(op)
    ensures InFlight(Step(w, op), t) == InFlight(w, t)
  {
    if op.Command? || Ends(w, op).None? {
      if key :| key in w.since && w.since[key] <= t {
        assert Step(w, op).since[key] == w.since[key];
      }
    } else {
      var key := Ends(w, op).value;
      SinceAfterEnd(w, op, key);
      ClosedAt(w, Step(w, op), key, Time(op), t);
    }
  }

  lemma SinceAfterEnd(w: World, op: Op, key: Key)
    requires w.o.pending.Keys == w.since.Keys && Ends(w, op) == Some(key)
    ensures Step(w, op).since == w.since - {key}
    ensures Step(w, op).flights == w.flights + [Flight(w.since[key], Time(op))]
  {
  }

  /** Closing a flight leaves the time before it as it was. */
  lemma ClosedAt(w: World, r: World, key: Key, at: int, t: int)
    requires key in w.since && t < at
    requires r.since == w.since - {key} && r.flights == w.flights + [Flight(w.since[key], at)]
    ensures InFlight(r, t) == InFlight(w, t)
  {
    var closed := Flight(w.since[key], at);
    assert closed in r.flights;
    if other :| other in w.since && w.since[other] <= t {
      if other != key {
        assert r.since[other] == w.since[other];
      }
    } else if f :| f in r.flights && f.from <= t < f.to {
      assert f in w.flights;
    }
  }

  lemma StepMeasures(w: World, op: Op)
    requires Paired(w) && FlightsOk(w) && Measured(w) && Enabled(w, op)
    ensures FlightsOk(Step(w, op)) && Measured(Step(w, op))
  {
    CoveredStands(w, op);
    MeasuredLater(w, Time(op));
    StepPairs(w, op);
    ActiveStands(w, op);
    FlightsStand(w, op);
  }

  lemma FlightsStand(w: World, op: Op)
    requires Paired(w) && FlightsOk(w) && Enabled(w, op)
    ensures FlightsOk(Step(w, op)) && Step(w, op).clock == Time(op)
  {
    if !op.Command? && Ends(w, op).Some? {
      SinceAfterEnd(w, op, Ends(w, op).value);
      EndIs(w, op, Ends(w, op).value);
    }
  }

  /** At its own moment an operation changes how active time is kept, not how much there is. */
  lemma ActiveStands(w: World, op: Op)
    requires Paired(w) && FlightsOk(w) && Enabled(w, op)
    ensures ActiveTime(Step(w, op).o.phase, Time(op)) == ActiveTime(w.o.phase, Time(op))
  {
    if !op.Command? && Ends(w, op).Some? {
      EndIs(w, op, Ends(w, op).value);
    }
  }

  lemma {:induction false} RunOk(states: seq<World>, ops: seq<Op>, n: nat)
    requires IsRun(states, ops) && n < |states|
    ensures Paired(states[n]) && FlightsOk(states[n]) && Measured(states[n])
  {
    if n == 0 {
      assert Covered(states[0], states[0].clock) == {};
    } else {
      RunOk(states, ops, n - 1);
      assert Enabled(states[n - 1], ops[n - 1]);
      StepPairs(states[n - 1], ops[n - 1]);
      StepMeasures(states[n - 1], ops[n - 1]);
    }
  }

  /** At any moment of any run the time the sweep counter reports is the length of the union of all
      flights, and the maps hold exactly the commands in flight, as many as the counter says. */
  lemma ActiveTimeIsTheUnion(states: seq<World>, ops: seq<Op>, n: nat, now: int)
    requires IsRun(states, ops) && n < |states| && states[n].clock <= now
    ensures ActiveTime(states[n].o.phase, now) == |Covered(states[n], now)|
    ensures var w := states[n];
      w.o.pending.Keys == w.o.phaseKeys == w.since.Keys && w.o.phase.activeCount == |w.since|
  {
    RunOk(states, ops, n);
    MeasuredLater(states[n], now);
    assert |states[n].since.Keys| == |states[n].since|;
  }

  /** The clips of a snapshot never take effect: active and idle time add up to the observed time. */
  lemma SnapshotAddsUp(states: seq<World>, ops: seq<Op>, n: nat, now: int)
    requires IsRun(states, ops) && n < |states| && states[n].clock <= now
    ensures var s := SnapshotOf(states[n].o.phase, now);
      && s.active == RoundMs(|Covered(states[n], now)|)
      && s.active + s.idle == s.observed == RoundMs(now - states[n].o.phase.startedAt)
  {
    RunOk(states, ops, n);
    MeasuredLater(states[n], now);
    var start := states[n].o.phase.startedAt;
    SpanSize(start, now);
    SubsetSize(Covered(states[n], now), Span(start, now));
    RoundMsMonotone(|Covered(states[n], now)|, now - start);
    RoundMsMonotone(0, |Covered(states[n], now)|);
  }

  // ---- Before the first command and after the last ------------------------------------------------------

  function Begins(w: World): set<int> {
    (set f | f in w.flights :: f.from) + (set key | key in w.since :: w.since[key])
  }

  function Finishes(w: World): set<int> {
    set f | f in w.flights :: f.to
  }

  /** first is the least of the beginnings and last the greatest of the ends, if there are any; none of
      them is after now. */
  predicate Edges(first: Option<int>, last: Option<int>, begins: set<int>, ends: set<int>, now: int) {
    && (first.None? ==> begins == {})
    && (first.Some? ==> first.value in begins && forall t :: t in begins ==> first.value <= t <= now)
    && (last.None? ==> ends == {})
    && (last.Some? ==> last.value in ends && last.value <= now && forall t :: t in ends ==> t <= last.value)
  }

  /** The first command mark is the first beginning of a flight, the last one the last end. */
  predicate EdgesOk(w: World) {
    Edges(w.o.phase.firstCommandAt, w.o.phase.lastCommandAt, Begins(w), Finishes(w), w.clock)
  }

  lemma OneMoreBegin(first: Option<int>, last: Option<int>, begins: set<int>, ends: set<int>, now: int, at: int)
    requires Edges(first, last, begins, ends, now) && now <= at
    ensures Edges(if first.None? then Some(at) else first, last, begins + {at}, ends, at)
  {
  }

  lemma OneMoreFinish(first: Option<int>, last: Option<int>, begins: set<int>, ends: set<int>, now: int, at: int)
    requires Edges(first, last, begins, ends, now) && now <= at
    ensures Edges(first, Some(at), begins, ends + {at}, at)
  {
  }

  lemma LaterEdges(first: Option<int>, last: Option<int>, begins: set<int>, ends: set<int>, now: int, at: int)
    requires Edges(first, last, begins, ends, now) && now <= at
    ensures Edges(first, last, begins, ends, at)
  {
  }

  lemma CommandBegins(w: World, op: Op)
    requires Paired(w) && Enabled(w, op) && op.Command?
    ensures Begins(Step(w, op)) == Begins(w) + if op.key in w.since then {} else {op.forwarded}
    ensures Finishes(Step(w, op)) == Finishes(w)
  {
    var r := Step(w, op);
    if op.key !in w.since {
      assert r.since[op.key] == op.forwarded;
      forall key | key in w.since ensures w.since[key] in Begins(r) {
        assert r.since[key] == w.since[key];
      }
    }
  }

  lemma EndBegins(w: World, op: Op, key: Key)
    requires Paired(w) && Enabled(w, op) && Ends(w, op) == Some(key)
    ensures Begins(Step(w, op)) == Begins(w)
    ensures Finishes(Step(w, op)) == Finishes(w) + {Time(op)}
  {
    SinceAfterEnd(w, op, key);
    ClosedBegins(w, Step(w, op), key, Time(op));
  }

  lemma ClosedBegins(w: World, r: World, key: Key, at: int)
    requires key in w.since
    requires r.since == w.since - {key} && r.flights == w.flights + [Flight(w.since[key], at)]
    ensures Begins(r) == Begins(w) && Finishes(r) == Finishes(w) + {at}
  {
    var closed := Flight(w.since[key], at);
    assert closed in r.flights;
    forall other | other in w.since ensures w.since[other] in Begins(r) {
      if other != key {
        assert r.since[other] == w.since[other];
      } else {
        assert closed.from == w.since[other];
      }
    }
    forall f | f in w.flights ensures f.from in Begins(r) && f.to in Finishes(r) {
      assert f in r.flights;
    }
  }

  lemma CommandMarks(w: World, op: Op)
    requires Paired(w) && op.Command?
    ensures var before, after := w.o.phase, Step(w, op).o.phase;
      && after.lastCommandAt == before.lastCommandAt
      && after.firstCommandAt ==
           if op.key !in w.since && before.firstCommandAt.None? then Some(op.forwarded) else before.firstCommandAt
  {
  }

  lemma CommandEdges(w: World, op: Op)
    requires Paired(w) && EdgesOk(w) && Enabled(w, op) && op.Command?
    ensures EdgesOk(Step(w, op))
  {
    var begins, ends := Begins(w), Finishes(w);
    CommandBegins(w, op);
    CommandMarks(w, op);
    if op.key in w.since {
      LaterEdges(w.o.phase.firstCommandAt, w.o.phase.lastCommandAt, begins, ends, w.clock, op.forwarded);
      assert begins + {} == begins;
    } else {
      OneMoreBegin(w.o.phase.firstCommandAt, w.o.phase.lastCommandAt, begins, ends, w.clock, op.forwarded);
    }
  }

  lemma EndMarks(w: World, op: Op, key: Key)
    requires Paired(w) && Ends(w, op) == Some(key)
    ensures var before, after := w.o.phase, Step(w, op).o.phase;
      after.lastCommandAt == Some(Time(op)) && after.firstCommandAt == before.firstCommandAt
  {
    NoneLeft(w.o.phaseKeys);
    EndIs(w, op, key);
  }

  lemma EndEdges(w: World, op: Op, key: Key)
    requires Paired(w) && EdgesOk(w) && Enabled(w, op) && Ends(w, op) == Some(key)
    ensures EdgesOk(Step(w, op))
  {
    var begins, ends := Begins(w), Finishes(w);
    EndMarks(w, op, key);
    EndBegins(w, op, key);
    OneMoreFinish(w.o.phase.firstCommandAt, w.o.phase.lastCommandAt, begins, ends, w.clock, Time(op));
  }

  lemma NothingEnds(w: World, op: Op)
    requires EdgesOk(w) && Enabled(w, op) && Ends(w, op).None? && !op.Command?
    ensures EdgesOk(Step(w, op))
  {
    LaterEdges(w.o.phase.firstCommandAt, w.o.phase.lastCommandAt, Begins(w), Finishes(w), w.clock, Time(op));
  }

  lemma StepEdges(w: World, op: Op)
    requires Paired(w) && EdgesOk(w) && Enabled(w, op)
    ensures EdgesOk(Step(w, op))
  {
    if op.Command? {
      CommandEdges(w, op);
    } else if Ends(w, op).Some? {
      EndEdges(w, op, Ends(w, op).value);
    } else {
      NothingEnds(w, op);
    }
  }

  lemma {:induction false} RunEdges(states: seq<World>, ops: seq<Op>, n: nat)
    requires IsRun(states, ops) && n < |states|
    ensures EdgesOk(states[n])
  {
    if n == 0 {
      NothingBegun(states[0]);
    } else {
      RunEdges(states, ops, n - 1);
      RunOk(states, ops, n - 1);
      assert Enabled(states[n - 1], ops[n - 1]);
      StepEdges(states[n - 1], ops[n - 1]);
    }
  }

  lemma NothingBegun(w: World)
    requires w == Beginning(w.clock)
    ensures EdgesOk(w)
  {
  }

  /** Nothing is in flight before the first command mark, nor, while nothing is pending, after the last;
      and the marks are no earlier and no later than that. */
  lemma QuietOutsideTheMarks(states: seq<World>, ops: seq<Op>, n: nat, t: int)
    requires IsRun(states, ops) && n < |states| && InFlight(states[n], t)
    ensures var phase := states[n].o.phase;
      && phase.firstCommandAt.Some? && phase.firstCommandAt.value <= t
      && (phase.activeCount == 0 ==> phase.lastCommandAt.Some? && t < phase.lastCommandAt.value)
  {
    var w := states[n];
    RunEdges(states, ops, n);
    RunOk(states, ops, n);
    NoneLeft(w.o.phaseKeys);
    if f :| f in w.flights && f.from <= t < f.to {
      assert f.from in Begins(w) && f.to in Finishes(w);
    } else {
      var key :| key in w.since && w.since[key] <= t;
      assert w.since[key] in Begins(w);
    }
  }

  lemma NoneLeft(keys: set<Key>)
    ensures |keys| == 0 <==> keys == {}
  {
  }

  // ---- Usage by method ----------------------------------------------------------------------------------

  datatype Counter = AllCommands | FailedCommands | InterruptedCommands

  function Value(usage: MethodUsage, c: Counter): int {
    match c
    case AllCommands => usage.count
    case FailedCommands => usage.failed
    case InterruptedCommands => usage.interrupted
  }

  ghost function Counts(methods: map<string, MethodUsage>, c: Counter): map<string, int> {
    map name | name in methods :: Value(methods[name], c)
  }

  predicate Counting(outcome: Outcome, c: Counter) {
    match c
    case AllCommands => true
    case FailedCommands => outcome.Failed?
    case InterruptedCommands => outcome.Interrupted?
  }

  lemma RecordedCounts(methods: map<string, MethodUsage>, p: Pending, outcome: Outcome, at: int, c: Counter)
    ensures Sum(Counts(Recorded(methods, p, outcome, at), c))
         == Sum(Counts(methods, c)) + if Counting(outcome, c) then 1 else 0
  {
    SumGrows(Counts(methods, c), Counts(Recorded(methods, p, outcome, at), c),
             RetainedName(methods, p.name), if Counting(outcome, c) then 1 else 0);
  }

  function OutcomeOf(op: Op): Outcome {
    if op.Interrupt? then Interrupted else if op.Reply? && op.failed then Failed else Succeeded
  }

  /** How many commands the first n operations finished, of one kind. */
  ghost function Endings(states: seq<World>, ops: seq<Op>, n: nat, c: Counter): nat
    requires n <= |states| && n <= |ops|
  {
    if n == 0 then 0
    else
      Endings(states, ops, n - 1, c)
        + if Ends(states[n - 1], ops[n - 1]).Some? && Counting(OutcomeOf(ops[n - 1]), c) then 1 else 0
  }

  /** Every finished command is in exactly one method's count, with its outcome. */
  lemma {:induction false} CountsAreEndings(states: seq<World>, ops: seq<Op>, n: nat, c: Counter)
    requires IsRun(states, ops) && n < |states|
    ensures Sum(Counts(states[n].o.methods, c)) == Endings(states, ops, n, c)
  {
    if n == 0 {
      assert Counts(states[0].o.methods, c) == map[];
    } else {
      CountsAreEndings(states, ops, n - 1, c);
      assert Enabled(states[n - 1], ops[n - 1]);
      StepCounts(states[n - 1], ops[n - 1], c);
    }
  }

  lemma StepCounts(w: World, op: Op, c: Counter)
    ensures Sum(Counts(Step(w, op).o.methods, c))
         == Sum(Counts(w.o.methods, c)) + if Ends(w, op).Some? && Counting(OutcomeOf(op), c) then 1 else 0
  {
    if Ends(w, op).Some? {
      RecordedCounts(w.o.methods, w.o.pending[Ends(w, op).value], OutcomeOf(op), Time(op), c);
    }
  }

  /** At most 255 methods have a row of their own. */
  predicate NamesFit(methods: map<string, MethodUsage>) {
    |methods| <= METHOD_LIMIT - 1 || (|methods| == METHOD_LIMIT && OTHER in methods)
  }

  lemma RecordedFits(methods: map<string, MethodUsage>, p: Pending, outcome: Outcome, at: int)
    requires NamesFit(methods)
    ensures NamesFit(Recorded(methods, p, outcome, at))
  {
    var name, after := RetainedName(methods, p.name), Recorded(methods, p, outcome, at);
    if name in methods {
      assert after.Keys == methods.Keys;
      assert |after.Keys| == |methods.Keys|;
    } else {
      assert after.Keys == methods.Keys + {name};
      assert |after.Keys| == |methods.Keys| + 1;
    }
  }

  predicate TimesOk(methods: map<string, MethodUsage>) {
    forall name :: name in methods ==>
      methods[name].duration >= 0 && methods[name].latency >= 0 && methods[name].queue >= 0
  }

  /** The duration is from receipt to end, the provider's latency from forwarding to end, the gateway's queue
      time from receipt to forwarding, each to the nearest millisecond; so the latter two add up to the
      first, but for rounding. */
  lemma TimesAddUp(p: Pending, at: int)
    requires p.forwardedAt.Some?
    ensures var times := TimesOf(p, at);
      && Nearest(times.duration, at - p.startedAt)
      && Nearest(times.latency, at - p.forwardedAt.value)
      && Nearest(times.queue, p.forwardedAt.value - p.startedAt)
      && -1 <= times.duration - (times.queue + times.latency) <= 1
  {
    RoundedToNearest(at - p.startedAt);
    RoundedToNearest(at - p.forwardedAt.value);
    RoundedToNearest(p.forwardedAt.value - p.startedAt);
  }

  lemma RecordedTimes(methods: map<string, MethodUsage>, p: Pending, outcome: Outcome, at: int)
    requires TimesOk(methods) && p.forwardedAt.Some? && p.startedAt <= p.forwardedAt.value <= at
    ensures TimesOk(Recorded(methods, p, outcome, at))
  {
    RoundMsMonotone(0, at - p.startedAt);
    RoundMsMonotone(0, at - p.forwardedAt.value);
    RoundMsMonotone(0, p.forwardedAt.value - p.startedAt);
  }

  lemma StepFits(w: World, op: Op)
    requires NamesFit(w.o.methods)
    ensures NamesFit(Step(w, op).o.methods)
  {
    if Ends(w, op).Some? {
      RecordedFits(w.o.methods, w.o.pending[Ends(w, op).value], OutcomeOf(op), Time(op));
    }
  }

  lemma StepTimes(w: World, op: Op)
    requires TimesOk(w.o.methods) && Paired(w) && Enabled(w, op)
    ensures TimesOk(Step(w, op).o.methods)
  {
    if Ends(w, op).Some? {
      RecordedTimes(w.o.methods, w.o.pending[Ends(w, op).value], OutcomeOf(op), Time(op));
    }
  }

  lemma {:induction false} SummaryOk(states: seq<World>, ops: seq<Op>, n: nat)
    requires IsRun(states, ops) && n < |states|
    ensures NamesFit(states[n].o.methods) && TimesOk(states[n].o.methods)
  {
    if n > 0 {
      SummaryOk(states, ops, n - 1);
      RunOk(states, ops, n - 1);
      assert Enabled(states[n - 1], ops[n - 1]);
      StepFits(states[n - 1], ops[n - 1]);
      StepTimes(states[n - 1], ops[n - 1]);
    }
  }

  /** A summary of any run is one the cost ledger can attribute exactly, and has at most 256 methods. */
  lemma SummaryIsAttributable(states: seq<World>, ops: seq<Op>, n: nat, summary: Costs.Summary)
    requires IsRun(states, ops) && n < |states|
    requires forall entry :: entry in summary && entry.Counted? ==>
      entry.name in states[n].o.methods && entry.figures.latency == states[n].o.methods[entry.name].latency
    ensures Costs.LatenciesOk(summary) && |states[n].o.methods| <= METHOD_LIMIT
  {
    SummaryOk(states, ops, n);
  }

  // ---- The end of a session -----------------------------------------------------------------------------

  ghost function InterruptAll(o: Observer, order: seq<Key>, at: int): Observer {
    if order == [] then o
    else
      var key := order[|order| - 1];
      Finished(InterruptAll(o, order[..|order| - 1], at), key.session, key.id, Interrupted, at)
  }

  lemma InterruptOne(o: Observer, key: Key, at: int)
    requires o.phaseKeys <= o.pending.Keys && key in o.pending
    ensures var r := Finished(o, key.session, key.id, Interrupted, at);
      r.pending.Keys == o.pending.Keys - {key} && r.phaseKeys <= r.pending.Keys
  {
    ResolvedExact(o.pending.Keys, key);
    if key in o.phaseKeys {
      ResolvedExact(o.phaseKeys, key);
    }
  }

  /** Interrupting every pending command leaves nothing pending and nothing counted, in any order. */
  lemma {:induction false} InterruptEmpties(o: Observer, order: seq<Key>, at: int)
    requires o.phaseKeys <= o.pending.Keys
    requires forall i, j :: 0 <= i < j < |order| ==> order[i] != order[j]
    requires forall key :: key in order ==> key in o.pending
    ensures var r := InterruptAll(o, order, at);
      && r.pending.Keys == o.pending.Keys - (set key | key in order)
      && r.phaseKeys <= r.pending.Keys
  {
    if order != [] {
      var rest, key := order[..|order| - 1], order[|order| - 1];
      assert order == rest + [key];
      InterruptEmpties(o, rest, at);
      assert key !in rest;
      InterruptOne(InterruptAll(o, rest, at), key, at);
    }
  }

  // ---- The observer -------------------------------------------------------------------------------------

  class CdpEventObserver {
    var pending: map<Key, Pending>
    var phaseKeys: set<Key>
    var phase: Phase
    var methods: map<string, MethodUsage>

    ghost function View(): Observer
      reads this
    {
      Observer(pending, phaseKeys, phase, methods)
    }

    constructor (start: int)
      ensures View() == Beginning(start).o
    {
      pending, phaseKeys, methods := map[], {}, map[];
      phase := Phase(start, None, None, None, 0, 0);
    }

    method CommandReceived(key: Key, name: string, at: int)
      modifies this`pending
      ensures View() == Received(old(View()), key, name, at)
    {
      pending := pending[key := Pending(name, at, None)];
    }

    method CommandForwarded(key: Key, at: int)
      modifies this`pending, this`phaseKeys, this`phase
      ensures View() == Forwarded(old(View()), key, at)
    {
      if key in pending {
        pending := pending[key := pending[key].(forwardedAt := Some(at))];
        if key !in phaseKeys {
          if phase.firstCommandAt.None? {
            phase := phase.(firstCommandAt := Some(at));
          }
          if phase.activeCount == 0 {
            phase := phase.(activeStartedAt := Some(at));
          }
          phase := phase.(activeCount := phase.activeCount + 1);
          phaseKeys := phaseKeys + {key};
        }
      }
    }

    /** The key a reply is for, among some keys. */
    method Find(keys: set<Key>, session: Option<Id>, id: int) returns (found: Option<Key>)
      ensures found == Resolved(keys, session, id)
    {
      if Key(session, id) in keys {
        return Some(Key(session, id));
      }
      found := None;
      if session.None? {
        var matches := set key | key in keys && key.id == id;
        assert matches == Matches(keys, id);
        if |matches| == 1 {
          var key :| key in matches;
          OnlyMatch(keys, id, key, Resolved(keys, session, id).value);
          found := Some(key);
        }
      }
    }

    method FinishPhase(at: int)
      modifies this`phase
      ensures phase == Stopped(old(phase), at)
    {
      if phase.activeCount > 0 {
        phase := phase.(activeCount := phase.activeCount - 1, lastCommandAt := Some(at));
        if phase.activeCount == 0 && phase.activeStartedAt.Some? {
          phase := phase.(activeTime := phase.activeTime + Max(0, at - phase.activeStartedAt.value),
                          activeStartedAt := None);
        }
      }
    }

    method Record(p: Pending, outcome: Outcome, at: int)
      modifies this`methods
      ensures methods == Recorded(old(methods), p, outcome, at)
    {
      var name := if |p.name| <= NAME_LENGTH then p.name else p.name[..NAME_LENGTH];
      if name !in methods && |methods| >= METHOD_LIMIT - 1 {
        name := OTHER;
      }
      var more := WithOutcome(TimesOf(p, at), outcome);
      methods := methods[name := if name in methods then Plus(methods[name], more) else more];
    }

    method FinishCommand(session: Option<Id>, id: int, outcome: Outcome, at: int)
      modifies this
      ensures View() == Finished(old(View()), session, id, outcome, at)
    {
      var key := Find(pending.Keys, session, id);
      if key.None? {
        return;
      }
      var p := pending[key.value];
      pending := pending - {key.value};
      var counted := Find(phaseKeys, session, id);
      if counted.Some? {
        phaseKeys := phaseKeys - {counted.value};
        FinishPhase(at);
      }
      Record(p, outcome, at);
    }

    /** Interrupts what is pending, in the order it finds it, and leaves both maps empty. */
    method InterruptPending(at: int) returns (order: seq<Key>)
      requires phaseKeys <= pending.Keys
      modifies this
      ensures forall key :: key in order <==> key in old(pending)
      ensures View() == InterruptAll(old(View()), order, at)
      ensures pending == map[] && phaseKeys == {}
    {
      ghost var before := View();
      var left := pending.Keys;
      order := [];
      while left != {}
        invariant View() == InterruptAll(before, order, at)
        invariant forall key :: key in order <==> key in before.pending && key !in left
        invariant left <= before.pending.Keys
        invariant forall i, j :: 0 <= i < j < |order| ==> order[i] != order[j]
        decreases left
      {
        var key :| key in left;
        assert (order + [key])[..|order|] == order;
        FinishCommand(key.session, key.id, Interrupted, at);
        left := left - {key};
        order := order + [key];
      }
      InterruptEmpties(before, order, at);
      assert pending.Keys == {};
    }

    method PhaseSummary(at: int) returns (s: Snapshot)
      ensures s == SnapshotOf(phase, at)
    {
      var observed := Max(0, RoundMs(at - phase.startedAt));
      var active := phase.activeTime;
      if phase.activeCount != 0 && phase.activeStartedAt.Some? {
        active := active + Max(0, at - phase.activeStartedAt.value);
      }
      var activeMs := Min(observed, Max(0, RoundMs(active)));
      var preFirst, postLast := None, None;
      if phase.firstCommandAt.Some? {
        preFirst := Some(Max(0, RoundMs(phase.firstCommandAt.value - phase.startedAt)));
      }
      if phase.lastCommandAt.Some? {
        postLast := Some(Max(0, RoundMs(at - phase.lastCommandAt.value)));
      }
      s := Snapshot(observed, activeMs, Max(0, observed - activeMs), preFirst, postLast);
    }
  }
}
