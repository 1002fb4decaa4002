/** Runs of the interposer: every interleaving of the client, the upstream pump, the configuration
    tasks, closing and failing. */
module DomainBlockingRuns {
  import opened Common
  import opened CommandIds
  import opened DomainBlocking
  import opened DomainBlockingInvariant

  /** states[i] is what ops[..i] made of a fresh session. */
  ghost predicate IsRun(states: seq<Session>, ops: seq<Op>) {
    && |states| == |ops| + 1
    && states[0] == Fresh()
    && forall i {:trigger ops[i]} :: 0 <= i < |ops| ==>
         Enabled(states[i], ops[i]) && states[i + 1] == Step(states[i], ops[i])
  }

  lemma {:induction false} RunInv(states: seq<Session>, ops: seq<Op>, i: nat)
    requires IsRun(states, ops) && i < |states|
    ensures Inv(states[i])
  {
    if i == 0 {
      FreshInv();
    } else {
      RunInv(states, ops, i - 1);
      StepKeeps(states[i - 1], ops[i - 1]);
    }
  }

  // ---- A filter that only delays ---------------------------------------------------------------

  /** The messages of one target in a list of items, in order. */
  function For(items: seq<Item>, target: Option<string>): seq<Message> {
    if items == [] then []
    else
      var last := items[|items| - 1];
      For(items[..|items| - 1], target)
      + (if last.Deliver? && last.target == target then [last.message] else [])
  }

  lemma ForAppend(items: seq<Item>, item: Item, target: Option<string>)
    ensures For(items + [item], target)
            == For(items, target) + (if item.Deliver? && item.target == target then [item.message] else [])
  {
    assert (items + [item])[..|items|] == items;
  }

  lemma {:induction false} ForDeliveries(items: seq<Item>, t: string, messages: seq<Message>, target: Option<string>)
    ensures For(items + Deliveries(t, messages), target)
            == For(items, target) + (if target == Some(t) then messages else [])
  {
    if messages == [] {
      assert items + Deliveries(t, messages) == items;
    } else {
      var init, last := messages[..|messages| - 1], messages[|messages| - 1];
      assert items + Deliveries(t, messages) == (items + Deliveries(t, init)) + [Deliver(last, Some(t))];
      ForAppend(items + Deliveries(t, init), Deliver(last, Some(t)), target);
      ForDeliveries(items, t, init, target);
      assert init + [last] == messages;
    }
  }

  function Withheld(s: Session, target: Option<string>): seq<Message> {
    if target.Some? && target.value in s.buffers then s.buffers[target.value] else []
  }

  /** For this target: what was queued followed by what is withheld is what was routed, in order. */
  predicate Conserved(s: Session, target: Option<string>) {
    For(s.put, target) + Withheld(s, target) == For(s.routed, target)
  }

  lemma SettleWithholds(s: Session, message: Message, to: string, target: Option<string>)
    requires Gated(s) && Conserved(s, target) && to in s.unconfigured
    ensures Conserved(Settle(s, message, Some(to)), target)
  {
    ForAppend(s.routed, Deliver(message, Some(to)), target);
    var put, held := For(s.put, target), Withheld(s, target);
    assert put + held + [message] == put + (held + [message]);
  }

  lemma SettleQueues(s: Session, message: Message, to: Option<string>, target: Option<string>)
    requires Gated(s) && Conserved(s, target) && (to.Some? ==> to.value !in s.unconfigured)
    ensures Conserved(Settle(s, message, to), target)
  {
    ForAppend(s.routed, Deliver(message, to), target);
    ForAppend(s.put, Deliver(message, to), target);
  }

  lemma SettleConserves(s: Session, message: Message, to: Option<string>, target: Option<string>)
    requires Gated(s) && Conserved(s, target)
    ensures Conserved(Settle(s, message, to), target)
  {
    if to.Some? && to.value in s.unconfigured {
      SettleWithholds(s, message, to.value, target);
    } else {
      SettleQueues(s, message, to, target);
    }
  }

  lemma TerminalConserves(s: Session, error: bool, target: Option<string>)
    requires Conserved(s, target)
    ensures Conserved(EnqueueTerminal(s, error), target)
  {
    ForAppend(s.put, Terminal(error), target);
  }

  lemma BeginConserves(s: Session, session: string, value: Value, target: Option<string>)
    requires Gated(s) && !s.closed && Conserved(s, target)
    ensures Conserved(BeginConfiguration(s, session, value), target)
  {
  }

  lemma RouteConserves(s: Session, message: Message, target: Option<string>)
    requires Gated(s) && s.pump.Reading? && Conserved(s, target)
    ensures Conserved(Route(s, message), target)
  {
    match message
    case Opaque(_) => SettleConserves(Hear(s, message, None), message, None, target);
    case NotAnObject(_) => TerminalConserves(s, true, target);
    case Object(value) => DirectConserves(Hear(s, message, CommandKey(value)), message, value, target);
  }

  lemma DirectConserves(s: Session, message: Message, value: Value, target: Option<string>)
    requires Gated(s) && !s.closed && Conserved(s, target)
    ensures Conserved(Direct(s, message, value), target)
  {
    var attached := AttachedSession(value);
    if attached.Some? {
      BeginConserves(s, attached.value, value, target);
    } else {
      SettleConserves(s, message, MessageTarget(value, s.targetSessions), target);
    }
  }

  lemma SecuresConserves(s: Session, t: string, target: Option<string>)
    requires Gated(s) && Enabled(s, Secures(t)) && Conserved(s, target)
    ensures Conserved(Step(s, Secures(t)), target)
  {
    ForDeliveries(s.put, t, Withheld(s, Some(t)), target);
  }

  lemma StepConserves(s: Session, op: Op, target: Option<string>)
    requires Inv(s) && Enabled(s, op) && !op.Drains? && Conserved(s, target)
    ensures Conserved(Step(s, op), target)
  {
    match op
    case ClientSends(message) =>
    case WaiterResumes(key) =>
    case SendFails(key) =>
    case Receives(message) => RouteConserves(s, message, target);
    case Continues => SettleConserves(s.(pump := Reading), s.pump.message, Some(s.pump.session), target);
    case Starts(t) =>
    case Secures(t) => SecuresConserves(s, t, target);
    case Fails(t) =>
    case UpstreamEnds(error) => TerminalConserves(s, error, target);
    case Closes =>
    case CloseCompletes => TerminalConserves(s, false, target);
    case Unwinds(t) =>
    case FailCompletes => TerminalConserves(s, true, target);
    case Takes =>
  }

  /** What the pump has heard but not yet classified. */
  function InHand(s: Session): seq<Message> {
    if s.pump.Yielded? then [s.pump.message] else []
  }

  function Contents(items: seq<Item>): seq<Message>
    requires forall i :: 0 <= i < |items| ==> items[i].Deliver?
  {
    seq(|items|, i requires 0 <= i < |items| => items[i].message)
  }

  /** Everything received is routed, once and in order; everything queued is read or still queued. */
  predicate Accounted(s: Session) {
    && (forall i :: 0 <= i < |s.routed| ==> s.routed[i].Deliver?)
    && (!s.closed ==> s.received == Contents(s.routed) + InHand(s))
    && (s.failing.Sound? || s.failing.Cancelling? ==> s.put == s.taken + s.queue)
  }

  lemma SettleAccounts(s: Session, message: Message, to: Option<string>)
    requires forall i :: 0 <= i < |s.routed| ==> s.routed[i].Deliver?
    requires s.put == s.taken + s.queue
    ensures var n := Settle(s, message, to);
            && (forall i :: 0 <= i < |n.routed| ==> n.routed[i].Deliver?)
            && Contents(n.routed) == Contents(s.routed) + [message]
            && n.put == n.taken + n.queue
            && n.received == s.received && n.pump == s.pump && n.closed == s.closed && n.failing == s.failing
  {
    OneMoreRouted(s.routed, Deliver(message, to));
    assert s.taken + s.queue + [Deliver(message, to)] == s.taken + (s.queue + [Deliver(message, to)]);
  }

  lemma OneMoreRouted(routed: seq<Item>, item: Item)
    requires item.Deliver? && forall i :: 0 <= i < |routed| ==> routed[i].Deliver?
    ensures forall i :: 0 <= i < |routed + [item]| ==> (routed + [item])[i].Deliver?
    ensures Contents(routed + [item]) == Contents(routed) + [item.message]
  {
  }

  lemma RouteAccounts(s: Session, message: Message)
    requires Inv(s) && s.pump.Reading? && Accounted(s)
    ensures Accounted(Route(s, message))
  {
    match message
    case Opaque(_) => SettleAccounts(Hear(s, message, None), message, None);
    case NotAnObject(_) =>
    case Object(value) =>
      var key := CommandKey(value);
      if key.None? || key.value !in s.internal {
        DirectAccounts(s, message, value, Hear(s, message, key));
      }
  }

  lemma DirectAccounts(s: Session, message: Message, value: Value, heard: Session)
    requires Accounted(s) && s.pump.Reading? && !s.closed && (s.failing.Sound? || s.failing.Cancelling?)
    requires heard == Hear(s, message, CommandKey(value))
    ensures Accounted(Direct(heard, message, value))
  {
    if AttachedSession(value).None? {
      SettleAccounts(heard, message, MessageTarget(value, heard.targetSessions));
    }
  }

  lemma StepAccounts(s: Session, op: Op)
    requires Inv(s) && Enabled(s, op) && Accounted(s)
    ensures Accounted(Step(s, op))
  {
    match op
    case Receives(message) => RouteAccounts(s, message);
    case Continues => SettleAccounts(s.(pump := Reading), s.pump.message, Some(s.pump.session));
    case Secures(t) =>
      var out := Deliveries(t, Withheld(s, Some(t)));
      assert s.taken + s.queue + out == s.taken + (s.queue + out);
    case _ =>
  }

  /** A session that has dropped its backlog stays that way. */
  lemma DroppedForGood(s: Session, op: Op)
    requires Inv(s) && Enabled(s, op) && (s.failing.Drained? || s.failing.Over?)
    ensures Step(s, op).failing.Drained? || Step(s, op).failing.Over?
  {
  }

  /** Blocking is a filter that only delays: at every point of every run that has not failed, for
      every target, the messages queued for the client and then those withheld are exactly the ones
      received for that target, in order.  Nothing is lost, duplicated or reordered within a target,
      and nothing but replies to the interposer's own commands is kept from the client. */
  lemma {:induction false} OnlyDelays(states: seq<Session>, ops: seq<Op>, i: nat, target: Option<string>)
    requires IsRun(states, ops) && i < |states|
    requires states[i].failing.Sound? || states[i].failing.Cancelling?
    ensures Conserved(states[i], target) && Accounted(states[i])
  {
    if i > 0 {
      SoundBefore(states, ops, i - 1);
      OnlyDelays(states, ops, i - 1, target);
      DelaysInRun(states, ops, i - 1, target);
    }
  }

  // ---- What was received -------------------------------------------------------------------------

  /** What the client is to get of one step: any frame but those that are not objects and the replies to
      the interposer's own commands. */
  function ForClient(s: Session, op: Op): seq<Message> {
    if !op.Receives? then []
    else
      match op.message
      case Opaque(_) => [op.message]
      case NotAnObject(_) => []
      case Object(value) =>
        if CommandKey(value).Some? && CommandKey(value).value in s.internal then [] else [op.message]
  }

  /** What one step settles, and for which target: an attach event with its own target once the pump
      resumes, any other frame at once with the target it names. */
  function Settles(s: Session, op: Op): seq<Item> {
    if op.Continues? && s.pump.Yielded? then [Deliver(s.pump.message, Some(s.pump.session))]
    else if ForClient(s, op) == [] then []
    else
      match op.message
      case Object(value) =>
        if AttachedSession(value).Some? then [] else [Deliver(op.message, MessageTarget(value, s.targetSessions))]
      case _ => [Deliver(op.message, None)]
  }

  function AllForClient(states: seq<Session>, ops: seq<Op>, n: nat): seq<Message>
    requires n <= |ops| && n <= |states|
  {
    if n == 0 then [] else AllForClient(states, ops, n - 1) + ForClient(states[n - 1], ops[n - 1])
  }

  function AllSettled(states: seq<Session>, ops: seq<Op>, n: nat): seq<Item>
    requires n <= |ops| && n <= |states|
  {
    if n == 0 then [] else AllSettled(states, ops, n - 1) + Settles(states[n - 1], ops[n - 1])
  }

  lemma RouteHistory(s: Session, message: Message)
    requires s.pump.Reading?
    ensures Route(s, message).received == s.received + ForClient(s, Receives(message))
    ensures Route(s, message).routed == s.routed + Settles(s, Receives(message))
  {
    if message.Object? {
      DirectHistory(Hear(s, message, CommandKey(message.value)), message, message.value);
    }
  }

  lemma DirectHistory(s: Session, message: Message, value: Value)
    ensures Direct(s, message, value).received == s.received
    ensures Direct(s, message, value).routed == s.routed +
      if AttachedSession(value).Some? then [] else [Deliver(message, MessageTarget(value, s.targetSessions))]
  {
    SettleHistory(s, message, MessageTarget(value, s.targetSessions));
  }

  lemma SettleHistory(s: Session, message: Message, target: Option<string>)
    ensures Settle(s, message, target).received == s.received
    ensures Settle(s, message, target).routed == s.routed + [Deliver(message, target)]
  {
  }

  lemma StepHistory(s: Session, op: Op)
    requires Enabled(s, op)
    ensures Step(s, op).received == s.received + ForClient(s, op)
    ensures Step(s, op).routed == s.routed + Settles(s, op)
  {
    if op.Receives? {
      RouteHistory(s, op.message);
    }
  }

  /** The history of a run is what its operations brought. */
  lemma {:induction false} HistoryIsWhatArrived(states: seq<Session>, ops: seq<Op>, n: nat)
    requires IsRun(states, ops) && n < |states|
    ensures states[n].received == AllForClient(states, ops, n)
    ensures states[n].routed == AllSettled(states, ops, n)
  {
    if n > 0 {
      HistoryIsWhatArrived(states, ops, n - 1);
      HistoryGrows(states, ops, n - 1);
    }
  }

  lemma HistoryGrows(states: seq<Session>, ops: seq<Op>, i: nat)
    requires IsRun(states, ops) && i < |ops|
    ensures states[i + 1].received == states[i].received + ForClient(states[i], ops[i])
    ensures states[i + 1].routed == states[i].routed + Settles(states[i], ops[i])
  {
    assert Enabled(states[i], ops[i]);
    StepHistory(states[i], ops[i]);
  }

  /** In a run that has not failed, what was queued for the client of one target, and then what is
      withheld, is what the operations brought for that target; and all that they brought has been
      settled, but for one attach event in the pump's hand. */
  lemma DeliveredIsWhatArrived(states: seq<Session>, ops: seq<Op>, n: nat, target: Option<string>)
    requires IsRun(states, ops) && n < |states|
    requires states[n].failing.Sound? || states[n].failing.Cancelling?
    ensures For(states[n].put, target) + Withheld(states[n], target) == For(AllSettled(states, ops, n), target)
    ensures forall item :: item in AllSettled(states, ops, n) ==> item.Deliver?
    ensures !states[n].closed ==>
      AllForClient(states, ops, n) == Contents(AllSettled(states, ops, n)) + InHand(states[n])
  {
    OnlyDelays(states, ops, n, target);
    HistoryIsWhatArrived(states, ops, n);
  }

  lemma SoundBefore(states: seq<Session>, ops: seq<Op>, i: nat)
    requires IsRun(states, ops) && i < |ops|
    requires states[i + 1].failing.Sound? || states[i + 1].failing.Cancelling?
    ensures states[i].failing.Sound? || states[i].failing.Cancelling?
  {
    RunInv(states, ops, i);
    if states[i].failing.Drained? || states[i].failing.Over? {
      DroppedForGood(states[i], ops[i]);
    }
  }

  lemma DelaysInRun(states: seq<Session>, ops: seq<Op>, i: nat, target: Option<string>)
    requires IsRun(states, ops) && i < |ops| && Conserved(states[i], target) && Accounted(states[i])
    requires states[i].failing.Sound? || states[i].failing.Cancelling?
    requires states[i + 1].failing.Sound? || states[i + 1].failing.Cancelling?
    ensures Conserved(states[i + 1], target) && Accounted(states[i + 1])
  {
    RunInv(states, ops, i);
    StepConserves(states[i], ops[i], target);
    StepAccounts(states[i], ops[i]);
  }

  // ---- Nothing before blocking -------------------------------------------------------------------

  /** The step begins to configure a newly attached target. */
  predicate Attaches(s: Session, op: Op, t: string) {
    && op.Receives? && op.message.Object? && AttachedSession(op.message.value) == Some(t)
    && (CommandKey(op.message.value).Some? ==> CommandKey(op.message.value).value !in s.internal)
    && t !in s.tasks
  }

  /** The step queues messages of a target for the client. */
  predicate Releases(s: Session, op: Op, t: string)
    requires Enabled(s, op)
  {
    For(Step(s, op).put, Some(t)) != For(s.put, Some(t))
  }

  /** An upstream reply that answers a key the interposer itself is waiting on. */
  predicate Answers(s: Session, op: Op, key: Key, error: bool) {
    && op.Receives? && op.message.Object?
    && CommandKey(op.message.value) == Some(key) && op.message.value.error == error
    && key in s.internal && s.internal[key].Pending?
  }

  predicate AnsweredBy(message: Message, key: Key, reply: Reply) {
    && message.Object? && CommandKey(message.value) == Some(key)
    && reply == Answered(message.value.error)
  }

  lemma PumpStopsFrame(s: Session, error: bool)
    ensures var n := PumpStops(s, error);
            n.internal == s.internal && n.unconfigured == s.unconfigured && n.downstream == s.downstream
  {
  }

  lemma SettleFrame(s: Session, message: Message, to: Option<string>)
    ensures var n := Settle(s, message, to);
            n.internal == s.internal && n.unconfigured == s.unconfigured && n.downstream == s.downstream
  {
  }

  /** What routing a frame leaves alone. */
  lemma RouteFrame(s: Session, message: Message)
    requires s.pump.Reading?
    ensures var n := Route(s, message);
            && n.internal.Keys == s.internal.Keys
            && s.unconfigured <= n.unconfigured
            && (forall key :: key in s.downstream && key !in n.downstream ==>
                  message.Object? && CommandKey(message.value) == Some(key))
            && (forall key :: key in s.internal && n.internal[key] != s.internal[key] ==>
                  s.internal[key].Pending? && AnsweredBy(message, key, n.internal[key]))
  {
    match message
    case Opaque(_) => SettleFrame(Hear(s, message, None), message, None);
    case NotAnObject(_) => PumpStopsFrame(s, true);
    case Object(value) => DirectFrame(Hear(s, message, CommandKey(value)), message, value);
  }

  lemma DirectFrame(s: Session, message: Message, value: Value)
    ensures var n := Direct(s, message, value);
            n.internal == s.internal && s.unconfigured <= n.unconfigured && n.downstream == s.downstream
  {
    SettleFrame(s, message, MessageTarget(value, s.targetSessions));
  }

  lemma AnswerStep(s: Session, op: Op, key: Key)
    requires Inv(s) && Enabled(s, op)
    requires key in Step(s, op).internal && Step(s, op).internal[key].Answered?
    ensures key in s.internal
    ensures s.internal[key] == Step(s, op).internal[key] || Answers(s, op, key, Step(s, op).internal[key].error)
  {
    if op.Receives? {
      RouteFrame(s, op.message);
    }
  }

  /** An answered command was answered by an upstream reply, and its key was registered ever since. */
  lemma {:induction false} AnswerOrigin(states: seq<Session>, ops: seq<Op>, m: nat, key: Key) returns (r: nat)
    requires IsRun(states, ops) && m < |states|
    requires key in states[m].internal && states[m].internal[key].Answered?
    ensures r < m && Answers(states[r], ops[r], key, states[m].internal[key].error)
    ensures forall n :: r <= n <= m ==> key in states[n].internal
  {
    RunInv(states, ops, m - 1);
    assert Enabled(states[m - 1], ops[m - 1]);
    AnswerStep(states[m - 1], ops[m - 1], key);
    if states[m - 1].internal[key] == states[m].internal[key] {
      r := AnswerOrigin(states, ops, m - 1, key);
    } else {
      r := m - 1;
    }
  }

  /** While a target is withheld, or once the session has failed, only securing it releases it. */
  lemma OnlySecuringReleases(s: Session, op: Op, t: string)
    requires Inv(s) && Enabled(s, op) && Releases(s, op, t)
    requires t in s.unconfigured || s.failing.Drained? || s.failing.Over?
    ensures op == Secures(t)
  {
    match op
    case ClientSends(message) =>
    case WaiterResumes(key) =>
    case SendFails(key) =>
    case Receives(message) => ReceivingReleasesNothing(s, message, t);
    case Continues => ForAppend(s.put, Deliver(s.pump.message, Some(s.pump.session)), Some(t));
    case Starts(_) =>
    case Secures(other) => ForDeliveries(s.put, other, Withheld(s, Some(other)), Some(t));
    case Fails(_) =>
    case UpstreamEnds(error) => ForAppend(s.put, Terminal(error), Some(t));
    case Closes =>
    case CloseCompletes => ForAppend(s.put, Terminal(false), Some(t));
    case Unwinds(_) =>
    case Drains =>
    case FailCompletes => ForAppend(s.put, Terminal(true), Some(t));
    case Takes =>
  }

  lemma ReceivingReleasesNothing(s: Session, message: Message, t: string)
    requires Inv(s) && s.pump.Reading? && t in s.unconfigured
    ensures For(Route(s, message).put, Some(t)) == For(s.put, Some(t))
  {
    match message
    case Opaque(_) => ForAppend(s.put, Deliver(message, None), Some(t));
    case NotAnObject(_) =>
    case Object(value) => DirectingReleasesNothing(Hear(s, message, CommandKey(value)), message, value, t);
  }

  lemma DirectingReleasesNothing(s: Session, message: Message, value: Value, t: string)
    requires t in s.unconfigured && t in s.buffers
    ensures For(Direct(s, message, value).put, Some(t)) == For(s.put, Some(t))
  {
    ForAppend(s.put, Deliver(message, MessageTarget(value, s.targetSessions)), Some(t));
  }

  lemma WithheldStep(s: Session, op: Op, t: string)
    requires Inv(s) && Enabled(s, op) && op != Secures(t)
    requires t in s.unconfigured || s.failing.Drained? || s.failing.Over?
    ensures var n := Step(s, op); t in n.unconfigured || n.failing.Drained? || n.failing.Over?
  {
    if s.failing.Drained? || s.failing.Over? {
      DroppedForGood(s, op);
    } else if op.Receives? {
      RouteFrame(s, op.message);
    }
  }

  /** A target that is not being configured has no command of the interposer under way. */
  lemma NoTaskNoCommand(s: Session, key: Key)
    requires Inv(s) && key in s.internal
    ensures key.0.Some? && key.0.value in s.tasks
  {
  }

  /** From its attachment on, a target is withheld until it is secured or everything is dropped. */
  lemma {:induction false} WithheldUntilSecured(states: seq<Session>, ops: seq<Op>, i: nat, j: nat, t: string)
    requires IsRun(states, ops) && i < j < |states| && Attaches(states[i], ops[i], t)
    requires forall k :: i < k < j ==> ops[k] != Secures(t)
    ensures t in states[j].unconfigured || states[j].failing.Drained? || states[j].failing.Over?
  {
    RunInv(states, ops, i);
    if i + 1 < j {
      WithheldUntilSecured(states, ops, i, j - 1, t);
      RunInv(states, ops, j - 1);
      WithheldStep(states[j - 1], ops[j - 1], t);
    }
  }

  /** Nothing of a blockable target reaches the client's queue before that target's blocklist command
      was answered without error: the answer arrives after the attachment, and the target is
      secured after the answer. */
  lemma NothingBeforeBlocking(states: seq<Session>, ops: seq<Op>, i: nat, j: nat, t: string)
    returns (r: nat, k: nat, key: Key)
    requires IsRun(states, ops) && i < j < |ops|
    requires Attaches(states[i], ops[i], t)
    requires Enabled(states[j], ops[j]) && Releases(states[j], ops[j], t)
    ensures i < r < k <= j && ops[k] == Secures(t)
    ensures key.0 == Some(t) && Answers(states[r], ops[r], key, false)
    ensures t in states[k].tasks && states[k].tasks[t] == Running(key)
  {
    SomeSecuring(states, ops, i, j, t);
    k :| i < k <= j && ops[k] == Secures(t);
    key := KeyOfTask(states, ops, k, t);
    r := AnswerSince(states, ops, i, k, key, t);
  }

  /** A command of a target that was not yet being configured at i was answered after i. */
  lemma AnswerSince(states: seq<Session>, ops: seq<Op>, i: nat, k: nat, key: Key, t: string) returns (r: nat)
    requires IsRun(states, ops) && i < k < |states|
    requires Attaches(states[i], ops[i], t) && key.0 == Some(t)
    requires key in states[k].internal && states[k].internal[key].Answered?
    ensures i < r < k && Answers(states[r], ops[r], key, states[k].internal[key].error)
  {
    r := AnswerOrigin(states, ops, k, key);
    if r <= i {
      RunInv(states, ops, i);
      NoTaskNoCommand(states[i], key);
    }
  }

  lemma KeyOfTask(states: seq<Session>, ops: seq<Op>, k: nat, t: string) returns (key: Key)
    requires IsRun(states, ops) && k < |ops| && ops[k] == Secures(t)
    ensures t in states[k].tasks && states[k].tasks[t] == Running(key) && key.0 == Some(t)
    ensures key in states[k].internal && states[k].internal[key] == Answered(false)
  {
    RunInv(states, ops, k);
    assert Enabled(states[k], ops[k]);
    key := states[k].tasks[t].key;
  }

  /** Between an attachment and a release the target is secured. */
  lemma SomeSecuring(states: seq<Session>, ops: seq<Op>, i: nat, j: nat, t: string)
    requires IsRun(states, ops) && i < j < |ops|
    requires Attaches(states[i], ops[i], t) && Enabled(states[j], ops[j]) && Releases(states[j], ops[j], t)
    ensures exists k :: i < k <= j && ops[k] == Secures(t)
  {
    RunInv(states, ops, j);
    if forall n :: i < n < j ==> ops[n] != Secures(t) {
      WithheldUntilSecured(states, ops, i, j, t);
      OnlySecuringReleases(states[j], ops[j], t);
    }
  }

  /** The members name a target by its id alone. */
  predicate NamesById(fields: Option<Fields>, sessions: map<string, string>, t: string) {
    && fields.Some? && fields.value.sessionId.None? && NamedTarget(fields.value).Some?
    && NamedTarget(fields.value).value in sessions && sessions[NamedTarget(fields.value).value] == t
  }

  /** The members name no session and no target. */
  predicate NamesNothing(fields: Option<Fields>) {
    fields.None? || (fields.value.sessionId.None? && NamedTarget(fields.value).None?)
  }

  /** A browser-level message that names the target by id, an event in its params or a reply in its
      result, waits behind the attach event: while the target is withheld it is appended to the same
      backlog. */
  lemma NamedByIdWaits(s: Session, value: Value, t: string)
    requires Inv(s) && s.pump.Reading? && t in s.unconfigured
    requires AttachedSession(value).None? && value.sessionId.None?
    requires CommandKey(value).Some? ==> CommandKey(value).value !in s.internal
    requires NamesById(value.params, s.targetSessions, t)
             || (NamesNothing(value.params) && NamesById(value.result, s.targetSessions, t))
    ensures var after := Route(s, Object(value));
            && after.buffers[t] == s.buffers[t] + [Object(value)]
            && after.put == s.put
  {
  }

  // ---- Command ids --------------------------------------------------------------------------------

  /** Every reply reaches exactly its requester: one to an internal command only resolves that
      command; any other frame is passed on, and settles its client command. */
  lemma RepliesReachTheirRequester(s: Session, value: Value)
    requires Inv(s) && s.pump.Reading? && CommandKey(value).Some?
    ensures var key := CommandKey(value).value;
            var n := Route(s, Object(value));
            if key in s.internal then
              && key !in s.downstream
              && n == s.(internal := n.internal) && n.internal.Keys == s.internal.Keys
              && n.internal[key].Answered?
              && (forall other :: other in s.internal && other != key ==> n.internal[other] == s.internal[other])
            else
              && n.internal == s.internal && n.downstream == s.downstream - {key}
              && n.received == s.received + [Object(value)]
              && (n.routed == s.routed + [Deliver(Object(value), MessageTarget(value, s.targetSessions))]
                  || (n.pump.Yielded? && n.pump.message == Object(value)))
  {
  }

  /** A client command stays registered, and out of the interposer's own ids, until its reply or
      its send failure. */
  lemma {:induction false} InFlightCommandsKeepTheirKey(states: seq<Session>, ops: seq<Op>, i: nat, j: nat,
                                                        value: Value)
    requires IsRun(states, ops) && i < j < |states|
    requires CommandKey(value).Some?
    requires ops[i] == ClientSends(Object(value)) || ops[i] == WaiterResumes(CommandKey(value).value)
    requires forall m :: i < m < j ==>
               && ops[m] != SendFails(CommandKey(value).value)
               && !(ops[m].Receives? && ops[m].message.Object?
                    && CommandKey(ops[m].message.value) == CommandKey(value))
    ensures CommandKey(value).value in states[j].downstream
    ensures CommandKey(value).value !in states[j].internal
  {
    RunInv(states, ops, j);
    assert states[j] == Step(states[j - 1], ops[j - 1]);
    if i + 1 < j {
      InFlightCommandsKeepTheirKey(states, ops, i, j - 1, value);
      RunInv(states, ops, j - 1);
      KeyStaysRegistered(states[j - 1], ops[j - 1], CommandKey(value).value);
    }
  }

  lemma KeyStaysRegistered(s: Session, op: Op, key: Key)
    requires Inv(s) && Enabled(s, op) && key in s.downstream && op != SendFails(key)
    requires !(op.Receives? && op.message.Object? && CommandKey(op.message.value) == Some(key))
    ensures key in Step(s, op).downstream
  {
    if op.Receives? {
      RouteFrame(s, op.message);
    }
  }

  // ---- Failing closed ---------------------------------------------------------------------------------

  /** After a failure nothing more is queued except the one error that reports it. */
  lemma FailedStep(s: Session, op: Op)
    requires Inv(s) && Enabled(s, op) && !s.failing.Sound?
    ensures !Step(s, op).failing.Sound?
    ensures Step(s, op).put == s.put || (!s.terminal && Step(s, op).put == s.put + [Terminal(true)])
  {
  }

  /** Once a run has failed closed, no message of any target is queued again, so whatever was withheld
      then is never delivered; the client gets at most the one terminal error. */
  lemma {:induction false} FailsForGood(states: seq<Session>, ops: seq<Op>, i: nat, j: nat, target: Option<string>)
    requires IsRun(states, ops) && i <= j < |states| && !states[i].failing.Sound?
    ensures !states[j].failing.Sound?
    ensures For(states[j].put, target) == For(states[i].put, target)
    ensures states[j].put == states[i].put
            || (!states[i].terminal && states[j].put == states[i].put + [Terminal(true)])
  {
    if i < j {
      FailsForGood(states, ops, i, j - 1, target);
      RunInv(states, ops, j - 1);
      RunInv(states, ops, i);
      FailedStep(states[j - 1], ops[j - 1]);
      ForAppend(states[i].put, Terminal(true), target);
    }
  }

  /** Whatever goes wrong while some target is unconfigured fails the session closed. */
  lemma TroubleFailsClosed(s: Session, op: Op)
    requires Inv(s) && Enabled(s, op) && s.unconfigured != {} && !s.closed
    requires op.Fails? || op.UpstreamEnds? || (op.Receives? && op.message.NotAnObject?)
    ensures Step(s, op).failing.Cancelling? && Step(s, op).put == s.put
    ensures forall t :: !Enabled(Step(s, op), Secures(t)) && !Enabled(Step(s, op), Starts(t))
  {
  }

  /** The target's blocklist command was answered with an error: the target is withheld or dropped, and
      its task can only fail, or has been cancelled. */
  predicate Refused(s: Session, t: string, key: Key) {
    && (t in s.unconfigured || s.failing.Drained? || s.failing.Over?)
    && (s.closed
        || (t in s.tasks && s.tasks[t] == Running(key) && key in s.internal && s.internal[key] == Answered(true)))
  }

  lemma RefusalBegins(s: Session, op: Op, t: string, key: Key)
    requires Inv(s) && Enabled(s, op) && Answers(s, op, key, true) && key.0 == Some(t)
    ensures Refused(Step(s, op), t, key) && !Releases(s, op, t)
  {
  }

  /** A refused target cannot be secured, by this step or a later one. */
  lemma RefusedStep(s: Session, op: Op, t: string, key: Key)
    requires Inv(s) && Enabled(s, op) && Refused(s, t, key)
    ensures Refused(Step(s, op), t, key) && !Releases(s, op, t)
  {
    assert op != Secures(t);
    WithheldStep(s, op, t);
    if Releases(s, op, t) {
      OnlySecuringReleases(s, op, t);
    }
    if op.Receives? && !s.closed {
      RouteFrame(s, op.message);
      RouteKeepsTask(s, op.message, t);
    }
  }

  lemma RouteKeepsTask(s: Session, message: Message, t: string)
    requires s.pump.Reading? && t in s.tasks
    ensures Route(s, message).closed || (t in Route(s, message).tasks && Route(s, message).tasks[t] == s.tasks[t])
  {
    if message.Object? {
      DirectKeepsTask(Hear(s, message, CommandKey(message.value)), message, message.value, t);
    }
  }

  lemma DirectKeepsTask(s: Session, message: Message, value: Value, t: string)
    requires t in s.tasks
    ensures t in Direct(s, message, value).tasks && Direct(s, message, value).tasks[t] == s.tasks[t]
  {
  }

  lemma {:induction false} StaysRefused(states: seq<Session>, ops: seq<Op>, r: nat, j: nat, t: string, key: Key)
    requires IsRun(states, ops) && r < j < |states|
    requires Answers(states[r], ops[r], key, true) && key.0 == Some(t)
    ensures Refused(states[j], t, key)
  {
    RunInv(states, ops, j - 1);
    assert Enabled(states[j - 1], ops[j - 1]);
    if j == r + 1 {
      RefusalBegins(states[r], ops[r], t, key);
    } else {
      StaysRefused(states, ops, r, j - 1, t, key);
      RefusedStep(states[j - 1], ops[j - 1], t, key);
    }
  }

  /** After an error reply to a target's blocklist command no message of that target is released, in
      this step or in any later one. */
  lemma NothingAfterRefusal(states: seq<Session>, ops: seq<Op>, r: nat, j: nat, t: string, key: Key)
    requires IsRun(states, ops) && r <= j < |ops|
    requires Answers(states[r], ops[r], key, true) && key.0 == Some(t)
    ensures Enabled(states[j], ops[j]) && !Releases(states[j], ops[j], t)
  {
    RunInv(states, ops, j);
    assert Enabled(states[j], ops[j]);
    if r == j {
      RefusalBegins(states[r], ops[r], t, key);
    } else {
      StaysRefused(states, ops, r, j, t, key);
      RefusedStep(states[j], ops[j], t, key);
    }
  }

  lemma RoutePutOnlyGrows(s: Session, message: Message)
    requires Inv(s) && s.pump.Reading?
    ensures s.put <= Route(s, message).put && !s.terminal
  {
    if message.Object? {
      DirectPutOnlyGrows(Hear(s, message, CommandKey(message.value)), message, message.value);
    }
  }

  lemma DirectPutOnlyGrows(s: Session, message: Message, value: Value)
    ensures s.put <= Direct(s, message, value).put
  {
    SettlePutOnlyGrows(s, message, MessageTarget(value, s.targetSessions));
  }

  lemma SettlePutOnlyGrows(s: Session, message: Message, target: Option<string>)
    ensures s.put <= Settle(s, message, target).put
  {
  }

  lemma PutOnlyGrows(s: Session, op: Op)
    requires Inv(s) && Enabled(s, op)
    ensures s.put <= Step(s, op).put
    ensures s.terminal ==> Step(s, op).terminal && Step(s, op).put == s.put
  {
    match op
    case Receives(message) => RoutePutOnlyGrows(s, message);
    case Secures(t) => assert !s.terminal;
    case _ =>
  }

  /** Over every run a terminal value is queued at most once, and it is the last thing queued. */
  lemma {:induction false} EndsAtMostOnce(states: seq<Session>, ops: seq<Op>, i: nat, j: nat)
    requires IsRun(states, ops) && i <= j < |states|
    ensures states[i].put <= states[j].put
    ensures states[i].terminal ==> states[j].put == states[i].put
    ensures forall m :: 0 <= m < |states[j].put| && states[j].put[m].Terminal? ==> m == |states[j].put| - 1
  {
    RunInv(states, ops, j);
    if i < j {
      EndsAtMostOnce(states, ops, i, j - 1);
      PutGrowsInRun(states, ops, j - 1);
      TerminalPersists(states, ops, i, j - 1);
    }
  }

  lemma {:induction false} TerminalPersists(states: seq<Session>, ops: seq<Op>, i: nat, j: nat)
    requires IsRun(states, ops) && i <= j < |states|
    ensures states[i].terminal ==> states[j].terminal
  {
    if i < j {
      TerminalPersists(states, ops, i, j - 1);
      PutGrowsInRun(states, ops, j - 1);
    }
  }

  lemma PutGrowsInRun(states: seq<Session>, ops: seq<Op>, i: nat)
    requires IsRun(states, ops) && i < |ops|
    ensures states[i].put <= states[i + 1].put
    ensures states[i].terminal ==> states[i + 1].terminal && states[i + 1].put == states[i].put
  {
    RunInv(states, ops, i);
    PutOnlyGrows(states[i], ops[i]);
  }
}
