/** What every step of the interposer keeps. */
module DomainBlockingInvariant {
  import opened Common
  import opened CommandIds
  import opened DomainBlocking

  function HeldKey(task: Task): Option<Key> {
    match task
    case Created => None
    case Running(key) => Some(key)
    case Cancelled(held) => held
  }

  /** Client commands and internal commands never share a key, and every internal key is held by
      the configuration task of the session it names. */
  ghost predicate KeysApart(s: Session) {
    && s.downstream !! s.internal.Keys
    && (forall t :: t in s.tasks && HeldKey(s.tasks[t]).Some? ==>
          HeldKey(s.tasks[t]).value in s.internal && HeldKey(s.tasks[t]).value.0 == Some(t))
    && (forall key :: key in s.internal ==>
          key.0.Some? && key.0.value in s.tasks && HeldKey(s.tasks[key.0.value]) == Some(key))
  }

  /** Exactly the targets being configured are withheld, and they stop the moment a close begins. */
  predicate Gated(s: Session) {
    && s.buffers.Keys == s.unconfigured
    && (!s.closed ==> s.tasks.Keys == s.unconfigured && forall t :: t in s.tasks ==> !s.tasks[t].Cancelled?)
    && (s.closed ==> s.pump.Stopped? && forall t :: t in s.tasks ==> s.tasks[t].Cancelled?)
    && (!s.failing.Sound? ==> s.closed)
  }

  /** A terminal value is queued at most once and nothing is queued after it. */
  predicate EndsOnce(s: Session) {
    && (s.terminal <==> s.put != [] && s.put[|s.put| - 1].Terminal?)
    && (forall i :: 0 <= i < |s.put| - 1 ==> s.put[i].Deliver?)
    && (s.terminal && !s.closed ==> s.pump.Stopped? && s.unconfigured == {})
    && (!s.closed && s.pump.Stopped? ==> s.terminal)
    && (s.failing.Cancelling? || s.failing.Drained? ==> !s.terminal)
    && (s.failing.Over? ==> s.terminal)
  }

  ghost predicate Inv(s: Session) {
    KeysApart(s) && Gated(s) && EndsOnce(s)
  }

  lemma FreshInv()
    ensures Inv(Fresh())
  {
  }

  lemma FailClosedKeeps(s: Session)
    requires Inv(s) && s.unconfigured != {}
    ensures Inv(FailClosed(s))
  {
  }

  lemma TerminalKeeps(s: Session, error: bool)
    requires Inv(s) && s.closed && s.failing.Sound?
    ensures Inv(EnqueueTerminal(s, error))
  {
  }

  lemma PumpStopsKeeps(s: Session, error: bool)
    requires Inv(s) && !s.pump.Stopped?
    ensures Inv(PumpStops(s, error))
  {
    if s.unconfigured != {} {
      FailClosedKeeps(s);
    }
  }

  lemma SettleKeeps(s: Session, message: Message, target: Option<string>)
    requires Inv(s) && !s.terminal
    ensures Inv(Settle(s, message, target))
  {
  }

  lemma BeginKeeps(s: Session, session: string, value: Value)
    requires Inv(s) && !s.closed && !s.pump.Stopped?
    ensures Inv(BeginConfiguration(s, session, value))
  {
  }

  lemma HearKeeps(s: Session, message: Message, key: Option<Key>)
    requires Inv(s)
    ensures Inv(Hear(s, message, key))
  {
  }

  lemma ReplyKeeps(s: Session, key: Key, error: bool)
    requires Inv(s) && key in s.internal
    ensures Inv(s.(internal := s.internal[key := Answered(error)]))
  {
  }

  lemma YieldKeeps(s: Session, message: Message, session: string)
    requires Inv(s) && !s.closed && !s.pump.Stopped?
    ensures Inv(s.(pump := Yielded(message, session)))
  {
  }

  lemma RouteKeeps(s: Session, message: Message)
    requires Inv(s) && s.pump.Reading?
    ensures Inv(Route(s, message))
  {
    match message
    case Opaque(_) => SettleKeeps(Hear(s, message, None), message, None);
    case NotAnObject(_) => PumpStopsKeeps(s, true);
    case Object(value) =>
      var key := CommandKey(value);
      if key.Some? && key.value in s.internal {
        ReplyKeeps(s, key.value, value.error);
      } else {
        var heard := Hear(s, message, key);
        HearKeeps(s, message, key);
        var attached := AttachedSession(value);
        if attached.Some? {
          BeginKeeps(heard, attached.value, value);
          YieldKeeps(BeginConfiguration(heard, attached.value, value), message, attached.value);
        } else {
          SettleKeeps(heard, message, MessageTarget(value, heard.targetSessions));
        }
      }
  }

  lemma StartsKeeps(s: Session, t: string)
    requires Inv(s) && Enabled(s, Starts(t))
    ensures Inv(Step(s, Starts(t)))
  {
  }

  lemma SecuresKeeps(s: Session, t: string)
    requires Inv(s) && Enabled(s, Secures(t))
    ensures Inv(Step(s, Secures(t)))
  {
  }

  lemma UnwindsKeeps(s: Session, t: string)
    requires Inv(s) && Enabled(s, Unwinds(t))
    ensures Inv(Step(s, Unwinds(t)))
  {
  }

  lemma ClientKeeps(s: Session, op: Op)
    requires Inv(s) && Enabled(s, op) && (op.ClientSends? || op.WaiterResumes? || op.SendFails? || op.Takes?)
    ensures Inv(Step(s, op))
  {
  }

  lemma CloseKeeps(s: Session, op: Op)
    requires Inv(s) && Enabled(s, op) && (op.Closes? || op.Drains? || op.FailCompletes?)
    ensures Inv(Step(s, op))
  {
  }

  /** Every step of the interposer keeps the invariant. */
  lemma StepKeeps(s: Session, op: Op)
    requires Inv(s) && Enabled(s, op)
    ensures Inv(Step(s, op))
  {
    match op
    case ClientSends(message) => ClientKeeps(s, op);
    case WaiterResumes(key) => ClientKeeps(s, op);
    case SendFails(key) => ClientKeeps(s, op);
    case Receives(message) => RouteKeeps(s, message);
    case Continues => SettleKeeps(s.(pump := Reading), s.pump.message, Some(s.pump.session));
    case Starts(t) => StartsKeeps(s, t);
    case Secures(t) => SecuresKeeps(s, t);
    case Fails(t) => FailClosedKeeps(s);
    case UpstreamEnds(error) => PumpStopsKeeps(s, error);
    case Closes => CloseKeeps(s, op);
    case CloseCompletes => TerminalKeeps(s, false);
    case Unwinds(t) => UnwindsKeeps(s, t);
    case Drains => CloseKeeps(s, op);
    case FailCompletes => CloseKeeps(s, op);
    case Takes => ClientKeeps(s, op);
  }
}
