/** The interposer that blocks URLs on every newly attached page target before the client may see
    any of its messages.  One step is what the event loop runs between two awaits.

    `received`, `routed`, `put` and `taken` are history: they record what came from upstream, where
    each message was classified to belong, and what was queued for and read by the client. */
module DomainBlocking {
  import opened Common
  import opened CommandIds

  datatype TargetInfo = TargetInfo(kind: Option<string>, targetId: Option<string>)

  /** The members of a params or result object that routing looks at. */
  datatype Fields = Fields(sessionId: Option<string>, targetInfo: Option<TargetInfo>, targetId: Option<string>)

  datatype Value = Value(
    id: Option<int>, sessionId: Option<string>, methodName: Option<string>,
    params: Option<Fields>, result: Option<Fields>, error: bool)

  /** A protocol frame: not JSON, JSON but not an object, or an object. */
  datatype Message = Opaque(text: string) | NotAnObject(text: string) | Object(value: Value)

  const BLOCKABLE: set<string> :=
    {"background_page", "iframe", "page", "service_worker", "shared_worker", "webview", "worker"}

  function CommandKey(value: Value): Option<Key> {
    if value.id.None? then None else Some((value.sessionId, value.id.value))
  }

  /** The session a Target.attachedToTarget event announces, when its target can be blocked. */
  function AttachedSession(value: Value): Option<string> {
    if value.methodName != Some("Target.attachedToTarget") || value.params.None? then None
    else
      var params := value.params.value;
      if params.targetInfo.None? || params.targetInfo.value.kind.None?
         || params.targetInfo.value.kind.value !in BLOCKABLE then None
      else params.sessionId
  }

  function NamedTarget(fields: Fields): Option<string> {
    if fields.targetInfo.Some? && fields.targetInfo.value.targetId.Some?
    then fields.targetInfo.value.targetId else fields.targetId
  }

  /** Some(target) when this container decides which session the message belongs to. */
  function DecidedBy(container: Option<Fields>, sessions: map<string, string>): Option<Option<string>> {
    if container.None? then None
    else
      var fields := container.value;
      if fields.sessionId.Some? then Some(fields.sessionId)
      else
        var name := NamedTarget(fields);
        if name.None? then None
        else if name.value in sessions then Some(Some(sessions[name.value]))
        else Some(None)
  }

  function MessageTarget(value: Value, sessions: map<string, string>): Option<string> {
    if value.sessionId.Some? then value.sessionId
    else
      var byParams := DecidedBy(value.params, sessions);
      if byParams.Some? then byParams.value
      else
        var byResult := DecidedBy(value.result, sessions);
        if byResult.Some? then byResult.value else None
  }

  datatype Reply = Pending | Answered(error: bool)

  datatype Task = Created | Running(key: Key) | Cancelled(held: Option<Key>)

  datatype Pump = Reading | Yielded(message: Message, session: string) | Stopped

  /** Whether and how far the session has failed closed. */
  datatype Failing = Sound | Cancelling | Drained | Over

  datatype Item = Deliver(message: Message, target: Option<string>) | Terminal(error: bool)

  datatype Session = Session(
    nextId: int, downstream: set<Key>, internal: map<Key, Reply>, tasks: map<string, Task>,
    unconfigured: set<string>, buffers: map<string, seq<Message>>, targetSessions: map<string, string>,
    queue: seq<Item>, pump: Pump, failing: Failing, closed: bool, terminal: bool,
    received: seq<Message>, routed: seq<Item>, put: seq<Item>, taken: seq<Item>)

  function Fresh(): Session {
    Session(-1, {}, map[], map[], {}, map[], map[], [], Reading, Sound, false, false, [], [], [], [])
  }

  /** What becomes of a client's send: it raises, waits for its key, or is registered. */
  datatype Sending = Raised | Waiting | Registered

  datatype Op =
    | ClientSends(message: Message)
    | WaiterResumes(key: Key)
    | SendFails(key: Key)
    | Receives(message: Message)
    | Continues
    | Starts(session: string)
    | Secures(session: string)
    | Fails(session: string)
    | UpstreamEnds(error: bool)
    | Closes
    | CloseCompletes
    | Unwinds(session: string)
    | Drains
    | FailCompletes
    | Takes

  // ---- Specification of the steps ------------------------------------------------------------

  function Enqueue(s: Session, item: Item): Session {
    s.(queue := s.queue + [item], put := s.put + [item])
  }

  function EnqueueTerminal(s: Session, error: bool): Session {
    if s.terminal then s else Enqueue(s, Terminal(error)).(terminal := true)
  }

  function Deliveries(session: string, messages: seq<Message>): seq<Item> {
    seq(|messages|, i requires 0 <= i < |messages| => Deliver(messages[i], Some(session)))
  }

  function CancelAll(tasks: map<string, Task>): map<string, Task> {
    map t | t in tasks ::
      match tasks[t]
      case Created => Cancelled(None)
      case Running(key) => Cancelled(Some(key))
      case Cancelled(held) => Cancelled(held)
  }

  function FailClosed(s: Session): Session {
    if s.closed then s
    else s.(failing := Cancelling, closed := true, tasks := CancelAll(s.tasks), pump := Stopped)
  }

  /** The upstream pump stops because upstream ended or a frame broke it. */
  function PumpStops(s: Session, error: bool): Session {
    if s.unconfigured != {} then FailClosed(s)
    else EnqueueTerminal(s, error).(pump := Stopped)
  }

  /** Buffers a message whose target is still being configured; queues any other. */
  function Settle(s: Session, message: Message, target: Option<string>): Session {
    var noted := s.(routed := s.routed + [Deliver(message, target)]);
    if target.Some? && target.value in s.unconfigured && target.value in s.buffers then
      noted.(buffers := s.buffers[target.value := s.buffers[target.value] + [message]])
    else Enqueue(noted, Deliver(message, target))
  }

  function BeginConfiguration(s: Session, session: string, value: Value): Session {
    if session in s.tasks then s
    else
      var name := if value.params.Some? && value.params.value.targetInfo.Some?
                  then value.params.value.targetInfo.value.targetId else None;
      s.(targetSessions := if name.Some? then s.targetSessions[name.value := session] else s.targetSessions,
         unconfigured := s.unconfigured + {session},
         buffers := s.buffers[session := []],
         tasks := s.tasks[session := Created])
  }

  /** A message that is for the client, noted before it is sorted; a reply frees its command's key. */
  function Hear(s: Session, message: Message, key: Option<Key>): Session {
    s.(received := s.received + [message],
       downstream := if key.Some? then s.downstream - {key.value} else s.downstream)
  }

  /** A target that attaches is configured first; anything else is settled. */
  function Direct(s: Session, message: Message, value: Value): Session {
    var attached := AttachedSession(value);
    if attached.Some? then
      BeginConfiguration(s, attached.value, value).(pump := Yielded(message, attached.value))
    else Settle(s, message, MessageTarget(value, s.targetSessions))
  }

  function Route(s: Session, message: Message): Session {
    match message
    case Opaque(_) => Settle(Hear(s, message, None), message, None)
    case NotAnObject(_) => PumpStops(s, true)
    case Object(value) =>
      var key := CommandKey(value);
      if key.Some? && key.value in s.internal then
        if s.internal[key.value].Pending?
        then s.(internal := s.internal[key.value := Answered(value.error)])
        else s
      else Direct(Hear(s, message, key), message, value)
  }

  predicate Enabled(s: Session, op: Op) {
    match op
    case ClientSends(message) =>
      s.failing.Sound?
      && (message.Object? && CommandKey(message.value).Some? ==>
            CommandKey(message.value).value !in s.internal)
    case WaiterResumes(key) => key !in s.internal
    case SendFails(key) => true
    case Receives(message) => s.pump.Reading?
    case Continues => s.pump.Yielded?
    case Starts(t) => t in s.tasks && s.tasks[t].Created?
    case Secures(t) =>
      t in s.tasks && s.tasks[t].Running? && s.tasks[t].key in s.internal
      && s.internal[s.tasks[t].key] == Answered(false)
    case Fails(t) => t in s.tasks && s.tasks[t].Running?
    case UpstreamEnds(_) => s.pump.Reading?
    case Closes => true
    case CloseCompletes => s.closed && s.failing.Sound?
    case Unwinds(t) => t in s.tasks && s.tasks[t].Cancelled? && s.tasks[t].held.Some?
    case Drains => s.failing.Cancelling?
    case FailCompletes => s.failing.Drained?
    case Takes => s.queue != []
  }

  function Step(s: Session, op: Op): Session
    requires Enabled(s, op)
  {
    match op
    case ClientSends(message) =>
      if message.Object? && CommandKey(message.value).Some?
      then s.(downstream := s.downstream + {CommandKey(message.value).value}) else s
    case WaiterResumes(key) => s.(downstream := s.downstream + {key})
    case SendFails(key) => s.(downstream := s.downstream - {key})
    case Receives(message) => Route(s, message)
    case Continues => Settle(s.(pump := Reading), s.pump.message, Some(s.pump.session))
    case Starts(t) =>
      var id := FreeId(t, s.nextId, s.downstream + s.internal.Keys);
      s.(nextId := id - 1, internal := s.internal[(Some(t), id) := Pending],
         tasks := s.tasks[t := Running((Some(t), id))])
    case Secures(t) =>
      var released := Deliveries(t, if t in s.buffers then s.buffers[t] else []);
      s.(buffers := s.buffers - {t}, unconfigured := s.unconfigured - {t},
         queue := s.queue + released, put := s.put + released,
         internal := s.internal - {s.tasks[t].key}, tasks := s.tasks - {t})
    case Fails(t) => FailClosed(s)
    case UpstreamEnds(error) => PumpStops(s, error)
    case Closes =>
      if s.closed then s else s.(closed := true, tasks := CancelAll(s.tasks), pump := Stopped)
    case CloseCompletes => EnqueueTerminal(s, false)
    case Unwinds(t) => s.(internal := s.internal - {s.tasks[t].held.value}, tasks := s.tasks - {t})
    case Drains => s.(buffers := map[], unconfigured := {}, queue := [], failing := Drained)
    case FailCompletes => EnqueueTerminal(s, true).(failing := Over)
    case Takes => s.(queue := s.queue[1..], taken := s.taken + [s.queue[0]])
  }

  // ---- Imperative form -------------------------------------------------------------------------

  /** The session object.  Each method is one step, so DomainBlockingInvariant.StepKeeps carries the
      invariant over it. */
  class DomainBlockingSession {
    var nextId: int
    var downstream: set<Key>
    var internal: map<Key, Reply>
    var tasks: map<string, Task>
    var unconfigured: set<string>
    var buffers: map<string, seq<Message>>
    var targetSessions: map<string, string>
    var queue: seq<Item>
    var pump: Pump
    var failing: Failing
    var closed: bool
    var terminal: bool
    ghost var received: seq<Message>
    ghost var routed: seq<Item>
    ghost var put: seq<Item>
    ghost var taken: seq<Item>

    ghost function View(): Session
      reads this
    {
      Session(nextId, downstream, internal, tasks, unconfigured, buffers, targetSessions, queue, pump,
              failing, closed, terminal, received, routed, put, taken)
    }

    constructor ()
      ensures View() == Fresh()
    {
      nextId, downstream, internal, tasks := -1, {}, map[], map[];
      unconfigured, buffers, targetSessions, queue := {}, map[], map[], [];
      pump, failing, closed, terminal := Reading, Sound, false, false;
      received, routed, put, taken := [], [], [], [];
    }

    method PutNowait(item: Item)
      modifies this`queue, this`put
      ensures View() == Enqueue(old(View()), item)
    {
      queue := queue + [item];
      put := put + [item];
    }

    method PutTerminal(error: bool)
      modifies this`queue, this`put, this`terminal
      ensures View() == EnqueueTerminal(old(View()), error)
    {
      if terminal {
        return;
      }
      terminal := true;
      PutNowait(Terminal(error));
    }

    method CancelTasks()
      modifies this`tasks, this`pump
      ensures View() == old(View()).(tasks := CancelAll(old(tasks)), pump := Stopped)
    {
      var todo := tasks.Keys;
      ghost var before := tasks;
      while todo != {}
        invariant todo <= tasks.Keys == before.Keys
        invariant forall t :: t in before ==>
                    tasks[t] == if t in todo then before[t] else CancelAll(before)[t]
        invariant View() == old(View()).(tasks := tasks)
        decreases todo
      {
        var t :| t in todo;
        match tasks[t] {
          case Created => tasks := tasks[t := Cancelled(None)];
          case Running(key) => tasks := tasks[t := Cancelled(Some(key))];
          case Cancelled(_) =>
        }
        todo := todo - {t};
      }
      assert tasks == CancelAll(before);
      pump := Stopped;
    }

    method BeginFailClosed()
      modifies this`failing, this`closed, this`tasks, this`pump
      ensures View() == FailClosed(old(View()))
    {
      if closed {
        return;
      }
      failing := Cancelling;
      closed := true;
      CancelTasks();
    }

    /** send, up to its call of upstream: it raises once the session has failed, waits while an internal
        command holds the key, and otherwise registers the key. */
    method Send(message: Message) returns (sent: Sending)
      modifies this`downstream
      ensures sent.Raised? <==> !failing.Sound?
      ensures sent.Registered? <==> Enabled(old(View()), ClientSends(message))
      ensures View() == if sent.Registered? then Step(old(View()), ClientSends(message)) else old(View())
    {
      if !failing.Sound? {
        return Raised;
      }
      if message.Object? {
        var key := CommandKey(message.value);
        if key.Some? {
          if key.value in internal {
            return Waiting;
          }
          downstream := downstream + {key.value};
        }
      }
      sent := Registered;
    }

    /** A send that waits for its key looks again; it registers as soon as the key is free, even if the
        session has failed in the meantime. */
    method ResumeSend(key: Key) returns (sent: Sending)
      modifies this`downstream
      ensures sent == if key in internal then Waiting else Registered
      ensures View() == if sent.Registered? then Step(old(View()), WaiterResumes(key)) else old(View())
    {
      if key in internal {
        return Waiting;
      }
      downstream := downstream + {key};
      sent := Registered;
    }

    method SettleMessage(message: Message, target: Option<string>)
      modifies this`queue, this`put, this`buffers, this`routed
      ensures View() == Settle(old(View()), message, target)
    {
      routed := routed + [Deliver(message, target)];
      if target.Some? && target.value in unconfigured && target.value in buffers {
        buffers := buffers[target.value := buffers[target.value] + [message]];
        return;
      }
      PutNowait(Deliver(message, target));
    }

    method BeginTargetConfiguration(session: string, attached: Value)
      modifies this`targetSessions, this`unconfigured, this`buffers, this`tasks
      ensures View() == BeginConfiguration(old(View()), session, attached)
    {
      if session in tasks {
        return;
      }
      if attached.params.Some? && attached.params.value.targetInfo.Some? {
        var target := attached.params.value.targetInfo.value;
        if target.targetId.Some? {
          targetSessions := targetSessions[target.targetId.value := session];
        }
      }
      unconfigured := unconfigured + {session};
      buffers := buffers[session := []];
      tasks := tasks[session := Created];
    }

    method StopPump(error: bool)
      modifies this`failing, this`closed, this`tasks, this`pump, this`queue, this`put, this`terminal
      ensures View() == PumpStops(old(View()), error)
    {
      if unconfigured != {} {
        BeginFailClosed();
      } else {
        PutTerminal(error);
        pump := Stopped;
      }
    }

    /** A reply to one of the interposer's own commands: it ends here. */
    method TakeReply(key: Key, error: bool)
      requires key in internal
      modifies this`internal
      ensures View() == (if old(internal)[key].Pending?
                         then old(View()).(internal := old(internal)[key := Answered(error)])
                         else old(View()))
    {
      if internal[key].Pending? {
        internal := internal[key := Answered(error)];
      }
    }

    method HearMessage(message: Message, key: Option<Key>)
      modifies this`received, this`downstream
      ensures View() == Hear(old(View()), message, key)
    {
      received := received + [message];
      if key.Some? {
        downstream := downstream - {key.value};
      }
    }

    method RouteObject(message: Message, value: Value)
      requires message == Object(value) && pump.Reading?
      modifies this
      ensures View() == Route(old(View()), message)
    {
      var key := CommandKey(value);
      if key.Some? && key.value in internal {
        TakeReply(key.value, value.error);
        return;
      }
      HearMessage(message, key);
      var attached := AttachedSession(value);
      if attached.Some? {
        BeginTargetConfiguration(attached.value, value);
        pump := Yielded(message, attached.value);
      } else {
        SettleMessage(message, MessageTarget(value, targetSessions));
      }
    }

    /** The pump receives one upstream frame and routes it, up to its first await. */
    method RouteUpstreamMessage(message: Message)
      requires pump.Reading?
      modifies this
      ensures View() == Step(old(View()), Receives(message))
    {
      match message {
        case Opaque(_) =>
          HearMessage(message, None);
          SettleMessage(message, None);
        case NotAnObject(_) =>
          StopPump(true);
        case Object(value) =>
          RouteObject(message, value);
      }
    }

    /** The pump resumes after the tasks it just scheduled had a turn. */
    method ContinueRouting()
      requires pump.Yielded?
      modifies this
      ensures View() == Step(old(View()), Continues)
    {
      var message, session := pump.message, pump.session;
      pump := Reading;
      SettleMessage(message, Some(session));
    }

    /** A configuration task takes the next id nobody uses and registers its reply. */
    method StartConfiguration(session: string)
      requires Enabled(View(), Starts(session))
      modifies this`nextId, this`internal, this`tasks
      ensures View() == Step(old(View()), Starts(session))
    {
      var id := nextId;
      while (Some(session), id) in downstream || (Some(session), id) in internal
        invariant id <= nextId
        invariant FreeId(session, nextId, downstream + internal.Keys)
                  == FreeId(session, id, downstream + internal.Keys)
        decreases id - FreeId(session, nextId, downstream + internal.Keys)
      {
        id := id - 1;
      }
      nextId := id - 1;
      internal := internal[(Some(session), id) := Pending];
      tasks := tasks[session := Running((Some(session), id))];
    }

    method PutBacklog(session: string, buffered: seq<Message>)
      modifies this`queue, this`put
      ensures View() == old(View()).(queue := old(queue) + Deliveries(session, buffered),
                                     put := old(put) + Deliveries(session, buffered))
    {
      ghost var out := Deliveries(session, buffered);
      var i := 0;
      while i < |buffered|
        invariant 0 <= i <= |buffered|
        invariant queue == old(queue) + out[..i] && put == old(put) + out[..i]
      {
        queue := queue + [Deliver(buffered[i], Some(session))];
        put := put + [Deliver(buffered[i], Some(session))];
        assert out[..i] + [out[i]] == out[..i + 1];
        i := i + 1;
      }
      assert out[..i] == out;
    }

    /** The configuration's reply arrived without error: the target's backlog goes out, in order. */
    method SecureTarget(session: string)
      requires Enabled(View(), Secures(session))
      modifies this`buffers, this`unconfigured, this`queue, this`put, this`internal, this`tasks
      ensures View() == Step(old(View()), Secures(session))
    {
      var buffered := if session in buffers then buffers[session] else [];
      buffers := buffers - {session};
      unconfigured := unconfigured - {session};
      PutBacklog(session, buffered);
      ReleaseTask(session, tasks[session].key);
    }

    method ReleaseTask(session: string, key: Key)
      modifies this`internal, this`tasks
      ensures View() == old(View()).(internal := old(internal) - {key}, tasks := old(tasks) - {session})
    {
      internal := internal - {key};
      tasks := tasks - {session};
    }

    method Close()
      modifies this
      ensures View() == Step(old(View()), Closes)
    {
      if closed {
        return;
      }
      closed := true;
      CancelTasks();
    }

    /** Everything withheld or still queued is dropped before the failure is reported. */
    method DrainAfterFailure()
      requires failing.Cancelling?
      modifies this`buffers, this`unconfigured, this`queue, this`failing
      ensures View() == Step(old(View()), Drains)
    {
      buffers := map[];
      unconfigured := {};
      DropQueue();
      failing := Drained;
    }

    method DropQueue()
      modifies this`queue
      ensures queue == []
    {
      while queue != []
        decreases |queue|
      {
        queue := queue[1..];
      }
    }

    /** A command that never reached upstream gives its key back. */
    method ForgetCommand(key: Key)
      modifies this`downstream
      ensures View() == Step(old(View()), SendFails(key))
    {
      downstream := downstream - {key};
    }

    /** A configuration task resumes: its command could not be sent or timed out, or its reply is there.
        Trouble and an error reply fail the session closed; only a reply without error secures. */
    method ResumeConfiguration(session: string, trouble: bool)
      requires session in tasks && tasks[session].Running?
      requires !trouble ==> tasks[session].key in internal && internal[tasks[session].key].Answered?
      modifies this
      ensures View() == Step(old(View()),
                             if trouble || old(internal)[old(tasks)[session].key].error
                             then Fails(session) else Secures(session))
    {
      if trouble || internal[tasks[session].key].error {
        FailConfiguration(session);
      } else {
        SecureTarget(session);
      }
    }

    method FailConfiguration(session: string)
      requires Enabled(View(), Fails(session))
      modifies this
      ensures View() == Step(old(View()), Fails(session))
    {
      BeginFailClosed();
    }

    method UnwindTask(session: string)
      requires Enabled(View(), Unwinds(session))
      modifies this
      ensures View() == Step(old(View()), Unwinds(session))
    {
      internal := internal - {tasks[session].held.value};
      tasks := tasks - {session};
    }

    method FinishClose()
      requires Enabled(View(), CloseCompletes)
      modifies this
      ensures View() == Step(old(View()), CloseCompletes)
    {
      PutTerminal(false);
    }

    method FinishFailClosed()
      requires failing.Drained?
      modifies this
      ensures View() == Step(old(View()), FailCompletes)
    {
      PutTerminal(true);
      failing := Over;
    }

    /** The client's iterator takes the next item. */
    method NextItem() returns (item: Item)
      requires queue != []
      modifies this`queue, this`taken
      ensures View() == Step(old(View()), Takes) && item == old(queue)[0]
    {
      item := queue[0];
      queue := queue[1..];
      taken := taken + [item];
    }
  }
}
