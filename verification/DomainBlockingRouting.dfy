/** Where a frame goes, told by the members of the frame itself: which frames begin to configure a
    target, which frames wait for one, and whose command a reply belongs to. */
module DomainBlockingRouting {
  import opened Common
  import opened CommandIds
  import opened DomainBlocking
  import opened DomainBlockingInvariant
  import opened DomainBlockingRuns

  // ---- What a frame says of itself ---------------------------------------------------------------

  predicate BlockableKind(kind: string) {
    || kind == "page" || kind == "iframe" || kind == "worker" || kind == "service_worker"
    || kind == "shared_worker" || kind == "background_page" || kind == "webview"
  }

  /** The frame is the event that a blockable target is attached as session t. */
  predicate Announces(value: Value, t: string) {
    && value.methodName == Some("Target.attachedToTarget")
    && value.params.Some? && value.params.value.sessionId == Some(t)
    && value.params.value.targetInfo.Some? && value.params.value.targetInfo.value.kind.Some?
    && BlockableKind(value.params.value.targetInfo.value.kind.value)
  }

  predicate AnnouncesAny(value: Value) {
    value.params.Some? && value.params.value.sessionId.Some? && Announces(value, value.params.value.sessionId.value)
  }

  /** The members name this target id: in their targetInfo, or beside one that names none. */
  predicate NamesTarget(fields: Fields, id: string) {
    if fields.targetInfo.Some? && fields.targetInfo.value.targetId.Some?
    then fields.targetInfo.value.targetId.value == id
    else fields.targetId == Some(id)
  }

  predicate NamesNobody(container: Option<Fields>) {
    container.Some? ==>
      && container.value.sessionId.None? && container.value.targetId.None?
      && (container.value.targetInfo.None? || container.value.targetInfo.value.targetId.None?)
  }

  /** The members name session t, by its own id or by the id of the target that is attached as t. */
  ghost predicate NamesIn(container: Option<Fields>, sessions: map<string, string>, t: string) {
    && container.Some?
    && (if container.value.sessionId.Some? then container.value.sessionId.value == t
        else exists id :: id in sessions && sessions[id] == t && NamesTarget(container.value, id))
  }

  /** The frame is about session t: the first of the frame, its params and its result that names
      anything names t. */
  ghost predicate Concerns(value: Value, sessions: map<string, string>, t: string) {
    if value.sessionId.Some? then value.sessionId.value == t
    else if !NamesNobody(value.params) then NamesIn(value.params, sessions, t)
    else NamesIn(value.result, sessions, t)
  }

  /** The frame names session t by its session id, in itself, in its params or in its result. */
  predicate NamesSession(value: Value, t: string) {
    || value.sessionId == Some(t)
    || (value.sessionId.None? && value.params.Some? && value.params.value.sessionId == Some(t))
    || (value.sessionId.None? && NamesNobody(value.params)
        && value.result.Some? && value.result.value.sessionId == Some(t))
  }

  /** The frame replies to a command the interposer itself has under way. */
  predicate RepliesInternally(s: Session, value: Value) {
    value.id.Some? && (value.sessionId, value.id.value) in s.internal
  }

  lemma AnnouncedSession(value: Value, t: string)
    ensures AttachedSession(value) == Some(t) <==> Announces(value, t)
    ensures AttachedSession(value).Some? <==> AnnouncesAny(value)
  {
  }

  lemma TargetIsConcerned(value: Value, sessions: map<string, string>, t: string)
    ensures MessageTarget(value, sessions) == Some(t) <==> Concerns(value, sessions, t)
  {
  }

  lemma KeyIsCarried(value: Value, key: Key)
    ensures CommandKey(value) == Some(key) <==> value.sessionId == key.0 && value.id == Some(key.1)
  {
  }

  lemma NamedIsConcerned(value: Value, sessions: map<string, string>, t: string)
    requires NamesSession(value, t)
    ensures Concerns(value, sessions, t)
  {
  }

  // ---- One frame ---------------------------------------------------------------------------------

  /** A frame begins to configure a target that is not being configured if and only if it announces
      that target and is no reply to the interposer.  From then on the target is withheld, with
      an empty backlog, the id in the event leads to its session, and the client is sent nothing. */
  lemma OnlyAnnouncementsAttach(s: Session, value: Value, t: string)
    requires Inv(s) && s.pump.Reading? && t !in s.tasks
    ensures var after := Route(s, Object(value));
            && (t in after.tasks <==> Announces(value, t) && !RepliesInternally(s, value))
            && (t in after.tasks ==>
                  && t in after.unconfigured && after.buffers == s.buffers[t := []]
                  && after.tasks == s.tasks[t := Created]
                  && after.pump == Yielded(Object(value), t) && after.put == s.put
                  && after.targetSessions ==
                     if value.params.value.targetInfo.value.targetId.Some?
                     then s.targetSessions[value.params.value.targetInfo.value.targetId.value := t]
                     else s.targetSessions)
  {
    AnnouncedSession(value, t);
    AnnouncementIsDirected(Hear(s, Object(value), CommandKey(value)), value, t);
  }

  lemma AnnouncementIsDirected(s: Session, value: Value, t: string)
    requires t !in s.tasks && !s.closed
    ensures var after := Direct(s, Object(value), value);
            t in after.tasks <==> AttachedSession(value) == Some(t)
  {
  }

  /** A frame that is neither an attach event nor a reply to the interposer joins the end of the
      backlog of the session it is about, when that session is withheld; otherwise it is queued for
      the client at once. */
  lemma FramesWaitForTheirSession(s: Session, value: Value)
    requires Inv(s) && s.pump.Reading? && !AnnouncesAny(value) && !RepliesInternally(s, value)
    ensures forall t :: t in s.unconfigured && Concerns(value, s.targetSessions, t) ==>
      Route(s, Object(value)).put == s.put
      && Route(s, Object(value)).buffers == s.buffers[t := s.buffers[t] + [Object(value)]]
    ensures (forall t :: t in s.unconfigured ==> !Concerns(value, s.targetSessions, t)) ==>
      Route(s, Object(value)).buffers == s.buffers
      && exists target :: Route(s, Object(value)).put == s.put + [Deliver(Object(value), target)]
  {
    var target := MessageTarget(value, s.targetSessions);
    if target.Some? {
      TargetIsConcerned(value, s.targetSessions, target.value);
    }
    forall t ensures Concerns(value, s.targetSessions, t) <==> target == Some(t) {
      TargetIsConcerned(value, s.targetSessions, t);
    }
    AnnouncedSession(value, "");
    var heard := Hear(s, Object(value), CommandKey(value));
    assert Route(s, Object(value)) == Settle(heard, Object(value), target);
    if target.None? || target.value !in s.unconfigured {
      assert Settle(heard, Object(value), target).put == s.put + [Deliver(Object(value), target)];
    }
  }

  /** In particular a frame that names a withheld session by its session id waits in that session's
      backlog. */
  lemma NamedSessionWaits(s: Session, value: Value, t: string)
    requires Inv(s) && s.pump.Reading? && t in s.unconfigured && NamesSession(value, t)
    requires !AnnouncesAny(value) && !RepliesInternally(s, value)
    ensures Route(s, Object(value)).put == s.put
    ensures Route(s, Object(value)).buffers[t] == s.buffers[t] + [Object(value)]
  {
    NamedIsConcerned(value, s.targetSessions, t);
    FramesWaitForTheirSession(s, value);
  }

  /** A frame with the session and the number of one of the interposer's commands answers that command
      and nothing else happens; any other frame answers no command, and frees the client's key it
      carries. */
  lemma RepliesCarryTheirKey(s: Session, value: Value)
    requires Inv(s) && s.pump.Reading?
    ensures var after := Route(s, Object(value));
            if RepliesInternally(s, value) then
              var key := (value.sessionId, value.id.value);
              after == if s.internal[key].Pending? then s.(internal := s.internal[key := Answered(value.error)]) else s
            else
              && after.internal == s.internal && after.received == s.received + [Object(value)]
              && after.downstream ==
                 if value.id.Some? then s.downstream - {(value.sessionId, value.id.value)} else s.downstream
  {
    if !RepliesInternally(s, value) {
      DirectFrame(Hear(s, Object(value), CommandKey(value)), Object(value), value);
      DirectHistory(Hear(s, Object(value), CommandKey(value)), Object(value), value);
    }
  }

  /** A client's command is registered under the session and the number it carries; a frame that carries
      no number is not. */
  lemma SendsRegisterTheirKey(s: Session, value: Value)
    requires Enabled(s, ClientSends(Object(value)))
    ensures !RepliesInternally(s, value)
    ensures Step(s, ClientSends(Object(value)))
            == s.(downstream := s.downstream
                  + if value.id.Some? then {(value.sessionId, value.id.value)} else {})
  {
  }

  /** A command that waited for its key is registered under it, and one that could not be sent gives it back. */
  lemma KeysComeAndGo(s: Session, key: Key)
    ensures Step(s, SendFails(key)) == s.(downstream := s.downstream - {key})
    ensures Enabled(s, WaiterResumes(key)) <==> key !in s.internal
    ensures key !in s.internal ==> Step(s, WaiterResumes(key)) == s.(downstream := s.downstream + {key})
  {
  }

  lemma NumbersFall(s: Session, op: Op)
    requires Enabled(s, op)
    ensures Step(s, op).nextId <= s.nextId
    ensures op.Starts? ==>
      && op.session in Step(s, op).tasks && Step(s, op).tasks[op.session].Running?
      && Step(s, op).nextId < Step(s, op).tasks[op.session].key.1 <= s.nextId
  {
    if op.Receives? {
      RouteKeepsNumbers(s, op.message);
    }
  }

  lemma RouteKeepsNumbers(s: Session, message: Message)
    requires s.pump.Reading?
    ensures Route(s, message).nextId == s.nextId
  {
    match message
    case Opaque(_) =>
    case NotAnObject(_) =>
    case Object(value) =>
      assert Direct(Hear(s, message, CommandKey(value)), message, value).nextId == s.nextId;
  }

  // ---- The end of a session ----------------------------------------------------------------------

  /** How a session's end reaches the client.  While no target is withheld the end of upstream is passed
      on as it is, and a frame that is no object ends the session with an error; a close ends it
      quietly and a failure with an error, each unless the client was told of an end before. */
  lemma EndIsReported(s: Session, op: Op)
    requires Inv(s) && Enabled(s, op)
    ensures op.UpstreamEnds? && s.unconfigured == {} ==> Step(s, op).put == s.put + [Terminal(op.error)]
    ensures op.Receives? && op.message.NotAnObject? && s.unconfigured == {} ==>
      Step(s, op).put == s.put + [Terminal(true)]
    ensures op.CloseCompletes? ==> Step(s, op).put == s.put + if s.terminal then [] else [Terminal(false)]
    ensures op.FailCompletes? ==> Step(s, op).put == s.put + [Terminal(true)] && Step(s, op).failing.Over?
    ensures op.Drains? ==>
      Step(s, op).queue == [] && Step(s, op).buffers == map[] && Step(s, op).unconfigured == {}
      && Step(s, op).failing.Drained?
  {
  }

  /** Once a close has begun no further frame is read and no target starts or is secured. */
  lemma ClosingStops(s: Session, op: Op)
    requires Inv(s) && Step(s, Closes).closed
    ensures Enabled(Step(s, Closes), op) ==>
      !op.Receives? && !op.Continues? && !op.UpstreamEnds? && !op.Starts? && !op.Secures? && !op.Fails?
    ensures Step(s, Closes).put == s.put && Step(s, Closes).unconfigured == s.unconfigured
    ensures Step(s, Closes).failing == s.failing
  {
    StepKeeps(s, Closes);
  }

  // ---- Whole runs --------------------------------------------------------------------------------

  /** A message stands under a target that it does not contradict. */
  ghost predicate FiledUnder(message: Message, target: Option<string>) {
    message.Object? && !AnnouncesAny(message.value) ==>
      forall t :: NamesSession(message.value, t) ==> target == Some(t)
  }

  ghost predicate FiledItem(item: Item) {
    item.Deliver? ==> FiledUnder(item.message, item.target)
  }

  ghost predicate FiledItems(items: seq<Item>) {
    forall n :: 0 <= n < |items| ==> FiledItem(items[n])
  }

  ghost predicate FiledBacklog(messages: seq<Message>, t: string) {
    forall n :: 0 <= n < |messages| ==> FiledUnder(messages[n], Some(t))
  }

  ghost predicate Filed(s: Session) {
    && FiledItems(s.put)
    && (forall t :: t in s.buffers ==> FiledBacklog(s.buffers[t], t))
    && (s.pump.Yielded? ==> s.pump.message.Object? && AnnouncesAny(s.pump.message.value))
  }

  lemma SettleFiles(s: Session, message: Message, target: Option<string>)
    requires Filed(s) && FiledUnder(message, target)
    ensures Filed(Settle(s, message, target))
  {
  }

  lemma FrameIsFiled(value: Value, sessions: map<string, string>)
    ensures FiledUnder(Object(value), MessageTarget(value, sessions))
  {
    forall t | NamesSession(value, t) ensures MessageTarget(value, sessions) == Some(t) {
      NamedIsConcerned(value, sessions, t);
      TargetIsConcerned(value, sessions, t);
    }
  }

  lemma DirectFiles(s: Session, value: Value)
    requires Filed(s)
    ensures Filed(Direct(s, Object(value), value))
  {
    AnnouncedSession(value, "");
    if AttachedSession(value).None? {
      FrameIsFiled(value, s.targetSessions);
      SettleFiles(s, Object(value), MessageTarget(value, s.targetSessions));
    }
  }

  lemma RouteFiles(s: Session, message: Message)
    requires Filed(s) && s.pump.Reading?
    ensures Filed(Route(s, message))
  {
    match message
    case Opaque(_) => SettleFiles(Hear(s, message, None), message, None);
    case NotAnObject(_) =>
    case Object(value) => DirectFiles(Hear(s, message, CommandKey(value)), value);
  }

  lemma ReleaseFiles(items: seq<Item>, t: string, messages: seq<Message>)
    requires FiledItems(items) && FiledBacklog(messages, t)
    ensures FiledItems(items + Deliveries(t, messages))
  {
    forall n | 0 <= n < |messages| ensures FiledItem(Deliveries(t, messages)[n]) {
      assert FiledUnder(messages[n], Some(t));
    }
  }

  lemma StepFiles(s: Session, op: Op)
    requires Filed(s) && Enabled(s, op)
    ensures Filed(Step(s, op))
  {
    match op
    case Receives(message) => RouteFiles(s, message);
    case Continues => SettleFiles(s.(pump := Reading), s.pump.message, Some(s.pump.session));
    case Secures(t) => ReleaseFiles(s.put, t, Withheld(s, Some(t)));
    case _ =>
  }

  /** In every run whatever is queued or withheld stands under the session it names itself. */
  lemma {:induction false} FiledInRun(states: seq<Session>, ops: seq<Op>, i: nat)
    requires IsRun(states, ops) && i < |states|
    ensures Filed(states[i])
  {
    if i > 0 {
      FiledInRun(states, ops, i - 1);
      assert Enabled(states[i - 1], ops[i - 1]);
      StepFiles(states[i - 1], ops[i - 1]);
    }
  }

  lemma {:induction false} ForGrows(items: seq<Item>, shorter: nat, n: nat, target: Option<string>)
    requires shorter <= n < |items| && items[n].Deliver? && items[n].target == target
    ensures |For(items[..shorter], target)| < |For(items, target)|
  {
    var init := items[..|items| - 1];
    if n < |items| - 1 {
      ForGrows(init, shorter, n, target);
      assert init[..shorter] == items[..shorter];
    } else {
      ForPrefix(init, shorter, target);
      assert init[..shorter] == items[..shorter];
    }
  }

  lemma {:induction false} ForPrefix(items: seq<Item>, shorter: nat, target: Option<string>)
    requires shorter <= |items|
    ensures |For(items[..shorter], target)| <= |For(items, target)|
  {
    if shorter < |items| {
      var init := items[..|items| - 1];
      ForPrefix(init, shorter, target);
      assert init[..shorter] == items[..shorter];
    } else {
      assert items[..shorter] == items;
    }
  }

  /** More of a target in the queue at j than at i was put there by some step between them. */
  lemma {:induction false} SomeRelease(states: seq<Session>, ops: seq<Op>, i: nat, j: nat, t: string) returns (m: nat)
    requires IsRun(states, ops) && i <= j < |states|
    requires For(states[i].put, Some(t)) != For(states[j].put, Some(t))
    ensures i <= m < j && Enabled(states[m], ops[m]) && Releases(states[m], ops[m], t)
  {
    assert Enabled(states[j - 1], ops[j - 1]);
    if For(states[j - 1].put, Some(t)) != For(states[j].put, Some(t)) {
      m := j - 1;
    } else {
      m := SomeRelease(states, ops, i, j - 1, t);
    }
  }

  lemma AttachingReleasesNothing(s: Session, op: Op, t: string)
    requires Inv(s) && Enabled(s, op) && Attaches(s, op, t)
    ensures !Releases(s, op, t)
  {
    AnnouncedSession(op.message.value, t);
    OnlyAnnouncementsAttach(s, op.message.value, t);
  }

  /** The step begins to configure session t: upstream announces it, and it is not being configured. */
  predicate Begins(s: Session, op: Op, t: string) {
    && op.Receives? && op.message.Object? && Announces(op.message.value, t)
    && !RepliesInternally(s, op.message.value) && t !in s.tasks
  }

  lemma BeginningAttaches(s: Session, op: Op, t: string)
    ensures Begins(s, op, t) <==> Attaches(s, op, t)
  {
    if op.Receives? && op.message.Object? {
      AnnouncedSession(op.message.value, t);
    }
  }

  /** An upstream frame of this session and number that is no error, while the interposer waits for it. */
  predicate CleanAnswer(s: Session, op: Op, t: string, number: int) {
    && op.Receives? && op.message.Object?
    && op.message.value.sessionId == Some(t) && op.message.value.id == Some(number) && !op.message.value.error
    && (Some(t), number) in s.internal && s.internal[(Some(t), number)].Pending?
  }

  /** A frame that names a session by its session id is queued for the client only after that session's
      blocklist command was answered without error: whatever the interleaving, one that is queued
      after the session was announced has such an answer between the two. */
  lemma NamedFramesWaitForBlocking(states: seq<Session>, ops: seq<Op>, i: nat, j: nat, n: nat, value: Value, t: string)
    returns (r: nat, number: int)
    requires IsRun(states, ops) && i < j < |states| && Begins(states[i], ops[i], t)
    requires |states[i].put| <= n < |states[j].put|
    requires states[j].put[n].Deliver? && states[j].put[n].message == Object(value)
    requires NamesSession(value, t) && !AnnouncesAny(value)
    ensures i < r < j && CleanAnswer(states[r], ops[r], t, number)
  {
    BeginningAttaches(states[i], ops[i], t);
    FiledInRun(states, ops, j);
    assert FiledItem(states[j].put[n]);
    EndsAtMostOnce(states, ops, i, j);
    ForGrows(states[j].put, |states[i].put|, n, Some(t));
    assert states[j].put[..|states[i].put|] == states[i].put;
    var m := SomeRelease(states, ops, i, j, t);
    NothingAtAttachment(states, ops, i, m, t);
    var k, key;
    r, k, key := NothingBeforeBlocking(states, ops, i, m, t);
    number := key.1;
    KeyIsCarried(ops[r].message.value, key);
  }

  lemma NothingAtAttachment(states: seq<Session>, ops: seq<Op>, i: nat, m: nat, t: string)
    requires IsRun(states, ops) && i <= m < |ops| && Attaches(states[i], ops[i], t)
    requires Enabled(states[m], ops[m]) && Releases(states[m], ops[m], t)
    ensures i < m
  {
    RunInv(states, ops, i);
    if i == m {
      AttachingReleasesNothing(states[i], ops[i], t);
    }
  }

  lemma {:induction false} NumbersFallInRun(states: seq<Session>, ops: seq<Op>, i: nat, j: nat)
    requires IsRun(states, ops) && i <= j < |states|
    ensures states[j].nextId <= states[i].nextId
  {
    if i < j {
      NumbersFallInRun(states, ops, i, j - 1);
      assert Enabled(states[j - 1], ops[j - 1]);
      NumbersFall(states[j - 1], ops[j - 1]);
    }
  }

  /** The interposer never uses a number twice: of two of its commands the later one has the lower number,
      however long the first is over and whatever sessions they are for. */
  lemma NumbersAreUsedOnce(states: seq<Session>, ops: seq<Op>, i: nat, j: nat)
    requires IsRun(states, ops) && i < j < |ops| && ops[i].Starts? && ops[j].Starts?
    ensures ops[i].session in states[i + 1].tasks && states[i + 1].tasks[ops[i].session].Running?
    ensures ops[j].session in states[j + 1].tasks && states[j + 1].tasks[ops[j].session].Running?
    ensures states[j + 1].tasks[ops[j].session].key.1 < states[i + 1].tasks[ops[i].session].key.1
  {
    assert Enabled(states[i], ops[i]) && Enabled(states[j], ops[j]);
    NumbersFall(states[i], ops[i]);
    NumbersFall(states[j], ops[j]);
    NumbersFallInRun(states, ops, i + 1, j);
  }

  /** The step attaches this target id to session t. */
  predicate Binds(s: Session, op: Op, id: string, t: string) {
    && Begins(s, op, t)
    && op.message.value.params.value.targetInfo.value.targetId == Some(id)
  }

  lemma BindingStep(s: Session, op: Op, id: string)
    requires Inv(s) && Enabled(s, op)
    ensures forall t :: Binds(s, op, id, t) ==> id in Step(s, op).targetSessions && Step(s, op).targetSessions[id] == t
    ensures (forall t :: !Binds(s, op, id, t)) ==>
      (id in s.targetSessions <==> id in Step(s, op).targetSessions)
      && (id in s.targetSessions ==> Step(s, op).targetSessions[id] == s.targetSessions[id])
  {
    if op.Receives? && op.message.Object? && !RepliesInternally(s, op.message.value) {
      BindingFrame(s, op.message.value, id);
    }
  }

  lemma BindingFrame(s: Session, value: Value, id: string)
    requires Inv(s) && s.pump.Reading? && !RepliesInternally(s, value)
    ensures forall t :: Binds(s, Receives(Object(value)), id, t) ==>
      Route(s, Object(value)).targetSessions == s.targetSessions[id := t]
    ensures (forall t :: !Binds(s, Receives(Object(value)), id, t)) ==>
      (id in s.targetSessions <==> id in Route(s, Object(value)).targetSessions)
      && (id in s.targetSessions ==> Route(s, Object(value)).targetSessions[id] == s.targetSessions[id])
  {
    var attached := AttachedSession(value);
    if attached.Some? {
      assert Begins(s, Receives(Object(value)), attached.value) <==> attached.value !in s.tasks;
      assert Binds(s, Receives(Object(value)), id, attached.value) <==>
             attached.value !in s.tasks && value.params.value.targetInfo.value.targetId == Some(id);
    }
  }

  /** A target id leads to the session of the last attachment that named it. */
  lemma {:induction false} LastAttachmentNames(states: seq<Session>, ops: seq<Op>, i: nat, j: nat,
                                               id: string, t: string)
    requires IsRun(states, ops) && i < j < |states| && Binds(states[i], ops[i], id, t)
    requires forall k {:trigger ops[k]} :: i < k < j ==> forall other :: !Binds(states[k], ops[k], id, other)
    ensures id in states[j].targetSessions && states[j].targetSessions[id] == t
  {
    RunInv(states, ops, j - 1);
    assert Enabled(states[j - 1], ops[j - 1]);
    BindingStep(states[j - 1], ops[j - 1], id);
    if i + 1 < j {
      LastAttachmentNames(states, ops, i, j - 1, id, t);
    }
  }

  /** An id that no attachment has named leads nowhere. */
  lemma {:induction false} UnnamedLeadsNowhere(states: seq<Session>, ops: seq<Op>, j: nat, id: string)
    requires IsRun(states, ops) && j < |states|
    requires forall k {:trigger ops[k]} :: 0 <= k < j ==> forall t :: !Binds(states[k], ops[k], id, t)
    ensures id !in states[j].targetSessions
  {
    if j > 0 {
      UnnamedLeadsNowhere(states, ops, j - 1, id);
      RunInv(states, ops, j - 1);
      assert Enabled(states[j - 1], ops[j - 1]);
      BindingStep(states[j - 1], ops[j - 1], id);
    }
  }
}
