/** `InMemoryTaskManager`: three dictionaries keyed by task id (the tasks,
    their message histories and their push-notification settings). Every
    status change and every new artifact is published to the streaming
    subscribers, and reaching a notifiable state triggers a push
    notification; both effects are fire-and-forget, so they are recorded
    here as two logs. The state is first given as a value with one pure
    transition per operation; the class below keeps it in fields and is
    proved to follow those transitions. */
module TaskStore {
  import opened Wrappers
  import opened Models

  /** A push notification handed to the sender: the task's settings and the
      updated task. */
  datatype PushSend = PushSend(config: PushNotificationConfig, task: Task)

  datatype StoreState = StoreState(
    tasks: map<string, Task>,
    history: map<string, seq<Message>>,
    pushConfigs: map<string, PushNotificationConfig>,
    published: seq<UpdateEvent>,
    pushes: seq<PushSend>)

  /** The store's invariant: every task has a history list, push settings
      exist only for tasks, a stored task is keyed by its own id and is kept
      without its history, which lives in the history dictionary. */
  predicate WellFormed(s: StoreState) {
    s.tasks.Keys == s.history.Keys && s.pushConfigs.Keys <= s.tasks.Keys
    && forall id | id in s.tasks :: s.tasks[id].id == id && s.tasks[id].history.None?
  }

  const EmptyStore: StoreState := StoreState(map[], map[], map[], [], [])

  lemma EmptyStoreWellFormed()
    ensures WellFormed(EmptyStore)
  {
  }

  /** The last `n` elements of `s` (all of them when there are fewer). */
  function TakeLast<T>(s: seq<T>, n: nat): (r: seq<T>)
    ensures |r| == if n < |s| then n else |s|
    ensures r == s[|s| - |r|..]
  {
    if n >= |s| then s else s[|s| - n..]
  }

  /** The states whose arrival triggers a push notification. */
  predicate IsNotifiable(state: TaskState) {
    state == Completed || state == Failed || state == Canceled || state == InputRequired
  }

  /** `CreateOrGetTaskAsync`. An empty id is refused. A new id gets a task
      in the Submitted state with no artifacts and the given session id (or
      the generated one), and a history holding the message; a known id
      keeps its task, which is returned unchanged, and only has the message
      appended to its history. Nothing is published or pushed. */
  function CreateOrGet(s: StoreState, taskId: string, initialMessage: Message, sessionId: Option<string>,
                       generatedSessionId: string, now: Timestamp)
    : (r: (StoreState, Result<Task, ArgumentError>))
    requires WellFormed(s)
    ensures WellFormed(r.0)
    ensures r.1.Failure? <==> taskId == ""
    ensures r.1.Failure? ==> r.0 == s
    ensures r.1.Success? ==>
      r.0.tasks.Keys == s.tasks.Keys + {taskId} && r.0.tasks[taskId] == r.1.value
      && r.0.published == s.published && r.0.pushes == s.pushes && r.0.pushConfigs == s.pushConfigs
      && (forall id | id in s.tasks && id != taskId :: r.0.tasks[id] == s.tasks[id] && r.0.history[id] == s.history[id])
    ensures r.1.Success? && taskId !in s.tasks ==>
      var t := r.1.value;
      t.id == taskId && t.status == TaskStatus(Submitted, None, now) && t.artifacts == Some([])
      && t.sessionId == Some(if sessionId.Some? then sessionId.value else generatedSessionId)
      && r.0.history[taskId] == [initialMessage]
    ensures r.1.Success? && taskId in s.tasks ==>
      r.1.value == s.tasks[taskId] && r.0.history[taskId] == s.history[taskId] + [initialMessage]
  {
    if taskId == "" then
      (s, Failure(ArgumentInvalid("taskId", "The value cannot be an empty string.")))
    else if taskId in s.tasks then
      (s.(history := s.history[taskId := s.history[taskId] + [initialMessage]]), Success(s.tasks[taskId]))
    else
      var t := Task(taskId, Some(if sessionId.Some? then sessionId.value else generatedSessionId),
                    TaskStatus(Submitted, None, now), Some([]), None, None);
      (s.(tasks := s.tasks[taskId := t], history := s.history[taskId := [initialMessage]]), Success(t))
  }

  /** `GetTaskAsync`: a copy of the stored task that carries the last
      `historyLength` messages when a positive length is asked for, and no
      history otherwise; null for an unknown id. */
  function ReadTask(tasks: map<string, Task>, history: map<string, seq<Message>>,
                    taskId: string, historyLength: Option<int>)
    : (r: Option<Task>)
    ensures r.Some? <==> taskId in tasks
    ensures r.Some? ==> r.value.(history := None) == tasks[taskId].(history := None)
    ensures r.Some? && historyLength.Some? && historyLength.value > 0 && taskId in history ==>
      var h := history[taskId];
      var n := historyLength.value;
      r.value.history.Some? && |r.value.history.value| == (if n < |h| then n else |h|)
      && r.value.history.value == h[|h| - |r.value.history.value|..]
    ensures r.Some? && !(historyLength.Some? && historyLength.value > 0 && taskId in history) ==>
      r.value.history.None?
  {
    if taskId !in tasks then None
    else if historyLength.Some? && historyLength.value > 0 && taskId in history then
      Some(tasks[taskId].(history := Some(TakeLast(history[taskId], historyLength.value))))
    else
      Some(tasks[taskId].(history := None))
  }

  /** `AddHistoryMessageAsync`: the message goes at the end of a known
      task's history; an unknown id changes nothing. (The branch that would
      create a missing list for a known task cannot be taken in a
      well-formed store.) */
  function AddHistory(s: StoreState, taskId: string, message: Message): (r: (StoreState, bool))
    requires WellFormed(s)
    ensures WellFormed(r.0)
    ensures r.1 <==> taskId in s.tasks
    ensures !r.1 ==> r.0 == s
    ensures r.1 ==> r.0 == s.(history := s.history[taskId := s.history[taskId] + [message]])
  {
    if taskId in s.history then (s.(history := s.history[taskId := s.history[taskId] + [message]]), true)
    else (s, false)
  }

  /** `TriggerPushNotificationIfNeeded`: one push, of the updated task, when
      the new state is notifiable and the task has push settings. */
  function PushesAfter(s: StoreState, taskId: string, updated: Task, newState: TaskState): seq<PushSend> {
    if IsNotifiable(newState) && taskId in s.pushConfigs
    then s.pushes + [PushSend(s.pushConfigs[taskId], updated)]
    else s.pushes
  }

  /** `UpdateTaskStatusAsync`. A known task gets the new status (any state
      may follow any other: terminal states are not protected), a status
      message joins the history, exactly one status event is published and
      it is never marked final, and one push is triggered exactly when the
      new state is notifiable and the task has push settings. An unknown id
      changes nothing. */
  function UpdateStatus(s: StoreState, taskId: string, newState: TaskState, statusMessage: Option<Message>,
                        now: Timestamp)
    : (r: (StoreState, bool))
    requires WellFormed(s)
    ensures WellFormed(r.0)
    ensures r.1 <==> taskId in s.tasks
    ensures !r.1 ==> r.0 == s
    ensures r.1 ==> r.0.tasks.Keys == s.tasks.Keys
    ensures r.1 ==>
      var status := TaskStatus(newState, statusMessage, now);
      var t := r.0.tasks[taskId];
      t.status == status
      && t.(status := s.tasks[taskId].status) == s.tasks[taskId]
      && (forall id | id in s.tasks && id != taskId :: r.0.tasks[id] == s.tasks[id])
      && r.0.history == (if statusMessage.Some? then s.history[taskId := s.history[taskId] + [statusMessage.value]]
                         else s.history)
      && r.0.pushConfigs == s.pushConfigs
      && r.0.published == s.published + [StatusUpdate(TaskStatusUpdateEvent(taskId, status, false, None))]
      && r.0.pushes == s.pushes + (if IsNotifiable(newState) && taskId in s.pushConfigs
                                   then [PushSend(s.pushConfigs[taskId], t)] else [])
  {
    if taskId !in s.tasks then (s, false)
    else
      var status := TaskStatus(newState, statusMessage, now);
      var updated := s.tasks[taskId].(status := status);
      var s1 := s.(tasks := s.tasks[taskId := updated]);
      var s2 := if statusMessage.Some? then AddHistory(s1, taskId, statusMessage.value).0 else s1;
      (s2.(published := s2.published + [StatusUpdate(TaskStatusUpdateEvent(taskId, status, false, None))],
           pushes := PushesAfter(s2, taskId, updated, newState)),
       true)
  }

  /** The artifact list after adding one: the earlier artifacts in order,
      then the new one. */
  function WithArtifact(artifacts: Option<seq<Artifact>>, artifact: Artifact): (r: seq<Artifact>)
    ensures |r| > 0 && r[|r| - 1] == artifact
    ensures artifacts.Some? ==> r[..|r| - 1] == artifacts.value
    ensures artifacts.None? ==> r == [artifact]
  {
    if artifacts.None? then [artifact] else artifacts.value + [artifact]
  }

  /** `AddArtifactAsync`: a known task gets the artifact at the end of its
      list and one artifact event is published; nothing else changes, and an
      unknown id changes nothing. */
  function AddArtifact(s: StoreState, taskId: string, artifact: Artifact): (r: (StoreState, bool))
    requires WellFormed(s)
    ensures WellFormed(r.0)
    ensures r.1 <==> taskId in s.tasks
    ensures !r.1 ==> r.0 == s
    ensures r.1 ==> r.0.tasks.Keys == s.tasks.Keys
    ensures r.1 ==>
      var t := r.0.tasks[taskId];
      t.artifacts == Some(WithArtifact(s.tasks[taskId].artifacts, artifact))
      && t.(artifacts := s.tasks[taskId].artifacts) == s.tasks[taskId]
      && (forall id | id in s.tasks && id != taskId :: r.0.tasks[id] == s.tasks[id])
      && r.0.history == s.history && r.0.pushConfigs == s.pushConfigs && r.0.pushes == s.pushes
      && r.0.published == s.published + [ArtifactUpdate(TaskArtifactUpdateEvent(taskId, artifact, None))]
  {
    if taskId !in s.tasks then (s, false)
    else
      var updated := s.tasks[taskId].(artifacts := Some(WithArtifact(s.tasks[taskId].artifacts, artifact)));
      (s.(tasks := s.tasks[taskId := updated],
          published := s.published + [ArtifactUpdate(TaskArtifactUpdateEvent(taskId, artifact, None))]),
       true)
  }

  /** `CancelTaskAsync`: a known task that is not Completed, Canceled or
      Failed moves to Canceled with no message and the updated task is
      returned; otherwise null and nothing changes. No event is published
      and no push is triggered either way, and the history is untouched. */
  function Cancel(s: StoreState, taskId: string, now: Timestamp): (r: (StoreState, Option<Task>))
    requires WellFormed(s)
    ensures WellFormed(r.0)
    ensures r.1.Some? <==> taskId in s.tasks && !IsTerminal(s.tasks[taskId].status.state)
    ensures r.1.None? ==> r.0 == s
    ensures r.1.Some? ==>
      r.1.value == s.tasks[taskId].(status := TaskStatus(Canceled, None, now))
      && r.0 == s.(tasks := s.tasks[taskId := r.1.value])
    ensures r.0.published == s.published && r.0.pushes == s.pushes && r.0.history == s.history
  {
    if taskId !in s.tasks || IsTerminal(s.tasks[taskId].status.state) then (s, None)
    else
      var updated := s.tasks[taskId].(status := TaskStatus(Canceled, None, now));
      (s.(tasks := s.tasks[taskId := updated]), Some(updated))
  }

  /** `SetPushNotificationConfigAsync`: settings are stored, replacing any
      earlier ones, only for a known task. */
  function SetPushConfig(s: StoreState, taskId: string, config: PushNotificationConfig): (r: (StoreState, bool))
    requires WellFormed(s)
    ensures WellFormed(r.0)
    ensures r.1 <==> taskId in s.tasks
    ensures !r.1 ==> r.0 == s
    ensures r.1 ==> r.0 == s.(pushConfigs := s.pushConfigs[taskId := config])
  {
    if taskId !in s.tasks then (s, false) else (s.(pushConfigs := s.pushConfigs[taskId := config]), true)
  }

  /** `GetPushNotificationConfigAsync`. */
  function GetPushConfig(pushConfigs: map<string, PushNotificationConfig>, taskId: string)
    : Option<PushNotificationConfig>
  {
    if taskId in pushConfigs then Some(pushConfigs[taskId]) else None
  }

  /** Settings just stored are what a read returns. */
  lemma SetThenGetPushConfig(s: StoreState, taskId: string, config: PushNotificationConfig)
    requires WellFormed(s) && taskId in s.tasks
    ensures GetPushConfig(SetPushConfig(s, taskId, config).0.pushConfigs, taskId) == Some(config)
  {
  }

  /** The message that creates a task is the whole history a positive
      history length returns right after. */
  lemma CreateThenRead(s: StoreState, taskId: string, m: Message, sessionId: Option<string>,
                       generated: string, now: Timestamp, n: int)
    requires WellFormed(s) && taskId != "" && taskId !in s.tasks && n > 0
    ensures var s' := CreateOrGet(s, taskId, m, sessionId, generated, now).0;
      var t := ReadTask(s'.tasks, s'.history, taskId, Some(n));
      t.Some? && t.value.status.state == Submitted && t.value.history == Some([m])
  {
  }

  /** Reading never changes the history it reports: a read asking for `m`
      messages is the tail of a read asking for `n >= m`. */
  lemma ReadsAgreeOnSuffix(tasks: map<string, Task>, history: map<string, seq<Message>>,
                           taskId: string, m: int, n: int)
    requires taskId in tasks && taskId in history && 0 < m <= n
    ensures var a := ReadTask(tasks, history, taskId, Some(m)).value.history.value;
      var b := ReadTask(tasks, history, taskId, Some(n)).value.history.value;
      |a| <= |b| && a == b[|b| - |a|..]
  {
    var h := history[taskId];
    var a := TakeLast(h, m);
    var b := TakeLast(h, n);
    assert a == h[|h| - |a|..] && b == h[|h| - |b|..];
    assert b[|b| - |a|..] == h[|h| - |a|..];
  }

  /** A completed task can still be moved back to Working: the store does
      not guard terminal states. */
  lemma TerminalStatesNotProtected(s: StoreState, taskId: string, now: Timestamp)
    requires WellFormed(s) && taskId in s.tasks && s.tasks[taskId].status.state == Completed
    ensures var r := UpdateStatus(s, taskId, Working, None, now);
      r.1 && r.0.tasks[taskId].status.state == Working
  {
  }

  /** No operation ever publishes a status event marked final. */
  predicate NoFinalEvents(s: StoreState) {
    forall i | 0 <= i < |s.published| :: s.published[i].StatusUpdate? ==> !s.published[i].statusEvent.final
  }

  lemma StatusEventsNeverFinal(s: StoreState, taskId: string, newState: TaskState,
                               m: Option<Message>, a: Artifact, now: Timestamp)
    requires WellFormed(s) && NoFinalEvents(s)
    ensures NoFinalEvents(UpdateStatus(s, taskId, newState, m, now).0)
    ensures NoFinalEvents(AddArtifact(s, taskId, a).0)
    ensures NoFinalEvents(Cancel(s, taskId, now).0)
  {
    var u := UpdateStatus(s, taskId, newState, m, now).0;
    if taskId in s.tasks {
      assert forall i | 0 <= i < |s.published| :: u.published[i] == s.published[i];
    }
    var v := AddArtifact(s, taskId, a).0;
    if taskId in s.tasks {
      assert forall i | 0 <= i < |s.published| :: v.published[i] == s.published[i];
    }
  }

  /** The store itself. The two logs are ghost: they record what the
      fire-and-forget calls were given. */
  class InMemoryTaskManager {
    var tasks: map<string, Task>
    var history: map<string, seq<Message>>
    var pushConfigs: map<string, PushNotificationConfig>
    ghost var published: seq<UpdateEvent>
    ghost var pushes: seq<PushSend>

    ghost function State(): StoreState
      reads this
    {
      StoreState(tasks, history, pushConfigs, published, pushes)
    }

    ghost predicate Valid()
      reads this
    {
      WellFormed(State())
    }

    constructor ()
      ensures Valid() && State() == EmptyStore
    {
      tasks, history, pushConfigs := map[], map[], map[];
      published, pushes := [], [];
    }

    method CreateOrGetTask(taskId: string, initialMessage: Message, sessionId: Option<string>,
                           generatedSessionId: string, now: Timestamp)
      returns (r: Result<Task, ArgumentError>)
      requires Valid()
      modifies this
      ensures Valid()
      ensures (State(), r) == CreateOrGet(old(State()), taskId, initialMessage, sessionId, generatedSessionId, now)
    {
      if taskId == "" {
        return Failure(ArgumentInvalid("taskId", "The value cannot be an empty string."));
      }
      if taskId in tasks {
        history := history[taskId := history[taskId] + [initialMessage]];
        return Success(tasks[taskId]);
      }
      var t := Task(taskId, Some(if sessionId.Some? then sessionId.value else generatedSessionId),
                    TaskStatus(Submitted, None, now), Some([]), None, None);
      tasks := tasks[taskId := t];
      history := history[taskId := [initialMessage]];
      r := Success(t);
    }

    function GetTask(taskId: string, historyLength: Option<int>): Option<Task>
      reads this
    {
      ReadTask(tasks, history, taskId, historyLength)
    }

    method AddHistoryMessage(taskId: string, message: Message) returns (ok: bool)
      requires Valid()
      modifies this
      ensures Valid()
      ensures (State(), ok) == AddHistory(old(State()), taskId, message)
    {
      if taskId in history {
        history := history[taskId := history[taskId] + [message]];
        return true;
      }
      return false;
    }

    method UpdateTaskStatus(taskId: string, newState: TaskState, statusMessage: Option<Message>, now: Timestamp)
      returns (ok: bool)
      requires Valid()
      modifies this
      ensures Valid()
      ensures (State(), ok) == UpdateStatus(old(State()), taskId, newState, statusMessage, now)
    {
      if taskId !in tasks {
        return false;
      }
      var status := TaskStatus(newState, statusMessage, now);
      var updated := tasks[taskId].(status := status);
      ghost var s0 := State();
      tasks := tasks[taskId := updated];
      ghost var s1 := State();
      assert s1 == s0.(tasks := s0.tasks[taskId := updated]);
      assert Valid();
      if statusMessage.Some? {
        var _ := AddHistoryMessage(taskId, statusMessage.value);
      }
      ghost var s2 := State();
      assert s2 == if statusMessage.Some? then AddHistory(s1, taskId, statusMessage.value).0 else s1;
      published := published + [StatusUpdate(TaskStatusUpdateEvent(taskId, status, false, None))];
      TriggerPushNotificationIfNeeded(taskId, updated, newState);
      assert pushes == PushesAfter(s2, taskId, updated, newState);
      assert State() == s2.(published := s2.published + [StatusUpdate(TaskStatusUpdateEvent(taskId, status, false, None))],
                            pushes := PushesAfter(s2, taskId, updated, newState));
      ok := true;
      assert (State(), ok) == UpdateStatus(s0, taskId, newState, statusMessage, now);
    }

    method TriggerPushNotificationIfNeeded(taskId: string, updated: Task, newState: TaskState)
      modifies this`pushes
      ensures pushes == if IsNotifiable(newState) && taskId in pushConfigs
                        then old(pushes) + [PushSend(pushConfigs[taskId], updated)] else old(pushes)
    {
      if IsNotifiable(newState) && taskId in pushConfigs {
        pushes := pushes + [PushSend(pushConfigs[taskId], updated)];
      }
    }

    method AddArtifactToTask(taskId: string, artifact: Artifact) returns (ok: bool)
      requires Valid()
      modifies this
      ensures Valid()
      ensures (State(), ok) == AddArtifact(old(State()), taskId, artifact)
    {
      if taskId !in tasks {
        return false;
      }
      var updated := tasks[taskId].(artifacts := Some(WithArtifact(tasks[taskId].artifacts, artifact)));
      tasks := tasks[taskId := updated];
      published := published + [ArtifactUpdate(TaskArtifactUpdateEvent(taskId, artifact, None))];
      ok := true;
    }

    method CancelTask(taskId: string, now: Timestamp) returns (r: Option<Task>)
      requires Valid()
      modifies this
      ensures Valid()
      ensures (State(), r) == Cancel(old(State()), taskId, now)
    {
      if taskId !in tasks || IsTerminal(tasks[taskId].status.state) {
        return None;
      }
      var updated := tasks[taskId].(status := TaskStatus(Canceled, None, now));
      tasks := tasks[taskId := updated];
      r := Some(updated);
    }

    method SetPushNotificationConfig(taskId: string, config: PushNotificationConfig) returns (ok: bool)
      requires Valid()
      modifies this
      ensures Valid()
      ensures (State(), ok) == SetPushConfig(old(State()), taskId, config)
    {
      if taskId !in tasks {
        return false;
      }
      pushConfigs := pushConfigs[taskId := config];
      ok := true;
    }

    function GetPushNotificationConfig(taskId: string): (r: Option<PushNotificationConfig>)
      reads this
    {
      GetPushConfig(pushConfigs, taskId)
    }
  }
}
