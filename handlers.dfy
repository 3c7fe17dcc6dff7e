/** The seven JSON-RPC method handlers over the task store and the SSE
    connection manager. Each handler's effect on the store is a function of
    the store's abstract state; the handlers that change the store, or
    register a response stream, are methods proved to have exactly that
    effect. The agent is an `AgentRun` script and the capability flags are
    an `AgentCapabilities` value. */
module Handlers {
  import opened Wrappers
  import opened Models
  import opened ServerErrors
  import opened TaskStore
  import opened Agents
  import opened Sse
  import opened SseConnections
  import opened RequestIds
  import opened RequestIdConverter
  import opened Dispatcher
  import Text

  const GetTaskMethod := "tasks/get"
  const SendTaskMethod := "tasks/send"
  const CancelTaskMethod := "tasks/cancel"
  const SetPushMethod := "tasks/pushNotification/set"
  const GetPushMethod := "tasks/pushNotification/get"
  const SendSubscribeMethod := "tasks/sendSubscribe"
  const ResubscribeMethod := "tasks/resubscribe"

  /** The handler table the dispatcher searches: no handler takes `object`
      parameters, and the two streaming handlers declare `object` results. */
  const Registrations: seq<Registration> := [
    (GetTaskMethod, HandlerInfo(false, false)),
    (SendTaskMethod, HandlerInfo(false, false)),
    (CancelTaskMethod, HandlerInfo(false, false)),
    (SetPushMethod, HandlerInfo(false, false)),
    (GetPushMethod, HandlerInfo(false, false)),
    (SendSubscribeMethod, HandlerInfo(false, true)),
    (ResubscribeMethod, HandlerInfo(false, true))
  ]

  /** Each method name is registered once. */
  lemma RegisteredOnce()
    ensures forall i, j | 0 <= i < j < |Registrations| :: Registrations[i].0 != Registrations[j].0
  {
  }

  /** Every registered method finds its own handler. */
  lemma RegisteredMethods()
    ensures forall i | 0 <= i < |Registrations| ::
      FindHandler(Registrations, Registrations[i].0) == Some(Registrations[i].1)
  {
    RegisteredOnce();
    forall i | 0 <= i < |Registrations|
      ensures FindHandler(Registrations, Registrations[i].0) == Some(Registrations[i].1)
    {
      FindDistinct(Registrations, i);
    }
  }

  /** Only the two streaming methods declare a result type of `object`. */
  lemma StreamingResultsAreObjects()
    ensures forall i | 0 <= i < |Registrations| ::
      (Registrations[i].1.resultTypeIsObject <==> Registrations[i].0 in {SendSubscribeMethod, ResubscribeMethod})
  {
  }

  /** The `Message` of the .NET argument exceptions: the message followed by
      the parameter name. */
  function ArgumentMessage(e: ArgumentError): string {
    match e
    case ArgumentNull(p) => "Value cannot be null. (Parameter '" + p + "')"
    case ArgumentInvalid(p, m) => m + " (Parameter '" + p + "')"
  }

  /** The enum member name that string interpolation of a `TaskState`
      gives (not the wire name). */
  function StateMemberName(s: TaskState): string {
    match s
    case Submitted => "Submitted"
    case Working => "Working"
    case InputRequired => "InputRequired"
    case Completed => "Completed"
    case Canceled => "Canceled"
    case Failed => "Failed"
    case Unknown => "Unknown"
  }

  const PushUnsupportedText: string := "Agent does not support push notifications."
  const TaskStateLostText: string := "Task state lost after processing."
  const SendSubscribeUnsupportedText: string := "Agent does not support streaming (tasks/sendSubscribe)."
  const ResubscribeUnsupportedText: string := "Agent does not support streaming (tasks/resubscribe)."
  const PushConfigRejectedText: string :=
    "Push notification configuration provided, but agent does not support push notifications."
  const EmptyIdText: string := "The value cannot be an empty string."

  function TerminalStateText(taskId: string, state: TaskState): string {
    "Task with ID '" + taskId + "' is in a terminal state (" + StateMemberName(state) + ") and cannot be canceled."
  }

  function PushConfigMissingText(taskId: string): string {
    "Push notification config not found for Task ID '" + taskId + "'."
  }

  function ResubscribeMissingText(taskId: string): string {
    "Task with ID '" + taskId + "' not found for resubscription."
  }

  function NotFound(taskId: string): ServerException {
    ServerException(TaskNotFound, "Task with ID '" + taskId + "' not found.", None)
  }

  // ---------------------------------------------------------------- tasks/get

  /** `GetTaskHandler.HandleAsync`: the store's copy of the task, read with
      the requested history length, or -32001 for an unknown id. */
  function GetTaskOutcome(s: StoreState, p: TaskQueryParams): (r: HandlerOutcome<Task>)
    requires WellFormed(s)
    ensures r.ThrewServer? <==> p.id !in s.tasks
    ensures r.ThrewServer? ==> r.error == NotFound(p.id)
    ensures r.Returned? ==>
      r.result.Some? && r.result.value.id == p.id && r.result.value.status == s.tasks[p.id].status
      && r.result.value.artifacts == s.tasks[p.id].artifacts
      && r.result == ReadTask(s.tasks, s.history, p.id, p.historyLength)
    ensures !r.ThrewOther?
  {
    var t := ReadTask(s.tasks, s.history, p.id, p.historyLength);
    if t.None? then ThrewServer(NotFound(p.id)) else Returned(t)
  }

  // ------------------------------------------------------------- tasks/cancel

  /** `CancelTaskHandler.HandleAsync`: the canceled task, or, when the store
      refuses, -32001 for an unknown id and -32002 naming the state of a task
      that is already terminal. A refused cancel changes nothing. */
  function CancelOutcome(s: StoreState, p: TaskIdParams, now: Timestamp): (r: (StoreState, HandlerOutcome<Task>))
    requires WellFormed(s)
    ensures WellFormed(r.0)
    ensures r.1.Returned? <==> p.id in s.tasks && !IsTerminal(s.tasks[p.id].status.state)
    ensures !r.1.Returned? ==> r.0 == s
    ensures p.id !in s.tasks ==> r.1 == ThrewServer(NotFound(p.id))
    ensures p.id in s.tasks && IsTerminal(s.tasks[p.id].status.state) ==>
      r.1 == ThrewServer(ServerException(TaskNotCancelable,
        TerminalStateText(p.id, s.tasks[p.id].status.state), None))
    ensures r.1.Returned? ==>
      p.id in r.0.tasks && r.1.result == Some(r.0.tasks[p.id]) && r.0.tasks[p.id].status == TaskStatus(Canceled, None, now)
      && r.0.published == s.published && r.0.pushes == s.pushes
  {
    var (s1, updated) := Cancel(s, p.id, now);
    if updated.None? then
      var existing := ReadTask(s1.tasks, s1.history, p.id, Some(0));
      if existing.None? then (s1, ThrewServer(NotFound(p.id)))
      else (s1, ThrewServer(ServerException(TaskNotCancelable,
              TerminalStateText(p.id, existing.value.status.state), None)))
    else (s1, Returned(updated))
  }

  method HandleCancelTask(store: InMemoryTaskManager, p: TaskIdParams, now: Timestamp)
    returns (r: HandlerOutcome<Task>)
    requires store.Valid()
    modifies store
    ensures store.Valid()
    ensures (store.State(), r) == CancelOutcome(old(store.State()), p, now)
  {
    var updated := store.CancelTask(p.id, now);
    if updated.None? {
      var existing := store.GetTask(p.id, Some(0));
      if existing.None? {
        return ThrewServer(NotFound(p.id));
      }
      return ThrewServer(ServerException(TaskNotCancelable,
        TerminalStateText(p.id, existing.value.status.state), None));
    }
    r := Returned(updated);
  }

  /** Once canceled, a task reads back as Canceled. */
  lemma CancelThenGet(s: StoreState, p: TaskIdParams, now: Timestamp, n: Option<int>)
    requires WellFormed(s) && p.id in s.tasks && !IsTerminal(s.tasks[p.id].status.state)
    ensures var r := GetTaskOutcome(CancelOutcome(s, p, now).0, TaskQueryParams(p.id, n, None));
      r.Returned? && r.result.value.status.state == Canceled
  {
  }

  /** A second cancel of the same task is refused with -32002. */
  lemma CancelTwice(s: StoreState, p: TaskIdParams, now: Timestamp, later: Timestamp)
    requires WellFormed(s) && p.id in s.tasks && !IsTerminal(s.tasks[p.id].status.state)
    ensures var s1 := CancelOutcome(s, p, now).0;
      var r := CancelOutcome(s1, p, later);
      r.0 == s1 && r.1.ThrewServer? && r.1.error.errorCode == TaskNotCancelable
  {
  }

  // -------------------------------------------------- tasks/pushNotification

  /** `SetPushNotificationHandler.HandleAsync`: -32003 when push is not
      supported, before the store is touched; -32001 when the store has no
      such task; otherwise the settings are stored and the parameters are
      returned unchanged. */
  function SetPushOutcome(s: StoreState, caps: AgentCapabilities, p: TaskPushNotificationConfig)
    : (r: (StoreState, HandlerOutcome<TaskPushNotificationConfig>))
    requires WellFormed(s)
    ensures WellFormed(r.0)
    ensures !caps.pushNotifications ==>
      r == (s, ThrewServer(ServerException(PushNotificationNotSupported, PushUnsupportedText, None)))
    ensures caps.pushNotifications && p.id !in s.tasks ==> r == (s, ThrewServer(NotFound(p.id)))
    ensures caps.pushNotifications && p.id in s.tasks ==>
      r.1 == Returned(Some(p)) && r.0 == s.(pushConfigs := s.pushConfigs[p.id := p.pushNotificationConfig])
  {
    if !caps.pushNotifications then
      (s, ThrewServer(ServerException(PushNotificationNotSupported, PushUnsupportedText, None)))
    else
      var (s1, success) := SetPushConfig(s, p.id, p.pushNotificationConfig);
      if !success then (s1, ThrewServer(NotFound(p.id))) else (s1, Returned(Some(p)))
  }

  method HandleSetPush(store: InMemoryTaskManager, caps: AgentCapabilities, p: TaskPushNotificationConfig)
    returns (r: HandlerOutcome<TaskPushNotificationConfig>)
    requires store.Valid()
    modifies store
    ensures store.Valid()
    ensures (store.State(), r) == SetPushOutcome(old(store.State()), caps, p)
  {
    if !caps.pushNotifications {
      return ThrewServer(ServerException(PushNotificationNotSupported, PushUnsupportedText, None));
    }
    var success := store.SetPushNotificationConfig(p.id, p.pushNotificationConfig);
    if !success {
      return ThrewServer(NotFound(p.id));
    }
    r := Returned(Some(p));
  }

  /** `GetPushNotificationHandler.HandleAsync`: -32003 when push is not
      supported; -32001 when no settings are stored; otherwise the stored
      settings together with the requested id. */
  function GetPushOutcome(s: StoreState, caps: AgentCapabilities, p: TaskIdParams)
    : (r: HandlerOutcome<TaskPushNotificationConfig>)
    ensures !caps.pushNotifications ==>
      r == ThrewServer(ServerException(PushNotificationNotSupported, PushUnsupportedText, None))
    ensures caps.pushNotifications && p.id !in s.pushConfigs ==>
      r == ThrewServer(ServerException(TaskNotFound, PushConfigMissingText(p.id), None))
    ensures r.Returned? <==> caps.pushNotifications && p.id in s.pushConfigs
    ensures r.Returned? ==> r.result == Some(TaskPushNotificationConfig(p.id, s.pushConfigs[p.id]))
  {
    if !caps.pushNotifications then
      ThrewServer(ServerException(PushNotificationNotSupported, PushUnsupportedText, None))
    else
      match GetPushConfig(s.pushConfigs, p.id)
      case None =>
        ThrewServer(ServerException(TaskNotFound, PushConfigMissingText(p.id), None))
      case Some(config) => Returned(Some(TaskPushNotificationConfig(p.id, config)))
  }

  /** What `set` accepts, `get` returns: the same id and settings. */
  lemma SetThenGetPush(s: StoreState, caps: AgentCapabilities, p: TaskPushNotificationConfig, m: Option<Metadata>)
    requires WellFormed(s) && caps.pushNotifications && p.id in s.tasks
    ensures GetPushOutcome(SetPushOutcome(s, caps, p).0, caps, TaskIdParams(p.id, m)) == SetPushOutcome(s, caps, p).1
  {
  }

  // --------------------------------------------------------------- tasks/send

  /** The store after the task is created (or found) and the supplied push
      settings, if any, are stored. */
  function Prepared(s: StoreState, p: TaskSendParams, generatedSessionId: string, now: Timestamp): (r: StoreState)
    requires WellFormed(s) && p.id != ""
    ensures WellFormed(r) && p.id in r.tasks && r.tasks[p.id].id == p.id
    ensures r.tasks.Keys == s.tasks.Keys + {p.id}
    ensures forall id | id in s.tasks && id != p.id :: r.tasks[id] == s.tasks[id] && r.history[id] == s.history[id]
    ensures r.published == s.published && r.pushes == s.pushes
    ensures p.pushNotification.Some? ==> GetPushConfig(r.pushConfigs, p.id) == p.pushNotification
    ensures p.pushNotification.None? ==> r.pushConfigs == s.pushConfigs
  {
    var s1 := CreateOrGet(s, p.id, p.message, p.sessionId, generatedSessionId, now).0;
    if p.pushNotification.Some? then SetPushConfig(s1, p.id, p.pushNotification.value).0 else s1
  }

  function AgentFailureMessage(detail: string): string {
    "Agent processing failed: " + detail
  }

  /** `SendTaskHandler.HandleAsync`. The task is created or found (an empty
      id throws before anything else), the push settings are stored when
      supplied, whatever the capabilities, and the agent runs. A normal end
      returns the task re-read with the requested history length; an
      `A2AServerException` from the agent propagates and leaves the task as
      the agent left it; any other exception marks the task Failed with an
      agent message and becomes -32603. */
  function SendTaskOutcome(s: StoreState, p: TaskSendParams, run: AgentRun, generatedSessionId: string,
                           now: Timestamp, failedAt: Timestamp)
    : (r: (StoreState, HandlerOutcome<Task>))
    requires WellFormed(s)
    ensures WellFormed(r.0)
    ensures p.id == "" ==>
      r == (s, ThrewOther(ArgumentMessage(ArgumentInvalid("taskId", EmptyIdText))))
    ensures p.id != "" ==> r.0.tasks.Keys == s.tasks.Keys + {p.id}
    ensures forall id | id in s.tasks && id != p.id :: r.0.tasks[id] == s.tasks[id]
    ensures p.id != "" && p.pushNotification.Some? ==> GetPushConfig(r.0.pushConfigs, p.id) == p.pushNotification
    ensures p.id != "" && run.end.RaisedServer? ==> r.1 == ThrewServer(run.end.error)
    ensures p.id != "" && run.end.RaisedOther? ==>
      r.1 == ThrewServer(ServerException(InternalError, AgentFailureMessage(run.end.message), None))
      && r.0.tasks[p.id].status == TaskStatus(Failed, Some(AgentText(AgentFailureMessage(run.end.message))), failedAt)
    ensures p.id != "" && run.end.Finished? ==>
      r.1.Returned? && r.1.result.Some? && r.1.result.value.id == p.id
      && r.1.result == ReadTask(r.0.tasks, r.0.history, p.id, p.historyLength)
  {
    var (s1, created) := CreateOrGet(s, p.id, p.message, p.sessionId, generatedSessionId, now);
    if created.Failure? then (s1, ThrewOther(ArgumentMessage(created.error)))
    else
      var task := created.value;
      var s2 := if p.pushNotification.Some? then SetPushConfig(s1, task.id, p.pushNotification.value).0 else s1;
      assert s2 == Prepared(s, p, generatedSessionId, now);
      ApplyStepsFrame(s2, task.id, run.steps);
      var s3 := ApplySteps(s2, task.id, run.steps);
      match run.end
      case Finished =>
        var t := ReadTask(s3.tasks, s3.history, task.id, p.historyLength);
        if t.None? then (s3, ThrewServer(ServerException(InternalError, TaskStateLostText, None)))
        else (s3, Returned(t))
      case RaisedServer(e) => (s3, ThrewServer(e))
      case RaisedOther(m) =>
        (UpdateStatus(s3, task.id, Failed, Some(AgentText(AgentFailureMessage(m))), failedAt).0,
         ThrewServer(ServerException(InternalError, AgentFailureMessage(m), None)))
  }

  method HandleSendTask(store: InMemoryTaskManager, p: TaskSendParams, run: AgentRun, generatedSessionId: string,
                        now: Timestamp, failedAt: Timestamp)
    returns (r: HandlerOutcome<Task>)
    requires store.Valid()
    modifies store
    ensures store.Valid()
    ensures (store.State(), r) == SendTaskOutcome(old(store.State()), p, run, generatedSessionId, now, failedAt)
  {
    var created := store.CreateOrGetTask(p.id, p.message, p.sessionId, generatedSessionId, now);
    if created.Failure? {
      return ThrewOther(ArgumentMessage(created.error));
    }
    var task := created.value;
    if p.pushNotification.Some? {
      var _ := store.SetPushNotificationConfig(task.id, p.pushNotification.value);
    }
    var end, _ := RunAgent(store, task.id, run);
    match end {
      case Finished =>
        var finalTask := store.GetTask(task.id, p.historyLength);
        if finalTask.None? {
          return ThrewServer(ServerException(InternalError, TaskStateLostText, None));
        }
        r := Returned(finalTask);
      case RaisedServer(e) =>
        r := ThrewServer(e);
      case RaisedOther(m) =>
        var _ := store.UpdateTaskStatus(task.id, Failed, Some(AgentText(AgentFailureMessage(m))), failedAt);
        r := ThrewServer(ServerException(InternalError, AgentFailureMessage(m), None));
    }
  }

  /** Whatever the agent does, a normal end never reports a lost task, and
      the reply carries the state the agent left, not the state before it
      ran. */
  lemma {:induction false} SendTaskReturnsAgentState(s: StoreState, p: TaskSendParams, run: AgentRun, generatedSessionId: string,
                                  now: Timestamp, failedAt: Timestamp)
    requires WellFormed(s) && p.id != "" && run.end.Finished?
    ensures var s2 := Prepared(s, p, generatedSessionId, now);
      var r := SendTaskOutcome(s, p, run, generatedSessionId, now, failedAt);
      r.0 == ApplySteps(s2, p.id, run.steps)
      && r.1.result.value.(history := None) == ApplySteps(s2, p.id, run.steps).tasks[p.id].(history := None)
  {
    var s2 := Prepared(s, p, generatedSessionId, now);
    ApplyStepsFrame(s2, p.id, run.steps);
  }

  // --------------------------------------------------------- tasks/sendSubscribe

  /** The synchronous checks and store updates of
      `SendTaskSubscribeHandler.HandleAsync`: -32004 without streaming,
      before the store is touched; the task is then created or found; a
      supplied push configuration without push support is -32602, which
      leaves the task created; an allowed one is stored. `Success` carries
      the task whose stream is to be registered. */
  function SubscribeSetup(s: StoreState, caps: AgentCapabilities, p: TaskSendParams, generatedSessionId: string,
                          now: Timestamp)
    : (r: (StoreState, Result<Task, HandlerOutcome<()>>))
    requires WellFormed(s)
    ensures WellFormed(r.0)
    ensures !caps.streaming ==>
      r == (s, Failure(ThrewServer(ServerException(UnsupportedOperation,
                 SendSubscribeUnsupportedText, None))))
    ensures caps.streaming && p.id == "" ==>
      r == (s, Failure(ThrewOther(ArgumentMessage(ArgumentInvalid("taskId", EmptyIdText)))))
    ensures caps.streaming && p.id != "" ==>
      r.0.tasks.Keys == s.tasks.Keys + {p.id} && r.0.published == s.published && r.0.pushes == s.pushes
      && (forall id | id in s.tasks && id != p.id :: r.0.tasks[id] == s.tasks[id])
    ensures caps.streaming && p.id != "" && p.pushNotification.Some? && !caps.pushNotifications ==>
      r.0.pushConfigs == s.pushConfigs
      && r.1 == Failure(ThrewServer(ServerException(InvalidParams,
                  PushConfigRejectedText, None)))
    ensures r.1.Success? <==> caps.streaming && p.id != "" && (p.pushNotification.Some? ==> caps.pushNotifications)
    ensures r.1.Success? ==>
      r.1.value.id == p.id && r.0 == Prepared(s, p, generatedSessionId, now)
  {
    if !caps.streaming then
      (s, Failure(ThrewServer(ServerException(UnsupportedOperation,
            SendSubscribeUnsupportedText, None))))
    else
      var (s1, created) := CreateOrGet(s, p.id, p.message, p.sessionId, generatedSessionId, now);
      if created.Failure? then (s1, Failure(ThrewOther(ArgumentMessage(created.error))))
      else
        var task := created.value;
        if p.pushNotification.Some? && !caps.pushNotifications then
          (s1, Failure(ThrewServer(ServerException(InvalidParams,
                 PushConfigRejectedText, None))))
        else if p.pushNotification.Some? then (SetPushConfig(s1, task.id, p.pushNotification.value).0, Success(task))
        else (s1, Success(task))
  }

  method SetUpSubscription(store: InMemoryTaskManager, caps: AgentCapabilities, p: TaskSendParams,
                           generatedSessionId: string, now: Timestamp)
    returns (setup: Result<Task, HandlerOutcome<()>>)
    requires store.Valid()
    modifies store
    ensures store.Valid()
    ensures (store.State(), setup) == SubscribeSetup(old(store.State()), caps, p, generatedSessionId, now)
  {
    if !caps.streaming {
      return Failure(ThrewServer(ServerException(UnsupportedOperation,
        SendSubscribeUnsupportedText, None)));
    }
    var created := store.CreateOrGetTask(p.id, p.message, p.sessionId, generatedSessionId, now);
    if created.Failure? {
      return Failure(ThrewOther(ArgumentMessage(created.error)));
    }
    var task := created.value;
    if p.pushNotification.Some? {
      if !caps.pushNotifications {
        return Failure(ThrewServer(ServerException(InvalidParams,
          PushConfigRejectedText, None)));
      }
      var _ := store.SetPushNotificationConfig(task.id, p.pushNotification.value);
    }
    setup := Success(task);
  }

  /** The background run of the agent: its steps, and after any exception
      (an `A2AServerException` included) a Failed status with an agent
      message naming it. */
  function BackgroundRun(s: StoreState, taskId: string, run: AgentRun, failedAt: Timestamp): (r: StoreState)
    requires WellFormed(s)
    ensures WellFormed(r)
    ensures Preserves(s, r, taskId) && Preserves(ApplySteps(s, taskId, run.steps), r, taskId)
    ensures run.end.Finished? ==> r == ApplySteps(s, taskId, run.steps)
    ensures taskId in s.tasks && run.end.RaisedOther? ==>
      r.tasks[taskId].status == TaskStatus(Failed, Some(AgentText(AgentFailureMessage(run.end.message))), failedAt)
    ensures taskId in s.tasks && run.end.RaisedServer? ==>
      r.tasks[taskId].status == TaskStatus(Failed, Some(AgentText(AgentFailureMessage(run.end.error.message))), failedAt)
  {
    ApplyStepsFrame(s, taskId, run.steps);
    var s1 := ApplySteps(s, taskId, run.steps);
    match run.end
    case Finished => s1
    case RaisedServer(e) =>
      var r := UpdateStatus(s1, taskId, Failed, Some(AgentText(AgentFailureMessage(e.message))), failedAt).0;
      StepPreserves(s1, taskId, ReportStatus(Failed, Some(AgentText(AgentFailureMessage(e.message))), failedAt));
      PreservesTransitive(s, s1, r, taskId);
      r
    case RaisedOther(m) =>
      var r := UpdateStatus(s1, taskId, Failed, Some(AgentText(AgentFailureMessage(m))), failedAt).0;
      StepPreserves(s1, taskId, ReportStatus(Failed, Some(AgentText(AgentFailureMessage(m))), failedAt));
      PreservesTransitive(s, s1, r, taskId);
      r
  }

  /** `Task.Run(work, token)`: the work does not start when the token is
      already cancelled. */
  method StartBackground(store: InMemoryTaskManager, taskId: string, run: AgentRun, failedAt: Timestamp,
                         tokenCancelled: bool)
    requires store.Valid()
    modifies store
    ensures store.Valid()
    ensures store.State() == if tokenCancelled then old(store.State()) else BackgroundRun(old(store.State()), taskId, run, failedAt)
  {
    if tokenCancelled {
      return;
    }
    ghost var s0 := store.State();
    ApplyStepsFrame(s0, taskId, run.steps);
    var end, _ := RunAgent(store, taskId, run);
    match end {
      case Finished =>
      case RaisedServer(e) =>
        var _ := store.UpdateTaskStatus(taskId, Failed, Some(AgentText(AgentFailureMessage(e.message))), failedAt);
      case RaisedOther(m) =>
        var _ := store.UpdateTaskStatus(taskId, Failed, Some(AgentText(AgentFailureMessage(m))), failedAt);
    }
  }

  /** `SendTaskSubscribeHandler.HandleAsync` as written. `AddConnectionAsync`
      is awaited, so it returns only after the request's token is cancelled
      and the stream is removed again; the agent is then handed to
      `Task.Run` with that cancelled token and never starts. The store ends
      as the synchronous setup left it, and the stream only ever receives
      keep-alive pings. */
  method HandleSendSubscribe(store: InMemoryTaskManager, sse: InMemorySseConnectionManager, caps: AgentCapabilities,
                             p: TaskSendParams, context: SseConnection, pings: nat, run: AgentRun,
                             generatedSessionId: string, now: Timestamp, failedAt: Timestamp)
    returns (r: HandlerOutcome<()>)
    requires store.Valid() && sse.Valid() && context !in sse.Snapshot(p.id)
    modifies store, sse, context
    ensures store.Valid() && sse.Valid() && sse.connections == old(sse.connections)
    ensures var setup := SubscribeSetup(old(store.State()), caps, p, generatedSessionId, now);
      store.State() == setup.0
      && r == (if setup.1.Failure? then setup.1.error else Returned(None))
      && context.body == old(context.body) + (if setup.1.Success? && context.Writable() then Pings(pings) else "")
      && context.contentType == (if setup.1.Success? then Some("text/event-stream") else old(context.contentType))
      && context.headers == old(context.headers)
           + (if setup.1.Success? then [("Cache-Control", "no-cache"), ("Connection", "keep-alive")] else [])
  {
    var setup := SetUpSubscription(store, caps, p, generatedSessionId, now);
    if setup.Failure? {
      return setup.error;
    }
    var task := setup.value;
    sse.AddConnection(task.id, context, pings);
    // the awaited registration ends only once the token is cancelled
    StartBackground(store, task.id, run, failedAt, true);
    r := Returned(None);
  }

  /** The events published between two states of the store. */
  function PublishedSince(s: StoreState, r: StoreState): seq<UpdateEvent> {
    if |s.published| <= |r.published| then r.published[|s.published|..] else []
  }

  /** The agent's background run, reporting the events the store hands to
      `SendUpdateAsync` in the order it hands them over: the store ends as
      `BackgroundRun`, and the events are exactly those the run published. */
  method RunAgentReporting(store: InMemoryTaskManager, taskId: string, run: AgentRun, failedAt: Timestamp)
    returns (events: seq<UpdateEvent>)
    requires store.Valid()
    modifies store
    ensures store.Valid()
    ensures store.State() == BackgroundRun(old(store.State()), taskId, run, failedAt)
    ensures events == PublishedSince(old(store.State()), store.State())
  {
    ghost var s0 := store.State();
    FailureReportCompletesRun(s0, taskId, run, failedAt);
    var end;
    end, events := RunAgent(store, taskId, run);
    if !end.Finished? {
      var done := events;
      var more := PerformStepReporting(store, taskId, FailureReport(end, failedAt));
      events := done + more;
      Text.Assoc3(s0.published, done, more);
    }
    assert store.published[..|s0.published|] == s0.published;
  }

  /** A run that ended in an exception is its steps followed by the
      failure report. */
  lemma FailureReportCompletesRun(s: StoreState, taskId: string, run: AgentRun, failedAt: Timestamp)
    requires WellFormed(s)
    ensures BackgroundRun(s, taskId, run, failedAt)
      == if run.end.Finished? then ApplySteps(s, taskId, run.steps)
         else ApplyStep(ApplySteps(s, taskId, run.steps), taskId, FailureReport(run.end, failedAt))
  {
  }

  /** The Failed status a run that ended in an exception gets. */
  function FailureReport(end: AgentEnd, failedAt: Timestamp): AgentStep
    requires !end.Finished?
  {
    var reason := if end.RaisedServer? then end.error.message else end.message;
    ReportStatus(Failed, Some(AgentText(AgentFailureMessage(reason))), failedAt)
  }

  /** The stream's side of the intended `tasks/sendSubscribe`: the response
      is prepared and registered, every event of the run is published to
      the task's streams, and the keep-alive loop then pings it until the
      request is cancelled and removes it. */
  method StreamRun(sse: InMemorySseConnectionManager, taskId: string, context: SseConnection,
                   events: seq<UpdateEvent>, toJson: UpdateEvent -> string, pings: nat)
    requires sse.Valid() && context !in sse.Snapshot(taskId)
    modifies sse, context, (set c | c in sse.Snapshot(taskId))`body
    ensures sse.Valid()
    ensures context.body == old(context.body) + Outputs(context, events, toJson)
                              + (if context.Writable() then Pings(pings) else "")
    ensures context.contentType == Some("text/event-stream")
    ensures context.headers == old(context.headers) + [("Cache-Control", "no-cache"), ("Connection", "keep-alive")]
    ensures context !in sse.Snapshot(taskId)
    ensures forall c | c in sse.Snapshot(taskId) :: c in old(sse.Snapshot(taskId))
    ensures forall t | t != taskId :: sse.Snapshot(t) == old(sse.Snapshot(t))
  {
    ghost var before := sse.Snapshot(taskId);
    PrepareSseStream(context);
    sse.Register(taskId, context);
    assert sse.Snapshot(taskId) == before + [context];
    assert forall t | t != taskId :: sse.Snapshot(t) == old(sse.Snapshot(t));
    sse.SendUpdates(taskId, events, toJson);
    ghost var during := sse.Snapshot(taskId);
    ghost var others := sse.connections;
    sse.KeepAlive(taskId, context, pings);
    assert forall t | t != taskId :: sse.Snapshot(t) == old(sse.Snapshot(t)) by {
      forall t | t != taskId
        ensures sse.Snapshot(t) == old(sse.Snapshot(t))
      {
        assert t in others ==> t in sse.connections && sse.connections[t] == others[t];
      }
    }
    forall x
      ensures x in sse.Snapshot(taskId) <==> x in during && x != context
    {
      if during != [] {
        RemoveFirstMembers(during, context, x);
      }
    }
  }

  /** `SendTaskSubscribeHandler.HandleAsync` as its comments intend: the
      stream is registered, the agent runs while the stream is open, each
      status and artifact event it publishes reaching the stream, and only
      then does the keep-alive loop hold the request until it is cancelled
      and the stream is removed. */
  method HandleSendSubscribeStreaming(store: InMemoryTaskManager, sse: InMemorySseConnectionManager,
                                      caps: AgentCapabilities, p: TaskSendParams, context: SseConnection, pings: nat,
                                      run: AgentRun, generatedSessionId: string, now: Timestamp, failedAt: Timestamp,
                                      toJson: UpdateEvent -> string)
    returns (r: HandlerOutcome<()>)
    requires store.Valid() && sse.Valid() && context !in sse.Snapshot(p.id)
    modifies store, sse, context, (set c | c in sse.Snapshot(p.id))`body
    ensures store.Valid() && sse.Valid()
    ensures var setup := SubscribeSetup(old(store.State()), caps, p, generatedSessionId, now);
      store.State() == (if setup.1.Success? then BackgroundRun(setup.0, p.id, run, failedAt) else setup.0)
      && r == (if setup.1.Failure? then setup.1.error else Returned(None))
    ensures SubscribeSetup(old(store.State()), caps, p, generatedSessionId, now).1.Success? ==>
      context.body == old(context.body) + Outputs(context, PublishedSince(old(store.State()), store.State()), toJson)
                        + (if context.Writable() then Pings(pings) else "")
      && context.contentType == Some("text/event-stream")
      && context.headers == old(context.headers) + [("Cache-Control", "no-cache"), ("Connection", "keep-alive")]
    ensures SubscribeSetup(old(store.State()), caps, p, generatedSessionId, now).1.Failure? ==>
      context.body == old(context.body) && context.contentType == old(context.contentType)
      && context.headers == old(context.headers)
    ensures context !in sse.Snapshot(p.id)
    ensures forall c | c in sse.Snapshot(p.id) :: c in old(sse.Snapshot(p.id))
    ensures forall t | t != p.id :: sse.Snapshot(t) == old(sse.Snapshot(t))
  {
    ghost var s0 := store.State();
    ghost var expected := SubscribeSetup(s0, caps, p, generatedSessionId, now);
    var setup := SetUpSubscription(store, caps, p, generatedSessionId, now);
    assert store.State() == expected.0 && setup == expected.1;
    if setup.Failure? {
      return setup.error;
    }
    var task := setup.value;
    assert task.id == p.id && store.published == s0.published;
    ghost var s1 := store.State();
    ghost var b1 := context.body;
    RunWhileStreaming(store, sse, task.id, context, run, failedAt, toJson, pings);
    ghost var received := Outputs(context, PublishedSince(s1, store.State()), toJson);
    assert PublishedSince(s1, store.State()) == PublishedSince(s0, store.State());
    assert b1 == old(context.body);
    assert context.body == b1 + received + (if context.Writable() then Pings(pings) else "");
    r := Returned(None);
  }

  /** The success path of the intended `tasks/sendSubscribe`: the agent's
      run, with every event it publishes written to the open stream. */
  method RunWhileStreaming(store: InMemoryTaskManager, sse: InMemorySseConnectionManager, taskId: string,
                           context: SseConnection, run: AgentRun, failedAt: Timestamp,
                           toJson: UpdateEvent -> string, pings: nat)
    requires store.Valid() && sse.Valid() && context !in sse.Snapshot(taskId)
    modifies store, sse, context, (set c | c in sse.Snapshot(taskId))`body
    ensures store.Valid() && sse.Valid()
    ensures store.State() == BackgroundRun(old(store.State()), taskId, run, failedAt)
    ensures context.body == old(context.body) + Outputs(context, PublishedSince(old(store.State()), store.State()), toJson)
                              + (if context.Writable() then Pings(pings) else "")
    ensures context.contentType == Some("text/event-stream")
    ensures context.headers == old(context.headers) + [("Cache-Control", "no-cache"), ("Connection", "keep-alive")]
    ensures context !in sse.Snapshot(taskId)
    ensures forall c | c in sse.Snapshot(taskId) :: c in old(sse.Snapshot(taskId))
    ensures forall t | t != taskId :: sse.Snapshot(t) == old(sse.Snapshot(t))
  {
    var events := RunAgentReporting(store, taskId, run, failedAt);
    StreamRun(sse, taskId, context, events, toJson, pings);
  }

  /** The discrepancy: as written, the setup of a subscription publishes
      nothing, and the agent never runs, so the subscriber never sees an
      update. Started while the stream is open, an agent whose first
      update reports a status has that status event published first, and
      a writable subscriber's stream begins with its frame. */
  lemma SubscriberSeesFirstStatus(s: StoreState, caps: AgentCapabilities, p: TaskSendParams, run: AgentRun,
                                  generatedSessionId: string, now: Timestamp, failedAt: Timestamp,
                                  c: SseConnection, toJson: UpdateEvent -> string)
    requires WellFormed(s)
    requires caps.streaming && p.id != "" && (p.pushNotification.Some? ==> caps.pushNotifications)
    requires run.steps != [] && run.steps[0].ReportStatus?
    requires c.Writable()
    ensures var setup := SubscribeSetup(s, caps, p, generatedSessionId, now);
      var events := PublishedSince(s, BackgroundRun(setup.0, p.id, run, failedAt));
      setup.0.published == s.published
      && |events| >= 1 && events[0] == EventOf(p.id, run.steps[0])
      && Text.StartsWith(Outputs(c, events, toJson), EventFrame("TaskStatusUpdateEvent", toJson(events[0])))
  {
    var s2 := SubscribeSetup(s, caps, p, generatedSessionId, now).0;
    RunPublishesFirst(s2, p.id, run, failedAt);
    var events := PublishedSince(s2, BackgroundRun(s2, p.id, run, failedAt));
    OutputsStartWithFirst(c, events, toJson);
  }

  /** A run whose first update reports a status on a known task publishes
      that status event first. */
  lemma RunPublishesFirst(s: StoreState, taskId: string, run: AgentRun, failedAt: Timestamp)
    requires WellFormed(s) && taskId in s.tasks && run.steps != [] && run.steps[0].ReportStatus?
    ensures var events := PublishedSince(s, BackgroundRun(s, taskId, run, failedAt));
      |events| >= 1 && events[0] == EventOf(taskId, run.steps[0])
  {
    var a := ApplySteps(s, taskId, run.steps);
    var r := BackgroundRun(s, taskId, run, failedAt);
    FirstReportPublishes(s, taskId, run.steps);
    assert r.published[..|a.published|] == a.published;
    assert r.published[|s.published|] == a.published[..|s.published| + 1][|s.published|];
  }

  /** A writable stream's output begins with the frame of the first event. */
  lemma OutputsStartWithFirst(c: SseConnection, events: seq<UpdateEvent>, toJson: UpdateEvent -> string)
    requires c.Writable() && events != [] && events[0].StatusUpdate?
    ensures Text.StartsWith(Outputs(c, events, toJson), EventFrame("TaskStatusUpdateEvent", toJson(events[0])))
  {
    var e := events[0];
    assert events == [e] + events[1..];
    OutputsAppend(c, [e], events[1..], toJson);
    assert [e][..0] == [];
    assert Outputs(c, [e], toJson) == EventFrame("TaskStatusUpdateEvent", toJson(e));
  }

  /** A script that starts by reporting a status on a known task publishes
      that status event first, whatever follows it. */
  lemma FirstReportPublishes(s: StoreState, taskId: string, steps: seq<AgentStep>)
    requires WellFormed(s) && taskId in s.tasks && steps != [] && steps[0].ReportStatus?
    ensures var r := ApplySteps(s, taskId, steps);
      |r.published| > |s.published| && r.published[..|s.published| + 1] == s.published + [EventOf(taskId, steps[0])]
  {
    var first := steps[0];
    var s1 := ApplyStep(s, taskId, first);
    assert ApplySteps(s, taskId, [first]) == s1 by {
      assert [first][..0] == [];
    }
    ApplyStepsAppend(s, taskId, [first], steps[1..]);
    assert [first] + steps[1..] == steps;
    ApplyStepsFrame(s1, taskId, steps[1..]);
    StepEventsPublished(s, taskId, first);
  }

  // ---------------------------------------------------------- tasks/resubscribe

  /** `ResubscribeTaskHandler.HandleAsync`: -32004 without streaming;
      -32001 when the task is unknown (read with history length 0); any
      known task, terminal or not, gets its stream registered and null is
      returned. */
  function ResubscribeOutcome(s: StoreState, caps: AgentCapabilities, p: TaskQueryParams): (r: HandlerOutcome<()>)
    ensures !caps.streaming ==>
      r == ThrewServer(ServerException(UnsupportedOperation, ResubscribeUnsupportedText, None))
    ensures caps.streaming && p.id !in s.tasks ==>
      r == ThrewServer(ServerException(TaskNotFound, ResubscribeMissingText(p.id), None))
    ensures r.Returned? <==> caps.streaming && p.id in s.tasks
    ensures r.Returned? ==> r.result.None?
  {
    if !caps.streaming then
      ThrewServer(ServerException(UnsupportedOperation, ResubscribeUnsupportedText, None))
    else if ReadTask(s.tasks, s.history, p.id, Some(0)).None? then
      ThrewServer(ServerException(TaskNotFound, ResubscribeMissingText(p.id), None))
    else Returned(None)
  }

  method HandleResubscribe(store: InMemoryTaskManager, sse: InMemorySseConnectionManager, caps: AgentCapabilities,
                           p: TaskQueryParams, context: SseConnection, pings: nat)
    returns (r: HandlerOutcome<()>)
    requires sse.Valid() && context !in sse.Snapshot(p.id)
    modifies sse, context
    ensures sse.Valid() && sse.connections == old(sse.connections)
    ensures r == ResubscribeOutcome(store.State(), caps, p)
    ensures context.body == old(context.body) + (if r.Returned? && context.Writable() then Pings(pings) else "")
    ensures context.contentType == (if r.Returned? then Some("text/event-stream") else old(context.contentType))
    ensures context.headers == old(context.headers)
              + (if r.Returned? then [("Cache-Control", "no-cache"), ("Connection", "keep-alive")] else [])
  {
    if !caps.streaming {
      return ThrewServer(ServerException(UnsupportedOperation, ResubscribeUnsupportedText, None));
    }
    var task := store.GetTask(p.id, Some(0));
    if task.None? {
      return ThrewServer(ServerException(TaskNotFound, ResubscribeMissingText(p.id), None));
    }
    sse.AddConnection(p.id, context, pings);
    r := Returned(None);
  }

  // --------------------------------------------------------- with the dispatcher

  /** A successful `tasks/sendSubscribe` or `tasks/resubscribe` request
      with an id gets no JSON-RPC envelope: the stream is the response. */
  lemma StreamingRepliesAreEmpty<P>(name: string, idNode: Option<JsonToken>, p: P)
    requires name == SendSubscribeMethod || name == ResubscribeMethod
    requires TryGetRequestId(idNode).Some?
    ensures Dispatch<P, ()>(ObjectDocument(Some(JString(name)), idNode, Some(Decoded(p))), Registrations, Returned(None)) == NoReply
  {
    RegisteredOnce();
    if name == SendSubscribeMethod {
      FindDistinct(Registrations, 5);
    } else {
      FindDistinct(Registrations, 6);
    }
  }

  /** `tasks/get` end to end: a known task comes back in a success envelope
      under the request's id; an unknown one is a -32001 error with status
      500. */
  lemma GetTaskReply(s: StoreState, idNode: Option<JsonToken>, p: TaskQueryParams)
    requires WellFormed(s) && TryGetRequestId(idNode).Some?
    ensures var r := Dispatch(ObjectDocument(Some(JString(GetTaskMethod)), idNode, Some(Decoded(p))), Registrations,
                              GetTaskOutcome(s, p));
      (p.id in s.tasks ==>
         r == SuccessReply(TryGetRequestId(idNode).value, ReadTask(s.tasks, s.history, p.id, p.historyLength)))
      && (p.id !in s.tasks ==>
         r == ErrorReply(TryGetRequestId(idNode), ErrorDetail(TaskNotFound, "Task with ID '" + p.id + "' not found.", None))
         && HttpStatus(r) == Some(500))
  {
    RegisteredMethods();
    assert Registrations[0].0 == GetTaskMethod;
  }
}
