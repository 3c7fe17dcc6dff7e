/** The protocol's value objects: messages and their parts, task status and
    state, artifacts, tasks, the two streaming update events, push
    notification settings, the request parameter records and the JSON-RPC
    error detail. Metadata dictionaries and JSON payloads are kept as opaque
    strings. */
module Models {
  import opened Wrappers

  /** `Dictionary<string, object>` metadata, with the values as JSON text. */
  type Metadata = map<string, string>

  datatype FileContent = FileContent(
    name: Option<string>, mimeType: Option<string>, bytes: Option<string>, uri: Option<string>)

  /** A message part, discriminated by its `type` property. */
  datatype Part =
    | TextPart(text: string, metadata: Option<Metadata>)
    | FilePart(file: FileContent, metadata: Option<Metadata>)
    | DataPart(data: string, metadata: Option<Metadata>)

  /** The `type` discriminator written for each kind of part. */
  function PartType(p: Part): string {
    match p
    case TextPart(_, _) => "text"
    case FilePart(_, _) => "file"
    case DataPart(_, _) => "data"
  }

  datatype Message = Message(role: string, parts: seq<Part>, metadata: Option<Metadata>)

  /** What the convenience constructor of `Message` accepts. */
  predicate IsValidMessage(m: Message) {
    (m.role == "user" || m.role == "agent") && |m.parts| > 0
  }

  /** The convenience constructor `Message(role, parts, metadata)`: the role
      must be "user" or "agent" (checked first), the parts list must not be
      null and must not be empty. */
  function NewMessage(role: string, parts: Option<seq<Part>>, metadata: Option<Metadata>)
    : (r: Result<Message, ArgumentError>)
    ensures r.Success? <==> (role == "user" || role == "agent") && parts.Some? && |parts.value| > 0
    ensures r.Success? ==>
      IsValidMessage(r.value) && r.value.role == role && r.value.parts == parts.value
      && r.value.metadata == metadata
    ensures role != "user" && role != "agent" ==>
      r == Failure(ArgumentInvalid("role", "Role must be 'user' or 'agent'."))
    ensures (role == "user" || role == "agent") && parts.None? ==> r == Failure(ArgumentNull("parts"))
    ensures (role == "user" || role == "agent") && parts == Some([]) ==>
      r == Failure(ArgumentInvalid("parts", "Parts list cannot be empty."))
  {
    if role != "user" && role != "agent" then
      Failure(ArgumentInvalid("role", "Role must be 'user' or 'agent'."))
    else if parts.None? then
      Failure(ArgumentNull("parts"))
    else if |parts.value| == 0 then
      Failure(ArgumentInvalid("parts", "Parts list cannot be empty."))
    else
      Success(Message(role, parts.value, metadata))
  }

  /** An agent message holding a single text part. */
  function AgentText(text: string): (m: Message)
    ensures IsValidMessage(m) && m.role == "agent"
  {
    Message("agent", [TextPart(text, None)], None)
  }

  datatype TaskState = Submitted | Working | InputRequired | Completed | Canceled | Failed | Unknown

  /** The wire names of the states. */
  function StateName(s: TaskState): string {
    match s
    case Submitted => "submitted"
    case Working => "working"
    case InputRequired => "input-required"
    case Completed => "completed"
    case Canceled => "canceled"
    case Failed => "failed"
    case Unknown => "unknown"
  }

  /** The states from which a task can no longer be canceled. */
  predicate IsTerminal(s: TaskState) {
    s == Completed || s == Canceled || s == Failed
  }

  /** A point in time (`DateTimeOffset`), supplied by the caller. */
  type Timestamp = int

  datatype TaskStatus = TaskStatus(state: TaskState, message: Option<Message>, timestamp: Timestamp)

  datatype Artifact = Artifact(
    name: Option<string>, description: Option<string>, parts: seq<Part>,
    index: int, append: Option<bool>, lastChunk: Option<bool>, metadata: Option<Metadata>)

  datatype Task = Task(
    id: string, sessionId: Option<string>, status: TaskStatus,
    artifacts: Option<seq<Artifact>>, history: Option<seq<Message>>, metadata: Option<Metadata>)

  datatype TaskStatusUpdateEvent = TaskStatusUpdateEvent(
    id: string, status: TaskStatus, final: bool, metadata: Option<Metadata>)

  datatype TaskArtifactUpdateEvent = TaskArtifactUpdateEvent(
    id: string, artifact: Artifact, metadata: Option<Metadata>)

  /** `TaskUpdateEventBase` and its subclasses; `OtherUpdate` stands for any
      further subclass, which the SSE writer does not know. */
  datatype UpdateEvent =
    | StatusUpdate(statusEvent: TaskStatusUpdateEvent)
    | ArtifactUpdate(artifactEvent: TaskArtifactUpdateEvent)
    | OtherUpdate(otherId: string)

  datatype AgentAuthentication = AgentAuthentication(schemes: seq<string>, credentials: Option<string>)

  datatype PushNotificationConfig = PushNotificationConfig(
    url: string, token: Option<string>, authentication: Option<AgentAuthentication>)

  datatype TaskPushNotificationConfig = TaskPushNotificationConfig(
    id: string, pushNotificationConfig: PushNotificationConfig)

  datatype TaskSendParams = TaskSendParams(
    id: string, sessionId: Option<string>, message: Message,
    pushNotification: Option<PushNotificationConfig>, historyLength: Option<int>,
    metadata: Option<Metadata>)

  datatype TaskQueryParams = TaskQueryParams(id: string, historyLength: Option<int>, metadata: Option<Metadata>)

  datatype TaskIdParams = TaskIdParams(id: string, metadata: Option<Metadata>)

  datatype AgentCapabilities = AgentCapabilities(
    streaming: bool, pushNotifications: bool, stateTransitionHistory: bool)

  /** `JsonRpcErrorDetail`; the data member is kept as JSON text. */
  datatype ErrorDetail = ErrorDetail(code: int, message: string, data: Option<string>)
}
