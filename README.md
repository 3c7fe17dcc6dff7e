# A2A task protocol for .NET, modelled in Dafny

This project models the core of a .NET implementation of the Agent-to-Agent
(A2A) protocol. In that protocol a client hands work to an agent as a *task*
over JSON-RPC 2.0 on HTTP and follows the task's progress. There are two
ways to follow it: polling, or a Server-Sent Events (SSE) stream.

The model covers:

- **Request ids.** A JSON-RPC id is a string or a 64-bit integer. The model
  covers its JSON converter and the client's id counter, which wraps around.
- **Server dispatcher.** It parses the request envelope, looks the method up
  in a cached handler table, and decodes the parameters. It then maps the
  handler's outcome or exception to a success envelope, an error envelope
  with its HTTP status, or no envelope at all for the two streaming methods.
- **Seven method handlers.** These are `tasks/get`, `tasks/send`,
  `tasks/cancel`, `tasks/pushNotification/set`, `tasks/pushNotification/get`,
  `tasks/sendSubscribe` and `tasks/resubscribe`.
- **In-memory task store.** It holds tasks, message histories and push
  settings. Every status or artifact change publishes an update event to the
  task's subscribers. A terminal or input-required status also triggers a
  push notification.
- **SSE side of the server.** This is the frame writer, plus the connection
  manager that registers, pings, publishes to and removes response streams.
- **Push notification request builder.**
- **Client side.** This is the classification of a unary JSON-RPC response,
  the null-result checks of the unary calls, and the client's exception
  type. It also covers the line-by-line SSE consumer behind the two
  streaming calls.
- **Sample agent.** It routes on the text of the message to an echo, a joke
  or a story told in chunks.

How the code is modelled:

- Pure decisions are functions with contracts.
- Code that mutates objects is modelled as classes with `modifies` frames:
  - the task store, the connection manager, the handler cache and the client;
  - a response stream, `Sse.SseConnection`.
- Each class's methods are proved equal to a function of the abstract state.
- An agent's work is a script of store updates (`Agents.AgentRun`). Running
  a script is defined once, as a fold of the store's transitions.

Inputs of the model:

- Wall-clock times, generated session ids, JSON (de)serialisation results,
  whether a URL is absolute, and the HTTP exchange seen by the client
  (including whether its response stream can seek) are parameters.
- Cancellation is an input too. For the keep-alive loop it is a number of
  completed delays; for the sample agent it is the index of the delay at
  which the token is seen cancelled.

## Model

| member | source | states |
|---|---|---|
| RequestIds.FromString | src/A2Adotnet.Common/Protocol/Messages/RequestId.cs:28-32 | a null string is rejected with an argument-null error for `value`; otherwise the id holds the string and no number |
| RequestIds.FromLong | src/A2Adotnet.Common/Protocol/Messages/RequestId.cs:37-40 | the id holds the number and no string |
| RequestIds.FromInt | src/A2Adotnet.Common/Protocol/Messages/RequestId.cs:43-45 | an int converts to the numeric id of the same value as a long |
| RequestIds.EqualityIsStructural | src/A2Adotnet.Common/Protocol/Messages/RequestId.cs:47-53 | `Equals` (`RequestIds.Equals`) and `==` hold exactly when both accessors agree, i.e. same variant and payload; `!=` is the negation |
| RequestIds.StringNeverEqualsNumber | src/A2Adotnet.Common/Protocol/Messages/RequestId.cs:47-48 | a string id never equals a numeric id, whatever their texts |
| RequestIds.OneAccessorSet | src/A2Adotnet.Common/Protocol/Messages/RequestId.cs:18-23 | exactly one of `StringValue` and `LongValue` is non-null |
| RequestIds.NumericToStringRoundTrip | src/A2Adotnet.Common/Protocol/Messages/RequestId.cs:50 | the decimal text `RequestIds.ToString` gives a numeric id parses back to its number, negatives included |
| RequestIdConverter.Read | src/A2Adotnet.Common/Protocol/Messages/RequestIdConverter.cs:11-19 | reading succeeds exactly for a string token or an integer token within the long range; a number that is not an Int64 and any other token are errors of their own kinds |
| RequestIdConverter.Write | src/A2Adotnet.Common/Protocol/Messages/RequestIdConverter.cs:21-36 | a string id is written as a JSON string and a numeric id as a JSON integer |
| RequestIdConverter.RoundTrip | src/A2Adotnet.Common/Protocol/Messages/RequestIdConverter.cs:11-36 | reading back what was written gives the same id |
| RequestIdConverter.ReadAsPropertyName | src/A2Adotnet.Common/Protocol/Messages/RequestIdConverter.cs:39-43 | a property name always reads as a string id holding the name |
| RequestIdConverter.PropertyNameRoundTrip | src/A2Adotnet.Common/Protocol/Messages/RequestIdConverter.cs:39-49 | a string id survives the property-name round trip (`WriteAsPropertyName`, the id's `ToString`, then `ReadAsPropertyName`); a numeric id comes back as a string id that does not equal it |
| Models.NewMessage | src/A2Adotnet.Common/Models/Message.cs:30-46 | succeeds exactly for role "user" or "agent" with a non-null, non-empty parts list, keeping role, parts and metadata; each rejection has its own argument error, and the role is checked first |
| Models.AgentText | samples/A2Adotnet.SampleServer/Program.cs:63 | the agent's one-text-part message is a valid message with role "agent" |
| ServerErrors.CodesDistinct | src/A2Adotnet.Server/Abstractions/IA2ARequestHandler.cs:55-66 | the ten error codes are pairwise distinct |
| ServerErrors.CodeRanges | src/A2Adotnet.Server/Abstractions/IA2ARequestHandler.cs:55-66 | the five A2A codes lie in the server range -32099..-32000; the five standard JSON-RPC codes do not |
| Dispatcher.FindHandler | src/A2Adotnet.Server/A2ARequestDispatcher.cs:290-312 | a handler is found exactly when one is registered under the name, and it is the first one so registered |
| Dispatcher.FindDistinct | src/A2Adotnet.Server/A2ARequestDispatcher.cs:290-307 | with distinct names, every registered handler is found under its own name |
| Dispatcher.HandlerCache.GetHandlerInfo | src/A2Adotnet.Server/A2ARequestDispatcher.cs:275-312 | the cached lookup returns what the table search returns, and caches a found handler under its name |
| Dispatcher.TryGetRequestId | src/A2Adotnet.Server/A2ARequestDispatcher.cs:253-272 | an absent id gives none; a present id gives an id exactly when the converter reads it, and then that id |
| Dispatcher.TryGetRequestIdRoundTrip | src/A2Adotnet.Server/A2ARequestDispatcher.cs:253-272 | any id written into the envelope is recovered |
| Dispatcher.StatusForCode | src/A2Adotnet.Server/A2ARequestDispatcher.cs:339-341 | HTTP 400 exactly for the parse, invalid-request, method-not-found and invalid-params codes; 500 for every other code |
| Dispatcher.Invocation | src/A2Adotnet.Server/A2ARequestDispatcher.cs:56-104 | a handler is invoked only for an object document with a non-empty method name bound to a handler; it gets no parameters only when they are absent and the handler takes `object` |
| Dispatcher.Dispatch | src/A2Adotnet.Server/A2ARequestDispatcher.cs:44-199 | a request that does not reach a handler gets an error envelope; only a handler that returns, on a request with a readable id, escapes an error; a success envelope carries that id and the handler's result |
| Dispatcher.EarlyErrorCodes | src/A2Adotnet.Server/A2ARequestDispatcher.cs:56-104 | an unparsable or null body is ParseError with no id and 400; an empty method is InvalidRequest with the missing-method text; a parameter decode failure, or absent parameters for a non-`object` type, is InvalidParams with the id and 400 |
| Dispatcher.InvokedOutcomes | src/A2Adotnet.Server/A2ARequestDispatcher.cs:148-188 | a non-A2A exception is InternalError carrying its message; a returning handler without a request id is InternalError with the missing-id text; with an id, a result other than a null `object` result is a 200 success envelope |
| Dispatcher.EarlyRepliesIgnoreTheHandler | src/A2Adotnet.Server/A2ARequestDispatcher.cs:56-104 | when no handler is invoked, the reply is independent of any handler outcome |
| Dispatcher.ErrorReplyIds | src/A2Adotnet.Server/A2ARequestDispatcher.cs:62-199 | an error envelope carries the request's id, except when the body is not an object or its method is not a string, where it carries none |
| Dispatcher.HandlerErrorsPassThrough | src/A2Adotnet.Server/A2ARequestDispatcher.cs:168-182 | an `A2AServerException` from a handler becomes an error envelope with its code, message and data, under the status for that code |
| Dispatcher.NoReplyExactlyForStreams | src/A2Adotnet.Server/A2ARequestDispatcher.cs:148-166 | no envelope is written exactly when an invoked `object`-result handler returns null for a request with an id |
| Dispatcher.UnknownMethod | src/A2Adotnet.Server/A2ARequestDispatcher.cs:73-77 | an unregistered method is MethodNotFound naming the method, with the request id and 400 |
| TaskStore.EmptyStoreWellFormed | src/A2Adotnet.Server/Implementations/InMemoryTaskManager.cs:16-30 | the empty store satisfies the store invariant |
| TaskStore.TakeLast | src/A2Adotnet.Server/Implementations/InMemoryTaskManager.cs:112 | the last min(n, length) elements, as a suffix |
| TaskStore.CreateOrGet | src/A2Adotnet.Server/Implementations/InMemoryTaskManager.cs:41-93 | an empty id is refused with nothing changed; a new id gets a Submitted task with no artifacts, the given or generated session id and a one-message history; a known id returns its task unchanged and only appends the message to its history; other tasks, events and pushes are untouched |
| TaskStore.ReadTask | src/A2Adotnet.Server/Implementations/InMemoryTaskManager.cs:96-122 | a task exactly when the id is known, equal to the stored one apart from history; with a positive history length, the last entries of the history up to that length; otherwise no history (`InMemoryTaskManager.GetTask` reads the store object through it) |
| TaskStore.AddHistory | src/A2Adotnet.Server/Implementations/InMemoryTaskManager.cs:193-214 | for a known task the message is appended to its history and nothing else changes; an unknown one changes nothing |
| TaskStore.UpdateStatus | src/A2Adotnet.Server/Implementations/InMemoryTaskManager.cs:124-162 | a known task gets the new status and nothing else of it changes; a status message joins its history; exactly one non-final status event is published; a push is recorded exactly for a notifiable state with push settings; an unknown id changes nothing |
| TaskStore.WithArtifact | src/A2Adotnet.Server/Implementations/InMemoryTaskManager.cs:172-176 | the artifact is appended after the existing ones, or becomes the only one |
| TaskStore.AddArtifact | src/A2Adotnet.Server/Implementations/InMemoryTaskManager.cs:164-191 | a known task gets the artifact appended and nothing else changes except one published artifact event; an unknown id changes nothing |
| TaskStore.Cancel | src/A2Adotnet.Server/Implementations/InMemoryTaskManager.cs:217-240 | succeeds exactly for a known non-terminal task, which becomes Canceled with no message; nothing is published or pushed |
| TaskStore.SetPushConfig | src/A2Adotnet.Server/Implementations/InMemoryTaskManager.cs:242-255 | stores the settings exactly for a known task, changing nothing else |
| TaskStore.SetThenGetPushConfig | src/A2Adotnet.Server/Implementations/InMemoryTaskManager.cs:242-263 | settings just stored are what the read `GetPushConfig` returns |
| TaskStore.CreateThenRead | src/A2Adotnet.Server/Implementations/InMemoryTaskManager.cs:53-122 | a newly created task reads back as Submitted, with the creating message as its history |
| TaskStore.ReadsAgreeOnSuffix | src/A2Adotnet.Server/Implementations/InMemoryTaskManager.cs:107-112 | for any `0 < m <= n`, the read asking for `m` history messages is the tail of the read asking for `n` |
| TaskStore.TerminalStatesNotProtected | src/A2Adotnet.Server/Implementations/InMemoryTaskManager.cs:124-139 | a Completed task can be moved back to Working by a status update |
| TaskStore.StatusEventsNeverFinal | src/A2Adotnet.Server/Implementations/InMemoryTaskManager.cs:141-184 | no store operation ever publishes a status event marked final |
| TaskStore.InMemoryTaskManager.constructor | src/A2Adotnet.Server/Implementations/InMemoryTaskManager.cs:16-30 | the store starts empty and well formed |
| TaskStore.InMemoryTaskManager.CreateOrGetTask | src/A2Adotnet.Server/Implementations/InMemoryTaskManager.cs:41-93 | the new state and result are those of `CreateOrGet` |
| TaskStore.InMemoryTaskManager.AddHistoryMessage | src/A2Adotnet.Server/Implementations/InMemoryTaskManager.cs:193-214 | the new state and result are those of `AddHistory` |
| TaskStore.InMemoryTaskManager.UpdateTaskStatus | src/A2Adotnet.Server/Implementations/InMemoryTaskManager.cs:124-162 | the new state and result are those of `UpdateStatus` |
| TaskStore.InMemoryTaskManager.TriggerPushNotificationIfNeeded | src/A2Adotnet.Server/Implementations/InMemoryTaskManager.cs:266-278 | one push with the task's settings and the updated task, exactly for a notifiable state with settings |
| TaskStore.InMemoryTaskManager.AddArtifactToTask | src/A2Adotnet.Server/Implementations/InMemoryTaskManager.cs:164-191 | the new state and result are those of `AddArtifact` |
| TaskStore.InMemoryTaskManager.CancelTask | src/A2Adotnet.Server/Implementations/InMemoryTaskManager.cs:217-240 | the new state and result are those of `Cancel` |
| TaskStore.InMemoryTaskManager.SetPushNotificationConfig | src/A2Adotnet.Server/Implementations/InMemoryTaskManager.cs:242-255 | the new state and result are those of `SetPushConfig` |
| Agents.ApplyStep | src/A2Adotnet.Server/Abstractions/IAgentLogicInvoker.cs:11-26 | one agent update is the store transition for it, and keeps the store well formed |
| Agents.ApplySteps | src/A2Adotnet.Server/Abstractions/IAgentLogicInvoker.cs:11-26 | a script's effect keeps the store well formed |
| Agents.ApplyStepsAppend | src/A2Adotnet.Server/Abstractions/IAgentLogicInvoker.cs:11-26 | running two scripts in a row is running their concatenation |
| Agents.PreservesTransitive | src/A2Adotnet.Server/Abstractions/IAgentLogicInvoker.cs:11-26 | the frame relation between store states composes |
| Agents.StepPreserves | src/A2Adotnet.Server/Abstractions/IAgentLogicInvoker.cs:11-26 | one update of a task leaves the other tasks, their histories and the push settings alone, and only extends the event and push logs |
| Agents.StatusPreserves | src/A2Adotnet.Server/Implementations/InMemoryTaskManager.cs:124-162 | a status update keeps that frame |
| Agents.ArtifactPreserves | src/A2Adotnet.Server/Implementations/InMemoryTaskManager.cs:164-191 | an artifact update keeps that frame |
| Agents.ApplyStepsFrame | src/A2Adotnet.Server/Abstractions/IAgentLogicInvoker.cs:11-26 | a whole script for one task keeps that frame |
| Agents.RunAgent | src/A2Adotnet.Server/Abstractions/IAgentLogicInvoker.cs:26 | performing a run on the store object gives the script's effect, reports how the run ended, and returns the events the store published for it, in order |
| Agents.PerformStep | src/A2Adotnet.Server/Abstractions/IAgentLogicInvoker.cs:11-26 | performing one update gives its transition |
| Agents.PerformNext | src/A2Adotnet.Server/Abstractions/IAgentLogicInvoker.cs:11-26 | performing one more update extends the script performed so far |
| Agents.PerformStepReporting | src/A2Adotnet.Server/Implementations/InMemoryTaskManager.cs:124-191 | one update's transition, returning exactly the events it appends to the published log |
| Agents.StepEvents | src/A2Adotnet.Server/Implementations/InMemoryTaskManager.cs:141-184 | an update publishes at most one event, and only a status or artifact update event |
| Agents.StepEventsPublished | src/A2Adotnet.Server/Implementations/InMemoryTaskManager.cs:141-184 | an update appends exactly `StepEvents` to the published log: one event for a status or artifact update of a known task, none for a history message or an unknown task |
| Sse.SseConnection.constructor | src/A2Adotnet.Server/Sse/SseHelper.cs:85-91 | a fresh response has an empty body, no content type and no headers |
| Sse.EventName | src/A2Adotnet.Server/Sse/SseHelper.cs:24-31 | only status and artifact update events have an SSE event name |
| Sse.DataLinesAppend | src/A2Adotnet.Server/Sse/SseHelper.cs:42-49 | the data lines of one more line are the earlier ones followed by a `data: ` line for it |
| Sse.SingleLineFrame | src/A2Adotnet.Server/Sse/SseHelper.cs:39-52 | a one-line JSON text is framed as the event line, one data line and the blank line |
| Sse.WriteSseEvent | src/A2Adotnet.Server/Sse/SseHelper.cs:22-67 | the body gains `EventOutput`: when the type is known and the response writable, `EventFrame`, i.e. the `event:` line, the `DataLines` of the JSON text's lines and the blank line; nothing otherwise |
| Sse.WriteDataLines | src/A2Adotnet.Server/Sse/SseHelper.cs:42-49 | the loop writes one `data: ` line per line of the JSON text |
| Sse.WriteSseComment | src/A2Adotnet.Server/Sse/SseHelper.cs:72-80 | the body gains `CommentFrame`, the `: ` comment line and a blank line, when writable, and nothing otherwise |
| Sse.PrepareSseStream | src/A2Adotnet.Server/Sse/SseHelper.cs:85-91 | sets the event-stream content type and adds the no-cache and keep-alive headers |
| SseConnections.RemoveFirst | src/A2Adotnet.Server/Sse/InMemorySseConnectionManager.cs:83 | removing an absent connection changes nothing; no connection is added |
| SseConnections.DistinctCons | src/A2Adotnet.Server/Sse/InMemorySseConnectionManager.cs:36-45 | a new connection in front keeps a list duplicate-free |
| SseConnections.RemoveFirstDistinct | src/A2Adotnet.Server/Sse/InMemorySseConnectionManager.cs:83 | removal keeps a list duplicate-free |
| SseConnections.RemoveFirstAfter | src/A2Adotnet.Server/Sse/InMemorySseConnectionManager.cs:83 | removing the first occurrence takes out exactly that element |
| SseConnections.Removed | src/A2Adotnet.Server/Sse/InMemorySseConnectionManager.cs:76-97 | an unknown task or connection changes nothing; other tasks keep their lists; the task's list loses the connection and the key goes when the list empties |
| SseConnections.Added | src/A2Adotnet.Server/Sse/InMemorySseConnectionManager.cs:36-45 | the connection joins the end of the task's list, which is created when absent; other tasks keep their lists |
| SseConnections.AddThenRemove | src/A2Adotnet.Server/Sse/InMemorySseConnectionManager.cs:36-97 | removing a connection that was just added restores the table |
| SseConnections.Filter | src/A2Adotnet.Server/Sse/InMemorySseConnectionManager.cs:115-136 | only listed connections that are kept remain |
| SseConnections.FilterMembers | src/A2Adotnet.Server/Sse/InMemorySseConnectionManager.cs:115-136 | a connection remains exactly when it was listed and is kept |
| SseConnections.AsWrittenKeepsLive | src/A2Adotnet.Server/Sse/InMemorySseConnectionManager.cs:115-136 | as written, a publish keeps exactly the listed connections whose request is not aborted |
| SseConnections.FailedWriteStaysRegistered | src/A2Adotnet.Server/Sse/InMemorySseConnectionManager.cs:122-134 | a live connection whose write fails receives nothing from a status or artifact event, yet stays registered |
| SseConnections.RemovingFailedKeepsReceivers | src/A2Adotnet.Server/Sse/InMemorySseConnectionManager.cs:130-134 | with failed writes removed, a connection stays exactly when it was listed and writable, and every one that stays received the event's frame |
| SseConnections.InMemorySseConnectionManager.constructor | src/A2Adotnet.Server/Sse/InMemorySseConnectionManager.cs:17-30 | the manager starts with no connections |
| SseConnections.InMemorySseConnectionManager.AddConnection | src/A2Adotnet.Server/Sse/InMemorySseConnectionManager.cs:32-74 | the response is prepared for streaming and receives one ping per completed delay while writable; the table ends as it began |
| SseConnections.InMemorySseConnectionManager.Register | src/A2Adotnet.Server/Sse/InMemorySseConnectionManager.cs:36-45 | the table becomes `Added` of the old one and stays well formed |
| SseConnections.InMemorySseConnectionManager.KeepAlive | src/A2Adotnet.Server/Sse/InMemorySseConnectionManager.cs:50-73 | the loop writes one ping per completed delay while writable, then the table becomes `Removed` of the old one |
| SseConnections.InMemorySseConnectionManager.RemoveConnection | src/A2Adotnet.Server/Sse/InMemorySseConnectionManager.cs:76-97 | the table becomes `Removed` of the old one and stays well formed |
| SseConnections.InMemorySseConnectionManager.SendUpdate | src/A2Adotnet.Server/Sse/InMemorySseConnectionManager.cs:99-143 | as written: every listed connection gets the event's output and only aborted ones leave the list; an unknown task changes nothing |
| SseConnections.InMemorySseConnectionManager.SendUpdateRemovingFailed | src/A2Adotnet.Server/Sse/InMemorySseConnectionManager.cs:115-136 | as intended: connections whose write fails leave the list as well |
| SseConnections.InMemorySseConnectionManager.PublishAll | src/A2Adotnet.Server/Sse/InMemorySseConnectionManager.cs:115-136 | the loop over the snapshot leaves exactly the kept connections, in order, and writes the event's output to each listed connection |
| SseConnections.InMemorySseConnectionManager.Serve | src/A2Adotnet.Server/Sse/InMemorySseConnectionManager.cs:117-134 | one connection: a live one gets the event; an aborted one, or a failed one when failures are removed, leaves the list |
| SseConnections.InMemorySseConnectionManager.PublishOne | src/A2Adotnet.Server/Sse/InMemorySseConnectionManager.cs:99-143 | one `SendUpdateAsync` seen from the task's list: every listed connection gets the event's output, exactly the ones whose request is not aborted stay, none joins, other tasks' lists are untouched |
| SseConnections.InMemorySseConnectionManager.SendUpdates | src/A2Adotnet.Server/Sse/InMemorySseConnectionManager.cs:99-143 | `SendUpdateAsync` once per event, in order: every listed connection's body grows by the outputs of all the events in order (`Outputs`); a live connection stays listed, none joins, other tasks' lists are untouched |
| SseConnections.OutputsAppend | src/A2Adotnet.Server/Sse/InMemorySseConnectionManager.cs:99-143 | what two runs of events write to a stream is the first run's output followed by the second's |
| SseConnections.OutputsOfUnwritable | src/A2Adotnet.Server/Sse/SseHelper.cs:33-66 | an aborted or failing stream receives nothing from any events |
| SseConnections.RemoveFirstMembers | src/A2Adotnet.Server/Sse/InMemorySseConnectionManager.cs:83 | after removal from a duplicate-free list exactly the other connections remain |
| SseConnections.WriteSseEventReporting | src/A2Adotnet.Server/Sse/SseHelper.cs:33-66 | the write's output, and whether a write of a known event to a live request failed |
| PushSender.HasBearer | src/A2Adotnet.Server/Push/HttpPushNotificationSender.cs:61 | true exactly when some scheme equals "bearer" ignoring case |
| PushSender.AuthorizationHeader | src/A2Adotnet.Server/Push/HttpPushNotificationSender.cs:58-70 | a Bearer header with the credentials exactly when a bearer scheme and non-empty credentials are configured |
| PushSender.BuildPushRequest | src/A2Adotnet.Server/Push/HttpPushNotificationSender.cs:37-81 | no request exactly when the URL is not absolute; otherwise a POST of the task to the URL, with the authorization header and with the push token exactly when it is non-empty |
| PushSender.BearerSchemeIgnoresCase | src/A2Adotnet.Server/Push/HttpPushNotificationSender.cs:61 | rewriting a scheme in another letter case never changes whether the bearer header is sent |
| PushSender.UpperCaseBearerAccepted | src/A2Adotnet.Server/Push/HttpPushNotificationSender.cs:61-63 | "BEARER" among other schemes yields the Bearer header |
| PushSender.TriggeredPushCarriesBearer | src/A2Adotnet.Server/Implementations/InMemoryTaskManager.cs:266-278 | a status update that triggers a push for settings with a bearer scheme and credentials records one push whose request, for an absolute URL, is a POST of the updated task with `Authorization: Bearer <credentials>` |
| Handlers.RegisteredOnce | src/A2Adotnet.Server/A2ARequestDispatcher.cs:290-307 | the seven handlers have distinct method names |
| Handlers.RegisteredMethods | src/A2Adotnet.Server/A2ARequestDispatcher.cs:290-307 | every method name finds its own handler |
| Handlers.StreamingResultsAreObjects | src/A2Adotnet.Server/Handlers/SendTaskSubscribeHandler.cs:39 | only the two streaming handlers declare an `object` result |
| Handlers.GetTaskOutcome | src/A2Adotnet.Server/Handlers/GetTaskHandler.cs:24-38 | TaskNotFound exactly for an unknown id; otherwise the task as read with the requested history length |
| Handlers.CancelOutcome | src/A2Adotnet.Server/Handlers/CancelTaskHandler.cs:25-51 | returns the canceled task exactly for a known non-terminal task; an unknown id is TaskNotFound and a terminal task TaskNotCancelable, its message naming the state by its enum member name (`StateMemberName`), with the store unchanged |
| Handlers.HandleCancelTask | src/A2Adotnet.Server/Handlers/CancelTaskHandler.cs:25-51 | the new store state and outcome are those of `CancelOutcome` |
| Handlers.CancelThenGet | src/A2Adotnet.Server/Handlers/CancelTaskHandler.cs:29-51 | after a cancel the task reads back as Canceled |
| Handlers.CancelTwice | src/A2Adotnet.Server/Handlers/CancelTaskHandler.cs:29-43 | a second cancel of the same task is TaskNotCancelable and changes nothing |
| Handlers.SetPushOutcome | src/A2Adotnet.Server/Handlers/SetPushNotificationHandler.cs:30-54 | PushNotificationNotSupported before the store is touched; TaskNotFound for an unknown task; otherwise the settings are stored and the parameters returned |
| Handlers.HandleSetPush | src/A2Adotnet.Server/Handlers/SetPushNotificationHandler.cs:30-54 | the new store state and outcome are those of `SetPushOutcome` |
| Handlers.GetPushOutcome | src/A2Adotnet.Server/Handlers/GetPushNotificationHandler.cs:30-55 | PushNotificationNotSupported without support; TaskNotFound without stored settings; otherwise the stored settings under the task id (the store's `GetPushNotificationConfig`, which is `GetPushConfig` on its settings map) |
| Handlers.SetThenGetPush | src/A2Adotnet.Server/Handlers/GetPushNotificationHandler.cs:41-55 | a get after a successful set returns what the set returned |
| Handlers.Prepared | src/A2Adotnet.Server/Handlers/SendTaskHandler.cs:31-41 | the task is created or found and the supplied push settings are stored; other tasks and the logs are untouched |
| Handlers.SendTaskOutcome | src/A2Adotnet.Server/Handlers/SendTaskHandler.cs:26-78 | an empty id is an argument error, its message as .NET renders it (`ArgumentMessage`); an agent's A2A exception propagates; any other exception marks the task Failed and becomes InternalError; a normal end returns the task as then read |
| Handlers.HandleSendTask | src/A2Adotnet.Server/Handlers/SendTaskHandler.cs:26-78 | the new store state and outcome are those of `SendTaskOutcome` |
| Handlers.SendTaskReturnsAgentState | src/A2Adotnet.Server/Handlers/SendTaskHandler.cs:53-66 | after a normal run the reply is the state the agent left, not the state before it ran |
| Handlers.SubscribeSetup | src/A2Adotnet.Server/Handlers/SendTaskSubscribeHandler.cs:39-67 | UnsupportedOperation without streaming, before the store is touched; push settings without push support are InvalidParams after the task is created; otherwise the task is prepared |
| Handlers.SetUpSubscription | src/A2Adotnet.Server/Handlers/SendTaskSubscribeHandler.cs:39-67 | the new store state and result are those of `SubscribeSetup` |
| Handlers.BackgroundRun | src/A2Adotnet.Server/Handlers/SendTaskSubscribeHandler.cs:76-96 | the agent's script, and after any exception a Failed status naming it; other tasks are untouched |
| Handlers.StartBackground | src/A2Adotnet.Server/Handlers/SendTaskSubscribeHandler.cs:76-96 | with a cancelled token nothing runs; otherwise the store becomes `BackgroundRun` |
| Handlers.HandleSendSubscribe | src/A2Adotnet.Server/Handlers/SendTaskSubscribeHandler.cs:39-98 | as written: the store ends as the setup left it and the stream gets only pings |
| Handlers.HandleSendSubscribeStreaming | src/A2Adotnet.Server/Handlers/SendTaskSubscribeHandler.cs:39-98 | as intended: after a successful setup the agent runs while the stream is registered; the store becomes `BackgroundRun`, and the stream receives the output of every event the run published, in order, then the pings; it is prepared as an event stream, leaves the task's list at the end, no connection joins and other tasks' lists are untouched; a failed setup leaves the response as it was |
| Handlers.RunWhileStreaming | src/A2Adotnet.Server/Handlers/SendTaskSubscribeHandler.cs:71-96 | the run on an open stream: the store becomes `BackgroundRun` and the stream gets every published event's output, in order, then the pings |
| Handlers.RunAgentReporting | src/A2Adotnet.Server/Handlers/SendTaskSubscribeHandler.cs:76-96 | the store becomes `BackgroundRun`, and the events handed on are exactly those the run published, in order |
| Handlers.FailureReportCompletesRun | src/A2Adotnet.Server/Handlers/SendTaskSubscribeHandler.cs:76-96 | a run that ended in an exception is its steps followed by the Failed report naming the exception |
| Handlers.StreamRun | src/A2Adotnet.Server/Sse/InMemorySseConnectionManager.cs:32-143 | the response is prepared and registered, receives the output of every given event in order, then the pings, and leaves the task's list; no connection joins, other tasks' lists are untouched |
| Handlers.SubscriberSeesFirstStatus | src/A2Adotnet.Server/Handlers/SendTaskSubscribeHandler.cs:71-79 | a successful setup publishes nothing, and started while the stream is open, an agent whose first update reports a status publishes that status event first, so a writable subscriber's stream begins with its frame |
| Handlers.RunPublishesFirst | src/A2Adotnet.Server/Implementations/InMemoryTaskManager.cs:141-150 | a background run whose first update reports a status on a known task publishes that status event first |
| Handlers.OutputsStartWithFirst | src/A2Adotnet.Server/Sse/SseHelper.cs:22-67 | a writable stream given a status event first begins with that event's frame |
| Handlers.FirstReportPublishes | src/A2Adotnet.Server/Implementations/InMemoryTaskManager.cs:141-150 | a script starting with a status report on a known task publishes that status event right after the earlier events |
| Handlers.ResubscribeOutcome | src/A2Adotnet.Server/Handlers/ResubscribeTaskHandler.cs:36-52 | UnsupportedOperation without streaming; TaskNotFound for an unknown task; otherwise a null result |
| Handlers.HandleResubscribe | src/A2Adotnet.Server/Handlers/ResubscribeTaskHandler.cs:36-68 | the outcome is `ResubscribeOutcome`; on success the response becomes an event stream (content type `text/event-stream`, `Cache-Control: no-cache` and `Connection: keep-alive` appended), gets the pings, and the table ends as it began; on either error the response is left untouched |
| Handlers.StreamingRepliesAreEmpty | src/A2Adotnet.Server/A2ARequestDispatcher.cs:158-166 | a successful streaming request with an id gets no JSON-RPC envelope |
| Handlers.GetTaskReply | src/A2Adotnet.Server/Handlers/GetTaskHandler.cs:24-38 | `tasks/get` end to end: a success envelope with the read task, or TaskNotFound with status 500 |
| SampleAgent.FirstText | samples/A2Adotnet.SampleServer/Program.cs:65 | the text of the first text part, and none exactly when there is no text part |
| SampleAgent.Route | samples/A2Adotnet.SampleServer/Program.cs:68-71 | echo exactly when the input contains "echo"; joke when it contains "joke" but not "echo"; story when it contains "story" or "stream" but neither of the others |
| SampleAgent.ChunkSteps | samples/A2Adotnet.SampleServer/Program.cs:141-154 | the i-th step adds the i-th story chunk |
| SampleAgent.SampleRun | samples/A2Adotnet.SampleServer/Program.cs:58-103 | the run starts with Working "Processing your request...", ends normally, and its last update is a terminal status |
| SampleAgent.SkillStepsEnd | samples/A2Adotnet.SampleServer/Program.cs:73-102 | every skill's script ends in a terminal status |
| SampleAgent.StoryStepsEnd | samples/A2Adotnet.SampleServer/Program.cs:127-158 | the story's script ends in Canceled or Completed |
| SampleAgent.EventsOf | src/A2Adotnet.Server/Implementations/InMemoryTaskManager.cs:141-184 | one event per update, in order |
| SampleAgent.ScriptPublishes | src/A2Adotnet.Server/Implementations/InMemoryTaskManager.cs:141-184 | a script on an existing task publishes exactly its events, in order |
| SampleAgent.StepPublishes | src/A2Adotnet.Server/Implementations/InMemoryTaskManager.cs:141-184 | one update publishes its event |
| SampleAgent.LastStatusStays | src/A2Adotnet.Server/Implementations/InMemoryTaskManager.cs:124-162 | a script ending in a status update leaves the task in that status |
| SampleAgent.SampleRunOutcome | samples/A2Adotnet.SampleServer/Program.cs:58-103 | on an existing task the agent always finishes in a terminal state, and publishes one event per update, the first being "Processing your request..." |
| SampleAgent.EchoOutcome | samples/A2Adotnet.SampleServer/Program.cs:105-112 | echo adds exactly the "Echo: " artifact after the earlier ones and completes the task with no message |
| SampleAgent.EchoScript | samples/A2Adotnet.SampleServer/Program.cs:105-112 | the echo run is Working, the echo artifact, Completed |
| SampleAgent.StepTask | src/A2Adotnet.Server/Implementations/InMemoryTaskManager.cs:124-191 | what one update does to its task |
| SampleAgent.StoryPublishesChunks | samples/A2Adotnet.SampleServer/Program.cs:127-158 | told without cancellation, the story publishes its five chunks in order after the two Working statuses, then Completed "Story finished." |
| SampleAgent.StoryRunShape | samples/A2Adotnet.SampleServer/Program.cs:127-158 | the uncancelled story run has eight updates, with the chunks at positions two to six |
| SampleAgent.StoryScript | samples/A2Adotnet.SampleServer/Program.cs:139-157 | the story's opening status, the chunks told before the cancelled delay, and the closing status |
| SampleAgent.ProcessTask | samples/A2Adotnet.SampleServer/Program.cs:58-103 | the store ends as `SampleRun`'s script leaves it |
| SampleAgent.ProcessEcho | samples/A2Adotnet.SampleServer/Program.cs:105-112 | the store gets the echo skill's script |
| SampleAgent.ProcessJoke | samples/A2Adotnet.SampleServer/Program.cs:114-125 | the store gets the joke skill's script, Canceled when cancelled at the delay |
| SampleAgent.ProcessStory | samples/A2Adotnet.SampleServer/Program.cs:127-158 | the loop gives the story skill's script, whatever delay sees the cancellation |
| SseParser.Completed | src/A2Adotnet.Client/A2AClient.cs:312-331 | an update only for a known name with data whose decoder succeeds, and always then |
| SseParser.Parse | src/A2Adotnet.Client/A2AClient.cs:301-357 | no update of an unknown type; only the last update can be final |
| SseParser.ParseAppend | src/A2Adotnet.Client/A2AClient.cs:301-357 | unless the first piece ends the stream, reading proceeds piece by piece |
| SseParser.StopIgnoresRest | src/A2Adotnet.Client/A2AClient.cs:338-341 | nothing after a final update is read |
| SseParser.StopEndsFinal | src/A2Adotnet.Client/A2AClient.cs:338-341 | a stream that stops ends with a final update |
| SseParser.NoBlankLineNoUpdates | src/A2Adotnet.Client/A2AClient.cs:310-347 | updates come only at blank lines |
| SseParser.BlankLineResets | src/A2Adotnet.Client/A2AClient.cs:344-346 | a blank line forgets the name and the data |
| SseParser.StateAfterAppend | src/A2Adotnet.Client/A2AClient.cs:301-357 | the state after two pieces of input is the state after the second, read from the state the first leaves |
| SseParser.LastEventNameWins | src/A2Adotnet.Client/A2AClient.cs:348-351 | of two `event:` lines the last wins, and the data is kept |
| SseParser.UnknownEventDropped | src/A2Adotnet.Client/A2AClient.cs:318-324 | an unknown event is dropped without ending the stream |
| SseParser.DataFieldLines | src/A2Adotnet.Server/Sse/SseHelper.cs:42-49 | one field line per JSON line |
| SseParser.FrameReadBack | src/A2Adotnet.Client/A2AClient.cs:301-357 | a frame the server writes is read back as the update its trimmed name and collected data decode to |
| SseParser.CompactFrameReadBack | src/A2Adotnet.Client/A2AClient.cs:352-355 | a compact JSON text reaches the decoder as the text plus a newline, in both trimming modes |
| SseParser.ConsumeSse | src/A2Adotnet.Client/A2AClient.cs:298-357 | the reading loop yields exactly `Parse` of the body's lines |
| ClientErrors.FromMessage | src/A2Adotnet.Client/A2AClientException.cs:24-31 | the message, with no code and no data |
| ClientErrors.FromDetail | src/A2Adotnet.Client/A2AClientException.cs:38-44 | the detail's code and data; the message starts with "A2A request failed", names the id only when given, and contains the detail's message and "(Code: n)" |
| ClientErrors.FromDetailNamesIdIffGiven | src/A2Adotnet.Client/A2AClientException.cs:39 | the message names a request id exactly when one is given |
| ClientErrors.CodeOnlyFromDetail | src/A2Adotnet.Client/A2AClientException.cs:24-44 | a message-only exception is never the error-detail one |
| Client.Increment | src/A2Adotnet.Client/A2AClient.cs:492 | one more, wrapping from the largest long to the smallest |
| Client.CounterCounts | src/A2Adotnet.Client/A2AClient.cs:489-493 | after n requests the counter is n, for as long as a long holds it |
| Client.IdsIncrease | src/A2Adotnet.Client/A2AClient.cs:489-493 | ids strictly increase until the counter wraps |
| Client.CounterWraps | src/A2Adotnet.Client/A2AClient.cs:492 | the request after the largest long gets the smallest |
| Client.ErrorStatusOutcome | src/A2Adotnet.Client/A2AClient.cs:563-581 | a non-2xx response always throws, with the error object's code exactly when the body carries one |
| Client.UnansweredOutcome | src/A2Adotnet.Client/A2AClient.cs:529-602 | a 2xx body that does not answer the request always throws: when the response stream cannot seek, the rewind fails and the catch-all's "unexpected error" naming the method, with no code; otherwise with the error object's code exactly when the body carries one |
| Client.RpcOutcome | src/A2Adotnet.Client/A2AClient.cs:506-603 | as written: a result exactly for a 2xx body answering the request, null included; a coded error exactly for an error object on a response whose error envelope is read (non-2xx, or 2xx not answering the request with a stream that can be rewound); a network failure names the method |
| Client.RpcOutcomeErrorFirst | src/A2Adotnet.Client/A2AClient.cs:534-561 | as intended: a result only for an answering 2xx body without an error object; an error object is thrown with its code whenever it is read, always on an answering 2xx body |
| Client.ErrorFirstChangesOnlyErrorAnswers | src/A2Adotnet.Client/A2AClient.cs:534-561 | the two classifications differ exactly on a 2xx body that answers the request and carries an error object |
| Client.NullResultNamesMethod | src/A2Adotnet.Client/A2AClient.cs:115-211 | both null-result messages begin by naming the method |
| Client.RequireResult | src/A2Adotnet.Client/A2AClient.cs:115-211 | the result is returned; a null result throws a code-free error naming the method; an exception passes through |
| Client.ErrorAnswerLosesCode | src/A2Adotnet.Client/A2AClient.cs:538-545 | as written, a 200 error envelope with the request's id becomes a null result and `SendTaskAsync` throws the null-result error with no code; the error-first call throws the server's error with its code |
| Client.CallOutcome | src/A2Adotnet.Client/A2AClient.cs:84-211 | as written: an empty task id is the argument error; a value exactly for a 2xx envelope under the request's id with a result; such an envelope without a result is the null-result error whatever its error member holds; an error object otherwise read is thrown with its code |
| Client.CallOutcomeErrorFirst | src/A2Adotnet.Client/A2AClient.cs:534-561 | as intended: a value only from an answering 2xx body without an error object; every error object that is read is thrown with its code |
| Client.CallsDifferOnlyOnErrorAnswers | src/A2Adotnet.Client/A2AClient.cs:538-545 | the call as written and the error-first call differ exactly on a 2xx answering body with an error object, where the call as written returns a value or throws without a code |
| Client.StreamErrorOutcome | src/A2Adotnet.Client/A2AClient.cs:270-291 | a non-2xx stream throws, with a code exactly when a non-blank body carries an error object; a blank body is the HTTP error for the status |
| Client.StreamOutcome | src/A2Adotnet.Client/A2AClient.cs:214-357 | the stream is read exactly for a non-empty id and a 2xx response, as `Parse` of the body's lines |
| Client.A2AClient.constructor | src/A2Adotnet.Client/A2AClient.cs:43 | the counter starts at 0 |
| Client.A2AClient.GenerateRequestId | src/A2Adotnet.Client/A2AClient.cs:489-493 | the counter's next value as a numeric id; the n-th request gets id n until the counter wraps |
| Client.A2AClient.Call | src/A2Adotnet.Client/A2AClient.cs:84-211 | the outcome is `CallOutcome`, the call as written, under the generated id; no id is used for an empty task id |
| Client.A2AClient.Subscribe | src/A2Adotnet.Client/A2AClient.cs:214-483 | the outcome is `StreamOutcome`, the stream read by the line loop |

## Left out

- Concurrency is left out. Each operation is atomic. The failed `TryUpdate` and `TryAdd` branches of the task store cannot happen here, so its `false` results mean only "unknown task".
- The fire-and-forget `SendUpdateAsync` and `SendNotificationAsync` calls of the task store are modelled as two ghost logs, `published` and `pushes`. What a delivery does to a stream is `SendUpdate`; what a push sends is `BuildPushRequest`. Only the corrected `tasks/sendSubscribe` delivers the log to the streams.
- Handlers.HandleSendSubscribeStreaming: the events reach the stream after the whole run and before all the pings; the interleaving of deliveries with the agent's updates and with the keep-alive pings is not modelled. Delivery does not read the store, so the events a stream receives, and their order, are the same.
- Handlers.HandleSendSubscribeStreaming: its contract promises the events only to the subscribing stream; the other streams registered for the task receive them as `SendUpdates` states, but the handler does not restate that.
- Agents.ApplyStepsFrame: an agent is modelled as a script of updates to its own task (`AgentStep`). The source's `IAgentLogicInvoker` receives the whole `ITaskManager` and may update any task, so "other tasks untouched" holds only for agents of this shape.
- Handlers.BackgroundRun: "other tasks untouched" rests on the same restriction of agents to their own task.
- `DateTimeOffset.UtcNow`, `Guid.NewGuid` and the JSON serialiser are parameters: the time, the generated session id, and the JSON text or a decoder that may fail.
- HTTP I/O is left out:
  - the server's `PipeReader` body reading and the dispatcher's reflection are replaced by a parsed request body and a static handler table;
  - the client's `HttpClient` and its agent-card fetch are not part of this model;
  - the push sender's `SendAsync`, its response and the exceptions around it are not part of this model, and the sender reports none of them to its caller.
- Logging, cancellation tokens apart from the cases above, and the inner exceptions of the client exception are not modelled.
- The optional authentication header callback of the client is not modelled.
- The 30-second keep-alive delay is counted in completed delays (`pings`). A write that fails part-way through a frame is modelled as writing nothing.
- The default `RequestId` has a null value, so `Write` would emit `null` for it. The model's ids always carry a value, so that branch does not exist.
- The sample agent's catch of exceptions other than cancellation is left out, and the agent uses one time for all its updates.
- Number formatting: `long.ToString()` and the `{Code}` interpolation use the current culture. The model writes ASCII digits and a `-` sign, as the invariant culture does.
- PushSender.BuildPushRequest: the request's target is the configured URL text. The normalisation `Uri.TryCreate` applies to it (letter case of scheme and host, escaping, a default path) is not modelled.
- Case folding (`ToLowerInvariant`, `OrdinalIgnoreCase`) is ASCII only. White space (`IsNullOrWhiteSpace`, `Trim`) is the ASCII set plus U+0085 and U+00A0; the other Unicode space characters (U+1680, U+2000–U+200A, U+2028, U+2029, U+202F, U+205F, U+3000) are not white space here. `AppendLine` writes "\n".
- SseParser.Parse: the client's `StartsWith("event:")` and `StartsWith("data:")` tests use no `StringComparison`, so .NET compares them under the current culture; the model compares them ordinally.
- SseConnections.InMemorySseConnectionManager.AddConnection: the same response stream is assumed to be registered for a task at most once (`requires context !in Snapshot(taskId)`); the source never registers one twice.
- Client.ErrorStatusOutcome: the message names the status with .NET's name for it (`statusName`, an input), which is what the code prints. The tests expect the number instead.

## Findings

| source | as written | input that shows it | evidently intended | confidence | as-written member | corrected member |
|---|---|---|---|---|---|---|
| src/A2Adotnet.Server/Sse/InMemorySseConnectionManager.cs:122-134 | `WriteSseEventAsync` swallows its own write errors, so the `catch` that removes a broken connection never runs | a live connection whose writes fail gets a status update event: nothing is written and it stays registered | a connection whose write fails is removed | medium, not executed | SseConnections.FailedWriteStaysRegistered | SseConnections.RemovingFailedKeepsReceivers |
| src/A2Adotnet.Server/Handlers/SendTaskSubscribeHandler.cs:71-79 | `AddConnectionAsync` is awaited, and it returns only after the request is cancelled; the agent is then started with that cancelled token | any `tasks/sendSubscribe` request: the subscriber receives pings only and the agent never runs | the stream is registered, and the agent runs in the background while it is open, so the subscriber receives every event the run publishes, in order, a first status report first (Handlers.SubscriberSeesFirstStatus) | high, not executed | Handlers.HandleSendSubscribe | Handlers.HandleSendSubscribeStreaming |
| src/A2Adotnet.Client/A2AClient.cs:538-545 | a 2xx body is read as a success envelope first, and a matching id is accepted even when `result` is null | a 200 response `{"jsonrpc":"2.0","id":1,"error":{"code":-32001,...}}` to request 1: `SendTaskAsync` throws the null-result error without the code | the error object is thrown with its code | medium, not executed | Client.ErrorAnswerLosesCode | Client.CallOutcomeErrorFirst |
