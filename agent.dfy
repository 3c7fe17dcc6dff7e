/** `IAgentLogicInvoker`: the agent's work on one task, seen from the store.
    An agent run is a script of store updates for the task it was given,
    followed by how the run ended (normally, with an `A2AServerException`,
    or with any other exception). The effect of a script is defined once,
    as a fold of the store's transitions; `RunAgent` performs it on the
    store object. */
module Agents {
  import opened Wrappers
  import opened Models
  import opened ServerErrors
  import opened TaskStore

  datatype AgentStep =
    | ReportStatus(state: TaskState, message: Option<Message>, at: Timestamp)
    | PublishArtifact(artifact: Artifact)
    | RecordHistory(entry: Message)

  datatype AgentEnd = Finished | RaisedServer(error: ServerException) | RaisedOther(message: string)

  datatype AgentRun = AgentRun(steps: seq<AgentStep>, end: AgentEnd)

  /** One update, as the store's transition for it. */
  function ApplyStep(s: StoreState, taskId: string, step: AgentStep): (r: StoreState)
    requires WellFormed(s)
    ensures WellFormed(r)
  {
    match step
    case ReportStatus(state, message, at) => UpdateStatus(s, taskId, state, message, at).0
    case PublishArtifact(artifact) => AddArtifact(s, taskId, artifact).0
    case RecordHistory(message) => AddHistory(s, taskId, message).0
  }

  /** The store after the whole script, the steps taken in order. */
  function ApplySteps(s: StoreState, taskId: string, steps: seq<AgentStep>): (r: StoreState)
    requires WellFormed(s)
    ensures WellFormed(r)
    decreases |steps|
  {
    if steps == [] then s
    else ApplyStep(ApplySteps(s, taskId, steps[..|steps| - 1]), taskId, steps[|steps| - 1])
  }

  /** Running two scripts one after the other is running their
      concatenation. */
  lemma {:induction false} ApplyStepsAppend(s: StoreState, taskId: string, a: seq<AgentStep>, b: seq<AgentStep>)
    requires WellFormed(s)
    ensures ApplySteps(s, taskId, a + b) == ApplySteps(ApplySteps(s, taskId, a), taskId, b)
    decreases |b|
  {
    if b == [] {
      assert a + b == a;
    } else {
      assert (a + b)[..|a + b| - 1] == a + b[..|b| - 1];
      ApplyStepsAppend(s, taskId, a, b[..|b| - 1]);
    }
  }

  /** The event an update publishes. */
  function EventOf(taskId: string, step: AgentStep): UpdateEvent {
    match step
    case ReportStatus(state, message, at) => StatusUpdate(TaskStatusUpdateEvent(taskId, TaskStatus(state, message, at), false, None))
    case PublishArtifact(artifact) => ArtifactUpdate(TaskArtifactUpdateEvent(taskId, artifact, None))
    case RecordHistory(_) => OtherUpdate(taskId)
  }

  /** The events one step hands to `SendUpdateAsync`: the event of a status
      or artifact update when the task is known, and none for a history
      entry or an unknown task. */
  function StepEvents(known: bool, taskId: string, step: AgentStep): (r: seq<UpdateEvent>)
    ensures |r| <= 1
    ensures forall e | e in r :: !e.OtherUpdate?
  {
    if known && !step.RecordHistory? then [EventOf(taskId, step)] else []
  }

  /** A step publishes exactly its events. */
  lemma StepEventsPublished(s: StoreState, taskId: string, step: AgentStep)
    requires WellFormed(s)
    ensures ApplyStep(s, taskId, step).published == s.published + StepEvents(taskId in s.tasks, taskId, step)
  {
  }

  /** What one step leaves alone: the set of tasks, the push settings,
      every other task and its history, and the logs up to their old
      length. */
  predicate Preserves(s: StoreState, r: StoreState, taskId: string) {
    r.tasks.Keys == s.tasks.Keys && r.pushConfigs == s.pushConfigs
    && (forall id | id in s.tasks && id != taskId :: r.tasks[id] == s.tasks[id])
    && (forall id | id in s.history && id != taskId :: id in r.history && r.history[id] == s.history[id])
    && |s.published| <= |r.published| && r.published[..|s.published|] == s.published
    && |s.pushes| <= |r.pushes| && r.pushes[..|s.pushes|] == s.pushes
  }

  lemma PreservesTransitive(a: StoreState, b: StoreState, c: StoreState, taskId: string)
    requires Preserves(a, b, taskId) && Preserves(b, c, taskId)
    ensures Preserves(a, c, taskId)
  {
    assert c.published[..|a.published|] == c.published[..|b.published|][..|a.published|];
    assert c.pushes[..|a.pushes|] == c.pushes[..|b.pushes|][..|a.pushes|];
  }

  lemma StepPreserves(s: StoreState, taskId: string, step: AgentStep)
    requires WellFormed(s)
    ensures Preserves(s, ApplyStep(s, taskId, step), taskId)
  {
    match step
    case ReportStatus(state, message, at) => StatusPreserves(s, taskId, state, message, at);
    case PublishArtifact(artifact) => ArtifactPreserves(s, taskId, artifact);
    case RecordHistory(message) =>
      var r := AddHistory(s, taskId, message).0;
      assert r.published == s.published && r.pushes == s.pushes;
      PrefixOfItself(s.published);
      PrefixOfItself(s.pushes);
  }

  lemma StatusPreserves(s: StoreState, taskId: string, state: TaskState, message: Option<Message>, at: Timestamp)
    requires WellFormed(s)
    ensures Preserves(s, UpdateStatus(s, taskId, state, message, at).0, taskId)
  {
    var r := UpdateStatus(s, taskId, state, message, at).0;
    if taskId in s.tasks {
      PrefixOfConcat(s.published, [StatusUpdate(TaskStatusUpdateEvent(taskId, TaskStatus(state, message, at), false, None))]);
      PrefixOfConcat(s.pushes, r.pushes[|s.pushes|..]);
    } else {
      PrefixOfItself(s.published);
      PrefixOfItself(s.pushes);
    }
  }

  lemma ArtifactPreserves(s: StoreState, taskId: string, artifact: Artifact)
    requires WellFormed(s)
    ensures Preserves(s, AddArtifact(s, taskId, artifact).0, taskId)
  {
    if taskId in s.tasks {
      PrefixOfConcat(s.published, [ArtifactUpdate(TaskArtifactUpdateEvent(taskId, artifact, None))]);
    } else {
      PrefixOfItself(s.published);
    }
    PrefixOfItself(s.pushes);
  }

  lemma PrefixOfItself<T>(a: seq<T>)
    ensures a[..|a|] == a
  {
  }

  lemma PrefixOfConcat<T>(a: seq<T>, c: seq<T>)
    ensures (a + c)[..|a|] == a
  {
  }

  /** An agent can neither create nor remove tasks, cannot touch another
      task, and cannot change push settings; the event and push logs only
      grow. */
  lemma {:induction false} ApplyStepsFrame(s: StoreState, taskId: string, steps: seq<AgentStep>)
    requires WellFormed(s)
    ensures Preserves(s, ApplySteps(s, taskId, steps), taskId)
    decreases |steps|
  {
    if steps == [] {
      assert s.published[..|s.published|] == s.published;
      assert s.pushes[..|s.pushes|] == s.pushes;
    } else {
      var p := ApplySteps(s, taskId, steps[..|steps| - 1]);
      ApplyStepsFrame(s, taskId, steps[..|steps| - 1]);
      StepPreserves(p, taskId, steps[|steps| - 1]);
      PreservesTransitive(s, p, ApplySteps(s, taskId, steps), taskId);
    }
  }

  /** `ProcessTaskAsync` for an agent given as a script: the store ends as
      the script's fold and the run's ending is reported. */
  method RunAgent(store: InMemoryTaskManager, taskId: string, run: AgentRun)
    returns (end: AgentEnd, events: seq<UpdateEvent>)
    requires store.Valid()
    modifies store
    ensures store.Valid()
    ensures store.State() == ApplySteps(old(store.State()), taskId, run.steps)
    ensures end == run.end
    ensures store.published == old(store.published) + events
  {
    events := [];
    var i := 0;
    while i < |run.steps|
      invariant 0 <= i <= |run.steps|
      invariant store.Valid()
      invariant store.State() == ApplySteps(old(store.State()), taskId, run.steps[..i])
      invariant store.published == old(store.published) + events
    {
      assert run.steps[..i + 1][..i] == run.steps[..i];
      var more := PerformStepReporting(store, taskId, run.steps[i]);
      events := events + more;
      i := i + 1;
    }
    assert run.steps[..i] == run.steps;
    end := run.end;
  }

  /** One update, with the events the store hands to `SendUpdateAsync`
      for it. */
  method PerformStepReporting(store: InMemoryTaskManager, taskId: string, step: AgentStep)
    returns (events: seq<UpdateEvent>)
    requires store.Valid()
    modifies store
    ensures store.Valid()
    ensures store.State() == ApplyStep(old(store.State()), taskId, step)
    ensures events == StepEvents(taskId in old(store.tasks), taskId, step)
    ensures store.published == old(store.published) + events
  {
    events := StepEvents(taskId in store.tasks, taskId, step);
    StepEventsPublished(store.State(), taskId, step);
    PerformStep(store, taskId, step);
  }

  /** One update, as the store call the agent makes for it. */
  method PerformStep(store: InMemoryTaskManager, taskId: string, step: AgentStep)
    requires store.Valid()
    modifies store
    ensures store.Valid()
    ensures store.State() == ApplyStep(old(store.State()), taskId, step)
  {
    match step {
      case ReportStatus(state, message, at) =>
        var _ := store.UpdateTaskStatus(taskId, state, message, at);
      case PublishArtifact(artifact) =>
        var _ := store.AddArtifactToTask(taskId, artifact);
      case RecordHistory(message) =>
        var _ := store.AddHistoryMessage(taskId, message);
    }
  }

  /** One more update at the end of a script already performed. */
  method PerformNext(store: InMemoryTaskManager, taskId: string, ghost s0: StoreState, ghost done: seq<AgentStep>,
                     step: AgentStep)
    requires store.Valid() && WellFormed(s0) && store.State() == ApplySteps(s0, taskId, done)
    modifies store
    ensures store.Valid() && store.State() == ApplySteps(s0, taskId, done + [step])
  {
    PerformStep(store, taskId, step);
    assert (done + [step])[..|done|] == done;
  }
}
