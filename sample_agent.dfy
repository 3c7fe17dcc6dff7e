/** `SampleAgentLogic` of the sample server: it routes a task on the text of
    the triggering message to one of three skills (echo, joke, a story told
    in chunks) and reports its progress through the task store. A skill's
    work is a script of store updates (`Agents.AgentRun`); the store's
    timestamps are one input, and cancellation is the index of the
    `Task.Delay` at which the token is seen cancelled. */
module SampleAgent {
  import opened Wrappers
  import opened Models
  import opened Text
  import opened TaskStore
  import opened Agents

  /** `Parts.OfType<TextPart>().FirstOrDefault()?.Text`. */
  function FirstText(parts: seq<Part>): (r: Option<string>)
    ensures r.None? <==> forall i | 0 <= i < |parts| :: !parts[i].TextPart?
    ensures r.Some? ==> exists i | 0 <= i < |parts| ::
      parts[i].TextPart? && parts[i].text == r.value && forall j | 0 <= j < i :: !parts[j].TextPart?
  {
    if parts == [] then None
    else if parts[0].TextPart? then Some(parts[0].text)
    else
      var rest := parts[1..];
      assert forall i | 1 <= i < |parts| :: parts[i] == rest[i - 1];
      FirstText(rest)
  }

  /** The routed text: the first text part lower-cased, or "" without one. */
  function InputText(trigger: Message): string {
    match FirstText(trigger.parts)
    case None => ""
    case Some(t) => ToLower(t)
  }

  datatype Skill = EchoSkill | JokeSkill | StorySkill | NoSkill

  /** The routing: "echo" wins, then "joke", then "story" or "stream";
      anything else has no skill. */
  function Route(input: string): (skill: Skill)
    ensures skill == EchoSkill <==> Contains(input, "echo")
    ensures skill == JokeSkill <==> !Contains(input, "echo") && Contains(input, "joke")
    ensures skill == StorySkill <==>
      !Contains(input, "echo") && !Contains(input, "joke") && (Contains(input, "story") || Contains(input, "stream"))
  {
    if Contains(input, "echo") then EchoSkill
    else if Contains(input, "joke") then JokeSkill
    else if Contains(input, "story") || Contains(input, "stream") then StorySkill
    else NoSkill
  }

  const StoryParts: seq<string> := [
    "Once upon a time, in a land of circuits and code,",
    " there lived a small robot named Bolt.",
    " Bolt dreamed of seeing the world beyond the server room.",
    " One day, a network glitch opened a path...",
    " Bolt ventured out, discovering the wonders of the internet!"
  ]

  const JokeText: string := "Why don't scientists trust atoms? Because they make up everything!"

  function EchoArtifact(input: string): Artifact {
    Artifact(None, None, [TextPart("Echo: " + input, None)], 0, None, None, None)
  }

  const JokeArtifact: Artifact := Artifact(Some("joke"), None, [TextPart(JokeText, None)], 0, None, None, None)

  /** The i-th chunk of the story: all at index 0, appending after the
      first, the fifth marked as the last. */
  function StoryChunk(i: nat): Artifact
    requires i < |StoryParts|
  {
    Artifact(Some("story"), None, [TextPart(StoryParts[i], None)], 0, Some(i > 0), Some(i == |StoryParts| - 1), None)
  }

  /** The first `n` chunks, each added as an artifact. */
  function ChunkSteps(n: nat): (r: seq<AgentStep>)
    requires n <= |StoryParts|
    ensures |r| == n && forall i | 0 <= i < n :: r[i] == PublishArtifact(StoryChunk(i))
  {
    if n == 0 then [] else ChunkSteps(n - 1) + [PublishArtifact(StoryChunk(n - 1))]
  }

  function Say(state: TaskState, text: string, now: Timestamp): AgentStep {
    ReportStatus(state, Some(AgentText(text)), now)
  }

  const ProcessingText: string := "Processing your request..."
  const StartingStoryText: string := "Starting story stream..."
  const StoryFinishedText: string := "Story finished."
  const NoSkillText: string := "Sorry, I didn't understand which skill to use."
  const CancelledText: string := "Processing was cancelled."

  /** The skill's updates. `cancelAt` is the index of the delay at which
      cancellation is seen: the joke waits once before its artifact, the
      story before each chunk, echo never; a cancelled skill ends in
      Canceled with the cancellation message. */
  function SkillSteps(skill: Skill, input: string, now: Timestamp, cancelAt: Option<nat>): seq<AgentStep> {
    match skill
    case EchoSkill => [PublishArtifact(EchoArtifact(input)), ReportStatus(Completed, None, now)]
    case JokeSkill =>
      if cancelAt == Some(0) then [Say(Canceled, CancelledText, now)]
      else [PublishArtifact(JokeArtifact), ReportStatus(Completed, None, now)]
    case StorySkill =>
      var start := Say(Working, StartingStoryText, now);
      if cancelAt.Some? && cancelAt.value < |StoryParts| then
        [start] + ChunkSteps(cancelAt.value) + [Say(Canceled, CancelledText, now)]
      else [start] + ChunkSteps(|StoryParts|) + [Say(Completed, StoryFinishedText, now)]
    case NoSkill => [Say(Failed, NoSkillText, now)]
  }

  /** `ProcessTaskAsync` as a script: Working with "Processing your
      request...", then the routed skill. Every exception is caught, so the
      run always ends normally, and its last update puts the task in a
      terminal state. */
  function SampleRun(trigger: Message, now: Timestamp, cancelAt: Option<nat>): (r: AgentRun)
    ensures r.end == Finished
    ensures |r.steps| >= 2 && r.steps[0] == Say(Working, ProcessingText, now)
    ensures r.steps[|r.steps| - 1].ReportStatus? && IsTerminal(r.steps[|r.steps| - 1].state)
    ensures forall i | 0 <= i < |r.steps| :: !r.steps[i].RecordHistory?
  {
    var input := InputText(trigger);
    SkillStepsEnd(Route(input), input, now, cancelAt);
    AgentRun([Say(Working, ProcessingText, now)] + SkillSteps(Route(input), input, now, cancelAt), Finished)
  }

  /** Every skill's script ends in a terminal status and records no
      history of its own. */
  lemma SkillStepsEnd(skill: Skill, input: string, now: Timestamp, cancelAt: Option<nat>)
    ensures var r := SkillSteps(skill, input, now, cancelAt);
      |r| >= 1 && r[|r| - 1].ReportStatus? && IsTerminal(r[|r| - 1].state)
      && forall i | 0 <= i < |r| :: !r[i].RecordHistory?
  {
    if skill == StorySkill {
      StoryStepsEnd(input, now, cancelAt);
    }
  }

  /** The story's script ends in Canceled or Completed and records no
      history. */
  lemma StoryStepsEnd(input: string, now: Timestamp, cancelAt: Option<nat>)
    ensures var r := SkillSteps(StorySkill, input, now, cancelAt);
      |r| >= 1 && r[|r| - 1].ReportStatus? && IsTerminal(r[|r| - 1].state)
      && forall i | 0 <= i < |r| :: !r[i].RecordHistory?
  {
    var k := if cancelAt.Some? && cancelAt.value < |StoryParts| then cancelAt.value else |StoryParts|;
    var last := if k < |StoryParts| then Say(Canceled, CancelledText, now) else Say(Completed, StoryFinishedText, now);
    var chunks := ChunkSteps(k);
    StoryScript(input, now, cancelAt);
    var r := [Say(Working, StartingStoryText, now)] + chunks + [last];
    assert forall i | 1 <= i < |r| - 1 :: r[i] == chunks[i - 1];
  }

  function EventsOf(taskId: string, steps: seq<AgentStep>): (r: seq<UpdateEvent>)
    ensures |r| == |steps|
    ensures forall i | 0 <= i < |steps| :: r[i] == EventOf(taskId, steps[i])
  {
    if steps == [] then [] else EventsOf(taskId, steps[..|steps| - 1]) + [EventOf(taskId, steps[|steps| - 1])]
  }

  /** Each status and artifact update of a script on an existing task
      publishes exactly one event, in order. */
  lemma {:induction false} ScriptPublishes(s: StoreState, taskId: string, steps: seq<AgentStep>)
    requires WellFormed(s) && taskId in s.tasks
    requires forall i | 0 <= i < |steps| :: !steps[i].RecordHistory?
    ensures ApplySteps(s, taskId, steps).published == s.published + EventsOf(taskId, steps)
    decreases |steps|
  {
    if steps == [] {
      assert s.published + [] == s.published;
    } else {
      var init := steps[..|steps| - 1];
      var last := steps[|steps| - 1];
      ScriptPublishes(s, taskId, init);
      ApplyStepsFrame(s, taskId, init);
      var p := ApplySteps(s, taskId, init);
      StepPublishes(p, taskId, last);
      Snoc(s.published, EventsOf(taskId, init), EventOf(taskId, last));
    }
  }

  /** One status or artifact update on an existing task publishes its
      event. */
  lemma StepPublishes(s: StoreState, taskId: string, step: AgentStep)
    requires WellFormed(s) && taskId in s.tasks && !step.RecordHistory?
    ensures ApplyStep(s, taskId, step).published == s.published + [EventOf(taskId, step)]
  {
  }

  /** A status update at the end of a script leaves the task in that status. */
  lemma LastStatusStays(s: StoreState, taskId: string, steps: seq<AgentStep>)
    requires WellFormed(s) && taskId in s.tasks
    requires |steps| > 0 && steps[|steps| - 1].ReportStatus?
    ensures taskId in ApplySteps(s, taskId, steps).tasks
    ensures var last := steps[|steps| - 1];
      ApplySteps(s, taskId, steps).tasks[taskId].status == TaskStatus(last.state, last.message, last.at)
  {
    ApplyStepsFrame(s, taskId, steps[..|steps| - 1]);
  }

  /** On an existing task the sample agent always finishes in a terminal
      state, and subscribers see one event per update, the first being the
      "Processing your request..." status. */
  lemma SampleRunOutcome(s: StoreState, taskId: string, trigger: Message, now: Timestamp, cancelAt: Option<nat>)
    requires WellFormed(s) && taskId in s.tasks
    ensures var r := ApplySteps(s, taskId, SampleRun(trigger, now, cancelAt).steps);
      taskId in r.tasks && IsTerminal(r.tasks[taskId].status.state)
      && r.published == s.published + EventsOf(taskId, SampleRun(trigger, now, cancelAt).steps)
      && r.published[|s.published|] == EventOf(taskId, Say(Working, ProcessingText, now))
  {
    var steps := SampleRun(trigger, now, cancelAt).steps;
    LastStatusStays(s, taskId, steps);
    ScriptPublishes(s, taskId, steps);
  }

  /** The echo skill adds exactly one artifact, "Echo: " and the
      lower-cased input, after the task's earlier ones, and completes the
      task with no message. */
  lemma EchoOutcome(s: StoreState, taskId: string, trigger: Message, now: Timestamp, cancelAt: Option<nat>)
    requires WellFormed(s) && taskId in s.tasks
    requires Route(InputText(trigger)) == EchoSkill
    ensures var r := ApplySteps(s, taskId, SampleRun(trigger, now, cancelAt).steps);
      taskId in r.tasks && r.tasks[taskId].status == TaskStatus(Completed, None, now)
      && r.tasks[taskId].artifacts == Some(WithArtifact(s.tasks[taskId].artifacts, EchoArtifact(InputText(trigger))))
  {
    var input := InputText(trigger);
    var w := Say(Working, ProcessingText, now);
    var e := PublishArtifact(EchoArtifact(input));
    var c := ReportStatus(Completed, None, now);
    EchoScript(trigger, now, cancelAt);
    Triple(s, taskId, w, e, c);
    var t0 := s.tasks[taskId];
    var s1 := ApplyStep(s, taskId, w);
    StepTask(s, taskId, w);
    assert s1.tasks[taskId].artifacts == t0.artifacts;
    var s2 := ApplyStep(s1, taskId, e);
    StepTask(s1, taskId, e);
    assert s2.tasks[taskId].artifacts == Some(WithArtifact(t0.artifacts, EchoArtifact(input)));
    StepTask(s2, taskId, c);
  }

  /** The echo script: Working, the echo artifact, Completed. */
  lemma EchoScript(trigger: Message, now: Timestamp, cancelAt: Option<nat>)
    requires Route(InputText(trigger)) == EchoSkill
    ensures SampleRun(trigger, now, cancelAt).steps
      == [Say(Working, ProcessingText, now), PublishArtifact(EchoArtifact(InputText(trigger))),
          ReportStatus(Completed, None, now)]
  {
  }

  /** Three updates in a row. */
  lemma Triple(s: StoreState, taskId: string, a: AgentStep, b: AgentStep, c: AgentStep)
    requires WellFormed(s)
    ensures ApplySteps(s, taskId, [a, b, c]) == ApplyStep(ApplyStep(ApplyStep(s, taskId, a), taskId, b), taskId, c)
  {
    Pair(s, taskId, a, b);
    Extend(s, taskId, [a, b], c);
    assert [a, b] + [c] == [a, b, c];
  }

  /** What one update does to the task it is for. */
  lemma StepTask(s: StoreState, taskId: string, step: AgentStep)
    requires WellFormed(s) && taskId in s.tasks && !step.RecordHistory?
    ensures var t := ApplyStep(s, taskId, step).tasks;
      taskId in t
      && (step.ReportStatus? ==> t[taskId] == s.tasks[taskId].(status := TaskStatus(step.state, step.message, step.at)))
      && (step.PublishArtifact? ==>
            t[taskId] == s.tasks[taskId].(artifacts := Some(WithArtifact(s.tasks[taskId].artifacts, step.artifact))))
  {
  }

  /** Told without cancellation, the story publishes, after the two
      Working statuses, its five chunks in order and then the Completed
      status with "Story finished.". */
  lemma StoryPublishesChunks(s: StoreState, taskId: string, trigger: Message, now: Timestamp, cancelAt: Option<nat>)
    requires WellFormed(s) && taskId in s.tasks
    requires Route(InputText(trigger)) == StorySkill
    requires cancelAt.None? || cancelAt.value >= |StoryParts|
    ensures var r := ApplySteps(s, taskId, SampleRun(trigger, now, cancelAt).steps);
      |r.published| == |s.published| + 8
      && (forall i | 0 <= i < 5 :: r.published[|s.published| + 2 + i]
            == ArtifactUpdate(TaskArtifactUpdateEvent(taskId, StoryChunk(i), None)))
      && r.published[|s.published| + 7] == EventOf(taskId, Say(Completed, StoryFinishedText, now))
  {
    var steps := SampleRun(trigger, now, cancelAt).steps;
    ScriptPublishes(s, taskId, steps);
    StoryRunShape(trigger, now, cancelAt);
  }

  /** The uncancelled story run: eight updates, the chunks at positions
      two to six, the closing status last. */
  lemma StoryRunShape(trigger: Message, now: Timestamp, cancelAt: Option<nat>)
    requires Route(InputText(trigger)) == StorySkill
    requires cancelAt.None? || cancelAt.value >= |StoryParts|
    ensures var steps := SampleRun(trigger, now, cancelAt).steps;
      |steps| == 8 && (forall i | 0 <= i < 5 :: steps[2 + i] == PublishArtifact(StoryChunk(i)))
      && steps[7] == Say(Completed, StoryFinishedText, now)
  {
    var chunks := ChunkSteps(|StoryParts|);
    StoryScript(InputText(trigger), now, cancelAt);
    var w := Say(Working, ProcessingText, now);
    var start := Say(Working, StartingStoryText, now);
    var last := Say(Completed, StoryFinishedText, now);
    forall i | 0 <= i < 5 ensures SampleRun(trigger, now, cancelAt).steps[2 + i] == PublishArtifact(StoryChunk(i)) {
      ScriptIndex(w, start, chunks, last, i);
    }
    ScriptIndex(w, start, chunks, last, 0);
  }

  /** Where the parts of a two-status, chunks, status script sit. */
  lemma ScriptIndex<T>(first: T, second: T, middle: seq<T>, last: T, i: nat)
    requires i < |middle|
    ensures var r := [first] + ([second] + middle + [last]);
      |r| == |middle| + 3 && r[2 + i] == middle[i] && r[|middle| + 2] == last
  {
  }

  /** `ProcessTaskAsync` on the store: the Working status, the routing, and
      the routed skill. */
  method ProcessTask(store: InMemoryTaskManager, taskId: string, trigger: Message, now: Timestamp, cancelAt: Option<nat>)
    requires store.Valid()
    modifies store
    ensures store.Valid()
    ensures store.State() == ApplySteps(old(store.State()), taskId, SampleRun(trigger, now, cancelAt).steps)
  {
    ghost var s0 := store.State();
    PerformStep(store, taskId, Say(Working, ProcessingText, now));
    ghost var first := [Say(Working, ProcessingText, now)];
    Extend(s0, taskId, [], first[0]);
    assert [] + [first[0]] == first;
    ghost var s1 := store.State();
    var input := InputText(trigger);
    var skill := Route(input);
    match skill {
      case EchoSkill => ProcessEcho(store, taskId, input, now, cancelAt);
      case JokeSkill => ProcessJoke(store, taskId, now, cancelAt);
      case StorySkill => ProcessStory(store, taskId, now, cancelAt);
      case NoSkill =>
        PerformStep(store, taskId, Say(Failed, NoSkillText, now));
        Extend(s1, taskId, [], Say(Failed, NoSkillText, now));
        assert [] + [Say(Failed, NoSkillText, now)]
          == SkillSteps(skill, input, now, cancelAt);
    }
    ApplyStepsAppend(s0, taskId, first, SkillSteps(skill, input, now, cancelAt));
  }

  /** `HandleEchoSkill`: the echo artifact, then Completed. */
  method ProcessEcho(store: InMemoryTaskManager, taskId: string, input: string, now: Timestamp, cancelAt: Option<nat>)
    requires store.Valid()
    modifies store
    ensures store.Valid()
    ensures store.State() == ApplySteps(old(store.State()), taskId, SkillSteps(EchoSkill, input, now, cancelAt))
  {
    ghost var s0 := store.State();
    PerformStep(store, taskId, PublishArtifact(EchoArtifact(input)));
    PerformStep(store, taskId, ReportStatus(Completed, None, now));
    Pair(s0, taskId, PublishArtifact(EchoArtifact(input)), ReportStatus(Completed, None, now));
  }

  /** `HandleJokeSkill`: one delay, then the joke artifact and
      Completed; cancelled at that delay, Canceled instead. */
  method ProcessJoke(store: InMemoryTaskManager, taskId: string, now: Timestamp, cancelAt: Option<nat>)
    requires store.Valid()
    modifies store
    ensures store.Valid()
    ensures store.State() == ApplySteps(old(store.State()), taskId, SkillSteps(JokeSkill, "", now, cancelAt))
  {
    ghost var s0 := store.State();
    if cancelAt == Some(0) {
      PerformStep(store, taskId, Say(Canceled, CancelledText, now));
      Extend(s0, taskId, [], Say(Canceled, CancelledText, now));
      assert [] + [Say(Canceled, CancelledText, now)] == [Say(Canceled, CancelledText, now)];
    } else {
      PerformStep(store, taskId, PublishArtifact(JokeArtifact));
      PerformStep(store, taskId, ReportStatus(Completed, None, now));
      Pair(s0, taskId, PublishArtifact(JokeArtifact), ReportStatus(Completed, None, now));
    }
  }

  /** `HandleStorySkillStreaming`: the "Starting story stream..." status,
      then a loop over the chunks, each after a delay, stopping at the delay
      where cancellation is seen; when all are told, Completed with "Story
      finished.". */
  method ProcessStory(store: InMemoryTaskManager, taskId: string, now: Timestamp, cancelAt: Option<nat>)
    requires store.Valid()
    modifies store
    ensures store.Valid()
    ensures store.State() == ApplySteps(old(store.State()), taskId, SkillSteps(StorySkill, "", now, cancelAt))
  {
    ghost var s0 := store.State();
    var start := Say(Working, StartingStoryText, now);
    PerformNext(store, taskId, s0, [], start);
    assert [] + [start] == [start] + ChunkSteps(0);
    var stop: nat := if cancelAt.Some? then cancelAt.value else |StoryParts|;
    var i := 0;
    while i < |StoryParts|
      invariant 0 <= i <= |StoryParts| && i <= stop
      invariant store.Valid()
      invariant store.State() == ApplySteps(s0, taskId, [start] + ChunkSteps(i))
    {
      if i == stop {
        PerformNext(store, taskId, s0, [start] + ChunkSteps(i), Say(Canceled, CancelledText, now));
        StoryScript("", now, cancelAt);
        return;
      }
      var chunk := PublishArtifact(StoryChunk(i));
      PerformNext(store, taskId, s0, [start] + ChunkSteps(i), chunk);
      Snoc([start], ChunkSteps(i), chunk);
      i := i + 1;
    }
    PerformNext(store, taskId, s0, [start] + ChunkSteps(i), Say(Completed, StoryFinishedText, now));
    StoryScript("", now, cancelAt);
  }

  /** The story's script: its opening status, the chunks told before the
      delay where cancellation is seen (all five when none is), and the
      closing status. */
  lemma StoryScript(input: string, now: Timestamp, cancelAt: Option<nat>)
    ensures var k := if cancelAt.Some? && cancelAt.value < |StoryParts| then cancelAt.value else |StoryParts|;
      SkillSteps(StorySkill, input, now, cancelAt)
      == [Say(Working, StartingStoryText, now)] + ChunkSteps(k)
         + [if k < |StoryParts| then Say(Canceled, CancelledText, now) else Say(Completed, StoryFinishedText, now)]
  {
  }

  lemma Snoc<T>(a: seq<T>, b: seq<T>, x: T)
    ensures a + b + [x] == a + (b + [x])
  {
  }

  /** Two updates in a row. */
  lemma Pair(s: StoreState, taskId: string, a: AgentStep, b: AgentStep)
    requires WellFormed(s)
    ensures ApplySteps(s, taskId, [a, b]) == ApplyStep(ApplyStep(s, taskId, a), taskId, b)
  {
    Extend(s, taskId, [], a);
    assert [] + [a] == [a];
    Extend(s, taskId, [a], b);
    assert [a] + [b] == [a, b];
  }

  /** One more update at the end of a script. */
  lemma Extend(s: StoreState, taskId: string, steps: seq<AgentStep>, step: AgentStep)
    requires WellFormed(s)
    ensures ApplySteps(s, taskId, steps + [step]) == ApplyStep(ApplySteps(s, taskId, steps), taskId, step)
  {
    assert (steps + [step])[..|steps|] == steps;
  }
}
