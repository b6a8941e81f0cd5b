/**
  The press-and-hold conversation controller `VoiceViewModel`.

  The controller is an immutable record; every entry point is a pure
  function from record to record. Swift's main actor serialises everything,
  so a run of the controller is a sequence of events: the two gesture
  callbacks and the wake-ups of pipeline tasks. Each `Task.sleep` followed by
  its `Task.isCancelled` guard is one `Woke(gen)` event of the task
  created `gen`-th; how long the sleeps last only decides where such events
  fall in the sequence.
 */
module ViewModel {
  import opened Options
  import opened VoiceStates

  const IdlePrompt: string := "Tap and hold to speak"
  const ListeningStatus: string := "Listening..."
  const ThinkingStatus: string := "Thinking..."
  const SpeakingStatus: string := "Speaking..."

  /** The canned recognition result and reply the pipeline writes. */
  const TranscriptText: string := "I have been feeling overwhelmed lately."
  const ResponseText: string := "Thanks for sharing that. Want to talk about what feels heaviest today?"

  /** Where a pipeline task is suspended: which sleep it will wake from next, or done. */
  datatype Stage =
    | AwaitTranscript   // in the first sleep; on waking it writes the transcript
    | AwaitReply        // in the second sleep; on waking it starts speaking
    | AwaitIdle         // in the third sleep; on waking it returns to idle
    | Returned          // the task body has returned

  /**
    Length of the sleep a task in this stage is in, in milliseconds. Only a
    task that has returned sleeps no more; no sleep is longer than 1.8 s.
   */
  function DelayMs(stage: Stage): (r: nat)
    ensures r == 0 <==> stage == Returned
    ensures r <= 1800
  {
    match stage
    case AwaitTranscript => 900
    case AwaitReply => 800
    case AwaitIdle => 1800
    case Returned => 0
  }

  /** One `Task` created by `simulatePipeline`: where it is, and whether `cancel()` was called on it. */
  datatype PipelineTask = PipelineTask(stage: Stage, cancelled: bool)

  /** A call into the capture service, in the order made. */
  datatype Call = StartCapture | StopCapture

  /**
    The controller. `tasks[g]` is the `g`-th pipeline task ever created (its
    generation); `responseTask` is the generation held in the task slot.
   */
  datatype Model = Model(
    state: VoiceState,
    isHolding: bool,
    transcript: string,
    response: string,
    statusText: string,
    responseTask: Option<nat>,
    tasks: seq<PipelineTask>,
    calls: seq<Call>)

  /**
    What can happen next: the gesture's change callback, its end callback, or
    the wake-up of the pipeline task of generation `gen`.
   */
  datatype Event = Pressed | Released | Woke(gen: nat)

  /** The fields a bound view observes. */
  datatype Published = Published(
    state: VoiceState, isHolding: bool, transcript: string, response: string, statusText: string)

  function PublishedOf(m: Model): Published
  {
    Published(m.state, m.isHolding, m.transcript, m.response, m.statusText)
  }

  /** Task `g` exists, was not cancelled, and has not returned: its next wake-up will write. */
  predicate Live(m: Model, g: nat)
  {
    g < |m.tasks| && !m.tasks[g].cancelled && m.tasks[g].stage != Returned
  }

  /** A controller as constructed: idle, not holding, nothing heard or said, no task. */
  function Init(): (m: Model)
    ensures m.state == Idle && !m.isHolding
    ensures m.transcript == "" && m.response == ""
    ensures m.statusText == IdlePrompt
    ensures m.responseTask == None && forall g: nat :: !Live(m, g)
    ensures m.calls == []
  {
    Model(Idle, false, "", "", IdlePrompt, None, [], [])
  }

  /** `responseTask?.cancel()`: sets the cancellation flag of the task in the slot, if any. */
  function CancelSlot(m: Model): (r: Model)
    ensures r.responseTask == m.responseTask && |r.tasks| == |m.tasks|
    ensures forall g :: 0 <= g < |m.tasks| ==> r.tasks[g].stage == m.tasks[g].stage
    ensures forall g: nat :: Live(r, g) <==> Live(m, g) && m.responseTask != Some(g)
    ensures PublishedOf(r) == PublishedOf(m) && r.calls == m.calls
  {
    match m.responseTask
    case None => m
    case Some(g) =>
      if g < |m.tasks| then m.(tasks := m.tasks[g := m.tasks[g].(cancelled := true)]) else m
  }

  /** The press callback; the drag gesture fires it on every change, so it is guarded. */
  function PressBegan(m: Model): (r: Model)
    ensures m.isHolding ==> r == m
    ensures !m.isHolding ==>
      && r.isHolding
      && r.state == Listening
      && r.transcript == "" && r.response == ""
      && r.statusText == ListeningStatus
      && r.calls == m.calls + [StartCapture]
      && r.responseTask == m.responseTask
      && |r.tasks| == |m.tasks|
      && (forall g :: 0 <= g < |m.tasks| ==> r.tasks[g].stage == m.tasks[g].stage)
      && (forall g: nat :: Live(r, g) <==> Live(m, g) && m.responseTask != Some(g))
  {
    if m.isHolding then m
    else
      var c := CancelSlot(m.(isHolding := true));
      c.(transcript := "", response := "", statusText := ListeningStatus, state := Listening,
         calls := m.calls + [StartCapture])
  }

  /** `simulatePipeline`: cancels the task in the slot and puts a fresh one there. */
  function SimulatePipeline(m: Model): (r: Model)
    ensures PublishedOf(r) == PublishedOf(m) && r.calls == m.calls
    ensures |r.tasks| == |m.tasks| + 1 && r.responseTask == Some(|m.tasks|)
    ensures r.tasks[|m.tasks|] == PipelineTask(AwaitTranscript, false)
    ensures forall g :: 0 <= g < |m.tasks| ==> r.tasks[g].stage == m.tasks[g].stage
    ensures forall g: nat :: Live(r, g) <==> g == |m.tasks| || (Live(m, g) && m.responseTask != Some(g))
  {
    var c := CancelSlot(m);
    c.(tasks := c.tasks + [PipelineTask(AwaitTranscript, false)], responseTask := Some(|m.tasks|))
  }

  /** The release callback: ends the hold, stops capture and starts the pipeline. */
  function PressEnded(m: Model): (r: Model)
    ensures !m.isHolding ==> r == m
    ensures m.isHolding ==>
      && !r.isHolding
      && r.state == Thinking
      && r.statusText == ThinkingStatus
      && r.transcript == m.transcript && r.response == m.response
      && r.calls == m.calls + [StopCapture]
      && |r.tasks| == |m.tasks| + 1 && r.responseTask == Some(|m.tasks|)
      && r.tasks[|m.tasks|] == PipelineTask(AwaitTranscript, false)
      && (forall g :: 0 <= g < |m.tasks| ==> r.tasks[g].stage == m.tasks[g].stage)
      && (forall g: nat :: Live(r, g) <==> g == |m.tasks| || (Live(m, g) && m.responseTask != Some(g)))
  {
    if !m.isHolding then m
    else
      SimulatePipeline(m.(isHolding := false, state := Thinking, statusText := ThinkingStatus,
                          calls := m.calls + [StopCapture]))
  }

  /**
    Task `g` wakes from its current sleep. A task that was cancelled returns at
    its guard without writing; a live one performs the writes that follow that
    guard and moves on to its next sleep.
   */
  function PipelineStep(m: Model, g: nat): (r: Model)
    ensures r.isHolding == m.isHolding && r.calls == m.calls && r.responseTask == m.responseTask
    ensures |r.tasks| == |m.tasks|
    ensures forall h :: 0 <= h < |m.tasks| && h != g ==> r.tasks[h] == m.tasks[h]
    // a task that is not live writes nothing and stays dead
    ensures !Live(m, g) ==> PublishedOf(r) == PublishedOf(m) && !Live(r, g)
    ensures Live(m, g) && m.tasks[g].stage == AwaitTranscript ==>
      && r.transcript == TranscriptText
      && r.state == m.state && r.statusText == m.statusText && r.response == m.response
      && Live(r, g) && r.tasks[g].stage == AwaitReply
    ensures Live(m, g) && m.tasks[g].stage == AwaitReply ==>
      && r.state == Speaking && r.statusText == SpeakingStatus && r.response == ResponseText
      && r.transcript == m.transcript
      && Live(r, g) && r.tasks[g].stage == AwaitIdle
    ensures Live(m, g) && m.tasks[g].stage == AwaitIdle ==>
      && r.state == Idle && r.statusText == IdlePrompt
      && r.transcript == m.transcript && r.response == m.response
      && !Live(r, g)
  {
    if g >= |m.tasks| || m.tasks[g].stage == Returned then m
    else
      var t := m.tasks[g];
      if t.cancelled then m.(tasks := m.tasks[g := t.(stage := Returned)])
      else
        match t.stage
        case AwaitTranscript =>
          m.(transcript := TranscriptText, tasks := m.tasks[g := t.(stage := AwaitReply)])
        case AwaitReply =>
          m.(state := Speaking, statusText := SpeakingStatus, response := ResponseText,
             tasks := m.tasks[g := t.(stage := AwaitIdle)])
        case AwaitIdle =>
          m.(state := Idle, statusText := IdlePrompt, tasks := m.tasks[g := t.(stage := Returned)])
  }

  function Step(m: Model, e: Event): Model
  {
    match e
    case Pressed => PressBegan(m)
    case Released => PressEnded(m)
    case Woke(g) => PipelineStep(m, g)
  }

  /** The controller after the events `es`, in order. */
  function Run(m: Model, es: seq<Event>): Model
    decreases |es|
  {
    if es == [] then m else Run(Step(m, es[0]), es[1..])
  }

  /** The controller before each event of `es` and after the last one. */
  function Trajectory(m: Model, es: seq<Event>): (ms: seq<Model>)
    ensures |ms| == |es| + 1 && ms[0] == m
    decreases |es|
  {
    if es == [] then [m] else [m] + Trajectory(Step(m, es[0]), es[1..])
  }
}
