/**
  What the controller promises across events: repeated callbacks are
  no-ops, presses leave exactly the pipelines they should, a cancelled or
  superseded pipeline never writes again, and the phase only ever moves
  idle -> listening -> thinking -> speaking -> idle, a new press cutting in
  to listening.
 */
module Properties {
  import opened Options
  import opened VoiceStates
  import opened ViewModel
  import opened Invariants

  /** The next phase of the conversation cycle. */
  function Next(s: VoiceState): VoiceState
  {
    match s
    case Idle => Listening
    case Listening => Thinking
    case Thinking => Speaking
    case Speaking => Idle
  }

  /** An event may keep the phase or advance it one place around the cycle; only a press may cut in to listening. */
  predicate Allowed(e: Event, before: VoiceState, after: VoiceState)
  {
    after == before || after == Next(before) || (e == Pressed && after == Listening)
  }

  /** A second `pressBegan` during the same hold changes nothing. */
  lemma PressBeganIdempotent(m: Model)
    ensures PressBegan(PressBegan(m)) == PressBegan(m)
  {
  }

  /** A second `pressEnded` after the release changes nothing. */
  lemma PressEndedIdempotent(m: Model)
    ensures PressEnded(PressEnded(m)) == PressEnded(m)
  {
  }

  /** An accepted press leaves no pipeline task live, whatever was in flight. */
  lemma AcceptedPressCancelsPipeline(m: Model)
    requires Inv(m) && !m.isHolding
    ensures forall g: nat :: !Live(PressBegan(m), g)
  {
  }

  /** An accepted release leaves exactly one live task: the fresh one it created. */
  lemma AcceptedReleaseStartsOnePipeline(m: Model)
    requires Inv(m) && m.isHolding
    ensures forall g: nat :: Live(PressEnded(m), g) <==> g == |m.tasks|
  {
  }

  /** While the user holds, no wake-up of any task changes what the view shows. */
  lemma HoldingStepsInert(m: Model, g: nat)
    requires Inv(m) && m.isHolding
    ensures PublishedOf(PipelineStep(m, g)) == PublishedOf(m)
  {
    HoldingMeansListening(m);
  }

  /** How each kind of event may move the phase in a reachable controller. */
  lemma StepFollowsPath(m: Model, e: Event)
    requires Inv(m)
    ensures var after := Step(m, e).state;
      match e
      case Pressed => after == m.state || after == Listening
      case Released => after == m.state || (m.state == Listening && after == Thinking)
      case Woke(_) =>
        || after == m.state
        || (m.state == Thinking && after == Speaking)
        || (m.state == Speaking && after == Idle)
  {
    match e
    case Pressed =>
    case Released =>
    case Woke(g) =>
      if Live(m, g) {
        assert LiveStage(m) == Some(m.tasks[g].stage);
      }
  }

  /** In the run `ms` driven by `es`, each event moves the phase only as `Allowed` says. */
  predicate FollowsPath(es: seq<Event>, ms: seq<Model>)
    requires |ms| == |es| + 1
  {
    forall i :: 0 <= i < |es| ==> Allowed(es[i], ms[i].state, ms[i + 1].state)
  }

  lemma StepAllowed(m: Model, e: Event)
    requires Inv(m)
    ensures Allowed(e, m.state, Step(m, e).state)
  {
    StepFollowsPath(m, e);
  }

  /** Along any run from a reachable controller, every event moves the phase only as `Allowed` says: only presses jump. */
  lemma {:induction false} RunFollowsPath(m: Model, es: seq<Event>)
    requires Inv(m)
    ensures FollowsPath(es, Trajectory(m, es))
    decreases |es|
  {
    if es != [] {
      var m1 := Step(m, es[0]);
      StepAllowed(m, es[0]);
      StepPreservesInv(m, es[0]);
      RunFollowsPath(m1, es[1..]);
      var rest := Trajectory(m1, es[1..]);
      var ms := Trajectory(m, es);
      assert ms == [m] + rest;
      forall i | 0 <= i < |es| ensures Allowed(es[i], ms[i].state, ms[i + 1].state) {
        if i > 0 {
          assert es[i] == es[1..][i - 1];
          assert ms[i] == rest[i - 1] && ms[i + 1] == rest[i];
        }
      }
    }
  }

  /** The phases a run from construction goes through only follow the conversation cycle. */
  lemma ReachablePath(es: seq<Event>)
    ensures FollowsPath(es, Trajectory(Init(), es))
  {
    InitSatisfiesInv();
    RunFollowsPath(Init(), es);
  }

  /** No event brings a dead task back to life. */
  lemma StepKeepsDead(m: Model, e: Event, g: nat)
    requires g < |m.tasks| && !Live(m, g)
    ensures g < |Step(m, e).tasks| && !Live(Step(m, e), g)
  {
  }

  /** In the run `ms` driven by `es`, no wake-up of task `g` changes a published field. */
  predicate SilentIn(g: nat, es: seq<Event>, ms: seq<Model>)
    requires |ms| == |es| + 1
  {
    forall i :: 0 <= i < |es| && es[i] == Woke(g) ==> PublishedOf(ms[i + 1]) == PublishedOf(ms[i])
  }

  /**
    A task that is cancelled or has returned stays silent for ever: whatever
    events follow, none of its wake-ups changes a published field.
   */
  lemma {:induction false} StaleStaysSilent(m: Model, g: nat, es: seq<Event>)
    requires g < |m.tasks| && !Live(m, g)
    ensures SilentIn(g, es, Trajectory(m, es))
    ensures !Live(Run(m, es), g)
    decreases |es|
  {
    if es != [] {
      var m1 := Step(m, es[0]);
      StepKeepsDead(m, es[0], g);
      StaleStaysSilent(m1, g, es[1..]);
      var rest := Trajectory(m1, es[1..]);
      var ms := Trajectory(m, es);
      assert ms == [m] + rest;
      forall i | 0 <= i < |es| && es[i] == Woke(g) ensures PublishedOf(ms[i + 1]) == PublishedOf(ms[i]) {
        if i > 0 {
          assert es[1..][i - 1] == Woke(g);
          assert ms[i] == rest[i - 1] && ms[i + 1] == rest[i];
        } else {
          assert ms[1] == rest[0] == m1 == PipelineStep(m, g);
        }
      }
    }
  }

  /**
    The pipeline a new press supersedes never writes again: after an accepted
    `pressBegan`, the task in the slot is silent in every later run.
   */
  lemma SupersededPipelineSilent(m: Model, es: seq<Event>)
    requires Inv(m) && !m.isHolding && |m.tasks| > 0
    ensures SilentIn(|m.tasks| - 1, es, Trajectory(PressBegan(m), es))
  {
    var g := |m.tasks| - 1;
    assert !Live(PressBegan(m), g);
    StaleStaysSilent(PressBegan(m), g, es);
  }

  /**
    One undisturbed hold: press, release, then the three wake-ups of the new
    pipeline. The phase goes listening, thinking, thinking, speaking, idle;
    the pipeline writes transcript, then reply, then the idle prompt; capture
    starts and stops once; and nothing is left live. The sum of the three
    sleeps (3.5 seconds) is documentation only: wake-ups are unordered events,
    so durations constrain nothing else in the model.
   */
  lemma HoldCycle(m: Model)
    requires Inv(m) && !m.isHolding
    ensures var g := |m.tasks|;
      var m1 := PressBegan(m);
      var m2 := PressEnded(m1);
      var m3 := PipelineStep(m2, g);
      var m4 := PipelineStep(m3, g);
      var m5 := PipelineStep(m4, g);
      && m1.state == Listening && m1.transcript == "" && m1.response == ""
      && m2.state == Thinking && m2.statusText == ThinkingStatus
      && m3.state == Thinking && m3.transcript == TranscriptText && m3.response == ""
      && m4.state == Speaking && m4.statusText == SpeakingStatus && m4.response == ResponseText
      && m5.state == Idle && m5.statusText == IdlePrompt
      && m5.transcript == TranscriptText && m5.response == ResponseText
      && m5.calls == m.calls + [StartCapture, StopCapture]
      && DelayMs(m2.tasks[g].stage) + DelayMs(m3.tasks[g].stage) + DelayMs(m4.tasks[g].stage) == 3500
      && (forall h: nat :: !Live(m5, h))
  {
    var g := |m.tasks|;
    var m1 := PressBegan(m);
    var m2 := PressEnded(m1);
    var m3 := PipelineStep(m2, g);
    var m4 := PipelineStep(m3, g);
    PressBeganPreservesInv(m);
    PressEndedPreservesInv(m1);
    PipelineStepPreservesInv(m2, g);
    PipelineStepPreservesInv(m3, g);
    PipelineStepPreservesInv(m4, g);
  }
}
