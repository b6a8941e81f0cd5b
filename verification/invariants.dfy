/**
  The invariant every reachable controller keeps, and its consequences: the
  holding flag pins the phase, at most one pipeline task is live, the status
  text always matches the phase, and the capture calls alternate.
 */
module Invariants {
  import opened Options
  import opened VoiceStates
  import opened ViewModel

  /** The status text each phase shows. */
  function StatusFor(s: VoiceState): string
  {
    match s
    case Idle => IdlePrompt
    case Listening => ListeningStatus
    case Thinking => ThinkingStatus
    case Speaking => SpeakingStatus
  }

  /** The trace starts with `startCapture` and then alternates stop, start, stop, ... */
  predicate Alternates(calls: seq<Call>)
  {
    forall i :: 0 <= i < |calls| ==> calls[i] == (if i % 2 == 0 then StartCapture else StopCapture)
  }

  /** The stage of the live pipeline task, if there is one (only the newest task can be live). */
  function LiveStage(m: Model): Option<Stage>
  {
    if |m.tasks| > 0 && Live(m, |m.tasks| - 1) then Some(m.tasks[|m.tasks| - 1].stage) else None
  }

  /** What the hold flag and the live task say the published fields must be. */
  predicate PhaseAgrees(m: Model)
  {
    if m.isHolding then
      m.state == Listening && LiveStage(m) == None && m.transcript == "" && m.response == ""
    else
      match LiveStage(m)
      case None =>
        m.state == Idle
        && ((m.transcript == "" && m.response == "")
            || (m.transcript == TranscriptText && m.response == ResponseText))
      case Some(stage) =>
        match stage
        case AwaitTranscript => m.state == Thinking && m.transcript == "" && m.response == ""
        case AwaitReply => m.state == Thinking && m.transcript == TranscriptText && m.response == ""
        case AwaitIdle =>
          m.state == Speaking && m.transcript == TranscriptText && m.response == ResponseText
        case Returned => false
  }

  predicate Inv(m: Model)
  {
    // the slot holds the newest task
    && m.responseTask == (if |m.tasks| == 0 then None else Some(|m.tasks| - 1))
    // every older task has been cancelled or has returned
    && (forall g: nat :: g + 1 < |m.tasks| ==> !Live(m, g))
    && m.statusText == StatusFor(m.state)
    && PhaseAgrees(m)
    && Alternates(m.calls)
    && (m.isHolding <==> |m.calls| % 2 == 1)
  }

  lemma InitSatisfiesInv()
    ensures Inv(Init())
  {
  }

  lemma PressBeganPreservesInv(m: Model)
    requires Inv(m)
    ensures Inv(PressBegan(m))
  {
  }

  lemma PressEndedPreservesInv(m: Model)
    requires Inv(m)
    ensures Inv(PressEnded(m))
  {
    if m.isHolding {
      var r := PressEnded(m);
      assert Live(r, |m.tasks|);
      assert LiveStage(r) == Some(AwaitTranscript);
    }
  }

  lemma PipelineStepPreservesInv(m: Model, g: nat)
    requires Inv(m)
    ensures Inv(PipelineStep(m, g))
  {
    var r := PipelineStep(m, g);
    if Live(m, g) {
      assert g == |m.tasks| - 1;
      assert LiveStage(m) == Some(m.tasks[g].stage);
      forall h: nat | h + 1 < |r.tasks| ensures !Live(r, h) {
        assert h != g && !Live(m, h);
        assert r.tasks[h] == m.tasks[h];
      }
    } else {
      assert forall h: nat :: Live(r, h) <==> Live(m, h);
      assert LiveStage(r) == LiveStage(m);
    }
  }

  /** Every event keeps the invariant. */
  lemma StepPreservesInv(m: Model, e: Event)
    requires Inv(m)
    ensures Inv(Step(m, e))
  {
    match e
    case Pressed => PressBeganPreservesInv(m);
    case Released => PressEndedPreservesInv(m);
    case Woke(g) => PipelineStepPreservesInv(m, g);
  }

  lemma {:induction false} RunPreservesInv(m: Model, es: seq<Event>)
    requires Inv(m)
    ensures Inv(Run(m, es))
    decreases |es|
  {
    if es != [] {
      StepPreservesInv(m, es[0]);
      RunPreservesInv(Step(m, es[0]), es[1..]);
    }
  }

  /** Every controller reachable from construction by any events satisfies the invariant. */
  lemma ReachableSatisfiesInv(es: seq<Event>)
    ensures Inv(Run(Init(), es))
  {
    InitSatisfiesInv();
    RunPreservesInv(Init(), es);
  }

  /** At most one pipeline task is live at any time. */
  lemma AtMostOneLive(m: Model, g: nat, h: nat)
    requires Inv(m) && Live(m, g) && Live(m, h)
    ensures g == h
  {
  }

  /** While the user holds, the phase is listening and no pipeline task is live. */
  lemma HoldingMeansListening(m: Model)
    requires Inv(m) && m.isHolding
    ensures m.state == Listening
    ensures forall g: nat :: !Live(m, g)
  {
  }

  /** The phase is idle exactly when nobody holds and no pipeline is pending. */
  lemma IdleIffNoPipeline(m: Model)
    requires Inv(m)
    ensures m.state == Idle <==> !m.isHolding && forall g: nat :: !Live(m, g)
  {
  }

  /** The status text is always one of the four non-empty prompts, the one for the phase. */
  lemma StatusTextIsAPrompt(m: Model)
    requires Inv(m)
    ensures m.statusText in {IdlePrompt, ListeningStatus, ThinkingStatus, SpeakingStatus}
    ensures |m.statusText| > 0
  {
  }

  /** The capture calls of any run alternate start, stop, ..., and an open hold has one start too many. */
  lemma CallsAlternate(es: seq<Event>)
    ensures Alternates(Run(Init(), es).calls)
    ensures Run(Init(), es).isHolding <==> |Run(Init(), es).calls| % 2 == 1
  {
    ReachableSatisfiesInv(es);
  }
}
