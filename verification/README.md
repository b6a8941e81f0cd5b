# Kaie voice view model, in Dafny

Kaie is a single-screen voice-assistant front end. Its only logic is
`VoiceViewModel`. This is a press-and-hold conversation controller that runs
on the main actor:

- a press (`pressBegan`) opens a hold and starts capture;
- a release (`pressEnded`) stops capture and starts a simulated pipeline task;
- the pipeline sleeps three times (900 ms, 800 ms, 1800 ms). After each sleep it checks
  `Task.isCancelled` and then writes the transcript, then the reply and the
  speaking phase, then the idle phase.

The capture service is a stub.

The project models that controller as an immutable record with pure
transition functions:

- `options.dfy`: `Option`, used for Swift optionals.
- `voice_state.dfy` (module `VoiceStates`): the `VoiceState` enum, its
  `String` raw values, Swift's failable `init(rawValue:)`, and the display `label`.
- `view_model.dfy` (module `ViewModel`): the controller record `Model`, and
  `Init`, `PressBegan`, `PressEnded`, `SimulatePipeline` and `PipelineStep`.
  Also `Step` and `Run` over the event type `Event = Pressed | Released | Woke(gen)`.
  - Every pipeline task ever created is kept in `tasks`, indexed by its
    generation (creation order). Each task records which sleep it is in and
    whether `cancel()` was called on it.
  - `responseTask` is the generation held in the task slot.
  - `Woke(gen)` is one sleep-then-guard wake-up of that task. A cancelled task
    returns at its guard and writes nothing.
  - The capture-service calls are appended to the trace `calls`.
- `invariants.dfy` (module `Invariants`): the invariant `Inv` that every
  reachable controller keeps. It is proved to hold initially and to be
  preserved by every event. Its consequences are proved as separate lemmas.
- `properties.dfy` (module `Properties`): properties about several events.
  - Repeated callbacks are no-ops.
  - Presses cancel or start exactly the right pipelines.
  - A dead task never writes again, whatever events follow.
  - The phase only moves idle → listening → thinking → speaking → idle, or
    jumps to listening on a new press.
  - One undisturbed hold produces exactly one fixed sequence of states.

Facts about the code:

- The idle prompt is "Tap and hold to speak" (Kaie/VoiceViewModel.swift:36 and 79).
- A pipeline that has not been cancelled writes the transcript after its first sleep (Kaie/VoiceViewModel.swift:67-68).
- `Invariants.IdleIffNoPipeline`: the phase is idle exactly when nobody holds
  and no task is live.

## Model

| member | source | states |
|---|---|---|
| VoiceStates.RawValue | Kaie/VoiceViewModel.swift:10-14 | every raw value is a non-empty word of lower-case ASCII letters, the case name |
| VoiceStates.FromRawValue | Kaie/VoiceViewModel.swift:10-14 | decoding a string gives a case whose raw value is that string, and gives none exactly when no case has it |
| VoiceStates.RawValueRoundTrip | Kaie/VoiceViewModel.swift:10-14 | decoding a case's raw value gives back that case |
| VoiceStates.Label | Kaie/VoiceViewModel.swift:16-27 | every label has as many characters as the raw value, starts with the upper-case form of its first letter, and agrees with it after that |
| VoiceStates.LabelCapitalizesRawValue | Kaie/VoiceViewModel.swift:10-27 | the label of every phase is exactly its raw value, capitalised |
| VoiceStates.LabelInjective | Kaie/VoiceViewModel.swift:16-27 | two phases have the same label exactly when they are the same phase |
| ViewModel.Init | Kaie/VoiceViewModel.swift:32-38 | a new controller is idle and not holding, with an empty transcript and reply, the prompt "Tap and hold to speak", no task and no capture calls |
| ViewModel.DelayMs | Kaie/VoiceViewModel.swift:66-76 | a task sleeps for a positive time in each of its three waiting stages and not at all once returned; no sleep exceeds 1800 ms |
| ViewModel.CancelSlot | Kaie/VoiceViewModel.swift:44 | cancelling the slot kills exactly the task in the slot; no published field and no other task changes |
| ViewModel.PressBegan | Kaie/VoiceViewModel.swift:41-51 | while holding it changes nothing. Otherwise: holding, listening, transcript and reply cleared, "Listening...", one `startCapture` appended, and the task in the slot is no longer live |
| ViewModel.SimulatePipeline | Kaie/VoiceViewModel.swift:62-64 | the old slot task is cancelled; a fresh task at its first sleep becomes the only new live task and goes in the slot; published fields are unchanged |
| ViewModel.PressEnded | Kaie/VoiceViewModel.swift:53-60 | when not holding it changes nothing. Otherwise: not holding, thinking, "Thinking...", transcript and reply kept, one `stopCapture` appended, and a fresh live task in the slot |
| ViewModel.PipelineStep | Kaie/VoiceViewModel.swift:64-80 | a task that is not live writes nothing and stays dead. A live task's three wake-ups write in turn: the transcript; then speaking, "Speaking..." and the reply; then idle and the idle prompt |
| Invariants.InitSatisfiesInv | Kaie/VoiceViewModel.swift:32-38 | the new controller satisfies the invariant |
| Invariants.PressBeganPreservesInv | Kaie/VoiceViewModel.swift:41-51 | `pressBegan` keeps the invariant |
| Invariants.PressEndedPreservesInv | Kaie/VoiceViewModel.swift:53-64 | `pressEnded` keeps the invariant |
| Invariants.PipelineStepPreservesInv | Kaie/VoiceViewModel.swift:64-80 | every task wake-up keeps the invariant |
| Invariants.StepPreservesInv | Kaie/VoiceViewModel.swift:41-80 | every event keeps the invariant |
| Invariants.RunPreservesInv | Kaie/VoiceViewModel.swift:41-80 | any sequence of events keeps the invariant |
| Invariants.ReachableSatisfiesInv | Kaie/VoiceViewModel.swift:32-80 | every controller reachable from construction satisfies the invariant |
| Invariants.AtMostOneLive | Kaie/VoiceViewModel.swift:63-64 | in a reachable controller at most one pipeline task is live |
| Invariants.HoldingMeansListening | Kaie/VoiceViewModel.swift:43-48 | while holding, the phase is listening and no pipeline task is live |
| Invariants.IdleIffNoPipeline | Kaie/VoiceViewModel.swift:55-79 | the phase is idle exactly when nobody holds and no pipeline task is live |
| Invariants.StatusTextIsAPrompt | Kaie/VoiceViewModel.swift:36-79 | the status text is always one of the four non-empty prompts |
| Invariants.CallsAlternate | Kaie/VoiceViewModel.swift:41-60 | the capture calls of any run alternate start, stop, start, …, beginning with start, and there is an odd number of calls exactly while holding |
| Properties.PressBeganIdempotent | Kaie/VoiceViewModel.swift:41-42 | a second `pressBegan` right after the first changes nothing |
| Properties.PressEndedIdempotent | Kaie/VoiceViewModel.swift:53-54 | a second `pressEnded` right after the first changes nothing |
| Properties.AcceptedPressCancelsPipeline | Kaie/VoiceViewModel.swift:42-44 | after an accepted press in a reachable controller, no pipeline task is live |
| Properties.AcceptedReleaseStartsOnePipeline | Kaie/VoiceViewModel.swift:54-64 | after an accepted release in a reachable controller, exactly one task is live: the one just created |
| Properties.HoldingStepsInert | Kaie/VoiceViewModel.swift:64-80 | while holding, no task's wake-up changes any published field |
| Properties.StepFollowsPath | Kaie/VoiceViewModel.swift:41-80 | a press keeps the phase or moves it to listening; a release keeps it or moves listening to thinking; a wake-up keeps it or moves thinking to speaking or speaking to idle |
| Properties.RunFollowsPath | Kaie/VoiceViewModel.swift:41-80 | along any run from a reachable controller, each phase change goes one step around idle → listening → thinking → speaking → idle, or is a jump to listening made by a press |
| Properties.ReachablePath | Kaie/VoiceViewModel.swift:32-80 | the same holds for every run from construction |
| Properties.StepKeepsDead | Kaie/VoiceViewModel.swift:63-67 | no event brings a cancelled or returned task back to life |
| Properties.StaleStaysSilent | Kaie/VoiceViewModel.swift:64-80 | a cancelled or returned task stays dead under any later events, and none of its wake-ups changes a published field |
| Properties.SupersededPipelineSilent | Kaie/VoiceViewModel.swift:41-67 | once an accepted press has cancelled the task in the slot, that task writes nothing in any later run |
| Properties.HoldCycle | Kaie/VoiceViewModel.swift:41-80 | press, release and three wake-ups of the new task give, in order: listening (nothing heard yet); thinking; thinking with the transcript; speaking with the reply; idle with the idle prompt. Capture starts and stops once, the three sleeps add up to 3500 ms, and nothing is left live |

## Left out

- `playHaptic` (Kaie/VoiceViewModel.swift:83-87): a UIKit haptic call with no observable state.
- `MockVoiceService` bodies (Kaie/VoiceViewModel.swift:90-98): they are empty. Only the fact and order of the calls are modelled, as the `calls` trace.
- Real time: `Task.sleep` durations only decide where wake-ups fall in the event sequence. `DelayMs` records the three durations, and `HoldCycle` states their sum.
- `[weak self]` lifetime: the controller is assumed to outlive its tasks, as it does while the screen is shown.
- Scheduling: main-actor scheduling is reduced to an arbitrary single-threaded interleaving of events. Any event may come at any time, including wake-ups of tasks that are already dead.
- Kaie/ContentView.swift is presentation only. Its drag gesture calls `pressBegan` on every change and `pressEnded` at the end. The model allows any number of repeated `Pressed` events for that reason.
