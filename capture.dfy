/**
 * The capture state of `HumanDriver` and what one frame tick, one review and
 * one reset request do to it, as functions of the old state. The class in
 * module Driver is proved to change its fields exactly as these say.
 *
 * The state also records the calls made to the two collaborators the driver
 * cannot see: the `Logger` (`log`, `on_episode_done`, `reset_episode`) and
 * the simulator (`step`, `reset`, `render`, `close`). An exception raised on
 * the way is returned beside the state it left behind.
 */
module Capture {
  import opened Types
  import opened Sticks
  import opened Resize

  /** Raw observation returned by `env.step`: opaque pixels of a given shape. */
  datatype Frame = Frame(pixels: seq<int>, shape: Shape)

  /** `(obs, reward, done)` as returned by `env.step`; `info` is not modelled. */
  datatype StepResult = StepResult(obs: Frame, reward: real, done: bool)

  /** One element `(obs, action, reward)` of `playback_buffer`. */
  datatype Entry = Entry(obs: Frame, action: Action, reward: real)

  /** `Step(cropped_final, reward, action, done)`: the preprocessed frame is represented by its shape. */
  datatype LogStep = LogStep(frame: Shape, reward: real, action: Action, done: bool)

  /** A call made to the `Logger`. */
  datatype SinkCall = Log(step: LogStep) | EpisodeDone | ResetEpisode

  /** A call made to the simulator (`Level` is the PageUp camera-angle reset). */
  datatype EnvCall = Step(action: Action) | Reset | Render | Level | Close

  /** An exception that leaves the handler. */
  datatype Error =
    | ZeroDivisionError  // `image_resize` on an observation without columns
    | Cv2Error           // `cv2.resize` on an empty observation or a zero target height
    | EOFError           // `input()` reached the end of the operator's answers
    | SystemExit         // `sys.exit(0)` after Escape or Q

  /** The fields of `HumanDriver` that the capture logic changes, plus the two call traces. */
  datatype Session = Session(lastReward: real, buffer: seq<Entry>, sink: seq<SinkCall>, env: seq<EnvCall>)

  /** The state a handler leaves behind, and the exception it raised, if any. */
  datatype Outcome = Outcome(state: Session, raised: Option<Error>)

  /** Reward the simulator reports when the robot leaves the road. */
  const OutOfBounds: real := -1000.0
  /** How far the reward may drop below the previous one before a step is discarded. */
  const Tolerance: real := 0.02

  /** The state right after `__init__`: the constructor has already called `env.reset()`. */
  function Initial(): Session
  {
    Session(0.0, [], [], [Reset])
  }

  /** The quality filter of line 181: keep a step whose reward has not dropped by the tolerance or more. */
  predicate Accepts(reward: real, lastReward: real, filterBadData: bool)
  {
    reward > lastReward - Tolerance || !filterBadData
  }

  /** The answers that end the commit/abort prompt. */
  predicate IsDecision(answer: string)
  {
    answer == "1" || answer == "2"
  }

  /**
   * The index of the answer that ends the prompt loop: the first "1" or "2",
   * or `None` when the operator's answers run out first.
   */
  function FirstDecision(answers: seq<string>): (r: Option<nat>)
    ensures r.Some? ==> r.value < |answers| && IsDecision(answers[r.value])
    ensures r.Some? ==> forall j :: 0 <= j < r.value ==> !IsDecision(answers[j])
    ensures r.None? ==> forall j :: 0 <= j < |answers| ==> !IsDecision(answers[j])
  {
    if |answers| == 0 then None
    else if IsDecision(answers[0]) then Some(0)
    else
      match FirstDecision(answers[1..])
      case None => None
      case Some(k) => Some(k + 1)
  }

  /**
   * Lines 179-201: what the step result does to the capture state once
   * `env.step(action)` has returned it.
   */
  function CaptureStep(s: Session, filterBadData: bool, action: Action, step: StepResult): (r: Outcome)
    ensures r.state.env == s.env
    ensures s.buffer <= r.state.buffer && |r.state.buffer| <= |s.buffer| + 1
    ensures s.sink <= r.state.sink && |r.state.sink| - |s.sink| == |r.state.buffer| - |s.buffer|
    ensures r.raised.Some? ==> r.state == s
  {
    if step.reward == OutOfBounds then
      Outcome(s, None)
    else if Accepts(step.reward, s.lastReward, filterBadData) then
      match Preprocess(step.obs.shape)
      case DivideByZero => Outcome(s, Some(ZeroDivisionError))
      case ResizeRejected => Outcome(s, Some(Cv2Error))
      case Prepared(frame) =>
        Outcome(s.(buffer := s.buffer + [Entry(step.obs, action, step.reward)],
                   sink := s.sink + [Log(LogStep(frame, step.reward, action, step.done))],
                   lastReward := step.reward),
                None)
    else
      Outcome(s.(lastReward := step.reward), None)
  }

  /**
   * `playback` (lines 84-93): prompt until "1" or "2", then either discard
   * ("2") or commit the Logger's episode, and empty the playback buffer.
   */
  function Review(s: Session, answers: seq<string>): (r: Outcome)
    ensures r.raised.None? <==> FirstDecision(answers).Some?
    ensures r.raised.Some? ==> r == Outcome(s, Some(EOFError))
    ensures r.raised.None? ==>
      r.state.buffer == [] && |r.state.sink| == |s.sink| + 1 && s.sink <= r.state.sink &&
      !r.state.sink[|s.sink|].Log?
    ensures r.state.lastReward == s.lastReward && r.state.env == s.env
  {
    match FirstDecision(answers)
    case None => Outcome(s, Some(EOFError))
    case Some(i) =>
      var call := if answers[i] == "2" then ResetEpisode else EpisodeDone;
      Outcome(s.(sink := s.sink + [call], buffer := []), None)
  }

  /** Review, then `env.reset()` and `env.render()`; the countdown that follows is not modelled. */
  function ResetSequence(s: Session, answers: seq<string>): (r: Outcome)
    ensures r.raised.None? <==> FirstDecision(answers).Some?
    ensures r.raised.Some? ==> r == Outcome(s, Some(EOFError))
    ensures r.raised.None? ==>
      r.state.sink == s.sink + [if answers[FirstDecision(answers).value] == "2" then ResetEpisode else EpisodeDone]
    ensures r.raised.None? ==>
      r.state.buffer == [] && r.state.env == s.env + [Reset, Render] &&
      |r.state.sink| == |s.sink| + 1 && s.sink <= r.state.sink
    ensures r.state.lastReward == s.lastReward
  {
    var o := Review(s, answers);
    if o.raised.Some? then o
    else Outcome(o.state.(env := o.state.env + [Reset, Render]), None)
  }

  /** `update` (lines 147-210) for one tick of the frame clock. */
  function Tick(s: Session, filterBadData: bool, y: int, rx: int, boost: bool,
                step: StepResult, answers: seq<string>): (r: Outcome)
    ensures s.sink <= r.state.sink && |r.state.sink| <= |s.sink| + 2
    ensures s.env <= r.state.env
    ensures r.state.buffer == [] || s.buffer <= r.state.buffer
  {
    match MapSticks(y, rx, boost)
    case None => Outcome(s, None)
    case Some(action) =>
      var o := CaptureStep(s.(env := s.env + [Step(action)]), filterBadData, action, step);
      if o.raised.Some? then o
      else if step.done then ResetSequence(o.state, answers)
      else Outcome(o.state.(env := o.state.env + [Render]), None)
  }

  /** Keyboard symbols the handler distinguishes. */
  datatype Key = Backspace | Slash | PageUp | Escape | Q | OtherKey(code: int)

  /** `on_key_press` (lines 114-130). */
  function KeyPress(s: Session, symbol: Key, answers: seq<string>): (r: Outcome)
    ensures r.raised == Some(SystemExit) <==> symbol == Escape || symbol == Q
    ensures r.state.lastReward == s.lastReward && s.sink <= r.state.sink && s.env <= r.state.env
    ensures symbol.OtherKey? ==> r == Outcome(s, None)
  {
    match symbol
    case Backspace => ResetSequence(s, answers)
    case Slash => ResetSequence(s, answers)
    case PageUp => Outcome(s.(env := s.env + [Level, Render]), None)
    case Escape => Outcome(s.(env := s.env + [Close]), Some(SystemExit))
    case Q => Outcome(s.(env := s.env + [Close]), Some(SystemExit))
    case OtherKey(_) => Outcome(s, None)
  }

  /** Joystick button that requests a reset (Y). */
  const ResetButton: int := 3

  /** `on_joybutton_press` (lines 132-145). */
  function JoyButtonPress(s: Session, button: int, answers: seq<string>): (r: Outcome)
    ensures button != ResetButton ==> r == Outcome(s, None)
    ensures r.state.lastReward == s.lastReward && s.sink <= r.state.sink && s.env <= r.state.env
  {
    if button == ResetButton then ResetSequence(s, answers) else Outcome(s, None)
  }

  /**
   * The Logger calls of the episode still open: the `log` calls after the
   * last `on_episode_done` or `reset_episode`.
   */
  function Pending(t: seq<SinkCall>): (p: seq<SinkCall>)
    ensures |p| <= |t| && p == t[|t| - |p|..]
    ensures forall i :: 0 <= i < |p| ==> p[i].Log?
  {
    if t == [] || !t[|t| - 1].Log? then []
    else Pending(t[..|t| - 1]) + [t[|t| - 1]]
  }

  /** A log call is the one made for a playback entry. */
  predicate Matches(e: Entry, c: SinkCall)
  {
    c.Log? && c.step.reward == e.reward && c.step.action == e.action &&
    Preprocess(e.obs.shape) == Prepared(c.step.frame)
  }

  /**
   * The playback buffer and the Logger's open episode move in lockstep:
   * entry i of the buffer is the step of the i-th pending `log` call.
   */
  predicate Lockstep(s: Session)
  {
    var p := Pending(s.sink);
    |p| == |s.buffer| && forall i :: 0 <= i < |p| ==> Matches(s.buffer[i], p[i])
  }

  /** The number of committed episodes: `on_episode_done` calls in the Logger trace. */
  function Committed(t: seq<SinkCall>): (n: nat)
    ensures n == 0 <==> forall i :: 0 <= i < |t| ==> t[i] != EpisodeDone
  {
    if t == [] then 0
    else (if t[0] == EpisodeDone then 1 else 0) + Committed(t[1..])
  }

  /** The number of `log` calls in the Logger trace. */
  function LogCount(t: seq<SinkCall>): (n: nat)
    ensures n == 0 <==> forall i :: 0 <= i < |t| ==> !t[i].Log?
  {
    if t == [] then 0
    else (if t[0].Log? then 1 else 0) + LogCount(t[1..])
  }
}
