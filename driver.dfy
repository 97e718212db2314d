/**
 * `HumanDriver` itself: the object whose handlers the frame clock, the
 * keyboard and the joystick call. Its fields are the ones `update` and
 * `playback` reassign, plus the traces of the calls made to the Logger and
 * the simulator. Each handler is proved to change them exactly as the
 * matching function of module Capture says, and to keep the playback buffer
 * in lockstep with the Logger's open episode.
 */
module Driver {
  import opened Types
  import opened Sticks
  import opened Resize
  import opened Capture
  import opened Properties

  /**
   * The commit/abort prompt loop: read answers until one is "1" or "2".
   * Returns the index of that answer, or `None` when the answers run out.
   */
  method AwaitDecision(answers: seq<string>) returns (d: Option<nat>)
    ensures d.Some? ==> d.value < |answers| && IsDecision(answers[d.value])
    ensures d.Some? ==> forall j :: 0 <= j < d.value ==> !IsDecision(answers[j])
    ensures d.None? ==> forall j :: 0 <= j < |answers| ==> !IsDecision(answers[j])
    ensures d == FirstDecision(answers)
  {
    if |answers| == 0 {
      return None;
    }
    var i := 0;
    var qa := answers[0];
    while !(qa == "1" || qa == "2")
      invariant 0 <= i < |answers| && qa == answers[i]
      invariant forall j :: 0 <= j < i ==> !IsDecision(answers[j])
      decreases |answers| - i
    {
      if i + 1 == |answers| {
        return None;
      }
      i := i + 1;
      qa := answers[i];
    }
    d := Some(i);
  }

  class HumanDriver {
    /** `filter_bad_data`, fixed at construction. */
    const filterBadData: bool
    /** `last_reward`: the reward of the previous non-sentinel step. */
    var lastReward: real
    /** `playback_buffer`: the kept `(obs, action, reward)` entries of the current episode. */
    var playbackBuffer: seq<Entry>
    /** The calls made to the Logger, in order. */
    var sinkTrace: seq<SinkCall>
    /** The calls made to the simulator, in order. */
    var envTrace: seq<EnvCall>

    /** The capture state held by the fields. */
    function State(): Session
      reads this
    {
      Session(lastReward, playbackBuffer, sinkTrace, envTrace)
    }

    /** Every playback entry is paired with the pending `log` call made for it. */
    ghost predicate Valid()
      reads this
    {
      Lockstep(State())
    }

    /** `__init__` up to the event loop: `env.reset()`, last reward 0, empty buffer. */
    constructor (filterBadData: bool)
      ensures Valid()
      ensures this.filterBadData == filterBadData
      ensures State() == Initial()
    {
      this.filterBadData := filterBadData;
      lastReward := 0.0;
      playbackBuffer := [];
      sinkTrace := [];
      envTrace := [Reset];
      InitialLockstep();
    }

    /** `playback`: prompt for a decision, tell the Logger, empty the buffer. */
    method Playback(answers: seq<string>) returns (raised: Option<Error>)
      requires Valid()
      modifies this
      ensures Valid()
      ensures Outcome(State(), raised) == Review(old(State()), answers)
    {
      ReviewKeepsLockstep(State(), answers);
      var d := AwaitDecision(answers);
      if d.None? {
        return Some(EOFError);
      }
      if answers[d.value] == "2" {
        sinkTrace := sinkTrace + [ResetEpisode];
      } else {
        sinkTrace := sinkTrace + [EpisodeDone];
      }
      playbackBuffer := [];
      raised := None;
    }

    /** The review-and-reset sequence shared by the reset key, the Y button and a terminal step. */
    method ResetAfterReview(answers: seq<string>) returns (raised: Option<Error>)
      requires Valid()
      modifies this
      ensures Valid()
      ensures Outcome(State(), raised) == ResetSequence(old(State()), answers)
    {
      raised := Playback(answers);
      if raised.None? {
        envTrace := envTrace + [Reset, Render];
      }
    }

    /**
     * The quality filter of `update`: what the step result `env.step` returned
     * for `action` does to the last reward, the buffer and the Logger.
     */
    method Record(action: Action, step: StepResult) returns (raised: Option<Error>)
      requires Valid()
      modifies this
      ensures Valid()
      ensures Outcome(State(), raised) == CaptureStep(old(State()), filterBadData, action, step)
    {
      ghost var before := State();
      ghost var after := CaptureStep(before, filterBadData, action, step);
      CaptureKeepsLockstep(before, filterBadData, action, step);
      raised := None;
      if step.reward != OutOfBounds {
        if step.reward > lastReward - Tolerance || !filterBadData {
          var prepared := Preprocess(step.obs.shape);
          match prepared
          case DivideByZero =>
            assert after == Outcome(before, Some(ZeroDivisionError));
            return Some(ZeroDivisionError);
          case ResizeRejected =>
            assert after == Outcome(before, Some(Cv2Error));
            return Some(Cv2Error);
          case Prepared(frame) =>
            playbackBuffer := playbackBuffer + [Entry(step.obs, action, step.reward)];
            sinkTrace := sinkTrace + [Log(LogStep(frame, step.reward, action, step.done))];
            lastReward := step.reward;
            assert State() == after.state;
        } else {
          lastReward := step.reward;
        }
      }
    }

    /**
     * `update`: one frame tick with forward stick `y` and turn stick `rx` in
     * hundredths, button 6 as `boost`, `step` standing for what `env.step`
     * returns and `answers` for the operator's replies if a review is due.
     */
    method Update(y: int, rx: int, boost: bool, step: StepResult, answers: seq<string>)
      returns (raised: Option<Error>)
      requires Valid()
      modifies this
      ensures Valid()
      ensures Outcome(State(), raised) == Tick(old(State()), filterBadData, y, rx, boost, step, answers)
    {
      if rx == 0 && y == 0 {
        return None;
      }
      var x := Hundredths(y) * ThrottleScale;
      var z := Hundredths(rx) * SteeringScale;
      if boost {
        x := -1.0;
        z := 0.0;
      }
      var action := Action(-x, -z);
      assert MapSticks(y, rx, boost) == Some(action);
      envTrace := envTrace + [Step(action)];

      raised := Record(action, step);
      if raised.Some? {
        return;
      }
      if step.done {
        raised := ResetAfterReview(answers);
        return;
      }
      envTrace := envTrace + [Render];
    }

    /** `on_key_press`. */
    method OnKeyPress(symbol: Key, answers: seq<string>) returns (raised: Option<Error>)
      requires Valid()
      modifies this
      ensures Valid()
      ensures Outcome(State(), raised) == KeyPress(old(State()), symbol, answers)
    {
      KeyPressKeepsLockstep(State(), symbol, answers);
      raised := None;
      match symbol
      case Backspace =>
        raised := ResetAfterReview(answers);
      case Slash =>
        raised := ResetAfterReview(answers);
      case PageUp =>
        envTrace := envTrace + [Level, Render];
      case Escape =>
        envTrace := envTrace + [Close];
        raised := Some(SystemExit);
      case Q =>
        envTrace := envTrace + [Close];
        raised := Some(SystemExit);
      case OtherKey(_) =>
    }

    /** `on_joybutton_press`. */
    method OnJoyButtonPress(button: int, answers: seq<string>) returns (raised: Option<Error>)
      requires Valid()
      modifies this
      ensures Valid()
      ensures Outcome(State(), raised) == JoyButtonPress(old(State()), button, answers)
    {
      raised := None;
      if button == ResetButton {
        raised := ResetAfterReview(answers);
      }
    }
  }
}
