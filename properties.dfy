/**
 * What the capture controller promises, stated over the functions of module
 * Capture: the deadzone short-circuit, the stick law, the quality filter and
 * its reward ratchet, the commit/abort review, the review after a terminal
 * step, the agreement of the three reset requests, and the lockstep between
 * the playback buffer and the Logger's open episode.
 */
module Properties {
  import opened Types
  import opened Sticks
  import opened Resize
  import opened Capture

  // ---------------------------------------------------------------- traces

  lemma {:induction false} CommittedAppend(t: seq<SinkCall>, c: SinkCall)
    ensures Committed(t + [c]) == Committed(t) + (if c == EpisodeDone then 1 else 0)
  {
    if t != [] {
      assert (t + [c])[1..] == t[1..] + [c];
      CommittedAppend(t[1..], c);
    }
  }

  lemma {:induction false} LogCountAppend(t: seq<SinkCall>, c: SinkCall)
    ensures LogCount(t + [c]) == LogCount(t) + (if c.Log? then 1 else 0)
  {
    if t != [] {
      assert (t + [c])[1..] == t[1..] + [c];
      LogCountAppend(t[1..], c);
    }
  }

  /**
   * The pending calls are all of the trailing `log` calls: the call just
   * before them, if any, is a commit or a discard.
   */
  lemma {:induction false} PendingMaximal(t: seq<SinkCall>)
    ensures |Pending(t)| < |t| ==> !t[|t| - |Pending(t)| - 1].Log?
  {
    if t != [] && t[|t| - 1].Log? {
      var u := t[..|t| - 1];
      PendingMaximal(u);
      assert |Pending(t)| == |Pending(u)| + 1;
      if |Pending(u)| < |u| {
        assert t[|t| - |Pending(t)| - 1] == u[|u| - |Pending(u)| - 1];
      }
    }
  }

  lemma PendingAppend(t: seq<SinkCall>, c: SinkCall)
    ensures Pending(t + [c]) == if c.Log? then Pending(t) + [c] else []
  {
    assert (t + [c])[..|t|] == t;
  }

  // ---------------------------------------------------------------- sticks

  /** Both sticks at 0.00: the tick returns at once, whatever button 6 says. */
  lemma DeadzoneSkipsTick(s: Session, filterBadData: bool, boost: bool, step: StepResult, answers: seq<string>)
    ensures Tick(s, filterBadData, 0, 0, boost, step, answers) == Outcome(s, None)
  {
  }

  /**
   * Outside the deadzone the first thing the tick does is step the simulator
   * with the mapped action, and it only ever appends to both traces.
   */
  lemma TickStepsWithAction(s: Session, filterBadData: bool, y: int, rx: int, boost: bool,
                            step: StepResult, answers: seq<string>)
    requires y != 0 || rx != 0
    ensures var e := Tick(s, filterBadData, y, rx, boost, step, answers).state.env;
      |e| > |s.env| && e[..|s.env| + 1] == s.env + [Step(
        if boost then Action(1.0, 0.0)
        else Action(-(Hundredths(y) * ThrottleScale), -(Hundredths(rx) * SteeringScale)))]
  {
    var a := MapSticks(y, rx, boost).value;
    var s1 := s.(env := s.env + [Step(a)]);
    var o := CaptureStep(s1, filterBadData, a, step);
    assert o.state.env == s1.env;
    var e := Tick(s, filterBadData, y, rx, boost, step, answers).state.env;
    assert e[..|s1.env|] == s1.env;
  }

  /** The worked example: sticks (0.50, 0.20) without boost give (-0.45, -0.6). */
  lemma SignScaleExample()
    ensures MapSticks(50, 20, false) == Some(Action(-0.45, -0.6))
  {
  }

  // ---------------------------------------------------------------- filter

  /** The out-of-bounds reward leaves buffer, Logger and last reward alone. */
  lemma SentinelIgnored(s: Session, filterBadData: bool, action: Action, step: StepResult)
    requires step.reward == OutOfBounds
    ensures CaptureStep(s, filterBadData, action, step) == Outcome(s, None)
  {
  }

  /**
   * Any other reward becomes the last reward, kept or discarded alike
   * (unless preprocessing of a kept step raises first).
   */
  lemma RewardRatchet(s: Session, filterBadData: bool, action: Action, step: StepResult)
    requires step.reward != OutOfBounds
    requires !Accepts(step.reward, s.lastReward, filterBadData) || Preprocess(step.obs.shape).Prepared?
    ensures CaptureStep(s, filterBadData, action, step).raised == None
    ensures CaptureStep(s, filterBadData, action, step).state.lastReward == step.reward
  {
  }

  /**
   * A step is kept iff the filter accepts it; a kept step adds exactly one
   * playback entry and one `log` call at the ends, a discarded one neither.
   */
  lemma FilterDecision(s: Session, filterBadData: bool, action: Action, step: StepResult)
    requires step.reward != OutOfBounds
    requires !Accepts(step.reward, s.lastReward, filterBadData) || Preprocess(step.obs.shape).Prepared?
    ensures var r := CaptureStep(s, filterBadData, action, step).state;
      (|r.buffer| == |s.buffer| + 1 <==> Accepts(step.reward, s.lastReward, filterBadData)) &&
      (|r.buffer| == |s.buffer| + 1 ==>
        r.buffer == s.buffer + [Entry(step.obs, action, step.reward)] &&
        r.sink == s.sink + [Log(LogStep(Preprocess(step.obs.shape).frame, step.reward, action, step.done))]) &&
      (|r.buffer| != |s.buffer| + 1 ==> r.buffer == s.buffer && r.sink == s.sink) &&
      r.env == s.env
  {
  }

  /**
   * An accepted frame that cannot be resized raises before anything is
   * recorded: no columns divide by zero in `image_resize`; fewer rows than
   * columns / 200 give a zero target height that `cv2.resize` rejects.
   */
  lemma DegenerateFrameRaises(s: Session, filterBadData: bool, action: Action, step: StepResult)
    requires step.reward != OutOfBounds && Accepts(step.reward, s.lastReward, filterBadData)
    requires step.obs.shape.width == 0 || step.obs.shape.height * NvidiaWidth < step.obs.shape.width
    ensures CaptureStep(s, filterBadData, action, step) ==
      Outcome(s, Some(if step.obs.shape.width == 0 then ZeroDivisionError else Cv2Error))
  {
  }

  /** A one-row camera-width frame resizes to height `int(200 / 640) == 0`, which `cv2.resize` rejects. */
  lemma ThinFrameRejected()
    ensures ImageResize(Shape(1, 640), Some(NvidiaWidth), None) == Target(200, 0)
    ensures Preprocess(Shape(1, 640)) == ResizeRejected
  {
  }

  /**
   * With filtering on and a last reward of 0.5: 0.49 is kept; 0.40 is then
   * discarded and still becomes the last reward.
   */
  lemma FilterExample(s: Session, action: Action, obs: Frame)
    requires s.lastReward == 0.5 && Preprocess(obs.shape).Prepared?
    ensures var o1 := CaptureStep(s, true, action, StepResult(obs, 0.49, false));
      |o1.state.buffer| == |s.buffer| + 1 &&
      var o2 := CaptureStep(o1.state, true, action, StepResult(obs, 0.40, false));
      o2.state.buffer == o1.state.buffer && o2.state.sink == o1.state.sink &&
      o2.state.lastReward == 0.40
  {
  }

  // ---------------------------------------------------------------- review

  /**
   * Review ends on the first "1" or "2": "2" discards the Logger's episode,
   * "1" commits it; the buffer is empty afterwards, no `log` call is made,
   * and the committed-episode count grows by one exactly on commit.
   */
  lemma ReviewDecides(s: Session, answers: seq<string>)
    requires FirstDecision(answers).Some?
    ensures var i := FirstDecision(answers).value;
      var o := Review(s, answers);
      o.raised == None &&
      o.state == s.(buffer := [], sink := s.sink + [if answers[i] == "2" then ResetEpisode else EpisodeDone]) &&
      LogCount(o.state.sink) == LogCount(s.sink) &&
      Committed(o.state.sink) == Committed(s.sink) + (if answers[i] == "2" then 0 else 1)
  {
    var i := FirstDecision(answers).value;
    var c := if answers[i] == "2" then ResetEpisode else EpisodeDone;
    LogCountAppend(s.sink, c);
    CommittedAppend(s.sink, c);
  }

  /** Answers that never say "1" or "2" exhaust the input: nothing changes and `input()` raises. */
  lemma ReviewWithoutDecision(s: Session, answers: seq<string>)
    requires forall j :: 0 <= j < |answers| ==> !IsDecision(answers[j])
    ensures Review(s, answers) == Outcome(s, Some(EOFError))
  {
  }

  /**
   * A terminal step is followed by exactly one review, then `env.reset` and
   * `env.render`, whether the step was kept, discarded or out of bounds: the
   * only Logger call after those of the filter is the decision, and the only
   * simulator calls of the tick are the step, the reset and the render.
   */
  lemma DoneRunsReview(s: Session, filterBadData: bool, y: int, rx: int, boost: bool,
                       step: StepResult, answers: seq<string>)
    requires y != 0 || rx != 0
    requires step.done
    requires step.reward == OutOfBounds || !Accepts(step.reward, s.lastReward, filterBadData) ||
             Preprocess(step.obs.shape).Prepared?
    requires FirstDecision(answers).Some?
    ensures var i := FirstDecision(answers).value;
      var a := MapSticks(y, rx, boost).value;
      var c := CaptureStep(s, filterBadData, a, step).state;
      var o := Tick(s, filterBadData, y, rx, boost, step, answers);
      o.raised == None && o.state.buffer == [] &&
      o.state.lastReward == c.lastReward &&
      o.state.sink == c.sink + [if answers[i] == "2" then ResetEpisode else EpisodeDone] &&
      o.state.env == s.env + [Step(a), Reset, Render]
  {
    var a := MapSticks(y, rx, boost).value;
    var s1 := s.(env := s.env + [Step(a)]);
    assert CaptureStep(s1, filterBadData, a, step).state == CaptureStep(s, filterBadData, a, step).state.(env := s1.env);
  }

  /**
   * A terminal step whose answers never say "1" or "2" keeps the filter's
   * changes and ends in `EOFError`, with no `env.reset` and no `env.render`.
   */
  lemma DoneWithoutDecision(s: Session, filterBadData: bool, y: int, rx: int, boost: bool,
                            step: StepResult, answers: seq<string>)
    requires y != 0 || rx != 0
    requires step.done
    requires step.reward == OutOfBounds || !Accepts(step.reward, s.lastReward, filterBadData) ||
             Preprocess(step.obs.shape).Prepared?
    requires FirstDecision(answers).None?
    ensures var a := MapSticks(y, rx, boost).value;
      var c := CaptureStep(s, filterBadData, a, step).state;
      Tick(s, filterBadData, y, rx, boost, step, answers) ==
        Outcome(c.(env := s.env + [Step(a)]), Some(EOFError))
  {
    var a := MapSticks(y, rx, boost).value;
    var s1 := s.(env := s.env + [Step(a)]);
    assert CaptureStep(s1, filterBadData, a, step).state == CaptureStep(s, filterBadData, a, step).state.(env := s1.env);
  }

  /**
   * An accepted frame that preprocessing rejects ends the tick right after
   * `env.step`: the exception propagates, with no review even for a terminal
   * step and no render.
   */
  lemma TickRaisesOnDegenerateFrame(s: Session, filterBadData: bool, y: int, rx: int, boost: bool,
                                    step: StepResult, answers: seq<string>)
    requires y != 0 || rx != 0
    requires step.reward != OutOfBounds && Accepts(step.reward, s.lastReward, filterBadData)
    requires step.obs.shape.width == 0 || step.obs.shape.height * NvidiaWidth < step.obs.shape.width
    ensures var a := MapSticks(y, rx, boost).value;
      Tick(s, filterBadData, y, rx, boost, step, answers) ==
        Outcome(s.(env := s.env + [Step(a)]),
                Some(if step.obs.shape.width == 0 then ZeroDivisionError else Cv2Error))
  {
  }

  /** A step that is not terminal leaves the Logger's episode open and ends with one render. */
  lemma NotDoneKeepsEpisodeOpen(s: Session, filterBadData: bool, y: int, rx: int, boost: bool,
                                step: StepResult, answers: seq<string>)
    requires y != 0 || rx != 0
    requires !step.done
    requires step.reward == OutOfBounds || !Accepts(step.reward, s.lastReward, filterBadData) ||
             Preprocess(step.obs.shape).Prepared?
    ensures var a := MapSticks(y, rx, boost).value;
      var c := CaptureStep(s, filterBadData, a, step).state;
      Tick(s, filterBadData, y, rx, boost, step, answers) ==
        Outcome(c.(env := s.env + [Step(a), Render]), None)
    ensures var o := Tick(s, filterBadData, y, rx, boost, step, answers);
      o.raised == None &&
      Committed(o.state.sink) == Committed(s.sink) &&
      s.buffer <= o.state.buffer &&
      |o.state.env| >= 1 && o.state.env[|o.state.env| - 1] == Render
  {
    var a := MapSticks(y, rx, boost).value;
    var s1 := s.(env := s.env + [Step(a)]);
    var o := CaptureStep(s1, filterBadData, a, step);
    assert o.state == CaptureStep(s, filterBadData, a, step).state.(env := s1.env);
    if o.state.sink != s.sink {
      CommittedAppend(s.sink, Log(LogStep(Preprocess(step.obs.shape).frame, step.reward, a, step.done)));
    }
  }

  // ---------------------------------------------------------------- reset requests

  /** Backspace, Slash and joystick button 3 run the same review-and-reset sequence. */
  lemma ResetRequestsAgree(s: Session, answers: seq<string>)
    ensures KeyPress(s, Backspace, answers) == ResetSequence(s, answers)
    ensures KeyPress(s, Slash, answers) == ResetSequence(s, answers)
    ensures JoyButtonPress(s, ResetButton, answers) == ResetSequence(s, answers)
  {
  }

  // ---------------------------------------------------------------- lockstep

  lemma InitialLockstep()
    ensures Lockstep(Initial())
  {
  }

  /** Appending a matching entry and `log` call keeps the lockstep. */
  lemma LockstepAppend(s: Session, e: Entry, c: SinkCall)
    requires Lockstep(s) && Matches(e, c)
    ensures Lockstep(s.(buffer := s.buffer + [e], sink := s.sink + [c]))
  {
    var t := s.(buffer := s.buffer + [e], sink := s.sink + [c]);
    PendingAppend(s.sink, c);
    forall i | 0 <= i < |t.buffer|
      ensures Matches(t.buffer[i], Pending(t.sink)[i])
    {
      if i < |s.buffer| {
        assert t.buffer[i] == s.buffer[i] && Pending(t.sink)[i] == Pending(s.sink)[i];
      }
    }
  }

  lemma CaptureKeepsLockstep(s: Session, filterBadData: bool, action: Action, step: StepResult)
    requires Lockstep(s)
    ensures Lockstep(CaptureStep(s, filterBadData, action, step).state)
  {
    if step.reward != OutOfBounds && Accepts(step.reward, s.lastReward, filterBadData) {
      match Preprocess(step.obs.shape)
      case Prepared(frame) =>
        LockstepAppend(s, Entry(step.obs, action, step.reward), Log(LogStep(frame, step.reward, action, step.done)));
      case _ =>
    }
  }

  lemma ReviewKeepsLockstep(s: Session, answers: seq<string>)
    requires Lockstep(s)
    ensures Lockstep(Review(s, answers).state)
  {
    match FirstDecision(answers)
    case None =>
    case Some(i) =>
      PendingAppend(s.sink, if answers[i] == "2" then ResetEpisode else EpisodeDone);
  }

  lemma ResetSequenceKeepsLockstep(s: Session, answers: seq<string>)
    requires Lockstep(s)
    ensures Lockstep(ResetSequence(s, answers).state)
  {
    ReviewKeepsLockstep(s, answers);
  }

  /** Every tick keeps each playback entry paired with the pending `log` call made for it. */
  lemma TickKeepsLockstep(s: Session, filterBadData: bool, y: int, rx: int, boost: bool,
                          step: StepResult, answers: seq<string>)
    requires Lockstep(s)
    ensures Lockstep(Tick(s, filterBadData, y, rx, boost, step, answers).state)
  {
    match MapSticks(y, rx, boost)
    case None =>
    case Some(action) =>
      var s1 := s.(env := s.env + [Step(action)]);
      CaptureKeepsLockstep(s1, filterBadData, action, step);
      ResetSequenceKeepsLockstep(CaptureStep(s1, filterBadData, action, step).state, answers);
  }

  lemma KeyPressKeepsLockstep(s: Session, symbol: Key, answers: seq<string>)
    requires Lockstep(s)
    ensures Lockstep(KeyPress(s, symbol, answers).state)
  {
    ResetSequenceKeepsLockstep(s, answers);
  }

  lemma JoyButtonKeepsLockstep(s: Session, button: int, answers: seq<string>)
    requires Lockstep(s)
    ensures Lockstep(JoyButtonPress(s, button, answers).state)
  {
    ResetSequenceKeepsLockstep(s, answers);
  }

  /**
   * Committing an episode that satisfies the lockstep persists exactly one
   * `log` call per playback entry, and leaves no episode open.
   */
  lemma CommitPersistsBuffer(s: Session, answers: seq<string>)
    requires Lockstep(s)
    requires FirstDecision(answers).Some? && answers[FirstDecision(answers).value] == "1"
    ensures var t := Review(s, answers).state;
      t.sink == s.sink + [EpisodeDone] &&
      |Pending(s.sink)| == |s.buffer| &&
      (forall i :: 0 <= i < |s.buffer| ==> Matches(s.buffer[i], Pending(s.sink)[i])) &&
      Pending(t.sink) == [] && t.buffer == []
  {
    PendingAppend(s.sink, EpisodeDone);
  }

  // ---------------------------------------------------------------- resize

  /** The simulator's 640 x 480 camera frame resizes to exactly 200 x 150, which the crop keeps whole. */
  lemma CameraFramePreprocess()
    ensures ImageResize(Shape(480, 640), Some(NvidiaWidth), None) == Target(200, 150)
    ensures Preprocess(Shape(480, 640)) == Prepared(Shape(150, 200))
  {
  }
}
