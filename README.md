# HumanDriver capture controller, modelled in Dafny

`duckieSchool/duckieGym/human.py` lets an operator drive the Duckietown
simulator with a joystick and records the drive as training data. On every
frame, `HumanDriver.update` does four things:

- It maps the two rounded stick values to an action. Both sticks at 0.00 skip
  the frame. Button 6 forces full speed straight ahead.
- It steps the simulator with that action.
- It runs a quality filter on the reward. The filter decides whether the step
  goes into the playback buffer and the `Logger`.
- After a terminal step it runs the review. The operator commits the episode
  ("1") or aborts it ("2"), and the playback buffer is emptied.

Backspace, Slash and the joystick's Y button request the same review and
reset. Only the joystick handler is registered, though (line 54): nothing in
the file attaches `on_key_press` to a window. In the running program the keys
therefore do nothing. The model describes `on_key_press` as written.

The model has six modules:

- `Types`: an `Option` datatype.
- `Sticks`: the stick mapping. Sticks are integers in hundredths, which is
  what `round(v, 2)` produces.
- `Resize`: the shape arithmetic of `image_resize` and of the 150 x 200 crop.
- `Capture`: the capture state (`Session`) and one function per handler,
  giving the new state and the exception raised, if any.
- `Properties`: the lemmas about those functions.
- `Driver`: the class `HumanDriver`. Its fields are `last_reward` and
  `playback_buffer`, plus traces of the calls made to the Logger and the
  simulator. Each method is proved to change these fields exactly as the
  matching `Capture` function says. Each method also keeps the invariant
  `Valid()`: every playback entry is paired, in order, with the pending `log`
  call made for it.

The simulator's outputs (`obs`, `reward`, `done`) and the operator's answers
to the prompt are method parameters. The answers are a scripted sequence of
strings. If the script runs out, `input()` raises `EOFError`. Python floats
are modelled as reals. Exceptions are returned beside the state they leave
behind. There are four:

- `ZeroDivisionError` from `image_resize` on a frame without columns.
- `cv2.error` from `cv2.resize` on a frame without rows, or on one so flat
  that the target height `int(rows * 200 / columns)` is 0.
- `EOFError` from the prompt.
- `SystemExit` from Escape or Q.

Notes on the code:

- A frame smaller than the 150 x 200 crop is silently truncated by numpy
  slicing. It is not an error.
- Only accepted steps enter `playback_buffer`. Rejected and out-of-bounds steps
  do not.
- `self.episode` is set once and never incremented. The model counts
  `on_episode_done` calls (`Capture.Committed`).
- `last_reward` is never reset between episodes. It also follows rejected
  rewards (the ratchet of lines 196 and 199).

## Model

| member | source | states |
|---|---|---|
| `Sticks.MapSticks` | duckieSchool/duckieGym/human.py:154-173 | no action iff both rounded sticks are 0 (before button 6 is consulted); with button 6 the action is (1.0, 0.0); otherwise each component has the sign opposite to its stick and stays within ±0.9 / ±3.0 for sticks in [-1, 1] |
| `Properties.SignScaleExample` | duckieSchool/duckieGym/human.py:158-173 | sticks (0.50, 0.20) without boost give the action (-0.45, -0.6) |
| `Properties.DeadzoneSkipsTick` | duckieSchool/duckieGym/human.py:154-155 | both sticks at 0: the tick changes nothing (no env step, no buffer append, no log call, same last reward), even with button 6 held |
| `Properties.TickStepsWithAction` | duckieSchool/duckieGym/human.py:158-177 | outside the deadzone the first new simulator call is `step([-(y*0.9), -(rx*3.0)])`, or `step([1.0, 0.0])` with button 6, and earlier calls are kept |
| `Resize.ImageResize` | duckieSchool/duckieGym/human.py:101-110 | unchanged iff neither width nor height is given; a given width is kept and the height is the floor of h*width/w; otherwise the height is kept and the width is the floor of w*height/h; division by zero exactly when the side divided by is 0 |
| `Resize.Crop` | duckieSchool/duckieGym/human.py:189 | the crop keeps at most 150 rows and 200 columns, and fewer only when the image is smaller (truncation, no error) |
| `Resize.Preprocess` | duckieSchool/duckieGym/human.py:185-192 | division by zero iff the observation has no columns; `cv2.resize` rejects it iff it has columns but rows * 200 < columns; otherwise the logged frame is 200 columns wide and 1 to 150 rows high, exactly 150 once rows * 200 >= 150 * columns |
| `Properties.ThinFrameRejected` | duckieSchool/duckieGym/human.py:185 | a 1 x 640 frame gets the target size (200, 0), which `cv2.resize` rejects |
| `Properties.CameraFramePreprocess` | duckieSchool/duckieGym/human.py:176-189 | the 640 x 480 camera frame resizes to 200 x 150 and the crop keeps all of it |
| `Properties.SentinelIgnored` | duckieSchool/duckieGym/human.py:179-201 | a reward of -1000 changes neither buffer, Logger trace nor last reward |
| `Capture.CaptureStep` | duckieSchool/duckieGym/human.py:179-201 | the filter leaves the simulator alone, only appends to buffer and Logger trace, adds as many `log` calls as entries (at most one), and changes nothing when it raises; its case-by-case behaviour is stated by `SentinelIgnored`, `RewardRatchet`, `FilterDecision` and `DegenerateFrameRaises` |
| `Properties.RewardRatchet` | duckieSchool/duckieGym/human.py:181-199 | every other reward becomes the last reward, whether the step is kept or discarded (unless preprocessing of a kept step raises first) |
| `Properties.FilterDecision` | duckieSchool/duckieGym/human.py:181-199 | a step is kept iff reward > last_reward - 0.02 or filtering is off; a kept step appends exactly one (obs, action, reward) entry and one `log` call at the ends; a discarded step changes neither |
| `Properties.DegenerateFrameRaises` | duckieSchool/duckieGym/human.py:181-185 | an accepted frame with no columns raises `ZeroDivisionError`, and one with columns but rows * 200 < columns raises `cv2.error`, before the buffer, Logger or last reward change |
| `Properties.FilterExample` | duckieSchool/duckieGym/human.py:181-199 | with filtering on and last reward 0.5: 0.49 is kept, then 0.40 is discarded and still becomes the last reward |
| `Capture.FirstDecision` | duckieSchool/duckieGym/human.py:84-86 | the prompt stops at the first answer that is "1" or "2", and every earlier answer was neither; no such answer means the loop never ends on a decision |
| `Driver.AwaitDecision` | duckieSchool/duckieGym/human.py:84-86 | the re-prompt loop returns the index of the first "1" or "2" (all earlier answers invalid), or nothing when the answers run out |
| `Capture.Review` | duckieSchool/duckieGym/human.py:84-93 | completes iff some answer is "1" or "2"; then the buffer is empty and exactly one non-`log` Logger call is appended; otherwise nothing changes and `EOFError` is raised; last reward and simulator untouched (exact calls in `ReviewDecides`) |
| `Capture.ResetSequence` | duckieSchool/duckieGym/human.py:119-124 | completes iff some answer is "1" or "2"; then it empties the buffer, adds exactly the decision's Logger call (`reset_episode` for "2", `on_episode_done` for "1") and exactly `env.reset`, `env.render`; otherwise it raises `EOFError` with nothing changed |
| `Properties.ReviewDecides` | duckieSchool/duckieGym/human.py:84-93 | "2" adds exactly one `reset_episode`, "1" exactly one `on_episode_done` (one more committed episode); the buffer is empty afterwards; no `log` call; last reward and simulator untouched |
| `Properties.ReviewWithoutDecision` | duckieSchool/duckieGym/human.py:84-86 | answers without "1" or "2" change nothing and end in `EOFError` |
| `Properties.CommitPersistsBuffer` | duckieSchool/duckieGym/human.py:87-93 | committing closes an episode holding exactly one matching `log` call per buffer entry, and leaves no open episode and an empty buffer |
| `Capture.Tick` | duckieSchool/duckieGym/human.py:147-210 | both traces are append-only, at most two Logger calls per tick, and the buffer either grows or is emptied by a review; the cases are stated by `DeadzoneSkipsTick`, `TickStepsWithAction`, `TickRaisesOnDegenerateFrame`, `DoneRunsReview`, `DoneWithoutDecision` and `NotDoneKeepsEpisodeOpen` |
| `Properties.DoneRunsReview` | duckieSchool/duckieGym/human.py:203-208 | after a terminal step (kept, discarded or out of bounds) the Logger trace is the filter's plus exactly one decision call, the simulator calls of the tick are exactly step, reset and render, and the buffer ends empty |
| `Properties.TickRaisesOnDegenerateFrame` | duckieSchool/duckieGym/human.py:177-203 | an accepted frame that preprocessing rejects ends the tick with `ZeroDivisionError` or `cv2.error`; the only change is the `env.step` call, with no review even for a terminal step and no render |
| `Properties.DoneWithoutDecision` | duckieSchool/duckieGym/human.py:203-205 | a terminal step whose answers never say "1" or "2" keeps the filter's changes, adds only `env.step` to the simulator calls, and ends in `EOFError`, with no `env.reset` or `env.render` |
| `Properties.NotDoneKeepsEpisodeOpen` | duckieSchool/duckieGym/human.py:203-210 | a non-terminal step's outcome is exactly the filter's state with the simulator calls `step` and `render` appended and no exception: no commit, the old buffer stays a prefix |
| `Capture.KeyPress` | duckieSchool/duckieGym/human.py:114-130 | `SystemExit` iff Escape or Q; other keys do nothing; the last reward is untouched and both traces only grow |
| `Capture.JoyButtonPress` | duckieSchool/duckieGym/human.py:132-145 | buttons other than 3 do nothing; the last reward is untouched and both traces only grow |
| `Properties.ResetRequestsAgree` | duckieSchool/duckieGym/human.py:119-145 | Backspace, Slash and joystick button 3 run the identical review-and-reset sequence |
| `Properties.PendingMaximal` | duckieSchool/duckieGym/human.py:87-92 | the open Logger episode is every trailing `log` call: the call before them, if any, is `on_episode_done` or `reset_episode` |
| `Properties.InitialLockstep` | duckieSchool/duckieGym/human.py:45-46 | the initial state (empty buffer, no Logger calls) satisfies the buffer/Logger lockstep |
| `Properties.LockstepAppend` | duckieSchool/duckieGym/human.py:193-195 | appending an entry together with its own `log` call keeps the lockstep |
| `Properties.CaptureKeepsLockstep` | duckieSchool/duckieGym/human.py:179-201 | the quality filter keeps the lockstep |
| `Properties.ReviewKeepsLockstep` | duckieSchool/duckieGym/human.py:84-93 | the review keeps the lockstep: it closes the Logger episode and empties the buffer together |
| `Properties.ResetSequenceKeepsLockstep` | duckieSchool/duckieGym/human.py:119-124 | the review-and-reset sequence keeps the lockstep |
| `Properties.TickKeepsLockstep` | duckieSchool/duckieGym/human.py:147-210 | a whole frame tick keeps the lockstep |
| `Properties.KeyPressKeepsLockstep` | duckieSchool/duckieGym/human.py:114-130 | every key press keeps the lockstep |
| `Properties.JoyButtonKeepsLockstep` | duckieSchool/duckieGym/human.py:132-145 | every joystick button press keeps the lockstep |
| `Driver.HumanDriver.constructor` | duckieSchool/duckieGym/human.py:36-46 | starts with last reward 0, an empty buffer, no Logger calls and one `env.reset`, in lockstep |
| `Driver.HumanDriver.Playback` | duckieSchool/duckieGym/human.py:69-94 | changes the fields exactly as `Review` says and keeps the lockstep |
| `Driver.HumanDriver.ResetAfterReview` | duckieSchool/duckieGym/human.py:119-124 | the review followed by `env.reset` and `env.render`, as `ResetSequence` says |
| `Driver.HumanDriver.Record` | duckieSchool/duckieGym/human.py:179-201 | changes last reward, buffer and Logger trace exactly as `CaptureStep` says and keeps the lockstep |
| `Driver.HumanDriver.Update` | duckieSchool/duckieGym/human.py:147-210 | changes the fields exactly as `Tick` says and keeps the lockstep |
| `Driver.HumanDriver.OnKeyPress` | duckieSchool/duckieGym/human.py:114-130 | changes the fields exactly as `KeyPress` says: review and reset on Backspace/Slash, camera level and render on PageUp, close and `SystemExit` on Escape/Q |
| `Driver.HumanDriver.OnJoyButtonPress` | duckieSchool/duckieGym/human.py:132-145 | review and reset on button 3, nothing otherwise, as `JoyButtonPress` says |

## Left out

- `round(v, 2)` and the float effects of `* 0.9`, `* 3.0` and `int(h * r)`: sticks arrive as integer hundredths and arithmetic is on reals, so binary rounding is not modelled.
- The pyglet clock, the event loop, joystick discovery and its assertion (lines 48-55): event plumbing and a device driver. Handlers are methods called one at a time.
- The replay drawing in `playback` (lines 71-82: `cvtColor`, the speed and steering bars, `imshow`, `waitKey`) and the `args.playback` flag that guards it: display only, with no effect on state.
- Pixel content of `cv2.resize`, the crop and `cvtColor(BGR2YUV)`: the logged frame is represented by its shape.
- The `info` dictionary passed to `Logger.log`: opaque simulator output.
- `Logger` internals (`log_util` is not part of this model): only the sequence of calls made to it is recorded.
- `sleep_after_reset` (lines 60-67): a console countdown with `time.sleep`.
- `print` output of the handlers.
- The camera-angle write on PageUp: recorded only as a `Level` call to the simulator.
- Properties.DoneRunsReview: the Logger calls and the simulator calls are kept in two separate traces, so the model does not state the order between them, such as the review's decision call coming before `env.reset`. Within each trace the order is exact.
- Exceptions raised inside the simulator or the Logger, and the `close` calls after the event loop ends (lines 56-58).
- The argparse block and env construction (lines 213-256).
