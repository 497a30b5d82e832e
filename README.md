# Driver distraction detector: the alert state machine

This project models the core of `DistractionDetector` in `main.py`. On every
video frame it picks the largest detected face. It tests the averaged eye
aspect ratio against 0.25 and reads the head direction from the nose tip,
with a ±50 px dead zone around the frame centre. A small state machine then
turns these readings into debounced alerts:

- eyes closed for 5 s arm the eye alert;
- looking away for 10 s arms the look-away alert;
- either one starts a looping buzzer;
- a shared recovery clock stops the buzzer and clears both alerts 2 s after
  it was last started.

Modules:

- `Wrappers`: `Option`, standing for Python's `None`.
- `FaceSelection`: bounding-box areas and the main-face scan. The scan is a
  left fold (`Pick`) and also the loop of the source (`FindMainFace`),
  proved equal to it.
- `Classifier`: the eye aspect ratio, the eyes-closed test, the direction and
  its text.
- `Distraction`: the detector's fields as a value (`State`). `StepWith` is
  one `detect` call, split the way the source is: eye branch, direction
  branch, no-face branch, stop step. `Step` is that call exactly as the
  source writes it. The lemmas are about one tick.
- `Recovery`: runs of several frames. It holds the finding below, with the
  corrected recovery clock (`OnClear`) and its proof.
- `Detector`: the class `DistractionDetector`. Its fields are updated in
  place, and the mixer is the ghost fields `playing` and `plays` (how many
  times playback was started). `Tick` is proved to leave the fields equal to
  `Step` of the old fields and to return `Step`'s display. The source's
  `detect` body is split into four helper methods, one per branch.

Time is counted in integer tenths of a second, and one tick reads the clock
once, as `now`. So `round(..., 1)` at main.py:94 and main.py:118 is exact, and
the thresholds are 50, 100 and 20 tenths.

Two points where the code behaves differently from what one might expect,
and where the model follows the code:

- With no face, the code clears both onset timers. It does not count the
  frame as looking away, and it stores "No Face Detected" only in the display
  text, not in `look_direction`.
- The recovery clock is restarted on every attentive tick, so the buzzer does
  not stop 2 s after the driver returns to normal (see Findings).

## Model

| member | source | states |
|---|---|---|
| FaceSelection.BoxArea | main.py:62-66 | the box area `(max x - min x) * (max y - min y)` over the pixel-scaled landmarks is never negative |
| FaceSelection.Pick | main.py:59-69 | the scan returns None exactly when no area is positive; otherwise an index with a positive area, no smaller than any area, and strictly larger than every earlier one |
| FaceSelection.SelectMainFace | main.py:59-69 | the main face of a frame is None iff every face's box area is zero; otherwise the first face of maximal positive area |
| FaceSelection.PickIsFirstMaximum | main.py:67-69 | the scan picks `k` if and only if `k` is the first face of maximal positive area (strict `>` gives the earliest face on ties) |
| FaceSelection.NoFacesNoSelection | main.py:59-60 | with no faces the selection is None |
| FaceSelection.FindMainFace | main.py:59-69 | the loop that keeps `largest_area` and `main_face` returns exactly the selection |
| Classifier.EyeAspectRatio | main.py:42-46 | `(A + B) / (2C)` for `C > 0` is non-negative for distances, and is below 0.25 iff `2(A + B) < C` |
| Classifier.EyeAspectRatioScaleInvariant | main.py:42-46 | scaling all three distances by a positive factor leaves the ratio unchanged |
| Classifier.AverageEar | main.py:88 | the mean of the two eyes lies between them, and is below the threshold iff their sum is below twice it |
| Classifier.EyesClosed | main.py:91 | the eyes count as closed exactly when the averaged ratio is below a quarter (`EYE_AR_THRESH = 0.25`) |
| Classifier.Classify | main.py:108-113 | Forward exactly when the nose is within 50 px of the frame centre; Looking Left only left of the centre, Looking Right only right of it |
| Classifier.ClassifyBands | main.py:107-113 | Looking Left iff `nose_x < w/2 - 50`, Looking Right iff `nose_x > w/2 + 50`, Forward iff inside the band |
| Classifier.ClassifyMirror | main.py:108-113 | reflecting the nose about the frame centre swaps left and right |
| Classifier.ClassifyMonotone | main.py:108-113 | moving the nose to the right never moves the direction to the left |
| Classifier.DirectionText | main.py:109-113 | the text is "Forward" iff the direction is Forward, and is never "No Face Detected" |
| Distraction.InitialConsistent | main.py:22-31 | the constructor's state satisfies the invariants, with no alert armed |
| Distraction.WithBuzzer | main.py:33-36 | after a start request the buzzer plays, and a request while it plays changes nothing |
| Distraction.Recover | main.py:104-105 | what lines 104-105, 128-129 and 144-145 do to the recovery clock while an alert is armed: only the clock changes; nothing happens when no alert is armed; the clock is then running; as written it is restarted at `now`; with the corrected rule a running clock is left alone |
| Distraction.Hold | main.py:90-124 | a branch whose condition holds leaves the flags and the buzzer alone; as written it leaves the recovery clock alone too, while the corrected rule cancels it when the condition's alert is armed |
| Distraction.EyePhase | main.py:90-105 | the eye branch touches only the eye onset, the eye flag, the recovery clock and the buzzer; its banner needs closed eyes and at least 5 s; open eyes clear the onset and show 0 |
| Distraction.AwayPhase | main.py:115-131 | the direction branch touches only the look-away onset, the look-away flag, the recovery clock and the buzzer; its banner needs a turned head and at least 10 s; Forward clears the onset and shows 0 |
| Distraction.NoFacePhase | main.py:137-145 | both onsets cleared; flags, buzzer and `look_direction` kept; the recovery clock is set when an alert is armed and left alone otherwise |
| Distraction.StopPhase | main.py:147-153 | when the clock has run 2 s the buzzer is silent, no alert is armed and the clock is cleared, with the onsets and direction kept; otherwise nothing changes |
| Distraction.StepWith | main.py:48-153 | one `detect` call under either recovery rule: no face shows zero timers and "No Face Detected", a face shows and records its direction text, and the playback count never decreases |
| Distraction.Step | main.py:48-153 | one `detect` call as written; it preserves the invariants |
| Distraction.EyeOnsetTick | main.py:90-103 | closed eyes keep an existing onset (or take `now`) and display `now - onset`; open eyes clear the onset and display 0 |
| Distraction.AwayOnsetTick | main.py:107-131 | the same for the look-away onset on any direction but Forward; the tick records and displays the direction text |
| Distraction.BannerTick | main.py:95-121 | each alert banner is drawn exactly when the face is seen, its condition holds and its timer reaches 5 s or 10 s |
| Distraction.EyePhaseFlags | main.py:95-105 | the eye branch arms the eye flag exactly when its banner is shown, and never touches the look-away flag |
| Distraction.AwayPhaseFlags | main.py:119-129 | the direction branch arms the look-away flag exactly when its banner is shown, and never touches the eye flag |
| Distraction.FlagsTick | main.py:95-153 | after a tick a flag is armed iff it was armed or its banner is shown, unless the stop step fired; nothing else clears a flag |
| Distraction.NoFaceTick | main.py:137-145 | no face clears both onsets, shows zero timers and "No Face Detected", sets the recovery clock to `now` iff an alert is armed, and keeps the flags, the buzzer and `look_direction` |
| Distraction.StopTick | main.py:147-153 | once the recovery clock has run 2 s the buzzer stops, both flags and the clock are cleared and nothing else changes; otherwise the branch's state is kept |
| Distraction.ReassignBlocksStop | main.py:104-149 | a tick that runs line 105, 129 or 145 cannot fire the stop and leaves the clock at `now`; a tick that runs none of them leaves the branch's clock as it was; alerts clear only on ticks that run none of them |
| Distraction.StepConsistent | main.py:98-153 | a running recovery clock implies an armed alert, and the buzzer plays iff an alert is armed; both hold after every tick |
| Distraction.PlaysTick | main.py:33-36 | playback starts at most once per tick, only when an alert is armed while none was; a start request while playing changes nothing |
| Distraction.TimersNonNegative | main.py:91-118 | with a clock that does not run backwards, every held timestamp stays at or before `now` and both displayed timers are non-negative |
| Recovery.Run | main.py:175-180 | the frames of a session processed in order; the playback count never decreases |
| Recovery.RunConsistent | main.py:175-180 | the invariants hold after any sequence of processed frames |
| Recovery.ShutRunKeepsOnset | main.py:91-94 | over consecutive closed-eye frames the eye onset stays at the first of them |
| Recovery.AttentiveTickAsWritten | main.py:101-129 | an attentive tick with an alert armed keeps both flags and the buzzer, and sets the recovery clock to `now` |
| Recovery.AttentiveNeverRecovers | main.py:104-149 | as written, an armed alert is never cleared however long the driver stays attentive: the buzzer keeps playing |
| Recovery.AttentiveNeverRecoversExample | main.py:104-149 | eye alert armed, then 10 s of open eyes looking ahead: still armed, still playing |
| Recovery.OpenEyesNeverRecover | main.py:101-105 | as written, an armed eye alert is never cleared while the eyes are open, whatever the head direction; the clock sits at the last frame's time |
| Recovery.LookingAwayKeepsEyeAlertExample | main.py:101-149 | eye alert armed, then 10 s of open eyes with the nose at the left edge: still armed, still playing, clock at 10 s |
| Recovery.CorrectedRetriggerKeepsAlarm | main.py:90-153 | with the corrected clock, a frame on which an armed alert's condition holds again never fires the stop, the alert stays armed and playing, and the clock is stopped, so the 2 s start again at the next return to normal |
| Recovery.CorrectedRetriggerExample | main.py:90-153 | eye alert armed, eyes open at 0 s, closed again at 1 s and 2 s: with the corrected clock the buzzer is not stopped |
| Recovery.CorrectedGraceTick | main.py:147-153 | with the corrected clock, an attentive frame less than 2 s after `tc` keeps the alert armed and the buzzer playing, when the clock is stopped or started no earlier than `tc` |
| Recovery.CorrectedGraceRun | main.py:147-153 | the grace window: with the corrected clock, every run of attentive frames within 2 s after `tc` leaves the alert armed and the buzzer playing |
| Recovery.CorrectedGraceExample | main.py:147-153 | eye alert armed, eyes still closed at 0 s, open from 1 s: with the corrected clock the buzzer plays at 2.9 s and is stopped at 3 s |
| Recovery.CorrectedAttentiveTick | main.py:147-153 | with the clock started only when idle, an attentive tick keeps the clock's start at or before `t0` and clears everything once `now >= t0 + 2 s` |
| Recovery.CorrectedAttentiveRun | main.py:147-153 | the same over any run of attentive frames |
| Recovery.CorrectedRecovers | main.py:147-153 | with the corrected clock, once the driver is attentive every alert is cleared and the buzzer silent by the first frame at least 2 s later |
| Detector.DistractionDetector.constructor | main.py:8-31 | the fields start as None, "Forward" and false, with the buzzer silent |
| Detector.DistractionDetector.PlayBuzzer | main.py:33-36 | the buzzer plays afterwards, and playback is started only if it was not already playing |
| Detector.DistractionDetector.StopBuzzer | main.py:38-39 | the buzzer is silent afterwards |
| Detector.DistractionDetector.CheckEyes | main.py:90-105 | the fields, the eye timer and the banner are those of the eye branch |
| Detector.DistractionDetector.CheckDirection | main.py:107-131 | the fields, the look-away timer, the banner and the text are those of the direction branch |
| Detector.DistractionDetector.LoseFace | main.py:137-145 | the fields are those of the no-face branch |
| Detector.DistractionDetector.StopIfRecovered | main.py:147-153 | the fields are those of the stop step |
| Detector.DistractionDetector.Tick | main.py:48-163 | the new fields and the display are those of one step of the state machine, and the invariants are preserved |
| Detector.DistractionDetector.Cleanup | main.py:165-168 | the buzzer is stopped at the end of the session |

## Left out

- Video capture, the display window and the ESC key (main.py:171-188) are I/O.
- Drawing with `cv2.putText` and `cv2.circle` is not modelled. The drawn values are returned as `Display`: the timers, the direction text and whether each banner is shown.
- MediaPipe FaceMesh (main.py:14-15, 53-54) is an external library. Its output is an input here: a sequence of faces for `SelectMainFace`, and for `Tick` a `Reading` of the main face, or None when no face was found.
- Landmark extraction from the main face is not modelled: the eye and nose indices, the `int(...)` pixel truncation (main.py:74-85) and `math.dist` with its square root (main.py:43-45). `EyeAspectRatio` takes the three distances as reals, and `Reading` carries the two ratios and the nose x coordinate.
- The crash at main.py:77 when faces are reported but none has a positive box area (`main_face` stays None) is not modelled. `SelectMainFace` returns None in that case, and `Tick` only ever receives the reading of a face that exists.
- The pygame mixer (main.py:10, 34-39, 167) is the ghost `playing` flag plus a count of started playbacks. The mixer is assumed never to stop on its own, since it plays in a loop.
- Floating-point rounding is not modelled: ratios and coordinates are reals. Several `time.time()` calls in one tick (main.py:93-94, 105, 117-118, 129, 145, 149) become one `now` in tenths of a second, so `round(now - start, 1)` is the exact difference.
- Classifier.EyeAspectRatio: requires `C > 0`; a zero horizontal eye distance raises ZeroDivisionError at main.py:46, and that crash is not modelled.
- FaceSelection.BoxArea: requires a face with at least one landmark (and `WellFormed` requires it of every face), because `min(xs)` raises ValueError at main.py:64 on an empty face; the face mesh never reports one, and that crash is not modelled.
- `FindMainFace` returns the index of the main face rather than the face object.
- Distraction.TimersNonNegative: the source does not require a monotonic clock, so non-negative timers are proved only for a clock that does not run backwards.

## Findings

| source | as written | input that shows it | evidently intended | confidence | as-written member | corrected member |
|---|---|---|---|---|---|---|
| main.py:104-105 | `normal_start_time = time.time()` runs on every tick with open eyes while the eye alert is armed, whatever the head direction. Lines 128-129 do the same on every tick looking ahead while either alert is armed, and lines 144-145 on every tick with no face. The stop check at lines 148-149 then always sees close to zero elapsed time. | Eye alert armed, then frames with open eyes looking ahead at 0 s, 3 s and 10 s: the alert stays armed and the buzzer keeps playing. Looking away with open eyes does not help either (same frames with the nose at x = 0). The eye alert stops only on a frame at least 2 s after the last restart on which the eyes are closed and the head is turned. A look-away alert on its own stops after 2 s of looking away. | Start the recovery clock when a condition clears, if it is not already running, and keep it stopped on every frame on which an armed alert's condition holds. Then the buzzer keeps playing for 2 s after the last frame on which an armed alert's condition held, and stops once those 2 s have passed. | high; not executed | Recovery.AttentiveNeverRecovers | Recovery.CorrectedRecovers |

The class `DistractionDetector` keeps the code's behaviour (`AsWritten`),
because that is what the program does. The corrected rule is the `OnClear`
value of the `ClockRule` that the same step function takes:

- `Recover` starts the clock only when it is not running.
- `Hold` stops it on a frame where an armed alert's condition holds. The
  direction branch does not start it while an armed eye alert's eyes are
  still closed.

The per-tick lemmas that take a rule hold under it too. Three lemmas prove
the intended behaviour:

- `CorrectedRecovers`: the buzzer is silent by the first frame 2 s after
  the driver is back to normal.
- `CorrectedGraceRun`: until those 2 s have passed, the alert stays armed
  and the buzzer keeps playing.
- `CorrectedRetriggerKeepsAlarm`: a frame on which an armed alert's
  condition holds again never stops the buzzer, and it stops the clock.

`OpenEyesNeverRecover` and `LookingAwayKeepsEyeAlertExample` show the
as-written behaviour when the driver looks away with open eyes.
