/** The debounce and recovery state machine of `DistractionDetector.detect`
    (main.py:48-153) as a pure step function over the detector's fields.
    Time is counted in integer tenths of a second and each tick reads the
    clock once, as `now`. */
module Distraction {
  import opened Wrappers
  import opened Classifier

  /** `EYE_CLOSED_TIME` (main.py:19): 5 s. */
  const EyeClosedTime: int := 50
  /** `LOOK_AWAY_TIME` (main.py:20): 10 s. */
  const LookAwayTime: int := 100
  /** `BUZZER_STOP_DELAY` (main.py:27): 2 s. */
  const BuzzerStopDelay: int := 20

  /** What one frame tells the detector about its main face: the two eye
      aspect ratios, the nose tip's x coordinate in pixels and the frame width. */
  datatype Reading = Reading(leftEar: real, rightEar: real, noseX: real, width: nat)

  /** The detector's fields (main.py:22-31) together with the mixer: whether
      the looping buzzer is playing, and how many times playback was started. */
  datatype State = State(
    eyeCloseStart: Option<int>,
    lookAwayStart: Option<int>,
    lookDirection: string,
    normalStartTime: Option<int>,
    eyeAlertOn: bool,
    lookAwayAlertOn: bool,
    playing: bool,
    plays: nat)

  /** What a tick draws on the frame: the two timers in tenths of a second,
      the direction text, and whether each alert banner is shown. */
  datatype Display = Display(
    eyeTimer: int, awayTimer: int, directionText: string,
    eyeBanner: bool, awayBanner: bool)

  datatype Outcome = Outcome(state: State, display: Display)

  /** The detector as the constructor leaves it, with the buzzer silent. */
  const Initial: State := State(None, None, ForwardText, None, false, false, false, 0)

  predicate Armed(s: State) {
    s.eyeAlertOn || s.lookAwayAlertOn
  }

  /** The recovery clock is only running while an alert is armed, and the
      buzzer plays exactly while an alert is armed. */
  predicate Consistent(s: State) {
    (s.normalStartTime.Some? ==> Armed(s)) &&
    (s.playing <==> Armed(s)) &&
    (s.playing ==> s.plays > 0)
  }

  lemma InitialConsistent()
    ensures Consistent(Initial) && !Armed(Initial)
  {
  }

  /** `_play_buzzer` (main.py:33-36): starts looping playback unless the
      mixer is already busy. */
  function WithBuzzer(s: State): (r: State)
    ensures r.playing
    ensures s.playing ==> r == s
  {
    if s.playing then s else s.(playing := true, plays := s.plays + 1)
  }

  /** How the branches drive the recovery clock. */
  datatype ClockRule =
    | AsWritten  // main.py:104-105, 128-129, 144-145: restarted on every tick a condition is clear
    | OnClear    // started only when not running, and cancelled while an armed condition holds

  /** What a branch whose condition is clear does to the recovery clock while
      an alert is armed (`normal_start_time = time.time()`): restart it as
      written, start it only when it is not running with the corrected rule.
      Nothing but the clock changes. */
  function Recover(s: State, armed: bool, now: int, mode: ClockRule): (r: State)
    ensures r.(normalStartTime := s.normalStartTime) == s
    ensures !armed ==> r == s
    ensures armed ==> r.normalStartTime.Some?
    ensures armed && mode == AsWritten ==> r.normalStartTime == Some(now)
    ensures mode == OnClear && s.normalStartTime.Some? ==> r == s
  {
    if !armed then s
    else match mode
      case AsWritten => s.(normalStartTime := Some(now))
      case OnClear => if s.normalStartTime.None? then s.(normalStartTime := Some(now)) else s
  }

  /** What a branch whose condition holds does to the recovery clock: nothing
      as written; with the corrected rule, an armed alert whose condition is
      back cancels a pending stop. */
  function Hold(s: State, armed: bool, mode: ClockRule): (r: State)
    ensures r.eyeAlertOn == s.eyeAlertOn && r.lookAwayAlertOn == s.lookAwayAlertOn
    ensures r.playing == s.playing && r.plays == s.plays
    ensures mode == AsWritten ==> r == s
    ensures mode == OnClear && armed ==> r.normalStartTime == None
  {
    if armed && mode == OnClear then s.(normalStartTime := None) else s
  }

  /** The onset an onset timer holds after a tick on which its condition holds. */
  function Onset(start: Option<int>, now: int): int {
    if start.Some? then start.value else now
  }

  /** A state together with one timer and one banner of the display. */
  datatype Phase = Phase(state: State, timer: int, banner: bool)

  /** Eye closure (main.py:90-105). The branch touches only the eye onset,
      the eye flag, the recovery clock and the buzzer. */
  function EyePhase(s: State, ear: real, now: int, mode: ClockRule): (p: Phase)
    ensures p.state.lookAwayStart == s.lookAwayStart && p.state.lookDirection == s.lookDirection
    ensures p.state.lookAwayAlertOn == s.lookAwayAlertOn
    ensures p.banner ==> EyesClosed(ear) && p.timer >= EyeClosedTime
    ensures !EyesClosed(ear) ==> p.state.eyeCloseStart == None && p.timer == 0
  {
    if EyesClosed(ear) then
      var onset := Onset(s.eyeCloseStart, now);
      var t := s.(eyeCloseStart := Some(onset));
      if now - onset >= EyeClosedTime then
        var u := if t.eyeAlertOn then t else WithBuzzer(t).(eyeAlertOn := true);
        Phase(Hold(u, true, mode), now - onset, true)
      else
        Phase(Hold(t, t.eyeAlertOn, mode), now - onset, false)
    else
      Phase(Recover(s.(eyeCloseStart := None), s.eyeAlertOn, now, mode), 0, false)
  }

  /** Looking away (main.py:115-129). The branch touches only the look-away
      onset, the look-away flag, the recovery clock and the buzzer. */
  function AwayPhase(s: State, d: Direction, now: int, mode: ClockRule): (p: Phase)
    ensures p.state.eyeCloseStart == s.eyeCloseStart && p.state.lookDirection == s.lookDirection
    ensures p.state.eyeAlertOn == s.eyeAlertOn
    ensures p.banner ==> d != Forward && p.timer >= LookAwayTime
    ensures d == Forward ==> p.state.lookAwayStart == None && p.timer == 0
  {
    if d != Forward then
      var onset := Onset(s.lookAwayStart, now);
      var t := s.(lookAwayStart := Some(onset));
      if now - onset >= LookAwayTime then
        var u := if t.lookAwayAlertOn then t else WithBuzzer(t).(lookAwayAlertOn := true);
        Phase(Hold(u, true, mode), now - onset, true)
      else
        Phase(Hold(t, t.lookAwayAlertOn, mode), now - onset, false)
    else
      // With the corrected rule, an armed eye alert whose eyes are still
      // closed (the eye step has set its onset) is not a return to normal.
      var eyeHeld := mode == OnClear && s.eyeAlertOn && s.eyeCloseStart.Some?;
      Phase(Recover(s.(lookAwayStart := None), Armed(s) && !eyeHeld, now, mode), 0, false)
  }

  /** No face detected (main.py:137-145). */
  function NoFacePhase(s: State, now: int, mode: ClockRule): (r: State)
    ensures r.eyeCloseStart == None && r.lookAwayStart == None
    ensures r.lookDirection == s.lookDirection
    ensures r.eyeAlertOn == s.eyeAlertOn && r.lookAwayAlertOn == s.lookAwayAlertOn
    ensures r.playing == s.playing && r.plays == s.plays
    ensures Armed(s) ==> r.normalStartTime.Some?
    ensures !Armed(s) ==> r.normalStartTime == s.normalStartTime
  {
    Recover(s.(eyeCloseStart := None, lookAwayStart := None), Armed(s), now, mode)
  }

  /** The condition of main.py:148-149. */
  predicate StopDue(s: State, now: int) {
    s.normalStartTime.Some? && now - s.normalStartTime.value >= BuzzerStopDelay
  }

  /** The buzzer-stop step (main.py:147-153). */
  function StopPhase(s: State, now: int): (r: State)
    ensures r.eyeCloseStart == s.eyeCloseStart && r.lookAwayStart == s.lookAwayStart
    ensures r.lookDirection == s.lookDirection && r.plays == s.plays
    ensures StopDue(s, now) ==> !r.playing && !Armed(r) && r.normalStartTime == None
    ensures !StopDue(s, now) ==> r == s
  {
    if StopDue(s, now) then
      s.(playing := false, eyeAlertOn := false, lookAwayAlertOn := false, normalStartTime := None)
    else s
  }

  /** Everything a tick does before the buzzer-stop step (main.py:56-145). */
  function BranchWith(s: State, obs: Option<Reading>, now: int, mode: ClockRule): Outcome {
    match obs
    case None =>
      Outcome(NoFacePhase(s, now, mode), Display(0, 0, NoFaceText, false, false))
    case Some(r) =>
      var e := EyePhase(s, AverageEar(r.leftEar, r.rightEar), now, mode);
      var d := Classify(r.noseX, r.width);
      var a := AwayPhase(e.state, d, now, mode);
      Outcome(a.state.(lookDirection := DirectionText(d)),
              Display(e.timer, a.timer, DirectionText(d), e.banner, a.banner))
  }

  /** One call of `detect` under a recovery rule: the branch, then the stop
      step. The displayed direction is the face's, or "No Face Detected". */
  function StepWith(s: State, obs: Option<Reading>, now: int, mode: ClockRule): (o: Outcome)
    ensures obs.None? ==> o.display == Display(0, 0, NoFaceText, false, false)
    ensures obs.Some? ==>
      o.display.directionText == DirectionText(Classify(obs.value.noseX, obs.value.width)) &&
      o.state.lookDirection == o.display.directionText
    ensures o.state.plays >= s.plays
  {
    var b := BranchWith(s, obs, now, mode);
    Outcome(StopPhase(b.state, now), b.display)
  }

  /** One call of `detect`, as the source writes it. */
  function Branch(s: State, obs: Option<Reading>, now: int): Outcome {
    BranchWith(s, obs, now, AsWritten)
  }

  function Step(s: State, obs: Option<Reading>, now: int): (o: Outcome)
    ensures Consistent(s) ==> Consistent(o.state)
  {
    assert Consistent(s) ==> Consistent(StepWith(s, obs, now, AsWritten).state) by {
      if Consistent(s) {
        StepConsistent(s, obs, now, AsWritten);
      }
    }
    StepWith(s, obs, now, AsWritten)
  }

  /** The eye onset timer: kept while the eyes stay closed, so the timer shows
      the time since the first closed tick; cleared, with a zero timer, as soon
      as they open. */
  lemma EyeOnsetTick(s: State, r: Reading, now: int, mode: ClockRule)
    ensures var o := StepWith(s, Some(r), now, mode);
      if EyesClosed(AverageEar(r.leftEar, r.rightEar)) then
        o.state.eyeCloseStart == Some(Onset(s.eyeCloseStart, now)) &&
        o.display.eyeTimer == now - Onset(s.eyeCloseStart, now)
      else
        o.state.eyeCloseStart == None && o.display.eyeTimer == 0
  {
  }

  /** The look-away onset timer behaves the same way on any direction other
      than Forward, and the tick records the direction it saw. */
  lemma AwayOnsetTick(s: State, r: Reading, now: int, mode: ClockRule)
    ensures var o := StepWith(s, Some(r), now, mode);
      var d := Classify(r.noseX, r.width);
      o.state.lookDirection == DirectionText(d) && o.display.directionText == DirectionText(d) &&
      if d != Forward then
        o.state.lookAwayStart == Some(Onset(s.lookAwayStart, now)) &&
        o.display.awayTimer == now - Onset(s.lookAwayStart, now)
      else
        o.state.lookAwayStart == None && o.display.awayTimer == 0
  {
    var e := EyePhase(s, AverageEar(r.leftEar, r.rightEar), now, mode).state;
    assert e.lookAwayStart == s.lookAwayStart;
    AwayPhaseOnset(e, Classify(r.noseX, r.width), now, mode);
  }

  lemma AwayPhaseOnset(s: State, d: Direction, now: int, mode: ClockRule)
    ensures var a := AwayPhase(s, d, now, mode);
      if d != Forward then
        a.state.lookAwayStart == Some(Onset(s.lookAwayStart, now)) &&
        a.timer == now - Onset(s.lookAwayStart, now)
      else
        a.state.lookAwayStart == None && a.timer == 0
  {
  }

  /** A banner is shown exactly when its condition has held long enough. */
  lemma BannerTick(s: State, obs: Option<Reading>, now: int, mode: ClockRule)
    ensures var o := StepWith(s, obs, now, mode);
      (o.display.eyeBanner <==>
        obs.Some? && EyesClosed(AverageEar(obs.value.leftEar, obs.value.rightEar)) &&
        o.display.eyeTimer >= EyeClosedTime) &&
      (o.display.awayBanner <==>
        obs.Some? && Classify(obs.value.noseX, obs.value.width) != Forward &&
        o.display.awayTimer >= LookAwayTime)
  {
  }

  /** A flag is armed after a tick exactly when it was armed before or its
      banner is shown, unless the stop step fired; nothing else clears it. */
  lemma FlagsTick(s: State, obs: Option<Reading>, now: int, mode: ClockRule)
    ensures var b := BranchWith(s, obs, now, mode);
      var o := StepWith(s, obs, now, mode);
      o.state.eyeAlertOn == (!StopDue(b.state, now) && (s.eyeAlertOn || o.display.eyeBanner)) &&
      o.state.lookAwayAlertOn == (!StopDue(b.state, now) && (s.lookAwayAlertOn || o.display.awayBanner))
  {
    match obs
    case None =>
    case Some(r) =>
      var e := EyePhase(s, AverageEar(r.leftEar, r.rightEar), now, mode);
      EyePhaseFlags(s, AverageEar(r.leftEar, r.rightEar), now, mode);
      AwayPhaseFlags(e.state, Classify(r.noseX, r.width), now, mode);
  }

  lemma EyePhaseFlags(s: State, ear: real, now: int, mode: ClockRule)
    ensures var e := EyePhase(s, ear, now, mode);
      e.state.eyeAlertOn == (s.eyeAlertOn || e.banner) &&
      e.state.lookAwayAlertOn == s.lookAwayAlertOn
  {
  }

  lemma AwayPhaseFlags(s: State, d: Direction, now: int, mode: ClockRule)
    ensures var a := AwayPhase(s, d, now, mode);
      a.state.lookAwayAlertOn == (s.lookAwayAlertOn || a.banner) &&
      a.state.eyeAlertOn == s.eyeAlertOn
  {
  }

  /** A tick with no face clears both onset timers, shows zero timers and
      "No Face Detected", restarts the recovery clock exactly when an alert is
      armed, and leaves the flags, the buzzer and the recorded direction alone. */
  lemma NoFaceTick(s: State, now: int)
    requires Consistent(s)
    ensures var o := Step(s, None, now);
      o.state.eyeCloseStart == None && o.state.lookAwayStart == None &&
      o.display == Display(0, 0, NoFaceText, false, false) &&
      o.state.lookDirection == s.lookDirection &&
      o.state.normalStartTime == (if Armed(s) then Some(now) else None) &&
      o.state.eyeAlertOn == s.eyeAlertOn && o.state.lookAwayAlertOn == s.lookAwayAlertOn &&
      o.state.playing == s.playing && o.state.plays == s.plays
  {
  }

  /** The stop step: once the recovery clock has run for the delay the buzzer
      stops, both flags drop and the clock is cleared; otherwise the state the
      branch left is kept. */
  lemma StopTick(s: State, obs: Option<Reading>, now: int, mode: ClockRule)
    ensures var b := BranchWith(s, obs, now, mode).state;
      var o := StepWith(s, obs, now, mode).state;
      if StopDue(b, now) then
        !o.playing && !o.eyeAlertOn && !o.lookAwayAlertOn && o.normalStartTime == None &&
        o.eyeCloseStart == b.eyeCloseStart && o.lookAwayStart == b.lookAwayStart &&
        o.lookDirection == b.lookDirection && o.plays == b.plays
      else
        o == b
  {
  }

  /** Whether the tick runs one of the assignments `normal_start_time =
      time.time()` (main.py:104-105, 128-129, 144-145). Line 104 looks at the
      eye flag only; line 128 looks at both flags, after the eye step. */
  predicate Reassigns(s: State, obs: Option<Reading>, now: int) {
    match obs
    case None => Armed(s)
    case Some(r) =>
      var ear := AverageEar(r.leftEar, r.rightEar);
      (!EyesClosed(ear) && s.eyeAlertOn) ||
      (Classify(r.noseX, r.width) == Forward && Armed(EyePhase(s, ear, now, AsWritten).state))
  }

  /** A tick that restarts the recovery clock cannot also stop the buzzer: the
      elapsed time it then sees is zero. So alerts only ever clear on a tick
      that runs none of those assignments. */
  lemma ReassignBlocksStop(s: State, obs: Option<Reading>, now: int)
    ensures Reassigns(s, obs, now) ==>
      !StopDue(Branch(s, obs, now).state, now) &&
      Step(s, obs, now).state.normalStartTime == Some(now) &&
      Armed(Step(s, obs, now).state)
    ensures Armed(s) && !Armed(Step(s, obs, now).state) ==> !Reassigns(s, obs, now)
    ensures !Reassigns(s, obs, now) ==>
      Branch(s, obs, now).state.normalStartTime == s.normalStartTime
  {
  }

  /** The two invariants survive every tick, whichever recovery rule is used. */
  lemma StepConsistent(s: State, obs: Option<Reading>, now: int, mode: ClockRule)
    requires Consistent(s)
    ensures Consistent(StepWith(s, obs, now, mode).state)
  {
    match obs
    case None =>
    case Some(r) =>
      var ear := AverageEar(r.leftEar, r.rightEar);
      var e := EyePhase(s, ear, now, mode);
      EyePhaseConsistent(s, ear, now, mode);
      AwayPhaseConsistent(e.state, Classify(r.noseX, r.width), now, mode);
  }

  lemma EyePhaseConsistent(s: State, ear: real, now: int, mode: ClockRule)
    requires Consistent(s)
    ensures Consistent(EyePhase(s, ear, now, mode).state)
  {
    EyePhasePlays(s, ear, now, mode);
  }

  lemma AwayPhaseConsistent(s: State, d: Direction, now: int, mode: ClockRule)
    requires Consistent(s)
    ensures Consistent(AwayPhase(s, d, now, mode).state)
  {
    AwayPhasePlays(s, d, now, mode);
  }

  /** Playback is started at most once per tick, and only when the tick arms
      an alert while none was armed; a start request while the buzzer is
      already playing changes nothing. */
  lemma PlaysTick(s: State, obs: Option<Reading>, now: int, mode: ClockRule)
    requires Consistent(s)
    ensures var b := BranchWith(s, obs, now, mode).state;
      StepWith(s, obs, now, mode).state.plays ==
        if !Armed(s) && Armed(b) then s.plays + 1 else s.plays
    ensures s.playing ==> StepWith(s, obs, now, mode).state.plays == s.plays
  {
    match obs
    case None =>
    case Some(r) =>
      var ear := AverageEar(r.leftEar, r.rightEar);
      var e := EyePhase(s, ear, now, mode);
      EyePhasePlays(s, ear, now, mode);
      AwayPhasePlays(e.state, Classify(r.noseX, r.width), now, mode);
  }

  lemma EyePhasePlays(s: State, ear: real, now: int, mode: ClockRule)
    ensures var e := EyePhase(s, ear, now, mode).state;
      e.plays == (if !s.playing && e.playing then s.plays + 1 else s.plays) &&
      (e.playing <==> s.playing || (e.eyeAlertOn && !s.eyeAlertOn)) &&
      e.lookAwayAlertOn == s.lookAwayAlertOn && (s.eyeAlertOn ==> e.eyeAlertOn)
  {
  }

  lemma AwayPhasePlays(s: State, d: Direction, now: int, mode: ClockRule)
    ensures var a := AwayPhase(s, d, now, mode).state;
      a.plays == (if !s.playing && a.playing then s.plays + 1 else s.plays) &&
      (a.playing <==> s.playing || (a.lookAwayAlertOn && !s.lookAwayAlertOn)) &&
      a.eyeAlertOn == s.eyeAlertOn && (s.lookAwayAlertOn ==> a.lookAwayAlertOn)
  {
  }

  /** No timestamp held by the state lies after `t`. */
  predicate ClockBound(s: State, t: int) {
    (s.eyeCloseStart.Some? ==> s.eyeCloseStart.value <= t) &&
    (s.lookAwayStart.Some? ==> s.lookAwayStart.value <= t) &&
    (s.normalStartTime.Some? ==> s.normalStartTime.value <= t)
  }

  /** With a clock that does not run backwards, the displayed timers are
      never negative. */
  lemma TimersNonNegative(s: State, obs: Option<Reading>, prev: int, now: int, mode: ClockRule)
    requires ClockBound(s, prev) && prev <= now
    ensures ClockBound(StepWith(s, obs, now, mode).state, now)
    ensures StepWith(s, obs, now, mode).display.eyeTimer >= 0
    ensures StepWith(s, obs, now, mode).display.awayTimer >= 0
  {
    match obs
    case None =>
    case Some(r) =>
      var e := EyePhase(s, AverageEar(r.leftEar, r.rightEar), now, mode);
      EyePhaseClock(s, AverageEar(r.leftEar, r.rightEar), prev, now, mode);
      AwayPhaseClock(e.state, Classify(r.noseX, r.width), now, now, mode);
  }

  lemma EyePhaseClock(s: State, ear: real, prev: int, now: int, mode: ClockRule)
    requires ClockBound(s, prev) && prev <= now
    ensures var e := EyePhase(s, ear, now, mode);
      ClockBound(e.state, now) && e.timer >= 0
  {
  }

  lemma AwayPhaseClock(s: State, d: Direction, prev: int, now: int, mode: ClockRule)
    requires ClockBound(s, prev) && prev <= now
    ensures var a := AwayPhase(s, d, now, mode);
      ClockBound(a.state, now) && a.timer >= 0
  {
  }
}
