/** Runs of several ticks, and the recovery clock across them. As written
    (main.py:104-105, 128-129, 144-145) every tick on which the driver is back
    to normal restarts the clock, so the stop check at main.py:148-149 always
    finds zero elapsed. An eye alert is then never cleared while the eyes
    are open, whatever the head does, and a look-away alert never while the
    driver looks ahead. The corrected rule (`OnClear`) starts the clock only
    when it is not running and cancels it while an armed alert's condition
    holds again. Back to normal then means a frame on which no armed alert's
    condition holds: the buzzer keeps playing for two seconds after the
    driver is back to normal and stops once those two seconds have passed,
    and an alert that comes back within them keeps it playing. */
module Recovery {
  import opened Wrappers
  import opened Classifier
  import opened Distraction

  /** One processed video frame: what was observed, and the clock reading. */
  datatype Frame = Frame(obs: Option<Reading>, now: int)

  /** The state after processing the frames in order. */
  function Run(s: State, frames: seq<Frame>, mode: ClockRule): (r: State)
    ensures r.plays >= s.plays
    decreases |frames|
  {
    if |frames| == 0 then s
    else Run(StepWith(s, frames[0].obs, frames[0].now, mode).state, frames[1..], mode)
  }

  lemma {:induction false} RunConsistent(s: State, frames: seq<Frame>, mode: ClockRule)
    requires Consistent(s)
    ensures Consistent(Run(s, frames, mode))
    decreases |frames|
  {
    if |frames| > 0 {
      StepConsistent(s, frames[0].obs, frames[0].now, mode);
      RunConsistent(StepWith(s, frames[0].obs, frames[0].now, mode).state, frames[1..], mode);
    }
  }

  /** A face is seen and its eyes count as closed. */
  predicate EyesShut(f: Frame) {
    f.obs.Some? && EyesClosed(AverageEar(f.obs.value.leftEar, f.obs.value.rightEar))
  }

  /** Over consecutive closed-eye frames the eye onset stays at the first of
      them (or at the onset already held): the timer is not restarted. */
  lemma {:induction false} ShutRunKeepsOnset(s: State, frames: seq<Frame>, mode: ClockRule)
    requires |frames| > 0
    requires forall i :: 0 <= i < |frames| ==> EyesShut(frames[i])
    ensures Run(s, frames, mode).eyeCloseStart == Some(Onset(s.eyeCloseStart, frames[0].now))
    decreases |frames|
  {
    var r := frames[0].obs.value;
    var s1 := StepWith(s, frames[0].obs, frames[0].now, mode).state;
    EyeOnsetTick(s, r, frames[0].now, mode);
    if |frames| > 1 {
      ShutRunKeepsOnset(s1, frames[1..], mode);
      assert frames[1..][0] == frames[1];
    }
  }

  /** A face is seen, its eyes are open and it looks ahead: the driver is back
      to normal on both counts. */
  predicate Attentive(f: Frame) {
    f.obs.Some? &&
    !EyesClosed(AverageEar(f.obs.value.leftEar, f.obs.value.rightEar)) &&
    Classify(f.obs.value.noseX, f.obs.value.width) == Forward
  }

  lemma AttentiveTickAsWritten(s: State, f: Frame)
    requires Consistent(s) && Armed(s) && Attentive(f)
    ensures var o := Step(s, f.obs, f.now).state;
      o.eyeAlertOn == s.eyeAlertOn && o.lookAwayAlertOn == s.lookAwayAlertOn &&
      o.playing && o.plays == s.plays && o.normalStartTime == Some(f.now)
  {
    ReassignBlocksStop(s, f.obs, f.now);
    FlagsTick(s, f.obs, f.now, AsWritten);
    BannerTick(s, f.obs, f.now, AsWritten);
    StepConsistent(s, f.obs, f.now, AsWritten);
    PlaysTick(s, f.obs, f.now, AsWritten);
  }

  /** As written, an armed alert is never cleared however long the driver
      stays attentive: the buzzer keeps playing, whatever the clock reads. */
  lemma {:induction false} AttentiveNeverRecovers(s: State, frames: seq<Frame>)
    requires Consistent(s) && Armed(s)
    requires forall i :: 0 <= i < |frames| ==> Attentive(frames[i])
    ensures var t := Run(s, frames, AsWritten);
      t.eyeAlertOn == s.eyeAlertOn && t.lookAwayAlertOn == s.lookAwayAlertOn &&
      t.playing && t.plays == s.plays
    decreases |frames|
  {
    if |frames| > 0 {
      AttentiveTickAsWritten(s, frames[0]);
      var s1 := Step(s, frames[0].obs, frames[0].now).state;
      StepConsistent(s, frames[0].obs, frames[0].now, AsWritten);
      assert forall i :: 0 <= i < |frames[1..]| ==> frames[1..][i] == frames[i + 1];
      AttentiveNeverRecovers(s1, frames[1..]);
    }
  }

  /** A concrete run: the eye alert is armed, then the driver opens their eyes
      and looks ahead for ten seconds, and the buzzer is still playing. */
  lemma AttentiveNeverRecoversExample()
    ensures
      var armed := Initial.(eyeAlertOn := true, playing := true, plays := 1);
      var ahead := Some(Reading(0.3, 0.3, 320.0, 640));
      var frames := [Frame(ahead, 0), Frame(ahead, 30), Frame(ahead, 100)];
      Run(armed, frames, AsWritten).playing && Run(armed, frames, AsWritten).eyeAlertOn
  {
    var armed := Initial.(eyeAlertOn := true, playing := true, plays := 1);
    var ahead := Some(Reading(0.3, 0.3, 320.0, 640));
    var frames := [Frame(ahead, 0), Frame(ahead, 30), Frame(ahead, 100)];
    assert forall i :: 0 <= i < |frames| ==> Attentive(frames[i]);
    AttentiveNeverRecovers(armed, frames);
  }

  /** A face is seen and its eyes are open. */
  predicate EyesOpen(f: Frame) {
    f.obs.Some? && !EyesClosed(AverageEar(f.obs.value.leftEar, f.obs.value.rightEar))
  }

  /** As written, an eye alert is never cleared while the eyes are open, even
      when the driver looks away: line 104 restarts the clock on every such
      frame, whatever the direction. */
  lemma {:induction false} OpenEyesNeverRecover(s: State, frames: seq<Frame>)
    requires Consistent(s) && s.eyeAlertOn
    requires forall i :: 0 <= i < |frames| ==> EyesOpen(frames[i])
    ensures Run(s, frames, AsWritten).eyeAlertOn && Run(s, frames, AsWritten).playing
    ensures |frames| > 0 ==>
      Run(s, frames, AsWritten).normalStartTime == Some(frames[|frames| - 1].now)
    decreases |frames|
  {
    if |frames| > 0 {
      var f := frames[0];
      ReassignBlocksStop(s, f.obs, f.now);
      FlagsTick(s, f.obs, f.now, AsWritten);
      StepConsistent(s, f.obs, f.now, AsWritten);
      var s1 := Step(s, f.obs, f.now).state;
      assert forall i :: 0 <= i < |frames[1..]| ==> frames[1..][i] == frames[i + 1];
      OpenEyesNeverRecover(s1, frames[1..]);
    }
  }

  /** A concrete run: the eye alert is armed, then the driver opens their eyes
      and looks fully to the left for ten seconds, and the buzzer is still
      playing, with the clock restarted at the last frame. */
  lemma LookingAwayKeepsEyeAlertExample()
    ensures
      var armed := Initial.(eyeAlertOn := true, playing := true, plays := 1);
      var left := Some(Reading(0.3, 0.3, 0.0, 640));
      var frames := [Frame(left, 0), Frame(left, 30), Frame(left, 100)];
      var t := Run(armed, frames, AsWritten);
      t.playing && t.eyeAlertOn && t.normalStartTime == Some(100)
  {
    var armed := Initial.(eyeAlertOn := true, playing := true, plays := 1);
    var left := Some(Reading(0.3, 0.3, 0.0, 640));
    var frames := [Frame(left, 0), Frame(left, 30), Frame(left, 100)];
    assert forall i :: 0 <= i < |frames| ==> EyesOpen(frames[i]);
    OpenEyesNeverRecover(armed, frames);
  }

  /** A face is seen on which an armed alert's condition holds again. */
  predicate Retriggers(s: State, f: Frame) {
    f.obs.Some? &&
    ((s.eyeAlertOn && EyesClosed(AverageEar(f.obs.value.leftEar, f.obs.value.rightEar))) ||
     (s.lookAwayAlertOn && Classify(f.obs.value.noseX, f.obs.value.width) != Forward))
  }

  /** With the corrected clock, a frame on which an armed alert's condition
      is back never fires the stop: the pending stop is cancelled, whatever
      time has passed since the clock started. */
  lemma CorrectedRetriggerKeepsAlarm(s: State, f: Frame)
    requires Consistent(s) && Retriggers(s, f)
    ensures !StopDue(BranchWith(s, f.obs, f.now, OnClear).state, f.now)
    ensures var o := StepWith(s, f.obs, f.now, OnClear).state;
      o.playing && (s.eyeAlertOn ==> o.eyeAlertOn) && (s.lookAwayAlertOn ==> o.lookAwayAlertOn) &&
      o.normalStartTime == None
  {
    var r := f.obs.value;
    var ear := AverageEar(r.leftEar, r.rightEar);
    var e := EyePhase(s, ear, f.now, OnClear);
    EyePhasePlays(s, ear, f.now, OnClear);
    AwayPhasePlays(e.state, Classify(r.noseX, r.width), f.now, OnClear);
    StepConsistent(s, f.obs, f.now, OnClear);
    FlagsTick(s, f.obs, f.now, OnClear);
  }

  /** The corrected clock on a clear-then-return run: the eye alert is armed,
      the eyes open for a tenth of a second, then close again for two
      seconds; the buzzer is never stopped. */
  lemma CorrectedRetriggerExample()
    ensures
      var armed := Initial.(eyeAlertOn := true, playing := true, plays := 1);
      var open := Frame(Some(Reading(0.3, 0.3, 320.0, 640)), 0);
      var shut1 := Frame(Some(Reading(0.1, 0.1, 320.0, 640)), 10);
      var shut2 := Frame(Some(Reading(0.1, 0.1, 320.0, 640)), 20);
      var t := Run(armed, [open, shut1, shut2], OnClear);
      t.playing && t.eyeAlertOn
  {
    var armed := Initial.(eyeAlertOn := true, playing := true, plays := 1);
    var open := Frame(Some(Reading(0.3, 0.3, 320.0, 640)), 0);
    var shut1 := Frame(Some(Reading(0.1, 0.1, 320.0, 640)), 10);
    var shut2 := Frame(Some(Reading(0.1, 0.1, 320.0, 640)), 20);
    var s1 := StepWith(armed, open.obs, open.now, OnClear).state;
    StepConsistent(armed, open.obs, open.now, OnClear);
    FlagsTick(armed, open.obs, open.now, OnClear);
    assert s1.eyeAlertOn;
    CorrectedRetriggerKeepsAlarm(s1, shut1);
    var s2 := StepWith(s1, shut1.obs, shut1.now, OnClear).state;
    StepConsistent(s1, shut1.obs, shut1.now, OnClear);
    CorrectedRetriggerKeepsAlarm(s2, shut2);
    var s3 := StepWith(s2, shut2.obs, shut2.now, OnClear).state;
    assert [open, shut1, shut2][1..] == [shut1, shut2];
    assert [shut1, shut2][1..] == [shut2];
    assert Run(s3, [], OnClear) == s3;
    assert Run(s2, [shut2], OnClear) == s3;
    assert Run(s1, [shut1, shut2], OnClear) == s3;
  }

  /** With the corrected clock, an attentive frame less than two seconds
      after `tc` keeps the alert armed and the buzzer playing, provided the
      clock is stopped or was started no earlier than `tc`. */
  lemma CorrectedGraceTick(s: State, f: Frame, tc: int)
    requires Consistent(s) && Armed(s) && Attentive(f)
    requires s.normalStartTime.None? || s.normalStartTime.value >= tc
    requires tc <= f.now < tc + BuzzerStopDelay
    ensures var o := StepWith(s, f.obs, f.now, OnClear).state;
      Consistent(o) && Armed(o) && o.playing &&
      o.normalStartTime.Some? && o.normalStartTime.value >= tc
  {
    StepConsistent(s, f.obs, f.now, OnClear);
    FlagsTick(s, f.obs, f.now, OnClear);
  }

  /** The grace window: with the corrected clock, once the driver is back to
      normal at `tc` with no earlier clock running, the alert stays armed and
      the buzzer keeps playing on every attentive frame before `tc` + 2 s. */
  lemma {:induction false} CorrectedGraceRun(s: State, frames: seq<Frame>, tc: int)
    requires Consistent(s) && Armed(s)
    requires s.normalStartTime.None? || s.normalStartTime.value >= tc
    requires forall i :: 0 <= i < |frames| ==> Attentive(frames[i])
    requires forall i :: 0 <= i < |frames| ==> tc <= frames[i].now < tc + BuzzerStopDelay
    ensures var t := Run(s, frames, OnClear);
      Consistent(t) && Armed(t) && t.playing &&
      (t.normalStartTime.None? || t.normalStartTime.value >= tc)
    ensures |frames| > 0 ==> Run(s, frames, OnClear).normalStartTime.Some?
    decreases |frames|
  {
    if |frames| > 0 {
      CorrectedGraceTick(s, frames[0], tc);
      var s1 := StepWith(s, frames[0].obs, frames[0].now, OnClear).state;
      assert forall i :: 0 <= i < |frames[1..]| ==> frames[1..][i] == frames[i + 1];
      CorrectedGraceRun(s1, frames[1..], tc);
    }
  }

  /** The corrected clock on a concrete run: the eye alert is armed and the
      eyes are still closed at 0 s; the driver is back to normal from 1 s.
      The buzzer still plays at 2.9 s and is stopped at 3 s. */
  lemma CorrectedGraceExample()
    ensures
      var armed := Initial.(eyeAlertOn := true, playing := true, plays := 1);
      var shut := Frame(Some(Reading(0.1, 0.1, 320.0, 640)), 0);
      var open1 := Frame(Some(Reading(0.3, 0.3, 320.0, 640)), 10);
      var open2 := Frame(Some(Reading(0.3, 0.3, 320.0, 640)), 29);
      var open3 := Frame(Some(Reading(0.3, 0.3, 320.0, 640)), 30);
      Run(armed, [shut, open1, open2], OnClear).playing &&
      !Run(armed, [shut, open1, open2, open3], OnClear).playing
  {
    var armed := Initial.(eyeAlertOn := true, playing := true, plays := 1);
    var shut := Frame(Some(Reading(0.1, 0.1, 320.0, 640)), 0);
    var open1 := Frame(Some(Reading(0.3, 0.3, 320.0, 640)), 10);
    var open2 := Frame(Some(Reading(0.3, 0.3, 320.0, 640)), 29);
    var open3 := Frame(Some(Reading(0.3, 0.3, 320.0, 640)), 30);
    CorrectedRetriggerKeepsAlarm(armed, shut);
    StepConsistent(armed, shut.obs, shut.now, OnClear);
    var s1 := StepWith(armed, shut.obs, shut.now, OnClear).state;
    CorrectedGraceRun(s1, [open1, open2], 10);
    CorrectedRecovers(s1, [open1, open2, open3]);
    assert [shut, open1, open2][1..] == [open1, open2];
    assert [shut, open1, open2, open3][1..] == [open1, open2, open3];
  }

  /** With the corrected clock: either everything is clear, or the recovery
      clock is running and was started no later than `t0`. */
  predicate Recovering(s: State, t0: int) {
    Consistent(s) &&
    (!Armed(s) || (s.normalStartTime.Some? && s.normalStartTime.value <= t0))
  }

  lemma CorrectedAttentiveTick(s: State, f: Frame, t0: int)
    requires Recovering(s, t0) && Attentive(f)
    ensures var o := StepWith(s, f.obs, f.now, OnClear).state;
      Recovering(o, t0) && (f.now >= t0 + BuzzerStopDelay ==> !Armed(o) && !o.playing)
  {
    StepConsistent(s, f.obs, f.now, OnClear);
    FlagsTick(s, f.obs, f.now, OnClear);
    BannerTick(s, f.obs, f.now, OnClear);
  }

  lemma {:induction false} CorrectedAttentiveRun(s: State, frames: seq<Frame>, t0: int)
    requires Recovering(s, t0)
    requires forall i :: 0 <= i < |frames| ==> Attentive(frames[i])
    ensures Recovering(Run(s, frames, OnClear), t0)
    ensures |frames| > 0 && frames[|frames| - 1].now >= t0 + BuzzerStopDelay ==>
      !Armed(Run(s, frames, OnClear)) && !Run(s, frames, OnClear).playing
    decreases |frames|
  {
    if |frames| > 0 {
      CorrectedAttentiveTick(s, frames[0], t0);
      var s1 := StepWith(s, frames[0].obs, frames[0].now, OnClear).state;
      assert forall i :: 0 <= i < |frames[1..]| ==> frames[1..][i] == frames[i + 1];
      CorrectedAttentiveRun(s1, frames[1..], t0);
    }
  }

  /** With the corrected clock the buzzer does stop: once the driver is
      attentive from some frame on, every alert is cleared and the buzzer is
      silent by the first frame at least two seconds later. */
  lemma CorrectedRecovers(s: State, frames: seq<Frame>)
    requires Consistent(s) && |frames| > 0
    requires s.normalStartTime.Some? ==> s.normalStartTime.value <= frames[0].now
    requires forall i :: 0 <= i < |frames| ==> Attentive(frames[i])
    requires frames[|frames| - 1].now >= frames[0].now + BuzzerStopDelay
    ensures !Armed(Run(s, frames, OnClear)) && !Run(s, frames, OnClear).playing
  {
    var t0 := frames[0].now;
    var s1 := StepWith(s, frames[0].obs, t0, OnClear).state;
    StepConsistent(s, frames[0].obs, t0, OnClear);
    FlagsTick(s, frames[0].obs, t0, OnClear);
    BannerTick(s, frames[0].obs, t0, OnClear);
    assert Recovering(s1, t0);
    assert forall i :: 0 <= i < |frames[1..]| ==> frames[1..][i] == frames[i + 1];
    CorrectedAttentiveRun(s1, frames[1..], t0);
  }
}
