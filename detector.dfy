/** The `DistractionDetector` object (main.py:7-168): its fields change in
    place on every call of `detect`, modelled as `Tick`. The pygame mixer
    becomes the ghost fields `playing` and `plays`. */
module Detector {
  import opened Wrappers
  import opened Classifier
  import opened Distraction

  class DistractionDetector {
    var eyeCloseStart: Option<int>
    var lookAwayStart: Option<int>
    var lookDirection: string
    var normalStartTime: Option<int>
    var eyeAlertOn: bool
    var lookAwayAlertOn: bool
    ghost var playing: bool
    ghost var plays: nat

    /** The fields as a value of the state machine. */
    ghost function Model(): State
      reads this
    {
      State(eyeCloseStart, lookAwayStart, lookDirection, normalStartTime,
            eyeAlertOn, lookAwayAlertOn, playing, plays)
    }

    /** main.py:8-31. */
    constructor ()
      ensures Model() == Initial
    {
      eyeCloseStart, lookAwayStart := None, None;
      lookDirection := ForwardText;
      normalStartTime := None;
      eyeAlertOn, lookAwayAlertOn := false, false;
      playing, plays := false, 0;
    }

    /** `_play_buzzer` (main.py:33-36): load and loop the sound unless the
        mixer is busy. */
    method PlayBuzzer()
      modifies this`playing, this`plays
      ensures playing
      ensures plays == if old(playing) then old(plays) else old(plays) + 1
    {
      if !playing {
        playing, plays := true, plays + 1;
      }
    }

    /** `_stop_buzzer` (main.py:38-39). */
    method StopBuzzer()
      modifies this`playing
      ensures !playing
    {
      playing := false;
    }

    /** Eye closure (main.py:90-105). */
    method CheckEyes(ear: real, now: int) returns (timer: int, banner: bool)
      modifies this
      ensures Model() == EyePhase(old(Model()), ear, now, AsWritten).state
      ensures timer == EyePhase(old(Model()), ear, now, AsWritten).timer
      ensures banner == EyePhase(old(Model()), ear, now, AsWritten).banner
    {
      banner := false;
      if EyesClosed(ear) {
        if eyeCloseStart.None? {
          eyeCloseStart := Some(now);
        }
        timer := now - eyeCloseStart.value;
        if timer >= EyeClosedTime {
          banner := true;
          if !eyeAlertOn {
            PlayBuzzer();
            eyeAlertOn := true;
          }
        }
      } else {
        eyeCloseStart := None;
        timer := 0;
        if eyeAlertOn {
          normalStartTime := Some(now);
        }
      }
    }

    /** Looking away (main.py:107-131); `text` is the direction text. */
    method CheckDirection(d: Direction, now: int) returns (timer: int, banner: bool, text: string)
      modifies this
      ensures Model() == AwayPhase(old(Model()), d, now, AsWritten).state.(lookDirection := DirectionText(d))
      ensures timer == AwayPhase(old(Model()), d, now, AsWritten).timer
      ensures banner == AwayPhase(old(Model()), d, now, AsWritten).banner
      ensures text == DirectionText(d)
    {
      banner := false;
      text := DirectionText(d);
      if text != ForwardText {
        if lookAwayStart.None? {
          lookAwayStart := Some(now);
        }
        timer := now - lookAwayStart.value;
        if timer >= LookAwayTime {
          banner := true;
          if !lookAwayAlertOn {
            PlayBuzzer();
            lookAwayAlertOn := true;
          }
        }
      } else {
        lookAwayStart := None;
        timer := 0;
        if lookAwayAlertOn || eyeAlertOn {
          normalStartTime := Some(now);
        }
      }
      lookDirection := text;
    }

    /** No face detected (main.py:137-145). */
    method LoseFace(now: int)
      modifies this
      ensures Model() == NoFacePhase(old(Model()), now, AsWritten)
    {
      eyeCloseStart := None;
      lookAwayStart := None;
      if eyeAlertOn || lookAwayAlertOn {
        normalStartTime := Some(now);
      }
    }

    /** Stop the buzzer two seconds after the driver is back to normal
        (main.py:147-153). */
    method StopIfRecovered(now: int)
      modifies this
      ensures Model() == StopPhase(old(Model()), now)
    {
      if normalStartTime.Some? {
        if now - normalStartTime.value >= BuzzerStopDelay {
          StopBuzzer();
          eyeAlertOn := false;
          lookAwayAlertOn := false;
          normalStartTime := None;
        }
      }
    }

    /** One call of `detect` (main.py:48-163) on a frame whose main face gave
        `obs` (None when no face was found), with the clock reading `now`. */
    method Tick(obs: Option<Reading>, now: int) returns (display: Display)
      modifies this
      ensures Model() == Step(old(Model()), obs, now).state
      ensures display == Step(old(Model()), obs, now).display
      ensures Consistent(old(Model())) ==> Consistent(Model())
    {
      ghost var s := Model();
      if obs.Some? {
        var r := obs.value;
        var eyeTimer, eyeBanner := CheckEyes(AverageEar(r.leftEar, r.rightEar), now);
        var awayTimer, awayBanner, text := CheckDirection(Classify(r.noseX, r.width), now);
        display := Display(eyeTimer, awayTimer, text, eyeBanner, awayBanner);
      } else {
        LoseFace(now);
        display := Display(0, 0, NoFaceText, false, false);
      }
      assert Model() == Branch(s, obs, now).state;
      StopIfRecovered(now);
      if Consistent(s) {
        StepConsistent(s, obs, now, AsWritten);
      }
    }

    /** `cleanup` (main.py:165-168): the buzzer is stopped at the end of the
        session; the detector's fields are left as they are. */
    method Cleanup()
      modifies this`playing
      ensures !playing
    {
      StopBuzzer();
    }
  }
}
