/** `sync_calibration.py`: park both arms at hardware zero with the low-level
  * buses, disable and drain both arms, then let lerobot record the current pose
  * as its calibration, always disconnecting lerobot afterwards. The script never
  * closes its two `OpenArm` handles, so the model has no event for that.
  */
module SyncCalibration {
  import opened Devices
  import ZeroRamp

  /** The one param every motor gets: kp 10, kd 2, target 0.0. */
  function CalibrationParam(): (q: MitParam)
    ensures q.kp == 10.0 && q.kd == 2.0 && q.q == 0.0 && q.dq == 0.0 && q.tau == 0.0
  {
    MitParam(10.0, 2.0, 0.0, 0.0, 0.0)
  }

  /** The calibration preset: seven arm params and one gripper param, all the same, for 300 ticks. */
  function CalibrationProfile(): ZeroRamp.Profile
  {
    ZeroRamp.Profile(seq(7, _ => CalibrationParam()), [CalibrationParam()], 300)
  }

  /** The calls the script makes when `calibrate()` returns (`ok`) or raises (`!ok`). */
  function Trace(ok: bool): seq<Event>
  {
    ZeroRamp.Trace(CalibrationProfile())
    + [RobotConnect(FollowerConfig(), Some(false)), Calibrate(ok), Disconnect]
  }

  /** The whole script. A failing `calibrate()` is reported as `Fail(CalibrationFailed)`
    * only after `disconnect()` has run, as the `finally` clause does. */
  method Run(dev: Log) returns (outcome: Outcome)
    modifies dev
    ensures outcome == Pass || outcome == Fail(CalibrationFailed)
    ensures dev.events == old(dev.events) + Trace(outcome == Pass)
  {
    ghost var before := dev.events;
    ZeroRamp.Run(dev, CalibrationProfile());
    dev.Call(RobotConnect(FollowerConfig(), Some(false)));
    var ok := dev.RunCalibration();
    dev.Call(Disconnect);
    ghost var ramp := ZeroRamp.Trace(CalibrationProfile());
    ghost var connect, calibrate := RobotConnect(FollowerConfig(), Some(false)), Calibrate(ok);
    Assoc5(before, ramp, [connect], [calibrate], [Disconnect]);
    assert [connect] + [calibrate] + [Disconnect] == [connect, calibrate, Disconnect];
    if ok {
      outcome := Pass;
    } else {
      outcome := Fail(CalibrationFailed);
    }
  }

  /** Both arms are disabled and drained before lerobot connects: every bus call
    * precedes the connect, both arms are disabled at that point, the two 1000 ms
    * drains come right before it, and lerobot is asked not to calibrate on connect. */
  lemma BusesDisabledBeforeConnect(ok: bool)
    ensures var t := Trace(ok);
      var c := |t| - 3;
      && t[c] == RobotConnect(FollowerConfig(), Some(false))
      && (forall i :: 0 <= i < c ==> t[i].IsBusCall())
      && (forall i :: c <= i < |t| ==> !t[i].IsBusCall())
      && !ZeroRamp.Enabled(t[..c], Left) && !ZeroRamp.Enabled(t[..c], Right)
      && t[c - 2] == RecvAll(Right, Millis(1000)) && t[c - 1] == RecvAll(Left, Millis(1000))
  {
    ConnectAfterRamp(CalibrationProfile(), ok);
  }

  /** The same for a ramp of any profile followed by the lerobot calls. */
  lemma ConnectAfterRamp(p: ZeroRamp.Profile, ok: bool)
    ensures var t := ZeroRamp.Trace(p) + [RobotConnect(FollowerConfig(), Some(false)), Calibrate(ok), Disconnect];
      var c := |t| - 3;
      && t[c] == RobotConnect(FollowerConfig(), Some(false))
      && (forall i :: 0 <= i < c ==> t[i].IsBusCall())
      && (forall i :: c <= i < |t| ==> !t[i].IsBusCall())
      && !ZeroRamp.Enabled(t[..c], Left) && !ZeroRamp.Enabled(t[..c], Right)
      && t[c - 2] == RecvAll(Right, Millis(1000)) && t[c - 1] == RecvAll(Left, Millis(1000))
  {
    ZeroRamp.RampDisabledFirst(p, [RobotConnect(FollowerConfig(), Some(false)), Calibrate(ok), Disconnect]);
  }

  /** `disconnect()` runs exactly once, last, after `calibrate()`, whether
    * calibration returned or raised. */
  lemma DisconnectsOnce(ok: bool)
    ensures var t := Trace(ok);
      && t[|t| - 1] == Disconnect
      && t[|t| - 2] == Calibrate(ok)
      && forall i :: 0 <= i < |t| - 1 ==> t[i] != Disconnect
  {
    DisconnectLast(CalibrationProfile(), ok);
  }

  /** The same for a ramp of any profile followed by the lerobot calls. */
  lemma DisconnectLast(p: ZeroRamp.Profile, ok: bool)
    ensures var t := ZeroRamp.Trace(p) + [RobotConnect(FollowerConfig(), Some(false)), Calibrate(ok), Disconnect];
      && t[|t| - 1] == Disconnect
      && t[|t| - 2] == Calibrate(ok)
      && forall i :: 0 <= i < |t| - 1 ==> t[i] != Disconnect
  {
    ZeroRamp.OnlyBusCalls(p);
  }

  /** lerobot is bound to the same physical buses the ramp used: each side's
    * configured port is the port that side's bus was opened on. */
  lemma SamePortsAsRamp(ok: bool)
    ensures var t := Trace(ok);
      forall i :: 0 <= i < |t| && t[i].OpenBus? ==>
        && ConfigFor(FollowerConfig(), t[i].side).port == t[i].port
        && ConfigFor(FollowerConfig(), t[i].side).side == t[i].side
  {
    ZeroRamp.OnlyBusCalls(CalibrationProfile());
  }

  /** The ramp runs exactly 300 ticks of four motor commands each. */
  lemma ThreeHundredTicks(ok: bool)
    ensures ZeroRamp.CommandCount(Trace(ok)) == 1200
  {
    var tail := [RobotConnect(FollowerConfig(), Some(false)), Calibrate(ok), Disconnect];
    ZeroRamp.CommandsWithTail(CalibrationProfile(), tail);
  }

  /** Every motor command gives each of its motors kp 10, kd 2 and target 0.0,
    * the arm group seven of them and the gripper one. */
  lemma ConstantGains(ok: bool)
    ensures var t := Trace(ok);
      forall i :: 0 <= i < |t| && t[i].MitControlAll? ==>
        && |t[i].params| == (if t[i].group == ArmGroup then 7 else 1)
        && forall j :: 0 <= j < |t[i].params| ==> t[i].params[j] == MitParam(10.0, 2.0, 0.0, 0.0, 0.0)
  {
    var t := Trace(ok);
    var ramp := ZeroRamp.Trace(CalibrationProfile());
    ZeroRamp.CommandsUseProfile(CalibrationProfile());
    forall i | 0 <= i < |t| && t[i].MitControlAll?
      ensures |t[i].params| == (if t[i].group == ArmGroup then 7 else 1)
      ensures forall j :: 0 <= j < |t[i].params| ==> t[i].params[j] == MitParam(10.0, 2.0, 0.0, 0.0, 0.0)
    {
      assert i < |ramp| && t[i] == ramp[i];
    }
  }
}
