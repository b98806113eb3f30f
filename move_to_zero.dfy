/** `move_to_zero.py`: bring both arms to hardware zero slowly, by holding a
  * constant 0.0 target under reduced PD gains for 600 ticks.
  */
module MoveToZero {
  import opened Devices
  import ZeroRamp

  /** The aggressive lerobot gains the script's comment quotes as its reference. */
  function ReferenceKp(): seq<real>
  {
    [240.0, 240.0, 240.0, 240.0, 24.0, 31.0, 25.0, 25.0]
  }

  function ReferenceKd(): seq<real>
  {
    [5.0, 5.0, 3.0, 5.0, 0.3, 0.3, 0.3, 0.3]
  }

  /** Proportional gains, joints 1..7 then the gripper: each about a quarter
    * (between 24% and 26%) of the reference gain. */
  function KpValues(): (kp: seq<real>)
    ensures |kp| == 8 && |ReferenceKp()| == 8
    ensures forall i :: 0 <= i < 8 ==>
      0.0 <= kp[i] && 0.24 * ReferenceKp()[i] <= kp[i] <= 0.26 * ReferenceKp()[i]
  {
    [60.0, 60.0, 60.0, 60.0, 6.0, 8.0, 6.0, 6.0]
  }

  /** Derivative gains, joints 1..7 then the gripper: positive and never above the reference. */
  function KdValues(): (kd: seq<real>)
    ensures |kd| == 8 && |ReferenceKd()| == 8
    ensures forall i :: 0 <= i < 8 ==> 0.0 < kd[i] <= ReferenceKd()[i]
  {
    [2.0, 2.0, 1.5, 2.0, 0.2, 0.2, 0.2, 0.2]
  }

  /** `zero_params`: target 0.0, zero velocity and torque, with the gains of joint i. */
  function ZeroParams(kp: seq<real>, kd: seq<real>): (ps: seq<MitParam>)
    requires |kp| >= 7 && |kd| >= 7
    ensures |ps| == 7
    ensures forall i :: 0 <= i < 7 ==> ps[i].q == 0.0 && ps[i].dq == 0.0 && ps[i].tau == 0.0
    ensures forall i :: 0 <= i < 7 ==> ps[i].kp == kp[i] && ps[i].kd == kd[i]
  {
    seq(7, i requires 0 <= i < 7 => MitParam(kp[i], kd[i], 0.0, 0.0, 0.0))
  }

  /** `gripper_zero`: the same shape, with the gripper's gains at index 7. */
  function GripperZero(kp: seq<real>, kd: seq<real>): (ps: seq<MitParam>)
    requires |kp| >= 8 && |kd| >= 8
    ensures |ps| == 1 && ps[0].kp == kp[7] && ps[0].kd == kd[7]
    ensures ps[0].q == 0.0 && ps[0].dq == 0.0 && ps[0].tau == 0.0
  {
    [MitParam(kp[7], kd[7], 0.0, 0.0, 0.0)]
  }

  /** The "slow and smooth" preset: the tables above for 600 ticks. */
  function SlowProfile(): ZeroRamp.Profile
  {
    ZeroRamp.Profile(ZeroParams(KpValues(), KdValues()), GripperZero(KpValues(), KdValues()), 600)
  }

  /** Slot of a motor command's j-th param: the arm group's j-th joint, or the gripper (slot 7). */
  function Slot(g: Group, j: nat): nat
  {
    if g == ArmGroup then j else 7
  }

  /** The whole script. */
  method Run(dev: Log)
    modifies dev
    ensures dev.events == old(dev.events) + ZeroRamp.Trace(SlowProfile())
  {
    var zeroParams := ZeroParams(KpValues(), KdValues());
    var gripperZero := GripperZero(KpValues(), KdValues());
    ZeroRamp.Run(dev, ZeroRamp.Profile(zeroParams, gripperZero, 600));
  }

  /** Every motor command the script sends holds target 0.0 with zero velocity
    * and torque, and gives each motor its own gains from the tables: joint i
    * gets `kp_values[i]`, `kd_values[i]`, the gripper gets index 7. */
  lemma CommandsTargetZero()
    ensures var t := ZeroRamp.Trace(SlowProfile());
      forall i :: 0 <= i < |t| && t[i].MitControlAll? ==>
        && |t[i].params| == (if t[i].group == ArmGroup then 7 else 1)
        && forall j :: 0 <= j < |t[i].params| ==>
             t[i].params[j] == MitParam(KpValues()[Slot(t[i].group, j)], KdValues()[Slot(t[i].group, j)], 0.0, 0.0, 0.0)
  {
    ZeroRamp.CommandsUseProfile(SlowProfile());
  }

  /** The script runs exactly 600 ticks, four motor commands each, with both
    * arms enabled at every command and both disabled at the end. */
  lemma SixHundredTicks()
    ensures var t := ZeroRamp.Trace(SlowProfile());
      && ZeroRamp.CommandCount(t) == 2400
      && |t| == ZeroRamp.SetupLength + 6 * 600 + 4
      && (forall i :: 0 <= i < |t| && t[i].MitControlAll? ==> ZeroRamp.Enabled(t[..i], t[i].side))
      && !ZeroRamp.Enabled(t, Left) && !ZeroRamp.Enabled(t, Right)
  {
    ZeroRamp.CommandsPerTick(SlowProfile());
    ZeroRamp.TraceAt(SlowProfile(), 0);
    ZeroRamp.CommandsOnlyWhileEnabled(SlowProfile());
    ZeroRamp.EndsDisabled(SlowProfile());
  }
}
