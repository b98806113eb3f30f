/** The hardware and foreign libraries the scripts talk to, seen from the scripts.
  * Two `openarm_can.OpenArm` buses (one per arm) and one lerobot bimanual robot
  * are abstracted to a single log of the calls made on them, in call order.
  * Keeping one shared log is what lets the model state ordering across arms
  * and across the hand-over from the low-level buses to the robot stack.
  */
module Devices {

  datatype Side = Left | Right

  /** The arm that is not `s` (`'left' if arm == 'right' else 'right'`). */
  function Other(s: Side): (o: Side)
    ensures o != s
  {
    if s == Right then Left else Right
  }

  /** The CAN interface each arm is wired to: can0 is the right arm, can1 the left.
    * Both the low-level buses and lerobot's configuration follow this wiring. */
  function PortOf(s: Side): string
  {
    if s == Right then "can0" else "can1"
  }

  /** The side as it is spelled in lerobot's observation and action keys. */
  function SideName(s: Side): string
  {
    if s == Left then "left" else "right"
  }

  function DigitChar(d: int): char
    requires 0 <= d <= 9
  {
    ('0' as int + d) as char
  }

  /** Name of motor slot `k` of one arm: slots 0..6 are `joint_1`..`joint_7`,
    * slot 7 is `gripper`. These are also the keys of a pose dictionary. */
  function MotorName(k: int): (name: string)
    requires 0 <= k < 8
    ensures |name| == 7
  {
    if k < 7 then "joint_" + [DigitChar(k + 1)] else "gripper"
  }

  /** An observation/action key: slot `slot` of arm `side`. */
  datatype PosKey = PosKey(side: Side, slot: int)

  /** How lerobot spells a key: `{side}_joint_{i}.pos` or `{side}_gripper.pos`. */
  function KeyName(key: PosKey): string
    requires 0 <= key.slot < 8
  {
    SideName(key.side) + "_" + MotorName(key.slot) + ".pos"
  }

  /** Reads the side back from a key's spelling. */
  function NameSide(name: string): Side
  {
    if |name| > 0 && name[0] == 'l' then Left else Right
  }

  /** Reads the slot back from a motor name. */
  function MotorSlot(name: string): int
  {
    if |name| < 7 || name[0] == 'g' then 7 else name[6] as int - '1' as int
  }

  /** Reads the slot back from a key's spelling. */
  function NameSlot(name: string): int
  {
    var n := if |name| > 0 && name[0] == 'l' then 5 else 6;
    if |name| < n then 7 else MotorSlot(name[n..])
  }

  lemma MotorNameDecodes(k: int)
    requires 0 <= k < 8
    ensures MotorSlot(MotorName(k)) == k
  {
  }

  lemma {:induction false} KeyNameDecodes(key: PosKey)
    requires 0 <= key.slot < 8
    ensures NameSide(KeyName(key)) == key.side && NameSlot(KeyName(key)) == key.slot
  {
    var name := KeyName(key);
    var n := |SideName(key.side)| + 1;
    assert name == (SideName(key.side) + "_") + (MotorName(key.slot) + ".pos");
    assert name[n..] == MotorName(key.slot) + ".pos";
    assert MotorSlot(name[n..]) == MotorSlot(MotorName(key.slot)) by {
      assert name[n..][0] == MotorName(key.slot)[0] && name[n..][6] == MotorName(key.slot)[6];
    }
    MotorNameDecodes(key.slot);
  }

  /** Distinct slots have distinct names, so a pose dictionary holds one entry per motor. */
  lemma MotorNamesDistinct()
    ensures forall k :: 0 <= k < 8 ==> MotorSlot(MotorName(k)) == k
  {
    forall k | 0 <= k < 8 ensures MotorSlot(MotorName(k)) == k {
      MotorNameDecodes(k);
    }
  }

  /** Distinct keys are spelled differently, so modelling a key by its side and
    * slot loses nothing of lerobot's string keys. */
  lemma KeyNamesDistinct(a: PosKey, b: PosKey)
    requires 0 <= a.slot < 8 && 0 <= b.slot < 8
    ensures KeyName(a) == KeyName(b) <==> a == b
  {
    KeyNameDecodes(a);
    KeyNameDecodes(b);
  }

  /** The eight position keys of one arm. */
  function ArmKeys(s: Side): set<PosKey>
  {
    set k | 0 <= k < 8 :: PosKey(s, k)
  }

  /** The sixteen position keys of both arms. */
  function AllKeys(): set<PosKey>
  {
    ArmKeys(Left) + ArmKeys(Right)
  }

  lemma {:induction false} DistinctCard<T>(xs: seq<T>)
    requires forall i, j :: 0 <= i < j < |xs| ==> xs[i] != xs[j]
    ensures |set x | x in xs| == |xs|
  {
    if xs != [] {
      var init := xs[..|xs| - 1];
      DistinctCard(init);
      assert (set x | x in xs) == (set x | x in init) + {xs[|xs| - 1]};
    }
  }

  lemma ArmKeysCard(s: Side)
    ensures |ArmKeys(s)| == 8
  {
    var ks := seq(8, k requires 0 <= k < 8 => PosKey(s, k));
    DistinctCard(ks);
    forall x | x in ArmKeys(s) ensures x in ks {
      assert ks[x.slot] == x;
    }
    assert ArmKeys(s) == set x | x in ks;
  }

  /** Every action the wave demo sends and every observation it relies on
    * has exactly these sixteen distinct keys. */
  lemma AllKeysCard()
    ensures |AllKeys()| == 16
  {
    ArmKeysCard(Left);
    ArmKeysCard(Right);
    assert ArmKeys(Left) * ArmKeys(Right) == {};
  }

  /** lerobot's `get_observation()` reports the position of every motor of both arms. */
  predicate HasArmPositions(obs: map<PosKey, real>)
  {
    forall s: Side, k :: 0 <= k < 8 ==> PosKey(s, k) in obs
  }

  datatype MotorType = DM8009 | DM4340 | DM4310

  datatype CallbackMode = Ignore | State

  /** `get_arm()` (the seven joint motors) or `get_gripper()` (the gripper motor). */
  datatype Group = ArmGroup | GripperGroup

  /** `MITParam(kp, kd, q, dq, tau)`: gains, target position, target velocity,
    * feed-forward torque. */
  datatype MitParam = MitParam(kp: real, kd: real, q: real, dq: real, tau: real)

  /** `recv_all()` with the library's default timeout, or `recv_all(ms)`. */
  datatype Timeout = DefaultTimeout | Millis(ms: nat)

  /** `OpenArmFollowerConfig(port=..., side=...)`. */
  datatype ArmConfig = ArmConfig(port: string, side: Side)

  /** `BiOpenArmFollowerConfig(left_arm_config=..., right_arm_config=...)`. */
  datatype RobotConfig = RobotConfig(leftArm: ArmConfig, rightArm: ArmConfig)

  function ConfigFor(c: RobotConfig, s: Side): ArmConfig
  {
    if s == Left then c.leftArm else c.rightArm
  }

  /** The configuration both lerobot scripts build: can1 is the left arm, can0
    * the right, the same wiring the low-level buses are opened with. */
  function FollowerConfig(): (c: RobotConfig)
    ensures forall s :: ConfigFor(c, s) == ArmConfig(PortOf(s), s)
  {
    RobotConfig(ArmConfig("can1", Left), ArmConfig("can0", Right))
  }

  /** One call made on a device, in the order the script makes it. */
  datatype Event =
    // openarm_can, one bus per arm
    | OpenBus(side: Side, port: string, canFd: bool)
    | InitArmMotors(side: Side, types: seq<MotorType>, sendIds: seq<int>, recvIds: seq<int>)
    | InitGripperMotor(side: Side, motorType: MotorType, sendId: int, recvId: int)
    | SetCallbackMode(side: Side, mode: CallbackMode)
    | EnableAll(side: Side)
    | DisableAll(side: Side)
    | MitControlAll(side: Side, group: Group, params: seq<MitParam>)
    | RecvAll(side: Side, timeout: Timeout)
    // lerobot bimanual robot; `calibrate` is None when connect() is called without it
    | RobotConnect(config: RobotConfig, calibrate: Option<bool>)
    | GetObservation(obs: map<PosKey, real>)
    | SendAction(action: map<PosKey, real>)
    | Calibrate(succeeded: bool)
    | Disconnect
  {
    /** A call on one of the low-level CAN buses. */
    predicate IsBusCall()
    {
      OpenBus? || InitArmMotors? || InitGripperMotor? || SetCallbackMode? ||
      EnableAll? || DisableAll? || MitControlAll? || RecvAll?
    }
  }

  datatype Option<T> = None | Some(value: T)

  /** Python exceptions the modelled code can raise: `ZeroDivisionError`, the
    * `ValueError` of `time.sleep` given a negative length, and whatever
    * `calibrate()` raises. */
  datatype Error = ZeroDivision | NegativeSleep | CalibrationFailed

  datatype Outcome = Pass | Fail(error: Error)

  /** The devices as a log of the calls made on them. */
  class Log {
    var events: seq<Event>

    constructor ()
      ensures events == []
    {
      events := [];
    }

    /** A call whose only visible effect is that it was made. */
    method Call(e: Event)
      modifies this
      ensures events == old(events) + [e]
    {
      events := events + [e];
    }

    /** `robot.get_observation()`: whatever the arms currently report. */
    method Observe() returns (obs: map<PosKey, real>)
      modifies this
      ensures HasArmPositions(obs)
      ensures events == old(events) + [GetObservation(obs)]
    {
      var zero := map s: Side, k | 0 <= k < 8 :: PosKey(s, k) := 0.0;
      assert HasArmPositions(zero);
      obs :| HasArmPositions(obs);
      events := events + [GetObservation(obs)];
    }

    /** `robot.calibrate()`: either returns or raises. */
    method RunCalibration() returns (ok: bool)
      modifies this
      ensures events == old(events) + [Calibrate(ok)]
    {
      ok := *;
      events := events + [Calibrate(ok)];
    }
  }

  /** Regrouping a log that grew by appends, so that what was appended reads as one piece. */
  lemma AppendAssoc<T>(a: seq<T>, b: seq<T>, c: seq<T>)
    ensures a + b + c == a + (b + c)
  {
  }

  lemma Assoc4<T>(a: seq<T>, b: seq<T>, c: seq<T>, d: seq<T>)
    ensures a + b + c + d == a + (b + c + d)
  {
  }

  lemma Assoc5<T>(a: seq<T>, b: seq<T>, c: seq<T>, d: seq<T>, e: seq<T>)
    ensures a + b + c + d + e == a + (b + c + d + e)
  {
  }
}
