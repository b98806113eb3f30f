/** The zero ramp that both low-level scripts run: open and configure both
  * arms' CAN buses, enable them, command every motor toward position 0.0 for a
  * fixed number of ticks, then disable both arms and drain their receive queues.
  * The two scripts differ only in the gains and the tick count, which a
  * `Profile` carries; everything else is this one sequence.
  */
module ZeroRamp {
  import opened Devices

  /** A gain preset: the params given to the seven arm motors and to the
    * gripper on every tick, and the number of ticks. */
  datatype Profile = Profile(arm: seq<MitParam>, gripper: seq<MitParam>, ticks: nat)

  function ArmMotorTypes(): seq<MotorType>
  {
    [DM8009, DM8009, DM4340, DM4340, DM4310, DM4310, DM4310]
  }

  /** Send ids of joints 1..7. */
  function SendIds(): (ids: seq<int>)
    ensures |ids| == 7 && forall i :: 0 <= i < 7 ==> ids[i] == i + 1
  {
    [0x01, 0x02, 0x03, 0x04, 0x05, 0x06, 0x07]
  }

  /** Receive ids of joints 1..7: each is its send id plus 0x10. */
  function RecvIds(): (ids: seq<int>)
    ensures |ids| == |SendIds()| && forall i :: 0 <= i < 7 ==> ids[i] == SendIds()[i] + 0x10
  {
    [0x11, 0x12, 0x13, 0x14, 0x15, 0x16, 0x17]
  }

  const GripperSendId := 0x08
  const GripperRecvId := 0x18

  /** `init_arm_motors` and `init_gripper_motor` on one arm; both arms use this same layout. */
  function MotorSetup(s: Side): seq<Event>
  {
    [InitArmMotors(s, ArmMotorTypes(), SendIds(), RecvIds()),
     InitGripperMotor(s, DM4310, GripperSendId, GripperRecvId)]
  }

  /** Everything before the tick loop. */
  function Setup(): seq<Event>
  {
    [OpenBus(Right, PortOf(Right), true), OpenBus(Left, PortOf(Left), true)]
    + MotorSetup(Right) + MotorSetup(Left)
    + [SetCallbackMode(Right, Ignore), SetCallbackMode(Left, Ignore),
       EnableAll(Right), EnableAll(Left),
       RecvAll(Right, DefaultTimeout), RecvAll(Left, DefaultTimeout),
       SetCallbackMode(Right, State), SetCallbackMode(Left, State)]
  }

  const SetupLength := 14

  /** One iteration of the tick loop: all four motor groups are commanded,
    * then both arms are read back. */
  function Tick(p: Profile): seq<Event>
  {
    [MitControlAll(Right, ArmGroup, p.arm), MitControlAll(Right, GripperGroup, p.gripper),
     MitControlAll(Left, ArmGroup, p.arm), MitControlAll(Left, GripperGroup, p.gripper),
     RecvAll(Right, DefaultTimeout), RecvAll(Left, DefaultTimeout)]
  }

  function Ticks(p: Profile, n: nat): seq<Event>
  {
    if n == 0 then [] else Ticks(p, n - 1) + Tick(p)
  }

  /** Everything after the tick loop: disable both arms, then drain both with a 1000 ms receive. */
  function Teardown(): seq<Event>
  {
    [DisableAll(Right), DisableAll(Left), RecvAll(Right, Millis(1000)), RecvAll(Left, Millis(1000))]
  }

  /** The calls the ramp makes, in order. */
  function Trace(p: Profile): seq<Event>
  {
    Setup() + Ticks(p, p.ticks) + Teardown()
  }

  /** Whether arm `s` is enabled after the calls `t`: the last enable or disable
    * of that arm decides, and a bus starts out disabled. */
  function Enabled(t: seq<Event>, s: Side): bool
  {
    if t == [] then false
    else if t[|t| - 1] == EnableAll(s) then true
    else if t[|t| - 1] == DisableAll(s) then false
    else Enabled(t[..|t| - 1], s)
  }

  function CommandCount(t: seq<Event>): nat
  {
    if t == [] then 0
    else CommandCount(t[..|t| - 1]) + (if t[|t| - 1].MitControlAll? then 1 else 0)
  }

  /** Open both buses, register their motors, enable them and switch them to
    * state reporting. */
  method OpenAndEnable(dev: Log)
    modifies dev
    ensures dev.events == old(dev.events) + Setup()
  {
    ghost var start := dev.events;
    OpenBuses(dev);
    SetUpMotors(dev, Right);
    SetUpMotors(dev, Left);
    EnableAndReport(dev);
    Assoc5(start, [OpenBus(Right, PortOf(Right), true), OpenBus(Left, PortOf(Left), true)],
           MotorSetup(Right), MotorSetup(Left), Setup()[6..]);
  }

  /** `OpenArm("can0", True)` and `OpenArm("can1", True)`. */
  method OpenBuses(dev: Log)
    modifies dev
    ensures dev.events == old(dev.events) + [OpenBus(Right, PortOf(Right), true), OpenBus(Left, PortOf(Left), true)]
  {
    dev.Call(OpenBus(Right, PortOf(Right), true));
    dev.Call(OpenBus(Left, PortOf(Left), true));
  }

  /** Ignore callbacks, enable both arms, drain the enable replies, then switch to state reporting. */
  method EnableAndReport(dev: Log)
    modifies dev
    ensures dev.events == old(dev.events) + Setup()[6..]
  {
    dev.Call(SetCallbackMode(Right, Ignore));
    dev.Call(SetCallbackMode(Left, Ignore));
    dev.Call(EnableAll(Right));
    dev.Call(EnableAll(Left));
    dev.Call(RecvAll(Right, DefaultTimeout));
    dev.Call(RecvAll(Left, DefaultTimeout));
    dev.Call(SetCallbackMode(Right, State));
    dev.Call(SetCallbackMode(Left, State));
  }

  /** `init_arm_motors` then `init_gripper_motor` on one arm. */
  method SetUpMotors(dev: Log, s: Side)
    modifies dev
    ensures dev.events == old(dev.events) + MotorSetup(s)
  {
    dev.Call(InitArmMotors(s, ArmMotorTypes(), SendIds(), RecvIds()));
    dev.Call(InitGripperMotor(s, DM4310, GripperSendId, GripperRecvId));
  }

  /** One pass of the tick loop body. */
  method CommandTick(dev: Log, p: Profile)
    modifies dev
    ensures dev.events == old(dev.events) + Tick(p)
  {
    dev.Call(MitControlAll(Right, ArmGroup, p.arm));
    dev.Call(MitControlAll(Right, GripperGroup, p.gripper));
    dev.Call(MitControlAll(Left, ArmGroup, p.arm));
    dev.Call(MitControlAll(Left, GripperGroup, p.gripper));
    dev.Call(RecvAll(Right, DefaultTimeout));
    dev.Call(RecvAll(Left, DefaultTimeout));
  }

  method DisableAndDrain(dev: Log)
    modifies dev
    ensures dev.events == old(dev.events) + Teardown()
  {
    dev.Call(DisableAll(Right));
    dev.Call(DisableAll(Left));
    dev.Call(RecvAll(Right, Millis(1000)));
    dev.Call(RecvAll(Left, Millis(1000)));
  }

  method Run(dev: Log, p: Profile)
    modifies dev
    ensures dev.events == old(dev.events) + Trace(p)
  {
    OpenAndEnable(dev);
    for step := 0 to p.ticks
      invariant dev.events == old(dev.events) + Setup() + Ticks(p, step)
    {
      CommandTick(dev, p);
    }
    DisableAndDrain(dev);
  }

  /** The tick region is the tick pattern repeated `n` times. */
  lemma {:induction false} TicksAt(p: Profile, n: nat)
    ensures |Ticks(p, n)| == 6 * n
    ensures forall i :: 0 <= i < 6 * n ==> Ticks(p, n)[i] == Tick(p)[i % 6]
  {
    if n > 0 {
      TicksAt(p, n - 1);
      var prev := Ticks(p, n - 1);
      forall i | 0 <= i < 6 * n ensures Ticks(p, n)[i] == Tick(p)[i % 6] {
        if i >= 6 * (n - 1) {
          assert Ticks(p, n)[i] == Tick(p)[i - 6 * (n - 1)];
        } else {
          assert Ticks(p, n)[i] == prev[i];
        }
      }
    }
  }

  /** Where each call of the ramp sits: setup, then `p.ticks` copies of the
    * tick pattern (the four commands of a tick before its two receives), then teardown. */
  lemma TraceAt(p: Profile, i: int)
    requires 0 <= i < |Trace(p)|
    ensures |Trace(p)| == SetupLength + 6 * p.ticks + 4
    ensures Trace(p)[i] ==
      if i < SetupLength then Setup()[i]
      else if i < SetupLength + 6 * p.ticks then Tick(p)[(i - SetupLength) % 6]
      else Teardown()[i - SetupLength - 6 * p.ticks]
  {
    TicksAt(p, p.ticks);
    if SetupLength <= i < SetupLength + 6 * p.ticks {
      assert Trace(p)[i] == Ticks(p, p.ticks)[i - SetupLength];
    }
  }

  /** Calls that neither enable nor disable arm `s` leave its state alone. */
  lemma {:induction false} EnabledUnaffected(a: seq<Event>, b: seq<Event>, s: Side)
    requires forall i :: 0 <= i < |b| ==> b[i] != EnableAll(s) && b[i] != DisableAll(s)
    ensures Enabled(a + b, s) == Enabled(a, s)
  {
    if b != [] {
      var b' := b[..|b| - 1];
      assert (a + b)[..|a + b| - 1] == a + b';
      assert (a + b)[|a + b| - 1] == b[|b| - 1];
      EnabledUnaffected(a, b', s);
    } else {
      assert a + b == a;
    }
  }

  lemma SetupEnablesBoth(s: Side)
    ensures Enabled(Setup(), s)
  {
    var su := Setup();
    var tail := su[10..];
    assert su == su[..10] + tail;
    forall j | 0 <= j < |tail| ensures tail[j] != EnableAll(s) && tail[j] != DisableAll(s) {
      assert tail[j] == su[10 + j];
    }
    EnabledUnaffected(su[..10], tail, s);
    assert su[..10][..9] == su[..9];
  }

  /** The tick loop never enables or disables an arm. */
  lemma TicksNoToggle(p: Profile, n: nat, s: Side)
    ensures forall j :: 0 <= j < |Ticks(p, n)| ==> Ticks(p, n)[j] != EnableAll(s) && Ticks(p, n)[j] != DisableAll(s)
  {
    TicksAt(p, n);
  }

  /** The calls before a motor command are the setup followed by part of the tick loop. */
  lemma CommandEnabled(p: Profile, i: int)
    requires 0 <= i < |Trace(p)| && Trace(p)[i].MitControlAll?
    ensures Enabled(Trace(p)[..i], Trace(p)[i].side)
  {
    var t := Trace(p);
    var s := t[i].side;
    TraceAt(p, i);
    assert SetupLength <= i < SetupLength + 6 * p.ticks;
    var ticks := Ticks(p, p.ticks);
    var mid := ticks[..i - SetupLength];
    assert t[..i] == Setup() + mid;
    TicksNoToggle(p, p.ticks, s);
    assert forall j :: 0 <= j < |mid| ==> mid[j] == ticks[j];
    EnabledUnaffected(Setup(), mid, s);
    SetupEnablesBoth(s);
  }

  /** Every motor command of the ramp goes to an arm that is enabled at that moment:
    * both arms are enabled before the first `mit_control_all`. */
  lemma CommandsOnlyWhileEnabled(p: Profile)
    ensures var t := Trace(p);
      forall i :: 0 <= i < |t| && t[i].MitControlAll? ==> Enabled(t[..i], t[i].side)
  {
    forall i | 0 <= i < |Trace(p)| && Trace(p)[i].MitControlAll? ensures Enabled(Trace(p)[..i], Trace(p)[i].side) {
      CommandEnabled(p, i);
    }
  }

  /** The ramp ends with both arms disabled, and no motor command follows any disable. */
  lemma EndsDisabled(p: Profile)
    ensures var t := Trace(p);
      && !Enabled(t, Left) && !Enabled(t, Right)
      && forall i, j :: 0 <= i < j < |t| && t[i].DisableAll? ==> !t[j].MitControlAll?
  {
    var t := Trace(p);
    var body := Setup() + Ticks(p, p.ticks);
    var disabled := body + [DisableAll(Right), DisableAll(Left)];
    assert t == disabled + [RecvAll(Right, Millis(1000)), RecvAll(Left, Millis(1000))];
    EnabledUnaffected(disabled, [RecvAll(Right, Millis(1000)), RecvAll(Left, Millis(1000))], Left);
    EnabledUnaffected(disabled, [RecvAll(Right, Millis(1000)), RecvAll(Left, Millis(1000))], Right);
    assert disabled[..|disabled| - 1] == body + [DisableAll(Right)];
    forall i, j | 0 <= i < j < |t| && t[i].DisableAll? ensures !t[j].MitControlAll? {
      NoCommandAfterDisable(p, i, j);
    }
  }

  /** A disable is in the teardown, and the teardown holds no motor command. */
  lemma NoCommandAfterDisable(p: Profile, i: int, j: int)
    requires 0 <= i < j < |Trace(p)| && Trace(p)[i].DisableAll?
    ensures !Trace(p)[j].MitControlAll?
  {
    TraceAt(p, i);
    TraceAt(p, j);
  }

  lemma {:induction false} CommandCountAppend(a: seq<Event>, b: seq<Event>)
    ensures CommandCount(a + b) == CommandCount(a) + CommandCount(b)
  {
    if b != [] {
      var b' := b[..|b| - 1];
      assert (a + b)[..|a + b| - 1] == a + b';
      assert (a + b)[|a + b| - 1] == b[|b| - 1];
      CommandCountAppend(a, b');
    } else {
      assert a + b == a;
    }
  }

  /** A stretch of calls without motor commands counts none. */
  lemma {:induction false} NoCommands(t: seq<Event>)
    requires forall i :: 0 <= i < |t| ==> !t[i].MitControlAll?
    ensures CommandCount(t) == 0
  {
    if t != [] {
      NoCommands(t[..|t| - 1]);
    }
  }

  /** A stretch made only of motor commands counts each of them. */
  lemma {:induction false} OnlyCommands(t: seq<Event>)
    requires forall i :: 0 <= i < |t| ==> t[i].MitControlAll?
    ensures CommandCount(t) == |t|
  {
    if t != [] {
      OnlyCommands(t[..|t| - 1]);
    }
  }

  lemma {:induction false} TicksCommandCount(p: Profile, n: nat)
    ensures CommandCount(Ticks(p, n)) == 4 * n
  {
    if n > 0 {
      TicksCommandCount(p, n - 1);
      CommandCountAppend(Ticks(p, n - 1), Tick(p));
      var tk := Tick(p);
      assert tk == tk[..4] + tk[4..];
      CommandCountAppend(tk[..4], tk[4..]);
      NoCommands(tk[4..]);
      OnlyCommands(tk[..4]);
    }
  }

  /** The ramp issues exactly four motor commands per tick and no others. */
  lemma CommandsPerTick(p: Profile)
    ensures CommandCount(Trace(p)) == 4 * p.ticks
  {
    CommandCountAppend(Setup() + Ticks(p, p.ticks), Teardown());
    CommandCountAppend(Setup(), Ticks(p, p.ticks));
    TicksCommandCount(p, p.ticks);
    NoCommands(Setup());
    NoCommands(Teardown());
  }

  /** Whatever follows the ramp, the ramp's calls come first, all on the buses,
    * ending with both arms disabled and the two 1000 ms drains. (The buses are
    * never closed: the script keeps its `OpenArm` handles.) */
  lemma RampDisabledFirst(p: Profile, tail: seq<Event>)
    ensures var t := Trace(p) + tail; var c := |Trace(p)|;
      && c >= 2 && t[..c] == Trace(p)
      && (forall i :: 0 <= i < c ==> t[i].IsBusCall())
      && !Enabled(t[..c], Left) && !Enabled(t[..c], Right)
      && t[c - 2] == RecvAll(Right, Millis(1000)) && t[c - 1] == RecvAll(Left, Millis(1000))
  {
    var ramp := Trace(p);
    var t := ramp + tail;
    OnlyBusCalls(p);
    EndsDisabled(p);
    TraceAt(p, |ramp| - 1);
    TraceAt(p, |ramp| - 2);
    assert t[..|ramp|] == ramp;
    assert forall i :: 0 <= i < |ramp| ==> t[i] == ramp[i];
  }

  /** Calls made after the ramp that are not motor commands add none to its count. */
  lemma CommandsWithTail(p: Profile, tail: seq<Event>)
    requires forall i :: 0 <= i < |tail| ==> !tail[i].MitControlAll?
    ensures CommandCount(Trace(p) + tail) == 4 * p.ticks
  {
    CommandsPerTick(p);
    CommandCountAppend(Trace(p), tail);
    NoCommands(tail);
  }

  /** Every motor command of the ramp carries the profile's params: the arm
    * group its seven, the gripper its own, on every tick. */
  lemma CommandsUseProfile(p: Profile)
    ensures var t := Trace(p);
      forall i :: 0 <= i < |t| && t[i].MitControlAll? ==>
        t[i].params == (if t[i].group == ArmGroup then p.arm else p.gripper)
  {
    var t := Trace(p);
    forall i | 0 <= i < |t| && t[i].MitControlAll?
      ensures t[i].params == (if t[i].group == ArmGroup then p.arm else p.gripper)
    {
      TraceAt(p, i);
    }
  }

  /** The ramp only talks to the CAN buses, each bus is opened on its arm's port,
    * and both arms are given the same motor layout, the gripper on ids 0x08/0x18. */
  lemma OnlyBusCalls(p: Profile)
    ensures var t := Trace(p);
      && (forall i :: 0 <= i < |t| ==> t[i].IsBusCall())
      && (forall i :: 0 <= i < |t| && t[i].OpenBus? ==> t[i].port == PortOf(t[i].side))
      && (forall i :: 0 <= i < |t| && t[i].InitArmMotors? ==>
            t[i].types == ArmMotorTypes() && t[i].sendIds == SendIds() && t[i].recvIds == RecvIds())
      && (forall i :: 0 <= i < |t| && t[i].InitGripperMotor? ==>
            t[i].motorType == DM4310 && t[i].sendId == 0x08 && t[i].recvId == 0x18)
  {
    var t := Trace(p);
    forall i | 0 <= i < |t|
      ensures t[i].IsBusCall()
      ensures t[i].OpenBus? ==> t[i].port == PortOf(t[i].side)
      ensures t[i].InitArmMotors? ==> t[i].types == ArmMotorTypes() && t[i].sendIds == SendIds() && t[i].recvIds == RecvIds()
      ensures t[i].InitGripperMotor? ==> t[i].motorType == DM4310 && t[i].sendId == 0x08 && t[i].recvId == 0x18
    {
      TraceAt(p, i);
    }
  }
}
