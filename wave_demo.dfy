/** `openarm_wave_demo.py`: raise the right arm, wave it by swinging joint 6
  * back and forth, and lower it again, through lerobot's action interface.
  * Every motion is a `move_smooth` call that eases the active arm from one
  * pose to another while holding the other arm at the pose read once at the
  * start of that call.
  */
module WaveDemo {
  import opened Devices

  /** A pose dictionary, `{'joint_1': ..., ..., 'joint_7': ..., 'gripper': ...}`, in degrees. */
  type Pose = map<string, real>

  /** The keys `move_smooth` reads from a pose are all there. */
  predicate IsPose(p: Pose)
  {
    forall k :: 0 <= k < 8 ==> MotorName(k) in p
  }

  function RaisedPosition(): Pose
  {
    map["joint_1" := 13.34, "joint_2" := 84.02, "joint_3" := 62.29, "joint_4" := 90.57,
        "joint_5" := -78.25, "joint_6" := 0.00, "joint_7" := 0.00, "gripper" := 0.00]
  }

  function ZeroPosition(): Pose
  {
    map["joint_1" := 0.0, "joint_2" := 0.0, "joint_3" := 0.0, "joint_4" := 0.0,
        "joint_5" := 0.0, "joint_6" := 0.0, "joint_7" := 0.0, "gripper" := 0.0]
  }

  lemma NamedPosesArePoses()
    ensures IsPose(RaisedPosition()) && IsPose(ZeroPosition())
  {
    assert MotorName(0) == "joint_1" && MotorName(1) == "joint_2" && MotorName(2) == "joint_3";
    assert MotorName(3) == "joint_4" && MotorName(4) == "joint_5" && MotorName(5) == "joint_6";
    assert MotorName(6) == "joint_7";
  }

  /** The pose as the 8-vector `move_smooth` builds: joints 1..7, then the gripper. */
  function Vector(p: Pose): (v: seq<real>)
    requires IsPose(p)
    ensures |v| == 8 && forall k :: 0 <= k < 8 ==> v[k] == p[MotorName(k)]
  {
    seq(8, k requires 0 <= k < 8 => p[MotorName(k)])
  }

  /** The raised-cosine ease `0.5 - 0.5*cos(t*pi)`, through the facts the model
    * relies on: it starts at 0, ends at 1 and stays within [0, 1]. */
  ghost predicate IsEase(ease: real -> real)
  {
    && ease(0.0) == 0.0
    && ease(1.0) == 1.0
    && forall t :: 0.0 <= t <= 1.0 ==> 0.0 <= ease(t) <= 1.0
  }

  /** Python's `int(x)` on a float: truncation toward zero. */
  function Trunc(x: real): (n: int)
    ensures 0.0 <= x ==> 0 <= n && n as real <= x < n as real + 1.0
    ensures x < 0.0 ==> n <= 0 && n as real - 1.0 < x <= n as real
  {
    if x >= 0.0 then x.Floor else -((-x).Floor)
  }

  /** `num_steps = int(duration * fps)`. */
  function NumSteps(duration: real, fps: int): int
  {
    Trunc(duration * fps as real)
  }

  /** The point a fraction `s` of the way from `a` to `b`. */
  function Lerp(a: real, b: real, s: real): real
  {
    a + s * (b - a)
  }

  /** `start + smooth_t * (end - start)`, coordinate by coordinate. */
  function Interpolate(start: seq<real>, end: seq<real>, s: real): (pos: seq<real>)
    requires |start| == |end|
    ensures |pos| == |start|
    ensures forall k :: 0 <= k < |start| ==> pos[k] == Lerp(start[k], end[k], s)
  {
    seq(|start|, k requires 0 <= k < |start| => Lerp(start[k], end[k], s))
  }

  /** The idle arm's first `count` entries, copied from the observation `held`
    * into a fresh dictionary one key after the other. */
  function Copied(held: map<PosKey, real>, s: Side, count: nat): map<PosKey, real>
    requires HasArmPositions(held) && count <= 8
  {
    if count == 0 then map[]
    else Copied(held, s, count - 1)[PosKey(s, count - 1) := held[PosKey(s, count - 1)]]
  }

  /** `m` with the active arm's first `count` entries set to `pos`, one key after the other. */
  function Assigned(m: map<PosKey, real>, s: Side, pos: seq<real>, count: nat): map<PosKey, real>
    requires count <= |pos|
  {
    if count == 0 then m
    else Assigned(m, s, pos, count - 1)[PosKey(s, count - 1) := pos[count - 1]]
  }

  /** The action sent on one tick: the idle arm's eight keys copied from the held
    * observation, then the active arm's eight keys set to `pos`. */
  function TickAction(held: map<PosKey, real>, arm: Side, pos: seq<real>): map<PosKey, real>
    requires HasArmPositions(held) && |pos| == 8
  {
    Assigned(Copied(held, Other(arm), 8), arm, pos, 8)
  }

  /** The copied dictionary holds exactly the first `count` keys of side `s`,
    * each with its observed value. */
  lemma {:induction false} CopiedSpec(held: map<PosKey, real>, s: Side, count: nat)
    requires HasArmPositions(held) && count <= 8
    ensures forall key :: key in Copied(held, s, count) ==>
      key.side == s && 0 <= key.slot < count && Copied(held, s, count)[key] == held[key]
    ensures forall k :: 0 <= k < count ==> PosKey(s, k) in Copied(held, s, count)
  {
    if count > 0 {
      CopiedSpec(held, s, count - 1);
    }
  }

  /** Assigning side `s` sets its first `count` keys to `pos` and keeps every
    * entry of `m` that belongs to the other side. */
  lemma {:induction false} AssignedSpec(m: map<PosKey, real>, s: Side, pos: seq<real>, count: nat)
    requires count <= |pos|
    ensures forall key :: key in Assigned(m, s, pos, count) ==>
      key in m || (key.side == s && 0 <= key.slot < count)
    ensures forall key :: key in m && key.side != s ==>
      key in Assigned(m, s, pos, count) && Assigned(m, s, pos, count)[key] == m[key]
    ensures forall k :: 0 <= k < count ==>
      PosKey(s, k) in Assigned(m, s, pos, count) && Assigned(m, s, pos, count)[PosKey(s, k)] == pos[k]
  {
    if count > 0 {
      AssignedSpec(m, s, pos, count - 1);
    }
  }

  /** A tick's action holds exactly the sixteen keys, the idle arm's holding
    * what was observed and the active arm's holding `pos`, slot by slot. */
  lemma TickActionSpec(held: map<PosKey, real>, arm: Side, pos: seq<real>)
    requires HasArmPositions(held) && |pos| == 8
    ensures var action := TickAction(held, arm, pos);
      && action.Keys == AllKeys()
      && (forall k :: 0 <= k < 8 ==> action[PosKey(Other(arm), k)] == held[PosKey(Other(arm), k)])
      && (forall k :: 0 <= k < 8 ==> action[PosKey(arm, k)] == pos[k])
  {
    var idle := Copied(held, Other(arm), 8);
    var action := TickAction(held, arm, pos);
    CopiedSpec(held, Other(arm), 8);
    AssignedSpec(idle, arm, pos, 8);
    forall key | key in AllKeys() ensures key in action {
      if key.side != arm {
        assert key.side == Other(arm);
      }
    }
  }

  /** `t = step / num_steps`, the fraction of the move made at step `i`. */
  function Fraction(i: int, n: int): real
    requires n != 0
  {
    i as real / n as real
  }

  /** The action of step `i` of a move: the active arm at the eased point
    * `i / numSteps` of the way, the idle arm where `held` reports it. */
  function StepAction(held: map<PosKey, real>, arm: Side, start: seq<real>, end: seq<real>,
                      numSteps: int, ease: real -> real, i: int): Event
    requires HasArmPositions(held) && |start| == 8 && |end| == 8 && numSteps != 0
  {
    SendAction(TickAction(held, arm, Interpolate(start, end, ease(Fraction(i, numSteps)))))
  }

  /** The actions of the first `count` steps of a move. */
  function SmoothSteps(held: map<PosKey, real>, arm: Side, start: seq<real>, end: seq<real>,
                       numSteps: int, ease: real -> real, count: nat): (r: seq<Event>)
    requires HasArmPositions(held) && |start| == 8 && |end| == 8 && (count == 0 || numSteps != 0)
    ensures |r| == count
  {
    if count == 0 then []
    else SmoothSteps(held, arm, start, end, numSteps, ease, count - 1)
         + [StepAction(held, arm, start, end, numSteps, ease, count - 1)]
  }

  /** The actions one `move_smooth` call sends after its observation `held`:
    * one per step 0..numSteps, none when `numSteps` is below one. */
  function SmoothActions(held: map<PosKey, real>, arm: Side, start: seq<real>, end: seq<real>,
                         numSteps: int, ease: real -> real): (r: seq<Event>)
    requires HasArmPositions(held) && |start| == 8 && |end| == 8
    ensures |r| == if numSteps >= 1 then numSteps + 1 else 0
  {
    if numSteps < 1 then [] else SmoothSteps(held, arm, start, end, numSteps, ease, numSteps + 1)
  }

  /** Step `i` of the first `count` steps is `StepAction(..., i)`. */
  lemma {:induction false} SmoothStepsAt(held: map<PosKey, real>, arm: Side, start: seq<real>, end: seq<real>,
                                         numSteps: int, ease: real -> real, count: nat, i: int)
    requires HasArmPositions(held) && |start| == 8 && |end| == 8 && numSteps != 0
    requires 0 <= i < count
    ensures SmoothSteps(held, arm, start, end, numSteps, ease, count)[i]
         == StepAction(held, arm, start, end, numSteps, ease, i)
  {
    if i < count - 1 {
      SmoothStepsAt(held, arm, start, end, numSteps, ease, count - 1, i);
    }
  }

  /** "Keep other arm still": the idle arm's seven joints and gripper, copied
    * from the observation into a fresh dictionary. */
  method KeepStill(state: map<PosKey, real>, other: Side) returns (action: map<PosKey, real>)
    requires HasArmPositions(state)
    ensures action == Copied(state, other, 8)
  {
    action := map[];
    for i := 1 to 8
      invariant action == Copied(state, other, i - 1)
    {
      action := action[PosKey(other, i - 1) := state[PosKey(other, i - 1)]];
    }
    action := action[PosKey(other, 7) := state[PosKey(other, 7)]];
  }

  /** "Move active arm": the active arm's seven joints and gripper set to `pos`. */
  method MoveActive(idle: map<PosKey, real>, arm: Side, pos: seq<real>) returns (action: map<PosKey, real>)
    requires |pos| == 8
    ensures action == Assigned(idle, arm, pos, 8)
  {
    action := idle;
    for i := 0 to 7
      invariant action == Assigned(idle, arm, pos, i)
    {
      action := action[PosKey(arm, i) := pos[i]];
    }
    action := action[PosKey(arm, 7) := pos[7]];
  }

  /** One tick's action dictionary, filled key by key as `move_smooth` does. */
  method BuildAction(state: map<PosKey, real>, arm: Side, pos: seq<real>) returns (action: map<PosKey, real>)
    requires HasArmPositions(state) && |pos| == 8
    ensures action == TickAction(state, arm, pos)
  {
    var idle := KeepStill(state, Other(arm));
    action := MoveActive(idle, arm, pos);
  }

  /** Whether `move_smooth(..., duration, fps)` raises ZeroDivisionError: at
    * `1.0 / fps`, or at `step / num_steps` on step 0 when `num_steps` is 0. */
  predicate MoveFails(duration: real, fps: int)
  {
    fps == 0 || NumSteps(duration, fps) == 0
  }

  /** Whether `move_smooth` raises ValueError at `time.sleep(dt)` after its
    * first action: `dt = 1.0 / fps` is negative and the loop has steps. */
  predicate SleepFails(duration: real, fps: int)
  {
    fps < 0 && NumSteps(duration, fps) >= 1
  }

  /** The calls of a `move_smooth` call that reads `held`: the observation,
    * then its actions. */
  function MoveTrace(held: map<PosKey, real>, arm: Side, startPos: Pose, endPos: Pose, numSteps: int,
                     ease: real -> real): seq<Event>
    requires HasArmPositions(held) && IsPose(startPos) && IsPose(endPos)
  {
    [GetObservation(held)] + SmoothActions(held, arm, Vector(startPos), Vector(endPos), numSteps, ease)
  }

  /** `move_smooth`. The observation it reads is returned as the ghost `held`. */
  method MoveSmooth(dev: Log, arm: Side, startPos: Pose, endPos: Pose, duration: real, fps: int,
                    ease: real -> real)
    returns (outcome: Outcome, ghost held: map<PosKey, real>)
    requires IsPose(startPos) && IsPose(endPos)
    modifies dev
    ensures outcome == if MoveFails(duration, fps) then Fail(ZeroDivision)
                       else if SleepFails(duration, fps) then Fail(NegativeSleep)
                       else Pass
    ensures fps == 0 ==> dev.events == old(dev.events)
    ensures fps > 0 ==>
      && HasArmPositions(held)
      && dev.events == old(dev.events) + MoveTrace(held, arm, startPos, endPos, NumSteps(duration, fps), ease)
    ensures fps < 0 ==>
      && HasArmPositions(held)
      && dev.events == old(dev.events) + [GetObservation(held)]
           + SmoothSteps(held, arm, Vector(startPos), Vector(endPos), NumSteps(duration, fps), ease,
                         if SleepFails(duration, fps) then 1 else 0)
  {
    var numSteps := Trunc(duration * fps as real);
    if fps == 0 {
      return Fail(ZeroDivision), map[];
    }
    var dt := 1.0 / fps as real;
    ReciprocalSign(fps as real);
    var state := dev.Observe();
    held := state;
    var start := Vector(startPos);
    var end := Vector(endPos);
    outcome := SendSteps(dev, state, arm, start, end, numSteps, dt, ease);
    if fps > 0 {
      AppendAssoc(old(dev.events), [GetObservation(held)], SmoothActions(held, arm, start, end, numSteps, ease));
    } else {
      AppendAssoc(old(dev.events), [GetObservation(held)],
                  SmoothSteps(held, arm, start, end, numSteps, ease, if numSteps >= 1 then 1 else 0));
    }
  }

  /** `1.0 / x` has the sign of `x`. */
  lemma ReciprocalSign(x: real)
    requires x != 0.0
    ensures 1.0 / x < 0.0 <==> x < 0.0
  {
    var r := 1.0 / x;
    assert r * x == 1.0;
    if x < 0.0 && r >= 0.0 {
      MulNonneg(r, -x);
    } else if x > 0.0 && r < 0.0 {
      MulNonneg(-r, x);
    }
  }

  /** The `for step in range(num_steps + 1)` loop of `move_smooth`. Step 0
    * divides by `num_steps`, so the loop raises at once when it is 0; when it
    * is negative the loop sends nothing. A negative `dt` makes the sleep after
    * the first action raise. */
  method SendSteps(dev: Log, state: map<PosKey, real>, arm: Side, start: seq<real>, end: seq<real>,
                   numSteps: int, dt: real, ease: real -> real)
    returns (outcome: Outcome)
    requires HasArmPositions(state) && |start| == 8 && |end| == 8
    modifies dev
    ensures outcome == if numSteps == 0 then Fail(ZeroDivision)
                       else if numSteps >= 1 && dt < 0.0 then Fail(NegativeSleep)
                       else Pass
    ensures 0.0 <= dt ==> dev.events == old(dev.events) + SmoothActions(state, arm, start, end, numSteps, ease)
    ensures dt < 0.0 ==>
      dev.events == old(dev.events) + SmoothSteps(state, arm, start, end, numSteps, ease, if numSteps >= 1 then 1 else 0)
  {
    ghost var sent := dev.events;
    // `range(num_steps + 1)` is empty when the bound is negative
    var count := if numSteps + 1 < 0 then 0 else numSteps + 1;
    for step := 0 to count
      invariant step == 0 || numSteps != 0
      invariant dt < 0.0 ==> step == 0
      invariant dev.events == sent + SmoothSteps(state, arm, start, end, numSteps, ease, step)
    {
      if numSteps == 0 {
        return Fail(ZeroDivision);
      }
      SendStep(dev, state, arm, start, end, numSteps, ease, step, sent);
      // time.sleep(dt)
      if dt < 0.0 {
        return Fail(NegativeSleep);
      }
    }
    outcome := Pass;
  }


  /** One pass of the loop body: ease the fraction `step / num_steps`,
    * interpolate, build the action dictionary and send it as the next step's action. */
  method SendStep(dev: Log, state: map<PosKey, real>, arm: Side, start: seq<real>, end: seq<real>,
                  numSteps: int, ease: real -> real, step: nat, ghost sent: seq<Event>)
    requires HasArmPositions(state) && |start| == 8 && |end| == 8 && numSteps != 0
    requires dev.events == sent + SmoothSteps(state, arm, start, end, numSteps, ease, step)
    modifies dev
    ensures dev.events == sent + SmoothSteps(state, arm, start, end, numSteps, ease, step + 1)
  {
    var t := step as real / numSteps as real;
    var smoothT := ease(t);
    var pos := Interpolate(start, end, smoothT);
    var action := BuildAction(state, arm, pos);
    AppendAssoc(sent, SmoothSteps(state, arm, start, end, numSteps, ease, step), [SendAction(action)]);
    dev.Call(SendAction(action));
  }

  /** Every action of a move carries all sixteen keys; the idle arm's are the
    * values observed at the start of the move, and the active arm's are the
    * eased interpolation between `start` and `end`. */
  lemma SmoothActionAt(held: map<PosKey, real>, arm: Side, start: seq<real>, end: seq<real>,
                       numSteps: int, ease: real -> real, i: int)
    requires HasArmPositions(held) && |start| == 8 && |end| == 8
    requires 1 <= numSteps && 0 <= i <= numSteps
    ensures SmoothActions(held, arm, start, end, numSteps, ease)[i].SendAction?
    ensures var a := SmoothActions(held, arm, start, end, numSteps, ease)[i].action;
      && a.Keys == AllKeys()
      && (forall k :: 0 <= k < 8 ==> a[PosKey(Other(arm), k)] == held[PosKey(Other(arm), k)])
      && (forall k :: 0 <= k < 8 ==>
            a[PosKey(arm, k)] == Lerp(start[k], end[k], ease(Fraction(i, numSteps))))
  {
    SmoothStepsAt(held, arm, start, end, numSteps, ease, numSteps + 1, i);
    TickActionSpec(held, arm, Interpolate(start, end, ease(Fraction(i, numSteps))));
  }

  /** The first action puts the active arm at `start` and the last at `end`. */
  lemma SmoothEndpoints(held: map<PosKey, real>, arm: Side, start: seq<real>, end: seq<real>,
                        numSteps: int, ease: real -> real)
    requires HasArmPositions(held) && |start| == 8 && |end| == 8
    requires numSteps >= 1 && IsEase(ease)
    ensures var r := SmoothActions(held, arm, start, end, numSteps, ease);
      r[0].SendAction? && r[numSteps].SendAction? &&
      forall k :: 0 <= k < 8 ==>
        && PosKey(arm, k) in r[0].action && r[0].action[PosKey(arm, k)] == start[k]
        && PosKey(arm, k) in r[numSteps].action && r[numSteps].action[PosKey(arm, k)] == end[k]
  {
    SmoothActionAt(held, arm, start, end, numSteps, ease, 0);
    SmoothActionAt(held, arm, start, end, numSteps, ease, numSteps);
    FractionEnds(numSteps);
    forall k | 0 <= k < 8 ensures Lerp(start[k], end[k], 0.0) == start[k] && Lerp(start[k], end[k], 1.0) == end[k] {
      LerpEnds(start[k], end[k]);
    }
  }

  lemma FractionEnds(n: int)
    requires n != 0
    ensures Fraction(0, n) == 0.0 && Fraction(n, n) == 1.0
  {
    var x := n as real;
    assert x != 0.0;
    assert x / x == 1.0;
  }

  lemma LerpEnds(a: real, b: real)
    ensures Lerp(a, b, 0.0) == a && Lerp(a, b, 1.0) == b
  {
  }

  function Min(a: real, b: real): real { if a <= b then a else b }
  function Max(a: real, b: real): real { if a <= b then b else a }

  lemma MulNonneg(x: real, y: real)
    requires 0.0 <= x && 0.0 <= y
    ensures 0.0 <= x * y
  {
  }

  lemma MulPos(x: real, y: real)
    requires 0.0 < x && 0.0 < y
    ensures 0.0 < x * y
  {
  }

  lemma ScaledBelowOne(q: real, s: real, a: real)
    requires 0.0 < s && q * s == a
    ensures q * 60.0 < 1.0 <==> 60.0 * a < s
  {
    BelowOne(q * 60.0, s);
  }

  lemma BelowOne(x: real, c: real)
    requires 0.0 < c
    ensures x * c < c <==> x < 1.0
  {
    if x < 1.0 {
      MulPos(1.0 - x, c);
      assert (1.0 - x) * c == c - x * c;
    } else {
      MulNonneg(x - 1.0, c);
      assert (x - 1.0) * c == x * c - c;
    }
  }

  /** A point a fraction `s` in [0, 1] of the way from `a` to `b` lies between them. */
  lemma Between(a: real, b: real, s: real)
    requires 0.0 <= s <= 1.0
    ensures Min(a, b) <= Lerp(a, b, s) <= Max(a, b)
  {
    if a <= b {
      MulNonneg(s, b - a);
      MulNonneg(1.0 - s, b - a);
    } else {
      MulNonneg(s, a - b);
      MulNonneg(1.0 - s, a - b);
    }
  }

  /** Step `i` of `numSteps` lies in [0, 1]. */
  lemma FractionInUnit(i: int, n: int)
    requires 1 <= n && 0 <= i <= n
    ensures 0.0 <= Fraction(i, n) <= 1.0
  {
    var t := Fraction(i, n);
    MulNonneg(i as real, 1.0 / n as real);
    MulNonneg(n as real - i as real, 1.0 / n as real);
    assert t == i as real * (1.0 / n as real);
  }

  /** Action `i` puts coordinate `k` of the active arm between its start and end values. */
  lemma ActionWithinBounds(held: map<PosKey, real>, arm: Side, start: seq<real>, end: seq<real>,
                           numSteps: int, ease: real -> real, i: int, k: int)
    requires HasArmPositions(held) && |start| == 8 && |end| == 8 && IsEase(ease)
    requires 1 <= numSteps && 0 <= i <= numSteps && 0 <= k < 8
    ensures SmoothActions(held, arm, start, end, numSteps, ease)[i].SendAction?
    ensures var a := SmoothActions(held, arm, start, end, numSteps, ease)[i].action;
      PosKey(arm, k) in a && Min(start[k], end[k]) <= a[PosKey(arm, k)] <= Max(start[k], end[k])
  {
    SmoothActionAt(held, arm, start, end, numSteps, ease, i);
    AllKeysHas(arm, k);
    FractionInUnit(i, numSteps);
    Between(start[k], end[k], ease(Fraction(i, numSteps)));
  }

  lemma AllKeysHas(s: Side, k: int)
    requires 0 <= k < 8
    ensures PosKey(s, k) in AllKeys()
  {
    assert PosKey(s, k) in ArmKeys(s);
  }

  /** No action overshoots: every coordinate of the active arm stays between
    * its start and end values. */
  lemma SmoothWithinBounds(held: map<PosKey, real>, arm: Side, start: seq<real>, end: seq<real>,
                           numSteps: int, ease: real -> real)
    requires HasArmPositions(held) && |start| == 8 && |end| == 8 && IsEase(ease)
    ensures var r := SmoothActions(held, arm, start, end, numSteps, ease);
      forall i, k :: 0 <= i < |r| && 0 <= k < 8 ==>
        r[i].SendAction? && PosKey(arm, k) in r[i].action
        && Min(start[k], end[k]) <= r[i].action[PosKey(arm, k)] <= Max(start[k], end[k])
  {
    var r := SmoothActions(held, arm, start, end, numSteps, ease);
    forall i, k | 0 <= i < |r| && 0 <= k < 8
      ensures r[i].SendAction? && PosKey(arm, k) in r[i].action
      ensures Min(start[k], end[k]) <= r[i].action[PosKey(arm, k)] <= Max(start[k], end[k])
    {
      ActionWithinBounds(held, arm, start, end, numSteps, ease, i, k);
    }
  }

  /** `wave_left`: the base pose with joint 6 at `-wave_angle`. */
  function WaveLeft(base: Pose, angle: real): Pose
  {
    base["joint_6" := -angle]
  }

  /** `wave_right`: the base pose with joint 6 at `+wave_angle`. */
  function WaveRight(base: Pose, angle: real): Pose
  {
    base["joint_6" := angle]
  }

  /** The wave targets differ from the base pose in joint 6 only. */
  lemma WaveTargets(base: Pose, angle: real)
    requires IsPose(base)
    ensures IsPose(WaveLeft(base, angle)) && IsPose(WaveRight(base, angle))
    ensures Vector(WaveLeft(base, angle))[5] == -angle && Vector(WaveRight(base, angle))[5] == angle
    ensures forall k :: 0 <= k < 8 && k != 5 ==>
      Vector(WaveLeft(base, angle))[k] == Vector(base)[k] && Vector(WaveRight(base, angle))[k] == Vector(base)[k]
  {
    assert MotorName(5) == "joint_6";
    MotorNamesDistinct();
  }

  /** One `move_smooth` call: from one pose to another. */
  datatype Segment = Segment(from: Pose, to: Pose)

  predicate AllPoses(segs: seq<Segment>)
  {
    forall j :: 0 <= j < |segs| ==> IsPose(segs[j].from) && IsPose(segs[j].to)
  }

  /** The segments of the first `count` waves: each goes to `wave_left` (from
    * the base the first time, from `wave_right` after) and then to `wave_right`. */
  function Swings(base: Pose, angle: real, count: nat): seq<Segment>
  {
    if count == 0 then []
    else Swings(base, angle, count - 1)
         + [Segment(if count == 1 then base else WaveRight(base, angle), WaveLeft(base, angle)),
            Segment(WaveLeft(base, angle), WaveRight(base, angle))]
  }

  /** The segments `wave_j6` moves through, in order: the swings of every
    * wave, then from `wave_right` back to the base. */
  function WaveSegments(base: Pose, angle: real, numWaves: int): seq<Segment>
  {
    Swings(base, angle, if numWaves <= 0 then 0 else numWaves) + [Segment(WaveRight(base, angle), base)]
  }

  /** The wave targets keep every key of the base pose. */
  lemma WavePosesArePoses(base: Pose, angle: real)
    requires IsPose(base)
    ensures IsPose(WaveLeft(base, angle)) && IsPose(WaveRight(base, angle))
  {
  }

  /** The first `count` waves are `2 * count` segments between poses. */
  lemma {:induction false} SwingsArePoses(base: Pose, angle: real, count: nat)
    requires IsPose(base)
    ensures |Swings(base, angle, count)| == 2 * count && AllPoses(Swings(base, angle, count))
  {
    WavePosesArePoses(base, angle);
    if count > 0 {
      SwingsArePoses(base, angle, count - 1);
    }
  }

  /** Wave `j` of the first `count` is segments `2j` (to `wave_left`) and
    * `2j + 1` (to `wave_right`), all between poses. */
  lemma {:induction false} SwingsShape(base: Pose, angle: real, count: nat)
    requires IsPose(base)
    ensures |Swings(base, angle, count)| == 2 * count
    ensures AllPoses(Swings(base, angle, count))
    ensures forall j :: 0 <= j < count ==>
      && Swings(base, angle, count)[2 * j]
           == Segment(if j == 0 then base else WaveRight(base, angle), WaveLeft(base, angle))
      && Swings(base, angle, count)[2 * j + 1] == Segment(WaveLeft(base, angle), WaveRight(base, angle))
  {
    WaveTargets(base, angle);
    if count > 0 {
      SwingsShape(base, angle, count - 1);
    }
  }

  /** The wave is `2 * num_waves + 1` segments, each starting where the previous
    * one ended; it ends at the base, and starts there when there is at least
    * one wave. */
  lemma SegmentsChain(base: Pose, angle: real, numWaves: int)
    requires IsPose(base)
    ensures var segs := WaveSegments(base, angle, numWaves);
      && |segs| == (if numWaves <= 0 then 1 else 2 * numWaves + 1)
      && AllPoses(segs)
      && (forall j :: 0 <= j < |segs| - 1 ==> segs[j].to == segs[j + 1].from)
      && segs[|segs| - 1].to == base
      && (numWaves >= 1 ==> segs[0].from == base)
  {
    var count := if numWaves <= 0 then 0 else numWaves;
    var segs := WaveSegments(base, angle, numWaves);
    SwingsShape(base, angle, count);
    WaveTargets(base, angle);
    forall j | 0 <= j < |segs| - 1 ensures segs[j].to == segs[j + 1].from {
      var w := j / 2;
      if j % 2 == 0 {
        assert j == 2 * w && segs[j] == Swings(base, angle, count)[2 * w];
        assert segs[j + 1] == Swings(base, angle, count)[2 * w + 1];
      } else if j + 1 < 2 * count {
        assert j == 2 * w + 1 && segs[j] == Swings(base, angle, count)[2 * w + 1];
        assert segs[j + 1] == Swings(base, angle, count)[2 * (w + 1)];
      } else {
        assert segs[j] == Swings(base, angle, count)[2 * w + 1];
      }
    }
    if numWaves >= 1 {
      assert segs[0] == Swings(base, angle, count)[2 * 0];
    }
  }

  lemma WaveSegmentsArePoses(base: Pose, angle: real, numWaves: int)
    requires IsPose(base)
    ensures |WaveSegments(base, angle, numWaves)| == (if numWaves <= 0 then 1 else 2 * numWaves + 1)
    ensures AllPoses(WaveSegments(base, angle, numWaves))
  {
    SwingsArePoses(base, angle, if numWaves <= 0 then 0 else numWaves);
    WavePosesArePoses(base, angle);
  }

  predicate AllObservations(helds: seq<map<PosKey, real>>)
  {
    forall j :: 0 <= j < |helds| ==> HasArmPositions(helds[j])
  }

  /** The calls of consecutive `move_smooth` calls over `segs`, the j-th reading `helds[j]`. */
  function SegmentRuns(arm: Side, segs: seq<Segment>, helds: seq<map<PosKey, real>>, numSteps: int,
                       ease: real -> real): seq<Event>
    requires |segs| == |helds| && AllPoses(segs) && AllObservations(helds)
  {
    if segs == [] then []
    else SegmentRuns(arm, segs[..|segs| - 1], helds[..|helds| - 1], numSteps, ease)
         + MoveTrace(helds[|helds| - 1], arm, segs[|segs| - 1].from, segs[|segs| - 1].to, numSteps, ease)
  }

  lemma LengthStep(a: int, b: int, prev: int, last: int, total: int)
    requires prev == (a - 1) * b && last == b && total == prev + last
    ensures total == a * b
  {
  }

  /** Dropping the last segment and its observation keeps both well formed. */
  lemma RunsPrefix(segs: seq<Segment>, helds: seq<map<PosKey, real>>)
    requires |segs| == |helds| && AllPoses(segs) && AllObservations(helds) && segs != []
    ensures AllPoses(segs[..|segs| - 1]) && AllObservations(helds[..|helds| - 1])
    ensures IsPose(segs[|segs| - 1].from) && IsPose(segs[|segs| - 1].to) && HasArmPositions(helds[|helds| - 1])
  {
  }

  /** Each segment is one observation followed by `numSteps + 1` actions. */
  lemma {:induction false} SegmentRunsLength(arm: Side, segs: seq<Segment>, helds: seq<map<PosKey, real>>,
                                             numSteps: int, ease: real -> real)
    requires |segs| == |helds| && AllPoses(segs) && AllObservations(helds) && numSteps >= 1
    ensures |SegmentRuns(arm, segs, helds, numSteps, ease)| == |segs| * (numSteps + 2)
  {
    if segs != [] {
      var init, hinit := segs[..|segs| - 1], helds[..|helds| - 1];
      var seg, held := segs[|segs| - 1], helds[|helds| - 1];
      RunsPrefix(segs, helds);
      SegmentRunsLength(arm, init, hinit, numSteps, ease);
      var prev := SegmentRuns(arm, init, hinit, numSteps, ease);
      var last := MoveTrace(held, arm, seg.from, seg.to, numSteps, ease);
      assert |last| == numSteps + 2;
      LengthStep(|segs|, numSteps + 2, |prev|, |last|, |prev + last|);
    }
  }

  /** Calls that only read the robot's state or send it actions. */
  predicate OnlyMotion(t: seq<Event>)
  {
    forall i :: 0 <= i < |t| ==> t[i].GetObservation? || t[i].SendAction?
  }

  /** Segment runs only read observations and send actions. */
  lemma {:induction false} SegmentRunsOnlyMotion(arm: Side, segs: seq<Segment>, helds: seq<map<PosKey, real>>,
                                                 numSteps: int, ease: real -> real)
    requires |segs| == |helds| && AllPoses(segs) && AllObservations(helds)
    ensures OnlyMotion(SegmentRuns(arm, segs, helds, numSteps, ease))
  {
    if segs != [] {
      SegmentRunsOnlyMotion(arm, segs[..|segs| - 1], helds[..|helds| - 1], numSteps, ease);
      var prev := SegmentRuns(arm, segs[..|segs| - 1], helds[..|helds| - 1], numSteps, ease);
      var last := MoveTrace(helds[|helds| - 1], arm, segs[|segs| - 1].from, segs[|segs| - 1].to, numSteps, ease);
      MoveTraceOnlyMotion(helds[|helds| - 1], arm, segs[|segs| - 1].from, segs[|segs| - 1].to, numSteps, ease);
      OnlyMotionConcat(prev, last);
    }
  }

  /** The duration of every wave segment, `half_wave_duration = wave_angle / speed`;
    * the wave fails when it is a division by zero or when it gives zero steps at 60 fps. */
  predicate WaveFails(angle: real, speed: real)
  {
    speed == 0.0 || NumSteps(angle / speed, 60) == 0
  }

  /** How many observations `wave_j6` reads before it returns or raises. */
  function WaveObservations(angle: real, speed: real, numWaves: int): nat
  {
    if speed == 0.0 then 0
    else if NumSteps(angle / speed, 60) == 0 then 1
    else if numWaves <= 0 then 1
    else 2 * numWaves + 1
  }

  /** The calls `wave_j6` makes. All its segments share one duration, so either
    * the first `move_smooth` raises right after its observation, or none does. */
  function WaveTrace(base: Pose, angle: real, numWaves: int, speed: real,
                     helds: seq<map<PosKey, real>>, ease: real -> real): seq<Event>
    requires IsPose(base) && AllObservations(helds)
    requires |helds| == WaveObservations(angle, speed, numWaves)
  {
    if speed == 0.0 then []
    else if NumSteps(angle / speed, 60) == 0 then [GetObservation(helds[0])]
    else
      WaveSegmentsArePoses(base, angle, numWaves);
      SegmentRuns(Right, WaveSegments(base, angle, numWaves), helds, NumSteps(angle / speed, 60), ease)
  }

  /** Running one more segment appends its calls. */
  lemma SegmentRunsSnoc(arm: Side, segs: seq<Segment>, helds: seq<map<PosKey, real>>, seg: Segment,
                        held: map<PosKey, real>, numSteps: int, ease: real -> real)
    requires |segs| == |helds| && AllPoses(segs) && AllObservations(helds)
    requires IsPose(seg.from) && IsPose(seg.to) && HasArmPositions(held)
    ensures AllPoses(segs + [seg]) && AllObservations(helds + [held])
    ensures SegmentRuns(arm, segs + [seg], helds + [held], numSteps, ease)
         == SegmentRuns(arm, segs, helds, numSteps, ease) + MoveTrace(held, arm, seg.from, seg.to, numSteps, ease)
  {
    assert (segs + [seg])[..|segs|] == segs;
    assert (helds + [held])[..|helds|] == helds;
  }

  /** `events` is `start` followed by the runs of `segs` from the observations `helds`. */
  ghost predicate Runs(events: seq<Event>, start: seq<Event>, segs: seq<Segment>, helds: seq<map<PosKey, real>>,
                       numSteps: int, ease: real -> real)
  {
    && |segs| == |helds| && AllPoses(segs) && AllObservations(helds)
    && events == start + SegmentRuns(Right, segs, helds, numSteps, ease)
  }

  /** A `move_smooth` call of the wave that did not raise, recorded as the next segment. */
  lemma RecordMove(events: seq<Event>, before: seq<Event>, start: seq<Event>, segs: seq<Segment>,
                   helds: seq<map<PosKey, real>>, seg: Segment, held: map<PosKey, real>, numSteps: int,
                   ease: real -> real)
    requires Runs(before, start, segs, helds, numSteps, ease)
    requires IsPose(seg.from) && IsPose(seg.to) && HasArmPositions(held)
    requires events == before + MoveTrace(held, Right, seg.from, seg.to, numSteps, ease)
    ensures Runs(events, start, segs + [seg], helds + [held], numSteps, ease)
  {
    SegmentRunsSnoc(Right, segs, helds, seg, held, numSteps, ease);
    AppendAssoc(start, SegmentRuns(Right, segs, helds, numSteps, ease),
                MoveTrace(held, Right, seg.from, seg.to, numSteps, ease));
  }

  /** Both `move_smooth` calls of wave `i`, recorded as its two swings. */
  lemma RecordWave(events: seq<Event>, before: seq<Event>, start: seq<Event>, base: Pose, angle: real, i: nat,
                   helds: seq<map<PosKey, real>>, h1: map<PosKey, real>, h2: map<PosKey, real>,
                   numSteps: int, ease: real -> real)
    requires IsPose(base) && HasArmPositions(h1) && HasArmPositions(h2)
    requires Waved(before, start, base, angle, i, helds, numSteps, ease)
    requires events == before
                + MoveTrace(h1, Right, if i == 0 then base else WaveRight(base, angle), WaveLeft(base, angle), numSteps, ease)
                + MoveTrace(h2, Right, WaveLeft(base, angle), WaveRight(base, angle), numSteps, ease)
    ensures Waved(events, start, base, angle, i + 1, helds + [h1, h2], numSteps, ease)
  {
    WavePosesArePoses(base, angle);
    var segs := Swings(base, angle, i);
    var seg1 := Segment(if i == 0 then base else WaveRight(base, angle), WaveLeft(base, angle));
    var seg2 := Segment(WaveLeft(base, angle), WaveRight(base, angle));
    var mid := before + MoveTrace(h1, Right, seg1.from, seg1.to, numSteps, ease);
    RecordMove(mid, before, start, segs, helds, seg1, h1, numSteps, ease);
    RecordMove(events, mid, start, segs + [seg1], helds + [h1], seg2, h2, numSteps, ease);
    assert segs + [seg1] + [seg2] == Swings(base, angle, i + 1);
    assert helds + [h1] + [h2] == helds + [h1, h2];
  }

  /** One wave of `wave_j6`: to `wave_left` from `from`, then to `wave_right`.
    * Both moves last `duration`, so only the first can raise. */
  method WaveOnce(dev: Log, from: Pose, left: Pose, right: Pose, duration: real, ease: real -> real)
    returns (outcome: Outcome, ghost h1: map<PosKey, real>, ghost h2: map<PosKey, real>)
    requires IsPose(from) && IsPose(left) && IsPose(right)
    modifies dev
    ensures outcome == if MoveFails(duration, 60) then Fail(ZeroDivision) else Pass
    ensures HasArmPositions(h1) && HasArmPositions(h2)
    ensures outcome.Fail? ==> dev.events == old(dev.events) + [GetObservation(h1)]
    ensures outcome.Pass? ==>
              dev.events == old(dev.events)
                + MoveTrace(h1, Right, from, left, NumSteps(duration, 60), ease)
                + MoveTrace(h2, Right, left, right, NumSteps(duration, 60), ease)
  {
    // Wave left
    outcome, h1 := MoveSmooth(dev, Right, from, left, duration, 60, ease);
    h2 := h1;
    if outcome.Pass? {
      // Wave right
      outcome, h2 := MoveSmooth(dev, Right, left, right, duration, 60, ease);
    }
  }

  /** After the first `count` waves, `events` is `start` followed by their
    * swings, run from the observations `helds`. */
  ghost predicate Waved(events: seq<Event>, start: seq<Event>, base: Pose, angle: real, count: nat,
                        helds: seq<map<PosKey, real>>, numSteps: int, ease: real -> real)
  {
    Runs(events, start, Swings(base, angle, count), helds, numSteps, ease)
  }

  /** The `for i in range(num_waves)` loop of `wave_j6`: it raises on its
    * first move when a half-wave has no steps, and otherwise runs the swings
    * of every wave. */
  method WaveLoop(dev: Log, base: Pose, angle: real, waveLeft: Pose, waveRight: Pose, numWaves: int,
                  duration: real, ease: real -> real)
    returns (outcome: Outcome, ghost helds: seq<map<PosKey, real>>)
    requires IsPose(base) && waveLeft == WaveLeft(base, angle) && waveRight == WaveRight(base, angle)
    modifies dev
    ensures outcome == if numWaves >= 1 && MoveFails(duration, 60) then Fail(ZeroDivision) else Pass
    ensures outcome.Fail? ==>
      |helds| == 1 && AllObservations(helds) && dev.events == old(dev.events) + [GetObservation(helds[0])]
    ensures outcome.Pass? ==>
      Waved(dev.events, old(dev.events), base, angle, if numWaves <= 0 then 0 else numWaves,
            helds, NumSteps(duration, 60), ease)
  {
    helds := [];
    var i := 0;
    while i < numWaves
      invariant 0 <= i <= (if numWaves <= 0 then 0 else numWaves)
      invariant i > 0 ==> !MoveFails(duration, 60)
      invariant i == 0 ==> dev.events == old(dev.events)
      invariant Waved(dev.events, old(dev.events), base, angle, i, helds, NumSteps(duration, 60), ease)
    {
      var o, hs := WaveStep(dev, base, angle, waveLeft, waveRight, i, duration, ease, old(dev.events), helds);
      if o.Fail? {
        return o, hs;
      }
      helds := hs;
      i := i + 1;
    }
    outcome := Pass;
  }

  /** One pass of `wave_j6`'s loop, recorded as the next two swings of the wave. */
  method WaveStep(dev: Log, base: Pose, angle: real, waveLeft: Pose, waveRight: Pose, i: nat,
                  duration: real, ease: real -> real, ghost start: seq<Event>, ghost helds: seq<map<PosKey, real>>)
    returns (outcome: Outcome, ghost helds': seq<map<PosKey, real>>)
    requires IsPose(base) && waveLeft == WaveLeft(base, angle) && waveRight == WaveRight(base, angle)
    requires Waved(dev.events, start, base, angle, i, helds, NumSteps(duration, 60), ease)
    modifies dev
    ensures outcome == if MoveFails(duration, 60) then Fail(ZeroDivision) else Pass
    ensures outcome.Fail? ==>
      |helds'| == 1 && AllObservations(helds') && dev.events == old(dev.events) + [GetObservation(helds'[0])]
    ensures outcome.Pass? ==> Waved(dev.events, start, base, angle, i + 1, helds', NumSteps(duration, 60), ease)
  {
    WavePosesArePoses(base, angle);
    var from := if i == 0 then base else waveRight;
    var o, h1, h2 := WaveOnce(dev, from, waveLeft, waveRight, duration, ease);
    outcome := o;
    if o.Fail? {
      helds' := [h1];
      return;
    }
    RecordWave(dev.events, old(dev.events), start, base, angle, i, helds, h1, h2, NumSteps(duration, 60), ease);
    helds' := helds + [h1, h2];
  }

  /** `wave_j6` on the right arm at 60 fps. */
  method WaveJ6(dev: Log, base: Pose, angle: real, numWaves: int, speed: real, ease: real -> real)
    returns (outcome: Outcome, ghost helds: seq<map<PosKey, real>>)
    requires IsPose(base)
    modifies dev
    ensures outcome == if WaveFails(angle, speed) then Fail(ZeroDivision) else Pass
    ensures AllObservations(helds) && |helds| == WaveObservations(angle, speed, numWaves)
    ensures dev.events == old(dev.events) + WaveTrace(base, angle, numWaves, speed, helds, ease)
  {
    if speed == 0.0 {
      return Fail(ZeroDivision), [];
    }
    var halfWaveDuration := angle / speed;
    var waveLeft := base["joint_6" := -angle];
    var waveRight := base["joint_6" := angle];
    outcome, helds := WaveLoop(dev, base, angle, waveLeft, waveRight, numWaves, halfWaveDuration, ease);
    if outcome.Fail? {
      return;
    }
    ghost var count := if numWaves <= 0 then 0 else numWaves;
    var o3, h3 := ReturnToCenter(dev, base, angle, waveRight, count, halfWaveDuration, ease, old(dev.events), helds);
    outcome := o3;
    if o3.Fail? {
      helds := [h3];
    } else {
      helds := helds + [h3];
      SwingsArePoses(base, angle, count);
    }
  }

  /** The last move of `wave_j6`, from `wave_right` back to the base pose,
    * recorded as the segment after the swings of `count` waves. */
  method ReturnToCenter(dev: Log, base: Pose, angle: real, waveRight: Pose, ghost count: nat,
                        duration: real, ease: real -> real, ghost start: seq<Event>,
                        ghost helds: seq<map<PosKey, real>>)
    returns (outcome: Outcome, ghost held: map<PosKey, real>)
    requires IsPose(base) && waveRight == WaveRight(base, angle)
    requires Waved(dev.events, start, base, angle, count, helds, NumSteps(duration, 60), ease)
    modifies dev
    ensures outcome == if MoveFails(duration, 60) then Fail(ZeroDivision) else Pass
    ensures HasArmPositions(held)
    ensures outcome.Fail? ==> dev.events == old(dev.events) + [GetObservation(held)]
    ensures outcome.Pass? ==>
      Runs(dev.events, start, Swings(base, angle, count) + [Segment(waveRight, base)], helds + [held],
           NumSteps(duration, 60), ease)
  {
    WavePosesArePoses(base, angle);
    ghost var before := dev.events;
    outcome, held := MoveSmooth(dev, Right, waveRight, base, duration, 60, ease);
    if outcome.Pass? {
      RecordMove(dev.events, before, start, Swings(base, angle, count), helds, Segment(waveRight, base), held,
                 NumSteps(duration, 60), ease);
    }
  }

  /** At 60 fps a positive duration gives no steps exactly when it is under one tick. */
  lemma NoStepsUnderOneTick(duration: real)
    requires 0.0 < duration
    ensures NumSteps(duration, 60) == 0 <==> duration * 60.0 < 1.0
  {
    MulPos(duration, 60.0);
  }

  /** A half-wave is under one tick exactly when `60 * angle < speed`. */
  lemma HalfWaveUnderOneTick(angle: real, speed: real)
    requires 0.0 < angle && 0.0 < speed
    ensures 0.0 < angle / speed
    ensures angle / speed * 60.0 < 1.0 <==> 60.0 * angle < speed
  {
    var q := angle / speed;
    assert q * speed == angle;
    if q <= 0.0 {
      MulNonneg(-q, speed);
    }
    ScaledBelowOne(q, speed, angle);
  }

  /** With a positive angle and speed, the wave fails exactly when a half-wave
    * takes less than one 60 fps tick, that is when `60 * angle < speed`. */
  lemma WaveFailsExactly(angle: real, speed: real)
    requires 0.0 < angle && 0.0 < speed
    ensures WaveFails(angle, speed) <==> 60.0 * angle < speed
  {
    HalfWaveUnderOneTick(angle, speed);
    NoStepsUnderOneTick(angle / speed);
  }

  /** The `__main__` range checks: `None` when the arguments are accepted, else
    * the message `parser.error` exits with, the first failing check winning. */
  function CheckArgs(waves: int, angle: real, speed: real): (r: Option<string>)
    ensures r == None <==> 1 <= waves && 0.0 < angle <= 40.0 && 0.0 < speed <= 120.0
    ensures waves < 1 ==> r == Some("--waves must be at least 1")
  {
    if waves < 1 then Some("--waves must be at least 1")
    else if angle <= 0.0 || angle > 40.0 then Some("--angle must be between 0 and 40 degrees (J6 limit is ±40°)")
    else if speed <= 0.0 || speed > 120.0 then Some("--speed must be between 0 and 120 degrees/second")
    else None
  }

  /** The angle bound is closed at 40 and open at 0. */
  lemma AngleBoundary()
    ensures CheckArgs(1, 40.0, 30.0) == None && CheckArgs(1, 0.0001, 30.0) == None
    ensures CheckArgs(1, 0.0, 30.0) != None && CheckArgs(1, 40.0001, 30.0) != None
  {
  }

  /** The range checks admit arguments for which the demo raises: with angle 1
    * and speed 120 a half-wave lasts 1/120 s, `int(0.5)` is 0 steps, and the
    * first wave segment divides by zero. */
  lemma AcceptedArgumentsCanFail()
    ensures CheckArgs(1, 1.0, 120.0) == None && WaveFails(1.0, 120.0)
  {
    WaveFailsExactly(1.0, 120.0);
  }

  /** `current_pos`: the right arm's reported pose as a pose dictionary. */
  function CurrentPose(obs: map<PosKey, real>): (p: Pose)
    requires HasArmPositions(obs)
    ensures IsPose(p) && forall k :: 0 <= k < 8 ==> p[MotorName(k)] == obs[PosKey(Right, k)]
  {
    MotorNamesDistinct();
    map k | 0 <= k < 8 :: MotorName(k) := obs[PosKey(Right, k)]
  }

  /** The raise in `main`: from the reported pose to `RAISED_POSITION` over 3 s. */
  function RaiseTrace(obs: map<PosKey, real>, raiseHeld: map<PosKey, real>, ease: real -> real): seq<Event>
    requires HasArmPositions(obs) && HasArmPositions(raiseHeld)
  {
    NamedPosesArePoses();
    MoveTrace(raiseHeld, Right, CurrentPose(obs), RaisedPosition(), NumSteps(3.0, 60), ease)
  }

  /** The lowering in `main`: from `RAISED_POSITION` to `ZERO_POSITION` over 3 s,
    * reached only when the wave did not raise. */
  function LowerTrace(lowerHeld: map<PosKey, real>, angle: real, speed: real, ease: real -> real): seq<Event>
    requires HasArmPositions(lowerHeld)
  {
    NamedPosesArePoses();
    if WaveFails(angle, speed) then []
    else MoveTrace(lowerHeld, Right, RaisedPosition(), ZeroPosition(), NumSteps(3.0, 60), ease)
  }

  /** The calls of `main`'s `try` block, given what the robot reports: read the
    * right arm, raise it, wave, and lower it if the wave did not raise. */
  function DemoBody(obs: map<PosKey, real>, raiseHeld: map<PosKey, real>, waveHelds: seq<map<PosKey, real>>,
                    lowerHeld: map<PosKey, real>, numWaves: int, angle: real, speed: real,
                    ease: real -> real): seq<Event>
    requires HasArmPositions(obs) && HasArmPositions(raiseHeld) && HasArmPositions(lowerHeld)
    requires AllObservations(waveHelds) && |waveHelds| == WaveObservations(angle, speed, numWaves)
  {
    NamedPosesArePoses();
    [GetObservation(obs)]
    + RaiseTrace(obs, raiseHeld, ease)
    + WaveTrace(RaisedPosition(), angle, numWaves, speed, waveHelds, ease)
    + LowerTrace(lowerHeld, angle, speed, ease)
  }

  /** The calls `main` makes: connect, the `try` block, and `disconnect()` in
    * the `finally` clause whether or not the block raised. */
  function DemoTrace(obs: map<PosKey, real>, raiseHeld: map<PosKey, real>, waveHelds: seq<map<PosKey, real>>,
                     lowerHeld: map<PosKey, real>, numWaves: int, angle: real, speed: real,
                     ease: real -> real): seq<Event>
    requires HasArmPositions(obs) && HasArmPositions(raiseHeld) && HasArmPositions(lowerHeld)
    requires AllObservations(waveHelds) && |waveHelds| == WaveObservations(angle, speed, numWaves)
  {
    [RobotConnect(FollowerConfig(), None)]
    + DemoBody(obs, raiseHeld, waveHelds, lowerHeld, numWaves, angle, speed, ease)
    + [Disconnect]
  }

  /** The raise of `main`'s `try` block: read the right arm and move it to `RAISED_POSITION`. */
  method RaiseArm(dev: Log, ease: real -> real)
    returns (ghost obs: map<PosKey, real>, ghost raiseHeld: map<PosKey, real>)
    modifies dev
    ensures HasArmPositions(obs) && HasArmPositions(raiseHeld)
    ensures dev.events == old(dev.events) + [GetObservation(obs)] + RaiseTrace(obs, raiseHeld, ease)
  {
    NamedPosesArePoses();
    var state := dev.Observe();
    obs := state;
    var currentPos := CurrentPose(state);
    var o1, h1 := MoveSmooth(dev, Right, currentPos, RaisedPosition(), 3.0, 60, ease);
    ThreeSecondMoves();
    assert o1.Pass?;
    raiseHeld := h1;
  }

  /** The rest of `main`'s `try` block: wave, then lower the arm unless the wave raised. */
  method WaveAndLower(dev: Log, numWaves: int, angle: real, speed: real, ease: real -> real, ghost fallback: map<PosKey, real>)
    returns (outcome: Outcome, ghost waveHelds: seq<map<PosKey, real>>, ghost lowerHeld: map<PosKey, real>)
    requires HasArmPositions(fallback)
    modifies dev
    ensures outcome == if WaveFails(angle, speed) then Fail(ZeroDivision) else Pass
    ensures HasArmPositions(lowerHeld) && IsPose(RaisedPosition())
    ensures AllObservations(waveHelds) && |waveHelds| == WaveObservations(angle, speed, numWaves)
    ensures dev.events == old(dev.events) + WaveTrace(RaisedPosition(), angle, numWaves, speed, waveHelds, ease)
                                          + LowerTrace(lowerHeld, angle, speed, ease)
  {
    NamedPosesArePoses();
    outcome, waveHelds := WaveJ6(dev, RaisedPosition(), angle, numWaves, speed, ease);
    lowerHeld := fallback;
    if outcome.Pass? {
      var o3, h3 := MoveSmooth(dev, Right, RaisedPosition(), ZeroPosition(), 3.0, 60, ease);
      ThreeSecondMoves();
      assert o3.Pass?;
      lowerHeld := h3;
    }
  }

  /** `main`'s `try` block. The wave's ZeroDivisionError, if any, is its outcome. */
  method DemoTry(dev: Log, numWaves: int, angle: real, speed: real, ease: real -> real)
    returns (outcome: Outcome, ghost obs: map<PosKey, real>, ghost raiseHeld: map<PosKey, real>,
             ghost waveHelds: seq<map<PosKey, real>>, ghost lowerHeld: map<PosKey, real>)
    modifies dev
    ensures outcome == if WaveFails(angle, speed) then Fail(ZeroDivision) else Pass
    ensures HasArmPositions(obs) && HasArmPositions(raiseHeld) && HasArmPositions(lowerHeld)
    ensures AllObservations(waveHelds) && |waveHelds| == WaveObservations(angle, speed, numWaves)
    ensures dev.events == old(dev.events)
      + DemoBody(obs, raiseHeld, waveHelds, lowerHeld, numWaves, angle, speed, ease)
  {
    ghost var start := dev.events;
    obs, raiseHeld := RaiseArm(dev, ease);
    outcome, waveHelds, lowerHeld := WaveAndLower(dev, numWaves, angle, speed, ease, raiseHeld);
    Assoc5(start, [GetObservation(obs)], RaiseTrace(obs, raiseHeld, ease),
           WaveTrace(RaisedPosition(), angle, numWaves, speed, waveHelds, ease),
           LowerTrace(lowerHeld, angle, speed, ease));
  }

  /** `main`. The wave's ZeroDivisionError, if any, propagates after `disconnect()`. */
  method Demo(dev: Log, numWaves: int, angle: real, speed: real, ease: real -> real)
    returns (outcome: Outcome, ghost obs: map<PosKey, real>, ghost raiseHeld: map<PosKey, real>,
             ghost waveHelds: seq<map<PosKey, real>>, ghost lowerHeld: map<PosKey, real>)
    modifies dev
    ensures outcome == if WaveFails(angle, speed) then Fail(ZeroDivision) else Pass
    ensures HasArmPositions(obs) && HasArmPositions(raiseHeld) && HasArmPositions(lowerHeld)
    ensures AllObservations(waveHelds) && |waveHelds| == WaveObservations(angle, speed, numWaves)
    ensures dev.events == old(dev.events)
      + DemoTrace(obs, raiseHeld, waveHelds, lowerHeld, numWaves, angle, speed, ease)
  {
    ghost var start := dev.events;
    dev.Call(RobotConnect(FollowerConfig(), None));
    // try:
    outcome, obs, raiseHeld, waveHelds, lowerHeld := DemoTry(dev, numWaves, angle, speed, ease);
    // finally:
    dev.Call(Disconnect);
    Assoc4(start, [RobotConnect(FollowerConfig(), None)],
           DemoBody(obs, raiseHeld, waveHelds, lowerHeld, numWaves, angle, speed, ease), [Disconnect]);
  }

  lemma OnlyMotionConcat(a: seq<Event>, b: seq<Event>)
    requires OnlyMotion(a) && OnlyMotion(b)
    ensures OnlyMotion(a + b)
  {
    assert forall i :: |a| <= i < |a + b| ==> (a + b)[i] == b[i - |a|];
  }

  /** One `move_smooth` call only reads the robot and sends actions. */
  lemma MoveTraceOnlyMotion(held: map<PosKey, real>, arm: Side, startPos: Pose, endPos: Pose,
                            numSteps: int, ease: real -> real)
    requires HasArmPositions(held) && IsPose(startPos) && IsPose(endPos)
    ensures OnlyMotion(MoveTrace(held, arm, startPos, endPos, numSteps, ease))
  {
    var t := MoveTrace(held, arm, startPos, endPos, numSteps, ease);
    var actions := SmoothActions(held, arm, Vector(startPos), Vector(endPos), numSteps, ease);
    forall i | 0 <= i < |t| ensures t[i].GetObservation? || t[i].SendAction? {
      if i > 0 {
        assert t[i] == actions[i - 1];
        SmoothStepsAt(held, arm, Vector(startPos), Vector(endPos), numSteps, ease, numSteps + 1, i - 1);
      }
    }
  }

  /** `wave_j6` only reads the robot and sends actions. */
  lemma WaveTraceOnlyMotion(base: Pose, angle: real, numWaves: int, speed: real,
                            helds: seq<map<PosKey, real>>, ease: real -> real)
    requires IsPose(base) && AllObservations(helds)
    requires |helds| == WaveObservations(angle, speed, numWaves)
    ensures OnlyMotion(WaveTrace(base, angle, numWaves, speed, helds, ease))
  {
    if speed != 0.0 && NumSteps(angle / speed, 60) != 0 {
      WaveSegmentsArePoses(base, angle, numWaves);
      SegmentRunsOnlyMotion(Right, WaveSegments(base, angle, numWaves), helds, NumSteps(angle / speed, 60), ease);
    }
  }

  /** `main`'s `try` block only reads the robot and sends actions. */
  lemma DemoBodyOnlyMotion(obs: map<PosKey, real>, raiseHeld: map<PosKey, real>,
                           waveHelds: seq<map<PosKey, real>>, lowerHeld: map<PosKey, real>,
                           numWaves: int, angle: real, speed: real, ease: real -> real)
    requires HasArmPositions(obs) && HasArmPositions(raiseHeld) && HasArmPositions(lowerHeld)
    requires AllObservations(waveHelds) && |waveHelds| == WaveObservations(angle, speed, numWaves)
    ensures OnlyMotion(DemoBody(obs, raiseHeld, waveHelds, lowerHeld, numWaves, angle, speed, ease))
  {
    var raise := RaiseTrace(obs, raiseHeld, ease);
    var wave := WaveTrace(RaisedPosition(), angle, numWaves, speed, waveHelds, ease) by {
      NamedPosesArePoses();
    }
    var lower := LowerTrace(lowerHeld, angle, speed, ease);
    assert OnlyMotion(raise) by {
      NamedPosesArePoses();
      MoveTraceOnlyMotion(raiseHeld, Right, CurrentPose(obs), RaisedPosition(), NumSteps(3.0, 60), ease);
    }
    assert OnlyMotion(wave) by {
      NamedPosesArePoses();
      WaveTraceOnlyMotion(RaisedPosition(), angle, numWaves, speed, waveHelds, ease);
    }
    assert OnlyMotion(lower) by {
      NamedPosesArePoses();
      MoveTraceOnlyMotion(lowerHeld, Right, RaisedPosition(), ZeroPosition(), NumSteps(3.0, 60), ease);
    }
    OnlyMotionConcat([GetObservation(obs)], raise);
    OnlyMotionConcat([GetObservation(obs)] + raise, wave);
    OnlyMotionConcat([GetObservation(obs)] + raise + wave, lower);
  }

  /** Whatever the wave does, `main` connects first and disconnects exactly
    * once, last; everything between only reads the robot and sends actions. */
  lemma DemoDisconnectsOnce(obs: map<PosKey, real>, raiseHeld: map<PosKey, real>,
                            waveHelds: seq<map<PosKey, real>>, lowerHeld: map<PosKey, real>,
                            numWaves: int, angle: real, speed: real, ease: real -> real)
    requires HasArmPositions(obs) && HasArmPositions(raiseHeld) && HasArmPositions(lowerHeld)
    requires AllObservations(waveHelds) && |waveHelds| == WaveObservations(angle, speed, numWaves)
    ensures var t := DemoTrace(obs, raiseHeld, waveHelds, lowerHeld, numWaves, angle, speed, ease);
      && |t| >= 3
      && t[0] == RobotConnect(FollowerConfig(), None)
      && t[|t| - 1] == Disconnect
      && forall i :: 0 < i < |t| - 1 ==> t[i].GetObservation? || t[i].SendAction?
  {
    var body := DemoBody(obs, raiseHeld, waveHelds, lowerHeld, numWaves, angle, speed, ease);
    DemoBodyOnlyMotion(obs, raiseHeld, waveHelds, lowerHeld, numWaves, angle, speed, ease);
    assert |body| >= 1 && body[0].GetObservation?;
    var t := DemoTrace(obs, raiseHeld, waveHelds, lowerHeld, numWaves, angle, speed, ease);
    assert forall i :: 0 < i < |t| - 1 ==> t[i] == body[i - 1];
  }

  /** The raise and the return to zero each take `int(3.0 * 60)` = 180 steps, 181 actions. */
  lemma ThreeSecondMoves()
    ensures NumSteps(3.0, 60) == 180 && !MoveFails(3.0, 60) && !SleepFails(3.0, 60)
  {
  }

  /** With a negative rate the move has steps and divides by nothing, yet the
    * sleep after its first action raises: `move_smooth(..., duration=-1.0, fps=-60)`
    * computes 60 steps, sends one action, then sleeps for -1/60 s. */
  lemma NegativeRateRaisesOnSleep()
    ensures NumSteps(-1.0, -60) == 60 && !MoveFails(-1.0, -60) && SleepFails(-1.0, -60)
  {
  }

  /** With a negative rate, the move raises at its sleep exactly when
    * `duration * fps` is at least one, so that the loop has steps. */
  lemma SleepFailsExactly(duration: real, fps: int)
    requires fps < 0
    ensures SleepFails(duration, fps) <==> 1.0 <= duration * fps as real
  {
  }
}
