/** Motion instructions (Distance, Time, Left/Right rotations) and the command
    sequence each one's `action` issues to the two wheels: drive calls, stop
    calls and sleeps, computed from the wheels' wait-time conversion. */
module Motion {
  import opened Util
  import Motor

  /** WHEEL_SPAN: distance between the wheels, in meters. */
  const WheelSpan: real := 0.378

  datatype Side = LeftSide | RightSide

  /** The two servos: the arm and the grabber. */
  datatype ServoPart = ArmServo | GrabberServo

  /** One actuator command: a call on one wheel, `io.wait(seconds)`, or an
      angle written to a servo. */
  datatype Cmd = Drive(side: Side, op: Motor.WheelOp) | Sleep(seconds: real) | SetServo(part: ServoPart, angle: int)

  /** The state a wheel reaches from `st` through the calls on it in `cmds`. */
  function WheelAfter(st: Motor.WheelState, side: Side, cmds: seq<Cmd>): Motor.WheelState {
    if cmds == [] then st
    else
      var last := cmds[|cmds| - 1];
      var before := WheelAfter(st, side, cmds[..|cmds| - 1]);
      if last.Drive? && last.side == side then Motor.Apply(before, last.op) else before
  }

  /** Running two command sequences one after the other. */
  lemma {:induction false} WheelAppend(st: Motor.WheelState, side: Side, a: seq<Cmd>, b: seq<Cmd>)
    ensures WheelAfter(st, side, a + b) == WheelAfter(WheelAfter(st, side, a), side, b)
    decreases |b|
  {
    if b == [] {
      assert a + b == a;
    } else {
      WheelAppend(st, side, a, b[..|b| - 1]);
      assert (a + b)[..|a + b| - 1] == a + b[..|b| - 1];
    }
  }

  /** One more command: a call on this wheel is applied, anything else is not. */
  lemma WheelStep(st: Motor.WheelState, side: Side, cmds: seq<Cmd>, c: Cmd)
    ensures WheelAfter(st, side, cmds + [c]) ==
      (if c.Drive? && c.side == side then Motor.Apply(WheelAfter(st, side, cmds), c.op) else WheelAfter(st, side, cmds))
  {
    assert (cmds + [c])[..|cmds|] == cmds;
  }

  /** Commands for the other wheel, waits and servo writes leave a wheel as it is. */
  lemma {:induction false} WheelIgnoresOthers(st: Motor.WheelState, side: Side, cmds: seq<Cmd>)
    requires forall k :: 0 <= k < |cmds| ==> !(cmds[k].Drive? && cmds[k].side == side)
    ensures WheelAfter(st, side, cmds) == st
  {
    if cmds != [] {
      WheelIgnoresOthers(st, side, cmds[..|cmds| - 1]);
    }
  }

  /** The wheel method a rotation calls (`left_wheel_action` /
      `right_wheel_action`), or none. */
  datatype WheelAction = Fwd | Bwd | Idle

  /** The point a rotation pivots about; any pivot other than WHEEL behaves
      like CENTER. */
  datatype Pivot = Center | Wheel

  /** The two concrete rotation classes, and the bare base class. */
  datatype TurnKind = RightTurn | LeftTurn | BareRotation

  /** How long each wheel of a rotation runs: a Time measure's seconds for
      both, or each wheel's own calc_wait_time for a Speed measure. */
  datatype Timing = FixedTime(seconds: real) | WheelTimes

  /** What a rotation is measured by: `Speed(s)`, a `Time` instruction (only
      its seconds are read), or anything else. */
  datatype Measure = BySpeed(speed: real) | ByTime(seconds: real) | OtherMeasure

  /** An instruction object after its constructor ran. */
  datatype Instruction =
    | DistanceMove(meters: real, speed: real, reverse: bool, stop: bool)
    | TimeMove(seconds: real, timeSpeed: Option<real>, reverse: bool, stop: bool)
    | RotationMove(degree: real, dist: real, speed: real, leftAction: WheelAction,
                   rightAction: WheelAction, timing: Timing, stop: bool)

  // ---------------------------------------------------------------------
  // Constructors
  // ---------------------------------------------------------------------

  /** Distance(meters, speed, stop): the sign of `meters` becomes `reverse`. */
  function Distance(meters: real, speed: real, stop: bool := true): (r: Instruction)
    ensures r.DistanceMove? && r.meters == Abs(meters) && r.reverse == (meters < 0.0)
    ensures r.speed == speed && r.stop == stop
  {
    if meters < 0.0 then DistanceMove(-meters, speed, true, stop)
    else DistanceMove(meters, speed, false, stop)
  }

  /** Time(seconds, speed, stop): `reverse` is set iff a negative speed is
      given, and the speed is kept with its sign. */
  function Time(seconds: real, speed: Option<real>, stop: bool := true): (r: Instruction)
    ensures r.TimeMove? && r.seconds == seconds && r.timeSpeed == speed && r.stop == stop
    ensures r.reverse <==> speed.Some? && speed.value < 0.0
  {
    TimeMove(seconds, speed, speed.Some? && speed.value < 0.0, stop)
  }

  /** calc_dist: the arc each driving wheel travels for `degree` degrees. */
  function ArcLength(degree: real, pivot: Pivot): real {
    var arc := Pi * WheelSpan * Abs(degree);
    (if pivot == Wheel then arc * 2.0 else arc) / 360.0
  }

  /** The arc is pi * 0.378 * |degree| / 360, twice that about a wheel, never
      negative and the same for a degree and its negation. */
  lemma ArcLengthFacts(degree: real)
    ensures ArcLength(degree, Center) == Pi * 0.378 * Abs(degree) / 360.0
    ensures ArcLength(degree, Wheel) == 2.0 * ArcLength(degree, Center)
    ensures ArcLength(degree, Center) >= 0.0
    ensures ArcLength(-degree, Center) == ArcLength(degree, Center)
  {
    assert Abs(-degree) == Abs(degree);
    assert Pi * WheelSpan * Abs(degree) >= 0.0 by {
      assert Pi * WheelSpan > 0.0;
    }
  }

  /** `Dir(degree, Speed(speed))` for Dir one of Right and Left. */
  function Turn(kind: TurnKind, degree: real, speed: real, pivot: Pivot := Center): (r: Instruction)
    requires kind != BareRotation
    ensures r.RotationMove? && r.degree == Abs(degree) && r.timing == WheelTimes && r.speed == speed
  {
    Rotation(kind, degree, BySpeed(speed), pivot).value
  }

  /** What `setup` of Right / Left sets: Right drives the left wheel forward
      and the right one backward, Left the mirror image; about a wheel the
      inner wheel stays idle. */
  function TurnActions(kind: TurnKind, pivot: Pivot): (WheelAction, WheelAction) {
    match kind
    case RightTurn => (Fwd, if pivot == Wheel then Idle else Bwd)
    case LeftTurn => (if pivot == Wheel then Idle else Bwd, Fwd)
    case BareRotation => (Idle, Idle)
  }

  /** Rotation(degree, measure, pivot, stop) as a Right or Left turn. The bare
      base class has no `setup` (TypeError); a Time measure of zero seconds
      divides by zero; a measure that is neither Time nor Speed is a
      TypeError. A negative Speed makes both wheels run backward. */
  function Rotation(kind: TurnKind, degree: real, measure: Measure, pivot: Pivot := Center,
                    stop: bool := true): (r: Result<Instruction>)
    ensures r.Err? <==> kind == BareRotation || measure.OtherMeasure? || (measure.ByTime? && measure.seconds == 0.0)
    ensures r.Err? ==> r.error == (if kind != BareRotation && measure.ByTime? then ZeroDivisionError else TypeError)
    ensures r.Ok? ==> r.value.RotationMove? && r.value.degree == Abs(degree) &&
                      r.value.dist == ArcLength(degree, pivot) && r.value.stop == stop
    ensures r.Ok? && measure.ByTime? ==>
      r.value.speed == (ArcLength(degree, pivot) / measure.seconds) * 100.0 && r.value.timing == FixedTime(measure.seconds)
    ensures r.Ok? && measure.BySpeed? ==> r.value.speed == measure.speed && r.value.timing == WheelTimes
  {
    if kind == BareRotation then Err(TypeError)
    else
      var actions := TurnActions(kind, pivot);
      var dist := ArcLength(degree, pivot);
      match measure
      case ByTime(seconds) =>
        if seconds == 0.0 then Err(ZeroDivisionError)
        else Ok(RotationMove(Abs(degree), dist, (dist / seconds) * 100.0, actions.0, actions.1, FixedTime(seconds), stop))
      case BySpeed(s) =>
        if s < 0.0 then Ok(RotationMove(Abs(degree), dist, s, Bwd, Bwd, WheelTimes, stop))
        else Ok(RotationMove(Abs(degree), dist, s, actions.0, actions.1, WheelTimes, stop))
      case OtherMeasure => Err(TypeError)
  }

  /** The wheel actions of a constructed turn: Right and Left are mirror
      images for non-negative speeds and Time measures; about a wheel exactly
      one wheel moves; a negative Speed overrides both actions to backward.
      Both directions share the arc, the speed and the timing. */
  lemma TurnWheelActions(degree: real, measure: Measure, pivot: Pivot)
    requires measure.BySpeed? || (measure.ByTime? && measure.seconds != 0.0)
    ensures var r := Rotation(RightTurn, degree, measure, pivot).value;
      var l := Rotation(LeftTurn, degree, measure, pivot).value;
      (measure.BySpeed? && measure.speed < 0.0 ==>
         r.leftAction == r.rightAction == l.leftAction == l.rightAction == Bwd) &&
      (!(measure.BySpeed? && measure.speed < 0.0) ==>
         l.leftAction == r.rightAction && l.rightAction == r.leftAction && r.leftAction == Fwd &&
         (pivot == Wheel <==> r.rightAction == Idle)) &&
      (r.speed == l.speed && r.dist == l.dist && r.timing == l.timing)
  {
  }

  // ---------------------------------------------------------------------
  // Actions as command sequences
  // ---------------------------------------------------------------------

  /** The commands of an action, and the exception that cut it short, if any. */
  datatype Plan = Plan(cmds: seq<Cmd>, error: Option<ErrorKind>)

  /** drive_motors with a number for the speed: in reverse both wheels back
      up, the right one at speed - 3; otherwise the left runs at speed - 3. */
  function DriveCmds(reverse: bool, speed: real): seq<Cmd> {
    if reverse then [Drive(LeftSide, Motor.Backward(speed)), Drive(RightSide, Motor.Backward(speed - 3.0))]
    else [Drive(LeftSide, Motor.Forward(speed - 3.0)), Drive(RightSide, Motor.Forward(speed))]
  }

  /** stop_motors: left, then right. */
  const StopCmds: seq<Cmd> := [Drive(LeftSide, Motor.Halt), Drive(RightSide, Motor.Halt)]

  function WheelCall(a: WheelAction, side: Side, speed: real): seq<Cmd> {
    match a
    case Fwd => [Drive(side, Motor.Forward(speed))]
    case Bwd => [Drive(side, Motor.Backward(speed))]
    case Idle => []
  }

  /** The sleeps of a command sequence, added up. */
  function TotalSleep(cmds: seq<Cmd>): real {
    if cmds == [] then 0.0
    else TotalSleep(cmds[..|cmds| - 1]) + (if cmds[|cmds| - 1].Sleep? then cmds[|cmds| - 1].seconds else 0.0)
  }

  lemma {:induction false} TotalSleepAppend(a: seq<Cmd>, b: seq<Cmd>)
    ensures TotalSleep(a + b) == TotalSleep(a) + TotalSleep(b)
    decreases |b|
  {
    if b == [] {
      assert a + b == a;
    } else {
      var n := |b| - 1;
      TotalSleepAppend(a, b[..n]);
      assert (a + b)[..|a + b| - 1] == a + b[..n];
    }
  }

  /** The stop commands the rotation issues between its two sleeps: the
      wheel with the shorter time is stopped, neither when they are equal. */
  function EarlyStop(t1: real, t2: real): seq<Cmd> {
    if t1 > t2 then [Drive(RightSide, Motor.Halt)]
    else if t2 > t1 then [Drive(LeftSide, Motor.Halt)]
    else []
  }

  /** The running times of the two wheels for a rotation. */
  function TurnTimes(timing: Timing, dist: real, speed: real,
                     left: Motor.MotorController, right: Motor.MotorController): Result<(real, real)>
    requires left.Valid() && right.Valid()
  {
    match timing
    case FixedTime(s) => Ok((s, s))
    case WheelTimes =>
      match left.CalcWaitTime(dist, speed)
      case Err(e) => Err(e)
      case Ok(t1) =>
        match right.CalcWaitTime(dist, speed)
        case Err(e) => Err(e)
        case Ok(t2) => Ok((t1, t2))
  }

  /** instruction.action(io), with `left` and `right` the two wheels. */
  function ActionPlan(i: Instruction, left: Motor.MotorController, right: Motor.MotorController): (p: Plan)
    requires left.Valid() && right.Valid()
    ensures p.error.Some? ==> p.error.value == ZeroDivisionError || p.error.value == TypeError
  {
    match i
    case DistanceMove(meters, speed, reverse, stop) =>
      var drive := DriveCmds(reverse, speed);
      (match left.CalcWaitTime(meters, speed)
       case Err(e) => Plan(drive, Some(e))
       case Ok(t1) =>
         match right.CalcWaitTime(meters, speed)
         case Err(e) => Plan(drive, Some(e))
         case Ok(t2) => Plan(drive + [Sleep(Max(t1, t2))] + (if stop then StopCmds else []), None))
    case TimeMove(seconds, speed, reverse, stop) =>
      if speed.None? then Plan([], Some(TypeError))
      else Plan(DriveCmds(reverse, speed.value) + [Sleep(seconds)] + (if stop then StopCmds else []), None)
    case RotationMove(_, dist, speed, la, ra, timing, _) =>
      var start := WheelCall(la, LeftSide, speed) + WheelCall(ra, RightSide, speed);
      match TurnTimes(timing, dist, speed, left, right)
      case Err(e) => Plan(start, Some(e))
      case Ok(t) =>
        Plan(start + [Sleep(Min(t.0, t.1))] + EarlyStop(t.0, t.1) + [Sleep(Abs(t.0 - t.1))] + StopCmds, None)
  }

  /** A Distance move waits as long as the slower wheel needs, ends with
      both wheels stopped exactly when its stop flag is set, and fails only
      at speed 0 (after the wheels were started). */
  lemma DistancePlanFacts(i: Instruction, left: Motor.MotorController, right: Motor.MotorController)
    requires left.Valid() && right.Valid() && i.DistanceMove?
    ensures var p := ActionPlan(i, left, right);
      (p.error.Some? <==> i.speed == 0.0) &&
      (p.error.Some? ==> p.error.value == ZeroDivisionError && p.cmds == DriveCmds(i.reverse, i.speed)) &&
      (p.error.None? ==>
        TotalSleep(p.cmds) == Max(left.CalcWaitTime(i.meters, i.speed).value, right.CalcWaitTime(i.meters, i.speed).value) &&
        (i.stop <==> p.cmds[|p.cmds| - 2..] == StopCmds))
  {
    var p := ActionPlan(i, left, right);
    if p.error.None? {
      var t1 := left.CalcWaitTime(i.meters, i.speed).value;
      var t2 := right.CalcWaitTime(i.meters, i.speed).value;
      var drive := DriveCmds(i.reverse, i.speed);
      var tail := if i.stop then StopCmds else [];
      assert p.cmds == drive + [Sleep(Max(t1, t2))] + tail;
      TotalSleepAppend(drive, [Sleep(Max(t1, t2))]);
      TotalSleepAppend(drive + [Sleep(Max(t1, t2))], tail);
      assert TotalSleep(drive) == 0.0 by {
        assert drive[..1][..0] == [] && drive[..1] == [drive[0]];
      }
      assert TotalSleep([Sleep(Max(t1, t2))]) == Max(t1, t2) by {
        assert [Sleep(Max(t1, t2))][..0] == [];
      }
      assert TotalSleep(tail) == 0.0 by {
        if i.stop {
          assert tail[..1] == [tail[0]] && tail[..1][..0] == [];
        }
      }
      if !i.stop {
        assert p.cmds[|p.cmds| - 2..] == [drive[1], Sleep(Max(t1, t2))];
      }
    }
  }

  /** The wait of a Distance move at a positive speed is long enough for
      either wheel, run at that speed, to cover the distance. */
  lemma DistanceWaitSuffices(i: Instruction, left: Motor.MotorController, right: Motor.MotorController)
    requires left.Valid() && right.Valid() && i.DistanceMove? && i.speed > 0.0
    ensures var wait := TotalSleep(ActionPlan(i, left, right).cmds);
      left.CalcDistance(wait, i.speed) >= Abs(i.meters) && right.CalcDistance(wait, i.speed) >= Abs(i.meters)
  {
    DistancePlanFacts(i, left, right);
    var t1 := left.CalcWaitTime(i.meters, i.speed).value;
    var t2 := right.CalcWaitTime(i.meters, i.speed).value;
    left.DistanceOfWaitTime(i.meters, i.speed);
    right.DistanceOfWaitTime(i.meters, i.speed);
    CalcDistanceMonotone(left, t1, Max(t1, t2), i.speed);
    CalcDistanceMonotone(right, t2, Max(t1, t2), i.speed);
  }

  /** Running longer at a positive speed covers more ground. */
  lemma CalcDistanceMonotone(m: Motor.MotorController, t: real, t': real, speed: real)
    requires m.Valid() && t <= t' && speed > 0.0
    ensures m.CalcDistance(t, speed) <= m.CalcDistance(t', speed)
  {
    var c := m.Circumference();
    assert c > 0.0 by { Motor.PositiveProduct(m.diameter, Pi); }
    var k := c * (m.rpm / 60.0) * (speed / 100.0);
    assert k > 0.0 by {
      Motor.PositiveProduct(c, m.rpm / 60.0);
      Motor.PositiveProduct(c * (m.rpm / 60.0), speed / 100.0);
    }
    assert m.CalcDistance(t, speed) == k * t;
    assert m.CalcDistance(t', speed) == k * t';
    assert k * t' - k * t == k * (t' - t);
    Motor.NonNegativeProduct(k, t' - t);
  }

  /** A Time move with a speed starts the wheels, sleeps the given seconds
      and then stops iff its flag is set; without a speed it fails (TypeError
      in drive_motors) before commanding anything. */
  lemma TimePlanFacts(i: Instruction, left: Motor.MotorController, right: Motor.MotorController)
    requires left.Valid() && right.Valid() && i.TimeMove?
    ensures var p := ActionPlan(i, left, right);
      (i.timeSpeed.None? ==> p == Plan([], Some(TypeError))) &&
      (i.timeSpeed.Some? ==>
         p.error.None? && TotalSleep(p.cmds) == i.seconds &&
         p.cmds[..2] == DriveCmds(i.reverse, i.timeSpeed.value) &&
         (i.stop <==> |p.cmds| == 5))
  {
    var p := ActionPlan(i, left, right);
    if i.timeSpeed.Some? {
      var drive := DriveCmds(i.reverse, i.timeSpeed.value);
      var tail := if i.stop then StopCmds else [];
      assert p.cmds == drive + [Sleep(i.seconds)] + tail;
      TotalSleepAppend(drive, [Sleep(i.seconds)]);
      TotalSleepAppend(drive + [Sleep(i.seconds)], tail);
      assert TotalSleep(drive) == 0.0 by {
        assert drive[..1][..0] == [] && drive[..1] == [drive[0]];
      }
      assert TotalSleep([Sleep(i.seconds)]) == i.seconds by {
        assert [Sleep(i.seconds)][..0] == [];
      }
      assert TotalSleep(tail) == 0.0 by {
        if i.stop {
          assert tail[..1] == [tail[0]] && tail[..1][..0] == [];
        }
      }
    }
  }

  /** A rotation sleeps min(t1, t2), stops only the wheel with the shorter
      time (neither on a tie), sleeps |t1 - t2| and stops both, so in all it
      waits max(t1, t2), whatever its stop flag says. */
  lemma RotationPlanFacts(i: Instruction, left: Motor.MotorController, right: Motor.MotorController)
    requires left.Valid() && right.Valid() && i.RotationMove?
    ensures var p := ActionPlan(i, left, right);
      var times := TurnTimes(i.timing, i.dist, i.speed, left, right);
      (p.error.None? <==> times.Ok?) &&
      (p.error.None? ==>
        var t1 := times.value.0;
        var t2 := times.value.1;
        TotalSleep(p.cmds) == Max(t1, t2) &&
        p.cmds[|p.cmds| - 2..] == StopCmds &&
        (Drive(RightSide, Motor.Halt) in p.cmds[..|p.cmds| - 2] <==> t1 > t2) &&
        (Drive(LeftSide, Motor.Halt) in p.cmds[..|p.cmds| - 2] <==> t2 > t1))
  {
    var p := ActionPlan(i, left, right);
    var times := TurnTimes(i.timing, i.dist, i.speed, left, right);
    if times.Ok? {
      var start := WheelCall(i.leftAction, LeftSide, i.speed) + WheelCall(i.rightAction, RightSide, i.speed);
      assert p.cmds == RotationCmds(start, times.value.0, times.value.1);
      assert forall k :: 0 <= k < |start| ==> start[k].Drive? && start[k].op != Motor.Halt;
      RotationSleeps(start, times.value.0, times.value.1);
      RotationHalts(start, times.value.0, times.value.1);
    }
  }

  /** The commands of a rotation whose wheels were started by `start`. */
  function RotationCmds(start: seq<Cmd>, t1: real, t2: real): seq<Cmd> {
    start + [Sleep(Min(t1, t2))] + EarlyStop(t1, t2) + [Sleep(Abs(t1 - t2))] + StopCmds
  }

  lemma RotationSleeps(start: seq<Cmd>, t1: real, t2: real)
    requires forall k :: 0 <= k < |start| ==> start[k].Drive?
    ensures TotalSleep(RotationCmds(start, t1, t2)) == Max(t1, t2)
  {
    var first := start + [Sleep(Min(t1, t2))];
    var mid := first + EarlyStop(t1, t2);
    var last := mid + [Sleep(Abs(t1 - t2))];
    assert RotationCmds(start, t1, t2) == last + StopCmds;
    TotalSleepAppend(start, [Sleep(Min(t1, t2))]);
    TotalSleepAppend(first, EarlyStop(t1, t2));
    TotalSleepAppend(mid, [Sleep(Abs(t1 - t2))]);
    TotalSleepAppend(last, StopCmds);
    NoSleeps(start);
    NoSleeps(EarlyStop(t1, t2));
    NoSleeps(StopCmds);
    assert TotalSleep([Sleep(Min(t1, t2))]) == Min(t1, t2) by {
      assert [Sleep(Min(t1, t2))][..0] == [];
    }
    assert TotalSleep([Sleep(Abs(t1 - t2))]) == Abs(t1 - t2) by {
      assert [Sleep(Abs(t1 - t2))][..0] == [];
    }
    assert TotalSleep(RotationCmds(start, t1, t2)) == Min(t1, t2) + Abs(t1 - t2);
    MinPlusGap(t1, t2);
  }

  lemma MinPlusGap(t1: real, t2: real)
    ensures Min(t1, t2) + Abs(t1 - t2) == Max(t1, t2)
  {
  }

  lemma RotationHalts(start: seq<Cmd>, t1: real, t2: real)
    requires forall k :: 0 <= k < |start| ==> start[k].Drive? && start[k].op != Motor.Halt
    ensures var c := RotationCmds(start, t1, t2);
      c[|c| - 2..] == StopCmds &&
      (Drive(RightSide, Motor.Halt) in c[..|c| - 2] <==> t1 > t2) &&
      (Drive(LeftSide, Motor.Halt) in c[..|c| - 2] <==> t2 > t1)
  {
    var c := RotationCmds(start, t1, t2);
    var last := start + [Sleep(Min(t1, t2))] + EarlyStop(t1, t2) + [Sleep(Abs(t1 - t2))];
    assert c == last + StopCmds;
    assert c[..|c| - 2] == last;
    assert c[|c| - 2..] == StopCmds;
    assert Drive(RightSide, Motor.Halt) !in start && Drive(LeftSide, Motor.Halt) !in start;
  }

  /** Command sequences without sleeps add nothing to the total wait. */
  lemma {:induction false} NoSleeps(cmds: seq<Cmd>)
    requires forall k :: 0 <= k < |cmds| ==> !cmds[k].Sleep?
    ensures TotalSleep(cmds) == 0.0
  {
    if cmds != [] {
      NoSleeps(cmds[..|cmds| - 1]);
    }
  }

  /** An action only drives the wheels and waits: it writes no servo. */
  lemma PlanWritesNoServo(i: Instruction, left: Motor.MotorController, right: Motor.MotorController)
    requires left.Valid() && right.Valid()
    ensures forall k :: 0 <= k < |ActionPlan(i, left, right).cmds| ==> !ActionPlan(i, left, right).cmds[k].SetServo?
  {
  }
}
