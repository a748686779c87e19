/** The robot's I/O interface: the wheels, servos, camera and token sensors
    behind one object, the marker callback, and the marker-pursuit routines
    built on them.

    What the interface has done so far is its `Snapshot`: the trace of
    actuator commands, the camera scans still to come, how many sensor
    readings were taken, and the installed marker watch. Each operation has
    a reference function from one snapshot to the next (`MoveF`, `ScanF`,
    `GotoF`, ...); the methods of `Io` are proved to follow them, and the
    properties of the operations are proved about the functions. */
module IoInterface {
  import opened Util
  import Motor
  import Servo
  import Vision
  import opened Motion
  import StateUtils

  /** What `_move` is given: a move instruction, or any other value. */
  datatype Movable = Instr(i: Instruction) | NotInstruction

  /** The arm positions UP, DOWN and MIDDLE, or any other value. */
  datatype ArmPosition = Up | Down | Middle | OtherPosition

  /** The two token sensors. */
  datatype Sensor = TokenLeft | TokenRight

  /** Why the marker handler interrupts the running state. */
  datatype Alarm = ObstacleAlarm | SlotAlarm

  /** The installed marker callback: none, or the game's handle_markers,
      which needs to know only whether the active state is SEARCH_TOKEN. */
  datatype Watch = Silent | Watching(searchingToken: bool)

  /** What get_markers delivers: the (filtered) markers of the next scan,
      the interrupt its marker callback raised, or nothing when the scans
      given to the model have run out. */
  datatype Scan = Seen(markers: seq<Vision.Marker>) | Alarmed(alarm: Alarm) | NoScan

  /** Everything the interface operations observe and change apart from the
      hardware objects themselves. */
  datatype Snapshot = Snapshot(trace: seq<Cmd>, scans: seq<seq<Vision.Marker>>, readings: nat, watch: Watch)

  /** Why a routine ended without a result of its own: an interrupt raised
      by the marker callback, another exception, or the end of the scans. */
  datatype Stop = Interrupted(alarm: Alarm) | Failed(error: ErrorKind) | OutOfScans

  /** goto_marker's results `True`, `False` and `0`. */
  datatype Pursuit = Reached | Lost | Stuck | Halted(stop: Stop)

  /** navigate_to_marker's results `True`, `False` and `None`. */
  datatype Navigation = NavTrue | NavFalse | NavNone | NavHalted(stop: Stop)

  /** goto_marker's comparator: the default same-code test, or a callable. */
  datatype Comparator = SameCode | Custom(f: (Vision.Marker, Vision.Marker) -> bool)

  /** A call a game state makes on the interface without looking at the camera. */
  datatype IoCall =
    | MoveCall(i: Instruction)
    | ArmCall(pos: ArmPosition, delay: bool)
    | GrabberCall(open: bool, delay: bool)
    | WaitCall(seconds: real)

  /** A fixed sequence of calls, and the exception raised after them, if any. */
  datatype Script = Script(calls: seq<IoCall>, error: Option<ErrorKind>)

  datatype FaceVariant = FaceMarker1 | FaceMarker2 | FaceMarker3

  /** The second "marker got lost" test of navigate_to_marker: as the code
      has it (it can never fire), or as evidently intended. */
  datatype RescanCheck = AsWritten | Corrected

  /** Within this distance (half the remaining way) a marker that drops out
      of view counts as reached. */
  const BlindSpot: real := 0.66

  /** The exceptions the interface's calls can raise: an unknown arm
      position or a Time move without a speed (TypeError), a servo angle out
      of range (ValueError), a zero speed or duration (ZeroDivisionError). */
  predicate InterfaceError(e: ErrorKind) {
    e == TypeError || e == ValueError || e == ZeroDivisionError
  }

  const ObstacleKinds: seq<Vision.MarkerType> := [Vision.Robot, Vision.Arena]
  const SlotKinds: seq<Vision.MarkerType> := [Vision.Slot]
  const TokenKinds: seq<Vision.MarkerType> := [Vision.TokenTop, Vision.TokenBottom, Vision.TokenSide]

  /** The marker filters used here: include('ROBOTS', 'WALLS'),
      include('SLOTS') and include('TOKENS'). */
  lemma ObstacleFilter()
    ensures Vision.Included(["ROBOTS", "WALLS"]) == ObstacleKinds
  {
    UpperOfUpper("ROBOTS");
    UpperOfUpper("WALLS");
    assert ["ROBOTS", "WALLS"][..1] == ["ROBOTS"];
    assert ["ROBOTS"][..0] == [];
  }

  lemma SlotAndTokenFilters()
    ensures Vision.Included(["SLOTS"]) == SlotKinds
    ensures Vision.Included(["TOKENS"]) == TokenKinds
  {
    UpperOfUpper("SLOTS");
    UpperOfUpper("TOKENS");
    assert ["SLOTS"][..0] == [] && ["TOKENS"][..0] == [];
  }

  /** A name without lower-case letters is its own upper-casing. */
  lemma UpperOfUpper(s: string)
    requires forall i :: 0 <= i < |s| ==> !('a' <= s[i] <= 'z')
    ensures Upper(s) == s
  {
  }

  /** The exception each alarm raises. (The stop interrupt's argument is the
      string 'operation.stop'; it is kept as a one-element list.) */
  function AlarmInterrupt(a: Alarm): StateUtils.StateInterrupt {
    match a
    case ObstacleAlarm => StateUtils.StateInterrupt("stop", ["operation.stop"])
    case SlotAlarm => StateUtils.StateInterrupt("slotfound", [])
  }

  /** _stop_operation: the right wheel stops, then the left. */
  const StopOperationCmds: seq<Cmd> := [Drive(RightSide, Motor.Halt), Drive(LeftSide, Motor.Halt)]

  // ---------------------------------------------------------------------
  // The game's marker callback
  // ---------------------------------------------------------------------

  /** handle_markers on one marker: a robot or wall marker closer than 0.5
      is an obstacle; a slot marker at a bearing below 5 is a slot found
      while searching for a token; anything else passes. */
  function AlarmOf(m: Vision.Marker, searchingToken: bool): Option<Alarm> {
    if m.kind in ObstacleKinds && m.dist < 0.5 then Some(ObstacleAlarm)
    else if m.kind in SlotKinds && searchingToken && m.rotY < 5.0 then Some(SlotAlarm)
    else None
  }

  /** The alarm of the first marker, in scan order, that raises one. */
  function FirstAlarm(ms: seq<Vision.Marker>, searchingToken: bool): Option<Alarm> {
    if ms == [] then None
    else if AlarmOf(ms[0], searchingToken).Some? then AlarmOf(ms[0], searchingToken)
    else FirstAlarm(ms[1..], searchingToken)
  }

  /** A scan raises an alarm iff one of its markers does, and then it is the
      alarm of the earliest such marker. */
  lemma {:induction false} FirstAlarmMeaning(ms: seq<Vision.Marker>, searchingToken: bool)
    ensures FirstAlarm(ms, searchingToken).None? <==> forall i :: 0 <= i < |ms| ==> AlarmOf(ms[i], searchingToken).None?
    ensures FirstAlarm(ms, searchingToken).Some? ==>
      exists i :: 0 <= i < |ms| && AlarmOf(ms[i], searchingToken) == FirstAlarm(ms, searchingToken) &&
                  forall j :: 0 <= j < i ==> AlarmOf(ms[j], searchingToken).None?
  {
    if ms != [] {
      FirstAlarmMeaning(ms[1..], searchingToken);
      if AlarmOf(ms[0], searchingToken).None? {
        assert forall i :: 1 <= i < |ms| ==> ms[i] == ms[1..][i - 1];
        if FirstAlarm(ms, searchingToken).Some? {
          var i :| 0 <= i < |ms[1..]| && AlarmOf(ms[1..][i], searchingToken) == FirstAlarm(ms, searchingToken) &&
                   forall j :: 0 <= j < i ==> AlarmOf(ms[1..][j], searchingToken).None?;
          assert AlarmOf(ms[i + 1], searchingToken) == FirstAlarm(ms, searchingToken);
        }
      }
    }
  }

  /** Outside SEARCH_TOKEN only obstacles interrupt, and an obstacle always
      does, wherever it is in the scan. */
  lemma SlotAlarmOnlyWhileSearchingToken(ms: seq<Vision.Marker>)
    ensures FirstAlarm(ms, false) != Some(SlotAlarm)
    ensures (exists i :: 0 <= i < |ms| && ms[i].kind in ObstacleKinds && ms[i].dist < 0.5) ==>
              FirstAlarm(ms, false) == Some(ObstacleAlarm) && FirstAlarm(ms, true).Some?
  {
    FirstAlarmMeaning(ms, false);
    FirstAlarmMeaning(ms, true);
    if FirstAlarm(ms, false).Some? {
      var i :| 0 <= i < |ms| && AlarmOf(ms[i], false) == FirstAlarm(ms, false);
    }
  }

  // ---------------------------------------------------------------------
  // goto_marker's aim and its comparator
  // ---------------------------------------------------------------------

  /** goto_marker's turn amount, computed on the signed bearing: below 1 it
      gains 0.7, and a value still below 2 is doubled. */
  function Bearing(rotY: real): real {
    var d := if rotY < 1.0 then rotY + 0.7 else rotY;
    if d < 2.0 then d * 2.0 else d
  }

  /** Left for a negative bearing, Right otherwise. */
  function AimSide(rotY: real): TurnKind {
    if rotY < 0.0 then LeftTurn else RightTurn
  }

  /** `Dir(degree, Speed(speed / 3))`, with Python 2 integer division. */
  function Aim(m: Vision.Marker, speed: int): Instruction {
    Turn(AimSide(m.rotY), Bearing(m.rotY), (speed / 3) as real)
  }

  /** The turn goes left exactly for negative bearings; bearings of 2 or more
      are turned as they are, those in [1, 2) twice, smaller ones by
      2 * (bearing + 0.7): so every leftward bearing of at least 0.7 is
      turned by 2 * |bearing| - 1.4 degrees. */
  lemma AimFacts(m: Vision.Marker, speed: int)
    ensures AimSide(m.rotY) == LeftTurn <==> m.rotY < 0.0
    ensures Aim(m, speed).degree == Abs(Bearing(m.rotY))
    ensures m.rotY >= 2.0 ==> Bearing(m.rotY) == m.rotY
    ensures 1.0 <= m.rotY < 2.0 ==> Bearing(m.rotY) == 2.0 * m.rotY
    ensures m.rotY < 1.0 ==> Bearing(m.rotY) == 2.0 * (m.rotY + 0.7)
    ensures m.rotY <= -0.7 ==> Aim(m, speed).degree == 2.0 * Abs(m.rotY) - 1.4
    ensures speed >= 0 ==> Aim(m, speed).leftAction == (if m.rotY < 0.0 then Bwd else Fwd)
    ensures speed >= 0 ==> Aim(m, speed).rightAction == (if m.rotY < 0.0 then Fwd else Bwd)
  {
  }

  function Compare(cmp: Comparator, a: Vision.Marker, b: Vision.Marker): bool {
    match cmp
    case SameCode => a.code == b.code
    case Custom(f) => f(a, b)
  }

  /** The markers of a scan the comparator pairs with the target, in order. */
  function Matching(ms: seq<Vision.Marker>, target: Vision.Marker, cmp: Comparator): (r: seq<Vision.Marker>)
    ensures forall m :: m in r <==> m in ms && Compare(cmp, m, target)
  {
    if ms == [] then []
    else
      var last := ms[|ms| - 1];
      Matching(ms[..|ms| - 1], target, cmp) + (if Compare(cmp, last, target) then [last] else [])
  }

  /** The comprehension keeps order and multiplicity: it distributes over
      concatenation (with MatchingOne, this fixes the result). */
  lemma {:induction false} MatchingAppend(a: seq<Vision.Marker>, b: seq<Vision.Marker>, target: Vision.Marker, cmp: Comparator)
    ensures Matching(a + b, target, cmp) == Matching(a, target, cmp) + Matching(b, target, cmp)
    decreases |b|
  {
    if b == [] {
      assert a + b == a;
    } else {
      var b' := b[..|b| - 1];
      MatchingAppend(a, b', target, cmp);
      assert (a + b)[..|a + b| - 1] == a + b';
    }
  }

  /** A single marker is kept exactly when it pairs with the target. */
  lemma MatchingOne(m: Vision.Marker, target: Vision.Marker, cmp: Comparator)
    ensures Matching([m], target, cmp) == (if Compare(cmp, m, target) then [m] else [])
  {
    assert [m][..0] == [];
  }

  /** The first marker of a scan carrying the given code. */
  function FirstWithCode(ms: seq<Vision.Marker>, code: int): (r: Option<Vision.Marker>)
    ensures r.None? <==> forall i :: 0 <= i < |ms| ==> ms[i].code != code
    ensures r.Some? ==> r.value in ms && r.value.code == code
  {
    if ms == [] then None
    else if ms[0].code == code then Some(ms[0])
    else FirstWithCode(ms[1..], code)
  }

  /** The calls of one face_marker variant, with the division by zero the
      first and third raise (after their first turn) when the cosine of the
      marker's orientation is 0. The orientation is taken in absolute value,
      so the source's `< 0` branch never runs: the first turn is always a
      Right and the last a Left. */
  function FaceScript(v: FaceVariant, m: Vision.Marker, speed: real, cos: real -> real): (r: Script)
    ensures |r.calls| > 0 && r.calls[0] == MoveCall(Turn(RightTurn, (if v == FaceMarker2 then 2.0 * Abs(m.orientRotY) else Abs(m.rotY)), speed))
    ensures r.error.Some? <==> v != FaceMarker2 && cos(Radians(Abs(m.orientRotY))) == 0.0
    ensures r.error.None? ==> (r.calls[|r.calls| - 1].MoveCall? &&
      (v == FaceMarker2 || r.calls[|r.calls| - 1] == MoveCall(Turn(LeftTurn, (if v == FaceMarker1 then 3.0 else 2.0) * Abs(m.orientRotY), speed))))
  {
    var orient := Abs(m.orientRotY);
    if v == FaceMarker2 then
      var x := (m.dist / 2.0) * cos(Radians(orient));
      Script([MoveCall(Turn(RightTurn, 2.0 * orient, speed)), MoveCall(Distance(x, speed)),
              MoveCall(Turn(LeftTurn, 2.0 * orient, speed)), MoveCall(Distance(x, speed))], None)
    else
      var first := MoveCall(Turn(RightTurn, Abs(m.rotY), speed));
      var den := Abs(cos(Radians(orient)));
      if den == 0.0 then Script([first], Some(ZeroDivisionError))
      else
        var share := if v == FaceMarker1 then 0.5 else 0.7;
        var back := if v == FaceMarker1 then 3.0 else 2.0;
        Script([first, MoveCall(Distance((share * m.dist) / den, speed)), MoveCall(Turn(LeftTurn, back * orient, speed))], None)
  }

  class Io {
    const left: Motor.MotorController
    const right: Motor.MotorController
    const grabber: Servo.ServoController
    const arm: Servo.ServoController
    /** math.sqrt and math.cos, given as parameters. */
    const sqrt: real -> real
    const cos: real -> real
    /** The reading the k-th sensor read of the run returns on each sensor. */
    const sensor: (Sensor, nat) -> bool
    var trace: seq<Cmd>
    var scans: seq<seq<Vision.Marker>>
    var readings: nat
    var watch: Watch

    /** What the constant parts must satisfy. */
    ghost predicate Ready() {
      left != right && left.Valid() && right.Valid() &&
      arm.min <= arm.max && grabber.min <= grabber.max && IsSqrt(sqrt)
    }

    /** The wheels are in the state the trace has driven them to. */
    ghost predicate Valid()
      reads this, left, right, arm, grabber, arm.board, grabber.board
    {
      Ready() && arm.Valid() && grabber.Valid() &&
      left.State() == WheelAfter(Motor.WheelState(0, []), LeftSide, trace) &&
      right.State() == WheelAfter(Motor.WheelState(0, []), RightSide, trace)
    }

    function Snap(): Snapshot
      reads this
    {
      Snapshot(trace, scans, readings, watch)
    }

    constructor (left: Motor.MotorController, right: Motor.MotorController, grabber: Servo.ServoController,
                 arm: Servo.ServoController, sqrt: real -> real, cos: real -> real, sensor: (Sensor, nat) -> bool,
                 scans: seq<seq<Vision.Marker>>)
      requires left != right && left.Valid() && right.Valid()
      requires left.State() == Motor.WheelState(0, []) && right.State() == Motor.WheelState(0, [])
      requires arm.Valid() && grabber.Valid() && IsSqrt(sqrt)
      ensures this.left == left && this.right == right && this.grabber == grabber && this.arm == arm
      ensures this.sqrt == sqrt && this.cos == cos && this.sensor == sensor
      ensures Valid() && Snap() == Snapshot([], scans, 0, Silent)
    {
      this.left := left;
      this.right := right;
      this.grabber := grabber;
      this.arm := arm;
      this.sqrt := sqrt;
      this.cos := cos;
      this.sensor := sensor;
      this.scans := scans;
      trace := [];
      readings := 0;
      watch := Silent;
    }

    /** IOInterface(Robot) and _setup_controllers: the LEFT and RIGHT wheels,
        then the grabber and the arm on the robot's servo boards; with no
        servo board the grabber's lookup fails with IndexError. */
    static method Setup(servos: seq<Servo.ServoBoard>, sqrt: real -> real, cos: real -> real,
                        sensor: (Sensor, nat) -> bool, scans: seq<seq<Vision.Marker>>) returns (r: Result<Io>)
      requires forall i :: 0 <= i < |servos| ==> |servos[i].angles| == 8
      requires IsSqrt(sqrt)
      ensures r.Err? <==> |servos| == 0
      ensures r.Err? ==> r.error == IndexError
      ensures r.Ok? ==> (fresh(r.value) && r.value.Valid() && r.value.Snap() == Snapshot([], scans, 0, Silent) &&
        r.value.left.rpm == 95.0 && r.value.right.rpm == 87.0 &&
        r.value.arm.min == 1 && r.value.arm.max == 81 && r.value.grabber.min == 1 && r.value.grabber.max == 50)
    {
      var l, rt := Wheels();
      if |servos| == 0 {
        Servo.ServoBounds(1);
        var g := Servo.ServoController.Create(servos, "grabber");
        return Err(g.error);
      }
      var g, a := Servos(servos);
      var io := new Io(l, rt, g, a, sqrt, cos, sensor, scans);
      return Ok(io);
    }

    /** The LEFT and RIGHT wheel controllers. */
    static method Wheels() returns (l: Motor.MotorController, r: Motor.MotorController)
      ensures fresh(l) && fresh(r) && l != r && l.Valid() && r.Valid()
      ensures l.State() == Motor.WheelState(0, []) && r.State() == Motor.WheelState(0, [])
      ensures l.rpm == 95.0 && r.rpm == 87.0 && l.channel == 0 && r.channel == 1
    {
      Motor.WheelTable();
      var lw := Motor.MotorController.Create("wheel", "LEFT");
      var rw := Motor.MotorController.Create("wheel", "RIGHT");
      assert lw.Ok? && rw.Ok?;
      l, r := lw.value, rw.value;
    }

    /** The grabber and arm controllers, on a robot with a servo board. */
    static method Servos(servos: seq<Servo.ServoBoard>) returns (g: Servo.ServoController, a: Servo.ServoController)
      requires |servos| > 0 && forall i :: 0 <= i < |servos| ==> |servos[i].angles| == 8
      ensures g.Valid() && a.Valid() && g.min == 1 && g.max == 50 && a.min == 1 && a.max == 81
    {
      Servo.ServoBounds(|servos|);
      var gr := Servo.ServoController.Create(servos, "grabber");
      var ar := Servo.ServoController.Create(servos, "arm");
      assert gr.Ok? && ar.Ok?;
      g, a := gr.value, ar.value;
    }

    // -------------------------------------------------------------------
    // Reference functions
    // -------------------------------------------------------------------

    /** _move(instruction): the instruction's action on the two wheels. */
    function MoveF(s: Snapshot, i: Instruction): (Snapshot, Option<ErrorKind>)
      requires Ready()
    {
      var p := ActionPlan(i, left, right);
      (s.(trace := s.trace + p.cmds), p.error)
    }

    /** The angle move_arm sets for a position: MIN, MAX, or MAX / 2 in
        integer division. */
    function ArmAngle(pos: ArmPosition): int
      requires pos != OtherPosition
    {
      match pos
      case Up => arm.min
      case Down => arm.max
      case Middle => arm.max / 2
    }

    /** move_arm(direction, delay): TypeError for an unknown position,
        set_angle's ValueError for an angle out of range, then a 0.5 s wait
        if asked. */
    function ArmF(s: Snapshot, pos: ArmPosition, delay: bool): (Snapshot, Option<ErrorKind>) {
      if pos == OtherPosition then (s, Some(TypeError))
      else
        var angle := ArmAngle(pos);
        if angle < arm.min || angle > arm.max then (s, Some(ValueError))
        else (s.(trace := s.trace + [SetServo(ArmServo, angle)] + (if delay then [Sleep(0.5)] else [])), None)
    }

    /** open_grabber / close_grabber: MIN to open, MAX to close, then a 0.7 s
        wait if asked. */
    function GrabberF(s: Snapshot, open: bool, delay: bool): Snapshot {
      var angle := if open then grabber.min else grabber.max;
      s.(trace := s.trace + [SetServo(GrabberServo, angle)] + (if delay then [Sleep(0.7)] else []))
    }

    function CallF(s: Snapshot, c: IoCall): (Snapshot, Option<ErrorKind>)
      requires Ready()
    {
      match c
      case MoveCall(i) => MoveF(s, i)
      case ArmCall(pos, delay) => ArmF(s, pos, delay)
      case GrabberCall(open, delay) => (GrabberF(s, open, delay), None)
      case WaitCall(t) => (s.(trace := s.trace + [Sleep(t)]), None)
    }

    /** Calls made one after the other; an exception ends the sequence. */
    function RunCalls(s: Snapshot, calls: seq<IoCall>): (r: (Snapshot, Option<ErrorKind>))
      requires Ready()
      ensures r.1.Some? ==> InterfaceError(r.1.value)
      ensures r.0.scans == s.scans && r.0.readings == s.readings && r.0.watch == s.watch && s.trace <= r.0.trace
    {
      if calls == [] then (s, None)
      else
        var before := RunCalls(s, calls[..|calls| - 1]);
        if before.1.Some? then before else CallF(before.0, calls[|calls| - 1])
    }

    /** The slot-found continuation's turn: Right(90, Speed(50)). */
    function SlotTurn(): Instruction {
      Turn(RightTurn, 90.0, 50.0)
    }

    /** get_markers(_filter): takes the next scan, runs the marker callback on
        all of it (which may stop the wheels or turn, and then interrupt),
        and otherwise keeps the markers whose type is in the filter. */
    function ScanF(s: Snapshot, filter: Option<seq<Vision.MarkerType>>): (r: (Snapshot, Scan))
      requires Ready()
      ensures r.1.NoScan? <==> s.scans == []
      ensures s.scans != [] ==> r.0.scans == s.scans[1..]
      ensures r.0.readings == s.readings && r.0.watch == s.watch && s.trace <= r.0.trace
      ensures r.1.Alarmed? ==> s.watch.Watching? && FirstAlarm(s.scans[0], s.watch.searchingToken) == Some(r.1.alarm)
      ensures r.1.Seen? ==> (r.0.trace == s.trace &&
        r.1.markers == (if filter.Some? then Vision.FilterKinds(s.scans[0], filter.value) else s.scans[0]))
      ensures r.1 == Alarmed(SlotAlarm) ==> s.watch == Watching(true)
    {
      if s.scans == [] then (s, NoScan)
      else
        var ms := s.scans[0];
        var s1 := s.(scans := s.scans[1..]);
        var alarm := if s.watch.Watching? then FirstAlarm(ms, s.watch.searchingToken) else None;
        if alarm == Some(ObstacleAlarm) then (s1.(trace := s1.trace + StopOperationCmds), Alarmed(ObstacleAlarm))
        else if alarm == Some(SlotAlarm) then
          SlotAlarmOnlyWhileSearchingToken(ms);
          (MoveF(s1, SlotTurn()).0, Alarmed(SlotAlarm))
        else (s1, Seen(if filter.Some? then Vision.FilterKinds(ms, filter.value) else ms))
    }

    /** is_holding_token: the left sensor, and the right one only when the
        left reads false. */
    function HoldingF(s: Snapshot): (Snapshot, bool) {
      if sensor(TokenLeft, s.readings) then (s.(readings := s.readings + 1), true)
      else (s.(readings := s.readings + 2), sensor(TokenRight, s.readings + 1))
    }

    /** goto_marker from one pass of its loop on: turn toward the target
        (unless reached), drive half the remaining horizontal distance, and
        decide on a rescan. */
    function GotoF(s: Snapshot, marker: Vision.Marker, speed: int, cmp: Comparator, offset: real,
                   reached: bool): (r: (Pursuit, Snapshot))
      requires Ready()
      ensures |r.1.scans| <= |s.scans| && r.1.watch == s.watch && s.trace <= r.1.trace
      ensures r.0 == Halted(Interrupted(SlotAlarm)) ==> s.watch == Watching(true)
      ensures r.0.Halted? && r.0.stop.Failed? ==> InterfaceError(r.0.stop.error)
      decreases |s.scans|, 2
    {
      var moved := GotoMoves(s, marker, speed, offset, reached);
      if moved.1.Some? then (Halted(Failed(moved.1.value)), moved.0)
      else GotoAfter(moved.0, marker, speed, cmp, offset, reached)
    }

    /** A pass after its moves: done if the marker was reached, otherwise
        the rescan and its decision. */
    function GotoAfter(s: Snapshot, marker: Vision.Marker, speed: int, cmp: Comparator, offset: real,
                       reached: bool): (r: (Pursuit, Snapshot))
      requires Ready()
      ensures |r.1.scans| <= |s.scans| && r.1.watch == s.watch && s.trace <= r.1.trace
      ensures r.0 == Halted(Interrupted(SlotAlarm)) ==> s.watch == Watching(true)
      ensures r.0.Halted? && r.0.stop.Failed? ==> InterfaceError(r.0.stop.error)
      decreases |s.scans|, 1
    {
      if reached then (Reached, s)
      else
        var horiz := Vision.HorizontalDist(marker, sqrt) - offset;
        var scanned := ScanF(s, None);
        GotoDecide(scanned.0, scanned.1, marker, speed, cmp, offset, horiz, horiz / 2.0)
    }

    /** The moves of a pass: the turn toward the marker (unless reached),
        then the drive over half the remaining horizontal distance. */
    function GotoMoves(s: Snapshot, marker: Vision.Marker, speed: int, offset: real, reached: bool): (Snapshot, Option<ErrorKind>)
      requires Ready()
    {
      var travel := (Vision.HorizontalDist(marker, sqrt) - offset) / 2.0;
      var turned := if reached then (s, None) else MoveF(s, Aim(marker, speed));
      if turned.1.Some? then turned else MoveF(turned.0, Distance(travel, speed as real))
    }

    /** The rest of a pass, once the rescan is in. */
    function GotoDecide(s: Snapshot, scan: Scan, marker: Vision.Marker, speed: int, cmp: Comparator,
                        offset: real, horiz: real, travel: real): (r: (Pursuit, Snapshot))
      requires Ready()
      ensures |r.1.scans| <= |s.scans| && r.1.watch == s.watch && s.trace <= r.1.trace
      ensures r.0 == Halted(Interrupted(SlotAlarm)) ==> scan == Alarmed(SlotAlarm) || s.watch == Watching(true)
      ensures r.0.Halted? && r.0.stop.Failed? ==> InterfaceError(r.0.stop.error)
      decreases |s.scans| + (if scan.Seen? then 1 else 0), 0
    {
      match scan
      case NoScan => (Halted(OutOfScans), s)
      case Alarmed(a) => (Halted(Interrupted(a)), s)
      case Seen(ms) =>
        var potential := Matching(ms, marker, cmp);
        if potential == [] then
          if travel < BlindSpot then GotoF(s, marker, speed, cmp, offset, true)
          else (Lost, s)
        else
          var c := potential[Vision.ClosestIndex(potential)];
          if Vision.HorizontalDist(c, sqrt) >= horiz - Min(0.1, travel / 3.0) then (Stuck, s)
          else if c.kind in TokenKinds then
            var held := HoldingF(s);
            if held.1 then (Reached, held.0) else GotoF(held.0, c, speed, cmp, offset, false)
          else GotoF(s, c, speed, cmp, offset, false)
    }

    /** A pass begun with `reached` set issues no turn and makes no scan: it
        only drives half the remaining distance, then reports the marker
        reached (or the drive's exception). */
    lemma ReachedPassOnlyDrives(s: Snapshot, marker: Vision.Marker, speed: int, cmp: Comparator, offset: real)
      requires Ready()
      ensures var drive := MoveF(s, Distance((Vision.HorizontalDist(marker, sqrt) - offset) / 2.0, speed as real));
        GotoF(s, marker, speed, cmp, offset, true) ==
          (if drive.1.Some? then Halted(Failed(drive.1.value)) else Reached, drive.0)
    {
    }

    /** The decisions after a rescan that found markers: no match inside the
        blind spot means one more drive and `True`; no match farther out
        means `False`; a match not nearer than expected means `0`; a token
        target means `True` when the left sensor, or failing it the right
        one, reads a token, and otherwise the pursuit of the match goes on. */
    lemma GotoDecisions(s: Snapshot, ms: seq<Vision.Marker>, marker: Vision.Marker, speed: int, cmp: Comparator,
                        offset: real, horiz: real, travel: real)
      requires Ready() && speed != 0
      ensures var r := GotoDecide(s, Seen(ms), marker, speed, cmp, offset, horiz, travel);
        var potential := Matching(ms, marker, cmp);
        (potential == [] && travel < BlindSpot ==>
           r == (Reached, s.(trace := s.trace + ActionPlan(Distance((Vision.HorizontalDist(marker, sqrt) - offset) / 2.0, speed as real), left, right).cmds))) &&
        (potential == [] && travel >= BlindSpot ==> r == (Lost, s)) &&
        (potential != [] ==>
           var c := potential[Vision.ClosestIndex(potential)];
           (Vision.HorizontalDist(c, sqrt) >= horiz - Min(0.1, travel / 3.0) ==> r == (Stuck, s)) &&
           ((Vision.HorizontalDist(c, sqrt) < horiz - Min(0.1, travel / 3.0) && c.kind in TokenKinds &&
             sensor(TokenLeft, s.readings)) ==> r == (Reached, s.(readings := s.readings + 1))) &&
           ((Vision.HorizontalDist(c, sqrt) < horiz - Min(0.1, travel / 3.0) && c.kind in TokenKinds &&
             !sensor(TokenLeft, s.readings) && sensor(TokenRight, s.readings + 1)) ==>
              r == (Reached, s.(readings := s.readings + 2))) &&
           ((Vision.HorizontalDist(c, sqrt) < horiz - Min(0.1, travel / 3.0) && c.kind in TokenKinds &&
             !sensor(TokenLeft, s.readings) && !sensor(TokenRight, s.readings + 1)) ==>
              r == GotoF(s.(readings := s.readings + 2), c, speed, cmp, offset, false)))
    {
      var potential := Matching(ms, marker, cmp);
      if potential == [] && travel < BlindSpot {
        var d := Distance((Vision.HorizontalDist(marker, sqrt) - offset) / 2.0, speed as real);
        DistancePlanFacts(d, left, right);
        ReachedPassOnlyDrives(s, marker, speed, cmp, offset);
      }
    }

    /** navigate_to_marker: face the marker, find it again by code, pursue it,
        and if that fails look for it again and start over. Whatever the
        recursive call returns is dropped, so any pass after the first yields
        None. */
    function NavigateF(s: Snapshot, marker: Vision.Marker, speed: int, cmp: Comparator,
                       check: RescanCheck): (r: (Navigation, Snapshot))
      requires Ready()
      ensures |r.1.scans| <= |s.scans| && r.1.watch == s.watch
      decreases |s.scans|
    {
      var face := FaceScript(FaceMarker3, marker, speed as real, cos);
      var faced := RunCalls(s, face.calls);
      if faced.1.Some? then (NavHalted(Failed(faced.1.value)), faced.0)
      else if face.error.Some? then (NavHalted(Failed(face.error.value)), faced.0)
      else
        var scanned := ScanF(faced.0, None);
        match scanned.1
        case NoScan => (NavHalted(OutOfScans), scanned.0)
        case Alarmed(a) => (NavHalted(Interrupted(a)), scanned.0)
        case Seen(ms) =>
          match FirstWithCode(ms, marker.code)
          case None => (NavFalse, scanned.0)
          case Some(found) =>
            var pursuit := GotoF(scanned.0, found, speed, cmp, 0.0, false);
            if pursuit.0 == Reached then (NavTrue, pursuit.1)
            else if pursuit.0.Halted? then (NavHalted(pursuit.0.stop), pursuit.1)
            else NavigateAgain(pursuit.1, found, speed, cmp, check)
    }

    /** The rescan after a failed pursuit, and the recursive call. */
    function NavigateAgain(s: Snapshot, marker: Vision.Marker, speed: int, cmp: Comparator,
                           check: RescanCheck): (r: (Navigation, Snapshot))
      requires Ready()
      ensures |r.1.scans| <= |s.scans| && r.1.watch == s.watch
      decreases |s.scans|, 0
    {
      var rescanned := ScanF(s, None);
      match rescanned.1
      case NoScan => (NavHalted(OutOfScans), rescanned.0)
      case Alarmed(a) => (NavHalted(Interrupted(a)), rescanned.0)
      case Seen(ms) =>
        var again := FirstWithCode(ms, marker.code);
        if check == Corrected && again.None? then (NavFalse, rescanned.0)
        else
          var next := NavigateF(rescanned.0, if again.Some? then again.value else marker, speed, cmp, check);
          (if next.0.NavHalted? then next.0 else NavNone, next.1)
    }

    /** navigate_to_marker returns True only from its first pursuit: once it
        has recursed its result is None (or the exception that stopped it). */
    lemma NavigateTrueOnlyFirstPass(s: Snapshot, marker: Vision.Marker, speed: int, cmp: Comparator, check: RescanCheck)
      requires Ready()
      ensures var r := NavigateAgain(s, marker, speed, cmp, check).0;
        r == NavNone || r.NavHalted? || (check == Corrected && r == NavFalse)
    {
    }

    /** As written, a rescan that no longer shows the marker does not end
        navigation with False: the stale marker is navigated to again, which
        consumes the next scan, and the call ends in None or an exception. */
    lemma RescanLossIgnored(s: Snapshot, marker: Vision.Marker, speed: int, cmp: Comparator)
      requires Ready() && s.scans != [] && s.watch == Silent
      requires forall i :: 0 <= i < |s.scans[0]| ==> s.scans[0][i].code != marker.code
      ensures var r := NavigateAgain(s, marker, speed, cmp, AsWritten);
        (r.0 == NavNone || r.0.NavHalted?) &&
        r == (var n := NavigateF(s.(scans := s.scans[1..]), marker, speed, cmp, AsWritten);
              (if n.0.NavHalted? then n.0 else NavNone, n.1))
    {
    }

    /** With the intended test, that same rescan ends navigation with False
        and nothing else happens. */
    lemma RescanLossDetected(s: Snapshot, marker: Vision.Marker, speed: int, cmp: Comparator)
      requires Ready() && s.scans != [] && s.watch == Silent
      requires forall i :: 0 <= i < |s.scans[0]| ==> s.scans[0][i].code != marker.code
      ensures NavigateAgain(s, marker, speed, cmp, Corrected) == (NavFalse, s.(scans := s.scans[1..]))
    {
    }

    // -------------------------------------------------------------------
    // Operations
    // -------------------------------------------------------------------

    /** One wheel call or wait. */
    method Exec(c: Cmd)
      requires Valid() && !c.SetServo?
      modifies this, left, right
      ensures Valid() && Snap() == old(Snap()).(trace := old(trace) + [c])
    {
      WheelStep(Motor.WheelState(0, []), LeftSide, trace, c);
      WheelStep(Motor.WheelState(0, []), RightSide, trace, c);
      if c.Drive? {
        Actuate(if c.side == LeftSide then left else right, c.op);
      }
      trace := trace + [c];
    }

    /** Log a servo write in the trace; the wheels do not see it. */
    method Record(c: Cmd)
      requires Valid() && c.SetServo?
      modifies this
      ensures Valid() && Snap() == old(Snap()).(trace := old(trace) + [c])
    {
      ghost var before := trace;
      trace := trace + [c];
      WheelStep(Motor.WheelState(0, []), LeftSide, before, c);
      WheelStep(Motor.WheelState(0, []), RightSide, before, c);
      assert left.State() == WheelAfter(Motor.WheelState(0, []), LeftSide, trace);
      assert right.State() == WheelAfter(Motor.WheelState(0, []), RightSide, trace);
    }

    /** The wheel method a drive command calls. */
    static method Actuate(w: Motor.MotorController, op: Motor.WheelOp)
      modifies w
      ensures w.State() == Motor.Apply(old(w.State()), op)
    {
      match op
      case Forward(v) => w.Forward(v);
      case Backward(v) => w.Backward(v);
      case Halt => w.Stop();
    }

    method Perform(cmds: seq<Cmd>)
      requires Valid() && forall k :: 0 <= k < |cmds| ==> !cmds[k].SetServo?
      modifies this, left, right
      ensures Valid() && Snap() == old(Snap()).(trace := old(trace) + cmds)
    {
      for k := 0 to |cmds|
        invariant Valid() && Snap() == old(Snap()).(trace := old(trace) + cmds[..k])
      {
        Exec(cmds[k]);
        assert cmds[..k + 1] == cmds[..k] + [cmds[k]];
      }
      assert cmds[..|cmds|] == cmds;
    }

    /** _move: TypeError for anything but a move instruction. */
    method Move(v: Movable) returns (err: Option<ErrorKind>)
      requires Valid()
      modifies this, left, right
      ensures Valid()
      ensures v.NotInstruction? ==> err == Some(TypeError) && Snap() == old(Snap())
      ensures v.Instr? ==> (Snap(), err) == MoveF(old(Snap()), v.i)
    {
      if v.NotInstruction? {
        return Some(TypeError);
      }
      var p := ActionPlan(v.i, left, right);
      PlanWritesNoServo(v.i, left, right);
      Perform(p.cmds);
      err := p.error;
    }

    method Wait(seconds: real)
      requires Valid()
      modifies this, left, right
      ensures Valid() && Snap() == old(Snap()).(trace := old(trace) + [Sleep(seconds)])
    {
      Exec(Sleep(seconds));
    }

    method MoveArm(pos: ArmPosition, delay: bool) returns (err: Option<ErrorKind>)
      requires Valid()
      modifies this, left, right, arm.board
      ensures Valid() && (Snap(), err) == ArmF(old(Snap()), pos, delay)
      ensures err.None? ==> arm.board.angles == old(arm.board.angles)[arm.slot := ArmAngle(pos)]
      ensures err.Some? ==> arm.board.angles == old(arm.board.angles)
    {
      if pos == OtherPosition {
        return Some(TypeError);
      }
      var angle := ArmAngle(pos);
      err := arm.SetAngle(angle);
      if err.Some? {
        return;
      }
      Record(SetServo(ArmServo, angle));
      if delay {
        Wait(0.5);
        assert trace == old(trace) + [SetServo(ArmServo, angle)] + [Sleep(0.5)];
      } else {
        assert trace == old(trace) + [SetServo(ArmServo, angle)] + [];
      }
    }

    method Grab(open: bool, delay: bool)
      requires Valid()
      modifies this, left, right, grabber.board
      ensures Valid() && Snap() == GrabberF(old(Snap()), open, delay)
      ensures grabber.board.angles == old(grabber.board.angles)[grabber.slot := if open then grabber.min else grabber.max]
    {
      var angle := if open then grabber.min else grabber.max;
      var _ := grabber.SetAngle(angle);
      Record(SetServo(GrabberServo, angle));
      if delay {
        Wait(0.7);
        assert trace == old(trace) + [SetServo(GrabberServo, angle)] + [Sleep(0.7)];
      } else {
        assert trace == old(trace) + [SetServo(GrabberServo, angle)] + [];
      }
    }

    method OpenGrabber(delay: bool)
      requires Valid()
      modifies this, left, right, grabber.board
      ensures Valid() && Snap() == GrabberF(old(Snap()), true, delay)
    {
      Grab(true, delay);
    }

    method CloseGrabber(delay: bool)
      requires Valid()
      modifies this, left, right, grabber.board
      ensures Valid() && Snap() == GrabberF(old(Snap()), false, delay)
    {
      Grab(false, delay);
    }

    method Call(c: IoCall) returns (err: Option<ErrorKind>)
      requires Valid()
      modifies this, left, right, arm.board, grabber.board
      ensures Valid() && (Snap(), err) == CallF(old(Snap()), c)
    {
      match c
      case MoveCall(i) => err := Move(Instr(i));
      case ArmCall(pos, delay) => err := MoveArm(pos, delay);
      case GrabberCall(open, delay) => Grab(open, delay); err := None;
      case WaitCall(t) => Wait(t); err := None;
    }

    method Run(calls: seq<IoCall>) returns (err: Option<ErrorKind>)
      requires Valid()
      modifies this, left, right, arm.board, grabber.board
      ensures Valid() && (Snap(), err) == RunCalls(old(Snap()), calls)
    {
      err := None;
      for k := 0 to |calls|
        invariant Valid() && (Snap(), err) == RunCalls(old(Snap()), calls[..k])
        invariant err.None?
      {
        assert calls[..k + 1][..k] == calls[..k];
        err := Call(calls[k]);
        if err.Some? {
          RunCallsStuck(old(Snap()), calls, k + 1);
          return;
        }
      }
      assert calls[..|calls|] == calls;
    }

    /** Once a call has raised, the later calls do not run. */
    lemma {:induction false} RunCallsStuck(s: Snapshot, calls: seq<IoCall>, k: nat)
      requires Ready() && k <= |calls| && RunCalls(s, calls[..k]).1.Some?
      ensures RunCalls(s, calls) == RunCalls(s, calls[..k])
      decreases |calls| - k
    {
      if k < |calls| {
        assert calls[..k + 1][..k] == calls[..k];
        RunCallsStuck(s, calls, k + 1);
      } else {
        assert calls[..k] == calls;
      }
    }

    method SetMarkerHandler(w: Watch)
      requires Valid()
      modifies this
      ensures Valid() && Snap() == old(Snap()).(watch := w)
    {
      watch := w;
    }

    /** handle_markers' loop over the scan: the first marker that raises. */
    method HandleMarkers(ms: seq<Vision.Marker>, searchingToken: bool) returns (alarm: Option<Alarm>)
      ensures alarm == FirstAlarm(ms, searchingToken)
    {
      for i := 0 to |ms|
        invariant FirstAlarm(ms, searchingToken) == FirstAlarm(ms[i..], searchingToken)
      {
        assert ms[i..][1..] == ms[i + 1..];
        var a := AlarmOf(ms[i], searchingToken);
        if a.Some? {
          return a;
        }
      }
      return None;
    }

    /** _stop_operation: stop the right wheel, then the left, and raise the
        stop interrupt. */
    method StopOperation() returns (si: StateUtils.StateInterrupt)
      requires Valid()
      modifies this, left, right
      ensures Valid() && Snap() == old(Snap()).(trace := old(trace) + StopOperationCmds)
      ensures si == AlarmInterrupt(ObstacleAlarm)
    {
      Exec(Drive(RightSide, Motor.Halt));
      Exec(Drive(LeftSide, Motor.Halt));
      si := StateUtils.StateInterrupt("stop", ["operation.stop"]);
    }

    method GetMarkers(filter: Option<seq<Vision.MarkerType>>) returns (r: Scan)
      requires Valid()
      modifies this, left, right
      ensures Valid() && (Snap(), r) == ScanF(old(Snap()), filter)
    {
      if scans == [] {
        return NoScan;
      }
      var ms := scans[0];
      scans := scans[1..];
      if watch.Watching? {
        var alarm := HandleMarkers(ms, watch.searchingToken);
        if alarm == Some(ObstacleAlarm) {
          var _ := StopOperation();
          return Alarmed(ObstacleAlarm);
        } else if alarm == Some(SlotAlarm) {
          var _ := Move(Instr(SlotTurn()));
          return Alarmed(SlotAlarm);
        }
      }
      if filter.Some? {
        return Seen(Vision.FilterKinds(ms, filter.value));
      }
      return Seen(ms);
    }

    method IsHoldingToken() returns (holding: bool)
      requires Valid()
      modifies this
      ensures Valid() && (Snap(), holding) == HoldingF(old(Snap()))
      ensures holding <==> sensor(TokenLeft, old(readings)) || sensor(TokenRight, old(readings) + 1)
    {
      holding := sensor(TokenLeft, readings);
      readings := readings + 1;
      if !holding {
        holding := sensor(TokenRight, readings);
        readings := readings + 1;
      }
    }

    /** The comparator's matches among a scan, collected in order. */
    method CollectMatching(ms: seq<Vision.Marker>, target: Vision.Marker, cmp: Comparator)
      returns (potential: seq<Vision.Marker>)
      ensures potential == Matching(ms, target, cmp)
    {
      potential := [];
      for k := 0 to |ms|
        invariant potential == Matching(ms[..k], target, cmp)
      {
        assert ms[..k + 1][..k] == ms[..k];
        if Compare(cmp, ms[k], target) {
          potential := potential + [ms[k]];
        }
      }
      assert ms[..|ms|] == ms;
    }

    /** One pass of goto_marker's loop: either the result, or the marker
        and `reached` flag the next pass starts from, with a scan consumed. */
    method GotoPass(marker: Vision.Marker, speed: int, cmp: Comparator, offset: real, reached: bool)
      returns (done: Option<Pursuit>, next: Vision.Marker, nextReached: bool)
      requires Valid()
      modifies this, left, right
      ensures Valid()
      ensures done.Some? ==> (done.value, Snap()) == GotoF(old(Snap()), marker, speed, cmp, offset, reached)
      ensures done.None? ==> (|scans| < old(|scans|) &&
        GotoF(Snap(), next, speed, cmp, offset, nextReached) == GotoF(old(Snap()), marker, speed, cmp, offset, reached))
    {
      next, nextReached := marker, reached;
      var err := GotoMove(marker, speed, offset, reached);
      if err.Some? {
        return Some(Halted(Failed(err.value))), next, nextReached;
      }
      done, next, nextReached := GotoFinish(marker, speed, cmp, offset, reached);
    }

    /** The rest of a pass once the moves are made. */
    method GotoFinish(marker: Vision.Marker, speed: int, cmp: Comparator, offset: real, reached: bool)
      returns (done: Option<Pursuit>, next: Vision.Marker, nextReached: bool)
      requires Valid()
      modifies this, left, right
      ensures Valid()
      ensures done.Some? ==> (done.value, Snap()) == GotoAfter(old(Snap()), marker, speed, cmp, offset, reached)
      ensures done.None? ==> (|scans| < old(|scans|) &&
        GotoF(Snap(), next, speed, cmp, offset, nextReached) == GotoAfter(old(Snap()), marker, speed, cmp, offset, reached))
    {
      next, nextReached := marker, reached;
      if reached {
        return Some(Reached), next, nextReached;
      }
      var horiz := Vision.HorizontalDist(marker, sqrt) - offset;
      ghost var before := Snap();
      var scan := GetMarkers(None);
      ghost var after := Snap();
      assert (after, scan) == ScanF(before, None);
      assert GotoAfter(before, marker, speed, cmp, offset, false) == GotoDecide(after, scan, marker, speed, cmp, offset, horiz, horiz / 2.0);
      done, next, nextReached := GotoRescan(scan, marker, speed, cmp, offset, horiz, horiz / 2.0);
    }

    method GotoMove(marker: Vision.Marker, speed: int, offset: real, reached: bool) returns (err: Option<ErrorKind>)
      requires Valid()
      modifies this, left, right
      ensures Valid() && (Snap(), err) == GotoMoves(old(Snap()), marker, speed, offset, reached)
    {
      if !reached {
        err := Move(Instr(Aim(marker, speed)));
        if err.Some? {
          return;
        }
      }
      var travel := (Vision.HorizontalDist(marker, sqrt) - offset) / 2.0;
      err := Move(Instr(Distance(travel, speed as real)));
    }

    /** The decision on the rescan. */
    method GotoRescan(scan: Scan, marker: Vision.Marker, speed: int, cmp: Comparator, offset: real,
                      horiz: real, travel: real) returns (done: Option<Pursuit>, next: Vision.Marker, nextReached: bool)
      requires Valid()
      modifies this
      ensures Valid()
      ensures done.Some? ==> (done.value, Snap()) == GotoDecide(old(Snap()), scan, marker, speed, cmp, offset, horiz, travel)
      ensures done.None? ==> (scan.Seen? && scans == old(scans) &&
        GotoF(Snap(), next, speed, cmp, offset, nextReached) == GotoDecide(old(Snap()), scan, marker, speed, cmp, offset, horiz, travel))
    {
      next, nextReached := marker, false;
      if scan.NoScan? {
        return Some(Halted(OutOfScans)), next, nextReached;
      } else if scan.Alarmed? {
        return Some(Halted(Interrupted(scan.alarm))), next, nextReached;
      }
      var potential := CollectMatching(scan.markers, marker, cmp);
      var closest := Vision.GetClosest(potential);
      if closest.None? {
        if travel < BlindSpot {
          return None, marker, true;
        }
        return Some(Lost), next, nextReached;
      }
      var c := closest.value;
      var expected := horiz - Min(0.1, travel / 3.0);
      if Vision.HorizontalDist(c, sqrt) >= expected {
        return Some(Stuck), next, nextReached;
      }
      next := c;
      if c.kind in TokenKinds {
        var holding := IsHoldingToken();
        if holding {
          return Some(Reached), next, nextReached;
        }
      }
      done := None;
    }

    method GotoMarker(target: Vision.Marker, speed: int, cmp: Comparator, offset: real) returns (r: Pursuit)
      requires Valid()
      modifies this, left, right
      ensures Valid() && (r, Snap()) == GotoF(old(Snap()), target, speed, cmp, offset, false)
    {
      var marker := target;
      var reached := false;
      while true
        invariant Valid()
        invariant GotoF(Snap(), marker, speed, cmp, offset, reached) == GotoF(old(Snap()), target, speed, cmp, offset, false)
        decreases |scans|
      {
        var done;
        done, marker, reached := GotoPass(marker, speed, cmp, offset, reached);
        if done.Some? {
          return done.value;
        }
      }
    }

    /** face_marker, face_marker_2 and face_marker_3. */
    method FaceMarkerMove(v: FaceVariant, marker: Vision.Marker, speed: real) returns (err: Option<ErrorKind>)
      requires Valid()
      modifies this, left, right, arm.board, grabber.board
      ensures Valid()
      ensures var face := FaceScript(v, marker, speed, cos);
        var run := RunCalls(old(Snap()), face.calls);
        Snap() == run.0 && err == (if run.1.Some? then run.1 else face.error)
    {
      var face := FaceScript(v, marker, speed, cos);
      err := Run(face.calls);
      if err.None? {
        err := face.error;
      }
    }

    /** The first marker of a scan with the given code, found by a loop. */
    method FindByCode(ms: seq<Vision.Marker>, code: int) returns (r: Option<Vision.Marker>)
      ensures r == FirstWithCode(ms, code)
    {
      for i := 0 to |ms|
        invariant FirstWithCode(ms, code) == FirstWithCode(ms[i..], code)
      {
        assert ms[i..][1..] == ms[i + 1..];
        if ms[i].code == code {
          return Some(ms[i]);
        }
      }
      return None;
    }

    /** navigate_to_marker as written: the second "lost" test compares the
        marker with the one first passed in, but by then it is the marker
        found on the first rescan, so the test never fires. */
    method NavigateToMarker(target: Vision.Marker, speed: int, cmp: Comparator) returns (r: Navigation)
      requires Valid()
      modifies this, left, right, arm.board, grabber.board
      ensures Valid() && (r, Snap()) == NavigateF(old(Snap()), target, speed, cmp, AsWritten)
      decreases |scans|, 1
    {
      var err := FaceMarkerMove(FaceMarker3, target, speed as real);
      if err.Some? {
        return NavHalted(Failed(err.value));
      }
      var scan := GetMarkers(None);
      if scan.NoScan? {
        return NavHalted(OutOfScans);
      } else if scan.Alarmed? {
        return NavHalted(Interrupted(scan.alarm));
      }
      var found := FindByCode(scan.markers, target.code);
      if found.None? {
        return NavFalse;
      }
      var pursuit := GotoMarker(found.value, speed, cmp, 0.0);
      if pursuit == Reached {
        return NavTrue;
      } else if pursuit.Halted? {
        return NavHalted(pursuit.stop);
      }
      r := NavigateOnceMore(found.value, speed, cmp);
    }

    /** The rescan after a failed pursuit and the recursive call, whose result
        is dropped. */
    method NavigateOnceMore(marker: Vision.Marker, speed: int, cmp: Comparator) returns (r: Navigation)
      requires Valid()
      modifies this, left, right, arm.board, grabber.board
      ensures Valid() && (r, Snap()) == NavigateAgain(old(Snap()), marker, speed, cmp, AsWritten)
      decreases |scans|, 0
    {
      var rescan := GetMarkers(None);
      if rescan.NoScan? {
        return NavHalted(OutOfScans);
      } else if rescan.Alarmed? {
        return NavHalted(Interrupted(rescan.alarm));
      }
      var again := FindByCode(rescan.markers, marker.code);
      var next := NavigateToMarker(if again.Some? then again.value else marker, speed, cmp);
      if next.NavHalted? {
        return next;
      }
      return NavNone;
    }
  }
}
