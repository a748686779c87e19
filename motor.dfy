/** The two drive wheels: the constructor's table lookup, the forward /
    backward / stop power protocol with its opposing brake pulse, and the
    time <-> distance conversions derived from RPM and wheel circumference. */
module Motor {
  import opened Util

  /** What the constructor reads from MOTOR_RPM, MOTOR_MAP and DIAMETER. */
  datatype WheelSpec = WheelSpec(channel: nat, rpm: real, diameter: real)

  /** MOTOR_RPM of the wheel motor model '919D1481'. */
  const WheelModelRpm: real := 87.0
  /** DIAMETER['wheel'], in meters. */
  const WheelDiameter: real := 0.1013

  /** MOTOR_MAP['WHEELS'] entry per identifier: channel and RPM offset. */
  function WheelEntry(id: string): Option<(nat, real)> {
    if id == "LEFT" then Some((0, 8.0))
    else if id == "RIGHT" then Some((1, 0.0))
    else None
  }

  /** The constructor's validation: only type 'wheel' is known (TypeError
      otherwise) and only the identifiers of MOTOR_MAP (TypeError otherwise);
      the RPM is the model's RPM plus the identifier's offset. */
  function Configure(kind: string, id: string): (r: Result<WheelSpec>)
    ensures r.Err? ==> r.error == TypeError
    ensures r.Ok? <==> kind == "wheel" && WheelEntry(id).Some?
    ensures r.Ok? ==> r.value.rpm == WheelModelRpm + WheelEntry(id).value.1 &&
                      r.value.channel == WheelEntry(id).value.0 &&
                      r.value.diameter == WheelDiameter
  {
    if kind != "wheel" then Err(TypeError)
    else match WheelEntry(id)
      case None => Err(TypeError)
      case Some(entry) => Ok(WheelSpec(entry.0, WheelModelRpm + entry.1, WheelDiameter))
  }

  /** The left wheel runs at 87 + 8 RPM on channel 0, the right at 87 + 0 RPM
      on channel 1; other types and identifiers are rejected. */
  lemma WheelTable()
    ensures Configure("wheel", "LEFT") == Ok(WheelSpec(0, 95.0, 0.1013))
    ensures Configure("wheel", "RIGHT") == Ok(WheelSpec(1, 87.0, 0.1013))
    ensures Configure("WHEEL", "LEFT") == Err(TypeError)
    ensures Configure("wheel", "left") == Err(TypeError)
  {
  }

  /** A call made on a wheel. */
  datatype WheelOp = Forward(speed: real) | Backward(speed: real) | Halt

  /** The part of a wheel that its calls change: the pending brake direction
      `opp_dir`, and the log of power values written to the motor channel. */
  datatype WheelState = WheelState(oppDir: int, writes: seq<real>)

  /** stop: write the pending brake direction as the power, then clear it. */
  function Braked(st: WheelState): WheelState {
    WheelState(0, st.writes + [st.oppDir as real])
  }

  /** The effect of one call on a wheel. */
  function Apply(st: WheelState, op: WheelOp): (r: WheelState)
    ensures |r.writes| == |st.writes| + 1 && r.writes[..|st.writes|] == st.writes
    ensures -1 <= st.oppDir <= 1 ==> -1 <= r.oppDir <= 1
  {
    match op
    case Forward(s) => if s == 0.0 then Braked(st) else WheelState(-1, st.writes + [Abs(s)])
    case Backward(s) => if s == 0.0 then Braked(st) else WheelState(1, st.writes + [-Abs(s)])
    case Halt => Braked(st)
  }

  /** The brake pulse opposes the last drive: stopping after a non-zero
      forward or backward writes a unit power of the opposite sign. */
  lemma BrakeOpposesDrive(st: WheelState, op: WheelOp)
    requires op.Forward? || op.Backward?
    requires op.speed != 0.0
    ensures var driven := Apply(st, op);
            var stopped := Apply(driven, Halt);
            driven.writes[|st.writes|] * stopped.writes[|st.writes| + 1] < 0.0 &&
            Abs(stopped.writes[|st.writes| + 1]) == 1.0 &&
            stopped.oppDir == 0
  {
  }

  /** A second consecutive stop writes power 0: the pulse is given only once. */
  lemma SecondStopWritesZero(st: WheelState)
    ensures var once := Apply(st, Halt);
            Apply(once, Halt) == WheelState(0, st.writes + [st.oppDir as real, 0.0])
  {
  }

  /** A speed of 0 is a stop, whichever direction was asked for. */
  lemma ZeroSpeedIsStop(st: WheelState)
    ensures Apply(st, Forward(0.0)) == Apply(st, Backward(0.0)) == Apply(st, Halt)
  {
  }

  class MotorController {
    const channel: nat
    const rpm: real
    const diameter: real
    var oppDir: int
    var writes: seq<real>

    predicate Valid() {
      rpm > 0.0 && diameter > 0.0
    }

    function State(): WheelState
      reads this
    {
      WheelState(oppDir, writes)
    }

    constructor (spec: WheelSpec)
      ensures channel == spec.channel && rpm == spec.rpm && diameter == spec.diameter
      ensures State() == WheelState(0, [])
    {
      channel := spec.channel;
      rpm := spec.rpm;
      diameter := spec.diameter;
      oppDir := 0;
      writes := [];
    }

    /** MotorController(robot, type, id); the board and channel lookups on the
        robot's hardware are not part of the model. */
    static method Create(kind: string, id: string) returns (r: Result<MotorController>)
      ensures r.Err? <==> Configure(kind, id).Err?
      ensures r.Err? ==> r.error == Configure(kind, id).error
      ensures r.Ok? ==> var spec := Configure(kind, id).value;
        r.value.channel == spec.channel && r.value.rpm == spec.rpm &&
        r.value.diameter == spec.diameter && r.value.State() == WheelState(0, []) &&
        r.value.Valid() && fresh(r.value)
    {
      var spec := Configure(kind, id);
      if spec.Err? {
        return Err(spec.error);
      }
      var m := new MotorController(spec.value);
      return Ok(m);
    }

    method Forward(speed: real)
      modifies this
      ensures State() == Apply(old(State()), WheelOp.Forward(speed))
    {
      if speed == 0.0 {
        Stop();
        return;
      }
      oppDir := -1;
      writes := writes + [Abs(speed)];
    }

    method Backward(speed: real)
      modifies this
      ensures State() == Apply(old(State()), WheelOp.Backward(speed))
    {
      if speed == 0.0 {
        Stop();
        return;
      }
      oppDir := 1;
      writes := writes + [-Abs(speed)];
    }

    method Stop()
      modifies this
      ensures State() == Apply(old(State()), Halt)
    {
      writes := writes + [oppDir as real];
      oppDir := 0;
    }

    function Circumference(): real {
      diameter * Pi
    }

    /** Rotations made in `seconds` at full speed. */
    function Rotations(seconds: real): real {
      (rpm / 60.0) * seconds
    }

    /** Distance covered in `time` seconds at `speed` percent. */
    function CalcDistance(time: real, speed: real): real {
      Circumference() * Rotations(time) * (speed / 100.0)
    }

    /** Seconds needed to cover `dist` at `speed` percent; both signs are
        dropped, and a zero denominator is Python's ZeroDivisionError. */
    function CalcWaitTime(dist: real, speed: real): (r: Result<real>)
      requires Valid()
      ensures r.Err? <==> speed == 0.0
      ensures r.Err? ==> r.error == ZeroDivisionError
      ensures r.Ok? ==> r.value >= 0.0
      ensures r.Ok? && dist != 0.0 ==> r.value > 0.0
    {
      var denominator := rpm * Circumference() * Abs(speed);
      if denominator == 0.0 then Err(ZeroDivisionError)
      else Ok((6000.0 * Abs(dist)) / denominator)
    }

    /** The RPM that would explain covering `dist` in `duration` at `speed`. */
    function CalcRpm(duration: real, dist: real, speed: real): (r: Result<real>)
      requires Valid()
      ensures r.Err? <==> duration == 0.0 || speed == 0.0
    {
      var denominator := duration * Circumference() * speed;
      if denominator == 0.0 then Err(ZeroDivisionError)
      else Ok((6000.0 * dist) / denominator)
    }

    /** The wait time depends on the magnitudes only. */
    lemma WaitTimeIgnoresSigns(dist: real, speed: real)
      requires Valid()
      ensures CalcWaitTime(dist, speed) == CalcWaitTime(-dist, speed) == CalcWaitTime(dist, -speed)
    {
      assert Abs(-dist) == Abs(dist) && Abs(-speed) == Abs(speed);
      var den := rpm * Circumference() * Abs(speed);
      assert rpm * Circumference() * Abs(-speed) == den;
    }

    /** Driving for the computed wait time at a positive speed covers exactly
        the requested distance (in magnitude). */
    lemma DistanceOfWaitTime(dist: real, speed: real)
      requires Valid() && speed > 0.0
      ensures CalcDistance(CalcWaitTime(dist, speed).value, speed) == Abs(dist)
    {
      var c := Circumference();
      assert c > 0.0 by { PositiveProduct(diameter, Pi); }
      var t := CalcWaitTime(dist, speed).value;
      var k := rpm * c * speed;
      assert k > 0.0 by { PositiveProduct(rpm, c); PositiveProduct(rpm * c, speed); }
      assert t == 6000.0 * Abs(dist) / k;
      assert t * k == 6000.0 * Abs(dist) by { DivMul(6000.0 * Abs(dist), k); }
      calc {
        CalcDistance(t, speed);
        c * ((rpm / 60.0) * t) * (speed / 100.0);
        { Rearrange(c, rpm, t, speed); }
        (t * (rpm * c * speed)) / 6000.0;
        (t * k) / 6000.0;
        Abs(dist);
      }
    }

    /** Timing a journey of positive length planned with CalcWaitTime gives
        back this wheel's RPM. */
    lemma RpmOfWaitTime(dist: real, speed: real)
      requires Valid() && dist > 0.0 && speed > 0.0
      ensures CalcRpm(CalcWaitTime(dist, speed).value, dist, speed) == Ok(rpm)
    {
      var c := Circumference();
      assert c > 0.0 by { PositiveProduct(diameter, Pi); }
      var t := CalcWaitTime(dist, speed).value;
      var k := rpm * c * speed;
      assert k > 0.0 by { PositiveProduct(rpm, c); PositiveProduct(rpm * c, speed); }
      assert t == 6000.0 * dist / k;
      assert t * k == 6000.0 * dist by { DivMul(6000.0 * dist, k); }
      assert t > 0.0;
      var den := t * c * speed;
      assert den * rpm == t * k;
      assert den > 0.0 by { PositiveProduct(t, c); PositiveProduct(t * c, speed); }
      assert (6000.0 * dist) / den == rpm by { DivOfProduct(6000.0 * dist, den, rpm); }
      assert CalcRpm(t, dist, speed).Ok?;
      assert CalcRpm(t, dist, speed).value == (6000.0 * dist) / den;
    }
  }

  lemma PositiveProduct(a: real, b: real)
    requires a > 0.0 && b > 0.0
    ensures a * b > 0.0
  {
  }

  lemma NonNegativeProduct(a: real, b: real)
    requires a >= 0.0 && b >= 0.0
    ensures a * b >= 0.0
  {
  }

  lemma DivMul(x: real, y: real)
    requires y != 0.0
    ensures (x / y) * y == x
  {
  }

  lemma DivOfProduct(x: real, y: real, q: real)
    requires y != 0.0 && y * q == x
    ensures x / y == q
  {
  }

  lemma Rearrange(c: real, rpm: real, t: real, speed: real)
    ensures c * ((rpm / 60.0) * t) * (speed / 100.0) == (t * (rpm * c * speed)) / 6000.0
  {
  }
}
