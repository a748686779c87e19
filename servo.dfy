/** Servo outputs for the grabber and the arm: a per-type table of angle bounds
    and board positions, range-checked writes, and clamping reads. */
module Servo {
  import opened Util

  /** One row of the servo table: angle bounds and where the servo is wired. */
  datatype ServoSpec = ServoSpec(min: int, max: int, board: nat, slot: int)

  /** SERVO_MAP, keyed by the upper-cased type name. */
  function ServoTable(key: string): Option<ServoSpec> {
    if key == "GRABBER" then Some(ServoSpec(1, 50, 0, 6))
    else if key == "ARM" then Some(ServoSpec(1, 81, 0, 0))
    else None
  }

  /** The checks the constructor makes before it touches any board: an unknown
      type is a TypeError, a board index past the robot's boards and a slot
      outside 0..7 are IndexErrors. */
  function Configure(kind: string, boardCount: nat): (r: Result<ServoSpec>)
    ensures ServoTable(Upper(kind)).None? <==> r == Err(TypeError)
    ensures r.Ok? ==> Some(r.value) == ServoTable(Upper(kind))
    ensures r.Ok? ==> r.value.board < boardCount && 0 <= r.value.slot <= 7
    ensures r.Ok? <==> ServoTable(Upper(kind)).Some? && ServoTable(Upper(kind)).value.board < boardCount
  {
    match ServoTable(Upper(kind))
    case None => Err(TypeError)
    case Some(spec) =>
      if boardCount - 1 < spec.board then Err(IndexError)
      else if spec.slot < 0 || spec.slot > 7 then Err(IndexError)
      else Ok(spec)
  }

  /** The grabber moves within [1, 50] on slot 6 and the arm within [1, 81] on
      slot 0, both on the first board, whatever the case of the type name. */
  lemma ServoBounds(boardCount: nat)
    requires boardCount > 0
    ensures Configure("grabber", boardCount) == Ok(ServoSpec(1, 50, 0, 6))
    ensures Configure("arm", boardCount) == Ok(ServoSpec(1, 81, 0, 0))
    ensures Configure("Grabber", boardCount) == Configure("GRABBER", boardCount) == Configure("grabber", boardCount)
    ensures Configure("wheel", boardCount) == Err(TypeError)
    ensures Configure("arm", 0) == Err(IndexError)
  {
    UpperGrabber();
    UpperArm();
    UpperWheel();
  }

  lemma UpperGrabber()
    ensures Upper("grabber") == Upper("Grabber") == Upper("GRABBER") == "GRABBER"
  {
    assert Upper("grabber") == "GRABBER";
    assert Upper("Grabber") == "GRABBER";
    assert Upper("GRABBER") == "GRABBER";
  }

  lemma UpperArm()
    ensures Upper("arm") == "ARM"
  {
    assert Upper("arm") == "ARM";
  }

  lemma UpperWheel()
    ensures Upper("wheel") == "WHEEL"
  {
    assert Upper("wheel") == "WHEEL";
  }

  /** The value get_angle reports for a stored angle: the nearer bound when
      the stored angle is out of range, the angle itself otherwise. */
  function Clamp(x: int, lo: int, hi: int): (r: int)
    requires lo <= hi
    ensures lo <= r <= hi
    ensures lo <= x <= hi ==> r == x
    ensures x < lo ==> r == lo
    ensures x > hi ==> r == hi
  {
    if x < lo then lo else if x > hi then hi else x
  }

  /** What get_angle does to a stored angle: the angle it returns, and the
      write-back it makes (only when the stored angle was out of range). */
  datatype Reading = Reading(angle: int, writeBack: Option<int>)

  function ReadEffect(stored: int, lo: int, hi: int): (r: Reading)
    requires lo <= hi
    ensures lo <= r.angle <= hi
    ensures r.writeBack.Some? <==> !(lo <= stored <= hi)
    ensures r.writeBack.Some? ==> r.writeBack.value == r.angle
  {
    if stored < lo then Reading(lo, Some(lo))
    else if stored > hi then Reading(hi, Some(hi))
    else Reading(stored, None)
  }

  /** get_angle is idempotent: reading again what the first read left behind
      yields the same angle and writes nothing. */
  lemma ReadIdempotent(stored: int, lo: int, hi: int)
    requires lo <= hi
    ensures var first := ReadEffect(stored, lo, hi);
            var after := if first.writeBack.Some? then first.writeBack.value else stored;
            ReadEffect(after, lo, hi) == Reading(first.angle, None)
  {
  }

  /** A servo board: eight outputs and the log of writes sent to it. */
  class ServoBoard {
    var angles: seq<int>
    var writes: seq<(nat, int)>

    constructor (initial: seq<int>)
      requires |initial| == 8
      ensures angles == initial && writes == []
    {
      angles := initial;
      writes := [];
    }

    method Write(slot: nat, angle: int)
      requires slot < |angles|
      modifies this
      ensures angles == old(angles)[slot := angle]
      ensures writes == old(writes) + [(slot, angle)]
    {
      angles := angles[slot := angle];
      writes := writes + [(slot, angle)];
    }
  }

  class ServoController {
    const board: ServoBoard
    const slot: nat
    const min: int
    const max: int

    ghost predicate Valid()
      reads this, board
    {
      slot < |board.angles| && min <= max
    }

    constructor (board: ServoBoard, spec: ServoSpec)
      requires 0 <= spec.slot < |board.angles| && spec.min <= spec.max
      ensures this.board == board && slot == spec.slot
      ensures min == spec.min && max == spec.max
      ensures Valid()
    {
      this.board := board;
      slot := spec.slot;
      min := spec.min;
      max := spec.max;
    }

    /** ServoController(robot, type): validates the type and the board index
        against `servos`, the robot's servo boards, each with eight outputs. */
    static method Create(servos: seq<ServoBoard>, kind: string) returns (r: Result<ServoController>)
      requires forall i :: 0 <= i < |servos| ==> |servos[i].angles| == 8
      ensures r.Err? <==> Configure(kind, |servos|).Err?
      ensures r.Err? ==> r.error == Configure(kind, |servos|).error
      ensures r.Ok? ==> var spec := Configure(kind, |servos|).value;
        r.value.board == servos[spec.board] && r.value.slot == spec.slot &&
        r.value.min == spec.min && r.value.max == spec.max && r.value.Valid()
    {
      var spec := Configure(kind, |servos|);
      if spec.Err? {
        return Err(spec.error);
      }
      var c := new ServoController(servos[spec.value.board], spec.value);
      return Ok(c);
    }

    /** set_angle: out-of-range angles raise ValueError and write nothing;
        any other angle is written to this servo's slot and nowhere else. */
    method SetAngle(angle: int) returns (err: Option<ErrorKind>)
      requires Valid()
      modifies board
      ensures Valid()
      ensures err.Some? <==> angle < min || angle > max
      ensures err.Some? ==> err.value == ValueError
      ensures err.Some? ==> board.angles == old(board.angles) && board.writes == old(board.writes)
      ensures err.None? ==> board.angles == old(board.angles)[slot := angle]
      ensures err.None? ==> board.writes == old(board.writes) + [(slot, angle)]
    {
      if angle < min || angle > max {
        return Some(ValueError);
      }
      board.Write(slot, angle);
      return None;
    }

    /** get_angle: always reports an angle within [min, max], writing the
        bound back only when the stored angle was out of range. */
    method GetAngle() returns (angle: int)
      requires Valid()
      modifies board
      ensures Valid()
      ensures var e := ReadEffect(old(board.angles[slot]), min, max);
        angle == e.angle &&
        (e.writeBack.None? ==> board.angles == old(board.angles) && board.writes == old(board.writes)) &&
        (e.writeBack.Some? ==> board.angles == old(board.angles)[slot := angle] &&
                               board.writes == old(board.writes) + [(slot, angle)])
    {
      angle := board.angles[slot];
      if angle < min {
        var _ := SetAngle(min);
        angle := min;
      } else if angle > max {
        var _ := SetAngle(max);
        angle := max;
      }
    }
  }
}
