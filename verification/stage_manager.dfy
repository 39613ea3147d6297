/**
 The ESP32 stage positioner
 (imswitch/imcontrol/model/managers/positioners/ESP32StageManagerEE.py):
 the move command `<S{1|2|3}{P|N}{magnitude}>` and the advisory position map,
 which the manager updates right after writing and never confirms with the
 hardware. The rs232 manager's `query` hands the command straight to the
 driver's write, so a move is modelled as a write on the shared Driver.
 */
module StageManager {

  import opened Options
  import opened Decimal
  import opened Esp32Driver

  function Abs(x: int): (a: nat)
    ensures a == x || a == -x
  {
    if x < 0 then -x else x
  }

  /** The serial channel digit of an axis label; only X, Y and Z have one. */
  function AxisDigit(axis: string): (c: Option<char>)
    ensures c.Some? <==> axis in {"X", "Y", "Z"}
    ensures axis == "X" ==> c == Some('1')
    ensures axis == "Y" ==> c == Some('2')
    ensures axis == "Z" ==> c == Some('3')
  {
    if axis == "X" then Some('1')
    else if axis == "Y" then Some('2')
    else if axis == "Z" then Some('3')
    else None
  }

  /** The axis label a channel digit stands for. */
  function DigitAxis(c: char): Option<string> {
    if c == '1' then Some("X")
    else if c == '2' then Some("Y")
    else if c == '3' then Some("Z")
    else None
  }

  /** The direction letter; zero counts as positive. */
  function Direction(value: int): (c: char)
    ensures c == 'N' <==> value < 0
    ensures c != 'N' ==> c == 'P'
  {
    if value < 0 then 'N' else 'P'
  }

  /** The command `move` sends, or None for an axis outside X, Y, Z. */
  function MoveCommand(value: int, axis: string): (cmd: Option<string>)
    ensures cmd.Some? <==> axis in {"X", "Y", "Z"}
    ensures cmd.Some? ==>
      cmd.value == "<S" + [AxisDigit(axis).value] + [Direction(value)] + NatToString(Abs(value)) + ">"
  {
    match AxisDigit(axis)
    case Some(digit) => Some("<S" + [digit] + [Direction(value)] + NatToString(Abs(value)) + ">")
    case None => None
  }

  /**
   Reads a move command back into its axis and signed distance. A negative
   zero (`N0`) is refused because `move` never produces it.
   */
  function DecodeMove(cmd: string): Option<(string, int)> {
    if |cmd| < 6 || cmd[..2] != "<S" || cmd[|cmd| - 1] != '>' then None
    else
      match DigitAxis(cmd[2])
      case None => None
      case Some(axis) =>
        if cmd[3] != 'P' && cmd[3] != 'N' then None
        else
          match ParseNat(cmd[4..|cmd| - 1])
          case None => None
          case Some(n) =>
            if cmd[3] == 'N' then (if n == 0 then None else Some((axis, 0 - n)))
            else Some((axis, n as int))
  }

  /** The digit run of a move command is `str(abs(value))` and nothing else. */
  lemma MoveCommandShape(value: int, axis: string)
    requires axis in {"X", "Y", "Z"}
    ensures var cmd := MoveCommand(value, axis).value;
      && |cmd| >= 6 && cmd[..2] == "<S" && cmd[|cmd| - 1] == '>'
      && '1' <= cmd[2] <= '3'
      && (cmd[3] == 'N' <==> value < 0) && (cmd[3] == 'P' <==> value >= 0)
      && cmd[4..|cmd| - 1] == NatToString(Abs(value))
      && AllDigits(cmd[4..|cmd| - 1])
  {
  }

  lemma MoveCommandRoundTrip(value: int, axis: string)
    requires axis in {"X", "Y", "Z"}
    ensures DecodeMove(MoveCommand(value, axis).value) == Some((axis, value))
  {
    var cmd := MoveCommand(value, axis).value;
    MoveCommandShape(value, axis);
    ParseNatExact(cmd[4..|cmd| - 1], Abs(value));
  }

  /** Every command DecodeMove accepts is exactly what `move` sends for it. */
  lemma DecodeMoveSound(cmd: string, axis: string, value: int)
    requires DecodeMove(cmd) == Some((axis, value))
    ensures MoveCommand(value, axis) == Some(cmd)
  {
    var digits := cmd[4..|cmd| - 1];
    ParseNatExact(digits, Abs(value));
    assert cmd == cmd[..2] + [cmd[2]] + [cmd[3]] + digits + [cmd[|cmd| - 1]];
  }

  /** Distinct moves send distinct commands. */
  lemma MoveCommandInjective(v1: int, a1: string, v2: int, a2: string)
    requires MoveCommand(v1, a1).Some? && MoveCommand(v1, a1) == MoveCommand(v2, a2)
    ensures v1 == v2 && a1 == a2
  {
    MoveCommandRoundTrip(v1, a1);
    MoveCommandRoundTrip(v2, a2);
  }

  datatype Stage = Stage(position: map<string, int>)

  /** The constructor: every configured axis starts at 0. */
  function Init(axes: seq<string>): (s: Stage)
    ensures forall a :: a in s.position <==> a in axes
    ensures forall a :: a in s.position ==> s.position[a] == 0
  {
    Stage(map a | a in axes :: 0)
  }

  datatype MoveStatus =
    | Sent             // command written (if connected) and position updated
    | WrongAxis        // axis outside X, Y, Z: warning logged, nothing sent
    | MissingPosition  // command written, then the position lookup raised KeyError

  datatype Step = Step(stage: Stage, driver: Driver, status: MoveStatus)

  /** `move(value, axis)`. */
  function Move(s: Stage, d: Driver, value: int, axis: string): (r: Step)
    ensures axis !in {"X", "Y", "Z"} ==> r == Step(s, d, WrongAxis)
    ensures axis in {"X", "Y", "Z"} ==> r.driver == Write(d, MoveCommand(value, axis).value)
    ensures axis in {"X", "Y", "Z"} && axis in s.position ==>
      r.status == Sent && r.stage.position == s.position[axis := s.position[axis] + Abs(value)]
    ensures axis in {"X", "Y", "Z"} && axis !in s.position ==>
      r.status == MissingPosition && r.stage == s
  {
    match MoveCommand(value, axis)
    case None => Step(s, d, WrongAxis)
    case Some(cmd) =>
      var d' := Write(d, cmd);
      if axis in s.position then
        Step(s.(position := s.position[axis := s.position[axis] + Abs(value)]), d', Sent)
      else
        Step(s, d', MissingPosition)
  }

  /** `setPosition(value, axis)`: overwrites (or adds) one axis. */
  function SetPosition(s: Stage, value: int, axis: string): (r: Stage)
    ensures axis in r.position && r.position[axis] == value
    ensures forall a :: a != axis ==> (a in r.position <==> a in s.position)
    ensures forall a :: a != axis && a in s.position ==> r.position[a] == s.position[a]
  {
    s.(position := s.position[axis := value])
  }

  /**
   No move ever lowers a tracked position, not even a negative one, and
   every other axis keeps its value.
   */
  lemma MoveNeverDecreases(s: Stage, d: Driver, value: int, axis: string)
    ensures forall a :: a in Move(s, d, value, axis).stage.position <==> a in s.position
    ensures forall a :: a in s.position ==> Move(s, d, value, axis).stage.position[a] >= s.position[a]
    ensures forall a :: a != axis && a in s.position ==>
      Move(s, d, value, axis).stage.position[a] == s.position[a]
  {
  }

  /**
   Position tracking ignores the connection: on a driver whose port never
   opened nothing is transmitted, yet the position still advances.
   */
  lemma DisconnectedMoveStillCounts(s: Stage, d: Driver, value: int, axis: string)
    requires !d.connected && axis in {"X", "Y", "Z"} && axis in s.position
    ensures Move(s, d, value, axis).driver == d
    ensures Move(s, d, value, axis).stage.position[axis] == s.position[axis] + Abs(value)
  {
  }

  /** A sequence of `move` calls, each a (value, axis) pair. */
  function RunMoves(s: Stage, d: Driver, moves: seq<(int, string)>): Step
    decreases |moves|
  {
    if moves == [] then Step(s, d, Sent)
    else
      var r := Move(s, d, moves[0].0, moves[0].1);
      RunMoves(r.stage, r.driver, moves[1..])
  }

  /** Total distance, ignoring sign, that `move` accepts for one axis. */
  function Travel(moves: seq<(int, string)>, axis: string): nat
    decreases |moves|
  {
    if moves == [] then 0
    else
      var counted := moves[0].1 == axis && axis in {"X", "Y", "Z"};
      (if counted then Abs(moves[0].0) else 0) + Travel(moves[1..], axis)
  }

  /**
   After any sequence of moves, a tracked axis has advanced by exactly the
   sum of the absolute values requested for it; the tracked axes stay the same.
   */
  lemma {:induction false} RunMovesTracksTravel(s: Stage, d: Driver, moves: seq<(int, string)>, axis: string)
    requires axis in s.position
    ensures RunMoves(s, d, moves).stage.position.Keys == s.position.Keys
    ensures RunMoves(s, d, moves).stage.position[axis] == s.position[axis] + Travel(moves, axis)
    decreases |moves|
  {
    if moves != [] {
      var r := Move(s, d, moves[0].0, moves[0].1);
      MoveNeverDecreases(s, d, moves[0].0, moves[0].1);
      assert r.stage.position.Keys == s.position.Keys;
      assert r.stage.position[axis]
        == s.position[axis] + (if moves[0].1 == axis && axis in {"X", "Y", "Z"} then Abs(moves[0].0) else 0);
      RunMovesTracksTravel(r.stage, r.driver, moves[1..], axis);
    }
  }

  /** From construction, a configured axis reads the total travel requested on it. */
  lemma PositionFromInit(axes: seq<string>, d: Driver, moves: seq<(int, string)>, axis: string)
    requires axis in axes
    ensures axis in RunMoves(Init(axes), d, moves).stage.position
    ensures RunMoves(Init(axes), d, moves).stage.position[axis] == Travel(moves, axis)
  {
    RunMovesTracksTravel(Init(axes), d, moves, axis);
  }

}
