/**
 * The robotics example (examples/robotics.rs): a robot that moves on a grid,
 * a control pad whose key press flips every 3000 reads, and the stages that
 * turn sensor readings into robot actions and apply them.
 */
module Robotics {
  import opened Wrappers
  import opened Stages

  datatype Direction = Left | Straight | Right
  datatype KeyPress = Stop | Go
  datatype SensorData = Camera(direction: Direction) | Controller(keyPress: KeyPress)
  datatype RobotAction = Shutdown | Startup | MoveLeft | MoveStraight | MoveRight
  datatype Facing = North | South | East | West

  /** A quarter turn to the left: North, West, South, East, North. */
  function TurnLeft(f: Facing): Facing
  {
    match f
    case North => West
    case West => South
    case South => East
    case East => North
  }

  /** A quarter turn to the right: North, East, South, West, North. */
  function TurnRight(f: Facing): Facing
  {
    match f
    case North => East
    case East => South
    case South => West
    case West => North
  }

  /** A left turn and a right turn cancel, and four turns either way face the same way again. */
  lemma TurnsCancel(f: Facing)
    ensures TurnRight(TurnLeft(f)) == f && TurnLeft(TurnRight(f)) == f
    ensures TurnLeft(TurnLeft(TurnLeft(TurnLeft(f)))) == f
    ensures TurnRight(TurnRight(TurnRight(TurnRight(f)))) == f
  {
  }

  function Abs(x: int): nat
  {
    if x < 0 then -x else x
  }

  /**
   * One unit step in the facing direction: North and South change the second
   * coordinate, East and West the first.
   */
  function Forward(location: (int, int), f: Facing): (r: (int, int))
    ensures Abs(r.0 - location.0) + Abs(r.1 - location.1) == 1
    ensures (f == North || f == South) <==> r.0 == location.0
    ensures (f == North || f == East) <==> r.0 + r.1 > location.0 + location.1
  {
    match f
    case North => (location.0, location.1 + 1)
    case South => (location.0, location.1 - 1)
    case East => (location.0 + 1, location.1)
    case West => (location.0 - 1, location.1)
  }

  /** The robot's fields. */
  datatype RobotState = RobotState(isActive: bool, location: (int, int), facing: Facing)

  /** `move_left` on an active robot: turn left, then step forward. */
  function MovedLeft(r: RobotState): (r': RobotState)
    ensures !r.isActive ==> r' == r
    ensures r.isActive ==> r'.isActive && r'.facing == TurnLeft(r.facing) && r'.location == Forward(r.location, r'.facing)
  {
    if r.isActive then
      var f := TurnLeft(r.facing);
      r.(facing := f, location := Forward(r.location, f))
    else r
  }

  /** `move_right` on an active robot: turn right, then step forward. */
  function MovedRight(r: RobotState): (r': RobotState)
    ensures !r.isActive ==> r' == r
    ensures r.isActive ==> r'.isActive && r'.facing == TurnRight(r.facing) && r'.location == Forward(r.location, r'.facing)
  {
    if r.isActive then
      var f := TurnRight(r.facing);
      r.(facing := f, location := Forward(r.location, f))
    else r
  }

  /** `move_straight` on an active robot: one step forward, facing unchanged. */
  function MovedStraight(r: RobotState): (r': RobotState)
    ensures !r.isActive ==> r' == r
    ensures r.isActive ==> r' == r.(location := Forward(r.location, r.facing))
  {
    if r.isActive then r.(location := Forward(r.location, r.facing)) else r
  }

  /** Four left moves bring an active robot back to where it started, facing the same way. */
  lemma FourLeftsReturn(r: RobotState)
    ensures MovedLeft(MovedLeft(MovedLeft(MovedLeft(r)))) == r
  {
    TurnsCancel(r.facing);
  }

  /** Four right moves bring an active robot back to where it started, facing the same way. */
  lemma FourRightsReturn(r: RobotState)
    ensures MovedRight(MovedRight(MovedRight(MovedRight(r)))) == r
  {
    TurnsCancel(r.facing);
  }

  /**
   * The action the robot interface applies. As written, `shutdown` ACTIVATES the
   * robot and `startup` deactivates it.
   */
  function Perform(r: RobotState, action: RobotAction): (r': RobotState)
    ensures action == Shutdown ==> r' == r.(isActive := true)
    ensures action == Startup ==> r' == r.(isActive := false)
    ensures action == MoveLeft ==> r' == MovedLeft(r)
    ensures action == MoveRight ==> r' == MovedRight(r)
    ensures action == MoveStraight ==> r' == MovedStraight(r)
  {
    match action
    case Shutdown => r.(isActive := true)
    case Startup => r.(isActive := false)
    case MoveLeft => MovedLeft(r)
    case MoveRight => MovedRight(r)
    case MoveStraight => MovedStraight(r)
  }

  /** An inactive robot ignores every move; only `shutdown` (as written) makes it move again. */
  lemma InactiveRobotStaysPut(r: RobotState, actions: seq<RobotAction>)
    requires !r.isActive && Shutdown !in actions
    ensures Performed(r, actions) == r
    decreases |actions|
  {
    if actions != [] {
      InactiveRobotStaysPut(Perform(r, actions[0]), actions[1..]);
    }
  }

  /** The robot after a sequence of actions, applied in order. */
  function Performed(r: RobotState, actions: seq<RobotAction>): (r': RobotState)
    ensures r'.facing != r.facing || r'.location != r.location ==> r.isActive || Shutdown in actions
    decreases |actions|
  {
    if actions == [] then r else Performed(Perform(r, actions[0]), actions[1..])
  }

  /** The robot object: `new`, `shutdown`, `startup` and the three moves update its fields in place. */
  class Robot {
    var isActive: bool
    var location: (int, int)
    var facing: Facing

    function State(): RobotState
      reads this
    {
      RobotState(isActive, location, facing)
    }

    /** `new`: active, at the origin, facing North. */
    constructor ()
      ensures State() == RobotState(true, (0, 0), North)
    {
      isActive := true;
      location := (0, 0);
      facing := North;
    }

    /** `shutdown`, as written: the robot is left active. */
    method Shutdown()
      modifies this
      ensures State() == Perform(old(State()), RobotAction.Shutdown)
    {
      isActive := true;
    }

    /** `startup`, as written: the robot is left inactive. */
    method Startup()
      modifies this
      ensures State() == Perform(old(State()), RobotAction.Startup)
    {
      isActive := false;
    }

    method MoveLeft()
      modifies this
      ensures State() == MovedLeft(old(State()))
    {
      if isActive {
        facing := TurnLeft(facing);
        location := Forward(location, facing);
      }
    }

    method MoveRight()
      modifies this
      ensures State() == MovedRight(old(State()))
    {
      if isActive {
        facing := TurnRight(facing);
        location := Forward(location, facing);
      }
    }

    method MoveStraight()
      modifies this
      ensures State() == MovedStraight(old(State()))
    {
      if isActive {
        location := Forward(location, facing);
      }
    }
  }

  /** The number of reads after which the control pad reports a key press. */
  const TogglePeriod: nat := 3000

  function Opposite(k: KeyPress): KeyPress
  {
    match k
    case Go => Stop
    case Stop => Go
  }

  /** The control pad's fields: the read counter and the recorded key press, which nothing updates. */
  datatype ControllerState = ControllerState(readAttempts: nat, lastKeyPress: KeyPress)

  /**
   * `read_last_keypress`: below 3000 the counter goes up by one and nothing is
   * reported; at 3000 it goes back to 0 and the opposite of the recorded key
   * press is reported. The counter never leaves 0..3000.
   */
  function ReadKeypress(c: ControllerState): (r: (Option<KeyPress>, ControllerState))
    ensures r.1.lastKeyPress == c.lastKeyPress
    ensures r.0.Some? <==> c.readAttempts == TogglePeriod
    ensures r.0.Some? ==> r.0.value == Opposite(c.lastKeyPress) && r.1.readAttempts == 0
    ensures r.0.None? ==> r.1.readAttempts == c.readAttempts + 1
    ensures c.readAttempts <= TogglePeriod ==> r.1.readAttempts <= TogglePeriod
  {
    if c.readAttempts == TogglePeriod then
      (Some(Opposite(c.lastKeyPress)), c.(readAttempts := 0))
    else
      (None, c.(readAttempts := c.readAttempts + 1))
  }

  /** The reports of `n` successive reads, and the pad afterwards. */
  function ReadMany(c: ControllerState, n: nat): (r: (seq<Option<KeyPress>>, ControllerState))
    ensures |r.0| == n
    decreases n
  {
    if n == 0 then ([], c)
    else
      var (k, c') := ReadKeypress(c);
      var (rest, last) := ReadMany(c', n - 1);
      ([k] + rest, last)
  }

  /**
   * From any counter value up to 3000, the reads report nothing until the
   * counter reaches 3000; that read reports the opposite key and resets the counter.
   */
  lemma {:induction false} ReadsUntilToggle(c: ControllerState)
    requires c.readAttempts <= TogglePeriod
    ensures var n := TogglePeriod - c.readAttempts;
            ReadMany(c, n + 1) == (seq(n, _ => None) + [Some(Opposite(c.lastKeyPress))], c.(readAttempts := 0))
    decreases TogglePeriod - c.readAttempts
  {
    var n := TogglePeriod - c.readAttempts;
    var expected := seq<Option<KeyPress>>(n, _ => None) + [Some(Opposite(c.lastKeyPress))];
    if n > 0 {
      var c' := c.(readAttempts := c.readAttempts + 1);
      ReadsUntilToggle(c');
      assert ReadMany(c, n + 1) == ([None] + ReadMany(c', n).0, ReadMany(c', n).1);
      assert [None] + (seq<Option<KeyPress>>(n - 1, _ => None) + [Some(Opposite(c.lastKeyPress))]) == expected;
    } else {
      assert ReadMany(c, 1) == ([Some(Opposite(c.lastKeyPress))] + [], c.(readAttempts := 0));
      assert [Some(Opposite(c.lastKeyPress))] + [] == expected;
    }
  }

  /** A new pad (counter 0, recorded key `Stop`) reports nothing 3000 times and then `Go`. */
  lemma NewControllerReportsGo()
    ensures ReadMany(ControllerState(0, Stop), TogglePeriod + 1) ==
              (seq(TogglePeriod, _ => None) + [Some(Go)], ControllerState(0, Stop))
  {
    ReadsUntilToggle(ControllerState(0, Stop));
  }

  /** The control pad object; its counter stays within 0..3000, so the `u32` never overflows. */
  class ControlPad {
    var readAttempts: nat
    const lastKeyPress: KeyPress

    function State(): ControllerState
      reads this
    {
      ControllerState(readAttempts, lastKeyPress)
    }

    predicate Valid()
      reads this
    {
      readAttempts <= TogglePeriod
    }

    /** `new`: counter 0, recorded key `Stop`. */
    constructor ()
      ensures Valid() && State() == ControllerState(0, Stop)
    {
      readAttempts := 0;
      lastKeyPress := Stop;
    }

    method ReadLastKeypress() returns (keyPress: Option<KeyPress>)
      requires Valid()
      modifies this
      ensures Valid() && (keyPress, State()) == ReadKeypress(old(State()))
    {
      if readAttempts == TogglePeriod {
        readAttempts := 0;
        keyPress := Some(Opposite(lastKeyPress));
      } else {
        readAttempts := readAttempts + 1;
        keyPress := None;
      }
    }
  }

  /** `ControllerSensor`: each received tick reads the pad; a report becomes sensor data. */
  function ControllerSensor(pad: ControllerState, received: Option<()>): (r: (ControllerState, Option<SensorData>))
    ensures received.None? ==> r == (pad, None)
    ensures received.Some? ==> r.1.Some? == ReadKeypress(pad).0.Some? && r.0 == ReadKeypress(pad).1
    ensures r.1.Some? ==> r.1.value == Controller(ReadKeypress(pad).0.value)
  {
    if received.None? then (pad, None)
    else
      var (k, pad') := ReadKeypress(pad);
      (pad', if k.Some? then Some(Controller(k.value)) else None)
  }

  /** `SensorProcessor`'s mapping: camera directions become moves, `Go` starts up and `Stop` shuts down. */
  function ActionFor(data: SensorData): (a: RobotAction)
    ensures data.Camera? <==> a in {MoveLeft, MoveStraight, MoveRight}
    ensures data == Controller(Go) <==> a == Startup
    ensures data == Controller(Stop) <==> a == Shutdown
  {
    match data
    case Camera(Left) => MoveLeft
    case Camera(Straight) => MoveStraight
    case Camera(Right) => MoveRight
    case Controller(Go) => Startup
    case Controller(Stop) => Shutdown
  }

  /** Different sensor readings lead to different actions. */
  lemma ActionForIsInjective(d1: SensorData, d2: SensorData)
    requires ActionFor(d1) == ActionFor(d2)
    ensures d1 == d2
  {
  }

  /** `SensorProcessor` as a stage transform: an action for every reading, nothing without one. */
  function SensorProcessor(config: (), received: Option<SensorData>): (r: ((), Option<RobotAction>))
    ensures r.1.Some? <==> received.Some?
    ensures received.Some? ==> r.1.value == ActionFor(received.value)
  {
    ((), if received.Some? then Some(ActionFor(received.value)) else None)
  }

  /** `RobotInterface` as a stage transform: apply the action to the robot and report `true`. */
  function RobotInterface(robot: RobotState, received: Option<RobotAction>): (r: (RobotState, Option<bool>))
    ensures received.None? ==> r == (robot, None)
    ensures received.Some? ==> r == (Perform(robot, received.value), Some(true))
  {
    if received.None? then (robot, None) else (Perform(robot, received.value), Some(true))
  }

  /**
   * One `process` of the robot interface stage: with an action queued, the most
   * recent one is applied and `true` is reported; with none, nothing happens.
   */
  lemma RobotInterfaceStep(s: StageState<RobotState, RobotAction, bool>)
    ensures var (s', processed) := Step(RobotInterface, s);
            && (s.inbox == [] ==> s' == s && !processed)
            && (s.inbox != [] ==>
                  && processed
                  && s' == StageState(Perform(s.config, s.inbox[|s.inbox| - 1]), s.inbox[..|s.inbox| - 1], s.outbox + [true]))
  {
  }
}
