/**
 * One vehicle of the intersection (src/cars.rs): its route, its speed ramp
 * towards a target speed, its movement along the lane it is in, and the
 * forward radar rectangle used to detect hazards ahead.
 *
 * Screen coordinates: x grows to the right, y grows downwards. The screen
 * centre (cx, cy) is a parameter wherever the source asks the window for it.
 */
module Cars {

  // ---------------------------------------------------------------------------
  // Routes
  // ---------------------------------------------------------------------------

  /** The direction a car travels in before it reaches the intersection. */
  datatype Approach = Up | Right | Down | Left

  /** What the car does at the intersection. */
  datatype Turn = TurnRight | Straight | TurnLeft

  /** The route tag of a car; any tag outside the twelve known ones is Unknown. */
  datatype Direction = Route(approach: Approach, turn: Turn) | Unknown

  /** The route tag as the source spells it ("stright" included). */
  function Tag(d: Direction): string
    requires d.Route?
  {
    match d
    case Route(Up, TurnRight) => "up_right"
    case Route(Up, Straight) => "up_stright"
    case Route(Up, TurnLeft) => "up_left"
    case Route(Right, TurnRight) => "right_right"
    case Route(Right, Straight) => "right_stright"
    case Route(Right, TurnLeft) => "right_left"
    case Route(Down, TurnRight) => "down_right"
    case Route(Down, Straight) => "down_stright"
    case Route(Down, TurnLeft) => "down_left"
    case Route(Left, TurnRight) => "left_right"
    case Route(Left, Straight) => "left_stright"
    case Route(Left, TurnLeft) => "left_left"
  }

  /** Reads a route tag; a tag that is none of the twelve yields Unknown. */
  function ParseDirection(tag: string): (d: Direction)
    ensures d.Route? ==> Tag(d) == tag
    ensures d == Unknown ==> forall r: Direction :: r.Route? ==> Tag(r) != tag
  {
    if tag == "up_right" then Route(Up, TurnRight)
    else if tag == "up_stright" then Route(Up, Straight)
    else if tag == "up_left" then Route(Up, TurnLeft)
    else if tag == "right_right" then Route(Right, TurnRight)
    else if tag == "right_stright" then Route(Right, Straight)
    else if tag == "right_left" then Route(Right, TurnLeft)
    else if tag == "down_right" then Route(Down, TurnRight)
    else if tag == "down_stright" then Route(Down, Straight)
    else if tag == "down_left" then Route(Down, TurnLeft)
    else if tag == "left_right" then Route(Left, TurnRight)
    else if tag == "left_stright" then Route(Left, Straight)
    else if tag == "left_left" then Route(Left, TurnLeft)
    else Unknown
  }

  /** Every known route is read back from its own tag. */
  lemma ParseTag(d: Direction)
    requires d.Route?
    ensures ParseDirection(Tag(d)) == d
  {
  }

  // ---------------------------------------------------------------------------
  // Geometry
  // ---------------------------------------------------------------------------

  datatype Point = Point(x: real, y: real)

  /** An axis-aligned rectangle given by its top-left corner, width and height. */
  datatype Rect = Rect(x: real, y: real, w: real, h: real) {
    function Left(): real { x }
    function Right(): real { x + w }
    function Top(): real { y }
    function Bottom(): real { y + h }
  }

  const East := Point(1.0, 0.0)
  const West := Point(-1.0, 0.0)
  const North := Point(0.0, -1.0)
  const South := Point(0.0, 1.0)
  const Still := Point(0.0, 0.0)

  /** The heading of the lane a route starts in. */
  function ApproachHeading(a: Approach): Point {
    match a
    case Up => North
    case Right => East
    case Down => South
    case Left => West
  }

  /** A quarter turn clockwise as seen on the screen. */
  function Clockwise(v: Point): Point {
    Point(-v.y, v.x)
  }

  /** A quarter turn counter-clockwise as seen on the screen. */
  function CounterClockwise(v: Point): Point {
    Point(v.y, -v.x)
  }

  /** The heading of the lane a route leaves the intersection in. */
  function ExitHeading(d: Direction): Point
    requires d.Route?
  {
    var v := ApproachHeading(d.approach);
    match d.turn
    case TurnRight => Clockwise(v)
    case Straight => v
    case TurnLeft => CounterClockwise(v)
  }

  predicate IsAxisUnit(h: Point) {
    h == East || h == West || h == North || h == South
  }

  /**
   * The heading of a car with route `d` at position `p`: the approach lane's
   * heading until the car passes its route's turning line, the exit lane's
   * heading after it, and no movement at all for an unknown route.
   */
  function Heading(d: Direction, p: Point, cx: real, cy: real): (h: Point)
    ensures d == Unknown <==> h == Still
    ensures d.Route? ==> IsAxisUnit(h)
    ensures d.Route? ==> h == ApproachHeading(d.approach) || h == ExitHeading(d)
    ensures d.Route? && d.turn == Straight ==> h == ApproachHeading(d.approach)
  {
    match d
    case Route(Up, TurnRight) => if p.y < cy + 80.0 then East else North
    case Route(Up, Straight) => North
    case Route(Up, TurnLeft) => if p.y < cy - 40.0 then West else North
    case Route(Right, TurnRight) => if p.x < cx - 115.0 then East else South
    case Route(Right, Straight) => East
    case Route(Right, TurnLeft) => if p.x < cx + 5.0 then East else North
    case Route(Down, TurnRight) => if p.y < cy - 125.0 then South else West
    case Route(Down, Straight) => South
    case Route(Down, TurnLeft) => if p.y < cy - 5.0 then South else East
    case Route(Left, TurnRight) => if p.x > cx + 85.0 then West else North
    case Route(Left, Straight) => West
    case Route(Left, TurnLeft) => if p.x > cx - 35.0 then West else South
    case Unknown => Still
  }

  /** A straight route's heading depends neither on the position nor on the screen. */
  lemma StraightHeadingIsConstant(d: Direction, p: Point, q: Point, cx: real, cy: real, cx': real, cy': real)
    requires d.Route? && d.turn == Straight
    ensures Heading(d, p, cx, cy) == Heading(d, q, cx', cy')
  {
  }

  /** `p` moved by `step` along the heading reported at `p`. */
  function Advance(d: Direction, p: Point, cx: real, cy: real, step: real): (q: Point)
    ensures q.x == p.x || q.y == p.y
    ensures d == Unknown ==> q == p
  {
    var h := Heading(d, p, cx, cy);
    Point(p.x + step * h.x, p.y + step * h.y)
  }

  /**
   * Once a car has turned into its exit lane it stays there: moving along the
   * exit heading never changes the coordinate its turning line is drawn on.
   */
  lemma TurnIsFinal(d: Direction, p: Point, cx: real, cy: real, step: real)
    requires d.Route? && Heading(d, p, cx, cy) == ExitHeading(d)
    ensures Heading(d, Advance(d, p, cx, cy, step), cx, cy) == ExitHeading(d)
  {
  }

  /**
   * How far a car must move along its approach heading from `p` to be past its
   * route's turning line; zero once it is past it.
   */
  function DistanceToTurn(d: Direction, p: Point, cx: real, cy: real): real
    requires d.Route?
  {
    match d
    case Route(Up, TurnRight) => if p.y < cy + 80.0 then 0.0 else p.y - cy - 79.0
    case Route(Up, TurnLeft) => if p.y < cy - 40.0 then 0.0 else p.y - cy + 41.0
    case Route(Right, TurnRight) => if p.x < cx - 115.0 then cx - 115.0 - p.x else 0.0
    case Route(Right, TurnLeft) => if p.x < cx + 5.0 then cx + 5.0 - p.x else 0.0
    case Route(Down, TurnRight) => if p.y < cy - 125.0 then cy - 125.0 - p.y else 0.0
    case Route(Down, TurnLeft) => if p.y < cy - 5.0 then cy - 5.0 - p.y else 0.0
    case Route(Left, TurnRight) => if p.x > cx + 85.0 then p.x - cx - 85.0 else 0.0
    case Route(Left, TurnLeft) => if p.x > cx - 35.0 then p.x - cx + 35.0 else 0.0
    case Route(_, Straight) => 0.0
  }

  /**
   * Every turning route does turn: from any position, moving far enough along
   * the heading brings the car past its turning line and into its exit lane.
   */
  lemma TurnIsReached(d: Direction, p: Point, cx: real, cy: real)
    requires d.Route? && d.turn != Straight
    ensures exists step: real :: 0.0 <= step && Heading(d, Advance(d, p, cx, cy, step), cx, cy) == ExitHeading(d)
  {
    var step := DistanceToTurn(d, p, cx, cy);
    assert 0.0 <= step && Heading(d, Advance(d, p, cx, cy, step), cx, cy) == ExitHeading(d);
  }

  /** The car's body: the rectangle of its size anchored at its position. */
  function BodyRect(p: Point, width: int, height: int): (r: Rect)
    ensures r.Left() == p.x && r.Top() == p.y
    ensures r.Right() == p.x + width as real && r.Bottom() == p.y + height as real
  {
    Rect(p.x, p.y, width as real, height as real)
  }

  const RadarLength: real := 70.0

  /**
   * The radar `r` lies ahead of body `b` for heading `h`: it starts at the
   * body's leading edge, reaches RadarLength further along the heading, and
   * spans the same cross-extent as the body.
   */
  predicate Ahead(r: Rect, b: Rect, h: Point) {
    && (h == East ==>
          r.Left() == b.Right() && r.Right() == b.Right() + RadarLength
          && r.Top() == b.Top() && r.Bottom() == b.Bottom())
    && (h == West ==>
          r.Right() == b.Left() && r.Left() == b.Left() - RadarLength
          && r.Top() == b.Top() && r.Bottom() == b.Bottom())
    && (h == South ==>
          r.Top() == b.Bottom() && r.Bottom() == b.Bottom() + RadarLength
          && r.Left() == b.Left() && r.Right() == b.Right())
    && (h == North ==>
          r.Bottom() == b.Top() && r.Top() == b.Top() - RadarLength
          && r.Left() == b.Left() && r.Right() == b.Right())
  }

  /** The forward radar rectangle of a car; an empty rectangle when it has no heading. */
  function Radar(d: Direction, p: Point, width: int, height: int, cx: real, cy: real): (r: Rect)
    ensures Ahead(r, BodyRect(p, width, height), Heading(d, p, cx, cy))
    ensures d == Unknown <==> r == Rect(p.x, p.y, 0.0, 0.0)
  {
    var h := Heading(d, p, cx, cy);
    var w := width as real;
    var hh := height as real;
    if h.x > 0.1 then Rect(p.x + w, p.y, RadarLength, hh)
    else if h.x < -0.1 then Rect(p.x - RadarLength, p.y, RadarLength, hh)
    else if h.y > 0.1 then Rect(p.x, p.y + hh, w, RadarLength)
    else if h.y < -0.1 then Rect(p.x, p.y - RadarLength, w, RadarLength)
    else Rect(p.x, p.y, 0.0, 0.0)
  }

  // ---------------------------------------------------------------------------
  // Speed
  // ---------------------------------------------------------------------------

  /** Acceleration towards a higher target speed, in speed units per second. */
  const Accel: real := 400.0

  /** Deceleration towards a lower target speed: twice the acceleration. */
  const Brake: real := 2.0 * Accel

  /** The speed after one frame of the ramp towards `target`, clamped at the target. */
  function NextSpeed(speed: real, target: real, dt: real): (s: real)
    ensures speed == target ==> s == speed
    ensures dt >= 0.0 && speed <= target ==> speed <= s <= target
    ensures dt >= 0.0 && speed >= target ==> target <= s <= speed
    ensures speed < target && speed + Accel * dt <= target ==> s == speed + Accel * dt
    ensures speed > target && speed - Brake * dt >= target ==> s == speed - Brake * dt
    // a step that would overshoot lands exactly on the target
    ensures speed < target && speed + Accel * dt > target ==> s == target
    ensures speed > target && speed - Brake * dt < target ==> s == target
  {
    if speed < target then
      var s := speed + Accel * dt;
      if s > target then target else s
    else if speed > target then
      var s := speed - Accel * 2.0 * dt;
      if s < target then target else s
    else speed
  }

  /** The compass angle, in degrees, of the sprite facing along an axis heading. */
  function Facing(h: Point): real {
    if h.x > 0.0 then 90.0
    else if h.x < 0.0 then 270.0
    else if h.y > 0.0 then 180.0
    else 0.0
  }

  /** The approach heading of a route, none for an unknown one. */
  function ApproachOf(d: Direction): Point {
    if d.Route? then ApproachHeading(d.approach) else Still
  }

  /**
   * The sprite angle after one frame: the facing of the heading moved along
   * once the car is in its exit lane (and for up_right throughout), the old
   * angle otherwise.
   */
  function NextRotation(d: Direction, p: Point, cx: real, cy: real, rotation: real): (r: real)
    ensures r == rotation || r in {0.0, 90.0, 180.0, 270.0}
    ensures d == Unknown || (d.Route? && d.turn == Straight) ==> r == rotation
  {
    var h := Heading(d, p, cx, cy);
    if d == Route(Up, TurnRight) || h != ApproachOf(d) then Facing(h) else rotation
  }

  // ---------------------------------------------------------------------------
  // The car object
  // ---------------------------------------------------------------------------

  class Car {
    var direction: Direction
    var width: int
    var height: int
    var cord: Point
    var speed: real
    var targetSpeed: real
    var maxSpeed: real
    var rotation: real

    /** Speeds stay between 0 and the car's maximum speed. */
    predicate SpeedInRange()
      reads this
    {
      0.0 <= targetSpeed <= maxSpeed && 0.0 <= speed <= maxSpeed
    }

    /**
     * A new car cruising at its initial speed, which the simulation draws
     * from [150, 250).
     */
    constructor (tag: string, width: int, height: int, cord: Point, rotation: real, initialSpeed: real)
      requires 150.0 <= initialSpeed < 250.0
      ensures direction == ParseDirection(tag)
      ensures this.width == width && this.height == height
      ensures this.cord == cord && this.rotation == rotation
      ensures speed == initialSpeed && targetSpeed == initialSpeed && maxSpeed == initialSpeed
      ensures SpeedInRange()
    {
      direction := ParseDirection(tag);
      this.width := width;
      this.height := height;
      this.cord := cord;
      speed := initialSpeed;
      targetSpeed := initialSpeed;
      maxSpeed := initialSpeed;
      this.rotation := rotation;
    }

    /**
     * One frame: ramp the speed towards the target, then move speed * dt
     * along the heading the car had at its old position, turning the sprite
     * to face the exit lane once the car has turned.
     */
    method Update(dt: real, cx: real, cy: real)
      modifies this
      ensures speed == NextSpeed(old(speed), old(targetSpeed), dt)
      ensures cord == Advance(old(direction), old(cord), cx, cy, speed * dt)
      ensures rotation == NextRotation(old(direction), old(cord), cx, cy, old(rotation))
      ensures direction == old(direction) && width == old(width) && height == old(height)
      ensures targetSpeed == old(targetSpeed) && maxSpeed == old(maxSpeed)
      ensures dt >= 0.0 && old(SpeedInRange()) ==> SpeedInRange()
    {
      Ramp(dt);
      var step := speed * dt;
      ghost var p, d, s := cord, direction, speed;
      assert p == old(cord) && d == old(direction);
      Move(step, cx, cy);
      assert speed == s && direction == d && step == speed * dt;
    }

    /** The speed half of Update: accelerate or brake towards the target speed. */
    method Ramp(dt: real)
      modifies this`speed
      ensures speed == NextSpeed(old(speed), targetSpeed, dt)
    {
      var accel := Accel;
      if speed < targetSpeed {
        speed := speed + accel * dt;
        if speed > targetSpeed { speed := targetSpeed; }
      } else if speed > targetSpeed {
        speed := speed - accel * 2.0 * dt;
        if speed < targetSpeed { speed := targetSpeed; }
      }
    }

    /** The movement half of Update: `step` along the route from the current position. */
    method Move(step: real, cx: real, cy: real)
      modifies this`cord, this`rotation
      ensures cord == Advance(direction, old(cord), cx, cy, step)
      ensures rotation == NextRotation(direction, old(cord), cx, cy, old(rotation))
    {
      var x, y := cord.x, cord.y;

      match direction {
        case Route(Up, TurnRight) =>
          if y < cy + 80.0 {
            x := x + step;
            rotation := 90.0;
          } else {
            y := y - step;
            rotation := 0.0;
          }
        case Route(Up, Straight) => { y := y - step; }
        case Route(Up, TurnLeft) =>
          if y < cy - 40.0 {
            x := x - step;
            rotation := 270.0;
          } else {
            y := y - step;
          }
        case Route(Right, TurnRight) =>
          if x < cx - 115.0 {
            x := x + step;
          } else {
            y := y + step;
            rotation := 180.0;
          }
        case Route(Right, Straight) => { x := x + step; }
        case Route(Right, TurnLeft) =>
          if x < cx + 5.0 {
            x := x + step;
          } else {
            y := y - step;
            rotation := 0.0;
          }
        case Route(Down, TurnRight) =>
          if y < cy - 125.0 {
            y := y + step;
          } else {
            x := x - step;
            rotation := 270.0;
          }
        case Route(Down, Straight) => { y := y + step; }
        case Route(Down, TurnLeft) =>
          if y < cy - 5.0 {
            y := y + step;
          } else {
            x := x + step;
            rotation := 90.0;
          }
        case Route(Left, TurnRight) =>
          if x > cx + 85.0 {
            x := x - step;
          } else {
            y := y - step;
            rotation := 0.0;
          }
        case Route(Left, Straight) => { x := x - step; }
        case Route(Left, TurnLeft) =>
          if x > cx - 35.0 {
            x := x - step;
          } else {
            y := y + step;
            rotation := 180.0;
          }
        case Unknown =>
      }

      cord := Point(x, y);
    }
  }
}
