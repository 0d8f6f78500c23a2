/**
 * The navigator: a state machine that turns grid targets into motor commands.
 *
 * Headings are in degrees and follow the odometer's convention, which the
 * approach rules fix: heading 0 points along +Y, 90 along +X, 180 along -Y and
 * 270 along -X. The motors and the odometry corrector are collaborators:
 * what the navigator asks of them is appended to an action log, and what it
 * reads from them (the pose, "a correction fired", "both motors stopped")
 * comes in as parameters.
 */
module Nav {
  import opened Wrappers
  import opened JavaTypes

  const FORWARD_SPEED: int := 120
  const ROTATE_SPEED: int := 80
  /** Period of the control loop and of the settle check, in ms. */
  const NAVIGATION_PERIOD: int := 25
  /** Side of a grid tile, in cm. */
  const TILE_SIZE: real := 30.48
  /** Smallest move, in cm, that the approach issues. */
  const MIN_TRAVEL_DISTANCE: int := 1
  /** Idle time, in ms, after which the navigator counts as settled. */
  const MIN_STATIC_INTERVAL: int := 400
  /**
   * `Math.PI`, as its shortest decimal form; the double itself is
   * 3.141592653589793115997963..., a difference the model does not keep.
   */
  const PI: real := 3.141592653589793
  /** A target coordinate of -1 leaves that axis unconstrained. */
  const UNCONSTRAINED: real := -1.0

  /** Robot dimensions the navigator is built with. */
  datatype Geometry = Geometry(wheelRadius: real, track: real, motorOffset: real)

  /** An odometer snapshot: position in cm and heading in degrees. */
  datatype Pose = Pose(x: real, y: real, theta: real)

  datatype Motor = LeftMotor | RightMotor

  /** One request to a collaborator. */
  datatype Action =
    | SetSpeed(motor: Motor, speed: int)
    | Rotate(motor: Motor, angle: int, immediateReturn: bool)
    | CorrectorDisable
    | CorrectorEnable

  /** The enabled flag of the odometry corrector; its correction itself is external. */
  class OdometryCorrector {
    var enabled: bool

    constructor(enabled: bool)
      ensures this.enabled == enabled
    {
      this.enabled := enabled;
    }

    method IsEnabled() returns (b: bool)
      ensures b == enabled
    {
      b := enabled;
    }

    method Enable()
      modifies this
      ensures enabled
    {
      enabled := true;
    }

    method Disable()
      modifies this
      ensures !enabled
    {
      enabled := false;
    }
  }

  /** Whether correction is enabled after `actions`, starting from `enabled`. */
  function CorrectorAfter(actions: seq<Action>, enabled: bool): bool {
    if actions == [] then enabled
    else
      var e := match actions[0]
        case CorrectorDisable => false
        case CorrectorEnable => true
        case _ => enabled;
      CorrectorAfter(actions[1..], e)
  }

  lemma {:induction false} CorrectorAfterAppend(a: seq<Action>, b: seq<Action>, enabled: bool)
    ensures CorrectorAfter(a + b, enabled) == CorrectorAfter(b, CorrectorAfter(a, enabled))
  {
    if a != [] {
      var e := match a[0]
        case CorrectorDisable => false
        case CorrectorEnable => true
        case _ => enabled;
      assert (a + b)[0] == a[0];
      assert (a + b)[1..] == a[1..] + b;
      CorrectorAfterAppend(a[1..], b, e);
    } else {
      assert a + b == b;
    }
  }

  // ---UNIT CONVERSIONS---

  /**
   * `convertDistance`: wheel degrees for a straight distance, `(int)` of
   * `180 * distance / (PI * radius)`. A zero radius divides by zero, which a
   * double turns into an infinity (or NaN for 0/0) before the cast.
   */
  function ConvertDistance(radius: real, distance: real): (r: Int32)
    ensures radius > 0.0 && distance >= 0.0 ==> r >= 0
    ensures radius > 0.0 && distance <= 0.0 ==> r <= 0
    ensures radius == 0.0 ==> (r == INT_MAX <==> distance > 0.0) && (r == INT_MIN <==> distance < 0.0)
  {
    var num := 180.0 * distance;
    var den := PI * radius;
    if den == 0.0 then (if num > 0.0 then INT_MAX else if num < 0.0 then INT_MIN else 0)
    else
      QuotientSign(num, den);
      IntCast(num / den)
  }

  /** `convertAngle`: wheel degrees for turning the body by `angle` degrees, as an arc of the track's circle. */
  function ConvertAngle(radius: real, width: real, angle: real): (r: Int32)
    ensures radius > 0.0 && width >= 0.0 && angle >= 0.0 ==> r >= 0
    ensures radius > 0.0 && width >= 0.0 && angle <= 0.0 ==> r <= 0
  {
    var arc := PI * width;
    ProductSign(arc, angle);
    ConvertDistance(radius, arc * angle / 360.0)
  }

  /** A quotient by a positive divisor has the sign of the dividend. */
  lemma QuotientSign(num: real, den: real)
    requires den != 0.0
    ensures den > 0.0 && num >= 0.0 ==> num / den >= 0.0
    ensures den > 0.0 && num <= 0.0 ==> num / den <= 0.0
  {
  }

  /** A product by a non-negative factor has the sign of the other factor. */
  lemma ProductSign(a: real, b: real)
    ensures a >= 0.0 && b >= 0.0 ==> a * b >= 0.0
    ensures a >= 0.0 && b <= 0.0 ==> a * b <= 0.0
  {
  }

  /** Driving the returned number of wheel degrees covers `distance` up to one degree of wheel travel. */
  lemma ConvertDistanceRoundTrip(radius: real, distance: real)
    requires radius > 0.0
    requires INT_MIN as real <= 180.0 * distance / (PI * radius) <= INT_MAX as real
    ensures var n := ConvertDistance(radius, distance);
            AbsReal(n as real * (PI * radius) / 180.0 - distance) < PI * radius / 180.0
  {
    var den := PI * radius;
    var q := 180.0 * distance / den;
    var n := IntCast(q);
    assert ConvertDistance(radius, distance) == n;
    var nr := n as real;
    QuotientTimesDivisor(180.0 * distance, den, q);
    TruncationError(nr, q, den, distance);
    var x := nr * den;
    assert -den < x - 180.0 * distance < den;
  }

  // The algebra behind the round trip, one step per lemma over plain reals, so
  // that each product is a single term of the linear reasoning around it.

  /** An error under 1 in the quotient `q` is an error under `den` once multiplied back. */
  lemma TruncationError(n: real, q: real, den: real, distance: real)
    requires den > 0.0 && q * den == 180.0 * distance
    requires -1.0 < q - n < 1.0
    ensures -den < n * den - 180.0 * distance < den
  {
    var e := n - q;
    ScaledError(e, den);
    Distribute(n, q, e, den);
    var nd, qd, ed := n * den, q * den, e * den;
    Combine(nd, qd, ed, den, distance);
  }

  lemma ScaledError(e: real, den: real)
    requires den > 0.0 && -1.0 < e < 1.0
    ensures -den < e * den < den
  {
    MulStrict(e, 1.0, den);
    MulStrict(-1.0, e, den);
  }

  lemma MulStrict(a: real, b: real, c: real)
    requires a < b && c > 0.0
    ensures a * c < b * c
  {
  }

  lemma Distribute(n: real, q: real, e: real, den: real)
    requires e == n - q
    ensures n * den == q * den + e * den
  {
  }

  lemma QuotientTimesDivisor(x: real, d: real, q: real)
    requires d != 0.0 && q == x / d
    ensures q * d == x
  {
  }

  lemma Combine(nd: real, qd: real, ed: real, den: real, distance: real)
    requires qd == 180.0 * distance && nd == qd + ed && -den < ed < den
    ensures -den < nd - 180.0 * distance < den
  {
  }

  /** pi cancels out of `convertAngle`: the wheels turn `track * angle / (2 * radius)` degrees. */
  lemma ConvertAngleCancelsPi(radius: real, width: real, angle: real)
    requires radius != 0.0
    ensures ConvertAngle(radius, width, angle) == IntCast(width * angle / (2.0 * radius))
  {
    var arc := PI * width * angle / 360.0;
    var num := 180.0 * arc;
    var den := PI * radius;
    assert den != 0.0;
    assert num == PI * (width * angle / 2.0);
    assert num / den == (width * angle / 2.0) / radius;
    assert (width * angle / 2.0) / radius == width * angle / (2.0 * radius);
  }

  /** `(int) (n * MOTOR_OFFSET)`: a speed or wheel angle scaled for the left motor's gearing. */
  function OffsetScaled(n: int, offset: real): Int32 {
    IntCast(n as real * offset)
  }

  // ---TURNS---

  /** A turn: `direction` 1 or -1 times `magnitude` degrees. */
  datatype Rotation = Rotation(magnitude: real, direction: Int32) {
    function Signed(): real {
      direction as real * magnitude
    }
  }

  /**
   * The rotation `turnTo(theta)` issues from heading `heading`: the signed
   * turn differs from `theta - heading` by a whole turn at most.
   */
  function MinimalRotation(theta: real, heading: real): (r: Rotation)
    ensures r.direction == 1 || r.direction == -1
    ensures r.Signed() - (theta - heading) in {-360.0, 0.0, 360.0}
  {
    if theta < heading then
      var turn := heading - theta;
      if turn < 180.0 then Rotation(turn, -1) else Rotation(360.0 - turn, 1)
    else
      var turn := theta - heading;
      if turn > 180.0 then Rotation(360.0 - turn, -1) else Rotation(turn, 1)
  }

  /** For headings less than a full turn apart the turn is at most a half turn, and a half turn is taken positively. */
  lemma MinimalRotationBounded(theta: real, heading: real)
    requires -360.0 < theta - heading < 360.0
    ensures var r := MinimalRotation(theta, heading);
            0.0 <= r.magnitude <= 180.0 && -180.0 < r.Signed() <= 180.0
  {
  }

  /** No other turn reaching `theta` (any number of whole turns apart) is shorter. */
  lemma MinimalRotationIsShortest(theta: real, heading: real, turns: int)
    requires -360.0 < theta - heading < 360.0
    ensures MinimalRotation(theta, heading).magnitude <= AbsReal(theta - heading + 360.0 * turns as real)
  {
    var r := MinimalRotation(theta, heading);
    MinimalRotationBounded(theta, heading);
    var k: int := if r.Signed() - (theta - heading) == 360.0 then 1
                  else if r.Signed() - (theta - heading) == -360.0 then -1 else 0;
    assert r.Signed() == theta - heading + 360.0 * k as real;
    var m := turns - k;
    assert theta - heading + 360.0 * turns as real == r.Signed() + 360.0 * m as real;
    if m >= 1 {
      assert 360.0 * m as real >= 360.0;
    } else if m <= -1 {
      assert 360.0 * m as real <= -360.0;
    }
  }

  /** The actions of `turnTo(theta)` issued at heading `heading`, with correction enabled or not beforehand. */
  function TurnActions(theta: real, heading: real, wasEnabled: bool, g: Geometry): seq<Action> {
    var r := MinimalRotation(theta, heading);
    var wheel := ConvertAngle(g.wheelRadius, g.track, r.magnitude);
    [ CorrectorDisable,
      SetSpeed(LeftMotor, OffsetScaled(ROTATE_SPEED, g.motorOffset)),
      SetSpeed(RightMotor, ROTATE_SPEED),
      Rotate(LeftMotor, IntMul(OffsetScaled(wheel, g.motorOffset), r.direction), true),
      Rotate(RightMotor, IntMul(IntNeg(wheel), r.direction), false) ]
    + (if wasEnabled then [CorrectorEnable] else [])
  }

  /**
   * A turn leaves correction as it found it, never enables a disabled
   * corrector, and issues every wheel rotation while correction is off.
   */
  lemma TurnRestoresCorrection(theta: real, heading: real, wasEnabled: bool, g: Geometry)
    ensures var acts := TurnActions(theta, heading, wasEnabled, g);
            && CorrectorAfter(acts, wasEnabled) == wasEnabled
            && (!wasEnabled ==> CorrectorEnable !in acts)
            && forall i :: 0 <= i < |acts| && acts[i].Rotate? ==> !CorrectorAfter(acts[..i], wasEnabled)
  {
    var acts := TurnActions(theta, heading, wasEnabled, g);
    var motion := acts[1..5];
    assert acts[..5] == [CorrectorDisable] + motion;
    assert forall j :: 0 <= j < |motion| ==> !motion[j].CorrectorEnable? && !motion[j].CorrectorDisable?;
    CorrectorOffThroughMotion(motion, wasEnabled);
    assert acts[..1] == [CorrectorDisable];
    forall i | 0 <= i < |acts| && acts[i].Rotate?
      ensures !CorrectorAfter(acts[..i], wasEnabled)
    {
      assert i == 3 || i == 4;
      assert acts[..i] == [CorrectorDisable] + motion[..i - 1];
      CorrectorAfterAppend([CorrectorDisable], motion[..i - 1], wasEnabled);
      CorrectorOffThroughMotion(motion[..i - 1], wasEnabled);
    }
    if wasEnabled {
      assert acts == acts[..5] + [CorrectorEnable];
      CorrectorAfterAppend(acts[..5], [CorrectorEnable], wasEnabled);
    } else {
      assert acts == [CorrectorDisable] + motion;
    }
    CorrectorAfterAppend([CorrectorDisable], motion, wasEnabled);
  }

  /** Actions that do not touch the corrector leave a disabled corrector disabled. */
  lemma {:induction false} CorrectorOffThroughMotion(motion: seq<Action>, enabled: bool)
    requires forall j :: 0 <= j < |motion| ==> !motion[j].CorrectorEnable? && !motion[j].CorrectorDisable?
    ensures !CorrectorAfter([CorrectorDisable] + motion, enabled)
    ensures CorrectorAfter(motion, enabled) == enabled
  {
    if motion != [] {
      CorrectorOffThroughMotion(motion[1..], enabled);
      assert ([CorrectorDisable] + motion)[1..] == motion;
      assert ([CorrectorDisable] + motion[1..])[1..] == motion[1..];
    } else {
      assert ([CorrectorDisable] + motion)[1..] == [];
    }
  }

  // ---APPROACH---

  datatype Axis = XAxis | YAxis

  /** A straight drive along one grid axis: face `heading`, then cover `distance` cm. */
  datatype Drive = Drive(axis: Axis, heading: real, distance: real)

  /** Unit step along a cardinal heading. */
  function StepX(heading: real): real {
    if heading == 90.0 then 1.0 else if heading == 270.0 then -1.0 else 0.0
  }

  function StepY(heading: real): real {
    if heading == 0.0 then 1.0 else if heading == 180.0 then -1.0 else 0.0
  }

  /**
   * `goToTarget`'s choice: which axis to drive, which cardinal heading to
   * face and how far to go, for the stored target `(tx, ty)` in grid units.
   * A constrained X wins over Y; moves under the minimum distance are
   * skipped. The returned drive lands exactly on the target coordinate.
   */
  function Approach(tx: real, ty: real, pose: Pose): (r: Option<Drive>)
    ensures r.Some? ==> r.value.distance >= MIN_TRAVEL_DISTANCE as real
    ensures r.Some? && r.value.axis == XAxis ==>
              StepY(r.value.heading) == 0.0 &&
              pose.x + r.value.distance * StepX(r.value.heading) == tx * TILE_SIZE
    ensures r.Some? && r.value.axis == YAxis ==>
              StepX(r.value.heading) == 0.0 &&
              pose.y + r.value.distance * StepY(r.value.heading) == ty * TILE_SIZE
    ensures r.Some? ==> (r.value.axis == XAxis <==> tx != UNCONSTRAINED)
    ensures r.None? <==>
              || (tx == UNCONSTRAINED && ty == UNCONSTRAINED)
              || (tx != UNCONSTRAINED && AbsReal(tx * TILE_SIZE - pose.x) < MIN_TRAVEL_DISTANCE as real)
              || (tx == UNCONSTRAINED && ty != UNCONSTRAINED &&
                  AbsReal(ty * TILE_SIZE - pose.y) < MIN_TRAVEL_DISTANCE as real)
  {
    if tx != UNCONSTRAINED then
      var dist := tx * TILE_SIZE - pose.x;
      if AbsReal(dist) < MIN_TRAVEL_DISTANCE as real then None
      else if dist < 0.0 then Some(Drive(XAxis, 270.0, -dist))
      else Some(Drive(XAxis, 90.0, dist))
    else if ty != UNCONSTRAINED then
      var dist := ty * TILE_SIZE - pose.y;
      if AbsReal(dist) < MIN_TRAVEL_DISTANCE as real then None
      else if dist < 0.0 then Some(Drive(YAxis, 180.0, -dist))
      else Some(Drive(YAxis, 0.0, dist))
    else None
  }

  /** With X constrained, the Y target and the Y position play no part. */
  lemma ApproachIgnoresY(tx: real, ty: real, ty': real, pose: Pose, y': real)
    requires tx != UNCONSTRAINED
    ensures Approach(tx, ty, pose) == Approach(tx, ty', pose.(y := y'))
  {
  }

  /** The X rule: head 270 for a target behind, 90 otherwise, and drive the distance's magnitude. */
  lemma ApproachXHeading(tx: real, ty: real, pose: Pose)
    requires tx != UNCONSTRAINED
    requires AbsReal(tx * TILE_SIZE - pose.x) >= MIN_TRAVEL_DISTANCE as real
    ensures var dist := tx * TILE_SIZE - pose.x;
            Approach(tx, ty, pose) == Some(Drive(XAxis, if dist < 0.0 then 270.0 else 90.0, AbsReal(dist)))
  {
  }

  /** The Y rule, taken only when X is unconstrained: head 180 for a target behind, 0 otherwise. */
  lemma ApproachYHeading(tx: real, ty: real, pose: Pose)
    requires tx == UNCONSTRAINED && ty != UNCONSTRAINED
    requires AbsReal(ty * TILE_SIZE - pose.y) >= MIN_TRAVEL_DISTANCE as real
    ensures var dist := ty * TILE_SIZE - pose.y;
            Approach(tx, ty, pose) == Some(Drive(YAxis, if dist < 0.0 then 180.0 else 0.0, AbsReal(dist)))
  {
  }

  /** From (0, 0), a Y target of 3 tiles means facing 0 and driving 91.44 cm. */
  lemma ApproachScenario()
    ensures Approach(UNCONSTRAINED, 3.0, Pose(0.0, 0.0, 0.0)) == Some(Drive(YAxis, 0.0, 91.44))
  {
  }

  /** The forward drive after the turn; the Y branch waits for the right wheel, the X branch does not. */
  function ForwardActions(distance: real, waitForCompletion: bool, g: Geometry): seq<Action> {
    var wheel := ConvertDistance(g.wheelRadius, distance);
    [ SetSpeed(LeftMotor, OffsetScaled(FORWARD_SPEED, g.motorOffset)),
      SetSpeed(RightMotor, FORWARD_SPEED),
      Rotate(LeftMotor, OffsetScaled(wheel, g.motorOffset), true),
      Rotate(RightMotor, wheel, !waitForCompletion) ]
  }

  /**
   * Everything `goToTarget` asks of the collaborators. The distance comes
   * from the reading `pose`; `turnTo` reads the odometer again, and
   * `turnHeading` is the heading of that second reading.
   */
  function GoToTargetActions(tx: real, ty: real, pose: Pose, turnHeading: real, wasEnabled: bool, g: Geometry): seq<Action> {
    match Approach(tx, ty, pose)
    case None => []
    case Some(d) => TurnActions(d.heading, turnHeading, wasEnabled, g) + ForwardActions(d.distance, d.axis == YAxis, g)
  }

  lemma GoToTargetRestoresCorrection(tx: real, ty: real, pose: Pose, turnHeading: real, wasEnabled: bool, g: Geometry)
    ensures CorrectorAfter(GoToTargetActions(tx, ty, pose, turnHeading, wasEnabled, g), wasEnabled) == wasEnabled
  {
    match Approach(tx, ty, pose)
    case None =>
    case Some(d) =>
      var turn := TurnActions(d.heading, turnHeading, wasEnabled, g);
      var fwd := ForwardActions(d.distance, d.axis == YAxis, g);
      TurnRestoresCorrection(d.heading, turnHeading, wasEnabled, g);
      CorrectorAfterAppend(turn, fwd, wasEnabled);
      CorrectorOffThroughMotion(fwd, wasEnabled);
  }

  // ---GEOMETRY QUERIES---

  /**
   * The sign-pair quadrant of `computeRealTarget`: 1 for (>=0, >=0),
   * 2 for (>=0, <0), 3 for (<0, <0), 4 for (<0, >=0). The chain's fall-through
   * value 0 is never produced.
   */
  function Quadrant(deltaX: real, deltaY: real): (q: int)
    ensures 1 <= q <= 4
  {
    if deltaX >= 0.0 && deltaY >= 0.0 then 1
    else if deltaX >= 0.0 && deltaY < 0.0 then 2
    else if deltaX < 0.0 && deltaY < 0.0 then 3
    else if deltaX < 0.0 && deltaY >= 0.0 then 4
    else 0
  }

  /** Each quadrant is exactly its sign pair, so the four cases are total and exclusive. */
  lemma QuadrantExact(deltaX: real, deltaY: real)
    ensures Quadrant(deltaX, deltaY) == 1 <==> deltaX >= 0.0 && deltaY >= 0.0
    ensures Quadrant(deltaX, deltaY) == 2 <==> deltaX >= 0.0 && deltaY < 0.0
    ensures Quadrant(deltaX, deltaY) == 3 <==> deltaX < 0.0 && deltaY < 0.0
    ensures Quadrant(deltaX, deltaY) == 4 <==> deltaX < 0.0 && deltaY >= 0.0
  {
  }

  /**
   * The square of `computeDistance(x, y)` for a target in grid units. The
   * source takes the square root (`Math.hypot`), which preserves every
   * comparison between two such distances.
   */
  function SquaredDistanceTo(pose: Pose, x: real, y: real): (d: real)
    ensures d >= 0.0
    ensures d == 0.0 <==> pose.x == x * TILE_SIZE && pose.y == y * TILE_SIZE
  {
    var dx := x * TILE_SIZE - pose.x;
    var dy := y * TILE_SIZE - pose.y;
    var sx, sy := dx * dx, dy * dy;
    Square(dx, sx);
    Square(dy, sy);
    SumOfSquares(sx, sy, dx, dy);
    sx + sy
  }

  lemma SumOfSquares(sx: real, sy: real, dx: real, dy: real)
    requires sx >= 0.0 && sy >= 0.0
    requires sx == 0.0 <==> dx == 0.0
    requires sy == 0.0 <==> dy == 0.0
    ensures sx + sy >= 0.0
    ensures sx + sy == 0.0 <==> dx == 0.0 && dy == 0.0
  {
  }

  /** A square `s` of `a` is never negative, and zero only for zero. */
  lemma Square(a: real, s: real)
    requires s == a * a
    ensures s >= 0.0
    ensures s == 0.0 <==> a == 0.0
  {
    if a > 0.0 {
      PositiveProduct(a, a, s);
    } else if a < 0.0 {
      PositiveProduct(-a, -a, s);
    }
  }

  lemma PositiveProduct(x: real, y: real, p: real)
    requires x > 0.0 && y > 0.0 && p == x * y
    ensures p > 0.0
  {
  }

  // ---SETTLING---

  /**
   * Sample `k` of a `waitNavigation` call sees `isNavigating` false, and more
   * than MIN_STATIC_INTERVAL ms have passed both since the call began and
   * since every earlier sample that saw it true. Sample `k` is taken
   * `k * NAVIGATION_PERIOD` ms after the call.
   */
  predicate Settled(samples: seq<bool>, k: nat)
    requires k < |samples|
  {
    && !samples[k]
    && NAVIGATION_PERIOD * k > MIN_STATIC_INTERVAL
    && forall j :: 0 <= j < k && samples[j] ==> NAVIGATION_PERIOD * (k - j) > MIN_STATIC_INTERVAL
  }

  /** Settled means: this sample and the sixteen before it all saw the robot still. */
  lemma SettledWindow(samples: seq<bool>, k: nat)
    requires k < |samples|
    ensures Settled(samples, k) <==> k >= 17 && forall j :: k - 16 <= j <= k ==> !samples[j]
  {
  }

  /** A sample that sees the robot moving restarts the wait: none of the next sixteen can be settled. */
  lemma MovingRestartsWait(samples: seq<bool>, j: nat, k: nat)
    requires j <= k < |samples| && k < j + 17
    requires samples[j]
    ensures !Settled(samples, k)
  {
  }

  // ---THE NAVIGATOR---

  class Navigation {
    const geometry: Geometry
    const corrector: OdometryCorrector
    /** `target[0]` and `target[1]`: the pending destination in grid units, -1 for a free axis. */
    const target: array<real>
    var directionChanged: bool
    var isNavigating: bool
    /** What the navigator has asked of the motors and the corrector, oldest first. */
    var actions: seq<Action>

    ghost predicate Valid()
      reads this
    {
      target.Length == 2
    }

    constructor(corrector: OdometryCorrector, geometry: Geometry)
      ensures Valid() && fresh(target)
      ensures this.corrector == corrector && this.geometry == geometry
      ensures target[..] == [UNCONSTRAINED, UNCONSTRAINED]
      ensures !isNavigating && !directionChanged && actions == []
    {
      this.corrector := corrector;
      this.geometry := geometry;
      var t := new real[2];
      t[0], t[1] := UNCONSTRAINED, UNCONSTRAINED;
      target := t;
      isNavigating := false;
      directionChanged := false;
      actions := [];
    }

    /**
     * One pass of the control loop in `run`; `pose` and `turnHeading` are the
     * two odometer readings `goToTarget` takes when it runs.
     */
    method Tick(pose: Pose, turnHeading: real, correctionFired: bool, motorsStopped: bool)
      requires Valid()
      ensures Valid()
      modifies this`directionChanged, this`isNavigating, this`actions, corrector
      ensures directionChanged == correctionFired
      ensures isNavigating == (!motorsStopped && (old(isNavigating) || old(directionChanged) || correctionFired))
      ensures corrector.enabled == old(corrector.enabled)
      ensures actions == old(actions) +
                (if old(directionChanged)
                 then GoToTargetActions(target[0], target[1], pose, turnHeading, old(corrector.enabled), geometry)
                 else [])
    {
      if directionChanged {
        GoToTarget(pose, turnHeading);
        isNavigating := true;
        directionChanged := false;
      }
      if correctionFired {
        directionChanged := true;
        isNavigating := true;
      }
      if motorsStopped {
        isNavigating := false;
      }
    }

    method TravelTo(x: real, y: real)
      requires Valid()
      ensures Valid()
      modifies this`directionChanged, this`isNavigating, target
      ensures target[..] == [x, y]
      ensures directionChanged && isNavigating
    {
      target[0] := x;
      target[1] := y;
      directionChanged := true;
      isNavigating := true;
    }

    method TravelToX(x: real)
      requires Valid()
      ensures Valid()
      modifies this`directionChanged, this`isNavigating, target
      ensures target[..] == [x, UNCONSTRAINED]
      ensures directionChanged && isNavigating
    {
      target[0] := x;
      target[1] := UNCONSTRAINED;
      directionChanged := true;
      isNavigating := true;
    }

    method TravelToY(y: real)
      requires Valid()
      ensures Valid()
      modifies this`directionChanged, this`isNavigating, target
      ensures target[..] == [UNCONSTRAINED, y]
      ensures directionChanged && isNavigating
    {
      target[0] := UNCONSTRAINED;
      target[1] := y;
      directionChanged := true;
      isNavigating := true;
    }

    /** `turnTo(theta)` with the odometer reading `heading`. */
    method TurnTo(theta: real, heading: real)
      modifies this`actions, corrector
      ensures corrector.enabled == old(corrector.enabled)
      ensures actions == old(actions) + TurnActions(theta, heading, old(corrector.enabled), geometry)
    {
      var r := MinimalRotation(theta, heading);
      var wasEnabled := corrector.IsEnabled();
      corrector.Disable();
      actions := actions + [CorrectorDisable];
      var wheel := ConvertAngle(geometry.wheelRadius, geometry.track, r.magnitude);
      actions := actions + [SetSpeed(LeftMotor, OffsetScaled(ROTATE_SPEED, geometry.motorOffset))];
      actions := actions + [SetSpeed(RightMotor, ROTATE_SPEED)];
      actions := actions + [Rotate(LeftMotor, IntMul(OffsetScaled(wheel, geometry.motorOffset), r.direction), true)];
      actions := actions + [Rotate(RightMotor, IntMul(IntNeg(wheel), r.direction), false)];
      if wasEnabled {
        corrector.Enable();
        actions := actions + [CorrectorEnable];
      }
    }

    /** `turnToRelative(theta)`: a plain relative turn, with no minimal-rotation choice and no corrector toggling. */
    method TurnToRelative(theta: real)
      modifies this`actions
      ensures var wheel := ConvertAngle(geometry.wheelRadius, geometry.track, theta);
              actions == old(actions) + [ SetSpeed(LeftMotor, ROTATE_SPEED), SetSpeed(RightMotor, ROTATE_SPEED),
                                          Rotate(LeftMotor, wheel, true), Rotate(RightMotor, IntNeg(wheel), false) ]
    {
      var wheel := ConvertAngle(geometry.wheelRadius, geometry.track, theta);
      actions := actions + [SetSpeed(LeftMotor, ROTATE_SPEED), SetSpeed(RightMotor, ROTATE_SPEED)];
      actions := actions + [Rotate(LeftMotor, wheel, true), Rotate(RightMotor, IntNeg(wheel), false)];
    }

    /** `advanceDist(dist)`: both wheels turn the same angle at their current speed; returns when the right one stops. */
    method AdvanceDist(dist: real)
      modifies this`actions
      ensures var wheel := ConvertDistance(geometry.wheelRadius, dist);
              actions == old(actions) + [Rotate(LeftMotor, wheel, true), Rotate(RightMotor, wheel, false)]
    {
      var wheel := ConvertDistance(geometry.wheelRadius, dist);
      actions := actions + [Rotate(LeftMotor, wheel, true)];
      actions := actions + [Rotate(RightMotor, wheel, false)];
    }

    method IsNavigating() returns (b: bool)
      ensures b == isNavigating
    {
      b := isNavigating;
    }

    /**
     * `waitNavigation`, over the values `isNavigating` takes at successive
     * samples. Returns the sample at which the call returns, or None if the
     * trace ends first (the source would keep waiting).
     */
    method WaitNavigation(samples: seq<bool>) returns (r: Option<nat>)
      ensures r.Some? ==> r.value < |samples| && Settled(samples, r.value)
      ensures r.Some? ==> forall k :: 0 <= k < r.value ==> !Settled(samples, k)
      ensures r.None? ==> forall k :: 0 <= k < |samples| ==> !Settled(samples, k)
    {
      var time := 0;
      ghost var last := -1;
      var k := 0;
      while k < |samples|
        invariant 0 <= k <= |samples|
        invariant -1 <= last < k
        invariant last == -1 ==> time == 0
        invariant last >= 0 ==> samples[last] && time == NAVIGATION_PERIOD * last
        invariant forall j :: last < j < k ==> !samples[j]
        invariant forall i :: 0 <= i < k ==> !Settled(samples, i)
      {
        var now := NAVIGATION_PERIOD * k;
        if samples[k] {
          time := now;
          last := k;
        } else if now - time > MIN_STATIC_INTERVAL {
          return Some(k);
        }
        k := k + 1;
      }
      return None;
    }

    /** `goToTarget`; `pose` is its own odometer reading and `turnHeading` the one `turnTo` takes. */
    method GoToTarget(pose: Pose, turnHeading: real)
      requires Valid()
      ensures Valid()
      modifies this`actions, corrector
      ensures corrector.enabled == old(corrector.enabled)
      ensures actions == old(actions) + GoToTargetActions(target[0], target[1], pose, turnHeading, old(corrector.enabled), geometry)
    {
      // The branch choice of `goToTarget` is `Approach`; the method performs it.
      var drive := Approach(target[0], target[1], pose);
      if drive.Some? {
        TurnTo(drive.value.heading, turnHeading);
        Forward(drive.value.distance, drive.value.axis == YAxis);
      }
    }

    method Forward(distance: real, waitForCompletion: bool)
      modifies this`actions
      ensures actions == old(actions) + ForwardActions(distance, waitForCompletion, geometry)
    {
      var wheel := ConvertDistance(geometry.wheelRadius, distance);
      actions := actions + [SetSpeed(LeftMotor, OffsetScaled(FORWARD_SPEED, geometry.motorOffset))];
      actions := actions + [SetSpeed(RightMotor, FORWARD_SPEED)];
      actions := actions + [Rotate(LeftMotor, OffsetScaled(wheel, geometry.motorOffset), true)];
      actions := actions + [Rotate(RightMotor, wheel, !waitForCompletion)];
    }
  }
}
