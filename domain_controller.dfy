/**
 * The maneuver layer (`DomainController`): each subtask of the routine is a
 * fixed choreography of calls on the navigator, the odometry corrector, the
 * localizer and the arm. The controller records those calls in a log; the
 * odometer readings it takes along the way come in as parameters.
 */
module Controller {
  import opened Wrappers
  import opened JavaTypes
  import opened Util
  import Nav

  /** Side of a grid tile, in cm. */
  const TILE_SIZE: real := 30.48

  /** One call the controller makes on a collaborator. */
  datatype Call =
    | TravelToX(x: real)
    | TravelToY(y: real)
    | WaitNavigation
    | TurnTo(theta: real)
    | AdvanceDist(dist: real)
    | DisableCorrection
    | EnableCorrection
    | Localize(corner: Int64, llX: Int64, llY: Int64, urX: Int64, urY: Int64)
    | TunnelLocalization
    | GetRing
  {
    predicate IsTravel() {
      TravelToX? || TravelToY?
    }

    /**
     * Calls that leave the corrector's enabled flag as it is. A `TurnTo`
     * toggles the flag inside the navigator but restores it before it
     * returns (`Nav.TurnRestoresCorrection`); a travel only sets a target,
     * and the `turnTo` it causes restores the flag the same way. The
     * localizer and the arm are assumed to leave the flag alone:
     * `Localize`, `TunnelLocalization` and `GetRing` are calls into code
     * outside this model, and the localizer holds the corrector.
     */
    predicate KeepsCorrection() {
      !DisableCorrection? && !EnableCorrection?
    }
  }

  // ---CORRECTOR STATE ALONG A LOG---

  /** Whether correction is enabled after `calls`, starting from `enabled`. */
  function CorrectionAfter(calls: seq<Call>, enabled: bool): bool {
    if calls == [] then enabled
    else
      var e := match calls[0]
        case DisableCorrection => false
        case EnableCorrection => true
        case _ => enabled;
      CorrectionAfter(calls[1..], e)
  }

  lemma {:induction false} CorrectionAfterAppend(a: seq<Call>, b: seq<Call>, enabled: bool)
    ensures CorrectionAfter(a + b, enabled) == CorrectionAfter(b, CorrectionAfter(a, enabled))
  {
    if a == [] {
      assert a + b == b;
    } else {
      var e := match a[0]
        case DisableCorrection => false
        case EnableCorrection => true
        case _ => enabled;
      assert (a + b)[0] == a[0];
      assert (a + b)[1..] == a[1..] + b;
      CorrectionAfterAppend(a[1..], b, e);
    }
  }

  /** A stretch of calls that never touches the corrector leaves its flag alone. */
  lemma {:induction false} CorrectionUntouched(calls: seq<Call>, enabled: bool)
    requires forall i :: 0 <= i < |calls| ==> calls[i].KeepsCorrection()
    ensures CorrectionAfter(calls, enabled) == enabled
  {
    if calls != [] {
      assert calls[0].KeepsCorrection();
      CorrectionUntouched(calls[1..], enabled);
    }
  }

  // ---TUNNEL CROSSING---

  /** One leg of a crossing: the coordinate to reach on one axis, in grid units. */
  datatype Waypoint = AlongX(x: real) | AlongY(y: real)

  function Travel(w: Waypoint): (c: Call)
    ensures c.IsTravel() && c.KeepsCorrection()
  {
    match w
    case AlongX(x) => TravelToX(x)
    case AlongY(y) => TravelToY(y)
  }

  /**
   * The orientation test `TN_UR_x - TN_LL_x == 2`, a `long` subtraction: in
   * exact integers a span of 2, or of 2 - 2^64 once the subtraction wraps.
   */
  predicate IsHorizontal(t: TeamCoords): (b: bool)
    ensures b <==> (t.tnURx - t.tnLLx == 2 || t.tnURx - t.tnLLx == 2 - 0x1_0000_0000_0000_0000)
  {
    LongSub(t.tnURx, t.tnLLx) == 2
  }

  /**
   * The entry choice `LL_dist < UR_dist`, each distance taken from its own
   * odometer reading; comparing their squares decides the same way. A robot
   * standing on a corner picks that corner's entry.
   */
  predicate NearerLowerLeft(t: TeamCoords, llPose: Nav.Pose, urPose: Nav.Pose): (b: bool)
    ensures llPose.x == t.tnLLx as real * TILE_SIZE && llPose.y == t.tnLLy as real * TILE_SIZE
            && !(urPose.x == t.tnURx as real * TILE_SIZE && urPose.y == t.tnURy as real * TILE_SIZE)
            ==> b
    ensures urPose.x == t.tnURx as real * TILE_SIZE && urPose.y == t.tnURy as real * TILE_SIZE ==> !b
  {
    Nav.SquaredDistanceTo(llPose, t.tnLLx as real, t.tnLLy as real)
      < Nav.SquaredDistanceTo(urPose, t.tnURx as real, t.tnURy as real)
  }

  /**
   * The four legs of `crossTunnel` as the source writes them, for each
   * orientation and entry side: reach the line one tile before the mouth,
   * line up on the cross axis, creep to half a tile before the mouth, then
   * drive blind to one tile past the far mouth. Offsets of one tile are
   * `long` arithmetic; offsets of half a tile are `double` arithmetic.
   */
  function TunnelRouteAsWritten(t: TeamCoords, lowerLeft: bool): (r: seq<Waypoint>)
    ensures |r| == 4
    ensures IsHorizontal(t) ==> r[0].AlongX? && r[1].AlongY? && r[2].AlongX? && r[3].AlongX?
    ensures !IsHorizontal(t) ==> r[0].AlongY? && r[1].AlongX? && r[2].AlongY? && r[3].AlongY?
  {
    if IsHorizontal(t) then
      if lowerLeft then
        [AlongX(LongSub(t.tnLLx, 1) as real), AlongY(t.tnLLy as real + 0.5),
         AlongX(t.tnLLx as real - 0.5), AlongX(LongAdd(t.tnURx, 1) as real)]
      else
        [AlongX(LongAdd(t.tnURx, 1) as real), AlongY(t.tnURy as real - 0.5),
         AlongX(t.tnURx as real + 0.5), AlongX(LongSub(t.tnLLx, 1) as real)]
    else
      if lowerLeft then
        [AlongY(LongSub(t.tnLLy, 1) as real), AlongX(t.tnLLx as real - 0.5),
         AlongY(t.tnLLy as real - 0.5), AlongY(LongAdd(t.tnURy, 1) as real)]
      else
        [AlongY(LongAdd(t.tnURy, 1) as real), AlongX(t.tnURx as real - 0.5),
         AlongY(t.tnURy as real + 0.5), AlongY(LongSub(t.tnLLy, 1) as real)]
  }

  /**
   * The route with the vertical lower-left alignment on the tunnel's centre
   * line, `TN_LL_x + 0.5`, as in the three other branches; the rest is as
   * written.
   */
  function TunnelRoute(t: TeamCoords, lowerLeft: bool): (r: seq<Waypoint>)
    ensures |r| == 4
    ensures forall i :: 0 <= i < 4 && i != 1 ==> r[i] == TunnelRouteAsWritten(t, lowerLeft)[i]
    ensures IsHorizontal(t) || !lowerLeft ==> r == TunnelRouteAsWritten(t, lowerLeft)
  {
    var route := TunnelRouteAsWritten(t, lowerLeft);
    if !IsHorizontal(t) && lowerLeft then route[1 := AlongX(t.tnLLx as real + 0.5)] else route
  }

  /** A tunnel one tile wide and two long, lying along X or along Y, away from the ends of the `long` range. */
  predicate WellFormedTunnel(t: TeamCoords) {
    && LONG_MIN < t.tnLLx && t.tnURx < LONG_MAX
    && LONG_MIN < t.tnLLy && t.tnURy < LONG_MAX
    && ((t.tnURx == t.tnLLx + 2 && t.tnURy == t.tnLLy + 1) ||
        (t.tnURx == t.tnLLx + 1 && t.tnURy == t.tnLLy + 2))
  }

  /**
   * On a well-formed tunnel the corrected route does what the choreography is
   * for: the cross-axis alignment lies strictly inside the tunnel, the
   * creep point lies before the entry mouth and the blind leg ends past the
   * far mouth, so the blind leg runs through the tunnel's whole length.
   */
  lemma IntendedBlindLegInsideTunnel(t: TeamCoords, lowerLeft: bool)
    requires WellFormedTunnel(t)
    ensures var r := TunnelRoute(t, lowerLeft);
            if t.tnURx == t.tnLLx + 2 then
              && t.tnLLy as real < r[1].y < t.tnURy as real
              && (lowerLeft ==> r[2].x < t.tnLLx as real && r[3].x > t.tnURx as real)
              && (!lowerLeft ==> r[2].x > t.tnURx as real && r[3].x < t.tnLLx as real)
            else
              && t.tnLLx as real < r[1].x < t.tnURx as real
              && (lowerLeft ==> r[2].y < t.tnLLy as real && r[3].y > t.tnURy as real)
              && (!lowerLeft ==> r[2].y > t.tnURy as real && r[3].y < t.tnLLy as real)
  {
    if t.tnURx == t.tnLLx + 2 {
      assert IsHorizontal(t);
    } else {
      assert LongSub(t.tnURx, t.tnLLx) == 1;
    }
  }

  /** The input that shows the source's vertical lower-left alignment leaves the tunnel. */
  lemma VerticalLowerLeftMisaligned()
    ensures var t := UNSET.(tnLLx := 3, tnLLy := 3, tnURx := 4, tnURy := 5);
            var pose := Nav.Pose(0.0, 0.0, 0.0);
            && WellFormedTunnel(t) && !IsHorizontal(t) && NearerLowerLeft(t, pose, pose)
            && TunnelRouteAsWritten(t, true)[1] == AlongX(2.5)
            && CrossTunnelCalls(t, pose, pose, false)[2] == TravelToX(2.5)
            && !(t.tnLLx as real < 2.5 < t.tnURx as real)
            && TunnelRoute(t, true)[1] == AlongX(3.5)
            && IntendedCrossTunnelCalls(t, pose, pose, false)[2] == TravelToX(3.5)
  {
    var t := UNSET.(tnLLx := 3, tnLLy := 3, tnURx := 4, tnURy := 5);
    var pose := Nav.Pose(0.0, 0.0, 0.0);
    assert LongSub(t.tnURx, t.tnLLx) == 1;
    assert Nav.SquaredDistanceTo(pose, 3.0, 3.0) == 2.0 * (3.0 * TILE_SIZE) * (3.0 * TILE_SIZE);
  }

  /**
   * The crossing choreography around a four-leg route: each travel followed
   * by a wait, correction disabled just before the blind leg, the tunnel
   * re-localization, then the saved enabled flag restored.
   */
  function Crossing(route: seq<Waypoint>, wasEnabled: bool): (c: seq<Call>)
    requires |route| == 4
    ensures |c| == if wasEnabled then 11 else 10
    ensures forall i :: 0 <= i < |c| ==> (c[i].IsTravel() <==> i == 0 || i == 2 || i == 4 || i == 7)
    ensures forall i :: 0 <= i < |c| && c[i].IsTravel() ==> i + 1 < |c| && c[i + 1] == WaitNavigation
    ensures forall i :: 0 <= i < |c| ==> (c[i] == DisableCorrection <==> i == 6)
    ensures forall i :: 0 <= i < |c| ==> (c[i] == EnableCorrection <==> i == 10)
    ensures c[9] == TunnelLocalization
  {
    [ Travel(route[0]), WaitNavigation,
      Travel(route[1]), WaitNavigation,
      Travel(route[2]), WaitNavigation,
      DisableCorrection,
      Travel(route[3]), WaitNavigation,
      TunnelLocalization ]
    + (if wasEnabled then [EnableCorrection] else [])
  }

  /**
   * Correction is off from the `disable()` until the end of the
   * re-localization, and the saved flag is back at the end.
   */
  lemma CrossingRestoresCorrection(route: seq<Waypoint>, wasEnabled: bool)
    requires |route| == 4
    ensures var c := Crossing(route, wasEnabled);
            && (forall k :: 7 <= k <= 10 ==> !CorrectionAfter(c[..k], wasEnabled))
            && CorrectionAfter(c, wasEnabled) == wasEnabled
  {
    var c := Crossing(route, wasEnabled);
    var before := c[..6];
    assert forall i :: 0 <= i < |before| ==> before[i].KeepsCorrection();
    CorrectionUntouched(before, wasEnabled);
    forall k | 7 <= k <= 10
      ensures !CorrectionAfter(c[..k], wasEnabled)
    {
      var rest := c[7..k];
      assert c[..k] == before + [DisableCorrection] + rest;
      assert forall i :: 0 <= i < |rest| ==> rest[i].KeepsCorrection();
      CorrectionAfterAppend(before + [DisableCorrection], rest, wasEnabled);
      CorrectionAfterAppend(before, [DisableCorrection], wasEnabled);
      CorrectionUntouched(rest, false);
    }
    assert c == c[..10] + c[10..];
    CorrectionAfterAppend(c[..10], c[10..], wasEnabled);
  }

  /**
   * Everything `crossTunnel` calls, as written, for the team's tunnel and the
   * two odometer readings the corner distances are taken from.
   */
  function CrossTunnelCalls(t: TeamCoords, llPose: Nav.Pose, urPose: Nav.Pose, wasEnabled: bool): (c: seq<Call>)
    ensures |c| == if wasEnabled then 11 else 10
    ensures CorrectionAfter(c, wasEnabled) == wasEnabled
    ensures var route := TunnelRouteAsWritten(t, NearerLowerLeft(t, llPose, urPose));
            c[0] == Travel(route[0]) && c[2] == Travel(route[1]) &&
            c[4] == Travel(route[2]) && c[7] == Travel(route[3])
  {
    var route := TunnelRouteAsWritten(t, NearerLowerLeft(t, llPose, urPose));
    CrossingRestoresCorrection(route, wasEnabled);
    Crossing(route, wasEnabled)
  }

  /**
   * The crossing over the corrected route: it differs from the source's only
   * in the alignment leg, and restores correction the same way.
   */
  function IntendedCrossTunnelCalls(t: TeamCoords, llPose: Nav.Pose, urPose: Nav.Pose, wasEnabled: bool): (c: seq<Call>)
    ensures var asWritten := CrossTunnelCalls(t, llPose, urPose, wasEnabled);
            && |c| == |asWritten|
            && (forall i :: 0 <= i < |c| && i != 2 ==> c[i] == asWritten[i])
            && c[2] == Travel(TunnelRoute(t, NearerLowerLeft(t, llPose, urPose))[1])
    ensures CorrectionAfter(c, wasEnabled) == wasEnabled
  {
    var route := TunnelRoute(t, NearerLowerLeft(t, llPose, urPose));
    CrossingRestoresCorrection(route, wasEnabled);
    Crossing(route, wasEnabled)
  }

  /** Equal distances to both corners take the upper-right entry. */
  lemma TieTakesUpperRight(t: TeamCoords, llPose: Nav.Pose, urPose: Nav.Pose, wasEnabled: bool)
    requires Nav.SquaredDistanceTo(llPose, t.tnLLx as real, t.tnLLy as real)
          == Nav.SquaredDistanceTo(urPose, t.tnURx as real, t.tnURy as real)
    ensures CrossTunnelCalls(t, llPose, urPose, wasEnabled) == Crossing(TunnelRouteAsWritten(t, false), wasEnabled)
  {
  }

  /** A horizontal tunnel between (3, 3) and (5, 3), entered from (0, 0) with correction on. */
  lemma HorizontalCrossingScenario()
    ensures var t := UNSET.(tnLLx := 3, tnLLy := 3, tnURx := 5, tnURy := 3);
            var pose := Nav.Pose(0.0, 0.0, 0.0);
            CrossTunnelCalls(t, pose, pose, true)
            == [ TravelToX(2.0), WaitNavigation, TravelToY(3.5), WaitNavigation,
                 TravelToX(2.5), WaitNavigation, DisableCorrection, TravelToX(6.0), WaitNavigation,
                 TunnelLocalization, EnableCorrection ]
  {
    var t := UNSET.(tnLLx := 3, tnLLy := 3, tnURx := 5, tnURy := 3);
    assert LongSub(t.tnURx, t.tnLLx) == 2;
    assert NearerLowerLeft(t, Nav.Pose(0.0, 0.0, 0.0), Nav.Pose(0.0, 0.0, 0.0));
  }

  // ---TREE APPROACH---

  /**
   * `approachTree`'s column test, as written: the X distance to the west
   * column against the Y coordinate's distance from the east column's X.
   */
  predicate WestColumnChosen(t: TeamCoords, x: real, y: real): (b: bool)
    ensures y == TILE_SIZE * LongAdd(t.tX, 1) as real ==> !b
    ensures x == TILE_SIZE * LongSub(t.tX, 1) as real && y != TILE_SIZE * LongAdd(t.tX, 1) as real ==> b
  {
    AbsReal(x - TILE_SIZE * LongSub(t.tX, 1) as real) < AbsReal(y - TILE_SIZE * LongAdd(t.tX, 1) as real)
  }

  /** Everything `approachTree` calls; `(x, y)` is the odometer reading after the first wait. */
  function ApproachTreeCalls(t: TeamCoords, x: real, y: real): (c: seq<Call>)
    ensures |c| == 4 && c[0] == TravelToY(t.tY as real) && c[1] == WaitNavigation && c[3] == WaitNavigation
    ensures c[2].TravelToX?
    ensures c[2].x == LongSub(t.tX, 1) as real <==> WestColumnChosen(t, x, y)
    ensures c[2].x == LongAdd(t.tX, 1) as real <==> !WestColumnChosen(t, x, y)
    ensures forall i :: 0 <= i < 4 ==> c[i].KeepsCorrection()
  {
    var column := if WestColumnChosen(t, x, y) then LongSub(t.tX, 1) else LongAdd(t.tX, 1);
    [TravelToY(t.tY as real), WaitNavigation, TravelToX(column as real), WaitNavigation]
  }

  /**
   * Because the test mixes the axes, the robot can head for the far column:
   * standing on the tree's row two tiles west of the west column, it still
   * picks the east column.
   */
  lemma ApproachTreeCanPickFarColumn()
    ensures var t := UNSET.(tX := 3, tY := 6);
            var x, y := 0.0, 6.0 * TILE_SIZE;
            && AbsReal(x - 2.0 * TILE_SIZE) < AbsReal(x - 4.0 * TILE_SIZE)
            && ApproachTreeCalls(t, x, y)[2] == TravelToX(4.0)
  {
    var t := UNSET.(tX := 3, tY := 6);
    assert LongSub(t.tX, 1) == 2 && LongAdd(t.tX, 1) == 4;
    assert !WestColumnChosen(t, 0.0, 6.0 * TILE_SIZE);
  }

  // ---MOVING AROUND THE TREE---

  /** Everything `goToNextFace` calls, given the three headings read just before each turn. */
  function GoToNextFaceCalls(h1: real, h2: real, h3: real): (c: seq<Call>)
    ensures |c| == 5
    ensures forall i :: 0 <= i < 5 ==> c[i].KeepsCorrection()
    ensures forall i :: 0 <= i < 5 ==> (c[i].TurnTo? <==> i % 2 == 0)
    ensures forall i :: 0 <= i < 5 && c[i].AdvanceDist? ==> c[i].dist == TILE_SIZE
  {
    [TurnTo(h1 + 90.0), AdvanceDist(TILE_SIZE), TurnTo(h2 - 90.0), AdvanceDist(TILE_SIZE), TurnTo(h3 - 90.0)]
  }

  /** A heading reduced to [0, 360). */
  function Normalize(h: real): (n: real)
    ensures 0.0 <= n < 360.0
    ensures 0.0 <= h < 360.0 ==> n == h
  {
    h - 360.0 * (h / 360.0).Floor as real
  }

  predicate Cardinal(h: real) {
    h == 0.0 || h == 90.0 || h == 180.0 || h == 270.0
  }

  /**
   * An ideal robot on the grid: a turn ends exactly on its (normalised)
   * heading and an advance moves exactly the distance along a cardinal
   * heading. Other calls do not move it.
   */
  function Perform(c: Call, p: Nav.Pose): Nav.Pose {
    match c
    case TurnTo(theta) => p.(theta := Normalize(theta))
    case AdvanceDist(d) => p.(x := p.x + d * Nav.StepX(p.theta), y := p.y + d * Nav.StepY(p.theta))
    case _ => p
  }

  function Run(calls: seq<Call>, p: Nav.Pose): Nav.Pose {
    if calls == [] then p else Run(calls[1..], Perform(calls[0], p))
  }

  /** The point one tile ahead of `p`: the tree, when the robot faces one of its faces. */
  function Facing(p: Nav.Pose): (real, real) {
    (p.x + TILE_SIZE * Nav.StepX(p.theta), p.y + TILE_SIZE * Nav.StepY(p.theta))
  }

  /**
   * Run ideally from a pose facing the tree, with each heading read being the
   * one the previous turn left, `goToNextFace` ends facing the same tree from
   * the next face counter-clockwise: the robot's offset from the tree is the
   * old one turned a quarter turn counter-clockwise.
   */
  lemma {:induction false} NextFaceCirclesTree(p: Nav.Pose)
    requires Cardinal(p.theta)
    ensures var h2 := Normalize(p.theta + 90.0);
            var q := Run(GoToNextFaceCalls(p.theta, h2, Normalize(h2 - 90.0)), p);
            && Cardinal(q.theta)
            && Facing(q) == Facing(p)
            && q.x - Facing(p).0 == -(p.y - Facing(p).1)
            && q.y - Facing(p).1 == p.x - Facing(p).0
  {
    var h2 := Normalize(p.theta + 90.0);
    var h3 := Normalize(h2 - 90.0);
    var c := GoToNextFaceCalls(p.theta, h2, h3);
    assert h2 == if p.theta == 270.0 then 0.0 else p.theta + 90.0;
    assert h3 == p.theta;
    var p1 := Perform(c[0], p);
    var p2 := Perform(c[1], p1);
    var p3 := Perform(c[2], p2);
    var p4 := Perform(c[3], p3);
    var p5 := Perform(c[4], p4);
    assert Run(c, p) == Run(c[1..], p1);
    assert Run(c[1..], p1) == Run(c[2..], p2) by { assert c[1..][1..] == c[2..]; }
    assert Run(c[2..], p2) == Run(c[3..], p3) by { assert c[2..][1..] == c[3..]; }
    assert Run(c[3..], p3) == Run(c[4..], p4) by { assert c[3..][1..] == c[4..]; }
    assert Run(c[4..], p4) == p5 by { assert c[4..][1..] == []; }
    assert p5.theta == if p.theta == 0.0 then 270.0 else p.theta - 90.0;
  }

  // ---GRABBING RINGS---

  /** Everything `grabRings` calls: the arm routine with correction off, then the saved flag restored. */
  function GrabRingsCalls(wasEnabled: bool): (c: seq<Call>)
    ensures |c| >= 2 && c[..2] == [DisableCorrection, GetRing]
    ensures !CorrectionAfter(c[..2], wasEnabled)
    ensures CorrectionAfter(c, wasEnabled) == wasEnabled
  {
    var arm := [DisableCorrection, GetRing];
    var restore := if wasEnabled then [EnableCorrection] else [];
    CorrectionAfterAppend(arm, restore, wasEnabled);
    assert (arm + restore)[..2] == arm;
    assert arm[1..] == [GetRing] && [GetRing][1..] == [];
    assert CorrectionAfter([GetRing], false) == false;
    arm + restore
  }

  // ---THE CONTROLLER---

  class DomainController {
    /** The map set by `setMap`; None while the Java field is still null. */
    var coordinateMap: Option<CoordinateMap>
    const corrector: Nav.OdometryCorrector
    /** The calls made so far, oldest first. */
    var calls: seq<Call>

    constructor(corrector: Nav.OdometryCorrector)
      ensures this.corrector == corrector && coordinateMap.None? && calls == []
    {
      this.corrector := corrector;
      coordinateMap := None;
      calls := [];
    }

    method SetMap(m: CoordinateMap)
      modifies this`coordinateMap
      ensures coordinateMap == Some(m)
    {
      coordinateMap := Some(m);
    }

    /**
     * `localize`: hands the start corner and starting area to the localizer.
     * Without a map the source dereferences null; here the call reports
     * failure and changes nothing.
     */
    method Localize() returns (ok: bool)
      modifies this`calls
      ensures ok <==> coordinateMap.Some?
      ensures calls == old(calls) +
                (if ok then var t := coordinateMap.value.own; [Call.Localize(t.startCorner, t.llX, t.llY, t.urX, t.urY)] else [])
    {
      if coordinateMap.None? {
        return false;
      }
      var t := coordinateMap.value.own;
      calls := calls + [Call.Localize(t.startCorner, t.llX, t.llY, t.urX, t.urY)];
      return true;
    }

    /** `crossTunnel`; `llPose` and `urPose` are the odometer readings of the two `computeDistance` calls. */
    method CrossTunnel(llPose: Nav.Pose, urPose: Nav.Pose) returns (ok: bool)
      modifies this`calls, corrector
      ensures ok <==> coordinateMap.Some?
      ensures corrector.enabled == old(corrector.enabled)
      ensures calls == old(calls) +
                       (if ok then CrossTunnelCalls(coordinateMap.value.own, llPose, urPose, old(corrector.enabled)) else [])
    {
      if coordinateMap.None? {
        return false;
      }
      var t := coordinateMap.value.own;
      var route := TunnelRouteAsWritten(t, NearerLowerLeft(t, llPose, urPose));
      var wasEnabled := corrector.IsEnabled();
      calls := calls + [Travel(route[0]), WaitNavigation];
      calls := calls + [Travel(route[1]), WaitNavigation];
      calls := calls + [Travel(route[2]), WaitNavigation];
      corrector.Disable();
      calls := calls + [DisableCorrection];
      calls := calls + [Travel(route[3]), WaitNavigation];
      calls := calls + [TunnelLocalization];
      if wasEnabled {
        corrector.Enable();
        calls := calls + [EnableCorrection];
      }
      return true;
    }

    /** `approachTree`; `(x, y)` is the odometer reading after the first wait. */
    method ApproachTree(x: real, y: real) returns (ok: bool)
      modifies this`calls
      ensures ok <==> coordinateMap.Some?
      ensures calls == old(calls) + (if ok then ApproachTreeCalls(coordinateMap.value.own, x, y) else [])
    {
      if coordinateMap.None? {
        return false;
      }
      var t := coordinateMap.value.own;
      calls := calls + [TravelToY(t.tY as real), WaitNavigation];
      if WestColumnChosen(t, x, y) {
        calls := calls + [TravelToX(LongSub(t.tX, 1) as real)];
      } else {
        calls := calls + [TravelToX(LongAdd(t.tX, 1) as real)];
      }
      calls := calls + [WaitNavigation];
      return true;
    }

    /** `goToNextFace`; `h1`, `h2`, `h3` are the headings read before each turn. */
    method GoToNextFace(h1: real, h2: real, h3: real)
      modifies this`calls
      ensures calls == old(calls) + GoToNextFaceCalls(h1, h2, h3)
    {
      calls := calls + [TurnTo(h1 + 90.0), AdvanceDist(TILE_SIZE)];
      calls := calls + [TurnTo(h2 - 90.0), AdvanceDist(TILE_SIZE)];
      calls := calls + [TurnTo(h3 - 90.0)];
    }

    method GrabRings()
      modifies this`calls, corrector
      ensures corrector.enabled == old(corrector.enabled)
      ensures calls == old(calls) + GrabRingsCalls(old(corrector.enabled))
    {
      var wasEnabled := corrector.IsEnabled();
      corrector.Disable();
      calls := calls + [DisableCorrection, GetRing];
      if wasEnabled {
        corrector.Enable();
        calls := calls + [EnableCorrection];
      }
    }
  }
}
