# Motion control of the Mount EV3rest robot, in Dafny

This project models the motion-control core of the robot controller in
`ca.mcgill.ecse211.mountev3rest`, and proves properties of that model. The
core has three parts:

- **The navigator** (`Navigation.java`, module `Nav` in `navigation.dfy`).
  It is a state machine over a target pair, where `-1` leaves an axis free,
  and two flags, `directionChanged` and `isNavigating`.
  - `travelTo`, `travelToX` and `travelToY` set the target.
  - One pass of the control loop (`Tick`) re-plans when the direction changed.
  - `goToTarget` chooses one axis and one of the four cardinal headings, with a 1 cm dead-band.
  - `turnTo` takes the shorter way round, and switches odometry correction off during the turn and then restores the corrector's previous state.
  - `waitNavigation` waits until the robot has been still for more than 400 ms.
  - The motors and the odometry corrector are collaborators. What the navigator asks of them is appended to an action log. What it reads from them (the odometer pose, "a correction fired", "both motors stopped") comes in as parameters.
- **The maneuver layer** (`DomainController.java`, module `Controller` in
  `domain_controller.dfy`). `crossTunnel`, `approachTree`, `goToNextFace` and
  `grabRings` are choreographies of calls on the navigator, the corrector, the
  localizer and the arm. The controller records these calls in a log, and
  each maneuver restores the corrector's enabled flag.
- **The map setup** (`CoordinateMap.java`, module `Util` in
  `coordinate_map.dfy`). The constructor picks the robot's own team's
  coordinates and the other team's coordinates out of a keyed table of
  `long`s, by matching the team number against `RedTeam` and then
  `GreenTeam`. It also copies the island bounds.

`common.dfy` holds `Option`/`Result` and the Java number semantics the source
relies on:
- `int` and `long` arithmetic wraps around;
- the `(int)` cast of a `double` truncates toward zero and saturates.

Java `double`s are modelled as exact reals. `Math.PI` is its shortest decimal
form, 3.141592653589793. The double itself is 3.141592653589793115997963...

Headings follow the odometer's convention, which the approach rules fix:
0 is +Y, 90 is +X, 180 is -Y and 270 is -X.

## Model

| member | source | states |
|---|---|---|
| `Nav.ConvertDistance` | src/ca/mcgill/ecse211/mountev3rest/navigation/Navigation.java:425-427 | For a positive radius, the wheel angle has the sign of the distance. A zero radius gives `Integer.MAX_VALUE` exactly for a forward distance and `Integer.MIN_VALUE` exactly for a backward one, as the cast of an infinite double does. |
| `Nav.ConvertAngle` | src/ca/mcgill/ecse211/mountev3rest/navigation/Navigation.java:439-441 | For a positive radius and a non-negative track, the wheel angle has the sign of the body rotation. |
| `Nav.ConvertDistanceRoundTrip` | src/ca/mcgill/ecse211/mountev3rest/navigation/Navigation.java:425-427 | Driving the wheel angle `convertDistance` returns covers the requested distance to within one degree of wheel travel. This holds when the radius is positive and the angle fits an `int`. |
| `Nav.ConvertAngleCancelsPi` | src/ca/mcgill/ecse211/mountev3rest/navigation/Navigation.java:439-441 | `convertAngle` is `convertDistance` of the arc, which is exactly `(int)(track * angle / (2 * radius))`. |
| `Nav.MinimalRotation` | src/ca/mcgill/ecse211/mountev3rest/navigation/Navigation.java:199-214 | The direction is 1 or -1. The signed turn `direction * targetRotation` equals `theta - currTheta` up to a whole turn, so the turn reaches the requested heading. |
| `Nav.MinimalRotationBounded` | src/ca/mcgill/ecse211/mountev3rest/navigation/Navigation.java:202-214 | For headings less than 360 apart, the rotation magnitude is between 0 and 180, and the signed turn lies in (-180, 180]. |
| `Nav.MinimalRotationIsShortest` | src/ca/mcgill/ecse211/mountev3rest/navigation/Navigation.java:202-214 | No turn that differs from `theta - currTheta` by a whole number of turns is shorter than the one chosen. |
| `Nav.TurnRestoresCorrection` | src/ca/mcgill/ecse211/mountev3rest/navigation/Navigation.java:216-226 | After the turn, correction is as it was before. A corrector that was off is never switched on. Both wheel rotations are issued while correction is off. |
| `Nav.Approach` | src/ca/mcgill/ecse211/mountev3rest/navigation/Navigation.java:317-356 | A drive is at least 1 cm long. It uses the X axis exactly when X is constrained, and it lands exactly on the target coordinate. No drive happens exactly when both axes are free or the chosen axis is inside the dead-band. |
| `Nav.ApproachIgnoresY` | src/ca/mcgill/ecse211/mountev3rest/navigation/Navigation.java:319-336 | With X constrained, neither the Y target nor the Y position changes the drive. |
| `Nav.ApproachXHeading` | src/ca/mcgill/ecse211/mountev3rest/navigation/Navigation.java:319-336 | Outside the dead-band, the X rule faces 270 when the target is behind (`dist < 0`) and 90 otherwise, and drives `abs(dist)`. |
| `Nav.ApproachYHeading` | src/ca/mcgill/ecse211/mountev3rest/navigation/Navigation.java:337-355 | Only when X is free: faces 180 when `dist < 0` and 0 otherwise, and drives `abs(dist)`. |
| `Nav.ApproachScenario` | src/ca/mcgill/ecse211/mountev3rest/navigation/Navigation.java:337-355 | From the origin, `travelToY(3)` faces 0 and drives 91.44 cm. |
| `Nav.GoToTargetRestoresCorrection` | src/ca/mcgill/ecse211/mountev3rest/navigation/Navigation.java:317-356 | Whatever the branch, `goToTarget` leaves the corrector's enabled flag as it found it. |
| `Nav.Quadrant` | src/ca/mcgill/ecse211/mountev3rest/navigation/Navigation.java:375-382 | The classification is total: the result is always one of the quadrants 1 to 4, never the fall-through value 0. |
| `Nav.QuadrantExact` | src/ca/mcgill/ecse211/mountev3rest/navigation/Navigation.java:375-382 | Each quadrant is chosen exactly for its sign pair of `(deltaX, deltaY)`, so the four cases are exclusive. |
| `Nav.SquaredDistanceTo` | src/ca/mcgill/ecse211/mountev3rest/navigation/Navigation.java:290-293 | The square of `computeDistance`, the distance from the odometer reading to the grid point scaled by `TILE_SIZE`. It is never negative, and it is zero exactly when the robot stands on that point. |
| `Nav.SettledWindow` | src/ca/mcgill/ecse211/mountev3rest/navigation/Navigation.java:265-280 | At 25 ms samples, a settled sample is one at least 17 samples into the call, where it and the 16 samples before it all saw the robot still. |
| `Nav.MovingRestartsWait` | src/ca/mcgill/ecse211/mountev3rest/navigation/Navigation.java:265-280 | A sample that sees the robot moving resets the countdown: none of the next 16 samples is settled. |
| `Nav.Navigation.constructor` | src/ca/mcgill/ecse211/mountev3rest/navigation/Navigation.java:89-96 | A new navigator has target `(-1, -1)`, both flags false and nothing issued. |
| `Nav.Navigation.Tick` | src/ca/mcgill/ecse211/mountev3rest/navigation/Navigation.java:116-130 | One loop pass, in order: a changed direction runs `goToTarget`; a correction re-sets both flags; stopped motors clear `isNavigating` whatever came before. Correction is unchanged. The two odometer readings `goToTarget` takes, for the distance and inside `turnTo`, are separate parameters. |
| `Nav.Navigation.TravelTo` | src/ca/mcgill/ecse211/mountev3rest/navigation/Navigation.java:153-159 | Stores `(x, y)` and sets both flags, and changes nothing else. |
| `Nav.Navigation.TravelToX` | src/ca/mcgill/ecse211/mountev3rest/navigation/Navigation.java:167-173 | Stores `(x, -1)` and sets both flags, and changes nothing else. |
| `Nav.Navigation.TravelToY` | src/ca/mcgill/ecse211/mountev3rest/navigation/Navigation.java:181-187 | Stores `(-1, y)` and sets both flags, and changes nothing else. |
| `Nav.Navigation.TurnTo` | src/ca/mcgill/ecse211/mountev3rest/navigation/Navigation.java:196-227 | Issues the minimal rotation's actions, with the left motor's offset and `int` wrap-around, and leaves correction as it found it. |
| `Nav.Navigation.TurnToRelative` | src/ca/mcgill/ecse211/mountev3rest/navigation/Navigation.java:235-240 | A plain relative turn: both speeds are `ROTATE_SPEED`, and the wheels rotate by opposite angles. |
| `Nav.Navigation.AdvanceDist` | src/ca/mcgill/ecse211/mountev3rest/navigation/Navigation.java:248-251 | Both wheels rotate by the same `convertDistance` angle, and the call waits for the right wheel. |
| `Nav.Navigation.IsNavigating` | src/ca/mcgill/ecse211/mountev3rest/navigation/Navigation.java:261-263 | Returns the `isNavigating` flag. |
| `Nav.Navigation.WaitNavigation` | src/ca/mcgill/ecse211/mountev3rest/navigation/Navigation.java:265-280 | Returns at the first settled sample. It returns none only when no sample of the trace is settled. |
| `Nav.Navigation.GoToTarget` | src/ca/mcgill/ecse211/mountev3rest/navigation/Navigation.java:317-356 | Issues the turn and forward drive that `Approach` chooses from the first odometer reading, or nothing. The turn starts from the heading that `turnTo` reads separately. Correction is restored. |
| `Nav.Navigation.Forward` | src/ca/mcgill/ecse211/mountev3rest/navigation/Navigation.java:326-353 | Forward drive: left speed and angle scaled by the motor offset. The right wheel's call returns at once on the X axis and waits on the Y axis. |
| `Util.Get` | src/ca/mcgill/ecse211/mountev3rest/util/CoordinateMap.java:61-118 | A present key gives its value. A missing key (the `null` that the `(long)` cast cannot unbox) gives a failure naming that key. |
| `Util.ReadTeam` | src/ca/mcgill/ecse211/mountev3rest/util/CoordinateMap.java:63-86 | Reading one team's eleven keys succeeds exactly when all of them are present, and then yields those values field by field. Otherwise it names a missing key. |
| `Util.ReadIsland` | src/ca/mcgill/ecse211/mountev3rest/util/CoordinateMap.java:115-118 | Reading the island bounds succeeds exactly when the four `Island_*` keys are present. |
| `Util.NewCoordinateMap` | src/ca/mcgill/ecse211/mountev3rest/util/CoordinateMap.java:60-119 | Construction fails only on a key it reads and the table lacks. With every key present it always succeeds. |
| `Util.RedTeamSelection` | src/ca/mcgill/ecse211/mountev3rest/util/CoordinateMap.java:61-86 | When `RedTeam == team`: own fields come from the Red/TNR/TR keys and `_o` fields from the Green/TNG/TG keys. This holds even when `GreenTeam` also equals `team`, so red has priority. The key `GreenTeam` need not be present, since this branch never reads it. |
| `Util.GreenTeamSelection` | src/ca/mcgill/ecse211/mountev3rest/util/CoordinateMap.java:87-112 | When `RedTeam != team` and `GreenTeam == team`, the roles are swapped. |
| `Util.NoTeamMatch` | src/ca/mcgill/ecse211/mountev3rest/util/CoordinateMap.java:60-119 | When neither team matches, all team fields keep their default 0. Only the two team keys and the island keys are needed. |
| `Util.IslandAlwaysCopied` | src/ca/mcgill/ecse211/mountev3rest/util/CoordinateMap.java:115-118 | Every successful construction copies the island bounds from the `Island_*` keys. |
| `Util.TeamSymmetry` | src/ca/mcgill/ecse211/mountev3rest/util/CoordinateMap.java:61-112 | With distinct team numbers, the red team's map and the green team's map hold the same two coordinate sets, swapped, and the same island. |
| `Controller.TunnelRouteAsWritten` | src/ca/mcgill/ecse211/mountev3rest/controller/DomainController.java:144-187 | The four legs of each branch. Horizontal: X, Y, X, X. Vertical: Y, X, Y, Y. The `long` offsets of one tile and the `double` offsets of half a tile are as written. |
| `Controller.TunnelRoute` | src/ca/mcgill/ecse211/mountev3rest/controller/DomainController.java:166-187 | The as-written route, except the vertical lower-left alignment, which is corrected (see Findings). |
| `Controller.IntendedBlindLegInsideTunnel` | src/ca/mcgill/ecse211/mountev3rest/controller/DomainController.java:144-187 | On a 1×2 tunnel, in every branch: the cross-axis alignment lies strictly inside the tunnel, the creep point lies before the entry mouth, and the blind leg ends beyond the far mouth. |
| `Controller.VerticalLowerLeftMisaligned` | src/ca/mcgill/ecse211/mountev3rest/controller/DomainController.java:167-176 | For the vertical tunnel (3,3)-(4,5) entered from the origin, the crossing as written travels to X = 2.5, outside the tunnel's columns 3 to 4. The intended crossing travels to 3.5. |
| `Controller.Crossing` | src/ca/mcgill/ecse211/mountev3rest/controller/DomainController.java:146-193 | Exactly four travels, each immediately followed by a wait. `disable()` comes once, between the third wait and the fourth travel. Re-localization comes next, and `enable()` comes last and only if correction was on. |
| `Controller.CrossingRestoresCorrection` | src/ca/mcgill/ecse211/mountev3rest/controller/DomainController.java:142-193 | Over the recorded calls, correction is off from the `disable()` through the blind leg and the re-localization. At the end it is back to its saved value. This assumes the re-localization leaves the flag alone (see Left out, `KeepsCorrection`). |
| `Controller.CrossTunnelCalls` | src/ca/mcgill/ecse211/mountev3rest/controller/DomainController.java:138-194 | The crossing as written. It restores correction. Its four travels are the four legs of the as-written route for the entry that the strict distance comparison picks. |
| `Controller.IntendedCrossTunnelCalls` | src/ca/mcgill/ecse211/mountev3rest/controller/DomainController.java:138-194 | The crossing over the corrected route. It differs from the as-written crossing only in the alignment travel, and it restores correction the same way. |
| `Controller.IsHorizontal` | src/ca/mcgill/ecse211/mountev3rest/controller/DomainController.java:144 | The horizontal branch is taken exactly when the exact span is 2. It is also taken when the span is 2 - 2^64, which the `long` subtraction wraps to 2. Every other span goes vertical. |
| `Controller.NearerLowerLeft` | src/ca/mcgill/ecse211/mountev3rest/controller/DomainController.java:139-145 | The strict `LL_dist < UR_dist` test, with each distance from its own odometer reading. A robot standing on the lower-left corner, and not on the upper-right one, picks the lower-left entry. A robot standing on the upper-right corner never does. |
| `Controller.TieTakesUpperRight` | src/ca/mcgill/ecse211/mountev3rest/controller/DomainController.java:139-145 | Equal distances to both corners give the whole upper-right crossing, whatever the corrector's state. |
| `Controller.HorizontalCrossingScenario` | src/ca/mcgill/ecse211/mountev3rest/controller/DomainController.java:144-153 | For the tunnel (3,3)-(5,3) entered from the origin with correction on, the calls are: X 2, Y 3.5, X 2.5, disable, X 6, each travel followed by a wait. Re-localization and enable follow. |
| `Controller.WestColumnChosen` | src/ca/mcgill/ecse211/mountev3rest/controller/DomainController.java:206-207 | The literal mixed-axis test. The west column is never chosen when the Y reading equals the east column's X coordinate. It is always chosen when the robot stands on the west column's X line and that equality fails. |
| `Controller.ApproachTreeCalls` | src/ca/mcgill/ecse211/mountev3rest/controller/DomainController.java:200-213 | Y to `T_y`, wait. Then X to `T_x - 1` exactly when the mixed-axis test holds, otherwise `T_x + 1`, and wait. The controller issues no enable or disable itself. Each `turnTo` the travels cause restores the flag it found (`Nav.TurnRestoresCorrection`). |
| `Controller.ApproachTreeCanPickFarColumn` | src/ca/mcgill/ecse211/mountev3rest/controller/DomainController.java:206-211 | Because the test compares X with Y, a robot nearer the west column can still pick the east column. |
| `Controller.GoToNextFaceCalls` | src/ca/mcgill/ecse211/mountev3rest/controller/DomainController.java:220-228 | Exactly five calls: turn, advance one tile, turn, advance one tile, turn. The controller issues no enable or disable itself. Each `turnTo` restores the flag it found (`Nav.TurnRestoresCorrection`). |
| `Controller.NextFaceCirclesTree` | src/ca/mcgill/ecse211/mountev3rest/controller/DomainController.java:215-228 | Run ideally from a cardinal heading facing the tree, the robot ends facing the same tree from the next face counter-clockwise. Its offset from the tree turns a quarter turn. |
| `Controller.GrabRingsCalls` | src/ca/mcgill/ecse211/mountev3rest/controller/DomainController.java:240-248 | `getRing` runs with correction off, and afterwards the saved flag is restored. |
| `Controller.DomainController.SetMap` | src/ca/mcgill/ecse211/mountev3rest/controller/DomainController.java:119-121 | Stores the map. |
| `Controller.DomainController.Localize` | src/ca/mcgill/ecse211/mountev3rest/controller/DomainController.java:129-131 | Hands the own start corner and starting area to the localizer. Without a map (the source's null dereference) nothing happens and the call reports failure. |
| `Controller.DomainController.CrossTunnel` | src/ca/mcgill/ecse211/mountev3rest/controller/DomainController.java:138-194 | Appends the as-written crossing's calls, and leaves the corrector's flag as it was. |
| `Controller.DomainController.ApproachTree` | src/ca/mcgill/ecse211/mountev3rest/controller/DomainController.java:200-213 | Appends the tree approach's calls. |
| `Controller.DomainController.GoToNextFace` | src/ca/mcgill/ecse211/mountev3rest/controller/DomainController.java:220-228 | Appends the face-to-face calls for the three headings read. |
| `Controller.DomainController.GrabRings` | src/ca/mcgill/ecse211/mountev3rest/controller/DomainController.java:240-248 | Disables correction around `getRing` and restores it. |

## Left out

- `KeepsCorrection`: `tunnelLocalization`, `localize` and `getRing` are assumed to leave the corrector's enabled flag as they found it. The localizer is built with the corrector (DomainController.java:101-102), and its code is not part of this model. When correction was off before a crossing, the flag at the end is whatever `tunnelLocalization` leaves, which the model takes to be off.
- Motors, sensors, the LCD and the `DomainController` constructor, which builds them and starts the threads. Motor and corrector requests are log entries. OdometryCorrector.java, Localizer.java and ArmController.java are not part of this model. Only the corrector's enabled flag is kept.
- Threads and wall-clock time. The infinite loop of `run` is modelled as one `Tick`. `waitNavigation` reads a finite trace of `isNavigating` samples taken 25 ms apart. The computation's own time is not modelled. When the trace ends before the robot settles, the model returns none, where the source would keep waiting.
- IEEE rounding. Doubles are exact reals, so `convertDistance` and `TILE_SIZE` products are exact. A division by a zero radius gives an infinity, which the cast saturates to `Integer.MAX_VALUE` or `Integer.MIN_VALUE`. The NaN of a zero distance casts to 0, as in Java.
- `Math.hypot` and `Math.atan` in `computeRealTarget`. Only the quadrant choice is modelled. `crossTunnel`'s distance comparison is done on squared distances, which order the same way. The bearing angle is not modelled.
- `Nav.MinimalRotationBounded`: the 0–180 bound holds only for headings less than 360 apart, as in the source. For other inputs only `Nav.MinimalRotation`'s congruence is stated.
- `NextFaceCirclesTree` is stated for an ideal robot that turns and advances exactly. Odometer drift and headings off the four cardinal directions are not covered.
- `long`-to-`double` conversions are exact here. A double rounds `long`s beyond 2^53.
- Values of the configuration table that are not `Long`s, which fail the `(long)` cast. The fields `teamColor`, `RedTeam` and `GreenTeam`, which the constructor never assigns.
- `testNavigation`, `testColorDetection` and the commented-out earlier `goToTarget`, which are scaffolding and dead code.

## Findings

| source | as written | input that shows it | evidently intended | confidence | as-written member | corrected member |
|---|---|---|---|---|---|---|
| src/ca/mcgill/ecse211/mountev3rest/controller/DomainController.java:170 | For a vertical tunnel entered at the lower-left corner, the robot aligns to `TN_LL_x - 0.5`, half a tile left of the tunnel, then blind-drives along that line. | Tunnel (3,3)-(4,5), pose (0, 0): the alignment is X = 2.5, outside the tunnel's columns 3 to 4. | `TN_LL_x + 0.5`, the tunnel's centre line, as in the other three branches (`TN_LL_y + 0.5`, `TN_UR_y - 0.5`, `TN_UR_x - 0.5`). | high; not executed | `Controller.VerticalLowerLeftMisaligned` | `Controller.IntendedBlindLegInsideTunnel` |

`Controller.CrossTunnelCalls` and `Controller.DomainController.CrossTunnel` follow the code as written. `Controller.TunnelRoute` and `Controller.IntendedCrossTunnelCalls` are the corrected route and crossing.
