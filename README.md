# marble-hero core, modelled in Dafny

marble-hero is a pair of PsychoPy motor-control games plus an offline warp-grid generator.

- In the **marble game** a marble rolls in a trough while an endless belt of troughs scrolls past. The course the player steers along is drawn along the trough, on the marble's arc.
- In the **wedge game** two keys steer a wedge around a circle of targets.
- **map_perspective.py** builds the warp grid that corrects the picture for an oblique screen.

This project models the logic of those three programs over exact reals. Drawing, devices and file I/O are left out. The floating-point maths library (`sin`, `cos`, `sqrt`, `pi`) is a value of type `ArrayMath.Trig` of uninterpreted functions. A lemma that needs an identity of it, such as sin² + cos² = 1 or `sqrt` ≥ 0, takes that identity as a premise.

Files and modules:

- `arraymath.dfy`, module `ArrayMath`: the NumPy helpers the programs use.
  - `np.linspace`, the slice `[1:-1]`, `[::-1]` and `np.roll(·, 1)`.
  - Degrees to radians.
- `marble_kinematics.dfy`, module `MarbleKinematics`: the per-frame arithmetic of the marble game.
  - The single wrap by +2 below -1, the channel rule and the marble's arc position.
  - The rolling distance and the frame-time history.
  - Multi-frame lemmas: the offsets stay in range, and the belt is periodic.
- `marble_shapes.dfy`, module `MarbleShapes`: what the marble game builds at start-up.
  - The course waypoints and their positions along the belt.
  - The course outline of `gen_course_shape` and the trough outline of `gen_trough_shape`.
- `marble_game.dfy`, module `MarbleTask`: the class `MarbleGame`.
  - Its fields are updated in place: `troughs_ypos` and `marble_yscales` are arrays, `frame_history` is a sequence, and the course's vertical position is a field.
  - Its methods are `update_frame_time`, `update_troughs`, `update_marble`, `reset_course` and one pass of the main loop.
- `wedge_shapes.dfy`, module `WedgeShapes`: the four-slice assembly of `gen_key_shape` and the x-bend of `gen_wedge_shape`.
- `wedge_game.dfy`, module `WedgeTask`: the wedge game.
  - The event-driven key flags and the direction they resolve to.
  - The orientation integrator and the placement of the targets.
  - The class `WedgeGame` with `check_keys`, `update_frame_time`, `update_wedge` and one pass of the main loop.
- `map_perspective.dfy`, module `MapPerspective`: the whole warp-grid script.
  - The 100 × 60 lattice and the meshgrid flattening order.
  - The homogeneous multiply by the perspective matrix (a parameter).
  - The in-place column-by-column divide and the 6000 × 5 output table.

Where the program uses an external value, the model takes it as a parameter:

- the device samples `all_pos`/`all_vel`;
- the two clock readings of `update_frame_time`;
- the key events of `getKeys()`;
- the configuration values;
- the matrix returned by `cv2.getPerspectiveTransform`.

Notes on the course waypoints (marble_game.py:196-206):

- The two closing times are offset from the last *target time* `n*spacing`. They are not offset from the last *course time* `startEnd + n*spacing`.
- So the waypoint times are strictly increasing exactly when `0 < startEnd < spacing`. Both spacings being positive is not enough. `MarbleShapes.CourseTimesIncreasing` proves both directions.
- The game's own values (1.0 and 0.5) satisfy this condition. `MarbleShapes.SourceCourseTimes` gives the resulting times 0, 0.5, 1.5, …, 5.5, 6.0, 6.5.
- `__init__` does not check that the waypoint times increase, so the model does not demand it either.

map_perspective.py:29-30 divides without a zero check, so `BuildWarpGrid` requires `DividesEverywhere`.

## Model

| member | source | states |
|---|---|---|
| ArrayMath.Linspace | map_perspective.py:21-22 | n samples; the first is a, and for n ≥ 2 the last is exactly b; each sample is a + (b-a)·i/(n-1); all are equal to a when a == b |
| ArrayMath.LinspaceBetween | marble_game.py:154 | every linspace sample lies between its two ends, for either order of the ends |
| ArrayMath.Interior | marble_game.py:88-89 | the slice [1:-1] has length n-2 (0 for fewer than two) and element i is s[i+1] |
| ArrayMath.Reverse | marble_game.py:96-97 | the reversal keeps the length and element i is s[n-1-i] |
| ArrayMath.RollRight | marble_game.py:243 | np.roll by one keeps the length, moves the last element to the front and every other element one place right |
| ArrayMath.Deg2Rad | marble_game.py:84 | definition: deg·π/180 (np.deg2rad) |
| ArrayMath.LinspaceAt | map_perspective.py:21-22 | definition: sample i of linspace(a, b, n) is a + (b-a)·i/(n-1) |
| ArrayMath.ArcVertex | marble_game.py:84-98 | definition: (rad·sin a, y + rad·(1 - cos a)) |
| MarbleKinematics.Wrap | marble_game.py:251-252 | the result is y or y+2, and y+2 exactly when y < -1 (so -1 itself is not wrapped); a value in [-3, 1] lands in [-1, 1] |
| MarbleKinematics.Scroll | marble_game.py:249-252 | an offset in [-1, 1] decremented by a distance in [0, 2] and wrapped once stays in [-1, 1] |
| MarbleKinematics.ScrollAll | marble_game.py:249-253 | scrolling a whole belt keeps its length and keeps every offset in [-1, 1] for a distance in [0, 2] |
| MarbleKinematics.ScrolledElementwise | marble_game.py:250-252 | a belt scrolled entry by entry in a loop equals the belt scrolled as a whole |
| MarbleKinematics.ScrollManyInRange | marble_game.py:249-252 | over any run of frames whose distances lie in [0, 2], an offset that starts in [-1, 1] stays there |
| MarbleKinematics.WrapCount | marble_game.py:251 | the wrap count that ScrollManyIsPeriodic adds back; at most one wrap per frame |
| MarbleKinematics.ScrollManyIsPeriodic | marble_game.py:249-252 | after any run of frames the offset is its start minus the summed distances plus 2 per wrap: a scroll of period 2 |
| MarbleKinematics.MotorIndex | marble_game.py:259-262 | the channel read is 1 exactly when the display hand is "lh", otherwise 0 |
| MarbleKinematics.ChannelReading | marble_game.py:263-268 | "lh": angle and velocity from channel 1, with neutral subtracted, gain applied and both negated; any other hand: channel 0, not negated |
| MarbleKinematics.MirroredChannels | marble_game.py:259-268 | the "lh" reading equals the negated "rh" reading of the same sample with its two channels swapped |
| MarbleKinematics.MarbleOnArc | marble_game.py:270-271 | the marble's position lies on the circle of the trough radius centred that radius above its base position |
| MarbleKinematics.MarbleAtRest | marble_game.py:270-271 | at angle 0 the marble sits at (0, marble_base_ypos) |
| MarbleKinematics.RollDistanceNonNegative | marble_game.py:280-286 | the rolling distance (a square root of a sum of squares) is never negative, so the bands only move one way |
| MarbleKinematics.RecordFrame | marble_game.py:243-244 | the history keeps its length, entry 0 is the new frame time, and entry i+1 is the old entry i |
| MarbleKinematics.ScrollMany | marble_game.py:249-252 | definition: Scroll applied once per frame distance, in order |
| MarbleKinematics.MarblePosition | marble_game.py:270-271 | definition: ArcVertex at the base height and deg2rad(angle), i.e. (rad·sin a, base + rad·(1 - cos a)) |
| MarbleKinematics.RollDistance | marble_game.py:280-286 | definition: sqrt(yTravel² + xTravel²) with yTravel = trough_speed·frame_time/(0.4·circ) and xTravel = 2·rad·π·velocity/360·frame_time/(0.4·circ) |
| MarbleShapes.TargetTimes | marble_game.py:196-198 | the arange yields one time per target (its ensures fix only the length; the values spacing, 2·spacing, … are stated by `CourseTimesAt`) |
| MarbleShapes.CourseWaypoints | marble_game.py:199-206 | times and targets both have len(targets)+4 entries; the targets are 0, 0, the configured targets, 0, 0; the first two times are 0 and startEnd |
| MarbleShapes.CourseTimesAt | marble_game.py:204-206 | target j sits at startEnd + (j-1)·spacing; the closing pair sits at n·spacing + spacing and n·spacing + spacing + startEnd |
| MarbleShapes.CourseTimesIncreasing | marble_game.py:196-206 | the course times are strictly increasing if and only if 0 < startEnd < spacing |
| MarbleShapes.SourceCourseTimes | marble_game.py:192-206 | the game's own course has times [0, 0.5, 1.5, 2.5, 3.5, 4.5, 5.5, 6.0, 6.5] and targets [0, 0, 25, -35, 15, -15, 30, 0, 0] |
| MarbleShapes.CoursePositions | marble_game.py:74 | one belt position per waypoint, each speed·time |
| MarbleShapes.PositionsIncreasing | marble_game.py:74 | at a positive speed, strictly increasing times give strictly increasing positions |
| MarbleShapes.SourceCourseKnotsIncreasing | marble_game.py:207-208 | the game's course gives the interpolant strictly increasing knots at every positive trough speed |
| MarbleShapes.ArcVertices | marble_game.py:98-100 | one vertex per (height, angle) pair |
| MarbleShapes.CourseSide | marble_game.py:84-87 | one vertex per course sample |
| MarbleShapes.CourseSideIsArcVertices | marble_game.py:84-87 | a side is the vertex list of the course heights with the deg2rad of the course angles shifted by the offset |
| MarbleShapes.CourseCap | marble_game.py:88-94 | an endcap of m points contributes m-2 vertices (none for m < 2) |
| MarbleShapes.CourseCapIsInteriorOfSweep | marble_game.py:88-94 | an endcap is the vertex list of linspace(y, y, m)[1:-1] and linspace(from, to, m)[1:-1] |
| MarbleShapes.CourseOutline | marble_game.py:96-97 | the outline's length is the sum of the four stretches' lengths |
| MarbleShapes.CourseOutlineIsConcatenation | marble_game.py:96-97 | the outline is bottom cap + left side + top cap + the right side reversed |
| MarbleShapes.CourseOutlineBottom | marble_game.py:96 | the bottom cap's vertices come first |
| MarbleShapes.CourseOutlineLeft | marble_game.py:96 | the left side follows the bottom cap |
| MarbleShapes.CourseOutlineTop | marble_game.py:96 | the top cap follows the left side |
| MarbleShapes.CourseOutlineRight | marble_game.py:96 | the right side comes last, reversed |
| MarbleShapes.CourseShape | marble_game.py:80-100 | the course outline has 2·(endcap_points-2) + 2·len(course_y_raw) vertices |
| MarbleShapes.CourseStretches | marble_game.py:84-99 | the outline is placed from the bottom cap at sample 0, the left side, the top cap at the last sample and the right side |
| MarbleShapes.CourseShapeBottomCap | marble_game.py:88 | vertex i < m-2 is sample i+1 of the sweep from the right side's first angle to the left side's, at the first course height |
| MarbleShapes.CourseShapeLeftSide | marble_game.py:84-85 | vertex m-2+i is the left side's vertex i: course sample i with its angle shifted by -width/2 |
| MarbleShapes.CourseShapeTopCap | marble_game.py:89 | the top cap sweeps from the left side's last angle to the right side's, at the last course height |
| MarbleShapes.CourseShapeRightSideReversed | marble_game.py:86-87 | vertex 2(m-2)+n+i is course sample n-1-i shifted by +width/2: the right side, reversed |
| MarbleShapes.TroughArc | marble_game.py:19-20 | one angle per sample point |
| MarbleShapes.TroughArcPoints | marble_game.py:21-23 | one circle point per arc angle |
| MarbleShapes.TroughArcPointsAt | marble_game.py:21-23 | arc point i is the circle point of the trough radius at arc angle i |
| MarbleShapes.WithLips | marble_game.py:25-26 | the lips add two vertices; the first is the arc's first point moved edge_width left and the last is the arc's last point moved edge_width right, at the same heights, with the arc in between in order |
| MarbleShapes.TroughShape | marble_game.py:16-28 | the trough outline has num_pts + 2 vertices |
| MarbleShapes.TroughShapeArc | marble_game.py:20-26 | vertex j in 1..num_pts is the circle point at arc angle j-1 |
| MarbleShapes.CirclePointOnCircle | marble_game.py:22-23 | where sin² + cos² = 1, a sample point is at the trough radius from (0, radius) |
| MarbleShapes.TroughOnCircle | marble_game.py:20-23 | every arc vertex of a trough lies on the circle whose lowest point is the trough's origin |
| MarbleShapes.SideVertex | marble_game.py:84-87 | definition: ArcVertex at course height i and deg2rad(angle i + offset) |
| MarbleShapes.CapVertex | marble_game.py:88-94 | definition: ArcVertex at course height k and sample i+1 of linspace(deg2rad(angle k + from), deg2rad(angle k + to), m) |
| MarbleShapes.TroughRadius | marble_game.py:21 | definition: 0.5·width / sin(deg2rad(0.5·full_angle)) |
| MarbleShapes.CirclePoint | marble_game.py:22-23 | definition: (rad·cos a, rad·sin a + rad) |
| MarbleShapes.SourceCourse | marble_game.py:191-195 | definition: CourseWaypoints of targets [25, -35, 15, -15, 30], spacing 1.0 and start/end spacing 0.5 |
| MarbleTask.InitialTroughs | marble_game.py:154 | the trough offsets start as linspace(1, -1, 8), all in [-1, 1] |
| MarbleTask.MarbleGame.constructor | marble_game.py:142-233 | the initial state: offsets from linspace(1, -1, 8), one band at phase 1, the course waypoints, the marble at rest at the configured base position, the configured maths library, the clock at 0, a history of 100 zeros, display hand "lh" |
| MarbleTask.MarbleGame.ResetCourse | marble_game.py:237-238 | the course's vertical position becomes 0.5 and nothing else changes |
| MarbleTask.MarbleGame.UpdateFrameTime | marble_game.py:240-244 | frame_time is the first reading minus the previous last_time; last_time is the second reading; the history is recorded |
| MarbleTask.MarbleGame.UpdateTroughs | marble_game.py:247-253 | the course moves down by frame_time·trough_speed without wrapping; every trough is scrolled once and the count is unchanged; offsets in [-1, 1] stay there for a distance in [0, 2] |
| MarbleTask.MarbleGame.WrapTroughs | marble_game.py:250-252 | each entry below -1 is moved up by 2, the others are untouched |
| MarbleTask.MarbleGame.ReadDevice | marble_game.py:257-268 | angle and velocity are the channel reading of the sample |
| MarbleTask.MarbleGame.PlaceMarble | marble_game.py:270-271 | the marble's position is its arc position at its angle |
| MarbleTask.MarbleGame.RollBands | marble_game.py:284-288 | every band phase is scrolled by the distance |
| MarbleTask.MarbleGame.UpdateMarble | marble_game.py:255-291 | the channel reading, the arc position, every band scrolled by the rolling distance; with a non-negative sqrt and a distance ≤ 2 the phases stay in [-1, 1] |
| MarbleTask.MarbleGame.Frame | marble_game.py:294-309 | one loop pass: the clock, then the troughs and the course, then the marble, with both range invariants |
| MarbleTask.MarbleGame.TroughDistance | marble_game.py:248-249 | definition: frame_time·trough_speed |
| MarbleTask.MarbleGame.BandDistance | marble_game.py:280-286 | definition: RollDistance at the game's trough speed, frame time, trough radius, velocity and circumference |
| WedgeShapes.QuarterOf | spoof_wedge_game.py:21-24 | an output slot of quarter k has quotient k by qts |
| WedgeShapes.SourceIndexInBounds | spoof_wedge_game.py:15-29 | every circle index read lies in [0, 4·qts-4] = [0, 4·corner_pts+4], within the 4·corner_pts+5 samples, and the last slot reads the last sample |
| WedgeShapes.QuartersShareEndpoints | spoof_wedge_game.py:21-24 | the last slot of quarter k-1 and the first of quarter k copy the same circle sample k·(qts-1) |
| WedgeShapes.XOffsets | spoof_wedge_game.py:21-24 | one x offset per quarter (its ensures fix only the length 4; the values +w/2, -w/2, -w/2, +w/2 are in its body) |
| WedgeShapes.YOffsets | spoof_wedge_game.py:26-29 | one y offset per quarter (its ensures fix only the length 4; the values +h/2, +h/2, -h/2, -h/2 are in its body) |
| WedgeShapes.Outline | spoof_wedge_game.py:20-24 | the assembled column has 4·qts entries |
| WedgeShapes.OutlineAt | spoof_wedge_game.py:21-24 | slot j holds circle sample j - j/qts, in bounds, plus the offset of its quarter j/qts |
| WedgeShapes.AssembleQuarters | spoof_wedge_game.py:20-24 | the four slice assignments into a zeroed, newly allocated array of 4·corner_pts+8 entries give the outline |
| WedgeShapes.CircleXs | spoof_wedge_game.py:16-17 | 4·corner_pts+5 circle x samples |
| WedgeShapes.CircleYs | spoof_wedge_game.py:16-18 | 4·corner_pts+5 circle y samples |
| WedgeShapes.QuarterSpansRightAngle | spoof_wedge_game.py:16-24 | quarter k's arc starts at circle angle k·π/2 (and so ends at (k+1)·π/2) |
| WedgeShapes.KeyShape | spoof_wedge_game.py:11-30 | xs and ys are two distinct new arrays holding the outlines of the circle columns with the corner offsets |
| WedgeShapes.OutlineCloses | spoof_wedge_game.py:16-24 | where cos 0 = cos 2π, the outline's first and last x coincide |
| WedgeShapes.WedgeShape | spoof_wedge_game.py:39-58 | two distinct new arrays: y is the key outline's y unchanged; every x is the key outline's x scaled by y/task_rad + 1 |
| WedgeShapes.BendFixesAxis | spoof_wedge_game.py:58 | the bend keeps x on the line y = 0 and pinches x to 0 at y = -task_rad |
| WedgeShapes.SourceIndex | spoof_wedge_game.py:21-24 | definition: slot j reads circle sample j - j div qts |
| WedgeShapes.Bend | spoof_wedge_game.py:58 | definition: x·(y/task_rad + 1) |
| WedgeShapes.CircleCount | spoof_wedge_game.py:15 | definition: num_circ_points = 4·corner_pts + 5 |
| WedgeShapes.QuarterLength | spoof_wedge_game.py:19 | definition: qts = corner_pts + 2 |
| WedgeTask.KeysDriveFlags | spoof_wedge_game.py:151-162 | a press of "a" sets the left flag and a release clears it; the same for "d" and the right flag; the other flag is untouched |
| WedgeTask.IrrelevantEventIgnored | spoof_wedge_game.py:152-158 | an event for another key, or of another type, changes neither flag |
| WedgeTask.RelevantEventSets | spoof_wedge_game.py:153-162 | a relevant event sets its key's flag to "it was a press" and leaves the other flag alone |
| WedgeTask.ApplyEventsAppend | spoof_wedge_game.py:151 | applying two runs of events is applying their concatenation |
| WedgeTask.LastEventWins | spoof_wedge_game.py:150-162 | a key's flag ends as that key's last relevant event set it |
| WedgeTask.UntouchedFlagKept | spoof_wedge_game.py:150-162 | with no relevant event for a key, its flag is kept |
| WedgeTask.Direction | spoof_wedge_game.py:163-174 | -1 exactly for left only, +1 exactly for right only, 0 exactly for both or neither, so always in {-1, 0, 1} |
| WedgeTask.TurnSign | spoof_wedge_game.py:181 | no turn without a direction or without elapsed time; for a positive frame time the turn has the sign of the direction, in both directions |
| WedgeTask.IntegrateIsSum | spoof_wedge_game.py:181 | over a run of frames the orientation is its start plus the summed turns |
| WedgeTask.ArcPositionOnCircle | spoof_wedge_game.py:134-136 | every placed point lies on the circle of radius task_rad centred at (0, -task_rad) |
| WedgeTask.ArcPositionAtZero | spoof_wedge_game.py:185-186 | orientation 0 is the top of the circle, at the origin |
| WedgeTask.PlaceTargets | spoof_wedge_game.py:122-137 | one target per configured orientation; target i is turned to target_oris[i] and placed on the circle there |
| WedgeTask.WedgeGame.constructor | spoof_wedge_game.py:90-147 | the initial state: both flags clear, direction 0, orientation 0, the clock at 0, the wedge and target widths, and the placed targets |
| WedgeTask.WedgeGame.CheckKeys | spoof_wedge_game.py:149-174 | the flags are the events applied in order to the old flags, and the direction is resolved from them |
| WedgeTask.WedgeGame.UpdateFrameTime | spoof_wedge_game.py:176-178 | frame_time is the first reading minus the previous last_time; last_time is the second reading |
| WedgeTask.WedgeGame.UpdateWedge | spoof_wedge_game.py:180-189 | task_ori grows by rotation_speed·direction·frame_time and is unchanged for direction 0 or frame time 0; the wedge takes that orientation and its arc position |
| WedgeTask.WedgeGame.Frame | spoof_wedge_game.py:191-198 | one loop pass: the clock, then the keys, then the wedge |
| WedgeTask.ApplyEvent | spoof_wedge_game.py:152-162 | definition: for a key in key_codes, a press sets and a release clears the flag of the key's list; any other event keeps both flags |
| WedgeTask.ApplyEvents | spoof_wedge_game.py:150-151 | definition: the events folded through ApplyEvent in order |
| WedgeTask.Turn | spoof_wedge_game.py:181 | definition: rotation_speed·direction·frame_time with rotation_speed = 60 |
| WedgeTask.Integrate | spoof_wedge_game.py:181 | definition: each frame's Turn added in order |
| WedgeTask.ArcPosition | spoof_wedge_game.py:134-136 | definition: (rad·sin(deg2rad o), -rad + rad·cos(deg2rad o)) |
| MapPerspective.XPts | map_perspective.py:21 | 100 samples from -screen_w to screen_w |
| MapPerspective.YPts | map_perspective.py:22 | 60 samples from -screen_h to screen_h |
| MapPerspective.FlatOrder | map_perspective.py:23-24 | flat row i·100 + j of the meshgrid is (x_pts[j], y_pts[i]): x varies fastest |
| MapPerspective.LatticeCorners | map_perspective.py:8-24 | rows 0, 99, 5900 and 5999 are full_screen[0], [3], [1] and [2] |
| MapPerspective.CornerRowsWarp | map_perspective.py:15-31 | if the matrix maps full_screen onto perspective_screen, those four rows warp onto the perspective_screen corners |
| MapPerspective.DivideByLast | map_perspective.py:29-30 | columns 0 and 1 end divided by the original third column, and the third column, divided last by itself, ends as 1 |
| MapPerspective.MeshGrid | map_perspective.py:23 | two distinct new 60 × 100 grids: x_pts along each row, and y_pts[i] repeated along row i |
| MapPerspective.LatticeTable | map_perspective.py:24 | a new table of 6000 rows, row k being lattice point (x_pts[k mod 100], y_pts[k div 100]) |
| MapPerspective.WarpRows | map_perspective.py:25-28 | row k of the product is M·[x, y, 1] for point k |
| MapPerspective.Layout | map_perspective.py:33-35 | a new table: columns 0-1 hold the point, columns 2-3 the warped point and column 4 is 1 |
| MapPerspective.BuildWarpGrid | map_perspective.py:19-35 | a new 6000 × 5 table whose row k is lattice point k, its perspective image M·[x,y,1] divided by the third component, and 1 |
| MapPerspective.Hom | map_perspective.py:25-28 | definition: M·[x, y, 1] |
| MapPerspective.Project | map_perspective.py:28-31 | definition: the first two components of M·[x, y, 1] divided by the third |
| MapPerspective.LatticePoint | map_perspective.py:23-24 | definition: (x_pts[k mod 100], y_pts[k div 100]) |
| MapPerspective.RowTimes | map_perspective.py:28 | definition: one row of the matmul, m[r][0]·x + m[r][1]·y + m[r][2]·w |
| MapPerspective.MapsTo | map_perspective.py:15 | definition: what cv2.getPerspectiveTransform is taken to return: each of the four source corners has a nonzero divisor and projects onto its destination corner |

## Left out

- Rendering is not modelled: the PsychoPy window, the warper, every `ShapeStim`/`Circle`/`Rect`/`GratingStim`/`TextBox2`, `draw` and `flip`. The vertex lists are returned instead of being handed to a `ShapeStim`.
- The purely visual attributes set each frame are dropped: the marble's and shadow's drawn `pos`, the shadow's `size` and `ori` (marble_game.py:272-277), each band's `size`, `pos` and `ori` (marble_game.py:289-291) and each trough's `pos` (marble_game.py:253). The positions these are set from are modelled: `marbleXpos`/`marbleYpos`, `troughsYpos`, `courseYpos`, the wedge's `wedgeOri`/`wedgePos` and each target's `ori`/`pos`.
- `gen_semicirc_shape` and `gen_shadow_shape` are decorative shapes outside the modelled core.
- SciPy's `PchipInterpolator` and the float `np.arange` sample count in `gen_course_path` are left out. The course samples `course_y_raw`/`course_angle_raw` are parameters of `CourseShape`. Only the position mapping `speed*times` is modelled.
- Floating point is not modelled: the model computes over exact reals, with no rounding, no `float32` corners and no infinities. `sin`, `cos`, `sqrt` and `pi` are uninterpreted.
- Division by zero is a precondition in the model. The source handles it in two ways.
  - The trough half-angle `sin` (marble_game.py:21 and 182), the wedge bend `ys/task_rad` (spoof_wedge_game.py:58) and the warp divide (map_perspective.py:30) divide NumPy values, so a zero divisor gives NumPy inf/NaN. The model instead requires a nonzero `sin` of the half trough angle, `taskRad != 0.0` and `DividesEverywhere`.
  - `marble_circ = 2*np.pi*marble_rad` (marble_game.py:168) is a plain Python float. With `marble_rad == 0`, the division at marble_game.py:281 raises `ZeroDivisionError` in the first `update_marble`, although `__init__` accepts the value. The model moves this to the constructor as `requires cfg.marbleRad != 0.0`. It adds `t.pi != 0.0` there too, because its `pi` is uninterpreted.
- YAML configuration loading, argparse, `sys.exit` and the iohub server are I/O. The configuration values are constructor parameters.
- `KeyboardWrapper` and `send_command` are left out. `all_pos`/`all_vel` are the parameters of `UpdateMarble`.
- `getKeys()` is left out. Its events are the parameter of `CheckKeys`.
- The clock is left out. Both of its readings are parameters of `UpdateFrameTime`.
- The alt-q quit handler, `game_running`, `core.quit` and the endless `run_main_loop` are left out: they are the loop's termination and an out-of-band signal. One iteration is modelled, as `Frame`.
- The frame-rate text (mean, rounding and string formatting, marble_game.py:245) is left out.
- `cv2.getPerspectiveTransform` is a foreign solver, so its matrix is a parameter. `CornerRowsWarp` assumes only that the matrix maps the four corners as requested.
- The pandas CSV write (map_perspective.py:40-41) is left out. `BuildWarpGrid` returns the table.
- The game assigns `marble_xpos`/`marble_ypos` as attributes and the course position as `course_example.pos`. The model keeps these as fields; the x of the course position is always 0 and is not stored.
- WedgeTask.WedgeGame.CheckKeys: the inner `else` at spoof_wedge_game.py:171-172 cannot run, because the `elif` is reached only when the left flag is clear. The model marks it dead with `assert false` instead of assigning 0 there.
- The wedge game's `update_wedge` also sets the wedge's drawn `ori` and `pos`. These are modelled as the fields `wedgeOri` and `wedgePos`.
- `KeysDriveFlags`, `RelevantEventSets` and `LastEventWins` use the game's fixed key lists `['a']` and `['d']`. Other key lists are not modelled.
