# DrawFunctions: marker construction for rviz

This project models the `DrawFunctions` helper class of the
`katana_tabletop_manipulation_launch` package. The class draws points, axes,
spheres, boxes, cylinders and grasp poses in rviz. It does this by filling in
`visualization_msgs/Marker` messages and publishing them on a marker topic.

The model has four modules:

- `Geometry` (geometry.dfy): points, quaternions, grasp poses and 4x4
  homogeneous pose matrices over exact reals. It has the homogeneous product
  that moves a box centre into the parent frame, and the arrow end point
  "start + length × axis column". It also holds `Conversions`, the three
  matrix/quaternion conversions the class calls but does not define. They
  are passed in as function values, and nothing is assumed about them.
- `Messages` (messages.dfy): a `Marker` value, which is what a subscriber
  receives. `MarkerMsg` is the mutable message object the code fills in field
  by field. `MarkerPublisher` is the publisher, modelled as an append-only
  log. Each publish appends a snapshot of the message as it is at that
  moment. This matters because `draw_rviz_axes`, `draw_grasps` and
  `clear_grasps` change one shared message between publishes.
- `Markers` (markers.dfy): one function per drawing operation. It gives the
  marker, or the ordered sequence of markers, that the operation publishes.
  The lemmas beside these functions state the numbering, colouring, scaling
  and geometry rules.
- `Draw` (draw.dfy): the class `DrawFunctions`, with one method per method of
  the source. Each method updates message objects the way the source does.
  Each is proved to append exactly the markers its `Markers` function
  describes, in order, and nothing else.

The code does not always do what its comments and argument names suggest.
The model follows the code:

- Box corners. The comment at draw_functions.py:159 calls the two corner
  lists `(min, max)`. The code computes `ranges[0] − ranges[1]`, so the first
  list acts as the upper corner. Given as ((0,0,0), (2,4,6)), the box gets
  dimensions (−2,−4,−6). Its centre (1,2,3) comes out the same in either
  order (`Markers.BoxCornersExample`, `Markers.BoxCornersSwapped`).
- Input errors. The code checks no list length:
  - in `create_marker`, `draw_rviz_points`, `draw_rviz_axes` and the colour
    arguments, a list that is too short fails when it is indexed, and a
    longer list has its extra entries ignored;
  - in `draw_rviz_box`, the corners are paired up with `zip`, which stops at
    the shorter list, and the centre then gets a 1 appended before it is
    multiplied by the 4x4 pose. That product only has the right shape when
    the shorter corner has exactly three entries; with two or four the
    multiplication fails;
  - a `ranges` that is neither two corners nor three dimensions leaves
    `dims` unbound.

  The model states the needed lengths as preconditions. `BoxRanges` takes
  the corners as two 3-vectors and has no third case.
- `clear_rviz_points` takes an `ns` argument but always deletes in
  namespace `points` and frame `katana_base_link`.
- `clear_grasps` with a negative `num` publishes nothing, as `range(num)`
  is then empty.
- The first grasp is drawn with arrow lengths 1.5× the others and with
  scales (0.015, 0.025, 0.025) instead of (0.01, 0.015, 0.015).

## Model

| member | source | states |
|---|---|---|
| `Geometry.Transform` | katana_tabletop_manipulation_launch/src/katana_tabletop_manipulation_launch/draw_functions.py:171-173 | the homogeneous product pose × [p, 1]: the origin is sent to the pose's translation column, and the identity pose leaves every point where it is |
| `Geometry.AxisEnd` | katana_tabletop_manipulation_launch/src/katana_tabletop_manipulation_launch/draw_functions.py:123-126 | the end "axis column × length + translation" is the pose applied to the point `length` along its own axis k; a zero length ends at the start |
| `Messages.MarkerMsg.constructor` | katana_tabletop_manipulation_launch/src/katana_tabletop_manipulation_launch/draw_functions.py:63 | `Marker()` starts with every number zero, type ARROW, action ADD, the zero quaternion and no points |
| `Messages.MarkerPublisher.Publish` | katana_tabletop_manipulation_launch/src/katana_tabletop_manipulation_launch/draw_functions.py:58 | a publish appends a snapshot of the message's current state to the log and changes nothing else |
| `Draw.DrawFunctions.constructor` | katana_tabletop_manipulation_launch/src/katana_tabletop_manipulation_launch/draw_functions.py:57-58 | the helper starts with a fresh publisher on the given topic, with nothing published |
| `Markers.Filled` | katana_tabletop_manipulation_launch/src/katana_tabletop_manipulation_launch/draw_functions.py:74-97 | create_marker gives an ADD marker with the given type, frame, ns, id and lifetime; scale = dims[0..2], rgb = color[0..2], alpha = opaque, position = pos[0..2], orientation = quat[0..3], no points; it needs dims, color and pos of length ≥ 3 and quat of length ≥ 4 |
| `Draw.DrawFunctions.CreateMarker` | katana_tabletop_manipulation_launch/src/katana_tabletop_manipulation_launch/draw_functions.py:74-97 | the field-by-field assignments leave a fresh message holding exactly the `Filled` marker |
| `Markers.Columns` | katana_tabletop_manipulation_launch/src/katana_tabletop_manipulation_launch/draw_functions.py:104-109 | one point per matrix column, same count and order; reading the points back coordinate by coordinate gives rows 0, 1 and 2 of the matrix |
| `Markers.PointsMarker` | katana_tabletop_manipulation_launch/src/katana_tabletop_manipulation_launch/draw_functions.py:101-111 | the POINTS marker has scale (size, size, size), the given colour and opacity, the default pose, and point j = column j of the matrix |
| `Draw.DrawFunctions.DrawRvizPoints` | katana_tabletop_manipulation_launch/src/katana_tabletop_manipulation_launch/draw_functions.py:101-111 | appending column after column and publishing appends exactly one marker, `PointsMarker` |
| `Markers.ClearPointsMarker` | katana_tabletop_manipulation_launch/src/katana_tabletop_manipulation_launch/draw_functions.py:61-70 | a DELETE POINTS marker with the given id, ns always 'points' and frame always 'katana_base_link', whatever ns is passed |
| `Draw.DrawFunctions.ClearRvizPoints` | katana_tabletop_manipulation_launch/src/katana_tabletop_manipulation_launch/draw_functions.py:61-70 | appends exactly one marker, `ClearPointsMarker(ns, id)` |
| `Markers.AxisColor` | katana_tabletop_manipulation_launch/src/katana_tabletop_manipulation_launch/draw_functions.py:129-146 | arrow k is pure red, green or blue: channel k is 1, the other two channels are 0, and alpha is 1 |
| `Markers.AxesMarkers` | katana_tabletop_manipulation_launch/src/katana_tabletop_manipulation_launch/draw_functions.py:117-147 | exactly three ARROW markers, ids id, id+1, id+2 in order, coloured red, green, blue with alpha 1; each starts at the pose's translation and arrow k ends at the pose applied to lengths[k] along axis k; scale (.01, .02, 0) |
| `Markers.AxesAtIdentity` | katana_tabletop_manipulation_launch/src/katana_tabletop_manipulation_launch/draw_functions.py:117-147 | with the identity pose the arrows start at the origin and arrow k ends lengths[k] along axis k |
| `Draw.PublishArrow` | katana_tabletop_manipulation_launch/src/katana_tabletop_manipulation_launch/draw_functions.py:130-135 | the repeated block sets id, points and r, g, b of the shared message, keeps every other field, and appends its snapshot |
| `Draw.DrawFunctions.DrawRvizAxes` | katana_tabletop_manipulation_launch/src/katana_tabletop_manipulation_launch/draw_functions.py:117-147 | mutating one message and publishing three times appends exactly `AxesMarkers`, in order |
| `Markers.SphereMarker` | katana_tabletop_manipulation_launch/src/katana_tabletop_manipulation_launch/draw_functions.py:151-155 | a SPHERE with scale 2r on every axis, placed where mat_to_pos_and_quat puts it |
| `Draw.DrawFunctions.DrawRvizSphere` | katana_tabletop_manipulation_launch/src/katana_tabletop_manipulation_launch/draw_functions.py:151-155 | appends exactly one marker, `SphereMarker` |
| `Markers.BoxDims` | katana_tabletop_manipulation_launch/src/katana_tabletop_manipulation_launch/draw_functions.py:163-168 | for corners, lower + dims = upper, where the first list is the upper one; for three dimensions, dims = ranges |
| `Markers.BoxCenter` | katana_tabletop_manipulation_launch/src/katana_tabletop_manipulation_launch/draw_functions.py:163-169 | for corners, the midpoint (ranges[0] + ranges[1]) / 2, and centre ± dims/2 gives the two corners back; for three dimensions, the origin |
| `Markers.BoxCornersSwapped` | katana_tabletop_manipulation_launch/src/katana_tabletop_manipulation_launch/draw_functions.py:164-165 | swapping the two corners keeps the centre and negates the dimensions |
| `Markers.BoxCornersExample` | katana_tabletop_manipulation_launch/src/katana_tabletop_manipulation_launch/draw_functions.py:163-165 | corners ((0,0,0), (2,4,6)) give dims (−2,−4,−6) and centre (1,2,3) |
| `Markers.BoxMarker` | katana_tabletop_manipulation_launch/src/katana_tabletop_manipulation_launch/draw_functions.py:162-178 | a CUBE whose scale is the box's dims, whose position is the centre mapped through the pose, and whose orientation is quaternion_from_matrix(pose); for three dimensions its position is exactly the pose's translation |
| `Draw.DrawFunctions.DrawRvizBox` | katana_tabletop_manipulation_launch/src/katana_tabletop_manipulation_launch/draw_functions.py:162-178 | appends exactly one marker, `BoxMarker` |
| `Markers.CylinderMarker` | katana_tabletop_manipulation_launch/src/katana_tabletop_manipulation_launch/draw_functions.py:182-186 | a CYLINDER with scale (2r, 2r, l), placed where mat_to_pos_and_quat puts it |
| `Draw.DrawFunctions.DrawRvizCylinder` | katana_tabletop_manipulation_launch/src/katana_tabletop_manipulation_launch/draw_functions.py:182-186 | appends exactly one marker, `CylinderMarker` |
| `Markers.ClearGraspMarkers` | katana_tabletop_manipulation_launch/src/katana_tabletop_manipulation_launch/draw_functions.py:191-201 | exactly max(num, 0) DELETE ARROW markers in namespace ns and the given frame, marker i having id i (ids 0 … num−1 in increasing order) |
| `Markers.ClearDefaultGrasps` | katana_tabletop_manipulation_launch/src/katana_tabletop_manipulation_launch/draw_functions.py:191 | with the default bound 150, exactly 150 DELETE markers go out, marker i having id i for i = 0 … 149 |
| `Draw.DrawFunctions.ClearGrasps` | katana_tabletop_manipulation_launch/src/katana_tabletop_manipulation_launch/draw_functions.py:191-201 | rewriting the id of one message and publishing in a loop appends exactly `ClearGraspMarkers` |
| `Markers.GraspArrowLength` | katana_tabletop_manipulation_launch/src/katana_tabletop_manipulation_launch/draw_functions.py:218-236 | grasp 0's arrows are .075, .03, .03 long; later grasps' are .05, .02, .02 |
| `Markers.GraspArrowEnd` | katana_tabletop_manipulation_launch/src/katana_tabletop_manipulation_launch/draw_functions.py:230-236 | arrow k of a grasp ends at its position + GraspArrowLength × column k of quaternion_matrix(orientation) |
| `Markers.GraspArrow` | katana_tabletop_manipulation_launch/src/katana_tabletop_manipulation_launch/draw_functions.py:217-257 | arrow k of grasp g has id 4g + k, colour red/green/blue for k = 0/1/2 with alpha 1, the grasp's scale, lifetime 0, and runs from the grasp's position to `GraspArrowEnd` |
| `Markers.GraspMarkers` | katana_tabletop_manipulation_launch/src/katana_tabletop_manipulation_launch/draw_functions.py:217-258 | draw_grasps publishes three markers per grasp, 3·N in all |
| `Markers.GraspMarkersLayout` | katana_tabletop_manipulation_launch/src/katana_tabletop_manipulation_launch/draw_functions.py:217-258 | published marker k is arrow k mod 3 of grasp k div 3 |
| `Markers.GraspMarkerNumbering` | katana_tabletop_manipulation_launch/src/katana_tabletop_manipulation_launch/draw_functions.py:217-258 | marker k has id 4(k div 3) + k mod 3, so no id ≡ 3 (mod 4) is ever published and ids strictly increase; colour by k mod 3, alpha 1, lifetime 0; the large scale only for the first three markers |
| `Markers.TwoGraspIds` | katana_tabletop_manipulation_launch/src/katana_tabletop_manipulation_launch/draw_functions.py:240-258 | two grasps give six markers with ids 0, 1, 2, 4, 5, 6 |
| `Draw.DrawFunctions.DrawGrasp` | katana_tabletop_manipulation_launch/src/katana_tabletop_manipulation_launch/draw_functions.py:218-258 | one turn of the loop publishes grasp g's three arrows and leaves the shared message with grasp g's scale, id 4g + 3, the z arrow's points and blue colour, every other field unchanged |
| `Draw.DrawFunctions.DrawGrasps` | katana_tabletop_manipulation_launch/src/katana_tabletop_manipulation_launch/draw_functions.py:206-258 | preparing one message and looping over the grasps appends exactly `GraspMarkers`, grasp by grasp |

## Left out

- ROS transport: the publisher's delivery to subscribers, `roslib.load_manifest`
  and `rospy.loginfo` are left out. The publisher is only the log of what was
  handed to it.
- Header stamps (`rospy.Time.now()`) are not modelled; `Marker` has no stamp field.
- tf.transformations.quaternion_from_matrix and quaternion_matrix, and
  mat_to_pos_and_quat from convert_functions, are not part of this model.
  They enter as the `Conversions` function values, and no property of the
  quaternion algorithm is stated.
- `draw_grasps`: the debug `print` lines, the `pause` argument with its
  prompt and `raw_input`, and the final `time.sleep(.5)` are left out. They
  change no marker. `Draw.DrawFunctions.DrawGrasps` has no `pause` parameter.
- The `__main__` test script and its endless redraw loop are left out.
- Floating point: coordinates, scales, colours and lifetimes are exact reals.
  `rospy.Duration(duration)` is its number of seconds.
- Integer width: ids are unbounded integers. The message's 32-bit `id` field
  and its overflow are not modelled.
- Marker fields that the code never sets (`frame_locked`, `colors`, `text`,
  `mesh_resource`, …) and marker types it never uses are not modelled.
- The single scalar `pos[i]` taken from a scipy column matrix in
  `draw_rviz_box` is modelled as a plain number.
- `Draw.DrawFunctions.DrawGrasp` and `Draw.PublishArrow` are blocks of the source split out
  as their own methods, to keep each proof small. They do what the source's
  inline code does.
- Length preconditions: `Markers.Filled` and `Draw.DrawFunctions.CreateMarker`
  (dims, color, pos of length ≥ 3, quat of length ≥ 4),
  `Markers.AxesMarkers`, `Markers.AxesAtIdentity` and
  `Draw.DrawFunctions.DrawRvizAxes` (`|lengths| >= 3`), and the `|color| >= 3`
  of `Markers.PointsMarker`, `Markers.SphereMarker`, `Markers.BoxMarker`,
  `Markers.CylinderMarker` and the matching `Draw` methods stand where the
  source raises an `IndexError`; that error path is not modelled.
