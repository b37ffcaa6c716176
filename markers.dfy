/**
 * What each drawing operation publishes, as values: one function per
 * operation giving the marker (or the sequence of markers, in publishing
 * order) it hands to the publisher, and the properties of those markers.
 */
module Markers {
  import opened Geometry
  import opened Messages

  // ---------------------------------------------------------------------
  // create_marker
  // ---------------------------------------------------------------------

  /**
   * The marker `create_marker` returns: an ADD marker of the given type, frame,
   * namespace, id and lifetime whose scale, colour, position and orientation
   * are copied from the leading entries of the given lists.
   */
  function Filled(kind: Shape, dims: seq<real>, frame: string, ns: string, id: int,
                  duration: real, color: seq<real>, opacity: real,
                  pos: seq<real>, quat: seq<real>): (m: Marker)
    requires |dims| >= 3 && |color| >= 3 && |pos| >= 3 && |quat| >= 4
    ensures m.kind == kind && m.action == Add
    ensures m.frame == frame && m.ns == ns && m.id == id && m.lifetime == duration
    ensures m.scale.AsList() == dims[..3]
    ensures m.color == Color(color[0], color[1], color[2], opacity)
    ensures m.position.AsList() == pos[..3]
    ensures m.orientation.AsList() == quat[..4]
    ensures m.points == []
  {
    Marker(frame, ns, id, kind, Add, FromList(pos), Quat(quat[0], quat[1], quat[2], quat[3]),
           FromList(dims), Color(color[0], color[1], color[2], opacity), duration, [])
  }

  /** The default `pos` and `quat` arguments of create_marker. */
  const DefaultPos: seq<real> := [0.0, 0.0, 0.0]
  const DefaultQuat: seq<real> := [0.0, 0.0, 0.0, 1.0]
  /** The default `color` argument of create_marker (red). */
  const DefaultColor: seq<real> := [1.0, 0.0, 0.0]

  // ---------------------------------------------------------------------
  // draw_rviz_points / clear_rviz_points
  // ---------------------------------------------------------------------

  /** A 3xn or 4xn matrix of points, one point per column, as a list of rows. */
  predicate IsPointMatrix(points: seq<seq<real>>) {
    |points| >= 3 && forall i | 0 <= i < |points| :: |points[i]| == |points[0]|
  }

  /** `scipy.shape(points)[1]`: the number of points. */
  function PointCount(points: seq<seq<real>>): nat
    requires IsPointMatrix(points)
  {
    |points[0]|
  }

  /** The list of one coordinate (0 = x, 1 = y, 2 = z) of a list of points. */
  function Coordinates(ps: seq<Vec3>, axis: nat): (c: seq<real>)
    requires axis < 3
    ensures |c| == |ps|
  {
    seq(|ps|, j requires 0 <= j < |ps| => if axis == 0 then ps[j].x else if axis == 1 then ps[j].y else ps[j].z)
  }

  /**
   * The matrix's columns as points, in column order. Read back coordinate by
   * coordinate, they give the matrix's first three rows again, entry for entry.
   */
  function Columns(points: seq<seq<real>>): (ps: seq<Vec3>)
    requires IsPointMatrix(points)
    ensures |ps| == PointCount(points)
    ensures Coordinates(ps, 0) == points[0]
    ensures Coordinates(ps, 1) == points[1]
    ensures Coordinates(ps, 2) == points[2]
  {
    seq(|points[0]|, j requires 0 <= j < |points[0]| => Vec3(points[0][j], points[1][j], points[2][j]))
  }

  /** The one POINTS marker `draw_rviz_points` publishes. */
  function PointsMarker(points: seq<seq<real>>, frame: string, size: real, ns: string, id: int,
                        duration: real, color: seq<real>, opacity: real): (m: Marker)
    requires IsPointMatrix(points) && |color| >= 3
    ensures m.kind == Points && m.action == Add
    ensures m.frame == frame && m.ns == ns && m.id == id && m.lifetime == duration
    ensures m.scale == Vec3(size, size, size)
    ensures m.color == Color(color[0], color[1], color[2], opacity)
    ensures m.position == Origin && m.orientation == Quat(0.0, 0.0, 0.0, 1.0)
    ensures |m.points| == PointCount(points)
    ensures forall j | 0 <= j < |m.points| :: m.points[j] == Vec3(points[0][j], points[1][j], points[2][j])
  {
    Filled(Points, [size, size, size], frame, ns, id, duration, color, opacity, DefaultPos, DefaultQuat)
      .(points := Columns(points))
  }

  /** The one DELETE marker `clear_rviz_points` publishes; its `ns` argument is not used. */
  function ClearPointsMarker(ns: string, id: int): (m: Marker)
    ensures m.kind == Points && m.action == Delete && m.id == id
    ensures m.ns == "points" && m.frame == "katana_base_link"
    ensures m.points == [] && m.lifetime == 0.0
  {
    EmptyMarker.(frame := "katana_base_link", ns := "points", kind := Points, action := Delete, id := id)
  }

  // ---------------------------------------------------------------------
  // draw_rviz_axes
  // ---------------------------------------------------------------------

  /** Red, green and blue, fully opaque, for the x, y and z arrows. */
  function AxisColor(k: nat): (c: Color)
    requires k < 3
    ensures c.a == 1.0
    ensures k == 0 <==> c.r != 0.0
    ensures k == 1 <==> c.g != 0.0
    ensures k == 2 <==> c.b != 0.0
    ensures c.r + c.g + c.b == 1.0
  {
    if k == 0 then Color(1.0, 0.0, 0.0, 1.0)
    else if k == 1 then Color(0.0, 1.0, 0.0, 1.0)
    else Color(0.0, 0.0, 1.0, 1.0)
  }

  const DefaultAxisLengths: seq<real> := [0.05, 0.01, 0.01]

  /** The marker draw_rviz_axes builds before drawing any arrow. */
  function AxesBase(frame: string, ns: string, id: int, duration: real): Marker {
    var m := Filled(Arrow, [0.01, 0.02, 0.0], frame, ns, id, duration, DefaultColor, 0.5, DefaultPos, DefaultQuat);
    m.(color := m.color.(a := 1.0))
  }

  /** Arrow `k` as draw_rviz_axes publishes it, from the shared marker `base`. */
  function AxisArrow(base: Marker, pose: Mat4, lengths: seq<real>, id: int, k: nat): Marker
    requires k < 3 && |lengths| >= 3
  {
    var c := AxisColor(k);
    base.(id := id + k, points := [Translation(pose), AxisEnd(pose, k, lengths[k])],
          color := base.color.(r := c.r, g := c.g, b := c.b))
  }

  /**
   * The three ARROW markers `draw_rviz_axes` publishes, in order: ids id,
   * id+1, id+2, coloured red, green, blue, each starting at the pose's
   * translation and ending `lengths[k]` along the pose's axis k.
   */
  function AxesMarkers(pose: Mat4, frame: string, lengths: seq<real>, ns: string, id: int,
                       duration: real): (r: seq<Marker>)
    requires |lengths| >= 3
    ensures |r| == 3
    ensures forall k | 0 <= k < 3 ::
      r[k].id == id + k && r[k].color == AxisColor(k) &&
      r[k].points == [Translation(pose), Transform(pose, Scale(UnitAxis(k), lengths[k]))]
    ensures forall k | 0 <= k < 3 ::
      r[k].kind == Arrow && r[k].action == Add && r[k].frame == frame && r[k].ns == ns &&
      r[k].lifetime == duration && r[k].scale == Vec3(0.01, 0.02, 0.0) &&
      r[k].position == Origin && r[k].orientation == Quat(0.0, 0.0, 0.0, 1.0)
  {
    var base := AxesBase(frame, ns, id, duration);
    [AxisArrow(base, pose, lengths, id, 0), AxisArrow(base, pose, lengths, id, 1),
     AxisArrow(base, pose, lengths, id, 2)]
  }

  /**
   * With the identity pose every arrow starts at the origin and arrow k ends
   * `lengths[k]` along axis k.
   */
  lemma AxesAtIdentity(lengths: seq<real>, frame: string, ns: string, id: int, duration: real)
    requires |lengths| >= 3
    ensures var r := AxesMarkers(Identity, frame, lengths, ns, id, duration);
      forall k | 0 <= k < 3 :: r[k].points == [Origin, Scale(UnitAxis(k), lengths[k])]
  {
  }

  // ---------------------------------------------------------------------
  // draw_rviz_sphere / draw_rviz_cylinder
  // ---------------------------------------------------------------------

  /** The SPHERE marker of radius `r`: diameter 2r on every axis, placed by mat_to_pos_and_quat. */
  function SphereMarker(conv: Conversions, pose: Mat4, r: real, frame: string, ns: string, id: int,
                        duration: real, color: seq<real>, opacity: real): (m: Marker)
    requires |color| >= 3
    ensures m.kind == Sphere && m.action == Add
    ensures m.frame == frame && m.ns == ns && m.id == id && m.lifetime == duration
    ensures m.scale.x == m.scale.y == m.scale.z == 2.0 * r
    ensures (m.position, m.orientation) == conv.matToPosAndQuat(pose)
    ensures m.color == Color(color[0], color[1], color[2], opacity)
  {
    var (pos, quat) := conv.matToPosAndQuat(pose);
    Filled(Sphere, [r * 2.0, r * 2.0, r * 2.0], frame, ns, id, duration, color, opacity, pos.AsList(), quat.AsList())
  }

  /** The CYLINDER marker of radius `r` and length `l` along the pose's z axis. */
  function CylinderMarker(conv: Conversions, pose: Mat4, r: real, l: real, frame: string, ns: string,
                          id: int, duration: real, color: seq<real>, opacity: real): (m: Marker)
    requires |color| >= 3
    ensures m.kind == Cylinder && m.action == Add
    ensures m.frame == frame && m.ns == ns && m.id == id && m.lifetime == duration
    ensures m.scale == Vec3(2.0 * r, 2.0 * r, l)
    ensures (m.position, m.orientation) == conv.matToPosAndQuat(pose)
    ensures m.color == Color(color[0], color[1], color[2], opacity)
  {
    var (pos, quat) := conv.matToPosAndQuat(pose);
    Filled(Cylinder, [r * 2.0, r * 2.0, l], frame, ns, id, duration, color, opacity, pos.AsList(), quat.AsList())
  }

  // ---------------------------------------------------------------------
  // draw_rviz_box
  // ---------------------------------------------------------------------

  /**
   * The `ranges` argument of draw_rviz_box: two 3-lists of corner coordinates,
   * of which the FIRST is subtracted from, or one 3-list of dimensions.
   */
  datatype BoxRanges = Corners(upper: Vec3, lower: Vec3) | Dimensions(dims: Vec3)

  /** The box's dimensions: upper minus lower, or the given dimensions. */
  function BoxDims(ranges: BoxRanges): (d: Vec3)
    ensures ranges.Corners? ==> Plus(ranges.lower, d) == ranges.upper
    ensures ranges.Dimensions? ==> d == ranges.dims
  {
    match ranges
    case Corners(upper, lower) => Minus(upper, lower)
    case Dimensions(dims) => dims
  }

  /**
   * The box's centre in its own frame: the midpoint of the corners, whichever
   * order they come in, or the origin. Half the dimensions either side of it
   * gives the two corners back.
   */
  function BoxCenter(ranges: BoxRanges): (c: Vec3)
    ensures ranges.Corners? ==> c == Scale(Plus(ranges.upper, ranges.lower), 0.5)
    ensures ranges.Corners? ==> Plus(c, Scale(BoxDims(ranges), 0.5)) == ranges.upper
    ensures ranges.Corners? ==> Minus(c, Scale(BoxDims(ranges), 0.5)) == ranges.lower
    ensures ranges.Dimensions? ==> c == Origin
  {
    match ranges
    case Corners(upper, lower) =>
      Vec3((upper.x - lower.x) / 2.0 + lower.x, (upper.y - lower.y) / 2.0 + lower.y,
           (upper.z - lower.z) / 2.0 + lower.z)
    case Dimensions(_) => Origin
  }

  /** Swapping the corners keeps the centre and negates the dimensions. */
  lemma BoxCornersSwapped(a: Vec3, b: Vec3)
    ensures BoxCenter(Corners(a, b)) == BoxCenter(Corners(b, a))
    ensures BoxDims(Corners(b, a)) == Scale(BoxDims(Corners(a, b)), -1.0)
  {
  }

  /** Corners ((0,0,0), (2,4,6)) in that order give dimensions (-2,-4,-6) and centre (1,2,3). */
  lemma BoxCornersExample()
    ensures BoxDims(Corners(Origin, Vec3(2.0, 4.0, 6.0))) == Vec3(-2.0, -4.0, -6.0)
    ensures BoxCenter(Corners(Origin, Vec3(2.0, 4.0, 6.0))) == Vec3(1.0, 2.0, 3.0)
  {
  }

  /**
   * The CUBE marker draw_rviz_box publishes: the box's dimensions as scale,
   * its centre mapped through the pose as position, and the pose's rotation
   * as orientation. Given as dimensions, the box sits at the pose's translation.
   */
  function BoxMarker(conv: Conversions, pose: Mat4, ranges: BoxRanges, frame: string, ns: string,
                     id: int, duration: real, color: seq<real>, opacity: real): (m: Marker)
    requires |color| >= 3
    ensures m.kind == Cube && m.action == Add
    ensures m.frame == frame && m.ns == ns && m.id == id && m.lifetime == duration
    ensures m.scale == BoxDims(ranges)
    ensures m.position == Transform(pose, BoxCenter(ranges))
    ensures ranges.Dimensions? ==> m.position == Translation(pose) && m.scale == ranges.dims
    ensures m.orientation == conv.quaternionFromMatrix(pose)
    ensures m.color == Color(color[0], color[1], color[2], opacity)
  {
    var dims := BoxDims(ranges);
    var center := Transform(pose, BoxCenter(ranges));
    Filled(Cube, dims.AsList(), frame, ns, id, duration, color, opacity, center.AsList(),
           conv.quaternionFromMatrix(pose).AsList())
  }

  // ---------------------------------------------------------------------
  // clear_grasps
  // ---------------------------------------------------------------------

  /** `range(num)` has no elements when num is negative. */
  function RangeLength(num: int): nat {
    if num < 0 then 0 else num
  }

  /** The DELETE ARROW markers `clear_grasps` publishes, one per id in range(num). */
  function ClearGraspMarkers(ns: string, num: int, frame: string): (r: seq<Marker>)
    ensures |r| == RangeLength(num)
    ensures forall i | 0 <= i < |r| ::
      r[i].id == i && r[i].kind == Arrow && r[i].action == Delete && r[i].ns == ns && r[i].frame == frame
  {
    seq(RangeLength(num), i => EmptyMarker.(frame := frame, ns := ns, kind := Arrow, action := Delete, id := i))
  }

  /** With the default bound, 150 DELETE markers go out, for ids 0 to 149 in order. */
  lemma ClearDefaultGrasps(ns: string, frame: string)
    ensures var r := ClearGraspMarkers(ns, 150, frame);
      |r| == 150 && forall i | 0 <= i < 150 :: r[i].id == i && r[i].action == Delete
  {
  }

  // ---------------------------------------------------------------------
  // draw_grasps
  // ---------------------------------------------------------------------

  /** The marker draw_grasps sets up before its loop. */
  function GraspBase(frame: string, ns: string): Marker {
    EmptyMarker.(frame := frame, ns := ns, kind := Arrow, action := Add,
                 color := EmptyMarker.color.(a := 1.0), lifetime := 0.0)
  }

  /** The arrow shaft and head sizes: larger for the first grasp. */
  function GraspScale(graspNum: nat): Vec3 {
    if graspNum == 0 then Vec3(0.015, 0.025, 0.025) else Vec3(0.01, 0.015, 0.015)
  }

  function LengthFactor(graspNum: nat): real {
    if graspNum == 0 then 1.5 else 1.0
  }

  /** The length of arrow `k` of grasp `graspNum`. */
  function GraspArrowLength(graspNum: nat, k: nat): (len: real)
    requires k < 3
    ensures graspNum == 0 ==> len == [0.075, 0.03, 0.03][k]
    ensures graspNum > 0 ==> len == [0.05, 0.02, 0.02][k]
  {
    (if k == 0 then 0.05 else 0.02) * LengthFactor(graspNum)
  }

  /**
   * The end of arrow `k` of a grasp: axis k of the grasp's rotation matrix,
   * scaled by the base length and the grasp's length factor, from its position.
   */
  function GraspArrowEnd(conv: Conversions, graspNum: nat, k: nat, grasp: Pose): (e: Vec3)
    requires k < 3
    ensures e == Plus(Scale(Column(conv.quaternionMatrix(grasp.orientation), k), GraspArrowLength(graspNum, k)),
                      grasp.position)
  {
    var base := if k == 0 then 0.05 else 0.02;
    var axis := Column(conv.quaternionMatrix(grasp.orientation), k);
    ScaleTwice(axis, base, LengthFactor(graspNum));
    Plus(Scale(Scale(axis, base), LengthFactor(graspNum)), grasp.position)
  }

  /** Arrow `k` of grasp number `graspNum`, as draw_grasps publishes it. */
  function GraspArrow(conv: Conversions, graspNum: nat, k: nat, grasp: Pose, frame: string, ns: string): (m: Marker)
    requires k < 3
    ensures m.id == 4 * graspNum + k && m.color == AxisColor(k) && m.scale == GraspScale(graspNum)
    ensures m.kind == Arrow && m.action == Add && m.frame == frame && m.ns == ns && m.lifetime == 0.0
    ensures m.points == [grasp.position, GraspArrowEnd(conv, graspNum, k, grasp)]
  {
    GraspBase(frame, ns).(scale := GraspScale(graspNum), id := graspNum * 4 + k,
                          points := [grasp.position, GraspArrowEnd(conv, graspNum, k, grasp)], color := AxisColor(k))
  }

  /** The three arrows (x red, y green, z blue) of one grasp. */
  function GraspArrows(conv: Conversions, graspNum: nat, grasp: Pose, frame: string, ns: string): seq<Marker> {
    [GraspArrow(conv, graspNum, 0, grasp, frame, ns), GraspArrow(conv, graspNum, 1, grasp, frame, ns),
     GraspArrow(conv, graspNum, 2, grasp, frame, ns)]
  }

  /** Everything `draw_grasps` publishes, grasp by grasp in list order. */
  function GraspMarkers(conv: Conversions, grasps: seq<Pose>, frame: string, ns: string): (r: seq<Marker>)
    ensures |r| == 3 * |grasps|
    decreases |grasps|
  {
    if grasps == [] then []
    else
      var n := |grasps| - 1;
      GraspMarkers(conv, grasps[..n], frame, ns) + GraspArrows(conv, n, grasps[n], frame, ns)
  }

  /** Marker k of draw_grasps' output is arrow k % 3 of grasp k / 3. */
  lemma {:induction false} GraspMarkersLayout(conv: Conversions, grasps: seq<Pose>, frame: string, ns: string)
    ensures var r := GraspMarkers(conv, grasps, frame, ns);
      forall k | 0 <= k < |r| :: r[k] == GraspArrow(conv, k / 3, k % 3, grasps[k / 3], frame, ns)
    decreases |grasps|
  {
    if grasps != [] {
      var n := |grasps| - 1;
      var prefix := grasps[..n];
      GraspMarkersLayout(conv, prefix, frame, ns);
      var r := GraspMarkers(conv, grasps, frame, ns);
      var p := GraspMarkers(conv, prefix, frame, ns);
      assert r == p + GraspArrows(conv, n, grasps[n], frame, ns);
      forall k | 0 <= k < |r|
        ensures r[k] == GraspArrow(conv, k / 3, k % 3, grasps[k / 3], frame, ns)
      {
        if k < 3 * n {
          assert r[k] == p[k];
          assert prefix[k / 3] == grasps[k / 3];
        } else {
          assert k / 3 == n && k % 3 == k - 3 * n;
        }
      }
    }
  }

  /**
   * draw_grasps publishes ids 4g, 4g+1, 4g+2 for grasp g, coloured red,
   * green, blue: every id is one of those, id 4g+3 never appears, and ids
   * strictly increase in publishing order. Only grasp 0 is drawn large.
   */
  lemma {:induction false} GraspMarkerNumbering(conv: Conversions, grasps: seq<Pose>, frame: string, ns: string)
    ensures var r := GraspMarkers(conv, grasps, frame, ns);
      (forall k | 0 <= k < |r| ::
        r[k].id == 4 * (k / 3) + k % 3 && r[k].id % 4 != 3 && r[k].color == AxisColor(k % 3) &&
        r[k].scale == (if k < 3 then Vec3(0.015, 0.025, 0.025) else Vec3(0.01, 0.015, 0.015)) &&
        r[k].lifetime == 0.0 && r[k].kind == Arrow && r[k].action == Add) &&
      (forall a, b | 0 <= a < b < |r| :: r[a].id < r[b].id)
  {
    var r := GraspMarkers(conv, grasps, frame, ns);
    GraspMarkersLayout(conv, grasps, frame, ns);
    forall k | 0 <= k < |r|
      ensures r[k].id == 4 * (k / 3) + k % 3
    {
    }
    forall a, b | 0 <= a < b < |r|
      ensures r[a].id < r[b].id
    {
      assert r[a].id == 4 * (a / 3) + a % 3;
      assert r[b].id == 4 * (b / 3) + b % 3;
    }
  }

  /** Drawing two grasps publishes six markers, with ids 0, 1, 2, 4, 5, 6. */
  lemma {:induction false} TwoGraspIds(conv: Conversions, g0: Pose, g1: Pose, frame: string, ns: string)
    ensures var r := GraspMarkers(conv, [g0, g1], frame, ns);
      |r| == 6 && [r[0].id, r[1].id, r[2].id, r[3].id, r[4].id, r[5].id] == [0, 1, 2, 4, 5, 6]
  {
    GraspMarkersLayout(conv, [g0, g1], frame, ns);
  }
}
