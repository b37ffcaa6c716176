/**
 * The DrawFunctions helper: each method fills in Marker message objects and
 * publishes them, and is proved to append exactly the markers that the
 * matching function of module Markers describes, in order.
 */
module Draw {
  import opened Geometry
  import opened Messages
  import opened Markers

  lemma AppendThree<T>(s: seq<T>, a: T, b: T, c: T)
    ensures s + [a] + [b] + [c] == s + ([a] + [b] + [c])
  {
  }

  lemma ConcatAssociative<T>(a: seq<T>, b: seq<T>, c: seq<T>)
    ensures a + b + c == a + (b + c)
  {
  }

  /**
   * The block the drawing code repeats for every arrow: set the shared
   * marker's id, points and colour (keeping its alpha), then publish it.
   */
  method PublishArrow(pub: MarkerPublisher, marker: MarkerMsg, id: int, points: seq<Vec3>, r: real, g: real, b: real)
    modifies pub, marker
    ensures marker.Snapshot() == old(marker.Snapshot()).(id := id, points := points,
                                                         color := old(marker.color).(r := r, g := g, b := b))
    ensures pub.published == old(pub.published) + [marker.Snapshot()]
  {
    marker.id := id;
    marker.points := points;
    marker.color := marker.color.(r := r, g := g, b := b);
    pub.Publish(marker);
  }

  class DrawFunctions {
    /** The marker topic's publisher; its log is everything published so far. */
    const markerPub: MarkerPublisher
    /** The matrix and quaternion conversions the drawing code calls. */
    const conv: Conversions

    constructor (topic: string, conv: Conversions)
      ensures fresh(markerPub) && markerPub.topic == topic && markerPub.published == []
      ensures this.conv == conv
    {
      markerPub := new MarkerPublisher(topic);
      this.conv := conv;
    }

    /** Deletes a points marker; the namespace is always 'points', whatever `ns` says. */
    method ClearRvizPoints(ns: string := "points", id: int := 0)
      modifies markerPub
      ensures markerPub.published == old(markerPub.published) + [ClearPointsMarker(ns, id)]
    {
      var marker := new MarkerMsg();
      marker.frame := "katana_base_link";
      marker.ns := "points";
      marker.kind := Points;
      marker.action := Delete;
      marker.id := id;
      markerPub.Publish(marker);
    }

    /** Allocates a Marker message and copies the given parameters into it. */
    method CreateMarker(kind: Shape, dims: seq<real>, frame: string, ns: string, id: int,
                        duration: real := 60.0, color: seq<real> := DefaultColor, opacity: real := 0.5,
                        pos: seq<real> := DefaultPos, quat: seq<real> := DefaultQuat)
      returns (marker: MarkerMsg)
      requires |dims| >= 3 && |color| >= 3 && |pos| >= 3 && |quat| >= 4
      ensures fresh(marker)
      ensures marker.Snapshot() == Filled(kind, dims, frame, ns, id, duration, color, opacity, pos, quat)
    {
      marker := new MarkerMsg();
      marker.frame := frame;
      marker.ns := ns;
      marker.kind := kind;
      marker.action := Add;
      marker.scale := Vec3(dims[0], dims[1], dims[2]);
      marker.color := Color(color[0], color[1], color[2], opacity);
      marker.lifetime := duration;
      marker.id := id;
      marker.position := Vec3(pos[0], pos[1], pos[2]);
      marker.orientation := Quat(quat[0], quat[1], quat[2], quat[3]);
    }

    /** Draws the columns of a 3xn or 4xn matrix as one POINTS marker. */
    method DrawRvizPoints(points: seq<seq<real>>, frame: string := "kinect_link", size: real := 0.005,
                          ns: string := "points", id: int := 0, duration: real := 20.0,
                          color: seq<real> := [0.0, 0.0, 1.0], opacity: real := 1.0)
      requires IsPointMatrix(points) && |color| >= 3
      modifies markerPub
      ensures markerPub.published
        == old(markerPub.published) + [PointsMarker(points, frame, size, ns, id, duration, color, opacity)]
    {
      var marker := CreateMarker(Points, [size, size, size], frame, ns, id, duration, color, opacity);
      ghost var initial := marker.Snapshot();
      var n := |points[0]|;
      for pointInd := 0 to n
        invariant marker.Snapshot() == initial.(points := Columns(points)[..pointInd])
        invariant markerPub.published == old(markerPub.published)
      {
        var newPoint := Vec3(points[0][pointInd], points[1][pointInd], points[2][pointInd]);
        marker.points := marker.points + [newPoint];
      }
      assert Columns(points)[..n] == Columns(points);
      markerPub.Publish(marker);
    }

    /** Draws a pose's axes as three arrows (x red, y green, z blue) of the given lengths. */
    method DrawRvizAxes(poseMat: Mat4, frame: string, lengths: seq<real> := DefaultAxisLengths,
                        ns: string := "axes", id: int := 0, duration: real := 300.0)
      requires |lengths| >= 3
      modifies markerPub
      ensures markerPub.published
        == old(markerPub.published) + AxesMarkers(poseMat, frame, lengths, ns, id, duration)
    {
      var marker := CreateMarker(Arrow, [0.01, 0.02, 0.0], frame, ns, id, duration);
      marker.color := marker.color.(a := 1.0);
      ghost var base := marker.Snapshot();
      assert base == AxesBase(frame, ns, id, duration);

      var start := Translation(poseMat);
      var xEnd := AxisEnd(poseMat, 0, lengths[0]);
      var yEnd := AxisEnd(poseMat, 1, lengths[1]);
      var zEnd := AxisEnd(poseMat, 2, lengths[2]);

      PublishArrow(markerPub, marker, id, [start, xEnd], 1.0, 0.0, 0.0);
      ghost var arrow0 := marker.Snapshot();
      assert arrow0 == AxisArrow(base, poseMat, lengths, id, 0);
      PublishArrow(markerPub, marker, id + 1, [start, yEnd], 0.0, 1.0, 0.0);
      ghost var arrow1 := marker.Snapshot();
      assert arrow1 == AxisArrow(base, poseMat, lengths, id, 1);
      PublishArrow(markerPub, marker, id + 2, [start, zEnd], 0.0, 0.0, 1.0);
      ghost var arrow2 := marker.Snapshot();
      assert arrow2 == AxisArrow(base, poseMat, lengths, id, 2);
      AppendThree(old(markerPub.published), arrow0, arrow1, arrow2);
    }

    /** Draws a sphere of radius `r` at a pose. */
    method DrawRvizSphere(poseMat: Mat4, r: real, frame: string := "katana_base_link",
                          ns: string := "spheres", id: int := 0, duration: real := 60.0,
                          color: seq<real> := DefaultColor, opacity: real := 0.5)
      requires |color| >= 3
      modifies markerPub
      ensures markerPub.published
        == old(markerPub.published) + [SphereMarker(conv, poseMat, r, frame, ns, id, duration, color, opacity)]
    {
      var (pos, quat) := conv.matToPosAndQuat(poseMat);
      var marker := CreateMarker(Sphere, [r * 2.0, r * 2.0, r * 2.0], frame, ns, id, duration, color, opacity,
                                 pos.AsList(), quat.AsList());
      markerPub.Publish(marker);
    }

    /** Draws a box, given by its corners or its dimensions, at a pose. */
    method DrawRvizBox(poseMat: Mat4, ranges: BoxRanges, frame: string := "katana_base_link",
                       ns: string := "boxes", id: int := 0, duration: real := 60.0,
                       color: seq<real> := DefaultColor, opacity: real := 0.5)
      requires |color| >= 3
      modifies markerPub
      ensures markerPub.published
        == old(markerPub.published) + [BoxMarker(conv, poseMat, ranges, frame, ns, id, duration, color, opacity)]
    {
      var dims := BoxDims(ranges);
      var center := BoxCenter(ranges);
      var transformedCenter := Transform(poseMat, center);
      var quat := conv.quaternionFromMatrix(poseMat);
      var marker := CreateMarker(Cube, dims.AsList(), frame, ns, id, duration, color, opacity,
                                 transformedCenter.AsList(), quat.AsList());
      markerPub.Publish(marker);
    }

    /** Draws a cylinder of radius `r` and length `l` whose axis is the pose's z axis. */
    method DrawRvizCylinder(poseMat: Mat4, r: real, l: real, frame: string := "katana_base_link",
                            ns: string := "cylinders", id: int := 0, duration: real := 60.0,
                            color: seq<real> := DefaultColor, opacity: real := 0.5)
      requires |color| >= 3
      modifies markerPub
      ensures markerPub.published
        == old(markerPub.published) + [CylinderMarker(conv, poseMat, r, l, frame, ns, id, duration, color, opacity)]
    {
      var (pos, quat) := conv.matToPosAndQuat(poseMat);
      var marker := CreateMarker(Cylinder, [r * 2.0, r * 2.0, l], frame, ns, id, duration, color, opacity,
                                 pos.AsList(), quat.AsList());
      markerPub.Publish(marker);
    }

    /** Deletes the arrows with ids 0 .. num-1 in a namespace, used or not. */
    method ClearGrasps(ns: string := "grasps", num: int := 150, frame: string := "katana_base_link")
      modifies markerPub
      ensures markerPub.published == old(markerPub.published) + ClearGraspMarkers(ns, num, frame)
    {
      var marker := new MarkerMsg();
      marker.frame := frame;
      marker.ns := ns;
      marker.kind := Arrow;
      marker.action := Delete;
      ghost var initial := marker.Snapshot();
      ghost var expected := ClearGraspMarkers(ns, num, frame);
      for i := 0 to RangeLength(num)
        invariant marker.Snapshot() == initial.(id := marker.id)
        invariant markerPub.published == old(markerPub.published) + expected[..i]
      {
        marker.id := i;
        markerPub.Publish(marker);
        assert expected[..i + 1] == expected[..i] + [expected[i]];
      }
      assert expected[..RangeLength(num)] == expected;
    }

    /**
     * Draws each grasp's x, y and z axes as red, green and blue arrows with
     * ids 4g, 4g+1 and 4g+2, the first grasp larger than the others.
     */
    method DrawGrasps(grasps: seq<Pose>, frame: string, ns: string := "grasps")
      modifies markerPub
      ensures markerPub.published == old(markerPub.published) + GraspMarkers(conv, grasps, frame, ns)
    {
      var marker := new MarkerMsg();
      marker.frame := frame;
      marker.ns := ns;
      marker.kind := Arrow;
      marker.action := Add;
      marker.color := marker.color.(a := 1.0);
      marker.lifetime := 0.0;
      ghost var initial := marker.Snapshot();

      for graspNum := 0 to |grasps|
        invariant marker.frame == frame && marker.ns == ns && marker.kind == Arrow && marker.action == Add
        invariant marker.lifetime == 0.0 && marker.color.a == 1.0
        invariant marker.position == Origin && marker.orientation == Quat(0.0, 0.0, 0.0, 0.0)
        invariant markerPub.published == old(markerPub.published) + GraspMarkers(conv, grasps[..graspNum], frame, ns)
      {
        ghost var done := GraspMarkers(conv, grasps[..graspNum], frame, ns);
        DrawGrasp(marker, graspNum, grasps[graspNum]);
        ghost var upTo := grasps[..graspNum + 1];
        assert upTo[..graspNum] == grasps[..graspNum] && upTo[graspNum] == grasps[graspNum];
        ConcatAssociative(old(markerPub.published), done, GraspArrows(conv, graspNum, grasps[graspNum], frame, ns));
      }
      assert grasps[..|grasps|] == grasps;
    }

    /**
     * One turn of draw_grasps' loop: sets the shared marker's scale for grasp
     * `graspNum` (large for the first grasp), publishes its three arrows and
     * leaves the marker holding the z arrow, with id 4g+3.
     */
    method DrawGrasp(marker: MarkerMsg, graspNum: nat, grasp: Pose)
      requires marker.kind == Arrow && marker.action == Add && marker.lifetime == 0.0 && marker.color.a == 1.0
      requires marker.position == Origin && marker.orientation == Quat(0.0, 0.0, 0.0, 0.0)
      modifies markerPub, marker
      ensures marker.Snapshot() == old(marker.Snapshot()).(scale := GraspScale(graspNum), id := 4 * graspNum + 3,
                                                           points := [grasp.position, GraspArrowEnd(conv, graspNum, 2, grasp)],
                                                           color := AxisColor(2))
      ensures markerPub.published
        == old(markerPub.published) + GraspArrows(conv, graspNum, grasp, old(marker.frame), old(marker.ns))
    {
      ghost var frame, ns := marker.frame, marker.ns;
      var lengthFact: real;
      if graspNum == 0 {
        marker.scale := Vec3(0.015, 0.025, 0.025);
        lengthFact := 1.5;
      } else {
        marker.scale := Vec3(0.01, 0.015, 0.015);
        lengthFact := 1.0;
      }

      var mat := conv.quaternionMatrix(grasp.orientation);
      var start := grasp.position;
      var xEnd := Plus(Scale(Scale(Column(mat, 0), 0.05), lengthFact), start);
      var yEnd := Plus(Scale(Scale(Column(mat, 1), 0.02), lengthFact), start);
      var zEnd := Plus(Scale(Scale(Column(mat, 2), 0.02), lengthFact), start);
      ghost var before := markerPub.published;
      assert xEnd == GraspArrowEnd(conv, graspNum, 0, grasp);
      assert yEnd == GraspArrowEnd(conv, graspNum, 1, grasp);
      assert zEnd == GraspArrowEnd(conv, graspNum, 2, grasp);

      PublishArrow(markerPub, marker, graspNum * 4, [start, xEnd], 1.0, 0.0, 0.0);
      ghost var arrow0 := marker.Snapshot();
      assert arrow0 == GraspArrow(conv, graspNum, 0, grasp, frame, ns);
      PublishArrow(markerPub, marker, graspNum * 4 + 1, [start, yEnd], 0.0, 1.0, 0.0);
      ghost var arrow1 := marker.Snapshot();
      assert arrow1 == GraspArrow(conv, graspNum, 1, grasp, frame, ns);
      PublishArrow(markerPub, marker, graspNum * 4 + 2, [start, zEnd], 0.0, 0.0, 1.0);
      ghost var arrow2 := marker.Snapshot();
      assert arrow2 == GraspArrow(conv, graspNum, 2, grasp, frame, ns);
      marker.id := graspNum * 4 + 3;
      AppendThree(before, arrow0, arrow1, arrow2);
    }
  }
}
