/**
 * The visualization_msgs/Marker message, both as a value (what reaches the
 * subscriber) and as the mutable message object the drawing code fills in,
 * and the publisher, modelled as the append-only log of published markers.
 */
module Messages {
  import opened Geometry

  /** The marker types the drawing code uses (`Marker.ARROW` is 0, the default). */
  datatype Shape = Arrow | Cube | Sphere | Cylinder | Points

  /** `Marker.ADD` (0, the default) and `Marker.DELETE`. */
  datatype Action = Add | Delete

  /** std_msgs/ColorRGBA. */
  datatype Color = Color(r: real, g: real, b: real, a: real)

  /**
   * One published marker: header frame, namespace, id, type, action, pose,
   * scale, colour, lifetime (in seconds) and point list.
   */
  datatype Marker = Marker(
    frame: string,
    ns: string,
    id: int,
    kind: Shape,
    action: Action,
    position: Vec3,
    orientation: Quat,
    scale: Vec3,
    color: Color,
    lifetime: real,
    points: seq<Vec3>)

  /** What `Marker()` holds before any field is set: every number zero, every string and list empty. */
  const EmptyMarker := Marker("", "", 0, Arrow, Add, Origin, Quat(0.0, 0.0, 0.0, 0.0),
                              Origin, Color(0.0, 0.0, 0.0, 0.0), 0.0, [])

  /** A Marker message object whose fields the drawing code assigns in place. */
  class MarkerMsg {
    var frame: string
    var ns: string
    var id: int
    var kind: Shape
    var action: Action
    var position: Vec3
    var orientation: Quat
    var scale: Vec3
    var color: Color
    var lifetime: real
    var points: seq<Vec3>

    /** The message as it stands now: what a publish sends. */
    function Snapshot(): Marker
      reads this
    {
      Marker(frame, ns, id, kind, action, position, orientation, scale, color, lifetime, points)
    }

    /** `Marker()`: a fresh message with every field at its default. */
    constructor ()
      ensures Snapshot() == EmptyMarker
    {
      frame, ns, id, kind, action := "", "", 0, Arrow, Add;
      position, orientation := Origin, Quat(0.0, 0.0, 0.0, 0.0);
      scale, color, lifetime, points := Origin, Color(0.0, 0.0, 0.0, 0.0), 0.0, [];
    }
  }

  /**
   * `rospy.Publisher(topic, Marker)`, seen from the publishing side: every
   * publish serialises the message as it stands, so the log holds snapshots.
   */
  class MarkerPublisher {
    const topic: string
    var published: seq<Marker>

    constructor (topic: string)
      ensures this.topic == topic && published == []
    {
      this.topic := topic;
      published := [];
    }

    /** `publish(marker)`: appends a copy of the marker's current state. */
    method Publish(marker: MarkerMsg)
      modifies this
      ensures published == old(published) + [marker.Snapshot()]
    {
      published := published + [marker.Snapshot()];
    }
  }
}
