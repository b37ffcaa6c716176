/** Points, quaternions and 4x4 homogeneous pose matrices, over exact reals. */
module Geometry {

  /** A point or vector (geometry_msgs/Point, or a 3-list of coordinates). */
  datatype Vec3 = Vec3(x: real, y: real, z: real) {
    /** The same point as the Python 3-list `[x, y, z]`. */
    function AsList(): (l: seq<real>)
      ensures |l| == 3 && FromList(l) == this
    {
      [x, y, z]
    }
  }

  /** A quaternion (geometry_msgs/Quaternion, or a 4-list `[x, y, z, w]`). */
  datatype Quat = Quat(x: real, y: real, z: real, w: real) {
    /** The same quaternion as the Python 4-list `[x, y, z, w]`. */
    function AsList(): (l: seq<real>)
      ensures |l| == 4 && l[0] == x && l[1] == y && l[2] == z && l[3] == w
    {
      [x, y, z, w]
    }
  }

  /** A geometry_msgs/Pose: the position and orientation of a grasp. */
  datatype Pose = Pose(position: Vec3, orientation: Quat)

  const Origin := Vec3(0.0, 0.0, 0.0)

  /**
   * The conversions the drawing code borrows from elsewhere and that are not
   * part of this model: tf.transformations.quaternion_from_matrix and
   * quaternion_matrix, and convert_functions.mat_to_pos_and_quat. They are
   * given to the drawer as function values and nothing is assumed about them.
   */
  datatype Conversions = Conversions(
    quaternionFromMatrix: Mat4 -> Quat,
    quaternionMatrix: Quat -> Mat4,
    matToPosAndQuat: Mat4 -> (Vec3, Quat))

  /** The point whose coordinates are the first three entries of a list. */
  function FromList(l: seq<real>): Vec3
    requires |l| >= 3
  {
    Vec3(l[0], l[1], l[2])
  }

  function Plus(a: Vec3, b: Vec3): Vec3 {
    Vec3(a.x + b.x, a.y + b.y, a.z + b.z)
  }

  function Minus(a: Vec3, b: Vec3): Vec3 {
    Vec3(a.x - b.x, a.y - b.y, a.z - b.z)
  }

  /** Component-wise product with a scalar (`vector * s` in numpy). */
  function Scale(a: Vec3, s: real): Vec3 {
    Vec3(a.x * s, a.y * s, a.z * s)
  }

  lemma ScaleTwice(a: Vec3, s: real, t: real)
    ensures Scale(Scale(a, s), t) == Scale(a, s * t)
  {
    assert a.x * s * t == a.x * (s * t);
    assert a.y * s * t == a.y * (s * t);
    assert a.z * s * t == a.z * (s * t);
  }

  /** A 4x4 matrix as a list of rows (a 4x4 scipy matrix). */
  predicate IsMat4(m: seq<seq<real>>) {
    |m| == 4 && forall i | 0 <= i < 4 :: |m[i]| == 4
  }

  type Mat4 = m: seq<seq<real>> | IsMat4(m) witness seq(4, i => seq(4, j => 0.0))

  /** The 4x4 identity pose. */
  const Identity: Mat4 := [[1.0, 0.0, 0.0, 0.0],
                           [0.0, 1.0, 0.0, 0.0],
                           [0.0, 0.0, 1.0, 0.0],
                           [0.0, 0.0, 0.0, 1.0]]

  /** Rows 0..2 of column `k` (`pose_mat[:, k][0:3]`). */
  function Column(m: Mat4, k: nat): Vec3
    requires k < 4
  {
    Vec3(m[0][k], m[1][k], m[2][k])
  }

  /** The translation part of a pose (`pose_mat[0:3, 3]`). */
  function Translation(m: Mat4): Vec3 {
    Column(m, 3)
  }

  /** The unit vector along axis `k` (x, y or z). */
  function UnitAxis(k: nat): (e: Vec3)
    requires k < 3
  {
    if k == 0 then Vec3(1.0, 0.0, 0.0)
    else if k == 1 then Vec3(0.0, 1.0, 0.0)
    else Vec3(0.0, 0.0, 1.0)
  }

  /**
   * The first three rows of the homogeneous product `m * [p.x, p.y, p.z, 1]^T`:
   * the point `p`, given in the pose's frame, expressed in the parent frame.
   */
  function Transform(m: Mat4, p: Vec3): (q: Vec3)
    ensures p == Origin ==> q == Translation(m)
    ensures m == Identity ==> q == p
  {
    Vec3(m[0][0] * p.x + m[0][1] * p.y + m[0][2] * p.z + m[0][3] * 1.0,
         m[1][0] * p.x + m[1][1] * p.y + m[1][2] * p.z + m[1][3] * 1.0,
         m[2][0] * p.x + m[2][1] * p.y + m[2][2] * p.z + m[2][3] * 1.0)
  }

  /**
   * The end of an arrow of length `len` along axis `k` of a pose, computed as
   * the pose's axis column scaled by `len` plus its translation. It is the
   * point `len` along the pose's own axis `k`, mapped through the pose.
   */
  function AxisEnd(m: Mat4, k: nat, len: real): (e: Vec3)
    requires k < 3
    ensures e == Transform(m, Scale(UnitAxis(k), len))
    ensures len == 0.0 ==> e == Translation(m)
  {
    Plus(Scale(Column(m, k), len), Translation(m))
  }
}
