/**
 * The ROS message values the pose estimator node copies around.
 *
 * Every field is only copied by the node, never computed on,
 * so the numeric fields are plain `real`s and times are a count of
 * nanoseconds since the ROS epoch (`ros::Time(0)` is 0).
 */
module RosMsgs {

  /** ros::Time, as nanoseconds since the epoch. */
  type Time = nat

  datatype Point = Point(x: real, y: real, z: real)
  datatype Quaternion = Quaternion(x: real, y: real, z: real, w: real)
  datatype Vector3 = Vector3(x: real, y: real, z: real)

  /** geometry_msgs/Pose */
  datatype Pose = Pose(position: Point, orientation: Quaternion)

  /** std_msgs/Header */
  datatype Header = Header(seqNo: nat, stamp: Time, frameId: string)

  /** geometry_msgs/PoseStamped: what the mocap feed delivers and what the node publishes. */
  datatype PoseStamped = PoseStamped(header: Header, pose: Pose)

  /** geometry_msgs/Twist and the covariance-carrying wrappers of nav_msgs/Odometry. */
  datatype Twist = Twist(linear: Vector3, angular: Vector3)
  datatype PoseWithCovariance = PoseWithCovariance(pose: Pose, covariance: seq<real>)
  datatype TwistWithCovariance = TwistWithCovariance(twist: Twist, covariance: seq<real>)

  /** nav_msgs/Odometry: what the odometry and EKF feeds deliver. */
  datatype Odometry = Odometry(
    header: Header,
    childFrameId: string,
    pose: PoseWithCovariance,
    twist: TwistWithCovariance)

  /** The value a default-constructed message holds: every number zero, every string empty. */
  const ZeroHeader: Header := Header(0, 0, "")
  const ZeroPose: Pose := Pose(Point(0.0, 0.0, 0.0), Quaternion(0.0, 0.0, 0.0, 0.0))
  const ZeroVector: Vector3 := Vector3(0.0, 0.0, 0.0)
  /** A 6x6 covariance matrix of zeros, row by row. */
  const ZeroCovariance: seq<real> := [
    0.0, 0.0, 0.0, 0.0, 0.0, 0.0,
    0.0, 0.0, 0.0, 0.0, 0.0, 0.0,
    0.0, 0.0, 0.0, 0.0, 0.0, 0.0,
    0.0, 0.0, 0.0, 0.0, 0.0, 0.0,
    0.0, 0.0, 0.0, 0.0, 0.0, 0.0,
    0.0, 0.0, 0.0, 0.0, 0.0, 0.0]
  const ZeroPoseStamped: PoseStamped := PoseStamped(ZeroHeader, ZeroPose)
  const ZeroOdometry: Odometry := Odometry(
    ZeroHeader, "",
    PoseWithCovariance(ZeroPose, ZeroCovariance),
    TwistWithCovariance(Twist(ZeroVector, ZeroVector), ZeroCovariance))

  /** `p` and `q` agree in every field except, possibly, `header.stamp`. */
  predicate SameApartFromStamp(p: PoseStamped, q: PoseStamped)
  {
    p.pose == q.pose && p.header.seqNo == q.header.seqNo && p.header.frameId == q.header.frameId
  }

  /** The message `p` with its header stamp overwritten by `t` (`p.header.stamp = t`). */
  function Restamp(p: PoseStamped, t: Time): (r: PoseStamped)
    ensures SameApartFromStamp(r, p) && r.header.stamp == t
  {
    p.(header := p.header.(stamp := t))
  }
}
