/** The ROS message values the iteration script exchanges with Gazebo and the
    controller manager, reduced to the fields it reads or writes.
    Velocities and coordinates are exact literals in the script, so they are
    `real` here. */
module Messages {

  datatype Option<T> = None | Some(value: T)

  /** geometry_msgs/Vector3 */
  datatype Vector3 = Vector3(x: real, y: real, z: real)

  /** geometry_msgs/Twist: the velocity command sent on /hsrb/command_velocity. */
  datatype Twist = Twist(linear: Vector3, angular: Vector3)

  /** A freshly constructed Twist(): every component zero, i.e. "stop". */
  const ZeroTwist: Twist := Twist(Vector3(0.0, 0.0, 0.0), Vector3(0.0, 0.0, 0.0))

  /** geometry_msgs/Point and geometry_msgs/Quaternion */
  datatype Point = Point(x: real, y: real, z: real)
  datatype Quaternion = Quaternion(x: real, y: real, z: real, w: real)

  /** geometry_msgs/Pose */
  datatype Pose = Pose(position: Point, orientation: Quaternion)

  /** gazebo_msgs/ModelState: the request of /gazebo/set_model_state. */
  datatype ModelState = ModelState(modelName: string, pose: Pose, twist: Twist, referenceFrame: string)

  /** A freshly constructed ModelState(): numbers zero (so the orientation is
      the all-zero quaternion, which is not a rotation) and strings empty. */
  const DefaultModelState: ModelState :=
    ModelState("", Pose(Point(0.0, 0.0, 0.0), Quaternion(0.0, 0.0, 0.0, 0.0)), ZeroTwist, "")

  predicate IsUnitQuaternion(q: Quaternion) {
    q.x * q.x + q.y * q.y + q.z * q.z + q.w * q.w == 1.0
  }

  /** controller_manager_msgs/ControllerState, reduced to name and state. */
  datatype ControllerState = ControllerState(name: string, state: string)
}
