/** Value types exchanged by the localization node: geometry, images, the
    inbound stereo/inertial sample and the outbound visualization message. */
module Messages {

  datatype Option<T> = None | Some(value: T)

  /** A three-component vector (geometry_msgs Point/Vector3, or a double[3]). */
  datatype Vec3 = Vec3(x: real, y: real, z: real)

  /** A quaternion in geometry_msgs order: x, y, z, w. */
  datatype Quat = Quat(x: real, y: real, z: real, w: real)

  datatype Pose = Pose(position: Vec3, orientation: Quat)

  /** A default-constructed geometry_msgs Pose: every component zero. */
  const ZeroPose: Pose := Pose(Vec3(0.0, 0.0, 0.0), Quat(0.0, 0.0, 0.0, 0.0))

  /** A 3x3 rotation matrix, row by row (tf::Matrix3x3). */
  datatype Matrix3x3 = Matrix3x3(row0: Vec3, row1: Vec3, row2: Vec3)

  /** A decoded single-channel image (cv::Mat of CV_8U). */
  datatype Image = Image(rows: int, cols: int, pixels: seq<int>) {
    /** cv::Mat::empty(): the image holds no pixel. */
    predicate IsEmpty() { |pixels| == 0 }
  }

  /** An undecoded sensor_msgs Image as it arrives on the wire. */
  datatype ImageMsg = ImageMsg(encoding: string, data: seq<int>)

  /** sensor_msgs Imu: the two vectors the node reads. */
  datatype ImuReading = ImuReading(linearAcceleration: Vec3, angularVelocity: Vec3)

  /** One synchronized duo3d_ros::Duo3d message. */
  datatype Sample = Sample(stamp: real, imu: ImuReading, leftImage: ImageMsg, rightImage: ImageMsg)

  /** The joystick's teleoperation increment (onboard_localization::PositionReference). */
  datatype PositionReference = PositionReference(x: real, y: real, z: real, yaw: real)

  /** vio_ros::vio_vis: the visualization snapshot. */
  datatype VisMsg = VisMsg(
    robotPose: Pose,
    anchorPoses: seq<Pose>,
    mapData: seq<real>,
    statusVect: seq<int>,
    featureTracks: seq<real>,
    image: ImageMsg,
    gyroBias: seq<real>,
    accBias: seq<real>)
}
