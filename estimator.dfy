/** The narrow interfaces of the two external collaborators, the SLAM
    estimator and the KLT stereo tracker: the records passed to and returned
    by one call, and the buffer-size contract each call keeps. The numerical
    bodies are not modelled; the node receives them as functions. */
module Estimator {
  import opened Messages
  import opened Params

  /** RobotState as the visualization reads it; gyroBias and accBias are
      robot_state.IMU.gyro_bias and robot_state.IMU.acc_bias. */
  datatype RobotState = RobotState(pos: Vec3, att: Quat, gyroBias: Vec3, accBias: Vec3)

  datatype AnchorPose = AnchorPose(pos: Vec3, att: Quat)

  /** Calibration of the stereo pair, opaque to the node. */
  datatype CameraParams = CameraParams(left: seq<real>, right: seq<real>)

  /** VIOMeasurements: accelerometer and gyroscope in the estimator's frame. */
  datatype VioMeasurements = VioMeasurements(accDuo: Vec3, gyrDuo: Vec3)

  /** Everything SLAM reads and writes in place: the robot state, h_u_apo,
      the landmark map (3 coordinates per landmark) and the anchor poses. */
  datatype EstimatorState = EstimatorState(
    robot: RobotState, hUApo: seq<real>, mapPoints: seq<real>, anchors: seq<AnchorPose>)

  /** The arguments of one SLAM(...) call; mode 0 predicts, mode 1 also
      corrects with the stereo measurements. */
  datatype SlamCall = SlamCall(
    updateVec: seq<int>, zLeft: seq<real>, zRight: seq<real>, dt: real,
    meas: VioMeasurements, camera: CameraParams, noise: NoiseParams, vio: VioParams,
    mode: int, state: EstimatorState)

  /** What one SLAM call leaves behind: the new estimator state and the
      activity vector it may rewrite. */
  datatype SlamResult = SlamResult(state: EstimatorState, updateVec: seq<int>)

  /** The arguments of handle_points_klt: the decoded image pair and the
      buffers it rewrites. */
  datatype KltCall = KltCall(left: Image, right: Image, zLeft: seq<real>, zRight: seq<real>, updateVec: seq<int>)

  datatype KltResult = KltResult(zLeft: seq<real>, zRight: seq<real>, updateVec: seq<int>)

  /** The estimator and the tracker as the node sees them. */
  type Slam = SlamCall -> SlamResult
  type Klt = KltCall -> KltResult

  /** Buffers sized for n landmarks: an activity flag and two pixel
      coordinates per camera for each. */
  predicate Sized(updateVec: seq<int>, zLeft: seq<real>, zRight: seq<real>, n: nat)
  {
    |updateVec| == n && |zLeft| == 2 * n && |zRight| == 2 * n
  }

  /** The caller's part of the estimator contract is to pass buffers sized
      for n landmarks; the estimator's part is to return an activity vector
      of the same size, a map of 3n coordinates and at least num_anchors
      anchor poses. */
  ghost predicate SlamKeepsShape(slam: Slam, n: nat)
  {
    forall c: SlamCall :: Sized(c.updateVec, c.zLeft, c.zRight, n) ==>
      && |slam(c).updateVec| == n
      && |slam(c).state.mapPoints| == 3 * n
      && c.vio.numAnchors <= |slam(c).state.anchors|
  }

  /** The tracker rewrites its buffers in place without resizing them. */
  ghost predicate KltKeepsShape(klt: Klt, n: nat)
  {
    forall k: KltCall :: Sized(k.updateVec, k.zLeft, k.zRight, n) ==>
      Sized(klt(k).updateVec, klt(k).zLeft, klt(k).zRight, n)
  }

  /** The gravity constant the IMU conversion multiplies by. */
  const Gravity: real := 9.81

  /** getIMUData: from the DUO's IMU frame (acceleration in g) to the
      estimator's frame (acceleration in m/s^2); the y and z accelerometer
      axes and the y gyroscope axis change sign. The conversion loses
      nothing: ImuOf undoes it exactly. */
  function GetImuData(imu: ImuReading): (meas: VioMeasurements)
    ensures ImuOf(meas) == imu
  {
    var a, w := imu.linearAcceleration, imu.angularVelocity;
    VioMeasurements(
      Vec3(a.x * Gravity, -a.y * Gravity, -a.z * Gravity),
      Vec3(w.x, -w.y, w.z))
  }

  /** The inverse conversion, from the estimator's frame back to the DUO's. */
  function ImuOf(meas: VioMeasurements): (imu: ImuReading)
  {
    var a, w := meas.accDuo, meas.gyrDuo;
    ImuReading(
      Vec3(a.x / Gravity, -a.y / Gravity, -a.z / Gravity),
      Vec3(w.x, -w.y, w.z))
  }

  /** Every measurement the estimator can receive is the conversion of
      exactly one IMU reading. */
  lemma GetImuDataOnto(meas: VioMeasurements)
    ensures GetImuData(ImuOf(meas)) == meas
  {
  }
}
