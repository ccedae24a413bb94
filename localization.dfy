/** The Localization node itself: its member fields and the four callbacks
    that change them (stereo/inertial sample, joystick, position reference,
    dynamic reconfigure), proved against the pure machines of the Schedule,
    Reference, Visualization and Params modules. Every published
    acknowledgment, estimator call, tracker call and visualization message is
    recorded, in order, in the ghost trace `events`. */
module Node {
  import opened Messages
  import opened Params
  import opened Estimator
  import opened Schedule
  import opened Reference
  import opened Visualization

  /** One observable action of the node. */
  datatype Event =
    | Processed(data: int)   // one std_msgs::Int32 on /duo3d/msg_processed
    | Estimate(slamCall: SlamCall)
    | Track(kltCall: KltCall)
    | Visualize(msg: VisMsg)

  /** The number of acknowledgments in a trace. */
  function AckCount(t: seq<Event>): (n: nat)
    decreases |t|
  {
    if t == [] then 0 else (if t[0].Processed? then 1 else 0) + AckCount(t[1..])
  }

  lemma {:induction false} AckCountAppend(a: seq<Event>, b: seq<Event>)
    ensures AckCount(a + b) == AckCount(a) + AckCount(b)
    decreases |a|
  {
    if a == [] {
      assert a + b == b;
    } else {
      assert (a + b)[0] == a[0];
      assert (a + b)[1..] == a[1..] + b;
      AckCountAppend(a[1..], b);
    }
  }

  /** A trace without acknowledgment events counts none. */
  lemma {:induction false} AckCountNone(t: seq<Event>)
    requires forall i :: 0 <= i < |t| ==> !t[i].Processed?
    ensures AckCount(t) == 0
    decreases |t|
  {
    if t != [] {
      assert !t[0].Processed?;
      AckCountNone(t[1..]);
    }
  }

  /** A std::vector<double>(n, 0.0). */
  function Zeros(n: nat): (z: seq<real>)
    ensures |z| == n && forall i :: 0 <= i < n ==> z[i] == 0.0
  {
    seq(n, _ => 0.0)
  }

  /** A decoded image the tracker can use: the conversion succeeded and the
      image is not empty. */
  predicate Usable(img: Option<Image>)
  {
    img.Some? && !img.value.IsEmpty()
  }

  /** The state update starts from: the estimator's buffers, the activity
      vector, vio_cnt and the parameters it passes on. */
  datatype UpdateState = UpdateState(est: EstimatorState, updateVec: seq<int>, vioCnt: int, noise: NoiseParams, vio: VioParams)

  /** What update did with one sample: the estimator state and activity
      vector it leaves, the events it emits, and whether it reached its end
      (and so advanced vio_cnt). */
  datatype UpdateOutcome = UpdateOutcome(state: EstimatorState, updateVec: seq<int>, trace: seq<Event>, completed: bool)

  class Localization {
    // The external collaborators: the estimator, the tracker, cv_bridge's
    // conversion to mono8, and the tf helpers with the trigonometry.
    const slam: Slam
    const klt: Klt
    const toCvCopy: ImageMsg -> Option<Image>
    const getYaw: Quat -> real
    const rotationYaw: Matrix3x3 -> real
    const cos: real -> real
    const sin: real -> real

    // Configuration fixed at start-up.
    const fpsDuo: real
    const visionSubsample: int
    const visPublishDelay: int
    const numPoints: nat
    const cameraParams: CameraParams
    const darkCurrentL: Image
    const darkCurrentR: Image

    // Configuration that dynamic reconfigure rewrites.
    var controllerGains: ControllerGains
    var noiseParams: NoiseParams
    var vioParams: VioParams
    var showCameraImage: bool

    // The estimator's buffers, reused in place on every call.
    var robotState: RobotState
    var hUApo: seq<real>
    var mapPoints: seq<real>
    var anchorPoses: seq<AnchorPose>
    var updateVec: seq<int>

    // Scheduling state.
    var slamResetFlag: bool
    var clearQueueCounter: int
    var vioCnt: int
    var prevTime: real
    var displayTracksCnt: int
    var maxClicks: int

    // Reference trajectory; pose and camera2world are read here but written
    // by no code of this node.
    var referenceCommand: ReferenceCommand
    var changeReference: bool
    var pose: Pose
    var camera2world: Matrix3x3

    ghost var events: seq<Event>

    function Cfg(): Config
    {
      Config(fpsDuo, visionSubsample, visPublishDelay)
    }

    ghost function Sched(): State
      reads this`slamResetFlag, this`clearQueueCounter, this`vioCnt, this`prevTime, this`displayTracksCnt, this`maxClicks
    {
      State(slamResetFlag, clearQueueCounter, vioCnt, prevTime, displayTracksCnt, maxClicks)
    }

    ghost function Ref(): RefState
      reads this`referenceCommand, this`changeReference, this`slamResetFlag
    {
      RefState(referenceCommand, changeReference, slamResetFlag)
    }

    ghost function Tuning(): Tunables
      reads this`controllerGains, this`noiseParams, this`vioParams, this`showCameraImage
    {
      Tunables(controllerGains, noiseParams, vioParams, showCameraImage)
    }

    ghost function Est(): EstimatorState
      reads this`robotState, this`hUApo, this`mapPoints, this`anchorPoses
    {
      EstimatorState(robotState, hUApo, mapPoints, anchorPoses)
    }

    /** The node's invariant: the schedule's divisions are defined, the drain
        counter stays within the queue capacity, the landmark count is the
        start-up product and sizes the activity vector, and the collaborators
        keep their buffer-size contracts. */
    ghost predicate Valid()
      reads this`clearQueueCounter, this`vioParams, this`updateVec
    {
      && Wired()
      && 0 <= clearQueueCounter <= DuoQueueSize
      && vioParams.numAnchors * vioParams.numPointsPerAnchor == numPoints
      && |updateVec| == numPoints
    }

    /** The part of the invariant that concerns the configuration and the
        collaborators only. */
    ghost predicate Wired()
    {
      ValidConfig(Cfg()) && SlamKeepsShape(slam, numPoints) && KltKeepsShape(klt, numPoints) && UnitTrig()
    }

    /** cos and sin are the trigonometric pair: every angle gives a point on
        the unit circle. */
    ghost predicate UnitTrig()
    {
      forall t :: cos(t) * cos(t) + sin(t) * sin(t) == 1.0
    }

    /** The start-up state: all counters zero, no reset pending, the reference
        at rest at the origin, buffers sized by the start-up product, and the
        two dark-current images loaded or replaced by zero images. The
        arguments stand for the values the constructor reads from the
        parameter server and the calibration files; displayTracksCnt is the
        value the uninitialised member happens to hold; initialConfig is the
        request the reconfigure server hands to dynamicReconfigureCb when
        the callback is registered, before the buffers are sized. */
    constructor (vio: VioParams, fps: real, subsample: int, debugPublishFreq: real,
                 camera: CameraParams, noise: NoiseParams, gains: ControllerGains, showImages: bool,
                 resolutionHeight: int, resolutionWidth: int, loadedL: Option<Image>, loadedR: Option<Image>,
                 robot: RobotState, initialTracksCnt: int, cameraToWorld: Matrix3x3, initialConfig: VioRosConfig,
                 slam: Slam, klt: Klt, toCvCopy: ImageMsg -> Option<Image>, getYaw: Quat -> real,
                 rotationYaw: Matrix3x3 -> real, cos: real -> real, sin: real -> real)
      requires fps != 0.0 && subsample != 0 && debugPublishFreq != 0.0
      requires resolutionHeight >= 0 && resolutionWidth >= 0
      requires vio.numAnchors * vio.numPointsPerAnchor >= 0
      requires SlamKeepsShape(slam, vio.numAnchors * vio.numPointsPerAnchor)
      requires KltKeepsShape(klt, vio.numAnchors * vio.numPointsPerAnchor)
      requires forall t :: cos(t) * cos(t) + sin(t) * sin(t) == 1.0
      ensures Valid()
      ensures visPublishDelay == VisPublishDelay(fps, subsample, debugPublishFreq)
      ensures StartupSizing(vio) == Some(Sizing(numPoints, updateVec))
      ensures DarkCurrent(loadedL, resolutionHeight, resolutionWidth) == Some(darkCurrentL)
      ensures DarkCurrent(loadedR, resolutionHeight, resolutionWidth) == Some(darkCurrentR)
      ensures Sched() == State(false, 0, 0, 0.0, initialTracksCnt, 0)
      ensures Ref() == RefState(ReferenceCommand(ZeroAxes, ZeroAxes), false, false)
      ensures Tuning() == Reconfigure(Tunables(gains, noise, vio, showImages), initialConfig)
      ensures Est() == EstimatorState(robot, [], [], [])
      ensures pose == ZeroPose && events == []
    {
      this.slam, this.klt, this.toCvCopy := slam, klt, toCvCopy;
      this.getYaw, this.rotationYaw, this.cos, this.sin := getYaw, rotationYaw, cos, sin;
      slamResetFlag, changeReference := false, false;
      pose, camera2world := ZeroPose, cameraToWorld;
      maxClicks, clearQueueCounter, vioCnt := 0, 0, 0;
      robotState, hUApo, mapPoints, anchorPoses := robot, [], [], [];
      referenceCommand := ReferenceCommand(ZeroAxes, ZeroAxes);
      cameraParams := camera;
      fpsDuo, visionSubsample := fps, subsample;
      visPublishDelay := VisPublishDelay(fps, subsample, debugPublishFreq);
      darkCurrentL := DarkCurrent(loadedL, resolutionHeight, resolutionWidth).value;
      darkCurrentR := DarkCurrent(loadedR, resolutionHeight, resolutionWidth).value;
      numPoints := vio.numAnchors * vio.numPointsPerAnchor;
      updateVec := seq(vio.numAnchors * vio.numPointsPerAnchor, _ => 0);
      prevTime, displayTracksCnt := 0.0, initialTracksCnt;
      events := [];
      // The reconfigure server's first call of dynamicReconfigureCb.
      var tuned := Reconfigure(Tunables(gains, noise, vio, showImages), initialConfig);
      controllerGains, noiseParams, vioParams, showCameraImage := tuned.gains, tuned.noise, tuned.vio, tuned.showCameraImage;
    }

    /** Both images of a sample decode to non-empty images. */
    predicate ImagesUsable(msg: Sample)
    {
      Usable(toCvCopy(msg.leftImage)) && Usable(toCvCopy(msg.rightImage))
    }

    /** The part of the node's state update reads. */
    ghost function Pre(): UpdateState
      reads this`robotState, this`hUApo, this`mapPoints, this`anchorPoses
      reads this`updateVec, this`vioCnt, this`noiseParams, this`vioParams
    {
      UpdateState(Est(), updateVec, vioCnt, noiseParams, vioParams)
    }

    /** The prediction call update makes first: the current activity vector,
        freshly zero-filled measurement buffers of two entries per landmark,
        mode 0. */
    ghost function PredictCall(u: UpdateState, dt: real, msg: Sample): SlamCall
    {
      SlamCall(u.updateVec, Zeros(2 * numPoints), Zeros(2 * numPoints), dt, GetImuData(msg.imu),
               cameraParams, u.noise, u.vio, 0, u.est)
    }

    /** What update does, as a function of the state it starts from. */
    ghost function UpdateSpec(u: UpdateState, dt: real, msg: Sample, updateVis: bool): (o: UpdateOutcome)
      requires Wired() && |u.updateVec| == numPoints
      ensures |o.updateVec| == numPoints
      ensures o.completed <==> !(CRem(u.vioCnt, visionSubsample) == 0 && !ImagesUsable(msg))
    {
      var p := PredictCall(u, dt, msg);
      var s0 := slam(p);
      if CRem(u.vioCnt, visionSubsample) != 0 then UpdateOutcome(s0.state, s0.updateVec, [Estimate(p)], true)
      else if !ImagesUsable(msg) then UpdateOutcome(s0.state, s0.updateVec, [Estimate(p)], false)
      else
        var r := CorrectSpec(u, s0, dt, msg, toCvCopy(msg.leftImage).value, toCvCopy(msg.rightImage).value, updateVis);
        r.(trace := [Estimate(p)] + r.trace)
    }

    /** The vision half of update, from the predicted state on: tracking on
        fresh zero buffers, the mode-1 correction with the tracker's output,
        and, when asked for, the snapshot of the corrected state. */
    ghost function CorrectSpec(u: UpdateState, s0: SlamResult, dt: real, msg: Sample, left: Image, right: Image,
                               updateVis: bool): (o: UpdateOutcome)
      requires Wired() && |s0.updateVec| == numPoints
      ensures |o.updateVec| == numPoints && o.completed
      ensures |o.trace| == if updateVis then 3 else 2
      ensures o.trace[0].Track? && o.trace[1].Estimate? && o.trace[1].slamCall.mode == 1
      ensures updateVis ==> o.trace[2].Visualize?
    {
      var k := KltCall(left, right, Zeros(2 * numPoints), Zeros(2 * numPoints), s0.updateVec);
      var kr := klt(k);
      var c := SlamCall(kr.updateVec, kr.zLeft, kr.zRight, dt, GetImuData(msg.imu),
                        cameraParams, u.noise, u.vio, 1, s0.state);
      var s1 := slam(c);
      var vis := if updateVis
        then [Visualize(Snapshot(u.vio.numAnchors, numPoints, s1.state.robot, s1.state.anchors,
                                 s1.state.mapPoints, s1.updateVec, msg.leftImage, kr.zLeft))]
        else [];
      UpdateOutcome(s1.state, s1.updateVec, [Track(k), Estimate(c)] + vis, true)
    }

    /** The shape of update's trace: exactly one prediction, first, with
        all-zero buffers of length 2N; a correction, and a snapshot when asked
        for, exactly when tracking was due and both images were usable; never
        an acknowledgment; vio_cnt held back only on an aborted tracked sample. */
    lemma UpdateTraceShape(u: UpdateState, dt: real, msg: Sample, updateVis: bool)
      requires Wired() && |u.updateVec| == numPoints
      ensures var o := UpdateSpec(u, dt, msg, updateVis);
        var due := CRem(u.vioCnt, visionSubsample) == 0;
        && |o.trace| >= 1 && o.trace[0] == Estimate(PredictCall(u, dt, msg))
        && PredictCall(u, dt, msg).mode == 0
        && PredictCall(u, dt, msg).zLeft == Zeros(2 * numPoints) && PredictCall(u, dt, msg).zRight == Zeros(2 * numPoints)
        && (forall i :: 1 <= i < |o.trace| ==> !(o.trace[i].Estimate? && o.trace[i].slamCall.mode == 0))
        && ((exists i :: 0 <= i < |o.trace| && o.trace[i].Estimate? && o.trace[i].slamCall.mode == 1) <==> due && ImagesUsable(msg))
        && ((exists i :: 0 <= i < |o.trace| && o.trace[i].Visualize?) <==> due && ImagesUsable(msg) && updateVis)
        && AckCount(o.trace) == 0
        && (o.completed <==> !(due && !ImagesUsable(msg)))
    {
      var o := UpdateSpec(u, dt, msg, updateVis);
      AckCountNone(o.trace);
      if CRem(u.vioCnt, visionSubsample) == 0 && ImagesUsable(msg) {
        assert o.trace[2].Estimate? && o.trace[2].slamCall.mode == 1;
        if updateVis {
          assert o.trace[3].Visualize?;
        }
      }
    }

    /** The data flow of a tracked sample: the tracker runs exactly when
        tracking is due and both images are usable, on the two decoded images,
        fresh all-zero buffers and the predicted activity vector; the mode-1
        call takes the tracker's buffers and activity vector; the snapshot is
        of the corrected state, with the tracker's left measurements. */
    lemma UpdateDataFlow(u: UpdateState, dt: real, msg: Sample, updateVis: bool)
      requires Wired() && |u.updateVec| == numPoints
      ensures var o := UpdateSpec(u, dt, msg, updateVis);
        var due := CRem(u.vioCnt, visionSubsample) == 0;
        && ((exists i :: 0 <= i < |o.trace| && o.trace[i].Track?) <==> due && ImagesUsable(msg))
        && (due && ImagesUsable(msg) ==>
              var k := KltCall(toCvCopy(msg.leftImage).value, toCvCopy(msg.rightImage).value,
                               Zeros(2 * numPoints), Zeros(2 * numPoints), slam(PredictCall(u, dt, msg)).updateVec);
              && o.trace[1] == Track(k)
              && o.trace[2].Estimate?
              && o.trace[2].slamCall.zLeft == klt(k).zLeft && o.trace[2].slamCall.zRight == klt(k).zRight
              && o.trace[2].slamCall.updateVec == klt(k).updateVec
              && (updateVis ==>
                    o.trace[3] == Visualize(Snapshot(u.vio.numAnchors, numPoints, o.state.robot, o.state.anchors,
                                                     o.state.mapPoints, o.updateVec, msg.leftImage, klt(k).zLeft))))
    {
      var o := UpdateSpec(u, dt, msg, updateVis);
      if CRem(u.vioCnt, visionSubsample) == 0 && ImagesUsable(msg) {
        assert o.trace[1].Track?;
      }
    }

    /** update publishes no acknowledgment of its own. */
    lemma UpdateAddsNoAck(before: seq<Event>, u: UpdateState, dt: real, msg: Sample, updateVis: bool)
      requires Wired() && |u.updateVec| == numPoints
      ensures AckCount(before + UpdateSpec(u, dt, msg, updateVis).trace) == AckCount(before)
    {
      UpdateTraceShape(u, dt, msg, updateVis);
      AckCountAppend(before, UpdateSpec(u, dt, msg, updateVis).trace);
    }

    /** One SLAM(...) call: the estimator's buffers and the activity vector are
        replaced by what it returns, and the call is recorded. */
    method Slam(call: SlamCall)
      requires Valid() && Sized(call.updateVec, call.zLeft, call.zRight, numPoints)
      modifies this`robotState, this`hUApo, this`mapPoints, this`anchorPoses, this`updateVec, this`events
      ensures Valid()
      ensures Est() == slam(call).state && updateVec == slam(call).updateVec
      ensures events == old(events) + [Estimate(call)]
    {
      var r := slam(call);
      robotState, hUApo, mapPoints, anchorPoses := r.state.robot, r.state.hUApo, r.state.mapPoints, r.state.anchors;
      updateVec := r.updateVec;
      events := events + [Estimate(call)];
    }

    /** handle_points_klt: rewrites the two measurement buffers and the
        activity vector in place. */
    method HandlePointsKlt(call: KltCall) returns (zLeft: seq<real>, zRight: seq<real>)
      requires Valid() && Sized(call.updateVec, call.zLeft, call.zRight, numPoints)
      modifies this`updateVec, this`events
      ensures Valid()
      ensures zLeft == klt(call).zLeft && zRight == klt(call).zRight && updateVec == klt(call).updateVec
      ensures Sized(updateVec, zLeft, zRight, numPoints)
      ensures events == old(events) + [Track(call)]
    {
      var r := klt(call);
      zLeft, zRight := r.zLeft, r.zRight;
      updateVec := r.updateVec;
      events := events + [Track(call)];
    }

    /** Builds the vio_vis message, pushing entry by entry as updateVis does. */
    method BuildVis(robot: RobotState, anchors: seq<AnchorPose>, mapIn: seq<real>, updateVect: seq<int>,
                    duoMsg: Sample, zL: seq<real>) returns (m: VisMsg)
      requires SnapshotInputs(vioParams.numAnchors, numPoints, anchors, mapIn, updateVect, zL)
      ensures m == Snapshot(vioParams.numAnchors, numPoints, robot, anchors, mapIn, updateVect, duoMsg.leftImage, zL)
    {
      var anchorMsgs: seq<Pose> := [];
      var i := 0;
      while i < vioParams.numAnchors
        invariant 0 <= i <= AnchorCount(vioParams.numAnchors)
        invariant |anchorMsgs| == i
        invariant forall j :: 0 <= j < i ==> anchorMsgs[j] == AnchorPoseMsg(anchors[j])
      {
        anchorMsgs := anchorMsgs + [Pose(anchors[i].pos, anchors[i].att)];
        i := i + 1;
      }

      var mapData: seq<real> := [];
      var status: seq<int> := [];
      var tracks: seq<real> := [];
      i := 0;
      while i < numPoints
        invariant 0 <= i <= numPoints
        invariant mapData == mapIn[..3 * i]
        invariant status == updateVect[..i]
        invariant |tracks| == 2 * i
        invariant forall j :: 0 <= j < 2 * i ==> tracks[j] == TrackEntry(updateVect, zL, j)
      {
        mapData := mapData + [mapIn[i * 3 + 0]];
        mapData := mapData + [mapIn[i * 3 + 1]];
        mapData := mapData + [mapIn[i * 3 + 2]];
        assert mapData == mapIn[..3 * (i + 1)];

        status := status + [updateVect[i]];
        assert (2 * i) / 2 == i && (2 * i + 1) / 2 == i;
        if updateVect[i] == 1 {
          tracks := tracks + [zL[i * 2 + 0]];
          tracks := tracks + [zL[i * 2 + 1]];
        } else {
          tracks := tracks + [Sentinel];
          tracks := tracks + [Sentinel];
        }
        i := i + 1;
      }
      assert status == updateVect[..numPoints];

      var gyroBias := [robot.gyroBias.x];
      gyroBias := gyroBias + [robot.gyroBias.y];
      gyroBias := gyroBias + [robot.gyroBias.z];
      var accBias := [robot.accBias.x];
      accBias := accBias + [robot.accBias.y];
      accBias := accBias + [robot.accBias.z];

      m := VisMsg(Pose(robot.pos, robot.att), anchorMsgs, mapData, status, tracks, duoMsg.leftImage, gyroBias, accBias);
    }

    /** updateVis: builds the snapshot and publishes it. */
    method UpdateVis(robot: RobotState, anchors: seq<AnchorPose>, mapIn: seq<real>, updateVect: seq<int>,
                     duoMsg: Sample, zL: seq<real>)
      requires SnapshotInputs(vioParams.numAnchors, numPoints, anchors, mapIn, updateVect, zL)
      modifies this`events
      ensures events == old(events) +
        [Visualize(Snapshot(vioParams.numAnchors, numPoints, robot, anchors, mapIn, updateVect, duoMsg.leftImage, zL))]
    {
      var m := BuildVis(robot, anchors, mapIn, updateVect, duoMsg, zL);
      events := events + [Visualize(m)];
    }

    /** The vision half of update: handle_points_klt on fresh zero buffers,
        the mode-1 SLAM call, and updateVis when asked for. */
    method TrackAndCorrect(dt: real, msg: Sample, left: Image, right: Image, updateVis: bool)
      requires Valid()
      modifies this`robotState, this`hUApo, this`mapPoints, this`anchorPoses, this`updateVec, this`events
      ensures Valid()
      ensures var o := CorrectSpec(old(Pre()), SlamResult(old(Est()), old(updateVec)), dt, msg, left, right, updateVis);
        && Est() == o.state && updateVec == o.updateVec
        && events == old(events) + o.trace
    {
      var meas := GetImuData(msg.imu);
      var track := KltCall(left, right, Zeros(2 * numPoints), Zeros(2 * numPoints), updateVec);
      var zAllL, zAllR := HandlePointsKlt(track);

      var correct := SlamCall(updateVec, zAllL, zAllR, dt, meas, cameraParams, noiseParams, vioParams, 1,
                              EstimatorState(robotState, hUApo, mapPoints, anchorPoses));
      Slam(correct);
      ghost var t := [Track(track), Estimate(correct)];
      assert events == old(events) + t;

      if updateVis {
        UpdateVis(robotState, anchorPoses, mapPoints, updateVec, msg, zAllL);
        assert events == old(events) + (t + [events[|events| - 1]]);
      }
    }

    /** update: the prediction always; then, when vio_cnt is a multiple of
        vision_subsample, decoding, tracking, the full update and the
        snapshot, leaving early (before vio_cnt++) if an image does not
        decode or is empty. */
    method Update(dt: real, msg: Sample, updateVis: bool)
      requires Valid()
      modifies this`robotState, this`hUApo, this`mapPoints, this`anchorPoses, this`updateVec, this`events, this`vioCnt
      ensures Valid()
      ensures var o := UpdateSpec(old(Pre()), dt, msg, updateVis);
        && Est() == o.state && updateVec == o.updateVec
        && events == old(events) + o.trace
      ensures vioCnt == if CRem(old(vioCnt), visionSubsample) == 0 && !ImagesUsable(msg) then old(vioCnt) else old(vioCnt) + 1
    {
      ghost var u := Pre();
      var zAllL := Zeros(2 * numPoints);
      var zAllR := Zeros(2 * numPoints);
      var meas := GetImuData(msg.imu);

      var predict := SlamCall(updateVec, zAllL, zAllR, dt, meas, cameraParams, noiseParams, vioParams, 0,
                              EstimatorState(robotState, hUApo, mapPoints, anchorPoses));
      assert predict == PredictCall(u, dt, msg);
      Slam(predict);

      if CRem(vioCnt, visionSubsample) == 0 {
        var leftImage := toCvCopy(msg.leftImage);
        var rightImage := toCvCopy(msg.rightImage);
        if leftImage.None? || rightImage.None? {
          return;
        }
        if leftImage.value.IsEmpty() || rightImage.value.IsEmpty() {
          return;
        }

        TrackAndCorrect(dt, msg, leftImage.value, rightImage.value, updateVis);
      }
      vioCnt := vioCnt + 1;
    }

    /** The drain gate of duo3dCb: while a reset is pending, the first
        DUO_QUEUE_SIZE samples are dropped (the caller still acknowledges
        them); the next one re-arms the counter and goes through. */
    method DrainGate() returns (suppressed: bool)
      requires Valid()
      modifies this`clearQueueCounter
      ensures Valid()
      ensures suppressed == old(Suppresses(Sched()))
      ensures suppressed ==> clearQueueCounter == old(clearQueueCounter) + 1
      ensures !suppressed ==> clearQueueCounter == if slamResetFlag then 0 else old(clearQueueCounter)
    {
      suppressed := false;
      if slamResetFlag {
        if clearQueueCounter < DuoQueueSize {
          clearQueueCounter := clearQueueCounter + 1;
          suppressed := true;
        } else {
          clearQueueCounter := 0;
        }
      }
    }

    /** The time step of duo3dCb, advancing prev_time_ to the stamp. */
    method TimeStep(stamp: real) returns (dt: real)
      requires Valid()
      modifies this`prevTime
      ensures Valid()
      ensures dt == DeltaT(fpsDuo, old(prevTime), stamp) && prevTime == stamp
    {
      if prevTime == 0.0 {
        prevTime := stamp;
        dt := 1.0 / fpsDuo;
      } else {
        dt := stamp - prevTime;
        prevTime := stamp;
      }
    }

    /** The display_tracks_cnt move of duo3dCb, on the samples that publish. */
    method CountDisplayTracks() returns (debugDisplayTracks: bool)
      requires Valid()
      modifies this`displayTracksCnt
      ensures Valid()
      ensures (displayTracksCnt, debugDisplayTracks) == TracksStep(CRem(vioCnt, visPublishDelay) != 0, old(displayTracksCnt))
    {
      var visPublish := CRem(vioCnt, visPublishDelay) != 0;
      debugDisplayTracks := false;
      if visPublish {
        if displayTracksCnt > DisplayTracksLimit {
          debugDisplayTracks := true;
          displayTracksCnt := 0;
        } else {
          displayTracksCnt := displayTracksCnt + 1;
        }
      }
    }

    /** The part of duo3dCb between the drain gate and the acknowledgment:
        the time step, the track-display counter, update and the latency
        maximum. clicks is the clock ticks the processing took; s is the
        schedule state the gate let through. */
    method ProcessSample(msg: Sample, clicks: int, ghost s: State) returns (dt: real)
      requires Valid() && !Suppresses(s)
      requires Sched() == s.(clearQueueCounter := if s.resetFlag then 0 else s.clearQueueCounter)
      modifies this`prevTime, this`displayTracksCnt, this`maxClicks, this`vioCnt,
               this`robotState, this`hUApo, this`mapPoints, this`anchorPoses, this`updateVec, this`events
      ensures Valid()
      ensures vioCnt == if CRem(s.vioCnt, visionSubsample) == 0 && !ImagesUsable(msg) then s.vioCnt else s.vioCnt + 1
      ensures prevTime == msg.stamp
      ensures displayTracksCnt == TracksStep(CRem(s.vioCnt, visPublishDelay) != 0, s.displayTracksCnt).0
      ensures maxClicks == Max(s.maxClicks, clicks)
      ensures dt == DeltaT(fpsDuo, s.prevTime, msg.stamp)
      ensures var o := UpdateSpec(old(Pre()), dt, msg, true);
        && events == old(events) + o.trace
        && Est() == o.state && updateVec == o.updateVec
      ensures AckCount(events) == old(AckCount(events))
    {
      UpdateAddsNoAck(events, Pre(), DeltaT(fpsDuo, prevTime, msg.stamp), msg, true);
      dt := TimeStep(msg.stamp);
      var debugDisplayTracks := CountDisplayTracks();
      assert Pre() == old(Pre());
      Update(dt, msg, true);
      if clicks > maxClicks {
        maxClicks := clicks;
      }
    }

    /** duo3dCb: the drain gate, then the sample's processing; exactly one
        acknowledgment carrying DUO_QUEUE_SIZE on every path. */
    method Duo3dCb(msg: Sample, clicks: int)
      requires Valid()
      modifies this`clearQueueCounter, this`prevTime, this`displayTracksCnt, this`maxClicks, this`vioCnt,
               this`robotState, this`hUApo, this`mapPoints, this`anchorPoses, this`updateVec, this`events
      ensures Valid()
      ensures var x := Input(msg.stamp, ImagesUsable(msg), clicks);
        Sched() == Step(Cfg(), old(Sched()), x).0
      ensures old(Suppresses(Sched())) ==>
        && events == old(events) + [Processed(DuoQueueSize)]
        && Est() == old(Est()) && updateVec == old(updateVec)
      ensures !old(Suppresses(Sched())) ==>
        var o := UpdateSpec(old(Pre()), DeltaT(fpsDuo, old(prevTime), msg.stamp), msg, true);
        && events == old(events) + o.trace + [Processed(DuoQueueSize)]
        && Est() == o.state && updateVec == o.updateVec
      ensures AckCount(events) == old(AckCount(events)) + 1
      ensures events[|events| - 1] == Processed(DuoQueueSize)
    {
      var suppressed := DrainGate();
      if !suppressed {
        ghost var x := Input(msg.stamp, ImagesUsable(msg), clicks);
        StepProcessedState(Cfg(), old(Sched()), x);
        var dt := ProcessSample(msg, clicks, old(Sched()));
      }
      Acknowledge();
    }

    /** Publishes duo_processed_msg, which carries DUO_QUEUE_SIZE. */
    method Acknowledge()
      modifies this`events
      ensures events == old(events) + [Processed(DuoQueueSize)]
      ensures AckCount(events) == old(AckCount(events)) + 1
    {
      AckCountAppend(events, [Processed(DuoQueueSize)]);
      events := events + [Processed(DuoQueueSize)];
    }

    /** The auto-mode heading for the position-reference callback: the
        camera-to-world yaw plus the fixed offset. */
    function IncrementHeading(): (h: Heading)
      reads this`camera2world
      ensures UnitTrig() ==> h.cos * h.cos + h.sin * h.sin == 1.0
    {
      var yaw := rotationYaw(camera2world);
      Reference.Heading(cos(yaw + YawOffset), sin(yaw + YawOffset))
    }

    /** joystickCb. homeYaw is the yaw tf computes for the default-constructed
        quaternion of the reset branch. */
    method JoystickCb(buttons: seq<int>, homeYaw: real)
      requires Valid() && |buttons| >= 4
      modifies this`referenceCommand, this`changeReference, this`slamResetFlag
      ensures Valid()
      ensures Ref() == OnJoystick(old(Ref()), buttons, pose, getYaw(pose.orientation), homeYaw)
    {
      if buttons[0] != 0 && !slamResetFlag {
        slamResetFlag := true;
        referenceCommand := referenceCommand.(position := ZeroAxes);
        referenceCommand := referenceCommand.(velocity := ZeroAxes);
        referenceCommand := referenceCommand.(position := referenceCommand.position.(yaw := homeYaw));
      } else if buttons[2] != 0 {
        changeReference := true;
        var p := referenceCommand.position.(x := pose.position.x, y := pose.position.y, z := pose.position.z);
        var yaw := getYaw(pose.orientation) + YawOffset;
        referenceCommand := referenceCommand.(position := p.(yaw := yaw));
        referenceCommand := referenceCommand.(velocity := ZeroAxes);
      } else if buttons[3] != 0 {
        changeReference := true;
      }
    }

    /** With the node's cos and sin, an accepted increment commands a
        world-frame velocity of the same height rate and horizontal speed as
        the body-frame one it was given. */
    lemma IncrementKeepsSpeed(s: RefState, msg: PositionReference)
      requires UnitTrig() && s.changeReference
      ensures var v := OnIncrement(s, msg, IncrementHeading()).cmd.velocity;
        && v.z == msg.z && v.yaw == msg.yaw
        && v.x * v.x + v.y * v.y == msg.x * msg.x + msg.y * msg.y
    {
      RotateZIsRotation(IncrementHeading(), Vec3(msg.x, msg.y, msg.z));
    }

    /** positionReferenceCb: one teleoperation increment. */
    method PositionReferenceCb(msg: PositionReference)
      requires Valid()
      modifies this`referenceCommand
      ensures Valid()
      ensures Ref() == OnIncrement(old(Ref()), msg, IncrementHeading())
    {
      if changeReference {
        var yaw := rotationYaw(camera2world);
        var q := Reference.Heading(cos(yaw + YawOffset), sin(yaw + YawOffset));
        var positionChangeWorld := RotateZ(q, Vec3(msg.x, msg.y, msg.z));
        var dt := IncrementPeriod;
        var p := referenceCommand.position;
        p := p.(x := p.x + dt * positionChangeWorld.x);
        p := p.(y := p.y + dt * positionChangeWorld.y);
        p := p.(z := p.z + dt * positionChangeWorld.z);
        p := p.(yaw := p.yaw + dt * msg.yaw);
        var v := Axes(positionChangeWorld.x, positionChangeWorld.y, positionChangeWorld.z, msg.yaw);
        referenceCommand := ReferenceCommand(p, v);
      }
    }

    /** dynamicReconfigureCb, field by field as the callback writes them. */
    method DynamicReconfigureCb(config: VioRosConfig, level: int)
      requires Valid()
      modifies this`controllerGains, this`noiseParams, this`vioParams, this`showCameraImage
      ensures Valid()
      ensures Tuning() == Reconfigure(old(Tuning()), config)
    {
      controllerGains := controllerGains.(kpXy := config.kpXy);
      controllerGains := controllerGains.(kiXy := config.kiXy);
      controllerGains := controllerGains.(kdXy := config.kdXy);
      controllerGains := controllerGains.(kpZ := config.kpZ);
      controllerGains := controllerGains.(kiZ := config.kiZ);
      controllerGains := controllerGains.(kdZ := config.kdZ);
      controllerGains := controllerGains.(kpYaw := config.kpYaw);
      controllerGains := controllerGains.(kdYaw := config.kdYaw);
      controllerGains := controllerGains.(iLim := config.iLim);

      noiseParams := noiseParams.(imageNoise := (config.imNoise, noiseParams.imageNoise.1));
      noiseParams := noiseParams.(imageNoise := (noiseParams.imageNoise.0, config.imNoise));
      noiseParams := noiseParams.(processNoise := noiseParams.processNoise.(qv := config.accNoise));
      noiseParams := noiseParams.(processNoise := noiseParams.processNoise.(qv := config.gyroNoise));
      noiseParams := noiseParams.(processNoise := noiseParams.processNoise.(qwo := config.gyroBiasNoise));
      noiseParams := noiseParams.(sigmaInit := config.sigmaInit);

      vioParams := vioParams.(maxEkfIterations := config.maxEkfIterations);
      vioParams := vioParams.(fixedFeature := config.fixedFeature);

      showCameraImage := config.showTrackerImages;
    }
  }
}
