/** The visualization snapshot published after each full update: the robot
    pose, one pose per anchor and, for every landmark slot, its three map
    coordinates, its activity flag and its left-image pixel pair (or the
    sentinel pair when the slot was not tracked), plus the IMU biases. */
module Visualization {
  import opened Messages
  import opened Estimator

  /** The pixel value published for a landmark that is not tracked. */
  const Sentinel: real := -100.0

  function RobotPose(r: RobotState): Pose
  {
    Pose(r.pos, r.att)
  }

  function AnchorPoseMsg(a: AnchorPose): Pose
  {
    Pose(a.pos, a.att)
  }

  /** The number of iterations of `for (int i = 0; i < num_anchors; i++)`. */
  function AnchorCount(numAnchors: int): nat
  {
    if numAnchors > 0 then numAnchors else 0
  }

  function Components(v: Vec3): seq<real>
  {
    [v.x, v.y, v.z]
  }

  /** The buffers the snapshot indexes are long enough for numAnchors anchors
      and n landmarks. */
  predicate SnapshotInputs(numAnchors: int, n: nat, anchors: seq<AnchorPose>, mapPoints: seq<real>,
                           updateVec: seq<int>, zLeft: seq<real>)
  {
    numAnchors <= |anchors| && 3 * n <= |mapPoints| && n <= |updateVec| && 2 * n <= |zLeft|
  }

  /** Entry j of the published track buffer: the left-image coordinate of
      landmark j / 2 if it is active (flag exactly 1), the sentinel otherwise. */
  function TrackEntry(updateVec: seq<int>, zLeft: seq<real>, j: nat): (e: real)
    requires j / 2 < |updateVec| && j < |zLeft|
  {
    if updateVec[j / 2] == 1 then zLeft[j] else Sentinel
  }

  /** The vio_vis message updateVis builds. */
  function Snapshot(numAnchors: int, n: nat, robot: RobotState, anchors: seq<AnchorPose>,
                    mapPoints: seq<real>, updateVec: seq<int>, image: ImageMsg, zLeft: seq<real>): (m: VisMsg)
    requires SnapshotInputs(numAnchors, n, anchors, mapPoints, updateVec, zLeft)
    ensures |m.anchorPoses| == AnchorCount(numAnchors)
    ensures |m.mapData| == 3 * n && |m.statusVect| == n && |m.featureTracks| == 2 * n
    ensures |m.gyroBias| == 3 && |m.accBias| == 3
    ensures m.image == image
  {
    VisMsg(
      RobotPose(robot),
      seq(AnchorCount(numAnchors), i requires 0 <= i < AnchorCount(numAnchors) => AnchorPoseMsg(anchors[i])),
      mapPoints[..3 * n],
      updateVec[..n],
      seq(2 * n, j requires 0 <= j < 2 * n => TrackEntry(updateVec, zLeft, j)),
      image,
      Components(robot.gyroBias),
      Components(robot.accBias))
  }

  /** The snapshot is index-aligned with the estimator's landmark slots:
      anchors in order, three map coordinates, one status and one pixel pair
      per slot, nothing reordered, filtered or compacted; an inactive slot
      always carries the sentinel pair, never a stale pixel. */
  lemma SnapshotAligned(numAnchors: int, n: nat, robot: RobotState, anchors: seq<AnchorPose>,
                        mapPoints: seq<real>, updateVec: seq<int>, image: ImageMsg, zLeft: seq<real>)
    requires SnapshotInputs(numAnchors, n, anchors, mapPoints, updateVec, zLeft)
    ensures var m := Snapshot(numAnchors, n, robot, anchors, mapPoints, updateVec, image, zLeft);
      && m.robotPose == Pose(robot.pos, robot.att)
      && |m.anchorPoses| == AnchorCount(numAnchors)
      && (forall i :: 0 <= i < |m.anchorPoses| ==> m.anchorPoses[i] == Pose(anchors[i].pos, anchors[i].att))
      && |m.mapData| == 3 * n && |m.statusVect| == n && |m.featureTracks| == 2 * n
      && (forall i :: 0 <= i < n ==>
            && m.mapData[3 * i] == mapPoints[3 * i]
            && m.mapData[3 * i + 1] == mapPoints[3 * i + 1]
            && m.mapData[3 * i + 2] == mapPoints[3 * i + 2]
            && m.statusVect[i] == updateVec[i]
            && (updateVec[i] == 1 ==> m.featureTracks[2 * i] == zLeft[2 * i] && m.featureTracks[2 * i + 1] == zLeft[2 * i + 1])
            && (updateVec[i] != 1 ==> m.featureTracks[2 * i] == Sentinel && m.featureTracks[2 * i + 1] == Sentinel))
      && m.image == image
      && m.gyroBias == [robot.gyroBias.x, robot.gyroBias.y, robot.gyroBias.z]
      && m.accBias == [robot.accBias.x, robot.accBias.y, robot.accBias.z]
  {
    var m := Snapshot(numAnchors, n, robot, anchors, mapPoints, updateVec, image, zLeft);
    forall i | 0 <= i < n
      ensures m.featureTracks[2 * i] == TrackEntry(updateVec, zLeft, 2 * i)
      ensures m.featureTracks[2 * i + 1] == TrackEntry(updateVec, zLeft, 2 * i + 1)
    {
      assert (2 * i) / 2 == i && (2 * i + 1) / 2 == i;
    }
  }
}
