/** The reference-trajectory state machine driven by the joystick callback
    (reset, auto mode, leave auto mode) and by the teleoperation increments
    of the position-reference callback, as pure transitions over the
    reference command and the two flags they touch. */
module Reference {
  import opened Messages

  /** A four-axis command: x, y, z and yaw (position[0..3] or velocity[0..3]). */
  datatype Axes = Axes(x: real, y: real, z: real, yaw: real)

  const ZeroAxes: Axes := Axes(0.0, 0.0, 0.0, 0.0)

  function Add(a: Axes, b: Axes): (r: Axes)
  {
    Axes(a.x + b.x, a.y + b.y, a.z + b.z, a.yaw + b.yaw)
  }

  function Scale(k: real, a: Axes): (r: Axes)
  {
    Axes(k * a.x, k * a.y, k * a.z, k * a.yaw)
  }

  /** referenceCommand: the target the downstream controller tracks. */
  datatype ReferenceCommand = ReferenceCommand(position: Axes, velocity: Axes)

  /** The fields the two callbacks write: the reference command,
      change_reference and SLAM_reset_flag. */
  datatype RefState = RefState(cmd: ReferenceCommand, changeReference: bool, resetFlag: bool)

  /** The yaw offset added to the estimated heading (about pi/2). */
  const YawOffset: real := 1.57

  /** The loop period of the joystick reference node, in seconds. */
  const IncrementPeriod: real := 0.1

  predicate Pressed(buttons: seq<int>, i: nat)
    requires i < |buttons|
  {
    buttons[i] != 0
  }

  /** Button 0 resets, but only while no reset is pending. */
  predicate ResetEvent(s: RefState, buttons: seq<int>)
    requires |buttons| >= 4
  {
    Pressed(buttons, 0) && !s.resetFlag
  }

  /** Button 2 enters auto mode unless the press was taken as a reset. */
  predicate AutoEvent(s: RefState, buttons: seq<int>)
    requires |buttons| >= 4
  {
    !ResetEvent(s, buttons) && Pressed(buttons, 2)
  }

  /** Button 3 leaves auto mode unless an earlier button took the press. */
  predicate LeaveAutoEvent(s: RefState, buttons: seq<int>)
    requires |buttons| >= 4
  {
    !ResetEvent(s, buttons) && !Pressed(buttons, 2) && Pressed(buttons, 3)
  }

  /** joystickCb. homeYaw is the yaw tf reports for a default-constructed
      quaternion; poseYaw is tf::getYaw of the pose's orientation. */
  function OnJoystick(s: RefState, buttons: seq<int>, pose: Pose, poseYaw: real, homeYaw: real): (r: RefState)
    requires |buttons| >= 4
    ensures r.resetFlag == (s.resetFlag || Pressed(buttons, 0))
    ensures s.changeReference ==> r.changeReference
    ensures ResetEvent(s, buttons) ==>
      r.cmd == ReferenceCommand(ZeroAxes.(yaw := homeYaw), ZeroAxes) && r.changeReference == s.changeReference
    ensures AutoEvent(s, buttons) ==>
      && r.changeReference
      && r.cmd.position == Axes(pose.position.x, pose.position.y, pose.position.z, poseYaw + YawOffset)
      && r.cmd.velocity == ZeroAxes
    ensures LeaveAutoEvent(s, buttons) ==> r == s.(changeReference := true)
    ensures !Pressed(buttons, 0) && !Pressed(buttons, 2) && !Pressed(buttons, 3) ==> r == s
  {
    if ResetEvent(s, buttons) then
      s.(resetFlag := true, cmd := ReferenceCommand(ZeroAxes.(yaw := homeYaw), ZeroAxes))
    else if Pressed(buttons, 2) then
      var position := Axes(pose.position.x, pose.position.y, pose.position.z, poseYaw + YawOffset);
      s.(changeReference := true, cmd := ReferenceCommand(position, ZeroAxes))
    else if Pressed(buttons, 3) then
      s.(changeReference := true)
    else
      s
  }

  /** With a reset already pending, button 0 is ignored: the press acts as if
      only the other buttons were held. */
  lemma ResetWhilePendingFallsThrough(s: RefState, buttons: seq<int>, pose: Pose, poseYaw: real, homeYaw: real)
    requires |buttons| >= 4 && s.resetFlag
    ensures OnJoystick(s, buttons, pose, poseYaw, homeYaw) == OnJoystick(s, buttons[0 := 0], pose, poseYaw, homeYaw)
  {
  }

  /** cos and sin of the heading a teleoperation increment is rotated by. */
  datatype Heading = Heading(cos: real, sin: real)

  /** The rotation about the world z axis by the heading
      (tf::Transform of a pure-yaw quaternion applied to a vector). */
  function RotateZ(h: Heading, v: Vec3): (w: Vec3)
  {
    Vec3(h.cos * v.x - h.sin * v.y, h.sin * v.x + h.cos * v.y, v.z)
  }

  /** A rotation about z keeps the height and the horizontal length. */
  lemma RotateZIsRotation(h: Heading, v: Vec3)
    requires h.cos * h.cos + h.sin * h.sin == 1.0
    ensures RotateZ(h, v).z == v.z
    ensures RotateZ(h, v).x * RotateZ(h, v).x + RotateZ(h, v).y * RotateZ(h, v).y == v.x * v.x + v.y * v.y
  {
    var c, s := h.cos, h.sin;
    calc {
      (c * v.x - s * v.y) * (c * v.x - s * v.y) + (s * v.x + c * v.y) * (s * v.x + c * v.y);
      (c * c + s * s) * (v.x * v.x) + (c * c + s * s) * (v.y * v.y);
      v.x * v.x + v.y * v.y;
    }
  }

  /** The world-frame rate a teleoperation increment commands: the rotated
      translation and the unrotated yaw change. */
  function IncrementRate(msg: PositionReference, h: Heading): (r: Axes)
  {
    var w := RotateZ(h, Vec3(msg.x, msg.y, msg.z));
    Axes(w.x, w.y, w.z, msg.yaw)
  }

  /** positionReferenceCb: ignored unless change_reference is set; otherwise
      the velocity becomes the commanded rate and the position advances by
      one loop period of it. */
  function OnIncrement(s: RefState, msg: PositionReference, h: Heading): (r: RefState)
    ensures !s.changeReference ==> r == s
    ensures r.changeReference == s.changeReference && r.resetFlag == s.resetFlag
    ensures s.changeReference ==>
      && r.cmd.velocity == IncrementRate(msg, h)
      && r.cmd.position == Add(s.cmd.position, Scale(IncrementPeriod, r.cmd.velocity))
  {
    if !s.changeReference then s
    else
      var w := RotateZ(h, Vec3(msg.x, msg.y, msg.z));
      var p := s.cmd.position;
      var position := Axes(p.x + IncrementPeriod * w.x, p.y + IncrementPeriod * w.y,
                           p.z + IncrementPeriod * w.z, p.yaw + IncrementPeriod * msg.yaw);
      s.(cmd := ReferenceCommand(position, Axes(w.x, w.y, w.z, msg.yaw)))
  }

  /** A stream of teleoperation increments, each with the heading in force
      when it arrived. */
  function Increments(s: RefState, steps: seq<(PositionReference, Heading)>): (r: RefState)
    decreases |steps|
  {
    if steps == [] then s else Increments(OnIncrement(s, steps[0].0, steps[0].1), steps[1..])
  }

  /** The sum of the commanded rates of a stream of increments. */
  function SumRates(steps: seq<(PositionReference, Heading)>): Axes
    decreases |steps|
  {
    if steps == [] then ZeroAxes else Add(IncrementRate(steps[0].0, steps[0].1), SumRates(steps[1..]))
  }

  /** Advancing by k times a, then by k times b, is advancing by k times a + b. */
  lemma AdvanceTwice(p: Axes, a: Axes, b: Axes, k: real)
    ensures Add(Add(p, Scale(k, a)), Scale(k, b)) == Add(p, Scale(k, Add(a, b)))
  {
  }

  /** In teleoperation the reference position integrates the commanded rates:
      after any stream of increments it has moved by one loop period times
      their sum, and the velocity is the last increment's rate, not an
      accumulation. */
  lemma {:induction false} IncrementsIntegrate(s: RefState, steps: seq<(PositionReference, Heading)>)
    requires s.changeReference
    ensures Increments(s, steps).cmd.position == Add(s.cmd.position, Scale(IncrementPeriod, SumRates(steps)))
    ensures steps != [] ==>
      Increments(s, steps).cmd.velocity == IncrementRate(steps[|steps| - 1].0, steps[|steps| - 1].1)
    ensures steps == [] ==> Increments(s, steps) == s
    decreases |steps|
  {
    if steps != [] {
      var s1 := OnIncrement(s, steps[0].0, steps[0].1);
      IncrementsIntegrate(s1, steps[1..]);
      var r0, rest := IncrementRate(steps[0].0, steps[0].1), SumRates(steps[1..]);
      AdvanceTwice(s.cmd.position, r0, rest, IncrementPeriod);
      if |steps| > 1 {
        assert steps[1..][|steps[1..]| - 1] == steps[|steps| - 1];
      }
    }
  }

  predicate ZeroIncrement(msg: PositionReference)
  {
    msg.x == 0.0 && msg.y == 0.0 && msg.z == 0.0 && msg.yaw == 0.0
  }

  /** Zero increments hold the reference: the position does not move, and once
      teleoperation is on, every zero increment leaves the velocity exactly 0,
      whatever the heading. */
  lemma {:induction false} ZeroIncrementsHold(s: RefState, steps: seq<(PositionReference, Heading)>)
    requires forall i :: 0 <= i < |steps| ==> ZeroIncrement(steps[i].0)
    ensures Increments(s, steps).cmd.position == s.cmd.position
    ensures s.changeReference && steps != [] ==> Increments(s, steps).cmd.velocity == ZeroAxes
    decreases |steps|
  {
    if steps != [] {
      assert ZeroIncrement(steps[0].0);
      var s1 := OnIncrement(s, steps[0].0, steps[0].1);
      assert s.changeReference ==> s1.cmd.velocity == ZeroAxes;
      ZeroIncrementsHold(s1, steps[1..]);
    }
  }

  /** One event of either callback. */
  datatype RefEvent =
    | Joy(buttons: seq<int>, pose: Pose, poseYaw: real, homeYaw: real)
    | Increment(msg: PositionReference, heading: Heading)

  predicate WellFormed(e: RefEvent)
  {
    e.Joy? ==> |e.buttons| >= 4
  }

  function OnEvent(s: RefState, e: RefEvent): RefState
    requires WellFormed(e)
  {
    match e
    case Joy(buttons, pose, poseYaw, homeYaw) => OnJoystick(s, buttons, pose, poseYaw, homeYaw)
    case Increment(msg, h) => OnIncrement(s, msg, h)
  }

  function Events(s: RefState, es: seq<RefEvent>): RefState
    requires forall i :: 0 <= i < |es| ==> WellFormed(es[i])
    decreases |es|
  {
    if es == [] then s else Events(OnEvent(s, es[0]), es[1..])
  }

  /** Neither callback ever clears change_reference or SLAM_reset_flag: once
      raised, both stay raised through any sequence of events. */
  lemma {:induction false} FlagsStayRaised(s: RefState, es: seq<RefEvent>)
    requires forall i :: 0 <= i < |es| ==> WellFormed(es[i])
    ensures s.changeReference ==> Events(s, es).changeReference
    ensures s.resetFlag ==> Events(s, es).resetFlag
    decreases |es|
  {
    if es != [] {
      assert WellFormed(es[0]);
      FlagsStayRaised(OnEvent(s, es[0]), es[1..]);
    }
  }
}
