# Localization node of duo_vio, modelled in Dafny

This project models the orchestration layer of the `Localization` ROS node in
`src/localization.cpp`. That layer feeds a stereo/inertial camera (the DUO) into a
visual-inertial SLAM estimator and a KLT feature tracker. The estimator and the
tracker are external collaborators. The node sees them only through the buffers
it passes in and gets back.

The node is a class whose four callbacks change its member fields step by step:

- the stereo/inertial sample callback `duo3dCb`, together with `update` and `updateVis`;
- `joystickCb`;
- `positionReferenceCb`;
- `dynamicReconfigureCb`.

The model keeps that form. `Node.Localization` is a Dafny class with those fields.
Each callback is a method with a `modifies` frame. A ghost trace `events` records,
in order, every acknowledgment published on `/duo3d/msg_processed`, every `SLAM(...)`
call, every `handle_points_klt` call and every visualization message.

Each method is proved against a pure machine in its own module:

- **Schedule** covers the reset drain gate, the time step Δt, the vision-subsample
  schedule, the track-display counter and the running maximum of the clock ticks.
  `Step` handles one sample and `Run` a stream of samples. The lemmas about streams
  cover:
  - the 30-swallowed / 1-processed drain cycle and its repetition;
  - the subsample schedule;
  - the retry after an aborted tracked sample;
  - the periodic debug flag;
  - the running maximum.
- **Reference** covers the joystick reset / auto-mode / leave-auto branches and the
  teleoperation increments. Its lemmas show that the reference position integrates
  the commanded rates, that zero increments hold the reference, and that neither flag
  is ever cleared.
- **Visualization** defines the `vio_vis` snapshot and proves it index-aligned with
  the estimator's landmark slots.
- **Params** covers the start-up rules (buffer sizing, `vis_publish_delay`, the
  dark-current fallback) and the field-by-field effect of dynamic reconfiguration.
- **Estimator** holds the call records of SLAM and KLT, the buffer-size contract each
  keeps, and the IMU frame conversion `getIMUData`.

Some behaviours of the code are easy to misread; the model follows the code:

- **Δt after a zero stamp.** The first sample sets `prev_time_` to its own stamp. If
  that stamp is exactly zero, `prev_time_.isZero()` still holds on the next sample,
  so the second sample also gets the nominal period `1 / fps_duo`
  (`Schedule.TwoSampleDeltaT`).
- **The `vis_publish_delay` clamp.** The code does not take `max(1, …)`. The quotient
  becomes an `int` by truncation, and only a zero value is replaced by 1. A negative
  quotient stays negative (`Params.VisPublishDelay`).
- **The auto-mode snapshot.** It reads the member `pose`, not the estimator's robot
  state. No code in this file ever writes `pose`.
- **The reset flag is never cleared.** No code in this file clears
  `SLAM_reset_flag`. Once set, the drain of 30 samples followed by 1 processed sample
  repeats for ever (`Schedule.DrainPeriodic`).
- **`qv` is written twice.** `dynamicReconfigureCb` writes the acceleration noise
  into `qv` and then overwrites it with the gyro noise. It never writes `qw`, `qao`
  or `qR_ci`.

## Model

| member | source | states |
|---|---|---|
| Node.Localization.constructor | src/localization.cpp:17-144 | The initial state: no reset pending; drain counter, `vio_cnt`, `max_clicks_` and `prev_time_` are zero; the reference is at rest; `vis_publish_delay` follows the clamp rule; `num_points_` is the anchor product and `update_vec_` holds as many zeros; each dark-current image is the loaded one or the zero fallback; the tunables are the loaded values after the reconfigure server's first call of the callback (line 140); the invariant `Valid()` holds |
| Node.Localization.Duo3dCb | src/localization.cpp:158-218 | The scheduling fields move exactly as `Schedule.Step` says. A swallowed sample appends only one acknowledgment and leaves the estimator untouched. A processed sample appends `update`'s events and then one acknowledgment, and the estimator state is `update`'s result. Every path adds exactly one acknowledgment, which carries 30 and is the last event. The reference and the configuration are outside the frame, so they are unchanged |
| Node.Localization.DrainGate | src/localization.cpp:161-171 | While a reset is pending, the sample is swallowed exactly when the counter is below 30, and the counter then goes up by one. Otherwise the counter is re-armed to 0. Nothing else changes |
| Node.Localization.TimeStep | src/localization.cpp:175-184 | Δt is `Schedule.DeltaT` of the previous stamp, and `prev_time_` always ends equal to the current stamp |
| Node.Localization.CountDisplayTracks | src/localization.cpp:186-198 | `display_tracks_cnt` and the debug flag move as `Schedule.TracksStep`, governed by `vio_cnt % vis_publish_delay != 0` |
| Node.Localization.ProcessSample | src/localization.cpp:173-214 | After the gate: `prev_time_` becomes the stamp; `vio_cnt` advances unless tracking was due and an image was unusable; the track counter and `max_clicks_` follow their rules; `update` runs with visualization on; no acknowledgment is added |
| Node.Localization.Update | src/localization.cpp:360-446 | The estimator state, the activity vector and the appended events are those of `UpdateSpec`. `vio_cnt` is incremented except on the two early returns |
| Node.Localization.TrackAndCorrect | src/localization.cpp:411-441 | Tracking runs on fresh zero buffers. The mode-1 SLAM call gets the tracker's buffers. When asked for, the snapshot is of the corrected state with the tracker's left buffer. All of this is recorded in that order |
| Node.Localization.Slam | src/localization.cpp:373-386 | One SLAM call replaces the estimator buffers and the activity vector with the estimator's result, records the call, and keeps the buffer sizes |
| Node.Localization.HandlePointsKlt | src/localization.cpp:415 | The tracker rewrites both measurement buffers and the activity vector in place, keeps their sizes, and records the call |
| Node.Localization.BuildVis | src/localization.cpp:486-536 | The push-back loops build exactly `Visualization.Snapshot` |
| Node.Localization.UpdateVis | src/localization.cpp:484-540 | Publishes exactly one message, the snapshot of its arguments |
| Node.Localization.Acknowledge | src/localization.cpp:216 | One more message on `/duo3d/msg_processed`, carrying 30, so the acknowledgment count goes up by exactly one |
| Node.Localization.UpdateSpec | src/localization.cpp:360-446 | `update` as a function of the state it starts from: the activity vector keeps its N entries, and `update` reaches its end unless tracking was due and an image was unusable |
| Node.Localization.CorrectSpec | src/localization.cpp:411-441 | The vision half of `update`: a tracker call, then one mode-1 SLAM call, then the snapshot exactly when visualization is on; it always reaches its end and the activity vector keeps its N entries |
| Node.Localization.UpdateTraceShape | src/localization.cpp:360-446 | `update`'s first event and its only mode-0 SLAM call is the prediction, with all-zero buffers of length 2N. A mode-1 call occurs iff `vio_cnt % vision_subsample == 0` and both images decode non-empty. A snapshot occurs iff that holds and visualization is on. There is no acknowledgment. `update` reaches its end iff it was not aborted |
| Node.Localization.UpdateDataFlow | src/localization.cpp:362-441 | The tracker runs iff tracking is due and both images are usable. It gets the two decoded images, fresh all-zero buffers of 2N entries and the predicted activity vector. The mode-1 call gets the tracker's two buffers and activity vector. The snapshot is of the corrected state and activity vector, with the tracker's left measurements |
| Node.Localization.UpdateAddsNoAck | src/localization.cpp:360-446 | `update` adds no acknowledgment to any trace |
| Node.Localization.JoystickCb | src/localization.cpp:220-294 | The reference command and the two flags move exactly as `Reference.OnJoystick` says, with the member `pose` and its yaw |
| Node.Localization.PositionReferenceCb | src/localization.cpp:322-358 | The reference command moves as `Reference.OnIncrement`, with the heading being the camera-to-world yaw plus 1.57 |
| Node.Localization.IncrementHeading | src/localization.cpp:326-328 | The heading, cos and sin of the yaw plus 1.57, lies on the unit circle whenever the given cos and sin satisfy cos² + sin² = 1, which the constructor demands and `Valid()` keeps |
| Node.Localization.IncrementKeepsSpeed | src/localization.cpp:326-340 | An accepted increment commands a world-frame velocity with the increment's height rate, yaw rate and horizontal speed: the node's heading is a pure rotation |
| Node.Localization.DynamicReconfigureCb | src/localization.cpp:296-320 | The configuration becomes `Params.Reconfigure` of the old one, written field by field as the callback writes it |
| Schedule.CRem | src/localization.cpp:388 | The C++ `%` on `int`: the result has the sign of the dividend and is smaller in magnitude than the divisor |
| Schedule.CRemDivision | src/localization.cpp:388 | `a == (a / b) * b + a % b` for the truncating quotient, whose multiple of b has the sign of a and does not exceed it in magnitude; with CRem's bounds this fixes the value of `%` |
| Schedule.DeltaT | src/localization.cpp:176-184 | With `prev_time_` zero, Δt times the frame rate is 1. Otherwise the previous stamp plus Δt is exactly the new stamp, with no clamping |
| Schedule.TracksStep | src/localization.cpp:186-198 | Without publishing nothing moves. With publishing the counter wraps to 0 and raises the flag iff it exceeded 10, and otherwise counts up. A publishing sample never leaves the counter above 11 |
| Schedule.Step | src/localization.cpp:158-218 | A sample is swallowed iff a reset is pending and the counter is below 30, and then only the counter moves. The counter stays in [0, 30]. A processed sample sets `prev_time_` and re-arms the counter. It is predict-only iff tracking is not due, and tracked iff tracking is due and both images are usable. `vio_cnt` advances on exactly those two paths |
| Schedule.Run | src/localization.cpp:158-218 | One path per sample, in arrival order. The reset flag is kept. The counter stays in [0, 30] |
| Schedule.DrainSuppresses | src/localization.cpp:161-167 | While a reset is pending, the samples that bring the counter up to 30 are all swallowed and change nothing but the counter |
| Schedule.DrainCycle | src/localization.cpp:161-171 | From a fresh reset, exactly 30 samples are swallowed, the 31st is processed from the untouched state, and the counter is 0 after it |
| Schedule.DrainPeriodic | src/localization.cpp:161-171 | With the flag set, starting from counter k, sample i is processed iff (i + k) mod 31 = 30. The drain repeats for ever |
| Schedule.SubsampleSchedule | src/localization.cpp:388-445 | With no reset and usable images, sample i is tracked iff (`vio_cnt` + i) % `vision_subsample` = 0 and predict-only otherwise. `vio_cnt` counts every sample |
| Schedule.SubsampleByFour | src/localization.cpp:388 | With `vision_subsample` = 4, samples 0, 4 and 8 of nine are tracked |
| Schedule.FirstProcessedIsDue | src/localization.cpp:161-167 | From a state in which tracking is due, the first sample of any stream that gets through the drain gate attempts tracking: it is tracked or aborted, never predict-only |
| Schedule.AbortRetries | src/localization.cpp:392-406 | After an aborted tracked sample, however many samples the drain swallows next, the first one processed attempts tracking again |
| Schedule.TwoSampleDeltaT | src/localization.cpp:177-184 | The first sample gets 1 / fps. The second gets the stamp difference, or 1 / fps again if the first stamp was zero |
| Schedule.MaxClicksRun | src/localization.cpp:213-214 | `max_clicks_` never decreases and bounds the ticks of every processed sample. It is its start value or the ticks of some processed sample |
| Schedule.TracksRun | src/localization.cpp:186-198 | n publishing samples give one debug flag each |
| Schedule.TracksPeriodic | src/localization.cpp:186-198 | From a counter value k in [0, 11], the debug flag rises on publishing sample i iff (i + k) mod 12 = 11 |
| Params.Reconfigure | src/localization.cpp:298-318 | All nine gains are written; both image-noise entries get `im_noise`; `qv` ends as the gyro noise; `qwo` and `sigmaInit` are written; `max_ekf_iterations` and `fixed_feature` are written, nothing else of the VIO parameters; `show_camera_image_` is written |
| Params.ReconfigureLastWins | src/localization.cpp:298-318 | Two reconfigurations in a row equal the second alone |
| Params.ReconfigureKeepsSizing | src/localization.cpp:298-318 | Reconfiguration never changes the anchor counts that size the buffers, nor `qw`, `qao` or `qR_ci` |
| Params.TruncateToInt | src/localization.cpp:105 | The double-to-int conversion truncates toward zero |
| Params.VisPublishDelay | src/localization.cpp:100-106 | The delay is never zero. It is 1 iff the quotient lies in (-1, 2). For a nonnegative quotient it is its floor, with the floor 0 replaced by 1. A quotient at or below -1 stays negative |
| Params.VisPublishDelayExamples | src/localization.cpp:100-106 | The default configuration gives 60, and a negative publish frequency gives -60 |
| Params.StartupSizing | src/localization.cpp:142-144 | The sizing exists iff the anchor product is nonnegative. `num_points_` is that product, and `update_vec_` holds that many zeros |
| Params.ZeroImage | src/localization.cpp:122 | `cv::Mat::zeros` has the given dimensions and only zero pixels |
| Params.DarkCurrent | src/localization.cpp:108-137 | The loaded image is kept iff it exists and has the configured dimensions. Otherwise it is replaced by an all-zero image of the configured resolution |
| Estimator.GetImuData | src/localization.cpp:448-457 | The conversion scales the accelerometer by 9.81 and flips the signs of the y and z accelerometer axes and of the y gyroscope axis; ImuOf undoes it exactly, so no reading is lost |
| Estimator.GetImuDataOnto | src/localization.cpp:448-457 | Every estimator measurement is the conversion of some IMU reading |
| Reference.OnJoystick | src/localization.cpp:220-294 | Button 0 with no reset pending sets the flag, zeroes the velocity and position[0..2], and sets position[3] to the home yaw. Otherwise button 2 sets `change_reference` and snaps the position to the pose with yaw + 1.57 and the velocity to zero. Otherwise button 3 only sets `change_reference`. No button leaves the state unchanged. Neither flag is ever cleared |
| Reference.ResetWhilePendingFallsThrough | src/localization.cpp:222 | With a reset pending, button 0 is ignored |
| Reference.RotateZIsRotation | src/localization.cpp:327-330 | The increment's rotation keeps the height and the horizontal length |
| Reference.OnIncrement | src/localization.cpp:322-340 | Without `change_reference` nothing moves. Otherwise the velocity is the rotated increment, unscaled, and the position advances by 0.1 of it. The flags are untouched |
| Reference.IncrementsIntegrate | src/localization.cpp:332-340 | Over any stream of increments, the position moves by 0.1 times the sum of the rates, and the velocity is the last rate |
| Reference.ZeroIncrementsHold | src/localization.cpp:332-340 | Zero increments never move the position. With `change_reference` set they leave the velocity exactly zero |
| Reference.FlagsStayRaised | src/localization.cpp:220-358 | Through any sequence of joystick and increment events, a raised `change_reference` or reset flag stays raised |
| Visualization.Snapshot | src/localization.cpp:484-536 | The `vio_vis` message: `num_anchors` anchor poses, 3N map coordinates, N statuses, 2N track entries, three gyro and three accelerometer biases, and the left image |
| Visualization.SnapshotAligned | src/localization.cpp:484-536 | The snapshot holds the robot pose and `num_anchors` anchor poses in order. It has 3N map coordinates, N statuses equal to the activity vector, and 2N track entries. Entries 2i and 2i+1 are the left pixel pair if slot i is active (flag 1) and (-100, -100) otherwise. The left image and both 3-vector biases are copied |

## Left out

- ROS plumbing is not modelled: subscriptions, advertisements, the 0.5 s sleep, the reset message on `/vio_vis/reset`, and parameter loading with `nh_.param`. The values the constructor reads become constructor arguments.
- Parameter loading contains a slip at line 77: the parameter `control/Kp_z` is stored into `Kp_xy`, so `Kp_z` keeps its zero initial value until the reconfigure server's first call overwrites all gains. Parameter loading is not modelled, so the controller gains are a constructor argument.
- YAML calibration loading and `cv::imread` are left out, because they are file I/O. The loaded dark-current images are inputs. Only the fallback decision and the zero image are modelled.
- Image decoding with `cv_bridge::toCvCopy` is a function given to the class. A conversion exception is `None`.
- Wall-clock and CPU timing and all logging are left out, because they are clocks and output. The tick count of one callback is an input of `Duo3dCb`.
- `getViconPosition` is not modelled, because it is a tf listener lookup whose results no modelled code reads.
- The `ref_viz` message construction and the trigonometry behind it are left out: both publishes of it are commented out.
- The trigonometry is left out: `tf::getYaw`, `getRPY` of a matrix, `cos`, `sin` and the yaw of a default-constructed quaternion. These are functions given to the class, or the input `homeYaw`. Of `cos` and `sin` the model knows only that cos² + sin² = 1 at every angle, which the constructor requires.
- Concurrency between the callbacks is left out. Each callback is one atomic method on the same object.
- The destructor, the `emx` array allocation calls and `SLAM_initialize`/`SLAM_terminate` are left out, because they are memory management and foreign calls.
- The members `received_IMU_data`, `vicon_pos` and `vicon_quaternion` are left out, because no modelled code reads them.
- The `delayedStatus` and `u_out` buffers are left out, because the node never reads them.
- The bodies of `SLAM` and `handle_points_klt` are left out, because they are the external estimator and tracker. Each is a function given to the class. Its buffer-size contract (`Estimator.SlamKeepsShape`, `Estimator.KltKeepsShape`) is a precondition of the constructor.
- Floating point is not modelled. Every `double` is an exact `real`, the image time stamps are seconds as `real`, and the `float` cast in the destructor's printout is outside the model.
- Node.Localization.constructor: requires a nonzero `fps_duo`, `vision_subsample` and `debug_publish_freq`, nonnegative image dimensions and a nonnegative anchor product. The source divides by the first three without a check; `%` by zero and an out-of-range conversion are undefined behaviour in C++. A negative dimension or product makes the allocation throw.
- Node.Localization.ProcessSample: the per-sample counters are unbounded integers. These are `vio_cnt`, `clear_queue_counter`, `display_tracks_cnt` and the tick difference stored in `max_clicks_`. The 32-bit wrap-around of `vio_cnt` after 2^31 samples is not modelled.
- Params.StartupSizing: the `int` overflow of a huge anchor product is not modelled.
- Node.Localization.TrackAndCorrect: assumes that the SLAM calls never write the measurement buffers. The source passes the addresses of `z_all_l` and `z_all_r` to both SLAM calls (lines 374-375 and 424-425). The tracker reads them after the mode-0 prediction (line 415), and the snapshot reads `z_all_l` after the mode-1 call (line 440). The model gives the tracker fresh zero buffers and the snapshot the tracker's output. The estimator's code is not part of this model.
- The estimator `slam` is a function of the arguments of one call. Any state the estimator keeps inside itself between calls, which `SLAM_initialize()` and `SLAM_terminate()` (lines 31 and 153) suggest, is not modelled.
- The tracker `klt` (`handle_points_klt`) is a function of the arguments of one call too. Line 415 hands it only the current image pair, the zero-filled buffers of lines 362-363 and `update_vec_`, so the previous frame and the feature positions it tracks from must live inside the tracker; that state is not modelled.
- Node.Localization.JoystickCb: requires at least four buttons. The source reads `buttons[2]` and `buttons[3]` only when the earlier branches fail, so a shorter message that takes an earlier branch is well defined in C++ and is not covered.
- Node.Localization.constructor: the reconfigure server registers the callback at line 140 and, as a library behaviour, calls it once with the initial request; the model applies `Params.Reconfigure` of that request, an argument, to the loaded values. Any later, server-initiated call is a call of `DynamicReconfigureCb`.
- Node.Localization.Duo3dCb: the acknowledgment of a processed sample is recorded after `update`'s events, as line 216 publishes it. The members `pose` and `camera2world` are never written by any code of this node, so they stay as the constructor set them.
