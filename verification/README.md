# PX4 pose estimator: source arbitration and publish gating

This project models the `PX4_posest` ROS node of PX4_Nokov, without its ROS
plumbing. The node forwards one external pose estimate to the PX4 flight
controller (`mavros/vision_pose/pose`). Its `sensor_type` parameter picks one
of six modes: MOCAP, VIO, LIO, LIO_EKF, VINS_EKF or MOCAP_EKF. It keeps one
buffer per input feed: the motion-capture pose, the lidar/visual odometry and
the IMU EKF odometry. A 50 Hz timer copies the buffer that belongs to the mode
into `vision_pose`. The timer then runs three checks in order: is odometry
fresh, is odometry good, and, in the EKF modes only, is the EKF fresh. If all
pass, it publishes the pose re-stamped with the tick time. Otherwise it
suppresses the tick, logs the first failing check, and clears `is_print`.

Layout:

- `ros_msgs.dfy`, module `RosMsgs`: the ROS message values the node copies.
  These are `PoseStamped`, `Odometry` and their parts. Times are natural
  numbers, and `Restamp` overwrites `header.stamp`.
- `posest_policy.dfy`, module `PosestPolicy`: the static per-mode tables.
  - which feeds the constructor subscribes to;
  - whether the publish timer exists;
  - which buffer a tick forwards;
  - the ordered gate `Decide` and its log lines;
  - a reference reading of the gate, "first failing stage wins".
- `posest_spec.dfy`, module `PosestSpec`: the node state as a value.
  - Each callback and the tick are pure transitions on it.
  - `Deliver` and `Run` replay a trace of events the way the constructor
    wires them: messages on feeds the mode never subscribed to are dropped,
    and timer firings are dropped if no timer was created.
  - Lemmas about whole traces.
- `posest_node.dfy`, module `PosestNode`: class `Posest`, with the source's
  fields and mutating methods. Each method is proved to follow the matching
  transition of `PosestSpec`.

Notes on the code as written, which the model follows:

- `sensor_type` is an integer parameter. An integer outside 0..5 subscribes to
  nothing, yet it still creates the timer when `is_pub` is set. Its ticks then
  leave `vision_pose` as it was and gate it like any other mode.
- `mocap_cb` refreshes `odom_rcv_stamp`, the stamp that the "odom received"
  check reads. The "odom good" check is handed `odom_rcv`, which only
  `odom_cb` writes. In the two mocap modes there is no odometry subscription,
  so that check always sees the default message
  (`MocapModesNeverWriteOdomRcv`).
- Only the odometry message is quality-checked. The EKF feed is only checked
  for freshness. `ekf_is_received` is called on every tick that passes the two
  odometry checks, in every mode, before the mode test; its result only
  matters in the three EKF modes.
- The gates are evaluated after `vision_pose` has been overwritten by the
  selected buffer, so they see that state.
- On suppression `vision_pose` still holds the freshly selected buffer, with
  its original stamp.

The three gate helpers `odom_is_received`, `odom_is_good` and
`ekf_is_received` are declared in `px4_posest.h`, and px4_posest.h is not part
of this model. They are modelled as arbitrary functions held in a `Gates`
value that is fixed at construction. Every property below holds for every
choice of these functions of the core state, the tick time and the handed
message.

## Model

| member | source | states |
|---|---|---|
| `PosestPolicy.ConfigFromParams` | src/px4_posest.cpp:6-7 | A missing `sensor_type` defaults to MOCAP. `is_pub` is true only when it is explicitly set to true. |
| `PosestPolicy.Subscriptions` | src/px4_posest.cpp:9-56 | The EKF feed is subscribed exactly in the three EKF modes. Mocap is subscribed exactly in MOCAP and MOCAP_EKF, and odometry exactly in modes VIO..VINS_EKF. Mocap and odometry are never both subscribed. An out-of-range mode subscribes to nothing. |
| `PosestPolicy.SelectedFeed` | src/px4_posest.cpp:90-103 | A tick forwards at most one buffer, and always one the mode subscribes to. There is one in every in-range mode except VIO. It is the EKF buffer exactly in LIO_EKF and VINS_EKF, and the mocap buffer exactly when mocap is subscribed. |
| `PosestPolicy.Decide` | src/px4_posest.cpp:105-128 | Publish iff odom received, odom good, and either EKF received or the mode is not an EKF mode. "NO odom" iff odom not received. "WRONG odom" iff received but not good. "NO EKF" iff both pass, the EKF is stale and the mode is an EKF mode. |
| `PosestPolicy.LogLine` | src/px4_posest.cpp:105-122 | A suppression logs a line; a publish logs nothing. |
| `PosestPolicy.LogLinesDistinct` | src/px4_posest.cpp:105-122 | The three suppression reasons log three different lines, so the log tells them apart. |
| `PosestPolicy.DecideIsFirstFailure` | src/px4_posest.cpp:105-128 | The if/else chain equals the reference reading: the outcome is the failure of the first failing stage (odom received, odom good, EKF received in an EKF mode), else publish. |
| `PosestPolicy.EkfCheckInertOutsideEkfModes` | src/px4_posest.cpp:115-118 | In MOCAP, VIO, LIO and out-of-range modes, the EKF check's result never changes the outcome and never yields "NO EKF". |
| `PosestPolicy.TimedModesSelectABuffer` | src/px4_posest.cpp:76-103 | Whenever the timer exists in one of the six modes, a tick has a buffer to forward. |
| `RosMsgs.Restamp` | src/px4_posest.cpp:126 | Re-stamping changes only `header.stamp`, which becomes the given time. |
| `PosestSpec.Initial` | src/px4_posest.cpp:81-83 | After construction both arrival stamps are time 0, `is_print` is false, and all buffers hold default messages. |
| `PosestSpec.Candidate` | src/px4_posest.cpp:90-103 | The pose a tick selects is `mocap_pose` in MOCAP and MOCAP_EKF, `odom_pose` in LIO, and `ekf_pose` in LIO_EKF and VINS_EKF. In any other mode it is the previous `vision_pose`. It is always a single buffer. |
| `PosestSpec.AfterMocap` | src/px4_posest.cpp:131-139 | `mocap_pose` becomes the message and `odom_rcv_stamp` becomes `now`. Odometry, EKF, output and `ekf_rcv_stamp` are unchanged. |
| `PosestSpec.AfterOdom` | src/px4_posest.cpp:141-151 | `odom_rcv` becomes the message, and `odom_pose` becomes its header and pose. `odom_rcv_stamp` becomes `now`. The mocap and EKF state and the output are unchanged. |
| `PosestSpec.AfterEkf` | src/px4_posest.cpp:153-162 | `ekf_pose` becomes the message's header and pose, and only `ekf_rcv_stamp` becomes `now`. Everything else is unchanged. |
| `PosestSpec.AfterTick` | src/px4_posest.cpp:88-129 | The tick publishes iff the three gates pass on the post-selection state, and the first failing gate names the suppression. `is_print` is true iff it published. A published pose equals the selected buffer in every field except the stamp, which is `now`. On suppression the new state is the post-selection state with `is_print` false, so `vision_pose` is the selected buffer with its own stamp. No buffer or stamp changes. |
| `PosestSpec.Deliver` | src/px4_posest.cpp:9-79 | Only a timer firing can publish, and only if the timer exists. A message on a feed the mode did not subscribe to changes nothing, and neither does a timer firing when no timer was created. |
| `PosestSpec.NoTimerLeavesOutputUntouched` | src/px4_posest.cpp:76-79 | Without a timer (`is_pub` false, or VIO), no trace changes `vision_pose` or `is_print`. |
| `PosestSpec.Run` | src/px4_posest.cpp:76-79 | Over any trace, at most one pose is published per timer firing. Without a timer (`is_pub` false, or VIO) nothing is ever published. |
| `PosestSpec.TicksAloneRepublishCandidate` | src/px4_posest.cpp:90-128 | Over any run of ticks with no message in between, every published pose equals the selected buffer apart from its stamp, and all buffers and stamps keep their values. |
| `PosestSpec.TwoTicksAgreeApartFromStamp` | src/px4_posest.cpp:93-127 | Two consecutive passing ticks publish poses that differ only in their stamps, and each stamp is its own tick's time. |
| `PosestSpec.SentStampsAreTickTimes` | src/px4_posest.cpp:126 | Every published pose carries the time of a timer firing in the trace as its stamp, never the stamp of the feed message. |
| `PosestSpec.MocapModesNeverWriteOdomRcv` | src/px4_posest.cpp:110-151 | In MOCAP and MOCAP_EKF, no trace changes `odom_rcv` (the message the "odom good" check inspects) or `odom_pose`. |
| `PosestSpec.NonEkfModesNeverWriteEkf` | src/px4_posest.cpp:9-56 | Outside the EKF modes, no trace changes `ekf_pose` or `ekf_rcv_stamp`. |
| `PosestSpec.PrimaryFeedRefreshesOdomStamp` | src/px4_posest.cpp:131-151 | A subscribed mocap or odometry message sets `odom_rcv_stamp` to its arrival time and leaves `ekf_rcv_stamp` alone. |
| `PosestNode.Posest.constructor` | src/px4_posest.cpp:3-84 | The subscriptions follow the mode table. A timer exists iff `is_pub` and the mode is not VIO (`HasTimer`, the condition the trace model uses). The state is `Initial()`: stamps 0 and `is_print` false. |
| `PosestNode.Posest.MocapCb` | src/px4_posest.cpp:131-139 | The fields are updated in place as `AfterMocap` says, with no other field changed. |
| `PosestNode.Posest.OdomCb` | src/px4_posest.cpp:141-151 | The fields are updated in place as `AfterOdom` says, with no other field changed. |
| `PosestNode.Posest.EkfCb` | src/px4_posest.cpp:153-162 | The fields are updated in place as `AfterEkf` says, with no other field changed. |
| `PosestNode.Posest.TimerPubVisionPose` | src/px4_posest.cpp:88-129 | The new fields, the outcome and the published pose are those of `AfterTick`. It publishes iff the outcome is publish, and `is_print` records that. The published pose is the selected buffer re-stamped with `now`. Buffers and stamps are unchanged. |

## Left out

- ROS wiring: topic names, queue sizes, transport hints and the advertiser (src/px4_posest.cpp:9-74). Only which mode subscribes to which feed, and whether the timer exists, is kept (`Subscriptions`, `HasTimer`, `Deliver`).
- The timer period (0.02 s) and real time. Ticks and messages are events in a trace, each carrying the time read from the clock. The clock is a parameter.
- A tick reads `ros::Time::now()` up to three times (src/px4_posest.cpp:105, 115, 126). The model reads it once per tick.
- The internals of `odom_is_received`, `odom_is_good` and `ekf_is_received`: px4_posest.h is not part of this model. They are arbitrary side-effect-free functions. `odom_is_good` is applied to `odom_rcv`, as in the call at line 110.
- `Gates`: the three helpers are assumed to read only the modelled core state (`NodeState`), the tick time and, for `odom_is_good`, the message handed to it. A helper that reads the diagnostic fields (`px4_pose`, `px4_vel`, `voltage`, `percentage`, `euler_*`) or other members declared in px4_posest.h is outside what the model covers.
- Quaternion-to-Euler conversion in the callbacks (`euler_mocap`, `euler_odom`, `euler_ekf`). It is a foreign-library floating-point computation. Within px4_posest.cpp its results are read only by `printf_info`.
- `get_dt` (src/px4_posest.cpp:201-207): floating-point arithmetic on ROS times. Nothing in px4_posest.cpp calls it; a caller in px4_posest.h, if any, is not part of this model.
- The diagnostic mirrors `pos_cb`, `vel_cb`, `att_cb`, `batt_cb` (src/px4_posest.cpp:164-191) and the console dump `printf_info` (src/px4_posest.cpp:209-292). The four mirrors write only diagnostic fields that are not part of the modelled state. `printf_info` reads the core buffers, `sensor_type` and `is_pub` but writes only console output. Within px4_posest.cpp none of these fields is read by the tick or the callbacks.
- The console output of a tick is modelled as its `Outcome` and the fixed line `LogLine` gives for it. The stream itself is not modelled.
- Concurrency between the callbacks and the timer. Each callback and each tick is one atomic step.
- Numeric fields are `real`s that are only copied. Floating-point representation and `uint32` header sequence numbers are not modelled.
- `src/square_node.cpp`: a fixed waypoint script of publish, sleep and service-call retry loops with no decisions beyond I/O. It is not part of this model.
