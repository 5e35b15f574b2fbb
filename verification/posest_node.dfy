/**
 * The PX4_posest node without its ROS wiring: a class whose callbacks
 * overwrite its buffers and stamps in place and whose timer method selects,
 * gates and publishes. Each method is proved to follow the matching pure
 * function of PosestSpec.
 */
module PosestNode {
  import opened RosMsgs
  import opened PosestPolicy
  import opened PosestSpec

  class Posest {
    // Configuration, fixed at construction.
    const sensorType: int
    const isPub: bool
    const gates: Gates
    /** The feeds this node subscribed to. */
    const subscribed: set<Feed>
    /** Whether the 50 Hz publish timer was created. */
    const hasTimer: bool

    // Feed buffers and arrival stamps, written by the callbacks.
    var mocapPose: PoseStamped
    var odomPose: PoseStamped
    var odomRcv: Odometry
    var ekfPose: PoseStamped
    var odomRcvStamp: Time
    var ekfRcvStamp: Time

    // Output of the timer callback.
    var visionPose: PoseStamped
    var isPrint: bool

    /** The abstract value of the mutable part of the node. */
    function State(): NodeState
      reads this
    {
      NodeState(mocapPose, odomPose, odomRcv, ekfPose, visionPose, odomRcvStamp, ekfRcvStamp, isPrint)
    }

    function Cfg(): Config
    {
      Config(sensorType, isPub)
    }

    constructor (cfg: Config, gates: Gates)
      ensures sensorType == cfg.sensorType && isPub == cfg.isPub && this.gates == gates
      ensures subscribed == Subscriptions(cfg.sensorType)
      ensures hasTimer == HasTimer(cfg) && Cfg() == cfg
      ensures odomRcvStamp == 0 && ekfRcvStamp == 0 && !isPrint
      ensures State() == Initial()
    {
      sensorType := cfg.sensorType;
      isPub := cfg.isPub;
      this.gates := gates;
      subscribed := Subscriptions(cfg.sensorType);
      hasTimer := cfg.isPub && cfg.sensorType != VIO;
      mocapPose := ZeroPoseStamped;
      odomPose := ZeroPoseStamped;
      odomRcv := ZeroOdometry;
      ekfPose := ZeroPoseStamped;
      visionPose := ZeroPoseStamped;
      odomRcvStamp := 0;
      ekfRcvStamp := 0;
      isPrint := false;
    }

    /** `mocap_cb`, handled at time `now`. */
    method MocapCb(msg: PoseStamped, now: Time)
      modifies this
      ensures mocapPose == msg && odomRcvStamp == now
      ensures odomPose == old(odomPose) && odomRcv == old(odomRcv) && ekfPose == old(ekfPose)
      ensures ekfRcvStamp == old(ekfRcvStamp) && visionPose == old(visionPose) && isPrint == old(isPrint)
      ensures State() == AfterMocap(old(State()), msg, now)
    {
      mocapPose := msg;
      odomRcvStamp := now;
    }

    /** `odom_cb`, handled at time `now`. */
    method OdomCb(msg: Odometry, now: Time)
      modifies this
      ensures odomRcv == msg && odomPose == PoseStamped(msg.header, msg.pose.pose) && odomRcvStamp == now
      ensures mocapPose == old(mocapPose) && ekfPose == old(ekfPose) && ekfRcvStamp == old(ekfRcvStamp)
      ensures visionPose == old(visionPose) && isPrint == old(isPrint)
      ensures State() == AfterOdom(old(State()), msg, now)
    {
      odomRcv := msg;
      odomPose := odomPose.(header := msg.header);
      odomPose := odomPose.(pose := msg.pose.pose);
      odomRcvStamp := now;
    }

    /** `ekf_cb`, handled at time `now`. */
    method EkfCb(msg: Odometry, now: Time)
      modifies this
      ensures ekfPose == PoseStamped(msg.header, msg.pose.pose) && ekfRcvStamp == now
      ensures mocapPose == old(mocapPose) && odomPose == old(odomPose) && odomRcv == old(odomRcv)
      ensures odomRcvStamp == old(odomRcvStamp) && visionPose == old(visionPose) && isPrint == old(isPrint)
      ensures State() == AfterEkf(old(State()), msg, now)
    {
      ekfPose := ekfPose.(header := msg.header);
      ekfPose := ekfPose.(pose := msg.pose.pose);
      ekfRcvStamp := now;
    }

    /**
     * `timercb_pub_vision_pose` at time `now`: copy the selected buffer into
     * `vision_pose`, run the three gate stages in order, and either publish
     * the pose re-stamped with `now` or suppress with the first failing reason.
     */
    method TimerPubVisionPose(now: Time) returns (outcome: Outcome, sent: Option<PoseStamped>)
      modifies this
      ensures var r := AfterTick(Cfg(), gates, old(State()), now);
        State() == r.state && outcome == r.outcome && sent == r.sent
      ensures sent.Some? <==> outcome == Published
      ensures isPrint <==> outcome == Published
      ensures sent.Some? ==>
        SameApartFromStamp(sent.value, Candidate(sensorType, old(State()))) && sent.value.header.stamp == now
      ensures outcome != Published ==> visionPose == Candidate(sensorType, old(State()))
      ensures mocapPose == old(mocapPose) && odomPose == old(odomPose) && odomRcv == old(odomRcv)
      ensures ekfPose == old(ekfPose) && odomRcvStamp == old(odomRcvStamp) && ekfRcvStamp == old(ekfRcvStamp)
    {
      if sensorType == MOCAP || sensorType == MOCAP_EKF {
        visionPose := mocapPose;
      } else if sensorType == LIO {
        visionPose := odomPose;
      } else if sensorType == LIO_EKF || sensorType == VINS_EKF {
        visionPose := ekfPose;
      }

      if !gates.odomIsReceived(State(), now) {
        isPrint := false;
        outcome, sent := NoOdom, None;
      } else if !gates.odomIsGood(State(), odomRcv) {
        isPrint := false;
        outcome, sent := WrongOdom, None;
      } else if !gates.ekfIsReceived(State(), now) &&
                (sensorType == LIO_EKF || sensorType == VINS_EKF || sensorType == MOCAP_EKF) {
        isPrint := false;
        outcome, sent := NoEkf, None;
      } else {
        isPrint := true;
        visionPose := visionPose.(header := visionPose.header.(stamp := now));
        outcome, sent := Published, Some(visionPose);
      }
    }
  }
}
