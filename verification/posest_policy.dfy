/**
 * The static per-mode policy of the PX4 pose estimator: which feeds a
 * `sensor_type` subscribes to, whether the publish timer exists, which
 * buffer a tick forwards, and the ordered three-stage publish gate.
 *
 * `sensor_type` is an integer parameter; the six named modes are the
 * constants below. Any other integer is accepted by the node and then
 * matches none of its branches.
 */
module PosestPolicy {

  const MOCAP: int := 0
  const VIO: int := 1
  const LIO: int := 2
  const LIO_EKF: int := 3
  const VINS_EKF: int := 4
  const MOCAP_EKF: int := 5

  /** The three input feeds, named after the buffer each one fills. */
  datatype Feed = Mocap | Odom | Ekf

  /** What one tick of the publish timer does: publish, or one specific suppression reason. */
  datatype Outcome = Published | NoOdom | WrongOdom | NoEkf

  datatype Option<T> = None | Some(value: T)

  /** Node configuration, read once from the parameter server at construction. */
  datatype Config = Config(sensorType: int, isPub: bool)

  /** `nh.param` with its defaults: `sensor_type` defaults to MOCAP, `is_pub` to false. */
  function ConfigFromParams(sensorType: Option<int>, isPub: Option<bool>): (cfg: Config)
    ensures sensorType.Some? ==> cfg.sensorType == sensorType.value
    ensures sensorType.None? ==> cfg.sensorType == MOCAP
    ensures cfg.isPub <==> isPub == Some(true)
  {
    Config(
      if sensorType.Some? then sensorType.value else MOCAP,
      if isPub.Some? then isPub.value else false)
  }

  /** The modes that also run the secondary EKF feed and gate on it. */
  predicate IsEkfMode(t: int)
  {
    t == LIO_EKF || t == VINS_EKF || t == MOCAP_EKF
  }

  /** The feeds the constructor subscribes to for `sensor_type == t`. */
  function Subscriptions(t: int): (fs: set<Feed>)
    ensures Ekf in fs <==> IsEkfMode(t)
    ensures Mocap in fs <==> t == MOCAP || t == MOCAP_EKF
    ensures Odom in fs <==> VIO <= t <= VINS_EKF
    ensures !(Mocap in fs && Odom in fs)
    ensures fs == {} <==> t < MOCAP || MOCAP_EKF < t
  {
    if t == MOCAP then {Mocap}
    else if t == VIO then {Odom}
    else if t == LIO then {Odom}
    else if t == LIO_EKF then {Odom, Ekf}
    else if t == VINS_EKF then {Odom, Ekf}
    else if t == MOCAP_EKF then {Mocap, Ekf}
    else {}
  }

  /** Whether the constructor creates the 50 Hz publish timer. */
  predicate HasTimer(cfg: Config)
  {
    cfg.isPub && cfg.sensorType != VIO
  }

  /**
   * The buffer a tick copies into `vision_pose`, or None when no branch of
   * the selection matches (VIO and integers outside the six modes).
   */
  function SelectedFeed(t: int): (f: Option<Feed>)
    ensures f.Some? ==> f.value in Subscriptions(t)
    ensures f.Some? <==> Subscriptions(t) != {} && t != VIO
    ensures f == Some(Ekf) <==> IsEkfMode(t) && t != MOCAP_EKF
    ensures f == Some(Mocap) <==> Mocap in Subscriptions(t)
  {
    if t == MOCAP || t == MOCAP_EKF then Some(Mocap)
    else if t == LIO then Some(Odom)
    else if t == LIO_EKF || t == VINS_EKF then Some(Ekf)
    else None
  }

  /**
   * The ordered gate of one tick: odom received, then odom good, then (only
   * in EKF modes) EKF received. The first stage that fails names the outcome.
   */
  function Decide(t: int, odomReceived: bool, odomGood: bool, ekfReceived: bool): (o: Outcome)
    ensures o == Published <==> odomReceived && odomGood && (ekfReceived || !IsEkfMode(t))
    ensures o == NoOdom <==> !odomReceived
    ensures o == WrongOdom <==> odomReceived && !odomGood
    ensures o == NoEkf <==> odomReceived && odomGood && !ekfReceived && IsEkfMode(t)
  {
    if !odomReceived then NoOdom
    else if !odomGood then WrongOdom
    else if !ekfReceived && IsEkfMode(t) then NoEkf
    else Published
  }

  /** The line a tick writes to the console, if any. */
  function LogLine(o: Outcome): (line: Option<string>)
    ensures line.None? <==> o == Published
  {
    match o
    case NoOdom => Some("NO odom! Stop publishing!")
    case WrongOdom => Some("WRONG odom! Stop publishing!")
    case NoEkf => Some("NO EKF! Stop publishing!")
    case Published => None
  }

  /** The three suppression reasons print three different lines, so the log tells them apart. */
  lemma LogLinesDistinct(o1: Outcome, o2: Outcome)
    ensures LogLine(o1) == LogLine(o2) ==> o1 == o2
  {
  }

  /** One gate stage: whether it passes, and the outcome it names when it does not. */
  datatype Stage = Stage(passes: bool, failure: Outcome)

  /** Reference reading of an ordered gate: the failure of the first failing stage, else Published. */
  function FirstFailure(stages: seq<Stage>): Outcome
  {
    if stages == [] then Published
    else if !stages[0].passes then stages[0].failure
    else FirstFailure(stages[1..])
  }

  /** The three stages of a tick's gate in the order the code tests them. */
  function GateStages(t: int, odomReceived: bool, odomGood: bool, ekfReceived: bool): seq<Stage>
  {
    [Stage(odomReceived, NoOdom), Stage(odomGood, WrongOdom), Stage(ekfReceived || !IsEkfMode(t), NoEkf)]
  }

  /** The if/else chain of a tick is exactly "first failing stage wins". */
  lemma DecideIsFirstFailure(t: int, odomReceived: bool, odomGood: bool, ekfReceived: bool)
    ensures Decide(t, odomReceived, odomGood, ekfReceived)
         == FirstFailure(GateStages(t, odomReceived, odomGood, ekfReceived))
  {
    var stages := GateStages(t, odomReceived, odomGood, ekfReceived);
    assert stages[1..][1..][1..] == [];
    assert FirstFailure(stages[1..][1..]) == if ekfReceived || !IsEkfMode(t) then Published else NoEkf;
    assert FirstFailure(stages[1..]) == if odomGood then FirstFailure(stages[1..][1..]) else WrongOdom;
  }

  /**
   * Outside the three EKF modes (MOCAP, VIO, LIO and every out-of-range
   * integer), the EKF check never changes a tick's outcome.
   */
  lemma EkfCheckInertOutsideEkfModes(t: int, odomReceived: bool, odomGood: bool)
    requires !IsEkfMode(t)
    ensures Decide(t, odomReceived, odomGood, false) == Decide(t, odomReceived, odomGood, true)
    ensures Decide(t, odomReceived, odomGood, false) != NoEkf
  {
  }

  /** Whenever the timer exists for one of the six modes, a tick has a buffer to forward. */
  lemma TimedModesSelectABuffer(cfg: Config)
    requires HasTimer(cfg) && MOCAP <= cfg.sensorType <= MOCAP_EKF
    ensures SelectedFeed(cfg.sensorType).Some?
  {
  }
}
