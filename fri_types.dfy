/**
 * The FRI enumerations as the Python binding registers them. The binding is
 * built against one FRI SDK major version; the command-mode enumeration
 * differs between version 1 and version 2, and the redundancy-strategy
 * enumeration is registered only for version 2.
 */
module FriTypes {
  import opened Wrappers

  datatype FriVersion = Version1 | Version2

  /** The five-state FRI session lifecycle. */
  datatype SessionState = Idle | MonitoringWait | MonitoringReady | CommandingWait | CommandingActive

  /** ERedundancyStrategy, which exists only in version 2 of the SDK. */
  datatype RedundancyStrategy = E1 | NoStrategy

  /** Every command mode of either SDK version; which ones are registered depends on the version. */
  datatype ClientCommandMode = NoCommandMode | Wrench | Torque | Position | JointPosition | CartesianPose

  // ---------------------------------------------------------------------
  // ESessionState
  // ---------------------------------------------------------------------

  function SessionStateName(s: SessionState): string {
    match s
    case Idle => "IDLE"
    case MonitoringWait => "MONITORING_WAIT"
    case MonitoringReady => "MONITORING_READY"
    case CommandingWait => "COMMANDING_WAIT"
    case CommandingActive => "COMMANDING_ACTIVE"
  }

  /** The members of ESessionState, in registration order. */
  function SessionStateMembers(): seq<SessionState> {
    [Idle, MonitoringWait, MonitoringReady, CommandingWait, CommandingActive]
  }

  /** `ESessionState.<name>`: the member registered under `name`, if any. */
  function SessionStateNamed(name: string): Option<SessionState> {
    if name == "IDLE" then Some(Idle)
    else if name == "MONITORING_WAIT" then Some(MonitoringWait)
    else if name == "MONITORING_READY" then Some(MonitoringReady)
    else if name == "COMMANDING_WAIT" then Some(CommandingWait)
    else if name == "COMMANDING_ACTIVE" then Some(CommandingActive)
    else None
  }

  /**
   * ESessionState has exactly five members, each registered once, and a
   * name leads to a member exactly when it is that member's name.
   */
  lemma SessionStateRegistration(s: SessionState, name: string)
    ensures |SessionStateMembers()| == 5 && s in SessionStateMembers()
    ensures forall i, j :: 0 <= i < j < 5 ==> SessionStateMembers()[i] != SessionStateMembers()[j]
    ensures SessionStateNamed(name) == Some(s) <==> SessionStateName(s) == name
  {
    match s
    case Idle =>
    case MonitoringWait =>
    case MonitoringReady =>
    case CommandingWait =>
    case CommandingActive =>
  }

  // ---------------------------------------------------------------------
  // EClientCommandMode
  // ---------------------------------------------------------------------

  function ClientCommandModeName(m: ClientCommandMode): string {
    match m
    case NoCommandMode => "NO_COMMAND_MODE"
    case Wrench => "WRENCH"
    case Torque => "TORQUE"
    case Position => "POSITION"
    case JointPosition => "JOINT_POSITION"
    case CartesianPose => "CARTESIAN_POSE"
  }

  /** The members of EClientCommandMode registered for an SDK version, in registration order. */
  function ClientCommandModeMembers(v: FriVersion): (members: seq<ClientCommandMode>)
    ensures |members| == if v == Version1 then 4 else 5
    ensures forall i, j :: 0 <= i < j < |members| ==> members[i] != members[j]
  {
    match v
    case Version1 => [NoCommandMode, Wrench, Torque, Position]
    case Version2 => [NoCommandMode, Wrench, Torque, JointPosition, CartesianPose]
  }

  /** `EClientCommandMode.<name>` in a binding built for version `v`. */
  function ClientCommandModeNamed(v: FriVersion, name: string): Option<ClientCommandMode> {
    if name == "NO_COMMAND_MODE" then Some(NoCommandMode)
    else if name == "WRENCH" then Some(Wrench)
    else if name == "TORQUE" then Some(Torque)
    else if name == "POSITION" && v == Version1 then Some(Position)
    else if name == "JOINT_POSITION" && v == Version2 then Some(JointPosition)
    else if name == "CARTESIAN_POSE" && v == Version2 then Some(CartesianPose)
    else None
  }

  /**
   * A command mode is reachable by its name exactly when it is registered
   * for the version: POSITION only under version 1, JOINT_POSITION and
   * CARTESIAN_POSE only under version 2, the other three under both.
   */
  lemma ClientCommandModeRegistration(v: FriVersion, m: ClientCommandMode)
    ensures ClientCommandModeNamed(v, ClientCommandModeName(m)) == (if m in ClientCommandModeMembers(v) then Some(m) else None)
    ensures m == Position ==> (m in ClientCommandModeMembers(v) <==> v == Version1)
    ensures m == JointPosition || m == CartesianPose ==> (m in ClientCommandModeMembers(v) <==> v == Version2)
    ensures m == NoCommandMode || m == Wrench || m == Torque ==> m in ClientCommandModeMembers(v)
  {
    match m
    case NoCommandMode =>
    case Wrench =>
    case Torque =>
    case Position =>
    case JointPosition =>
    case CartesianPose =>
  }

  // ---------------------------------------------------------------------
  // ERedundancyStrategy
  // ---------------------------------------------------------------------

  function RedundancyStrategyName(s: RedundancyStrategy): string {
    match s
    case E1 => "E1"
    case NoStrategy => "NO_STRATEGY"
  }

  /** The members of ERedundancyStrategy registered for an SDK version: none at all under version 1. */
  function RedundancyStrategyMembers(v: FriVersion): seq<RedundancyStrategy> {
    if v == Version2 then [E1, NoStrategy] else []
  }

  /** `ERedundancyStrategy.<name>` in a binding built for version `v`; under version 1 the enumeration is absent. */
  function RedundancyStrategyNamed(v: FriVersion, name: string): Option<RedundancyStrategy> {
    if v != Version2 then None
    else if name == "E1" then Some(E1)
    else if name == "NO_STRATEGY" then Some(NoStrategy)
    else None
  }

  /**
   * ERedundancyStrategy is registered only under version 2, with two
   * distinct members, and there a member is found by its name.
   */
  lemma RedundancyStrategyRegistration(v: FriVersion, s: RedundancyStrategy)
    ensures s in RedundancyStrategyMembers(v) <==> v == Version2
    ensures v == Version2 ==> |RedundancyStrategyMembers(v)| == 2 && E1 != NoStrategy
    ensures RedundancyStrategyNamed(v, RedundancyStrategyName(s)) == (if v == Version2 then Some(s) else None)
  {
    match s
    case E1 =>
    case NoStrategy =>
  }
}
