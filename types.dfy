/**
 * The provider-specific spec and status records of the Packet provider
 * (package v1alpha1), and the device state codec `StringToState`.
 */
module Types {

  /** A device lifecycle state. Like Go's `type State string`, any string is a State value. */
  type State = string

  const StateActive: State := "active"
  const StateInactive: State := "inactive"
  const StateQueued: State := "queued"
  const StateProvisioning: State := "provisioning"
  const StateUnknown: State := ""

  /** The five declared State constants. */
  predicate IsDeclaredState(s: string) {
    s == StateActive || s == StateInactive || s == StateQueued || s == StateProvisioning || s == StateUnknown
  }

  /**
   * Maps a device state string reported by Packet to a State: the four named
   * states map to themselves, everything else to StateUnknown.
   */
  function StringToState(state: string): (r: State)
    ensures IsDeclaredState(r)
    ensures r == state <==> IsDeclaredState(state)
    ensures r != state ==> r == StateUnknown
  {
    match state
    case "active" => StateActive
    case "inactive" => StateInactive
    case "queued" => StateQueued
    case "provisioning" => StateProvisioning
    case _ => StateUnknown
  }

  /** Every declared constant is a fixed point of StringToState. */
  lemma StringToStateOnConstants(s: State)
    requires IsDeclaredState(s)
    ensures StringToState(s) == s
  {
  }

  /** Feeding StringToState's output back in changes nothing. */
  lemma StringToStateIdempotent(s: string)
    ensures StringToState(StringToState(s)) == StringToState(s)
  {
  }

  /** The machine provider spec (PacketMachineProviderSpec). */
  datatype MachineSpec = MachineSpec(
    projectID: string,
    facility: string,
    plan: string,
    hostname: string,
    os: string,
    billingCycle: string,
    userData: string)

  /** One network address of a device (IPAddress). */
  datatype IPAddress = IPAddress(
    id: string,
    address: string,
    gateway: string,
    network: string,
    addressFamily: int,
    netmask: string,
    public: bool)

  /** The machine provider status (PacketMachineProviderStatus). */
  datatype MachineStatus = MachineStatus(
    ready: bool,
    id: string,
    state: State,
    ipAddresses: seq<IPAddress>)

  /** The cluster provider spec (PacketClusterProviderSpec). */
  datatype ClusterSpec = ClusterSpec(
    project: string,
    facility: string,
    plan: string,
    billingCycle: string,
    secretRef: string)

  /** The cluster provider status (PacketClusterProviderStatus). */
  datatype ClusterStatus = ClusterStatus(projectID: string)

  // Go zero values of the four records.
  const ZeroMachineSpec := MachineSpec("", "", "", "", "", "", "")
  const ZeroIPAddress := IPAddress("", "", "", "", 0, "", false)
  const ZeroMachineStatus := MachineStatus(false, "", StateUnknown, [])
  const ZeroClusterSpec := ClusterSpec("", "", "", "", "")
  const ZeroClusterStatus := ClusterStatus("")

  /**
   * The zero machine status: not ready, no device ID, no addresses, and its state
   * is the unknown state, which StringToState also gives for any unrecognised string.
   */
  lemma ZeroMachineStatusIsUnknown()
    ensures !ZeroMachineStatus.ready && ZeroMachineStatus.id == "" && ZeroMachineStatus.ipAddresses == []
    ensures ZeroMachineStatus.state == StateUnknown == StringToState("")
    ensures ZeroMachineStatus.state == StringToState("deleted")
  {
  }
}
