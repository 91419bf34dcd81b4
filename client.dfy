/**
 * The Packet API client of the provider: construction from a credential
 * secret, the project lookup, device creation with its request mapping, the
 * device existence test, device lookup and deletion, and the mapping of a
 * device onto the machine provider status.
 */
module PacketClient {
  import opened Wrappers
  import opened Types
  import opened Env

  /** The secret key that holds the API key. */
  const SecretKeyAPIKey := "apiKey"

  /** The billing cycle requested when the spec names none. */
  const DefaultBillingCycle := "hourly"

  /** An authenticated client; the key only authenticates requests, which the remote model does not check. */
  datatype Client = Client(apiKey: seq<bv8>)

  datatype ClientError =
    | MissingKey(key: string)        // the secret has no API key
    | NoSuchProject(project: string) // the project lookup matched nothing
    | Remote(cause: RemoteError)     // an API call failed

  /** The secret that holds a cluster's API key: named by its provider spec, in the cluster's namespace. */
  function SecretKey(cluster: Object, spec: ClusterSpec): Key {
    Key(cluster.key.namespace, spec.secretRef)
  }

  /** NewClient: a client exists exactly when the secret carries an API key. */
  function NewClient(secret: Secret): (r: Result<Client, ClientError>)
    ensures r.Ok? <==> SecretKeyAPIKey in secret.data
    ensures r.Ok? ==> r.value.apiKey == secret.data[SecretKeyAPIKey]
    ensures r.Err? ==> r.error == MissingKey(SecretKeyAPIKey)
  {
    if SecretKeyAPIKey in secret.data then Ok(Client(secret.data[SecretKeyAPIKey]))
    else Err(MissingKey(SecretKeyAPIKey))
  }

  /** The position of the first project called `name`, if any. */
  predicate IsFirstNamed(ps: seq<Project>, name: string, i: int) {
    0 <= i < |ps| && ps[i].name == name && forall j :: 0 <= j < i ==> ps[j].name != name
  }

  /** The projects called `name`, in the API's order. */
  function Named(ps: seq<Project>, name: string): seq<Project> {
    if ps == [] then []
    else (if ps[0].name == name then [ps[0]] else []) + Named(ps[1..], name)
  }

  /** Filtering by a name keeps the API's order, so its head is the first project of that name. */
  lemma {:induction false} NamedHead(ps: seq<Project>, name: string)
    ensures Named(ps, name) == [] <==> forall i :: 0 <= i < |ps| ==> ps[i].name != name
    ensures Named(ps, name) != [] ==> exists i :: IsFirstNamed(ps, name, i) && Named(ps, name)[0] == ps[i]
  {
    if ps != [] {
      NamedHead(ps[1..], name);
      if ps[0].name == name {
        assert IsFirstNamed(ps, name, 0);
      } else if Named(ps[1..], name) != [] {
        var i :| IsFirstNamed(ps[1..], name, i) && Named(ps[1..], name)[0] == ps[1..][i];
        assert IsFirstNamed(ps, name, i + 1);
      } else {
        forall i | 0 <= i < |ps|
          ensures ps[i].name != name
        {
          if i > 0 {
            assert ps[i] == ps[1..][i - 1];
          }
        }
      }
    }
  }

  /**
   * GetProjectID as written: lists the projects, passing the name as an
   * `Includes` option, and answers the ID of the first one listed; an empty
   * list is an error, as is a failed listing.
   */
  function GetProjectID(c: Client, rm: RemoteState, project: string): (r: Result<string, ClientError>)
    ensures ListProjectsApi in rm.faults ==> r == Err(Remote(rm.faults[ListProjectsApi]))
    ensures ListProjectsApi !in rm.faults ==> (r.Ok? <==> |rm.projects| > 0)
    ensures r.Ok? ==> r.value == rm.projects[0].id
    ensures r.Err? && ListProjectsApi !in rm.faults ==> r.error == NoSuchProject(project)
  {
    match ListProjects(rm, [project])
    case Err(e) => Err(Remote(e))
    case Ok(ps) => if |ps| == 0 then Err(NoSuchProject(project)) else Ok(ps[0].id)
  }

  /**
   * The lookup as evidently intended: the ID of the first listed project
   * called `project`; no such project is an error, as is a failed listing.
   */
  function ProjectIDByName(c: Client, rm: RemoteState, project: string): (r: Result<string, ClientError>)
    ensures ListProjectsApi in rm.faults ==> r == Err(Remote(rm.faults[ListProjectsApi]))
    ensures ListProjectsApi !in rm.faults ==>
      (r.Ok? <==> exists i :: 0 <= i < |rm.projects| && rm.projects[i].name == project)
    ensures r.Ok? ==> exists i :: IsFirstNamed(rm.projects, project, i) && r.value == rm.projects[i].id
    ensures r.Err? && ListProjectsApi !in rm.faults ==> r.error == NoSuchProject(project)
  {
    match ListProjects(rm, [project])
    case Err(e) => Err(Remote(e))
    case Ok(ps) =>
      NamedHead(ps, project);
      var named := Named(ps, project);
      if |named| == 0 then Err(NoSuchProject(project)) else Ok(named[0].id)
  }

  /**
   * As written, the name takes no part in the lookup: an account none of whose
   * projects has the name still answers its first project's ID, where the
   * intended lookup reports that no such project exists.
   */
  lemma AsWrittenIgnoresProjectName(c: Client, rm: RemoteState, project: string)
    requires ListProjectsApi !in rm.faults && |rm.projects| > 0
    requires forall i :: 0 <= i < |rm.projects| ==> rm.projects[i].name != project
    ensures GetProjectID(c, rm, project) == Ok(rm.projects[0].id)
    ensures ProjectIDByName(c, rm, project) == Err(NoSuchProject(project))
  {
  }

  /** When the first listed project has the name, the lookup as written and as intended agree. */
  lemma LookupsAgreeOnFirstNamed(c: Client, rm: RemoteState, project: string)
    requires |rm.projects| > 0 && rm.projects[0].name == project
    ensures GetProjectID(c, rm, project) == ProjectIDByName(c, rm, project)
  {
    assert Named(rm.projects, project)[0] == rm.projects[0];
  }

  /** The spec after CreateDevice's defaulting: an empty billing cycle becomes the default one. */
  function WithDefaultBilling(spec: MachineSpec): (r: MachineSpec)
    ensures r.billingCycle != ""
    ensures spec.billingCycle == "" ==> r.billingCycle == DefaultBillingCycle
    ensures spec.billingCycle != "" ==> r == spec
    ensures r.(billingCycle := spec.billingCycle) == spec
  {
    if spec.billingCycle == "" then spec.(billingCycle := DefaultBillingCycle) else spec
  }

  /** The create request built from a spec: every field copied, the facility as a one-element list. */
  function RequestFor(spec: MachineSpec): CreateRequest {
    CreateRequest(spec.projectID, [spec.facility], spec.plan, spec.hostname, spec.os, spec.billingCycle, spec.userData)
  }

  /** The spec a request was built from. */
  function SpecOfRequest(req: CreateRequest): (spec: Option<MachineSpec>)
    ensures spec.Some? <==> |req.facility| == 1
  {
    if |req.facility| == 1 then
      Some(MachineSpec(req.projectID, req.facility[0], req.plan, req.hostname, req.os, req.billingCycle, req.userData))
    else None
  }

  /** The request keeps every field of the spec: the spec can be read back from it. */
  lemma RequestForRoundTrip(spec: MachineSpec)
    ensures SpecOfRequest(RequestFor(spec)) == Some(spec)
    ensures RequestFor(spec).facility == [spec.facility]
  {
  }

  /** Two specs give the same request only if they are the same spec. */
  lemma RequestForInjective(s1: MachineSpec, s2: MachineSpec)
    ensures RequestFor(s1) == RequestFor(s2) <==> s1 == s2
  {
    RequestForRoundTrip(s1);
    RequestForRoundTrip(s2);
  }

  /** The provider's copy of one address assignment: seven of its fields. */
  function AddressOf(a: IpAssignment): IPAddress {
    IPAddress(a.id, a.address, a.gateway, a.network, a.addressFamily, a.netmask, a.public)
  }

  /** The status newStatus builds for a device. */
  function StatusOf(d: Device): (s: MachineStatus)
    ensures s.id == d.id && s.state == StringToState(d.state)
    ensures s.ready <==> s.state == StateActive
    ensures |s.ipAddresses| == |d.network|
    ensures forall i :: 0 <= i < |d.network| ==> s.ipAddresses[i] == AddressOf(d.network[i])
  {
    var state := StringToState(d.state);
    MachineStatus(state == StateActive, d.id, state, seq(|d.network|, i requires 0 <= i < |d.network| => AddressOf(d.network[i])))
  }

  /** A device is reported ready exactly when Packet reports it "active"; any other report is not ready. */
  lemma ReadyIffActive(d: Device)
    ensures StatusOf(d).ready <==> d.state == "active"
    ensures d.state !in {"active", "inactive", "queued", "provisioning"} ==> StatusOf(d).state == StateUnknown
  {
  }

  /** newStatus: fills a preallocated address slice index by index. */
  method NewStatus(d: Device) returns (status: MachineStatus)
    ensures status == StatusOf(d)
  {
    var state := StringToState(d.state);
    var addrs := new IPAddress[|d.network|](_ => ZeroIPAddress);
    for i := 0 to |d.network|
      invariant forall k :: 0 <= k < i ==> addrs[k] == AddressOf(d.network[k])
    {
      addrs[i] := AddressOf(d.network[i]);
    }
    status := MachineStatus(state == StateActive, d.id, state, addrs[..]);
  }

  /** The spec object CreateDevice receives by pointer and may change. */
  class SpecCell {
    var value: MachineSpec

    constructor(value: MachineSpec)
      ensures this.value == value
    {
      this.value := value;
    }
  }

  /**
   * CreateDevice: defaults the caller's billing cycle in place, posts the
   * request built from the defaulted spec and answers the new device's status.
   */
  method CreateDevice(w: World, c: Client, spec: SpecCell) returns (r: Result<MachineStatus, ClientError>)
    modifies w, spec
    ensures spec.value == WithDefaultBilling(old(spec.value))
    ensures w.store == old(w.store)
    ensures CreateDeviceApi in old(w.remote.faults) ==>
      r == Err(Remote(old(w.remote.faults)[CreateDeviceApi])) && w.remote == old(w.remote) && w.events == old(w.events)
    ensures CreateDeviceApi !in old(w.remote.faults) ==>
      && r.Ok? && r.value.id !in old(w.remote.devices) && r.value.id != ""
      && w.remote == old(w.remote).(devices := old(w.remote.devices)[r.value.id := Device(r.value.id, AcceptedState, [], RequestFor(spec.value))])
      && w.events == old(w.events) + [DeviceCreated(RequestFor(spec.value), r.value.id)]
      && r.value == StatusOf(w.remote.devices[r.value.id])
  {
    if spec.value.billingCycle == "" {
      spec.value := spec.value.(billingCycle := DefaultBillingCycle);
    }
    var d := w.CreateDevice(RequestFor(spec.value));
    if d.Err? {
      return Err(Remote(d.error));
    }
    var status := NewStatus(d.value);
    r := Ok(status);
  }

  /** A new device is reported not ready, in the queued state, with no addresses yet. */
  lemma NewDeviceStatus(id: string, req: CreateRequest)
    ensures StatusOf(Device(id, AcceptedState, [], req)) == MachineStatus(false, id, StateQueued, [])
  {
  }

  /** DoesDeviceExist: a 404 answer means the device does not exist; any other failure is an error. */
  function DoesDeviceExist(c: Client, rm: RemoteState, id: string): (r: Result<bool, ClientError>)
    ensures GetDeviceApi !in rm.faults ==> r == Ok(id in rm.devices)
    ensures GetDeviceApi in rm.faults ==>
      r == (if rm.faults[GetDeviceApi] == HttpStatus(HttpNotFound) then Ok(false) else Err(Remote(rm.faults[GetDeviceApi])))
  {
    match GetDeviceResponse(rm, id)
    case Ok(_) => Ok(true)
    case Err(e) => if e == HttpStatus(HttpNotFound) then Ok(false) else Err(Remote(e))
  }

  /** IsNotFoundError: the API answered 404. */
  predicate IsNotFoundError(e: ClientError) {
    e == Remote(HttpStatus(HttpNotFound))
  }

  /** GetDevice: the status of the device, or the API's error (404 for an unknown ID). */
  method GetDevice(c: Client, rm: RemoteState, id: string) returns (r: Result<MachineStatus, ClientError>)
    ensures r.Ok? <==> GetDeviceApi !in rm.faults && id in rm.devices
    ensures r.Ok? ==> r.value == StatusOf(rm.devices[id])
    ensures GetDeviceApi !in rm.faults && id !in rm.devices ==> r.Err? && IsNotFoundError(r.error)
    ensures GetDeviceApi in rm.faults ==> r == Err(Remote(rm.faults[GetDeviceApi]))
  {
    var d := GetDeviceResponse(rm, id);
    if d.Err? {
      return Err(Remote(d.error));
    }
    var status := NewStatus(d.value);
    r := Ok(status);
  }

  /** DeleteDevice: removes the device; an unknown ID is answered with 404. */
  method DeleteDevice(w: World, c: Client, id: string) returns (err: Option<ClientError>)
    modifies w
    ensures w.store == old(w.store)
    ensures DeleteDeviceApi in old(w.remote.faults) ==>
      err == Some(Remote(old(w.remote.faults)[DeleteDeviceApi])) && w.remote == old(w.remote) && w.events == old(w.events)
    ensures DeleteDeviceApi !in old(w.remote.faults) && id !in old(w.remote.devices) ==>
      err.Some? && IsNotFoundError(err.value) && w.remote == old(w.remote) && w.events == old(w.events)
    ensures DeleteDeviceApi !in old(w.remote.faults) && id in old(w.remote.devices) ==>
      && err.None? && w.remote == old(w.remote).(devices := old(w.remote.devices) - {id})
      && w.events == old(w.events) + [DeviceDeleted(id)]
  {
    var e := w.DeleteDevice(id);
    if e.Some? {
      return Some(Remote(e.value));
    }
    err := None;
  }
}
