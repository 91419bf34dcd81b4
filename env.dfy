/**
 * The two external systems the actuators talk to, reduced to their state:
 *  - the Kubernetes API server, a map from (kind, namespace, name) to resource
 *    records and a map of secrets, with optimistic concurrency on resourceVersion;
 *  - the Packet API, a table of devices and a list of projects.
 * Reads are functions of that state. Writes are methods of class World, which
 * also keeps, in order, every effect this process achieved.
 *
 * Other writers of the same resources are part of the environment: `races`
 * scripts what happens to the resource between our read and each write attempt.
 */
module Env {
  import opened Wrappers
  import opened Json

  // ---------------------------------------------------------------------------
  // Kubernetes API server

  /** types.NamespacedName */
  datatype Key = Key(namespace: string, name: string)

  datatype Kind = ClusterKind | MachineKind

  datatype Ref = Ref(kind: Kind, key: Key)

  /** The spec or the status of a cluster-api record: its provider payload and all its other fields. */
  datatype Section = Section(others: map<string, Json>, provider: Option<Json>)

  /** A cluster or machine record as the API server stores it. */
  datatype Resource = Resource(resourceVersion: nat, meta: map<string, string>, spec: Section, status: Section)

  /** A core/v1 Secret: named byte strings. */
  datatype Secret = Secret(data: map<string, seq<bv8>>)

  /** `Update` on the resource, or `Status().Update` on its status subresource. */
  datatype Endpoint = MainUpdate | StatusUpdate

  datatype StoreError = NotFound | Conflict | Rejected

  /**
   * What the rest of the world does to the resource just before one of our
   * write attempts lands: nothing, another client's successful update to `other`,
   * or a refusal of our request for a reason other than a conflict.
   */
  datatype Race = Quiet | Interleaved(other: Resource) | Refused

  /** A cluster or machine as a controller hands it to an actuator: its key and the record it read. */
  datatype Object = Object(key: Key, res: Resource)

  datatype StoreState = StoreState(objects: map<Ref, Resource>, secrets: map<Key, Secret>, races: seq<Race>)

  function Get(s: StoreState, ref: Ref): Result<Resource, StoreError> {
    if ref in s.objects then Ok(s.objects[ref]) else Err(NotFound)
  }

  function GetSecret(s: StoreState, key: Key): Result<Secret, StoreError> {
    if key in s.secrets then Ok(s.secrets[key]) else Err(NotFound)
  }

  /**
   * What the server keeps of an accepted update: the main endpoint ignores the
   * status, the status endpoint takes nothing else. An update that changes
   * nothing is not stored again and keeps its resourceVersion.
   */
  function Commit(cur: Resource, ep: Endpoint, submitted: Resource): Resource {
    var next := match ep
      case MainUpdate => cur.(meta := submitted.meta, spec := submitted.spec)
      case StatusUpdate => cur.(status := submitted.status);
    if next == cur then cur else next.(resourceVersion := cur.resourceVersion + 1)
  }

  /** An accepted update either leaves the record as it was or stores the submitted part under the next version. */
  lemma CommitVersion(cur: Resource, ep: Endpoint, submitted: Resource)
    ensures var r := Commit(cur, ep, submitted);
      && (ep.MainUpdate? ==> r.meta == submitted.meta && r.spec == submitted.spec && r.status == cur.status)
      && (ep.StatusUpdate? ==> r.status == submitted.status && r.meta == cur.meta && r.spec == cur.spec)
      && (r == cur <==> r.resourceVersion == cur.resourceVersion)
      && (r != cur <==> r.resourceVersion == cur.resourceVersion + 1)
  {
  }

  function NextRace(s: StoreState): Race {
    if s.races == [] then Quiet else s.races[0]
  }

  function RaceConsumed(s: StoreState): StoreState {
    s.(races := if s.races == [] then [] else s.races[1..])
  }

  datatype WriteOutcome = WriteOutcome(store: StoreState, result: Result<Resource, StoreError>)

  /** The record a write meets: the stored one, or the version another client has just stored over it. */
  function Current(s: StoreState, ref: Ref): Resource
    requires ref in s.objects
  {
    match NextRace(s)
    case Interleaved(other) => other.(resourceVersion := s.objects[ref].resourceVersion + 1)
    case _ => s.objects[ref]
  }

  /**
   * One update request for `ref`, carrying `submitted`, sent to endpoint `ep`.
   * Only a request based on the resourceVersion of the record it meets is accepted.
   */
  function ApplyWrite(s: StoreState, ep: Endpoint, ref: Ref, submitted: Resource): WriteOutcome {
    var s1 := RaceConsumed(s);
    if ref !in s.objects then WriteOutcome(s1, Err(NotFound))
    else if NextRace(s).Refused? then WriteOutcome(s1, Err(Rejected))
    else
      var cur := Current(s, ref);
      if submitted.resourceVersion != cur.resourceVersion then
        WriteOutcome(s1.(objects := s.objects[ref := cur]), Err(Conflict))
      else
        var stored := Commit(cur, ep, submitted);
        WriteOutcome(s1.(objects := s.objects[ref := stored]), Ok(stored))
  }

  /**
   * Optimistic concurrency: an accepted write replaced exactly the version it was
   * based on; a write based on an older version, or overtaken by another
   * client, is a conflict; and no other record or secret is touched.
   */
  lemma ApplyWriteConcurrency(s: StoreState, ep: Endpoint, ref: Ref, submitted: Resource)
    ensures var o := ApplyWrite(s, ep, ref, submitted);
      && (o.result.Ok? ==>
            && ref in s.objects && !NextRace(s).Refused?
            && submitted.resourceVersion == Current(s, ref).resourceVersion
            && o.result.value == Commit(Current(s, ref), ep, submitted)
            && o.store.objects == s.objects[ref := o.result.value])
      && (ref in s.objects && NextRace(s) == Quiet && submitted.resourceVersion == s.objects[ref].resourceVersion ==>
            o.result == Ok(Commit(s.objects[ref], ep, submitted)))
      && (ref in s.objects && NextRace(s).Interleaved? && submitted.resourceVersion == s.objects[ref].resourceVersion ==>
            o.result == Err(Conflict))
      && (ref in s.objects && NextRace(s) == Quiet && submitted.resourceVersion != s.objects[ref].resourceVersion ==>
            o == WriteOutcome(RaceConsumed(s), Err(Conflict)))
      && (forall r :: r != ref && r in s.objects ==> r in o.store.objects && o.store.objects[r] == s.objects[r])
      && o.store.objects.Keys == s.objects.Keys
      && o.store.secrets == s.secrets
      && o.store.races == RaceConsumed(s).races
  {
  }

  // ---------------------------------------------------------------------------
  // Packet API

  /** A packngo IP address assignment: more fields than the provider keeps. */
  datatype IpAssignment = IpAssignment(
    id: string,
    address: string,
    gateway: string,
    network: string,
    addressFamily: int,
    netmask: string,
    public: bool,
    cidr: int,
    management: bool)

  /** packngo.DeviceCreateRequest, restricted to the fields the provider sets. */
  datatype CreateRequest = CreateRequest(
    projectID: string,
    facility: seq<string>,
    plan: string,
    hostname: string,
    os: string,
    billingCycle: string,
    userData: string)

  datatype Device = Device(id: string, state: string, network: seq<IpAssignment>, request: CreateRequest)

  datatype Project = Project(id: string, name: string)

  datatype Api = ListProjectsApi | CreateDeviceApi | GetDeviceApi | DeleteDeviceApi

  /** A failed call: no HTTP response at all, or an HTTP error status. */
  datatype RemoteError = NoResponse | HttpStatus(code: int)

  const HttpNotFound := 404

  /** The state a device is reported in when the API has just accepted it. */
  const AcceptedState := "queued"

  /** `faults` maps each endpoint that currently fails to the error it answers with. */
  datatype RemoteState = RemoteState(devices: map<string, Device>, projects: seq<Project>, faults: map<Api, RemoteError>)

  /**
   * The project listing: every project of the account, in the API's order.
   * The `Includes` option of the listing names nested resources the API is
   * to expand in its answer; it does not narrow the list.
   */
  function ListProjects(rm: RemoteState, includes: seq<string>): Result<seq<Project>, RemoteError> {
    if ListProjectsApi in rm.faults then Err(rm.faults[ListProjectsApi]) else Ok(rm.projects)
  }

  function GetDeviceResponse(rm: RemoteState, id: string): Result<Device, RemoteError> {
    if GetDeviceApi in rm.faults then Err(rm.faults[GetDeviceApi])
    else if id in rm.devices then Ok(rm.devices[id])
    else Err(HttpStatus(HttpNotFound))
  }

  /** A bound on the length of every key; a longer string is a fresh device ID. */
  ghost function LongestKey(ks: set<string>): (n: nat)
    ensures forall k :: k in ks ==> |k| <= n
    decreases ks
  {
    if ks == {} then 0
    else
      var k :| k in ks;
      var m := LongestKey(ks - {k});
      if |k| > m then |k| else m
  }

  // ---------------------------------------------------------------------------
  // Effects

  /** An effect this process achieved: an accepted store update, a device created, a device deleted. */
  datatype Event =
    | Wrote(endpoint: Endpoint, ref: Ref, stored: Resource)
    | DeviceCreated(request: CreateRequest, id: string)
    | DeviceDeleted(id: string)

  class World {
    var store: StoreState
    var remote: RemoteState
    var events: seq<Event>

    constructor(store: StoreState, remote: RemoteState)
      ensures this.store == store && this.remote == remote && events == []
    {
      this.store := store;
      this.remote := remote;
      events := [];
    }

    /** An update request to the API server (client.Update or client.Status().Update). */
    method Update(ep: Endpoint, ref: Ref, submitted: Resource) returns (r: Result<Resource, StoreError>)
      modifies this
      ensures store == ApplyWrite(old(store), ep, ref, submitted).store
      ensures r == ApplyWrite(old(store), ep, ref, submitted).result
      ensures remote == old(remote)
      ensures events == old(events) + (if r.Ok? then [Wrote(ep, ref, r.value)] else [])
    {
      var o := ApplyWrite(store, ep, ref, submitted);
      store := o.store;
      r := o.result;
      if r.Ok? {
        events := events + [Wrote(ep, ref, r.value)];
      }
    }

    /** POST a device; the API picks an unused, non-empty ID. */
    method CreateDevice(req: CreateRequest) returns (r: Result<Device, RemoteError>)
      modifies this
      ensures store == old(store)
      ensures CreateDeviceApi in old(remote.faults) ==>
        r == Err(old(remote.faults)[CreateDeviceApi]) && remote == old(remote) && events == old(events)
      ensures CreateDeviceApi !in old(remote.faults) ==>
        && r.Ok? && r.value.id !in old(remote.devices) && r.value.id != ""
        && r.value == Device(r.value.id, AcceptedState, [], req)
        && remote == old(remote).(devices := old(remote.devices)[r.value.id := r.value])
        && events == old(events) + [DeviceCreated(req, r.value.id)]
    {
      if CreateDeviceApi in remote.faults {
        return Err(remote.faults[CreateDeviceApi]);
      }
      ghost var longer := seq(LongestKey(remote.devices.Keys) + 1, _ => 'd');
      assert longer !in remote.devices && longer != "";
      var id: string :| id !in remote.devices && id != "";
      var d := Device(id, AcceptedState, [], req);
      remote := remote.(devices := remote.devices[id := d]);
      events := events + [DeviceCreated(req, id)];
      r := Ok(d);
    }

    /** DELETE a device; an unknown ID is answered with 404. */
    method DeleteDevice(id: string) returns (err: Option<RemoteError>)
      modifies this
      ensures store == old(store)
      ensures DeleteDeviceApi in old(remote.faults) ==>
        err == Some(old(remote.faults)[DeleteDeviceApi]) && remote == old(remote) && events == old(events)
      ensures DeleteDeviceApi !in old(remote.faults) && id !in old(remote.devices) ==>
        err == Some(HttpStatus(HttpNotFound)) && remote == old(remote) && events == old(events)
      ensures DeleteDeviceApi !in old(remote.faults) && id in old(remote.devices) ==>
        && err.None? && remote == old(remote).(devices := old(remote.devices) - {id})
        && events == old(events) + [DeviceDeleted(id)]
    {
      if DeleteDeviceApi in remote.faults {
        return Some(remote.faults[DeleteDeviceApi]);
      }
      if id !in remote.devices {
        return Some(HttpStatus(HttpNotFound));
      }
      remote := remote.(devices := remote.devices - {id});
      events := events + [DeviceDeleted(id)];
      err := None;
    }
  }
}
