/**
 * The machine actuator: Create provisions a Packet device for a machine,
 * Delete deletes it, Update refreshes the machine's provider status from the
 * device, and Exists asks whether the device is there. Each call first reads
 * (the cluster's provider spec, its API key secret, the machine's provider
 * records) and then performs its effects in a fixed order, stopping at the
 * first failure.
 */
module MachineActuator {
  import opened Wrappers
  import opened Json
  import opened Types
  import opened Codec
  import opened Env
  import opened Util
  import opened PacketClient

  /** The operating system every device is created with. */
  const DefaultOS := "coreos_stable"

  /** The delay of a requeue, in seconds. */
  const RequeueSeconds: nat := 15

  /** The step at which a call stopped. */
  datatype Step =
    | MissingClusterStep
    | DecodeClusterSpecStep
    | GetSecretStep
    | NewClientStep
    | DecodeMachineSpecStep
    | DecodeMachineStatusStep
    | GetProjectIDStep
    | UpdateSpecStep
    | CreateDeviceStep
    | UpdateStatusStep
    | StatusIDNotSetStep
    | DeleteDeviceStep
    | GetDeviceStep
    | DoesDeviceExistStep

  /** How a call ended: done, done for now and to be called again after a delay, or failed. */
  datatype Outcome = Done | RequeueAfter(seconds: nat) | Failed(step: Step)

  function MachineRef(machine: Object): Ref {
    Ref(MachineKind, machine.key)
  }

  /** The decoded cluster spec and a client built from the cluster's secret. */
  datatype Session = Session(clusterSpec: ClusterSpec, client: Client)

  /** The reads every call except Exists starts with: the cluster, its provider spec, its secret, a client. */
  function Connect(cluster: Option<Object>, st: StoreState): (r: Result<Session, Step>)
    ensures cluster.None? ==> r == Err(MissingClusterStep)
    ensures cluster.Some? && ToClusterProviderSpec(cluster.value.res.spec.provider).Err? ==> r == Err(DecodeClusterSpecStep)
    ensures cluster.Some? && ToClusterProviderSpec(cluster.value.res.spec.provider).Ok? ==>
      var key := SecretKey(cluster.value, ToClusterProviderSpec(cluster.value.res.spec.provider).value);
      && (key !in st.secrets ==> r == Err(GetSecretStep))
      && (key in st.secrets && NewClient(st.secrets[key]).Err? ==> r == Err(NewClientStep))
      && (key in st.secrets && NewClient(st.secrets[key]).Ok? ==> r.Ok?)
    ensures r.Ok? ==>
      && cluster.Some?
      && ToClusterProviderSpec(cluster.value.res.spec.provider) == Ok(r.value.clusterSpec)
      && SecretKey(cluster.value, r.value.clusterSpec) in st.secrets
      && NewClient(st.secrets[SecretKey(cluster.value, r.value.clusterSpec)]) == Ok(r.value.client)
  {
    if cluster.None? then Err(MissingClusterStep)
    else
      var spec := ToClusterProviderSpec(cluster.value.res.spec.provider);
      if spec.Err? then Err(DecodeClusterSpecStep)
      else
        var secret := GetSecret(st, SecretKey(cluster.value, spec.value));
        if secret.Err? then Err(GetSecretStep)
        else
          var c := NewClient(secret.value);
          if c.Err? then Err(NewClientStep) else Ok(Session(spec.value, c.value))
  }

  /** How each call begins: it stops, or it proceeds with the cluster. */
  datatype Entry = Panicked | Stopped(step: Step) | Entered(cluster: Object)

  /**
   * The first two statements of each call as written: a log line that reads
   * the cluster's name, then the nil check. A nil cluster is dereferenced
   * by the log line before the check can report it.
   */
  function EntryAsWritten(cluster: Option<Object>): Entry {
    if cluster.None? then Panicked else Entered(cluster.value)
  }

  /** As written, a nil cluster panics, and the nil check's error is never returned. */
  lemma AsWrittenNilClusterPanics()
    ensures EntryAsWritten(None) == Panicked
    ensures forall cluster: Option<Object> :: EntryAsWritten(cluster) != Stopped(MissingClusterStep)
  {
  }

  /** The evidently intended entry: a nil cluster is reported as an error and nothing else happens. */
  lemma NilClusterIsAnError(st: StoreState, rm: RemoteState, machine: Object)
    ensures Connect(None, st) == Err(MissingClusterStep)
    ensures PrepareCreate(None, machine, st, rm) == Err(MissingClusterStep)
    ensures PrepareDelete(None, machine, st) == Err(MissingClusterStep)
    ensures PrepareUpdate(None, machine, st, rm) == Err(MissingClusterStep)
  {
  }

  // ---------------------------------------------------------------------------
  // Create

  /** The spec Create stores: the machine's spec with the placement taken from the cluster and the OS fixed. */
  function Overlay(spec: MachineSpec, projectID: string, hostname: string, clusterSpec: ClusterSpec): MachineSpec {
    spec.(projectID := projectID, hostname := hostname, facility := clusterSpec.facility, plan := clusterSpec.plan,
          billingCycle := clusterSpec.billingCycle, os := DefaultOS)
  }

  datatype Prepared = Prepared(client: Client, newSpec: MachineSpec)

  /** Everything Create reads before its first effect. */
  function PrepareCreate(cluster: Option<Object>, machine: Object, st: StoreState, rm: RemoteState): (r: Result<Prepared, Step>)
    ensures Connect(cluster, st).Err? ==> r == Err(Connect(cluster, st).error)
    ensures Connect(cluster, st).Ok? ==>
      var s := Connect(cluster, st).value;
      var spec := ToMachineProviderSpec(machine.res.spec.provider);
      var status := ToMachineProviderStatus(machine.res.status.provider);
      && (spec.Err? ==> r == Err(DecodeMachineSpecStep))
      && (spec.Ok? && status.Err? ==> r == Err(DecodeMachineStatusStep))
      && (spec.Ok? && status.Ok? ==>
            (r.Ok? <==> ProjectIDByName(s.client, rm, s.clusterSpec.project).Ok?) && (r.Err? ==> r == Err(GetProjectIDStep)))
    ensures r.Ok? ==>
      && Connect(cluster, st).Ok? && r.value.client == Connect(cluster, st).value.client
      && ToMachineProviderSpec(machine.res.spec.provider).Ok?
      && ToMachineProviderStatus(machine.res.status.provider).Ok?
      && ListProjectsApi !in rm.faults
  {
    var s :- Connect(cluster, st);
    var spec := ToMachineProviderSpec(machine.res.spec.provider);
    if spec.Err? then Err(DecodeMachineSpecStep)
    else if ToMachineProviderStatus(machine.res.status.provider).Err? then Err(DecodeMachineStatusStep)
    else
      var projectID := ProjectIDByName(s.client, rm, s.clusterSpec.project);
      if projectID.Err? then Err(GetProjectIDStep)
      else Ok(Prepared(s.client, Overlay(spec.value, projectID.value, machine.key.name, s.clusterSpec)))
  }

  /**
   * The spec Create stores is the machine's decoded spec with the project ID
   * looked up by the cluster's project name, the machine's name as hostname,
   * the cluster's facility, plan and billing cycle, and the default OS; the
   * user data is kept.
   */
  lemma CreateSpecOverlay(cluster: Option<Object>, machine: Object, st: StoreState, rm: RemoteState)
    requires PrepareCreate(cluster, machine, st, rm).Ok?
    ensures var p := PrepareCreate(cluster, machine, st, rm).value;
      var s := Connect(cluster, st).value;
      var spec := ToMachineProviderSpec(machine.res.spec.provider);
      && spec.Ok?
      && ProjectIDByName(s.client, rm, s.clusterSpec.project) == Ok(p.newSpec.projectID)
      && |rm.projects| > 0
      && (rm.projects[0].name == s.clusterSpec.project ==>
            GetProjectID(s.client, rm, s.clusterSpec.project) == Ok(p.newSpec.projectID))
      && p.newSpec.hostname == machine.key.name
      && p.newSpec.facility == s.clusterSpec.facility
      && p.newSpec.plan == s.clusterSpec.plan
      && p.newSpec.billingCycle == s.clusterSpec.billingCycle
      && p.newSpec.os == DefaultOS
      && p.newSpec.userData == spec.value.userData
  {
    var s := Connect(cluster, st).value;
    if |rm.projects| > 0 && rm.projects[0].name == s.clusterSpec.project {
      LookupsAgreeOnFirstNamed(s.client, rm, s.clusterSpec.project);
    }
  }

  /**
   * Create does not look at a device ID already recorded in the machine's
   * status: two machines that differ only in a decodable status prepare the
   * same device.
   */
  lemma CreateIgnoresStatusID(cluster: Option<Object>, m1: Object, m2: Object, st: StoreState, rm: RemoteState)
    requires m1.key == m2.key && m1.res.spec == m2.res.spec
    requires ToMachineProviderStatus(m1.res.status.provider).Ok? && ToMachineProviderStatus(m2.res.status.provider).Ok?
    ensures PrepareCreate(cluster, m1, st, rm) == PrepareCreate(cluster, m2, st, rm)
  {
  }

  predicate IsWrite(e: Event, ep: Endpoint, ref: Ref) {
    e.Wrote? && e.endpoint == ep && e.ref == ref
  }

  /** A write of the machine's spec whose stored provider spec decodes to `spec`. */
  predicate SpecWritten(e: Event, ref: Ref, spec: MachineSpec) {
    IsWrite(e, MainUpdate, ref) && ToMachineProviderSpec(e.stored.spec.provider) == Ok(spec)
  }

  /** A write of the machine's status whose stored provider status decodes to `status`. */
  predicate StatusWritten(e: Event, ref: Ref, status: MachineStatus) {
    IsWrite(e, StatusUpdate, ref) && ToMachineProviderStatus(e.stored.status.provider) == Ok(status)
  }

  /** The effects of Create after its spec write, by how it ended. */
  predicate AfterSpecWrite(rest: seq<Event>, ref: Ref, newSpec: MachineSpec, r: Outcome) {
    match r
    case Failed(CreateDeviceStep) => rest == []
    case Failed(UpdateStatusStep) =>
      |rest| == 1 && rest[0].DeviceCreated? && rest[0].request == RequestFor(WithDefaultBilling(newSpec))
    case RequeueAfter(_) =>
      && 1 <= |rest| <= 2 && rest[0].DeviceCreated? && rest[0].request == RequestFor(WithDefaultBilling(newSpec))
      && (|rest| == 2 ==> StatusWritten(rest[1], ref, MachineStatus(false, rest[0].id, StateQueued, [])))
    case _ => false
  }

  /**
   * The effects of a Create that got past its reads, in order: a spec write
   * (skipped when the machine already carries the spec), the device creation
   * with the request built from the billing-defaulted spec, and a status write
   * recording the new device. A failed step is followed by nothing.
   */
  predicate CreateTrace(evs: seq<Event>, ref: Ref, newSpec: MachineSpec, r: Outcome) {
    if r == Failed(UpdateSpecStep) then evs == []
    else
      var k := if |evs| > 0 && evs[0].Wrote? then 1 else 0;
      && (k == 1 ==> SpecWritten(evs[0], ref, newSpec))
      && AfterSpecWrite(evs[k..], ref, newSpec, r)
  }

  /** The events appended over two steps are those of the first step followed by those of the second. */
  lemma AppendedInTwoSteps(e0: seq<Event>, e1: seq<Event>, e2: seq<Event>)
    requires e0 <= e1 <= e2
    ensures e2[|e0|..] == e1[|e0|..] + e2[|e1|..]
  {
    assert e2 == e0 + e1[|e0|..] + e2[|e1|..];
  }

  /** A trace is an optional spec write followed by effects that do not start with a write. */
  lemma CreateTraceOf(specEvs: seq<Event>, rest: seq<Event>, ref: Ref, newSpec: MachineSpec, r: Outcome)
    requires specEvs == [] || (|specEvs| == 1 && SpecWritten(specEvs[0], ref, newSpec))
    requires rest == [] || rest[0].DeviceCreated?
    requires r != Failed(UpdateSpecStep) && AfterSpecWrite(rest, ref, newSpec, r)
    ensures CreateTrace(specEvs + rest, ref, newSpec, r)
  {
    var evs := specEvs + rest;
    assert evs[|specEvs|..] == rest;
  }

  // ---------------------------------------------------------------------------
  // Delete

  datatype Target = Target(client: Client, id: string)

  /** Everything Delete reads before its first effect; an unset device ID is an error. */
  function PrepareDelete(cluster: Option<Object>, machine: Object, st: StoreState): (r: Result<Target, Step>)
    ensures r.Ok? ==> r.value.id != ""
    ensures Connect(cluster, st).Err? ==> r == Err(Connect(cluster, st).error)
    ensures Connect(cluster, st).Ok? && ToMachineProviderStatus(machine.res.status.provider).Err? ==> r == Err(DecodeMachineStatusStep)
    ensures Connect(cluster, st).Ok? && ToMachineProviderStatus(machine.res.status.provider).Ok? ==>
      var id := ToMachineProviderStatus(machine.res.status.provider).value.id;
      r == (if id == "" then Err(StatusIDNotSetStep) else Ok(Target(Connect(cluster, st).value.client, id)))
    ensures (Connect(cluster, st).Ok? && ToMachineProviderStatus(machine.res.status.provider) == Ok(ZeroMachineStatus))
            ==> r == Err(StatusIDNotSetStep)
  {
    var s :- Connect(cluster, st);
    var status := ToMachineProviderStatus(machine.res.status.provider);
    if status.Err? then Err(DecodeMachineStatusStep)
    else if status.value.id == "" then Err(StatusIDNotSetStep)
    else Ok(Target(s.client, status.value.id))
  }

  /**
   * The effects of a Delete that got past its reads: the device deletion
   * (absent when the device was already gone), then a write of the zero status.
   */
  predicate DeleteTrace(evs: seq<Event>, ref: Ref, id: string, r: Outcome) {
    var k := if |evs| > 0 && evs[0].DeviceDeleted? then 1 else 0;
    var rest := evs[k..];
    && (k == 1 ==> evs[0] == DeviceDeleted(id))
    && match r
       case Failed(DeleteDeviceStep) => evs == []
       case Failed(UpdateStatusStep) => rest == []
       case Done => |rest| <= 1 && (|rest| == 1 ==> StatusWritten(rest[0], ref, ZeroMachineStatus))
       case _ => false
  }

  // ---------------------------------------------------------------------------
  // Update

  /** The status Update records for a device ID: the device's, or the zero status when the API answers 404. */
  function ObservedStatus(rm: RemoteState, id: string): (r: Result<MachineStatus, Step>)
    ensures GetDeviceApi !in rm.faults ==>
      r == Ok(if id in rm.devices then StatusOf(rm.devices[id]) else ZeroMachineStatus)
    ensures GetDeviceApi in rm.faults ==>
      r == (if rm.faults[GetDeviceApi] == HttpStatus(HttpNotFound) then Ok(ZeroMachineStatus) else Err(GetDeviceStep))
  {
    if GetDeviceApi in rm.faults then
      if rm.faults[GetDeviceApi] == HttpStatus(HttpNotFound) then Ok(ZeroMachineStatus) else Err(GetDeviceStep)
    else if id in rm.devices then Ok(StatusOf(rm.devices[id]))
    else Ok(ZeroMachineStatus)
  }

  /** Everything Update reads before its one effect. */
  function PrepareUpdate(cluster: Option<Object>, machine: Object, st: StoreState, rm: RemoteState): (r: Result<MachineStatus, Step>)
    ensures Connect(cluster, st).Err? ==> r == Err(Connect(cluster, st).error)
    ensures Connect(cluster, st).Ok? && ToMachineProviderStatus(machine.res.status.provider).Err? ==> r == Err(DecodeMachineStatusStep)
    ensures Connect(cluster, st).Ok? && ToMachineProviderStatus(machine.res.status.provider).Ok? ==>
      r == ObservedStatus(rm, ToMachineProviderStatus(machine.res.status.provider).value.id)
    ensures r.Err? && Connect(cluster, st).Ok? && ToMachineProviderStatus(machine.res.status.provider).Ok? ==>
      r == Err(GetDeviceStep) && GetDeviceApi in rm.faults && rm.faults[GetDeviceApi] != HttpStatus(HttpNotFound)
  {
    var s :- Connect(cluster, st);
    var status := ToMachineProviderStatus(machine.res.status.provider);
    if status.Err? then Err(DecodeMachineStatusStep)
    else ObservedStatus(rm, status.value.id)
  }

  /**
   * A machine whose device has vanished is reset: Update records the zero
   * status, which is not ready, so the machine is requeued.
   */
  lemma UpdateResetsVanishedDevice(cluster: Option<Object>, machine: Object, st: StoreState, rm: RemoteState)
    requires Connect(cluster, st).Ok?
    requires ToMachineProviderStatus(machine.res.status.provider).Ok?
    requires GetDeviceApi !in rm.faults && ToMachineProviderStatus(machine.res.status.provider).value.id !in rm.devices
    ensures PrepareUpdate(cluster, machine, st, rm) == Ok(ZeroMachineStatus)
    ensures !PrepareUpdate(cluster, machine, st, rm).value.ready
  {
  }

  /** The recorded status is ready exactly when the device is active. */
  lemma UpdateReadyIffActive(cluster: Option<Object>, machine: Object, st: StoreState, rm: RemoteState)
    requires PrepareUpdate(cluster, machine, st, rm).Ok?
    ensures var ready := PrepareUpdate(cluster, machine, st, rm).value.ready;
      var id := ToMachineProviderStatus(machine.res.status.provider).value.id;
      ready <==> GetDeviceApi !in rm.faults && id in rm.devices && rm.devices[id].state == "active"
  {
    var id := ToMachineProviderStatus(machine.res.status.provider).value.id;
    if GetDeviceApi !in rm.faults && id in rm.devices {
      ReadyIffActive(rm.devices[id]);
    }
  }

  // ---------------------------------------------------------------------------
  // The effects of each call once its reads succeeded, as relations between
  // the state before and the state after.

  /**
   * The status helper ran from `before` to `after`, storing `status` for `ref`:
   * the call fails at the status step when the helper failed, and ends with
   * `success` when it succeeded.
   */
  predicate StatusHelperRan(before: StoreState, after: StoreState, ref: Ref, status: MachineStatus, r: Outcome, success: Outcome) {
    var o := RetryUpdate(before, ref, StatusField, ToRawMachineStatus(status), Corrected);
    && after == o.last.store
    && (o.last.err.Some? ==> r == Failed(UpdateStatusStep))
    && (o.last.err.None? ==> r == success)
  }

  /** A call that ended with its success outcome left `status` stored for `ref`. */
  lemma StatusHelperStores(before: StoreState, after: StoreState, ref: Ref, status: MachineStatus, r: Outcome, success: Outcome)
    requires StatusHelperRan(before, after, ref, status, r, success)
    requires r == success && success != Failed(UpdateStatusStep)
    ensures ref in after.objects && ToMachineProviderStatus(after.objects[ref].status.provider) == Ok(status)
  {
    RetrySpec(before, ref, StatusField, ToRawMachineStatus(status), 1);
    MachineStatusRoundTrip(status);
  }

  /** The status recorded for a device the API has just accepted. */
  function QueuedStatus(id: string): MachineStatus {
    MachineStatus(false, id, StateQueued, [])
  }

  /** The Packet API after it accepted the request `req` as a new device with ID `id`. */
  predicate DeviceAdded(before: RemoteState, after: RemoteState, id: string, req: CreateRequest) {
    && id != "" && id !in before.devices
    && after == before.(devices := before.devices[id := Device(id, AcceptedState, [], req)])
  }

  /**
   * Create after its spec write: a failing create endpoint stops the call with
   * nothing changed; otherwise one device is created from `req` and its status
   * is stored by the status helper.
   */
  ghost predicate RecordEffect(st0: StoreState, rm0: RemoteState, st1: StoreState, rm1: RemoteState, ref: Ref, req: CreateRequest, r: Outcome) {
    if CreateDeviceApi in rm0.faults then r == Failed(CreateDeviceStep) && st1 == st0 && rm1 == rm0
    else exists id :: DeviceAdded(rm0, rm1, id, req) && StatusHelperRan(st0, st1, ref, QueuedStatus(id), r, RequeueAfter(RequeueSeconds))
  }

  /**
   * Create after its reads: the spec helper stores `newSpec`; when it fails the
   * call stops there, otherwise the device is created from the billing-defaulted
   * spec and its status stored.
   */
  ghost predicate ProvisionEffect(st0: StoreState, rm0: RemoteState, st1: StoreState, rm1: RemoteState, ref: Ref, newSpec: MachineSpec, r: Outcome) {
    var o := RetryUpdate(st0, ref, SpecField, ToRawMachineSpec(newSpec), Corrected);
    if o.last.err.Some? then r == Failed(UpdateSpecStep) && st1 == o.last.store && rm1 == rm0
    else RecordEffect(o.last.store, rm0, st1, rm1, ref, RequestFor(WithDefaultBilling(newSpec)), r)
  }

  /**
   * A spec write that succeeded, followed by the device creation and the status
   * write, has the effects and the trace of Create after its reads.
   */
  lemma ProvisionComposes(st0: StoreState, rm0: RemoteState, stMid: StoreState, st1: StoreState, rm1: RemoteState,
                          ref: Ref, newSpec: MachineSpec, specEvs: seq<Event>, rest: seq<Event>, r: Outcome)
    requires var o := RetryUpdate(st0, ref, SpecField, ToRawMachineSpec(newSpec), Corrected);
      stMid == o.last.store && o.last.err.None?
    requires specEvs == [] || (|specEvs| == 1 && SpecWritten(specEvs[0], ref, newSpec))
    requires r in {RequeueAfter(RequeueSeconds), Failed(CreateDeviceStep), Failed(UpdateStatusStep)}
    requires AfterSpecWrite(rest, ref, newSpec, r)
    requires RecordEffect(stMid, rm0, st1, rm1, ref, RequestFor(WithDefaultBilling(newSpec)), r)
    ensures ProvisionEffect(st0, rm0, st1, rm1, ref, newSpec, r)
    ensures CreateTrace(specEvs + rest, ref, newSpec, r)
  {
    CreateTraceOf(specEvs, rest, ref, newSpec, r);
  }

  /**
   * What Create achieves once its reads succeeded: it fails at the spec step
   * exactly when the spec helper fails, and at the device step exactly when the
   * spec was stored and the create endpoint fails, with the Packet side
   * untouched in both cases; a requeue means the spec was stored, one device
   * was created from it and that device's queued status is stored.
   */
  lemma CreateOutcome(st0: StoreState, rm0: RemoteState, st1: StoreState, rm1: RemoteState, ref: Ref, newSpec: MachineSpec, r: Outcome)
    requires ProvisionEffect(st0, rm0, st1, rm1, ref, newSpec, r)
    ensures var o := RetryUpdate(st0, ref, SpecField, ToRawMachineSpec(newSpec), Corrected);
      && (r == Failed(UpdateSpecStep) <==> o.last.err.Some?)
      && (o.last.err.None? ==>
            ref in o.last.store.objects && ToMachineProviderSpec(o.last.store.objects[ref].spec.provider) == Ok(newSpec))
      && (r == Failed(CreateDeviceStep) <==> o.last.err.None? && CreateDeviceApi in rm0.faults)
      && (r == Failed(UpdateSpecStep) || r == Failed(CreateDeviceStep) ==> rm1 == rm0)
      && (r == RequeueAfter(RequeueSeconds) ==>
            && o.last.err.None? && ref in st1.objects
            && exists id :: DeviceAdded(rm0, rm1, id, RequestFor(WithDefaultBilling(newSpec)))
                         && ToMachineProviderStatus(st1.objects[ref].status.provider) == Ok(QueuedStatus(id)))
      && (r == RequeueAfter(RequeueSeconds) || r == Failed(UpdateSpecStep) || r == Failed(CreateDeviceStep) || r == Failed(UpdateStatusStep))
  {
    var o := RetryUpdate(st0, ref, SpecField, ToRawMachineSpec(newSpec), Corrected);
    RecordedWrite(st0, ref, SpecField, ToRawMachineSpec(newSpec), []);
    MachineSpecRoundTrip(newSpec);
    if o.last.err.None? && CreateDeviceApi !in rm0.faults {
      var req := RequestFor(WithDefaultBilling(newSpec));
      var id :| DeviceAdded(rm0, rm1, id, req) && StatusHelperRan(o.last.store, st1, ref, QueuedStatus(id), r, RequeueAfter(RequeueSeconds));
      if r == RequeueAfter(RequeueSeconds) {
        StatusHelperStores(o.last.store, st1, ref, QueuedStatus(id), r, RequeueAfter(RequeueSeconds));
      }
    }
  }

  /**
   * Delete after its reads: a delete failing with anything but 404 stops the
   * call with nothing changed; otherwise the device is gone from the API (unless
   * the endpoint answered 404) and the status helper stores the zero status.
   */
  predicate TeardownEffect(st0: StoreState, rm0: RemoteState, st1: StoreState, rm1: RemoteState, ref: Ref, id: string, r: Outcome) {
    if DeleteDeviceApi in rm0.faults && rm0.faults[DeleteDeviceApi] != HttpStatus(HttpNotFound) then
      r == Failed(DeleteDeviceStep) && st1 == st0 && rm1 == rm0
    else
      && rm1 == (if DeleteDeviceApi !in rm0.faults && id in rm0.devices then rm0.(devices := rm0.devices - {id}) else rm0)
      && StatusHelperRan(st0, st1, ref, ZeroMachineStatus, r, Done)
  }

  /**
   * What Delete achieves once its reads succeeded: it fails at the deletion
   * exactly when the API fails with anything but 404, changing nothing; it
   * fails at the status step exactly when the zero status could not be stored;
   * done means the zero status is stored, and the device is gone unless the
   * delete endpoint answered 404.
   */
  lemma DeleteOutcome(st0: StoreState, rm0: RemoteState, st1: StoreState, rm1: RemoteState, ref: Ref, id: string, r: Outcome)
    requires TeardownEffect(st0, rm0, st1, rm1, ref, id, r)
    ensures var deleteFails := DeleteDeviceApi in rm0.faults && rm0.faults[DeleteDeviceApi] != HttpStatus(HttpNotFound);
      && (r == Failed(DeleteDeviceStep) <==> deleteFails)
      && (deleteFails ==> st1 == st0 && rm1 == rm0)
      && (r == Failed(UpdateStatusStep) <==>
            !deleteFails && RetryUpdate(st0, ref, StatusField, ToRawMachineStatus(ZeroMachineStatus), Corrected).last.err.Some?)
      && (r.Done? ==> ref in st1.objects && ToMachineProviderStatus(st1.objects[ref].status.provider) == Ok(ZeroMachineStatus))
      && (!deleteFails && DeleteDeviceApi !in rm0.faults ==> rm1.devices == rm0.devices - {id} && id !in rm1.devices)
      && (r == Done || r == Failed(DeleteDeviceStep) || r == Failed(UpdateStatusStep))
  {
    if r.Done? {
      StatusHelperStores(st0, st1, ref, ZeroMachineStatus, r, Done);
    }
  }

  /** Update after its reads: the status helper stores `status`; the call then ends done when it is ready, and requeued otherwise. */
  predicate UpdateEffect(st0: StoreState, st1: StoreState, ref: Ref, status: MachineStatus, r: Outcome) {
    StatusHelperRan(st0, st1, ref, status, r, if status.ready then Done else RequeueAfter(RequeueSeconds))
  }

  /**
   * What Update achieves once its reads succeeded: it fails exactly when the
   * status could not be stored; otherwise the observed status is stored, and
   * the call is done exactly when that status is ready.
   */
  lemma UpdateOutcome(st0: StoreState, st1: StoreState, ref: Ref, status: MachineStatus, r: Outcome)
    requires UpdateEffect(st0, st1, ref, status, r)
    ensures r == Failed(UpdateStatusStep) <==>
      RetryUpdate(st0, ref, StatusField, ToRawMachineStatus(status), Corrected).last.err.Some?
    ensures !r.Failed? ==>
      && ref in st1.objects && ToMachineProviderStatus(st1.objects[ref].status.provider) == Ok(status)
      && (r.Done? <==> status.ready)
      && (r.RequeueAfter? ==> r.seconds == RequeueSeconds)
  {
    if !r.Failed? {
      StatusHelperStores(st0, st1, ref, status, r, if status.ready then Done else RequeueAfter(RequeueSeconds));
    }
  }

  class Actuator {
    /** The API server and the Packet API. */
    const world: World

    constructor(world: World)
      ensures this.world == world
    {
      this.world := world;
    }

    /**
     * The last step of Create, Delete and Update: store `status` for the
     * machine through the status helper, then end with `success`, or fail at
     * the status step when the helper fails.
     */
    method RecordStatus(machine: Object, status: MachineStatus, success: Outcome) returns (r: Outcome)
      modifies world
      ensures StatusHelperRan(old(world.store), world.store, MachineRef(machine), status, r, success)
      ensures r == success || r == Failed(UpdateStatusStep)
      ensures world.remote == old(world.remote)
      ensures old(world.events) <= world.events
      ensures var evs := world.events[|old(world.events)|..];
        && (r != success ==> evs == [])
        && (evs == [] || (|evs| == 1 && StatusWritten(evs[0], MachineRef(machine), status)))
      ensures world.events == old(world.events)
        || (|world.events| == |old(world.events)| + 1 && StatusWritten(world.events[|old(world.events)|], MachineRef(machine), status))
      ensures r == success && success != Failed(UpdateStatusStep) ==>
        MachineRef(machine) in world.store.objects
        && ToMachineProviderStatus(world.store.objects[MachineRef(machine)].status.provider) == Ok(status)
    {
      ghost var e0, st0 := world.events, world.store;
      var err := UpdateMachineProviderStatus(world, machine.key, status);
      r := if err.Some? then Failed(UpdateStatusStep) else success;
      if r == success && success != Failed(UpdateStatusStep) {
        StatusHelperStores(st0, world.store, MachineRef(machine), status, r, success);
      }
      if |world.events| > |e0| {
        MachineStatusRoundTrip(status);
        assert IsProviderWrite(world.events[|e0|], MachineRef(machine), StatusField, ToRawMachineStatus(status));
        assert world.events[|e0|..] == [world.events[|e0|]];
      }
    }

    /** The first effect of Create: store `newSpec` as the machine's provider spec through the spec helper. */
    method WriteSpec(machine: Object, newSpec: MachineSpec) returns (err: Option<UpdateError>)
      modifies world
      ensures var o := RetryUpdate(old(world.store), MachineRef(machine), SpecField, ToRawMachineSpec(newSpec), Corrected);
        world.store == o.last.store && err == o.last.err
      ensures world.remote == old(world.remote)
      ensures old(world.events) <= world.events
      ensures var evs := world.events[|old(world.events)|..];
        && (err.Some? ==> evs == [])
        && (evs == [] || (|evs| == 1 && SpecWritten(evs[0], MachineRef(machine), newSpec)))
    {
      ghost var e0 := world.events;
      err := UpdateMachineProviderSpec(world, machine.key, newSpec);
      if |world.events| > |e0| {
        MachineSpecRoundTrip(newSpec);
        assert IsProviderWrite(world.events[|e0|], MachineRef(machine), SpecField, ToRawMachineSpec(newSpec));
        assert world.events[|e0|..] == [world.events[|e0|]];
      }
    }

    /** The effects of Create after its spec write: create the device from the spec, store the device's status. */
    method CreateAndRecord(machine: Object, c: Client, cell: SpecCell) returns (r: Outcome)
      modifies world, cell
      ensures r in {RequeueAfter(RequeueSeconds), Failed(CreateDeviceStep), Failed(UpdateStatusStep)}
      ensures old(world.events) <= world.events
      ensures AfterSpecWrite(world.events[|old(world.events)|..], MachineRef(machine), old(cell.value), r)
      ensures RecordEffect(old(world.store), old(world.remote), world.store, world.remote, MachineRef(machine),
                           RequestFor(WithDefaultBilling(old(cell.value))), r)
    {
      ghost var e0 := world.events;
      ghost var st0 := world.store;
      ghost var rm0 := world.remote;
      ghost var req := RequestFor(WithDefaultBilling(cell.value));
      var created := CreateDevice(world, c, cell);
      if created.Err? {
        return Failed(CreateDeviceStep);
      }
      ghost var id := created.value.id;
      ghost var e1 := world.events;
      ghost var createdEv := DeviceCreated(req, id);
      assert e1 == e0 + [createdEv];
      assert world.remote.devices[id] == Device(id, AcceptedState, [], req);
      assert DeviceAdded(rm0, world.remote, id, req);
      NewDeviceStatus(id, req);
      assert created.value == QueuedStatus(id);
      r := RecordStatus(machine, created.value, RequeueAfter(RequeueSeconds));
      AppendedInTwoSteps(e0, e1, world.events);
    }

    /**
     * The effects of Create, in order: store the spec, create the device from
     * it, store the device's status; then ask to be called again in 15 seconds.
     */
    method Provision(machine: Object, c: Client, newSpec: MachineSpec) returns (r: Outcome)
      modifies world
      ensures r in {RequeueAfter(RequeueSeconds), Failed(UpdateSpecStep), Failed(CreateDeviceStep), Failed(UpdateStatusStep)}
      ensures old(world.events) <= world.events
      ensures CreateTrace(world.events[|old(world.events)|..], MachineRef(machine), newSpec, r)
      ensures ProvisionEffect(old(world.store), old(world.remote), world.store, world.remote, MachineRef(machine), newSpec, r)
    {
      var cell := new SpecCell(newSpec);
      ghost var e0, st0, rm0 := world.events, world.store, world.remote;
      var err := WriteSpec(machine, cell.value);
      if err.Some? {
        return Failed(UpdateSpecStep);
      }
      ghost var e1, stMid := world.events, world.store;
      ghost var specEvs := e1[|e0|..];
      r := CreateAndRecord(machine, c, cell);
      ghost var rest := world.events[|e1|..];
      ProvisionComposes(st0, rm0, stMid, world.store, world.remote, MachineRef(machine), newSpec, specEvs, rest, r);
      AppendedInTwoSteps(e0, e1, world.events);
    }

    /**
     * Create: read the cluster, its secret and the machine, look up the
     * project, then provision the device with the overlaid spec.
     */
    method Create(cluster: Option<Object>, machine: Object) returns (r: Outcome)
      modifies world
      ensures !r.Done?
      ensures r.RequeueAfter? ==> r.seconds == RequeueSeconds
      ensures old(world.events) <= world.events
      ensures var p := PrepareCreate(cluster, machine, old(world.store), old(world.remote));
        && (p.Err? ==>
              r == Failed(p.error) && world.store == old(world.store) && world.remote == old(world.remote)
              && world.events == old(world.events))
        && (p.Ok? ==> CreateTrace(world.events[|old(world.events)|..], MachineRef(machine), p.value.newSpec, r))
        && (p.Ok? ==> ProvisionEffect(old(world.store), old(world.remote), world.store, world.remote, MachineRef(machine), p.value.newSpec, r))
    {
      if cluster.None? {
        return Failed(MissingClusterStep);
      }
      var clusterSpec := ToClusterProviderSpec(cluster.value.res.spec.provider);
      if clusterSpec.Err? {
        return Failed(DecodeClusterSpecStep);
      }
      var secret := GetSecret(world.store, SecretKey(cluster.value, clusterSpec.value));
      if secret.Err? {
        return Failed(GetSecretStep);
      }
      var c := NewClient(secret.value);
      if c.Err? {
        return Failed(NewClientStep);
      }
      var spec := ToMachineProviderSpec(machine.res.spec.provider);
      if spec.Err? {
        return Failed(DecodeMachineSpecStep);
      }
      var status := ToMachineProviderStatus(machine.res.status.provider);
      if status.Err? {
        return Failed(DecodeMachineStatusStep);
      }
      // A device ID already in the status is only logged; creation goes ahead.
      var projectID := ProjectIDByName(c.value, world.remote, clusterSpec.value.project);
      if projectID.Err? {
        return Failed(GetProjectIDStep);
      }
      r := Provision(machine, c.value, Overlay(spec.value, projectID.value, machine.key.name, clusterSpec.value));
    }

    /** The effects of Delete: delete the device, tolerating one already gone, then store the zero status. */
    method Teardown(machine: Object, c: Client, id: string) returns (r: Outcome)
      modifies world
      ensures r == Done || r == Failed(DeleteDeviceStep) || r == Failed(UpdateStatusStep)
      ensures old(world.events) <= world.events
      ensures DeleteTrace(world.events[|old(world.events)|..], MachineRef(machine), id, r)
      ensures r == Failed(DeleteDeviceStep) <==>
        DeleteDeviceApi in old(world.remote.faults) && old(world.remote.faults)[DeleteDeviceApi] != HttpStatus(HttpNotFound)
      ensures r == Failed(DeleteDeviceStep) ==> world.store == old(world.store) && world.remote == old(world.remote)
      ensures r.Done? && DeleteDeviceApi !in old(world.remote.faults) ==> id !in world.remote.devices
      ensures TeardownEffect(old(world.store), old(world.remote), world.store, world.remote, MachineRef(machine), id, r)
    {
      ghost var e0 := world.events;
      var err := DeleteDevice(world, c, id);
      if err.Some? && !IsNotFoundError(err.value) {
        return Failed(DeleteDeviceStep);
      }
      ghost var e1 := world.events;
      ghost var deleteEvs := e1[|e0|..];
      assert deleteEvs == [] || deleteEvs == [DeviceDeleted(id)];
      r := RecordStatus(machine, ZeroMachineStatus, Done);
      AppendedInTwoSteps(e0, e1, world.events);
    }

    /** Delete: read the cluster, its secret and the machine's device ID, then tear the device down. */
    method Delete(cluster: Option<Object>, machine: Object) returns (r: Outcome)
      modifies world
      ensures r.Done? || r.Failed?
      ensures old(world.events) <= world.events
      ensures var p := PrepareDelete(cluster, machine, old(world.store));
        && (p.Err? ==>
              r == Failed(p.error) && world.store == old(world.store) && world.remote == old(world.remote)
              && world.events == old(world.events))
        && (p.Ok? ==>
              && DeleteTrace(world.events[|old(world.events)|..], MachineRef(machine), p.value.id, r)
              && (r == Failed(DeleteDeviceStep) <==>
                    DeleteDeviceApi in old(world.remote.faults)
                    && old(world.remote.faults)[DeleteDeviceApi] != HttpStatus(HttpNotFound))
              && (r.Done? && DeleteDeviceApi !in old(world.remote.faults) ==> p.value.id !in world.remote.devices)
              && TeardownEffect(old(world.store), old(world.remote), world.store, world.remote, MachineRef(machine), p.value.id, r))
    {
      if cluster.None? {
        return Failed(MissingClusterStep);
      }
      var clusterSpec := ToClusterProviderSpec(cluster.value.res.spec.provider);
      if clusterSpec.Err? {
        return Failed(DecodeClusterSpecStep);
      }
      var secret := GetSecret(world.store, SecretKey(cluster.value, clusterSpec.value));
      if secret.Err? {
        return Failed(GetSecretStep);
      }
      var c := NewClient(secret.value);
      if c.Err? {
        return Failed(NewClientStep);
      }
      var status := ToMachineProviderStatus(machine.res.status.provider);
      if status.Err? {
        return Failed(DecodeMachineStatusStep);
      }
      if status.value.id == "" {
        return Failed(StatusIDNotSetStep);
      }
      r := Teardown(machine, c.value, status.value.id);
    }

    /**
     * Update: record the device's current status (the zero status if the
     * device is gone), then finish if it is ready or requeue in 15 seconds.
     */
    method Update(cluster: Option<Object>, machine: Object) returns (r: Outcome)
      modifies world
      ensures world.remote == old(world.remote)
      ensures var p := PrepareUpdate(cluster, machine, old(world.store), old(world.remote));
        && (p.Err? ==> r == Failed(p.error) && world.store == old(world.store) && world.events == old(world.events))
        && (p.Ok? ==>
              && (r == Failed(UpdateStatusStep) || r == (if p.value.ready then Done else RequeueAfter(RequeueSeconds)))
              && (r.Failed? ==> world.events == old(world.events))
              && (!r.Failed? ==>
                    && MachineRef(machine) in world.store.objects
                    && ToMachineProviderStatus(world.store.objects[MachineRef(machine)].status.provider) == Ok(p.value)
                    && (world.events == old(world.events)
                        || (|world.events| == |old(world.events)| + 1
                            && StatusWritten(world.events[|old(world.events)|], MachineRef(machine), p.value))))
              && UpdateEffect(old(world.store), world.store, MachineRef(machine), p.value, r))
    {
      if cluster.None? {
        return Failed(MissingClusterStep);
      }
      var clusterSpec := ToClusterProviderSpec(cluster.value.res.spec.provider);
      if clusterSpec.Err? {
        return Failed(DecodeClusterSpecStep);
      }
      var secret := GetSecret(world.store, SecretKey(cluster.value, clusterSpec.value));
      if secret.Err? {
        return Failed(GetSecretStep);
      }
      var c := NewClient(secret.value);
      if c.Err? {
        return Failed(NewClientStep);
      }
      var status := ToMachineProviderStatus(machine.res.status.provider);
      if status.Err? {
        return Failed(DecodeMachineStatusStep);
      }
      var newStatus: MachineStatus;
      var got := GetDevice(c.value, world.remote, status.value.id);
      if got.Ok? {
        newStatus := got.value;
      } else if IsNotFoundError(got.error) {
        newStatus := ZeroMachineStatus;
      } else {
        return Failed(GetDeviceStep);
      }
      r := RecordStatus(machine, newStatus, if newStatus.ready then Done else RequeueAfter(RequeueSeconds));
    }

    /**
     * Exists: whether the machine's device exists. A machine with no device
     * ID does not exist, which is answered without a client or an API call,
     * but only after the secret was fetched.
     */
    method Exists(cluster: Option<Object>, machine: Object) returns (r: Result<bool, Step>)
      ensures cluster.None? ==> r == Err(MissingClusterStep)
      ensures cluster.Some? && ToClusterProviderSpec(cluster.value.res.spec.provider).Err? ==> r == Err(DecodeClusterSpecStep)
      ensures cluster.Some? && ToClusterProviderSpec(cluster.value.res.spec.provider).Ok? ==>
        var key := SecretKey(cluster.value, ToClusterProviderSpec(cluster.value.res.spec.provider).value);
        var status := ToMachineProviderStatus(machine.res.status.provider);
        && (key !in world.store.secrets ==> r == Err(GetSecretStep))
        && (key in world.store.secrets && status.Err? ==> r == Err(DecodeMachineStatusStep))
        && (key in world.store.secrets && status.Ok? && status.value.id == "" ==> r == Ok(false))
        && (key in world.store.secrets && status.Ok? && status.value.id != "" ==>
              && (NewClient(world.store.secrets[key]).Err? ==> r == Err(NewClientStep))
              && (NewClient(world.store.secrets[key]).Ok? ==>
                    var answer := DoesDeviceExist(NewClient(world.store.secrets[key]).value, world.remote, status.value.id);
                    r == (if answer.Ok? then Ok(answer.value) else Err(DoesDeviceExistStep))))
      ensures r == Ok(true) ==>
        var id := ToMachineProviderStatus(machine.res.status.provider).value.id;
        id != "" && GetDeviceApi !in world.remote.faults && id in world.remote.devices
    {
      if cluster.None? {
        return Err(MissingClusterStep);
      }
      var clusterSpec := ToClusterProviderSpec(cluster.value.res.spec.provider);
      if clusterSpec.Err? {
        return Err(DecodeClusterSpecStep);
      }
      var secret := GetSecret(world.store, SecretKey(cluster.value, clusterSpec.value));
      if secret.Err? {
        return Err(GetSecretStep);
      }
      var status := ToMachineProviderStatus(machine.res.status.provider);
      if status.Err? {
        return Err(DecodeMachineStatusStep);
      }
      if status.value.id == "" {
        return Ok(false);
      }
      var c := NewClient(secret.value);
      if c.Err? {
        return Err(NewClientStep);
      }
      var exist := DoesDeviceExist(c.value, world.remote, status.value.id);
      if exist.Err? {
        return Err(DoesDeviceExistStep);
      }
      r := Ok(exist.value);
    }
  }
}
