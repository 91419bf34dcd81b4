/**
 * The cluster actuator: Reconcile records the Packet project ID in the
 * cluster's provider status, Delete clears it. Each writes the status
 * subresource once, directly and without retry, and only when the value changes.
 */
module ClusterActuator {
  import opened Wrappers
  import opened Json
  import opened Types
  import opened Codec
  import opened Env
  import opened Util
  import opened PacketClient

  /** The step at which a call stopped. */
  datatype Step = DecodeSpecStep | DecodeStatusStep | GetSecretStep | NewClientStep | GetProjectIDStep | UpdateStatusStep

  /** The decoded status and the status the call wants to store. */
  datatype Change = Change(current: ClusterStatus, wanted: ClusterStatus)

  function RefOf(cluster: Object): Ref {
    Ref(ClusterKind, cluster.key)
  }

  /** Everything Reconcile reads before deciding whether to write: decode, secret, client, project lookup. */
  function PlanReconcile(cluster: Object, st: StoreState, rm: RemoteState): (r: Result<Change, Step>)
    ensures r.Ok? ==>
      && ToClusterProviderStatus(cluster.res.status.provider) == Ok(r.value.current)
      && r.value.wanted == r.value.current.(projectID := r.value.wanted.projectID)
  {
    var spec := ToClusterProviderSpec(cluster.res.spec.provider);
    if spec.Err? then Err(DecodeSpecStep)
    else
      var status := ToClusterProviderStatus(cluster.res.status.provider);
      if status.Err? then Err(DecodeStatusStep)
      else
        var secret := GetSecret(st, SecretKey(cluster, spec.value));
        if secret.Err? then Err(GetSecretStep)
        else
          var c := NewClient(secret.value);
          if c.Err? then Err(NewClientStep)
          else
            var projectID := ProjectIDByName(c.value, rm, spec.value.project);
            if projectID.Err? then Err(GetProjectIDStep)
            else Ok(Change(status.value, status.value.(projectID := projectID.value)))
  }

  /** What Delete reads: only the decoded status. */
  function PlanDelete(cluster: Object): (r: Result<Change, Step>)
    ensures r.Ok? <==> ToClusterProviderStatus(cluster.res.status.provider).Ok?
    ensures r.Err? ==> r.error == DecodeStatusStep
    ensures r.Ok? ==> ToClusterProviderStatus(cluster.res.status.provider) == Ok(r.value.current) && r.value.wanted == ZeroClusterStatus
  {
    var status := ToClusterProviderStatus(cluster.res.status.provider);
    if status.Err? then Err(DecodeStatusStep)
    else Ok(Change(status.value, status.value.(projectID := "")))
  }

  /** The record submitted to the status endpoint: the cluster as read, carrying the encoded status. */
  function Submitted(cluster: Object, status: ClusterStatus): Resource {
    WithProvider(cluster.res, StatusField, ToRawClusterStatus(status))
  }

  /**
   * Reconcile fails exactly when a read fails, at the first failing read;
   * otherwise the wanted status carries the ID of the first project named in
   * the spec, and nothing else of the status changes.
   */
  lemma ReconcileSetsProjectID(cluster: Object, st: StoreState, rm: RemoteState)
    ensures var p := PlanReconcile(cluster, st, rm);
      var spec := ToClusterProviderSpec(cluster.res.spec.provider);
      var status := ToClusterProviderStatus(cluster.res.status.provider);
      && (spec.Err? ==> p == Err(DecodeSpecStep))
      && (spec.Ok? && status.Err? ==> p == Err(DecodeStatusStep))
      && (spec.Ok? && status.Ok? ==>
            var key := SecretKey(cluster, spec.value);
            && (key !in st.secrets ==> p == Err(GetSecretStep))
            && (key in st.secrets && SecretKeyAPIKey !in st.secrets[key].data ==> p == Err(NewClientStep))
            && (key in st.secrets && SecretKeyAPIKey in st.secrets[key].data ==>
                  && (ListProjectsApi in rm.faults ==> p == Err(GetProjectIDStep))
                  && (ListProjectsApi !in rm.faults ==>
                        (p.Ok? <==> exists i :: 0 <= i < |rm.projects| && rm.projects[i].name == spec.value.project))
                  && (ListProjectsApi !in rm.faults && |rm.projects| > 0 && rm.projects[0].name == spec.value.project ==>
                        p.Ok? && p.value.wanted.projectID == rm.projects[0].id)
                  && (p.Err? ==> p == Err(GetProjectIDStep))))
      && (p.Ok? ==>
            && spec.Ok?
            && status == Ok(p.value.current)
            && SecretKey(cluster, spec.value) in st.secrets
            && SecretKeyAPIKey in st.secrets[SecretKey(cluster, spec.value)].data
            && ListProjectsApi !in rm.faults
            && (exists i :: IsFirstNamed(rm.projects, spec.value.project, i) && p.value.wanted.projectID == rm.projects[i].id)
            && p.value.wanted == p.value.current.(projectID := p.value.wanted.projectID))
  {
  }

  /** A second Reconcile against the same secret and projects, on the cluster as the first one stored it, writes nothing. */
  lemma ReconcileSecondTimeNoWrite(cluster: Object, st: StoreState, rm: RemoteState)
    requires PlanReconcile(cluster, st, rm).Ok?
    ensures var p := PlanReconcile(cluster, st, rm);
      var again := PlanReconcile(Object(cluster.key, Submitted(cluster, p.value.wanted)), st, rm);
      again == Ok(Change(p.value.wanted, p.value.wanted))
  {
    var p := PlanReconcile(cluster, st, rm);
    ClusterStatusRoundTrip(p.value.wanted);
  }

  /** Delete changes nothing but the project ID, which it clears; it needs neither a secret nor the API. */
  lemma DeleteClearsProjectID(cluster: Object)
    ensures var p := PlanDelete(cluster);
      && (p.Ok? <==> ToClusterProviderStatus(cluster.res.status.provider).Ok?)
      && (p.Ok? ==> p.value.wanted == ZeroClusterStatus
                    && (p.value.wanted == p.value.current <==> p.value.current.projectID == ""))
  {
  }

  class Actuator {
    /** The API server and the Packet API. */
    const world: World

    constructor(world: World)
      ensures this.world == world
    {
      this.world := world;
    }

    /** Writes `wanted` when it differs from `current`, through the status endpoint, once. */
    method WriteIfChanged(cluster: Object, c: Change) returns (err: Option<Step>)
      modifies world
      ensures c.wanted == c.current ==>
        err.None? && world.store == old(world.store) && world.events == old(world.events)
      ensures c.wanted != c.current ==>
        var o := ApplyWrite(old(world.store), StatusUpdate, RefOf(cluster), Submitted(cluster, c.wanted));
        && world.store == o.store
        && (err.None? <==> o.result.Ok?)
        && (err.Some? ==> err.value == UpdateStatusStep)
        && world.events == old(world.events) + (if o.result.Ok? then [Wrote(StatusUpdate, RefOf(cluster), o.result.value)] else [])
      ensures world.remote == old(world.remote)
    {
      if c.wanted != c.current {
        var r := world.Update(StatusUpdate, RefOf(cluster), Submitted(cluster, c.wanted));
        if r.Err? {
          return Some(UpdateStatusStep);
        }
      }
      err := None;
    }

    /** Reconcile: resolve the project ID and record it in the provider status if it changed. */
    method Reconcile(cluster: Object) returns (err: Option<Step>)
      modifies world
      ensures var p := PlanReconcile(cluster, old(world.store), old(world.remote));
        && (p.Err? ==> err == Some(p.error) && world.store == old(world.store) && world.events == old(world.events))
        && (p.Ok? && p.value.wanted == p.value.current ==>
              err.None? && world.store == old(world.store) && world.events == old(world.events))
        && (p.Ok? && p.value.wanted != p.value.current ==>
              var o := ApplyWrite(old(world.store), StatusUpdate, RefOf(cluster), Submitted(cluster, p.value.wanted));
              && world.store == o.store
              && (err.None? <==> o.result.Ok?)
              && (err.Some? ==> err.value == UpdateStatusStep)
              && world.events == old(world.events) + (if o.result.Ok? then [Wrote(StatusUpdate, RefOf(cluster), o.result.value)] else []))
      ensures world.remote == old(world.remote)
    {
      var spec := ToClusterProviderSpec(cluster.res.spec.provider);
      if spec.Err? {
        return Some(DecodeSpecStep);
      }
      var status := ToClusterProviderStatus(cluster.res.status.provider);
      if status.Err? {
        return Some(DecodeStatusStep);
      }
      var secret := GetSecret(world.store, SecretKey(cluster, spec.value));
      if secret.Err? {
        return Some(GetSecretStep);
      }
      var c := NewClient(secret.value);
      if c.Err? {
        return Some(NewClientStep);
      }
      var projectID := ProjectIDByName(c.value, world.remote, spec.value.project);
      if projectID.Err? {
        return Some(GetProjectIDStep);
      }
      var newStatus := status.value.(projectID := projectID.value);
      err := WriteIfChanged(cluster, Change(status.value, newStatus));
    }

    /** Delete: clear the project ID in the provider status if it was set. */
    method Delete(cluster: Object) returns (err: Option<Step>)
      modifies world
      ensures var p := PlanDelete(cluster);
        && (p.Err? ==> err == Some(p.error) && world.store == old(world.store) && world.events == old(world.events))
        && (p.Ok? && p.value.current.projectID == "" ==>
              err.None? && world.store == old(world.store) && world.events == old(world.events))
        && (p.Ok? && p.value.current.projectID != "" ==>
              var o := ApplyWrite(old(world.store), StatusUpdate, RefOf(cluster), Submitted(cluster, ZeroClusterStatus));
              && world.store == o.store
              && (err.None? <==> o.result.Ok?)
              && (err.Some? ==> err.value == UpdateStatusStep)
              && world.events == old(world.events) + (if o.result.Ok? then [Wrote(StatusUpdate, RefOf(cluster), o.result.value)] else []))
      ensures world.remote == old(world.remote)
    {
      var status := ToClusterProviderStatus(cluster.res.status.provider);
      if status.Err? {
        return Some(DecodeStatusStep);
      }
      var newStatus := status.value.(projectID := "");
      err := WriteIfChanged(cluster, Change(status.value, newStatus));
    }
  }
}
