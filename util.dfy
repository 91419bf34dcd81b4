/**
 * The four provider-payload update helpers: fetch the latest record, overlay
 * the encoded payload on its spec or status, and submit it, retrying the whole
 * fetch-modify-submit cycle when the API server reports a conflict.
 *
 * `RetryUpdate` is the specification of the helpers; `Corrected` is the
 * behaviour the rest of the model uses, `AsWritten` the behaviour of the code
 * as written (see the Findings of this model).
 */
module Util {
  import opened Wrappers
  import opened Json
  import opened Types
  import opened Codec
  import opened Env

  /** Which half of a record carries the payload. */
  datatype Field = SpecField | StatusField

  /** Spec payloads are written through the main endpoint, status payloads through the status subresource. */
  function EndpointFor(f: Field): Endpoint {
    match f
    case SpecField => MainUpdate
    case StatusField => StatusUpdate
  }

  function ProviderOf(r: Resource, f: Field): Option<Json> {
    match f
    case SpecField => r.spec.provider
    case StatusField => r.status.provider
  }

  /** The record with its provider payload in `f` replaced by `payload`. */
  function WithProvider(r: Resource, f: Field, payload: Json): (u: Resource)
    ensures ProviderOf(u, f) == Some(payload)
    ensures u.resourceVersion == r.resourceVersion && u.meta == r.meta
    ensures f.SpecField? ==> u.spec.others == r.spec.others && u.status == r.status
    ensures f.StatusField? ==> u.status.others == r.status.others && u.spec == r.spec
  {
    match f
    case SpecField => r.(spec := r.spec.(provider := Some(payload)))
    case StatusField => r.(status := r.status.(provider := Some(payload)))
  }

  function Bumped(r: Resource): Resource {
    r.(resourceVersion := r.resourceVersion + 1)
  }

  /** retry.DefaultBackoff allows this many attempts. */
  const DefaultBackoffSteps: nat := 4

  /** The error a helper returns: the fetch failed, or the update request failed. */
  datatype UpdateError = GetFailed(cause: StoreError) | WriteFailed(cause: StoreError)

  /** The helper as written, or as evidently intended. */
  datatype Variant = AsWritten | Corrected

  /** The Go values compared by the change check: a pointer to a record, or a record. */
  datatype GoValue = Ptr(target: Resource) | Val(v: Resource)

  /** reflect.DeepEqual: values of different dynamic types are never equal. */
  predicate DeepEqual(a: GoValue, b: GoValue) {
    a == b
  }

  /** The change check: as written it compares a pointer with a record; intended, the two records. */
  predicate Unchanged(v: Variant, updated: Resource, fetched: Resource) {
    match v
    case AsWritten => DeepEqual(Ptr(updated), Val(fetched))
    case Corrected => updated == fetched
  }

  /**
   * The conflict test of the retry loop. The closure wraps every error with
   * %w, so the API status error is one level down: a test that unwraps finds
   * it, a test that switches on the outermost error's type never does.
   */
  predicate IsConflict(v: Variant, e: UpdateError) {
    match v
    case AsWritten => false
    case Corrected => e == WriteFailed(Conflict)
  }

  /** One run of the closure: the record it fetched, the record the server stored, and the error it returned. */
  datatype Attempt = Attempt(store: StoreState, basis: Option<Resource>, written: Option<Resource>, err: Option<UpdateError>)

  function AttemptOnce(s: StoreState, ref: Ref, f: Field, payload: Json, v: Variant): (a: Attempt)
    ensures a.written.Some? ==> a.err.None?
  {
    match Get(s, ref)
    case Err(e) => Attempt(s, None, None, Some(GetFailed(e)))
    case Ok(fetched) =>
      var updated := WithProvider(fetched, f, payload);
      if Unchanged(v, updated, fetched) then Attempt(s, Some(fetched), None, None)
      else
        var o := ApplyWrite(s, EndpointFor(f), ref, updated);
        match o.result
        case Ok(stored) => Attempt(o.store, Some(fetched), Some(stored), None)
        case Err(e) => Attempt(o.store, Some(fetched), None, Some(WriteFailed(e)))
  }

  /** The last attempt made and how many attempts there were. */
  datatype UpdateOutcome = UpdateOutcome(last: Attempt, attempts: nat)

  /** retry.RetryOnConflict from attempt number `attempt` on. */
  function RetryFrom(s: StoreState, ref: Ref, f: Field, payload: Json, v: Variant, attempt: nat): (o: UpdateOutcome)
    requires 1 <= attempt <= DefaultBackoffSteps
    decreases DefaultBackoffSteps - attempt
  {
    var a := AttemptOnce(s, ref, f, payload, v);
    if a.err.Some? && IsConflict(v, a.err.value) && attempt < DefaultBackoffSteps then
      RetryFrom(a.store, ref, f, payload, v, attempt + 1)
    else
      UpdateOutcome(a, attempt)
  }

  function RetryUpdate(s: StoreState, ref: Ref, f: Field, payload: Json, v: Variant): UpdateOutcome {
    RetryFrom(s, ref, f, payload, v, 1)
  }

  /** The store event of an outcome: one Wrote if the last attempt's update was accepted. */
  function Recorded(a: Attempt, ref: Ref, f: Field): seq<Event> {
    if a.written.Some? then [Wrote(EndpointFor(f), ref, a.written.value)] else []
  }

  // ---------------------------------------------------------------------------
  // Properties of the intended helper

  /**
   * Submitting the overlay of the fetched record through its endpoint stores
   * exactly that overlay, one version on, when it changes the record; an
   * overlay that changes nothing leaves the record and its version as they are.
   */
  lemma CommitOverlay(r: Resource, f: Field, payload: Json)
    ensures WithProvider(r, f, payload) != r ==>
      Commit(r, EndpointFor(f), WithProvider(r, f, payload)) == Bumped(WithProvider(r, f, payload))
    ensures WithProvider(r, f, payload) == r ==> Commit(r, EndpointFor(f), WithProvider(r, f, payload)) == r
  {
  }

  /**
   * One attempt: it fails on a missing record, skips an overlay that changes
   * nothing, and otherwise stores the overlay of the record it fetched or
   * reports why the server refused it. Nothing but `ref` and the race script changes.
   */
  lemma AttemptOnceSpec(s: StoreState, ref: Ref, f: Field, payload: Json)
    ensures var a := AttemptOnce(s, ref, f, payload, Corrected);
      && (ref !in s.objects ==> a == Attempt(s, None, None, Some(GetFailed(NotFound))))
      && (ref in s.objects && ProviderOf(s.objects[ref], f) == Some(payload) ==>
            a == Attempt(s, Some(s.objects[ref]), None, None))
      && (ref in s.objects && ProviderOf(s.objects[ref], f) != Some(payload) ==>
            && a.basis == Some(s.objects[ref])
            && (NextRace(s) == Quiet <==> a.written.Some?)
            && (NextRace(s).Interleaved? <==> a.err == Some(WriteFailed(Conflict)))
            && (NextRace(s).Refused? <==> a.err == Some(WriteFailed(Rejected))))
      && (a.err.None? ==> ref in a.store.objects && ProviderOf(a.store.objects[ref], f) == Some(payload))
      && (a.written.Some? ==>
            a.written.value == Bumped(WithProvider(s.objects[ref], f, payload)) && a.store.objects == s.objects[ref := a.written.value])
      && a.store.objects.Keys == s.objects.Keys
      && (forall r :: r != ref && r in s.objects ==> a.store.objects[r] == s.objects[r])
      && a.store.secrets == s.secrets
  {
    if ref in s.objects {
      var fetched := s.objects[ref];
      var updated := WithProvider(fetched, f, payload);
      ApplyWriteConcurrency(s, EndpointFor(f), ref, updated);
      CommitOverlay(fetched, f, payload);
      if ProviderOf(fetched, f) == Some(payload) {
        assert updated == fetched by {
          match f
          case SpecField => assert fetched.spec == updated.spec;
          case StatusField => assert fetched.status == updated.status;
        }
      }
    }
  }

  /**
   * The helper as a whole: at most DefaultBackoffSteps attempts; a conflict is
   * returned only when they are used up, every other outcome ends the loop at
   * once; on success the record carries the payload; and no other record or
   * secret changes.
   */
  lemma {:induction false} RetrySpec(s: StoreState, ref: Ref, f: Field, payload: Json, attempt: nat)
    requires 1 <= attempt <= DefaultBackoffSteps
    ensures var o := RetryFrom(s, ref, f, payload, Corrected, attempt);
      && attempt <= o.attempts <= DefaultBackoffSteps
      && (o.last.err == Some(WriteFailed(Conflict)) ==> o.attempts == DefaultBackoffSteps)
      && (o.last.err.None? ==> ref in o.last.store.objects && ProviderOf(o.last.store.objects[ref], f) == Some(payload))
      && (o.last.written.Some? ==>
            && o.last.basis.Some? && o.last.written.value == Bumped(WithProvider(o.last.basis.value, f, payload))
            && ref in o.last.store.objects && o.last.store.objects[ref] == o.last.written.value)
      && o.last.store.objects.Keys == s.objects.Keys
      && (forall r :: r != ref && r in s.objects ==> o.last.store.objects[r] == s.objects[r])
      && o.last.store.secrets == s.secrets
    decreases DefaultBackoffSteps - attempt
  {
    var a := AttemptOnce(s, ref, f, payload, Corrected);
    AttemptOnceSpec(s, ref, f, payload);
    if a.err.Some? && IsConflict(Corrected, a.err.value) && attempt < DefaultBackoffSteps {
      RetrySpec(a.store, ref, f, payload, attempt + 1);
    } else if a.written.Some? {
      assert a.basis == Some(s.objects[ref]);
    }
  }

  /** A payload the record already carries is not written again, and the call succeeds. */
  lemma UnchangedPayloadNoWrite(s: StoreState, ref: Ref, f: Field, payload: Json)
    requires ref in s.objects && ProviderOf(s.objects[ref], f) == Some(payload)
    ensures RetryUpdate(s, ref, f, payload, Corrected) == UpdateOutcome(Attempt(s, Some(s.objects[ref]), None, None), 1)
  {
    AttemptOnceSpec(s, ref, f, payload);
  }

  /**
   * A conflicting write is retried against the latest record: when another
   * client updates the record before the first attempt lands, the second
   * attempt fetches that client's version and stores the payload on top of it.
   */
  lemma ConflictThenSuccess(s: StoreState, ref: Ref, f: Field, payload: Json, other: Resource)
    requires ref in s.objects && ProviderOf(s.objects[ref], f) != Some(payload)
    requires |s.races| >= 2 && s.races[0] == Interleaved(other) && s.races[1] == Quiet
    requires ProviderOf(other, f) != Some(payload)
    ensures var o := RetryUpdate(s, ref, f, payload, Corrected);
      var latest := other.(resourceVersion := s.objects[ref].resourceVersion + 1);
      && o.attempts == 2
      && o.last.err.None?
      && o.last.written == Some(Bumped(WithProvider(latest, f, payload)))
  {
    var a := AttemptOnce(s, ref, f, payload, Corrected);
    AttemptOnceSpec(s, ref, f, payload);
    var s1 := a.store;
    assert s1.objects[ref] == other.(resourceVersion := s.objects[ref].resourceVersion + 1);
    assert s1.races == s.races[1..];
    AttemptOnceSpec(s1, ref, f, payload);
    var b := AttemptOnce(s1, ref, f, payload, Corrected);
    assert RetryFrom(s, ref, f, payload, Corrected, 1) == RetryFrom(s1, ref, f, payload, Corrected, 2);
    assert RetryFrom(s1, ref, f, payload, Corrected, 2) == UpdateOutcome(b, 2);
  }

  /** A refusal other than a conflict is returned after the first attempt. */
  lemma RefusalNotRetried(s: StoreState, ref: Ref, f: Field, payload: Json)
    requires ref in s.objects && ProviderOf(s.objects[ref], f) != Some(payload)
    requires NextRace(s) == Refused
    ensures var o := RetryUpdate(s, ref, f, payload, Corrected);
      o.attempts == 1 && o.last.err == Some(WriteFailed(Rejected)) && o.last.written.None?
  {
    AttemptOnceSpec(s, ref, f, payload);
  }

  // ---------------------------------------------------------------------------
  // The helpers as written

  /** A pointer never deep-equals a record, so the as-written change check never holds. */
  lemma AsWrittenNeverUnchanged(updated: Resource, fetched: Resource)
    ensures !Unchanged(AsWritten, updated, fetched)
  {
  }

  /**
   * As written, a payload the record already carries is still submitted. The
   * request is answered with the record as it was when no one else writes it,
   * but it fails with a conflict when another client has updated the record in
   * between, and with the server's refusal when it refuses; the intended helper
   * sends nothing and succeeds (UnchangedPayloadNoWrite).
   */
  lemma AsWrittenResubmitsUnchanged(s: StoreState, ref: Ref, f: Field, payload: Json)
    requires ref in s.objects && ProviderOf(s.objects[ref], f) == Some(payload)
    ensures var o := RetryUpdate(s, ref, f, payload, AsWritten);
      && o.attempts == 1
      && o.last.store.races == RaceConsumed(s).races
      && (NextRace(s) == Quiet ==> o.last.err.None? && o.last.written == Some(s.objects[ref]) && o.last.store.objects == s.objects)
      && (NextRace(s).Interleaved? ==> o.last.err == Some(WriteFailed(Conflict)))
      && (NextRace(s).Refused? ==> o.last.err == Some(WriteFailed(Rejected)))
  {
    var fetched := s.objects[ref];
    var updated := WithProvider(fetched, f, payload);
    assert updated == fetched by {
      match f
      case SpecField => assert fetched.spec == updated.spec;
      case StatusField => assert fetched.status == updated.status;
    }
    AsWrittenNeverUnchanged(updated, fetched);
    ApplyWriteConcurrency(s, EndpointFor(f), ref, updated);
    CommitOverlay(fetched, f, payload);
  }

  /** As written, the first conflict is returned to the caller: the loop never retries. */
  lemma AsWrittenDoesNotRetry(s: StoreState, ref: Ref, f: Field, payload: Json)
    requires ref in s.objects && NextRace(s).Interleaved?
    ensures var o := RetryUpdate(s, ref, f, payload, AsWritten);
      o.attempts == 1 && o.last.err == Some(WriteFailed(Conflict))
  {
    var fetched := s.objects[ref];
    var updated := WithProvider(fetched, f, payload);
    ApplyWriteConcurrency(s, EndpointFor(f), ref, updated);
  }

  // ---------------------------------------------------------------------------
  // The helpers

  /** The closure passed to RetryOnConflict. */
  method AttemptUpdate(w: World, ref: Ref, f: Field, payload: Json) returns (err: Option<UpdateError>)
    modifies w
    ensures var a := AttemptOnce(old(w.store), ref, f, payload, Corrected);
      && w.store == a.store && err == a.err && w.remote == old(w.remote)
      && w.events == old(w.events) + Recorded(a, ref, f)
  {
    var got := Get(w.store, ref);
    if got.Err? {
      return Some(GetFailed(got.error));
    }
    var fetched := got.value;
    var updated := WithProvider(fetched, f, payload);
    if updated == fetched {
      return None;
    }
    var r := w.Update(EndpointFor(f), ref, updated);
    if r.Err? {
      return Some(WriteFailed(r.error));
    }
    err := None;
  }

  /** An accepted write of `ref`, through the endpoint of `f`, whose stored record carries `payload`. */
  predicate IsProviderWrite(e: Event, ref: Ref, f: Field, payload: Json) {
    e.Wrote? && e.endpoint == EndpointFor(f) && e.ref == ref && ProviderOf(e.stored, f) == Some(payload)
  }

  /** What a helper call appends to the effects: nothing, or one write of the payload. */
  predicate AppendedWrite(before: seq<Event>, after: seq<Event>, ref: Ref, f: Field, payload: Json) {
    after == before || (|after| == |before| + 1 && after[..|before|] == before && IsProviderWrite(after[|before|], ref, f, payload))
  }

  /** A helper call records nothing when it fails, and at most one write of the payload when it succeeds. */
  lemma RecordedWrite(s: StoreState, ref: Ref, f: Field, payload: Json, before: seq<Event>)
    ensures var o := RetryUpdate(s, ref, f, payload, Corrected);
      && (o.last.err.Some? ==> Recorded(o.last, ref, f) == [])
      && AppendedWrite(before, before + Recorded(o.last, ref, f), ref, f, payload)
      && (o.last.err.None? ==> ref in o.last.store.objects && ProviderOf(o.last.store.objects[ref], f) == Some(payload))
  {
    RetrySpec(s, ref, f, payload, 1);
    var o := RetryUpdate(s, ref, f, payload, Corrected);
    assert (before + Recorded(o.last, ref, f))[..|before|] == before;
  }

  /** The shared body of the four helpers: RetryOnConflict(DefaultBackoff, closure). */
  method UpdateProvider(w: World, ref: Ref, f: Field, payload: Json) returns (err: Option<UpdateError>)
    modifies w
    ensures var o := RetryUpdate(old(w.store), ref, f, payload, Corrected);
      && w.store == o.last.store && err == o.last.err && w.remote == old(w.remote)
      && w.events == old(w.events) + Recorded(o.last, ref, f)
  {
    var attempt := 1;
    while true
      invariant 1 <= attempt <= DefaultBackoffSteps
      invariant RetryUpdate(old(w.store), ref, f, payload, Corrected) == RetryFrom(w.store, ref, f, payload, Corrected, attempt)
      invariant w.remote == old(w.remote) && w.events == old(w.events)
      decreases DefaultBackoffSteps - attempt
    {
      ghost var before := w.store;
      err := AttemptUpdate(w, ref, f, payload);
      if !(err.Some? && IsConflict(Corrected, err.value) && attempt < DefaultBackoffSteps) {
        return;
      }
      assert AttemptOnce(before, ref, f, payload, Corrected).written.None?;
      attempt := attempt + 1;
    }
  }

  /** UpdateClusterProviderSpec: on success the cluster's provider spec decodes to `newSpec`. */
  method UpdateClusterProviderSpec(w: World, clusterKey: Key, newSpec: ClusterSpec) returns (err: Option<UpdateError>)
    modifies w
    ensures var ref := Ref(ClusterKind, clusterKey);
      var o := RetryUpdate(old(w.store), ref, SpecField, ToRawClusterSpec(newSpec), Corrected);
      && w.store == o.last.store && err == o.last.err && w.remote == old(w.remote)
      && w.events == old(w.events) + Recorded(o.last, ref, SpecField)
    ensures err.Some? ==> w.events == old(w.events)
    ensures AppendedWrite(old(w.events), w.events, Ref(ClusterKind, clusterKey), SpecField, ToRawClusterSpec(newSpec))
    ensures err.None? ==>
      Ref(ClusterKind, clusterKey) in w.store.objects && ToClusterProviderSpec(w.store.objects[Ref(ClusterKind, clusterKey)].spec.provider) == Ok(newSpec)
  {
    var ref := Ref(ClusterKind, clusterKey);
    RecordedWrite(w.store, ref, SpecField, ToRawClusterSpec(newSpec), w.events);
    err := UpdateProvider(w, ref, SpecField, ToRawClusterSpec(newSpec));
    ClusterSpecRoundTrip(newSpec);
  }

  /** UpdateClusterProviderStatus: on success the cluster's provider status decodes to `newStatus`. */
  method UpdateClusterProviderStatus(w: World, clusterKey: Key, newStatus: ClusterStatus) returns (err: Option<UpdateError>)
    modifies w
    ensures var ref := Ref(ClusterKind, clusterKey);
      var o := RetryUpdate(old(w.store), ref, StatusField, ToRawClusterStatus(newStatus), Corrected);
      && w.store == o.last.store && err == o.last.err && w.remote == old(w.remote)
      && w.events == old(w.events) + Recorded(o.last, ref, StatusField)
    ensures err.Some? ==> w.events == old(w.events)
    ensures AppendedWrite(old(w.events), w.events, Ref(ClusterKind, clusterKey), StatusField, ToRawClusterStatus(newStatus))
    ensures err.None? ==>
      Ref(ClusterKind, clusterKey) in w.store.objects && ToClusterProviderStatus(w.store.objects[Ref(ClusterKind, clusterKey)].status.provider) == Ok(newStatus)
  {
    var ref := Ref(ClusterKind, clusterKey);
    RecordedWrite(w.store, ref, StatusField, ToRawClusterStatus(newStatus), w.events);
    err := UpdateProvider(w, ref, StatusField, ToRawClusterStatus(newStatus));
    ClusterStatusRoundTrip(newStatus);
  }

  /** UpdateMachineProviderSpec: on success the machine's provider spec decodes to `newSpec`. */
  method UpdateMachineProviderSpec(w: World, machineKey: Key, newSpec: MachineSpec) returns (err: Option<UpdateError>)
    modifies w
    ensures var ref := Ref(MachineKind, machineKey);
      var o := RetryUpdate(old(w.store), ref, SpecField, ToRawMachineSpec(newSpec), Corrected);
      && w.store == o.last.store && err == o.last.err && w.remote == old(w.remote)
      && w.events == old(w.events) + Recorded(o.last, ref, SpecField)
    ensures err.Some? ==> w.events == old(w.events)
    ensures AppendedWrite(old(w.events), w.events, Ref(MachineKind, machineKey), SpecField, ToRawMachineSpec(newSpec))
    ensures err.None? ==>
      Ref(MachineKind, machineKey) in w.store.objects && ToMachineProviderSpec(w.store.objects[Ref(MachineKind, machineKey)].spec.provider) == Ok(newSpec)
  {
    var ref := Ref(MachineKind, machineKey);
    RecordedWrite(w.store, ref, SpecField, ToRawMachineSpec(newSpec), w.events);
    err := UpdateProvider(w, ref, SpecField, ToRawMachineSpec(newSpec));
    MachineSpecRoundTrip(newSpec);
  }

  /** UpdateMachineProviderStatus: on success the machine's provider status decodes to `newStatus`. */
  method UpdateMachineProviderStatus(w: World, machineKey: Key, newStatus: MachineStatus) returns (err: Option<UpdateError>)
    modifies w
    ensures var ref := Ref(MachineKind, machineKey);
      var o := RetryUpdate(old(w.store), ref, StatusField, ToRawMachineStatus(newStatus), Corrected);
      && w.store == o.last.store && err == o.last.err && w.remote == old(w.remote)
      && w.events == old(w.events) + Recorded(o.last, ref, StatusField)
    ensures err.Some? ==> w.events == old(w.events)
    ensures AppendedWrite(old(w.events), w.events, Ref(MachineKind, machineKey), StatusField, ToRawMachineStatus(newStatus))
    ensures err.None? ==>
      Ref(MachineKind, machineKey) in w.store.objects && ToMachineProviderStatus(w.store.objects[Ref(MachineKind, machineKey)].status.provider) == Ok(newStatus)
  {
    var ref := Ref(MachineKind, machineKey);
    RecordedWrite(w.store, ref, StatusField, ToRawMachineStatus(newStatus), w.events);
    err := UpdateProvider(w, ref, StatusField, ToRawMachineStatus(newStatus));
    MachineStatusRoundTrip(newStatus);
  }
}
