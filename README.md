# cluster-api-provider-packet: the provider's reconciliation logic in Dafny

This project models the part of the Packet provider for Cluster API that decides what to do with a cluster or machine and in what order. It also proves properties of that model.

- **Machine actuator.** `Create` provisions a Packet device for a machine. `Delete` deletes it. `Update` refreshes the machine's provider status from the device. `Exists` asks whether the device is still there.
- **Cluster actuator.** `Reconcile` records the Packet project ID in the cluster's provider status. `Delete` clears it.
- **Update helpers.** Four helpers overlay an encoded provider payload on the latest record and submit it. When the API server reports a conflict, they retry the fetch-modify-submit cycle, with at most four attempts.
- **Packet client.** Client construction from a secret, the project lookup, device creation (with the billing-cycle default), the device existence test, the device lookup and deletion, and the mapping of a device onto the provider status.
- **Provider types and their codec.** The provider spec and status types, the state normalisation `StringToState`, and the JSON decoding and encoding of the provider payloads.

Both external systems are state in the model:

- **The Kubernetes API server** (`Env.StoreState`). It holds records with a `resourceVersion` and uses optimistic concurrency. It has separate main and status endpoints, and secrets.
- **The Packet API** (`Env.RemoteState`). It holds devices, projects, and a map of the endpoints that currently fail.

An update that changes nothing keeps the record's `resourceVersion`, as the API server does. Listing projects returns every project of the account. The list option `Includes` asks the API to expand nested resources in the answer; it does not narrow the list.

The other writers that race with this process are a script of `Env.Race` values, consumed one per write attempt.

Functions in `Env` read these systems. The class `Env.World` changes them. It also logs every effect this process achieved: an accepted write, a device created, a device deleted. The actuators' contracts are stated over that log, so they fix which effects happen and in what order.

The files:

| file | module | role |
|---|---|---|
| `wrappers.dfy` | `Wrappers` | `Option`, `Result` |
| `json.dfy` | `Json` | JSON values |
| `types.dfy` | `Types` | provider spec and status types, `StringToState` |
| `codec.dfy` | `Codec` | decoding and encoding of the provider payloads, with round-trip proofs |
| `env.dfy` | `Env` | the API server and the Packet API; `World` |
| `util.dfy` | `Util` | the update helpers with retry-on-conflict |
| `client.dfy` | `PacketClient` | the Packet client |
| `cluster_actuator.dfy` | `ClusterActuator` | the cluster actuator |
| `machine_actuator.dfy` | `MachineActuator` | the machine actuator |

The actuators' read phase is a function: `PrepareCreate`, `PrepareDelete`, `PrepareUpdate`, `PlanReconcile`, `PlanDelete`. Each method's contract ties the method to that function. Lemmas about the function state what the source promises.

The helpers exist in two variants, `Util.Variant`:

- `AsWritten` is the helpers as the code is written.
- `Corrected` is the helpers as evidently intended. The rest of the model uses this variant.

The project lookup likewise exists twice:

- `PacketClient.GetProjectID` is the lookup as written: the first project the account lists.
- `PacketClient.ProjectIDByName` is the lookup as evidently intended: the first project with the asked-for name.

Both actuators use `ProjectIDByName`. The two agree whenever the first listed project carries the name (`PacketClient.LookupsAgreeOnFirstNamed`), and `ClusterActuator.ReconcileSetsProjectID` and `MachineActuator.CreateSpecOverlay` state that case against `GetProjectID`.

See the Findings section for the differences.

Some behaviour of the code worth knowing:

- `Create` is not gated on dependencies.
- `Create` does not skip a machine whose status already records a device ID; it only logs it.
- `Delete` of a machine with no device ID is an error.
- `Delete` takes a 404 answer from the delete endpoint as "already deleted" and goes on to store the zero status. Nothing is removed from the Packet side then, so a device that is still listed stays listed; `Teardown` and `Delete` state that the device is gone only when the endpoint did not fail.
- The cluster actuator writes the status subresource once, directly, without the retry helper.
- The payload decoders read a JSON number or boolean given for a text field as its text, as `sigs.k8s.io/yaml` does before it hands the document to `encoding/json`.

## Model

| member | source | states |
|---|---|---|
| Types.StringToState | pkg/apis/packet/v1alpha1/packetmachineprovider_types.go:53-66 | the result is one of the five declared states; a declared state maps to itself, and any other string maps to the unknown state `""` |
| Types.StringToStateOnConstants | pkg/apis/packet/v1alpha1/packetmachineprovider_types.go:43-66 | every declared State constant is a fixed point of the normalisation |
| Types.StringToStateIdempotent | pkg/apis/packet/v1alpha1/packetmachineprovider_types.go:53-66 | normalising twice is normalising once |
| Types.ZeroMachineStatusIsUnknown | pkg/apis/packet/v1alpha1/packetmachineprovider_types.go:35-50 | the zero provider status is not ready, has no ID, is in the unknown state and has no addresses |
| Codec.ToClusterProviderSpec | pkg/cloud/packet/util/util.go:37-45 | an absent payload decodes to the zero spec; decoding succeeds exactly when the payload is absent or well-shaped, where a text field may hold text, a number or a boolean, and null |
| Codec.ToClusterProviderStatus | pkg/cloud/packet/util/util.go:47-55 | an absent payload decodes to the zero status; decoding succeeds exactly when the payload is absent or well-shaped, where a text field may hold text, a number or a boolean, and null |
| Codec.ToMachineProviderSpec | pkg/cloud/packet/util/util.go:57-65 | an absent payload decodes to the zero spec; decoding succeeds exactly when the payload is absent or well-shaped, where a text field may hold text, a number or a boolean, and null |
| Codec.ToMachineProviderStatus | pkg/cloud/packet/util/util.go:67-75 | an absent payload decodes to the zero status; decoding succeeds exactly when the payload is absent or well-shaped, where a text field may hold text, a number or a boolean, and null |
| Codec.DigitsRoundTrip | pkg/cloud/packet/util/util.go:40 | the decimal digits of a natural number read back as that number |
| Codec.DecimalTextSign | pkg/cloud/packet/util/util.go:40 | the text of an integer is never empty, starts with a minus sign exactly when the integer is negative, and then continues with the digits of its magnitude |
| Codec.DigitsInjective | pkg/cloud/packet/util/util.go:40 | two natural numbers with the same decimal digits are equal |
| Codec.DecimalTextInjective | pkg/cloud/packet/util/util.go:40 | two integers, negative ones included, have the same text in a text field exactly when they are equal |
| Codec.ScalarReadAsText | pkg/cloud/packet/util/util.go:40 | a number in a text field is read as its decimal text (42 as "42", -7 as "-7"), and a boolean as "true" or "false" |
| Codec.ToRawClusterSpec | pkg/cloud/packet/util/util.go:77-83 | the encoded cluster spec is an object with project, facility, plan and secretRef always, and billingCycle exactly when it is set (`omitempty`) |
| Codec.ToRawClusterStatus | pkg/cloud/packet/util/util.go:77-83 | the encoded cluster status has no key but projectID, and has it exactly when the status is not the zero status (`omitempty`) |
| Codec.ToRawMachineSpec | pkg/cloud/packet/util/util.go:77-83 | the encoded machine spec always has projectID, facility, plan, hostname and os; it has billing_cicle and userData exactly when they are set (`omitempty`) |
| Codec.ToRawIPAddress | pkg/cloud/packet/util/util.go:77-83 | an encoded address is an object with exactly the seven tagged keys `id`, `address`, `gateway`, `network`, `addressFamily`, `netmask` and `public`; none is omitted and none is added |
| Codec.ToRawIPAddresses | pkg/cloud/packet/util/util.go:77-83 | an address list encodes element by element, in order, with the same length |
| Codec.ToRawMachineStatus | pkg/cloud/packet/util/util.go:77-83 | the encoded machine status always has ready, id and state, and ipAddresses exactly when there are addresses (`omitempty`) |
| Codec.ClusterSpecRoundTrip | pkg/cloud/packet/util/util.go:37-45 | decoding the encoding of any cluster provider spec gives it back, with omitempty fields included |
| Codec.ClusterStatusRoundTrip | pkg/cloud/packet/util/util.go:47-55 | decoding the encoding of any cluster provider status gives it back |
| Codec.MachineSpecRoundTrip | pkg/cloud/packet/util/util.go:57-65 | decoding the encoding of any machine provider spec gives it back, with the empty billing cycle and user data left out |
| Codec.IPAddressRoundTrip | pkg/apis/packet/v1alpha1/packetmachineprovider_types.go:68-76 | decoding the encoding of an IP address gives it back |
| Codec.IPAddressesRoundTrip | pkg/apis/packet/v1alpha1/packetmachineprovider_types.go:40 | decoding the encoding of an address list gives it back, element by element and in order |
| Codec.DecodeIPAddressesShaped | pkg/cloud/packet/util/util.go:67-75 | a list of addresses decodes exactly when each element is a well-shaped address |
| Codec.MachineStatusScalarsRoundTrip | pkg/cloud/packet/util/util.go:67-83 | the `ready`, `id` and `state` fields of an encoded machine provider status read back as the status's own values |
| Codec.MachineStatusAddressesRoundTrip | pkg/cloud/packet/util/util.go:67-83 | the address list of an encoded machine provider status reads back as the status's list, an empty list included although its key is left out |
| Codec.MachineStatusRoundTrip | pkg/cloud/packet/util/util.go:67-83 | decoding the encoding of any machine provider status gives it back, with an empty address list left out |
| Util.WithProvider | pkg/cloud/packet/util/util.go:100-101 | the overlay puts the payload in the chosen half and changes nothing else of the record |
| Util.CommitOverlay | pkg/cloud/packet/util/util.go:100-106 | submitting the overlay of the fetched record stores exactly that overlay, one version later, and stores the record unchanged when the overlay changes nothing |
| Util.AttemptOnceSpec | pkg/cloud/packet/util/util.go:91-109 | one attempt: a missing record is an error; an unchanged payload is not written; otherwise the overlay is stored, or the attempt reports a conflict or a refusal by the server's state; no other record or secret changes |
| Util.RetrySpec | pkg/cloud/packet/util/util.go:85-111 | at most four attempts; a conflict is returned only after the fourth; on success the record carries the payload; a stored record is the overlay of the record last fetched; no other record or secret changes |
| Util.UnchangedPayloadNoWrite | pkg/cloud/packet/util/util.go:103-105 | a payload the record already carries is not written, and the call succeeds after one attempt |
| Util.ConflictThenSuccess | pkg/cloud/packet/util/util.go:90 | after a conflict, the second attempt fetches the other writer's version and stores the payload on top of it |
| Util.RefusalNotRetried | pkg/cloud/packet/util/util.go:106-108 | a refusal other than a conflict ends the loop after the first attempt |
| Util.AsWrittenNeverUnchanged | pkg/cloud/packet/util/util.go:103 | as written, the change check, which compares a pointer with a record, never holds |
| Util.AsWrittenResubmitsUnchanged | pkg/cloud/packet/util/util.go:100-108 | as written, a payload the record already carries is submitted again: alone, the server stores the record unchanged; when another writer got in first, the call fails with a conflict; a refusal is an error |
| Util.AsWrittenDoesNotRetry | pkg/cloud/packet/util/util.go:90-110 | as written, the first conflict is returned to the caller after one attempt |
| Util.RecordedWrite | pkg/cloud/packet/util/util.go:85-111 | a helper call logs nothing when it fails, and at most one write, carrying the payload, when it succeeds |
| Util.AttemptUpdate | pkg/cloud/packet/util/util.go:91-109 | the closure changes the store and the log exactly as one attempt of the specification does |
| Util.UpdateProvider | pkg/cloud/packet/util/util.go:90-110 | the retry loop leaves the store, the error and the log exactly as the retry specification does |
| Util.UpdateClusterProviderSpec | pkg/cloud/packet/util/util.go:85-111 | the retry specification for the cluster's spec; on success the stored provider spec decodes to `newSpec`; at most one write is logged, and none on failure |
| Util.UpdateClusterProviderStatus | pkg/cloud/packet/util/util.go:113-139 | the same for the cluster's provider status, through the status endpoint |
| Util.UpdateMachineProviderSpec | pkg/cloud/packet/util/util.go:141-167 | the same for the machine's provider spec |
| Util.UpdateMachineProviderStatus | pkg/cloud/packet/util/util.go:169-195 | the same for the machine's provider status, through the status endpoint |
| PacketClient.NewClient | pkg/cloud/packet/client/client.go:46-58 | a client exists exactly when the secret holds the key `apiKey`, and it carries that key's value |
| PacketClient.NamedHead | pkg/cloud/packet/client/client.go:71-74 | the projects with one name are none exactly when no project has that name; otherwise the first of them is the first project of that name in the listing |
| PacketClient.GetProjectID | pkg/cloud/packet/client/client.go:64-75 | as written: a failed listing is returned as the error; otherwise the lookup succeeds exactly when the account has any project, and gives the ID of the first one listed; an empty listing is an error naming the project |
| PacketClient.ProjectIDByName | pkg/cloud/packet/client/client.go:64-75 | as intended: a failed listing is returned as the error; otherwise the lookup succeeds exactly when some project has the name, and gives the ID of the first one; no match is an error naming the project |
| PacketClient.AsWrittenIgnoresProjectName | pkg/cloud/packet/client/client.go:65-74 | as written, an account whose projects all have other names yields the first project's ID, where the lookup by name reports no such project |
| PacketClient.LookupsAgreeOnFirstNamed | pkg/cloud/packet/client/client.go:64-75 | when the first listed project has the name, both lookups give the same answer |
| PacketClient.WithDefaultBilling | pkg/cloud/packet/client/client.go:78-80 | an empty billing cycle becomes "hourly"; a set one is kept; no other field changes |
| PacketClient.RequestForRoundTrip | pkg/cloud/packet/client/client.go:81-91 | the create request keeps every spec field, with the facility as a one-element list, so the spec can be read back from it |
| PacketClient.RequestForInjective | pkg/cloud/packet/client/client.go:81-91 | two specs give the same request exactly when they are equal |
| PacketClient.StatusOf | pkg/cloud/packet/client/client.go:117-138 | the status carries the device ID and the normalised state; it is ready exactly when the state is active; the addresses are the device's, index by index |
| PacketClient.ReadyIffActive | pkg/cloud/packet/client/client.go:119-135 | a device is ready exactly when Packet reports it "active"; an undeclared state reads as unknown |
| PacketClient.NewStatus | pkg/cloud/packet/client/client.go:117-138 | the loop that fills the preallocated address slice gives exactly the specified status |
| PacketClient.CreateDevice | pkg/cloud/packet/client/client.go:77-96 | the caller's spec gets the default billing cycle in place; a failed call changes nothing else; otherwise one new device with a fresh ID is created from the defaulted spec, and its status is returned |
| PacketClient.NewDeviceStatus | pkg/cloud/packet/client/client.go:117-138 | a new device is reported not ready, queued, without addresses |
| PacketClient.DoesDeviceExist | pkg/cloud/packet/client/client.go:98-107 | the answer is whether the device is listed; a 404 answer means false; any other failure is an error |
| PacketClient.GetDevice | pkg/cloud/packet/client/client.go:109-115 | succeeds exactly when the device is there and the call does not fail, with the device's status; an unknown ID is a not-found error |
| PacketClient.DeleteDevice | pkg/cloud/packet/actuators/machine/actuator.go:177-185 | a failing endpoint changes nothing; an unknown ID is a not-found error; otherwise exactly that device is removed |
| ClusterActuator.ReconcileSetsProjectID | pkg/cloud/packet/actuators/cluster/actuator.go:63-98 | each failing read, in order (spec, status, secret, client, project listing), stops reconcile at its own step; with a working listing, reconcile proceeds exactly when some project has the spec's name, and otherwise fails at the lookup; the wanted status then differs from the decoded one only in the project ID, which is the ID of the first project with that name; when the first listed project has the name, reconcile proceeds with its ID, as the lookup as written does |
| ClusterActuator.PlanReconcile | pkg/cloud/packet/actuators/cluster/actuator.go:63-98 | a planned change starts from the decoded status and wants it with only the project ID replaced |
| ClusterActuator.PlanDelete | pkg/cloud/packet/actuators/cluster/actuator.go:118-128 | delete plans a change exactly when the status decodes, and fails at the decode step otherwise; it always wants the zero status |
| ClusterActuator.ReconcileSecondTimeNoWrite | pkg/cloud/packet/actuators/cluster/actuator.go:97-113 | reconciling again the record the first reconcile stored wants no change, so it writes nothing |
| ClusterActuator.DeleteClearsProjectID | pkg/cloud/packet/actuators/cluster/actuator.go:118-130 | delete wants the zero status, needs no secret or API call, and writes only when a project ID was set |
| ClusterActuator.Actuator.WriteIfChanged | pkg/cloud/packet/actuators/cluster/actuator.go:100-113 | no change means no request; otherwise exactly one status-endpoint write of the record as read with the new status, and an error exactly when it is refused |
| ClusterActuator.Actuator.Reconcile | pkg/cloud/packet/actuators/cluster/actuator.go:63-115 | a failed read changes nothing and names its step; otherwise the store and the log are those of at most one status write of the wanted status; the Packet side is untouched |
| ClusterActuator.Actuator.Delete | pkg/cloud/packet/actuators/cluster/actuator.go:118-145 | a failed decode changes nothing; an unset project ID writes nothing; otherwise one status write of the zero status, whose refusal is reported as the status-update step |
| MachineActuator.Connect | pkg/cloud/packet/actuators/machine/actuator.go:65-86 | a nil cluster, an undecodable cluster spec, a missing secret and a failed client are each an error naming that step, in that order; when all four reads succeed there is a session, and it carries the decoded cluster spec and a client from the cluster's named secret |
| MachineActuator.AsWrittenNilClusterPanics | pkg/cloud/packet/actuators/machine/actuator.go:64-67 | as written, a nil cluster is dereferenced by the log line, so the nil check's error is never returned |
| MachineActuator.NilClusterIsAnError | pkg/cloud/packet/actuators/machine/actuator.go:65-67 | as intended, a nil cluster makes create, delete and update fail at their first step, with no effect |
| MachineActuator.PrepareCreate | pkg/cloud/packet/actuators/machine/actuator.go:63-106 | a failed connection is create's error; after a connection, an undecodable machine spec, then an undecodable status, then a failed project lookup are each an error naming that step; create is prepared exactly when all of them succeed, with the connection's client |
| MachineActuator.CreateSpecOverlay | pkg/cloud/packet/actuators/machine/actuator.go:104-120 | the stored spec takes the project ID from the lookup by name, the machine's name as hostname, facility, plan and billing cycle from the cluster, and the default OS; the user data is kept; when the first listed project has the cluster's project name, the ID is the one the lookup as written gives |
| MachineActuator.CreateIgnoresStatusID | pkg/cloud/packet/actuators/machine/actuator.go:94-102 | a device ID already in the status does not change what create does |
| MachineActuator.PrepareDelete | pkg/cloud/packet/actuators/machine/actuator.go:143-175 | a failed connection is delete's error, then an undecodable status; past those, an empty device ID is an error and any other ID is the target, together with the connection's client |
| MachineActuator.PrepareUpdate | pkg/cloud/packet/actuators/machine/actuator.go:202-242 | a failed connection is update's error, then an undecodable status; past those, the result is the status observed for the recorded device ID, so the only failure is a device lookup failing with anything but 404 |
| MachineActuator.ObservedStatus | pkg/cloud/packet/actuators/machine/actuator.go:233-242 | the status recorded is the device's; a 404 answer or a missing device gives the zero status; any other failure is an error |
| MachineActuator.UpdateResetsVanishedDevice | pkg/cloud/packet/actuators/machine/actuator.go:233-259 | when the device is gone, update records the zero status, which is not ready, so the machine is requeued |
| MachineActuator.UpdateReadyIffActive | pkg/cloud/packet/actuators/machine/actuator.go:233-259 | the recorded status is ready exactly when the device is there and active |
| MachineActuator.StatusHelperStores | pkg/cloud/packet/util/util.go:169-195 | when the status helper succeeds, the machine's stored status decodes to the status handed to it |
| MachineActuator.CreateOutcome | pkg/cloud/packet/actuators/machine/actuator.go:114-139 | create fails at the spec write exactly when the spec helper fails; it fails at the device creation exactly when the spec was stored and the create endpoint fails, and then the Packet side is unchanged; a requeue means the spec was stored, one new device was requested from the defaulted spec, and its queued status is stored |
| MachineActuator.DeleteOutcome | pkg/cloud/packet/actuators/machine/actuator.go:177-198 | delete fails at the deletion exactly when the endpoint fails with anything but 404, and then nothing changes; it fails at the status write exactly when the deletion passed and the status helper failed; done means the zero status is stored; with a working endpoint the device is no longer listed |
| MachineActuator.UpdateOutcome | pkg/cloud/packet/actuators/machine/actuator.go:249-259 | update fails exactly when the status helper fails; otherwise the observed status is stored, and the call is done exactly when that status is ready, requeued in 15 seconds otherwise |
| MachineActuator.Actuator.RecordStatus | pkg/cloud/packet/actuators/machine/actuator.go:132-138 | one run of the status helper: the store is the helper's outcome and the Packet side is unchanged; the call ends with its success outcome or fails at the status step, and on success the stored status decodes to the one given; the log gains at most one write, of that status, and nothing on failure |
| MachineActuator.Actuator.WriteSpec | pkg/cloud/packet/actuators/machine/actuator.go:122-125 | one run of the spec helper: the store and the error are the helper's outcome, the Packet side is unchanged, and the log gains at most one write, of that spec, and nothing on failure |
| MachineActuator.ProvisionComposes | pkg/cloud/packet/actuators/machine/actuator.go:114-139 | a successful spec write followed by the device creation and the status write has the effects and the log of create after its reads |
| MachineActuator.Actuator.CreateAndRecord | pkg/cloud/packet/actuators/machine/actuator.go:127-139 | after the spec write: the device is created from the billing-defaulted spec, then its queued status is stored, then a requeue in 15 seconds; a failure stops the sequence; the store and the Packet side are exactly those the create effect relation describes |
| MachineActuator.Actuator.Provision | pkg/cloud/packet/actuators/machine/actuator.go:114-139 | the log is a spec write (skipped when nothing changes), then the device creation, then the status write, cut short at the first failure; the store and the Packet side after each outcome are those of the spec helper, the device creation and the status helper, so each failure step is tied to its cause |
| MachineActuator.Actuator.Create | pkg/cloud/packet/actuators/machine/actuator.go:63-140 | a failed read changes nothing and names its step; otherwise the log follows the create trace for the overlaid spec, and the store and the Packet side follow the provisioning effects for it; create never ends done, only requeued or failed |
| MachineActuator.Actuator.Teardown | pkg/cloud/packet/actuators/machine/actuator.go:177-198 | the device deletion, tolerating a device already gone, then a write of the zero status; it fails at the deletion exactly when the API fails with anything but 404, and at the status write exactly when the status helper fails; done means the zero status is stored |
| MachineActuator.Actuator.Delete | pkg/cloud/packet/actuators/machine/actuator.go:143-199 | a failed read or an unset device ID changes nothing; otherwise the teardown's trace and effects for the recorded ID |
| MachineActuator.Actuator.Update | pkg/cloud/packet/actuators/machine/actuator.go:202-260 | a failed read changes nothing; otherwise it fails exactly when the status helper fails, the stored status then decodes to the observed one, and the call is done when it is ready and requeued in 15 seconds otherwise; the Packet side is untouched |
| MachineActuator.Actuator.Exists | pkg/cloud/packet/actuators/machine/actuator.go:263-303 | the result for each failing read; no device ID means false, without a client; otherwise the existence test's answer, and a failed test is an error |

## Left out

- JSON and YAML at the byte level: payloads are JSON values. Case-insensitive key matching and 64-bit integer bounds are left out.
- The error branches of `ToRaw`: marshalling these plain structs cannot fail. The encoders are total functions.
- Error message texts, including the update-failure messages whose format strings lack a `%w` verb.
- The backoff's delays and jitter. The retry count is kept.
- Logging and the context argument.
- Authentication: the API key is carried by the client but not checked by the modelled Packet API.
- What status the Packet API reports for a device it has just accepted. The model takes "queued".
- Concurrency, beyond the scripted interleavings of other writers.
- `GetIP` and `GetKubeConfig`: they only return a not-implemented error.
- Cluster and machine deployers, the CRD wrapper types and their registration, the manager entry point, and `packetclusterproviderspec_types.go`: none of them is part of this model.
- The Packet API's `DeleteDevice` and `IsNotFoundError` are not defined in `client.go`, which calls them. The model gives them the obvious meaning: delete by ID, with 404 for an unknown ID.
- ReconcileSetsProjectID: states the lookup by project name, where the code as written takes the first listed project (see the client.go:65-67 finding); the two coincide when the first listed project has the name, which the lemma also states.
- ClusterActuator.PlanReconcile and ClusterActuator.Actuator.Reconcile: use the corrected lookup `ProjectIDByName` for the same reason.
- CreateSpecOverlay: the project ID is the corrected lookup's; it is the as-written lookup's only when the first listed project has the name, which the lemma states.
- MachineActuator.PrepareCreate and MachineActuator.Actuator.Create: use the corrected lookup `ProjectIDByName` for the same reason.
- Floating-point numbers in a text field: JSON numbers are integers in the model, so only their decimal text is modelled.
- `MachineActuator.Actuator.Create`: the stored spec may have an empty billing cycle while the device is requested with "hourly". This is because defaulting happens inside `CreateDevice`, after the spec write. The model keeps the order.

## Findings

| source | as written | input that shows it | evidently intended | confidence | as-written member | corrected member |
|---|---|---|---|---|---|---|
| pkg/cloud/packet/util/util.go:103 | the change check compares a pointer to a record with a record, so it never holds (likewise at 131, 159, 187) | a record that already carries the payload, while another client updates it between the fetch and the write | succeed without sending a request, since nothing is to change | high; not executed | Util.AsWrittenResubmitsUnchanged | Util.UnchangedPayloadNoWrite |
| pkg/cloud/packet/util/util.go:90 | the closure wraps the API server's conflict error with `%w`, and the conflict test inspects only the outermost error's type, so the loop never retries (likewise at 118, 146, 174) | another client updates the record between the fetch and the write | retry the cycle on a conflict, up to four attempts | medium, as it depends on the apimachinery version's conflict test; not executed | Util.AsWrittenDoesNotRetry | Util.ConflictThenSuccess |
| pkg/cloud/packet/actuators/machine/actuator.go:64 | the log line reads the cluster's name before the nil check at line 65 (likewise at 144, 203, 264) | a nil cluster | report "missing cluster" as an error | high; not executed | MachineActuator.AsWrittenNilClusterPanics | MachineActuator.NilClusterIsAnError |
| pkg/cloud/packet/client/client.go:65-67 | the project name is passed as the list option `Includes`, which asks the API to expand nested resources and does not filter, so the first project listed is taken whatever its name | an account whose projects all have names other than the one asked for | the ID of the project with that name, or an error when there is none | medium, as it rests on the Packet API's meaning of `include`; not executed | PacketClient.AsWrittenIgnoresProjectName | PacketClient.ProjectIDByName |
