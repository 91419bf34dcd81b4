/**
 * The provider payload codec of package util: the four `To*` decoders and `ToRaw`.
 *
 * The decoders use sigs.k8s.io/yaml: the document is first converted to JSON
 * under the guidance of the target struct, which turns a number or a boolean
 * headed for a string field into its text, and the result is then decoded by
 * encoding/json under the struct tags of package v1alpha1: a missing key or a
 * null leaves the Go zero value, an unknown key is ignored, and any other
 * value of the wrong type is an error. Encoding follows json.Marshal: every
 * field under its tag, `omitempty` fields left out when they hold the zero value.
 */
module Codec {
  import opened Wrappers
  import opened Json
  import opened Types

  /** A payload that does not fit the target record; `key` names the offending key ("" for the document). */
  datatype DecodeError = DecodeError(key: string)

  // ---------------------------------------------------------------------------
  // Field readers: Go's decoding of one struct field.

  /** The character of one decimal digit. */
  function Digit(d: nat): char
    requires d < 10
  {
    ('0' as int + d) as char
  }

  /** The decimal digits of a natural number, without leading zeros. */
  function Digits(n: nat): (t: string)
    ensures |t| > 0
    ensures forall k :: 0 <= k < |t| ==> '0' <= t[k] <= '9'
    ensures t[0] == '0' <==> n == 0
  {
    if n < 10 then [Digit(n)] else Digits(n / 10) + [Digit(n % 10)]
  }

  /** The number a string of decimal digits denotes. */
  function DigitsValue(t: string): nat
    requires forall k :: 0 <= k < |t| ==> '0' <= t[k] <= '9'
  {
    if t == [] then 0 else DigitsValue(t[..|t| - 1]) * 10 + (t[|t| - 1] as int - '0' as int)
  }

  /** The digits are read back as the number they were written from. */
  lemma {:induction false} DigitsRoundTrip(n: nat)
    ensures DigitsValue(Digits(n)) == n
  {
    if n >= 10 {
      var t := Digits(n);
      assert t[..|t| - 1] == Digits(n / 10);
      DigitsRoundTrip(n / 10);
    }
  }

  /** The text strconv gives an integer: its digits, after a minus sign when it is negative. */
  function DecimalText(n: int): string {
    if n < 0 then "-" + Digits(-n) else Digits(n)
  }

  /** The text of an integer starts with '-' exactly when the integer is negative, and what follows the sign is its magnitude's digits. */
  lemma DecimalTextSign(n: int)
    ensures |DecimalText(n)| > 0
    ensures DecimalText(n)[0] == '-' <==> n < 0
    ensures n < 0 ==> DecimalText(n)[1..] == Digits(-n)
  {
    if n < 0 {
      assert DecimalText(n) == ['-'] + Digits(-n);
    }
  }

  /** Equal digit strings come from equal numbers. */
  lemma DigitsInjective(x: nat, y: nat)
    requires Digits(x) == Digits(y)
    ensures x == y
  {
    DigitsRoundTrip(x);
    DigitsRoundTrip(y);
  }

  /** Distinct integers have distinct texts: a negative one starts with '-', which no digit is. */
  lemma {:induction false} DecimalTextInjective(a: int, b: int)
    ensures DecimalText(a) == DecimalText(b) <==> a == b
  {
    if DecimalText(a) == DecimalText(b) {
      DecimalTextSign(a);
      DecimalTextSign(b);
      if a < 0 {
        DigitsInjective(-a, -b);
      } else {
        DigitsInjective(a, b);
      }
    }
  }

  /** The text strconv gives a boolean. */
  function BoolText(b: bool): string {
    if b then "true" else "false"
  }

  /** A string field takes a string, or the text of a number or boolean; null or a missing key leaves it empty. */
  function StringField(f: map<string, Json>, key: string): Result<string, DecodeError> {
    if key !in f then Ok("")
    else match f[key]
      case JNull => Ok("")
      case JStr(s) => Ok(s)
      case JNum(n) => Ok(DecimalText(n))
      case JBool(b) => Ok(BoolText(b))
      case _ => Err(DecodeError(key))
  }

  function BoolField(f: map<string, Json>, key: string): Result<bool, DecodeError> {
    if key !in f then Ok(false)
    else match f[key]
      case JNull => Ok(false)
      case JBool(b) => Ok(b)
      case _ => Err(DecodeError(key))
  }

  function IntField(f: map<string, Json>, key: string): Result<int, DecodeError> {
    if key !in f then Ok(0)
    else match f[key]
      case JNull => Ok(0)
      case JNum(n) => Ok(n)
      case _ => Err(DecodeError(key))
  }

  /** The entry json.Marshal writes for a string field tagged `omitempty`. */
  function OmitEmpty(key: string, v: string): map<string, Json> {
    if v == "" then map[] else map[key := JStr(v)]
  }

  // ---------------------------------------------------------------------------
  // Schema: which documents a record decodes from. This is the reference the
  // decoders are checked against.

  /** A string field accepts every scalar: a string, a number or boolean as its text, or null. */
  predicate StringOrNull(f: map<string, Json>, key: string) {
    key !in f || f[key].JNull? || f[key].JStr? || f[key].JNum? || f[key].JBool?
  }

  predicate BoolOrNull(f: map<string, Json>, key: string) {
    key !in f || f[key].JNull? || f[key].JBool?
  }

  predicate IntOrNull(f: map<string, Json>, key: string) {
    key !in f || f[key].JNull? || f[key].JNum?
  }

  predicate ClusterSpecShaped(j: Json) {
    j.JNull? ||
    (j.JObj? && StringOrNull(j.fields, "project") && StringOrNull(j.fields, "facility") &&
     StringOrNull(j.fields, "plan") && StringOrNull(j.fields, "billingCycle") &&
     StringOrNull(j.fields, "secretRef"))
  }

  predicate ClusterStatusShaped(j: Json) {
    j.JNull? || (j.JObj? && StringOrNull(j.fields, "projectID"))
  }

  predicate MachineSpecShaped(j: Json) {
    j.JNull? ||
    (j.JObj? && StringOrNull(j.fields, "projectID") && StringOrNull(j.fields, "facility") &&
     StringOrNull(j.fields, "plan") && StringOrNull(j.fields, "hostname") &&
     StringOrNull(j.fields, "os") && StringOrNull(j.fields, "billing_cicle") &&
     StringOrNull(j.fields, "userData"))
  }

  predicate IPAddressShaped(j: Json) {
    j.JNull? ||
    (j.JObj? && StringOrNull(j.fields, "id") && StringOrNull(j.fields, "address") &&
     StringOrNull(j.fields, "gateway") && StringOrNull(j.fields, "network") &&
     IntOrNull(j.fields, "addressFamily") && StringOrNull(j.fields, "netmask") &&
     BoolOrNull(j.fields, "public"))
  }

  predicate IPAddressListShaped(f: map<string, Json>) {
    "ipAddresses" !in f || f["ipAddresses"].JNull? ||
    (f["ipAddresses"].JArr? &&
     forall i :: 0 <= i < |f["ipAddresses"].items| ==> IPAddressShaped(f["ipAddresses"].items[i]))
  }

  predicate MachineStatusShaped(j: Json) {
    j.JNull? ||
    (j.JObj? && BoolOrNull(j.fields, "ready") && StringOrNull(j.fields, "id") &&
     StringOrNull(j.fields, "state") && IPAddressListShaped(j.fields))
  }

  // ---------------------------------------------------------------------------
  // Cluster provider spec

  /** ToRaw of a cluster spec: every field under its tag, the billing cycle only when set. */
  function ToRawClusterSpec(s: ClusterSpec): (r: Json)
    ensures r.JObj?
    ensures r.fields.Keys == {"project", "facility", "plan", "secretRef"} + (if s.billingCycle == "" then {} else {"billingCycle"})
  {
    JObj(map["project" := JStr(s.project), "facility" := JStr(s.facility), "plan" := JStr(s.plan),
             "secretRef" := JStr(s.secretRef)]
         + OmitEmpty("billingCycle", s.billingCycle))
  }

  function DecodeClusterSpec(j: Json): Result<ClusterSpec, DecodeError> {
    match j
    case JNull => Ok(ZeroClusterSpec)
    case JObj(f) =>
      var project :- StringField(f, "project");
      var facility :- StringField(f, "facility");
      var plan :- StringField(f, "plan");
      var billingCycle :- StringField(f, "billingCycle");
      var secretRef :- StringField(f, "secretRef");
      Ok(ClusterSpec(project, facility, plan, billingCycle, secretRef))
    case _ => Err(DecodeError(""))
  }

  /** ToClusterProviderSpec: an absent payload is the zero spec; a present one must fit the schema. */
  function ToClusterProviderSpec(src: Option<Json>): (r: Result<ClusterSpec, DecodeError>)
    ensures src.None? ==> r == Ok(ZeroClusterSpec)
    ensures r.Ok? <==> src.None? || ClusterSpecShaped(src.value)
  {
    if src.None? then Ok(ZeroClusterSpec) else DecodeClusterSpec(src.value)
  }

  lemma ClusterSpecRoundTrip(s: ClusterSpec)
    ensures ToClusterProviderSpec(Some(ToRawClusterSpec(s))) == Ok(s)
  {
  }

  // ---------------------------------------------------------------------------
  // Cluster provider status

  /** ToRaw of a cluster status: the project ID only when set, so the zero status encodes as an empty object. */
  function ToRawClusterStatus(s: ClusterStatus): (r: Json)
    ensures r.JObj?
    ensures r.fields.Keys <= {"projectID"}
    ensures "projectID" in r.fields <==> s != ZeroClusterStatus
  {
    JObj(OmitEmpty("projectID", s.projectID))
  }

  function DecodeClusterStatus(j: Json): Result<ClusterStatus, DecodeError> {
    match j
    case JNull => Ok(ZeroClusterStatus)
    case JObj(f) =>
      var projectID :- StringField(f, "projectID");
      Ok(ClusterStatus(projectID))
    case _ => Err(DecodeError(""))
  }

  /** ToClusterProviderStatus: an absent payload is the zero status; a present one must fit the schema. */
  function ToClusterProviderStatus(src: Option<Json>): (r: Result<ClusterStatus, DecodeError>)
    ensures src.None? ==> r == Ok(ZeroClusterStatus)
    ensures r.Ok? <==> src.None? || ClusterStatusShaped(src.value)
  {
    if src.None? then Ok(ZeroClusterStatus) else DecodeClusterStatus(src.value)
  }

  lemma ClusterStatusRoundTrip(s: ClusterStatus)
    ensures ToClusterProviderStatus(Some(ToRawClusterStatus(s))) == Ok(s)
  {
  }

  /**
   * A number or boolean stored where a string is expected is read as its text:
   * a project ID written as 42 decodes to "42", and as true to "true".
   */
  lemma ScalarReadAsText(n: int, b: bool)
    ensures ToClusterProviderStatus(Some(JObj(map["projectID" := JNum(n)]))) == Ok(ClusterStatus(DecimalText(n)))
    ensures ToClusterProviderStatus(Some(JObj(map["projectID" := JBool(b)]))) == Ok(ClusterStatus(BoolText(b)))
    ensures ToClusterProviderStatus(Some(JObj(map["projectID" := JNum(42)]))) == Ok(ClusterStatus("42"))
    ensures ToClusterProviderStatus(Some(JObj(map["projectID" := JNum(-7)]))) == Ok(ClusterStatus("-7"))
  {
    assert Digit(2) == '2' && Digit(4) == '4' && Digit(7) == '7';
    assert Digits(42) == Digits(4) + [Digit(2)] == "42";
    assert DecimalText(-7) == "-" + Digits(7) == "-7";
  }

  // ---------------------------------------------------------------------------
  // Machine provider spec (the billing cycle's tag is spelled "billing_cicle")

  /** ToRaw of a machine spec: every field under its tag, the billing cycle and user data only when set. */
  function ToRawMachineSpec(s: MachineSpec): (r: Json)
    ensures r.JObj?
    ensures "billing_cicle" in r.fields <==> s.billingCycle != ""
    ensures "userData" in r.fields <==> s.userData != ""
    ensures {"projectID", "facility", "plan", "hostname", "os"} <= r.fields.Keys
  {
    JObj(map["projectID" := JStr(s.projectID), "facility" := JStr(s.facility), "plan" := JStr(s.plan),
             "hostname" := JStr(s.hostname), "os" := JStr(s.os)]
         + OmitEmpty("billing_cicle", s.billingCycle)
         + OmitEmpty("userData", s.userData))
  }

  function DecodeMachineSpec(j: Json): Result<MachineSpec, DecodeError> {
    match j
    case JNull => Ok(ZeroMachineSpec)
    case JObj(f) =>
      var projectID :- StringField(f, "projectID");
      var facility :- StringField(f, "facility");
      var plan :- StringField(f, "plan");
      var hostname :- StringField(f, "hostname");
      var os :- StringField(f, "os");
      var billingCycle :- StringField(f, "billing_cicle");
      var userData :- StringField(f, "userData");
      Ok(MachineSpec(projectID, facility, plan, hostname, os, billingCycle, userData))
    case _ => Err(DecodeError(""))
  }

  /** ToMachineProviderSpec: an absent payload is the zero spec; a present one must fit the schema. */
  function ToMachineProviderSpec(src: Option<Json>): (r: Result<MachineSpec, DecodeError>)
    ensures src.None? ==> r == Ok(ZeroMachineSpec)
    ensures r.Ok? <==> src.None? || MachineSpecShaped(src.value)
  {
    if src.None? then Ok(ZeroMachineSpec) else DecodeMachineSpec(src.value)
  }

  lemma MachineSpecRoundTrip(s: MachineSpec)
    ensures ToMachineProviderSpec(Some(ToRawMachineSpec(s))) == Ok(s)
  {
  }

  // ---------------------------------------------------------------------------
  // Machine provider status

  /** ToRaw of an address: all seven fields, none omitted. */
  function ToRawIPAddress(a: IPAddress): (r: Json)
    ensures r.JObj?
    ensures r.fields.Keys == {"id", "address", "gateway", "network", "addressFamily", "netmask", "public"}
  {
    JObj(map["id" := JStr(a.id), "address" := JStr(a.address), "gateway" := JStr(a.gateway),
             "network" := JStr(a.network), "addressFamily" := JNum(a.addressFamily),
             "netmask" := JStr(a.netmask), "public" := JBool(a.public)])
  }

  function ToRawIPAddresses(addrs: seq<IPAddress>): (r: seq<Json>)
    ensures |r| == |addrs|
    ensures forall i :: 0 <= i < |addrs| ==> r[i] == ToRawIPAddress(addrs[i])
  {
    if addrs == [] then [] else [ToRawIPAddress(addrs[0])] + ToRawIPAddresses(addrs[1..])
  }

  /** ToRaw of a machine status: ready, ID and state always, the addresses only when there are some. */
  function ToRawMachineStatus(s: MachineStatus): (r: Json)
    ensures r.JObj?
    ensures {"ready", "id", "state"} <= r.fields.Keys
    ensures "ipAddresses" in r.fields <==> s.ipAddresses != []
  {
    JObj(map["ready" := JBool(s.ready), "id" := JStr(s.id), "state" := JStr(s.state)]
         + (if s.ipAddresses == [] then map[] else map["ipAddresses" := JArr(ToRawIPAddresses(s.ipAddresses))]))
  }

  function DecodeIPAddress(j: Json): Result<IPAddress, DecodeError> {
    match j
    case JNull => Ok(ZeroIPAddress)
    case JObj(f) =>
      var id :- StringField(f, "id");
      var address :- StringField(f, "address");
      var gateway :- StringField(f, "gateway");
      var network :- StringField(f, "network");
      var addressFamily :- IntField(f, "addressFamily");
      var netmask :- StringField(f, "netmask");
      var public :- BoolField(f, "public");
      Ok(IPAddress(id, address, gateway, network, addressFamily, netmask, public))
    case _ => Err(DecodeError("ipAddresses"))
  }

  function DecodeIPAddresses(items: seq<Json>): Result<seq<IPAddress>, DecodeError> {
    if items == [] then Ok([])
    else
      var a :- DecodeIPAddress(items[0]);
      var rest :- DecodeIPAddresses(items[1..]);
      Ok([a] + rest)
  }

  function IPAddressesField(f: map<string, Json>): Result<seq<IPAddress>, DecodeError> {
    if "ipAddresses" !in f then Ok([])
    else match f["ipAddresses"]
      case JNull => Ok([])
      case JArr(items) => DecodeIPAddresses(items)
      case _ => Err(DecodeError("ipAddresses"))
  }

  function DecodeMachineStatus(j: Json): Result<MachineStatus, DecodeError> {
    match j
    case JNull => Ok(ZeroMachineStatus)
    case JObj(f) =>
      var ready :- BoolField(f, "ready");
      var id :- StringField(f, "id");
      var state :- StringField(f, "state");
      var ipAddresses :- IPAddressesField(f);
      Ok(MachineStatus(ready, id, state, ipAddresses))
    case _ => Err(DecodeError(""))
  }

  /** A list of addresses decodes exactly when every element fits the address schema. */
  lemma {:induction false} DecodeIPAddressesShaped(items: seq<Json>)
    ensures DecodeIPAddresses(items).Ok? <==> forall i :: 0 <= i < |items| ==> IPAddressShaped(items[i])
    ensures DecodeIPAddresses(items).Ok? ==> |DecodeIPAddresses(items).value| == |items|
    decreases |items|
  {
    if items != [] {
      DecodeIPAddressesShaped(items[1..]);
      assert forall i :: 1 <= i < |items| ==> items[i] == items[1..][i - 1];
    }
  }

  lemma IPAddressRoundTrip(a: IPAddress)
    ensures DecodeIPAddress(ToRawIPAddress(a)) == Ok(a)
  {
    var f := ToRawIPAddress(a).fields;
    assert StringField(f, "id") == Ok(a.id);
    assert StringField(f, "address") == Ok(a.address);
    assert StringField(f, "gateway") == Ok(a.gateway);
    assert StringField(f, "network") == Ok(a.network);
    assert IntField(f, "addressFamily") == Ok(a.addressFamily);
    assert StringField(f, "netmask") == Ok(a.netmask);
    assert BoolField(f, "public") == Ok(a.public);
  }

  /** Decoding undoes ToRawIPAddresses. */
  lemma {:induction false} IPAddressesRoundTrip(addrs: seq<IPAddress>)
    ensures DecodeIPAddresses(ToRawIPAddresses(addrs)) == Ok(addrs)
    decreases |addrs|
  {
    if addrs != [] {
      var items := ToRawIPAddresses(addrs);
      assert items[0] == ToRawIPAddress(addrs[0]) && items[1..] == ToRawIPAddresses(addrs[1..]);
      IPAddressRoundTrip(addrs[0]);
      IPAddressesRoundTrip(addrs[1..]);
      assert [addrs[0]] + addrs[1..] == addrs;
    }
  }

  /**
   * ToMachineProviderStatus: an absent payload is the zero status; a present one
   * must fit the schema, including every element of its address list.
   */
  function ToMachineProviderStatus(src: Option<Json>): (r: Result<MachineStatus, DecodeError>)
    ensures src.None? ==> r == Ok(ZeroMachineStatus)
    ensures r.Ok? <==> src.None? || MachineStatusShaped(src.value)
  {
    if src.None? then Ok(ZeroMachineStatus)
    else
      var j := src.value;
      if j.JObj? && "ipAddresses" in j.fields && j.fields["ipAddresses"].JArr? then
        DecodeIPAddressesShaped(j.fields["ipAddresses"].items);
        DecodeMachineStatus(j)
      else
        DecodeMachineStatus(j)
  }

  /** The scalar fields of an encoded machine status read back. */
  lemma MachineStatusScalarsRoundTrip(s: MachineStatus)
    ensures var f := ToRawMachineStatus(s).fields;
      && BoolField(f, "ready") == Ok(s.ready)
      && StringField(f, "id") == Ok(s.id)
      && StringField(f, "state") == Ok(s.state)
  {
    var f := ToRawMachineStatus(s).fields;
    assert f["ready"] == JBool(s.ready);
    assert f["id"] == JStr(s.id);
    assert f["state"] == JStr(s.state);
  }

  /** The address list of an encoded machine status reads back. */
  lemma MachineStatusAddressesRoundTrip(s: MachineStatus)
    ensures IPAddressesField(ToRawMachineStatus(s).fields) == Ok(s.ipAddresses)
  {
    var f := ToRawMachineStatus(s).fields;
    if s.ipAddresses != [] {
      assert f["ipAddresses"] == JArr(ToRawIPAddresses(s.ipAddresses));
      IPAddressesRoundTrip(s.ipAddresses);
    } else {
      assert "ipAddresses" !in f;
    }
  }

  lemma MachineStatusRoundTrip(s: MachineStatus)
    ensures ToMachineProviderStatus(Some(ToRawMachineStatus(s))) == Ok(s)
  {
    var j := ToRawMachineStatus(s);
    MachineStatusScalarsRoundTrip(s);
    MachineStatusAddressesRoundTrip(s);
    assert DecodeMachineStatus(j) == Ok(s);
  }
}
