/**
 * The device layer shared by every variant: the capability parser, the identity a variant is built with,
 * and the base device object with its availability flag and its ping command.
 */
module Device {
  import opened Wrappers
  import opened Wire
  import Const
  import Dict
  import opened Api

  /** What the capability map keeps of one capability; an absent field reads as None. */
  datatype CapEntry = CapEntry(value: Json, readOnly: Json, timestamp: Json)

  /** Capability name to entry. */
  type CapabilityMap = map<string, CapEntry>

  /** A field of a raw capability, or None when the capability has no such field. */
  function FieldOr(c: RawCapability, f: string): Json {
    if f in c.fields then c.fields[f] else JNull
  }

  function EntryOf(c: RawCapability): CapEntry {
    CapEntry(FieldOr(c, "value"), FieldOr(c, "read_only"), FieldOr(c, "timestamp"))
  }

  /** `get_capabilities_map`: the capabilities keyed by name, a later capability replacing an earlier one of the same name. */
  function GetCapabilitiesMap(caps: seq<RawCapability>): (m: CapabilityMap)
    ensures m.Keys == set c | c in caps :: c.name
  {
    Dict.FromSeq(caps, (c: RawCapability) => c.name, EntryOf)
  }

  /** The entry of a name is copied from the last capability carrying it: each field as sent, or None when absent. */
  lemma {:induction false} CapabilityEntryOfLast(caps: seq<RawCapability>, i: nat)
    requires i < |caps|
    requires forall j :: i < j < |caps| ==> caps[j].name != caps[i].name
    ensures caps[i].name in GetCapabilitiesMap(caps)
    ensures var e := GetCapabilitiesMap(caps)[caps[i].name];
      && (e.value == if "value" in caps[i].fields then caps[i].fields["value"] else JNull)
      && (e.readOnly == if "read_only" in caps[i].fields then caps[i].fields["read_only"] else JNull)
      && (e.timestamp == if "timestamp" in caps[i].fields then caps[i].fields["timestamp"] else JNull)
  {
    Dict.FromSeqLastWins(caps, (c: RawCapability) => c.name, EntryOf, i);
  }

  /** Every entry of the map comes from some capability of the array with that name. */
  lemma {:induction false} CapabilityEntryOrigin(caps: seq<RawCapability>, name: string)
    requires name in GetCapabilitiesMap(caps)
    ensures exists i :: 0 <= i < |caps| && caps[i].name == name && GetCapabilitiesMap(caps)[name] == EntryOf(caps[i])
  {
    Dict.FromSeqValueOrigin(caps, (c: RawCapability) => c.name, EntryOf, name);
  }

  // ---------------------------------------------------------------------------------------------------------
  // Discovery descriptors

  /** The `{"did", "type"}` pair discovery extracts from a device object. */
  datatype DidType = DidType(did: Json, typ: Json)

  /** `get_did_type_from_json`: the values of the id and type capabilities, or KeyError when either is missing. */
  function GetDidTypeFromJson(device: DeviceJson): (r: Result<DidType, Failure>)
    ensures var m := GetCapabilitiesMap(device.capabilities);
      && (r.Ok? <==> Const.ID_DEVICE_LOC in m && Const.DEVICE_TYPE_LOC in m)
      && (r.Ok? ==> r.value == DidType(m[Const.ID_DEVICE_LOC].value, m[Const.DEVICE_TYPE_LOC].value))
      && (r.Err? ==> r.error == KeyError)
  {
    var m := GetCapabilitiesMap(device.capabilities);
    if Const.ID_DEVICE_LOC in m && Const.DEVICE_TYPE_LOC in m then
      Ok(DidType(m[Const.ID_DEVICE_LOC].value, m[Const.DEVICE_TYPE_LOC].value))
    else
      Err(KeyError)
  }

  /** Discovery succeeds exactly when the array names both capabilities, and reads the last id capability's value. */
  lemma {:induction false} DidTypeFromArray(device: DeviceJson, i: nat)
    requires i < |device.capabilities| && device.capabilities[i].name == Const.ID_DEVICE_LOC
    requires forall j :: i < j < |device.capabilities| ==> device.capabilities[j].name != Const.ID_DEVICE_LOC
    requires exists c :: c in device.capabilities && c.name == Const.DEVICE_TYPE_LOC
    ensures GetDidTypeFromJson(device).Ok?
    ensures GetDidTypeFromJson(device).value.did == FieldOr(device.capabilities[i], "value")
  {
    CapabilityEntryOfLast(device.capabilities, i);
  }

  // ---------------------------------------------------------------------------------------------------------
  // Identity

  /** The identity fields every variant is constructed with. */
  datatype Identity = Identity(
    did: Json, uid: Json, name: Json, deviceNumber: Json, model: string,
    fwVersion: Json, deviceGroup: Json, hasPingCmd: bool)

  /** The capabilities a variant's `build_from_api` subscripts; a missing one raises KeyError. */
  const REQUIRED: set<string> :=
    {Const.ID_DEVICE_LOC, Const.PROT_ID_DEVICE_LOC, Const.NAME_DEVICE_LOC, Const.PROD_CODE_DEVICE_LOC,
     Const.VERSION_CFG, Const.DEVICE_TYPE_LOC}

  /** The model name: the supported-device table's name for a known product code, "Generic Device" otherwise. */
  function ModelName(code: Json): (name: string)
    ensures code.JStr? && code.s in Const.SUPPORTED_DEVICES ==> name == Const.SUPPORTED_DEVICES[code.s]
    ensures !(code.JStr? && code.s in Const.SUPPORTED_DEVICES) ==> name == Const.GENERIC_DEVICE
    ensures name == Const.GENERIC_DEVICE || name in Const.SUPPORTED_DEVICES.Values
  {
    if code.JStr? && code.s in Const.SUPPORTED_DEVICES then Const.SUPPORTED_DEVICES[code.s] else Const.GENERIC_DEVICE
  }

  /** The identity part of `build_from_api`, common to cover, switch and sensor. */
  function IdentityFrom(m: CapabilityMap): (r: Result<Identity, Failure>)
    ensures r.Ok? <==> REQUIRED <= m.Keys
    ensures r.Err? ==> r.error == KeyError
    ensures r.Ok? ==> var id := r.value;
      && id.did == m[Const.ID_DEVICE_LOC].value
      && id.uid == m[Const.PROT_ID_DEVICE_LOC].value
      && id.name == m[Const.NAME_DEVICE_LOC].value
      && id.deviceNumber == m[Const.PROD_CODE_DEVICE_LOC].value
      && id.model == ModelName(m[Const.PROD_CODE_DEVICE_LOC].value)
      && id.fwVersion == m[Const.VERSION_CFG].value
      && id.deviceGroup == m[Const.DEVICE_TYPE_LOC].value
      && (id.hasPingCmd <==> Const.PING_CMD in m)
  {
    if REQUIRED <= m.Keys then
      var code := m[Const.PROD_CODE_DEVICE_LOC].value;
      Ok(Identity(
        m[Const.ID_DEVICE_LOC].value, m[Const.PROT_ID_DEVICE_LOC].value, m[Const.NAME_DEVICE_LOC].value,
        code, ModelName(code), m[Const.VERSION_CFG].value, m[Const.DEVICE_TYPE_LOC].value,
        Const.PING_CMD in m))
    else
      Err(KeyError)
  }

  /** The device object `get_device` returned, as a capability map; a list or None in its place raises TypeError. */
  function CapabilitiesOf(lookup: DeviceLookup): (r: Result<CapabilityMap, Failure>)
    ensures r.Ok? <==> lookup.Found?
    ensures r.Ok? ==> r.value.Keys == set c | c in lookup.device.capabilities :: c.name
    ensures r.Err? ==> r.error == TypeError
  {
    match lookup
    case Found(d) => Ok(GetCapabilitiesMap(d.capabilities))
    case _ => Err(TypeError)
  }

  /** The capability map `build_from_api` works on: what `get_device` raised, or its reply parsed. */
  function DeviceMap(got: Result<DeviceLookup, Failure>): (r: Result<CapabilityMap, Failure>)
    ensures got.Err? ==> r == Err(got.error)
    ensures got.Ok? ==> r == CapabilitiesOf(got.value)
  {
    var lookup :- got;
    CapabilitiesOf(lookup)
  }

  // ---------------------------------------------------------------------------------------------------------
  // The base device

  /** The availability after the base `update_state`, and whether the slice had a `statusValid` to read. */
  function BaseApply(available: Option<bool>, slice: Slice): (r: (Option<bool>, bool))
    ensures r.1 <==> slice.DeviceSlice?
    ensures r.1 ==> r.0 == Some(slice.statusValid)
    ensures !r.1 ==> r.0 == available
  {
    if slice.DeviceSlice? then (Some(slice.statusValid), true) else (available, false)
  }

  /**
   * `async_ping`, which every variant inherits: a ping goes out only when the device advertises the ping
   * command, and otherwise nothing is sent.
   */
  method PingIfSupported(api: HomePilotApi, identity: Identity, ex: AuthExchange) returns (r: Outcome<Failure>)
    modifies api
    ensures identity.hasPingCmd ==> r == api.AuthOutcome(ex)
    ensures identity.hasPingCmd ==>
              api.sent == old(api.sent) + api.CallTraffic(ex, PutCommand(identity.did, Body(PingCmd)))
    ensures identity.hasPingCmd ==> api.cookieJar == api.CookieAfter(old(api.cookieJar), ex)
    ensures !identity.hasPingCmd ==> r == Pass && api.sent == old(api.sent) && api.cookieJar == old(api.cookieJar)
  {
    if identity.hasPingCmd {
      r := api.Ping(identity.did, ex);
    } else {
      r := Pass;
    }
  }

  class HomePilotDevice {
    const api: HomePilotApi
    const identity: Identity
    const manufacturer: string := "Rademacher"
    /** Unset (None) until the first update. */
    var available: Option<bool>

    constructor (api: HomePilotApi, identity: Identity)
      ensures this.api == api && this.identity == identity
      ensures manufacturer == "Rademacher"
      ensures available == None
    {
      this.api := api;
      this.identity := identity;
      available := None;
    }

    /** `update_state`: availability is copied from `statusValid`; the identity is constant. */
    method UpdateState(slice: Slice) returns (ok: bool)
      modifies this
      ensures (available, ok) == BaseApply(old(available), slice)
    {
      if slice.DeviceSlice? {
        available := Some(slice.statusValid);
        ok := true;
      } else {
        ok := false;
      }
    }

    /** `async_ping`. */
    method Ping(ex: AuthExchange) returns (r: Outcome<Failure>)
      modifies api
      ensures identity.hasPingCmd ==> r == api.AuthOutcome(ex)
      ensures identity.hasPingCmd ==>
                api.sent == old(api.sent) + api.CallTraffic(ex, PutCommand(identity.did, Body(PingCmd)))
      ensures identity.hasPingCmd ==> api.cookieJar == api.CookieAfter(old(api.cookieJar), ex)
      ensures !identity.hasPingCmd ==> r == Pass && api.sent == old(api.sent) && api.cookieJar == old(api.cookieJar)
    {
      r := PingIfSupported(api, identity, ex);
    }
  }
}
