/**
 * The manager: discovers the bridge's devices, builds the registry once (the bridge itself included, as the
 * hub pseudo-device under id "-1"), and on every cycle fetches one state snapshot and reconciles the registry
 * with it.
 */
module Manager {
  import opened Wrappers
  import opened Wire
  import Const
  import Dict
  import opened Api
  import opened Device
  import opened Registry

  /** The id, and the type code, of the hub pseudo-device. */
  const HUB_ID := JStr("-1")

  /**
   * The descriptor appended to the discovery list for the bridge itself. Its class is not part of this
   * model; the descriptor carries the id and the type code "-1" and nothing else.
   */
  const HUB_DESCRIPTOR := DeviceJson([
    RawCapability(Const.ID_DEVICE_LOC, map["value" := HUB_ID]),
    RawCapability(Const.DEVICE_TYPE_LOC, map["value" := HUB_ID])])

  /** The hub descriptor is discovered as id "-1" of type "-1". */
  lemma HubDescriptorDidType()
    ensures GetDidTypeFromJson(HUB_DESCRIPTOR) == Ok(DidType(HUB_ID, HUB_ID))
  {
    var caps := HUB_DESCRIPTOR.capabilities;
    assert Const.ID_DEVICE_LOC != Const.DEVICE_TYPE_LOC by {
      assert Const.ID_DEVICE_LOC[0] != Const.DEVICE_TYPE_LOC[0];
    }
    CapabilityEntryOfLast(caps, 0);
    CapabilityEntryOfLast(caps, 1);
  }

  /** `build_device`'s dispatch on the type code, which the comprehension's filter mirrors. */
  function Dispatch(code: Json): (k: Option<Kind>)
    ensures k.Some? <==> code in {JStr("-1"), JStr("1"), JStr("2"), JStr("3")}
  {
    match code
    case JStr("-1") => Some(HubKind)
    case JStr("1") => Some(SwitchKind)
    case JStr("2") => Some(CoverKind)
    case JStr("3") => Some(SensorKind)
    case _ => None
  }

  /** The hub pseudo-device is the only device built without asking the bridge; each other code has its variant. */
  lemma DispatchTable(code: Json)
    ensures Dispatch(code) == Some(HubKind) <==> code == JStr("-1")
    ensures Dispatch(code) == Some(SwitchKind) <==> code == JStr("1")
    ensures Dispatch(code) == Some(CoverKind) <==> code == JStr("2")
    ensures Dispatch(code) == Some(SensorKind) <==> code == JStr("3")
    ensures code.JNum? ==> Dispatch(code).None?
  {
  }

  /** The bridge's answers during discovery: the login replies, `GET /devices`, and one `get_device` per target. */
  datatype Discovery = Discovery(ex: AuthExchange, devices: Http<DevicesBody>, builds: nat -> DeviceExchange)

  /** `get_device_ids_types`: the bridge's device list with the hub descriptor appended, as id/type pairs. */
  function DiscoveredIds(api: HomePilotApi, ex: AuthExchange, reply: Http<DevicesBody>): Result<seq<DidType>, Failure> {
    var listed :- DevicesReply(api.AuthOutcome(ex), reply);
    DidTypes(listed + [HUB_DESCRIPTOR])
  }

  /** The discovered list is the bridge's list, in its order, with the hub pseudo-device last. */
  lemma HubDiscoveredLast(api: HomePilotApi, ex: AuthExchange, reply: Http<DevicesBody>)
    requires DiscoveredIds(api, ex, reply).Ok?
    ensures var ids := DiscoveredIds(api, ex, reply).value;
      && |ids| == |DevicesOf(reply.body)| + 1
      && ids[|ids| - 1] == DidType(HUB_ID, HUB_ID)
      && DidTypes(DevicesOf(reply.body)) == Ok(ids[..|ids| - 1])
  {
    var listed := DevicesOf(reply.body);
    var all := listed + [HUB_DESCRIPTOR];
    HubDescriptorDidType();
    assert all[..|all| - 1] == listed;
  }

  /** `build_manager`'s registry comprehension as a value: the planned devices, or the exception it raises. */
  function Discover(api: HomePilotApi, x: Discovery): Result<seq<Planned>, Failure> {
    var ids :- DiscoveredIds(api, x.ex, x.devices);
    PlanAll(api, Targets(ids, Dispatch), x.builds)
  }

  /** The registry holds a device for a discovered id exactly when its type code is "-1", "1", "2" or "3". */
  lemma DiscoveredKeys(api: HomePilotApi, x: Discovery)
    requires Discover(api, x).Ok?
    ensures var ids := DiscoveredIds(api, x.ex, x.devices).value;
      Dict.FromSeq(Discover(api, x).value, KeyOf, ViewOfPlanned).Keys
        == set id | id in ids && id.typ in {JStr("-1"), JStr("1"), JStr("2"), JStr("3")} :: id.did
  {
    var ids := DiscoveredIds(api, x.ex, x.devices).value;
    TargetKeys(ids, Dispatch);
    PlannedKeys(api, Targets(ids, Dispatch), x.builds);
  }

  /** A successful discovery always stores the hub pseudo-device under "-1". */
  lemma HubAlwaysBuilt(api: HomePilotApi, x: Discovery)
    requires Discover(api, x).Ok?
    ensures HUB_ID in Dict.FromSeq(Discover(api, x).value, KeyOf, ViewOfPlanned)
  {
    var ids := DiscoveredIds(api, x.ex, x.devices).value;
    HubDiscoveredLast(api, x.ex, x.devices);
    assert ids[|ids| - 1] in ids;
    DiscoveredKeys(api, x);
  }

  /** The bridge's answers to `get_hub_state`: firmware status, firmware version, LED status, each with its login. */
  datatype HubExchange = HubExchange(
    statusEx: AuthExchange, status: Http<Json>,
    versionEx: AuthExchange, version: Http<Json>,
    ledEx: AuthExchange, led: Http<Json>)

  /** `get_hub_state`: the three fetches in order, the first that raises aborting the others. */
  function HubStateOf(api: HomePilotApi, h: HubExchange): (r: Result<Slice, Failure>)
    ensures r.Ok? <==> && Fetched(api.AuthOutcome(h.statusEx), h.status).Ok?
                       && Fetched(api.AuthOutcome(h.versionEx), h.version).Ok?
                       && Fetched(api.AuthOutcome(h.ledEx), h.led).Ok?
    ensures r.Ok? ==> r.value == HubSlice(h.status.body, h.version.body, h.led.body)
    ensures Fetched(api.AuthOutcome(h.statusEx), h.status).Err? ==> r == Err(Fetched(api.AuthOutcome(h.statusEx), h.status).error)
    ensures Fetched(api.AuthOutcome(h.statusEx), h.status).Ok? && Fetched(api.AuthOutcome(h.versionEx), h.version).Err? ==>
              r == Err(Fetched(api.AuthOutcome(h.versionEx), h.version).error)
    ensures && Fetched(api.AuthOutcome(h.statusEx), h.status).Ok?
            && Fetched(api.AuthOutcome(h.versionEx), h.version).Ok?
            && Fetched(api.AuthOutcome(h.ledEx), h.led).Err?
            ==> r == Err(Fetched(api.AuthOutcome(h.ledEx), h.led).error)
  {
    var status :- Fetched(api.AuthOutcome(h.statusEx), h.status);
    var version :- Fetched(api.AuthOutcome(h.versionEx), h.version);
    var led :- Fetched(api.AuthOutcome(h.ledEx), h.led);
    Ok(HubSlice(status, version, led))
  }

  /** The requests `get_hub_state` sends: each fetch's traffic in turn, up to the first that raises. */
  function HubTraffic(api: HomePilotApi, h: HubExchange): seq<Request> {
    var status := api.CallTraffic(h.statusEx, Get(FW_STATUS_PATH));
    if Fetched(api.AuthOutcome(h.statusEx), h.status).Err? then status
    else
      var version := api.CallTraffic(h.versionEx, Get(FW_VERSION_PATH));
      if Fetched(api.AuthOutcome(h.versionEx), h.version).Err? then status + version
      else status + version + api.CallTraffic(h.ledEx, Get(LED_STATUS_PATH))
  }

  /** The cookie jar after `get_hub_state`: each fetch's login in turn, up to the first fetch that raises. */
  function HubCookie(api: HomePilotApi, jar: Option<CookieJar>, h: HubExchange): Option<CookieJar> {
    var afterStatus := api.CookieAfter(jar, h.statusEx);
    if Fetched(api.AuthOutcome(h.statusEx), h.status).Err? then afterStatus
    else
      var afterVersion := api.CookieAfter(afterStatus, h.versionEx);
      if Fetched(api.AuthOutcome(h.versionEx), h.version).Err? then afterVersion
      else api.CookieAfter(afterVersion, h.ledEx)
  }

  /** A hub state that was read was read with all three requests, in the order status, version, LED. */
  lemma HubTrafficComplete(api: HomePilotApi, h: HubExchange)
    requires HubStateOf(api, h).Ok?
    ensures HubTraffic(api, h) == api.CallTraffic(h.statusEx, Get(FW_STATUS_PATH))
                                  + api.CallTraffic(h.versionEx, Get(FW_VERSION_PATH))
                                  + api.CallTraffic(h.ledEx, Get(LED_STATUS_PATH))
  {
  }

  /** `states["-1"] = hub_state`: the snapshot gains the hub's entry and keeps every other one. */
  function Snapshot(states: map<string, Slice>, hub: Slice): (m: map<string, Slice>)
    ensures m.Keys == states.Keys + {"-1"}
    ensures m["-1"] == hub
    ensures forall k :: k in states && k != "-1" ==> m[k] == states[k]
  {
    states["-1" := hub]
  }

  /**
   * The hub pseudo-device, stored under its own id, is found in every snapshot: the cycle never marks it
   * unavailable, and always hands it the hub's slice.
   */
  lemma HubAlwaysRefreshed(states: map<string, Slice>, hub: Slice, s: HubState, hubUpdate: HubUpdate)
    ensures DidIn(HUB_ID, Snapshot(states, hub))
    ensures Step(HUB_ID, HubView(HUB_ID, s), Snapshot(states, hub), hubUpdate) == HubView(HUB_ID, s).Apply(hub, hubUpdate)
  {
  }

  /**
   * What one `update_states` meets: the bridge's answers, and the update of the hub pseudo-device, whose
   * class is not part of this model.
   */
  datatype SnapshotExchange = SnapshotExchange(ex: AuthExchange, actuators: Http<V4Body>, meters: Http<V4Body>,
                                               hub: HubExchange, hubUpdate: HubUpdate)

  /** The `try` block of `update_states`: the merged device states plus the hub entry, or the exception raised. */
  function Fetch(api: HomePilotApi, s: SnapshotExchange): (r: Result<map<string, Slice>, Failure>)
    ensures r.Ok? <==> DevicesState(api.AuthOutcome(s.ex), s.actuators, s.meters).Ok? && HubStateOf(api, s.hub).Ok?
    ensures r.Ok? ==> r.value == Snapshot(DevicesState(api.AuthOutcome(s.ex), s.actuators, s.meters).value, HubStateOf(api, s.hub).value)
    ensures DevicesState(api.AuthOutcome(s.ex), s.actuators, s.meters).Err? ==>
              r == Err(DevicesState(api.AuthOutcome(s.ex), s.actuators, s.meters).error)
    ensures DevicesState(api.AuthOutcome(s.ex), s.actuators, s.meters).Ok? && HubStateOf(api, s.hub).Err? ==>
              r == Err(HubStateOf(api, s.hub).error)
  {
    var states :- DevicesState(api.AuthOutcome(s.ex), s.actuators, s.meters);
    var hub :- HubStateOf(api, s.hub);
    Ok(Snapshot(states, hub))
  }

  class HomePilotManager {
    const api: HomePilotApi
    /** The `devices` dict: unset in the source until `build_manager` assigns it; modelled as empty, which no caller observes. */
    const registry: DeviceRegistry

    ghost predicate Valid()
      reads this, registry, registry.owner.Keys
    {
      registry.Valid() && api !in registry.owner
    }

    constructor (host: string, password: string, sha256: string -> string)
      ensures Valid() && fresh(api) && fresh(registry)
      ensures api.host == host && api.password == password && api.sha256 == sha256
      ensures api.sent == [] && api.cookieJar == None
      ensures registry.views == map[] && registry.order == []
    {
      api := new HomePilotApi(host, password, sha256);
      registry := new DeviceRegistry();
    }

    /** `get_device_ids_types`. */
    method GetDeviceIdsTypes(ex: AuthExchange, reply: Http<DevicesBody>) returns (r: Result<seq<DidType>, Failure>)
      modifies api
      ensures r == DiscoveredIds(api, ex, reply)
      ensures api.sent == old(api.sent) + api.CallTraffic(ex, Get(DEVICES_PATH))
      ensures api.cookieJar == api.CookieAfter(old(api.cookieJar), ex)
    {
      var devices :- api.GetDevices(ex, reply);
      devices := devices + [HUB_DESCRIPTOR];
      r := DidTypes(devices);
    }

    /** `manager.devices = {...}`: discover, then build every dispatchable device into the empty registry. */
    method BuildDevices(x: Discovery) returns (r: Outcome<Failure>)
      requires Valid() && registry.views == map[] && registry.order == []
      modifies registry, api
      ensures Discover(api, x).Err? ==> r == Fail(Discover(api, x).error)
      ensures Discover(api, x).Ok? ==> && r == Pass && Valid()
                                       && registry.views == Dict.FromSeq(Discover(api, x).value, KeyOf, ViewOfPlanned)
                                       && registry.order == Dict.InsertionOrder(KeysOf(Discover(api, x).value))
    {
      var ids := GetDeviceIdsTypes(x.ex, x.devices);
      if ids.Err? {
        return Fail(ids.error);
      }
      r := registry.Build(api, Targets(ids.value, Dispatch), x.builds);
    }

    /** `build_manager`: a new manager whose registry holds the discovered devices. */
    static method BuildManager(host: string, password: string, sha256: string -> string, x: Discovery)
      returns (r: Result<HomePilotManager, Failure>)
      ensures r.Ok? ==> && fresh(r.value) && fresh(r.value.api) && fresh(r.value.registry) && r.value.Valid()
                        && r.value.api.host == host && r.value.api.password == password && r.value.api.sha256 == sha256
                        && Discover(r.value.api, x).Ok?
                        && r.value.registry.views == Dict.FromSeq(Discover(r.value.api, x).value, KeyOf, ViewOfPlanned)
                        && r.value.registry.order == Dict.InsertionOrder(KeysOf(Discover(r.value.api, x).value))
    {
      var manager := new HomePilotManager(host, password, sha256);
      var built := manager.BuildDevices(x);
      if built.Fail? {
        return Err(built.error);
      }
      r := Ok(manager);
    }

    /** `get_hub_state`. */
    method GetHubState(h: HubExchange) returns (r: Result<Slice, Failure>)
      modifies api
      ensures r == HubStateOf(api, h)
      ensures api.sent == old(api.sent) + HubTraffic(api, h)
      ensures api.cookieJar == HubCookie(api, old(api.cookieJar), h)
    {
      var status :- api.GetFwStatus(h.statusEx, h.status);
      var version :- api.GetFwVersion(h.versionEx, h.version);
      var led :- api.GetLedStatus(h.ledEx, h.led);
      r := Ok(HubSlice(status, version, led));
    }

    /**
     * `update_states`: when fetching the snapshot raises an `Exception` every device becomes unavailable and
     * the exception propagates; AuthError and CannotConnect propagate with the devices untouched; otherwise
     * the registry is reconciled with the snapshot, and a KeyError there propagates from the device it hit.
     */
    method UpdateStates(s: SnapshotExchange) returns (r: Result<map<Json, Entry>, Failure>)
      requires Valid()
      modifies api, registry, registry.owner.Keys
      ensures Valid()
      ensures registry.devices == old(registry.devices) && registry.order == old(registry.order)
      ensures registry.owner == old(registry.owner)
      ensures r.Ok? ==> r.value == registry.devices
      ensures Fetch(api, s).Err? ==> r == Err(Fetch(api, s).error)
      ensures var devicesFetched := DevicesState(api.AuthOutcome(s.ex), s.actuators, s.meters).Ok?;
        && api.sent == old(api.sent) + api.DevicesStateTraffic(s.ex, s.actuators)
                                     + (if devicesFetched then HubTraffic(api, s.hub) else [])
        && api.cookieJar == if devicesFetched then HubCookie(api, api.CookieAfter(old(api.cookieJar), s.ex), s.hub)
                            else api.CookieAfter(old(api.cookieJar), s.ex)
      ensures Fetch(api, s).Err? && IsException(Fetch(api, s).error) ==>
                registry.views == AllUnavailable(old(registry.views))
      ensures Fetch(api, s).Err? && !IsException(Fetch(api, s).error) ==> registry.views == old(registry.views)
      ensures Fetch(api, s).Ok? ==>
                var (vs, failedAt) := Reconcile(registry.order, old(registry.views), Fetch(api, s).value, s.hubUpdate);
                && registry.views == vs
                && (r.Err? <==> failedAt.Some?)
                && (r.Err? ==> r.error == KeyError)
    {
      var fetched := api.GetDevicesState(s.ex, s.actuators, s.meters);
      var states: map<string, Slice> := map[];
      if fetched.Ok? {
        var hub := GetHubState(s.hub);
        if hub.Ok? {
          states := fetched.value;
          states := states["-1" := hub.value];
        } else {
          fetched := Err(hub.error);
        }
      }
      if fetched.Err? {
        if IsException(fetched.error) {
          registry.MarkAllUnavailable();
        }
        return Err(fetched.error);
      }
      var failedAt := registry.ApplySnapshot(states, s.hubUpdate);
      if failedAt.Some? {
        return Err(KeyError);
      }
      r := Ok(registry.devices);
    }
  }
}
