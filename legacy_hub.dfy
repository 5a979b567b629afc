/**
 * The older registry owner, `HomePilotHub` of homepilot/hub.py: the same build and reconcile cycle as the
 * manager, without the hub pseudo-device — discovery keeps only the bridge's own devices, the snapshot has
 * no "-1" entry, and the type codes kept are "1", "2" and "3".
 */
module LegacyHub {
  import opened Wrappers
  import opened Wire
  import Dict
  import opened Api
  import opened Device
  import opened Registry

  /** `build_device`'s dispatch, which the comprehension's filter mirrors. */
  function Dispatch(code: Json): (k: Option<Kind>)
    ensures k.Some? <==> code in {JStr("1"), JStr("2"), JStr("3")}
    ensures k != Some(HubKind)
  {
    match code
    case JStr("1") => Some(SwitchKind)
    case JStr("2") => Some(CoverKind)
    case JStr("3") => Some(SensorKind)
    case _ => None
  }

  /** Each kept code has its variant. */
  lemma DispatchTable(code: Json)
    ensures Dispatch(code) == Some(SwitchKind) <==> code == JStr("1")
    ensures Dispatch(code) == Some(CoverKind) <==> code == JStr("2")
    ensures Dispatch(code) == Some(SensorKind) <==> code == JStr("3")
  {
  }

  /** `get_device_ids_types`: the bridge's device list, as id/type pairs. */
  function DiscoveredIds(api: HomePilotApi, ex: AuthExchange, reply: Http<DevicesBody>): (r: Result<seq<DidType>, Failure>)
    ensures r.Ok? ==> DevicesReply(api.AuthOutcome(ex), reply).Ok? && |r.value| == |DevicesOf(reply.body)|
  {
    var listed :- DevicesReply(api.AuthOutcome(ex), reply);
    DidTypes(listed)
  }

  /** The bridge's answers during discovery: the login replies, `GET /devices`, and one `get_device` per target. */
  datatype Discovery = Discovery(ex: AuthExchange, devices: Http<DevicesBody>, builds: nat -> DeviceExchange)

  /** `build_hub`'s registry comprehension as a value: the planned devices, or the exception it raises. */
  function Discover(api: HomePilotApi, x: Discovery): Result<seq<Planned>, Failure> {
    var ids :- DiscoveredIds(api, x.ex, x.devices);
    PlanAll(api, Targets(ids, Dispatch), x.builds)
  }

  /** The registry holds a device for a discovered id exactly when its type code is "1", "2" or "3". */
  lemma DiscoveredKeys(api: HomePilotApi, x: Discovery)
    requires Discover(api, x).Ok?
    ensures var ids := DiscoveredIds(api, x.ex, x.devices).value;
      Dict.FromSeq(Discover(api, x).value, KeyOf, ViewOfPlanned).Keys
        == set id | id in ids && id.typ in {JStr("1"), JStr("2"), JStr("3")} :: id.did
  {
    var ids := DiscoveredIds(api, x.ex, x.devices).value;
    TargetKeys(ids, Dispatch);
    PlannedKeys(api, Targets(ids, Dispatch), x.builds);
  }

  /** No hub pseudo-device is ever built: every planned device is a switch, a cover or a sensor. */
  lemma NoHubPseudoDevice(api: HomePilotApi, x: Discovery)
    requires Discover(api, x).Ok?
    ensures forall p :: p in Discover(api, x).value ==> !p.view.HubView?
  {
    var ids := DiscoveredIds(api, x.ex, x.devices).value;
    var ts := Targets(ids, Dispatch);
    var ps := Discover(api, x).value;
    forall p | p in ps
      ensures !p.view.HubView?
    {
      var i :| 0 <= i < |ps| && ps[i] == p;
      assert ts[i] in ts;
    }
  }

  class HomePilotHub {
    const api: HomePilotApi
    /** The `devices` dict: unset in the source until `build_hub` assigns it; modelled as empty, which no caller observes. */
    const registry: DeviceRegistry

    ghost predicate Valid()
      reads this, registry, registry.owner.Keys
    {
      registry.Valid() && api !in registry.owner
    }

    constructor (host: string, password: string, sha256: string -> string)
      ensures Valid() && fresh(api) && fresh(registry)
      ensures api.host == host && api.password == password && api.sha256 == sha256
      ensures api.sent == [] && api.cookieJar == None
      ensures registry.views == map[] && registry.order == []
    {
      api := new HomePilotApi(host, password, sha256);
      registry := new DeviceRegistry();
    }

    /** `get_device_ids_types`. */
    method GetDeviceIdsTypes(ex: AuthExchange, reply: Http<DevicesBody>) returns (r: Result<seq<DidType>, Failure>)
      modifies api
      ensures r == DiscoveredIds(api, ex, reply)
      ensures api.sent == old(api.sent) + api.CallTraffic(ex, Get(DEVICES_PATH))
      ensures api.cookieJar == api.CookieAfter(old(api.cookieJar), ex)
    {
      var devices :- api.GetDevices(ex, reply);
      r := DidTypes(devices);
    }

    /** `hub.devices = {...}`: discover, then build every dispatchable device into the empty registry. */
    method BuildDevices(x: Discovery) returns (r: Outcome<Failure>)
      requires Valid() && registry.views == map[] && registry.order == []
      modifies registry, api
      ensures Discover(api, x).Err? ==> r == Fail(Discover(api, x).error)
      ensures Discover(api, x).Ok? ==> && r == Pass && Valid()
                                       && registry.views == Dict.FromSeq(Discover(api, x).value, KeyOf, ViewOfPlanned)
                                       && registry.order == Dict.InsertionOrder(KeysOf(Discover(api, x).value))
    {
      var ids := GetDeviceIdsTypes(x.ex, x.devices);
      if ids.Err? {
        return Fail(ids.error);
      }
      r := registry.Build(api, Targets(ids.value, Dispatch), x.builds);
    }

    /** `build_hub`: a new hub whose registry holds the discovered devices. */
    static method BuildHub(host: string, password: string, sha256: string -> string, x: Discovery)
      returns (r: Result<HomePilotHub, Failure>)
      ensures r.Ok? ==> && fresh(r.value) && fresh(r.value.api) && fresh(r.value.registry) && r.value.Valid()
                        && r.value.api.host == host && r.value.api.password == password && r.value.api.sha256 == sha256
                        && Discover(r.value.api, x).Ok?
                        && r.value.registry.views == Dict.FromSeq(Discover(r.value.api, x).value, KeyOf, ViewOfPlanned)
                        && r.value.registry.order == Dict.InsertionOrder(KeysOf(Discover(r.value.api, x).value))
    {
      var hub := new HomePilotHub(host, password, sha256);
      var built := hub.BuildDevices(x);
      if built.Fail? {
        return Err(built.error);
      }
      r := Ok(hub);
    }

    /**
     * `update_states`: when `get_devices_state` raises an `Exception` every device becomes unavailable and
     * the exception propagates; AuthError and CannotConnect propagate with the devices untouched; otherwise
     * the registry is reconciled with the snapshot, and a KeyError there propagates from the device it hit.
     */
    method UpdateStates(ex: AuthExchange, actuators: Http<V4Body>, meters: Http<V4Body>, hubUpdate: HubUpdate)
      returns (r: Result<map<Json, Entry>, Failure>)
      requires Valid()
      modifies api, registry, registry.owner.Keys
      ensures Valid()
      ensures registry.devices == old(registry.devices) && registry.order == old(registry.order)
      ensures registry.owner == old(registry.owner)
      ensures r.Ok? ==> r.value == registry.devices
      ensures api.sent == old(api.sent) + api.DevicesStateTraffic(ex, actuators)
      ensures api.cookieJar == api.CookieAfter(old(api.cookieJar), ex)
      ensures var f := DevicesState(api.AuthOutcome(ex), actuators, meters);
        && (f.Err? ==> r == Err(f.error))
        && (f.Err? && IsException(f.error) ==> registry.views == AllUnavailable(old(registry.views)))
        && (f.Err? && !IsException(f.error) ==> registry.views == old(registry.views))
        && (f.Ok? ==> var (vs, failedAt) := Reconcile(registry.order, old(registry.views), f.value, hubUpdate);
                      && registry.views == vs
                      && (r.Err? <==> failedAt.Some?)
                      && (r.Err? ==> r.error == KeyError))
    {
      var states := api.GetDevicesState(ex, actuators, meters);
      if states.Err? {
        if IsException(states.error) {
          registry.MarkAllUnavailable();
        }
        return Err(states.error);
      }
      var failedAt := registry.ApplySnapshot(states.value, hubUpdate);
      if failedAt.Some? {
        return Err(KeyError);
      }
      r := Ok(registry.devices);
    }
  }
}
