/** A switching actuator: on whenever the bridge reports a non-zero Position. */
module Switch {
  import opened Wrappers
  import opened Wire
  import opened Api
  import opened Device

  /** What `build_from_api` fixes for a switch: only the common identity. */
  datatype SwitchConfig = SwitchConfig(identity: Identity)

  /** The mutable fields of a switch, unset (None) until the first update that writes them. */
  datatype SwitchState = SwitchState(available: Option<bool>, isOn: Option<bool>)

  const UNSET := SwitchState(None, None)

  /** `build_from_api` for a switch. */
  function SwitchConfigFrom(m: CapabilityMap): (r: Result<SwitchConfig, Failure>)
    ensures r.Ok? <==> IdentityFrom(m).Ok?
    ensures r.Ok? ==> r.value.identity == IdentityFrom(m).value
    ensures r.Err? ==> r.error == KeyError
  {
    var identity :- IdentityFrom(m);
    Ok(SwitchConfig(identity))
  }

  /** Everything `build_from_api` does after `get_device` answered or raised. */
  function SwitchPlan(got: Result<DeviceLookup, Failure>): Result<SwitchConfig, Failure> {
    var m :- DeviceMap(got);
    SwitchConfigFrom(m)
  }

  /**
   * `update_state` on a switch, and whether it completed: a slice without `statusValid` changes nothing, a
   * slice without a Position changes only the availability.
   */
  function SwitchApply(s: SwitchState, slice: Slice): (r: (SwitchState, bool))
    ensures r.1 <==> slice.DeviceSlice? && "Position" in slice.statusesMap
    ensures slice.DeviceSlice? ==> r.0.available == Some(slice.statusValid)
    ensures !slice.DeviceSlice? ==> r.0 == s
    ensures !r.1 ==> r.0.isOn == s.isOn
    ensures r.1 ==> (r.0.isOn == Some(true) <==> slice.statusesMap["Position"] != 0)
    ensures r.1 ==> r.0.isOn.Some?
  {
    var (available, ok) := BaseApply(s.available, slice);
    if !ok then (s, false)
    else if "Position" !in slice.statusesMap then (s.(available := available), false)
    else (SwitchState(available, Some(slice.statusesMap["Position"] != 0)), true)
  }

  /** `async_toggle`'s choice: turn off what is on, turn on what is off; before any update the attribute is unset. */
  function ToggleCommand(isOn: Option<bool>): (r: Result<Command, Failure>)
    ensures r.Ok? <==> isOn.Some?
    ensures r.Ok? ==> (r.value == TurnOffCmd <==> isOn.value) && (r.value == TurnOnCmd <==> !isOn.value)
    ensures r.Err? ==> r.error == AttributeError
  {
    match isOn
    case None => Err(AttributeError)
    case Some(on) => if on then Ok(TurnOffCmd) else Ok(TurnOnCmd)
  }

  /** The command a toggle sends after an update is decided by that update's Position alone. */
  lemma ToggleAfterUpdate(s: SwitchState, valid: bool, statuses: map<string, int>, readings: map<string, Json>)
    requires "Position" in statuses
    ensures var after := SwitchApply(s, DeviceSlice(valid, statuses, readings)).0;
      ToggleCommand(after.isOn) == if statuses["Position"] != 0 then Ok(TurnOffCmd) else Ok(TurnOnCmd)
  {
  }

  class HomePilotSwitch {
    const api: HomePilotApi
    const identity: Identity
    /** Unset (None) until the first update. */
    var available: Option<bool>
    var isOn: Option<bool>

    function State(): SwitchState
      reads this
    {
      SwitchState(available, isOn)
    }

    function Config(): SwitchConfig {
      SwitchConfig(identity)
    }

    constructor (api: HomePilotApi, config: SwitchConfig)
      ensures Config() == config && this.api == api
      ensures State() == UNSET
    {
      this.api := api;
      identity := config.identity;
      available := None;
      isOn := None;
    }

    /** `build_from_api`: fetch the device, parse its capabilities, construct. */
    static method BuildFromApi(api: HomePilotApi, did: Json, ex: AuthExchange, reply: Http<DeviceBody>)
      returns (r: Result<HomePilotSwitch, Failure>)
      modifies api
      ensures var plan := SwitchPlan(DeviceReply(api.AuthOutcome(ex), reply));
        && (r.Ok? <==> plan.Ok?)
        && (r.Err? ==> r.error == plan.error)
        && (r.Ok? ==> fresh(r.value) && r.value.api == api
                      && r.value.Config() == plan.value && r.value.State() == UNSET)
      ensures api.sent == old(api.sent) + api.CallTraffic(ex, GetOne(did))
      ensures api.cookieJar == api.CookieAfter(old(api.cookieJar), ex)
    {
      var got := api.GetDevice(ex, did, reply);
      var config := SwitchPlan(got);
      if config.Err? {
        return Err(config.error);
      }
      var sw := new HomePilotSwitch(api, config.value);
      r := Ok(sw);
    }

    /** `update_state`. */
    method UpdateState(slice: Slice) returns (ok: bool)
      modifies this
      ensures (State(), ok) == SwitchApply(old(State()), slice)
    {
      if !slice.DeviceSlice? {
        return false;
      }
      available := Some(slice.statusValid);
      ok := true;
      if "Position" !in slice.statusesMap {
        return false;
      }
      isOn := Some(slice.statusesMap["Position"] != 0);
    }

    /** `async_ping`, inherited from the base device. */
    method Ping(ex: AuthExchange) returns (r: Outcome<Failure>)
      modifies api
      ensures identity.hasPingCmd ==> r == api.AuthOutcome(ex)
      ensures identity.hasPingCmd ==>
                api.sent == old(api.sent) + api.CallTraffic(ex, PutCommand(identity.did, Body(PingCmd)))
      ensures identity.hasPingCmd ==> api.cookieJar == api.CookieAfter(old(api.cookieJar), ex)
      ensures !identity.hasPingCmd ==> r == Pass && api.sent == old(api.sent) && api.cookieJar == old(api.cookieJar)
    {
      r := PingIfSupported(api, identity, ex);
    }

    /** `async_turn_on`. */
    method TurnOn(ex: AuthExchange) returns (r: Outcome<Failure>)
      modifies api
      ensures r == api.AuthOutcome(ex)
      ensures api.sent == old(api.sent) + api.CallTraffic(ex, PutCommand(identity.did, Body(TurnOnCmd)))
      ensures api.cookieJar == api.CookieAfter(old(api.cookieJar), ex)
    {
      r := api.TurnOn(identity.did, ex);
    }

    /** `async_turn_off`. */
    method TurnOff(ex: AuthExchange) returns (r: Outcome<Failure>)
      modifies api
      ensures r == api.AuthOutcome(ex)
      ensures api.sent == old(api.sent) + api.CallTraffic(ex, PutCommand(identity.did, Body(TurnOffCmd)))
      ensures api.cookieJar == api.CookieAfter(old(api.cookieJar), ex)
    {
      r := api.TurnOff(identity.did, ex);
    }

    /** `async_toggle`: exactly one command, the opposite of the stored state; nothing before the first update. */
    method Toggle(ex: AuthExchange) returns (r: Outcome<Failure>)
      modifies api
      ensures ToggleCommand(isOn).Err? ==> r == Fail(AttributeError) && api.sent == old(api.sent)
      ensures ToggleCommand(isOn).Err? ==> api.cookieJar == old(api.cookieJar)
      ensures ToggleCommand(isOn).Ok? ==> r == api.AuthOutcome(ex)
      ensures ToggleCommand(isOn).Ok? ==>
                api.sent == old(api.sent)
                                 + api.CallTraffic(ex, PutCommand(identity.did, Body(ToggleCommand(isOn).value)))
      ensures ToggleCommand(isOn).Ok? ==> api.cookieJar == api.CookieAfter(old(api.cookieJar), ex)
    {
      match isOn {
        case None =>
          r := Fail(AttributeError);
        case Some(on) =>
          if on {
            r := TurnOff(ex);
          } else {
            r := TurnOn(ex);
          }
      }
    }
  }
}
