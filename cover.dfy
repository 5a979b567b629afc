/**
 * A roller shutter or awning. The bridge reports how far the cover is lowered (100 = fully down); the
 * device stores how far it is open, `100 - wire`, and converts back when it sends a target position.
 */
module Cover {
  import opened Wrappers
  import opened Wire
  import Const
  import opened Api
  import opened Device

  /** What `build_from_api` fixes for a cover. */
  datatype CoverConfig = CoverConfig(identity: Identity, canSetPosition: bool)

  /** The mutable fields of a cover; each is unset (None) until the first update that writes it. */
  datatype CoverState = CoverState(
    available: Option<bool>, position: Option<int>,
    isClosed: Option<bool>, isClosing: Option<bool>, isOpening: Option<bool>)
  {
    /** Either nothing positional has been written yet, or the flags were derived from the stored position. */
    predicate Consistent() {
      || (position.None? && isClosed.None? && isClosing.None? && isOpening.None?)
      || (position.Some? && isClosed == Some(position.value == 0) && isClosing == Some(false) && isOpening == Some(false))
    }
  }

  const UNSET := CoverState(None, None, None, None, None)

  /** The conversion between the bridge's lowered-percentage and the stored open-percentage; it is its own inverse. */
  function Invert(p: int): (q: int)
    ensures q + p == 100
  {
    100 - p
  }

  /** `build_from_api` for a cover: the common identity, and `can_set_position` iff GOTO_POS_CMD is advertised. */
  function CoverConfigFrom(m: CapabilityMap): (r: Result<CoverConfig, Failure>)
    ensures r.Ok? <==> IdentityFrom(m).Ok?
    ensures r.Ok? ==> r.value.identity == IdentityFrom(m).value
    ensures r.Ok? ==> (r.value.canSetPosition <==> Const.GOTO_POS_CMD in m)
    ensures r.Ok? ==> (r.value.identity.hasPingCmd <==> Const.PING_CMD in m)
    ensures r.Err? ==> r.error == KeyError
  {
    var identity :- IdentityFrom(m);
    Ok(CoverConfig(identity, Const.GOTO_POS_CMD in m))
  }

  /** Everything `build_from_api` does after `get_device` answered or raised. */
  function CoverPlan(got: Result<DeviceLookup, Failure>): Result<CoverConfig, Failure> {
    var m :- DeviceMap(got);
    CoverConfigFrom(m)
  }

  /**
   * `update_state` on a cover, and whether it completed: a slice without `statusValid` changes nothing, a
   * slice without a Position changes only the availability, and a complete slice rewrites every field.
   */
  function CoverApply(s: CoverState, slice: Slice): (r: (CoverState, bool))
    ensures r.1 <==> slice.DeviceSlice? && "Position" in slice.statusesMap
    ensures slice.DeviceSlice? ==> r.0.available == Some(slice.statusValid)
    ensures !slice.DeviceSlice? ==> r.0 == s
    ensures !r.1 ==> r.0 == s.(available := r.0.available)
    ensures r.1 ==> r.0.position == Some(Invert(slice.statusesMap["Position"]))
    ensures r.1 ==> (r.0.isClosed == Some(true) <==> slice.statusesMap["Position"] == 100)
    ensures r.1 ==> r.0.isClosing == Some(false) && r.0.isOpening == Some(false)
    ensures s.Consistent() ==> r.0.Consistent()
  {
    var (available, ok) := BaseApply(s.available, slice);
    if !ok then (s, false)
    else if "Position" !in slice.statusesMap then (s.(available := available), false)
    else
      var position := Invert(slice.statusesMap["Position"]);
      (CoverState(available, Some(position), Some(position == 0), Some(false), Some(false)), true)
  }

  /** A position sent with `set_cover_position` and echoed back by the bridge is read back unchanged. */
  lemma CoverPositionRoundTrip(s: CoverState, p: int, valid: bool, statuses: map<string, int>, readings: map<string, Json>)
    requires "Position" in statuses && statuses["Position"] == Invert(p)
    ensures CoverApply(s, DeviceSlice(valid, statuses, readings)).0.position == Some(p)
    ensures CoverApply(s, DeviceSlice(valid, statuses, readings)).0.isClosed == Some(p == 0)
  {
  }

  class HomePilotCover {
    const api: HomePilotApi
    const identity: Identity
    /** Unset (None) until the first update. */
    var available: Option<bool>
    const canSetPosition: bool
    var position: Option<int>
    var isClosed: Option<bool>
    var isClosing: Option<bool>
    var isOpening: Option<bool>

    function State(): CoverState
      reads this
    {
      CoverState(available, position, isClosed, isClosing, isOpening)
    }

    function Config(): CoverConfig {
      CoverConfig(identity, canSetPosition)
    }

    constructor (api: HomePilotApi, config: CoverConfig)
      ensures Config() == config && this.api == api
      ensures State() == UNSET
    {
      this.api := api;
      identity := config.identity;
      available := None;
      canSetPosition := config.canSetPosition;
      position := None;
      isClosed := None;
      isClosing := None;
      isOpening := None;
    }

    /** `build_from_api`: fetch the device, parse its capabilities, construct. */
    static method BuildFromApi(api: HomePilotApi, did: Json, ex: AuthExchange, reply: Http<DeviceBody>)
      returns (r: Result<HomePilotCover, Failure>)
      modifies api
      ensures var plan := CoverPlan(DeviceReply(api.AuthOutcome(ex), reply));
        && (r.Ok? <==> plan.Ok?)
        && (r.Err? ==> r.error == plan.error)
        && (r.Ok? ==> fresh(r.value) && r.value.api == api
                      && r.value.Config() == plan.value && r.value.State() == UNSET)
      ensures api.sent == old(api.sent) + api.CallTraffic(ex, GetOne(did))
      ensures api.cookieJar == api.CookieAfter(old(api.cookieJar), ex)
    {
      var got := api.GetDevice(ex, did, reply);
      var config := CoverPlan(got);
      if config.Err? {
        return Err(config.error);
      }
      var cover := new HomePilotCover(api, config.value);
      r := Ok(cover);
    }

    /** `update_state`. */
    method UpdateState(slice: Slice) returns (ok: bool)
      modifies this
      ensures (State(), ok) == CoverApply(old(State()), slice)
    {
      if !slice.DeviceSlice? {
        return false;
      }
      available := Some(slice.statusValid);
      ok := true;
      if "Position" !in slice.statusesMap {
        return false;
      }
      position := Some(Invert(slice.statusesMap["Position"]));
      isClosed := Some(position.value == 0);
      isClosing := Some(false);
      isOpening := Some(false);
    }

    /** `async_ping`, inherited from the base device. */
    method Ping(ex: AuthExchange) returns (r: Outcome<Failure>)
      modifies api
      ensures identity.hasPingCmd ==> r == api.AuthOutcome(ex)
      ensures identity.hasPingCmd ==>
                api.sent == old(api.sent) + api.CallTraffic(ex, PutCommand(identity.did, Body(PingCmd)))
      ensures identity.hasPingCmd ==> api.cookieJar == api.CookieAfter(old(api.cookieJar), ex)
      ensures !identity.hasPingCmd ==> r == Pass && api.sent == old(api.sent) && api.cookieJar == old(api.cookieJar)
    {
      r := PingIfSupported(api, identity, ex);
    }

    /** `async_open_cover`. */
    method OpenCover(ex: AuthExchange) returns (r: Outcome<Failure>)
      modifies api
      ensures r == api.AuthOutcome(ex)
      ensures api.sent == old(api.sent) + api.CallTraffic(ex, PutCommand(identity.did, Body(PosUpCmd)))
      ensures api.cookieJar == api.CookieAfter(old(api.cookieJar), ex)
    {
      r := api.OpenCover(identity.did, ex);
    }

    /** `async_close_cover`. */
    method CloseCover(ex: AuthExchange) returns (r: Outcome<Failure>)
      modifies api
      ensures r == api.AuthOutcome(ex)
      ensures api.sent == old(api.sent) + api.CallTraffic(ex, PutCommand(identity.did, Body(PosDownCmd)))
      ensures api.cookieJar == api.CookieAfter(old(api.cookieJar), ex)
    {
      r := api.CloseCover(identity.did, ex);
    }

    /** `async_stop_cover`. */
    method StopCover(ex: AuthExchange) returns (r: Outcome<Failure>)
      modifies api
      ensures r == api.AuthOutcome(ex)
      ensures api.sent == old(api.sent) + api.CallTraffic(ex, PutCommand(identity.did, Body(StopCmd)))
      ensures api.cookieJar == api.CookieAfter(old(api.cookieJar), ex)
    {
      r := api.StopCover(identity.did, ex);
    }

    /** `async_set_cover_position`: the inverted target goes out only when the cover accepts GOTO_POS_CMD. */
    method SetCoverPosition(p: int, ex: AuthExchange) returns (r: Outcome<Failure>)
      modifies api
      ensures canSetPosition ==> r == api.AuthOutcome(ex)
      ensures canSetPosition ==>
                api.sent == old(api.sent)
                                 + api.CallTraffic(ex, PutCommand(identity.did, Body(GotoPosCmd(Invert(p)))))
      ensures canSetPosition ==> api.cookieJar == api.CookieAfter(old(api.cookieJar), ex)
      ensures !canSetPosition ==> r == Pass && api.sent == old(api.sent) && api.cookieJar == old(api.cookieJar)
    {
      if canSetPosition {
        r := api.SetCoverPosition(identity.did, Invert(p), ex);
      } else {
        r := Pass;
      }
    }
  }
}
