/**
 * A sensor (weather station, thermometer, contact). Which readings it has is fixed when it is built, from
 * the capability names the bridge advertises; an update writes exactly those readings, in a fixed order.
 */
module Sensor {
  import opened Wrappers
  import opened Wire
  import Const
  import opened Api
  import opened Device

  /** The eight measurements, in the order `update_state` reads them. */
  datatype Quantity = Temperature | WindSpeed | Brightness | SunHeight | SunDirection | RainDetection | SunDetection | Contact

  const ORDER: seq<Quantity> := [Temperature, WindSpeed, Brightness, SunHeight, SunDirection, RainDetection, SunDetection, Contact]

  /** The capability whose presence gives a sensor the measurement. */
  function CapName(q: Quantity): string {
    match q
    case Temperature => Const.TEMP_CURR_DEG_MEA
    case WindSpeed => Const.WIND_SPEED_MS_MEA
    case Brightness => Const.LIGHT_VAL_LUX_MEA
    case SunHeight => Const.SUN_HEIGHT_DEG_MEA
    case SunDirection => Const.SUN_DIRECTION_MEA
    case RainDetection => Const.RAIN_DETECTION_MEA
    case SunDetection => Const.SUN_DETECTION_MEA
    case Contact => Const.CLOSE_CONTACT_MEA
  }

  /** The key of the snapshot's `readings` the measurement is read from. */
  function ReadingKey(q: Quantity): string {
    match q
    case Temperature => "temperature_primary"
    case WindSpeed => "wind_speed"
    case Brightness => "sun_brightness"
    case SunHeight => "sun_elevation"
    case SunDirection => "sun_direction"
    case RainDetection => "rain_detected"
    case SunDetection => "sun_detected"
    case Contact => "contact_state"
  }

  /** Distinct measurements use distinct capabilities and distinct reading keys. */
  lemma NamesDistinct(q1: Quantity, q2: Quantity)
    ensures CapName(q1) == CapName(q2) <==> q1 == q2
    ensures ReadingKey(q1) == ReadingKey(q2) <==> q1 == q2
  {
  }

  /** The eight `has_X` flags. */
  datatype SensorFlags = SensorFlags(
    hasTemperature: bool, hasWindSpeed: bool, hasBrightness: bool, hasSunHeight: bool,
    hasSunDirection: bool, hasRainDetection: bool, hasSunDetection: bool, hasContactState: bool)
  {
    predicate Has(q: Quantity) {
      match q
      case Temperature => hasTemperature
      case WindSpeed => hasWindSpeed
      case Brightness => hasBrightness
      case SunHeight => hasSunHeight
      case SunDirection => hasSunDirection
      case RainDetection => hasRainDetection
      case SunDetection => hasSunDetection
      case Contact => hasContactState
    }
  }

  /** The flag derivation of `build_from_api`: a flag is set iff its capability name is present, whatever its value. */
  function FlagsFrom(m: CapabilityMap): (f: SensorFlags)
    ensures forall q :: f.Has(q) <==> CapName(q) in m
  {
    SensorFlags(
      Const.TEMP_CURR_DEG_MEA in m, Const.WIND_SPEED_MS_MEA in m, Const.LIGHT_VAL_LUX_MEA in m,
      Const.SUN_HEIGHT_DEG_MEA in m, Const.SUN_DIRECTION_MEA in m, Const.RAIN_DETECTION_MEA in m,
      Const.SUN_DETECTION_MEA in m, Const.CLOSE_CONTACT_MEA in m)
  }

  /** What `build_from_api` fixes for a sensor. */
  datatype SensorConfig = SensorConfig(identity: Identity, flags: SensorFlags)

  /** `build_from_api` for a sensor. */
  function SensorConfigFrom(m: CapabilityMap): (r: Result<SensorConfig, Failure>)
    ensures r.Ok? <==> IdentityFrom(m).Ok?
    ensures r.Ok? ==> r.value.identity == IdentityFrom(m).value
    ensures r.Ok? ==> forall q :: r.value.flags.Has(q) <==> CapName(q) in m
    ensures r.Err? ==> r.error == KeyError
  {
    var identity :- IdentityFrom(m);
    Ok(SensorConfig(identity, FlagsFrom(m)))
  }

  /** Everything `build_from_api` does after `get_device` answered or raised. */
  function SensorPlan(got: Result<DeviceLookup, Failure>): Result<SensorConfig, Failure> {
    var m :- DeviceMap(got);
    SensorConfigFrom(m)
  }

  /** The `ContactState` enumeration. */
  datatype ContactState = Opened | Closed

  /** A stored measurement: the reading as sent, or the decoded contact state. */
  datatype Reading = Value(j: Json) | ContactValue(c: ContactState)

  /** How a reading is stored: as sent, except the contact, which is CLOSED for "closed" and OPENED for anything else. */
  function Decode(q: Quantity, j: Json): (r: Reading)
    ensures q != Contact ==> r == Value(j)
    ensures q == Contact ==> (r == ContactValue(Closed) <==> j == JStr("closed"))
    ensures q == Contact ==> (r == ContactValue(Opened) <==> j != JStr("closed"))
  {
    if q == Contact then ContactValue(if j == JStr("closed") then Closed else Opened) else Value(j)
  }

  /** The mutable fields of a sensor, each unset (None) until an update writes it. */
  datatype SensorState = SensorState(
    available: Option<bool>,
    temperature: Option<Json>, windSpeed: Option<Json>, brightness: Option<Json>, sunHeight: Option<Json>,
    sunDirection: Option<Json>, rainDetection: Option<Json>, sunDetection: Option<Json>,
    contactState: Option<ContactState>)
  {
    function Get(q: Quantity): Option<Reading> {
      match q
      case Temperature => if temperature.Some? then Some(Value(temperature.value)) else None
      case WindSpeed => if windSpeed.Some? then Some(Value(windSpeed.value)) else None
      case Brightness => if brightness.Some? then Some(Value(brightness.value)) else None
      case SunHeight => if sunHeight.Some? then Some(Value(sunHeight.value)) else None
      case SunDirection => if sunDirection.Some? then Some(Value(sunDirection.value)) else None
      case RainDetection => if rainDetection.Some? then Some(Value(rainDetection.value)) else None
      case SunDetection => if sunDetection.Some? then Some(Value(sunDetection.value)) else None
      case Contact => if contactState.Some? then Some(ContactValue(contactState.value)) else None
    }

    /** Store the reading of `q` as the source does. */
    function Store(q: Quantity, j: Json): (s: SensorState)
      ensures s.Get(q) == Some(Decode(q, j))
      ensures forall p :: p != q ==> s.Get(p) == Get(p)
      ensures s.available == available
    {
      match q
      case Temperature => this.(temperature := Some(j))
      case WindSpeed => this.(windSpeed := Some(j))
      case Brightness => this.(brightness := Some(j))
      case SunHeight => this.(sunHeight := Some(j))
      case SunDirection => this.(sunDirection := Some(j))
      case RainDetection => this.(rainDetection := Some(j))
      case SunDetection => this.(sunDetection := Some(j))
      case Contact => this.(contactState := Some(if j == JStr("closed") then Closed else Opened))
    }
  }

  const UNSET := SensorState(None, None, None, None, None, None, None, None, None)

  /** One guarded read: nothing for an unflagged measurement, KeyError for a flagged one without its reading. */
  function ReadOne(flags: SensorFlags, q: Quantity, s: SensorState, readings: map<string, Json>): (SensorState, bool) {
    if !flags.Has(q) then (s, true)
    else if ReadingKey(q) !in readings then (s, false)
    else (s.Store(q, readings[ReadingKey(q)]), true)
  }

  /**
   * The reads of `update_state` from the i-th measurement on, stopping at the first KeyError with the
   * earlier readings already stored.
   */
  function ReadFrom(flags: SensorFlags, s: SensorState, readings: map<string, Json>, i: nat): (SensorState, bool)
    requires i <= |ORDER|
    decreases |ORDER| - i
  {
    if i == |ORDER| then (s, true)
    else
      var (s1, ok) := ReadOne(flags, ORDER[i], s, readings);
      if !ok then (s1, false) else ReadFrom(flags, s1, readings, i + 1)
  }

  /** The position of a measurement in the read order. */
  function Pos(q: Quantity): (i: nat)
    ensures i < |ORDER| && ORDER[i] == q
  {
    match q
    case Temperature => 0
    case WindSpeed => 1
    case Brightness => 2
    case SunHeight => 3
    case SunDirection => 4
    case RainDetection => 5
    case SunDetection => 6
    case Contact => 7
  }

  /** The reads from the i-th measurement on complete when every flagged measurement from there on has its reading. */
  lemma {:induction false} ReadFromCompletes(flags: SensorFlags, s: SensorState, readings: map<string, Json>, i: nat)
    requires i <= |ORDER|
    requires forall j :: i <= j < |ORDER| && flags.Has(ORDER[j]) ==> ReadingKey(ORDER[j]) in readings
    decreases |ORDER| - i
    ensures ReadFrom(flags, s, readings, i).1
  {
    if i < |ORDER| {
      var (s1, ok) := ReadOne(flags, ORDER[i], s, readings);
      ReadFromCompletes(flags, s1, readings, i + 1);
    }
  }

  /** The reads from the i-th measurement on stop at a KeyError when some flagged measurement lacks its reading. */
  lemma {:induction false} ReadFromStops(flags: SensorFlags, s: SensorState, readings: map<string, Json>, i: nat, j: nat)
    requires i <= j < |ORDER| && flags.Has(ORDER[j]) && ReadingKey(ORDER[j]) !in readings
    decreases |ORDER| - i
    ensures !ReadFrom(flags, s, readings, i).1
  {
    var (s1, ok) := ReadOne(flags, ORDER[i], s, readings);
    if ok {
      ReadFromStops(flags, s1, readings, i + 1, j);
    }
  }

  /** Reads that complete have stored the decoded reading of the j-th measurement, when it is flagged and not before i. */
  lemma {:induction false} ReadFromStores(flags: SensorFlags, s: SensorState, readings: map<string, Json>, i: nat, j: nat)
    requires i <= j < |ORDER| && flags.Has(ORDER[j]) && ReadFrom(flags, s, readings, i).1
    decreases |ORDER| - i
    ensures ReadingKey(ORDER[j]) in readings
    ensures ReadFrom(flags, s, readings, i).0.Get(ORDER[j]) == Some(Decode(ORDER[j], readings[ReadingKey(ORDER[j])]))
  {
    var (s1, ok) := ReadOne(flags, ORDER[i], s, readings);
    if j == i {
      ReadFromFrame(flags, s1, readings, i + 1);
    } else {
      ReadFromStores(flags, s1, readings, i + 1, j);
    }
  }

  /** One guarded read touches the availability and no other measurement, and stores only the decoded reading. */
  lemma ReadOneEffect(flags: SensorFlags, q: Quantity, s: SensorState, readings: map<string, Json>)
    ensures var (s1, ok) := ReadOne(flags, q, s, readings);
      && (ok <==> !flags.Has(q) || ReadingKey(q) in readings)
      && s1.available == s.available
      && (forall p :: p != q ==> s1.Get(p) == s.Get(p))
      && (!flags.Has(q) ==> s1 == s)
      && (s1.Get(q) != s.Get(q) ==>
            flags.Has(q) && ReadingKey(q) in readings && s1.Get(q) == Some(Decode(q, readings[ReadingKey(q)])))
  {
  }

  /** The reads touch neither the availability, nor an unflagged or earlier measurement. */
  lemma {:induction false} ReadFromFrame(flags: SensorFlags, s: SensorState, readings: map<string, Json>, i: nat)
    requires i <= |ORDER|
    decreases |ORDER| - i
    ensures var r := ReadFrom(flags, s, readings, i);
      && r.0.available == s.available
      && (forall q :: !flags.Has(q) ==> r.0.Get(q) == s.Get(q))
      && (forall j :: 0 <= j < i ==> r.0.Get(ORDER[j]) == s.Get(ORDER[j]))
  {
    if i < |ORDER| {
      ReadOneEffect(flags, ORDER[i], s, readings);
      var (s1, ok) := ReadOne(flags, ORDER[i], s, readings);
      if ok {
        ReadFromFrame(flags, s1, readings, i + 1);
      }
    }
  }

  /** A measurement the reads change holds the decoded reading of its own key. */
  lemma {:induction false} ReadFromChanges(flags: SensorFlags, s: SensorState, readings: map<string, Json>, i: nat, q: Quantity)
    requires i <= |ORDER| && ReadFrom(flags, s, readings, i).0.Get(q) != s.Get(q)
    decreases |ORDER| - i
    ensures flags.Has(q) && ReadingKey(q) in readings
    ensures ReadFrom(flags, s, readings, i).0.Get(q) == Some(Decode(q, readings[ReadingKey(q)]))
  {
    ReadOneEffect(flags, ORDER[i], s, readings);
    var (s1, ok) := ReadOne(flags, ORDER[i], s, readings);
    if ok && ReadFrom(flags, s1, readings, i + 1).0.Get(q) != s1.Get(q) {
      ReadFromChanges(flags, s1, readings, i + 1, q);
    }
  }

  /** The j-th read raises: its measurement is flagged and its reading is absent. */
  predicate Missing(flags: SensorFlags, readings: map<string, Json>, j: nat)
    requires j < |ORDER|
  {
    flags.Has(ORDER[j]) && ReadingKey(ORDER[j]) !in readings
  }

  /** The j-th read is the first of the eight to raise. */
  predicate FirstMissing(flags: SensorFlags, readings: map<string, Json>, j: nat)
    requires j < |ORDER|
  {
    Missing(flags, readings, j) && forall k :: 0 <= k < j && flags.Has(ORDER[k]) ==> ReadingKey(ORDER[k]) in readings
  }

  /** The read order lists each measurement once. */
  lemma OrderDistinct(i: nat, k: nat)
    requires i < k < |ORDER|
    ensures ORDER[i] != ORDER[k]
  {
    assert Pos(ORDER[i]) == i;
  }

  /**
   * When the j-th read is the first from i on to raise, the reads stop there with every flagged measurement
   * between i and j already holding its decoded reading, and the j-th and every later measurement untouched.
   */
  lemma {:induction false} ReadFromPartial(flags: SensorFlags, s: SensorState, readings: map<string, Json>, i: nat, j: nat)
    requires i <= j < |ORDER| && Missing(flags, readings, j)
    requires forall k :: i <= k < j && flags.Has(ORDER[k]) ==> ReadingKey(ORDER[k]) in readings
    decreases |ORDER| - i
    ensures var r := ReadFrom(flags, s, readings, i);
      && !r.1
      && (forall k :: i <= k < j && flags.Has(ORDER[k]) ==>
                        r.0.Get(ORDER[k]) == Some(Decode(ORDER[k], readings[ReadingKey(ORDER[k])])))
      && (forall k :: j <= k < |ORDER| ==> r.0.Get(ORDER[k]) == s.Get(ORDER[k]))
  {
    if i < j {
      ReadOneEffect(flags, ORDER[i], s, readings);
      var s1 := ReadOne(flags, ORDER[i], s, readings).0;
      ReadFromPartial(flags, s1, readings, i + 1, j);
      ReadFromFrame(flags, s1, readings, i + 1);
      forall k | j <= k < |ORDER|
        ensures s1.Get(ORDER[k]) == s.Get(ORDER[k])
      {
        OrderDistinct(i, k);
      }
    }
  }

  /** All eight reads from the first on, stated per measurement. */
  lemma ReadAll(flags: SensorFlags, s: SensorState, readings: map<string, Json>)
    ensures var r := ReadFrom(flags, s, readings, 0);
      && (r.1 <==> forall q :: flags.Has(q) ==> ReadingKey(q) in readings)
      && r.0.available == s.available
      && (forall q :: !flags.Has(q) ==> r.0.Get(q) == s.Get(q))
      && (r.1 ==> forall q :: flags.Has(q) ==> r.0.Get(q) == Some(Decode(q, readings[ReadingKey(q)])))
      && (forall q :: r.0.Get(q) != s.Get(q) ==>
                    flags.Has(q) && ReadingKey(q) in readings && r.0.Get(q) == Some(Decode(q, readings[ReadingKey(q)])))
  {
    if forall q :: flags.Has(q) ==> ReadingKey(q) in readings {
      forall j | 0 <= j < |ORDER| && flags.Has(ORDER[j])
        ensures ReadingKey(ORDER[j]) in readings
      {
      }
      ReadFromCompletes(flags, s, readings, 0);
    } else {
      var q :| flags.Has(q) && ReadingKey(q) !in readings;
      ReadFromStops(flags, s, readings, 0, Pos(q));
    }
    ReadFromFrame(flags, s, readings, 0);
    var r := ReadFrom(flags, s, readings, 0);
    forall q | r.0.Get(q) != s.Get(q)
      ensures flags.Has(q) && ReadingKey(q) in readings && r.0.Get(q) == Some(Decode(q, readings[ReadingKey(q)]))
    {
      ReadFromChanges(flags, s, readings, 0, q);
    }
    forall q | flags.Has(q) && r.1
      ensures ReadingKey(q) in readings && r.0.Get(q) == Some(Decode(q, readings[ReadingKey(q)]))
    {
      ReadFromStores(flags, s, readings, 0, Pos(q));
    }
  }

  /**
   * The eight reads when one of them raises: the flagged measurements read before the first missing reading
   * hold their decoded readings, and that measurement and every later one keep their old values.
   */
  lemma ReadAllPartial(flags: SensorFlags, s: SensorState, readings: map<string, Json>)
    ensures forall j :: 0 <= j < |ORDER| && FirstMissing(flags, readings, j) ==>
      var r := ReadFrom(flags, s, readings, 0);
      && (forall k :: 0 <= k < j && flags.Has(ORDER[k]) ==>
                        r.0.Get(ORDER[k]) == Some(Decode(ORDER[k], readings[ReadingKey(ORDER[k])])))
      && (forall k :: j <= k < |ORDER| ==> r.0.Get(ORDER[k]) == s.Get(ORDER[k]))
  {
    forall j | 0 <= j < |ORDER| && FirstMissing(flags, readings, j)
      ensures var r := ReadFrom(flags, s, readings, 0);
        && (forall k :: 0 <= k < j && flags.Has(ORDER[k]) ==>
                          r.0.Get(ORDER[k]) == Some(Decode(ORDER[k], readings[ReadingKey(ORDER[k])])))
        && (forall k :: j <= k < |ORDER| ==> r.0.Get(ORDER[k]) == s.Get(ORDER[k]))
    {
      ReadFromPartial(flags, s, readings, 0, j);
    }
  }

  /** `update_state` on a sensor, and whether it completed. */
  function SensorApply(flags: SensorFlags, s: SensorState, slice: Slice): (r: (SensorState, bool))
    ensures r.1 <==> slice.DeviceSlice? && forall q :: flags.Has(q) ==> ReadingKey(q) in slice.readings
    ensures slice.DeviceSlice? ==> r.0.available == Some(slice.statusValid)
    ensures !slice.DeviceSlice? ==> r.0 == s
    ensures forall q :: !flags.Has(q) ==> r.0.Get(q) == s.Get(q)
    ensures r.1 ==> forall q :: flags.Has(q) ==> r.0.Get(q) == Some(Decode(q, slice.readings[ReadingKey(q)]))
    ensures slice.DeviceSlice? ==> forall q :: r.0.Get(q) != s.Get(q) ==>
              ReadingKey(q) in slice.readings && r.0.Get(q) == Some(Decode(q, slice.readings[ReadingKey(q)]))
    ensures slice.DeviceSlice? ==> forall j :: 0 <= j < |ORDER| && FirstMissing(flags, slice.readings, j) ==>
              && (forall k :: 0 <= k < j && flags.Has(ORDER[k]) ==>
                                r.0.Get(ORDER[k]) == Some(Decode(ORDER[k], slice.readings[ReadingKey(ORDER[k])])))
              && (forall k :: j <= k < |ORDER| ==> r.0.Get(ORDER[k]) == s.Get(ORDER[k]))
  {
    var (available, ok) := BaseApply(s.available, slice);
    if !ok then (s, false)
    else
      ReadAll(flags, s.(available := available), slice.readings);
      ReadAllPartial(flags, s.(available := available), slice.readings);
      ReadFrom(flags, s.(available := available), slice.readings, 0)
  }

  class HomePilotSensor {
    const api: HomePilotApi
    const identity: Identity
    /** Unset (None) until the first update. */
    var available: Option<bool>
    const hasTemperature: bool
    const hasWindSpeed: bool
    const hasBrightness: bool
    const hasSunHeight: bool
    const hasSunDirection: bool
    const hasRainDetection: bool
    const hasSunDetection: bool
    const hasContactState: bool
    var temperature: Option<Json>
    var windSpeed: Option<Json>
    var brightness: Option<Json>
    var sunHeight: Option<Json>
    var sunDirection: Option<Json>
    var rainDetection: Option<Json>
    var sunDetection: Option<Json>
    var contactState: Option<ContactState>

    function Flags(): SensorFlags {
      SensorFlags(hasTemperature, hasWindSpeed, hasBrightness, hasSunHeight,
                  hasSunDirection, hasRainDetection, hasSunDetection, hasContactState)
    }

    function Config(): SensorConfig {
      SensorConfig(identity, Flags())
    }

    function State(): SensorState
      reads this
    {
      SensorState(available, temperature, windSpeed, brightness, sunHeight,
                  sunDirection, rainDetection, sunDetection, contactState)
    }

    constructor (api: HomePilotApi, config: SensorConfig)
      ensures Config() == config && this.api == api
      ensures State() == UNSET
    {
      this.api := api;
      identity := config.identity;
      available := None;
      hasTemperature := config.flags.hasTemperature;
      hasWindSpeed := config.flags.hasWindSpeed;
      hasBrightness := config.flags.hasBrightness;
      hasSunHeight := config.flags.hasSunHeight;
      hasSunDirection := config.flags.hasSunDirection;
      hasRainDetection := config.flags.hasRainDetection;
      hasSunDetection := config.flags.hasSunDetection;
      hasContactState := config.flags.hasContactState;
      temperature, windSpeed, brightness, sunHeight := None, None, None, None;
      sunDirection, rainDetection, sunDetection, contactState := None, None, None, None;
    }

    /** `build_from_api`: fetch the device, parse its capabilities, construct. */
    static method BuildFromApi(api: HomePilotApi, did: Json, ex: AuthExchange, reply: Http<DeviceBody>)
      returns (r: Result<HomePilotSensor, Failure>)
      modifies api
      ensures var plan := SensorPlan(DeviceReply(api.AuthOutcome(ex), reply));
        && (r.Ok? <==> plan.Ok?)
        && (r.Err? ==> r.error == plan.error)
        && (r.Ok? ==> fresh(r.value) && r.value.api == api
                      && r.value.Config() == plan.value && r.value.State() == UNSET)
      ensures api.sent == old(api.sent) + api.CallTraffic(ex, GetOne(did))
      ensures api.cookieJar == api.CookieAfter(old(api.cookieJar), ex)
    {
      var got := api.GetDevice(ex, did, reply);
      var config := SensorPlan(got);
      if config.Err? {
        return Err(config.error);
      }
      var sensor := new HomePilotSensor(api, config.value);
      r := Ok(sensor);
    }

    /** One flag-guarded block of `update_state`: if the sensor has measurement q, store its reading. */
    method ReadInto(q: Quantity, readings: map<string, Json>) returns (ok: bool)
      modifies this
      ensures (State(), ok) == ReadOne(Flags(), q, old(State()), readings)
    {
      ok := true;
      match q {
        case Temperature =>
          if hasTemperature {
            if "temperature_primary" !in readings {
              return false;
            }
            temperature := Some(readings["temperature_primary"]);
          }
        case WindSpeed =>
          if hasWindSpeed {
            if "wind_speed" !in readings {
              return false;
            }
            windSpeed := Some(readings["wind_speed"]);
          }
        case Brightness =>
          if hasBrightness {
            if "sun_brightness" !in readings {
              return false;
            }
            brightness := Some(readings["sun_brightness"]);
          }
        case SunHeight =>
          if hasSunHeight {
            if "sun_elevation" !in readings {
              return false;
            }
            sunHeight := Some(readings["sun_elevation"]);
          }
        case SunDirection =>
          if hasSunDirection {
            if "sun_direction" !in readings {
              return false;
            }
            sunDirection := Some(readings["sun_direction"]);
          }
        case RainDetection =>
          if hasRainDetection {
            if "rain_detected" !in readings {
              return false;
            }
            rainDetection := Some(readings["rain_detected"]);
          }
        case SunDetection =>
          if hasSunDetection {
            if "sun_detected" !in readings {
              return false;
            }
            sunDetection := Some(readings["sun_detected"]);
          }
        case Contact =>
          if hasContactState {
            if "contact_state" !in readings {
              return false;
            }
            contactState := Some(if readings["contact_state"] == JStr("closed") then Closed else Opened);
          }
      }
    }

    /** The eight flag-guarded blocks of `update_state`, in order, stopping at the first missing reading. */
    method ReadAllInto(readings: map<string, Json>) returns (ok: bool)
      modifies this
      ensures (State(), ok) == ReadFrom(Flags(), old(State()), readings, 0)
    {
      ghost var s := State();
      ok := ReadInto(Temperature, readings);
      assert ReadFrom(Flags(), s, readings, 0) == if ok then ReadFrom(Flags(), State(), readings, 1) else (State(), false);
      if !ok {
        return;
      }
      s := State();
      ok := ReadInto(WindSpeed, readings);
      assert ReadFrom(Flags(), s, readings, 1) == if ok then ReadFrom(Flags(), State(), readings, 2) else (State(), false);
      if !ok {
        return;
      }
      s := State();
      ok := ReadInto(Brightness, readings);
      assert ReadFrom(Flags(), s, readings, 2) == if ok then ReadFrom(Flags(), State(), readings, 3) else (State(), false);
      if !ok {
        return;
      }
      s := State();
      ok := ReadInto(SunHeight, readings);
      assert ReadFrom(Flags(), s, readings, 3) == if ok then ReadFrom(Flags(), State(), readings, 4) else (State(), false);
      if !ok {
        return;
      }
      s := State();
      ok := ReadInto(SunDirection, readings);
      assert ReadFrom(Flags(), s, readings, 4) == if ok then ReadFrom(Flags(), State(), readings, 5) else (State(), false);
      if !ok {
        return;
      }
      s := State();
      ok := ReadInto(RainDetection, readings);
      assert ReadFrom(Flags(), s, readings, 5) == if ok then ReadFrom(Flags(), State(), readings, 6) else (State(), false);
      if !ok {
        return;
      }
      s := State();
      ok := ReadInto(SunDetection, readings);
      assert ReadFrom(Flags(), s, readings, 6) == if ok then ReadFrom(Flags(), State(), readings, 7) else (State(), false);
      if !ok {
        return;
      }
      s := State();
      ok := ReadInto(Contact, readings);
      assert ReadFrom(Flags(), s, readings, 7) == if ok then ReadFrom(Flags(), State(), readings, 8) else (State(), false);
    }

    /** `update_state`: the base update, then each flagged reading in turn, stopping at the first missing one. */
    method UpdateState(slice: Slice) returns (ok: bool)
      modifies this
      ensures (State(), ok) == SensorApply(Flags(), old(State()), slice)
    {
      if !slice.DeviceSlice? {
        return false;
      }
      available := Some(slice.statusValid);
      ok := ReadAllInto(slice.readings);
    }

    /** `async_ping`, inherited from the base device. */
    method Ping(ex: AuthExchange) returns (r: Outcome<Failure>)
      modifies api
      ensures identity.hasPingCmd ==> r == api.AuthOutcome(ex)
      ensures identity.hasPingCmd ==>
                api.sent == old(api.sent) + api.CallTraffic(ex, PutCommand(identity.did, Body(PingCmd)))
      ensures identity.hasPingCmd ==> api.cookieJar == api.CookieAfter(old(api.cookieJar), ex)
      ensures !identity.hasPingCmd ==> r == Pass && api.sent == old(api.sent) && api.cookieJar == old(api.cookieJar)
    {
      r := PingIfSupported(api, identity, ex);
    }
  }
}
