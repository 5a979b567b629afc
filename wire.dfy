/** Values and message shapes exchanged with the HomePilot bridge. */
module Wire {

  /** A scalar JSON value as the bridge sends it (numbers are integers in this model). */
  datatype Json = JNull | JBool(b: bool) | JNum(n: int) | JStr(s: string)

  /** The exceptions the core raises or lets through. */
  datatype Failure =
    | AuthError       // api.AuthError, derived from BaseException
    | CannotConnect   // api.CannotConnect, derived from BaseException
    | ClientError     // an aiohttp client error, derived from Exception
    | KeyError        // a missing key in a bridge reply
    | TypeError       // subscripting a list or None as if it were a device object
    | AttributeError  // reading a device attribute that no update has set yet

  /** Whether `except Exception` catches the failure: AuthError and CannotConnect derive from BaseException only. */
  predicate IsException(f: Failure) {
    !(f.AuthError? || f.CannotConnect?)
  }

  /** One element of a device's `capabilities` array: its `name` and its other fields. */
  datatype RawCapability = RawCapability(name: string, fields: map<string, Json>)

  /** A device object as returned by `GET /devices` and `GET /devices/{did}`. */
  datatype DeviceJson = DeviceJson(capabilities: seq<RawCapability>)

  /**
   * One entry of the per-cycle state snapshot. An actuator or meter record keeps the three fields the
   * devices read (`statusesMap` and `readings` are empty when the record has none); the hub entry stored
   * under "-1" holds the firmware status, firmware version and LED status.
   */
  datatype Slice =
    | DeviceSlice(statusValid: bool, statusesMap: map<string, int>, readings: map<string, Json>)
    | HubSlice(status: Json, version: Json, led: Json)

  function Digit(d: nat): char
    requires d < 10
  {
    "0123456789"[d]
  }

  /** Decimal notation of a natural number, as Python's `str`. */
  function Decimal(n: nat): (s: string)
    ensures |s| > 0 && forall i :: 0 <= i < |s| ==> '0' <= s[i] <= '9'
  {
    if n < 10 then [Digit(n)] else Decimal(n / 10) + [Digit(n % 10)]
  }

  /** Python's `str` of a scalar JSON value. */
  function ToStr(j: Json): string {
    match j
    case JNull => "None"
    case JBool(b) => if b then "True" else "False"
    case JNum(n) => if n < 0 then "-" + Decimal(-n) else Decimal(n)
    case JStr(s) => s
  }

  /** Python's `did in states` on a dict keyed by strings: only a string can be found. */
  predicate DidIn(did: Json, states: map<string, Slice>) {
    did.JStr? && did.s in states
  }
}
