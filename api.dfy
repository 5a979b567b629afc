/**
 * The transport and authentication client of the HomePilot bridge. Each HTTP exchange is an oracle: the
 * bridge's reply to a request (or the client-side failure that replaced it) is a parameter, and every request
 * the client puts on the wire is appended to `HomePilotApi.sent`.
 */
module Api {
  import opened Wrappers
  import opened Wire
  import Dict

  /** The bridge's answer to one request, or the aiohttp failure raised in its place. */
  datatype Http<T> =
    | Response(status: int, body: T)
    | ConnectorFailure   // aiohttp ClientConnectorError: the bridge could not be reached
    | OtherFailure       // any other aiohttp client error

  /** The body of the reply to `POST /authentication/password_salt`. */
  datatype SaltBody = SaltBody(errorCode: int, passwordSalt: string)

  /** The JSON body of `POST /authentication/login`. */
  datatype LoginPayload = LoginPayload(password: string, passwordSalt: string)

  /** The session cookie a successful login leaves in the client's cookie jar. */
  datatype CookieJar = CookieJar(cookie: string)

  /** The bridge's replies to the salt request and to the login request (whose body is the session cookie). */
  datatype AuthExchange = AuthExchange(salt: Http<SaltBody>, login: Http<string>)

  /** The requests of one login attempt and what it returned or raised. */
  datatype AuthAttempt = AuthAttempt(sent: seq<Request>, result: Result<CookieJar, Failure>)

  /** The body of `PUT /devices/{did}`: a command name and, for positioning, its value. */
  datatype CommandBody = CommandBody(name: string, value: Option<int>)

  /** The commands a device can be sent. */
  datatype Command = PingCmd | PosUpCmd | PosDownCmd | StopCmd | GotoPosCmd(position: int) | TurnOnCmd | TurnOffCmd

  datatype Request =
    | Get(path: string)
    | GetOne(did: Json)                           // GET /devices/{did}
    | PostSalt                                    // POST /authentication/password_salt
    | PostLogin(payload: LoginPayload)            // POST /authentication/login
    | PutCommand(did: Json, body: CommandBody)    // PUT /devices/{did}
    | Post(path: string)

  const DEVICES_PATH := "/devices"
  const ACTUATORS_PATH := "/v4/devices?devtype=Actuator"
  const SENSORS_PATH := "/v4/devices?devtype=Sensor"
  const FW_STATUS_PATH := "/service/system-update-image/status"
  const FW_VERSION_PATH := "/service/system-update-image/version"
  const NODENAME_PATH := "/service/system/networkmgr/v1/nodename"
  const LED_STATUS_PATH := "/service/system/leds/status"
  const LED_ENABLE_PATH := "/service/system/leds/enable"
  const LED_DISABLE_PATH := "/service/system/leds/disable"

  // ---------------------------------------------------------------------------------------------------------
  // Connection probe

  /** The three answers of the connection probe: "ok", "auth_required" and "error". */
  datatype Connection = ConnectionOk | AuthRequired | ConnectionError

  /**
   * `test_connection`: the replies to `GET /` and to the unauthenticated salt request. A connector failure
   * on either is reported as "error"; any other client failure propagates.
   */
  function TestConnection(root: Http<()>, salt: Http<()>): (r: Result<Connection, Failure>)
    ensures r == Ok(ConnectionOk) <==> root.Response? && root.status == 200 && salt.Response? && salt.status == 500
    ensures r == Ok(AuthRequired) <==> root.Response? && root.status == 200 && salt.Response? && salt.status != 500
    ensures r == Ok(ConnectionError) <==>
              root.ConnectorFailure? || (root.Response? && root.status != 200)
              || (root.Response? && root.status == 200 && salt.ConnectorFailure?)
    ensures r.Err? ==> r.error == ClientError
  {
    match root
    case ConnectorFailure => Ok(ConnectionError)
    case OtherFailure => Err(ClientError)
    case Response(status, _) =>
      if status != 200 then Ok(ConnectionError)
      else
        match salt
        case ConnectorFailure => Ok(ConnectionError)
        case OtherFailure => Err(ClientError)
        case Response(saltStatus, _) => if saltStatus == 500 then Ok(ConnectionOk) else Ok(AuthRequired)
  }

  // ---------------------------------------------------------------------------------------------------------
  // Login

  /** The login password: the hex digest of the salt followed by the hex digest of the password. */
  function SaltedPassword(sha256: string -> string, salt: string, password: string): string {
    sha256(salt + sha256(password))
  }

  /**
   * `test_auth`: ask for a salt, then log in with the salted password. A 500 reply with error code 5007
   * raises AuthError before anything else is checked; any other reply that is not 200 with error code 0
   * raises CannotConnect; a login reply other than 200 raises AuthError.
   */
  function TestAuth(sha256: string -> string, password: string, ex: AuthExchange): (a: AuthAttempt)
    ensures |a.sent| > 0 && a.sent[0] == PostSalt
    ensures ex.salt.Response? && ex.salt.status == 500 && ex.salt.body.errorCode == 5007 ==> a.result == Err(AuthError)
    ensures a.result == Err(CannotConnect) <==>
              ex.salt.Response? && !(ex.salt.status == 500 && ex.salt.body.errorCode == 5007)
              && (ex.salt.status != 200 || ex.salt.body.errorCode != 0)
    ensures |a.sent| == 2 <==> ex.salt.Response? && ex.salt.status == 200 && ex.salt.body.errorCode == 0
    ensures |a.sent| <= 2
    ensures |a.sent| == 2 ==>
              a.sent[1] == PostLogin(LoginPayload(SaltedPassword(sha256, ex.salt.body.passwordSalt, password),
                                                  ex.salt.body.passwordSalt))
    ensures a.result.Ok? <==> |a.sent| == 2 && ex.login.Response? && ex.login.status == 200
    ensures a.result.Ok? ==> a.result.value == CookieJar(ex.login.body)
    ensures !ex.salt.Response? ==> a.result == Err(ClientError)
    ensures |a.sent| == 2 && !ex.login.Response? ==> a.result == Err(ClientError)
    ensures a.result == Err(AuthError) <==>
              (ex.salt.Response? && ex.salt.status == 500 && ex.salt.body.errorCode == 5007)
              || (|a.sent| == 2 && ex.login.Response? && ex.login.status != 200)
  {
    match ex.salt
    case Response(status, body) =>
      if status == 500 && body.errorCode == 5007 then AuthAttempt([PostSalt], Err(AuthError))
      else if status != 200 || body.errorCode != 0 then AuthAttempt([PostSalt], Err(CannotConnect))
      else
        var payload := LoginPayload(SaltedPassword(sha256, body.passwordSalt, password), body.passwordSalt);
        var result :=
          match ex.login
          case Response(loginStatus, cookie) => if loginStatus != 200 then Err(AuthError) else Ok(CookieJar(cookie))
          case _ => Err(ClientError);
        AuthAttempt([PostSalt, PostLogin(payload)], result)
    case _ => AuthAttempt([PostSalt], Err(ClientError))
  }

  /** With an injective hash, the login password for a given salt determines the user's password. */
  lemma {:induction false} SaltedPasswordDeterminesPassword(sha256: string -> string, salt: string, p1: string, p2: string)
    requires forall x, y :: sha256(x) == sha256(y) ==> x == y
    ensures SaltedPassword(sha256, salt, p1) == SaltedPassword(sha256, salt, p2) <==> p1 == p2
  {
    if SaltedPassword(sha256, salt, p1) == SaltedPassword(sha256, salt, p2) {
      var s1, s2 := salt + sha256(p1), salt + sha256(p2);
      assert s1 == s2;
      assert sha256(p1) == s1[|salt|..] == s2[|salt|..] == sha256(p2);
    }
  }

  // ---------------------------------------------------------------------------------------------------------
  // Replies of the data calls

  /** What an authenticated call returns: the login failure, the client failure, or the reply body. */
  function Fetched<T>(auth: Outcome<Failure>, reply: Http<T>): (r: Result<T, Failure>)
    ensures auth.Fail? ==> r == Err(auth.error)
    ensures auth.Pass? ==> (r.Ok? <==> reply.Response?)
    ensures auth.Pass? && r.Ok? ==> r.value == reply.body
    ensures auth.Pass? && r.Err? ==> r.error == ClientError
  {
    if auth.Fail? then Err(auth.error)
    else
      match reply
      case Response(_, body) => Ok(body)
      case _ => Err(ClientError)
  }

  /** The body of `GET /devices`: an error code and the device list (None when the payload or its list is falsy: null or empty). */
  datatype DevicesBody = DevicesBody(errorCode: int, devices: Option<seq<DeviceJson>>)

  /** `get_devices`: the device list, or the empty list when the bridge reports an error or sends none. */
  function DevicesOf(body: DevicesBody): (ds: seq<DeviceJson>)
    ensures body.errorCode != 0 || body.devices.None? ==> ds == []
    ensures body.errorCode == 0 && body.devices.Some? ==> ds == body.devices.value
  {
    if body.errorCode != 0 then []
    else if body.devices.Some? && body.devices.value != [] then body.devices.value
    else []
  }

  /** The body of `GET /devices/{did}`: an error code and the device (None when the payload or the device is falsy: null or empty). */
  datatype DeviceBody = DeviceBody(errorCode: int, device: Option<DeviceJson>)

  /** What `get_device` returns: the empty list on an error code, None when there is no device, or the device. */
  datatype DeviceLookup = EmptyList | NoDevice | Found(device: DeviceJson)

  function LookupOf(body: DeviceBody): (r: DeviceLookup)
    ensures r.Found? <==> body.errorCode == 0 && body.device.Some?
    ensures r.Found? ==> r.device == body.device.value
    ensures r == EmptyList <==> body.errorCode != 0
  {
    if body.errorCode != 0 then EmptyList
    else if body.device.Some? then Found(body.device.value)
    else NoDevice
  }

  /** What `get_devices` returns or raises. */
  function DevicesReply(auth: Outcome<Failure>, reply: Http<DevicesBody>): (r: Result<seq<DeviceJson>, Failure>)
    ensures r.Ok? <==> auth.Pass? && reply.Response?
    ensures r.Ok? ==> r.value == DevicesOf(reply.body)
    ensures r.Err? ==> r.error == Fetched(auth, reply).error
  {
    var body :- Fetched(auth, reply);
    Ok(DevicesOf(body))
  }

  /** What `get_device` returns or raises. */
  function DeviceReply(auth: Outcome<Failure>, reply: Http<DeviceBody>): (r: Result<DeviceLookup, Failure>)
    ensures r.Ok? <==> auth.Pass? && reply.Response?
    ensures r.Ok? ==> r.value == LookupOf(reply.body)
    ensures r.Err? ==> r.error == Fetched(auth, reply).error
  {
    var body :- Fetched(auth, reply);
    Ok(LookupOf(body))
  }

  /** One record of a `/v4/devices` listing: its `did` and the state it carries. */
  datatype V4Entry = V4Entry(did: Json, state: Slice)

  /** A `/v4/devices` reply: its `response` tag and its `devices` (actuators) or `meters` (sensors) list. */
  datatype V4Body = V4Body(response: string, entries: seq<V4Entry>)

  /** `{str(d["did"]): d for d in entries}` when the reply carries the expected tag, and `{}` otherwise. */
  function Index(body: V4Body, tag: string): (m: map<string, Slice>)
    ensures m.Keys == if body.response == tag then set e | e in body.entries :: ToStr(e.did) else {}
  {
    if body.response != tag then map[]
    else Dict.FromSeq(body.entries, (e: V4Entry) => ToStr(e.did), (e: V4Entry) => e.state)
  }

  /** `{**actuators, **sensors}`: the actuator and meter listings merged, a meter winning on a shared key. */
  function MergeStates(actuators: V4Body, meters: V4Body): (m: map<string, Slice>)
    ensures m.Keys == (if actuators.response == "get_visible_devices" then set e | e in actuators.entries :: ToStr(e.did) else {})
                      + (if meters.response == "get_meters" then set e | e in meters.entries :: ToStr(e.did) else {})
    ensures forall k :: k in Index(meters, "get_meters") ==> m[k] == Index(meters, "get_meters")[k]
    ensures forall k :: k in Index(actuators, "get_visible_devices") && k !in Index(meters, "get_meters") ==>
                          m[k] == Index(actuators, "get_visible_devices")[k]
  {
    Index(actuators, "get_visible_devices") + Index(meters, "get_meters")
  }

  /** The snapshot entry of a listed device is the state of the last record with its id. */
  lemma {:induction false} IndexLastWins(body: V4Body, tag: string, i: nat)
    requires body.response == tag && i < |body.entries|
    requires forall j :: i < j < |body.entries| ==> ToStr(body.entries[j].did) != ToStr(body.entries[i].did)
    ensures Index(body, tag)[ToStr(body.entries[i].did)] == body.entries[i].state
  {
    Dict.FromSeqLastWins(body.entries, (e: V4Entry) => ToStr(e.did), (e: V4Entry) => e.state, i);
  }

  /** `get_devices_state`: log in, list the actuators, list the meters, merge. */
  function DevicesState(auth: Outcome<Failure>, actuators: Http<V4Body>, meters: Http<V4Body>): (r: Result<map<string, Slice>, Failure>)
    ensures r.Ok? <==> auth.Pass? && actuators.Response? && meters.Response?
    ensures r.Ok? ==> r.value == MergeStates(actuators.body, meters.body)
    ensures auth.Fail? ==> r == Err(auth.error)
    ensures auth.Pass? && r.Err? ==> r.error == ClientError
  {
    var a :- Fetched(auth, actuators);
    var m :- Fetched(auth, meters);
    Ok(MergeStates(a, m))
  }

  // ---------------------------------------------------------------------------------------------------------
  // Commands

  /** The fixed command vocabulary of `PUT /devices/{did}`. */
  function Body(c: Command): (b: CommandBody)
    ensures b.value.Some? <==> c.GotoPosCmd?
    ensures c.GotoPosCmd? ==> b == CommandBody("GOTO_POS_CMD", Some(c.position))
  {
    match c
    case PingCmd => CommandBody("PING_CMD", None)
    case PosUpCmd => CommandBody("POS_UP_CMD", None)
    case PosDownCmd => CommandBody("POS_DOWN_CMD", None)
    case StopCmd => CommandBody("STOP_CMD", None)
    case GotoPosCmd(p) => CommandBody("GOTO_POS_CMD", Some(p))
    case TurnOnCmd => CommandBody("TURN_ON_CMD", None)
    case TurnOffCmd => CommandBody("TURN_OFF_CMD", None)
  }

  /** Distinct commands have distinct bodies, so the bridge can tell every command apart. */
  lemma BodyInjective(c1: Command, c2: Command)
    ensures Body(c1) == Body(c2) <==> c1 == c2
  {
  }

  // ---------------------------------------------------------------------------------------------------------
  // The client

  class HomePilotApi {
    const host: string
    const password: string
    /** The hex-digest SHA-256 of a string, as hashlib computes it on its UTF-8 encoding. */
    const sha256: string -> string
    /** Declared False in the source and never assigned, so every call made with a password logs in again. */
    const authenticated: bool := false
    var cookieJar: Option<CookieJar>
    /** Every request this client has put on the wire, oldest first. */
    var sent: seq<Request>

    constructor (host: string, password: string, sha256: string -> string)
      ensures this.host == host && this.password == password && this.sha256 == sha256
      ensures cookieJar == None && sent == []
    {
      this.host := host;
      this.password := password;
      this.sha256 := sha256;
      cookieJar := None;
      sent := [];
    }

    /** The login attempt `authenticate` makes: one exactly when a password is set. */
    function Attempt(ex: AuthExchange): (a: Option<AuthAttempt>)
      ensures a.Some? <==> password != ""
    {
      if !authenticated && password != "" then Some(TestAuth(sha256, password, ex)) else None
    }

    /** The requests `authenticate` sends. */
    function AuthTraffic(ex: AuthExchange): seq<Request> {
      match Attempt(ex)
      case None => []
      case Some(a) => a.sent
    }

    /** Whether `authenticate` completes or raises. */
    function AuthOutcome(ex: AuthExchange): Outcome<Failure> {
      match Attempt(ex)
      case Some(AuthAttempt(_, Err(e))) => Fail(e)
      case _ => Pass
    }

    /** The cookie jar after `authenticate`: replaced by a successful login, kept otherwise. */
    function CookieAfter(jar: Option<CookieJar>, ex: AuthExchange): Option<CookieJar> {
      match Attempt(ex)
      case Some(AuthAttempt(_, Ok(j))) => Some(j)
      case _ => jar
    }

    /** The requests of an authenticated call: the login exchange, then the call's own request unless the login raised. */
    function CallTraffic(ex: AuthExchange, req: Request): seq<Request> {
      AuthTraffic(ex) + (if AuthOutcome(ex).Pass? then [req] else [])
    }

    /** `authenticate`: with an empty password nothing is sent; otherwise the client logs in, on every call. */
    method Authenticate(ex: AuthExchange) returns (r: Outcome<Failure>)
      modifies this
      ensures r == AuthOutcome(ex)
      ensures sent == old(sent) + AuthTraffic(ex)
      ensures cookieJar == CookieAfter(old(cookieJar), ex)
      ensures password == "" ==> sent == old(sent) && cookieJar == old(cookieJar) && r == Pass
      ensures password != "" ==> |sent| > |old(sent)| && sent[|old(sent)|] == PostSalt
    {
      if !authenticated && password != "" {
        var a := TestAuth(sha256, password, ex);
        sent := sent + a.sent;
        match a.result {
          case Ok(jar) =>
            cookieJar := Some(jar);
            r := Pass;
          case Err(e) =>
            r := Fail(e);
        }
      } else {
        r := Pass;
      }
    }

    /** An authenticated request whose reply body is returned as it is. */
    method Call<T>(ex: AuthExchange, req: Request, reply: Http<T>) returns (r: Result<T, Failure>)
      modifies this
      ensures r == Fetched(AuthOutcome(ex), reply)
      ensures sent == old(sent) + CallTraffic(ex, req)
      ensures cookieJar == CookieAfter(old(cookieJar), ex)
    {
      var auth := Authenticate(ex);
      if auth.Fail? {
        return Err(auth.error);
      }
      sent := sent + [req];
      r := Fetched(Pass, reply);
    }

    /** `get_devices`. */
    method GetDevices(ex: AuthExchange, reply: Http<DevicesBody>) returns (r: Result<seq<DeviceJson>, Failure>)
      modifies this
      ensures r == DevicesReply(AuthOutcome(ex), reply)
      ensures sent == old(sent) + CallTraffic(ex, Get(DEVICES_PATH))
      ensures cookieJar == CookieAfter(old(cookieJar), ex)
    {
      var body := Call(ex, Get(DEVICES_PATH), reply);
      match body {
        case Ok(b) => r := Ok(DevicesOf(b));
        case Err(e) => r := Err(e);
      }
    }

    /** `get_device`. */
    method GetDevice(ex: AuthExchange, did: Json, reply: Http<DeviceBody>) returns (r: Result<DeviceLookup, Failure>)
      modifies this
      ensures r == DeviceReply(AuthOutcome(ex), reply)
      ensures sent == old(sent) + CallTraffic(ex, GetOne(did))
      ensures cookieJar == CookieAfter(old(cookieJar), ex)
    {
      var body := Call(ex, GetOne(did), reply);
      match body {
        case Ok(b) => r := Ok(LookupOf(b));
        case Err(e) => r := Err(e);
      }
    }

    /** `get_fw_status`. */
    method GetFwStatus(ex: AuthExchange, reply: Http<Json>) returns (r: Result<Json, Failure>)
      modifies this
      ensures r == Fetched(AuthOutcome(ex), reply)
      ensures sent == old(sent) + CallTraffic(ex, Get(FW_STATUS_PATH))
      ensures cookieJar == CookieAfter(old(cookieJar), ex)
    {
      r := Call(ex, Get(FW_STATUS_PATH), reply);
    }

    /** `get_fw_version`. */
    method GetFwVersion(ex: AuthExchange, reply: Http<Json>) returns (r: Result<Json, Failure>)
      modifies this
      ensures r == Fetched(AuthOutcome(ex), reply)
      ensures sent == old(sent) + CallTraffic(ex, Get(FW_VERSION_PATH))
      ensures cookieJar == CookieAfter(old(cookieJar), ex)
    {
      r := Call(ex, Get(FW_VERSION_PATH), reply);
    }

    /** `get_nodename`. */
    method GetNodename(ex: AuthExchange, reply: Http<Json>) returns (r: Result<Json, Failure>)
      modifies this
      ensures r == Fetched(AuthOutcome(ex), reply)
      ensures sent == old(sent) + CallTraffic(ex, Get(NODENAME_PATH))
      ensures cookieJar == CookieAfter(old(cookieJar), ex)
    {
      r := Call(ex, Get(NODENAME_PATH), reply);
    }

    /** `get_led_status`. */
    method GetLedStatus(ex: AuthExchange, reply: Http<Json>) returns (r: Result<Json, Failure>)
      modifies this
      ensures r == Fetched(AuthOutcome(ex), reply)
      ensures sent == old(sent) + CallTraffic(ex, Get(LED_STATUS_PATH))
      ensures cookieJar == CookieAfter(old(cookieJar), ex)
    {
      r := Call(ex, Get(LED_STATUS_PATH), reply);
    }

    /** The requests of `get_devices_state`: one login exchange, the actuator listing, then the meter listing. */
    function DevicesStateTraffic(ex: AuthExchange, actuators: Http<V4Body>): seq<Request> {
      AuthTraffic(ex)
      + (if AuthOutcome(ex).Pass? then [Get(ACTUATORS_PATH)] + (if actuators.Response? then [Get(SENSORS_PATH)] else []) else [])
    }

    /** `get_devices_state`. */
    method GetDevicesState(ex: AuthExchange, actuators: Http<V4Body>, meters: Http<V4Body>)
      returns (r: Result<map<string, Slice>, Failure>)
      modifies this
      ensures r == DevicesState(AuthOutcome(ex), actuators, meters)
      ensures sent == old(sent) + DevicesStateTraffic(ex, actuators)
      ensures cookieJar == CookieAfter(old(cookieJar), ex)
    {
      var auth := Authenticate(ex);
      if auth.Fail? {
        return Err(auth.error);
      }
      sent := sent + [Get(ACTUATORS_PATH)];
      if !actuators.Response? {
        return Err(ClientError);
      }
      var act := Index(actuators.body, "get_visible_devices");
      sent := sent + [Get(SENSORS_PATH)];
      if !meters.Response? {
        return Err(ClientError);
      }
      var sensors := Index(meters.body, "get_meters");
      r := Ok(act + sensors);
    }

    /** Send one command to a device after logging in. */
    method Send(did: Json, cmd: Command, ex: AuthExchange) returns (r: Outcome<Failure>)
      modifies this
      ensures r == AuthOutcome(ex)
      ensures sent == old(sent) + CallTraffic(ex, PutCommand(did, Body(cmd)))
      ensures cookieJar == CookieAfter(old(cookieJar), ex)
    {
      r := Authenticate(ex);
      if r.Pass? {
        sent := sent + [PutCommand(did, Body(cmd))];
      }
    }

    /** `ping`. */
    method Ping(did: Json, ex: AuthExchange) returns (r: Outcome<Failure>)
      modifies this
      ensures r == AuthOutcome(ex)
      ensures sent == old(sent) + CallTraffic(ex, PutCommand(did, CommandBody("PING_CMD", None)))
      ensures cookieJar == CookieAfter(old(cookieJar), ex)
    {
      r := Send(did, PingCmd, ex);
    }

    /** `open_cover`. */
    method OpenCover(did: Json, ex: AuthExchange) returns (r: Outcome<Failure>)
      modifies this
      ensures r == AuthOutcome(ex)
      ensures sent == old(sent) + CallTraffic(ex, PutCommand(did, CommandBody("POS_UP_CMD", None)))
      ensures cookieJar == CookieAfter(old(cookieJar), ex)
    {
      r := Send(did, PosUpCmd, ex);
    }

    /** `close_cover`. */
    method CloseCover(did: Json, ex: AuthExchange) returns (r: Outcome<Failure>)
      modifies this
      ensures r == AuthOutcome(ex)
      ensures sent == old(sent) + CallTraffic(ex, PutCommand(did, CommandBody("POS_DOWN_CMD", None)))
      ensures cookieJar == CookieAfter(old(cookieJar), ex)
    {
      r := Send(did, PosDownCmd, ex);
    }

    /** `stop_cover`. */
    method StopCover(did: Json, ex: AuthExchange) returns (r: Outcome<Failure>)
      modifies this
      ensures r == AuthOutcome(ex)
      ensures sent == old(sent) + CallTraffic(ex, PutCommand(did, CommandBody("STOP_CMD", None)))
      ensures cookieJar == CookieAfter(old(cookieJar), ex)
    {
      r := Send(did, StopCmd, ex);
    }

    /** `set_cover_position`: the position is forwarded unchanged as the command's value. */
    method SetCoverPosition(did: Json, position: int, ex: AuthExchange) returns (r: Outcome<Failure>)
      modifies this
      ensures r == AuthOutcome(ex)
      ensures sent == old(sent) + CallTraffic(ex, PutCommand(did, CommandBody("GOTO_POS_CMD", Some(position))))
      ensures cookieJar == CookieAfter(old(cookieJar), ex)
    {
      r := Send(did, GotoPosCmd(position), ex);
    }

    /** `turn_on`. */
    method TurnOn(did: Json, ex: AuthExchange) returns (r: Outcome<Failure>)
      modifies this
      ensures r == AuthOutcome(ex)
      ensures sent == old(sent) + CallTraffic(ex, PutCommand(did, CommandBody("TURN_ON_CMD", None)))
      ensures cookieJar == CookieAfter(old(cookieJar), ex)
    {
      r := Send(did, TurnOnCmd, ex);
    }

    /** `turn_off`. */
    method TurnOff(did: Json, ex: AuthExchange) returns (r: Outcome<Failure>)
      modifies this
      ensures r == AuthOutcome(ex)
      ensures sent == old(sent) + CallTraffic(ex, PutCommand(did, CommandBody("TURN_OFF_CMD", None)))
      ensures cookieJar == CookieAfter(old(cookieJar), ex)
    {
      r := Send(did, TurnOffCmd, ex);
    }

    /** `turn_led_on`. */
    method TurnLedOn(ex: AuthExchange) returns (r: Outcome<Failure>)
      modifies this
      ensures r == AuthOutcome(ex)
      ensures sent == old(sent) + CallTraffic(ex, Post(LED_ENABLE_PATH))
      ensures cookieJar == CookieAfter(old(cookieJar), ex)
    {
      r := Authenticate(ex);
      if r.Pass? {
        sent := sent + [Post(LED_ENABLE_PATH)];
      }
    }

    /** `turn_led_off`. */
    method TurnLedOff(ex: AuthExchange) returns (r: Outcome<Failure>)
      modifies this
      ensures r == AuthOutcome(ex)
      ensures sent == old(sent) + CallTraffic(ex, Post(LED_DISABLE_PATH))
      ensures cookieJar == CookieAfter(old(cookieJar), ex)
    {
      r := Authenticate(ex);
      if r.Pass? {
        sent := sent + [Post(LED_DISABLE_PATH)];
      }
    }
  }
}
