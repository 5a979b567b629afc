# HomePilot bridge client, device model and registry, in Dafny

This project models the core of the Rademacher HomePilot integration (`custom_components/rademacher/homepilot/`).
The integration talks HTTP+JSON to a local HomePilot bridge. Its parts:

- **`HomePilotApi`** (api.py) logs in with a salted SHA-256 password and fetches the device list, one device, the
  bulk per-device state snapshot and the bridge's firmware and LED status. It also sends the fixed vocabulary of
  device commands.
- **The capability parser and base device** (device.py) turn a device's `capabilities` array into a name-keyed map.
  From that map, each variant's `build_from_api` reads the identity fields.
- **The variants** are `HomePilotCover`, `HomePilotSwitch` and `HomePilotSensor` (cover.py, switch.py, sensor.py).
  Each is built once from the capability map. Each then refreshes its observed fields in place from its slice of
  every state snapshot.
- **The registry owners** discover the devices and build a dict from id to device object. On each poll they fetch
  a snapshot and reconcile every device with it. There are two of them:
  - `HomePilotManager` (manager.py), which also builds the hub pseudo-device under id "-1" and adds the hub's
    firmware/LED status to the snapshot;
  - the older `HomePilotHub` (homepilot/hub.py), which has no hub pseudo-device.

Modules follow the source files:

| module | contents |
|---|---|
| `Wrappers` | Option, Result and Outcome |
| `Wire` | JSON scalars, the exceptions, snapshot slices |
| `Dict` | Python dict comprehensions: the last value wins and iteration follows first insertion |
| `Const` | capability names and the supported-device table |
| `Api` | api.py |
| `Device` | device.py |
| `Cover`, `Switch`, `Sensor` | cover.py, switch.py, sensor.py |
| `Registry` | what manager.py and hub.py share: the device registry object, its build loop and its reconcile loop |
| `Manager` | manager.py |
| `LegacyHub` | homepilot/hub.py |

Every bridge exchange is an oracle. The reply to a request, or the aiohttp failure raised in its place, is a
parameter. The client object records every request it puts on the wire in `HomePilotApi.sent`.

Objects the source updates in place are classes: the API client, the three device variants and the registry. Their
methods are proved against specification functions of the old state. Those functions are:

- `CoverApply`, `SwitchApply` and `SensorApply` for one device update;
- `Step`, `Reconcile` and `AllUnavailable` for the poll cycle;
- `PlanAll` and `Dict.FromSeq` for the registry comprehension.

The properties are lemmas about those functions.

Python attributes that the source never sets before the first `update_state` (`_available`, `_cover_position`,
`_is_on`, the sensor values) are `Option` values, `None` until written. Reading one before then is an
AttributeError, and `Switch.ToggleCommand` models that case.

Three behaviours of the code shape the poll cycle:

- **The failure path of `update_states`.** `except Exception` (manager.py:54) does not catch `AuthError` or
  `CannotConnect`, because both derive from `BaseException` (api.py:246-251). A failed login therefore propagates
  with the devices untouched; only the other failures mark every device unavailable before they propagate.
- **Updates are not atomic.** Each variant's `update_state` assigns its fields one by one (cover.py:72-76,
  sensor.py:117-137). A missing key (`Position`, a flagged sensor reading) raises KeyError after the earlier
  assignments took effect. That KeyError also ends the reconcile loop (manager.py:60-65), leaving later devices
  unvisited.
- **The reconcile lookup.** The loop tests `device.did in states` but then reads `states[did]` with the registry
  key (manager.py:62-63). The model keeps the two apart: a device whose key is not in the snapshot raises KeyError.
  `Registry.ReconcileWithMatchingKeys` shows that this cannot happen when every key is its device's `did`.

## Model

Source paths are relative to the repository root. In the third column, "the source" means the cited lines.

| member | source | states |
|---|---|---|
| Dict.FromSeq | custom_components/rademacher/homepilot/api.py:135 | a dict comprehension's keys are exactly the keys of its elements |
| Dict.FromSeqSnoc | custom_components/rademacher/homepilot/manager.py:24-28 | one more element stores its value under its key, replacing any earlier one |
| Dict.FromSeqLastWins | custom_components/rademacher/homepilot/api.py:135 | the value under a key is the value of the last element with that key |
| Dict.FromSeqValueOrigin | custom_components/rademacher/homepilot/device.py:51-62 | every stored value comes from an element carrying that key |
| Dict.InsertionOrder | custom_components/rademacher/homepilot/manager.py:60 | the dict's iteration order holds every key once, and only the keys inserted |
| Dict.InsertionOrderSnoc | custom_components/rademacher/homepilot/manager.py:24-28 | a key already present keeps its place in the iteration order; a new key goes last |
| Api.TestConnection | custom_components/rademacher/homepilot/api.py:19-34 | "ok" iff `GET /` answers 200 and the salt request answers 500; "auth_required" iff 200 then anything but 500; "error" iff a connector failure or a non-200 root; any other client failure propagates |
| Api.TestAuth | custom_components/rademacher/homepilot/api.py:36-57 | the salt request always goes first. 500 with code 5007 raises AuthError. Any other reply that is not 200 with code 0 raises CannotConnect. Otherwise exactly one login follows, carrying the salted password and the salt. A non-200 login raises AuthError; a 200 login yields the cookie |
| Api.SaltedPasswordDeterminesPassword | custom_components/rademacher/homepilot/api.py:47-50 | with an injective hash, equal salted passwords for one salt mean equal passwords, and conversely |
| Api.Fetched | custom_components/rademacher/homepilot/api.py:87-94 | an authenticated call raises the login's error, raises a client error when the request fails, and otherwise returns the reply body |
| Api.DevicesOf | custom_components/rademacher/homepilot/api.py:67-73 | the device list is empty when `error_code` is not 0 or no list is sent, and is the sent list otherwise |
| Api.LookupOf | custom_components/rademacher/homepilot/api.py:79-85 | `get_device` yields `[]` iff `error_code` is not 0, the device iff code 0 with a device, and None otherwise |
| Api.DevicesReply | custom_components/rademacher/homepilot/api.py:63-73 | `get_devices` succeeds iff the login and the request do, and then returns the list above |
| Api.DeviceReply | custom_components/rademacher/homepilot/api.py:75-85 | `get_device` succeeds iff the login and the request do, and then returns the lookup above |
| Api.Index | custom_components/rademacher/homepilot/api.py:129-137 | the listing is keyed by `str(did)` of its records when the response tag matches, and is `{}` otherwise |
| Api.MergeStates | custom_components/rademacher/homepilot/api.py:150 | the merged keys are the union of the actuator and meter keys; a meter entry wins on a shared key; other keys keep their actuator entry |
| Api.IndexLastWins | custom_components/rademacher/homepilot/api.py:135 | a listed device's entry is its last record |
| Api.DevicesState | custom_components/rademacher/homepilot/api.py:123-150 | `get_devices_state` succeeds iff the login and both listings do, and then yields the merge; a login failure raises its own error; a failed listing raises a client error |
| Api.Body | custom_components/rademacher/homepilot/api.py:152-207 | only GOTO_POS_CMD carries a value, and it is the position given |
| Api.BodyInjective | custom_components/rademacher/homepilot/api.py:152-207 | distinct commands have distinct request bodies |
| Api.HomePilotApi.constructor | custom_components/rademacher/homepilot/api.py:15-17 | a new client has its host and password, no cookie and no traffic |
| Api.HomePilotApi.Attempt | custom_components/rademacher/homepilot/api.py:59-61 | a login is attempted iff the password is non-empty, because `_authenticated` is never set |
| Api.HomePilotApi.Authenticate | custom_components/rademacher/homepilot/api.py:59-61 | nothing is sent with an empty password; otherwise the salt request goes out on every call, and the cookie is replaced only by a successful login |
| Api.HomePilotApi.Call | custom_components/rademacher/homepilot/api.py:87-94 | the login traffic, then the request unless the login raised; the result is what `Fetched` gives |
| Api.HomePilotApi.GetDevices | custom_components/rademacher/homepilot/api.py:63-73 | returns `DevicesReply` after sending `GET /devices` behind the login |
| Api.HomePilotApi.GetDevice | custom_components/rademacher/homepilot/api.py:75-85 | returns `DeviceReply` after sending `GET /devices/{did}` behind the login |
| Api.HomePilotApi.GetFwStatus | custom_components/rademacher/homepilot/api.py:87-94 | the firmware status body, fetched from its path behind the login |
| Api.HomePilotApi.GetFwVersion | custom_components/rademacher/homepilot/api.py:96-103 | the firmware version body, fetched from its path behind the login |
| Api.HomePilotApi.GetNodename | custom_components/rademacher/homepilot/api.py:105-112 | the node name body, fetched from its path behind the login |
| Api.HomePilotApi.GetLedStatus | custom_components/rademacher/homepilot/api.py:114-121 | the LED status body, fetched from its path behind the login |
| Api.HomePilotApi.GetDevicesState | custom_components/rademacher/homepilot/api.py:123-150 | returns `DevicesState`; one login, then the actuator listing, and the meter listing only when the first listing did not fail |
| Api.HomePilotApi.Ping | custom_components/rademacher/homepilot/api.py:152-158 | sends PING_CMD to the device behind the login |
| Api.HomePilotApi.OpenCover | custom_components/rademacher/homepilot/api.py:160-166 | sends POS_UP_CMD to the device behind the login |
| Api.HomePilotApi.CloseCover | custom_components/rademacher/homepilot/api.py:168-174 | sends POS_DOWN_CMD to the device behind the login |
| Api.HomePilotApi.StopCover | custom_components/rademacher/homepilot/api.py:176-182 | sends STOP_CMD to the device behind the login |
| Api.HomePilotApi.SetCoverPosition | custom_components/rademacher/homepilot/api.py:184-191 | sends GOTO_POS_CMD with the given position unchanged |
| Api.HomePilotApi.TurnOn | custom_components/rademacher/homepilot/api.py:193-199 | sends TURN_ON_CMD to the device behind the login |
| Api.HomePilotApi.TurnOff | custom_components/rademacher/homepilot/api.py:201-207 | sends TURN_OFF_CMD to the device behind the login |
| Api.HomePilotApi.TurnLedOn | custom_components/rademacher/homepilot/api.py:209-215 | posts to the LED enable path behind the login |
| Api.HomePilotApi.TurnLedOff | custom_components/rademacher/homepilot/api.py:217-223 | posts to the LED disable path behind the login |
| Device.GetCapabilitiesMap | custom_components/rademacher/homepilot/device.py:48-62 | the map's keys are exactly the capability names of the array |
| Device.CapabilityEntryOfLast | custom_components/rademacher/homepilot/device.py:51-62 | a name's entry copies `value`, `read_only` and `timestamp` from the last capability with that name; an absent field reads None |
| Device.CapabilityEntryOrigin | custom_components/rademacher/homepilot/device.py:51-62 | every entry was copied from a capability with that name |
| Device.GetDidTypeFromJson | custom_components/rademacher/homepilot/device.py:64-70 | the id/type pair is the values of the two location capabilities; KeyError iff either is missing |
| Device.DidTypeFromArray | custom_components/rademacher/homepilot/device.py:64-70 | when both capabilities are present, the id read is the last id capability's `value` field |
| Device.ModelName | custom_components/rademacher/homepilot/switch.py:53-57 | the model is the supported-device table's name for a known product code, and "Generic Device" otherwise |
| Device.IdentityFrom | custom_components/rademacher/homepilot/switch.py:47-61 | construction succeeds iff the six required capabilities are present (KeyError otherwise); each identity field is the value of its capability; ping support iff PING_CMD is present |
| Device.CapabilitiesOf | custom_components/rademacher/homepilot/switch.py:45-46 | a found device is parsed; `[]` or None in its place raises TypeError |
| Device.DeviceMap | custom_components/rademacher/homepilot/switch.py:45-46 | a failure of `get_device` propagates; otherwise its result is parsed as above |
| Device.BaseApply | custom_components/rademacher/homepilot/device.py:72-73 | the base update sets availability to `statusValid`; a slice without one (the hub entry) raises and changes nothing |
| Device.PingIfSupported | custom_components/rademacher/homepilot/device.py:75-77 | PING_CMD goes out iff the device advertises it; otherwise nothing is sent and the cookie is kept |
| Device.HomePilotDevice.constructor | custom_components/rademacher/homepilot/device.py:26-46 | the identity is stored, the manufacturer is "Rademacher", and availability is unset |
| Device.HomePilotDevice.UpdateState | custom_components/rademacher/homepilot/device.py:72-73 | availability becomes `BaseApply` of the old availability |
| Device.HomePilotDevice.Ping | custom_components/rademacher/homepilot/device.py:75-77 | as `PingIfSupported` |
| Cover.Invert | custom_components/rademacher/homepilot/cover.py:73 | the stored and wire positions add up to 100, so the conversion is its own inverse |
| Cover.CoverConfigFrom | custom_components/rademacher/homepilot/cover.py:49-69 | the identity as `IdentityFrom`; `can_set_position` iff GOTO_POS_CMD is advertised; ping iff PING_CMD is |
| Cover.CoverApply | custom_components/rademacher/homepilot/cover.py:71-76 | completes iff the slice has `statusValid` and a Position. It then stores `100 - Position`, is closed iff Position is 100, and is neither opening nor closing. A slice without Position changes only availability. Consistency of the flags with the position is preserved |
| Cover.CoverPositionRoundTrip | custom_components/rademacher/homepilot/cover.py:84-86 | a position sent inverted and echoed back is read back unchanged, and closed iff it is 0 |
| Cover.HomePilotCover.constructor | custom_components/rademacher/homepilot/cover.py:23-47 | the configuration is stored and every observed field is unset |
| Cover.HomePilotCover.BuildFromApi | custom_components/rademacher/homepilot/cover.py:49-69 | one `get_device` request; a new cover with the parsed configuration, or the error of the lookup or of the parse |
| Cover.HomePilotCover.UpdateState | custom_components/rademacher/homepilot/cover.py:71-76 | the new fields and the outcome are `CoverApply` of the old ones |
| Cover.HomePilotCover.Ping | custom_components/rademacher/homepilot/device.py:75-77 | as `PingIfSupported` |
| Cover.HomePilotCover.OpenCover | custom_components/rademacher/homepilot/cover.py:78-79 | sends POS_UP_CMD for this device |
| Cover.HomePilotCover.CloseCover | custom_components/rademacher/homepilot/cover.py:81-82 | sends POS_DOWN_CMD for this device |
| Cover.HomePilotCover.StopCover | custom_components/rademacher/homepilot/cover.py:88-89 | sends STOP_CMD for this device |
| Cover.HomePilotCover.SetCoverPosition | custom_components/rademacher/homepilot/cover.py:84-86 | sends GOTO_POS_CMD with `100 - p` iff the cover can set its position; otherwise sends nothing |
| Switch.SwitchConfigFrom | custom_components/rademacher/homepilot/switch.py:42-61 | the identity as `IdentityFrom`, with its KeyError |
| Switch.SwitchApply | custom_components/rademacher/homepilot/switch.py:63-65 | completes iff the slice has `statusValid` and a Position; it is then on iff Position is not 0; a missing Position changes only availability |
| Switch.ToggleCommand | custom_components/rademacher/homepilot/switch.py:81-85 | turn off iff on, turn on iff off; AttributeError before the first update |
| Switch.ToggleAfterUpdate | custom_components/rademacher/homepilot/switch.py:63-85 | after an update, toggling sends TURN_OFF iff that update's Position was not 0 |
| Switch.HomePilotSwitch.constructor | custom_components/rademacher/homepilot/switch.py:18-40 | the configuration is stored and every observed field is unset |
| Switch.HomePilotSwitch.BuildFromApi | custom_components/rademacher/homepilot/switch.py:42-61 | one `get_device` request; a new switch with the parsed configuration, or the error |
| Switch.HomePilotSwitch.UpdateState | custom_components/rademacher/homepilot/switch.py:63-65 | the new fields and the outcome are `SwitchApply` of the old ones |
| Switch.HomePilotSwitch.Ping | custom_components/rademacher/homepilot/device.py:75-77 | as `PingIfSupported` |
| Switch.HomePilotSwitch.TurnOn | custom_components/rademacher/homepilot/switch.py:75-76 | sends TURN_ON_CMD for this device |
| Switch.HomePilotSwitch.TurnOff | custom_components/rademacher/homepilot/switch.py:78-79 | sends TURN_OFF_CMD for this device |
| Switch.HomePilotSwitch.Toggle | custom_components/rademacher/homepilot/switch.py:81-85 | sends exactly the command `ToggleCommand` chooses; before the first update it raises AttributeError and sends nothing |
| Sensor.NamesDistinct | custom_components/rademacher/homepilot/sensor.py:106-131 | the eight measurements have pairwise distinct capability names and reading keys |
| Sensor.FlagsFrom | custom_components/rademacher/homepilot/sensor.py:106-113 | a flag is set iff its capability name is in the map, whatever its value |
| Sensor.SensorConfigFrom | custom_components/rademacher/homepilot/sensor.py:87-114 | the identity as `IdentityFrom`, and the flags as `FlagsFrom` |
| Sensor.Decode | custom_components/rademacher/homepilot/sensor.py:132-137 | readings are stored as sent, except the contact: CLOSED iff the reading is "closed", OPENED for anything else |
| Sensor.SensorState.Store | custom_components/rademacher/homepilot/sensor.py:118-137 | storing one reading sets that measurement to its decoded value and changes no other field |
| Sensor.ReadOneEffect | custom_components/rademacher/homepilot/sensor.py:118-137 | one guarded read raises iff flagged with no reading; touches nothing when unflagged; changes only its own measurement, to the decoded reading |
| Sensor.ReadFromCompletes | custom_components/rademacher/homepilot/sensor.py:118-137 | the reads complete when every flagged measurement has its reading |
| Sensor.ReadFromStops | custom_components/rademacher/homepilot/sensor.py:118-137 | the reads raise KeyError when some flagged measurement has no reading |
| Sensor.ReadFromStores | custom_components/rademacher/homepilot/sensor.py:118-137 | completed reads hold the decoded reading of every flagged measurement |
| Sensor.ReadFromFrame | custom_components/rademacher/homepilot/sensor.py:118-137 | the reads never touch availability, an unflagged measurement, or one already passed |
| Sensor.ReadFromChanges | custom_components/rademacher/homepilot/sensor.py:118-137 | whatever the reads change holds the decoded reading of its own key |
| Sensor.ReadFromPartial | custom_components/rademacher/homepilot/sensor.py:118-137 | from any position on, the first read that raises stops the reads with the flagged measurements before it stored, decoded, and it and every later measurement untouched |
| Sensor.ReadAll | custom_components/rademacher/homepilot/sensor.py:118-137 | all eight reads: complete iff every flagged measurement has its reading; unflagged ones kept; completed ones decoded; every change is a decoded reading |
| Sensor.ReadAllPartial | custom_components/rademacher/homepilot/sensor.py:118-137 | when a flagged reading is missing, the reads stop at the first such measurement: every flagged measurement read before it holds its decoded reading, and it and every later measurement keep their old values |
| Sensor.SensorApply | custom_components/rademacher/homepilot/sensor.py:116-137 | a sensor's update: availability from `statusValid`, then the reads above; the flags decide what may change. It completes iff every flagged reading is present; when one is missing, the KeyError comes after the flagged readings before it were stored and leaves that measurement and the later ones unchanged |
| Sensor.HomePilotSensor.constructor | custom_components/rademacher/homepilot/sensor.py:47-85 | the identity and flags are stored and every reading is unset |
| Sensor.HomePilotSensor.BuildFromApi | custom_components/rademacher/homepilot/sensor.py:87-114 | one `get_device` request; a new sensor with the parsed configuration, or the error |
| Sensor.HomePilotSensor.ReadInto | custom_components/rademacher/homepilot/sensor.py:118-137 | one flag-guarded assignment block, as `ReadOne` |
| Sensor.HomePilotSensor.ReadAllInto | custom_components/rademacher/homepilot/sensor.py:118-137 | the eight blocks in order, as `ReadFrom` from the first |
| Sensor.HomePilotSensor.UpdateState | custom_components/rademacher/homepilot/sensor.py:116-137 | the new fields and the outcome are `SensorApply` of the old ones |
| Sensor.HomePilotSensor.Ping | custom_components/rademacher/homepilot/device.py:75-77 | as `PingIfSupported` |
| Registry.HubPseudoDevice.constructor | custom_components/rademacher/homepilot/manager.py:33-34 | the hub pseudo-device keeps the id it was discovered under and starts in the state its builder chose |
| Registry.HubPseudoDevice.UpdateState | custom_components/rademacher/homepilot/manager.py:62-63 | the hub pseudo-device's new state and outcome are those of the `HubUpdate` it is given, applied to its old state and the slice |
| Registry.View.Unavailable | custom_components/rademacher/homepilot/manager.py:57 | `device.available = False` leaves the device unavailable |
| Registry.UnavailableKeepsTheRest | custom_components/rademacher/homepilot/device.py:123-125 | marking unavailable changes availability and nothing else, the `did` included |
| Registry.ReconcileFromStep | custom_components/rademacher/homepilot/manager.py:60-65 | the loop is one step on the current entry, then the rest, unless that step raised |
| Registry.ReconcileFromEffect | custom_components/rademacher/homepilot/manager.py:60-65 | per entry: every entry up to the one that raised is stepped once from its old state; later entries are untouched; the key set is unchanged |
| Registry.ReconcileEffect | custom_components/rademacher/homepilot/manager.py:60-67 | the whole loop: the same per-entry statement from the first entry, and it completes iff every step does |
| Registry.ReconcileMissingDevice | custom_components/rademacher/homepilot/manager.py:64-65 | a device whose `did` is absent from the snapshot only becomes unavailable, its last values kept |
| Registry.ReconcileWithMatchingKeys | custom_components/rademacher/homepilot/manager.py:60-65 | when keys are dids, the loop stops only at an update that raised; it completes when every present device accepts its slice; each present device holds its updated state |
| Registry.AllUnavailable | custom_components/rademacher/homepilot/manager.py:54-58 | after a failed fetch the same devices are all unavailable, each `did` kept |
| Registry.MarkFrom | custom_components/rademacher/homepilot/manager.py:55-57 | the failure-path loop keeps the key set |
| Registry.MarkFromPrefix | custom_components/rademacher/homepilot/manager.py:55-57 | the failure-path loop over the iteration order marks every device, exactly as `AllUnavailable` |
| Registry.Targets | custom_components/rademacher/homepilot/manager.py:24-28 | the comprehension's filter: every kept pair was discovered with a dispatching code, and every discovered pair with such a code is kept |
| Registry.DidTypes | custom_components/rademacher/homepilot/manager.py:72 | one id/type pair per device, in order; KeyError iff some device lacks one |
| Registry.PlanOne | custom_components/rademacher/homepilot/manager.py:31-41 | `build_device` yields the variant its code names; a cover, switch or sensor starts unobserved; the hub pseudo-device is stored under its id with its builder's state, or its builder's error is raised |
| Registry.Outcomes | custom_components/rademacher/homepilot/manager.py:24-28 | the outcome of `build_device` for each target, in target order |
| Registry.Collect | custom_components/rademacher/homepilot/manager.py:24-28 | the comprehension succeeds iff every build does, pairing each key with its device; otherwise it raises the first failure |
| Registry.CollectFirstFailure | custom_components/rademacher/homepilot/manager.py:24-28 | once a build fails, the whole comprehension raises that failure |
| Registry.StoredKeys | custom_components/rademacher/homepilot/manager.py:24-28 | a key is in the built dict iff some built entry carries it |
| Registry.BuildStep | custom_components/rademacher/homepilot/manager.py:24-28 | one more built target extends the dict and its iteration order as the comprehension would |
| Registry.PlanAll | custom_components/rademacher/homepilot/manager.py:24-28 | the comprehension as a value: every target built in order, or the first failure |
| Registry.TargetKeys | custom_components/rademacher/homepilot/manager.py:24-28 | the kept keys are exactly the ids of discovered devices whose code dispatches |
| Registry.KeysFollowTargets | custom_components/rademacher/homepilot/manager.py:24-28 | entries built one per target carry exactly the targets' keys |
| Registry.PlannedKeys | custom_components/rademacher/homepilot/manager.py:24-28 | a successful build stores a device under every target key and under no other key |
| Registry.KeyedPut | custom_components/rademacher/homepilot/manager.py:24-28 | storing under a key keeps the dict and its iteration order in step |
| Registry.OwnedDisjoint | custom_components/rademacher/homepilot/manager.py:24-28 | devices stored under different keys are different objects |
| Registry.DeviceRegistry.constructor | custom_components/rademacher/homepilot/manager.py:16 | an empty registry |
| Registry.DeviceRegistry.Put | custom_components/rademacher/homepilot/manager.py:24-28 | `devices[key] = d`: the dict gains the entry, a new key goes last in the order, and the other devices are unchanged |
| Registry.DeviceRegistry.MarkUnavailable | custom_components/rademacher/homepilot/manager.py:57 | the device becomes `Unavailable` of what it was |
| Registry.DeviceRegistry.UpdateDevice | custom_components/rademacher/homepilot/manager.py:63 | the device's variant update, dispatched on the variant |
| Registry.DeviceRegistry.Refresh | custom_components/rademacher/homepilot/manager.py:61-65 | one loop body, as `Step` |
| Registry.DeviceRegistry.MarkAt | custom_components/rademacher/homepilot/manager.py:55-57 | one failure-path iteration marks one device and leaves the others |
| Registry.DeviceRegistry.MarkAllUnavailable | custom_components/rademacher/homepilot/manager.py:55-57 | the failure path leaves every device as `AllUnavailable` says, with the keys, order and objects unchanged |
| Registry.DeviceRegistry.RefreshAt | custom_components/rademacher/homepilot/manager.py:60-65 | one reconcile iteration steps one device and leaves the others |
| Registry.DeviceRegistry.ApplySnapshot | custom_components/rademacher/homepilot/manager.py:60-65 | the success path leaves the devices as `Reconcile` says, and reports where it raised |
| Registry.DeviceRegistry.BuildOne | custom_components/rademacher/homepilot/manager.py:31-41 | `build_device`: a fresh device object whose state is `PlanOne`'s, or `PlanOne`'s error |
| Registry.DeviceRegistry.Add | custom_components/rademacher/homepilot/manager.py:24-28 | one comprehension round: build the target and store it under its key, or fail with the build's error |
| Registry.DeviceRegistry.AddNext | custom_components/rademacher/homepilot/manager.py:24-28 | one round keeps the registry equal to the dict of the targets built so far, or fails with the comprehension's error |
| Registry.DeviceRegistry.Build | custom_components/rademacher/homepilot/manager.py:24-28 | fails iff `PlanAll` does, with its error; otherwise the registry is the dict comprehension of `PlanAll`'s entries, in insertion order |
| Manager.HubDescriptorDidType | custom_components/rademacher/homepilot/manager.py:71 | the appended hub descriptor is discovered as id "-1" with type "-1" |
| Manager.Dispatch | custom_components/rademacher/homepilot/manager.py:31-41 | a variant iff the code is "-1", "1", "2" or "3" |
| Manager.DispatchTable | custom_components/rademacher/homepilot/manager.py:32-41 | "-1" is the hub pseudo-device, "1" a switch, "2" a cover, "3" a sensor, each both ways; numeric codes match nothing |
| Manager.HubDiscoveredLast | custom_components/rademacher/homepilot/manager.py:69-72 | the discovered list is the bridge's list, in order, followed by the hub pseudo-device |
| Manager.DiscoveredKeys | custom_components/rademacher/homepilot/manager.py:24-28 | the registry holds a device for a discovered id iff its type code is "-1", "1", "2" or "3" |
| Manager.HubAlwaysBuilt | custom_components/rademacher/homepilot/manager.py:24-28 | a successful build always holds the hub pseudo-device under "-1" |
| Manager.HubStateOf | custom_components/rademacher/homepilot/manager.py:43-48 | the hub state is the status, version and LED replies iff all three fetches succeed; otherwise the first fetch that fails, in that order, raises its error |
| Manager.HubTrafficComplete | custom_components/rademacher/homepilot/manager.py:43-48 | a hub state that was read was read with all three requests, status, version and LED, in that order |
| Manager.Snapshot | custom_components/rademacher/homepilot/manager.py:53 | the snapshot gains "-1" holding the hub state and keeps every other entry |
| Manager.HubAlwaysRefreshed | custom_components/rademacher/homepilot/manager.py:53-63 | the hub pseudo-device's id is always in the snapshot, so the cycle never marks it unavailable and always hands it the hub's slice |
| Manager.Fetch | custom_components/rademacher/homepilot/manager.py:51-53 | the try block succeeds iff both fetches do, yielding the merged states plus the hub entry; otherwise the device-state error is raised, or, when the device states were read, the hub-state error |
| Manager.HomePilotManager.constructor | custom_components/rademacher/homepilot/manager.py:18-19 | a fresh client for the host and password, and an empty registry |
| Manager.HomePilotManager.GetDeviceIdsTypes | custom_components/rademacher/homepilot/manager.py:69-72 | the result is `DiscoveredIds`, after exactly the `get_devices` traffic |
| Manager.HomePilotManager.BuildDevices | custom_components/rademacher/homepilot/manager.py:24-28 | the registry becomes the dict of the discovered, dispatchable devices, or the discovery's exception is returned |
| Manager.HomePilotManager.BuildManager | custom_components/rademacher/homepilot/manager.py:21-29 | a new manager whose registry holds the discovered devices |
| Manager.HomePilotManager.GetHubState | custom_components/rademacher/homepilot/manager.py:43-48 | the result is `HubStateOf`; each fetch's login and request go out in order, up to the first fetch that fails, and the cookie jar follows those logins |
| Manager.HomePilotManager.UpdateStates | custom_components/rademacher/homepilot/manager.py:50-67 | a fetch failure is re-raised: an `Exception` after marking every device unavailable, AuthError or CannotConnect with the devices untouched. Otherwise the devices end as `Reconcile` says, and KeyError is raised iff the loop stopped. The device-state traffic goes out, then the hub-state traffic if the device states were read. Keys, order and objects are unchanged, and the registry is returned |
| LegacyHub.Dispatch | custom_components/rademacher/homepilot/hub.py:27-34 | a variant iff the code is "1", "2" or "3", and never the hub pseudo-device |
| LegacyHub.DispatchTable | custom_components/rademacher/homepilot/hub.py:27-34 | "1" a switch, "2" a cover, "3" a sensor, each both ways |
| LegacyHub.DiscoveredIds | custom_components/rademacher/homepilot/hub.py:54-58 | one pair per listed device, with nothing appended |
| LegacyHub.DiscoveredKeys | custom_components/rademacher/homepilot/hub.py:17-24 | the registry holds a device for a discovered id iff its type code is "1", "2" or "3" |
| LegacyHub.NoHubPseudoDevice | custom_components/rademacher/homepilot/hub.py:17-24 | no hub pseudo-device is ever built |
| LegacyHub.HomePilotHub.constructor | custom_components/rademacher/homepilot/hub.py:13-14 | a fresh client for the host and password, and an empty registry |
| LegacyHub.HomePilotHub.GetDeviceIdsTypes | custom_components/rademacher/homepilot/hub.py:54-58 | the result is `DiscoveredIds`, after exactly the `get_devices` traffic |
| LegacyHub.HomePilotHub.BuildDevices | custom_components/rademacher/homepilot/hub.py:19-23 | the registry becomes the dict of the discovered, dispatchable devices, or the discovery's exception is returned |
| LegacyHub.HomePilotHub.BuildHub | custom_components/rademacher/homepilot/hub.py:16-24 | a new hub whose registry holds the discovered devices |
| LegacyHub.HomePilotHub.UpdateStates | custom_components/rademacher/homepilot/hub.py:36-52 | as the manager's `update_states`, with `get_devices_state` alone as the fetch and its traffic alone on the wire |

## Left out

- Network I/O is not modelled. That covers aiohttp sessions, URLs with the host, JSON decoding and the cookie jar object. Each reply is a typed parameter, and the cookie jar is the login reply's cookie string.
- Malformed replies are not representable. A reply without `error_code`, `response`, `payload`, `password_salt` (api.py:46), a device's `did`, a `devices` or `meters` list entry (api.py:133-147), `statusValid` (device.py:73) or a capability `name` (each a KeyError in the source) cannot be written as a typed reply.
- Numbers are integers. Floating-point readings and positions are not modelled.
- SHA-256 is a parameter, `sha256: string -> string`, and only its composition is modelled.
- Concurrency is not modelled. Every `await` runs in sequence, with no interleaving and no timeouts.
- Api.HomePilotApi.Send: a client failure of the command request itself is not modelled. A command completes once the login completes.
- Api.HomePilotApi.GetFwStatus: the firmware and LED replies are kept as one JSON value each, without their inner fields. The same holds for `GetFwVersion`, `GetNodename` and `GetLedStatus`.
- Api.TestConnection: the reply bodies are not read, and neither is the client session's lifetime.
- The hub pseudo-device class that manager.py:34 and manager.py:71 call is not part of this model. manager.py:3 imports `HomePilotHub` from `.hub`, but the `HomePilotHub` of homepilot/hub.py (modelled as `LegacyHub`) has neither `get_capabilities` nor `build_from_api`. The class those calls need is the device-like `HomePilotHub` of the separately packaged `homepilot` library, which update.py:12 and update.py:30 treat as a device. Its builder's outcome is a parameter (`DeviceExchange.hubBuilt`) and so is its update (`HubUpdate`, carried by `SnapshotExchange.hubUpdate`); the requests its builder may send are not modelled. It is assumed to keep the id it was built with as its `did`, and its descriptor is assumed to carry id "-1" and type "-1". `Registry.PlanOne`, `Registry.HubPseudoDevice.UpdateState`, `Manager.HubAlwaysRefreshed`, `Manager.HubAlwaysBuilt` and `Manager.HomePilotManager.UpdateStates` rest on these assumptions.
- Inheritance is flattened. Each variant class carries the identity and availability fields itself, and the inherited update and ping are shared definitions (`BaseApply`, `PingIfSupported`).
- Registry.DeviceRegistry.Build: the registry is filled entry by entry rather than assigned whole. Build fills it in the comprehension's order, and the state is the same when the build succeeds. After a failed build, the partly filled registry is never used, as in the source.
- Registry.DeviceRegistry.Build: the requests sent during the build are not stated. `Manager.HomePilotManager.BuildDevices` and `LegacyHub.HomePilotHub.BuildDevices` leave them out too.
- LegacyHub.HomePilotHub.UpdateStates: it takes a `HubUpdate` only because the reconcile cycle is shared with the manager. The older hub never builds a hub pseudo-device (`LegacyHub.NoHubPseudoDevice`), but the model does not carry that fact in the class invariant.
- Manager.HomePilotManager.BuildManager: only the successful case is stated. The exception it re-raises is stated on `BuildDevices`.
- LegacyHub.HomePilotHub.BuildHub: only the successful case is stated. The exception it re-raises is stated on `BuildDevices`.
- Read-only property getters are not modelled as members. They are the fields themselves.
- `const.py` is modelled only through the capability names and the supported-device table. The table's "Type" column is unused by the core.
- The Home Assistant entity adapters, the config flow and the integration set-up are not part of this model. The same goes for the earlier top-level HTTP wrappers.
