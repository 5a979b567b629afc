/**
 * The device registry shared by the manager and the older hub: a dict from discovered id to device object,
 * built once from the discovery list and then refreshed in place from each state snapshot.
 */
module Registry {
  import opened Wrappers
  import opened Wire
  import Dict
  import opened Api
  import opened Device
  import Cover
  import Switch
  import Sensor

  // ---------------------------------------------------------------------------------------------------------
  // The hub pseudo-device

  /** What the model keeps of the hub pseudo-device: its availability and the last hub slice it took in. */
  datatype HubState = HubState(available: Option<bool>, status: Option<Slice>)

  /**
   * `update_state` of the hub pseudo-device: its new state and whether the update completed. The class is
   * not part of this model, so the update is a parameter of every operation that reaches it.
   */
  type HubUpdate = (HubState, Slice) -> (HubState, bool)

  /**
   * The virtual device standing for the bridge itself. Its class is not part of this model: it is built
   * with the `did` it was discovered under and an initial state its builder chose, and it updates as the
   * given `HubUpdate` says.
   */
  class HubPseudoDevice {
    const did: Json
    var available: Option<bool>
    var status: Option<Slice>

    function State(): HubState
      reads this
    {
      HubState(available, status)
    }

    constructor (did: Json, initial: HubState)
      ensures this.did == did && State() == initial
    {
      this.did := did;
      available := initial.available;
      status := initial.status;
    }

    method UpdateState(slice: Slice, hubUpdate: HubUpdate) returns (ok: bool)
      modifies this
      ensures (State(), ok) == hubUpdate(old(State()), slice)
    {
      var r := hubUpdate(State(), slice);
      available, status := r.0.available, r.0.status;
      ok := r.1;
    }
  }

  // ---------------------------------------------------------------------------------------------------------
  // Devices and their views

  /** A registry entry: one of the variant objects. */
  datatype Entry =
    | CoverDevice(cover: Cover.HomePilotCover)
    | SwitchDevice(sw: Switch.HomePilotSwitch)
    | SensorDevice(sensor: Sensor.HomePilotSensor)
    | HubDevice(hub: HubPseudoDevice)

  /** The device object itself. */
  function Obj(d: Entry): object {
    match d
    case CoverDevice(c) => c
    case SwitchDevice(w) => w
    case SensorDevice(n) => n
    case HubDevice(h) => h
  }

  /** A device as a value: what it was built with and what its fields currently hold. */
  datatype View =
    | CoverView(coverConfig: Cover.CoverConfig, coverState: Cover.CoverState)
    | SwitchView(switchConfig: Switch.SwitchConfig, switchState: Switch.SwitchState)
    | SensorView(sensorConfig: Sensor.SensorConfig, sensorState: Sensor.SensorState)
    | HubView(hubDid: Json, hubState: HubState)
  {
    /** The `did` property the reconcile step looks up in the snapshot. */
    function Did(): Json {
      match this
      case CoverView(c, _) => c.identity.did
      case SwitchView(c, _) => c.identity.did
      case SensorView(c, _) => c.identity.did
      case HubView(did, _) => did
    }

    function Available(): Option<bool> {
      match this
      case CoverView(_, s) => s.available
      case SwitchView(_, s) => s.available
      case SensorView(_, s) => s.available
      case HubView(_, s) => s.available
    }

    /** The view after `device.available = False`. */
    function Unavailable(): (v: View)
      ensures v.Available() == Some(false)
    {
      match this
      case CoverView(c, s) => CoverView(c, s.(available := Some(false)))
      case SwitchView(c, s) => SwitchView(c, s.(available := Some(false)))
      case SensorView(c, s) => SensorView(c, s.(available := Some(false)))
      case HubView(did, s) => HubView(did, s.(available := Some(false)))
    }

    /** The view after `device.update_state(slice)`, and whether the update completed. */
    function Apply(slice: Slice, hubUpdate: HubUpdate): (View, bool) {
      match this
      case CoverView(c, s) =>
        var (s', ok) := Cover.CoverApply(s, slice);
        (CoverView(c, s'), ok)
      case SwitchView(c, s) =>
        var (s', ok) := Switch.SwitchApply(s, slice);
        (SwitchView(c, s'), ok)
      case SensorView(c, s) =>
        var (s', ok) := Sensor.SensorApply(c.flags, s, slice);
        (SensorView(c, s'), ok)
      case HubView(did, s) =>
        var (s', ok) := hubUpdate(s, slice);
        (HubView(did, s'), ok)
    }
  }

  /** Marking a device unavailable changes its availability and nothing else. */
  lemma UnavailableKeepsTheRest(v: View)
    ensures v.Unavailable().Did() == v.Did()
    ensures v.CoverView? ==> v.Unavailable() == CoverView(v.coverConfig, v.coverState.(available := Some(false)))
    ensures v.SwitchView? ==> v.Unavailable() == SwitchView(v.switchConfig, v.switchState.(available := Some(false)))
    ensures v.SensorView? ==> v.Unavailable() == SensorView(v.sensorConfig, v.sensorState.(available := Some(false)))
    ensures v.HubView? ==> v.Unavailable() == HubView(v.hubDid, v.hubState.(available := Some(false)))
  {
  }

  function ViewOf(d: Entry): View
    reads Obj(d)
  {
    match d
    case CoverDevice(c) => CoverView(c.Config(), c.State())
    case SwitchDevice(w) => SwitchView(w.Config(), w.State())
    case SensorDevice(n) => SensorView(n.Config(), n.State())
    case HubDevice(h) => HubView(h.did, h.State())
  }

  // ---------------------------------------------------------------------------------------------------------
  // The reconcile cycle as a function

  /**
   * One iteration of the reconcile loop for the entry stored under `key`: a device whose `did` is not in the
   * snapshot only becomes unavailable; otherwise it is updated with `states[key]`, which raises KeyError
   * when the registry key itself is not a key of the snapshot.
   */
  function Step(key: Json, v: View, states: map<string, Slice>, hubUpdate: HubUpdate): (View, bool) {
    if !DidIn(v.Did(), states) then (v.Unavailable(), true)
    else if key.JStr? && key.s in states then v.Apply(states[key.s], hubUpdate)
    else (v, false)
  }

  /** The reconcile loop from the i-th registry entry on; it stops at the first update that raised. */
  function ReconcileFrom(order: seq<Json>, i: nat, views: map<Json, View>, states: map<string, Slice>, hubUpdate: HubUpdate)
    : (map<Json, View>, Option<nat>)
    requires i <= |order|
    requires forall k :: k in order ==> k in views
    decreases |order| - i
  {
    if i == |order| then (views, None)
    else
      var (v, ok) := Step(order[i], views[order[i]], states, hubUpdate);
      var views' := views[order[i] := v];
      if !ok then (views', Some(i)) else ReconcileFrom(order, i + 1, views', states, hubUpdate)
  }

  /** Unrolling the loop by one entry. */
  lemma ReconcileFromStep(order: seq<Json>, i: nat, views: map<Json, View>, states: map<string, Slice>, hubUpdate: HubUpdate)
    requires i < |order| && forall k :: k in order ==> k in views
    ensures var (v, ok) := Step(order[i], views[order[i]], states, hubUpdate);
      ReconcileFrom(order, i, views, states, hubUpdate)
        == if ok then ReconcileFrom(order, i + 1, views[order[i] := v], states, hubUpdate) else (views[order[i] := v], Some(i))
  {
  }

  /** The reconcile loop over the whole registry, in its iteration order. */
  function Reconcile(order: seq<Json>, views: map<Json, View>, states: map<string, Slice>, hubUpdate: HubUpdate): (map<Json, View>, Option<nat>)
    requires forall k :: k in order ==> k in views
  {
    ReconcileFrom(order, 0, views, states, hubUpdate)
  }

  /** Whether the loop reached entry j before stopping. */
  predicate Reached(j: nat, failedAt: Option<nat>) {
    failedAt.None? || j <= failedAt.value
  }

  /**
   * What the reconcile loop does to each entry: every entry up to the one that raised is stepped once from
   * the view it had before the loop, every later entry is left as it was, and the key set is unchanged.
   */
  lemma {:induction false} ReconcileFromEffect(order: seq<Json>, i: nat, views: map<Json, View>, states: map<string, Slice>, hubUpdate: HubUpdate)
    requires i <= |order| && Dict.Distinct(order)
    requires forall k :: k in order ==> k in views
    decreases |order| - i
    ensures var (vs, f) := ReconcileFrom(order, i, views, states, hubUpdate);
      && vs.Keys == views.Keys
      && (forall k :: k in views && k !in order ==> vs[k] == views[k])
      && (f.Some? ==> i <= f.value < |order| && !Step(order[f.value], views[order[f.value]], states, hubUpdate).1)
      && (forall j :: i <= j < |order| && !Reached(j, f) ==> f.Some? && f.value < j)
      && (forall j :: i <= j < |order| && Reached(j, f) && (f.None? || j < f.value) ==>
                        Step(order[j], views[order[j]], states, hubUpdate).1)
      && (forall j :: 0 <= j < |order| ==>
                        vs[order[j]] == if i <= j && Reached(j, f) then Step(order[j], views[order[j]], states, hubUpdate).0
                                        else views[order[j]])
  {
    if i < |order| {
      var (v, ok) := Step(order[i], views[order[i]], states, hubUpdate);
      var views' := views[order[i] := v];
      if ok {
        ReconcileFromEffect(order, i + 1, views', states, hubUpdate);
        forall j | i < j < |order|
          ensures views'[order[j]] == views[order[j]]
        {
          assert order[j] != order[i];
        }
      }
    }
  }

  /** The reconcile loop, entry by entry. */
  lemma ReconcileEffect(order: seq<Json>, views: map<Json, View>, states: map<string, Slice>, hubUpdate: HubUpdate)
    requires Dict.Distinct(order)
    requires forall k :: k in views <==> k in order
    ensures var (vs, f) := Reconcile(order, views, states, hubUpdate);
      && vs.Keys == views.Keys
      && (f.Some? ==> f.value < |order| && !Step(order[f.value], views[order[f.value]], states, hubUpdate).1)
      && (forall j :: 0 <= j < |order| && f.Some? && j < f.value ==> Step(order[j], views[order[j]], states, hubUpdate).1)
      && (f.None? ==> forall j :: 0 <= j < |order| ==> Step(order[j], views[order[j]], states, hubUpdate).1)
      && (forall j :: 0 <= j < |order| ==>
                        vs[order[j]] == if Reached(j, f) then Step(order[j], views[order[j]], states, hubUpdate).0 else views[order[j]])
  {
    ReconcileFromEffect(order, 0, views, states, hubUpdate);
  }

  /** A device missing from the snapshot that the loop reaches only becomes unavailable. */
  lemma ReconcileMissingDevice(order: seq<Json>, views: map<Json, View>, states: map<string, Slice>, hubUpdate: HubUpdate, j: nat)
    requires Dict.Distinct(order)
    requires forall k :: k in views <==> k in order
    requires j < |order| && !DidIn(views[order[j]].Did(), states)
    requires Reached(j, Reconcile(order, views, states, hubUpdate).1)
    ensures var vs := Reconcile(order, views, states, hubUpdate).0;
      order[j] in vs && vs[order[j]] == views[order[j]].Unavailable()
  {
    ReconcileEffect(order, views, states, hubUpdate);
  }

  /**
   * When every registry key is the `did` of its device, the snapshot lookup never raises: the loop stops
   * only at an update that itself raised, and it completes when every device present in the snapshot
   * accepts its slice.
   */
  lemma ReconcileWithMatchingKeys(order: seq<Json>, views: map<Json, View>, states: map<string, Slice>, hubUpdate: HubUpdate)
    requires Dict.Distinct(order)
    requires forall k :: k in views <==> k in order
    requires forall k :: k in views ==> views[k].Did() == k
    ensures var (vs, f) := Reconcile(order, views, states, hubUpdate);
      && (f.Some? ==> f.value < |order| && DidIn(order[f.value], states)
                      && !views[order[f.value]].Apply(states[order[f.value].s], hubUpdate).1)
      && ((forall k :: k in views && DidIn(k, states) ==> views[k].Apply(states[k.s], hubUpdate).1) ==> f.None?)
      && (forall j :: 0 <= j < |order| && Reached(j, f) && DidIn(order[j], states) ==>
                        order[j] in vs && vs[order[j]] == views[order[j]].Apply(states[order[j].s], hubUpdate).0)
  {
    ReconcileEffect(order, views, states, hubUpdate);
    var (vs, f) := Reconcile(order, views, states, hubUpdate);
    if f.Some? {
      var k := order[f.value];
      assert views[k].Did() == k;
      assert !Step(k, views[k], states, hubUpdate).1;
    }
    forall j | 0 <= j < |order| && Reached(j, f) && DidIn(order[j], states)
      ensures order[j] in vs && vs[order[j]] == views[order[j]].Apply(states[order[j].s], hubUpdate).0
    {
      assert views[order[j]].Did() == order[j];
    }
  }

  /** The view of every device after the fetch failed: all unavailable, nothing else changed. */
  function AllUnavailable(views: map<Json, View>): (vs: map<Json, View>)
    ensures vs.Keys == views.Keys
    ensures forall k :: k in vs ==> vs[k].Available() == Some(false) && vs[k].Did() == views[k].Did()
  {
    map k | k in views :: views[k].Unavailable()
  }

  /** The failure-path loop from position `i` on: each listed device in turn is marked unavailable. */
  function MarkFrom(order: seq<Json>, i: nat, views: map<Json, View>): (vs: map<Json, View>)
    requires i <= |order|
    ensures vs.Keys == views.Keys
    decreases |order| - i
  {
    if i == |order| then views
    else
      var key := order[i];
      MarkFrom(order, i + 1, if key in views then views[key := views[key].Unavailable()] else views)
  }

  /** Marking twice is marking once. */
  lemma UnavailableIdempotent(v: View)
    ensures v.Unavailable().Unavailable() == v.Unavailable()
  {
  }

  /** When the order lists exactly the stored keys, the loop marks every device and touches nothing else. */
  lemma {:induction false} MarkFromPrefix(order: seq<Json>, i: nat, v: map<Json, View>, w: map<Json, View>)
    requires i <= |order|
    requires forall k :: k in v <==> k in order
    requires w.Keys == v.Keys
    requires forall k :: k in w ==> w[k] == if k in order[..i] then v[k].Unavailable() else v[k]
    ensures MarkFrom(order, i, w) == AllUnavailable(v)
    decreases |order| - i
  {
    if i == |order| {
      assert order[..i] == order;
    } else {
      var key := order[i];
      var w' := w[key := w[key].Unavailable()];
      assert order[..i + 1] == order[..i] + [key];
      forall k | k in w'
        ensures w'[k] == if k in order[..i + 1] then v[k].Unavailable() else v[k]
      {
        if k == key {
          UnavailableIdempotent(v[k]);
        }
      }
      MarkFromPrefix(order, i + 1, v, w');
    }
  }

  // ---------------------------------------------------------------------------------------------------------
  // Building

  /** The constructor a discovered type code is dispatched to. */
  datatype Kind = HubKind | SwitchKind | CoverKind | SensorKind

  /** A discovered device that passed the type filter: its registry key and its variant. */
  datatype Target = Target(key: Json, kind: Kind)

  /** The filter of the registry comprehension: the discovered ids whose type code dispatches, in discovery order. */
  function Targets(ids: seq<DidType>, dispatch: Json -> Option<Kind>): (ts: seq<Target>)
    ensures |ts| <= |ids|
    ensures forall t :: t in ts ==> exists id :: id in ids && id.did == t.key && dispatch(id.typ) == Some(t.kind)
    ensures forall i :: 0 <= i < |ids| && dispatch(ids[i].typ).Some? ==>
              Target(ids[i].did, dispatch(ids[i].typ).value) in ts
  {
    if ids == [] then []
    else
      var rest := Targets(ids[1..], dispatch);
      assert forall i :: 1 <= i < |ids| ==> ids[i] == ids[1..][i - 1];
      match dispatch(ids[0].typ)
      case None => rest
      case Some(k) => [Target(ids[0].did, k)] + rest
  }

  /** The `get_device_ids_types` comprehension: the id and type of every device, or KeyError for the first that lacks one. */
  function DidTypes(devices: seq<DeviceJson>): (r: Result<seq<DidType>, Failure>)
    ensures r.Ok? <==> forall i :: 0 <= i < |devices| ==> GetDidTypeFromJson(devices[i]).Ok?
    ensures r.Ok? ==> |r.value| == |devices|
    ensures r.Ok? ==> forall i :: 0 <= i < |devices| ==> r.value[i] == GetDidTypeFromJson(devices[i]).value
    ensures r.Err? ==> r.error == KeyError
  {
    if devices == [] then Ok([])
    else
      var init :- DidTypes(devices[..|devices| - 1]);
      var last :- GetDidTypeFromJson(devices[|devices| - 1]);
      Ok(init + [last])
  }

  /**
   * What building one target meets: the login replies and the device reply of its `get_device` call, and,
   * for the hub pseudo-device, whose builder is not part of this model, that builder's outcome (its initial
   * state, or the failure it raised).
   */
  datatype DeviceExchange = DeviceExchange(ex: AuthExchange, reply: Http<DeviceBody>, hubBuilt: Result<HubState, Failure>)

  /** A built registry entry before it is stored. */
  datatype Planned = Planned(key: Json, view: View)

  function KeyOf(p: Planned): Json { p.key }

  function ViewOfPlanned(p: Planned): View { p.view }

  function KeysOf(ps: seq<Planned>): (ks: seq<Json>)
    ensures |ks| == |ps| && forall i :: 0 <= i < |ps| ==> ks[i] == ps[i].key
  {
    seq(|ps|, i requires 0 <= i < |ps| => ps[i].key)
  }

  lemma KeysOfSnoc(ps: seq<Planned>, p: Planned)
    ensures KeysOf(ps + [p]) == KeysOf(ps) + [p.key]
  {
    assert forall i :: 0 <= i < |ps| ==> (ps + [p])[i] == ps[i];
  }

  /** `build_device` for one target, as a view: the hub as its builder decided, the others from `get_device`. */
  function PlanOne(api: HomePilotApi, t: Target, x: DeviceExchange): (r: Result<View, Failure>)
    ensures r.Ok? && t.kind != HubKind ==> r.value.Available() == None
    ensures r.Ok? ==> (r.value.HubView? <==> t.kind == HubKind)
    ensures r.Ok? ==> (r.value.CoverView? <==> t.kind == CoverKind)
    ensures r.Ok? ==> (r.value.SwitchView? <==> t.kind == SwitchKind)
    ensures r.Ok? ==> (r.value.SensorView? <==> t.kind == SensorKind)
    ensures t.kind == HubKind ==> (r.Ok? <==> x.hubBuilt.Ok?)
    ensures t.kind == HubKind && r.Ok? ==> r.value == HubView(t.key, x.hubBuilt.value)
    ensures t.kind == HubKind && r.Err? ==> r.error == x.hubBuilt.error
  {
    var got := DeviceReply(api.AuthOutcome(x.ex), x.reply);
    match t.kind
    case HubKind =>
      var s :- x.hubBuilt;
      Ok(HubView(t.key, s))
    case SwitchKind =>
      var c :- Switch.SwitchPlan(got);
      Ok(SwitchView(c, Switch.UNSET))
    case CoverKind =>
      var c :- Cover.CoverPlan(got);
      Ok(CoverView(c, Cover.UNSET))
    case SensorKind =>
      var c :- Sensor.SensorPlan(got);
      Ok(SensorView(c, Sensor.UNSET))
  }

  /** The outcome of `build_device` for every target, in target order. */
  function Outcomes(api: HomePilotApi, ts: seq<Target>, xs: nat -> DeviceExchange): (os: seq<Result<View, Failure>>)
    ensures |os| == |ts| && forall i :: 0 <= i < |ts| ==> os[i] == PlanOne(api, ts[i], xs(i))
  {
    seq(|ts|, i requires 0 <= i < |ts| => PlanOne(api, ts[i], xs(i)))
  }

  /**
   * The first n outcomes gathered in order, each under its target's key; the first failure aborts the
   * comprehension with its error.
   */
  function Collect(ts: seq<Target>, os: seq<Result<View, Failure>>, n: nat): (r: Result<seq<Planned>, Failure>)
    requires n <= |ts| == |os|
    ensures r.Ok? <==> forall i :: 0 <= i < n ==> os[i].Ok?
    ensures r.Ok? ==> |r.value| == n && forall i :: 0 <= i < n ==> os[i].Ok? && r.value[i] == Planned(ts[i].key, os[i].value)
    ensures r.Err? ==> exists i :: 0 <= i < n && os[i] == Err(r.error) && forall j :: 0 <= j < i ==> os[j].Ok?
  {
    if n == 0 then Ok([])
    else
      var ps :- Collect(ts, os, n - 1);
      var v :- os[n - 1];
      Ok(ps + [Planned(ts[n - 1].key, v)])
  }

  /** Once an outcome is a failure, collecting any longer prefix fails with that error. */
  lemma {:induction false} CollectFirstFailure(ts: seq<Target>, os: seq<Result<View, Failure>>, i: nat, n: nat)
    requires i < n <= |ts| == |os|
    requires Collect(ts, os, i).Ok? && os[i].Err?
    ensures Collect(ts, os, n) == Err(os[i].error)
  {
    if n > i + 1 {
      CollectFirstFailure(ts, os, i, n - 1);
    }
  }

  /** A key is stored exactly when some built target carries it. */
  lemma StoredKeys(ps: seq<Planned>, k: Json)
    ensures k in Dict.FromSeq(ps, KeyOf, ViewOfPlanned) <==> k in KeysOf(ps)
  {
    var ks := KeysOf(ps);
    if k in ks {
      var j :| 0 <= j < |ks| && ks[j] == k;
      assert ps[j] in ps && KeyOf(ps[j]) == k;
    }
    if k in Dict.FromSeq(ps, KeyOf, ViewOfPlanned) {
      var q :| q in ps && KeyOf(q) == k;
      var j :| 0 <= j < |ps| && ps[j] == q;
      assert ks[j] == k;
    }
  }

  /** One more target built: the comprehension's prefix, the stored views and the key order all grow by it. */
  lemma BuildStep(ts: seq<Target>, os: seq<Result<View, Failure>>, i: nat, ps: seq<Planned>,
                  views: map<Json, View>, order: seq<Json>)
    requires i < |ts| == |os| && os[i].Ok?
    requires Collect(ts, os, i) == Ok(ps)
    requires views == Dict.FromSeq(ps, KeyOf, ViewOfPlanned) && order == Dict.InsertionOrder(KeysOf(ps))
    ensures var p := Planned(ts[i].key, os[i].value);
      && Collect(ts, os, i + 1) == Ok(ps + [p])
      && views[p.key := p.view] == Dict.FromSeq(ps + [p], KeyOf, ViewOfPlanned)
      && (if p.key in views then order else order + [p.key]) == Dict.InsertionOrder(KeysOf(ps + [p]))
  {
    var p := Planned(ts[i].key, os[i].value);
    Dict.FromSeqSnoc(ps, p, KeyOf, ViewOfPlanned);
    KeysOfSnoc(ps, p);
    Dict.InsertionOrderSnoc(KeysOf(ps), p.key);
    StoredKeys(ps, p.key);
  }

  /** The registry comprehension as a value: every target built, or the first failure. */
  function PlanAll(api: HomePilotApi, ts: seq<Target>, xs: nat -> DeviceExchange): (r: Result<seq<Planned>, Failure>)
    ensures r.Ok? <==> forall i :: 0 <= i < |ts| ==> PlanOne(api, ts[i], xs(i)).Ok?
    ensures r.Ok? ==> |r.value| == |ts|
    ensures r.Ok? ==> forall i :: 0 <= i < |ts| ==> r.value[i] == Planned(ts[i].key, PlanOne(api, ts[i], xs(i)).value)
    ensures r.Err? ==> exists i :: 0 <= i < |ts| && PlanOne(api, ts[i], xs(i)) == Err(r.error)
                                   && forall j :: 0 <= j < i ==> PlanOne(api, ts[j], xs(j)).Ok?
  {
    Collect(ts, Outcomes(api, ts, xs), |ts|)
  }

  /** The keys the filter lets through are exactly the ids of the discovered devices whose type code dispatches. */
  lemma TargetKeys(ids: seq<DidType>, dispatch: Json -> Option<Kind>)
    ensures (set t | t in Targets(ids, dispatch) :: t.key) == set id | id in ids && dispatch(id.typ).Some? :: id.did
  {
    var ts := Targets(ids, dispatch);
    forall id | id in ids && dispatch(id.typ).Some?
      ensures id.did in set t | t in ts :: t.key
    {
      var i :| 0 <= i < |ids| && ids[i] == id;
      assert Target(id.did, dispatch(id.typ).value) in ts;
    }
  }

  /** Built entries that follow the targets one for one carry exactly the targets' keys. */
  lemma KeysFollowTargets(ts: seq<Target>, ps: seq<Planned>)
    requires |ps| == |ts| && forall i :: 0 <= i < |ts| ==> ps[i].key == ts[i].key
    ensures (set p | p in ps :: KeyOf(p)) == set t | t in ts :: t.key
  {
    forall t | t in ts
      ensures t.key in set p | p in ps :: KeyOf(p)
    {
      var i :| 0 <= i < |ts| && ts[i] == t;
      assert KeyOf(ps[i]) == t.key;
    }
    forall p | p in ps
      ensures p.key in set t | t in ts :: t.key
    {
      var i :| 0 <= i < |ps| && ps[i] == p;
      assert ts[i] in ts;
    }
  }

  /** A successful build stores a device under every target's key and under no other key. */
  lemma PlannedKeys(api: HomePilotApi, ts: seq<Target>, xs: nat -> DeviceExchange)
    requires PlanAll(api, ts, xs).Ok?
    ensures Dict.FromSeq(PlanAll(api, ts, xs).value, KeyOf, ViewOfPlanned).Keys == set t | t in ts :: t.key
  {
    KeysFollowTargets(ts, PlanAll(api, ts, xs).value);
  }

  // ---------------------------------------------------------------------------------------------------------
  // The registry object

  /** The dict and its iteration order agree: every key exactly once. */
  ghost predicate Keyed(devices: map<Json, Entry>, order: seq<Json>) {
    (forall k :: k in devices <==> k in order) && Dict.Distinct(order)
  }

  /** Storing under a key keeps the order in step with the dict: a new key goes last. */
  lemma KeyedPut(devices: map<Json, Entry>, order: seq<Json>, key: Json, d: Entry)
    requires Keyed(devices, order)
    ensures Keyed(devices[key := d], if key in devices then order else order + [key])
  {
  }

  /** Every stored device's objects belong to the key it is stored under. */
  ghost predicate Owned(devices: map<Json, Entry>, owner: map<object, Json>) {
    forall k :: k in devices ==>
      Obj(devices[k]) in owner && owner[Obj(devices[k])] == k
  }

  lemma OwnedPut(devices: map<Json, Entry>, owner: map<object, Json>, key: Json, d: Entry)
    requires Owned(devices, owner) && Obj(d) !in owner
    ensures Owned(devices[key := d], owner[Obj(d) := key])
  {
  }

  /** Devices stored under different keys share no object. */
  lemma OwnedDisjoint(devices: map<Json, Entry>, owner: map<object, Json>, k1: Json, k2: Json)
    requires Owned(devices, owner) && k1 in devices && k2 in devices && k1 != k2
    ensures Obj(devices[k1]) != Obj(devices[k2])
  {
  }

  /** Every device of `devices` lives in `objs` and currently looks like its entry in `views`. */
  ghost predicate Coupled(devices: map<Json, Entry>, views: map<Json, View>, objs: set<object>)
    reads objs
  {
    forall k :: k in devices ==> Obj(devices[k]) in objs && k in views && ViewOf(devices[k]) == views[k]
  }

  lemma CoupledPut(devices: map<Json, Entry>, views: map<Json, View>, objs: set<object>, key: Json, d: Entry)
    requires Coupled(devices, views, objs)
    ensures Coupled(devices[key := d], views[key := ViewOf(d)], objs + {Obj(d)})
  {
  }

  /** Setting one device aside: the others live apart from it. */
  lemma CoupledRemove(devices: map<Json, Entry>, views: map<Json, View>, owner: map<object, Json>, key: Json)
    requires Coupled(devices, views, owner.Keys) && Owned(devices, owner) && key in devices
    ensures Coupled(devices - {key}, views, owner.Keys - {Obj(devices[key])})
  {
    forall k | k in devices && k != key
      ensures Obj(devices[k]) in owner.Keys - {Obj(devices[key])}
    {
      OwnedDisjoint(devices, owner, k, key);
    }
  }

  /** Putting the device back with its new look. */
  lemma CoupledRestore(devices: map<Json, Entry>, views: map<Json, View>, objs: set<object>, key: Json, w: View)
    requires key in devices && Obj(devices[key]) in objs
    requires Coupled(devices - {key}, views, objs - {Obj(devices[key])})
    requires ViewOf(devices[key]) == w
    ensures Coupled(devices, views[key := w], objs)
  {
    forall k | k in devices && k != key
      ensures Obj(devices[k]) in objs && ViewOf(devices[k]) == views[k]
    {
      assert k in devices - {key};
    }
  }

  class DeviceRegistry {
    var devices: map<Json, Entry>
    /** The dict's iteration order: keys in the order they were first inserted. */
    var order: seq<Json>
    /** The registry key each object of a stored device belongs to. */
    ghost var owner: map<object, Json>
    /** Every device as a value. */
    ghost var views: map<Json, View>

    ghost predicate Valid()
      reads this, owner.Keys
    {
      && Keyed(devices, order)
      && this !in owner
      && Owned(devices, owner)
      && views.Keys == devices.Keys
      && Coupled(devices, views, owner.Keys)
    }

    constructor ()
      ensures Valid() && devices == map[] && order == [] && owner == map[] && views == map[]
    {
      devices := map[];
      order := [];
      owner := map[];
      views := map[];
    }

    /** The assignments of `devices[key] = d`, with the bookkeeping of the ghost fields. */
    method Store(key: Json, d: Entry, w: View)
      modifies this
      ensures devices == old(devices)[key := d]
      ensures order == if key in old(devices) then old(order) else old(order) + [key]
      ensures owner == old(owner)[Obj(d) := key]
      ensures views == old(views)[key := w]
    {
      if key !in devices {
        order := order + [key];
      }
      devices := devices[key := d];
      owner := owner[Obj(d) := key];
      views := views[key := w];
    }

    /** `devices[key] = d`: a new key goes last in the iteration order, an existing key keeps its place. */
    method Put(key: Json, d: Entry)
      requires Valid()
      requires Obj(d) !in owner && this != Obj(d)
      modifies this
      ensures Valid()
      ensures devices == old(devices)[key := d]
      ensures order == if key in old(devices) then old(order) else old(order) + [key]
      ensures owner.Keys == old(owner.Keys) + {Obj(d)}
      ensures views == old(views)[key := old(ViewOf(d))]
    {
      KeyedPut(devices, order, key, d);
      OwnedPut(devices, owner, key, d);
      CoupledPut(devices, views, owner.Keys, key, d);
      ghost var objs := owner.Keys + {Obj(d)};
      Store(key, d, ViewOf(d));
      assert owner.Keys == objs;
    }

    /** `device.available = False`. */
    static method MarkUnavailable(d: Entry)
      modifies Obj(d)
      ensures ViewOf(d) == old(ViewOf(d)).Unavailable()
    {
      match d
      case CoverDevice(c) =>
        c.available := Some(false);
      case SwitchDevice(w) =>
        w.available := Some(false);
      case SensorDevice(n) =>
        n.available := Some(false);
      case HubDevice(h) =>
        h.available := Some(false);
    }

    /** `device.update_state(slice)`, dispatched on the variant. */
    static method UpdateDevice(d: Entry, slice: Slice, hubUpdate: HubUpdate) returns (ok: bool)
      modifies Obj(d)
      ensures (ViewOf(d), ok) == old(ViewOf(d)).Apply(slice, hubUpdate)
    {
      match d
      case CoverDevice(c) =>
        ok := c.UpdateState(slice);
      case SwitchDevice(w) =>
        ok := w.UpdateState(slice);
      case SensorDevice(n) =>
        ok := n.UpdateState(slice);
      case HubDevice(h) =>
        ok := h.UpdateState(slice, hubUpdate);
    }

    /** The body of the reconcile loop for the entry under `key`. */
    static method Refresh(key: Json, d: Entry, states: map<string, Slice>, hubUpdate: HubUpdate) returns (ok: bool)
      modifies Obj(d)
      ensures (ViewOf(d), ok) == Step(key, old(ViewOf(d)), states, hubUpdate)
    {
      var did := ViewOf(d).Did();
      if did.JStr? && did.s in states {
        if !(key.JStr? && key.s in states) {
          return false;
        }
        ok := UpdateDevice(d, states[key.s], hubUpdate);
      } else {
        MarkUnavailable(d);
        ok := true;
      }
    }

    /** One iteration of the failure-path loop: the entry at position i of the iteration order becomes unavailable. */
    method MarkAt(i: nat)
      requires Valid() && i < |order|
      modifies this, owner.Keys
      ensures Valid() && devices == old(devices) && order == old(order) && owner == old(owner)
      ensures views == old(views)[order[i] := old(views)[order[i]].Unavailable()]
    {
      var key := order[i];
      ghost var vs := views;
      CoupledRemove(devices, views, owner, key);
      MarkUnavailable(devices[key]);
      views := views[key := views[key].Unavailable()];
      CoupledRestore(devices, vs, owner.Keys, key, views[key]);
    }

    /** The failure path of `update_states`: every device becomes unavailable. */
    method MarkAllUnavailable()
      requires Valid()
      modifies this, owner.Keys
      ensures Valid() && devices == old(devices) && order == old(order) && owner == old(owner)
      ensures views == AllUnavailable(old(views))
    {
      ghost var v0 := views;
      var i := 0;
      while i < |order|
        invariant 0 <= i <= |order|
        invariant Valid() && devices == old(devices) && order == old(order) && owner == old(owner)
        invariant MarkFrom(order, 0, v0) == MarkFrom(order, i, views)
      {
        MarkAt(i);
        i := i + 1;
      }
      assert order[..0] == [];
      MarkFromPrefix(order, 0, v0, v0);
    }

    /** One iteration of the reconcile loop: the entry at position i of the iteration order is stepped. */
    method RefreshAt(i: nat, states: map<string, Slice>, hubUpdate: HubUpdate) returns (ok: bool)
      requires Valid() && i < |order|
      modifies this, owner.Keys
      ensures Valid() && devices == old(devices) && order == old(order) && owner == old(owner)
      ensures (views[order[i]], ok) == Step(order[i], old(views)[order[i]], states, hubUpdate)
      ensures views == old(views)[order[i] := views[order[i]]]
    {
      var key := order[i];
      ghost var vs := views;
      CoupledRemove(devices, views, owner, key);
      ok := Refresh(key, devices[key], states, hubUpdate);
      views := views[key := ViewOf(devices[key])];
      CoupledRestore(devices, vs, owner.Keys, key, views[key]);
    }

    /** The success path of `update_states`: the reconcile loop over the snapshot, stopping at the first KeyError. */
    method ApplySnapshot(states: map<string, Slice>, hubUpdate: HubUpdate) returns (failedAt: Option<nat>)
      requires Valid()
      modifies this, owner.Keys
      ensures Valid() && devices == old(devices) && order == old(order) && owner == old(owner)
      ensures (views, failedAt) == Reconcile(order, old(views), states, hubUpdate)
    {
      ghost var v0 := views;
      var i := 0;
      while i < |order|
        invariant 0 <= i <= |order|
        invariant Valid() && devices == old(devices) && order == old(order) && owner == old(owner)
        invariant Reconcile(order, v0, states, hubUpdate) == ReconcileFrom(order, i, views, states, hubUpdate)
      {
        ReconcileFromStep(order, i, views, states, hubUpdate);
        var ok := RefreshAt(i, states, hubUpdate);
        if !ok {
          return Some(i);
        }
        i := i + 1;
      }
      failedAt := None;
    }

    /** Construct one device for a target: `build_device`. */
    static method BuildOne(api: HomePilotApi, t: Target, x: DeviceExchange) returns (r: Result<Entry, Failure>)
      modifies api
      ensures r.Ok? ==> fresh(Obj(r.value)) && PlanOne(api, t, x) == Ok(ViewOf(r.value))
      ensures r.Err? ==> PlanOne(api, t, x) == Err(r.error)
    {
      match t.kind {
        case HubKind =>
          if x.hubBuilt.Err? {
            return Err(x.hubBuilt.error);
          }
          var h := new HubPseudoDevice(t.key, x.hubBuilt.value);
          r := Ok(HubDevice(h));
        case SwitchKind =>
          var w :- Switch.HomePilotSwitch.BuildFromApi(api, t.key, x.ex, x.reply);
          ghost var v := SwitchView(w.Config(), w.State());
          assert ViewOf(SwitchDevice(w)) == v;
          r := Ok(SwitchDevice(w));
        case CoverKind =>
          var c :- Cover.HomePilotCover.BuildFromApi(api, t.key, x.ex, x.reply);
          ghost var v := CoverView(c.Config(), c.State());
          assert ViewOf(CoverDevice(c)) == v;
          r := Ok(CoverDevice(c));
        case SensorKind =>
          var n :- Sensor.HomePilotSensor.BuildFromApi(api, t.key, x.ex, x.reply);
          ghost var v := SensorView(n.Config(), n.State());
          assert ViewOf(SensorDevice(n)) == v;
          r := Ok(SensorDevice(n));
      }
    }

    /** `devices[t.key] = build_device(t)`: build one target and store it; a failure leaves the registry unused. */
    method Add(api: HomePilotApi, t: Target, x: DeviceExchange) returns (r: Outcome<Failure>)
      requires Valid() && api !in owner
      modifies this, api
      ensures r.Fail? ==> PlanOne(api, t, x) == Err(r.error)
      ensures r.Pass? ==> && PlanOne(api, t, x).Ok? && Valid()
                          && api !in owner
                          && views == old(views)[t.key := PlanOne(api, t, x).value]
                          && order == if t.key in old(devices) then old(order) else old(order) + [t.key]
    {
      var d := BuildOne(api, t, x);
      if d.Err? {
        return Fail(d.error);
      }
      Put(t.key, d.value);
      r := Pass;
    }

    /** One round of the comprehension: build target i and store it, or abort the whole build with its error. */
    method AddNext(api: HomePilotApi, targets: seq<Target>, xs: nat -> DeviceExchange, i: nat,
                   ghost os: seq<Result<View, Failure>>, ghost ps: seq<Planned>) returns (r: Outcome<Failure>)
      requires i < |targets| == |os| && os[i] == PlanOne(api, targets[i], xs(i))
      requires Valid() && api !in owner && Collect(targets, os, i) == Ok(ps)
      requires views == Dict.FromSeq(ps, KeyOf, ViewOfPlanned) && order == Dict.InsertionOrder(KeysOf(ps))
      modifies this, api
      ensures r.Fail? ==> Collect(targets, os, |targets|) == Err(r.error)
      ensures r.Pass? ==> os[i].Ok?
      ensures r.Pass? ==> var ps' := ps + [Planned(targets[i].key, os[i].value)];
        && Collect(targets, os, i + 1) == Ok(ps') && Valid() && api !in owner
        && views == Dict.FromSeq(ps', KeyOf, ViewOfPlanned) && order == Dict.InsertionOrder(KeysOf(ps'))
    {
      ghost var vs, ord := views, order;
      r := Add(api, targets[i], xs(i));
      if r.Fail? {
        CollectFirstFailure(targets, os, i, |targets|);
        return;
      }
      BuildStep(targets, os, i, ps, vs, ord);
    }

    /**
     * The registry comprehension, run on an empty registry: build every target in order and store it under
     * its key, a later device replacing an earlier one with the same key; the first failure aborts the build.
     */
    method Build(api: HomePilotApi, targets: seq<Target>, xs: nat -> DeviceExchange) returns (r: Outcome<Failure>)
      requires Valid() && views == map[] && order == [] && api !in owner
      modifies this, api
      ensures var plan := PlanAll(api, targets, xs);
        && (r.Fail? <==> plan.Err?)
        && (r.Fail? ==> r.error == plan.error)
        && (r.Pass? ==> && Valid() && api !in owner
                        && views == Dict.FromSeq(plan.value, KeyOf, ViewOfPlanned)
                        && order == Dict.InsertionOrder(KeysOf(plan.value)))
    {
      ghost var os := Outcomes(api, targets, xs);
      assert PlanAll(api, targets, xs) == Collect(targets, os, |targets|);
      ghost var ps: seq<Planned> := [];
      var i := 0;
      while i < |targets|
        invariant 0 <= i <= |targets|
        invariant Collect(targets, os, i) == Ok(ps)
        invariant Valid() && api !in owner
        invariant views == Dict.FromSeq(ps, KeyOf, ViewOfPlanned)
        invariant order == Dict.InsertionOrder(KeysOf(ps))
      {
        r := AddNext(api, targets, xs, i, os, ps);
        if r.Fail? {
          assert Collect(targets, os, |targets|) == Err(r.error);
          return;
        }
        ps := ps + [Planned(targets[i].key, os[i].value)];
        i := i + 1;
      }
      r := Pass;
    }
  }
}
