/** The UUV edge runtime (UUVEdge.cpp): it owns one task queue and one
    device per configured device id, a normaliser per device type, and the
    E-Stop flag every device's worker watches. Init builds these tables,
    Start starts every device, Submit routes a raw command to a queue,
    GetStatusSnapshot aggregates the devices, SetEStop raises or clears the
    flag, and Shutdown tears everything down in a fixed order. */
module Edges {
  import opened Wrappers
  import opened Json
  import opened JsonUtil
  import opened RawCommands
  import opened Tasks
  import opened Ids
  import opened TaskQueues
  import opened Workflows
  import opened EdgeRules
  import Devices
  import MyDevice
  import MyControl
  import Status
  import StatusCells

  /** Every cached normaliser is the UUV one, under a UUV type string. */
  predicate NormalizersAreUuv(normalizers: map<string, MyControl.NormalizerKind>)
  {
    forall t :: t in normalizers ==> MyControl.IsUuvType(t) && normalizers[t] == MyControl.UuvNormalizer
  }

  /** A device started by the edge: its worker runs, bound to the given
      queue and E-Stop flag, reporting into the device's status cell. */
  ghost predicate Started(d: Devices.Device, q: TaskQueue, flag: EStopFlag)
    reads d, d.workflow
  {
    && d.workflow != null
    && d.workflow.running && !d.workflow.stop
    && d.workflow.queue == q && d.workflow.estop == flag
    && d.workflow.onStart == d.cell && d.workflow.onFinish == d.cell
  }

  class UuvEdge {
    var edgeId: string
    var version: string
    var bootAtMs: Int64
    var runState: RunState
    const estop: EStopFlag
    var estopReason: string
    var allowQueueWhenEStop: bool
    var deviceTypeById: map<string, string>
    var normalizers: map<string, MyControl.NormalizerKind>
    var queues: map<string, TaskQueue>
    var devices: map<string, Devices.Device>

    /** The tables keep their shape, and once Init has succeeded every
        typed id has its device and its type's normaliser. */
    ghost predicate Valid()
      reads this
    {
      Sound(Tables()) && (runState == Ready || runState == Running ==> Covered(Tables()))
    }

    /** What Submit reads of the edge. */
    function View(): EdgeView
      reads this, estop, queues.Values
    {
      EdgeView(edgeId, runState, estop.active, estopReason, allowQueueWhenEStop,
               deviceTypeById, normalizers, queues.Keys, set id | id in queues && queues[id].shutdown)
    }

    constructor ()
      ensures Valid()
      ensures edgeId == "edge-unknown" && version == Status.DefaultVersion && bootAtMs == 0
      ensures runState == Initializing && !estop.active && estopReason == "" && !allowQueueWhenEStop
      ensures deviceTypeById == map[] && normalizers == map[] && queues == map[] && devices == map[]
    {
      edgeId := "edge-unknown";
      version := Status.DefaultVersion;
      bootAtMs := 0;
      runState := Initializing;
      estop := new EStopFlag(false);
      estopReason := "";
      allowQueueWhenEStop := false;
      deviceTypeById := map[];
      normalizers := map[];
      queues := map[];
      devices := map[];
    }

    /** Init: read the header (edge id, version, E-Stop queueing policy;
        a value of the wrong type throws, leaving the run state as it
        was), stamp the boot time, clear the tables, then configure the
        `devices` array item by item. The first failing item ends Init in
        Initializing (a throwing item leaves the run state as it was)
        without undoing the items before it; when every item succeeds the
        edge is Ready. */
    method Init(cfg: Json, nowMs: Int64) returns (r: InitOutcome)
      requires Valid()
      modifies this
      ensures Valid() && (!r.InitThrew? ==> Filed(devices))
      ensures r == InitResult(cfg, old(edgeId), old(version))
      ensures r == InitOk ==> runState == Ready
      ensures r.InitFailed? ==> runState == Initializing
      ensures r.InitThrew? ==> runState == old(runState)
      ensures estopReason == old(estopReason)
      ensures var h := ReadHeader(cfg, old(edgeId), old(version));
              && edgeId == h.edgeId && version == h.version
              && (h.error.Some? ==>
                    && bootAtMs == old(bootAtMs) && allowQueueWhenEStop == old(allowQueueWhenEStop)
                    && Tables() == old(Tables()))
              && (h.error.None? ==> bootAtMs == nowMs && allowQueueWhenEStop == h.allowQueueWhenEStop)
              && (h.error.None? && DeviceItems(cfg).None? ==> Tables() == NoTables)
      ensures ReadHeader(cfg, old(edgeId), old(version)).error.None? && DeviceItems(cfg).Some? ==>
                Built(Tables(), DeviceItems(cfg).value)
      ensures r == InitOk ==>
                var items := DeviceItems(cfg).value;
                && deviceTypeById == Configured(items) && normalizers.Keys == ConfiguredTypes(items)
                && queues.Keys == devices.Keys == deviceTypeById.Keys
    {
      var h := ReadHeader(cfg, edgeId, version);
      if h.error.Some? {
        SetIdentity(h.edgeId, h.version);
        return InitThrew(h.error.value);
      }
      var itemsOpt := DeviceItems(cfg);
      var t := NoTables;
      r := InitFailed(DevicesRequiredError);
      if itemsOpt.Some? {
        r, t := AddDevices(itemsOpt.value, nowMs);
      }
      Install(h, nowMs, t, AfterInit(r, runState));
    }

    /** The last step of an Init whose header was read: the header's
        values, the boot time, the rebuilt tables and the run state. */
    method Install(h: Header, nowMs: Int64, t: EdgeTables, rs: RunState)
      requires Sound(t) && Filed(t.devices) && (rs == Ready || rs == Running ==> Covered(t))
      modifies this
      ensures Valid() && Filed(devices) && Tables() == t && runState == rs
      ensures edgeId == h.edgeId && version == h.version
      ensures allowQueueWhenEStop == h.allowQueueWhenEStop && bootAtMs == nowMs
      ensures estopReason == old(estopReason)
    {
      SetHeader(h, nowMs);
      SetTables(t, rs);
    }

    /** The part of the header read before a throw: the edge id and the
        version. */
    method SetIdentity(id: string, v: string)
      modifies this
      ensures edgeId == id && version == v
      ensures Tables() == old(Tables()) && runState == old(runState) && estopReason == old(estopReason)
      ensures bootAtMs == old(bootAtMs) && allowQueueWhenEStop == old(allowQueueWhenEStop)
    {
      edgeId, version := id, v;
    }

    /** Install's first half: the header's values and the boot time. */
    method SetHeader(h: Header, nowMs: Int64)
      modifies this
      ensures edgeId == h.edgeId && version == h.version
      ensures allowQueueWhenEStop == h.allowQueueWhenEStop && bootAtMs == nowMs
      ensures Tables() == old(Tables()) && runState == old(runState) && estopReason == old(estopReason)
    {
      edgeId, version, allowQueueWhenEStop, bootAtMs := h.edgeId, h.version, h.allowQueueWhenEStop, nowMs;
    }

    /** Replaces the four tables and sets the run state: Install's second
        half, and Shutdown's last step, which clears the tables. */
    method SetTables(t: EdgeTables, rs: RunState)
      requires Sound(t) && Filed(t.devices) && (rs == Ready || rs == Running ==> Covered(t))
      modifies this
      ensures Valid() && Filed(devices) && Tables() == t && runState == rs
      ensures edgeId == old(edgeId) && version == old(version) && allowQueueWhenEStop == old(allowQueueWhenEStop)
      ensures bootAtMs == old(bootAtMs) && estopReason == old(estopReason)
    {
      deviceTypeById, normalizers, queues, devices, runState := t.deviceTypeById, t.normalizers, t.queues, t.devices, rs;
      assert Tables() == t;
    }

    /** Start: only a Ready edge starts. Every device is started on its
        own queue with the edge's E-Stop flag; a device without a queue or
        one that refuses to start sends the edge back to Ready, leaving the
        devices already started running. When all have started the edge
        is Running. (Init never leaves a device without a queue, so on a
        valid edge only a device without a control fails.) */
    method Start() returns (ok: bool, err: string)
      requires Valid()
      modifies this, devices.Values
      ensures Valid()
      ensures Tables() == old(Tables()) && estopReason == old(estopReason)
      ensures edgeId == old(edgeId) && version == old(version) && bootAtMs == old(bootAtMs)
      ensures allowQueueWhenEStop == old(allowQueueWhenEStop)
      ensures old(runState) != Ready ==>
                && !ok && runState == old(runState)
                && err == "Start rejected: run_state=" + RunStateName(old(runState))
                && forall id :: id in devices ==> unchanged(devices[id])
      ensures old(runState) == Ready ==> (ok <==> Controlled(devices)) && runState == if ok then Running else Ready
      ensures old(runState) == Ready && !ok ==>
                exists id :: id in devices && devices[id].control == null && err == StartFailure(id, Devices.NoControlError)
      ensures ok ==> err == "" && forall id :: id in devices ==> Started(devices[id], queues[id], estop)
      ensures forall id :: id in devices ==> devices[id].control == old(devices[id].control)
    {
      if runState != Ready {
        return false, "Start rejected: run_state=" + RunStateName(runState);
      }
      ok, err := StartDevices(devices, queues, estop);
      SetRunState(if ok then Running else Ready);
    }

    /** Moves the edge to another run state, keeping everything else. */
    method SetRunState(rs: RunState)
      requires Valid() && (rs == Ready || rs == Running ==> Covered(Tables()))
      modifies this
      ensures Valid() && runState == rs && Tables() == old(Tables())
      ensures edgeId == old(edgeId) && version == old(version) && bootAtMs == old(bootAtMs)
      ensures allowQueueWhenEStop == old(allowQueueWhenEStop) && estopReason == old(estopReason)
    {
      runState := rs;
      assert Tables() == old(Tables());
    }

    /** Submit: decide on the raw command against the edge as it stands
        (run state, E-Stop policy, payload, device, normaliser, queue);
        a rejection changes nothing, an acceptance appends the normalised
        task to the device's queue and reports the queue's new size. */
    method Submit(cmd: RawCommand, clock: IdClock) returns (r: SubmitResult)
      modifies queues.Values
      ensures var d := Decide(old(View()), cmd, clock);
              && (d.Reject? ==>
                    && r == d.result
                    && forall id :: id in queues ==> queues[id].State() == old(queues[id].State()))
              && (d.Accept? ==>
                    && d.deviceId in queues
                    && var q := queues[d.deviceId];
                    && q.items == old(q.items) + [d.task] && !q.shutdown
                    && r == MakeResult(edgeId, Ok, "queued", cmd, d.deviceId, d.task.taskId, Wrap64(|q.items|))
                    && forall id :: id in queues && queues[id] != q ==> queues[id].State() == old(queues[id].State()))
    {
      var d := Decide(View(), cmd, clock);
      if d.Reject? {
        return d.result;
      }
      var q := queues[d.deviceId];
      q.Push(d.task);
      var size := q.Size();
      return MakeResult(edgeId, Ok, "queued", cmd, d.deviceId, d.task.taskId, Wrap64(size));
    }

    /** SetEStop: raise or clear the flag every device's worker watches,
        with the reason a rejected submission reports. */
    method SetEStop(active: bool, reason: string)
      modifies this, estop
      ensures estop.active == active && estopReason == reason
      ensures Tables() == old(Tables()) && runState == old(runState) && edgeId == old(edgeId)
      ensures version == old(version) && bootAtMs == old(bootAtMs) && allowQueueWhenEStop == old(allowQueueWhenEStop)
    {
      estop.Set(active);
      estopReason := reason;
    }

    /** GetStatusSnapshot: the status `Snapshot` describes, gathered in one
        pass over the devices. */
    method GetStatusSnapshot() returns (s: Status.EdgeStatus)
      ensures s == Snapshot()
    {
      var entries, pending, running := SnapshotDevices(devices, queues);
      s := Status.EdgeStatus(edgeId, ExternalRunState(runState, estop.active), bootAtMs, 0,
                             estop.active, estopReason, entries, Wrap64(pending), Wrap64(running), version);
    }

    /** Shutdown: a no-op once the edge is stopping or stopped. Otherwise
        the edge is Stopping while it stops every device, shuts every
        queue down and joins every device, in that order; then it forgets
        its tables and is Stopped. */
    method Shutdown(nowMs: Int64)
      requires Valid()
      modifies this, CellsOf(devices), Workers(devices), queues.Values
      ensures Valid()
      ensures edgeId == old(edgeId) && version == old(version) && bootAtMs == old(bootAtMs)
      ensures estopReason == old(estopReason) && allowQueueWhenEStop == old(allowQueueWhenEStop)
      ensures old(runState) == Stopping || old(runState) == Stopped ==>
                && runState == old(runState) && Tables() == old(Tables())
                && unchanged(CellsOf(devices)) && unchanged(Workers(devices)) && unchanged(queues.Values)
      ensures old(runState) != Stopping && old(runState) != Stopped ==>
                && runState == Stopped && Tables() == NoTables
                && (forall id :: id in old(queues) ==> old(queues)[id].shutdown)
                && (forall id :: id in old(devices) ==>
                      && old(devices)[id].cell.status.lastSeenAtMs == nowMs
                      && Halted(old(devices)[id]))
    {
      if runState == Stopped || runState == Stopping {
        return;
      }
      runState := Stopping;
      HaltAll(devices, queues, nowMs);
      SetTables(NoTables, Stopped);
    }

    /** The edge's status as a snapshot reports it: its identity, boot time
        and version, its run state as seen outside, the E-Stop flag and
        reason, one entry per device, the 64-bit wrapped sum of the queue
        depths and the number of Busy devices. */
    ghost function Snapshot(): Status.EdgeStatus
      reads this, estop, CellsOf(devices), queues.Values
    {
      Status.EdgeStatus(edgeId, ExternalRunState(runState, estop.active), bootAtMs, 0,
        estop.active, estopReason, Entries(devices, queues, devices.Keys),
        Wrap64(Total(Depths(devices, queues, devices.Keys))), Wrap64(|BusyIds(devices, devices.Keys)|), version)
    }

    /** The edge's four tables, as one value. */
    function Tables(): EdgeTables
      reads this
    {
      EdgeTables(deviceTypeById, normalizers, queues, devices)
    }
  }

  /** The four tables Init fills: device type by id, normaliser by type,
      queue by id, device by id. */
  datatype EdgeTables = EdgeTables(
    deviceTypeById: map<string, string>,
    normalizers: map<string, MyControl.NormalizerKind>,
    queues: map<string, TaskQueue>,
    devices: map<string, Devices.Device>)

  /** The run state Init leaves: Ready on success, Initializing on a
      refused item, unchanged when an item throws. */
  function AfterInit(r: InitOutcome, before: RunState): (after: RunState)
  {
    match r
    case InitOk => Ready
    case InitFailed(_) => Initializing
    case InitThrew(_) => before
  }

  const NoTables := EdgeTables(map[], map[], map[], map[])

  /** The tables' shape: a device only where there is a queue, a queue
      only for a typed id, only UUV normalisers. */
  ghost predicate Sound(t: EdgeTables)
  {
    && t.devices.Keys <= t.queues.Keys <= t.deviceTypeById.Keys
    && NormalizersAreUuv(t.normalizers)
    && Injective(t.devices)
  }

  /** No device object is filed under two ids. */
  ghost predicate Injective(devices: map<string, Devices.Device>)
  {
    forall a, b :: a in devices && b in devices && a != b ==> devices[a] != devices[b]
  }

  /** Every device has a control, so that its Start succeeds. */
  ghost predicate Controlled(devices: map<string, Devices.Device>)
    reads devices.Values
  {
    forall id :: id in devices ==> devices[id].control != null
  }

  /** Every device is an initialised UUV device filed under its own id. */
  ghost predicate Filed(devices: map<string, Devices.Device>)
    reads devices.Values
  {
    forall id :: id in devices ==>
      && devices[id].deviceId == id
      && devices[id].control != null && devices[id].kind == Devices.UuvDevice
  }

  /** Every typed id has its device and its type's normaliser. */
  ghost predicate Covered(t: EdgeTables)
  {
    && t.devices.Keys == t.deviceTypeById.Keys
    && forall id :: id in t.deviceTypeById ==> t.deviceTypeById[id] in t.normalizers
  }

  /** What the item loop leaves: a device for each item before the first
      failure, under its own id; the failing item's type may be recorded. */
  ghost predicate Built(t: EdgeTables, items: seq<Json>)
  {
    var done := Configured(items[..FirstFailure(items)]);
    t.devices.Keys == done.Keys && done.Keys <= t.deviceTypeById.Keys
  }

  /** The tables after an accepted item: its type, its type's normaliser,
      its queue and its device, a UUV device with a control, no worker yet
      and the item's id, are recorded; nothing else changes. */
  ghost predicate Recorded(t: EdgeTables, u: EdgeTables, id: string, typeName: string)
    reads u.devices.Values
  {
    && u.deviceTypeById == t.deviceTypeById[id := typeName]
    && u.normalizers == t.normalizers[typeName := MyControl.UuvNormalizer]
    && id in u.queues && u.queues == t.queues[id := u.queues[id]]
    && id in u.devices && u.devices == t.devices[id := u.devices[id]]
    && u.devices[id].kind == Devices.UuvDevice && u.devices[id].control != null
    && u.devices[id].workflow == null && u.devices[id].deviceId == id
  }

  /** The tables after a refused item: no device is added, while its type
      and its queue may have been. */
  ghost predicate Refused(t: EdgeTables, u: EdgeTables)
  {
    && u.devices == t.devices
    && t.deviceTypeById.Keys <= u.deviceTypeById.Keys
    && t.queues.Keys <= u.queues.Keys && u.queues.Keys - t.queues.Keys <= u.deviceTypeById.Keys
  }

  /** An item refused after its type was recorded, and perhaps its queue
      created, leaves the tables refused-shaped. */
  lemma TypedRefused(t: EdgeTables, u: EdgeTables, id: string, typeName: string)
    requires u.devices == t.devices && u.deviceTypeById == t.deviceTypeById[id := typeName]
    requires u.queues == t.queues || (id in u.queues && u.queues == t.queues[id := u.queues[id]])
    ensures Refused(t, u)
  {
  }

  /** An accepted item keeps the tables sound and covered. */
  lemma RecordKeepsShape(t: EdgeTables, u: EdgeTables, id: string, typeName: string)
    requires Sound(t) && Covered(t) && Filed(t.devices) && t.queues.Keys == t.devices.Keys
    requires NormalizersAreUuv(u.normalizers) && Recorded(t, u, id, typeName)
    ensures Sound(u) && Covered(u) && Filed(u.devices) && u.queues.Keys == u.devices.Keys
    ensures u.normalizers.Keys == t.normalizers.Keys + {typeName}
  {
    RecordKeepsFiled(t, u, id, typeName);
    FiledInjective(u.devices);
    RecordKeepsKeys(t, u, id, typeName);
  }

  /** The device an accepted item adds is filed under its own id. */
  lemma RecordKeepsFiled(t: EdgeTables, u: EdgeTables, id: string, typeName: string)
    requires Filed(t.devices) && Recorded(t, u, id, typeName)
    ensures Filed(u.devices)
  {
  }

  /** An accepted item adds its id to the type, queue and device tables
      and its type to the normalisers. */
  lemma RecordKeepsKeys(t: EdgeTables, u: EdgeTables, id: string, typeName: string)
    requires t.devices.Keys == t.queues.Keys == t.deviceTypeById.Keys
    requires forall i :: i in t.deviceTypeById ==> t.deviceTypeById[i] in t.normalizers
    requires Recorded(t, u, id, typeName)
    ensures u.devices.Keys == u.queues.Keys == u.deviceTypeById.Keys
    ensures forall i :: i in u.deviceTypeById ==> u.deviceTypeById[i] in u.normalizers
    ensures u.normalizers.Keys == t.normalizers.Keys + {typeName}
  {
  }

  /** Devices filed under their own ids are filed once each. */
  lemma FiledInjective(devices: map<string, Devices.Device>)
    requires Filed(devices)
    ensures Injective(devices)
  {
  }

  /** A refused item keeps the tables sound. */
  lemma RefuseKeepsShape(t: EdgeTables, u: EdgeTables)
    requires Sound(t) && NormalizersAreUuv(u.normalizers) && Refused(t, u)
    ensures Sound(u)
  {
  }

  /** The item loop of Init, over the tables Init has just cleared. A
      throwing item leaves the tables as the items before it made them. */
  method AddDevices(items: seq<Json>, nowMs: Int64) returns (r: InitOutcome, t: EdgeTables)
    ensures var k := FirstFailure(items);
            r == if k == |items| then InitOk else ItemOutcome(CheckItem(items[k]))
    ensures Sound(t) && Filed(t.devices) && Built(t, items)
    ensures !r.InitFailed? ==> Covered(t)
    ensures r == InitOk ==>
              && t.deviceTypeById == Configured(items) && t.normalizers.Keys == ConfiguredTypes(items)
              && t.queues.Keys == t.devices.Keys == t.deviceTypeById.Keys
  {
    t := NoTables;
    var i := 0;
    while i < |items|
      invariant 0 <= i <= |items|
      invariant i <= FirstFailure(items)
      invariant t.deviceTypeById == Configured(items[..i]) && t.normalizers.Keys == ConfiguredTypes(items[..i])
      invariant Sound(t) && Covered(t) && Filed(t.devices)
      invariant t.queues.Keys == t.devices.Keys
    {
      var c, u := AddDevice(items[i], nowMs, t);
      FirstFailureStep(items, i);
      if !c.ItemOk? {
        if c.ItemRejected? {
          RefuseKeepsShape(t, u);
        }
        return ItemOutcome(c), u;
      }
      ConfiguredStep(items, i, c.deviceId, c.typeName);
      RecordKeepsShape(t, u, c.deviceId, c.typeName);
      t := u;
      i := i + 1;
    }
    assert items[..i] == items;
    return InitOk, t;
  }

  /** `EnsureNormalizerForTypeLocked`: a cached normaliser is reused,
      otherwise the factory is asked and a refusal fails. */
  method EnsureNormalizer(typeName: string, normalizers: map<string, MyControl.NormalizerKind>)
    returns (ok: bool, next: map<string, MyControl.NormalizerKind>)
    requires NormalizersAreUuv(normalizers)
    ensures ok <==> MyControl.IsUuvType(typeName)
    ensures next == if ok then normalizers[typeName := MyControl.UuvNormalizer] else normalizers
  {
    if typeName in normalizers {
      return true, normalizers;
    }
    var n := MyControl.CreateNormalizer(typeName);
    if n.None? {
      return false, normalizers;
    }
    return true, normalizers[typeName := n.value];
  }

  /** One `devices` item of Init: read id and type; a value of the wrong
      type throws and an empty one refuses the item. */
  method AddDevice(dcfg: Json, nowMs: Int64, t: EdgeTables) returns (c: ItemCheck, u: EdgeTables)
    requires NormalizersAreUuv(t.normalizers)
    ensures c == CheckItem(dcfg)
    ensures NormalizersAreUuv(u.normalizers)
    ensures c.ItemThrew? ==> u == t
    ensures c.ItemRejected? ==> Refused(t, u)
    ensures c.ItemOk? ==> Recorded(t, u, c.deviceId, c.typeName) && fresh(u.devices[c.deviceId])
  {
    var idR := ValueString(dcfg, "device_id", "");
    if idR.Failure? {
      return ItemThrew(idR.error), t;
    }
    var typeR := ValueString(dcfg, "type", "");
    if typeR.Failure? {
      return ItemThrew(typeR.error), t;
    }
    var id, typeName := idR.value, typeR.value;
    if id == "" || typeName == "" {
      return ItemRejected(MissingIdOrTypeError), t;
    }
    c, u := RecordItem(dcfg, id, typeName, nowMs, t);
  }

  /** The rest of one item, once its id and type are read: record the
      type, make sure of the normaliser, create the queue, create and
      initialise the device, and record it. Each step's failure ends the
      item, keeping what the earlier steps recorded. */
  method RecordItem(dcfg: Json, id: string, typeName: string, nowMs: Int64, t: EdgeTables)
    returns (c: ItemCheck, u: EdgeTables)
    requires ValueString(dcfg, "device_id", "") == Success(id) && ValueString(dcfg, "type", "") == Success(typeName)
    requires id != "" && typeName != ""
    requires NormalizersAreUuv(t.normalizers)
    ensures c == CheckItem(dcfg)
    ensures NormalizersAreUuv(u.normalizers)
    ensures c.ItemRejected? ==> Refused(t, u)
    ensures c.ItemOk? ==> Recorded(t, u, c.deviceId, c.typeName) && fresh(u.devices[c.deviceId])
  {
    u := t.(deviceTypeById := t.deviceTypeById[id := typeName]);
    var ok, normalizers := EnsureNormalizer(typeName, u.normalizers);
    if !ok {
      TypedRefused(t, u, id, typeName);
      return ItemRejected("CreateNormalizer failed for type=" + typeName), u;
    }
    u := u.(normalizers := normalizers);
    var q, d;
    c, q, d := AttachDevice(dcfg, id, typeName, nowMs);
    u := u.(queues := u.queues[id := q]);
    if c.ItemOk? {
      u := u.(devices := u.devices[id := d]);
    } else {
      TypedRefused(t, u, id, typeName);
    }
  }

  /** The queue and device steps of one Init item, once its id, type and
      normaliser are settled: the queue is always created, the device is
      kept only when it initialises. */
  method AttachDevice(dcfg: Json, id: string, typeName: string, nowMs: Int64)
    returns (c: ItemCheck, q: TaskQueue, d: Devices.Device?)
    requires ValueString(dcfg, "device_id", "") == Success(id) && id != ""
    ensures c == (if !MyDevice.Accepts(typeName) then ItemRejected("CreateDevice failed for type=" + typeName)
                  else match DeviceInitError(dcfg)
                    case Some(err) => ItemRejected("device.Init failed: " + err)
                    case None => ItemOk(id, typeName))
    ensures fresh(q) && q.State() == Fresh && q.name == "queue-" + id
    ensures c.ItemOk? ==>
              && d != null && fresh(d) && d.kind == Devices.UuvDevice
              && d.control != null && d.workflow == null && d.deviceId == id
  {
    q := new TaskQueue("queue-" + id);
    d := MyDevice.Create(typeName, nowMs);
    if d == null {
      return ItemRejected("CreateDevice failed for type=" + typeName), q, d;
    }
    var devOk, devErr := d.Init(dcfg, nowMs);
    Devices.ReadIdentityEffect(dcfg, MyDevice.UuvDefaultId, MyDevice.UuvDefaultName);
    assert devOk <==> DeviceInitError(dcfg).None?;
    if !devOk {
      assert DeviceInitError(dcfg) == Some(devErr);
      return ItemRejected("device.Init failed: " + devErr), q, d;
    }
    return ItemOk(id, typeName), q, d;
  }

  /** The error Start reports for a device that failed to start. */
  function StartFailure(id: string, devErr: string): string
  {
    "device.Start failed: device_id=" + id + ", err=" + devErr
  }

  /** The loop of Start: each device in turn is started on its own queue
      with the given E-Stop flag; the first failure ends the loop, leaving
      the devices started before it running. A device fails to start
      exactly when it has no control. */
  method StartDevices(devices: map<string, Devices.Device>, queues: map<string, TaskQueue>, flag: EStopFlag)
    returns (ok: bool, err: string)
    requires Injective(devices) && devices.Keys <= queues.Keys
    modifies devices.Values
    ensures ok <==> Controlled(devices)
    ensures ok ==> err == "" && forall id :: id in devices ==> Started(devices[id], queues[id], flag)
    ensures !ok ==>
              exists id :: id in devices && devices[id].control == null && err == StartFailure(id, Devices.NoControlError)
    ensures forall id :: id in devices ==> devices[id].control == old(devices[id].control)
  {
    var remaining := devices.Keys;
    while remaining != {}
      invariant remaining <= devices.Keys
      invariant forall id :: id in devices && id !in remaining ==>
                  Started(devices[id], queues[id], flag) && devices[id].control != null
      invariant forall id :: id in devices ==> devices[id].control == old(devices[id].control)
      decreases remaining
    {
      var id :| id in remaining;
      if id !in queues {
        return false, "queue missing for device_id=" + id;
      }
      var d := devices[id];
      var devOk, devErr := d.Start(queues[id], flag);
      if !devOk {
        ok, err := false, StartFailure(id, devErr);
        assert devices[id].control == null && err == StartFailure(id, Devices.NoControlError);
        return;
      }
      remaining := remaining - {id};
    }
    return true, "";
  }

  // ----------------------------------------------------------- Snapshot

  /** The depth a snapshot reports for a device's queue: the queue's size
      as a 64-bit integer, or nothing when the device has no queue. */
  function Depth(queues: map<string, TaskQueue>, id: string): int
    reads queues.Values
  {
    if id in queues then Wrap64(|queues[id].items|) else 0
  }

  /** One device's entry in an edge snapshot: the device's own status,
      with the depth of its queue when it has one. */
  function Entry(devices: map<string, Devices.Device>, queues: map<string, TaskQueue>, id: string): Status.DeviceStatus
    requires id in devices
    reads CellsOf(devices), queues.Values
  {
    var ds := devices[id].cell.status;
    if id in queues then ds.(queueDepth := Depth(queues, id)) else ds
  }

  /** The entries of the given devices. */
  ghost function Entries(devices: map<string, Devices.Device>, queues: map<string, TaskQueue>, ids: set<string>): map<string, Status.DeviceStatus>
    reads CellsOf(devices), queues.Values
  {
    map id | id in ids && id in devices :: Entry(devices, queues, id)
  }

  /** The queue depths a snapshot adds up, for the given devices. */
  ghost function Depths(devices: map<string, Devices.Device>, queues: map<string, TaskQueue>, ids: set<string>): map<string, int>
    reads queues.Values
  {
    map id | id in ids && id in devices && id in queues :: Depth(queues, id)
  }

  /** The given devices whose status says Busy. */
  ghost function BusyIds(devices: map<string, Devices.Device>, ids: set<string>): set<string>
    reads CellsOf(devices)
  {
    set id | id in ids && id in devices && devices[id].cell.status.workState == Status.Busy
  }

  /** Adding one device to those already counted adds its queue depth,
      when it has a queue, to the pending total. */
  lemma DepthsStep(devices: map<string, Devices.Device>, queues: map<string, TaskQueue>, done: set<string>, id: string)
    requires id in devices && id !in done
    ensures Total(Depths(devices, queues, done + {id})) == Total(Depths(devices, queues, done)) + Depth(queues, id)
  {
    var m := Depths(devices, queues, done + {id});
    if id in queues {
      TotalRemove(m, id);
      assert m - {id} == Depths(devices, queues, done);
    } else {
      assert m == Depths(devices, queues, done);
    }
  }

  /** Adding one device to those already listed adds its entry. */
  lemma EntriesStep(devices: map<string, Devices.Device>, queues: map<string, TaskQueue>, done: set<string>, id: string)
    requires id in devices
    ensures Entries(devices, queues, done + {id}) == Entries(devices, queues, done)[id := Entry(devices, queues, id)]
  { }

  /** Adding one device to those already counted adds one to the Busy
      count exactly when its status says Busy. */
  lemma BusyStep(devices: map<string, Devices.Device>, done: set<string>, id: string)
    requires id in devices && id !in done
    ensures |BusyIds(devices, done + {id})| ==
              |BusyIds(devices, done)| + if devices[id].cell.status.workState == Status.Busy then 1 else 0
  {
    if devices[id].cell.status.workState == Status.Busy {
      assert BusyIds(devices, done + {id}) == BusyIds(devices, done) + {id};
    } else {
      assert BusyIds(devices, done + {id}) == BusyIds(devices, done);
    }
  }

  /** Moving one id from the ids still to visit to those visited keeps
      the two apart and their union whole. */
  lemma MoveOne(done: set<string>, remaining: set<string>, all: set<string>, id: string)
    requires done + remaining == all && done !! remaining && id in remaining
    ensures (done + {id}) + (remaining - {id}) == all && (done + {id}) !! (remaining - {id})
  { }

  /** GetStatusSnapshot's loop over the devices: their entries, the sum of
      their queue depths and the number of Busy devices. */
  method SnapshotDevices(devices: map<string, Devices.Device>, queues: map<string, TaskQueue>)
    returns (entries: map<string, Status.DeviceStatus>, pending: int, running: int)
    ensures entries == Entries(devices, queues, devices.Keys)
    ensures pending == Total(Depths(devices, queues, devices.Keys))
    ensures running == |BusyIds(devices, devices.Keys)|
  {
    entries, pending, running := map[], 0, 0;
    var remaining := devices.Keys;
    ghost var done: set<string> := {};
    while remaining != {}
      invariant done + remaining == devices.Keys && done !! remaining
      invariant entries == Entries(devices, queues, done)
      invariant pending == Total(Depths(devices, queues, done))
      invariant running == |BusyIds(devices, done)|
      decreases remaining
    {
      var id :| id in remaining;
      DepthsStep(devices, queues, done, id);
      EntriesStep(devices, queues, done, id);
      BusyStep(devices, done, id);
      MoveOne(done, remaining, devices.Keys, id);
      var ds := devices[id].cell.status;
      if id in queues {
        ds := ds.(queueDepth := Depth(queues, id));
        pending := pending + ds.queueDepth;
      }
      if ds.workState == Status.Busy {
        running := running + 1;
      }
      entries := entries[id := ds];
      remaining := remaining - {id};
      done := done + {id};
    }
  }

  /** The status cells of the given devices. */
  ghost function CellsOf(devices: map<string, Devices.Device>): set<StatusCells.StatusCell>
  {
    set d | d in devices.Values :: d.cell
  }

  /** The workers of the given devices. */
  ghost function Workers(devices: map<string, Devices.Device>): set<Workflow>
    reads devices.Values
  {
    set d | d in devices.Values && d.workflow != null :: d.workflow
  }

  /** A device whose worker, if any, has been told to stop and has
      finished. */
  ghost predicate Halted(d: Devices.Device)
    reads d, d.workflow
  {
    d.workflow != null ==> d.workflow.stop && !d.workflow.running
  }

  /** The three steps of Shutdown, in order: stop every device, shut every
      queue down, join every device. */
  method HaltAll(devices: map<string, Devices.Device>, queues: map<string, TaskQueue>, nowMs: Int64)
    modifies CellsOf(devices), Workers(devices), queues.Values
    ensures forall id :: id in queues ==> queues[id].shutdown
    ensures forall id :: id in devices ==> devices[id].cell.status.lastSeenAtMs == nowMs && Halted(devices[id])
  {
    StopDevices(devices, nowMs);
    ShutdownQueues(queues);
    JoinDevices(devices);
  }

  /** Step 1 of Shutdown: every device is stopped; its status records the
      time and its worker is told to stop. */
  method StopDevices(devices: map<string, Devices.Device>, nowMs: Int64)
    modifies CellsOf(devices), Workers(devices)
    ensures forall id :: id in devices ==>
              && devices[id].cell.status.lastSeenAtMs == nowMs
              && (devices[id].workflow != null ==> devices[id].workflow.stop)
  {
    var remaining := devices.Keys;
    while remaining != {}
      invariant remaining <= devices.Keys
      invariant forall id :: id in devices && id !in remaining ==>
                  && devices[id].cell.status.lastSeenAtMs == nowMs
                  && (devices[id].workflow != null ==> devices[id].workflow.stop)
      decreases remaining
    {
      var id :| id in remaining;
      devices[id].Stop(nowMs);
      remaining := remaining - {id};
    }
  }

  /** Step 2 of Shutdown: every queue is shut down, keeping its items. */
  method ShutdownQueues(queues: map<string, TaskQueue>)
    modifies queues.Values
    ensures forall id :: id in queues ==> queues[id].State() == AfterShutdown(old(queues[id].State()))
  {
    var remaining := queues.Keys;
    while remaining != {}
      invariant remaining <= queues.Keys
      invariant forall id :: id in queues && id !in remaining ==>
                  queues[id].State() == AfterShutdown(old(queues[id].State()))
      invariant forall id :: id in queues ==>
                  queues[id].State() == old(queues[id].State()) ||
                  queues[id].State() == AfterShutdown(old(queues[id].State()))
      decreases remaining
    {
      var id :| id in remaining;
      queues[id].Shutdown();
      remaining := remaining - {id};
    }
  }

  /** Step 3 of Shutdown: every device is joined; a worker told to stop
      has then finished. */
  method JoinDevices(devices: map<string, Devices.Device>)
    requires forall id :: id in devices && devices[id].workflow != null ==> devices[id].workflow.stop
    modifies Workers(devices)
    ensures forall id :: id in devices ==> Halted(devices[id])
  {
    var remaining := devices.Keys;
    while remaining != {}
      invariant remaining <= devices.Keys
      invariant forall id :: id in devices && devices[id].workflow != null ==> devices[id].workflow.stop
      invariant forall id :: id in devices && id !in remaining ==> Halted(devices[id])
      decreases remaining
    {
      var id :| id in remaining;
      devices[id].Join();
      remaining := remaining - {id};
    }
  }
}
