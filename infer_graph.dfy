/**
 * Graphs: the client-side Graph object, and the daemon's table of loaded
 * graphs with a reference count per graph, through which loadGraph shares a
 * graph between clients and unloadGraph releases it only when the last client
 * lets go. A load whose configuration asks only for a priority update changes
 * the table and returns no graph.
 */
module InferGraph {
  import opened Wrappers
  import opened HddlUniteC
  import HddlUnite
  import opened GraphConfig

  class Graph {
    var name: string
    var handle: U64
    var path: string
    var data: string
    var inputSize: U64
    var outputSize: U64
    var devices: seq<HddlUnite.Device>

    constructor (graphName: string := "")
      ensures name == graphName && handle == 0 && path == "" && data == ""
      ensures inputSize == 0 && outputSize == 0 && devices == []
    {
      name, handle, path, data := graphName, 0, "", "";
      inputSize, outputSize, devices := 0, 0, [];
    }

    function GetName(): string reads this { name }
    function GetHandle(): U64 reads this { handle }
    function GetPath(): string reads this { path }
    function GetData(): string reads this { data }
    function GetInputSize(): U64 reads this { inputSize }
    function GetOutputSize(): U64 reads this { outputSize }
    function GetDevices(): seq<HddlUnite.Device> reads this { devices }

    /** setDevices: getDevices then returns exactly this list; nothing else changes. */
    method SetDevices(ds: seq<HddlUnite.Device>)
      modifies this
      ensures GetDevices() == ds
      ensures name == old(name) && handle == old(handle) && path == old(path) && data == old(data)
      ensures inputSize == old(inputSize) && outputSize == old(outputSize)
    {
      devices := ds;
    }

    /** setData: only the graph data changes. */
    method SetData(graphData: string)
      modifies this
      ensures GetData() == graphData
      ensures name == old(name) && handle == old(handle) && path == old(path) && devices == old(devices)
      ensures inputSize == old(inputSize) && outputSize == old(outputSize)
    {
      data := graphData;
    }

    /** setPath: only the graph file path changes. */
    method SetPath(graphPath: string)
      modifies this
      ensures GetPath() == graphPath
      ensures name == old(name) && handle == old(handle) && data == old(data) && devices == old(devices)
      ensures inputSize == old(inputSize) && outputSize == old(outputSize)
    {
      path := graphPath;
    }
  }

  /**
   * Where loadGraph takes the graph from: a file (its path, and its bytes, or
   * None when it cannot be read) or a buffer in memory.
   */
  datatype GraphSource =
    | FromFile(graphPath: string, fileData: Option<string>)
    | FromMemory(graphData: string)

  /**
   * One loaded graph in the daemon: how its first load scheduled it, the
   * runtime priority of each device an unbound bypass graph runs on, and how
   * many clients hold it.
   */
  datatype Entry = Entry(content: string, scheduler: Scheduler, subclass: int,
                         threadNum: int, shaveNum: int, refs: nat,
                         devicePriority: map<HddlUnite.Device, int>)

  /** Two loads are scheduled alike: the same scheduler, where the priority of an unbound bypass load does not count. */
  predicate SameScheduling(a: Scheduler, b: Scheduler) {
    if a.BypassScheduler? && b.BypassScheduler? && a.binding.Shared? && b.binding.Shared?
    then a.deviceTag == b.deviceTag
    else a == b
  }

  /** A load of `content` on `scheduler` may share this entry: same content, same scheduling, not bound to one device. */
  predicate Joins(e: Entry, content: string, scheduler: Scheduler, subclass: int) {
    && e.content == content && SameScheduling(e.scheduler, scheduler) && e.subclass == subclass
    && !(scheduler.BypassScheduler? && scheduler.binding.Bound?)
  }

  /** An unbound bypass load is an unbound bypass load of every priority. */
  predicate RanksDevices(scheduler: Scheduler) {
    scheduler.BypassScheduler? && scheduler.binding.Shared?
  }

  /** The priority a load gives each of its devices; only an unbound bypass load ranks them. */
  function LoadPriorities(devices: seq<HddlUnite.Device>, scheduler: Scheduler): (m: map<HddlUnite.Device, int>)
    ensures forall d :: d in m <==> RanksDevices(scheduler) && d in devices
    ensures forall d :: d in m ==> m[d] == scheduler.binding.priority
  {
    if RanksDevices(scheduler) then map d | d in devices :: scheduler.binding.priority else map[]
  }

  /**
   * Unbound loads of one content under one device tag share a graph whatever
   * priority each gives, and each load ranks its own devices by its priority.
   */
  lemma UnboundLoadsShare(e: Entry, content: string, tag: string, p: int, q: int, subclass: int,
                          devices: seq<HddlUnite.Device>, d: HddlUnite.Device)
    requires Joins(e, content, BypassScheduler(tag, Shared(p)), subclass)
    requires d in devices
    ensures Joins(e, content, BypassScheduler(tag, Shared(q)), subclass)
    ensures (e.devicePriority + LoadPriorities(devices, BypassScheduler(tag, Shared(q))))[d] == q
  {
  }

  /** The entry was loaded on the bypass scheduler with this device tag and this content. */
  predicate ByTag(e: Entry, content: string, deviceTag: string) {
    e.content == content && e.scheduler.BypassScheduler? && e.scheduler.deviceTag == deviceTag
  }

  /** The entries an update rewrites: unbound bypass loads of the content under that tag. */
  predicate Updatable(e: Entry, content: string, deviceTag: string) {
    ByTag(e, content, deviceTag) && e.scheduler.binding.Shared?
  }

  /**
   * The table after an update: on every updatable entry, each of the given
   * devices that runs it takes the new priority; everything else stays.
   */
  function WithPriority(entries: map<U64, Entry>, content: string, deviceTag: string,
                        devices: seq<HddlUnite.Device>, priority: int): (r: map<U64, Entry>)
    ensures r.Keys == entries.Keys
    ensures forall h :: h in r && !Updatable(entries[h], content, deviceTag) ==> r[h] == entries[h]
    ensures forall h :: h in r && Updatable(entries[h], content, deviceTag) ==>
      && r[h].(devicePriority := entries[h].devicePriority) == entries[h]
      && r[h].devicePriority.Keys == entries[h].devicePriority.Keys
      && forall d :: d in r[h].devicePriority ==>
           r[h].devicePriority[d] == if d in devices then priority else entries[h].devicePriority[d]
  {
    map h | h in entries ::
      if Updatable(entries[h], content, deviceTag)
      then
        var e := entries[h];
        e.(devicePriority := map d | d in e.devicePriority :: if d in devices then priority else e.devicePriority[d])
      else entries[h]
  }

  /**
   * The table after a load recorded under `handle`: an entry already there is
   * held once more and ranks the load's devices too; otherwise a new entry
   * held once. No other entry changes.
   */
  function AfterLoad(entries: map<U64, Entry>, handle: U64, content: string, scheduler: Scheduler, subclass: int,
                     devices: seq<HddlUnite.Device>, threadNum: int, shaveNum: int): (r: map<U64, Entry>)
    ensures r.Keys == entries.Keys + {handle}
    ensures forall h :: h in entries && h != handle ==> r[h] == entries[h]
    ensures handle in entries ==> r[handle].refs == entries[handle].refs + 1
    ensures handle !in entries ==> r[handle].refs == 1 && r[handle].content == content && r[handle].scheduler == scheduler
    ensures forall d :: d in devices && RanksDevices(scheduler) ==>
      d in r[handle].devicePriority && r[handle].devicePriority[d] == scheduler.binding.priority
  {
    var ranks := LoadPriorities(devices, scheduler);
    if handle in entries then
      var e := entries[handle];
      entries[handle := e.(refs := e.refs + 1, devicePriority := e.devicePriority + ranks)]
    else
      entries[handle := Entry(content, scheduler, subclass, threadNum, shaveNum, 1, ranks)]
  }

  class GraphService {
    var entries: map<U64, Entry>
    var nextHandle: U64

    /** Every loaded graph is held by some client, and handles are never reused. */
    ghost predicate Valid()
      reads this
    {
      && 1 <= nextHandle
      && forall h :: h in entries ==> 0 < h < nextHandle && entries[h].refs >= 1
    }

    constructor ()
      ensures Valid() && entries == map[]
    {
      entries, nextHandle := map[], 1;
    }

    function Content(source: GraphSource): Option<string>
    {
      match source
      case FromFile(_, d) => d
      case FromMemory(d) => Some(d)
    }

    /**
     * The daemon's side of an update: the given devices take the new priority
     * on every unbound entry of that content and tag. With none such it is an
     * error: OperationError when the graph is bound under that tag, and
     * InvalidParam when it was never loaded under it.
     */
    method UpdatePriorities(content: string, tag: string, devices: seq<HddlUnite.Device>, priority: int)
      returns (status: Status)
      requires Valid()
      modifies this
      ensures Valid()
      ensures status == Ok <==> exists h :: h in old(entries) && Updatable(old(entries)[h], content, tag)
      ensures status == Ok ==> entries == WithPriority(old(entries), content, tag, devices, priority)
      ensures status != Ok ==> entries == old(entries)
      ensures status != Ok && (exists h :: h in old(entries) && ByTag(old(entries)[h], content, tag)) ==>
        status == OperationError
      ensures status != Ok && (forall h :: h in old(entries) ==> !ByTag(old(entries)[h], content, tag)) ==>
        status == InvalidParam
    {
      if exists h :: h in entries && Updatable(entries[h], content, tag) {
        entries := WithPriority(entries, content, tag, devices, priority);
        status := Ok;
      } else if exists h :: h in entries && ByTag(entries[h], content, tag) {
        status := OperationError;
      } else {
        status := InvalidParam;
      }
    }

    /**
     * The daemon's side of a load: the handle of an entry the load may share,
     * now held once more and ranking the load's devices too, or else of a new
     * entry; ResourceBusy when no handle is left.
     */
    method Record(content: string, scheduler: Scheduler, subclass: int, devices: seq<HddlUnite.Device>,
                  threadNum: int, shaveNum: int)
      returns (status: Status, handle: U64)
      requires Valid()
      modifies this
      ensures Valid()
      ensures status == Ok || status == ResourceBusy
      ensures status == ResourceBusy ==>
        entries == old(entries) && forall h :: h in old(entries) ==> !Joins(old(entries)[h], content, scheduler, subclass)
      ensures status == Ok ==>
        && entries == AfterLoad(old(entries), handle, content, scheduler, subclass, devices, threadNum, shaveNum)
        && (handle in old(entries) ==> Joins(old(entries)[handle], content, scheduler, subclass))
        && (handle !in old(entries) ==> forall h :: h in old(entries) ==> !Joins(old(entries)[h], content, scheduler, subclass))
    {
      if exists h :: h in entries && Joins(entries[h], content, scheduler, subclass) {
        handle :| handle in entries && Joins(entries[handle], content, scheduler, subclass);
        entries := AfterLoad(entries, handle, content, scheduler, subclass, devices, threadNum, shaveNum);
        status := Ok;
      } else if nextHandle == U64_LIMIT - 1 {
        status, handle := ResourceBusy, 0;
      } else {
        handle := nextHandle;
        nextHandle := nextHandle + 1;
        entries := AfterLoad(entries, handle, content, scheduler, subclass, devices, threadNum, shaveNum);
        status := Ok;
      }
    }

    /**
     * loadGraph. A malformed configuration or an unreadable file fails with
     * no graph. A priority update sets the priority of the given devices on
     * the matching unbound entries and returns no graph (see
     * UpdatePriorities). A load joins an entry it may share, adding its
     * devices' priorities, or else records a new one (see Record), and
     * returns a graph object for it.
     */
    method LoadGraph(graphName: string, source: GraphSource, devices: seq<HddlUnite.Device>,
                     nnThreadNum: int := 1, nnShaveNum: int := 16, config: Config := map[])
      returns (status: Status, graph: Graph?)
      requires Valid()
      modifies this
      ensures Valid()
      ensures status != Ok ==> graph == null && entries == old(entries)
      ensures Interpret(config).Failure? || Content(source).None? ==> status == InvalidParam
      ensures Interpret(config).Success? && Interpret(config).value.UpdatePriority? && Content(source).Some? ==>
        var content, tag := Content(source).value, Interpret(config).value.deviceTag;
        && graph == null
        && (status == Ok <==> exists h :: h in old(entries) && Updatable(old(entries)[h], content, tag))
        && (status == Ok ==> entries == WithPriority(old(entries), content, tag, devices, Interpret(config).value.priority))
        && (status != Ok && (exists h :: h in old(entries) && ByTag(old(entries)[h], content, tag)) ==> status == OperationError)
        && (status != Ok && (forall h :: h in old(entries) ==> !ByTag(old(entries)[h], content, tag)) ==> status == InvalidParam)
      ensures Interpret(config).Success? && Interpret(config).value.Load? && Content(source).Some? ==>
        var content, request := Content(source).value, Interpret(config).value;
        && (status == Ok || status == ResourceBusy)
        && (status == ResourceBusy ==> forall h :: h in old(entries) ==> !Joins(old(entries)[h], content, request.scheduler, request.subclass))
        && (status == Ok ==>
          && graph != null && fresh(graph)
          && graph.GetName() == graphName && graph.GetData() == content && graph.GetDevices() == devices
          && graph.GetPath() == (if source.FromFile? then source.graphPath else "")
          && graph.GetHandle() in entries
          && entries[graph.GetHandle()].content == content
          && SameScheduling(entries[graph.GetHandle()].scheduler, request.scheduler)
          && entries == AfterLoad(old(entries), graph.GetHandle(), content, request.scheduler, request.subclass,
                                  devices, nnThreadNum, nnShaveNum)
          && (graph.GetHandle() in old(entries) ==>
                Joins(old(entries)[graph.GetHandle()], content, request.scheduler, request.subclass))
          && (graph.GetHandle() !in old(entries) ==>
                forall h :: h in old(entries) ==> !Joins(old(entries)[h], content, request.scheduler, request.subclass)))
    {
      var request := Interpret(config);
      var content := Content(source);
      if request.Failure? || content.None? {
        return InvalidParam, null;
      }
      var c := content.value;
      match request.value {
        case UpdatePriority(tag, priority) =>
          graph := null;
          status := UpdatePriorities(c, tag, devices, priority);
        case Load(scheduler, subclass) =>
          var handle: U64;
          status, handle := Record(c, scheduler, subclass, devices, nnThreadNum, nnShaveNum);
          if status != Ok {
            return status, null;
          }
          graph := new Graph(graphName);
          graph.handle := handle;
          if source.FromFile? {
            graph.SetPath(source.graphPath);
          }
          graph.SetData(c);
          graph.SetDevices(devices);
      }
    }

    /**
     * unloadGraph: one client lets go of the graph; the daemon releases the
     * graph when that was the last one. A graph the daemon does not hold is
     * InvalidParam.
     */
    method UnloadGraph(graph: Graph) returns (status: Status, released: bool)
      requires Valid()
      modifies this
      ensures Valid()
      ensures status == Ok <==> graph.GetHandle() in old(entries)
      ensures status != Ok ==> status == InvalidParam && !released && entries == old(entries)
      ensures status == Ok ==>
        var h := graph.GetHandle();
        && (released <==> old(entries)[h].refs == 1)
        && (released ==> entries == old(entries) - {h})
        && (!released ==> entries == old(entries)[h := old(entries)[h].(refs := old(entries)[h].refs - 1)])
    {
      var h := graph.handle;
      if h !in entries {
        return InvalidParam, false;
      }
      if entries[h].refs == 1 {
        entries := entries - {h};
        released := true;
      } else {
        entries := entries[h := entries[h].(refs := entries[h].refs - 1)];
        released := false;
      }
      status := Ok;
    }
  }

  /**
   * Two clients load the same graph for the default scheduler; it is released
   * only when the second one unloads it.
   */
  method SharedUntilLastUnload(service: GraphService, model: string)
    requires service.Valid() && service.entries == map[]
    modifies service
  {
    var s1, g1 := service.LoadGraph("a", FromMemory(model), []);
    EmptyConfigDefaults();
    if s1 == Ok {
      var s2, g2 := service.LoadGraph("b", FromMemory(model), []);
      if s2 == Ok {
        assert g2.GetHandle() == g1.GetHandle();
        var u1, r1 := service.UnloadGraph(g1);
        assert u1 == Ok && !r1;
        var u2, r2 := service.UnloadGraph(g2);
        assert u2 == Ok && r2;
      }
    }
  }

  /**
   * Two unbound loads of one graph under one device tag, at priorities 1 and
   * 2 on different devices, share one graph that ranks the two devices.
   */
  method UnboundLoadsRankDevices(service: GraphService, model: string, tag: string,
                                 d1: HddlUnite.Device, d2: HddlUnite.Device)
    requires service.Valid() && service.entries == map[]
    requires tag != "" && d1 != d2
    modifies service
  {
    UnboundLoadConfig(tag, 1);
    UnboundLoadConfig(tag, 2);
    var s1, g1 := service.LoadGraph("a", FromMemory(model), [d1], 1, 16,
                                    map[DEVICE_TAG := tag, RUNTIME_PRIORITY := IntToString(1)]);
    if s1 == Ok {
      var h := g1.GetHandle();
      var s2, g2 := service.LoadGraph("b", FromMemory(model), [d2], 1, 16,
                                      map[DEVICE_TAG := tag, RUNTIME_PRIORITY := IntToString(2)]);
      if s2 == Ok {
        assert g2.GetHandle() == h;
        assert service.entries[h].refs == 2;
        assert service.entries[h].devicePriority[d1] == 1 && service.entries[h].devicePriority[d2] == 2;
      }
    }
  }

  /** An update naming one of the two devices that run a shared graph changes that device's priority only. */
  method UpdateRanksNamedDevice(service: GraphService, model: string, tag: string, h: U64,
                                d1: HddlUnite.Device, d2: HddlUnite.Device)
    requires service.Valid() && h in service.entries && d1 != d2
    requires tag != "" && Updatable(service.entries[h], model, tag)
    requires service.entries[h].devicePriority == map[d1 := 1, d2 := 2]
    modifies service
  {
    UpdateConfig(tag, 5);
    var s3, g3 := service.LoadGraph("c", FromMemory(model), [d1], 1, 16,
                                    map[DEVICE_TAG := tag, RUNTIME_PRIORITY := IntToString(5),
                                        UPDATE_RUNTIME_PRIORITY := "True"]);
    assert s3 == Ok && g3 == null;
    assert service.entries[h].devicePriority[d1] == 5 && service.entries[h].devicePriority[d2] == 2;
  }
}
