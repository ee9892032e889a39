# HddlUnite coordination core, modelled in Dafny

HddlUnite is the client library through which applications on an IA host use
Keem Bay accelerators. Every call is a round-trip to a daemon that owns the
shared state. This project models that state, and what the public headers
promise about it, as Dafny data and operations. Every contract is proved. The
model covers:

- **Status codes and C buffer protocols** (`HddlUniteC`, `hddl_unite_c.dfy`):
  - the `HddlStatusCode` domain and the integer typedefs;
  - the count-then-copy protocol of `getAvailableDevices`;
  - the prefix copy of `getAvailableDeviceIDs`.
- **Device** (`HddlUnite`, `hddl_unite.dfy`): a value type with getters and
  setters, and equality on name and handle only.
- **Channel allocator** (`ChannelUtils`, `channel_utils.dfy`): the per-device
  XLink channel allocator. A `ChannelManager` object holds one table per device,
  mapping each live channel ID to an optional name. Allocate, release and query
  act on that table.
  - The channel map fixes which IDs each channel type may receive.
  - The header's comment gives two low bounds for the passthrough range: 0x3
    (`ChannelUtils.h:43`) and 0x1 (`ChannelUtils.h:79-80`). The model follows
    the allocation table at lines 42-45, so 0x0-0x2 are never handed out.
- **Workload context** (`Workload`, `workload_context.dfy`): a class with the hint
  members of `WorkloadContext` plus its workload ID, PID, TID and VA channel list.
  - The variadic `setHint` takes a sequence of (hint, value) pairs. Each value
    is tagged with its C++ type.
  - A table says which kind each hint accepts.
  - `setHint` checks every pair before applying any (`setHintCheck`).
  - It then applies the pairs left to right and stops at the first failure
    (`_setHint`). A failure in the apply phase can therefore leave earlier pairs
    applied. The model keeps this: `SetHintPartialFailure` states it, and
    `WidthKeptWhenHeightRejected` shows a width kept after the height failed.
- **Workload registry** (`WorkloadRegistry`, `workload_registry.dfy`): the
  process-wide registry covers:
  - register, query, unregister and bind;
  - the get-or-create `getWorkloadContextId` on (PID, TID);
  - `createWorkloadContext` from a `ContextHint`;
  - the getters and VA-channel calls keyed by workload ID.
- **Remote memory** (`SMM`, `remote_memory.dfy`):
  - the `RemoteMemory` handle: fd, size, physical address, owner flag and
    opaque metadata;
  - `allocate`;
  - the host service's map from each buffer to the process that allocated it,
    which is used for app-crash cleanup.
- **Graph config** (`GraphConfig`, `graph_config.dfy`): how `loadGraph` reads
  its configuration map. It picks the scheduler (tag, stream, bypass or
  default), the bind flag, the runtime priority, the priority-update mode and
  the firmware subclass.
- **Graphs** (`InferGraph`, `infer_graph.dfy`): the `Graph` object and the
  daemon's table of loaded graphs, with reference counts for `loadGraph` and
  `unloadGraph`.
- **Blob descriptors** (`InferBlob`, `infer_blob.dfy`): `BlobDesc` and
  `NNInputDesc` with their constructor defaults, and the enumerations they use.

Choices where the headers leave the behaviour open. The implementation files
are not part of this model.

- Error statuses where the header names none:
  - A name already in use, an unknown channel, an unknown workload, or a
    graph the daemon does not hold: `InvalidParam`.
  - An exhausted channel sub-range, or exhausted 64-bit ID space: `ResourceBusy`.
  - A priority update aimed only at graphs loaded with `BIND_DEVICE` true:
    `OperationError`. The header leaves this case undefined.
  - A workload without a device, asked for its device name or software ID:
    `GeneralError`.
- A two-call buffer fill that gets a buffer too small for every item returns
  `InvalidParam`. It reports the count and writes nothing.
- The channel allocator hands out the lowest free ID of the requested range.
  Fresh workload IDs, buffer IDs and graph handles count up from 1 (buffer IDs
  from 0) and are never reused.
- The bodies of the `__setHint` overloads are not part of this model. Which
  (hint, value) pairs they refuse is a parameter, `rejected`, of every
  operation that sets hints. A value of the wrong kind has no member to land in
  and is refused as well. `setHintCheck` is the kind check alone, so a pack can
  pass the check and still fail while it is applied.
- `createWorkloadContext` reports a refused hint as `GeneralError` and
  registers nothing.
- `WorkloadContext::getSwDeviceId` returns 0 when no device is bound.
- `allocateVAChannelId` with a negative count returns `InvalidParam` and
  changes nothing.
- `MEDIA_DECODE_FPS` is stored as a float. The doc-comment
  (`WorkloadContext.h:64`) says int, but the member, the `ContextHint` field and
  `getMediaFps` are all float.
- Floats are opaque 32-bit patterns.
- Config parsing:
  - `SUBCLASS` and `RUNTIME_PRIORITY` are strict decimal integers with an
    optional minus sign that fit a C `int`.
  - Booleans are exactly "True"/"Yes"/"False"/"No".
  - Setting more than one of `GRAPH_TAG`, `STREAM_ID` and `DEVICE_TAG` is an error.
  - A priority update needs an explicit `RUNTIME_PRIORITY`, and it cannot be
    combined with `BIND_DEVICE` true.
- Graph sharing: a load shares an existing entry when the content, the
  scheduler and the subclass are equal and the load is not bound to one device.
  For unbound bypass loads only the device tag counts, not the priority. The
  graph name, `nnThreadNum` and `nnShaveNum` do not count either: a load that
  joins an entry keeps the entry's first thread and shave numbers, and only its
  returned `Graph` object carries its own name. A bound load always gets an
  entry of its own.
- Each shared bypass entry keeps a runtime priority per device. A load sets
  the priority of each device it names. A priority update sets the priority of
  each named device that already runs the entry, on every unbound entry with
  that content and tag; a named device that does not run the entry is not
  added. An update that finds no such entry fails: `OperationError` when a bound
  entry has that content and tag, otherwise `InvalidParam`.
- The per-device priorities of a graph entry, and the test whether an update
  names a device, tell devices apart by handle, name and software device ID
  (whole-value equality). `Device::operator==` compares only name and handle;
  two devices that differ only in software ID are one device to the C++ code
  but two keys here.

## Model

| member | source | states |
|---|---|---|
| HddlUniteC.Code | hddlunite/include/HddlUniteC.h:37-52 | codes lie in -10..2; 0 is OK, 1 TIMEOUT, 2 TASK_NOT_FINISHED |
| HddlUniteC.FromCode | hddlunite/include/HddlUniteC.h:37-52 | an integer names a status exactly when it lies in -10..2 |
| HddlUniteC.CodeRoundTrip | hddlunite/include/HddlUniteC.h:37-52 | decoding a status's code gives the status back |
| HddlUniteC.FromCodeRoundTrip | hddlunite/include/HddlUniteC.h:37-52 | encoding a decoded integer gives the integer back |
| HddlUniteC.CodesDistinct | hddlunite/include/HddlUniteC.h:37-52 | distinct statuses have distinct codes |
| HddlUniteC.ErrorCodesAreNegative | hddlunite/include/HddlUniteC.h:42-51 | the error codes are exactly the integers -1..-10 |
| HddlUniteC.FillTwoCall | hddlunite/include/HddlUniteC.h:61-73 | count always reported; no buffer means Ok with the count only; a large enough buffer receives the items and nothing past them changes |
| HddlUniteC.CopyPrefix | hddlunite/include/HddlUniteC.h:61-85 | the first n slots of the caller's buffer receive the first n items and the rest of the buffer is untouched |
| HddlUniteC.GetAvailableDevices | hddlunite/include/HddlUniteC.h:61-73 | the two-call protocol over the attached device handles |
| HddlUniteC.GetAvailableDeviceIDs | hddlunite/include/HddlUniteC.h:75-85 | the first min(numEntries, n) IDs are copied, the rest of the buffer is untouched, and n is reported |
| HddlUnite.NewDevice | hddlunite/include/HddlUnite.h:61-87 | the getters return the constructor's handle, name and software ID |
| HddlUnite.DefaultDevice | hddlunite/include/HddlUnite.h:59 | handle 0 and empty name; the software ID is whatever the uninitialised member holds |
| HddlUnite.Device.GetHandle | hddlunite/include/HddlUnite.h:75 | the handle; NewDevice and SetHandle state what it returns |
| HddlUnite.Device.GetName | hddlunite/include/HddlUnite.h:81 | the name; NewDevice and SetName state what it returns |
| HddlUnite.Device.GetSwDeviceId | hddlunite/include/HddlUnite.h:87 | the software device ID; NewDevice states what it returns |
| HddlUnite.Device.SetName | hddlunite/include/HddlUnite.h:93 | only the name changes |
| HddlUnite.Device.SetHandle | hddlunite/include/HddlUnite.h:99 | only the handle changes |
| HddlUnite.Device.GetNameStr | hddlunite/include/HddlUnite.h:105 | the name followed by a terminating NUL |
| HddlUnite.CStringOfTerminated | hddlunite/include/HddlUnite.h:105 | a C reader of a NUL-terminated copy sees a prefix of the string, all of it when it holds no NUL |
| HddlUnite.Device.Equals | hddlunite/include/HddlUnite.h:112-115 | operator==; EqualsIffSameIdentity and EqualsIsEquivalence state its meaning |
| HddlUnite.NameStrDenotesName | hddlunite/include/HddlUnite.h:81-105 | getNameStr denotes getName for every NUL-free name |
| HddlUnite.EqualsIsEquivalence | hddlunite/include/HddlUnite.h:112-115 | operator== is reflexive, symmetric and transitive, and ignores the software ID |
| HddlUnite.EqualsIffSameIdentity | hddlunite/include/HddlUnite.h:112-115 | equal exactly when name and handle agree |
| HddlUnite.DefaultDevicesEqual | hddlunite/include/HddlUnite.h:59 | two default devices compare equal whatever their software IDs |
| ChannelUtils.AllocatableRanges | hddlunite/include/ChannelUtils.h:20-45 | the two types' ranges are disjoint, inside 0x0..0xFFF, avoid every reserved ID, and with the reserved IDs cover the map |
| ChannelUtils.LowestFree | hddlunite/include/ChannelUtils.h:84 | a found ID is in range and not live, nothing smaller was free; not found means the range is full |
| ChannelUtils.ChannelManager.constructor | hddlunite/include/ChannelUtils.h:49 | every device starts with no live channels |
| ChannelUtils.ChannelManager.Allocate | hddlunite/include/ChannelUtils.h:78-105 | InvalidParam exactly when the name is taken; Ok gives an in-range ID not live before, recorded with its name |
| ChannelUtils.ChannelManager.AllocateChannel | hddlunite/include/ChannelUtils.h:78-96 | in-range fresh ID, name made unique on the device, other devices unchanged |
| ChannelUtils.ChannelManager.AllocateChannelUnnamed | hddlunite/include/ChannelUtils.h:98-105 | the same range rules, no name recorded |
| ChannelUtils.ChannelManager.ReleaseChannel | hddlunite/include/ChannelUtils.h:107-113 | Ok exactly when the ID was live; it is then no longer live; other devices unchanged |
| ChannelUtils.ChannelManager.QueryChannel | hddlunite/include/ChannelUtils.h:114-121 | Ok exactly when the name is in use, with the one ID that carries it |
| Workload.AcceptedKind | hddlunite/include/WorkloadContext.h:59-71 | each hint accepts one payload kind, never the read-only C-string kind |
| Workload.FieldValue | hddlunite/include/WorkloadContext.h:156-168 | each hint's member holds a value of the kind that hint accepts |
| Workload.HintsExtensional | hddlunite/include/WorkloadContext.h:156-168 | two hint records that agree on every hint are equal |
| Workload.WithFieldReadsBack | hddlunite/include/WorkloadContext.h:138-143 | writing one hint changes that hint to the value and no other |
| Workload.ApplyOne | hddlunite/include/WorkloadContext.h:138-143 | __setHint succeeds exactly when the pair is writable (right kind, not refused); it then sets that hint to the value and leaves every other hint |
| Workload.CheckOne | hddlunite/include/WorkloadContext.h:123-129 | _setHintCheck: a pair passes when its value has the kind its hint accepts (see AcceptedKind) |
| Workload.GetHintOf | hddlunite/include/WorkloadContext.h:145-151 | _getHint succeeds exactly for the hint's kind, or a C string for a string hint |
| Workload.CheckAll | hddlunite/include/WorkloadContext.h:117-129 | setHintCheck holds exactly when every pair passes its own check |
| Workload.ApplyAll | hddlunite/include/WorkloadContext.h:131-135 | _setHint: the pairs applied left to right, stopping at the first that fails (see the lemmas below) |
| Workload.SetHintOf | hddlunite/include/WorkloadContext.h:73-83 | setHint: apply only when the whole pack passes the check (see the lemmas below) |
| Workload.ApplyAllSucceedsIff | hddlunite/include/WorkloadContext.h:131-135 | _setHint reports success exactly when every pair of the pack is writable |
| Workload.SetHintSucceedsIff | hddlunite/include/WorkloadContext.h:73-83 | setHint succeeds exactly when every pair is writable; a pack that fails the check changes nothing |
| Workload.ApplyStopsAtFailure | hddlunite/include/WorkloadContext.h:131-135 | _setHint stops at the first failing pair and keeps the pairs before it applied |
| Workload.SetHintPartialFailure | hddlunite/include/WorkloadContext.h:76-78 | when the check passes but pair k fails to apply, setHint returns false with exactly the pairs before k written |
| Workload.WidthKeptWhenHeightRejected | hddlunite/include/WorkloadContext.h:131-135 | a width written before a refused height stays written, and setHint still reports failure |
| Workload.ApplyAllReadBack | hddlunite/include/WorkloadContext.h:131-143 | after a successful _setHint each hint reads as its last value in the call, or as before |
| Workload.SetThenGet | hddlunite/include/WorkloadContext.h:73-89 | after a successful setHint(h, v), getHint(h) yields v |
| Workload.SetHintReadBack | hddlunite/include/WorkloadContext.h:73-89 | after a successful setHint every named hint reads its last value and the others are unchanged |
| Workload.Without | hddlunite/include/WorkloadContext.h:112 | removes exactly the released ID, keeps every other ID in order with its multiplicity, and shortens the list when the ID was present |
| Workload.WorkloadContext.constructor | hddlunite/include/WorkloadContext.h:156-172 | workload ID, PID and TID 0, no device, H264, policy UNDEFINED, zeros, empty strings, no VA channels |
| Workload.WorkloadContext.Copy | hddlunite/include/WorkloadContext.h:39 | the copy holds every member of the original |
| Workload.WorkloadContext.GetWorkloadContextID | hddlunite/include/WorkloadContext.h:104 | the workload ID; SetContext and Register state what it returns |
| Workload.WorkloadContext.GetWorkloadContextPid | hddlunite/include/WorkloadContext.h:105 | the PID recorded by SetContext |
| Workload.WorkloadContext.GetWorkloadContextTid | hddlunite/include/WorkloadContext.h:106 | the TID recorded by SetContext |
| Workload.WorkloadContext.GetDevice | hddlunite/include/WorkloadContext.h:107 | the bound device, or none |
| Workload.WorkloadContext.GetSwDeviceId | hddlunite/include/WorkloadContext.h:108 | the bound device's software ID, and 0 when no device is bound |
| Workload.WorkloadContext.SetOne | hddlunite/include/WorkloadContext.h:138-143 | succeeds exactly when the pair is writable; the record after the call is __setHint's result, unchanged on failure; identity members unchanged |
| Workload.WorkloadContext.ApplyHints | hddlunite/include/WorkloadContext.h:131-137 | the loop computes _setHint over the pairs |
| Workload.WorkloadContext.SetHint | hddlunite/include/WorkloadContext.h:73-83 | the result and new record are setHint's check-then-apply; Ok exactly when every pair is writable; a pack failing the check changes nothing |
| Workload.WorkloadContext.GetHint | hddlunite/include/WorkloadContext.h:85-89 | succeeds exactly for a readable kind and yields the member's value |
| Workload.WorkloadContext.SetContext | hddlunite/include/WorkloadContext.h:91-106 | the accessors return the assigned workload ID and the caller's PID and TID; hints unchanged |
| Workload.WorkloadContext.AllocateVAChannelId | hddlunite/include/WorkloadContext.h:110 | a non-negative count appends the granted IDs, a negative one is InvalidParam |
| Workload.WorkloadContext.GetVAChannelId | hddlunite/include/WorkloadContext.h:111 | returns the current list |
| Workload.WorkloadContext.ReleaseVAChannelId | hddlunite/include/WorkloadContext.h:112 | Ok exactly when the ID was listed; the list is then the old one without it, others in order; otherwise unchanged |
| WorkloadRegistry.ContextHintApplies | hddlunite/include/WorkloadContextC.h:117-132 | setting a ContextHint's pairs stores its six fields and nothing else |
| WorkloadRegistry.ContextHintWritableIff | hddlunite/include/WorkloadContextC.h:117-132 | a ContextHint's six pairs always pass the check, and are all written exactly when none is refused |
| WorkloadRegistry.Registry.constructor | hddlunite/include/WorkloadContext.h:178-182 | the registry starts empty |
| WorkloadRegistry.Registry.GetWorkloadContextId | hddlunite/include/WorkloadContextC.h:46-60 | an existing (PID, TID) gets its ID back; a new pair gets an ID no context or thread holds |
| WorkloadRegistry.Registry.Register | hddlunite/include/WorkloadContext.h:179 | the context gets the thread's workload ID, PID and TID, and query then finds it; only that (PID, TID) binding changes; an already-known (PID, TID) keeps its ID |
| WorkloadRegistry.Registry.Query | hddlunite/include/WorkloadContext.h:181 | the registered context or null |
| WorkloadRegistry.Registry.Unregister | hddlunite/include/WorkloadContext.h:180 | the workload and every thread bound to it are removed |
| WorkloadRegistry.Registry.Bind | hddlunite/include/WorkloadContext.h:182 | Ok exactly when the workload exists; (PID, TID) then resolves to it |
| WorkloadRegistry.Registry.CreateWorkloadContext | hddlunite/include/WorkloadContextC.h:117-132 | a fresh context holding the ContextHint fields, registered under the returned ID, to which only the calling (PID, TID) binding changes; a refused hint is GeneralError and neither table changes |
| WorkloadRegistry.Registry.DestroyWorkloadContext | hddlunite/include/WorkloadContextC.h:134-138 | the workload and the threads bound to it are gone; every other workload and thread binding is kept |
| WorkloadRegistry.Registry.GetMediaType | hddlunite/include/WorkloadContextC.h:39 | the stored decode type; an unknown ID is InvalidParam |
| WorkloadRegistry.Registry.GetMediaBitrate | hddlunite/include/WorkloadContextC.h:40 | the stored bitrate; an unknown ID is InvalidParam |
| WorkloadRegistry.Registry.GetResolutionWidth | hddlunite/include/WorkloadContextC.h:41 | the stored width; an unknown ID is InvalidParam |
| WorkloadRegistry.Registry.GetResolutionHeight | hddlunite/include/WorkloadContextC.h:42 | the stored height; an unknown ID is InvalidParam |
| WorkloadRegistry.Registry.GetMediaFps | hddlunite/include/WorkloadContextC.h:43 | the stored frame rate; an unknown ID is InvalidParam |
| WorkloadRegistry.Registry.GetDeviceName | hddlunite/include/WorkloadContextC.h:37 | the bound device's name; no device is GeneralError |
| WorkloadRegistry.Registry.GetSwDeviceId | hddlunite/include/WorkloadContextC.h:38 | the bound device's software ID; no device is GeneralError |
| WorkloadRegistry.Registry.AllocateVAChannelIdFor | hddlunite/include/WorkloadContextC.h:62-74 | the size granted IDs fill the buffer and join that workload's list; the context's hints and identity are kept; an unknown workload or negative size is InvalidParam and changes nothing |
| WorkloadRegistry.Registry.GetVAChannelIdFor | hddlunite/include/WorkloadContextC.h:76-88 | the two-call protocol over the workload's VA channel list |
| WorkloadRegistry.Registry.ReleaseVAChannelIdFor | hddlunite/include/WorkloadContextC.h:90-96 | the ID leaves that workload's list, the others keep their order, a failed release leaves the list as it was, the context's hints and identity are kept, and no other context's list changes |
| SMM.MemoryService.constructor | hddlunite/include/RemoteMemory.h:32-33 | the service starts with no buffers |
| SMM.MemoryService.Register | hddlunite/include/RemoteMemory.h:32-33 | a new buffer ID is recorded for the process alone |
| SMM.MemoryService.Release | hddlunite/include/RemoteMemory.h:24-27 | the buffer is no longer live; true exactly when it was |
| SMM.MemoryService.CleanupProcess | hddlunite/include/RemoteMemory.h:32-33 | all of a crashed process's buffers are freed and reported; other processes keep theirs |
| SMM.RemoteMemory.constructor | hddlunite/include/RemoteMemory.h:50-61 | stores the context's device and workload, the fd, size, address and owner flag |
| SMM.RemoteMemory.GetDevice | hddlunite/include/RemoteMemory.h:72 | the device of the workload context it was built from (see NewRemoteMemory) |
| SMM.RemoteMemory.GetDmaBufFd | hddlunite/include/RemoteMemory.h:74-78 | the fd given at construction or by UpdateDmaBufFd |
| SMM.RemoteMemory.GetBufSize | hddlunite/include/RemoteMemory.h:80-84 | the size given at construction |
| SMM.RemoteMemory.GetPhysAddr | hddlunite/include/RemoteMemory.h:86-90 | the physical address given at construction, possibly 0 |
| SMM.RemoteMemory.UpdateDmaBufFd | hddlunite/include/RemoteMemory.h:92-96 | only the fd changes |
| SMM.RemoteMemory.SetMetaData | hddlunite/include/RemoteMemory.h:120-124 | the bytes are stored as given; nothing else changes |
| SMM.RemoteMemory.GetMetaData | hddlunite/include/RemoteMemory.h:125 | returns the stored bytes and their size |
| SMM.RemoteMemory.GetWorkloadContext | hddlunite/include/RemoteMemory.h:114-118 | the registered context, null when the workload is not registered |
| SMM.RemoteMemory.Destroy | hddlunite/include/RemoteMemory.h:58-66 | an owner gives its service buffer back (released is true when that buffer was live); a non-owner leaves the service alone |
| SMM.NewRemoteMemory | hddlunite/include/RemoteMemory.h:50-61 | fails exactly when the context has no device; the accessors return the arguments |
| SMM.NewRemoteMemoryDefaults | hddlunite/include/RemoteMemory.h:61 | size 0, physical address 0, not the owner |
| SMM.Allocate | hddlunite/include/RemoteMemory.h:139-148 | null on failure; otherwise an owning memory of the requested size on the context's device and workload, listed under the calling process |
| GraphConfig.ParseInt | hddlunite/include/InferGraph.h:119-131 | accepts only decimal integers within a C int |
| GraphConfig.ParseIntOfIntToString | hddlunite/include/InferGraph.h:119-131 | every C int written in decimal parses back to itself |
| GraphConfig.ParseBool | hddlunite/include/InferGraph.h:123 | "True"/"Yes" are true, "False"/"No" false, nothing else is a boolean |
| GraphConfig.Tag | hddlunite/include/InferGraph.h:120-122 | a tag is set exactly when present and non-empty |
| GraphConfig.Interpret | hddlunite/include/InferGraph.h:118-140 | a valid config has a valid subclass and at most one scheduler tag, and a load carries that subclass |
| GraphConfig.EmptyConfigDefaults | hddlunite/include/InferGraph.h:119-122 | no options means the default scheduler and subclass 0 |
| GraphConfig.DeviceTagAloneDefaults | hddlunite/include/InferGraph.h:122-131 | DEVICE_TAG alone means bypass, unbound, priority 0 |
| GraphConfig.EmptyTagIsUnset | hddlunite/include/InferGraph.h:120-122 | an empty tag is the same as no tag |
| GraphConfig.UnknownKeysIgnored | hddlunite/include/InferGraph.h:118 | keys outside the documented set change nothing |
| GraphConfig.SchedulerFollowsTag | hddlunite/include/InferGraph.h:120-122 | each non-empty tag selects its own scheduler; none selects the default |
| GraphConfig.BindingFollowsBindDevice | hddlunite/include/InferGraph.h:123-131 | a bypass load is bound exactly when BIND_DEVICE is true; an unbound one carries RUNTIME_PRIORITY |
| GraphConfig.BypassOptionsNeedDeviceTag | hddlunite/include/InferGraph.h:123-132 | BIND_DEVICE, RUNTIME_PRIORITY and UPDATE_RUNTIME_PRIORITY have no effect without DEVICE_TAG |
| GraphConfig.PriorityIgnoredWhenBound | hddlunite/include/InferGraph.h:128 | RUNTIME_PRIORITY has no effect on a bound load |
| GraphConfig.UpdateNeedsExplicitPriority | hddlunite/include/InferGraph.h:132-139 | an update request comes only with DEVICE_TAG, an unbound update flag and an explicit integer priority |
| GraphConfig.UpdateWithoutPriorityFails | hddlunite/include/InferGraph.h:137 | an update without RUNTIME_PRIORITY is an error |
| GraphConfig.UnboundLoadConfig | hddlunite/include/InferGraph.h:122-131 | DEVICE_TAG with a written RUNTIME_PRIORITY is an unbound bypass load at that priority |
| GraphConfig.UpdateConfig | hddlunite/include/InferGraph.h:132-139 | adding UPDATE_RUNTIME_PRIORITY "True" makes it an update to that priority |
| InferGraph.Graph.constructor | hddlunite/include/InferGraph.h:32 | the given name (empty by default) and every other member empty or zero |
| InferGraph.Graph.GetName | hddlunite/include/InferGraph.h:35-39 | the name given to the constructor |
| InferGraph.Graph.GetHandle | hddlunite/include/InferGraph.h:41-45 | the daemon's handle, which LoadGraph states |
| InferGraph.Graph.GetPath | hddlunite/include/InferGraph.h:47-51 | the file path set by SetPath |
| InferGraph.Graph.GetData | hddlunite/include/InferGraph.h:53-57 | the graph bytes set by SetData |
| InferGraph.Graph.GetInputSize | hddlunite/include/InferGraph.h:59-63 | the input size, 0 here since importFromMessage is left out |
| InferGraph.Graph.GetOutputSize | hddlunite/include/InferGraph.h:65-69 | the output size, 0 here since importFromMessage is left out |
| InferGraph.Graph.GetDevices | hddlunite/include/InferGraph.h:71-75 | the device list set by SetDevices |
| InferGraph.Graph.SetDevices | hddlunite/include/InferGraph.h:71-81 | getDevices then returns the same list; nothing else changes |
| InferGraph.Graph.SetData | hddlunite/include/InferGraph.h:84-88 | only the graph data changes |
| InferGraph.Graph.SetPath | hddlunite/include/InferGraph.h:90-94 | only the path changes |
| InferGraph.SameScheduling | hddlunite/include/InferGraph.h:120-131 | two loads are scheduled alike; for unbound bypass loads only the device tag counts |
| InferGraph.Joins | hddlunite/include/InferGraph.h:124-127 | a load may share an entry with the same content, scheduling and subclass, unless it is bound to one device |
| InferGraph.LoadPriorities | hddlunite/include/InferGraph.h:128-131 | only an unbound bypass load ranks devices, each of its devices at its priority |
| InferGraph.UnboundLoadsShare | hddlunite/include/InferGraph.h:126-131 | unbound loads of one content and tag share a graph whatever their priorities, and each ranks its own devices |
| InferGraph.WithPriority | hddlunite/include/InferGraph.h:132-140 | the update keeps every loaded graph; on the unbound ones of that tag and content, each named device that already runs the entry takes the new priority and every other priority stays |
| InferGraph.AfterLoad | hddlunite/include/InferGraph.h:221 | a shared entry is held once more and ranks the new devices; otherwise a new entry held once; no other entry changes |
| InferGraph.GraphService.constructor | hddlunite/include/InferGraph.h:221 | no graph is loaded |
| InferGraph.GraphService.UpdatePriorities | hddlunite/include/InferGraph.h:132-140 | Ok exactly when an unbound entry of that content and tag exists, then the WithPriority table; an entry bound under the tag is OperationError, no entry InvalidParam |
| InferGraph.GraphService.Record | hddlunite/include/InferGraph.h:124-127 | joins a shareable entry if there is one, else records a new one; ResourceBusy only when nothing was shareable and no handle is left |
| InferGraph.GraphService.LoadGraph | hddlunite/include/InferGraph.h:108-144 | config errors and unreadable files give no graph; an update returns no graph and sets the priority of each named device already running a matching unbound graph (an error on bound graphs); a load shares or records an entry and returns a graph for it |
| InferGraph.GraphService.UnloadGraph | hddlunite/include/InferGraph.h:220-228 | the count drops by one and the graph is released exactly when it was the last reference |
| InferBlob.ResizeCode | hddlunite/include/InferBlob.h:56-60 | bilinear is 1 and bicubic 2 |
| InferBlob.ResizeFromCode | hddlunite/include/InferBlob.h:56-60 | only 1 and 2 are resize algorithms |
| InferBlob.ResizeCodeRoundTrip | hddlunite/include/InferBlob.h:56-60 | the values and the algorithms correspond one to one |
| InferBlob.PrecisionCode | hddlunite/include/InferBlob.h:40-54 | the precisions are numbered 0..12 |
| InferBlob.PrecisionCodeInjective | hddlunite/include/InferBlob.h:40-54 | distinct precisions have distinct values |
| InferBlob.MakeBlobDesc | hddlunite/include/InferBlob.h:71-98 | the five arguments are stored; other members take their initialisers |
| InferBlob.BlobDescDefaultsAgree | hddlunite/include/InferBlob.h:71-98 | the default arguments agree with the member initialisers |
| InferBlob.MakeBlobDescInjective | hddlunite/include/InferBlob.h:71-78 | two descriptors are equal exactly when built from the same arguments |
| InferBlob.MakeNNInputDesc | hddlunite/include/InferBlob.h:103-111 | every argument is stored |
| InferBlob.NNInputDescDefaultsAgree | hddlunite/include/InferBlob.h:103-118 | the defaults are U8, remote memory, needAllocate, size 0, batch 1 |

## Left out

- The daemon round-trips behind every call are not modelled. The daemon
  becomes the table it maintains, and its answers become parameters:
  granted VA channel IDs, a device's allocation reply, a graph file's bytes.
  Connectivity failures (`HDDL_CONNECT_ERROR`) and `isServiceRunning` are
  left out.
- `exportToMessage`/`importFromMessage` are left out. They are message
  serialisation whose bodies are not shown. As a result a `Graph`'s input and
  output sizes keep their initial 0.
- `RemoteMemory::syncToDevice`/`syncFromDevice`, `queryVASurfacePhyAddress`
  and `releaseVASurfaceDmaBufFd` are left out. They are DMA copies and device
  queries.
- Inference.h, InferData.h, FileUtils.h, DeviceLog.h, RemotePipeline.h,
  Query.h, QueryType.h and SetMode.h are not part of this model. They cover
  dispatch, callbacks, file transfer, logs and remote queries.
- `InBlob` and the other blob classes of InferBlob.h are not part of this model.
  Only `BlobDesc`, `NNInputDesc` and the enumerations are modelled.
- The `loadGraph` overloads that take `WorkloadContext`s are left out. Their
  mapping from contexts to devices is not documented. The overloads that take
  devices are modelled.
- The `devices` and `config` arguments of `unloadGraph` are left out, because
  their effect is not documented.
- `getAvailableDevices(std::vector<Device>&)` (HddlUnite.h:128) is left out.
  It is a daemon query with no contract beyond its C form, which is modelled.
- The hidden `Counter` class, the `NonCopyable` plumbing, `eraseContext`,
  `std::cerr`/`DEBUG_PRINT` output and thread safety of local caches are left
  out.
- Floating-point arithmetic is left out. Float hints are opaque bit patterns.
- Null pointer arguments are left out. Array parameters are non-null where the
  C call requires a buffer, and buffer sizes are taken as the caller's
  numEntries.
- Cleanup of channels held by a crashed process is left out. The header gives
  no owner for a channel.
- HddlUnite.Device.SetName: `setName`/`setHandle` assign in place in C++, and
  the library hands devices around as shared `Device::Ptr` pointers. Here
  `Device` is a datatype value, so the setters return an updated copy and no
  other holder sees the change.
- Workload.WorkloadContext.GetDevice: the context stores a copy of the device,
  not the shared `Device::Ptr` it is given, so a later `setName`/`setHandle`
  through the caller's pointer is not seen by `getDevice`/`getDeviceName`.
- HddlUnite.Device.GetNameStr: `getNameStr` returns `m_name.data()`. A C
  reader stops at the first NUL, so the two accessors agree only for NUL-free
  names (`NameStrDenotesName`).
- Workload.WorkloadContext.SetHint: a failed setHint returns false and does
  not report which hint failed. It is atomic only in its check phase, as
  `WorkloadContext.h:73-83` and `131-135` are written.
- WorkloadRegistry.Registry.Register: registering a second context from the
  same (PID, TID) replaces the context under that thread's ID (last write
  wins). Registering the same context again from another (PID, TID) gives it
  the new ID and leaves the old ID mapped to it. A query of the old ID then
  returns a context whose workload ID is the new one. The C++ documentation
  leaves repeated registration undefined, and the model does not rule it out.
- Workload.WorkloadContext.ReleaseVAChannelId removes every occurrence of the
  ID, not only the first; the header does not say which. The remaining IDs keep
  their order (`Without`).
