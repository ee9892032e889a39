/**
 * The per-device XLink channel-ID allocator. Each device has its own ID
 * namespace; a live ID may carry a name that is unique on its device.
 */
module ChannelUtils {
  import opened Wrappers
  import opened HddlUniteC

  /** PCIE_CHANNEL: between host and ARM; VPU_CHANNEL: a passthrough channel. */
  datatype ChannelType = PcieChannel | VpuChannel

  /** Reserved control channels of the channel map. */
  const IP_CONTROL_CHANNEL: int := 0xA
  const VPU_CONTROL_CHANNEL: int := 0x400
  /** The last ID of the channel map. */
  const LAST_CHANNEL_ID: int := 0xFFF

  /**
   * The sub-ranges that may be handed out: [0x3, 0x9] and [0xB, 0x3FD] for a
   * passthrough channel, [0x401, 0xFFE] for a host-to-ARM channel.
   */
  predicate Allocatable(t: ChannelType, id: int) {
    match t
    case VpuChannel => (0x3 <= id <= 0x9) || (0xB <= id <= 0x3FD)
    case PcieChannel => 0x401 <= id <= 0xFFE
  }

  /** IDs of the channel map that no allocation may return. */
  predicate NeverAllocated(id: int) {
    (0x0 <= id <= 0x2) || id == IP_CONTROL_CHANNEL || id == 0x3FE || id == 0x3FF
    || id == VPU_CONTROL_CHANNEL || id == LAST_CHANNEL_ID
  }

  /** The two types draw from disjoint ranges, inside [0x0, 0xFFF], and miss every reserved ID. */
  lemma AllocatableRanges(t: ChannelType, id: int)
    ensures Allocatable(t, id) ==> 0 <= id <= LAST_CHANNEL_ID && !NeverAllocated(id)
    ensures !(Allocatable(VpuChannel, id) && Allocatable(PcieChannel, id))
    ensures 0 <= id <= LAST_CHANNEL_ID ==>
      (Allocatable(VpuChannel, id) || Allocatable(PcieChannel, id) || NeverAllocated(id))
  {
  }

  /** The live IDs of one device, each with its optional name. */
  type DeviceTable = map<ChannelID, Option<string>>

  predicate NameInUse(t: DeviceTable, name: string) {
    exists id :: id in t && t[id] == Some(name)
  }

  ghost predicate TableValid(t: DeviceTable) {
    && (forall id :: id in t ==> Allocatable(VpuChannel, id) || Allocatable(PcieChannel, id))
    && (forall a, b :: a in t && b in t && t[a].Some? && t[a] == t[b] ==> a == b)
  }

  /**
   * The lowest ID of type `t` that is not live. The resource manager's own
   * choice is not documented; the contract promises only the range and
   * freshness, and that nothing smaller was free.
   */
  method LowestFree(t: ChannelType, live: set<ChannelID>) returns (found: bool, id: ChannelID)
    ensures found ==> Allocatable(t, id) && id !in live
    ensures found ==> forall j :: 0 <= j < id && Allocatable(t, j) ==> j in live
    ensures !found ==> forall j :: Allocatable(t, j) ==> j in live
  {
    var c := 0;
    while c <= LAST_CHANNEL_ID
      invariant 0 <= c <= LAST_CHANNEL_ID + 1
      invariant forall j :: 0 <= j < c && Allocatable(t, j) ==> j in live
    {
      if Allocatable(t, c) && c !in live {
        return true, c;
      }
      c := c + 1;
    }
    return false, 0;
  }

  /** The process-wide allocator: one table of live channels per device handle. */
  class ChannelManager {
    var tables: map<DeviceHandle, DeviceTable>

    ghost predicate Valid()
      reads this
    {
      forall d :: d in tables ==> TableValid(tables[d])
    }

    /** The live channels of `device`; a device never used has none. */
    function Table(device: DeviceHandle): DeviceTable
      reads this
    {
      if device in tables then tables[device] else map[]
    }

    constructor ()
      ensures Valid()
      ensures forall d :: Table(d) == map[]
    {
      tables := map[];
    }

    /** The shared body of allocateChannel and allocateChannelUnnamed. */
    method Allocate(device: DeviceHandle, t: ChannelType, name: Option<string>) returns (status: Status, id: ChannelID)
      requires Valid()
      modifies this
      ensures Valid()
      ensures status == Ok || status == InvalidParam || status == ResourceBusy
      ensures status == InvalidParam <==> name.Some? && NameInUse(old(Table(device)), name.value)
      ensures status == ResourceBusy ==> forall j :: Allocatable(t, j) ==> j in old(Table(device))
      ensures status == Ok ==> Allocatable(t, id) && id !in old(Table(device))
      ensures status == Ok ==> tables == old(tables)[device := old(Table(device))[id := name]]
      ensures status != Ok ==> tables == old(tables)
    {
      var table := Table(device);
      if name.Some? && NameInUse(table, name.value) {
        return InvalidParam, 0;
      }
      var found;
      found, id := LowestFree(t, table.Keys);
      if !found {
        return ResourceBusy, 0;
      }
      tables := tables[device := table[id := name]];
      status := Ok;
    }

    /** allocateChannel: a fresh ID of the requested type, retrievable afterwards by its unique name. */
    method AllocateChannel(device: DeviceHandle, t: ChannelType, channelName: string) returns (status: Status, id: ChannelID)
      requires Valid()
      modifies this
      ensures Valid()
      ensures status == Ok || status == InvalidParam || status == ResourceBusy
      ensures status == InvalidParam <==> NameInUse(old(Table(device)), channelName)
      ensures status == ResourceBusy ==> forall j :: Allocatable(t, j) ==> j in old(Table(device))
      ensures status == Ok ==> Allocatable(t, id) && id !in old(Table(device))
      ensures status == Ok ==> Table(device) == old(Table(device))[id := Some(channelName)]
      ensures forall d :: d != device ==> Table(d) == old(Table(d))
      ensures status != Ok ==> tables == old(tables)
    {
      status, id := Allocate(device, t, Some(channelName));
    }

    /** allocateChannelUnnamed: the same range rules, and no name is recorded. */
    method AllocateChannelUnnamed(device: DeviceHandle, t: ChannelType) returns (status: Status, id: ChannelID)
      requires Valid()
      modifies this
      ensures Valid()
      ensures status == Ok || status == ResourceBusy
      ensures status == ResourceBusy ==> forall j :: Allocatable(t, j) ==> j in old(Table(device))
      ensures status == Ok ==> Allocatable(t, id) && id !in old(Table(device))
      ensures status == Ok ==> Table(device) == old(Table(device))[id := None]
      ensures forall d :: d != device ==> Table(d) == old(Table(d))
      ensures status != Ok ==> tables == old(tables)
    {
      status, id := Allocate(device, t, None);
    }

    /**
     * releaseChannel: the ID stops being live on that device and may be handed
     * out again. Releasing an ID that is not live reports InvalidParam and
     * changes nothing.
     */
    method ReleaseChannel(device: DeviceHandle, channelID: ChannelID) returns (status: Status)
      requires Valid()
      modifies this
      ensures Valid()
      ensures status == Ok <==> channelID in old(Table(device))
      ensures status != Ok ==> status == InvalidParam && tables == old(tables)
      ensures status == Ok ==> Table(device) == old(Table(device)) - {channelID}
      ensures forall d :: d != device ==> Table(d) == old(Table(d))
    {
      var table := Table(device);
      if channelID !in table {
        return InvalidParam;
      }
      tables := tables[device := table - {channelID}];
      status := Ok;
    }

    /** queryChannel: the live ID that carries `channelName` on that device. */
    method QueryChannel(device: DeviceHandle, channelName: string) returns (status: Status, id: ChannelID)
      requires Valid()
      ensures status == Ok || status == InvalidParam
      ensures status == Ok <==> NameInUse(Table(device), channelName)
      ensures status == Ok ==> id in Table(device) && Table(device)[id] == Some(channelName)
      ensures status == Ok ==> forall j :: j in Table(device) && Table(device)[j] == Some(channelName) ==> j == id
    {
      var table := Table(device);
      if !NameInUse(table, channelName) {
        return InvalidParam, 0;
      }
      id :| id in table && table[id] == Some(channelName);
      status := Ok;
    }
  }

  /** Allocating a named channel and querying that name gives the allocated ID; after release the name is gone. */
  method AllocateQueryRelease(m: ChannelManager, device: DeviceHandle)
    requires m.Valid() && m.Table(device) == map[]
    modifies m
  {
    var status, id := m.AllocateChannel(device, VpuChannel, "ctrl");
    assert Allocatable(VpuChannel, 0x3) && 0x3 !in old(m.Table(device));
    assert status == Ok;
    assert 0x3 <= id <= 0x3FD && id != IP_CONTROL_CHANNEL;
    var qs, qid := m.QueryChannel(device, "ctrl");
    assert NameInUse(m.Table(device), "ctrl") by {
      assert m.Table(device)[id] == Some("ctrl");
    }
    assert qs == Ok && qid == id;
    var rs := m.ReleaseChannel(device, id);
    assert rs == Ok && m.Table(device) == map[];
    qs, qid := m.QueryChannel(device, "ctrl");
    assert qs == InvalidParam;
  }
}
