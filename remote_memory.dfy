/**
 * Shared/remote memory in bypass mode: a handle on a DMA buffer that lives on
 * a device, and the host service's table from each buffer it handed out to
 * the process that asked for it, so that a crashed process's buffers can be
 * found and freed.
 */
module SMM {
  import opened Wrappers
  import opened HddlUniteC
  import HddlUnite
  import Workload
  import WorkloadRegistry

  /** A byte of opaque metadata. */
  type Byte = bv8

  /** The host service's record of which process allocated each live buffer. */
  class MemoryService {
    var owner: map<nat, PID>
    var nextBuffer: nat

    ghost predicate Valid()
      reads this
    {
      forall b :: b in owner ==> b < nextBuffer
    }

    constructor ()
      ensures Valid() && owner == map[]
    {
      owner, nextBuffer := map[], 0;
    }

    /** The live buffers the process allocated. */
    function Allocations(pid: PID): set<nat>
      reads this
    {
      set b | b in owner && owner[b] == pid
    }

    /** Records a new buffer for the process; the ID is not held by any live buffer. */
    method Register(pid: PID) returns (buffer: nat)
      requires Valid()
      modifies this
      ensures Valid()
      ensures buffer !in old(owner)
      ensures owner == old(owner)[buffer := pid]
      ensures Allocations(pid) == old(Allocations(pid)) + {buffer}
      ensures forall q :: q != pid ==> Allocations(q) == old(Allocations(q))
    {
      buffer := nextBuffer;
      nextBuffer := nextBuffer + 1;
      owner := owner[buffer := pid];
    }

    /** Frees one buffer; false when it was not live. */
    method Release(buffer: nat) returns (released: bool)
      requires Valid()
      modifies this
      ensures Valid()
      ensures released <==> buffer in old(owner)
      ensures owner == old(owner) - {buffer}
      ensures forall q :: Allocations(q) == old(Allocations(q)) - {buffer}
    {
      released := buffer in owner;
      owner := owner - {buffer};
    }

    /** App-crash handling: every live buffer of the process is freed and reported; other processes keep theirs. */
    method CleanupProcess(pid: PID) returns (freed: set<nat>)
      requires Valid()
      modifies this
      ensures Valid()
      ensures freed == old(Allocations(pid))
      ensures Allocations(pid) == {}
      ensures forall q :: q != pid ==> Allocations(q) == old(Allocations(q))
      ensures forall b :: b in owner <==> b in old(owner) && old(owner)[b] != pid
      ensures forall b :: b in owner ==> owner[b] == old(owner)[b]
    {
      freed := Allocations(pid);
      owner := map b | b in owner && owner[b] != pid :: owner[b];
    }
  }

  class RemoteMemory {
    var device: HddlUnite.Device
    var dmaBufFd: I32
    var bufSize: U64
    var physAddr: PhyAddr
    var isOwner: bool
    var metaData: seq<Byte>
    var workloadId: WorkloadID
    /** The service buffer behind an owning memory that `allocate` created. */
    var serviceBuffer: Option<nat>

    /** The constructor proper, for a context that has a device. */
    constructor (ctx: Workload.WorkloadContext, fd: I32, size: U64, addr: PhyAddr, owner: bool)
      requires ctx.GetDevice().Some?
      ensures device == ctx.GetDevice().value
      ensures dmaBufFd == fd && bufSize == size && physAddr == addr && isOwner == owner
      ensures metaData == [] && workloadId == ctx.GetWorkloadContextID() && serviceBuffer == None
    {
      device := ctx.device.value;
      dmaBufFd, bufSize, physAddr, isOwner := fd, size, addr, owner;
      metaData := [];
      workloadId := ctx.workloadID;
      serviceBuffer := None;
    }

    function GetDevice(): HddlUnite.Device reads this { device }
    function GetDmaBufFd(): I32 reads this { dmaBufFd }
    function GetBufSize(): U64 reads this { bufSize }
    function GetPhysAddr(): PhyAddr reads this { physAddr }

    /** updateDmaBufFd: the fd changes and nothing else does. */
    method UpdateDmaBufFd(fd: I32)
      modifies this
      ensures dmaBufFd == fd
      ensures device == old(device) && bufSize == old(bufSize) && physAddr == old(physAddr)
      ensures isOwner == old(isOwner) && metaData == old(metaData)
      ensures workloadId == old(workloadId) && serviceBuffer == old(serviceBuffer)
    {
      dmaBufFd := fd;
    }

    /** setMetaData: the bytes are stored as given and never interpreted. */
    method SetMetaData(data: seq<Byte>) returns (status: Status)
      requires |data| < U32_LIMIT
      modifies this
      ensures status == Ok
      ensures metaData == data
      ensures device == old(device) && dmaBufFd == old(dmaBufFd) && bufSize == old(bufSize)
      ensures physAddr == old(physAddr) && isOwner == old(isOwner)
      ensures workloadId == old(workloadId) && serviceBuffer == old(serviceBuffer)
    {
      metaData := data;
      status := Ok;
    }

    /** getMetaData: the bytes last stored, with their size. */
    method GetMetaData() returns (status: Status, data: seq<Byte>, size: nat)
      ensures status == Ok && data == metaData && size == |metaData|
    {
      return Ok, metaData, |metaData|;
    }

    /** getWorkloadContext: the context registered under this memory's workload, or null. */
    method GetWorkloadContext(registry: WorkloadRegistry.Registry) returns (ctx: Workload.WorkloadContext?)
      requires registry.Valid()
      ensures ctx == null <==> workloadId !in registry.contexts
      ensures ctx != null ==> ctx == registry.contexts[workloadId]
    {
      ctx := registry.Query(workloadId);
    }

    /**
     * The destructor: an owning memory gives its buffer back; a registered one
     * leaves it alone. `released` says that a service buffer was given back,
     * which an owner built directly by the constructor, holding none, does not do.
     */
    method Destroy(service: MemoryService) returns (released: bool)
      requires service.Valid()
      modifies service
      ensures service.Valid()
      ensures released <==> isOwner && serviceBuffer.Some? && serviceBuffer.value in old(service.owner)
      ensures isOwner && serviceBuffer.Some? ==> service.owner == old(service.owner) - {serviceBuffer.value}
      ensures !(isOwner && serviceBuffer.Some?) ==> service.owner == old(service.owner)
    {
      released := false;
      if isOwner && serviceBuffer.Some? {
        released := service.Release(serviceBuffer.value);
      }
    }
  }

  /**
   * The constructor as callers meet it: no memory when the workload context
   * has no device; otherwise the given fd, size, address and owner flag.
   */
  method NewRemoteMemory(ctx: Workload.WorkloadContext, fd: I32, size: U64, addr: PhyAddr, owner: bool)
    returns (m: RemoteMemory?)
    ensures m == null <==> ctx.GetDevice().None?
    ensures m != null ==>
      && fresh(m)
      && m.GetDevice() == ctx.GetDevice().value
      && m.GetDmaBufFd() == fd && m.GetBufSize() == size && m.GetPhysAddr() == addr
      && m.isOwner == owner && m.metaData == []
      && m.workloadId == ctx.GetWorkloadContextID()
  {
    if ctx.device.None? {
      return null;
    }
    m := new RemoteMemory(ctx, fd, size, addr, owner);
  }

  /** The constructor with its defaults: size 0, physical address 0, not the owner. */
  method NewRemoteMemoryDefaults(ctx: Workload.WorkloadContext, fd: I32) returns (m: RemoteMemory?)
    ensures m == null <==> ctx.GetDevice().None?
    ensures m != null ==>
      && fresh(m) && m.GetDmaBufFd() == fd
      && m.GetBufSize() == 0 && m.GetPhysAddr() == 0 && !m.isOwner
  {
    m := NewRemoteMemory(ctx, fd, 0, 0, false);
  }

  /**
   * allocate: `reply` is the device's answer (its fd and physical address),
   * or None when the device could not allocate. On success the memory has the
   * requested size, owns its buffer, and the service lists that buffer under
   * the calling process.
   */
  method Allocate(ctx: Workload.WorkloadContext, size: U64, pid: PID, service: MemoryService,
                  reply: Option<(I32, PhyAddr)>)
    returns (m: RemoteMemory?)
    requires service.Valid()
    modifies service
    ensures service.Valid()
    ensures m == null <==> ctx.GetDevice().None? || reply.None?
    ensures m == null ==> service.owner == old(service.owner)
    ensures m != null ==>
      && fresh(m)
      && m.GetDevice() == ctx.GetDevice().value
      && m.workloadId == ctx.GetWorkloadContextID()
      && m.GetBufSize() == size && m.isOwner && m.metaData == []
      && m.GetDmaBufFd() == reply.value.0 && m.GetPhysAddr() == reply.value.1
      && m.serviceBuffer.Some?
      && m.serviceBuffer.value !in old(service.owner)
      && service.owner == old(service.owner)[m.serviceBuffer.value := pid]
      && service.Allocations(pid) == old(service.Allocations(pid)) + {m.serviceBuffer.value}
  {
    if ctx.device.None? || reply.None? {
      return null;
    }
    var buffer := service.Register(pid);
    m := new RemoteMemory(ctx, reply.value.0, size, reply.value.1, true);
    m.serviceBuffer := Some(buffer);
  }

  /** A process allocates two buffers and crashes; the service frees exactly those two. */
  method AllocateThenCrash(ctx: Workload.WorkloadContext, service: MemoryService, pid: PID)
    requires ctx.GetDevice().Some?
    requires service.Valid() && service.Allocations(pid) == {}
    modifies service
  {
    var a := Allocate(ctx, 4096, pid, service, Some((7, 0)));
    var b := Allocate(ctx, 8192, pid, service, Some((8, 0)));
    var status := a.SetMetaData([1, 2, 3]);
    var _, data, n := a.GetMetaData();
    assert data == [1, 2, 3] && n == 3;
    var freed := service.CleanupProcess(pid);
    assert freed == {a.serviceBuffer.value, b.serviceBuffer.value};
  }
}
