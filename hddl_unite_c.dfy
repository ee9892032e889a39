/**
 * The C-level vocabulary of HddlUnite: the status-code domain, the integer
 * typedefs, and the two device-enumeration calls that fill caller buffers.
 */
module HddlUniteC {
  import opened Wrappers

  const U32_LIMIT: int := 0x1_0000_0000
  const U64_LIMIT: int := 0x1_0000_0000_0000_0000

  type U32 = x: int | 0 <= x < 0x1_0000_0000
  type U64 = x: int | 0 <= x < 0x1_0000_0000_0000_0000
  /** A C `int` / `int32_t`. */
  type I32 = x: int | -0x8000_0000 <= x < 0x8000_0000

  type DeviceHandle = U64
  type WorkloadID = U64
  type TID = U64
  type PID = U64
  type PhyAddr = U64
  type ChannelID = U32

  /** HddlStatusCode: every coordination call reports one of these. */
  datatype Status =
    | TaskNotFinished
    | Timeout
    | Ok
    | DeviceError
    | ConnectError
    | GeneralError
    | InvalidParam
    | ResourceBusy
    | OperationError
    | AllocError
    | PermissionDenied
    | NotInitialized
    | NotImplemented
  {
    predicate IsError() { Code(this) < 0 }
  }

  /** The integer each enumerator of HddlStatusCode stands for. */
  function Code(s: Status): (c: int)
    ensures -10 <= c <= 2
    ensures c == 0 <==> s == Ok
    ensures c == 1 <==> s == Timeout
    ensures c == 2 <==> s == TaskNotFinished
  {
    match s
    case TaskNotFinished => 2
    case Timeout => 1
    case Ok => 0
    case DeviceError => -1
    case ConnectError => -2
    case GeneralError => -3
    case InvalidParam => -4
    case ResourceBusy => -5
    case OperationError => -6
    case AllocError => -7
    case PermissionDenied => -8
    case NotInitialized => -9
    case NotImplemented => -10
  }

  /** Reads a raw status integer back; integers outside the domain are no status. */
  function FromCode(c: int): (r: Option<Status>)
    ensures r.Some? <==> -10 <= c <= 2
  {
    if c == 2 then Some(TaskNotFinished)
    else if c == 1 then Some(Timeout)
    else if c == 0 then Some(Ok)
    else if c == -1 then Some(DeviceError)
    else if c == -2 then Some(ConnectError)
    else if c == -3 then Some(GeneralError)
    else if c == -4 then Some(InvalidParam)
    else if c == -5 then Some(ResourceBusy)
    else if c == -6 then Some(OperationError)
    else if c == -7 then Some(AllocError)
    else if c == -8 then Some(PermissionDenied)
    else if c == -9 then Some(NotInitialized)
    else if c == -10 then Some(NotImplemented)
    else None
  }

  /** Decoding an encoded status gives the status back. */
  lemma CodeRoundTrip(s: Status)
    ensures FromCode(Code(s)) == Some(s)
  {
  }

  /** Encoding a decoded integer gives the integer back. */
  lemma FromCodeRoundTrip(c: int)
    requires -10 <= c <= 2
    ensures Code(FromCode(c).value) == c
  {
  }

  /** The thirteen codes are pairwise distinct, so a status integer names one outcome. */
  lemma CodesDistinct(s: Status, t: Status)
    requires Code(s) == Code(t)
    ensures s == t
  {
    CodeRoundTrip(s);
    CodeRoundTrip(t);
  }

  /** The error codes are exactly the ten negative integers -1 .. -10. */
  lemma ErrorCodesAreNegative(c: int)
    ensures (exists s: Status :: s.IsError() && Code(s) == c) <==> -10 <= c <= -1
  {
    if -10 <= c <= -1 {
      FromCodeRoundTrip(c);
      var s := FromCode(c).value;
      assert s.IsError() && Code(s) == c;
    }
  }

  /**
   * The count-then-copy protocol of getAvailableDevices: with no buffer only
   * the number of items is reported; with a buffer of numEntries slots the
   * items are copied. A buffer too small for all items is not described by the
   * header; the model rejects it with InvalidParam and writes nothing.
   */
  method FillTwoCall<T>(items: seq<T>, numEntries: nat, buffer: array?<T>) returns (status: Status, count: nat)
    requires buffer != null ==> numEntries <= buffer.Length
    modifies buffer
    ensures count == |items|
    ensures buffer == null ==> status == Ok
    ensures buffer != null ==> (status == Ok <==> |items| <= numEntries)
    ensures status != Ok ==> status == InvalidParam
    ensures buffer != null && status == Ok ==>
      buffer[..|items|] == items && buffer[|items|..] == old(buffer[|items|..])
    ensures buffer != null && status != Ok ==> buffer[..] == old(buffer[..])
  {
    count := |items|;
    if buffer == null {
      return Ok, count;
    }
    if numEntries < |items| {
      return InvalidParam, count;
    }
    CopyPrefix(items, buffer, |items|);
    status := Ok;
  }

  /** Writes items[..n] into buffer[..n]; the rest of the buffer is untouched. */
  method CopyPrefix<T>(items: seq<T>, buffer: array<T>, n: nat)
    requires n <= |items| && n <= buffer.Length
    modifies buffer
    ensures buffer[..n] == items[..n]
    ensures buffer[n..] == old(buffer[n..])
  {
    var i := 0;
    while i < n
      invariant 0 <= i <= n
      invariant buffer[..i] == items[..i]
      invariant buffer[n..] == old(buffer[n..])
    {
      buffer[i] := items[i];
      assert buffer[..i + 1] == buffer[..i] + [items[i]];
      assert items[..i + 1] == items[..i] + [items[i]];
      i := i + 1;
    }
  }

  /**
   * getAvailableDevices (C form): `attached` is the service's list of device
   * handles; the call reports its length and, given a buffer, copies it.
   */
  method GetAvailableDevices(attached: seq<DeviceHandle>, numEntries: nat, deviceHandles: array?<DeviceHandle>)
    returns (status: Status, numDeviceHandles: nat)
    requires deviceHandles != null ==> numEntries <= deviceHandles.Length
    modifies deviceHandles
    ensures numDeviceHandles == |attached|
    ensures deviceHandles == null ==> status == Ok
    ensures deviceHandles != null ==> (status == Ok <==> |attached| <= numEntries)
    ensures deviceHandles != null && status == Ok ==>
      deviceHandles[..|attached|] == attached && deviceHandles[|attached|..] == old(deviceHandles[|attached|..])
    ensures deviceHandles != null && status != Ok ==> status == InvalidParam && deviceHandles[..] == old(deviceHandles[..])
  {
    status, numDeviceHandles := FillTwoCall(attached, numEntries, deviceHandles);
  }

  function Min(a: nat, b: nat): nat { if a <= b then a else b }

  /**
   * getAvailableDeviceIDs: copies the first min(numEntries, n) software device
   * IDs of the n attached devices and always reports n.
   */
  method GetAvailableDeviceIDs(swDeviceIds: seq<U32>, numEntries: nat, deviceIdList: array<U32>)
    returns (status: Status, numDevice: nat)
    requires numEntries <= deviceIdList.Length
    modifies deviceIdList
    ensures status == Ok
    ensures numDevice == |swDeviceIds|
    ensures deviceIdList[..Min(numEntries, |swDeviceIds|)] == swDeviceIds[..Min(numEntries, |swDeviceIds|)]
    ensures deviceIdList[Min(numEntries, |swDeviceIds|)..] == old(deviceIdList[Min(numEntries, |swDeviceIds|)..])
  {
    CopyPrefix(swDeviceIds, deviceIdList, Min(numEntries, |swDeviceIds|));
    status, numDevice := Ok, |swDeviceIds|;
  }
}
