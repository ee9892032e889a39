/** The Device value type of HddlUnite. */
module HddlUnite {
  import opened HddlUniteC

  const NUL: char := '\0'

  /**
   * One accelerator: an opaque handle, a readable name and the software device ID
   * that OS-level enumeration uses. Device is copied by value throughout the API.
   */
  datatype Device = Device(handle: DeviceHandle, name: string, swDeviceId: U32)
  {
    function GetHandle(): DeviceHandle { handle }

    function GetName(): string { name }

    function GetSwDeviceId(): U32 { swDeviceId }

    /** setName: a copy of this device that differs in its name only. */
    function SetName(newName: string): (d: Device)
      ensures d.GetName() == newName
      ensures d.GetHandle() == GetHandle() && d.GetSwDeviceId() == GetSwDeviceId()
    {
      this.(name := newName)
    }

    /** setHandle: a copy of this device that differs in its handle only. */
    function SetHandle(newHandle: DeviceHandle): (d: Device)
      ensures d.GetHandle() == newHandle
      ensures d.GetName() == GetName() && d.GetSwDeviceId() == GetSwDeviceId()
    {
      this.(handle := newHandle)
    }

    /** getNameStr: the name as a NUL-terminated character buffer. */
    function GetNameStr(): (s: seq<char>)
      ensures |s| == |name| + 1 && s[|name|] == NUL
      ensures s[..|name|] == GetName()
    {
      name + [NUL]
    }

    /** operator==: devices are the same when name and handle agree. */
    predicate Equals(other: Device) {
      name == other.GetName() && handle == other.GetHandle()
    }
  }

  /** The three-argument constructor; the getters give back what it was given. */
  function NewDevice(handle: DeviceHandle, name: string, swDeviceId: U32): (d: Device)
    ensures d.GetHandle() == handle && d.GetName() == name && d.GetSwDeviceId() == swDeviceId
  {
    Device(handle, name, swDeviceId)
  }

  /**
   * The default constructor: handle 0 and an empty name. The software device ID
   * has no initialiser in the class, so it holds whatever `indeterminate` is.
   */
  function DefaultDevice(indeterminate: U32): (d: Device)
    ensures d.GetHandle() == 0 && d.GetName() == []
    ensures d.GetSwDeviceId() == indeterminate
  {
    Device(0, [], indeterminate)
  }

  /** The string a C caller sees through a `const char*`: everything before the first NUL. */
  function CStringValue(p: seq<char>): seq<char>
  {
    if |p| == 0 || p[0] == NUL then [] else [p[0]] + CStringValue(p[1..])
  }

  /** What a C reader gets from a NUL-terminated copy of `s`: a prefix of `s`, all of it when `s` holds no NUL. */
  lemma {:induction false} CStringOfTerminated(s: seq<char>)
    ensures CStringValue(s + [NUL]) <= s
    ensures NUL !in s ==> CStringValue(s + [NUL]) == s
  {
    if |s| == 0 {
    } else {
      assert (s + [NUL])[1..] == s[1..] + [NUL];
      CStringOfTerminated(s[1..]);
      if s[0] != NUL {
        assert CStringValue(s + [NUL]) == [s[0]] + CStringValue(s[1..] + [NUL]);
      }
    }
  }

  /** getNameStr denotes the same string as getName for every name without an embedded NUL. */
  lemma NameStrDenotesName(d: Device)
    requires NUL !in d.GetName()
    ensures CStringValue(d.GetNameStr()) == d.GetName()
  {
    CStringOfTerminated(d.name);
  }

  /** operator== ignores swDeviceId: it is an equivalence that holds between devices differing only there. */
  lemma EqualsIsEquivalence(a: Device, b: Device, c: Device)
    ensures a.Equals(a)
    ensures a.Equals(b) ==> b.Equals(a)
    ensures a.Equals(b) && b.Equals(c) ==> a.Equals(c)
    ensures a.Equals(a.(swDeviceId := b.swDeviceId))
  {
  }

  /** operator== is datatype equality once swDeviceId is disregarded. */
  lemma EqualsIffSameIdentity(a: Device, b: Device)
    ensures a.Equals(b) <==> a.(swDeviceId := 0) == b.(swDeviceId := 0)
  {
  }

  /** Two default-constructed devices compare equal whatever their uninitialised software IDs hold. */
  lemma DefaultDevicesEqual(x: U32, y: U32)
    ensures DefaultDevice(x).Equals(DefaultDevice(y))
  {
  }
}
