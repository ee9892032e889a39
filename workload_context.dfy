/**
 * WorkloadContext: a typed bag of scheduling hints bound to a process and
 * thread. The variadic setHint of the C++ API becomes a sequence of
 * (hint, value) pairs whose values are a tagged union; a per-hint table says
 * which payload kind each hint accepts.
 */
module Workload {
  import opened Wrappers
  import opened HddlUniteC
  import C = WorkloadContextC
  import HddlUnite

  datatype Hint =
    | Device
    | MediaDecodeType
    | MediaDecodeResolutionW
    | MediaDecodeResolutionH
    | MediaDecodeBitrate
    | MediaDecodeFps
    | InferenceNetworkName
    | InferenceNetworkHash
    | InferenceNetworkTops
    | InferenceNetworkFps
    | SchedulePolicyType
    | InternalWorkloadContext

  /** The C++ types the setHint/getHint overloads are resolved on; CStringKind only reads. */
  datatype Kind = UIntKind | FloatKind | StringKind | CStringKind | MediaTypeKind | PolicyKind | DeviceKind

  /** One argument of setHint, tagged with its C++ type. */
  datatype HintValue =
    | UInt(u: U32)
    | Float(f: C.Float32)
    | Str(s: string)
    | Media(m: C.MediaDecodeType)
    | Policy(p: C.SchedulePolicyType)
    | DevicePtr(d: Option<HddlUnite.Device>)

  function KindOf(v: HintValue): Kind {
    match v
    case UInt(_) => UIntKind
    case Float(_) => FloatKind
    case Str(_) => StringKind
    case Media(_) => MediaTypeKind
    case Policy(_) => PolicyKind
    case DevicePtr(_) => DeviceKind
  }

  /** The payload kind each hint is stored as, following the member it writes. */
  function AcceptedKind(h: Hint): (k: Kind)
    ensures k != CStringKind
  {
    match h
    case Device => DeviceKind
    case MediaDecodeType => MediaTypeKind
    case MediaDecodeResolutionW => UIntKind
    case MediaDecodeResolutionH => UIntKind
    case MediaDecodeBitrate => FloatKind
    case MediaDecodeFps => FloatKind
    case InferenceNetworkName => StringKind
    case InferenceNetworkHash => StringKind
    case InferenceNetworkTops => FloatKind
    case InferenceNetworkFps => FloatKind
    case SchedulePolicyType => PolicyKind
    case InternalWorkloadContext => UIntKind
  }

  /** _setHintCheck: a pair passes when its value has the kind its hint accepts. */
  predicate CheckOne(h: Hint, v: HintValue) {
    KindOf(v) == AcceptedKind(h)
  }

  /** getHint reads a hint into its own kind, and a string hint also into a `const char*`. */
  predicate ReadableAs(h: Hint, k: Kind) {
    k == AcceptedKind(h) || (k == CStringKind && AcceptedKind(h) == StringKind)
  }

  /** The hint-carrying members of a WorkloadContext. */
  datatype Hints = Hints(
    device: Option<HddlUnite.Device>,
    mediaDecodeType: C.MediaDecodeType,
    schedulePolicyType: C.SchedulePolicyType,
    mediaDecodeResolutionW: U32,
    mediaDecodeResolutionH: U32,
    mediaDecodeBitrate: C.Float32,
    mediaDecodeFps: C.Float32,
    inferenceNetworkName: string,
    inferenceNetworkHash: string,
    inferenceNetworkTops: C.Float32,
    inferenceNetworkFps: C.Float32,
    internalWorkload: U32)

  /** The member initialisers: no device, H264, policy UNDEFINED, zeros and empty strings. */
  const DefaultHints: Hints := Hints(None, C.H264, C.Undefined, 0, 0, 0, 0, [], [], 0, 0, 0)

  /** The value the member behind `h` holds. */
  function FieldValue(r: Hints, h: Hint): (v: HintValue)
    ensures KindOf(v) == AcceptedKind(h)
  {
    match h
    case Device => DevicePtr(r.device)
    case MediaDecodeType => Media(r.mediaDecodeType)
    case MediaDecodeResolutionW => UInt(r.mediaDecodeResolutionW)
    case MediaDecodeResolutionH => UInt(r.mediaDecodeResolutionH)
    case MediaDecodeBitrate => Float(r.mediaDecodeBitrate)
    case MediaDecodeFps => Float(r.mediaDecodeFps)
    case InferenceNetworkName => Str(r.inferenceNetworkName)
    case InferenceNetworkHash => Str(r.inferenceNetworkHash)
    case InferenceNetworkTops => Float(r.inferenceNetworkTops)
    case InferenceNetworkFps => Float(r.inferenceNetworkFps)
    case SchedulePolicyType => Policy(r.schedulePolicyType)
    case InternalWorkloadContext => UInt(r.internalWorkload)
  }

  /** A hint record is determined by what each hint reads back as. */
  lemma HintsExtensional(r: Hints, s: Hints)
    requires forall h :: FieldValue(r, h) == FieldValue(s, h)
    ensures r == s
  {
    assert FieldValue(r, Device) == FieldValue(s, Device);
    assert FieldValue(r, MediaDecodeType) == FieldValue(s, MediaDecodeType);
    assert FieldValue(r, MediaDecodeResolutionW) == FieldValue(s, MediaDecodeResolutionW);
    assert FieldValue(r, MediaDecodeResolutionH) == FieldValue(s, MediaDecodeResolutionH);
    assert FieldValue(r, MediaDecodeBitrate) == FieldValue(s, MediaDecodeBitrate);
    assert FieldValue(r, MediaDecodeFps) == FieldValue(s, MediaDecodeFps);
    assert FieldValue(r, InferenceNetworkName) == FieldValue(s, InferenceNetworkName);
    assert FieldValue(r, InferenceNetworkHash) == FieldValue(s, InferenceNetworkHash);
    assert FieldValue(r, InferenceNetworkTops) == FieldValue(s, InferenceNetworkTops);
    assert FieldValue(r, InferenceNetworkFps) == FieldValue(s, InferenceNetworkFps);
    assert FieldValue(r, SchedulePolicyType) == FieldValue(s, SchedulePolicyType);
    assert FieldValue(r, InternalWorkloadContext) == FieldValue(s, InternalWorkloadContext);
  }

  /** The record with the member behind `h` set to `v`'s payload. */
  function WithField(r: Hints, h: Hint, v: HintValue): Hints
    requires CheckOne(h, v)
  {
    match h
    case Device => r.(device := v.d)
    case MediaDecodeType => r.(mediaDecodeType := v.m)
    case MediaDecodeResolutionW => r.(mediaDecodeResolutionW := v.u)
    case MediaDecodeResolutionH => r.(mediaDecodeResolutionH := v.u)
    case MediaDecodeBitrate => r.(mediaDecodeBitrate := v.f)
    case MediaDecodeFps => r.(mediaDecodeFps := v.f)
    case InferenceNetworkName => r.(inferenceNetworkName := v.s)
    case InferenceNetworkHash => r.(inferenceNetworkHash := v.s)
    case InferenceNetworkTops => r.(inferenceNetworkTops := v.f)
    case InferenceNetworkFps => r.(inferenceNetworkFps := v.f)
    case SchedulePolicyType => r.(schedulePolicyType := v.p)
    case InternalWorkloadContext => r.(internalWorkload := v.u)
  }

  /** Writing one hint makes it read back as the value written and leaves every other hint as it was. */
  lemma WithFieldReadsBack(r: Hints, h: Hint, v: HintValue, h': Hint)
    requires CheckOne(h, v)
    ensures FieldValue(WithField(r, h, v), h') == if h' == h then v else FieldValue(r, h')
  {
    match h
    case Device =>
    case MediaDecodeType =>
    case MediaDecodeResolutionW =>
    case MediaDecodeResolutionH =>
    case MediaDecodeBitrate =>
    case MediaDecodeFps =>
    case InferenceNetworkName =>
    case InferenceNetworkHash =>
    case InferenceNetworkTops =>
    case InferenceNetworkFps =>
    case SchedulePolicyType =>
    case InternalWorkloadContext =>
  }

  /** Writing one hint, for every hint at once: see WithFieldReadsBack. */
  lemma WithFieldReadsBackAll(r: Hints, h: Hint, v: HintValue)
    requires CheckOne(h, v)
    ensures forall h' :: FieldValue(WithField(r, h, v), h') == if h' == h then v else FieldValue(r, h')
  {
    forall h' {
      WithFieldReadsBack(r, h, v, h');
    }
  }

  /**
   * The outcome of one __setHint overload. Its bodies are not part of this
   * model, so `rejected` names the pairs they refuse; a value of the wrong
   * kind has no member to land in and is refused as well.
   */
  predicate Writable(h: Hint, v: HintValue, rejected: set<(Hint, HintValue)>) {
    CheckOne(h, v) && (h, v) !in rejected
  }

  /**
   * __setHint: writes the member behind `h`, or fails (None) and writes
   * nothing when the pair is not writable.
   */
  function ApplyOne(r: Hints, h: Hint, v: HintValue, rejected: set<(Hint, HintValue)>): (r': Option<Hints>)
    ensures r'.Some? <==> Writable(h, v, rejected)
    ensures r'.Some? ==> forall h' :: FieldValue(r'.value, h') == if h' == h then v else FieldValue(r, h')
  {
    if Writable(h, v, rejected) then WithFieldReadsBackAll(r, h, v); Some(WithField(r, h, v)) else None
  }

  /** _getHint: the hint's value when it is read as a kind it supports. */
  function GetHintOf(r: Hints, h: Hint, k: Kind): (v: Option<HintValue>)
    ensures v.Some? <==> ReadableAs(h, k)
  {
    if ReadableAs(h, k) then Some(FieldValue(r, h)) else None
  }

  /** setHintCheck: every pair of the argument pack passes its own check. */
  function CheckAll(pairs: seq<(Hint, HintValue)>): (ok: bool)
    ensures ok <==> forall i :: 0 <= i < |pairs| ==> CheckOne(pairs[i].0, pairs[i].1)
  {
    if |pairs| == 0 then true
    else CheckOne(pairs[0].0, pairs[0].1) && CheckAll(pairs[1..])
  }

  /**
   * _setHint: applies the pairs left to right and stops at the first whose
   * __setHint fails; the pairs before it stay applied.
   */
  function ApplyAll(r: Hints, pairs: seq<(Hint, HintValue)>, rejected: set<(Hint, HintValue)>): (bool, Hints)
    decreases |pairs|
  {
    if |pairs| == 0 then (true, r)
    else
      match ApplyOne(r, pairs[0].0, pairs[0].1, rejected)
      case None => (false, r)
      case Some(r1) => ApplyAll(r1, pairs[1..], rejected)
  }

  /** setHint: check every pair first, and apply only when all of them pass. */
  function SetHintOf(r: Hints, pairs: seq<(Hint, HintValue)>, rejected: set<(Hint, HintValue)>): (bool, Hints)
  {
    if CheckAll(pairs) then ApplyAll(r, pairs, rejected) else (false, r)
  }

  /** _setHint reports success exactly when every pair of the pack is writable. */
  lemma {:induction false} ApplyAllSucceedsIff(r: Hints, pairs: seq<(Hint, HintValue)>, rejected: set<(Hint, HintValue)>)
    ensures ApplyAll(r, pairs, rejected).0 <==>
      forall i :: 0 <= i < |pairs| ==> Writable(pairs[i].0, pairs[i].1, rejected)
    decreases |pairs|
  {
    if |pairs| > 0 {
      var o := ApplyOne(r, pairs[0].0, pairs[0].1, rejected);
      if o.Some? {
        ApplyAllSucceedsIff(o.value, pairs[1..], rejected);
        assert forall i :: 1 <= i < |pairs| ==> pairs[i] == pairs[1..][i - 1];
      }
    }
  }

  /**
   * setHint succeeds exactly when every pair passes its check and its
   * __setHint; a pack that fails the check phase leaves the record as it was.
   */
  lemma SetHintSucceedsIff(r: Hints, pairs: seq<(Hint, HintValue)>, rejected: set<(Hint, HintValue)>)
    ensures SetHintOf(r, pairs, rejected).0 <==>
      forall i :: 0 <= i < |pairs| ==> Writable(pairs[i].0, pairs[i].1, rejected)
    ensures !CheckAll(pairs) ==> SetHintOf(r, pairs, rejected) == (false, r)
  {
    ApplyAllSucceedsIff(r, pairs, rejected);
  }

  /**
   * _setHint meeting a pair that cannot be written after a successful prefix
   * returns false with that prefix applied.
   */
  lemma {:induction false} ApplyStopsAtFailure(r: Hints, done: seq<(Hint, HintValue)>, bad: (Hint, HintValue),
                                                rest: seq<(Hint, HintValue)>, r1: Hints,
                                                rejected: set<(Hint, HintValue)>)
    requires ApplyAll(r, done, rejected) == (true, r1)
    requires !Writable(bad.0, bad.1, rejected)
    ensures ApplyAll(r, done + [bad] + rest, rejected) == (false, r1)
    decreases |done|
  {
    if |done| == 0 {
      assert done + [bad] + rest == [bad] + rest;
    } else {
      var r0 := ApplyOne(r, done[0].0, done[0].1, rejected).value;
      assert (done + [bad] + rest)[1..] == done[1..] + [bad] + rest;
      ApplyStopsAtFailure(r0, done[1..], bad, rest, r1, rejected);
    }
  }

  /** The value of the last pair naming `h`, if any pair does. */
  function LastValue(pairs: seq<(Hint, HintValue)>, h: Hint): Option<HintValue>
  {
    if |pairs| == 0 then None
    else
      match LastValue(pairs[1..], h)
      case Some(v) => Some(v)
      case None => if pairs[0].0 == h then Some(pairs[0].1) else None
  }

  /** The value `h` holds after a pack whose last pair naming it, if any, is in `pairs`. */
  function ReadBack(r: Hints, pairs: seq<(Hint, HintValue)>, h: Hint): HintValue
  {
    match LastValue(pairs, h) case Some(v) => v case None => FieldValue(r, h)
  }

  /**
   * After _setHint succeeds, each hint reads back as the last value given for
   * it in the call, and every hint the call did not name keeps its value.
   */
  lemma {:induction false} ApplyAllReadBack(r: Hints, pairs: seq<(Hint, HintValue)>, h: Hint,
                                            rejected: set<(Hint, HintValue)>)
    requires ApplyAll(r, pairs, rejected).0
    ensures FieldValue(ApplyAll(r, pairs, rejected).1, h) == ReadBack(r, pairs, h)
    decreases |pairs|
  {
    if |pairs| > 0 {
      var r1 := ApplyOne(r, pairs[0].0, pairs[0].1, rejected).value;
      ApplyAllReadBack(r1, pairs[1..], h, rejected);
    }
  }

  /**
   * setHint is atomic only in its check phase: when every pair passes the
   * check but the __setHint of pair `k` fails, setHint returns false with the
   * pairs before `k` written and every other hint as it was.
   */
  lemma SetHintPartialFailure(r: Hints, pairs: seq<(Hint, HintValue)>, rejected: set<(Hint, HintValue)>, k: nat)
    requires CheckAll(pairs)
    requires k < |pairs| && pairs[k] in rejected
    requires forall i :: 0 <= i < k ==> pairs[i] !in rejected
    ensures !SetHintOf(r, pairs, rejected).0
    ensures SetHintOf(r, pairs, rejected).1 == ApplyAll(r, pairs[..k], rejected).1
    ensures forall h :: FieldValue(SetHintOf(r, pairs, rejected).1, h) == ReadBack(r, pairs[..k], h)
  {
    var done := pairs[..k];
    assert forall i :: 0 <= i < |done| ==> done[i] == pairs[i];
    ApplyAllSucceedsIff(r, done, rejected);
    var r1 := ApplyAll(r, done, rejected).1;
    ApplyStopsAtFailure(r, done, pairs[k], pairs[k + 1..], r1, rejected);
    assert done + [pairs[k]] + pairs[k + 1..] == pairs;
    forall h {
      ApplyAllReadBack(r, done, h, rejected);
    }
  }

  /** A concrete pack: the width is written, the height's __setHint fails, and setHint still reports failure. */
  lemma WidthKeptWhenHeightRejected()
    ensures SetHintOf(DefaultHints, [(MediaDecodeResolutionW, UInt(1920)), (MediaDecodeResolutionH, UInt(1080))],
                      {(MediaDecodeResolutionH, UInt(1080))})
            == (false, DefaultHints.(mediaDecodeResolutionW := 1920))
  {
    var pairs := [(MediaDecodeResolutionW, UInt(1920)), (MediaDecodeResolutionH, UInt(1080))];
    assert pairs[1..] == [(MediaDecodeResolutionH, UInt(1080))];
  }

  /** After a successful single-pair setHint(h, v), getHint(h) in v's own kind yields v. */
  lemma SetThenGet(r: Hints, h: Hint, v: HintValue, rejected: set<(Hint, HintValue)>)
    requires SetHintOf(r, [(h, v)], rejected).0
    ensures GetHintOf(SetHintOf(r, [(h, v)], rejected).1, h, KindOf(v)) == Some(v)
  {
    ApplyAllReadBack(r, [(h, v)], h, rejected);
    assert LastValue([(h, v)], h) == Some(v) by {
      assert [(h, v)][1..] == [];
    }
  }

  /**
   * After a successful setHint every named hint reads back as its last value
   * and no other hint changes.
   */
  lemma SetHintReadBack(r: Hints, pairs: seq<(Hint, HintValue)>, h: Hint, rejected: set<(Hint, HintValue)>)
    requires SetHintOf(r, pairs, rejected).0
    ensures GetHintOf(SetHintOf(r, pairs, rejected).1, h, AcceptedKind(h)) == Some(ReadBack(r, pairs, h))
  {
    ApplyAllReadBack(r, pairs, h, rejected);
  }

  /** `r` is `s` with some elements dropped and the rest kept in their order. */
  predicate IsSubsequence(r: seq<ChannelID>, s: seq<ChannelID>)
    decreases |s|
  {
    if |r| == 0 then true
    else if |s| == 0 then false
    else (r[0] == s[0] && IsSubsequence(r[1..], s[1..])) || IsSubsequence(r, s[1..])
  }

  /** `s` without any occurrence of `c` (releaseVAChannelId); the other IDs keep their order and multiplicity. */
  function Without(s: seq<ChannelID>, c: ChannelID): (r: seq<ChannelID>)
    ensures IsSubsequence(r, s)
    ensures multiset(r)[c] == 0 && forall x :: x != c ==> multiset(r)[x] == multiset(s)[x]
    ensures forall x :: x in r <==> x in s && x != c
    ensures c in s ==> |r| < |s|
    ensures c !in s ==> r == s
  {
    if |s| == 0 then []
    else
      assert s == [s[0]] + s[1..];
      if s[0] == c then Without(s[1..], c)
      else
        var rest := Without(s[1..], c);
        assert ([s[0]] + rest)[1..] == rest;
        [s[0]] + rest
  }

  class WorkloadContext {
    var workloadID: WorkloadID
    var device: Option<HddlUnite.Device>
    var mediaDecodeType: C.MediaDecodeType
    var schedulePolicyType: C.SchedulePolicyType
    var mediaDecodeResolutionW: U32
    var mediaDecodeResolutionH: U32
    var mediaDecodeBitrate: C.Float32
    var mediaDecodeFps: C.Float32
    var inferenceNetworkName: string
    var inferenceNetworkHash: string
    var inferenceNetworkTops: C.Float32
    var inferenceNetworkFps: C.Float32
    var internalWorkload: U32
    var pid: PID
    var tid: TID
    var vaChannelIDs: seq<ChannelID>

    /** The hint members as one value. */
    function HintsNow(): Hints
      reads this
    {
      Hints(device, mediaDecodeType, schedulePolicyType, mediaDecodeResolutionW, mediaDecodeResolutionH,
            mediaDecodeBitrate, mediaDecodeFps, inferenceNetworkName, inferenceNetworkHash,
            inferenceNetworkTops, inferenceNetworkFps, internalWorkload)
    }

    /** The members that hints never touch. */
    function Identity(): (WorkloadID, PID, TID, seq<ChannelID>)
      reads this
    {
      (workloadID, pid, tid, vaChannelIDs)
    }

    function GetWorkloadContextID(): WorkloadID reads this { workloadID }
    function GetWorkloadContextPid(): PID reads this { pid }
    function GetWorkloadContextTid(): TID reads this { tid }
    function GetDevice(): Option<HddlUnite.Device> reads this { device }

    /** The bound device's software ID; 0 when no device is bound. */
    function GetSwDeviceId(): U32
      reads this
    {
      if device.Some? then device.value.GetSwDeviceId() else 0
    }

    /** A fresh context: workload ID 0, PID and TID 0, default hints, no VA channels. */
    constructor ()
      ensures HintsNow() == DefaultHints
      ensures Identity() == (0, 0, 0, [])
    {
      workloadID, pid, tid, vaChannelIDs := 0, 0, 0, [];
      device := None;
      mediaDecodeType, schedulePolicyType := C.H264, C.Undefined;
      mediaDecodeResolutionW, mediaDecodeResolutionH := 0, 0;
      mediaDecodeBitrate, mediaDecodeFps := 0, 0;
      inferenceNetworkName, inferenceNetworkHash := [], [];
      inferenceNetworkTops, inferenceNetworkFps := 0, 0;
      internalWorkload := 0;
    }

    /** The copy constructor copies every member. */
    constructor Copy(other: WorkloadContext)
      ensures HintsNow() == other.HintsNow()
      ensures Identity() == other.Identity()
    {
      workloadID, pid, tid, vaChannelIDs := other.workloadID, other.pid, other.tid, other.vaChannelIDs;
      device := other.device;
      mediaDecodeType, schedulePolicyType := other.mediaDecodeType, other.schedulePolicyType;
      mediaDecodeResolutionW, mediaDecodeResolutionH := other.mediaDecodeResolutionW, other.mediaDecodeResolutionH;
      mediaDecodeBitrate, mediaDecodeFps := other.mediaDecodeBitrate, other.mediaDecodeFps;
      inferenceNetworkName, inferenceNetworkHash := other.inferenceNetworkName, other.inferenceNetworkHash;
      inferenceNetworkTops, inferenceNetworkFps := other.inferenceNetworkTops, other.inferenceNetworkFps;
      internalWorkload := other.internalWorkload;
    }

    /** __setHint: writes one member, or fails without writing when the pair is not writable. */
    method SetOne(h: Hint, v: HintValue, rejected: set<(Hint, HintValue)>) returns (ok: bool)
      modifies this
      ensures ok <==> Writable(h, v, rejected)
      ensures ApplyOne(old(HintsNow()), h, v, rejected) == if ok then Some(HintsNow()) else None
      ensures !ok ==> HintsNow() == old(HintsNow())
      ensures Identity() == old(Identity())
    {
      if !Writable(h, v, rejected) {
        return false;
      }
      match h {
      case Device => device := v.d;
      case MediaDecodeType => mediaDecodeType := v.m;
      case MediaDecodeResolutionW => mediaDecodeResolutionW := v.u;
      case MediaDecodeResolutionH => mediaDecodeResolutionH := v.u;
      case MediaDecodeBitrate => mediaDecodeBitrate := v.f;
      case MediaDecodeFps => mediaDecodeFps := v.f;
      case InferenceNetworkName => inferenceNetworkName := v.s;
      case InferenceNetworkHash => inferenceNetworkHash := v.s;
      case InferenceNetworkTops => inferenceNetworkTops := v.f;
      case InferenceNetworkFps => inferenceNetworkFps := v.f;
      case SchedulePolicyType => schedulePolicyType := v.p;
      case InternalWorkloadContext => internalWorkload := v.u;
      }
      ok := true;
    }

    /** _setHint: applies the pairs in order and stops at the first failure. */
    method ApplyHints(pairs: seq<(Hint, HintValue)>, rejected: set<(Hint, HintValue)>) returns (ok: bool)
      modifies this
      ensures (ok, HintsNow()) == ApplyAll(old(HintsNow()), pairs, rejected)
      ensures Identity() == old(Identity())
    {
      var i := 0;
      while i < |pairs|
        invariant 0 <= i <= |pairs|
        invariant ApplyAll(old(HintsNow()), pairs, rejected) == ApplyAll(HintsNow(), pairs[i..], rejected)
        invariant Identity() == old(Identity())
      {
        assert pairs[i..][1..] == pairs[i + 1..];
        var step := SetOne(pairs[i].0, pairs[i].1, rejected);
        if !step {
          return false;
        }
        i := i + 1;
      }
      ok := true;
    }

    /**
     * setHint(hint, value, args...): all pairs are checked before any is
     * applied, so a pack failing the check changes nothing; a __setHint
     * failing afterwards leaves the pairs before it written.
     */
    method SetHint(pairs: seq<(Hint, HintValue)>, rejected: set<(Hint, HintValue)>) returns (ok: bool)
      requires |pairs| >= 1
      modifies this
      ensures (ok, HintsNow()) == SetHintOf(old(HintsNow()), pairs, rejected)
      ensures ok <==> forall i :: 0 <= i < |pairs| ==> Writable(pairs[i].0, pairs[i].1, rejected)
      ensures !CheckAll(pairs) ==> HintsNow() == old(HintsNow())
      ensures Identity() == old(Identity())
    {
      SetHintSucceedsIff(HintsNow(), pairs, rejected);
      if !CheckAll(pairs) {
        return false;
      }
      ok := ApplyHints(pairs, rejected);
    }

    /** getHint: reads one hint in the requested kind, or fails when the hint has no such kind. */
    method GetHint(h: Hint, k: Kind) returns (ok: bool, v: HintValue)
      ensures ok <==> ReadableAs(h, k)
      ensures ok ==> v == FieldValue(HintsNow(), h) && GetHintOf(HintsNow(), h, k) == Some(v)
    {
      if !ReadableAs(h, k) {
        return false, UInt(0);
      }
      return true, FieldValue(HintsNow(), h);
    }

    /** setContext: records the workload ID assigned to this context and the calling PID and TID. */
    method SetContext(workloadId: WorkloadID, callerPid: PID, callerTid: TID) returns (status: Status)
      modifies this
      ensures status == Ok
      ensures GetWorkloadContextID() == workloadId
      ensures GetWorkloadContextPid() == callerPid && GetWorkloadContextTid() == callerTid
      ensures HintsNow() == old(HintsNow()) && vaChannelIDs == old(vaChannelIDs)
    {
      workloadID, pid, tid := workloadId, callerPid, callerTid;
      status := Ok;
    }

    /**
     * allocateVAChannelId: `granted` are the `count` IDs the device service
     * assigns; they are returned and added to this context's list.
     */
    method AllocateVAChannelId(count: int, granted: seq<ChannelID>) returns (status: Status, channelIds: seq<ChannelID>)
      requires count >= 0 ==> |granted| == count
      modifies this
      ensures status == Ok <==> count >= 0
      ensures status != Ok ==> status == InvalidParam && vaChannelIDs == old(vaChannelIDs)
      ensures status == Ok ==> channelIds == granted && vaChannelIDs == old(vaChannelIDs) + granted
      ensures HintsNow() == old(HintsNow())
      ensures (workloadID, pid, tid) == old((workloadID, pid, tid))
    {
      if count < 0 {
        return InvalidParam, [];
      }
      vaChannelIDs := vaChannelIDs + granted;
      return Ok, granted;
    }

    /** getVAChannelId: the current list of VA channel IDs. */
    method GetVAChannelId() returns (status: Status, channelIds: seq<ChannelID>)
      ensures status == Ok && channelIds == vaChannelIDs
    {
      return Ok, vaChannelIDs;
    }

    /** releaseVAChannelId: removes `channelId` from the list; an ID not in the list is InvalidParam. */
    method ReleaseVAChannelId(channelId: ChannelID) returns (status: Status)
      modifies this
      ensures status == Ok <==> channelId in old(vaChannelIDs)
      ensures status != Ok ==> status == InvalidParam
      ensures status == Ok ==> vaChannelIDs == Without(old(vaChannelIDs), channelId)
      ensures status != Ok ==> vaChannelIDs == old(vaChannelIDs)
      ensures channelId !in vaChannelIDs
      ensures forall c :: c != channelId ==> (c in vaChannelIDs <==> c in old(vaChannelIDs))
      ensures HintsNow() == old(HintsNow())
      ensures (workloadID, pid, tid) == old((workloadID, pid, tid))
    {
      if channelId !in vaChannelIDs {
        return InvalidParam;
      }
      vaChannelIDs := Without(vaChannelIDs, channelId);
      status := Ok;
    }
  }
}
