/**
 * The process-wide workload registry: workload IDs to contexts, and the
 * (PID, TID) table through which a later call site on the same thread finds
 * the workload again. It serves the C++ free functions (register, query,
 * unregister, bind) and the workload-ID-keyed C functions of the media shim.
 */
module WorkloadRegistry {
  import opened Wrappers
  import opened HddlUniteC
  import C = WorkloadContextC
  import HddlUnite
  import opened Workload

  /** The largest 64-bit workload ID; fresh IDs stop one below it. */
  const MAX_WORKLOAD_ID: int := U64_LIMIT - 1

  /** The pairs through which createWorkloadContext sets the hints of a ContextHint. */
  function ContextHintPairs(hint: C.ContextHint): seq<(Hint, HintValue)>
  {
    [ (MediaDecodeType, Media(hint.mediaDecodeType)),
      (MediaDecodeBitrate, Float(hint.mediaBitrate)),
      (MediaDecodeResolutionW, UInt(hint.resolutionWidth)),
      (MediaDecodeResolutionH, UInt(hint.resolutionHeight)),
      (MediaDecodeFps, Float(hint.mediaFps)),
      (InternalWorkloadContext, UInt(hint.internalWorkload)) ]
  }

  /** No __setHint of a ContextHint's six pairs is refused. */
  predicate ContextHintAccepted(hint: C.ContextHint, rejected: set<(Hint, HintValue)>) {
    && (MediaDecodeType, Media(hint.mediaDecodeType)) !in rejected
    && (MediaDecodeBitrate, Float(hint.mediaBitrate)) !in rejected
    && (MediaDecodeResolutionW, UInt(hint.resolutionWidth)) !in rejected
    && (MediaDecodeResolutionH, UInt(hint.resolutionHeight)) !in rejected
    && (MediaDecodeFps, Float(hint.mediaFps)) !in rejected
    && (InternalWorkloadContext, UInt(hint.internalWorkload)) !in rejected
  }

  /** Every pair of a ContextHint passes its check, so the pack is writable exactly when none is refused. */
  lemma ContextHintWritableIff(hint: C.ContextHint, rejected: set<(Hint, HintValue)>)
    ensures CheckAll(ContextHintPairs(hint))
    ensures (forall i :: 0 <= i < |ContextHintPairs(hint)| ==>
               Writable(ContextHintPairs(hint)[i].0, ContextHintPairs(hint)[i].1, rejected))
            <==> ContextHintAccepted(hint, rejected)
  {
    var p := ContextHintPairs(hint);
    assert p[0] == (MediaDecodeType, Media(hint.mediaDecodeType));
    assert p[1] == (MediaDecodeBitrate, Float(hint.mediaBitrate));
    assert p[2] == (MediaDecodeResolutionW, UInt(hint.resolutionWidth));
    assert p[3] == (MediaDecodeResolutionH, UInt(hint.resolutionHeight));
    assert p[4] == (MediaDecodeFps, Float(hint.mediaFps));
    assert p[5] == (InternalWorkloadContext, UInt(hint.internalWorkload));
  }

  /** Setting a ContextHint's pairs, none of which is refused, stores each of its six fields and touches no other hint. */
  lemma ContextHintApplies(r: Hints, hint: C.ContextHint, rejected: set<(Hint, HintValue)>)
    requires ContextHintAccepted(hint, rejected)
    ensures SetHintOf(r, ContextHintPairs(hint), rejected) ==
      (true, r.(mediaDecodeType := hint.mediaDecodeType, mediaDecodeBitrate := hint.mediaBitrate,
                mediaDecodeResolutionW := hint.resolutionWidth, mediaDecodeResolutionH := hint.resolutionHeight,
                mediaDecodeFps := hint.mediaFps, internalWorkload := hint.internalWorkload))
  {
    assert CheckAll(ContextHintPairs(hint));
    ContextHintApplyAll(r, hint, rejected);
  }

  /** Applying the six pairs one after another stores each field. */
  lemma ContextHintApplyAll(r: Hints, hint: C.ContextHint, rejected: set<(Hint, HintValue)>)
    requires ContextHintAccepted(hint, rejected)
    ensures ApplyAll(r, ContextHintPairs(hint), rejected) ==
      (true, r.(mediaDecodeType := hint.mediaDecodeType, mediaDecodeBitrate := hint.mediaBitrate,
                mediaDecodeResolutionW := hint.resolutionWidth, mediaDecodeResolutionH := hint.resolutionHeight,
                mediaDecodeFps := hint.mediaFps, internalWorkload := hint.internalWorkload))
  {
    var t3 := ContextHintTail(hint);
    var t2 := [(MediaDecodeResolutionW, UInt(hint.resolutionWidth))] + t3;
    var t1 := [(MediaDecodeBitrate, Float(hint.mediaBitrate))] + t2;
    var t0 := [(MediaDecodeType, Media(hint.mediaDecodeType))] + t1;
    var r1 := r.(mediaDecodeType := hint.mediaDecodeType);
    var r2 := r1.(mediaDecodeBitrate := hint.mediaBitrate);
    var r3 := r2.(mediaDecodeResolutionW := hint.resolutionWidth);
    ContextHintTailApplies(r3, hint, rejected);
    assert ApplyAll(r2, t2, rejected) == ApplyAll(r3, t3, rejected) by {
      ApplyFirst(r2, MediaDecodeResolutionW, UInt(hint.resolutionWidth), t3, rejected);
      assert WithField(r2, MediaDecodeResolutionW, UInt(hint.resolutionWidth)) == r3;
    }
    assert ApplyAll(r1, t1, rejected) == ApplyAll(r2, t2, rejected) by {
      ApplyFirst(r1, MediaDecodeBitrate, Float(hint.mediaBitrate), t2, rejected);
      assert WithField(r1, MediaDecodeBitrate, Float(hint.mediaBitrate)) == r2;
    }
    assert ApplyAll(r, t0, rejected) == ApplyAll(r1, t1, rejected) by {
      ApplyFirst(r, MediaDecodeType, Media(hint.mediaDecodeType), t1, rejected);
      assert WithField(r, MediaDecodeType, Media(hint.mediaDecodeType)) == r1;
    }
    assert ContextHintPairs(hint) == t0;
  }

  /** The last three pairs of a ContextHint. */
  function ContextHintTail(hint: C.ContextHint): seq<(Hint, HintValue)>
  {
    [ (MediaDecodeResolutionH, UInt(hint.resolutionHeight)),
      (MediaDecodeFps, Float(hint.mediaFps)),
      (InternalWorkloadContext, UInt(hint.internalWorkload)) ]
  }

  /** Applying the last three pairs stores the height, the frame rate and the internal-workload flag. */
  lemma ContextHintTailApplies(r: Hints, hint: C.ContextHint, rejected: set<(Hint, HintValue)>)
    requires ContextHintAccepted(hint, rejected)
    ensures ApplyAll(r, ContextHintTail(hint), rejected) ==
      (true, r.(mediaDecodeResolutionH := hint.resolutionHeight, mediaDecodeFps := hint.mediaFps,
                internalWorkload := hint.internalWorkload))
  {
    var t6: seq<(Hint, HintValue)> := [];
    var t5 := [(InternalWorkloadContext, UInt(hint.internalWorkload))] + t6;
    var t4 := [(MediaDecodeFps, Float(hint.mediaFps))] + t5;
    var t3 := [(MediaDecodeResolutionH, UInt(hint.resolutionHeight))] + t4;
    var r4 := r.(mediaDecodeResolutionH := hint.resolutionHeight);
    var r5 := r4.(mediaDecodeFps := hint.mediaFps);
    var r6 := r5.(internalWorkload := hint.internalWorkload);
    assert ApplyAll(r5, t5, rejected) == (true, r6) by {
      ApplyFirst(r5, InternalWorkloadContext, UInt(hint.internalWorkload), t6, rejected);
      assert WithField(r5, InternalWorkloadContext, UInt(hint.internalWorkload)) == r6;
    }
    assert ApplyAll(r4, t4, rejected) == ApplyAll(r5, t5, rejected) by {
      ApplyFirst(r4, MediaDecodeFps, Float(hint.mediaFps), t5, rejected);
      assert WithField(r4, MediaDecodeFps, Float(hint.mediaFps)) == r5;
    }
    assert ApplyAll(r, t3, rejected) == ApplyAll(r4, t4, rejected) by {
      ApplyFirst(r, MediaDecodeResolutionH, UInt(hint.resolutionHeight), t4, rejected);
      assert WithField(r, MediaDecodeResolutionH, UInt(hint.resolutionHeight)) == r4;
    }
    assert ContextHintTail(hint) == t3;
  }

  /** Applying a pack whose first pair is writable writes that pair and goes on with the rest. */
  lemma ApplyFirst(r: Hints, h: Hint, v: HintValue, rest: seq<(Hint, HintValue)>, rejected: set<(Hint, HintValue)>)
    requires Writable(h, v, rejected)
    ensures ApplyAll(r, [(h, v)] + rest, rejected) == ApplyAll(WithField(r, h, v), rest, rejected)
  {
    assert ([(h, v)] + rest)[1..] == rest;
  }

  class Registry {
    var contexts: map<WorkloadID, WorkloadContext>
    var threadIds: map<(PID, TID), WorkloadID>
    var nextId: WorkloadID

    /** Every ID in use was handed out earlier, so the next fresh ID is unused; 0 is never an ID. */
    ghost predicate Valid()
      reads this
    {
      && 1 <= nextId
      && (forall id :: id in contexts ==> 0 < id < nextId)
      && (forall k :: k in threadIds ==> 0 < threadIds[k] < nextId)
    }

    constructor ()
      ensures Valid()
      ensures contexts == map[] && threadIds == map[]
    {
      contexts, threadIds, nextId := map[], map[], 1;
    }

    /**
     * getWorkloadContextId: the workload ID already recorded for (pid, tid), or
     * else a new ID that no context and no other thread holds.
     */
    method GetWorkloadContextId(pid: PID, tid: TID) returns (status: Status, workloadId: WorkloadID)
      requires Valid()
      modifies this
      ensures Valid()
      ensures contexts == old(contexts)
      ensures status == Ok || status == ResourceBusy
      ensures (pid, tid) in old(threadIds) ==>
        status == Ok && workloadId == old(threadIds)[(pid, tid)] && threadIds == old(threadIds)
      ensures (pid, tid) !in old(threadIds) && status == Ok ==>
        && workloadId != 0
        && workloadId !in old(contexts)
        && (forall k :: k in old(threadIds) ==> old(threadIds)[k] != workloadId)
        && threadIds == old(threadIds)[(pid, tid) := workloadId]
      ensures status == ResourceBusy ==> (pid, tid) !in old(threadIds) && threadIds == old(threadIds)
      ensures status == Ok ==> (pid, tid) in threadIds && threadIds[(pid, tid)] == workloadId
    {
      if (pid, tid) in threadIds {
        return Ok, threadIds[(pid, tid)];
      }
      if nextId == MAX_WORKLOAD_ID {
        return ResourceBusy, 0;
      }
      workloadId := nextId;
      nextId := nextId + 1;
      threadIds := threadIds[(pid, tid) := workloadId];
      status := Ok;
    }

    /**
     * registerWorkloadContext (through setContext): the context gets the
     * workload ID of the calling thread and becomes visible under it.
     */
    method Register(ctx: WorkloadContext, pid: PID, tid: TID) returns (status: Status, workloadId: WorkloadID)
      requires Valid()
      modifies this, ctx
      ensures Valid()
      ensures status == Ok || status == ResourceBusy
      ensures status == Ok ==>
        && contexts == old(contexts)[workloadId := ctx]
        && threadIds == old(threadIds)[(pid, tid) := workloadId]
        && ctx.GetWorkloadContextID() == workloadId
        && ctx.GetWorkloadContextPid() == pid && ctx.GetWorkloadContextTid() == tid
      ensures (pid, tid) in old(threadIds) ==> status == Ok && workloadId == old(threadIds)[(pid, tid)]
      ensures status != Ok ==> contexts == old(contexts) && threadIds == old(threadIds)
      ensures ctx.HintsNow() == old(ctx.HintsNow()) && ctx.vaChannelIDs == old(ctx.vaChannelIDs)
    {
      status, workloadId := GetWorkloadContextId(pid, tid);
      if status != Ok {
        return;
      }
      var _ := ctx.SetContext(workloadId, pid, tid);
      contexts := contexts[workloadId := ctx];
    }

    /** queryWorkloadContext: the registered context, or null. */
    method Query(workloadId: WorkloadID) returns (ctx: WorkloadContext?)
      requires Valid()
      ensures ctx != null <==> workloadId in contexts
      ensures ctx != null ==> ctx == contexts[workloadId]
    {
      if workloadId in contexts {
        return contexts[workloadId];
      }
      return null;
    }

    /** unregisterWorkloadContext: the workload and every thread bound to it are forgotten. */
    method Unregister(workloadId: WorkloadID)
      requires Valid()
      modifies this
      ensures Valid()
      ensures contexts == old(contexts) - {workloadId}
      ensures forall k :: k in threadIds <==> k in old(threadIds) && old(threadIds)[k] != workloadId
      ensures forall k :: k in threadIds ==> threadIds[k] == old(threadIds)[k]
    {
      contexts := contexts - {workloadId};
      threadIds := map k | k in threadIds && threadIds[k] != workloadId :: threadIds[k];
    }

    /** bindWorkloadContext: makes (pid, tid) resolve to an existing workload. */
    method Bind(pid: PID, tid: TID, workloadId: WorkloadID) returns (status: Status)
      requires Valid()
      modifies this
      ensures Valid()
      ensures status == Ok <==> workloadId in old(contexts)
      ensures status != Ok ==> status == InvalidParam && threadIds == old(threadIds)
      ensures status == Ok ==> threadIds == old(threadIds)[(pid, tid) := workloadId]
      ensures contexts == old(contexts)
    {
      if workloadId !in contexts {
        return InvalidParam;
      }
      threadIds := threadIds[(pid, tid) := workloadId];
      status := Ok;
    }

    /**
     * createWorkloadContext: a new context holding the ContextHint fields,
     * registered for the calling thread. A refused __setHint (`rejected`)
     * is reported as GeneralError and nothing is registered.
     */
    method CreateWorkloadContext(hint: C.ContextHint, pid: PID, tid: TID, rejected: set<(Hint, HintValue)>)
      returns (status: Status, workloadId: WorkloadID, ctx: WorkloadContext)
      requires Valid()
      modifies this
      ensures Valid()
      ensures fresh(ctx)
      ensures status == Ok || status == ResourceBusy || status == GeneralError
      ensures status == GeneralError <==> !ContextHintAccepted(hint, rejected)
      ensures ContextHintAccepted(hint, rejected) ==> ctx.HintsNow() == DefaultHints.(
        mediaDecodeType := hint.mediaDecodeType, mediaDecodeBitrate := hint.mediaBitrate,
        mediaDecodeResolutionW := hint.resolutionWidth, mediaDecodeResolutionH := hint.resolutionHeight,
        mediaDecodeFps := hint.mediaFps, internalWorkload := hint.internalWorkload)
      ensures status == Ok ==>
        && contexts == old(contexts)[workloadId := ctx]
        && threadIds == old(threadIds)[(pid, tid) := workloadId]
        && ctx.GetWorkloadContextID() == workloadId
        && ctx.GetWorkloadContextPid() == pid && ctx.GetWorkloadContextTid() == tid
      ensures (pid, tid) in old(threadIds) && ContextHintAccepted(hint, rejected) ==>
        status == Ok && workloadId == old(threadIds)[(pid, tid)]
      ensures status != Ok ==> contexts == old(contexts) && threadIds == old(threadIds)
    {
      ctx := new WorkloadContext();
      ContextHintWritableIff(hint, rejected);
      if ContextHintAccepted(hint, rejected) {
        ContextHintApplies(ctx.HintsNow(), hint, rejected);
      }
      var ok := ctx.SetHint(ContextHintPairs(hint), rejected);
      if !ok {
        return GeneralError, 0, ctx;
      }
      status, workloadId := Register(ctx, pid, tid);
    }

    /** destroyWorkloadContext: the workload is no longer present. */
    method DestroyWorkloadContext(workloadId: WorkloadID)
      requires Valid()
      modifies this
      ensures Valid()
      ensures workloadId !in contexts
      ensures contexts == old(contexts) - {workloadId}
      ensures forall k :: k in threadIds ==> threadIds[k] != workloadId
      ensures forall k :: k in threadIds <==> k in old(threadIds) && old(threadIds)[k] != workloadId
      ensures forall k :: k in threadIds ==> threadIds[k] == old(threadIds)[k]
    {
      Unregister(workloadId);
    }

    /** getMediaType */
    method GetMediaType(workloadId: WorkloadID) returns (status: Status, value: C.MediaDecodeType)
      ensures status == Ok <==> workloadId in contexts
      ensures status != Ok ==> status == InvalidParam
      ensures status == Ok ==> value == contexts[workloadId].HintsNow().mediaDecodeType
    {
      if workloadId !in contexts {
        return InvalidParam, C.H264;
      }
      return Ok, contexts[workloadId].mediaDecodeType;
    }

    /** getMediaBitrate */
    method GetMediaBitrate(workloadId: WorkloadID) returns (status: Status, value: C.Float32)
      ensures status == Ok <==> workloadId in contexts
      ensures status != Ok ==> status == InvalidParam
      ensures status == Ok ==> value == contexts[workloadId].HintsNow().mediaDecodeBitrate
    {
      if workloadId !in contexts {
        return InvalidParam, 0;
      }
      return Ok, contexts[workloadId].mediaDecodeBitrate;
    }

    /** getResolutionWidth */
    method GetResolutionWidth(workloadId: WorkloadID) returns (status: Status, value: U32)
      ensures status == Ok <==> workloadId in contexts
      ensures status != Ok ==> status == InvalidParam
      ensures status == Ok ==> value == contexts[workloadId].HintsNow().mediaDecodeResolutionW
    {
      if workloadId !in contexts {
        return InvalidParam, 0;
      }
      return Ok, contexts[workloadId].mediaDecodeResolutionW;
    }

    /** getResolutionHeight */
    method GetResolutionHeight(workloadId: WorkloadID) returns (status: Status, value: U32)
      ensures status == Ok <==> workloadId in contexts
      ensures status != Ok ==> status == InvalidParam
      ensures status == Ok ==> value == contexts[workloadId].HintsNow().mediaDecodeResolutionH
    {
      if workloadId !in contexts {
        return InvalidParam, 0;
      }
      return Ok, contexts[workloadId].mediaDecodeResolutionH;
    }

    /** getMediaFps */
    method GetMediaFps(workloadId: WorkloadID) returns (status: Status, value: C.Float32)
      ensures status == Ok <==> workloadId in contexts
      ensures status != Ok ==> status == InvalidParam
      ensures status == Ok ==> value == contexts[workloadId].HintsNow().mediaDecodeFps
    {
      if workloadId !in contexts {
        return InvalidParam, 0;
      }
      return Ok, contexts[workloadId].mediaDecodeFps;
    }

    /** getDeviceName: the name of the workload's device; a workload without a device is GeneralError. */
    method GetDeviceName(workloadId: WorkloadID) returns (status: Status, name: string)
      ensures status == Ok <==> workloadId in contexts && contexts[workloadId].GetDevice().Some?
      ensures workloadId !in contexts ==> status == InvalidParam
      ensures workloadId in contexts && contexts[workloadId].GetDevice().None? ==> status == GeneralError
      ensures status == Ok ==> name == contexts[workloadId].GetDevice().value.GetName()
    {
      if workloadId !in contexts {
        return InvalidParam, [];
      }
      var d := contexts[workloadId].device;
      if d.None? {
        return GeneralError, [];
      }
      return Ok, d.value.GetName();
    }

    /** getSwDeviceId: the software ID of the workload's device; a workload without a device is GeneralError. */
    method GetSwDeviceId(workloadId: WorkloadID) returns (status: Status, deviceId: U32)
      ensures status == Ok <==> workloadId in contexts && contexts[workloadId].GetDevice().Some?
      ensures workloadId !in contexts ==> status == InvalidParam
      ensures workloadId in contexts && contexts[workloadId].GetDevice().None? ==> status == GeneralError
      ensures status == Ok ==> deviceId == contexts[workloadId].GetDevice().value.GetSwDeviceId()
    {
      if workloadId !in contexts {
        return InvalidParam, 0;
      }
      var d := contexts[workloadId].device;
      if d.None? {
        return GeneralError, 0;
      }
      return Ok, d.value.GetSwDeviceId();
    }

    /**
     * allocateVAChannelId (C form): the `size` IDs the device service grants
     * are written to the caller's buffer and added to that workload's list.
     */
    method AllocateVAChannelIdFor(workloadId: WorkloadID, channelId: array<ChannelID>, size: int, granted: seq<ChannelID>)
      returns (status: Status)
      requires size >= 0 ==> |granted| == size && size <= channelId.Length
      modifies if workloadId in contexts then {contexts[workloadId]} else {}, channelId
      ensures status == Ok <==> workloadId in contexts && size >= 0
      ensures status != Ok ==> status == InvalidParam && channelId[..] == old(channelId[..])
      ensures status != Ok && workloadId in contexts ==>
        contexts[workloadId].vaChannelIDs == old(contexts[workloadId].vaChannelIDs)
      ensures status == Ok ==>
        && contexts[workloadId].vaChannelIDs == old(contexts[workloadId].vaChannelIDs) + granted
        && channelId[..size] == granted
        && channelId[size..] == old(channelId[size..])
      ensures workloadId in contexts ==>
        && contexts[workloadId].HintsNow() == old(contexts[workloadId].HintsNow())
        && (contexts[workloadId].workloadID, contexts[workloadId].pid, contexts[workloadId].tid)
           == old((contexts[workloadId].workloadID, contexts[workloadId].pid, contexts[workloadId].tid))
    {
      if workloadId !in contexts || size < 0 {
        return InvalidParam;
      }
      var ctx := contexts[workloadId];
      var ids;
      status, ids := ctx.AllocateVAChannelId(size, granted);
      CopyPrefix(ids, channelId, size);
    }

    /**
     * getVAChannelId (C form): the count-then-copy protocol over the
     * workload's VA channel list.
     */
    method GetVAChannelIdFor(workloadId: WorkloadID, numEntries: nat, channelId: array?<ChannelID>)
      returns (status: Status, numChannels: nat)
      requires channelId != null ==> numEntries <= channelId.Length
      modifies channelId
      ensures workloadId !in contexts ==> status == InvalidParam && numChannels == 0
      ensures workloadId in contexts ==> numChannels == |contexts[workloadId].vaChannelIDs|
      ensures workloadId in contexts && channelId == null ==> status == Ok
      ensures workloadId in contexts && channelId != null ==>
        (status == Ok <==> |contexts[workloadId].vaChannelIDs| <= numEntries)
      ensures status == Ok && channelId != null ==>
        channelId[..numChannels] == contexts[workloadId].vaChannelIDs
        && channelId[numChannels..] == old(channelId[numChannels..])
      ensures status != Ok && channelId != null ==> channelId[..] == old(channelId[..])
    {
      if workloadId !in contexts {
        return InvalidParam, 0;
      }
      status, numChannels := FillTwoCall(contexts[workloadId].vaChannelIDs, numEntries, channelId);
    }

    /** releaseVAChannelId (C form): removes the ID from that workload's list and no other. */
    method ReleaseVAChannelIdFor(workloadId: WorkloadID, channelId: ChannelID) returns (status: Status)
      modifies if workloadId in contexts then {contexts[workloadId]} else {}
      ensures status == Ok <==> workloadId in contexts && channelId in old(contexts[workloadId].vaChannelIDs)
      ensures status != Ok ==> status == InvalidParam
      ensures status == Ok ==>
        contexts[workloadId].vaChannelIDs == Without(old(contexts[workloadId].vaChannelIDs), channelId)
      ensures status != Ok && workloadId in contexts ==>
        contexts[workloadId].vaChannelIDs == old(contexts[workloadId].vaChannelIDs)
      ensures workloadId in contexts ==>
        && contexts[workloadId].HintsNow() == old(contexts[workloadId].HintsNow())
        && (contexts[workloadId].workloadID, contexts[workloadId].pid, contexts[workloadId].tid)
           == old((contexts[workloadId].workloadID, contexts[workloadId].pid, contexts[workloadId].tid))
      ensures workloadId in contexts ==> channelId !in contexts[workloadId].vaChannelIDs
      ensures workloadId in contexts ==> forall c :: c != channelId ==>
        (c in contexts[workloadId].vaChannelIDs <==> c in old(contexts[workloadId].vaChannelIDs))
      ensures forall w :: w in contexts && workloadId in contexts && contexts[w] != contexts[workloadId] ==>
        contexts[w].vaChannelIDs == old(contexts[w].vaChannelIDs)
    {
      if workloadId !in contexts {
        return InvalidParam;
      }
      status := contexts[workloadId].ReleaseVAChannelId(channelId);
    }
  }

  /** A decode stage registers hints; a later call site on the same thread resolves the same workload and reads them back. */
  method RegisterThenLookUp(reg: Registry, pid: PID, tid: TID, rejected: set<(Hint, HintValue)>)
    requires reg.Valid()
    requires (InferenceNetworkName, Str("resnet50")) !in rejected
    modifies reg
  {
    var ctx := new WorkloadContext();
    var ok := ctx.SetHint([(InferenceNetworkName, Str("resnet50"))], rejected);
    SetThenGet(DefaultHints, InferenceNetworkName, Str("resnet50"), rejected);
    assert ok;
    var status, w := reg.Register(ctx, pid, tid);
    if status == Ok {
      var later, w' := reg.GetWorkloadContextId(pid, tid);
      assert w' == w;
      var found := reg.Query(w');
      assert found == ctx;
      var got, name := found.GetHint(InferenceNetworkName, StringKind);
      assert got && name == Str("resnet50");
    }
  }
}
