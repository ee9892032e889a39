/** The C-level types that a media shim uses to describe a workload. */
module WorkloadContextC {
  import opened HddlUniteC

  /** An IEEE-754 single-precision value, kept as its bit pattern and never computed with. */
  type Float32 = bv32

  datatype MediaDecodeType = H264 | H265

  datatype SchedulePolicyType = RoundRobin | Smart | Undefined

  /** The fixed hint record that createWorkloadContext turns into a context. */
  datatype ContextHint = ContextHint(
    mediaDecodeType: MediaDecodeType,
    mediaBitrate: Float32,
    resolutionWidth: U32,
    resolutionHeight: U32,
    mediaFps: Float32,
    internalWorkload: U32)
}
