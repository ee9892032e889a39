/**
 * The value types that describe inference inputs: blob descriptors and their
 * constructor defaults, and the enumerations they use.
 */
module InferBlob {
  import opened Wrappers
  import opened HddlUniteC

  datatype FourCC = NV12 | BGRA | BGRX | BGRP | BGR | RGBA | RGBX | RGBP | RGBP_F32 | I420

  datatype Precision =
    | Unspecified | Mixed | FP32 | FP16 | Q78 | I16 | U8 | I8 | U16 | I32Precision | I64 | Bin | Custom

  datatype ResizeAlgorithm = Bilinear | Bicubic

  /** The enumerator values, which follow OpenCV's interpolation codes. */
  function ResizeCode(a: ResizeAlgorithm): (c: int)
    ensures c == 1 || c == 2
  {
    match a
    case Bilinear => 1
    case Bicubic => 2
  }

  function ResizeFromCode(c: int): (r: Option<ResizeAlgorithm>)
    ensures r.Some? <==> c == 1 || c == 2
  {
    if c == 1 then Some(Bilinear) else if c == 2 then Some(Bicubic) else None
  }

  lemma ResizeCodeRoundTrip(a: ResizeAlgorithm, c: int)
    ensures ResizeFromCode(ResizeCode(a)) == Some(a)
    ensures ResizeFromCode(c).Some? ==> ResizeCode(ResizeFromCode(c).value) == c
  {
  }

  /** The implicit enumerator values of Precision, in declaration order from 0. */
  function PrecisionCode(p: Precision): (c: nat)
    ensures c < 13
  {
    match p
    case Unspecified => 0
    case Mixed => 1
    case FP32 => 2
    case FP16 => 3
    case Q78 => 4
    case I16 => 5
    case U8 => 6
    case I8 => 7
    case U16 => 8
    case I32Precision => 9
    case I64 => 10
    case Bin => 11
    case Custom => 12
  }

  /** Distinct precisions have distinct values. */
  lemma PrecisionCodeInjective(p: Precision, q: Precision)
    ensures PrecisionCode(p) == PrecisionCode(q) ==> p == q
  {
  }

  datatype Rectangle = Rectangle(x: I32, y: I32, width: I32, height: I32)

  datatype BlobDesc = BlobDesc(
    precision: Precision,
    isRemoteMem: bool,
    needAllocate: bool,
    isCompound: bool,
    format: FourCC,
    resizeAlgo: ResizeAlgorithm,
    fd: I32,
    fdExt: I32,
    /** The source pointer, None for a null pointer. */
    srcPtr: Option<nat>,
    dataSize: U64,
    resWidth: I32,
    resHeight: I32,
    widthStride: I32,
    planeStride: I32,
    rect: seq<Rectangle>)

  /** The default member initialisers of BlobDesc. */
  const MemberDefaultBlobDesc: BlobDesc :=
    BlobDesc(U8, true, false, false, NV12, Bilinear, -1, -1, None, 0, 0, 0, 0, 0, [])

  /**
   * The BlobDesc constructor: the five arguments are stored as given and every
   * other member keeps its default initialiser.
   */
  function MakeBlobDesc(precision: Precision := U8, isRemoteMem: bool := true, needAllocate: bool := false,
                        dataSize: U64 := 0, isCompound: bool := false): (b: BlobDesc)
    ensures b.precision == precision && b.isRemoteMem == isRemoteMem && b.needAllocate == needAllocate
    ensures b.dataSize == dataSize && b.isCompound == isCompound
    ensures b.format == NV12 && b.resizeAlgo == Bilinear
    ensures b.fd == -1 && b.fdExt == -1 && b.srcPtr.None?
    ensures b.resWidth == 0 && b.resHeight == 0 && b.widthStride == 0 && b.planeStride == 0
    ensures b.rect == []
  {
    MemberDefaultBlobDesc.(precision := precision, isRemoteMem := isRemoteMem, needAllocate := needAllocate,
                           dataSize := dataSize, isCompound := isCompound)
  }

  /** The constructor's default arguments agree with the member initialisers. */
  lemma BlobDescDefaultsAgree()
    ensures MakeBlobDesc() == MemberDefaultBlobDesc
  {
  }

  /** Two descriptors built from the same arguments are equal, and the arguments can be read back. */
  lemma MakeBlobDescInjective(p: Precision, r: bool, n: bool, d: U64, c: bool,
                              p': Precision, r': bool, n': bool, d': U64, c': bool)
    ensures MakeBlobDesc(p, r, n, d, c) == MakeBlobDesc(p', r', n', d', c') <==>
      p == p' && r == r' && n == n' && d == d' && c == c'
  {
  }

  datatype NNInputDesc = NNInputDesc(precision: Precision, isRemoteMem: bool, needAllocate: bool,
                                     dataSize: U64, batch: U32)

  /** The default member initialisers of NNInputDesc. */
  const MemberDefaultNNInputDesc: NNInputDesc := NNInputDesc(U8, true, true, 0, 1)

  /** The NNInputDesc constructor: every argument is stored as given. */
  function MakeNNInputDesc(precision: Precision := U8, isRemoteMem: bool := true, needAllocate: bool := true,
                           dataSize: U64 := 0, batch: U32 := 1): (d: NNInputDesc)
    ensures d.precision == precision && d.isRemoteMem == isRemoteMem && d.needAllocate == needAllocate
    ensures d.dataSize == dataSize && d.batch == batch
  {
    NNInputDesc(precision, isRemoteMem, needAllocate, dataSize, batch)
  }

  /** The constructor's default arguments agree with the member initialisers: U8, remote, allocate, size 0, batch 1. */
  lemma NNInputDescDefaultsAgree()
    ensures MakeNNInputDesc() == MemberDefaultNNInputDesc
    ensures MemberDefaultNNInputDesc.batch == 1 && MemberDefaultNNInputDesc.needAllocate
  {
  }
}
