/**
 * The null (reference) QRhi backend (src/gui/rhi/qrhinull.cpp): a backend
 * that does no device work, accepts every resource, answers capability
 * queries with constants, keeps the frame bookkeeping of its swap chains
 * and synthesises zero-filled texture readbacks.
 *
 * Profiler reporting is not modelled, so the resource methods that only
 * report to the profiler change nothing here. Helpers defined elsewhere
 * in QRhi (sizeForMipLevel, textureFormatInfo) are parameters.
 */
module NullBackend {

  datatype Size = Size(width: int, height: int)

  /**
   * QRhiTexture::Format. Only RGBA8 and UnknownFormat occur in this
   * backend; the other enumerators are told apart by their index.
   */
  datatype TextureFormat = UnknownFormat | RGBA8 | OtherFormat(index: nat)

  datatype FrameOpResult = FrameOpSuccess | FrameOpError | FrameOpSwapChainOutOfDate | FrameOpDeviceLost

  datatype ResourceLimit = TextureSizeMin | TextureSizeMax | MaxColorAttachments | FramesInFlight

  datatype RenderBufferType = DepthStencil | Color

  /** A default-constructed QSize: width and height -1, an invalid size. */
  const InvalidSize := Size(-1, -1)

  /** The size of the surface a null swap chain pretends to present to (lines 743-746). */
  const SurfaceSize := Size(1280, 720)

  // ---------------------------------------------------------------- resources

  class NullBuffer {
    var size: int

    /** Lines 429-432 */
    constructor(size: int)
      ensures this.size == size
    {
      this.size := size;
    }

    /** Lines 445-450: always succeeds. */
    method Build() returns (ok: bool)
      ensures ok
    {
      ok := true;
    }

    /** Lines 439-443: reports to the profiler only. */
    method Release()
      ensures unchanged(this)
    {
    }
  }

  class NullRenderBuffer {
    var rbType: RenderBufferType
    var pixelSize: Size

    /** Lines 452-456 */
    constructor(rbType: RenderBufferType, pixelSize: Size)
      ensures this.rbType == rbType && this.pixelSize == pixelSize
    {
      this.rbType := rbType;
      this.pixelSize := pixelSize;
    }

    /** Lines 469-474: always succeeds. */
    method Build() returns (ok: bool)
      ensures ok
    {
      ok := true;
    }

    /** Lines 463-467: reports to the profiler only. */
    method Release()
      ensures unchanged(this)
    {
    }

    /** backingFormat (lines 476-479): RGBA8 exactly for colour buffers, otherwise no format. */
    function BackingFormat(): (f: TextureFormat)
      reads this
      ensures f == RGBA8 <==> rbType == Color
      ensures f == UnknownFormat <==> rbType != Color
    {
      if rbType == Color then RGBA8 else UnknownFormat
    }
  }

  class NullTexture {
    var format: TextureFormat
    var pixelSize: Size

    /** Lines 481-485 */
    constructor(format: TextureFormat, pixelSize: Size)
      ensures this.format == format && this.pixelSize == pixelSize
    {
      this.format := format;
      this.pixelSize := pixelSize;
    }

    /** Lines 498-507: the mip level count it computes only feeds the profiler; always succeeds. */
    method Build() returns (ok: bool)
      ensures ok
    {
      ok := true;
    }

    /** Lines 509-519: adopting native handles always succeeds. */
    method BuildFrom() returns (ok: bool)
      ensures ok
    {
      ok := true;
    }

    /** Lines 492-496: reports to the profiler only. */
    method Release()
      ensures unchanged(this)
    {
    }
  }

  class NullSampler {
    constructor()
    {
    }

    /** Lines 541-544: always succeeds. */
    method Build() returns (ok: bool)
      ensures ok
    {
      ok := true;
    }

    /** Lines 537-539 */
    method Release()
      ensures unchanged(this)
    {
    }
  }

  class NullRenderPassDescriptor {
    constructor()
    {
    }

    /** Lines 556-558 */
    method Release()
      ensures unchanged(this)
    {
    }
  }

  class NullCommandBuffer {
    constructor()
    {
    }

    /** Lines 710-713 */
    method Release()
      ensures unchanged(this)
    {
    }
  }

  class NullShaderResourceBindings {
    constructor()
    {
    }

    /** Lines 657-660: always succeeds. */
    method Build() returns (ok: bool)
      ensures ok
    {
      ok := true;
    }

    /** Lines 653-655 */
    method Release()
      ensures unchanged(this)
    {
    }
  }

  class NullGraphicsPipeline {
    constructor()
    {
    }

    /** Lines 676-679: always succeeds. */
    method Build() returns (ok: bool)
      ensures ok
    {
      ok := true;
    }

    /** Lines 672-674 */
    method Release()
      ensures unchanged(this)
    {
    }
  }

  class NullComputePipeline {
    constructor()
    {
    }

    /** Lines 695-698: always succeeds. */
    method Build() returns (ok: bool)
      ensures ok
    {
      ok := true;
    }

    /** Lines 691-693 */
    method Release()
      ensures unchanged(this)
    {
    }
  }

  // ---------------------------------------------------------------- render targets

  /** The render target of a swap chain. */
  class NullReferenceRenderTarget {
    var pixelSize: Size
    var rp: NullRenderPassDescriptor?

    /** Lines 560-564: no size until the swap chain is built. */
    constructor()
      ensures rp == null && pixelSize == InvalidSize
    {
      pixelSize := InvalidSize;
      rp := null;
    }

    /** Lines 571-573 */
    method Release()
      ensures unchanged(this)
    {
    }

    /** Lines 585-588: never multisampled. */
    function SampleCount(): (n: int)
      ensures n == 1
    {
      1
    }
  }

  datatype ColorAttachment = ColorAttachment(texture: NullTexture?, renderBuffer: NullRenderBuffer?)

  datatype TextureRenderTargetDescription = TextureRenderTargetDescription(
    colorAttachments: seq<ColorAttachment>,
    depthStencilBuffer: NullRenderBuffer?,
    depthTexture: NullTexture?)

  class NullTextureRenderTarget {
    const desc: TextureRenderTargetDescription
    var renderPassDesc: NullRenderPassDescriptor?
    var pixelSize: Size
    var rp: NullRenderPassDescriptor?

    /** Lines 590-596: no size until built. */
    constructor(desc: TextureRenderTargetDescription)
      ensures this.desc == desc && renderPassDesc == null && rp == null && pixelSize == InvalidSize
    {
      this.desc := desc;
      renderPassDesc := null;
      pixelSize := InvalidSize;
      rp := null;
    }

    /**
     * build (lines 612-626): adopts the render pass descriptor and takes its
     * pixel size from the first colour attachment's texture, else that
     * attachment's render buffer, else the depth-stencil buffer, else the
     * depth texture, else keeps it; always succeeds. The first colour
     * attachment must have a texture or a render buffer.
     */
    method Build() returns (ok: bool)
      requires |desc.colorAttachments| > 0 ==>
        desc.colorAttachments[0].texture != null || desc.colorAttachments[0].renderBuffer != null
      modifies this
      ensures ok
      ensures rp == renderPassDesc && renderPassDesc == old(renderPassDesc)
      ensures |desc.colorAttachments| > 0 && desc.colorAttachments[0].texture != null ==>
        pixelSize == desc.colorAttachments[0].texture.pixelSize
      ensures |desc.colorAttachments| > 0 && desc.colorAttachments[0].texture == null ==>
        pixelSize == desc.colorAttachments[0].renderBuffer.pixelSize
      ensures |desc.colorAttachments| == 0 && desc.depthStencilBuffer != null ==>
        pixelSize == desc.depthStencilBuffer.pixelSize
      ensures |desc.colorAttachments| == 0 && desc.depthStencilBuffer == null && desc.depthTexture != null ==>
        pixelSize == desc.depthTexture.pixelSize
      ensures |desc.colorAttachments| == 0 && desc.depthStencilBuffer == null && desc.depthTexture == null ==>
        pixelSize == old(pixelSize)
    {
      rp := renderPassDesc;
      var colorAttachments := desc.colorAttachments;
      if |colorAttachments| > 0 {
        var tex := colorAttachments[0].texture;
        var rb := colorAttachments[0].renderBuffer;
        pixelSize := if tex != null then tex.pixelSize else rb.pixelSize;
      } else if desc.depthStencilBuffer != null {
        pixelSize := desc.depthStencilBuffer.pixelSize;
      } else if desc.depthTexture != null {
        pixelSize := desc.depthTexture.pixelSize;
      }
      ok := true;
    }

    /** Lines 603-605 */
    method Release()
      ensures unchanged(this)
    {
    }

    /** Lines 638-641: never multisampled. */
    function SampleCount(): (n: int)
      ensures n == 1
    {
      1
    }
  }

  // ---------------------------------------------------------------- swap chain

  class NullSwapChain {
    var currentPixelSize: Size
    var renderPassDesc: NullRenderPassDescriptor?
    var frameCount: int
    const rt: NullReferenceRenderTarget

    /**
     * The frame count counts frames completed since the last
     * buildOrResize, and the render target has the swap chain's size.
     */
    predicate Valid()
      reads this, rt
    {
      frameCount >= 0 && rt.pixelSize == currentPixelSize
    }

    /** Lines 715-720: no size and no frames until built. */
    constructor()
      ensures Valid() && frameCount == 0 && renderPassDesc == null && fresh(rt)
      ensures currentPixelSize == InvalidSize && rt.pixelSize == InvalidSize && rt.rp == null
    {
      currentPixelSize := InvalidSize;
      renderPassDesc := null;
      frameCount := 0;
      rt := new NullReferenceRenderTarget();
    }

    /** surfacePixelSize (lines 743-746): a fixed 1280x720 surface. */
    function SurfacePixelSize(): (s: Size)
      ensures s.width == 1280 && s.height == 720
    {
      SurfaceSize
    }

    /**
     * buildOrResize (lines 753-762): the swap chain and its render target
     * take the surface size, the render target adopts the render pass
     * descriptor, and the frame count restarts from zero; always succeeds.
     */
    method BuildOrResize() returns (ok: bool)
      modifies this, rt
      ensures ok && Valid()
      ensures currentPixelSize == SurfacePixelSize() && rt.pixelSize == currentPixelSize
      ensures rt.rp == renderPassDesc && renderPassDesc == old(renderPassDesc)
      ensures frameCount == 0
    {
      currentPixelSize := SurfacePixelSize();
      rt.rp := renderPassDesc;
      rt.pixelSize := currentPixelSize;
      frameCount := 0;
      ok := true;
    }

    /** Lines 727-731: reports to the profiler only. */
    method Release()
      ensures unchanged(this) && unchanged(rt)
    {
    }
  }

  // ---------------------------------------------------------------- readbacks

  /** QRhiReadbackResult; a set `completed` callback is observed by how often it was called. */
  class ReadbackResult {
    var format: TextureFormat
    var pixelSize: Size
    var data: seq<bv8>
    const hasCompleted: bool
    var completedCalls: nat

    constructor(hasCompleted: bool)
      ensures this.hasCompleted == hasCompleted && completedCalls == 0 && data == []
    {
      format := UnknownFormat;
      pixelSize := InvalidSize;
      data := [];
      this.hasCompleted := hasCompleted;
      completedCalls := 0;
    }
  }

  /** A texture operation of a resource update batch: a read of a texture (null: the swap chain) at a mip level, or anything else. */
  datatype TextureOp =
    | ReadOp(result: ReadbackResult, texture: NullTexture?, level: int)
    | OtherTextureOp

  class ResourceUpdateBatch {
    var textureOps: seq<TextureOp>

    constructor(ops: seq<TextureOp>)
      ensures textureOps == ops
    {
      textureOps := ops;
    }
  }

  /** `n` zero bytes. */
  function Zeros(n: nat): (z: seq<bv8>)
    ensures |z| == n && forall i :: 0 <= i < n ==> z[i] == 0
  {
    seq(n, _ => 0)
  }

  /** The readback results the read operations of `ops` fill in. */
  function ReadTargets(ops: seq<TextureOp>): set<ReadbackResult>
  {
    set i | 0 <= i < |ops| && ops[i].ReadOp? :: ops[i].result
  }

  /** The contents of a readback result. */
  datatype Readback = Readback(format: TextureFormat, pixelSize: Size, data: seq<bv8>, completedCalls: nat)

  /** The contents of each of `targets`. */
  function Snapshot(targets: set<ReadbackResult>): (m: map<ReadbackResult, Readback>)
    reads targets
    ensures m.Keys == targets
  {
    map r | r in targets :: Readback(r.format, r.pixelSize, r.data, r.completedCalls)
  }

  /** Whether `op` is a read into `r`. */
  predicate ReadsInto(op: TextureOp, r: ReadbackResult)
  {
    op.ReadOp? && op.result == r
  }

  /** How many operations of `ops` read into `r`. */
  function ReadCount(ops: seq<TextureOp>, r: ReadbackResult): nat
  {
    if |ops| == 0 then 0
    else ReadCount(ops[..|ops| - 1], r) + (if ReadsInto(ops[|ops| - 1], r) then 1 else 0)
  }

  /** The index of the last operation of `ops` that reads into `r`, or -1. */
  function LastRead(ops: seq<TextureOp>, r: ReadbackResult): int
  {
    if |ops| == 0 then -1
    else if ReadsInto(ops[|ops| - 1], r) then |ops| - 1
    else LastRead(ops[..|ops| - 1], r)
  }

  /** The textures the read operations of `ops` read. */
  function ReadTextures(ops: seq<TextureOp>): set<NullTexture>
  {
    set i | 0 <= i < |ops| && ops[i].ReadOp? && ops[i].texture != null :: ops[i].texture
  }

  /** LastRead finds the last read into `r`, and there is one exactly when `r` is a target. */
  lemma {:induction false} LastReadIsLast(ops: seq<TextureOp>, r: ReadbackResult)
    ensures -1 <= LastRead(ops, r) < |ops|
    ensures LastRead(ops, r) != -1 <==> r in ReadTargets(ops)
    ensures LastRead(ops, r) != -1 ==> ReadsInto(ops[LastRead(ops, r)], r)
    ensures forall j :: LastRead(ops, r) < j < |ops| ==> !ReadsInto(ops[j], r)
  {
    if |ops| > 0 {
      var init := ops[..|ops| - 1];
      LastReadIsLast(init, r);
      assert ReadTargets(ops) == ReadTargets(init) + (if ops[|ops| - 1].ReadOp? then {ops[|ops| - 1].result} else {}) by {
        forall x | x in ReadTargets(ops)
          ensures x in ReadTargets(init) || (ops[|ops| - 1].ReadOp? && x == ops[|ops| - 1].result)
        {
          var i :| 0 <= i < |ops| && ops[i].ReadOp? && ops[i].result == x;
          if i < |ops| - 1 {
            assert init[i] == ops[i];
          }
        }
        forall x | x in ReadTargets(init)
          ensures x in ReadTargets(ops)
        {
          var i :| 0 <= i < |init| && init[i].ReadOp? && init[i].result == x;
          assert ops[i] == init[i];
        }
      }
    }
  }

  /** A result is read into at least once exactly when it is a target. */
  lemma {:induction false} ReadCountPositive(ops: seq<TextureOp>, r: ReadbackResult)
    ensures ReadCount(ops, r) > 0 <==> LastRead(ops, r) != -1
  {
    if |ops| > 0 {
      ReadCountPositive(ops[..|ops| - 1], r);
    }
  }

  // ---------------------------------------------------------------- the backend

  class NullRhi {
    var currentSwapChain: NullSwapChain?
    const offscreenCommandBuffer: NullCommandBuffer

    constructor()
      ensures currentSwapChain == null && fresh(offscreenCommandBuffer)
    {
      currentSwapChain := null;
      offscreenCommandBuffer := new NullCommandBuffer();
    }

    // Capability queries, lines 89-157.

    /** supportedSampleCounts (lines 89-92) */
    function SupportedSampleCounts(): (counts: seq<int>)
      ensures counts == [1]
    {
      [1]
    }

    /** ubufAlignment (lines 104-107) */
    function UbufAlignment(): (a: int)
      ensures a == 256
    {
      256
    }

    /** isYUpInFramebuffer (lines 109-112) */
    function IsYUpInFramebuffer(): (b: bool)
      ensures b == false
    {
      false
    }

    /** isYUpInNDC (lines 114-117) */
    function IsYUpInNDC(): (b: bool)
      ensures b == true
    {
      true
    }

    /** isClipDepthZeroToOne (lines 119-122) */
    function IsClipDepthZeroToOne(): (b: bool)
      ensures b == true
    {
      true
    }

    /** isTextureFormatSupported (lines 129-134): every format, with any flags. */
    function IsTextureFormatSupported(format: TextureFormat, flags: int): (b: bool)
      ensures b
    {
      true
    }

    /** isFeatureSupported (lines 136-140): every feature. */
    function IsFeatureSupported(feature: int): (b: bool)
      ensures b
    {
      true
    }

    /** resourceLimit (lines 142-157) */
    function ResourceLimitOf(limit: ResourceLimit): (n: int)
      ensures limit == TextureSizeMin ==> n == 1
      ensures limit == TextureSizeMax ==> n == 16384
      ensures limit == MaxColorAttachments ==> n == 8
      ensures limit == FramesInFlight ==> n == 2
    {
      match limit
      case TextureSizeMin => 1
      case TextureSizeMax => 16384
      case MaxColorAttachments => 8
      case FramesInFlight => 2
    }

    // Frame operations, lines 335-370.

    /** beginFrame (lines 335-342): the swap chain becomes the current one. */
    method BeginFrame(swapChain: NullSwapChain) returns (r: FrameOpResult)
      modifies this
      ensures r == FrameOpSuccess && currentSwapChain == swapChain
    {
      currentSwapChain := swapChain;
      r := FrameOpSuccess;
    }

    /** endFrame (lines 344-354): one more completed frame, and no current swap chain. */
    method EndFrame(swapChain: NullSwapChain) returns (r: FrameOpResult)
      requires swapChain.Valid()
      modifies this, swapChain
      ensures r == FrameOpSuccess && currentSwapChain == null
      ensures swapChain.frameCount == old(swapChain.frameCount) + 1 && swapChain.Valid()
      ensures swapChain.currentPixelSize == old(swapChain.currentPixelSize)
      ensures swapChain.renderPassDesc == old(swapChain.renderPassDesc)
    {
      swapChain.frameCount := swapChain.frameCount + 1;
      currentSwapChain := null;
      r := FrameOpSuccess;
    }

    /** beginOffscreenFrame (lines 356-360): always the one offscreen command buffer. */
    method BeginOffscreenFrame() returns (r: FrameOpResult, cb: NullCommandBuffer)
      ensures r == FrameOpSuccess && cb == offscreenCommandBuffer
    {
      cb := offscreenCommandBuffer;
      r := FrameOpSuccess;
    }

    /** endOffscreenFrame (lines 362-365) */
    method EndOffscreenFrame() returns (r: FrameOpResult)
      ensures r == FrameOpSuccess
    {
      r := FrameOpSuccess;
    }

    /** finish (lines 367-370) */
    method Finish() returns (r: FrameOpResult)
      ensures r == FrameOpSuccess
    {
      r := FrameOpSuccess;
    }

    // Resource updates, lines 372-427.

    /** Every read of the swap chain (a null texture) has a current swap chain to read. */
    predicate SwapChainReadable(ops: seq<TextureOp>)
      reads this
    {
      forall i :: 0 <= i < |ops| && ops[i].ReadOp? && ops[i].texture == null ==> currentSwapChain != null
    }

    /** The format a read reports: the texture's, or RGBA8 for the swap chain. */
    function ReadFormat(op: TextureOp): TextureFormat
      requires op.ReadOp?
      reads op.texture
    {
      if op.texture != null then op.texture.format else RGBA8
    }

    /** The size a read reports: the texture's at the mip level, or the current swap chain's. */
    function ReadPixelSize(op: TextureOp, sizeForMipLevel: (int, Size) -> Size): Size
      requires op.ReadOp? && (op.texture == null ==> currentSwapChain != null)
      reads this, op.texture, currentSwapChain
    {
      if op.texture != null then sizeForMipLevel(op.level, op.texture.pixelSize)
      else currentSwapChain.currentPixelSize
    }

    /**
     * The contents of the results read into by `ops`, given their contents
     * `before` the reads: a result read into holds what the last read into
     * it reports and byteSize zero bytes of data, a result not read into
     * keeps its contents, and the completion callback of each was called
     * once per read into it when it has one.
     */
    predicate ReadbacksDelivered(ops: seq<TextureOp>, before: map<ReadbackResult, Readback>,
                                 sizeForMipLevel: (int, Size) -> Size, byteSize: (TextureFormat, Size) -> nat)
      reads this, before.Keys, ReadTextures(ops), currentSwapChain
    {
      forall r :: r in before ==>
        var k := LastRead(ops, r);
        (k == -1 ==> r.format == before[r].format && r.pixelSize == before[r].pixelSize && r.data == before[r].data)
        && (k != -1 ==>
              0 <= k < |ops| && ops[k].ReadOp? && (ops[k].texture == null ==> currentSwapChain != null)
              && r.format == ReadFormat(ops[k])
              && r.pixelSize == ReadPixelSize(ops[k], sizeForMipLevel)
              && r.data == Zeros(byteSize(r.format, r.pixelSize)))
        && r.completedCalls == before[r].completedCalls + (if r.hasCompleted then ReadCount(ops, r) else 0)
    }

    /** Record the outcome of one read: what it reports, zero-filled data, and the completion callback. */
    method DeliverRead(op: TextureOp, sizeForMipLevel: (int, Size) -> Size, byteSize: (TextureFormat, Size) -> nat)
      requires op.ReadOp? && (op.texture == null ==> currentSwapChain != null)
      modifies op.result
      ensures op.result.format == ReadFormat(op)
      ensures op.result.pixelSize == ReadPixelSize(op, sizeForMipLevel)
      ensures op.result.data == Zeros(byteSize(op.result.format, op.result.pixelSize))
      ensures op.result.completedCalls == old(op.result.completedCalls) + (if op.result.hasCompleted then 1 else 0)
    {
      var result := op.result;
      if op.texture != null {
        result.format := op.texture.format;
        result.pixelSize := sizeForMipLevel(op.level, op.texture.pixelSize);
      } else {
        result.format := RGBA8;
        result.pixelSize := currentSwapChain.currentPixelSize;
      }
      result.data := Zeros(byteSize(result.format, result.pixelSize));
      if result.hasCompleted {
        result.completedCalls := result.completedCalls + 1;
      }
    }

    /** One step of resourceUpdate: the i-th operation of `ops` is applied after the ones before it. */
    method ApplyTextureOp(ops: seq<TextureOp>, i: nat, ghost before: map<ReadbackResult, Readback>,
                          sizeForMipLevel: (int, Size) -> Size, byteSize: (TextureFormat, Size) -> nat)
      requires i < |ops| && SwapChainReadable(ops) && before.Keys == ReadTargets(ops)
      requires ReadbacksDelivered(ops[..i], before, sizeForMipLevel, byteSize)
      modifies if ops[i].ReadOp? then {ops[i].result} else {}
      ensures ReadbacksDelivered(ops[..i + 1], before, sizeForMipLevel, byteSize)
    {
      var done := ops[..i + 1];
      assert done[..i] == ops[..i];
      if ops[i].ReadOp? {
        DeliverRead(ops[i], sizeForMipLevel, byteSize);
      }
    }

    /**
     * resourceUpdate (lines 372-396): performs the reads of the batch in
     * order, ignores its other operations, and empties the batch.
     */
    method ResourceUpdate(batch: ResourceUpdateBatch, sizeForMipLevel: (int, Size) -> Size,
                          byteSize: (TextureFormat, Size) -> nat)
      requires SwapChainReadable(batch.textureOps)
      modifies batch, ReadTargets(batch.textureOps)
      ensures batch.textureOps == []
      ensures ReadbacksDelivered(old(batch.textureOps), old(Snapshot(ReadTargets(batch.textureOps))), sizeForMipLevel, byteSize)
    {
      var ops := batch.textureOps;
      ghost var before := Snapshot(ReadTargets(ops));
      for i := 0 to |ops|
        invariant batch.textureOps == ops
        invariant ReadbacksDelivered(ops[..i], before, sizeForMipLevel, byteSize)
      {
        ApplyTextureOp(ops, i, before, sizeForMipLevel, byteSize);
      }
      assert ops[..|ops|] == ops;
      batch.textureOps := [];
    }

    /** beginPass (lines 398-409): the batch, when there is one, is applied first. */
    method BeginPass(batch: ResourceUpdateBatch?, sizeForMipLevel: (int, Size) -> Size,
                     byteSize: (TextureFormat, Size) -> nat)
      requires batch != null ==> SwapChainReadable(batch.textureOps)
      modifies batch, if batch != null then ReadTargets(batch.textureOps) else {}
      ensures batch != null ==> batch.textureOps == []
      ensures batch != null ==>
        ReadbacksDelivered(old(batch.textureOps), old(Snapshot(ReadTargets(batch.textureOps))), sizeForMipLevel, byteSize)
    {
      if batch != null {
        ResourceUpdate(batch, sizeForMipLevel, byteSize);
      }
    }

    /** endPass (lines 411-415) */
    method EndPass(batch: ResourceUpdateBatch?, sizeForMipLevel: (int, Size) -> Size,
                   byteSize: (TextureFormat, Size) -> nat)
      requires batch != null ==> SwapChainReadable(batch.textureOps)
      modifies batch, if batch != null then ReadTargets(batch.textureOps) else {}
      ensures batch != null ==> batch.textureOps == []
      ensures batch != null ==>
        ReadbacksDelivered(old(batch.textureOps), old(Snapshot(ReadTargets(batch.textureOps))), sizeForMipLevel, byteSize)
    {
      if batch != null {
        ResourceUpdate(batch, sizeForMipLevel, byteSize);
      }
    }

    /** beginComputePass (lines 417-421) */
    method BeginComputePass(batch: ResourceUpdateBatch?, sizeForMipLevel: (int, Size) -> Size,
                            byteSize: (TextureFormat, Size) -> nat)
      requires batch != null ==> SwapChainReadable(batch.textureOps)
      modifies batch, if batch != null then ReadTargets(batch.textureOps) else {}
      ensures batch != null ==> batch.textureOps == []
      ensures batch != null ==>
        ReadbacksDelivered(old(batch.textureOps), old(Snapshot(ReadTargets(batch.textureOps))), sizeForMipLevel, byteSize)
    {
      if batch != null {
        ResourceUpdate(batch, sizeForMipLevel, byteSize);
      }
    }

    /** endComputePass (lines 423-427) */
    method EndComputePass(batch: ResourceUpdateBatch?, sizeForMipLevel: (int, Size) -> Size,
                          byteSize: (TextureFormat, Size) -> nat)
      requires batch != null ==> SwapChainReadable(batch.textureOps)
      modifies batch, if batch != null then ReadTargets(batch.textureOps) else {}
      ensures batch != null ==> batch.textureOps == []
      ensures batch != null ==>
        ReadbacksDelivered(old(batch.textureOps), old(Snapshot(ReadTargets(batch.textureOps))), sizeForMipLevel, byteSize)
    {
      if batch != null {
        ResourceUpdate(batch, sizeForMipLevel, byteSize);
      }
    }
  }
}
