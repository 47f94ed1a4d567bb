/**
 * Render objects: the draw descriptors the component hands to the renderer, one
 * per run of particle vertices the engine reports with a shared material,
 * texture and blend mode.
 */
module RenderObjects {
  import opened ParticleTypes
  import opened Blend

  datatype PrimitiveType = PrimitiveLines | PrimitiveTriangles | PrimitiveTriangleStrip

  /** The fields of `dmRender::RenderObject` that this component writes. */
  datatype RenderObject = RenderObject(
    material: MaterialHandle,
    texture: TextureHandle,
    vertexStart: uint32,
    vertexCount: uint32,
    vertexBuffer: VertexBufferHandle,
    vertexDeclaration: VertexDeclarationHandle,
    primitiveType: PrimitiveType,
    calculateDepthKey: bool,
    setBlendFactors: bool,
    sourceBlendFactor: BlendFactor,
    destinationBlendFactor: BlendFactor)

  /**
   * A render object as its default constructor leaves it. That constructor is
   * not part of this model; its fields are taken to be zero.
   */
  const BLANK_RENDER_OBJECT: RenderObject :=
    RenderObject(0, 0, 0, 0, 0, 0, PrimitiveLines, false, false, BlendFactorZero, BlendFactorZero)

  /** The arguments of one render callback: one run of vertices sharing material, texture and blend mode. */
  datatype RenderRun = RenderRun(
    material: MaterialHandle,
    texture: TextureHandle,
    blendMode: BlendMode,
    vertexIndex: uint32,
    vertexCount: uint32)

  /** A vertex range `[start, start + count)` of the shared vertex buffer. */
  datatype VertexRange = VertexRange(start: nat, count: nat)

  /** `SetBlendFactors`: the table's pair for a known mode; an unknown mode leaves the object as it was. */
  function SetBlendFactors(ro: RenderObject, mode: BlendMode): (r: RenderObject)
    ensures mode == BlendModeAlpha ==>
      r == ro.(sourceBlendFactor := BlendFactorSrcAlpha, destinationBlendFactor := BlendFactorOneMinusSrcAlpha)
    ensures mode == BlendModeAdd ==>
      r == ro.(sourceBlendFactor := BlendFactorOne, destinationBlendFactor := BlendFactorOne)
    ensures mode == BlendModeAddAlpha ==>
      r == ro.(sourceBlendFactor := BlendFactorSrcAlpha, destinationBlendFactor := BlendFactorOne)
    ensures mode == BlendModeMult ==>
      r == ro.(sourceBlendFactor := BlendFactorZero, destinationBlendFactor := BlendFactorSrcColor)
    ensures !IsKnownMode(mode) ==> r == ro
  {
    match FactorsFor(mode)
    case Some(p) => ro.(sourceBlendFactor := p.source, destinationBlendFactor := p.destination)
    case None => ro
  }

  /** The render object built by the render callback for one run. */
  function RenderObjectFor(vb: VertexBufferHandle, vd: VertexDeclarationHandle, run: RenderRun): (ro: RenderObject)
    ensures ro.material == run.material && ro.texture == run.texture
    ensures ro.vertexStart == run.vertexIndex && ro.vertexCount == run.vertexCount
    ensures ro.vertexBuffer == vb && ro.vertexDeclaration == vd
    ensures ro.primitiveType == PrimitiveTriangles && ro.calculateDepthKey && ro.setBlendFactors
    ensures IsKnownMode(run.blendMode) ==>
      FactorsFor(run.blendMode) == Some(FactorPair(ro.sourceBlendFactor, ro.destinationBlendFactor))
    ensures !IsKnownMode(run.blendMode) ==>
      ro.sourceBlendFactor == BLANK_RENDER_OBJECT.sourceBlendFactor &&
      ro.destinationBlendFactor == BLANK_RENDER_OBJECT.destinationBlendFactor
  {
    var ro := BLANK_RENDER_OBJECT.(
      material := run.material,
      texture := run.texture,
      vertexStart := run.vertexIndex,
      vertexCount := run.vertexCount,
      vertexBuffer := vb,
      vertexDeclaration := vd,
      primitiveType := PrimitiveTriangles,
      calculateDepthKey := true,
      setBlendFactors := true);
    SetBlendFactors(ro, run.blendMode)
  }

  /** The render objects accumulated by one callback per run, in call order. */
  function RenderObjectsFor(vb: VertexBufferHandle, vd: VertexDeclarationHandle, runs: seq<RenderRun>): seq<RenderObject>
  {
    if |runs| == 0 then []
    else RenderObjectsFor(vb, vd, runs[..|runs| - 1]) + [RenderObjectFor(vb, vd, runs[|runs| - 1])]
  }

  /** One render object per run, the k-th built from the k-th run. */
  lemma {:induction false} RenderObjectsForAt(vb: VertexBufferHandle, vd: VertexDeclarationHandle, runs: seq<RenderRun>, k: nat)
    requires k < |runs|
    ensures |RenderObjectsFor(vb, vd, runs)| == |runs|
    ensures RenderObjectsFor(vb, vd, runs)[k] == RenderObjectFor(vb, vd, runs[k])
  {
    RenderObjectsForLength(vb, vd, runs);
    var n := |runs|;
    if k < n - 1 {
      RenderObjectsForAt(vb, vd, runs[..n - 1], k);
    }
  }

  lemma {:induction false} RenderObjectsForLength(vb: VertexBufferHandle, vd: VertexDeclarationHandle, runs: seq<RenderRun>)
    ensures |RenderObjectsFor(vb, vd, runs)| == |runs|
  {
    if |runs| > 0 {
      RenderObjectsForLength(vb, vd, runs[..|runs| - 1]);
    }
  }

  function RunRanges(runs: seq<RenderRun>): (r: seq<VertexRange>)
    ensures |r| == |runs|
  {
    seq(|runs|, k requires 0 <= k < |runs| => VertexRange(runs[k].vertexIndex, runs[k].vertexCount))
  }

  function ObjectRanges(ros: seq<RenderObject>): (r: seq<VertexRange>)
    ensures |r| == |ros|
  {
    seq(|ros|, k requires 0 <= k < |ros| => VertexRange(ros[k].vertexStart, ros[k].vertexCount))
  }

  /** The ranges cover `[from, to)` one after another, without gap or overlap. */
  predicate Tiles(ranges: seq<VertexRange>, from: nat, to: nat)
    decreases |ranges|
  {
    if |ranges| == 0 then from == to
    else ranges[0].start == from && Tiles(ranges[1..], from + ranges[0].count, to)
  }

  /**
   * The render objects carry exactly the vertex ranges of the runs, so they
   * partition the written vertex span exactly when the engine's runs do.
   */
  lemma VertexRangesCopied(vb: VertexBufferHandle, vd: VertexDeclarationHandle, runs: seq<RenderRun>, from: nat, to: nat)
    ensures ObjectRanges(RenderObjectsFor(vb, vd, runs)) == RunRanges(runs)
    ensures Tiles(ObjectRanges(RenderObjectsFor(vb, vd, runs)), from, to) <==> Tiles(RunRanges(runs), from, to)
  {
    var ros := RenderObjectsFor(vb, vd, runs);
    RenderObjectsForLength(vb, vd, runs);
    forall k | 0 <= k < |runs|
      ensures ObjectRanges(ros)[k] == RunRanges(runs)[k]
    {
      RenderObjectsForAt(vb, vd, runs, k);
    }
  }
}
