/**
 * A particle-effect world: the bounded pool of live components, the render
 * objects of the current tick, and the calls made into the particle engine,
 * the graphics device and the renderer. Each method models one entry point the
 * game-object framework calls.
 */
module ParticleFX {
  import opened ParticleTypes
  import opened Sequences
  import opened Blend
  import opened RenderObjects
  import opened ExternalCalls

  /** The most components one world holds at once. */
  const MAX_COMPONENT_COUNT: nat := 64

  /** Six vertices per particle (two triangles). */
  const VERTICES_PER_PARTICLE: nat := 6

  /** `sizeof(ParticleVertex)`: position (3 floats), texture coordinate (2 floats), alpha (1 float). */
  const PARTICLE_VERTEX_SIZE: nat := 24

  /**
   * The staging buffer's byte size: six vertices of 24 bytes per particle,
   * computed in 32-bit unsigned arithmetic, so the product wraps modulo 2^32.
   * It is the exact product precisely when that product fits in 32 bits.
   */
  function StagingBufferSize(maxParticleCount: uint32): (r: uint32)
    ensures r == maxParticleCount * VERTICES_PER_PARTICLE * PARTICLE_VERTEX_SIZE <==>
      maxParticleCount * VERTICES_PER_PARTICLE * PARTICLE_VERTEX_SIZE < 0x1_0000_0000
    ensures (r - maxParticleCount * VERTICES_PER_PARTICLE * PARTICLE_VERTEX_SIZE) % 0x1_0000_0000 == 0
  {
    (maxParticleCount * VERTICES_PER_PARTICLE * PARTICLE_VERTEX_SIZE) % 0x1_0000_0000
  }

  /** The largest particle count whose staging buffer fits, and the first that wraps. */
  lemma StagingBufferSizeWraps()
    ensures StagingBufferSize(29826161) == 4294967184
    ensures StagingBufferSize(29826162) == 32
  {
  }

  /** One live particle-effect component: its game object, its engine instance and its world. */
  datatype Component = Component(instance: GameObjectId, fxInstance: EmitterHandle, world: ParticleFXWorld?)

  /** The owning game object of each component, in pool order. */
  function Instances(comps: seq<Component>): (r: seq<GameObjectId>)
    ensures |r| == |comps|
    ensures forall k :: 0 <= k < |comps| ==> r[k] == comps[k].instance
  {
    seq(|comps|, k requires 0 <= k < |comps| => comps[k].instance)
  }

  /**
   * Destroying the component a successful create just appended, for a game
   * object with no other component, finds it in the last slot and gives back
   * the pool as it was before the create.
   */
  lemma DestroyUndoesCreate(comps: seq<Component>, c: Component)
    requires c.instance !in Instances(comps)
    ensures FirstIndex(Instances(comps + [c]), c.instance) == Some(|comps|)
    ensures EraseSwap(comps + [c], |comps|) == comps
  {
    var ids := Instances(comps + [c]);
    assert forall j :: 0 <= j < |comps| ==> ids[j] == Instances(comps)[j];
    FirstIndexUnique(ids, c.instance, |comps|);
    assert (comps + [c])[|comps| := c] == comps + [c];
  }

  /** One position and one rotation push per component, in pool order. */
  function TransformCalls(pc: ContextHandle, scene: SceneGraph, comps: seq<Component>): seq<Call>
  {
    if |comps| == 0 then []
    else
      var c := comps[|comps| - 1];
      TransformCalls(pc, scene, comps[..|comps| - 1]) +
      [SetPosition(pc, c.fxInstance, scene.worldPosition(c.instance)),
       SetRotation(pc, c.fxInstance, scene.worldRotation(c.instance))]
  }

  /**
   * Calls 2k and 2k+1 push the k-th component's world position and world
   * rotation to its own engine instance, and nothing else is pushed.
   */
  lemma {:induction false} TransformCallsAt(pc: ContextHandle, scene: SceneGraph, comps: seq<Component>)
    ensures |TransformCalls(pc, scene, comps)| == 2 * |comps|
    ensures forall k :: 0 <= k < |comps| ==>
      TransformCalls(pc, scene, comps)[2 * k] ==
        SetPosition(pc, comps[k].fxInstance, scene.worldPosition(comps[k].instance)) &&
      TransformCalls(pc, scene, comps)[2 * k + 1] ==
        SetRotation(pc, comps[k].fxInstance, scene.worldRotation(comps[k].instance))
  {
    if |comps| > 0 {
      TransformCallsAt(pc, scene, comps[..|comps| - 1]);
    }
  }

  /** The engine's update step, with the staging buffer's capacity, then its render step. */
  function EngineSteps(pc: ContextHandle, dt: real, ctx: ParticleFXContext): (r: seq<Call>)
    ensures forall c :: c in r ==> KindOf(c) == EngineStep
  {
    [UpdateEngine(pc, dt, StagingBufferSize(ctx.maxParticleCount)), RenderEngine(pc)]
  }

  /** The vertex buffer is first discarded, then filled with the bytes the engine wrote. */
  function Uploads(vb: VertexBufferHandle, bytesWritten: uint32): (r: seq<Call>)
    ensures forall c :: c in r ==> KindOf(c) == BufferUpload
  {
    [SetVertexBufferData(vb, 0, false), SetVertexBufferData(vb, bytesWritten, true)]
  }

  /** The engine's debug render, when the context asks for it. */
  function DebugCalls(pc: ContextHandle, ctx: ParticleFXContext): (r: seq<Call>)
    ensures forall c :: c in r ==> KindOf(c) == DebugDraw
  {
    if ctx.debug then [DebugRender(pc, ctx.renderContext)] else []
  }

  /**
   * Every call one tick makes: nothing for an empty pool; otherwise the
   * transform pushes, the engine's update and render steps (during which the
   * render callback logs unknown blend modes), the discard-then-upload of the
   * vertex buffer, one submission per render object, and the debug render
   * when enabled.
   */
  function UpdateCalls(pc: ContextHandle, vb: VertexBufferHandle, vd: VertexDeclarationHandle,
                       ctx: ParticleFXContext, scene: SceneGraph, dt: real, bytesWritten: uint32,
                       comps: seq<Component>, runs: seq<RenderRun>): (r: seq<Call>)
    ensures |comps| == 0 <==> r == []
  {
    if |comps| == 0 then []
    else
      TransformCalls(pc, scene, comps) +
      EngineSteps(pc, dt, ctx) +
      BlendErrors(runs) +
      Uploads(vb, bytesWritten) +
      SubmitCalls(ctx.renderContext, RenderObjectsFor(vb, vd, runs)) +
      DebugCalls(pc, ctx)
  }

  /**
   * The six segments of a non-empty tick's calls: transform pushes, engine
   * steps, blend-mode errors, uploads, submissions, and the debug render.
   */
  lemma TickSegments(pc: ContextHandle, vb: VertexBufferHandle, vd: VertexDeclarationHandle,
                     ctx: ParticleFXContext, scene: SceneGraph, dt: real, bytesWritten: uint32,
                     comps: seq<Component>, runs: seq<RenderRun>)
      returns (t: seq<Call>, m: seq<Call>, e: seq<Call>, u: seq<Call>, s: seq<Call>, d: seq<Call>)
    requires |comps| > 0
    ensures UpdateCalls(pc, vb, vd, ctx, scene, dt, bytesWritten, comps, runs) == t + m + e + u + s + d
    ensures t == TransformCalls(pc, scene, comps)
    ensures m == EngineSteps(pc, dt, ctx)
    ensures e == BlendErrors(runs)
    ensures u == Uploads(vb, bytesWritten)
    ensures s == SubmitCalls(ctx.renderContext, RenderObjectsFor(vb, vd, runs))
    ensures d == DebugCalls(pc, ctx)
    ensures forall c :: c in t ==> KindOf(c) == TransformPush
    ensures forall c :: c in e ==> KindOf(c) == ErrorLog
    ensures forall c :: c in s ==> KindOf(c) == RenderSubmission
  {
    TransformCallsKinds(pc, scene, comps);
    SubmitCallsKinds(ctx.renderContext, RenderObjectsFor(vb, vd, runs));
    t := TransformCalls(pc, scene, comps);
    m := EngineSteps(pc, dt, ctx);
    e := BlendErrors(runs);
    u := Uploads(vb, bytesWritten);
    s := SubmitCalls(ctx.renderContext, RenderObjectsFor(vb, vd, runs));
    d := DebugCalls(pc, ctx);
  }

  lemma {:induction false} TransformCallsKinds(pc: ContextHandle, scene: SceneGraph, comps: seq<Component>)
    ensures forall c :: c in TransformCalls(pc, scene, comps) ==> KindOf(c) == TransformPush
  {
    if |comps| > 0 {
      TransformCallsKinds(pc, scene, comps[..|comps| - 1]);
    }
  }

  /** `calls` when `kind` is `shared`, otherwise nothing. */
  function Only(kind: CallKind, shared: CallKind, calls: seq<Call>): seq<Call>
  {
    if kind == shared then calls else []
  }

  /** What one kind selects from a run of calls that all share one kind. */
  lemma UniformSelect(calls: seq<Call>, shared: CallKind, kind: CallKind)
    requires forall c :: c in calls ==> KindOf(c) == shared
    ensures Select(calls, kind) == Only(kind, shared, calls)
  {
    if kind == shared {
      SelectAll(calls, kind);
    } else {
      SelectNone(calls, kind);
    }
  }

  /** The calls of one kind in a non-empty tick, segment by segment. */
  lemma SelectTick(pc: ContextHandle, vb: VertexBufferHandle, vd: VertexDeclarationHandle,
      ctx: ParticleFXContext, scene: SceneGraph, dt: real, bytesWritten: uint32,
      comps: seq<Component>, runs: seq<RenderRun>, kind: CallKind)
    requires |comps| > 0
    ensures Select(UpdateCalls(pc, vb, vd, ctx, scene, dt, bytesWritten, comps, runs), kind) ==
      Only(kind, TransformPush, TransformCalls(pc, scene, comps)) +
      Only(kind, EngineStep, EngineSteps(pc, dt, ctx)) +
      Only(kind, ErrorLog, BlendErrors(runs)) +
      Only(kind, BufferUpload, Uploads(vb, bytesWritten)) +
      Only(kind, RenderSubmission, SubmitCalls(ctx.renderContext, RenderObjectsFor(vb, vd, runs))) +
      Only(kind, DebugDraw, DebugCalls(pc, ctx))
  {
    var t, m, e, u, s, d := TickSegments(pc, vb, vd, ctx, scene, dt, bytesWritten, comps, runs);
    UniformSelect(t, TransformPush, kind);
    UniformSelect(m, EngineStep, kind);
    UniformSelect(e, ErrorLog, kind);
    UniformSelect(u, BufferUpload, kind);
    UniformSelect(s, RenderSubmission, kind);
    UniformSelect(d, DebugDraw, kind);
    SelectSix(t, m, e, u, s, d, kind, Only(kind, TransformPush, t), Only(kind, EngineStep, m),
              Only(kind, ErrorLog, e), Only(kind, BufferUpload, u), Only(kind, RenderSubmission, s),
              Only(kind, DebugDraw, d));
  }

  /** The transform pushes of a tick are exactly one position and one rotation per component, in pool order. */
  lemma UpdateTransformsInPoolOrder(pc: ContextHandle, vb: VertexBufferHandle, vd: VertexDeclarationHandle,
      ctx: ParticleFXContext, scene: SceneGraph, dt: real, bytesWritten: uint32,
      comps: seq<Component>, runs: seq<RenderRun>)
    ensures Select(UpdateCalls(pc, vb, vd, ctx, scene, dt, bytesWritten, comps, runs), TransformPush) ==
      TransformCalls(pc, scene, comps)
  {
    if |comps| > 0 {
      SelectTick(pc, vb, vd, ctx, scene, dt, bytesWritten, comps, runs, TransformPush);
      var t := TransformCalls(pc, scene, comps);
      assert t + [] + [] + [] + [] + [] == t;
    }
  }

  /** A non-empty tick uploads the vertex buffer once: a discard, then the bytes the engine wrote. */
  lemma UpdateUploadsOnce(pc: ContextHandle, vb: VertexBufferHandle, vd: VertexDeclarationHandle,
      ctx: ParticleFXContext, scene: SceneGraph, dt: real, bytesWritten: uint32,
      comps: seq<Component>, runs: seq<RenderRun>)
    ensures Select(UpdateCalls(pc, vb, vd, ctx, scene, dt, bytesWritten, comps, runs), BufferUpload) ==
      if |comps| == 0 then []
      else [SetVertexBufferData(vb, 0, false), SetVertexBufferData(vb, bytesWritten, true)]
  {
    if |comps| > 0 {
      SelectTick(pc, vb, vd, ctx, scene, dt, bytesWritten, comps, runs, BufferUpload);
    }
  }

  /** A non-empty tick submits every render object built from the engine's runs exactly once, in order. */
  lemma UpdateSubmitsEachOnce(pc: ContextHandle, vb: VertexBufferHandle, vd: VertexDeclarationHandle,
      ctx: ParticleFXContext, scene: SceneGraph, dt: real, bytesWritten: uint32,
      comps: seq<Component>, runs: seq<RenderRun>)
    ensures Select(UpdateCalls(pc, vb, vd, ctx, scene, dt, bytesWritten, comps, runs), RenderSubmission) ==
      if |comps| == 0 then [] else SubmitCalls(ctx.renderContext, RenderObjectsFor(vb, vd, runs))
  {
    if |comps| > 0 {
      SelectTick(pc, vb, vd, ctx, scene, dt, bytesWritten, comps, runs, RenderSubmission);
      var s := SubmitCalls(ctx.renderContext, RenderObjectsFor(vb, vd, runs));
      assert [] + [] + [] + [] + s + [] == s;
    }
  }

  /** The debug render happens once in a tick exactly when the pool is non-empty and debug is on. */
  lemma UpdateDebugRenderOnlyIfEnabled(pc: ContextHandle, vb: VertexBufferHandle, vd: VertexDeclarationHandle,
      ctx: ParticleFXContext, scene: SceneGraph, dt: real, bytesWritten: uint32,
      comps: seq<Component>, runs: seq<RenderRun>)
    ensures Select(UpdateCalls(pc, vb, vd, ctx, scene, dt, bytesWritten, comps, runs), DebugDraw) ==
      if |comps| > 0 && ctx.debug then [DebugRender(pc, ctx.renderContext)] else []
  {
    if |comps| > 0 {
      SelectTick(pc, vb, vd, ctx, scene, dt, bytesWritten, comps, runs, DebugDraw);
    }
  }

  lemma AppendAssoc(a: seq<Call>, b: seq<Call>, c: seq<Call>)
    ensures (a + b) + c == a + (b + c)
  {
  }

  /** A world: `ParticleFXWorld`. */
  class ParticleFXWorld {
    const particleContext: ContextHandle
    const vertexBuffer: VertexBufferHandle
    const vertexDeclaration: VertexDeclarationHandle
    /** The storage of `m_Components`; the first `componentCount` slots are live. */
    const componentBuffer: array<Component>
    var componentCount: nat
    /** `m_RenderObjects`. */
    var renderObjects: seq<RenderObject>
    /** Every call made into a collaborator so far, oldest first. */
    var calls: seq<Call>

    /** The pool stays within its bound and every live component refers back to this world. */
    ghost predicate Valid()
      reads this, componentBuffer
    {
      componentBuffer.Length == MAX_COMPONENT_COUNT &&
      componentCount <= MAX_COMPONENT_COUNT &&
      forall i :: 0 <= i < componentCount ==> componentBuffer[i].world == this
    }

    /** The live components, in pool order. */
    function Components(): (s: seq<Component>)
      reads this, componentBuffer
      requires Valid()
      ensures |s| <= MAX_COMPONENT_COUNT
    {
      componentBuffer[..componentCount]
    }

    /** A world over handles already allocated from the engine and the graphics device. */
    constructor (particleContext: ContextHandle, vertexBuffer: VertexBufferHandle,
                 vertexDeclaration: VertexDeclarationHandle)
      ensures Valid() && fresh(componentBuffer)
      ensures this.particleContext == particleContext
      ensures this.vertexBuffer == vertexBuffer && this.vertexDeclaration == vertexDeclaration
      ensures Components() == [] && renderObjects == [] && calls == []
    {
      this.particleContext := particleContext;
      this.vertexBuffer := vertexBuffer;
      this.vertexDeclaration := vertexDeclaration;
      componentBuffer := new Component[MAX_COMPONENT_COUNT];
      componentCount := 0;
      renderObjects := [];
      calls := [];
    }

    /**
     * `CompParticleFXCreate`: below the bound, create an engine instance from
     * `prototype` (the engine answers `created`), append the component and
     * return its slot as user data; at the bound, log and refuse.
     */
    method Create(instance: GameObjectId, prototype: PrototypeHandle, created: EmitterHandle)
        returns (result: CreateResult, userData: Option<nat>)
      requires Valid()
      requires prototype != INVALID_PROTOTYPE
      modifies this, componentBuffer
      ensures Valid()
      ensures result == CreateResultOk <==> |old(Components())| < MAX_COMPONENT_COUNT
      ensures result == CreateResultOk ==>
        Components() == old(Components()) + [Component(instance, created, this)] &&
        calls == old(calls) + [CreateInstance(particleContext, prototype, created)] &&
        userData == Some(|old(Components())|)
      ensures result == CreateResultUnknownError ==>
        Components() == old(Components()) &&
        calls == old(calls) + [LogError(ComponentBufferFull(MAX_COMPONENT_COUNT))] &&
        userData == None
      ensures renderObjects == old(renderObjects)
    {
      if componentCount < MAX_COMPONENT_COUNT {
        calls := calls + [CreateInstance(particleContext, prototype, created)];
        var emitter := Component(instance, created, this);
        componentBuffer[componentCount] := emitter;
        componentCount := componentCount + 1;
        userData := Some(componentCount - 1);
        result := CreateResultOk;
      } else {
        calls := calls + [LogError(ComponentBufferFull(MAX_COMPONENT_COUNT))];
        userData := None;
        result := CreateResultUnknownError;
      }
    }

    /** `dmArray::EraseSwap` on the pool: slot `i` takes the last component and the pool shrinks by one. */
    method EraseSwapAt(i: nat)
      requires Valid() && i < componentCount
      modifies this, componentBuffer
      ensures Valid()
      ensures Components() == EraseSwap(old(Components()), i)
      ensures calls == old(calls) && renderObjects == old(renderObjects)
    {
      ghost var after := EraseSwap(Components(), i);
      componentBuffer[i] := componentBuffer[componentCount - 1];
      componentCount := componentCount - 1;
      assert forall j :: 0 <= j < componentCount ==> componentBuffer[j] == after[j];
    }

    /**
     * `CompParticleFXDestroy`: find the first component of `instance`, destroy
     * its engine instance and remove it by swap-with-last; without a match, log
     * and report an error.
     */
    method Destroy(instance: GameObjectId) returns (result: CreateResult)
      requires Valid()
      modifies this, componentBuffer
      ensures Valid()
      ensures renderObjects == old(renderObjects)
      ensures match FirstIndex(Instances(old(Components())), instance)
        case Some(i) =>
          result == CreateResultOk &&
          Components() == EraseSwap(old(Components()), i) &&
          multiset(Components()) == multiset(old(Components())) - multiset{old(Components())[i]} &&
          calls == old(calls) + [DestroyInstance(particleContext, old(Components())[i].fxInstance)]
        case None =>
          result == CreateResultUnknownError &&
          Components() == old(Components()) &&
          calls == old(calls) + [LogError(EmitterNotFound)]
    {
      var i := 0;
      while i < componentCount
        invariant 0 <= i <= componentCount
        invariant forall j :: 0 <= j < i ==> componentBuffer[j].instance != instance
      {
        if componentBuffer[i].instance == instance {
          break;
        }
        i := i + 1;
      }
      if i < componentCount {
        FirstIndexUnique(Instances(Components()), instance, i);
        EraseSwapMultiset(Components(), i);
        calls := calls + [DestroyInstance(particleContext, componentBuffer[i].fxInstance)];
        EraseSwapAt(i);
        return CreateResultOk;
      }
      calls := calls + [LogError(EmitterNotFound)];
      result := CreateResultUnknownError;
    }

    /**
     * `RenderInstanceCallback`: append one render object for a run of
     * vertices; an unknown blend mode is logged and leaves the factors unset.
     */
    method RenderInstanceCallback(material: MaterialHandle, texture: TextureHandle, blendMode: BlendMode,
                                  vertexIndex: uint32, vertexCount: uint32)
      modifies this
      ensures renderObjects == old(renderObjects) +
        [RenderObjectFor(vertexBuffer, vertexDeclaration, RenderRun(material, texture, blendMode, vertexIndex, vertexCount))]
      ensures calls == old(calls) +
        (if IsKnownMode(blendMode) then [] else [LogError(UnknownBlendMode(blendMode))])
      ensures componentCount == old(componentCount)
    {
      var ro := RenderObjectFor(vertexBuffer, vertexDeclaration, RenderRun(material, texture, blendMode, vertexIndex, vertexCount));
      if !IsKnownMode(blendMode) {
        calls := calls + [LogError(UnknownBlendMode(blendMode))];
      }
      renderObjects := renderObjects + [ro];
    }

    /** The first loop of an update: push each component's world transform, in pool order. */
    static method PushTransforms(pc: ContextHandle, scene: SceneGraph, comps: seq<Component>)
        returns (log: seq<Call>)
      ensures log == TransformCalls(pc, scene, comps)
    {
      log := [];
      var i := 0;
      while i < |comps|
        invariant 0 <= i <= |comps|
        invariant log == TransformCalls(pc, scene, comps[..i])
      {
        var emitter := comps[i];
        var position := scene.worldPosition(emitter.instance);
        log := log + [SetPosition(pc, emitter.fxInstance, position)];
        log := log + [SetRotation(pc, emitter.fxInstance, scene.worldRotation(emitter.instance))];
        assert comps[..i + 1][..i] == comps[..i];
        i := i + 1;
      }
      assert comps[..i] == comps;
    }

    /** The engine's render step: one `RenderInstanceCallback` per reported run, in order. */
    method RenderRuns(runs: seq<RenderRun>)
      modifies this
      ensures renderObjects == old(renderObjects) + RenderObjectsFor(vertexBuffer, vertexDeclaration, runs)
      ensures calls == old(calls) + BlendErrors(runs)
      ensures componentCount == old(componentCount)
    {
      var k := 0;
      while k < |runs|
        invariant 0 <= k <= |runs| && componentCount == old(componentCount)
        invariant renderObjects == old(renderObjects) + RenderObjectsFor(vertexBuffer, vertexDeclaration, runs[..k])
        invariant calls == old(calls) + BlendErrors(runs[..k])
      {
        var run := runs[k];
        RenderInstanceCallback(run.material, run.texture, run.blendMode, run.vertexIndex, run.vertexCount);
        assert runs[..k + 1][..k] == runs[..k];
        k := k + 1;
      }
      assert runs[..k] == runs;
    }

    /** The last loop of an update: submit each render object to the renderer, in array order. */
    static method SubmitAll(renderContext: RenderContextHandle, ros: seq<RenderObject>) returns (log: seq<Call>)
      ensures log == SubmitCalls(renderContext, ros)
    {
      log := [];
      var j := 0;
      while j < |ros|
        invariant 0 <= j <= |ros|
        invariant log == SubmitCalls(renderContext, ros[..j])
      {
        log := log + [AddToRender(renderContext, ros[j])];
        assert ros[..j + 1][..j] == ros[..j];
        j := j + 1;
      }
      assert ros[..j] == ros;
    }

    /**
     * `CompParticleFXUpdate`. The engine's outputs are parameters: the bytes
     * its update step wrote and the runs its render step reports, each of which
     * it hands to `RenderInstanceCallback`.
     */
    method Update(ctx: ParticleFXContext, scene: SceneGraph, dt: real, bytesWritten: uint32, runs: seq<RenderRun>)
        returns (result: UpdateResult)
      requires Valid()
      modifies this
      ensures Valid() && Components() == old(Components())
      ensures result == UpdateResultOk
      ensures calls == old(calls) +
        UpdateCalls(particleContext, vertexBuffer, vertexDeclaration, ctx, scene, dt, bytesWritten, old(Components()), runs)
      ensures renderObjects ==
        if |old(Components())| == 0 then old(renderObjects)
        else RenderObjectsFor(vertexBuffer, vertexDeclaration, runs)
    {
      if componentCount == 0 {
        return UpdateResultOk;
      }
      var pc := particleContext;
      var comps := componentBuffer[..componentCount];
      ghost var before := calls;
      var transforms := PushTransforms(pc, scene, comps);
      calls := calls + transforms;
      ghost var tick := transforms;

      // Render objects are added by RenderInstanceCallback during the engine's render step.
      renderObjects := [];
      var maxVertexBufferSize := StagingBufferSize(ctx.maxParticleCount);
      var engineSteps := [UpdateEngine(pc, dt, maxVertexBufferSize), RenderEngine(pc)];
      calls := calls + engineSteps;
      AppendAssoc(before, tick, engineSteps);
      tick := tick + engineSteps;
      ghost var rendering := calls;
      RenderRuns(runs);
      assert renderObjects == RenderObjectsFor(vertexBuffer, vertexDeclaration, runs);
      AppendAssoc(before, tick, BlendErrors(runs));
      tick := tick + BlendErrors(runs);

      var uploads := [SetVertexBufferData(vertexBuffer, 0, false), SetVertexBufferData(vertexBuffer, bytesWritten, true)];
      calls := calls + uploads;
      AppendAssoc(before, tick, uploads);
      tick := tick + uploads;
      var renderContext := ctx.renderContext;
      var submissions := SubmitAll(renderContext, renderObjects);
      calls := calls + submissions;
      AppendAssoc(before, tick, submissions);
      tick := tick + submissions;

      var debugging: seq<Call> := [];
      if ctx.debug {
        debugging := [DebugRender(pc, renderContext)];
      }
      calls := calls + debugging;
      AppendAssoc(before, tick, debugging);
      tick := tick + debugging;
      assert tick == UpdateCalls(particleContext, vertexBuffer, vertexDeclaration, ctx, scene, dt, bytesWritten, comps, runs);
      result := UpdateResultOk;
    }

    /**
     * `CompParticleFXOnMessage` for the component in slot `userData`: `start`,
     * `restart` and `stop` become the engine command of that name for the
     * component's instance, through the component's world; any other message
     * is ignored.
     */
    method OnMessage(userData: nat, id: string) returns (result: UpdateResult)
      requires Valid() && userData < componentCount
      modifies this
      ensures Valid() && Components() == old(Components())
      ensures renderObjects == old(renderObjects)
      ensures calls == old(calls) + MessageCalls(particleContext, old(Components())[userData].fxInstance, id)
      ensures result == UpdateResultOk
    {
      var emitter := componentBuffer[userData];
      var context := emitter.world.particleContext;
      if id == "start" {
        calls := calls + [StartInstance(context, emitter.fxInstance)];
      } else if id == "restart" {
        calls := calls + [RestartInstance(context, emitter.fxInstance)];
      } else if id == "stop" {
        calls := calls + [StopInstance(context, emitter.fxInstance)];
      }
      result := UpdateResultOk;
    }
  }
}
