/**
 * The calls the component makes into its collaborators (the particle engine,
 * the graphics device, the renderer and the log), recorded in order. Each
 * collaborator is opaque; only the sequence of calls is modelled.
 */
module ExternalCalls {
  import opened ParticleTypes
  import opened Blend
  import opened RenderObjects

  datatype ErrorMessage =
    | ComponentBufferFull(capacity: nat)
    | EmitterNotFound
    | UnknownBlendMode(mode: BlendMode)

  datatype Call =
    // particle engine
    | CreateInstance(context: ContextHandle, prototype: PrototypeHandle, created: EmitterHandle)
    | DestroyInstance(context: ContextHandle, instance: EmitterHandle)
    | StartInstance(context: ContextHandle, instance: EmitterHandle)
    | RestartInstance(context: ContextHandle, instance: EmitterHandle)
    | StopInstance(context: ContextHandle, instance: EmitterHandle)
    | SetPosition(context: ContextHandle, instance: EmitterHandle, position: Point3)
    | SetRotation(context: ContextHandle, instance: EmitterHandle, rotation: Quat)
    | UpdateEngine(context: ContextHandle, dt: real, bufferCapacity: uint32)
    | RenderEngine(context: ContextHandle)
    | DebugRender(context: ContextHandle, renderContext: RenderContextHandle)
    // graphics device: upload `size` bytes, from the staging buffer or from null
    | SetVertexBufferData(buffer: VertexBufferHandle, size: nat, fromStaging: bool)
    // renderer
    | AddToRender(renderContext: RenderContextHandle, renderObject: RenderObject)
    // log
    | LogError(message: ErrorMessage)

  /** Which collaborator a call goes to, and for what. */
  datatype CallKind =
    | InstanceLifecycle   // create or destroy an engine instance
    | InstanceCommand     // start, restart or stop an engine instance
    | TransformPush       // position or rotation of an engine instance
    | EngineStep          // the engine's update or render step
    | DebugDraw           // the engine's debug render
    | BufferUpload        // vertex data to the graphics device
    | RenderSubmission    // a render object to the renderer
    | ErrorLog            // a line in the error log

  function KindOf(c: Call): CallKind
  {
    match c
    case CreateInstance(_, _, _) => InstanceLifecycle
    case DestroyInstance(_, _) => InstanceLifecycle
    case StartInstance(_, _) => InstanceCommand
    case RestartInstance(_, _) => InstanceCommand
    case StopInstance(_, _) => InstanceCommand
    case SetPosition(_, _, _) => TransformPush
    case SetRotation(_, _, _) => TransformPush
    case UpdateEngine(_, _, _) => EngineStep
    case RenderEngine(_) => EngineStep
    case DebugRender(_, _) => DebugDraw
    case SetVertexBufferData(_, _, _) => BufferUpload
    case AddToRender(_, _) => RenderSubmission
    case LogError(_) => ErrorLog
  }

  /** The calls of `calls` of the given kind, in order. */
  function Select(calls: seq<Call>, kind: CallKind): (r: seq<Call>)
    ensures |r| <= |calls|
  {
    if |calls| == 0 then []
    else (if KindOf(calls[0]) == kind then [calls[0]] else []) + Select(calls[1..], kind)
  }

  lemma {:induction false} SelectConcat(a: seq<Call>, b: seq<Call>, kind: CallKind)
    ensures Select(a + b, kind) == Select(a, kind) + Select(b, kind)
  {
    if |a| > 0 {
      assert (a + b)[1..] == a[1..] + b;
      SelectConcat(a[1..], b, kind);
    } else {
      assert a + b == b;
    }
  }

  /** Selecting from six segments in a row, given what is selected from each. */
  lemma SelectSix(t: seq<Call>, m: seq<Call>, e: seq<Call>, u: seq<Call>, s: seq<Call>, d: seq<Call>,
                  kind: CallKind,
                  rt: seq<Call>, rm: seq<Call>, re: seq<Call>, ru: seq<Call>, rs: seq<Call>, rd: seq<Call>)
    requires Select(t, kind) == rt && Select(m, kind) == rm && Select(e, kind) == re
    requires Select(u, kind) == ru && Select(s, kind) == rs && Select(d, kind) == rd
    ensures Select(t + m + e + u + s + d, kind) == rt + rm + re + ru + rs + rd
  {
    SelectConcat(t, m, kind);
    SelectConcat(t + m, e, kind);
    SelectConcat(t + m + e, u, kind);
    SelectConcat(t + m + e + u, s, kind);
    SelectConcat(t + m + e + u + s, d, kind);
  }

  lemma {:induction false} SelectAll(calls: seq<Call>, kind: CallKind)
    requires forall c :: c in calls ==> KindOf(c) == kind
    ensures Select(calls, kind) == calls
  {
    if |calls| > 0 {
      assert calls == [calls[0]] + calls[1..];
      SelectAll(calls[1..], kind);
    }
  }

  lemma {:induction false} SelectNone(calls: seq<Call>, kind: CallKind)
    requires forall c :: c in calls ==> KindOf(c) != kind
    ensures Select(calls, kind) == []
  {
    if |calls| > 0 {
      SelectNone(calls[1..], kind);
    }
  }

  /** One `AddToRender` per render object, in array order. */
  function SubmitCalls(rc: RenderContextHandle, ros: seq<RenderObject>): seq<Call>
  {
    if |ros| == 0 then []
    else SubmitCalls(rc, ros[..|ros| - 1]) + [AddToRender(rc, ros[|ros| - 1])]
  }

  /** Every render object is submitted exactly once, the k-th call submitting the k-th object. */
  lemma {:induction false} SubmitCallsAt(rc: RenderContextHandle, ros: seq<RenderObject>)
    ensures |SubmitCalls(rc, ros)| == |ros|
    ensures forall k :: 0 <= k < |ros| ==> SubmitCalls(rc, ros)[k] == AddToRender(rc, ros[k])
  {
    if |ros| > 0 {
      SubmitCallsAt(rc, ros[..|ros| - 1]);
    }
  }

  lemma {:induction false} SubmitCallsKinds(rc: RenderContextHandle, ros: seq<RenderObject>)
    ensures forall c :: c in SubmitCalls(rc, ros) ==> KindOf(c) == RenderSubmission
  {
    if |ros| > 0 {
      SubmitCallsKinds(rc, ros[..|ros| - 1]);
    }
  }

  /**
   * The log lines the blend-factor switch writes while the engine reports
   * `runs`: one per run whose mode it does not know, naming that mode, and
   * none at all exactly when every mode is known.
   */
  function BlendErrors(runs: seq<RenderRun>): (r: seq<Call>)
    ensures |r| <= |runs|
    ensures forall c :: c in r ==>
      c.LogError? && c.message.UnknownBlendMode? && KindOf(c) == ErrorLog &&
      !IsKnownMode(c.message.mode) &&
      exists k :: 0 <= k < |runs| && runs[k].blendMode == c.message.mode
    ensures r == [] <==> forall k :: 0 <= k < |runs| ==> IsKnownMode(runs[k].blendMode)
  {
    if |runs| == 0 then []
    else
      var front := runs[..|runs| - 1];
      var last := runs[|runs| - 1];
      assert forall k :: 0 <= k < |front| ==> front[k] == runs[k];
      BlendErrors(front) +
      (if IsKnownMode(last.blendMode) then [] else [LogError(UnknownBlendMode(last.blendMode))])
  }

  /** The log lines of consecutive batches of runs are those of each batch, in order. */
  lemma {:induction false} BlendErrorsConcat(a: seq<RenderRun>, b: seq<RenderRun>)
    ensures BlendErrors(a + b) == BlendErrors(a) + BlendErrors(b)
  {
    if |b| == 0 {
      assert a + b == a;
    } else {
      assert (a + b)[..|a + b| - 1] == a + b[..|b| - 1];
      BlendErrorsConcat(a, b[..|b| - 1]);
    }
  }

  /** A single run writes one log line naming its mode when that mode is unknown, and none otherwise. */
  lemma BlendErrorsOne(run: RenderRun)
    ensures BlendErrors([run]) ==
      if IsKnownMode(run.blendMode) then [] else [LogError(UnknownBlendMode(run.blendMode))]
  {
    assert [run][..0] == [];
  }

  /**
   * The engine command a control message maps to: `start`, `restart`, `stop`,
   * and nothing else. A message makes at most one call, and makes one exactly
   * for those three ids; it is an instance command for the given instance in
   * the given context.
   */
  function MessageCalls(context: ContextHandle, instance: EmitterHandle, id: string): (r: seq<Call>)
    ensures |r| <= 1
    ensures |r| == 1 <==> id in {"start", "restart", "stop"}
    ensures forall c :: c in r ==>
      KindOf(c) == InstanceCommand && c.context == context && c.instance == instance
  {
    if id == "start" then [StartInstance(context, instance)]
    else if id == "restart" then [RestartInstance(context, instance)]
    else if id == "stop" then [StopInstance(context, instance)]
    else []
  }

  /** The message a recorded instance command answers. */
  function MessageOf(c: Call): (r: Option<string>)
    ensures r.Some? <==> KindOf(c) == InstanceCommand
  {
    match c
    case StartInstance(_, _) => Some("start")
    case RestartInstance(_, _) => Some("restart")
    case StopInstance(_, _) => Some("stop")
    case _ => None
  }

  /** The call a message makes identifies the message: `MessageOf` undoes `MessageCalls`. */
  lemma MessageCallsRoundTrip(context: ContextHandle, instance: EmitterHandle, id: string)
    ensures forall c :: c in MessageCalls(context, instance, id) ==> MessageOf(c) == Some(id)
  {
  }

  /** Distinct control messages give distinct engine calls. */
  lemma MessageCallsDistinct(context: ContextHandle, instance: EmitterHandle, id1: string, id2: string)
    requires MessageCalls(context, instance, id1) != []
    requires MessageCalls(context, instance, id1) == MessageCalls(context, instance, id2)
    ensures id1 == id2
  {
    MessageCallsRoundTrip(context, instance, id1);
    MessageCallsRoundTrip(context, instance, id2);
    assert MessageCalls(context, instance, id1)[0] in MessageCalls(context, instance, id1);
  }
}
