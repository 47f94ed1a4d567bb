/**
 * Value types shared by the particle-effect component: opaque handles owned by
 * collaborators (game objects, the particle engine, the graphics device, the
 * renderer), the transform values read from the scene graph, and the result
 * codes the component framework expects.
 */
module ParticleTypes {

  datatype Option<T> = None | Some(value: T)

  /** An unsigned 32-bit integer (`uint32_t`). */
  type uint32 = x: int | 0 <= x < 0x1_0000_0000

  // Handles are pointers or indices into a collaborator's tables. The component
  // only stores, forwards and compares them.
  type GameObjectId = nat            // dmGameObject::HInstance
  type EmitterHandle = nat           // dmParticle::HInstance
  type PrototypeHandle = nat         // dmParticle::HPrototype
  type ContextHandle = nat           // dmParticle::HContext
  type MaterialHandle = nat          // dmRender::HMaterial
  type TextureHandle = nat           // dmGraphics::HTexture
  type VertexBufferHandle = nat      // dmGraphics::HVertexBuffer
  type VertexDeclarationHandle = nat // dmGraphics::HVertexDeclaration
  type RenderContextHandle = nat     // dmRender::HRenderContext

  /** A 64-bit string hash (`dmhash_t`); only compared for equality. */
  type Hash = nat

  /** The null prototype pointer. */
  const INVALID_PROTOTYPE: PrototypeHandle := 0

  /** Floating-point geometry is carried, never computed with. */
  datatype Point3 = Point3(x: real, y: real, z: real)
  datatype Quat = Quat(x: real, y: real, z: real, w: real)

  /** The scene graph's transform queries, one answer per game object. */
  datatype SceneGraph = SceneGraph(
    worldPosition: GameObjectId -> Point3,
    worldRotation: GameObjectId -> Quat)

  /** The settings of the component type, shared by every world. */
  datatype ParticleFXContext = ParticleFXContext(
    maxParticleFXCount: uint32,
    maxParticleCount: uint32,
    renderContext: RenderContextHandle,
    debug: bool)

  datatype CreateResult = CreateResultOk | CreateResultUnknownError

  datatype UpdateResult = UpdateResultOk
}
