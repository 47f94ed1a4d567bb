# Particle-effect component, modelled in Dafny

This project models the particle-effect component of the game system: the glue
between game objects and the particle engine. A particle-effect world keeps a
pool of at most 64 live components. Each component pairs a game object with an
engine instance and points back to its world. Game objects create and destroy
components and send them `start`, `restart` and `stop` messages. On every tick
the world does these steps in order:

1. It pushes each game object's world transform to the engine.
2. It runs the engine's update and render steps. The render step calls back
   once per run of vertices, and each callback builds one render object with
   the blend factors of the run's blend mode.
3. It discards the vertex buffer and uploads the freshly written vertices.
4. It submits every render object to the renderer.
5. When debugging is on, it asks for the engine's debug render.

The engine also calls back to resolve a named animation of a tile source into
frame data.

Every call into a collaborator (the particle engine, the graphics device, the
renderer, the error log) is a value of `ExternalCalls.Call`. The world records
these calls in order in its `calls` field, so each contract says exactly which
calls an entry point makes. What a collaborator answers enters as a parameter:
- the instance handle `CreateInstance` returns;
- the byte count the engine's update step writes;
- the runs the engine's render step reports.

The scene graph's transforms enter the same way, as the functions of a
`SceneGraph` value.

Modules, one file each:
- `ParticleTypes` (`types.dfy`): handles, `uint32`, the context, the scene graph and the result codes.
- `Sequences` (`sequences.dfy`): first-match search and `dmArray::EraseSwap`.
- `Blend` (`blend.dfy`): blend modes and the blend-factor table.
- `RenderObjects` (`render_objects.dfy`): render objects and how a run becomes one.
- `ExternalCalls` (`calls.dfy`): the call log, its classification by kind, and the message mapping.
- `Animation` (`animation.dfy`): the animation lookup callback.
- `ParticleFX` (`world.dfy`): the world class and the tick's call sequence.

## Model

| member | source | states |
|---|---|---|
| ParticleFX.ParticleFXWorld.constructor | engine/gamesys/src/gamesys/components/comp_particlefx.cpp:55-70 | A new world holds the engine context, vertex buffer and declaration it is given, and has an empty pool, no render objects and no calls. |
| ParticleFX.ParticleFXWorld.Create | engine/gamesys/src/gamesys/components/comp_particlefx.cpp:85-105 | Succeeds exactly when the pool holds fewer than 64 components. On success it creates one engine instance and appends the component (game object, new instance, this world). Its user data is the new slot. On failure the pool is unchanged, the only call is the "buffer full (64)" log line, and no engine instance is created. |
| ParticleFX.ParticleFXWorld.Destroy | engine/gamesys/src/gamesys/components/comp_particlefx.cpp:107-122 | When the game object has a component, the first such slot `i` is found. Exactly that component's engine instance is destroyed. The pool becomes `EraseSwap(pool, i)`, which as a multiset is the old pool minus that one component. Without a match the pool is unchanged, the only call is the "could not be found" log line, and the result is an error. |
| ParticleFX.ParticleFXWorld.EraseSwapAt | engine/gamesys/src/gamesys/components/comp_particlefx.cpp:115 | In-place erase-swap on the pool's array: the live prefix becomes `EraseSwap` of the old one and nothing else changes. |
| ParticleFX.DestroyUndoesCreate | engine/gamesys/src/gamesys/components/comp_particlefx.cpp:96-115 | Take a game object with no component yet and append its component. Destroying it then finds it in the last slot, and the erase-swap gives back the pool as it was before the create. |
| Sequences.FirstIndex | engine/gamesys/src/gamesys/components/comp_particlefx.cpp:110-113 | The first index holding the key. It is None exactly when the key is absent; otherwise the slot holds the key and no earlier slot does. |
| Sequences.EraseSwap | engine/gamesys/src/gamesys/components/comp_particlefx.cpp:115 | `dmArray::EraseSwap`: the result is one shorter, slot `i` holds the old last element (unless `i` was last), and every other slot keeps its element. |
| Sequences.EraseSwapMultiset | engine/gamesys/src/gamesys/components/comp_particlefx.cpp:115 | Erase-swap removes exactly one copy of the erased element and keeps all others. |
| ParticleFX.ParticleFXWorld.Update | engine/gamesys/src/gamesys/components/comp_particlefx.cpp:128-167 | With an empty pool: no call, render objects untouched, OK. Otherwise the calls appended are exactly `UpdateCalls` (the six segments below, in order). The render objects are exactly those built from this tick's runs, because the old ones are cleared before the render step. The pool is unchanged and the result is OK. |
| ParticleFX.StagingBufferSize | engine/gamesys/src/gamesys/components/comp_particlefx.cpp:148 | The capacity passed to the engine's update step is the particle count times 6 vertices times 24 bytes, taken modulo 2^32 as the uint32 arithmetic does; the same value line 60 gives the staging buffer. It equals the exact product exactly when that product fits in 32 bits. |
| ParticleFX.StagingBufferSizeWraps | engine/gamesys/src/gamesys/components/comp_particlefx.cpp:148 | 29826161 particles is the largest count whose 4294967184-byte buffer fits; 29826162 particles wraps around to a 32-byte capacity. |
| ParticleFX.ParticleFXWorld.PushTransforms | engine/gamesys/src/gamesys/components/comp_particlefx.cpp:135-141 | The transform loop makes exactly `TransformCalls`: for each component in pool order, a position push and then a rotation push to its engine instance. |
| ParticleFX.TransformCallsAt | engine/gamesys/src/gamesys/components/comp_particlefx.cpp:135-141 | There are two transform calls per component. Call `2k` sets component `k`'s instance to its game object's world position; call `2k+1` sets its world rotation. |
| ParticleFX.UpdateTransformsInPoolOrder | engine/gamesys/src/gamesys/components/comp_particlefx.cpp:131-141 | The transform pushes of a whole tick are exactly one position and one rotation per component, in pool order, and none for an empty pool. |
| ParticleFX.UpdateUploadsOnce | engine/gamesys/src/gamesys/components/comp_particlefx.cpp:147-153 | A non-empty tick uploads the vertex buffer once: a discard, then the bytes the engine wrote from the staging buffer. An empty tick uploads nothing. |
| ParticleFX.UpdateSubmitsEachOnce | engine/gamesys/src/gamesys/components/comp_particlefx.cpp:154-160 | A non-empty tick submits each render object built from the engine's runs exactly once, in order, to the context's renderer. An empty tick submits nothing. |
| ParticleFX.UpdateDebugRenderOnlyIfEnabled | engine/gamesys/src/gamesys/components/comp_particlefx.cpp:162-165 | The debug render happens once exactly when the pool is non-empty and the context's debug flag is set, and never otherwise. |
| ParticleFX.SelectTick | engine/gamesys/src/gamesys/components/comp_particlefx.cpp:131-165 | For every call kind, the calls of that kind in a non-empty tick are the matching segment of the tick, segment by segment. This is the common step of the four lemmas above. |
| ParticleFX.ParticleFXWorld.RenderRuns | engine/gamesys/src/gamesys/components/comp_particlefx.cpp:151 | The engine's render step makes one render callback per reported run. It appends `RenderObjectsFor(runs)` and one log line per run with an unknown blend mode. |
| ParticleFX.ParticleFXWorld.SubmitAll | engine/gamesys/src/gamesys/components/comp_particlefx.cpp:155-160 | The submission loop makes exactly one `AddToRender` per render object, in array order. |
| ExternalCalls.SubmitCallsAt | engine/gamesys/src/gamesys/components/comp_particlefx.cpp:157-160 | The submissions number exactly as many as the render objects; the `k`-th submits the `k`-th object. |
| ExternalCalls.BlendErrors | engine/gamesys/src/gamesys/components/comp_particlefx.cpp:217-218 | Every line written during the render step is an "unknown blend mode" log line naming an unknown mode that one of the runs carries, and there are none exactly when every run's mode is known. With `BlendErrorsConcat` and `BlendErrorsOne` this fixes the lines completely: one per unknown-mode run, in run order. |
| ExternalCalls.BlendErrorsConcat | engine/gamesys/src/gamesys/components/comp_particlefx.cpp:218 | The log lines for two consecutive batches of runs are the first batch's followed by the second's, so the lines keep the order of the callbacks. |
| ExternalCalls.BlendErrorsOne | engine/gamesys/src/gamesys/components/comp_particlefx.cpp:217-218 | A single run writes exactly one "unknown blend mode" line naming its mode when the switch does not know that mode, and no line otherwise. |
| ParticleFX.ParticleFXWorld.RenderInstanceCallback | engine/gamesys/src/gamesys/components/comp_particlefx.cpp:223-238 | Appends exactly one render object for the run. An unknown blend mode also appends one "unknown blend mode" log line. Nothing else changes. |
| RenderObjects.RenderObjectFor | engine/gamesys/src/gamesys/components/comp_particlefx.cpp:226-236 | The object carries the run's material, texture, vertex start and count, and the world's vertex buffer and declaration. It draws triangles, computes a depth key and sets blend factors. Its factors are the table's pair for a known mode; for an unknown mode they are left at the blank object's. |
| RenderObjects.RenderObjectsForAt | engine/gamesys/src/gamesys/components/comp_particlefx.cpp:237 | Pushing one object per callback makes one object per run, the `k`-th built from the `k`-th run. |
| RenderObjects.VertexRangesCopied | engine/gamesys/src/gamesys/components/comp_particlefx.cpp:229-230 | The render objects carry exactly the runs' vertex ranges. So they tile a span of the vertex buffer exactly when the engine's runs do. |
| RenderObjects.SetBlendFactors | engine/gamesys/src/gamesys/components/comp_particlefx.cpp:193-221 | The factors for each mode: alpha gives src-alpha / one-minus-src-alpha; add gives one / one; add-alpha gives src-alpha / one; mult gives zero / src-color. Any other mode leaves the render object unchanged. |
| Blend.FactorsFor | engine/gamesys/src/gamesys/components/comp_particlefx.cpp:195-219 | The table has a pair exactly for the four known modes. |
| Blend.FactorsForInjective | engine/gamesys/src/gamesys/components/comp_particlefx.cpp:195-215 | Distinct known modes have distinct factor pairs in the table. |
| ParticleFX.ParticleFXWorld.OnMessage | engine/gamesys/src/gamesys/components/comp_particlefx.cpp:169-185 | The component in the user-data slot gets exactly `MessageCalls` for the message id, sent through its own world's engine context. The pool and the render objects are unchanged, and the result is OK. |
| ExternalCalls.MessageCalls | engine/gamesys/src/gamesys/components/comp_particlefx.cpp:172-183 | A message makes at most one engine call, and makes one exactly for `start`, `restart` and `stop`. That call is an instance command for the component's instance in the given context. |
| ExternalCalls.MessageCallsRoundTrip | engine/gamesys/src/gamesys/components/comp_particlefx.cpp:172-183 | The call a message makes names that message: `MessageOf` gives back the id for every call in `MessageCalls`. |
| ExternalCalls.MessageCallsDistinct | engine/gamesys/src/gamesys/components/comp_particlefx.cpp:172-183 | Different control messages make different engine calls. |
| ExternalCalls.MessageOf | engine/gamesys/src/gamesys/components/comp_particlefx.cpp:172-183 | A recorded call names a message exactly when it is a start, restart or stop command. |
| Animation.FetchAnimation | engine/gamesys/src/gamesys/components/comp_particlefx.cpp:245-299 | NOT_FOUND exactly when the id is absent. UNKNOWN_ERROR exactly when it is present but the resource has no texture coordinates. In both cases the output data is not written. Otherwise OK, with the output filled from the FIRST matching animation: the resource's texture and coordinates, the animation's fps, tiles and flips, and its playback mapped. |
| Animation.AnimationDataAt | engine/gamesys/src/gamesys/components/comp_particlefx.cpp:264-292 | The data filled in for a found animation: the resource's texture and texture coordinates, and the animation's fps, start and end tile, and horizontal and vertical flips. Its playback maps back to the animation's own mode. |
| Animation.EnginePlayback | engine/gamesys/src/gamesys/components/comp_particlefx.cpp:272-292 | Each tile-source playback mode maps to the engine mode of the same name, in both directions of each case. |
| Animation.EnginePlaybackBijective | engine/gamesys/src/gamesys/components/comp_particlefx.cpp:272-292 | The playback switch maps each of the six tile-source modes to the engine mode of the same name, and it is one-to-one and onto. |

## Left out

- `CompParticleFXNewWorld` and `CompParticleFXDeleteWorld` (lines 51-83) only allocate and free engine and graphics handles. The constructor takes those handles ready-made, and deletion is not modelled.
- `CompParticleFXOnReload` (lines 187-191) is not modelled.
- `RenderLineCallback` (lines 240-243) only forwards a line to the renderer, and the engine's debug render drives it. The model records the `DebugRender` call, not the lines it draws.
- The particle engine's own behaviour is not modelled: simulation, vertex generation, and which runs it reports. Its outputs are unconstrained parameters, including `bytesWritten`, which nothing bounds by the staging buffer's size. The engine's calls to the animation lookup during its update step are not in the tick's call log either.
- Positions, rotations, `dt` and texture coordinates are reals the model stores and passes along but never computes with. The float layout of `ParticleVertex` appears only as its size, 24 bytes.
- Message and animation ids are compared as strings and numbers. `dmHashString64` is not modelled, so hash collisions are out of scope.
- The user-data pointer into the component array is modelled as a slot index. OnMessage requires that slot to be live. A pointer that an erase-swap left stale is not modelled.
- The reserved capacity `m_MaxParticleFXCount` of both arrays is not modelled, nor are `dmArray`'s capacity assertions. The component array is bounded by the 64 slots its guard allows. The render-object array is an unbounded sequence, and Update accepts any number of runs. In the source, a tick whose engine reports more runs than `m_MaxParticleFXCount` fails the capacity assertion of the `Push` at line 237.
- Destroy: its for-loop that returns from inside is modelled as a scan that stops at the first match, followed by the erase; the calls and the resulting state are the same.
- RenderObjects.RenderObjectFor: `dmRender::RenderObject`'s default construction is not part of this model. The render object starts from `BLANK_RENDER_OBJECT` (zero handles and counts, zero blend factors), so the factors an unknown blend mode leaves behind are those blank values.
- `dmLogError` output is modelled as a `LogError` call carrying which message was logged, not its formatted text.
- Animation.FetchAnimation: the resource is assumed to keep one animation per animation id (the lookup indexes the animations by the id's position). The id count is assumed to fit in 32 bits, as `dmArray` sizes do. The `~0u` "not found" index is kept as written.

- Blend modes: the enumerators' numeric values are not part of this model. A run's mode is either one of the four named constructors or `BlendModeOther(code)` for a value none of them has; nothing in the type stops `code` from holding a named enumerator's number, and such a mode is treated as unknown.