# Sound Playground engine core in Dafny

This project models the core of the Sound Playground engine, a C++ sandbox
that places models in a 3-D scene and renders them with OpenGL or Vulkan. It
also computes spatial audio between audio components linked by delay lines.
The model covers these parts:

- **Vulkan scene draw list** (`vulkan_scene.dfy`). Models are kept sorted by
  material name and then mesh file path. The render walk binds a material or
  mesh only when it changes, and stops at the first model that would need a
  null one. `RenderLog` defines its calls pass by pass; `render` issues
  exactly that log, and the log's properties are proved about `RenderLog`
  itself.
- **Physics system and service manager** (`physics_system.dfy`,
  `service_manager.dfy`). Creating a physics scene for a top-level scene
  always appends a new one, even when one already exists. Lookup is a linear
  scan that returns the earliest scene bound to the top-level scene, and
  raycasts are routed to that one. The service
  locator forwards to the physics system.
- **Graphics scene** (`graphics_scene.dfy`): the list of graphics objects.
- **Audio shadow object** (`audio_object.dfy`). Position and rotation are kept
  as an own part and a parent part. Their sum is republished to children and
  copied into the attached audio component.
- **Audio component**, in both revisions in the repository
  (`audio_component.dfy`, `audio_component_legacy.dfy`). It covers link
  initialisation, transform notifications, per-link radial velocity for the
  doppler stage, and the pull count over the inputs.
- **UI tree and draw order** (`ui.dfy`, `render.dfy`). `drawUIRecursive` is a
  pure function that returns the paths of the drawn nodes. The draw order it
  produces is proved to be the documented one.
- **Renderer lifecycle** (`render.dfy`). Three pieces are modelled:
  - GL handle release, which is idempotent;
  - the renderer's `deinit`;
  - the fail-fast `init` step chain.
- **Input handling** (`einput.dfy`). This is the selection and placing state
  machine, plus forwarding to input components.
- **Engine** (`engine.dfy`). It covers the `bInitialized` gate on `run` and
  the mesh cache by file path. The cache holds weak references, so a mesh is
  alive exactly while a registered model holds it.

Classes stand for the C++ objects whose fields change in place; their methods
carry `modifies` clauses and state the new state. Pure logic is written as
functions and lemmas.

Foreign calls are passed in as parameters or recorded in logs:

- the physics scene's raycast is an uninterpreted function;
- `mat::normal` is an uninterpreted function;
- a delay line's `readable()` is a field;
- GL delete calls, `otherTransformUpdated` and `processInput` calls are
  recorded as logs;
- SDL and GL initialisation results are booleans;
- the UI manager's event report and the screen raycast result are inputs.

`std::string` ordering is modelled as lexicographic order (`Common.StrLess`).

## Model

| member | source | states |
|---|---|---|
| Common.StrLessIrreflexive | src/Systems/Graphics/Vulkan/VulkanScene.cpp:42 | no string is less than itself under `std::string`'s `<` |
| Common.StrLessTransitive | src/Systems/Graphics/Vulkan/VulkanScene.cpp:42 | string `<` is transitive |
| Common.StrLessAsymmetric | src/Systems/Graphics/Vulkan/VulkanScene.cpp:42 | `a < b` excludes `b < a` |
| Common.StrLessTotal | src/Systems/Graphics/Vulkan/VulkanScene.cpp:42 | two distinct strings are ordered one way or the other |
| Common.StrLessEqIffNotLess | src/Systems/Graphics/Vulkan/VulkanScene.cpp:48 | `a <= b` holds exactly when `b < a` does not |
| VulkanScenes.DrawKeyLess | src/Systems/Graphics/Vulkan/VulkanScene.cpp:37-49 | a model with a material always sorts before one without, and only a model with a material sorts before anything |
| VulkanScenes.DrawKeyLessIrreflexive | src/Systems/Graphics/Vulkan/VulkanScene.cpp:37-49 | the sort comparator never puts a model before itself |
| VulkanScenes.DrawKeyLessTransitive | src/Systems/Graphics/Vulkan/VulkanScene.cpp:37-49 | the sort comparator is transitive |
| VulkanScenes.DrawKeyIncomparableTransitive | src/Systems/Graphics/Vulkan/VulkanScene.cpp:37-49 | models the comparator cannot order either way are interchangeable: if `a` is incomparable with `b` and `b` with `c`, then `a` is incomparable with `c`; with irreflexivity and transitivity, the comparator is the strict weak ordering `std::sort` requires |
| VulkanScenes.NotLessIffInDrawOrder | src/Systems/Graphics/Vulkan/VulkanScene.cpp:37-49 | the comparator does not put `b` before `a` exactly when `a, b` are in draw order: models with a material come before those without; then names are non-decreasing; within one name, models with a mesh come before those without; then file paths are non-decreasing |
| VulkanScenes.SortedIffInDrawOrder | src/Systems/Graphics/Vulkan/VulkanScene.cpp:35-50 | a list is sorted by the comparator exactly when every pair in it is in draw order |
| VulkanScenes.InsertKeepsSorted | src/Systems/Graphics/Vulkan/VulkanScene.cpp:37 | inserting a model before the first entry it is strictly less than keeps the list sorted |
| VulkanScenes.SortByDrawKey | src/Systems/Graphics/Vulkan/VulkanScene.cpp:35-50 | `std::sort` with the comparator: the result is a permutation of the input and is sorted |
| VulkanScenes.RemoveFirst | src/Systems/Graphics/Vulkan/VulkanScene.cpp:25-33 | erasing a model: the list is unchanged when the model is absent; otherwise exactly its first occurrence is gone and the rest keep their order |
| VulkanScenes.RemoveFirstKeepsSorted | src/Systems/Graphics/Vulkan/VulkanScene.cpp:25-33 | erasing a model keeps a sorted draw list sorted |
| VulkanScenes.EraseKeepsSorted | src/Systems/Graphics/Vulkan/VulkanScene.cpp:29 | erasing any one position keeps a sorted list sorted |
| VulkanScenes.BreaksAt | src/Systems/Graphics/Vulkan/VulkanScene.cpp:75-85 | the walk stops only at a model whose material or mesh is null, and never at the first model, where nothing is bound yet |
| VulkanScenes.FirstBreak | src/Systems/Graphics/Vulkan/VulkanScene.cpp:74-88 | the walk stops at the first model whose material or mesh changes to null; no earlier model stops it |
| VulkanScenes.UnboundFirstModelIsDrawn | src/Systems/Graphics/Vulkan/VulkanScene.cpp:71-74 | the walk starts with nothing bound, so a first model without material and mesh does not stop it and is drawn |
| VulkanScenes.AppendCall | src/Systems/Graphics/Vulkan/VulkanScene.cpp:75-87 | a bind issued only on change, or a draw issued with the model's own bindings, keeps both walk properties and updates what is bound and drawn |
| VulkanScenes.RenderPass | src/Systems/Graphics/Vulkan/VulkanScene.cpp:76-88 | one pass of the loop for one model: its calls are exactly `PassLog` of the bound material and mesh (material bind if changed, mesh bind if changed, draw; cut short at a change to null); it stops exactly when the material or mesh changes to null; otherwise the model's material and mesh become the bound ones |
| VulkanScenes.PassLogKeepsWalk | src/Systems/Graphics/Vulkan/VulkanScene.cpp:76-88 | one pass's calls keep the walk's properties: each bind is for the model's own material or mesh and changes what is bound; the model is drawn, under its own bindings, exactly when the pass does not stop |
| VulkanScenes.IssueBind | src/Systems/Graphics/Vulkan/VulkanScene.cpp:76-86 | a bind of the model's own material (or mesh), issued where it differs from what was bound, keeps the walk's properties, draws nothing, and makes that material (or mesh) the bound one |
| VulkanScenes.IssueDraw | src/Systems/Graphics/Vulkan/VulkanScene.cpp:88 | the draw of a model under its own bindings keeps the walk's properties and adds exactly that model to what was drawn |
| VulkanScenes.WalkEnds | src/Systems/Graphics/Vulkan/VulkanScene.cpp:75-89 | a walk past the last model issues nothing more; a log that drew every model is finished |
| VulkanScenes.WalkStops | src/Systems/Graphics/Vulkan/VulkanScene.cpp:75-89 | from a log that drew exactly the models before `i`, a pass that stops at `i` finishes the walk: the log drew exactly the models before the first break and keeps the walk's properties |
| VulkanScenes.WalkContinues | src/Systems/Graphics/Vulkan/VulkanScene.cpp:75-89 | from a log that drew exactly the models before `i`, a pass that does not stop yields a log that drew exactly the models up to `i`, with model `i`'s material and mesh bound; the rest of the walk continues from there |
| VulkanScenes.RenderFromKeepsWalk | src/Systems/Graphics/Vulkan/VulkanScene.cpp:75-89 | the rest of the loop from model `i`, after a log that drew exactly the models before `i` and has the walk's properties, finishes with a log that drew exactly the models before the first break and keeps those properties |
| VulkanScenes.RenderFromStep | src/Systems/Graphics/Vulkan/VulkanScene.cpp:75-89 | the loop's log from model `i` is that model's pass, followed by the log from `i + 1` unless the pass stops |
| VulkanScenes.RenderLogWalk | src/Systems/Graphics/Vulkan/VulkanScene.cpp:71-89 | the whole log of `render` draws exactly the models before the first break, in list order, each with its own material and mesh bound; every bind changes what is bound, binds the next model's own material (or mesh), and happens only where that model's material (or mesh) differs from the previous model's |
| VulkanScenes.VulkanScene.constructor | src/Systems/Graphics/Vulkan/VulkanScene.cpp:8-10 | a new scene has no models |
| VulkanScenes.VulkanScene.CreateModel | src/Systems/Graphics/Vulkan/VulkanScene.cpp:16-23 | a fresh model with no material or mesh is added, and the list is then a sorted permutation of the old list plus the model |
| VulkanScenes.VulkanScene.RemoveModel | src/Systems/Graphics/Vulkan/VulkanScene.cpp:25-33 | the new list is the old one with the first occurrence of the model erased; a sorted list stays sorted |
| VulkanScenes.VulkanScene.SortModels | src/Systems/Graphics/Vulkan/VulkanScene.cpp:35-50 | the list becomes a sorted permutation of itself |
| VulkanScenes.VulkanScene.ModelMeshUpdated | src/Systems/Graphics/Vulkan/VulkanScene.cpp:52-56 | re-sorts (sorted permutation) and returns null |
| VulkanScenes.VulkanScene.ModelMaterialUpdated | src/Systems/Graphics/Vulkan/VulkanScene.cpp:58-62 | re-sorts (sorted permutation) and returns null |
| VulkanScenes.VulkanScene.Render | src/Systems/Graphics/Vulkan/VulkanScene.cpp:71-89 | the calls issued are exactly `RenderLog(models)`, the log defined pass by pass from nothing bound; they draw exactly the models before the first break, in list order; each is drawn with its own material and mesh bound; every bind changes what is bound, binds the next model's own material (or mesh), and happens only where that model's material (or mesh) differs from the previous model's |
| Physics.SceneIndex | src/Physics/PhysicsSystem.cpp:32-38 | the position of the first scene bound to a `UScene`: no earlier scene matches, and the one there does |
| Physics.SceneIndexAfterAppend | src/Physics/PhysicsSystem.cpp:27-30 | appending a scene does not change which existing scene is found; the new scene is found only when none matched before |
| Physics.PhysicsSystem.constructor | src/Physics/PhysicsSystem.cpp:4-6 | a new system has no scenes |
| Physics.PhysicsSystem.Init | src/Physics/PhysicsSystem.cpp:12-15 | initialisation always succeeds |
| Physics.PhysicsSystem.Deinit | src/Physics/PhysicsSystem.cpp:17-20 | all scenes are released, after which no `UScene` is found |
| Physics.PhysicsSystem.Execute | src/Physics/PhysicsSystem.cpp:22-25 | the per-frame step leaves the scenes unchanged |
| Physics.PhysicsSystem.CreateSystemScene | src/Physics/PhysicsSystem.cpp:27-30 | a fresh scene for the `UScene` is appended and returned |
| Physics.PhysicsSystem.FindSystemScene | src/Physics/PhysicsSystem.cpp:32-38 | null exactly when no scene is bound to the `UScene`, otherwise the first one bound to it |
| Physics.PhysicsSystem.Raycast | src/Physics/PhysicsSystem.cpp:40-48 | the result of the first matching scene's raycast; with no matching scene, no object and `hit` unchanged |
| Services.ServiceManager.constructor | src/Managers/ServiceManager.cpp:11-14 | starts without a physics system |
| Services.ServiceManager.Raycast | src/Managers/ServiceManager.cpp:16-19 | requires a physics system (dereferenced unconditionally) and gives exactly the physics system's raycast result |
| Services.InstanceSlot.Instance | src/Managers/ServiceManager.cpp:4-8 | the first call creates the manager; later calls return that same manager |
| Services.InstanceTwice | src/Managers/ServiceManager.cpp:4-8 | two calls yield the same manager |
| Graphics.GraphicsScene.constructor | src/Systems/Graphics/GraphicsScene.cpp:4-8 | a new scene has no active camera and no objects |
| Graphics.GraphicsScene.Destroy | src/Systems/Graphics/GraphicsScene.cpp:10-13 | the object list is cleared |
| Graphics.GraphicsScene.AddSystemObject | src/Systems/Graphics/GraphicsScene.cpp:15-19 | the object is appended and handed back unchanged |
| AudioObjects.PositionEvent | src/Systems/Audio/AudioObject.cpp:13 | an event from the parent sets only the parent part of the position, any other sets only the own part; rotation is untouched |
| AudioObjects.RotationEvent | src/Systems/Audio/AudioObject.cpp:23 | the same for rotation; position is untouched |
| AudioObjects.PositionEventIdempotent | src/Systems/Audio/AudioObject.cpp:12-16 | a repeated position event leaves the state the first one left |
| AudioObjects.RotationEventIdempotent | src/Systems/Audio/AudioObject.cpp:22-26 | a repeated rotation event leaves the state the first one left |
| AudioObjects.ChainPropagation | src/Systems/Audio/AudioObject.cpp:12-16 | down a chain A, B, C the republished sums make C's world position the sum of A's parent part, A's new own part and the own parts of B and C |
| AudioObjects.AudioObject.constructor | src/Systems/Audio/AudioObject.cpp:5-28 | no audio component, and one callback registered per event kind on the owner |
| AudioObjects.AudioObject.OnPositionUpdated | src/Systems/Audio/AudioObject.cpp:12-16 | the state follows `PositionEvent`; the new world position is sent to the children and copied into the component when there is one |
| AudioObjects.AudioObject.OnRotationUpdated | src/Systems/Audio/AudioObject.cpp:22-26 | the state follows `RotationEvent`; the new world rotation is sent to the children and copied into the component when there is one |
| AudioObjects.RepeatPositionEvent | src/Systems/Audio/AudioObject.cpp:12-16 | delivering the same event twice sends the same sum twice and ends in the single-delivery state |
| AudioComponents.OutgoingRadial | src/Audio/Components/AudioComponent.cpp:53-55 | an output link's radial velocity is the negated projection of the far end's velocity relative to this one onto the direction towards the far end, so it is 0 when both move alike |
| AudioComponents.IncomingRadial | src/Audio/Components/AudioComponent.cpp:59-61 | an input link's radial velocity is the negated projection of this end's velocity relative to the far end onto the direction from the far end, so it is 0 when both move alike |
| AudioComponents.LinkVelocitySymmetric | src/Audio/Components/AudioComponent.cpp:51-62 | A's output link to B and B's input link from A get the same radial velocity |
| AudioComponents.AudioComponent.constructor | src/Audio/Components/AudioComponent.cpp:5-11 | accepts neither input nor output, is not dirty, has rate 0 and no links |
| AudioComponents.AudioComponent.Init | src/Audio/Components/AudioComponent.cpp:13-18 | every input and then every output link is initialised with the component's rate, in order, and the rate is stored; the transform and the accept flags are unchanged |
| AudioComponents.AudioComponent.Position | src/Audio/Components/AudioComponent.cpp:20-23 | returns the position |
| AudioComponents.AudioComponent.Velocity | src/Audio/Components/AudioComponent.cpp:25-28 | returns the velocity |
| AudioComponents.AudioComponent.Forward | src/Audio/Components/AudioComponent.cpp:30-33 | returns the forward vector |
| AudioComponents.AudioComponent.TransformUpdated | src/Audio/Components/AudioComponent.cpp:35-46 | marks the transform dirty, then notifies the far end of each output (outgoing) and then of each input (incoming), one notice per link; the transform, the accept flags and the links are unchanged |
| AudioComponents.AudioComponent.UpdateVelocity | src/Audio/Components/AudioComponent.cpp:48-63 | stores the velocity, then sets every output and every input link's radial velocity from both ends' current state; nothing else changes, including each link's readable count |
| AudioComponents.AudioComponent.PullCount | src/Audio/Components/AudioComponent.cpp:65-73 | the minimum readable count over the inputs, or `SIZE_MAX` with no inputs |
| LegacyAudio.Resize | src/Audio/AudioComponent.cpp:18 | `resize` keeps the first `n` samples and pads with zeros up to `n` |
| LegacyAudio.ResizeIdempotent | src/Audio/AudioComponent.cpp:14-21 | resizing twice to the same size equals resizing once |
| LegacyAudio.AudioComponent.constructor | src/Audio/AudioComponent.cpp:5-12 | as the newer revision, with zero channels and an empty buffer |
| LegacyAudio.AudioComponent.Init | src/Audio/AudioComponent.cpp:14-21 | stores rate and channels, resizes the indirect input buffer, and initialises every input and then every output link with the component's rate; the transform and the accept flags are unchanged |
| LegacyAudio.AudioComponent.Position | src/Audio/AudioComponent.cpp:23-26 | returns the position |
| LegacyAudio.AudioComponent.Forward | src/Audio/AudioComponent.cpp:28-31 | returns the forward vector |
| LegacyAudio.AudioComponent.TransformUpdated | src/Audio/AudioComponent.cpp:33-44 | marks the transform dirty and notifies outputs then inputs, one notice per link; the transform, the accept flags and the indirect input buffer are unchanged |
| LegacyAudio.AudioComponent.PullCount | src/Audio/AudioComponent.cpp:46-54 | the minimum readable count over the inputs, or `SIZE_MAX` with no inputs |
| UI.PathLess | src/UI/UIManager.h:26-28 | the documented draw order relates only distinct nodes |
| UI.PathLessIrreflexive | src/UI/UIManager.h:26-28 | the documented draw order puts no node before itself |
| UI.PathLessAsymmetric | src/UI/UIManager.h:26-28 | the documented draw order never puts two nodes each before the other |
| UI.DocumentedOrderIsPathLess | src/UI/UIManager.h:26-28 | the documented rules hold on paths: a node precedes every node below it, and every node below an earlier subobject precedes every node below a later one |
| UI.UIManager.constructor | src/UI/UIManager.h:33-34 | a new manager hovers nothing and has no active data, so the hover rule holds |
| UI.UIManager.SetActiveData | src/Engine/EInput.cpp:55 | replaces the active data and keeps the hover rule (only an object that accepts input is hovered) |
| Rendering.DrawUIRecursive | src/Graphics/Render.cpp:150-183 | the node itself is drawn first; only nodes of the tree are drawn; the draws are strictly in documented order (so no node is drawn twice) |
| Rendering.DrawSubobjects | src/Graphics/Render.cpp:180-182 | the subobject loop draws only nodes below the subobjects from the given index on, strictly in documented order |
| Rendering.DrawsComplete | src/Graphics/Render.cpp:178-182 | every node of the tree is drawn |
| Rendering.SubobjectsComplete | src/Graphics/Render.cpp:180-182 | every node below a subobject from the given index on is drawn by the loop |
| Rendering.DrawnExactlyOnce | src/Graphics/Render.cpp:178-182 | one draw per node: the drawn paths are exactly the tree's nodes and none repeats |
| Rendering.NodeDrawnBeforeDescendants | src/UI/UIManager.h:26-28 | a node is drawn before every node below it |
| Rendering.EarlierSubtreeDrawnFirst | src/UI/UIManager.h:26-28 | subobjects are drawn in array order, and all of an earlier subobject's tree before a later subobject, so later-drawn objects are on top |
| Rendering.DeinitCalls | src/Graphics/Render.cpp:92-96 | at most five delete calls, each naming a nonzero handle first |
| Rendering.DeinitDeletesOnlyHeld | src/Graphics/Render.cpp:90-103 | every delete names a nonzero handle; each nonzero handle is deleted; the three G-buffer textures go together; nothing is deleted exactly when all checked handles are 0 |
| Rendering.DeinitOfZeroDeletesNothing | src/Graphics/Render.cpp:92-96 | with every handle 0, `GObjects::deinit` deletes nothing |
| Rendering.GObjects.constructor | src/Graphics/Render.cpp:13-17 | value-initialised GL objects hold only zero handles |
| Rendering.GObjects.Deinit | src/Graphics/Render.cpp:90-103 | deletes what `DeinitCalls` lists for the old handles, then every handle is 0 |
| Rendering.DeinitTwice | src/Graphics/Render.cpp:90-103 | a second `GObjects::deinit` deletes nothing and leaves the same all-zero state |
| Rendering.FirstFailure | src/Graphics/Render.cpp:50-74 | the count of setup steps that succeed before the first failure: all earlier steps succeed and the step at that count fails |
| Rendering.Render.constructor | src/Graphics/Render.cpp:13-17 | a new renderer has no GL context and zero handles |
| Rendering.Render.Deinit | src/Graphics/Render.cpp:77-88 | releases both programs, deinitialises the GL objects, deletes the context only if there is one, and leaves no context |
| Rendering.Render.Init | src/Graphics/Render.cpp:27-75 | failed context checks return false without deinit or setup; otherwise the setup steps run in order up to and including the first failure, which triggers deinit (no context, no programs, zero handles); true exactly when every check and step succeeds |
| Input.SetAll | src/Engine/EInput.cpp:22 | a setter (`setSelected`, `setPosition`) applied over a set: every member gets the value, every other object keeps its own |
| Input.ForwardedExactly | src/Engine/EInput.cpp:66-70 | the `processInput` calls: only objects with an input component get the event, and every such object gets it |
| Input.SpawnStage | src/Engine/EInput.cpp:21-26 | with nothing spawned the state is unchanged; a spawn makes the spawned object the selection and turns placing on; positions and active data are kept |
| Input.HandleInputState | src/Engine/EInput.cpp:17-64 | consumed input, and events that are neither motion nor a left click, change nothing beyond the spawn stage; placing is never turned on after it; positions change only on unconsumed motion that hits while placing; the active data changes only on an unconsumed left click when not placing |
| Input.SpawnReplacesSelection | src/Engine/EInput.cpp:21-26 | a spawned object becomes the whole selection, the old selection is deselected and placing turns on |
| Input.ConsumedStopsAfterSpawn | src/Engine/EInput.cpp:28 | input the UI consumed changes nothing beyond the spawn stage |
| Input.PlacingMotion | src/Engine/EInput.cpp:33-39 | while placing, motion that hits moves every selected object to the hit point and no other; a miss moves nothing |
| Input.PlacingLeftClick | src/Engine/EInput.cpp:40-43 | while placing, a left click ends placing and marks every selected object selected |
| Input.SelectionClick | src/Engine/EInput.cpp:46-63 | otherwise a left click on a model selects only it and shows its UI data or none; on empty space it empties the selection and shows none; the old selection is deselected in both cases |
| Input.World.SetSelectedAll | src/Engine/EInput.cpp:22 | the loop over the selection sets flags as `SetAll` says |
| Input.World.SetPositionAll | src/Engine/EInput.cpp:37 | the loop over the selection sets positions as `SetAll` says |
| Input.World.ForwardInput | src/Engine/EInput.cpp:66-70 | appends exactly the `Forwarded` calls, in world order |
| Input.EInput.constructor | src/Engine/EInput.cpp:11-15 | no UI manager, not placing, nothing selected |
| Input.EInput.HandleInput | src/Engine/EInput.cpp:17-71 | requires the UI manager; the new state is `HandleInputState` of the old; the event is forwarded unless the UI consumed it; the hover rule is kept |
| Engines.Engine.Init | src/Engine/Engine.cpp:42-73 | succeeds exactly when SDL, the window and renderer init all succeed; a failed SDL or window step leaves the renderer as it was; a failed renderer setup step leaves it without context, programs or handles |
| Engines.Engine.constructor | src/Engine/Engine.cpp:19-35 | `bInitialized` is true exactly when `init` succeeded; the mesh cache starts empty |
| Engines.Engine.Deinit | src/Engine/Engine.cpp:75-83 | clears `bInitialized` and deinitialises the renderer (no context, no programs, zero handles); the cache is untouched |
| Engines.Engine.Run | src/Engine/Engine.cpp:95-97 | the main loop is entered exactly when `bInitialized` is true |
| Engines.Engine.MakeMesh | src/Engine/Engine.cpp:151-161 | returns the cached mesh, creating nothing, when it is alive; otherwise creates a new mesh and records it for the path |
| Engines.Engine.RegisterModel | src/Engine/Engine.cpp:130-138 | the model holds the path's mesh (the cached one when alive), the path maps to that mesh, the mesh lists the model, and the model becomes active; no other path, holder or mesh list changes |
| Engines.Engine.UnregisterModel | src/Engine/Engine.cpp:140-149 | the model leaves its mesh's list and releases the mesh; the path entry is erased only when its mesh has no owner left |
| Engines.RegisterSharing | src/Engine/Engine.cpp:151-161 | two models with one path registered in turn share one mesh, and at most one mesh is created |

## Left out

- OpenGL setup internals are not modelled: `initRectVAO`, `initDeferredPipeline` (with its random SSAO kernel), `initShadow` and `initUI`. Each is an opaque success flag, so the handles they create are not modelled. `setCamera`, `drawMeshes` and `swap` are also left out. All of these are GL or SDL calls or float matrix math.
- Rendering.DrawUIRecursive: the floating-point layout arithmetic (anchor offset, NDC transform, texture mapping) is not modelled; only the traversal order is kept.
- Floating point is not modelled anywhere: vectors are over the reals, and `mat::normal` is an uninterpreted function.
- SDL windowing, the event pump and the frame timing in `Engine::run` are not modelled. So are the audio engine's start and stop and `raycastScreen`'s projection. The raycast result is an input to `HandleInput`.
- Input.EInput.HandleInput takes the raycast result as an input. It does not model that the placing-mode raycast ignores the selected objects, nor that the selection click reads the motion coordinates of a button event.
- The physics scene's own raycast and `PhysicsObject` geometry are not modelled; the scene raycast is an uninterpreted function.
- Delay-line internals are not modelled: `init(sampleRate)` and `readable()`. Calls to `init` are recorded, and `readable()` is a field.
- `otherTransformUpdated`, which `transformUpdated` calls on the far-end component of every link (src/Audio/Components/AudioComponent.cpp:39-44, src/Audio/AudioComponent.cpp:37-42), is not modelled: its definition is not part of this model, so each call is recorded as a `Notice` naming that component, the link and its direction.
- Event-bus internals are not modelled: `registerCallback` and `childEventImmediate` are recorded as logs.
- `Engine::instance` and `ServiceManager::instance` are function-local singletons. They are modelled as explicit objects.
- AudioComponents.AudioComponent.UpdateVelocity requires that no link object appears twice among the inputs and outputs. A link listed twice would be rewritten by the later loop pass, and the model does not state that case.
- AudioComponents.AudioComponent.TransformUpdated and UpdateVelocity assume every link's far end is alive. The source locks a weak reference and dereferences the result without checking it.
- UI.UIManager: the hover rule is kept as an invariant of the manager. The updates to `hoveredObject` are in UIManager.cpp, which is not part of this model; neither is the hit testing (`objectAt`).
- `handeInput` of the UI manager has no body in this model. The rule that it returns true exactly when the UI consumed the input is taken as given: the `consumedInput` field of the report that `HandleInput` receives stands for it. The handler and the header use different signatures for this call, and the model follows the handler.
- `VulkanScene::updateUniforms` is not modelled; its loop body is empty.
- VulkanModel.cpp, GMesh, EModel, EWorld and UIComponent are not part of this model. For GMesh, its model list is modelled as a list from which unregistering removes the model.
- Engines.Engine.UnregisterModel requires that the model is registered, because the source dereferences the model's mesh unconditionally.
- Engines.Engine: the caller's own `shared_ptr` copies of a mesh do not count towards liveness; only registered models own meshes. This matches how `registerModel` hands the mesh straight to the model.
- UI.UIManager.constructor: that a new manager hovers nothing and has no active data is an assumption; the member initialisers are in UIManager.cpp, which is not part of this model.
- VulkanScenes.VulkanScene.CreateModel: that a new model has no material and no mesh is an assumption; VulkanModel.cpp is not part of this model.
- Rendering.Render.Init: when every setup step succeeds, the program flags and GL handles are left as they were, because the setup steps that create them are not modelled.
- `Engine::init` in the model stops at the renderer; the audio engine's initialisation is commented out in the source.
