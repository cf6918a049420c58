/** The engine object: whether initialisation succeeded, which gates the main
    loop, and the cache of meshes by file path that models share. Meshes are
    owned jointly by the models that hold them; the cache keeps only weak
    references, so a mesh is alive exactly while some registered model holds
    it. SDL windowing, the event pump and the screen raycast are not modelled;
    their results are inputs. */
module Engines {
  import opened Common
  import opened Rendering

  type ModelId = nat
  type MeshId = nat

  /** The list with every occurrence of `x` removed. */
  function Without(s: seq<ModelId>, x: ModelId): (r: seq<ModelId>)
    ensures x !in r
    ensures forall y :: y != x ==> (y in r <==> y in s)
    ensures |r| <= |s|
  {
    if s == [] then []
    else (if s[0] == x then [] else [s[0]]) + Without(s[1..], x)
  }

  class Engine {
    /** `meshes`: file path to a weak reference to the mesh loaded from it. */
    var meshes: map<string, MeshId>
    /** The mesh each registered model holds. */
    var holders: map<ModelId, MeshId>
    /** Each mesh's list of the models registered with it. */
    var meshModels: map<MeshId, seq<ModelId>>
    /** Meshes are numbered in creation order; this is the next number. */
    var nextMesh: MeshId
    var activeModel: Option<ModelId>
    var initialized: bool
    const renderer: Render

    /** A weak reference can be locked while the mesh has an owner. */
    ghost predicate Alive(mesh: MeshId)
      reads this
    {
      mesh in holders.Values
    }

    /** Every mesh named anywhere has already been created. */
    ghost predicate Valid()
      reads this, renderer, renderer.gObjects
    {
      && renderer.Valid()
      && (forall p :: p in meshes ==> meshes[p] < nextMesh)
      && (forall m :: m in holders ==> holders[m] < nextMesh)
      && (forall mesh :: mesh in meshModels ==> mesh < nextMesh)
    }

    /** `Engine::init`: SDL start-up, window creation and renderer init, the
        first two given as results. */
    method Init(sdlOk: bool, windowOk: bool, created: Option<nat>, checks: ContextChecks, succeeds: InitStep -> bool)
      returns (ok: bool)
      requires Valid()
      modifies renderer, renderer.gObjects, renderer.gObjects.gbufferTextures
      ensures Valid()
      ensures ok <==> sdlOk && windowOk && checks.gl3wLoaded && checks.versionSupported && checks.vsyncSet &&
                      FirstFailure(succeeds) == |InitSteps|
      ensures !(sdlOk && windowOk) ==>
                && renderer.glContext == old(renderer.glContext)
                && renderer.mainProgram == old(renderer.mainProgram)
                && renderer.shadowProgram == old(renderer.shadowProgram)
                && renderer.gObjects.State() == old(renderer.gObjects.State())
      ensures sdlOk && windowOk && !(checks.gl3wLoaded && checks.versionSupported && checks.vsyncSet && !ok) ==>
                && renderer.glContext == created
                && renderer.mainProgram == old(renderer.mainProgram)
                && renderer.shadowProgram == old(renderer.shadowProgram)
                && renderer.gObjects.State() == old(renderer.gObjects.State())
      ensures sdlOk && windowOk && checks.gl3wLoaded && checks.versionSupported && checks.vsyncSet && !ok ==>
                renderer.glContext == None && !renderer.mainProgram && !renderer.shadowProgram &&
                AllZero(renderer.gObjects.State())
    {
      if !sdlOk { return false; }
      if !windowOk { return false; }
      var rendered, _, _ := renderer.Init(created, checks, succeeds);
      if !rendered { return false; }
      ok := true;
    }

    /** `bInitialized` records whether `init` succeeded; the cache starts
        empty. */
    constructor (sdlOk: bool, windowOk: bool, created: Option<nat>, checks: ContextChecks, succeeds: InitStep -> bool)
      ensures Valid()
      ensures initialized <==> sdlOk && windowOk && checks.gl3wLoaded && checks.versionSupported &&
                               checks.vsyncSet && FirstFailure(succeeds) == |InitSteps|
      ensures meshes == map[] && holders == map[] && meshModels == map[] && activeModel == None
    {
      meshes, holders, meshModels := map[], map[], map[];
      nextMesh := 0;
      activeModel := None;
      initialized := false;
      renderer := new Render();
      new;
      var ok := Init(sdlOk, windowOk, created, checks, succeeds);
      initialized := ok;
    }

    /** `Engine::deinit`: clears `bInitialized` and deinitialises the
        renderer, which leaves it without a context. */
    method Deinit()
      requires Valid()
      modifies this, renderer, renderer.gObjects, renderer.gObjects.gbufferTextures
      ensures Valid()
      ensures !initialized && renderer.glContext == None && AllZero(renderer.gObjects.State())
      ensures !renderer.mainProgram && !renderer.shadowProgram
      ensures meshes == old(meshes) && holders == old(holders) && meshModels == old(meshModels)
      ensures nextMesh == old(nextMesh) && activeModel == old(activeModel)
    {
      initialized := false;
      var _, _ := renderer.Deinit();
    }

    /** Whether `run` enters its loop: it returns at once unless
        initialisation succeeded. The loop itself is not modelled. */
    method Run() returns (looping: bool)
      ensures looping == initialized
    {
      if !initialized { return false; }
      looping := true;
    }

    /** `makeMesh`: the cached mesh when it is still alive, otherwise a new
        mesh, which the cache then refers to. */
    method MakeMesh(filepath: string) returns (mesh: MeshId)
      requires Valid()
      modifies this
      ensures Valid()
      ensures filepath in old(meshes) && old(Alive(meshes[filepath])) ==>
                mesh == old(meshes[filepath]) && meshes == old(meshes) &&
                meshModels == old(meshModels) && nextMesh == old(nextMesh)
      ensures !(filepath in old(meshes) && old(Alive(meshes[filepath]))) ==>
                mesh == old(nextMesh) && nextMesh == mesh + 1 &&
                meshes == old(meshes)[filepath := mesh] && meshModels == old(meshModels)[mesh := []]
      ensures filepath in meshes && meshes[filepath] == mesh
      ensures holders == old(holders) && activeModel == old(activeModel) && initialized == old(initialized)
    {
      if filepath in meshes && meshes[filepath] in holders.Values {
        mesh := meshes[filepath];
      } else {
        mesh := nextMesh;
        nextMesh := nextMesh + 1;
        meshes := meshes[filepath := mesh];
        meshModels := meshModels[mesh := []];
      }
    }

    /** `registerModel`: the model takes the mesh for its file path, the mesh
        lists the model, and the model becomes the active one. */
    method RegisterModel(model: ModelId, filepath: string) returns (mesh: MeshId)
      requires Valid()
      modifies this
      ensures Valid()
      ensures meshes == old(meshes)[filepath := mesh] && holders == old(holders)[model := mesh]
      ensures filepath in old(meshes) && old(Alive(meshes[filepath])) ==>
                mesh == old(meshes[filepath]) && nextMesh == old(nextMesh)
      ensures !(filepath in old(meshes) && old(Alive(meshes[filepath]))) ==>
                mesh == old(nextMesh) && nextMesh == mesh + 1
      ensures meshModels == old(meshModels)[mesh := old(if mesh in meshModels then meshModels[mesh] else []) + [model]]
      ensures activeModel == Some(model) && initialized == old(initialized)
    {
      mesh := MakeMesh(filepath);
      holders := holders[model := mesh];
      var listed := if mesh in meshModels then meshModels[mesh] else [];
      meshModels := meshModels[mesh := listed + [model]];
      activeModel := Some(model);
    }

    /** `unregisterModel`: the model leaves its mesh's list and releases the
        mesh; the path's entry is erased only when the mesh has no owner left
        (or there was no entry). A mesh still in use stays cached. */
    method UnregisterModel(model: ModelId, filepath: string)
      requires Valid()
      requires model in holders
      modifies this
      ensures Valid()
      ensures holders == old(holders) - {model}
      ensures var mesh := old(holders[model]);
              meshModels == old(meshModels)[mesh := Without(old(if mesh in meshModels then meshModels[mesh] else []), model)]
      ensures filepath in old(meshes) && Alive(old(meshes[filepath])) ==> meshes == old(meshes)
      ensures !(filepath in old(meshes) && Alive(old(meshes[filepath]))) ==> meshes == old(meshes) - {filepath}
      ensures nextMesh == old(nextMesh) && activeModel == old(activeModel) && initialized == old(initialized)
    {
      var mesh := holders[model];
      var listed := if mesh in meshModels then meshModels[mesh] else [];
      meshModels := meshModels[mesh := Without(listed, model)];
      holders := holders - {model};
      if !(filepath in meshes && meshes[filepath] in holders.Values) {
        meshes := meshes - {filepath};
      }
    }
  }

  /** Two models with the same file path registered one after the other
      share one mesh, and the second registration creates nothing. */
  method RegisterSharing(engine: Engine, first: ModelId, second: ModelId, filepath: string)
    returns (meshA: MeshId, meshB: MeshId)
    requires engine.Valid()
    modifies engine
    ensures engine.Valid()
    ensures meshA == meshB && first in engine.holders && second in engine.holders
    ensures engine.holders[first] == meshA && engine.holders[second] == meshB
    ensures engine.nextMesh <= old(engine.nextMesh) + 1
  {
    meshA := engine.RegisterModel(first, filepath);
    assert engine.holders[first] == meshA;
    meshB := engine.RegisterModel(second, filepath);
  }
}
