/** The physics subsystem: physics scenes are appended without checking for
    an existing one, a lookup returns the earliest scene bound to the
    requested `UScene`, and raycasts are routed to that scene. */
module Physics {
  import opened Common

  /** What a physics scene's raycast yields: the object hit, if any, and the
      value it leaves in the caller's `hit` vector. */
  datatype RayOutcome = RayOutcome(hitObject: Option<UObjectId>, hit: Vec3)

  /** The physics scene's own raycast. Its geometry is not part of this model,
      so callers pass it in as an uninterpreted function. */
  type SceneRaycast = (PhysicsScene, Vec3, Vec3, Vec3) -> RayOutcome

  class PhysicsScene {
    const system: PhysicsSystem
    const uscene: USceneId

    constructor (system: PhysicsSystem, uscene: USceneId)
      ensures this.system == system && this.uscene == uscene
    {
      this.system := system;
      this.uscene := uscene;
    }
  }

  /** The position of the first scene bound to `uscene`, or `|scenes|`. */
  function SceneIndex(scenes: seq<PhysicsScene>, uscene: USceneId): (i: nat)
    ensures i <= |scenes|
    ensures forall k :: 0 <= k < i ==> scenes[k].uscene != uscene
    ensures i < |scenes| ==> scenes[i].uscene == uscene
  {
    if scenes == [] then 0
    else if scenes[0].uscene == uscene then 0
    else 1 + SceneIndex(scenes[1..], uscene)
  }

  /** Appending a scene never changes which earlier scene is found, and the
      new scene is found exactly when no earlier one matches. */
  lemma {:induction false} SceneIndexAfterAppend(scenes: seq<PhysicsScene>, s: PhysicsScene, uscene: USceneId)
    ensures SceneIndex(scenes, uscene) < |scenes| ==>
              SceneIndex(scenes + [s], uscene) == SceneIndex(scenes, uscene)
    ensures SceneIndex(scenes, uscene) == |scenes| ==>
              SceneIndex(scenes + [s], uscene) == if s.uscene == uscene then |scenes| else |scenes| + 1
  {
    var i, j := SceneIndex(scenes, uscene), SceneIndex(scenes + [s], uscene);
    assert forall k :: 0 <= k < |scenes| ==> (scenes + [s])[k] == scenes[k];
    if i < |scenes| {
      assert (scenes + [s])[i].uscene == uscene;
    } else if s.uscene == uscene {
      assert (scenes + [s])[|scenes|].uscene == uscene;
    }
  }

  class PhysicsSystem {
    var physicsScenes: seq<PhysicsScene>

    constructor ()
      ensures physicsScenes == []
    {
      physicsScenes := [];
    }

    method Init() returns (ok: bool)
      ensures ok
    {
      ok := true;
    }

    /** Releases every scene; afterwards no `UScene` has a physics scene. */
    method Deinit()
      modifies this
      ensures physicsScenes == []
      ensures forall u: USceneId :: SceneIndex(physicsScenes, u) == |physicsScenes|
    {
      physicsScenes := [];
    }

    /** The per-frame step, which does nothing. */
    method Execute(deltaTime: real)
      ensures physicsScenes == old(physicsScenes)
    {
    }

    method CreateSystemScene(uscene: USceneId) returns (scene: PhysicsScene)
      modifies this
      ensures fresh(scene) && scene.system == this && scene.uscene == uscene
      ensures physicsScenes == old(physicsScenes) + [scene]
    {
      scene := new PhysicsScene(this, uscene);
      physicsScenes := physicsScenes + [scene];
    }

    /** The first scene bound to `uscene`, or null when there is none. */
    method FindSystemScene(uscene: USceneId) returns (scene: PhysicsScene?)
      ensures scene == null <==> forall k :: 0 <= k < |physicsScenes| ==> physicsScenes[k].uscene != uscene
      ensures scene != null ==> scene == physicsScenes[SceneIndex(physicsScenes, uscene)]
    {
      var i := 0;
      while i < |physicsScenes|
        invariant 0 <= i <= |physicsScenes|
        invariant forall k :: 0 <= k < i ==> physicsScenes[k].uscene != uscene
      {
        if physicsScenes[i].uscene == uscene {
          return physicsScenes[i];
        }
        i := i + 1;
      }
      return null;
    }

    /** Routes a raycast to the first scene bound to `uscene`. Without one the
        result is null and `hit` keeps the value it had. */
    method Raycast(uscene: USceneId, origin: Vec3, direction: Vec3, hit: Vec3, cast: SceneRaycast)
      returns (hitObject: Option<UObjectId>, hitAfter: Vec3)
      ensures var i := SceneIndex(physicsScenes, uscene);
              if i < |physicsScenes|
              then RayOutcome(hitObject, hitAfter) == cast(physicsScenes[i], origin, direction, hit)
              else hitObject == None && hitAfter == hit
    {
      var i := 0;
      while i < |physicsScenes|
        invariant 0 <= i <= |physicsScenes|
        invariant forall k :: 0 <= k < i ==> physicsScenes[k].uscene != uscene
      {
        if physicsScenes[i].uscene == uscene {
          var outcome := cast(physicsScenes[i], origin, direction, hit);
          return outcome.hitObject, outcome.hit;
        }
        i := i + 1;
      }
      return None, hit;
    }
  }
}
