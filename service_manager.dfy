/** The service locator through which input code reaches the physics
    subsystem without knowing its concrete type. */
module Services {
  import opened Common
  import opened Physics

  class ServiceManager {
    var physicsSystem: PhysicsSystem?

    constructor ()
      ensures physicsSystem == null
    {
      physicsSystem := null;
    }

    /** Delegates to the physics system, which must be set. A `UScene` without
        a physics scene yields no object rather than a fault. */
    method Raycast(uscene: USceneId, origin: Vec3, direction: Vec3, hit: Vec3, cast: SceneRaycast)
      returns (hitObject: Option<UObjectId>, hitAfter: Vec3)
      requires physicsSystem != null
      ensures var scenes := physicsSystem.physicsScenes;
              var i := SceneIndex(scenes, uscene);
              if i < |scenes|
              then RayOutcome(hitObject, hitAfter) == cast(scenes[i], origin, direction, hit)
              else hitObject == None && hitAfter == hit
    {
      hitObject, hitAfter := physicsSystem.Raycast(uscene, origin, direction, hit, cast);
    }
  }

  /** The function-local static behind `ServiceManager::instance`, made an
      explicit object: empty until the first call creates the manager. */
  class InstanceSlot {
    var instance: ServiceManager?

    constructor ()
      ensures instance == null
    {
      instance := null;
    }

    /** The one manager: created on the first call, the same object after. */
    method Instance() returns (manager: ServiceManager)
      modifies this
      ensures old(instance) != null ==> manager == old(instance)
      ensures old(instance) == null ==> fresh(manager) && manager.physicsSystem == null
      ensures instance == manager
    {
      if instance == null {
        instance := new ServiceManager();
      }
      manager := instance;
    }
  }

  /** Two calls of `instance` yield the same manager. */
  method InstanceTwice(slot: InstanceSlot) returns (first: ServiceManager, second: ServiceManager)
    modifies slot
    ensures first == second && slot.instance == first
  {
    first := slot.Instance();
    second := slot.Instance();
  }
}
