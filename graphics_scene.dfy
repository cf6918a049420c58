/** The graphics scene of one top-level scene: the list of graphics shadow
    objects and the active camera. */
module Graphics {
  import opened Common

  /** Graphics shadow objects, by identity. */
  type GraphicsObjectId = nat

  class GraphicsScene {
    const system: nat
    const uscene: USceneId
    var activeCamera: Option<GraphicsObjectId>
    var graphicsObjects: seq<GraphicsObjectId>

    constructor (system: nat, uscene: USceneId)
      ensures this.system == system && this.uscene == uscene
      ensures activeCamera == None && graphicsObjects == []
    {
      this.system := system;
      this.uscene := uscene;
      activeCamera := None;
      graphicsObjects := [];
    }

    /** The destructor: the object list is cleared. */
    method Destroy()
      modifies this
      ensures graphicsObjects == [] && activeCamera == old(activeCamera)
    {
      graphicsObjects := [];
    }

    /** Appends `systemObject` and hands the same object back. */
    method AddSystemObject(systemObject: GraphicsObjectId) returns (r: GraphicsObjectId)
      modifies this
      ensures r == systemObject
      ensures graphicsObjects == old(graphicsObjects) + [systemObject]
      ensures activeCamera == old(activeCamera)
    {
      graphicsObjects := graphicsObjects + [systemObject];
      r := systemObject;
    }
  }
}
