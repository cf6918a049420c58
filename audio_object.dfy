/** The audio shadow of a scene object. It keeps the object's own and its
    parent's part of position and rotation apart, republishes their sum to the
    object's children and copies the sum into the attached audio component. */
module AudioObjects {
  import opened Common

  /** The event kinds this shadow subscribes to. */
  datatype EventType = PositionUpdated | RotationUpdated

  /** An event payload: a vector, or one of the variant's other alternatives. */
  datatype EventData = Vec3Payload(vec: Vec3) | OtherPayload

  /** A call of `childEventImmediate` on the owning object. */
  datatype ChildEvent = ChildEvent(kind: EventType, data: Vec3)

  /** The owner-relative and parent-supplied parts of position and rotation. */
  datatype Shadow = Shadow(position: Vec3, parentPosition: Vec3, rotation: Vec3, parentRotation: Vec3)

  /** The world position: the object's own part plus its parent's. */
  function WorldPosition(s: Shadow): Vec3 {
    Add(s.position, s.parentPosition)
  }

  function WorldRotation(s: Shadow): Vec3 {
    Add(s.rotation, s.parentRotation)
  }

  /** The state change of a position event: the parent's part when the event
      comes from the parent, the object's own part otherwise. */
  function PositionEvent(s: Shadow, v: Vec3, fromParent: bool): (t: Shadow)
    ensures fromParent ==> t.parentPosition == v && t.position == s.position
    ensures !fromParent ==> t.position == v && t.parentPosition == s.parentPosition
    ensures t.rotation == s.rotation && t.parentRotation == s.parentRotation
  {
    if fromParent then s.(parentPosition := v) else s.(position := v)
  }

  function RotationEvent(s: Shadow, v: Vec3, fromParent: bool): (t: Shadow)
    ensures fromParent ==> t.parentRotation == v && t.rotation == s.rotation
    ensures !fromParent ==> t.rotation == v && t.parentRotation == s.parentRotation
    ensures t.position == s.position && t.parentPosition == s.parentPosition
  {
    if fromParent then s.(parentRotation := v) else s.(rotation := v)
  }

  /** A repeated event leaves the state it left the first time. */
  lemma PositionEventIdempotent(s: Shadow, v: Vec3, fromParent: bool)
    ensures PositionEvent(PositionEvent(s, v, fromParent), v, fromParent) == PositionEvent(s, v, fromParent)
  {
  }

  lemma RotationEventIdempotent(s: Shadow, v: Vec3, fromParent: bool)
    ensures RotationEvent(RotationEvent(s, v, fromParent), v, fromParent) == RotationEvent(s, v, fromParent)
  {
  }

  /** Propagation down a chain A -> B -> C: A's own position changes to `p`,
      B receives A's republished sum as its parent part, C receives B's. C then
      sits at A's parent part plus `p` plus the own parts of B and C. */
  lemma ChainPropagation(a: Shadow, b: Shadow, c: Shadow, p: Vec3)
    ensures var a' := PositionEvent(a, p, false);
            var b' := PositionEvent(b, WorldPosition(a'), true);
            var c' := PositionEvent(c, WorldPosition(b'), true);
            WorldPosition(c') == Add(Add(Add(a.parentPosition, p), b.position), c.position)
  {
  }

  /** The fields of the attached audio component that the shadow writes. */
  class AttachedComponent {
    var position: Vec3
    var rotation: Vec3

    constructor ()
    {
      position := Zero;
      rotation := Zero;
    }
  }

  class AudioObject {
    const scene: nat
    const uobject: UObjectId
    var position: Vec3
    var parentPosition: Vec3
    var rotation: Vec3
    var parentRotation: Vec3
    var audioComponent: AttachedComponent?
    /** The callbacks registered with the event bus: owner and event kind. */
    var callbacks: seq<(UObjectId, EventType)>
    /** The events sent to the owning object's children, oldest first. */
    var childEvents: seq<ChildEvent>

    function State(): Shadow
      reads this
    {
      Shadow(position, parentPosition, rotation, parentRotation)
    }

    /** Starts with no component and one callback for each of the two event
        kinds on the owning object. */
    constructor (scene: nat, uobject: UObjectId)
      ensures this.scene == scene && this.uobject == uobject
      ensures audioComponent == null
      ensures callbacks == [(uobject, PositionUpdated), (uobject, RotationUpdated)]
      ensures childEvents == []
    {
      this.scene := scene;
      this.uobject := uobject;
      position, parentPosition, rotation, parentRotation := Zero, Zero, Zero, Zero;
      audioComponent := null;
      callbacks := [(uobject, PositionUpdated), (uobject, RotationUpdated)];
      childEvents := [];
    }

    /** The PositionUpdated callback. The payload must hold a vector. */
    method OnPositionUpdated(data: EventData, fromParent: bool)
      requires data.Vec3Payload?
      modifies this, audioComponent
      ensures State() == PositionEvent(old(State()), data.vec, fromParent)
      ensures childEvents == old(childEvents) + [ChildEvent(PositionUpdated, WorldPosition(State()))]
      ensures audioComponent == old(audioComponent) && callbacks == old(callbacks)
      ensures audioComponent != null ==>
                audioComponent.position == WorldPosition(State()) &&
                audioComponent.rotation == old(audioComponent.rotation)
    {
      if fromParent {
        parentPosition := data.vec;
      } else {
        position := data.vec;
      }
      childEvents := childEvents + [ChildEvent(PositionUpdated, Add(position, parentPosition))];
      if audioComponent != null {
        audioComponent.position := Add(position, parentPosition);
      }
    }

    /** The RotationUpdated callback. The payload must hold a vector. */
    method OnRotationUpdated(data: EventData, fromParent: bool)
      requires data.Vec3Payload?
      modifies this, audioComponent
      ensures State() == RotationEvent(old(State()), data.vec, fromParent)
      ensures childEvents == old(childEvents) + [ChildEvent(RotationUpdated, WorldRotation(State()))]
      ensures audioComponent == old(audioComponent) && callbacks == old(callbacks)
      ensures audioComponent != null ==>
                audioComponent.rotation == WorldRotation(State()) &&
                audioComponent.position == old(audioComponent.position)
    {
      if fromParent {
        parentRotation := data.vec;
      } else {
        rotation := data.vec;
      }
      childEvents := childEvents + [ChildEvent(RotationUpdated, Add(rotation, parentRotation))];
      if audioComponent != null {
        audioComponent.rotation := Add(rotation, parentRotation);
      }
    }
  }

  /** The same position event delivered twice: both deliveries republish the
      same sum, and the second leaves the state the first left. */
  method RepeatPositionEvent(o: AudioObject, data: EventData, fromParent: bool)
    requires data.Vec3Payload?
    modifies o, o.audioComponent
    ensures o.State() == PositionEvent(old(o.State()), data.vec, fromParent)
    ensures var e := ChildEvent(PositionUpdated, WorldPosition(o.State()));
            o.childEvents == old(o.childEvents) + [e, e]
  {
    ghost var initial := o.State();
    o.OnPositionUpdated(data, fromParent);
    o.OnPositionUpdated(data, fromParent);
    PositionEventIdempotent(initial, data.vec, fromParent);
  }
}
