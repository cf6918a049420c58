/** The engine's input handler: the selection and placing state machine that
    runs after the UI has seen an event, and the forwarding of the event to
    every world object with an input component. The UI's own handling and
    the screen raycast are foreign: their results are inputs. */
module Input {
  import opened Common
  import opened UI

  /** Scene objects and models (`EObject*`, `EModel*`), by identity. */
  type ObjectId = nat

  datatype MouseButton = LeftButton | MiddleButton | RightButton

  /** The SDL event kinds the handler distinguishes. */
  datatype SdlEvent =
    | MouseMotion(x: int, y: int)
    | MouseButtonDown(button: MouseButton, x: int, y: int)
    | OtherEvent(code: nat)

  predicate IsLeftClick(e: SdlEvent) {
    e.MouseButtonDown? && e.button == LeftButton
  }

  /** What the UI manager reports for an event: an object it spawned, if
      any, and whether it consumed the input. */
  datatype UIManagerEvent = UIManagerEvent(spawned: Option<ObjectId>, consumedInput: bool)

  /** A screen raycast hit: the model, the hit location, and the data of the
      model's UI component if it has one. */
  datatype Hit = Hit(model: ObjectId, location: Vec3, uiData: Option<UIDataId>)

  /** The state the handler reads and writes: its own selection set and
      placing flag, the objects' selected flags and positions, and the UI
      manager's active data. */
  datatype Selection = Selection(
    selectedObjects: set<ObjectId>,
    placing: bool,
    flags: map<ObjectId, bool>,
    positions: map<ObjectId, Vec3>,
    activeData: Option<UIDataId>)

  /** A setter called on every object of `s` with the same value `v`
      (`setSelected(b)`, `setPosition(v)`): each object of `s` then holds `v`,
      every other object keeps its value. */
  function SetAll<V>(values: map<ObjectId, V>, s: set<ObjectId>, v: V): (r: map<ObjectId, V>)
    ensures r.Keys == values.Keys + s
    ensures forall k :: k in s ==> r[k] == v
    ensures forall k :: k in values && k !in s ==> r[k] == values[k]
  {
    map k | k in values.Keys + s :: if k in s then v else values[k]
  }

  /** Setting one more object gives the same map as setting it last. */
  lemma SetAllStep<V>(values: map<ObjectId, V>, done: set<ObjectId>, o: ObjectId, v: V)
    ensures SetAll(values, done + {o}, v) == SetAll(values, done, v)[o := v]
  {
    assert SetAll(values, done + {o}, v).Keys == SetAll(values, done, v)[o := v].Keys;
  }

  /** The first part of `handleInput`: an object spawned by the UI replaces
      the selection and turns placing on. */
  function SpawnStage(st: Selection, ui: UIManagerEvent): (r: Selection)
    ensures ui.spawned.None? ==> r == st
    ensures ui.spawned.Some? ==> r.selectedObjects == {ui.spawned.value} && r.placing
    ensures r.positions == st.positions && r.activeData == st.activeData
  {
    match ui.spawned
    case None => st
    case Some(o) =>
      st.(flags := SetAll(st.flags, st.selectedObjects, false), selectedObjects := {o}, placing := true)
  }

  /** The state after `handleInput`, given the UI's report and the result of
      the screen raycast the event would make. */
  function HandleInputState(st: Selection, e: SdlEvent, ui: UIManagerEvent, hit: Option<Hit>): (r: Selection)
    ensures ui.consumedInput || !(e.MouseMotion? || IsLeftClick(e)) ==> r == SpawnStage(st, ui)
    ensures r.placing ==> SpawnStage(st, ui).placing
    ensures r.positions != st.positions ==> !ui.consumedInput && e.MouseMotion? && hit.Some? && r.placing
    ensures r.activeData != st.activeData ==> !ui.consumedInput && IsLeftClick(e) && !SpawnStage(st, ui).placing
  {
    var s := SpawnStage(st, ui);
    if ui.consumedInput then s
    else if s.placing then
      if e.MouseMotion? then
        if hit.Some? then s.(positions := SetAll(s.positions, s.selectedObjects, hit.value.location)) else s
      else if IsLeftClick(e) then
        s.(placing := false, flags := SetAll(s.flags, s.selectedObjects, true))
      else s
    else if IsLeftClick(e) then
      if hit.Some? then
        s.(flags := SetAll(s.flags, s.selectedObjects, false)[hit.value.model := true],
           selectedObjects := {hit.value.model},
           activeData := hit.value.uiData)
      else
        s.(flags := SetAll(s.flags, s.selectedObjects, false), selectedObjects := {}, activeData := None)
    else s
  }

  /** The `processInput` calls made for `e`: one for each object of
      `objects`, in order, that has an input component. */
  function Forwarded(objects: seq<ObjectId>, inputComponents: set<ObjectId>, e: SdlEvent): seq<(ObjectId, SdlEvent)> {
    if objects == [] then []
    else
      var last := objects[|objects| - 1];
      Forwarded(objects[..|objects| - 1], inputComponents, e) + (if last in inputComponents then [(last, e)] else [])
  }

  /** Only objects of the world with an input component get the event, every
      such object gets it, and there are no more calls than objects. */
  lemma {:induction false} ForwardedExactly(objects: seq<ObjectId>, inputComponents: set<ObjectId>, e: SdlEvent)
    ensures var r := Forwarded(objects, inputComponents, e);
            && |r| <= |objects|
            && (forall k :: 0 <= k < |r| ==> r[k].0 in inputComponents && r[k].1 == e && r[k].0 in objects)
            && (forall o :: o in objects && o in inputComponents ==> (o, e) in r)
  {
    if objects != [] {
      var last := objects[|objects| - 1];
      var init := objects[..|objects| - 1];
      ForwardedExactly(init, inputComponents, e);
      assert forall o :: o in objects ==> o in init || o == last;
    }
  }

  /** Forwarding over one more object of the world list. */
  lemma ForwardedStep(objects: seq<ObjectId>, inputComponents: set<ObjectId>, e: SdlEvent, i: nat)
    requires i < |objects|
    ensures Forwarded(objects[..i + 1], inputComponents, e) ==
            Forwarded(objects[..i], inputComponents, e) + (if objects[i] in inputComponents then [(objects[i], e)] else [])
  {
    assert objects[..i + 1][..i] == objects[..i];
  }

  /** A spawned object becomes the whole selection, the old selection is
      deselected, and placing turns on. */
  lemma SpawnReplacesSelection(st: Selection, ui: UIManagerEvent)
    requires ui.spawned.Some?
    ensures var s := SpawnStage(st, ui);
            && s.selectedObjects == {ui.spawned.value} && s.placing
            && (forall o :: o in st.selectedObjects ==> s.flags[o] == false)
            && (forall o :: o in st.flags && o !in st.selectedObjects ==> s.flags[o] == st.flags[o])
            && s.positions == st.positions && s.activeData == st.activeData
  {
  }

  /** Consumed input stops handling after the spawn stage. */
  lemma ConsumedStopsAfterSpawn(st: Selection, e: SdlEvent, ui: UIManagerEvent, hit: Option<Hit>)
    requires ui.consumedInput
    ensures HandleInputState(st, e, ui, hit) == SpawnStage(st, ui)
    ensures ui.spawned.None? ==> HandleInputState(st, e, ui, hit) == st
  {
  }

  /** While placing, mouse motion that hits moves every selected object to
      the hit location; a miss moves nothing. Selection is kept either way. */
  lemma PlacingMotion(st: Selection, e: SdlEvent, ui: UIManagerEvent, hit: Option<Hit>)
    requires !ui.consumedInput && SpawnStage(st, ui).placing && e.MouseMotion?
    ensures var s := SpawnStage(st, ui);
            var t := HandleInputState(st, e, ui, hit);
            && t.selectedObjects == s.selectedObjects && t.flags == s.flags && t.placing
            && (hit.Some? ==> forall o :: o in s.selectedObjects ==> t.positions[o] == hit.value.location)
            && (hit.Some? ==> forall o :: o in s.positions && o !in s.selectedObjects ==> t.positions[o] == s.positions[o])
            && (hit.None? ==> t.positions == s.positions)
  {
  }

  /** While placing, a left click ends placing and marks the whole selection
      selected. */
  lemma PlacingLeftClick(st: Selection, e: SdlEvent, ui: UIManagerEvent, hit: Option<Hit>)
    requires !ui.consumedInput && SpawnStage(st, ui).placing && IsLeftClick(e)
    ensures var s := SpawnStage(st, ui);
            var t := HandleInputState(st, e, ui, hit);
            && !t.placing && t.selectedObjects == s.selectedObjects
            && (forall o :: o in s.selectedObjects ==> t.flags[o])
            && t.positions == s.positions
  {
  }

  /** Outside placing, a left click on a model makes it the only selected
      object and shows its UI data (or none); on empty space it clears the
      selection and the active data. Previously selected objects are
      deselected in both cases. */
  lemma SelectionClick(st: Selection, e: SdlEvent, ui: UIManagerEvent, hit: Option<Hit>)
    requires !ui.consumedInput && !SpawnStage(st, ui).placing && IsLeftClick(e)
    ensures var s := SpawnStage(st, ui);
            var t := HandleInputState(st, e, ui, hit);
            && !t.placing && t.positions == s.positions
            && (hit.Some? ==>
                  t.selectedObjects == {hit.value.model} && t.flags[hit.value.model] &&
                  t.activeData == hit.value.uiData &&
                  forall o :: o in s.selectedObjects && o != hit.value.model ==> !t.flags[o])
            && (hit.None? ==>
                  t.selectedObjects == {} && t.activeData == None &&
                  forall o :: o in s.selectedObjects ==> !t.flags[o])
  {
  }

  /** The engine's world: the objects in `allObjects()` order, which of them
      have an input component, and the effects of the calls the handler
      makes on them. */
  class World {
    var objects: seq<ObjectId>
    var inputComponents: set<ObjectId>
    var flags: map<ObjectId, bool>
    var positions: map<ObjectId, Vec3>
    /** The `processInput` calls made, oldest first. */
    var processed: seq<(ObjectId, SdlEvent)>

    constructor (objects: seq<ObjectId>, inputComponents: set<ObjectId>)
      ensures this.objects == objects && this.inputComponents == inputComponents
      ensures flags == map[] && positions == map[] && processed == []
    {
      this.objects := objects;
      this.inputComponents := inputComponents;
      flags := map[];
      positions := map[];
      processed := [];
    }

    /** `setSelected(b)` on every object of `s`, one at a time. */
    method SetSelectedAll(s: set<ObjectId>, b: bool)
      modifies this
      ensures flags == SetAll(old(flags), s, b)
      ensures positions == old(positions) && processed == old(processed)
      ensures objects == old(objects) && inputComponents == old(inputComponents)
    {
      var rest := s;
      while rest != {}
        invariant rest <= s
        invariant flags == SetAll(old(flags), s - rest, b)
        invariant positions == old(positions) && processed == old(processed)
        invariant objects == old(objects) && inputComponents == old(inputComponents)
        decreases rest
      {
        var o :| o in rest;
        SetAllStep(old(flags), s - rest, o, b);
        assert s - (rest - {o}) == (s - rest) + {o};
        flags := flags[o := b];
        rest := rest - {o};
      }
    }

    /** `setPosition(v)` on every object of `s`, one at a time. */
    method SetPositionAll(s: set<ObjectId>, v: Vec3)
      modifies this
      ensures positions == SetAll(old(positions), s, v)
      ensures flags == old(flags) && processed == old(processed)
      ensures objects == old(objects) && inputComponents == old(inputComponents)
    {
      var rest := s;
      while rest != {}
        invariant rest <= s
        invariant positions == SetAll(old(positions), s - rest, v)
        invariant flags == old(flags) && processed == old(processed)
        invariant objects == old(objects) && inputComponents == old(inputComponents)
        decreases rest
      {
        var o :| o in rest;
        SetAllStep(old(positions), s - rest, o, v);
        assert s - (rest - {o}) == (s - rest) + {o};
        positions := positions[o := v];
        rest := rest - {o};
      }
    }

    /** The forwarding loop at the end of `handleInput`. */
    method ForwardInput(e: SdlEvent)
      modifies this
      ensures processed == old(processed) + Forwarded(objects, inputComponents, e)
      ensures flags == old(flags) && positions == old(positions)
      ensures objects == old(objects) && inputComponents == old(inputComponents)
    {
      var all, withInput := objects, inputComponents;
      for i := 0 to |all|
        invariant objects == all && inputComponents == withInput
        invariant processed == old(processed) + Forwarded(all[..i], withInput, e)
        invariant flags == old(flags) && positions == old(positions)
      {
        ForwardedStep(all, withInput, e, i);
        if all[i] in withInput {
          processed := processed + [(all[i], e)];
        }
      }
      assert all[..|all|] == all;
    }
  }

  class EInput {
    var uiManager: UIManager?
    var placingSelected: bool
    var selectedObjects: set<ObjectId>

    /** No UI manager, not placing, nothing selected. */
    constructor ()
      ensures uiManager == null && !placingSelected && selectedObjects == {}
    {
      uiManager := null;
      placingSelected := false;
      selectedObjects := {};
    }

    function State(world: World): Selection
      requires uiManager != null
      reads this, world, uiManager
    {
      Selection(selectedObjects, placingSelected, world.flags, world.positions, uiManager.activeData)
    }

    /** `handleInput`. `ui` is the UI manager's report on the event and `hit`
        the result of the screen raycast the event would make. The UI
        manager is dereferenced unconditionally, so it must be set. */
    method HandleInput(e: SdlEvent, ui: UIManagerEvent, hit: Option<Hit>, world: World)
      requires uiManager != null && uiManager.Valid()
      modifies this, uiManager, world
      ensures uiManager == old(uiManager) && uiManager.Valid()
      ensures uiManager.root == old(uiManager.root) && uiManager.hoveredObject == old(uiManager.hoveredObject)
      ensures State(world) == HandleInputState(old(State(world)), e, ui, hit)
      ensures world.processed ==
                old(world.processed) + (if ui.consumedInput then [] else Forwarded(world.objects, world.inputComponents, e))
      ensures world.objects == old(world.objects) && world.inputComponents == old(world.inputComponents)
    {
      if ui.spawned.Some? {
        world.SetSelectedAll(selectedObjects, false);
        selectedObjects := {ui.spawned.value};
        placingSelected := true;
      }

      if ui.consumedInput { return; }

      if placingSelected {
        if e.MouseMotion? {
          if hit.Some? {
            world.SetPositionAll(selectedObjects, hit.value.location);
          }
        } else if IsLeftClick(e) {
          placingSelected := false;
          world.SetSelectedAll(selectedObjects, true);
        }
      } else {
        if IsLeftClick(e) {
          if hit.Some? {
            world.SetSelectedAll(selectedObjects, false);
            selectedObjects := {};
            world.flags := world.flags[hit.value.model := true];
            selectedObjects := {hit.value.model};
            uiManager.SetActiveData(hit.value.uiData);
          } else {
            world.SetSelectedAll(selectedObjects, false);
            selectedObjects := {};
            uiManager.SetActiveData(None);
          }
        }
      }

      world.ForwardInput(e);
    }
  }
}
