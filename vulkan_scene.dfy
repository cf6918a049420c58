/** The draw list of the Vulkan graphics scene: models are kept sorted by
    material and mesh so that the render walk rebinds as little as possible. */
module VulkanScenes {
  import opened Common

  /** A material; the render walk compares materials by identity and the sort
      compares them by name. */
  class VulkanMaterial {
    const name: string

    constructor (name: string)
      ensures this.name == name
    {
      this.name := name;
    }
  }

  /** A mesh, identified for sorting by the file it was loaded from. */
  class VulkanMesh {
    const filepath: string

    constructor (filepath: string)
      ensures this.filepath == filepath
    {
      this.filepath := filepath;
    }
  }

  /** A model owned by a scene. Its material and mesh are set from outside the
      scene, which is then told to re-sort. */
  class VulkanModel {
    const scene: VulkanScene
    var material: VulkanMaterial?
    var mesh: VulkanMesh?

    constructor (scene: VulkanScene)
      ensures this.scene == scene && material == null && mesh == null
    {
      this.scene := scene;
      material := null;
      mesh := null;
    }
  }

  /** The comparator handed to `std::sort`: models with a material first, then
      by material name, then models with a mesh first, then by mesh filepath. */
  predicate DrawKeyLess(a: VulkanModel, b: VulkanModel)
    reads a, b
    ensures a.material != null && b.material == null ==> DrawKeyLess(a, b)
    ensures DrawKeyLess(a, b) ==> a.material != null
  {
    if a.material != null && b.material == null then true
    else if a.material == null then false
    else if a.material.name != b.material.name then StrLess(a.material.name, b.material.name)
    else if a.mesh != null && b.mesh == null then true
    else if a.mesh == null then false
    else StrLess(a.mesh.filepath, b.mesh.filepath)
  }

  /** The draw order stated field by field: `a` may be drawn before `b`. */
  predicate InDrawOrder(a: VulkanModel, b: VulkanModel)
    reads a, b
  {
    && (b.material != null ==> a.material != null)
    && (a.material != null && b.material != null ==>
          && StrLessEq(a.material.name, b.material.name)
          && (a.material.name == b.material.name ==>
                && (b.mesh != null ==> a.mesh != null)
                && (a.mesh != null && b.mesh != null ==>
                      StrLessEq(a.mesh.filepath, b.mesh.filepath))))
  }

  lemma DrawKeyLessIrreflexive(a: VulkanModel)
    ensures !DrawKeyLess(a, a)
  {
    if a.material != null && a.mesh != null {
      StrLessIrreflexive(a.mesh.filepath);
    }
  }

  lemma DrawKeyLessTransitive(a: VulkanModel, b: VulkanModel, c: VulkanModel)
    ensures DrawKeyLess(a, b) && DrawKeyLess(b, c) ==> DrawKeyLess(a, c)
  {
    if DrawKeyLess(a, b) && DrawKeyLess(b, c) && c.material != null {
      var na, nb, nc := a.material.name, b.material.name, c.material.name;
      StrLessIrreflexive(na);
      if na != nb && nb != nc {
        StrLessTransitive(na, nb, nc);
      } else if na == nb && nb == nc && c.mesh != null {
        StrLessTransitive(a.mesh.filepath, b.mesh.filepath, c.mesh.filepath);
      }
    }
  }

  /** The comparator and the field-by-field order agree: `a` may precede `b`
      exactly when the comparator does not put `b` strictly before `a`. */
  lemma NotLessIffInDrawOrder(a: VulkanModel, b: VulkanModel)
    ensures !DrawKeyLess(b, a) <==> InDrawOrder(a, b)
  {
    if a.material != null && b.material != null {
      StrLessEqIffNotLess(a.material.name, b.material.name);
      if a.mesh != null && b.mesh != null {
        StrLessEqIffNotLess(a.mesh.filepath, b.mesh.filepath);
      }
    }
  }

  /** Models the comparator cannot tell apart are interchangeable: with
      transitivity and irreflexivity this makes the comparator the strict
      weak ordering `std::sort` requires. */
  lemma DrawKeyIncomparableTransitive(a: VulkanModel, b: VulkanModel, c: VulkanModel)
    ensures !DrawKeyLess(a, b) && !DrawKeyLess(b, a) && !DrawKeyLess(b, c) && !DrawKeyLess(c, b) ==>
              !DrawKeyLess(a, c) && !DrawKeyLess(c, a)
  {
    NotLessIffInDrawOrder(a, b);
    NotLessIffInDrawOrder(b, a);
    NotLessIffInDrawOrder(b, c);
    NotLessIffInDrawOrder(c, b);
    NotLessIffInDrawOrder(a, c);
    NotLessIffInDrawOrder(c, a);
    if a.material != null && b.material != null && c.material != null {
      StrLessAsymmetric(a.material.name, b.material.name);
      StrLessAsymmetric(b.material.name, c.material.name);
      if a.mesh != null && b.mesh != null && c.mesh != null {
        StrLessAsymmetric(a.mesh.filepath, b.mesh.filepath);
        StrLessAsymmetric(b.mesh.filepath, c.mesh.filepath);
      }
    }
  }

  /** No later model is strictly less than an earlier one. */
  ghost predicate Sorted(s: seq<VulkanModel>)
    reads s
  {
    forall i, j :: 0 <= i < j < |s| ==> !DrawKeyLess(s[j], s[i])
  }

  /** A sorted draw list is one where every pair is in draw order: materials
      before none, names non-decreasing, meshes before none within a name, and
      filepaths non-decreasing within a name. */
  lemma SortedIffInDrawOrder(s: seq<VulkanModel>)
    ensures Sorted(s) <==> forall i, j :: 0 <= i < j < |s| ==> InDrawOrder(s[i], s[j])
  {
    forall i, j | 0 <= i < j < |s| {
      NotLessIffInDrawOrder(s[i], s[j]);
    }
  }

  /** Inserting `x` before the first element it is strictly less than keeps a
      sorted list sorted. */
  lemma InsertKeepsSorted(r: seq<VulkanModel>, x: VulkanModel, j: int)
    requires Sorted(r) && 0 <= j <= |r|
    requires forall k :: 0 <= k < j ==> !DrawKeyLess(x, r[k])
    requires j < |r| ==> DrawKeyLess(x, r[j])
    ensures Sorted(r[..j] + [x] + r[j..])
  {
    var t := r[..j] + [x] + r[j..];
    forall p, q | 0 <= p < q < |t|
      ensures !DrawKeyLess(t[q], t[p])
    {
      if q < j {
        assert t[p] == r[p] && t[q] == r[q];
      } else if q == j {
        assert t[p] == r[p] && t[q] == x;
      } else if p == j {
        assert t[p] == x && t[q] == r[q - 1];
        DrawKeyLessTransitive(r[q - 1], x, r[j]);
        DrawKeyLessIrreflexive(r[j]);
      } else if p < j {
        assert t[p] == r[p] && t[q] == r[q - 1];
      } else {
        assert t[p] == r[p - 1] && t[q] == r[q - 1];
      }
    }
  }

  /** `std::sort` with the draw-key comparator: the result is a sorted
      permutation of the input. */
  method SortByDrawKey(s: seq<VulkanModel>) returns (r: seq<VulkanModel>)
    ensures multiset(r) == multiset(s)
    ensures Sorted(r)
  {
    r := [];
    var i := 0;
    while i < |s|
      invariant 0 <= i <= |s|
      invariant multiset(r) == multiset(s[..i])
      invariant Sorted(r)
    {
      var x := s[i];
      var j := 0;
      while j < |r| && !DrawKeyLess(x, r[j])
        invariant 0 <= j <= |r|
        invariant forall k :: 0 <= k < j ==> !DrawKeyLess(x, r[k])
      {
        j := j + 1;
      }
      InsertKeepsSorted(r, x, j);
      assert r == r[..j] + r[j..];
      r := r[..j] + [x] + r[j..];
      assert s[..i + 1] == s[..i] + [x];
      i := i + 1;
    }
    assert s[..|s|] == s;
  }

  /** `s` with its first occurrence of `x` erased. */
  function RemoveFirst(s: seq<VulkanModel>, x: VulkanModel): (r: seq<VulkanModel>)
    ensures x !in s ==> r == s
    ensures x in s ==> |r| == |s| - 1 && multiset(r) == multiset(s) - multiset{x}
    ensures x in s ==> r == s[..IndexOf(s, x)] + s[IndexOf(s, x) + 1..]
  {
    var i := IndexOf(s, x);
    if i == |s| then s
    else
      assert s == s[..i] + [s[i]] + s[i + 1..];
      s[..i] + s[i + 1..]
  }

  /** Erasing one entry keeps a sorted list sorted. */
  lemma RemoveFirstKeepsSorted(s: seq<VulkanModel>, x: VulkanModel)
    ensures Sorted(s) ==> Sorted(RemoveFirst(s, x))
  {
    var i := IndexOf(s, x);
    if i < |s| && Sorted(s) {
      EraseKeepsSorted(s, i);
    }
  }

  lemma EraseKeepsSorted(s: seq<VulkanModel>, i: nat)
    requires i < |s| && Sorted(s)
    ensures Sorted(s[..i] + s[i + 1..])
  {
    var r := s[..i] + s[i + 1..];
    forall p, q | 0 <= p < q < |r|
      ensures !DrawKeyLess(r[q], r[p])
    {
      var p', q' := if p < i then p else p + 1, if q < i then q else q + 1;
      assert r[p] == s[p'] && r[q] == s[q'];
      assert !DrawKeyLess(s[q'], s[p']);
    }
  }

  /** What the render walk asks of the frame, in order. */
  datatype RenderCall =
    | BindMaterial(material: VulkanMaterial)
    | BindMesh(mesh: VulkanMesh)
    | Draw(model: VulkanModel)

  /** The material bound after `calls`, or null when none was bound. */
  function LastMaterial(calls: seq<RenderCall>): VulkanMaterial? {
    if calls == [] then null
    else if calls[|calls| - 1].BindMaterial? then calls[|calls| - 1].material
    else LastMaterial(calls[..|calls| - 1])
  }

  /** The mesh bound after `calls`, or null when none was bound. */
  function LastMesh(calls: seq<RenderCall>): VulkanMesh? {
    if calls == [] then null
    else if calls[|calls| - 1].BindMesh? then calls[|calls| - 1].mesh
    else LastMesh(calls[..|calls| - 1])
  }

  /** The models drawn by `calls`, in order. */
  function Draws(calls: seq<RenderCall>): seq<VulkanModel> {
    if calls == [] then []
    else if calls[|calls| - 1].Draw? then Draws(calls[..|calls| - 1]) + [calls[|calls| - 1].model]
    else Draws(calls[..|calls| - 1])
  }

  /** Model `i` stops the walk: its material differs from the previous model's
      (null before the first) and is null, or likewise for its mesh. */
  predicate BreaksAt(models: seq<VulkanModel>, i: int)
    requires 0 <= i < |models|
    reads models
    ensures BreaksAt(models, i) ==> models[i].material == null || models[i].mesh == null
    ensures i == 0 ==> !BreaksAt(models, i)
  {
    var prevMaterial := if i == 0 then null else models[i - 1].material;
    var prevMesh := if i == 0 then null else models[i - 1].mesh;
    || (models[i].material != prevMaterial && models[i].material == null)
    || (models[i].mesh != prevMesh && models[i].mesh == null)
  }

  /** The first index at or after `from` where the walk stops, or `|models|`. */
  function FirstBreak(models: seq<VulkanModel>, from: nat): (n: nat)
    requires from <= |models|
    reads models
    ensures from <= n <= |models|
    ensures forall j :: from <= j < n ==> !BreaksAt(models, j)
    ensures n < |models| ==> BreaksAt(models, n)
    decreases |models| - from
  {
    if from == |models| then from
    else if BreaksAt(models, from) then from
    else FirstBreak(models, from + 1)
  }

  /** The walk starts with nothing bound, so a first model without material
      and mesh never differs from what is bound and is drawn. */
  lemma UnboundFirstModelIsDrawn(models: seq<VulkanModel>)
    requires |models| > 0 && models[0].material == null && models[0].mesh == null
    ensures FirstBreak(models, 0) >= 1
  {
  }

  /** The calls one pass of the render walk issues for model `m` when
      `material` and `mesh` are the walk's current ones: the material bind
      (if it changed), then the mesh bind (if it changed), then the draw;
      a change to null ends the pass at that point. */
  function PassLog(material: VulkanMaterial?, mesh: VulkanMesh?, m: VulkanModel): seq<RenderCall>
    reads m
  {
    if material != m.material && m.material == null then []
    else
      var bindMaterial := if material != m.material then [BindMaterial(m.material)] else [];
      if mesh != m.mesh && m.mesh == null then bindMaterial
      else bindMaterial + (if mesh != m.mesh then [BindMesh(m.mesh)] else []) + [Draw(m)]
  }

  /** The calls the render walk issues from model `i` on, with `material` and
      `mesh` current: each pass in turn, until a pass stops. */
  function RenderFrom(models: seq<VulkanModel>, i: nat, material: VulkanMaterial?, mesh: VulkanMesh?): seq<RenderCall>
    requires i <= |models|
    reads models
    decreases |models| - i
  {
    if i == |models| then []
    else if (material != models[i].material && models[i].material == null) ||
            (mesh != models[i].mesh && models[i].mesh == null) then
      PassLog(material, mesh, models[i])
    else
      PassLog(material, mesh, models[i]) + RenderFrom(models, i + 1, models[i].material, models[i].mesh)
  }

  /** The whole call log of `render`, which starts with nothing bound. */
  function RenderLog(models: seq<VulkanModel>): seq<RenderCall>
    reads models
  {
    RenderFrom(models, 0, null, null)
  }

  /** Call `k`, if it is a draw, is issued while the model's own material
      and mesh are bound. */
  predicate DrawnWithOwnBindings(calls: seq<RenderCall>, k: int)
    reads if 0 <= k < |calls| && calls[k].Draw? then {calls[k].model} else {}
  {
    0 <= k < |calls| && calls[k].Draw? ==>
      LastMaterial(calls[..k]) == calls[k].model.material &&
      LastMesh(calls[..k]) == calls[k].model.mesh
  }

  /** Every model is drawn while its own material and mesh are bound. */
  ghost predicate DrawsWithOwnBindings(calls: seq<RenderCall>)
    reads set k | 0 <= k < |calls| && calls[k].Draw? :: calls[k].model
  {
    forall k :: 0 <= k < |calls| ==> DrawnWithOwnBindings(calls, k)
  }

  /** Call `k`, if it is a bind, changes what is bound. */
  predicate BindChanges(calls: seq<RenderCall>, k: int) {
    0 <= k < |calls| ==>
      && (calls[k].BindMaterial? ==> LastMaterial(calls[..k]) != calls[k].material)
      && (calls[k].BindMesh? ==> LastMesh(calls[..k]) != calls[k].mesh)
  }

  /** Every bind changes what is bound. */
  predicate RebindsOnlyOnChange(calls: seq<RenderCall>) {
    forall k :: 0 <= k < |calls| ==> BindChanges(calls, k)
  }

  /** One more call of the render walk keeps both properties, given that it
      is issued under the conditions the walk checks. */
  lemma AppendCall(calls: seq<RenderCall>, c: RenderCall)
    requires DrawsWithOwnBindings(calls) && RebindsOnlyOnChange(calls)
    requires c.Draw? ==> LastMaterial(calls) == c.model.material && LastMesh(calls) == c.model.mesh
    requires c.BindMaterial? ==> LastMaterial(calls) != c.material
    requires c.BindMesh? ==> LastMesh(calls) != c.mesh
    ensures DrawsWithOwnBindings(calls + [c]) && RebindsOnlyOnChange(calls + [c])
    ensures LastMaterial(calls + [c]) == if c.BindMaterial? then c.material else LastMaterial(calls)
    ensures LastMesh(calls + [c]) == if c.BindMesh? then c.mesh else LastMesh(calls)
    ensures Draws(calls + [c]) == if c.Draw? then Draws(calls) + [c.model] else Draws(calls)
  {
    var t := calls + [c];
    assert t[..|calls|] == calls;
    forall k | 0 <= k < |t|
      ensures DrawnWithOwnBindings(t, k) && BindChanges(t, k)
    {
      if k < |calls| {
        assert t[..k] == calls[..k] && t[k] == calls[k];
        assert DrawnWithOwnBindings(calls, k) && BindChanges(calls, k);
      }
    }
  }

  /** A call issued after `drawn` models were drawn: if it is a bind, it binds
      the next model's own material (or mesh), and that material (or mesh)
      differs from the previous model's. */
  predicate TiedBind(drawn: nat, c: RenderCall, models: seq<VulkanModel>)
    reads models
  {
    (c.BindMaterial? || c.BindMesh?) ==>
      && drawn < |models|
      && (c.BindMaterial? ==>
            c.material == models[drawn].material && (drawn > 0 ==> models[drawn - 1].material != c.material))
      && (c.BindMesh? ==>
            c.mesh == models[drawn].mesh && (drawn > 0 ==> models[drawn - 1].mesh != c.mesh))
  }

  /** Every bind is tied to a change between consecutive models. */
  predicate BindsAtModelChanges(calls: seq<RenderCall>, models: seq<VulkanModel>)
    reads models
  {
    forall k {:trigger TiedBind(|Draws(calls[..k])|, calls[k], models)} ::
      0 <= k < |calls| ==> TiedBind(|Draws(calls[..k])|, calls[k], models)
  }

  /** `after` is `calls` followed by the calls of one pass for `model`: none
      of them comes after a draw of the pass, and every bind among them binds
      the model's own material (or mesh) where it differs from what `calls`
      left bound. */
  predicate PassOf(calls: seq<RenderCall>, after: seq<RenderCall>, model: VulkanModel)
    reads model
  {
    && |calls| <= |after| && after[..|calls|] == calls
    && forall k :: |calls| <= k < |after| ==> InPass(calls, after, model, k)
  }

  /** Call `k` of `after`, past `calls`, comes before any draw of the pass
      for `model`, and if it is a bind, it binds the model's own material (or
      mesh) where that differs from what `calls` left bound. */
  predicate InPass(calls: seq<RenderCall>, after: seq<RenderCall>, model: VulkanModel, k: int)
    reads model
  {
    0 <= k < |after| ==>
      && Draws(after[..k]) == Draws(calls)
      && (after[k].BindMaterial? ==> after[k].material == model.material && model.material != LastMaterial(calls))
      && (after[k].BindMesh? ==> after[k].mesh == model.mesh && model.mesh != LastMesh(calls))
  }

  /** A pass grows by one call as long as it has not drawn yet. */
  lemma PassStep(calls: seq<RenderCall>, after: seq<RenderCall>, model: VulkanModel, c: RenderCall)
    requires PassOf(calls, after, model) && Draws(after) == Draws(calls)
    requires c.BindMaterial? ==> c.material == model.material && model.material != LastMaterial(calls)
    requires c.BindMesh? ==> c.mesh == model.mesh && model.mesh != LastMesh(calls)
    ensures PassOf(calls, after + [c], model)
  {
    var t := after + [c];
    assert t[..|calls|] == calls;
    forall k | |calls| <= k < |t|
      ensures InPass(calls, t, model, k)
    {
      if k < |after| {
        assert t[..k] == after[..k] && t[k] == after[k];
        assert InPass(calls, after, model, k);
      } else {
        assert t[..k] == after;
      }
    }
  }

  /** The binds one pass adds for model `i` keep every bind tied to a change
      between consecutive models. */
  lemma ExtendBindsAtModelChanges(calls: seq<RenderCall>, after: seq<RenderCall>, models: seq<VulkanModel>, i: nat)
    requires BindsAtModelChanges(calls, models)
    requires i < |models| && |Draws(calls)| == i
    requires i > 0 ==> LastMaterial(calls) == models[i - 1].material && LastMesh(calls) == models[i - 1].mesh
    requires PassOf(calls, after, models[i])
    ensures BindsAtModelChanges(after, models)
  {
    forall k | 0 <= k < |after|
      ensures TiedBind(|Draws(after[..k])|, after[k], models)
    {
      if k < |calls| {
        assert after[..k] == calls[..k] && after[k] == calls[k];
        assert TiedBind(|Draws(calls[..k])|, calls[k], models);
      } else {
        assert InPass(calls, after, models[i], k);
        assert |Draws(after[..k])| == i;
      }
    }
  }

  /** `after` is `calls` followed by the calls of an unfinished pass for
      `model`: nothing drawn yet, and the walk's properties kept. */
  ghost predicate PassSoFar(calls: seq<RenderCall>, after: seq<RenderCall>, model: VulkanModel)
    reads model, set k | 0 <= k < |after| && after[k].Draw? :: after[k].model
  {
    && DrawsWithOwnBindings(after) && RebindsOnlyOnChange(after)
    && PassOf(calls, after, model) && Draws(after) == Draws(calls)
  }

  /** A bind of the model's own material (or mesh), issued where it differs
      from what `calls` left bound and nothing of that kind was bound since,
      continues the pass. */
  lemma IssueBind(calls: seq<RenderCall>, after: seq<RenderCall>, model: VulkanModel, c: RenderCall)
    requires PassSoFar(calls, after, model) && !c.Draw?
    requires c.BindMaterial? ==>
               c.material == model.material && LastMaterial(after) == LastMaterial(calls) != c.material
    requires c.BindMesh? ==> c.mesh == model.mesh && LastMesh(after) == LastMesh(calls) != c.mesh
    ensures PassSoFar(calls, after + [c], model)
    ensures LastMaterial(after + [c]) == if c.BindMaterial? then c.material else LastMaterial(after)
    ensures LastMesh(after + [c]) == if c.BindMesh? then c.mesh else LastMesh(after)
  {
    PassStep(calls, after, model, c);
    AppendCall(after, c);
  }

  /** The draw of the model under its own bindings ends the pass. */
  lemma IssueDraw(calls: seq<RenderCall>, after: seq<RenderCall>, model: VulkanModel)
    requires PassSoFar(calls, after, model)
    requires LastMaterial(after) == model.material && LastMesh(after) == model.mesh
    ensures var done := after + [Draw(model)];
            && DrawsWithOwnBindings(done) && RebindsOnlyOnChange(done) && PassOf(calls, done, model)
            && Draws(done) == Draws(calls) + [model]
            && LastMaterial(done) == model.material && LastMesh(done) == model.mesh
  {
    PassStep(calls, after, model, Draw(model));
    AppendCall(after, Draw(model));
  }

  /** The calls of one pass appended to a log, one call at a time. */
  lemma AppendPassLog(calls: seq<RenderCall>, material: VulkanMaterial?, mesh: VulkanMesh?, model: VulkanModel)
    requires model.material != null || material == null
    ensures var bindMaterial := if material != model.material then [BindMaterial(model.material)] else [];
            && (mesh != model.mesh && model.mesh == null ==>
                  calls + PassLog(material, mesh, model) == calls + bindMaterial)
            && (mesh != model.mesh && model.mesh != null ==>
                  calls + PassLog(material, mesh, model) ==
                  calls + bindMaterial + [BindMesh(model.mesh)] + [Draw(model)])
            && (mesh == model.mesh ==>
                  calls + PassLog(material, mesh, model) == calls + bindMaterial + [Draw(model)])
  {
  }

  /** The calls of one pass for `model`, appended to the walk's log `calls`,
      keep the walk's properties: every bind among them is for the model's
      own material or mesh and changes what is bound, and the model is drawn
      under its own bindings unless the pass stops. */
  lemma PassLogKeepsWalk(calls: seq<RenderCall>, model: VulkanModel)
    requires DrawsWithOwnBindings(calls) && RebindsOnlyOnChange(calls)
    ensures var after := calls + PassLog(LastMaterial(calls), LastMesh(calls), model);
            var stop := (model.material != LastMaterial(calls) && model.material == null) ||
                        (model.mesh != LastMesh(calls) && model.mesh == null);
            && DrawsWithOwnBindings(after) && RebindsOnlyOnChange(after)
            && PassOf(calls, after, model)
            && (stop ==> Draws(after) == Draws(calls))
            && (!stop ==>
                  && Draws(after) == Draws(calls) + [model]
                  && LastMaterial(after) == model.material
                  && LastMesh(after) == model.mesh)
  {
    var material, mesh := LastMaterial(calls), LastMesh(calls);
    assert calls[..|calls|] == calls;
    assert PassSoFar(calls, calls, model);
    if material != model.material && model.material == null {
      assert calls + PassLog(material, mesh, model) == calls;
      return;
    }
    AppendPassLog(calls, material, mesh, model);
    var after := calls + if material != model.material then [BindMaterial(model.material)] else [];
    if material != model.material {
      IssueBind(calls, calls, model, BindMaterial(model.material));
    } else {
      assert after == calls;
    }
    if mesh != model.mesh && model.mesh == null {
      return;
    }
    if mesh != model.mesh {
      IssueBind(calls, after, model, BindMesh(model.mesh));
      after := after + [BindMesh(model.mesh)];
    }
    IssueDraw(calls, after, model);
  }

  /** The calls of one pass for `model`, after `calls`, with `material` and
      `mesh` the ones the walk has bound: it stops when the model's material
      or mesh differs from the bound one and is null; otherwise it binds what
      changed and draws the model, and the model's material and mesh become
      the bound ones. */
  method RenderPass(calls: seq<RenderCall>, material: VulkanMaterial?, mesh: VulkanMesh?, model: VulkanModel)
    returns (after: seq<RenderCall>, material': VulkanMaterial?, mesh': VulkanMesh?, stop: bool)
    ensures after == calls + PassLog(material, mesh, model)
    ensures stop <==>
              (model.material != material && model.material == null) ||
              (model.mesh != mesh && model.mesh == null)
    ensures !stop ==> material' == model.material && mesh' == model.mesh
  {
    after := calls;
    material', mesh' := material, mesh;
    stop := false;
    ghost var bindMaterial: seq<RenderCall> := [];
    if material' != model.material {
      material' := model.material;
      if material' == null {
        return after, material', mesh', true;
      }
      after := after + [BindMaterial(material')];
      bindMaterial := [BindMaterial(material')];
    }
    assert after == calls + bindMaterial;
    if mesh' != model.mesh {
      mesh' := model.mesh;
      if mesh' == null {
        return after, material', mesh', true;
      }
      after := after + [BindMesh(mesh')];
      assert after == calls + (bindMaterial + [BindMesh(mesh')]);
    }
    after := after + [Draw(model)];
  }

  /** The walk's state after the models before `i`: the log drew exactly
      them, left the last one's material and mesh bound (nothing before the
      first), has the walk's properties, and the walk has not stopped. */
  ghost predicate WalkedUpTo(calls: seq<RenderCall>, models: seq<VulkanModel>, i: nat)
    reads models, set k | 0 <= k < |calls| && calls[k].Draw? :: calls[k].model
  {
    && i <= |models| && Draws(calls) == models[..i]
    && LastMaterial(calls) == (if i == 0 then null else models[i - 1].material)
    && LastMesh(calls) == (if i == 0 then null else models[i - 1].mesh)
    && FirstBreak(models, 0) == FirstBreak(models, i)
    && DrawsWithOwnBindings(calls) && RebindsOnlyOnChange(calls) && BindsAtModelChanges(calls, models)
  }

  /** A finished walk's log: it drew exactly the models before the first
      break, and has the walk's properties. */
  ghost predicate WalkDone(full: seq<RenderCall>, models: seq<VulkanModel>)
    reads models, set k | 0 <= k < |full| && full[k].Draw? :: full[k].model
  {
    && Draws(full) == models[..FirstBreak(models, 0)]
    && DrawsWithOwnBindings(full) && RebindsOnlyOnChange(full) && BindsAtModelChanges(full, models)
  }

  /** A walk past the last model is finished. */
  lemma WalkEnds(calls: seq<RenderCall>, models: seq<VulkanModel>)
    requires WalkedUpTo(calls, models, |models|)
    ensures WalkDone(calls + RenderFrom(models, |models|, LastMaterial(calls), LastMesh(calls)), models)
  {
    assert calls + RenderFrom(models, |models|, LastMaterial(calls), LastMesh(calls)) == calls;
  }

  /** A pass that stops at model `i`, from a walked state, finishes the walk:
      the log drew exactly the models before the first break and keeps the
      walk's properties. */
  lemma WalkStops(calls: seq<RenderCall>, models: seq<VulkanModel>, i: nat)
    requires WalkedUpTo(calls, models, i) && i < |models| && BreaksAt(models, i)
    ensures WalkDone(calls + RenderFrom(models, i, LastMaterial(calls), LastMesh(calls)), models)
  {
    var after := calls + PassLog(LastMaterial(calls), LastMesh(calls), models[i]);
    RenderFromStep(calls, models, i, LastMaterial(calls), LastMesh(calls));
    assert WalkDone(after, models) by {
      PassLogKeepsWalk(calls, models[i]);
      ExtendBindsAtModelChanges(calls, after, models, i);
    }
  }

  /** A pass that does not stop at model `i`, from a walked state, reaches
      the walked state for `i + 1`, and the rest of the walk goes on from
      there with model `i`'s material and mesh bound. */
  lemma WalkContinues(calls: seq<RenderCall>, models: seq<VulkanModel>, i: nat)
    requires WalkedUpTo(calls, models, i) && i < |models| && !BreaksAt(models, i)
    ensures var after := calls + PassLog(LastMaterial(calls), LastMesh(calls), models[i]);
            && WalkedUpTo(after, models, i + 1)
            && calls + RenderFrom(models, i, LastMaterial(calls), LastMesh(calls)) ==
               after + RenderFrom(models, i + 1, LastMaterial(after), LastMesh(after))
            && (WalkDone(after + RenderFrom(models, i + 1, LastMaterial(after), LastMesh(after)), models) ==>
                  WalkDone(calls + RenderFrom(models, i, LastMaterial(calls), LastMesh(calls)), models))
  {
    assert models[..i + 1] == models[..i] + [models[i]];
    var after := calls + PassLog(LastMaterial(calls), LastMesh(calls), models[i]);
    RenderFromStep(calls, models, i, LastMaterial(calls), LastMesh(calls));
    assert WalkedUpTo(after, models, i + 1) by {
      PassLogKeepsWalk(calls, models[i]);
      ExtendBindsAtModelChanges(calls, after, models, i);
    }
  }

  /** The walk from model `i` on, after a log for the models before it that
      has the walk's properties, ends in a log that has them too: it draws
      exactly the models before the first break, each under its own
      bindings, and every bind changes what is bound and is tied to a change
      between consecutive models. */
  lemma {:induction false} RenderFromKeepsWalk(calls: seq<RenderCall>, models: seq<VulkanModel>, i: nat)
    returns (full: seq<RenderCall>)
    requires WalkedUpTo(calls, models, i)
    ensures full == calls + RenderFrom(models, i, LastMaterial(calls), LastMesh(calls))
    ensures WalkDone(full, models)
    decreases |models| - i
  {
    full := calls + RenderFrom(models, i, LastMaterial(calls), LastMesh(calls));
    if i == |models| {
      WalkEnds(calls, models);
    } else if BreaksAt(models, i) {
      WalkStops(calls, models, i);
    } else {
      WalkContinues(calls, models, i);
      var rest := RenderFromKeepsWalk(calls + PassLog(LastMaterial(calls), LastMesh(calls), models[i]), models, i + 1);
    }
  }

  /** One pass of the walk, then the rest of it unless the pass stops,
      appended to the log so far. */
  lemma RenderFromStep(calls: seq<RenderCall>, models: seq<VulkanModel>, i: nat, material: VulkanMaterial?, mesh: VulkanMesh?)
    requires i < |models|
    ensures (material != models[i].material && models[i].material == null) ||
            (mesh != models[i].mesh && models[i].mesh == null) ==>
              calls + RenderFrom(models, i, material, mesh) == calls + PassLog(material, mesh, models[i])
    ensures !((material != models[i].material && models[i].material == null) ||
              (mesh != models[i].mesh && models[i].mesh == null)) ==>
              calls + RenderFrom(models, i, material, mesh) ==
              (calls + PassLog(material, mesh, models[i])) + RenderFrom(models, i + 1, models[i].material, models[i].mesh)
  {
  }

  /** The properties of the whole log: `render` draws exactly the models
      before the first break, in list order, each under its own material and
      mesh; every bind changes what is bound, binds the next model's own
      material (or mesh), and happens only where that differs from the
      previous model's. */
  lemma RenderLogWalk(models: seq<VulkanModel>)
    ensures Draws(RenderLog(models)) == models[..FirstBreak(models, 0)]
    ensures DrawsWithOwnBindings(RenderLog(models)) && RebindsOnlyOnChange(RenderLog(models))
    ensures BindsAtModelChanges(RenderLog(models), models)
  {
    var full := RenderFromKeepsWalk([], models, 0);
    assert [] + RenderLog(models) == RenderLog(models);
  }

  class VulkanScene {
    var models: seq<VulkanModel>

    constructor ()
      ensures models == []
    {
      models := [];
    }

    /** Creates a model, adds it to the draw list and re-sorts the list. */
    method CreateModel() returns (model: VulkanModel)
      modifies this
      ensures fresh(model) && model.scene == this
      ensures model.material == null && model.mesh == null
      ensures multiset(models) == multiset(old(models)) + multiset{model}
      ensures Sorted(models)
    {
      model := new VulkanModel(this);
      models := models + [model];
      SortModels();
    }

    /** Erases the first entry that is `model`; does nothing when there is none. */
    method RemoveModel(model: VulkanModel)
      modifies this
      ensures models == RemoveFirst(old(models), model)
      ensures old(Sorted(models)) ==> Sorted(models)
    {
      RemoveFirstKeepsSorted(models, model);
      var i := 0;
      while i < |models|
        invariant 0 <= i <= |models|
        invariant models == old(models)
        invariant forall k :: 0 <= k < i ==> models[k] != model
      {
        if models[i] == model {
          models := models[..i] + models[i + 1..];
          return;
        }
        i := i + 1;
      }
    }

    method SortModels()
      modifies this
      ensures multiset(models) == multiset(old(models))
      ensures Sorted(models)
    {
      models := SortByDrawKey(models);
    }

    /** Called after a model's mesh changed: re-sorts and returns null. */
    method ModelMeshUpdated(meshFilepath: string) returns (r: VulkanMesh?)
      modifies this
      ensures r == null
      ensures multiset(models) == multiset(old(models))
      ensures Sorted(models)
    {
      SortModels();
      r := null;
    }

    /** Called after a model's material changed: re-sorts and returns null. */
    method ModelMaterialUpdated(materialName: string) returns (r: VulkanMaterial?)
      modifies this
      ensures r == null
      ensures multiset(models) == multiset(old(models))
      ensures Sorted(models)
    {
      SortModels();
      r := null;
    }

    /** The render walk. Models are drawn in list order up to the first one
        that stops the walk; every model is drawn with its own material and
        mesh bound; a material or mesh is bound only when it differs from the
        one bound before. */
    method Render() returns (calls: seq<RenderCall>)
      ensures calls == RenderLog(models)
      ensures Draws(calls) == models[..FirstBreak(models, 0)]
      ensures DrawsWithOwnBindings(calls)
      ensures RebindsOnlyOnChange(calls)
      ensures BindsAtModelChanges(calls, models)
    {
      var ms := models;
      var material: VulkanMaterial? := null;
      var mesh: VulkanMesh? := null;
      calls := [];
      var i := 0;
      while i < |ms|
        invariant 0 <= i <= |ms|
        invariant calls + RenderFrom(ms, i, material, mesh) == RenderLog(ms)
      {
        RenderFromStep(calls, ms, i, material, mesh);
        var stop;
        calls, material, mesh, stop := RenderPass(calls, material, mesh, ms[i]);
        if stop {
          break;
        }
        i := i + 1;
      }
      assert calls == RenderLog(models);
      RenderLogWalk(models);
    }
  }
}
