/** The OpenGL renderer's lifecycle and the order in which it draws the UI
    tree. GL and SDL calls are recorded or passed in as results: `init`'s
    setup steps are opaque booleans, and the UI draw is a sequence of the
    paths of the nodes drawn. */
module Rendering {
  import opened Common
  import opened UI

  /* ---------------------------------------------------------------- UI draw */

  /** Every path of `ps` with `k` put in front. */
  function Prefixed(k: nat, ps: seq<Path>): (r: seq<Path>)
    ensures |r| == |ps|
    ensures forall i :: 0 <= i < |ps| ==> r[i] == [k] + ps[i]
  {
    seq(|ps|, i requires 0 <= i < |ps| => [k] + ps[i])
  }

  /** Each path strictly before every later one: no node twice, and the
      documented order throughout. */
  predicate StrictlyOrdered(ps: seq<Path>) {
    forall i, j :: 0 <= i < j < |ps| ==> PathLess(ps[i], ps[j])
  }

  lemma PrefixedFacts(o: UIObject, k: nat, ps: seq<Path>)
    requires k < |o.subobjects|
    requires forall q :: q in ps ==> ValidPath(o.subobjects[k], q)
    requires StrictlyOrdered(ps)
    ensures forall q :: q in Prefixed(k, ps) ==> |q| > 0 && q[0] == k && ValidPath(o, q)
    ensures StrictlyOrdered(Prefixed(k, ps))
  {
    var r := Prefixed(k, ps);
    forall q | q in r
      ensures |q| > 0 && q[0] == k && ValidPath(o, q)
    {
      var i :| 0 <= i < |r| && r[i] == q;
      ValidPathUnderPrefix(o, k, ps[i]);
    }
    forall i, j | 0 <= i < j < |r|
      ensures PathLess(r[i], r[j])
    {
      PathLessUnderPrefix(k, ps[i], ps[j]);
    }
  }

  /** `drawUIRecursive`: one draw for `o` itself, then each subobject's whole
      tree in array order. The result lists the drawn nodes by path from `o`,
      in drawing order. */
  function DrawUIRecursive(o: UIObject): (draws: seq<Path>)
    decreases o, 1
    ensures |draws| > 0 && draws[0] == []
    ensures forall p :: p in draws ==> ValidPath(o, p)
    ensures StrictlyOrdered(draws)
  {
    [[]] + DrawSubobjects(o, 0)
  }

  /** The loop over `o.subobjects`, from index `from` on. */
  function DrawSubobjects(o: UIObject, from: nat): (draws: seq<Path>)
    requires from <= |o.subobjects|
    decreases o, 0, |o.subobjects| - from
    ensures forall p :: p in draws ==> |p| > 0 && from <= p[0] < |o.subobjects| && ValidPath(o, p)
    ensures StrictlyOrdered(draws)
  {
    if from == |o.subobjects| then []
    else
      var child := DrawUIRecursive(o.subobjects[from]);
      PrefixedFacts(o, from, child);
      Prefixed(from, child) + DrawSubobjects(o, from + 1)
  }

  /** Every node of the tree is drawn. */
  lemma {:induction false} DrawsComplete(o: UIObject, p: Path)
    requires ValidPath(o, p)
    ensures p in DrawUIRecursive(o)
    decreases o, 1
  {
    if p != [] {
      SubobjectsComplete(o, 0, p);
    }
  }

  lemma {:induction false} SubobjectsComplete(o: UIObject, from: nat, p: Path)
    requires from <= |o.subobjects|
    requires ValidPath(o, p) && |p| > 0 && from <= p[0]
    ensures p in DrawSubobjects(o, from)
    decreases o, 0, |o.subobjects| - from
  {
    var child := DrawUIRecursive(o.subobjects[from]);
    assert DrawSubobjects(o, from) == Prefixed(from, child) + DrawSubobjects(o, from + 1);
    if p[0] == from {
      DrawsComplete(o.subobjects[from], p[1..]);
      var i :| 0 <= i < |child| && child[i] == p[1..];
      assert Prefixed(from, child)[i] == [from] + p[1..] == p;
    } else {
      SubobjectsComplete(o, from + 1, p);
    }
  }

  /** One draw per node: the drawn paths are exactly the nodes of the tree,
      and no node is drawn twice. */
  lemma DrawnExactlyOnce(o: UIObject)
    ensures forall p :: p in DrawUIRecursive(o) <==> ValidPath(o, p)
    ensures forall i, j :: 0 <= i < j < |DrawUIRecursive(o)| ==> DrawUIRecursive(o)[i] != DrawUIRecursive(o)[j]
  {
    var d := DrawUIRecursive(o);
    forall p | ValidPath(o, p)
      ensures p in d
    {
      DrawsComplete(o, p);
    }
    forall i, j | 0 <= i < j < |d|
      ensures d[i] != d[j]
    {
      PathLessIrreflexive(d[i]);
    }
  }

  /** In a strictly ordered sequence, the smaller of two members comes first. */
  lemma OrderedIndex(ps: seq<Path>, a: Path, b: Path)
    requires StrictlyOrdered(ps) && a in ps && b in ps && PathLess(a, b)
    ensures IndexOf(ps, a) < IndexOf(ps, b) < |ps|
  {
    PathLessIrreflexive(a);
    PathLessAsymmetric(a, b);
  }

  /** A node is drawn before every node below it, so it lies beneath them. */
  lemma NodeDrawnBeforeDescendants(o: UIObject, s: Path, x: Path)
    requires ValidPath(o, s + x) && x != []
    ensures var d := DrawUIRecursive(o);
            IndexOf(d, s) < IndexOf(d, s + x) < |d|
  {
    ValidPathPrefix(o, s, x);
    DrawsComplete(o, s);
    DrawsComplete(o, s + x);
    DocumentedOrderIsPathLess(s, 0, 0, x, x);
    OrderedIndex(DrawUIRecursive(o), s, s + x);
  }

  /** Subobjects are drawn in array order, and everything below an earlier
      subobject is drawn before a later subobject and everything below it,
      so later-drawn objects are on top. */
  lemma EarlierSubtreeDrawnFirst(o: UIObject, s: Path, i: nat, j: nat, x: Path, y: Path)
    requires i < j
    requires ValidPath(o, s + [i] + x) && ValidPath(o, s + [j] + y)
    ensures var d := DrawUIRecursive(o);
            IndexOf(d, s + [i] + x) < IndexOf(d, s + [j] + y) < |d|
  {
    DrawsComplete(o, s + [i] + x);
    DrawsComplete(o, s + [j] + y);
    DocumentedOrderIsPathLess(s, i, j, x, y);
    OrderedIndex(DrawUIRecursive(o), s + [i] + x, s + [j] + y);
  }

  /* ---------------------------------------------------------- GL resources */

  /** A recorded `glDelete*` call with the handles it was given. */
  datatype GLDelete =
    | DeleteFramebuffers(handles: seq<nat>)
    | DeleteTextures(handles: seq<nat>)
    | DeleteVertexArrays(handles: seq<nat>)

  /** The GL handles of `GObjects`; 0 means none. */
  datatype Handles = Handles(shadowFBO: nat, shadowTexture: nat, rectVAO: nat, gbuffer: nat, gbufferTextures: seq<nat>)

  predicate AllZero(h: Handles) {
    h.shadowFBO == 0 && h.shadowTexture == 0 && h.rectVAO == 0 && h.gbuffer == 0 &&
    forall k :: 0 <= k < |h.gbufferTextures| ==> h.gbufferTextures[k] == 0
  }

  /** The delete calls `GObjects::deinit` makes for handles `h`, in order. */
  function DeinitCalls(h: Handles): (calls: seq<GLDelete>)
    requires |h.gbufferTextures| == 3
    ensures |calls| <= 5
    ensures forall k :: 0 <= k < |calls| ==> calls[k].handles != [] && calls[k].handles[0] != 0
  {
    DeleteIfHeld(h.shadowFBO, DeleteFramebuffers([h.shadowFBO])) +
    DeleteIfHeld(h.shadowTexture, DeleteTextures([h.shadowTexture])) +
    DeleteIfHeld(h.rectVAO, DeleteVertexArrays([h.rectVAO])) +
    DeleteIfHeld(h.gbuffer, DeleteFramebuffers([h.gbuffer])) +
    DeleteIfHeld(h.gbufferTextures[0], DeleteTextures(h.gbufferTextures))
  }

  /** The call `if (handle) glDelete...` makes. */
  function DeleteIfHeld(handle: nat, call: GLDelete): seq<GLDelete> {
    if handle != 0 then [call] else []
  }

  /** `GObjects::deinit` deletes only what is held: every call names a
      nonzero handle, each nonzero handle is deleted, and the three G-buffer
      textures go together when the first of them is nonzero. It deletes
      nothing exactly when the handles it checks are all 0. */
  lemma DeinitDeletesOnlyHeld(h: Handles)
    requires |h.gbufferTextures| == 3
    ensures var calls := DeinitCalls(h);
            && |calls| <= 5
            && (forall c :: c in calls ==> |c.handles| > 0 && c.handles[0] != 0)
            && (h.shadowFBO != 0 <==> DeleteFramebuffers([h.shadowFBO]) in calls)
            && (h.shadowTexture != 0 <==> DeleteTextures([h.shadowTexture]) in calls)
            && (h.rectVAO != 0 <==> DeleteVertexArrays([h.rectVAO]) in calls)
            && (h.gbuffer != 0 <==> DeleteFramebuffers([h.gbuffer]) in calls)
            && (h.gbufferTextures[0] != 0 <==> DeleteTextures(h.gbufferTextures) in calls)
            && (calls == [] <==>
                  h.shadowFBO == 0 && h.shadowTexture == 0 && h.rectVAO == 0 && h.gbuffer == 0 &&
                  h.gbufferTextures[0] == 0)
  {
  }

  /** Once every handle is 0, a further `deinit` deletes nothing. */
  lemma DeinitOfZeroDeletesNothing(h: Handles)
    requires |h.gbufferTextures| == 3 && AllZero(h)
    ensures DeinitCalls(h) == []
  {
  }

  class GObjects {
    var shadowFBO: nat
    var shadowTexture: nat
    var rectVAO: nat
    var gbuffer: nat
    const gbufferTextures: array<nat>

    ghost predicate Valid()
      reads this
    {
      gbufferTextures.Length == 3
    }

    function State(): Handles
      reads this, gbufferTextures
    {
      Handles(shadowFBO, shadowTexture, rectVAO, gbuffer, gbufferTextures[..])
    }

    /** Value-initialised: every handle 0. */
    constructor ()
      ensures Valid() && AllZero(State()) && fresh(gbufferTextures)
    {
      shadowFBO, shadowTexture, rectVAO, gbuffer := 0, 0, 0, 0;
      gbufferTextures := new nat[3](_ => 0);
    }

    /** `GObjects::deinit`: deletes what is held and sets every handle to 0. */
    method Deinit() returns (deleted: seq<GLDelete>)
      requires Valid()
      modifies this, gbufferTextures
      ensures Valid()
      ensures deleted == DeinitCalls(old(State()))
      ensures AllZero(State())
    {
      ghost var h := State();
      deleted := [];
      if shadowFBO != 0 { deleted := deleted + [DeleteFramebuffers([shadowFBO])]; }
      ghost var d1 := DeleteIfHeld(h.shadowFBO, DeleteFramebuffers([h.shadowFBO]));
      assert deleted == d1;
      if shadowTexture != 0 { deleted := deleted + [DeleteTextures([shadowTexture])]; }
      ghost var d2 := d1 + DeleteIfHeld(h.shadowTexture, DeleteTextures([h.shadowTexture]));
      assert deleted == d2;
      if rectVAO != 0 { deleted := deleted + [DeleteVertexArrays([rectVAO])]; }
      ghost var d3 := d2 + DeleteIfHeld(h.rectVAO, DeleteVertexArrays([h.rectVAO]));
      assert deleted == d3;
      if gbuffer != 0 { deleted := deleted + [DeleteFramebuffers([gbuffer])]; }
      ghost var d4 := d3 + DeleteIfHeld(h.gbuffer, DeleteFramebuffers([h.gbuffer]));
      assert deleted == d4;
      if gbufferTextures[0] != 0 { deleted := deleted + [DeleteTextures(gbufferTextures[..])]; }
      assert deleted == d4 + DeleteIfHeld(h.gbufferTextures[0], DeleteTextures(h.gbufferTextures));
      shadowFBO := 0;
      shadowTexture := 0;
      rectVAO := 0;
      gbuffer := 0;
      gbufferTextures[0], gbufferTextures[1], gbufferTextures[2] := 0, 0, 0;
    }
  }

  /** `GObjects::deinit` twice: the second call deletes nothing and leaves
      the same all-zero state. */
  method DeinitTwice(g: GObjects) returns (first: seq<GLDelete>, second: seq<GLDelete>)
    requires g.Valid()
    modifies g, g.gbufferTextures
    ensures first == DeinitCalls(old(g.State())) && second == []
    ensures AllZero(g.State()) && g.Valid()
  {
    first := g.Deinit();
    ghost var between := g.State();
    second := g.Deinit();
    DeinitOfZeroDeletesNothing(between);
  }

  /* ------------------------------------------------------------- lifecycle */

  /** The setup steps `init` runs after the context checks, in order. */
  datatype InitStep = RectVAO | DeferredPipeline | ShadowSetup | UISetup

  const InitSteps: seq<InitStep> := [RectVAO, DeferredPipeline, ShadowSetup, UISetup]

  /** The number of steps that succeed before the first failing one. */
  function FirstFailure(succeeds: InitStep -> bool): (n: nat)
    ensures n <= |InitSteps|
    ensures forall k :: 0 <= k < n ==> succeeds(InitSteps[k])
    ensures n < |InitSteps| ==> !succeeds(InitSteps[n])
  {
    if !succeeds(RectVAO) then 0
    else if !succeeds(DeferredPipeline) then 1
    else if !succeeds(ShadowSetup) then 2
    else if !succeeds(UISetup) then 3
    else 4
  }

  /** The outcome of the context checks `init` makes before any setup step. */
  datatype ContextChecks = ContextChecks(gl3wLoaded: bool, versionSupported: bool, vsyncSet: bool)

  class Render {
    /** The SDL GL context handle, if any. */
    var glContext: Option<nat>
    /** Whether `mainProgram` and `shadowProgram` are held. */
    var mainProgram: bool
    var shadowProgram: bool
    const gObjects: GObjects

    ghost predicate Valid()
      reads this, gObjects
    {
      gObjects.Valid()
    }

    /** A new renderer has no context and all-zero GL handles. */
    constructor ()
      ensures Valid() && glContext == None && AllZero(gObjects.State())
      ensures fresh(gObjects) && fresh(gObjects.gbufferTextures)
      ensures !mainProgram && !shadowProgram
    {
      glContext := None;
      mainProgram, shadowProgram := false, false;
      gObjects := new GObjects();
    }

    /** `Render::deinit`: releases the two programs, deinitialises the GL
        objects, deletes the context when there is one and clears it. */
    method Deinit() returns (deletedContext: Option<nat>, deleted: seq<GLDelete>)
      requires Valid()
      modifies this, gObjects, gObjects.gbufferTextures
      ensures Valid()
      ensures !mainProgram && !shadowProgram
      ensures deleted == DeinitCalls(old(gObjects.State())) && AllZero(gObjects.State())
      ensures deletedContext == old(glContext) && glContext == None
    {
      mainProgram := false;
      shadowProgram := false;
      deleted := gObjects.Deinit();
      deletedContext := None;
      if glContext.Some? {
        deletedContext := glContext;
      }
      glContext := None;
    }

    /** `Render::init`. The context SDL creates, the three checks and each
        setup step's result are inputs. The checks fail without deinit; the
        first failing setup step deinitialises and stops. `attempted` lists
        the setup steps run, `deinitialised` whether deinit ran. */
    method Init(created: Option<nat>, checks: ContextChecks, succeeds: InitStep -> bool)
      returns (ok: bool, attempted: seq<InitStep>, deinitialised: bool)
      requires Valid()
      modifies this, gObjects, gObjects.gbufferTextures
      ensures Valid()
      ensures ok <==> checks.gl3wLoaded && checks.versionSupported && checks.vsyncSet &&
                      FirstFailure(succeeds) == |InitSteps|
      ensures !(checks.gl3wLoaded && checks.versionSupported && checks.vsyncSet) ==>
                attempted == [] && !deinitialised && glContext == created &&
                mainProgram == old(mainProgram) && shadowProgram == old(shadowProgram) &&
                gObjects.State() == old(gObjects.State())
      ensures checks.gl3wLoaded && checks.versionSupported && checks.vsyncSet ==>
                var n := FirstFailure(succeeds);
                && (n == |InitSteps| ==>
                      attempted == InitSteps && !deinitialised && glContext == created &&
                      mainProgram == old(mainProgram) && shadowProgram == old(shadowProgram) &&
                      gObjects.State() == old(gObjects.State()))
                && (n < |InitSteps| ==>
                      attempted == InitSteps[..n + 1] && deinitialised && glContext == None &&
                      !mainProgram && !shadowProgram && AllZero(gObjects.State()))
    {
      glContext := created;
      attempted := [];
      deinitialised := false;
      if !checks.gl3wLoaded { return false, attempted, deinitialised; }
      if !checks.versionSupported { return false, attempted, deinitialised; }
      if !checks.vsyncSet { return false, attempted, deinitialised; }

      attempted := attempted + [RectVAO];
      if !succeeds(RectVAO) {
        var _, _ := Deinit();
        return false, attempted, true;
      }
      attempted := attempted + [DeferredPipeline];
      if !succeeds(DeferredPipeline) {
        var _, _ := Deinit();
        return false, attempted, true;
      }
      attempted := attempted + [ShadowSetup];
      if !succeeds(ShadowSetup) {
        var _, _ := Deinit();
        return false, attempted, true;
      }
      attempted := attempted + [UISetup];
      if !succeeds(UISetup) {
        var _, _ := Deinit();
        return false, attempted, true;
      }
      ok := true;
    }
  }
}
