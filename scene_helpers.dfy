/**
 * The scene a chart page renders: standard lighting, then one shape per
 * element whose type names an exported generator, in element order. Elements
 * naming no generator are skipped with a warning.
 */
module SceneHelpers {
  import opened Wrappers
  import opened JsValues
  import opened DataHelpers
  import opened ElementalShapes

  /**
   * One entry of a chart's `elements` list. An absent `type` is the string
   * "undefined" (what both the lookup and the warning see); an absent or
   * falsy position or rotation is `None`.
   */
  datatype Element = Element(typeName: string, options: Option<map<string, Value>>,
                             position: Option<Vec3>, rotation: Option<Vec3>)

  /** Light colour 0xffffff. */
  const White: int := 0xffffff

  /**
   * A child of the scene. A shape node records the generator that made it and
   * the processed options it was called with (its geometry is what
   * `CreateShape` computes from those), and its position and Euler rotation.
   */
  datatype Node =
    | AmbientLight(color: int, intensity: real)
    | DirectionalLight(color: int, intensity: real, position: Vec3)
    | ShapeNode(kind: ShapeKind, options: map<string, Value>, position: Vec3, rotation: Vec3)

  /** The lighting every scene starts with: a soft white ambient light and a weaker directional light at (2, 5, 5). */
  function StandardLights(): seq<Node> {
    [AmbientLight(White, 0.7), DirectionalLight(White, 0.3, Vec3(2.0, 5.0, 5.0))]
  }

  /** A scene: its children in insertion order and its background colour, if one was set. */
  class Scene {
    var children: seq<Node>
    var background: Option<Value>

    /** An empty scene with no background. */
    constructor()
      ensures children == [] && background == None
    {
      children := [];
      background := None;
    }

    /** Removes every child; the background stays. */
    method Clear()
      modifies this
      ensures children == [] && background == old(background)
    {
      children := [];
    }

    /** Appends one child. */
    method Add(node: Node)
      modifies this
      ensures children == old(children) + [node] && background == old(background)
    {
      children := children + [node];
    }
  }

  /** A scene with the standard lights; the background is set only when the colour is truthy. */
  method CreateStandardScene(bgColor: Value) returns (scene: Scene)
    ensures fresh(scene)
    ensures scene.children == StandardLights()
    ensures scene.background == if Truthy(bgColor) then Some(bgColor) else None
  {
    scene := new Scene();
    if Truthy(bgColor) {
      scene.background := Some(bgColor);
    }
    scene.Add(AmbientLight(White, 0.7));
    var light := DirectionalLight(White, 0.3, Vec3(2.0, 5.0, 5.0));
    scene.Add(light);
  }

  // ---------------------------------------------------------------------------
  // Looking up a generator by name
  // ---------------------------------------------------------------------------

  /** The export named `name`, if any: the only names that resolve to a function are the ten generators'. */
  function LookupShape(name: string): (r: Option<ShapeKind>)
    ensures r.Some? ==> ExportName(r.value) == name
    ensures r.None? ==> forall kind: ShapeKind :: ExportName(kind) != name
  {
    if name == "createLine" then Some(LineShape)
    else if name == "createDisk" then Some(DiskShape)
    else if name == "createPlane" then Some(PlaneShape)
    else if name == "createPlaneOfParallelLines" then Some(PlaneOfParallelLinesShape)
    else if name == "createBoxOfParallelLines" then Some(BoxOfParallelLinesShape)
    else if name == "createHoop" then Some(HoopShape)
    else if name == "createSphere" then Some(SphereShape)
    else if name == "createCylindroid" then Some(CylindroidShape)
    else if name == "createHyperbolicParaboloid" then Some(HyperbolicParaboloidShape)
    else if name == "createHyperboloid" then Some(HyperboloidShape)
    else None
  }

  /** Every generator is found under its export name. */
  lemma LookupExportName(kind: ShapeKind)
    ensures LookupShape(ExportName(kind)) == Some(kind)
  {
    var r := LookupShape(ExportName(kind));
    if r.Some? {
      ExportNameInjective(r.value, kind);
    }
  }

  // ---------------------------------------------------------------------------
  // What populating a scene adds
  // ---------------------------------------------------------------------------

  /** The node for element `e`, made by generator `kind`: processed options, and the origin for a missing position or rotation. */
  function ShapeFor(e: Element, kind: ShapeKind): Node {
    ShapeNode(kind, ProcessedOptions(e.options), e.position.GetOr(Origin), e.rotation.GetOr(Origin))
  }

  /** The warning for an element whose type names no generator. */
  function NotFound(e: Element): string {
    "Shape function " + e.typeName + " not found."
  }

  /** The node element `e` adds, if `exports` resolves its type. */
  function Contribution(exports: string -> Option<ShapeKind>, e: Element): seq<Node> {
    var kind := exports(e.typeName);
    if kind.Some? then [ShapeFor(e, kind.value)] else []
  }

  /** The warning element `e` causes, if `exports` does not resolve its type. */
  function WarningFor(exports: string -> Option<ShapeKind>, e: Element): seq<string> {
    if exports(e.typeName).None? then [NotFound(e)] else []
  }

  /**
   * The shape nodes for `es`, in element order, where `exports` resolves a
   * type name to a generator; elements whose type it does not resolve are
   * skipped. Populating a scene uses `LookupShape`.
   */
  function AssembledShapes(exports: string -> Option<ShapeKind>, es: seq<Element>): seq<Node>
    decreases |es|
  {
    if es == [] then []
    else AssembledShapes(exports, es[..|es| - 1]) + Contribution(exports, es[|es| - 1])
  }

  /** The warnings for `es`, in element order, one per type `exports` does not resolve. */
  function Warnings(exports: string -> Option<ShapeKind>, es: seq<Element>): seq<string>
    decreases |es|
  {
    if es == [] then []
    else Warnings(exports, es[..|es| - 1]) + WarningFor(exports, es[|es| - 1])
  }

  /** One more element adds its shape or its warning at the end. */
  lemma AssembledSnoc(exports: string -> Option<ShapeKind>, es: seq<Element>, i: nat)
    requires i < |es|
    ensures AssembledShapes(exports, es[..i + 1]) == AssembledShapes(exports, es[..i]) + Contribution(exports, es[i])
    ensures Warnings(exports, es[..i + 1]) == Warnings(exports, es[..i]) + WarningFor(exports, es[i])
  {
    assert es[..i + 1][..i] == es[..i];
  }

  /** Element `e` makes its generator throw: a line whose processed options leave an endpoint unset. */
  predicate Aborts(exports: string -> Option<ShapeKind>, e: Element) {
    exports(e.typeName) == Some(LineShape) && LineThrows(ProcessedOptions(e.options))
  }

  /** The index of the first element that throws, or the length when none does. */
  function FirstAbort(exports: string -> Option<ShapeKind>, es: seq<Element>): (n: nat)
    ensures n <= |es|
    ensures forall i :: 0 <= i < n ==> !Aborts(exports, es[i])
    ensures n < |es| ==> Aborts(exports, es[n])
    decreases |es|
  {
    if es == [] then 0
    else if Aborts(exports, es[0]) then 0
    else 1 + FirstAbort(exports, es[1..])
  }

  /** The first element that throws is the one after a run of elements that do not. */
  lemma {:induction false} FirstAbortAt(exports: string -> Option<ShapeKind>, es: seq<Element>, i: nat)
    requires i <= |es| && forall j :: 0 <= j < i ==> !Aborts(exports, es[j])
    requires i < |es| ==> Aborts(exports, es[i])
    ensures FirstAbort(exports, es) == i
    decreases i
  {
    if i > 0 {
      assert !Aborts(exports, es[0]);
      assert forall j :: 0 <= j < i - 1 ==> es[1..][j] == es[j + 1];
      FirstAbortAt(exports, es[1..], i - 1);
    }
  }


  /**
   * The step for one element: look its type up in the generator namespace
   * `exports`; for a generator, process the options, call it and add the node
   * with any position and rotation; otherwise warn. `threw` reports the
   * exception a line with an unset endpoint raises, which leaves the scene
   * unchanged.
   */
  method AddElement(scene: Scene, exports: string -> Option<ShapeKind>, e: Element)
    returns (warning: seq<string>, threw: bool)
    modifies scene
    ensures threw == Aborts(exports, e)
    ensures warning == WarningFor(exports, e)
    ensures scene.children == old(scene.children) + (if threw then [] else Contribution(exports, e))
    ensures scene.background == old(scene.background)
  {
    warning := [];
    threw := false;
    var kind := exports(e.typeName);
    if kind.Some? {
      var processed := ProcessOptions(e.options);
      if kind.value == LineShape && LineThrows(processed) {
        threw := true;
        return;
      }
      var position := Origin;
      if e.position.Some? {
        position := e.position.value;
      }
      var rotation := Origin;
      if e.rotation.Some? {
        rotation := e.rotation.value;
      }
      scene.Add(ShapeNode(kind.value, processed, position, rotation));
    } else {
      warning := [NotFound(e)];
    }
  }

  /**
   * The loop over the elements, one `AddElement` step each, resolving types
   * in `exports`. It stops at the first element that throws, keeping what
   * was added before it, and reports that in `aborted`.
   */
  method AddElements(scene: Scene, exports: string -> Option<ShapeKind>, es: seq<Element>)
    returns (warnings: seq<string>, aborted: bool)
    modifies scene
    ensures aborted <==> FirstAbort(exports, es) < |es|
    ensures scene.children == old(scene.children) + AssembledShapes(exports, es[..FirstAbort(exports, es)])
    ensures warnings == Warnings(exports, es[..FirstAbort(exports, es)])
    ensures scene.background == old(scene.background)
  {
    warnings := [];
    aborted := false;
    var i := 0;
    while i < |es|
      invariant 0 <= i <= |es|
      invariant i <= FirstAbort(exports, es)
      invariant scene.children == old(scene.children) + AssembledShapes(exports, es[..i])
      invariant warnings == Warnings(exports, es[..i])
      invariant scene.background == old(scene.background)
    {
      AssembledSnoc(exports, es, i);
      var warning, threw := AddElement(scene, exports, es[i]);
      if threw {
        aborted := true;
        return;
      }
      warnings := warnings + warning;
      i := i + 1;
    }
    assert es[..|es|] == es;
  }

  /**
   * Clears the scene, restores the standard lights, then adds one node per
   * element whose type names a generator and reports a warning for each other
   * element. Null, undefined or empty elements leave just the lights. A line
   * element with an unset endpoint throws: population stops there, keeping
   * what was added before it, and `aborted` reports the exception. The
   * background is kept.
   */
  method PopulateSceneFromElements(scene: Scene, elements: Option<seq<Element>>)
    returns (warnings: seq<string>, aborted: bool)
    modifies scene
    ensures aborted <==> FirstAbort(LookupShape, elements.GetOr([])) < |elements.GetOr([])|
    ensures scene.children == StandardLights() +
      AssembledShapes(LookupShape, elements.GetOr([])[..FirstAbort(LookupShape, elements.GetOr([]))])
    ensures warnings == Warnings(LookupShape, elements.GetOr([])[..FirstAbort(LookupShape, elements.GetOr([]))])
    ensures scene.background == old(scene.background)
  {
    scene.Clear();
    scene.Add(AmbientLight(White, 0.7));
    var light := DirectionalLight(White, 0.3, Vec3(2.0, 5.0, 5.0));
    scene.Add(light);
    warnings := [];
    aborted := false;
    if elements.None? || |elements.value| == 0 {
      return;
    }
    warnings, aborted := AddElements(scene, LookupShape, elements.value);
  }

  // ---------------------------------------------------------------------------
  // Properties of population, for any table of exports
  // ---------------------------------------------------------------------------

  /** There is one shape node per element whose type resolves. */
  lemma {:induction false} ShapesCount(exports: string -> Option<ShapeKind>, es: seq<Element>)
    ensures |AssembledShapes(exports, es)| == |set i | 0 <= i < |es| && exports(es[i].typeName).Some?|
    decreases |es|
  {
    var all := set i | 0 <= i < |es| && exports(es[i].typeName).Some?;
    if es == [] {
      assert all == {};
    } else {
      var init, last := es[..|es| - 1], es[|es| - 1];
      ShapesCount(exports, init);
      assert |AssembledShapes(exports, es)| == |AssembledShapes(exports, init)| + |Contribution(exports, last)|;
      var prefix := set i | 0 <= i < |init| && exports(init[i].typeName).Some?;
      assert forall i :: 0 <= i < |init| ==> init[i] == es[i];
      if exports(last.typeName).Some? {
        assert all == prefix + {|es| - 1};
        assert |es| - 1 !in prefix;
      } else {
        assert all == prefix;
      }
    }
  }

  /** There is one warning per element whose type does not resolve. */
  lemma {:induction false} WarningsCount(exports: string -> Option<ShapeKind>, es: seq<Element>)
    ensures |Warnings(exports, es)| == |set i | 0 <= i < |es| && exports(es[i].typeName).None?|
    decreases |es|
  {
    var all := set i | 0 <= i < |es| && exports(es[i].typeName).None?;
    if es == [] {
      assert all == {};
    } else {
      var init, last := es[..|es| - 1], es[|es| - 1];
      WarningsCount(exports, init);
      assert |Warnings(exports, es)| == |Warnings(exports, init)| + |WarningFor(exports, last)|;
      var prefix := set i | 0 <= i < |init| && exports(init[i].typeName).None?;
      assert forall i :: 0 <= i < |init| ==> init[i] == es[i];
      if exports(last.typeName).None? {
        assert all == prefix + {|es| - 1};
        assert |es| - 1 !in prefix;
      } else {
        assert all == prefix;
      }
    }
  }

  /** Every element ends up as exactly one thing: a shape node or a warning. */
  lemma {:induction false} ShapesAndWarningsPartition(exports: string -> Option<ShapeKind>, es: seq<Element>)
    ensures |AssembledShapes(exports, es)| + |Warnings(exports, es)| == |es|
    decreases |es|
  {
    if es != [] {
      ShapesAndWarningsPartition(exports, es[..|es| - 1]);
    }
  }

  /** When every type resolves, there is one node per element and no warning. */
  lemma {:induction false} AllKnownCounts(exports: string -> Option<ShapeKind>, es: seq<Element>)
    requires forall i :: 0 <= i < |es| ==> exports(es[i].typeName).Some?
    ensures |AssembledShapes(exports, es)| == |es|
    ensures Warnings(exports, es) == []
    decreases |es|
  {
    if es != [] {
      var init := es[..|es| - 1];
      assert forall i :: 0 <= i < |init| ==> init[i] == es[i];
      AllKnownCounts(exports, init);
    }
  }

  /** When every type resolves, node `i` is element `i`'s shape. */
  lemma {:induction false} AllKnownAt(exports: string -> Option<ShapeKind>, es: seq<Element>, i: nat)
    requires forall j :: 0 <= j < |es| ==> exports(es[j].typeName).Some?
    requires i < |es|
    ensures |AssembledShapes(exports, es)| == |es|
    ensures AssembledShapes(exports, es)[i] == ShapeFor(es[i], exports(es[i].typeName).value)
    decreases |es|
  {
    var init := es[..|es| - 1];
    assert forall j :: 0 <= j < |init| ==> init[j] == es[j];
    if i < |init| {
      AllKnownAt(exports, init, i);
    } else {
      AllKnownCounts(exports, init);
    }
  }

  /** When every type names a generator, the nodes are the elements' shapes one for one, and nothing is warned about. */
  lemma AllKnown(exports: string -> Option<ShapeKind>, es: seq<Element>)
    requires forall i :: 0 <= i < |es| ==> exports(es[i].typeName).Some?
    ensures |AssembledShapes(exports, es)| == |es|
    ensures forall i :: 0 <= i < |es| ==>
      AssembledShapes(exports, es)[i] == ShapeFor(es[i], exports(es[i].typeName).value)
    ensures Warnings(exports, es) == []
  {
    AllKnownCounts(exports, es);
    forall i | 0 <= i < |es|
      ensures AssembledShapes(exports, es)[i] == ShapeFor(es[i], exports(es[i].typeName).value)
    {
      AllKnownAt(exports, es, i);
    }
  }

  /** When no type names a generator, no shape is added and every element is warned about, in order. */
  lemma {:induction false} NoneKnown(exports: string -> Option<ShapeKind>, es: seq<Element>)
    requires forall i :: 0 <= i < |es| ==> exports(es[i].typeName).None?
    ensures AssembledShapes(exports, es) == []
    ensures |Warnings(exports, es)| == |es|
    ensures forall i :: 0 <= i < |es| ==> Warnings(exports, es)[i] == NotFound(es[i])
    decreases |es|
  {
    if es != [] {
      var init := es[..|es| - 1];
      NoneKnown(exports, init);
      assert forall i :: 0 <= i < |init| ==> init[i] == es[i];
    }
  }

  /** Every shape node comes from an element of the list whose type names its generator. */
  lemma {:induction false} ShapesComeFromElements(exports: string -> Option<ShapeKind>, es: seq<Element>, node: Node)
    requires node in AssembledShapes(exports, es)
    ensures node.ShapeNode?
    ensures exists e :: e in es && exports(e.typeName) == Some(node.kind) && node == ShapeFor(e, node.kind)
    decreases |es|
  {
    var e := es[|es| - 1];
    var init := es[..|es| - 1];
    if node in AssembledShapes(exports, init) {
      ShapesComeFromElements(exports, init, node);
      var e' :| e' in init && exports(e'.typeName) == Some(node.kind) && node == ShapeFor(e', node.kind);
      assert e' in es;
    } else {
      assert e in es;
    }
  }

  /** Populating depends only on the elements: the shapes for a concatenation are the shapes of each part. */
  lemma {:induction false} AssembledConcat(exports: string -> Option<ShapeKind>, xs: seq<Element>, ys: seq<Element>)
    ensures AssembledShapes(exports, xs + ys) == AssembledShapes(exports, xs) + AssembledShapes(exports, ys)
    ensures Warnings(exports, xs + ys) == Warnings(exports, xs) + Warnings(exports, ys)
    decreases |ys|
  {
    if ys != [] {
      var init := ys[..|ys| - 1];
      AssembledConcat(exports, xs, init);
      assert (xs + ys)[..|xs + ys| - 1] == xs + init;
      assert (xs + ys)[|xs + ys| - 1] == ys[|ys| - 1];
    } else {
      assert xs + ys == xs;
    }
  }

  /**
   * With the shapes module's exports: an element whose type is a generator's
   * export name always becomes that generator's node, and any other type
   * always becomes a warning.
   */
  lemma PopulationByName(es: seq<Element>)
    ensures |AssembledShapes(LookupShape, es)| + |Warnings(LookupShape, es)| == |es|
    ensures (forall i :: 0 <= i < |es| ==> exists kind :: es[i].typeName == ExportName(kind)) ==>
      Warnings(LookupShape, es) == []
    ensures (forall i, kind :: 0 <= i < |es| ==> es[i].typeName != ExportName(kind)) ==>
      AssembledShapes(LookupShape, es) == []
  {
    ShapesAndWarningsPartition(LookupShape, es);
    if forall i :: 0 <= i < |es| ==> exists kind :: es[i].typeName == ExportName(kind) {
      forall i | 0 <= i < |es|
        ensures LookupShape(es[i].typeName).Some?
      {
        var kind :| es[i].typeName == ExportName(kind);
        LookupExportName(kind);
      }
      AllKnownCounts(LookupShape, es);
    }
    if forall i, kind :: 0 <= i < |es| ==> es[i].typeName != ExportName(kind) {
      NoneKnown(LookupShape, es);
    }
  }
}
