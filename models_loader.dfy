/**
 * Model loading and placement (src/three/modelsLoarder.js).
 *
 * `RetrieveData` starts one load per manifest entry, objects first and letters
 * after. Each load completes later, on its own, with a model, with an empty
 * result or with an error; a completion with a model re-centres it on its
 * bounding-box centre, tags it, turns it unless it is a letter, classifies its
 * meshes as shadow receivers ("sol") or casters, and appends a new pivot holding
 * it to the scene.
 */
module ModelsLoader {
  import opened Names
  import opened SceneGraph

  /** One manifest entry: the asset's path and the position `[x, y, z]` to place it at. */
  datatype Entry = Entry(path: string, position: Vec3)

  /** The manifest `{ objects, letters }` the data layer resolves to. */
  datatype Manifest = Manifest(objects: seq<Entry>, letters: seq<Entry>)

  /** One call of `loaderGLTF(path, position, scene, isLetter)`: a load that has been started. */
  datatype LoadRequest = LoadRequest(path: string, position: Vec3, isLetter: bool)

  /** `retrieveData`. The data layer resolves to `undefined` when the manifest cannot be
      fetched; reading `objects` of it throws, the returned promise rejects and no load is
      started (`None`). Otherwise one load per entry is started, in manifest order. */
  method RetrieveData(models: Option<Manifest>) returns (started: Option<seq<LoadRequest>>)
    ensures started.None? <==> models.None?
    ensures models.Some? ==>
      var m, s := models.value, started.value;
      && |s| == |m.objects| + |m.letters|
      && (forall i :: 0 <= i < |m.objects| ==>
            s[i] == LoadRequest(m.objects[i].path, m.objects[i].position, false))
      && (forall i :: 0 <= i < |m.letters| ==>
            s[|m.objects| + i] == LoadRequest(m.letters[i].path, m.letters[i].position, true))
  {
    if models.None? {
      return None;
    }
    var m := models.value;
    var loads: seq<LoadRequest> := [];
    var i := 0;
    while i < |m.objects|
      invariant 0 <= i <= |m.objects| && |loads| == i
      invariant forall k :: 0 <= k < i ==> loads[k] == LoadRequest(m.objects[k].path, m.objects[k].position, false)
    {
      loads := loads + [LoadRequest(m.objects[i].path, m.objects[i].position, false)];
      i := i + 1;
    }
    var j := 0;
    while j < |m.letters|
      invariant 0 <= j <= |m.letters| && |loads| == |m.objects| + j
      invariant forall k :: 0 <= k < |m.objects| ==> loads[k] == LoadRequest(m.objects[k].path, m.objects[k].position, false)
      invariant forall k :: 0 <= k < j ==> loads[|m.objects| + k] == LoadRequest(m.letters[k].path, m.letters[k].position, true)
    {
      loads := loads + [LoadRequest(m.letters[j].path, m.letters[j].position, true)];
      j := j + 1;
    }
    started := Some(loads);
  }

  // ---------------------------------------------------------------------------
  // Shadow classification

  predicate IsGround(n: Node)
  {
    ContainsCI(n.name, "sol")
  }

  /** `shadowsSetUp`: the traversal visits the node and all its descendants; a mesh named
      like "sol" receives shadows, every other mesh casts them. */
  function ShadowsSetUp(n: Node): (r: Node)
    ensures r == n.(castShadow := r.castShadow, receiveShadow := r.receiveShadow, children := r.children)
    ensures |r.children| == |n.children|
    decreases n
  {
    var flagged :=
      if !n.kind.Mesh? then n
      else if IsGround(n) then n.(receiveShadow := true)
      else n.(castShadow := true);
    flagged.(children := seq(|n.children|, i requires 0 <= i < |n.children| => ShadowsSetUp(n.children[i])))
  }

  /** What the traversal's callback does to one node: the node is unchanged except for
      its shadow flags, a flag is only ever set, and which one depends on its name. */
  predicate Classified(before: Node, after: Node)
  {
    && after.name == before.name && after.kind == before.kind
    && after.position == before.position && after.rotation == before.rotation
    && after.isLetter == before.isLetter && |after.children| == |before.children|
    && after.receiveShadow == (before.receiveShadow || (before.kind.Mesh? && IsGround(before)))
    && after.castShadow == (before.castShadow || (before.kind.Mesh? && !IsGround(before)))
  }

  function ShadowsAll(cs: seq<Node>): seq<Node>
  {
    seq(|cs|, i requires 0 <= i < |cs| => ShadowsSetUp(cs[i]))
  }

  lemma {:induction false} ShadowsAlongPath(cs: seq<Node>, q: Path)
    ensures ValidListPath(ShadowsAll(cs), q) <==> ValidListPath(cs, q)
    ensures ValidListPath(cs, q) ==> ChildrenAt(ShadowsAll(cs), q) == ShadowsAll(ChildrenAt(cs, q))
    decreases q
  {
    if q != [] && q[0] < |cs| {
      var n := cs[q[0]];
      assert ShadowsAll(cs)[q[0]].children == ShadowsAll(n.children);
      ShadowsAlongPath(n.children, q[1..]);
    }
  }

  /** The traversal reaches every node of the model, the root included, adds or removes
      none, and classifies each one by its own name and kind. */
  lemma ShadowsSetUpVisitsEveryNode(model: Node, p: Path)
    ensures ValidPath([ShadowsSetUp(model)], p) <==> ValidPath([model], p)
    ensures ValidPath([model], p) ==>
              Classified(NodeAt([model], p), NodeAt([ShadowsSetUp(model)], p))
  {
    assert ShadowsAll([model]) == [ShadowsSetUp(model)];
    if |p| > 0 {
      ShadowsAlongPath([model], Parent(p));
    }
  }

  /** A mesh that had no shadow flag ends with exactly one: it receives shadows exactly when
      its name contains "sol". A node that is not a mesh keeps both flags. */
  lemma OneShadowRolePerMesh(model: Node, p: Path)
    requires ValidPath([model], p)
    ensures ValidPath([ShadowsSetUp(model)], p)
    ensures var before, after := NodeAt([model], p), NodeAt([ShadowsSetUp(model)], p);
      && (before.kind.Mesh? && !before.castShadow && !before.receiveShadow ==>
            (after.receiveShadow != after.castShadow) && (after.receiveShadow <==> IsGround(before)))
      && (!before.kind.Mesh? ==>
            after.castShadow == before.castShadow && after.receiveShadow == before.receiveShadow)
  {
    ShadowsSetUpVisitsEveryNode(model, p);
  }

  // ---------------------------------------------------------------------------
  // Load completion

  /** How a started load ends: with the decoded scene and its bounding-box centre, with an
      empty result (`gltf.scene` missing), or through the error callback. */
  datatype LoadResult = Loaded(model: Node, center: Vec3) | LoadedEmpty | Failed

  datatype Completion = Completion(request: LoadRequest, result: LoadResult)

  /** The model as the success callback leaves it. */
  function Prepared(model: Node, center: Vec3, isLetter: bool): Node
  {
    var moved := model.(position := Sub(model.position, center), isLetter := Some(isLetter));
    var turned := if isLetter then moved else moved.(rotation := moved.rotation.(y := moved.rotation.y - 0.15));
    ShadowsSetUp(turned)
  }

  /** The pivot the success callback appends to the scene. */
  function PivotFor(request: LoadRequest, model: Node, center: Vec3): Node
  {
    NewNode(Object3D).(
      position := Vec3(request.position.x - 0.2, request.position.y, request.position.z),
      rotation := Vec3(0.0, -Pi / 2.0, 0.0),
      children := [Prepared(model, center, request.isLetter)])
  }

  /** The placement a pivot gets: at the entry's position moved 0.2 along -x, turned by
      -pi/2 about y, holding only the model; the model re-centred on its bounding-box
      centre, tagged with its list, turned by -0.15 about y unless it is a letter, and
      shadow-classified at every node. */
  lemma PivotPlacement(request: LoadRequest, model: Node, center: Vec3, p: Path)
    ensures var pivot := PivotFor(request, model, center);
      && pivot.position == Vec3(request.position.x - 0.2, request.position.y, request.position.z)
      && pivot.rotation.y == -Pi / 2.0
      && |pivot.children| == 1
      && var m := pivot.children[0];
         && m.position == Sub(model.position, center)
         && m.isLetter == Some(request.isLetter)
         && m.rotation.y == (if request.isLetter then model.rotation.y else model.rotation.y - 0.15)
         && m.rotation.x == model.rotation.x && m.rotation.z == model.rotation.z
         && m.name == model.name && m.kind == model.kind
         && m.receiveShadow == (model.receiveShadow || (model.kind.Mesh? && IsGround(model)))
         && m.castShadow == (model.castShadow || (model.kind.Mesh? && !IsGround(model)))
         && (ValidPath([m], p) <==> ValidPath([model], p))
         && (|p| > 1 && ValidPath([model], p) ==> Classified(NodeAt([model], p), NodeAt([m], p)))
  {
    var moved := model.(position := Sub(model.position, center), isLetter := Some(request.isLetter));
    var turned := if request.isLetter then moved else moved.(rotation := moved.rotation.(y := moved.rotation.y - 0.15));
    ShadowsSetUpVisitsEveryNode(turned, p);
    assert ValidPath([turned], p) <==> ValidPath([model], p) by {
      assert ValidListPath([turned], []) && ValidListPath([model], []);
      if |p| > 1 {
        assert [turned][0].children == [model][0].children;
        assert ValidListPath([turned], Parent(p)) == ValidListPath([model], Parent(p));
      }
    }
    if |p| > 1 && ValidPath([model], p) {
      assert ChildrenAt([turned], Parent(p)) == ChildrenAt([model], Parent(p));
    }
  }

  /** The scene's children after one completion: one more pivot for a loaded model,
      unchanged for an empty result or an error. */
  function AfterCompletion(cs: seq<Node>, c: Completion): seq<Node>
  {
    match c.result
    case Loaded(model, center) => cs + [PivotFor(c.request, model, center)]
    case _ => cs
  }

  /** The completions handled one at a time, in the order they arrive. */
  function AfterCompletions(cs: seq<Node>, events: seq<Completion>): seq<Node>
    decreases |events|
  {
    if events == [] then cs else AfterCompletions(AfterCompletion(cs, events[0]), events[1..])
  }

  function Successes(events: seq<Completion>): nat
    decreases |events|
  {
    if events == [] then 0 else (if events[0].result.Loaded? then 1 else 0) + Successes(events[1..])
  }

  /** Whatever the order of completions, the scene keeps what it had and gains exactly one
      pivot per loaded model, each holding exactly one child. */
  lemma {:induction false} OnePivotPerLoadedModel(cs: seq<Node>, events: seq<Completion>)
    ensures var r := AfterCompletions(cs, events);
      && |r| == |cs| + Successes(events)
      && r[..|cs|] == cs
      && forall i :: |cs| <= i < |r| ==> |r[i].children| == 1 && r[i].rotation.y == -Pi / 2.0
    decreases |events|
  {
    if events != [] {
      var cs1 := AfterCompletion(cs, events[0]);
      OnePivotPerLoadedModel(cs1, events[1..]);
      var r := AfterCompletions(cs1, events[1..]);
      assert r[..|cs1|] == cs1;
      assert cs1[..|cs|] == cs;
      assert r[..|cs|] == cs by {
        assert r[..|cs|] == r[..|cs1|][..|cs|];
      }
      forall i | |cs| <= i < |r| ensures |r[i].children| == 1 && r[i].rotation.y == -Pi / 2.0 {
        if i < |cs1| {
          assert r[i] == r[..|cs1|][i] == cs1[i];
        }
      }
    }
  }

  /** The callbacks given to `loader.load`: success with a model appends its pivot;
      success without a model and the error callback leave the scene as it was. */
  method OnLoadComplete(request: LoadRequest, result: LoadResult, scene: Scene)
    modifies scene
    ensures scene.children == AfterCompletion(old(scene.children), Completion(request, result))
    ensures scene.background == old(scene.background)
  {
    match result {
      case Loaded(loaded, center) =>
        var model := loaded;
        model := model.(position := Sub(model.position, center));
        model := model.(isLetter := Some(request.isLetter));
        if !request.isLetter {
          model := model.(rotation := model.rotation.(y := model.rotation.y - 0.15));
        }
        model := ShadowsSetUp(model);
        assert model == Prepared(loaded, center, request.isLetter);
        var pivot := NewNode(Object3D);
        pivot := pivot.(position := Vec3(request.position.x - 0.2, request.position.y, request.position.z));
        pivot := pivot.(rotation := pivot.rotation.(y := -Pi / 2.0));
        pivot := pivot.(children := pivot.children + [model]);
        assert pivot.children == [model];
        scene.Add(pivot);
      case LoadedEmpty =>
      case Failed =>
    }
  }
}
