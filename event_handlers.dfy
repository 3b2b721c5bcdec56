/**
 * Pointer dispatch (src/three/eventHandlers.js).
 *
 * A pointer position is mapped affinely onto [-1, 1] on each axis of the canvas, with
 * y pointing up. Hovering turns the camera towards a tenth of that position; a click
 * forwards the nearest object the pointer ray hits, if any, to the lamp handler. The
 * ray and the engine's intersection test are not modelled: the click receives the
 * engine's intersection list, nearest first.
 */
module EventHandlers {
  import opened Names
  import opened SceneGraph
  import opened LightingHandler

  /** `canvas.getBoundingClientRect()` */
  datatype Bounds = Bounds(left: real, top: real, width: real, height: real)

  /** The pointer's `clientX` and `clientY`. */
  datatype Pointer = Pointer(clientX: real, clientY: real)

  datatype NormalizedPosition = NormalizedPosition(x: real, y: real)

  predicate Inside(event: Pointer, bounds: Bounds)
  {
    && bounds.left <= event.clientX <= bounds.left + bounds.width
    && bounds.top <= event.clientY <= bounds.top + bounds.height
  }

  /** The pixel a normalized position stands for: the inverse of the normalization. */
  function PointerAt(p: NormalizedPosition, bounds: Bounds): Pointer
  {
    Pointer(bounds.left + (p.x + 1.0) / 2.0 * bounds.width,
            bounds.top + (1.0 - p.y) / 2.0 * bounds.height)
  }

  /** `getNormalizedMousePosition`: the left edge maps to -1 and the right edge to 1, the
      top edge to 1 and the bottom edge to -1, the centre to the origin; the map is
      invertible, and `PointerAt` gives back the pixel. */
  function NormalizedMousePosition(event: Pointer, bounds: Bounds): (r: NormalizedPosition)
    requires bounds.width != 0.0 && bounds.height != 0.0
    ensures event.clientX == bounds.left ==> r.x == -1.0
    ensures event.clientX == bounds.left + bounds.width ==> r.x == 1.0
    ensures event.clientX == bounds.left + bounds.width / 2.0 ==> r.x == 0.0
    ensures event.clientY == bounds.top ==> r.y == 1.0
    ensures event.clientY == bounds.top + bounds.height ==> r.y == -1.0
    ensures event.clientY == bounds.top + bounds.height / 2.0 ==> r.y == 0.0
    ensures PointerAt(r, bounds) == event
  {
    DivCancel(event.clientX - bounds.left, bounds.width);
    DivCancel(event.clientY - bounds.top, bounds.height);
    NormalizedPosition(((event.clientX - bounds.left) / bounds.width) * 2.0 - 1.0,
                       -((event.clientY - bounds.top) / bounds.height) * 2.0 + 1.0)
  }

  /** Division by a non-zero extent is undone by multiplying with it, and dividing the
      extent itself, or half of it, gives 1 and 1/2. */
  lemma DivCancel(a: real, w: real)
    requires w != 0.0
    ensures a / w * w == a && (a * w) / w == a
    ensures w / w == 1.0 && (w / 2.0) / w == 1.0 / 2.0 && 0.0 / w == 0.0
  {
  }

  /** Normalizing the pixel of a normalized position gives that position back. */
  lemma NormalizeRoundTrip(p: NormalizedPosition, bounds: Bounds)
    requires bounds.width != 0.0 && bounds.height != 0.0
    ensures NormalizedMousePosition(PointerAt(p, bounds), bounds) == p
  {
    var e := PointerAt(p, bounds);
    var fx, fy := (p.x + 1.0) / 2.0, (1.0 - p.y) / 2.0;
    DivideProduct(e.clientX - bounds.left, fx, bounds.width);
    DivideProduct(e.clientY - bounds.top, fy, bounds.height);
    assert (e.clientX - bounds.left) / bounds.width == (p.x + 1.0) / 2.0;
    assert (e.clientY - bounds.top) / bounds.height == (1.0 - p.y) / 2.0;
  }

  lemma DivideProduct(x: real, a: real, w: real)
    requires w != 0.0 && x == a * w
    ensures x / w == a
  {
  }

  /** A fraction of a positive extent that the pointer has covered lies in [0, 1]. */
  lemma FractionInUnit(a: real, w: real)
    requires w > 0.0 && 0.0 <= a <= w
    ensures 0.0 <= a / w <= 1.0
  {
    assert a / w * w == a;
  }

  /** A pointer inside a canvas of positive size normalizes into [-1, 1] on both axes. */
  lemma NormalizedInRange(event: Pointer, bounds: Bounds)
    requires bounds.width > 0.0 && bounds.height > 0.0 && Inside(event, bounds)
    ensures var r := NormalizedMousePosition(event, bounds);
      -1.0 <= r.x <= 1.0 && -1.0 <= r.y <= 1.0
  {
    FractionInUnit(event.clientX - bounds.left, bounds.width);
    FractionInUnit(event.clientY - bounds.top, bounds.height);
  }

  /** The point `onCursorMove` turns the camera towards. */
  function LookTarget(p: NormalizedPosition): Vec3
  {
    Vec3(p.x * 0.1, p.y * 0.1, 0.0)
  }

  /** For a pointer inside the canvas the hover target stays within a tenth of the origin
      on each axis, in the plane z = 0, and determines the pointer position. */
  lemma HoverTargetBounded(event: Pointer, bounds: Bounds)
    requires bounds.width > 0.0 && bounds.height > 0.0 && Inside(event, bounds)
    ensures var p := NormalizedMousePosition(event, bounds);
      var v := LookTarget(p);
      && -0.1 <= v.x <= 0.1 && -0.1 <= v.y <= 0.1 && v.z == 0.0
      && PointerAt(NormalizedPosition(v.x * 10.0, v.y * 10.0), bounds) == event
  {
    NormalizedInRange(event, bounds);
  }

  /** `onCursorMove` */
  method OnCursorMove(event: Pointer, camera: Camera, bounds: Bounds)
    requires bounds.width != 0.0 && bounds.height != 0.0
    modifies camera
    ensures camera.target == LookTarget(NormalizedMousePosition(event, bounds))
  {
    var p := NormalizedMousePosition(event, bounds);
    camera.LookAt(p.x * 0.1, p.y * 0.1, 0.0);
  }

  /** One entry of the engine's intersection list: the object hit and its distance. */
  datatype Intersection = Intersection(node: Path, distance: real)

  /** What a click does with the intersection list: nothing when it is empty, otherwise
      the lamp handler on the first (nearest) object. */
  function ClickDispatch(w: World, intersects: seq<Intersection>): ClickOutcome
    requires intersects != [] ==> ValidPath(w.scene.children, intersects[0].node)
  {
    if intersects == [] then ClickOutcome(w, false) else LampClick(w, intersects[0].node)
  }

  /** Only the first hit matters: lists with the same first object dispatch alike, whatever
      follows it, and a click that hits nothing leaves the state as it was. */
  lemma OnlyFirstHitCounts(w: World, a: seq<Intersection>, b: seq<Intersection>)
    requires a != [] && ValidPath(w.scene.children, a[0].node)
    requires b != [] && b[0].node == a[0].node
    ensures ClickDispatch(w, a) == ClickDispatch(w, b)
    ensures ClickDispatch(w, []) == ClickOutcome(w, false)
  {
  }

  /** `onCanvasClick`, from the intersection list on. */
  method OnCanvasClick(intersects: seq<Intersection>, scene: Scene, state: LightState) returns (threw: bool)
    requires intersects != [] ==> ValidPath(scene.children, intersects[0].node)
    modifies scene, state
    ensures ClickDispatch(old(World(scene.Value(), state.lightIsOn)), intersects)
         == ClickOutcome(World(scene.Value(), state.lightIsOn), threw)
    ensures intersects == [] ==>
              !threw && scene.Value() == old(scene.Value()) && state.lightIsOn == old(state.lightIsOn)
  {
    threw := false;
    if |intersects| > 0 {
      var clickedObject := intersects[0].node;
      threw := HandleLampClick(clickedObject, scene, state);
    }
  }

  // ---------------------------------------------------------------------------
  // A lamp made of a base and a bulb

  /** A mesh with a name and a material. */
  function MeshNamed(name: string, material: Material): Node
  {
    NewNode(Mesh(material)).(name := name)
  }

  /** A click whose nearest hit is the base `lampe_base` of a lamp whose other part is the
      bulb `lampe_2_bulb` flips the flag, sets the background and gives the bulb emissive
      intensity 17 when the flag was off and 1 when it was on. */
  lemma LampBaseClickLightsBulb(w: World, i: nat, baseMaterial: Material, bulbMaterial: Material,
                                rest: seq<Intersection>)
    requires i < |w.scene.children|
    requires w.scene.children[i].children ==
               [MeshNamed("lampe_base", baseMaterial), MeshNamed("lampe_2_bulb", bulbMaterial)]
    ensures var hits := [Intersection([i, 0], 0.0)] + rest;
      && ValidPath(w.scene.children, [i, 0])
      && var r := ClickDispatch(w, hits);
      && !r.threw
      && r.world.lightIsOn == !w.lightIsOn
      && r.world.scene.background == Some(if w.lightIsOn then 0x4e5257 else 0xffffff)
      && ValidPath(r.world.scene.children, [i, 1])
      && NodeAt(r.world.scene.children, [i, 1]).kind.Mesh?
      && NodeAt(r.world.scene.children, [i, 1]).kind.material.emissiveIntensity
           == (if w.lightIsOn then 1.0 else 17.0)
  {
    var cs := w.scene.children;
    var sibs := cs[i].children;
    assert Parent([i, 0]) == [i] && Parent([i, 1]) == [i];
    assert ChildrenAt(cs, [i]) == sibs by {
      assert [i][1..] == [];
    }
    assert MatchAt("lampe_base", "lampe", 0);
    assert MatchAt("lampe_2_bulb", "lampe_2", 0);
    assert !BulbThrows(sibs[0]) && !BulbThrows(sibs[1]);
    assert FirstThrow(sibs) == 2 by {
      assert sibs[1..][1..] == [];
    }
    var t := ThemeFor(w.lightIsOn);
    var lit := LitAt(cs, [i], t);
    assert ChildrenAt(lit, [i]) == SwitchedSiblings(sibs, t);
    ThemeKeepsNested(lit, [i], t);
  }

  /** A click whose nearest hit is named `table` leaves the flag and every light as they were. */
  lemma TableClickChangesNothing(w: World, hit: Path, rest: seq<Intersection>)
    requires ValidPath(w.scene.children, hit) && NodeAt(w.scene.children, hit).name == "table"
    ensures ClickDispatch(w, [Intersection(hit, 0.0)] + rest) == ClickOutcome(w, false)
  {
    assert !ContainsCI("table", "lampe") by {
      assert Fold("table"[0]) != Fold("lampe"[0]);
      assert "table"[1..] == "able";
      assert !ContainsCI("able", "lampe");
    }
  }
}
