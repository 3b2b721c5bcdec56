/**
 * The lighting theme state machine (src/three/lightingHandler.js).
 *
 * A click on a node whose name contains "lampe" (any case) recolours the bulbs among
 * the clicked node's siblings, rewrites every top-level point and ambient light, the
 * shadow light's blur radius and the background, all from the flag as it was before
 * the click, and then flips the flag. The written values form a `Theme`, chosen by
 * that pre-click flag alone.
 */
module LightingHandler {
  import opened Names
  import opened SceneGraph

  /** The shared `state` object; only `lightIsOn` is read or written by the scene code. */
  class LightState {
    var lightIsOn: bool

    constructor (lightIsOn: bool)
      ensures this.lightIsOn == lightIsOn
    {
      this.lightIsOn := lightIsOn;
    }
  }

  /** Every value a lamp click writes. */
  datatype Theme = Theme(
    pointIntensity: real,
    pointColor: int,
    ambientIntensity: real,
    ambientColor: int,
    shadowRadius: real,
    shadowColor: int,
    background: int,
    bulbEmissive: Rgb,
    bulbIntensity: real)

  /** The theme a click writes when the flag read before the click is `isLightOn`. */
  function ThemeFor(isLightOn: bool): Theme
  {
    if isLightOn then
      Theme(0.1, 0xc1d5f7, 0.1, 0xc1d5f7, 20.0, 0x252526, 0x4e5257, Rgb(0.1, 0.05, 0.0), 1.0)
    else
      Theme(2.0, 0xf7e3c1, 1.3, 0xffffff, 10.0, 0xf7e3c1, 0xffffff, Rgb(1.0, 0.573, 0.0), 17.0)
  }

  predicate IsLamp(n: Node)
  {
    ContainsCI(n.name, "lampe")
  }

  predicate IsBulb(n: Node)
  {
    ContainsCI(n.name, "lampe_2")
  }

  predicate IsShadowLight(n: Node)
  {
    ContainsCI(n.name, "shadowLight")
  }

  // ---------------------------------------------------------------------------
  // Specification: what a theme looks like on a light and on a bulb

  /** A top-level node shows theme `t`: point and ambient lights carry its values,
      the shadow light its own colour and radius; other nodes have nothing to show. */
  predicate ShowsTheme(n: Node, t: Theme)
  {
    match n.kind
    case PointLight(color, intensity, radius) =>
      intensity == t.pointIntensity &&
      if IsShadowLight(n) then color == t.shadowColor && radius == t.shadowRadius
      else color == t.pointColor
    case AmbientLight(color, intensity) =>
      color == t.ambientColor && intensity == t.ambientIntensity
    case _ => true
  }

  /** A top-level node once theme `t` is applied to it. */
  function Themed(n: Node, t: Theme): (r: Node)
    ensures ShowsTheme(r, t)
    ensures ShowsTheme(n, t) ==> r == n
    ensures r == n.(kind := r.kind)
    ensures r.kind.PointLight? == n.kind.PointLight? && r.kind.AmbientLight? == n.kind.AmbientLight?
    ensures n.kind.PointLight? && !IsShadowLight(n) ==> r.kind.shadowRadius == n.kind.shadowRadius
    ensures !n.kind.PointLight? && !n.kind.AmbientLight? ==> r == n
  {
    match n.kind
    case PointLight(_, _, radius) =>
      if IsShadowLight(n) then n.(kind := PointLight(t.shadowColor, t.pointIntensity, t.shadowRadius))
      else n.(kind := PointLight(t.pointColor, t.pointIntensity, radius))
    case AmbientLight(_, _) => n.(kind := AmbientLight(t.ambientColor, t.ambientIntensity))
    case _ => n
  }

  /** The theme applied to each top-level child; nested nodes are not examined. */
  function ThemedChildren(cs: seq<Node>, t: Theme): seq<Node>
  {
    seq(|cs|, i requires 0 <= i < |cs| => Themed(cs[i], t))
  }

  /** A bulb (a mesh named like "lampe_2") shows theme `t` in its emissive material. */
  predicate BulbShows(n: Node, t: Theme)
  {
    IsBulb(n) && n.kind.Mesh? ==> n.kind.material == Material(t.bulbEmissive, t.bulbIntensity)
  }

  /** A node named like a bulb that has no material: reading its material's emissive colour throws. */
  predicate BulbThrows(n: Node)
  {
    IsBulb(n) && !n.kind.Mesh?
  }

  /** A sibling once the bulb part of theme `t` is applied to it. */
  function Lit(n: Node, t: Theme): (r: Node)
    ensures BulbShows(r, t)
    ensures BulbShows(n, t) ==> r == n
    ensures r == n.(kind := r.kind) && r.kind.Mesh? == n.kind.Mesh?
    ensures !n.kind.Mesh? ==> r == n
  {
    if IsBulb(n) && n.kind.Mesh? then n.(kind := Mesh(Material(t.bulbEmissive, t.bulbIntensity))) else n
  }

  /** The index of the first sibling whose update throws, or the number of siblings if none does. */
  function FirstThrow(sibs: seq<Node>): (k: nat)
    ensures k <= |sibs|
    ensures forall j :: 0 <= j < k ==> !BulbThrows(sibs[j])
    ensures k < |sibs| ==> BulbThrows(sibs[k])
  {
    if sibs == [] then 0
    else if BulbThrows(sibs[0]) then 0
    else 1 + FirstThrow(sibs[1..])
  }

  /** The siblings once the bulb loop has run: updated up to the first throw, untouched from it. */
  function SwitchedSiblings(sibs: seq<Node>, t: Theme): seq<Node>
  {
    var k := FirstThrow(sibs);
    seq(|sibs|, i requires 0 <= i < |sibs| => if i < k then Lit(sibs[i], t) else sibs[i])
  }

  /** The whole list once the bulbs among the children at `q` are lit. */
  function LitAt(cs: seq<Node>, q: Path, t: Theme): seq<Node>
    requires ValidListPath(cs, q)
  {
    ReplaceChildrenAt(cs, q, SwitchedSiblings(ChildrenAt(cs, q), t))
  }

  // ---------------------------------------------------------------------------
  // Specification: one click

  /** The scene together with the lighting flag. */
  datatype World = World(scene: SceneValue, lightIsOn: bool)

  /** The state after a click, and whether a TypeError escaped the handler. */
  datatype ClickOutcome = ClickOutcome(world: World, threw: bool)

  /** `handleLampClick` on the node `clicked` leads to. */
  function LampClick(w: World, clicked: Path): ClickOutcome
    requires ValidPath(w.scene.children, clicked)
  {
    var cs := w.scene.children;
    if !IsLamp(NodeAt(cs, clicked)) then
      ClickOutcome(w, false)
    else
      var q := Parent(clicked);
      var t := ThemeFor(w.lightIsOn);
      var sibs := ChildrenAt(cs, q);
      var lit := LitAt(cs, q, t);
      if FirstThrow(sibs) < |sibs| then
        ClickOutcome(World(SceneValue(w.scene.background, lit), w.lightIsOn), true)
      else
        ClickOutcome(World(SceneValue(Some(t.background), ThemedChildren(lit, t)), !w.lightIsOn), false)
  }

  /** Everything a click on the lamp at `clicked` writes shows theme `t`: the background,
      every top-level light and every bulb among the lamp's siblings. */
  predicate ShowsThemeAt(s: SceneValue, clicked: Path, t: Theme)
    requires ValidPath(s.children, clicked)
  {
    && s.background == Some(t.background)
    && (forall i :: 0 <= i < |s.children| ==> ShowsTheme(s.children[i], t))
    && var sibs := ChildrenAt(s.children, Parent(clicked));
       forall i :: 0 <= i < |sibs| ==> BulbShows(sibs[i], t)
  }

  // ---------------------------------------------------------------------------
  // Lemmas

  /** The same names and the same mesh-or-not shape, element by element. */
  predicate SameNames(a: seq<Node>, b: seq<Node>)
  {
    |a| == |b| && forall i :: 0 <= i < |a| ==> a[i].name == b[i].name && a[i].kind.Mesh? == b[i].kind.Mesh?
  }

  /** Where the bulb loop throws depends only on names and on which siblings are meshes. */
  lemma {:induction false} FirstThrowByNames(a: seq<Node>, b: seq<Node>)
    requires SameNames(a, b)
    ensures FirstThrow(a) == FirstThrow(b)
  {
    if a != [] {
      assert a[0].name == b[0].name && a[0].kind.Mesh? == b[0].kind.Mesh?;
      assert SameNames(a[1..], b[1..]) by {
        forall i | 0 <= i < |a| - 1 ensures a[1..][i].name == b[1..][i].name && a[1..][i].kind.Mesh? == b[1..][i].kind.Mesh? {
          assert a[1..][i] == a[i + 1] && b[1..][i] == b[i + 1];
        }
      }
      FirstThrowByNames(a[1..], b[1..]);
    }
  }

  /** Applying a theme keeps names, mesh-ness and nested children of the top level. */
  lemma ThemeKeepsShape(cs: seq<Node>, t: Theme)
    ensures SameNames(ThemedChildren(cs, t), cs)
    ensures forall i :: 0 <= i < |cs| ==> ThemedChildren(cs, t)[i].children == cs[i].children
  {
  }

  /** Lighting the bulbs keeps names and mesh-ness of the siblings. */
  lemma SwitchedKeepsShape(sibs: seq<Node>, t: Theme)
    ensures SameNames(SwitchedSiblings(sibs, t), sibs)
  {
  }

  /** A theme never reaches below the top level: paths into nested lists, and what they
      lead to, are the same before and after. */
  lemma ThemeKeepsNested(cs: seq<Node>, q: Path, t: Theme)
    requires ValidListPath(cs, q) && q != []
    ensures ValidListPath(ThemedChildren(cs, t), q)
    ensures ChildrenAt(ThemedChildren(cs, t), q) == ChildrenAt(cs, q)
    ensures forall k :: ReplaceChildrenAt(ThemedChildren(cs, t), q, k) == ThemedChildren(ReplaceChildrenAt(cs, q, k), t)
  {
    var tc := ThemedChildren(cs, t);
    assert tc[q[0]].children == cs[q[0]].children;
    forall k
      ensures ReplaceChildrenAt(tc, q, k) == ThemedChildren(ReplaceChildrenAt(cs, q, k), t)
    {
      var lhs := ReplaceChildrenAt(tc, q, k);
      var rhs := ThemedChildren(ReplaceChildrenAt(cs, q, k), t);
      assert |lhs| == |rhs|;
      forall i | 0 <= i < |lhs| ensures lhs[i] == rhs[i] {
        if i == q[0] {
          var kids := ReplaceChildrenAt(cs[q[0]].children, q[1..], k);
          assert lhs[i] == Themed(cs[i], t).(children := kids);
          assert rhs[i] == Themed(cs[i].(children := kids), t);
        }
      }
    }
  }

  /** Themes and bulbs touch disjoint parts of a node, so the order in which they are
      applied does not matter. */
  lemma {:induction false} ThemeAndBulbsCommute(cs: seq<Node>, q: Path, a: Theme, b: Theme)
    requires ValidListPath(cs, q)
    ensures ValidListPath(ThemedChildren(cs, a), q)
    ensures ThemedChildren(LitAt(cs, q, b), a) == LitAt(ThemedChildren(cs, a), q, b)
  {
    if q == [] {
      var tc := ThemedChildren(cs, a);
      ThemeKeepsShape(cs, a);
      FirstThrowByNames(tc, cs);
      var lhs := ThemedChildren(LitAt(cs, q, b), a);
      var rhs := LitAt(tc, q, b);
      assert lhs == rhs by {
        assert LitAt(cs, q, b) == SwitchedSiblings(cs, b);
        assert rhs == SwitchedSiblings(tc, b);
        forall i | 0 <= i < |cs| ensures lhs[i] == rhs[i] {
          if i < FirstThrow(cs) {
            assert lhs[i] == Themed(Lit(cs[i], b), a);
            assert rhs[i] == Lit(Themed(cs[i], a), b);
          }
        }
      }
    } else {
      ThemeKeepsNested(cs, q, a);
    }
  }

  /** Applying a theme twice is applying the second one. */
  lemma ThemeTwice(cs: seq<Node>, a: Theme, b: Theme)
    ensures ThemedChildren(ThemedChildren(cs, a), b) == ThemedChildren(cs, b)
  {
    var lhs := ThemedChildren(ThemedChildren(cs, a), b);
    forall i | 0 <= i < |cs| ensures lhs[i] == Themed(cs[i], b) {
      var n := cs[i];
      match n.kind
      case PointLight(_, _, _) =>
      case AmbientLight(_, _) =>
      case _ =>
    }
  }

  /** A theme the top level already shows changes nothing. */
  lemma ThemeShown(cs: seq<Node>, t: Theme)
    requires forall i :: 0 <= i < |cs| ==> ShowsTheme(cs[i], t)
    ensures ThemedChildren(cs, t) == cs
  {
  }

  /** Lighting the bulbs twice at the same place is lighting them with the second theme. */
  lemma BulbsTwice(cs: seq<Node>, q: Path, a: Theme, b: Theme)
    requires ValidListPath(cs, q)
    ensures ValidListPath(LitAt(cs, q, a), q)
    ensures LitAt(LitAt(cs, q, a), q, b) == LitAt(cs, q, b)
  {
    var sibs := ChildrenAt(cs, q);
    var s1 := SwitchedSiblings(sibs, a);
    SwitchedKeepsShape(sibs, a);
    FirstThrowByNames(s1, sibs);
    var s2 := SwitchedSiblings(s1, b);
    assert s2 == SwitchedSiblings(sibs, b) by {
      forall i | 0 <= i < |sibs| ensures s2[i] == SwitchedSiblings(sibs, b)[i] {
        if i < FirstThrow(sibs) {
          assert s2[i] == Lit(Lit(sibs[i], a), b);
        }
      }
    }
    ReplaceTwice(cs, q, s1, s2);
  }

  /** Bulbs that already show the theme make lighting them a no-op. */
  lemma BulbsShown(cs: seq<Node>, q: Path, t: Theme)
    requires ValidListPath(cs, q)
    requires forall i :: 0 <= i < |ChildrenAt(cs, q)| ==> BulbShows(ChildrenAt(cs, q)[i], t)
    ensures LitAt(cs, q, t) == cs
  {
    var sibs := ChildrenAt(cs, q);
    assert SwitchedSiblings(sibs, t) == sibs;
    ReplaceWithSame(cs, q);
  }

  /** After a click on a lamp the lamp and its siblings are still there, under the same names. */
  lemma ClickKeepsSiblings(cs: seq<Node>, q: Path, t: Theme)
    requires ValidListPath(cs, q)
    ensures ValidListPath(ThemedChildren(LitAt(cs, q, t), t), q)
    ensures SameNames(ChildrenAt(ThemedChildren(LitAt(cs, q, t), t), q), ChildrenAt(cs, q))
  {
    var sibs := ChildrenAt(cs, q);
    var lit := LitAt(cs, q, t);
    SwitchedKeepsShape(sibs, t);
    if q == [] {
      ThemeKeepsShape(lit, t);
    } else {
      ThemeKeepsNested(lit, q, t);
    }
  }

  /** A click on a lamp that does not throw writes the theme of the pre-click flag, which is
      the theme of the negation of the flag it leaves: the written values are a function of
      the new flag alone. */
  lemma {:induction false} ClickShowsPreClickTheme(w: World, clicked: Path)
    requires ValidPath(w.scene.children, clicked)
    requires IsLamp(NodeAt(w.scene.children, clicked))
    requires !LampClick(w, clicked).threw
    ensures var r := LampClick(w, clicked).world;
      && r.lightIsOn == !w.lightIsOn
      && ValidPath(r.scene.children, clicked)
      && IsLamp(NodeAt(r.scene.children, clicked))
      && ShowsThemeAt(r.scene, clicked, ThemeFor(!r.lightIsOn))
  {
    var cs := w.scene.children;
    var q := Parent(clicked);
    var t := ThemeFor(w.lightIsOn);
    var lit := LitAt(cs, q, t);
    var r := LampClick(w, clicked).world;
    ClickKeepsSiblings(cs, q, t);
    assert r.scene.children == ThemedChildren(lit, t);
    var sibs := ChildrenAt(cs, q);
    var after := ChildrenAt(r.scene.children, q);
    assert ChildrenAt(lit, q) == SwitchedSiblings(sibs, t);
    assert forall i :: 0 <= i < |after| ==> BulbShows(after[i], t) by {
      if q == [] {
        assert after == ThemedChildren(SwitchedSiblings(sibs, t), t);
      } else {
        ThemeKeepsNested(lit, q, t);
      }
    }
  }

  /** Two clicks on the same lamp, from a state that shows the theme of the negated flag,
      restore the flag and every written value: the scene comes back unchanged. */
  lemma {:induction false} DoubleClickRestores(w: World, clicked: Path)
    requires ValidPath(w.scene.children, clicked)
    requires IsLamp(NodeAt(w.scene.children, clicked))
    requires ShowsThemeAt(w.scene, clicked, ThemeFor(!w.lightIsOn))
    requires !LampClick(w, clicked).threw
    ensures ValidPath(LampClick(w, clicked).world.scene.children, clicked)
    ensures LampClick(LampClick(w, clicked).world, clicked) == ClickOutcome(w, false)
  {
    var c0 := w.scene.children;
    var q := Parent(clicked);
    var t1, t2 := ThemeFor(w.lightIsOn), ThemeFor(!w.lightIsOn);
    ClickShowsPreClickTheme(w, clicked);
    var w1 := LampClick(w, clicked).world;
    var c1 := w1.scene.children;
    assert c1 == ThemedChildren(LitAt(c0, q, t1), t1);
    assert ThemeFor(w1.lightIsOn) == t2;
    // the second click does not throw either
    ClickKeepsSiblings(c0, q, t1);
    FirstThrowByNames(ChildrenAt(c1, q), ChildrenAt(c0, q));
    // c2 == c0
    BulbsTwice(c0, q, t1, t2);
    ThemeAndBulbsCommute(LitAt(c0, q, t1), q, t1, t2);
    ThemeTwice(LitAt(LitAt(c0, q, t1), q, t2), t1, t2);
    BulbsShown(c0, q, t2);
    ThemeShown(c0, t2);
    var c2 := ThemedChildren(LitAt(c1, q, t2), t2);
    calc {
      c2;
      ThemedChildren(ThemedChildren(LitAt(LitAt(c0, q, t1), q, t2), t1), t2);
      ThemedChildren(LitAt(LitAt(c0, q, t1), q, t2), t2);
      ThemedChildren(LitAt(c0, q, t2), t2);
      c0;
    }
  }

  /** After one click on a lamp that does not throw, from any state, the next two clicks
      on the same lamp bring back the state that first click left, and do not throw:
      from then on the scene alternates between two states. From a state no click has
      written, such as the initial scene, the first click is not undone by the second (see
      `ShadowRadiusAfterClick`). */
  lemma ClicksAlternateAfterFirst(w: World, clicked: Path)
    requires ValidPath(w.scene.children, clicked)
    requires IsLamp(NodeAt(w.scene.children, clicked))
    requires !LampClick(w, clicked).threw
    ensures var w1 := LampClick(w, clicked).world;
      && ValidPath(w1.scene.children, clicked)
      && ValidPath(LampClick(w1, clicked).world.scene.children, clicked)
      && LampClick(LampClick(w1, clicked).world, clicked) == ClickOutcome(w1, false)
  {
    ClickShowsPreClickTheme(w, clicked);
    var w1 := LampClick(w, clicked).world;
    var cs := w.scene.children;
    var q := Parent(clicked);
    ClickKeepsSiblings(cs, q, ThemeFor(w.lightIsOn));
    FirstThrowByNames(ChildrenAt(w1.scene.children, q), ChildrenAt(cs, q));
    DoubleClickRestores(w1, clicked);
  }

  /** After a lamp click that does not throw, every top-level shadow light has blur radius
      20 or 10, so a radius no theme writes (the initial 8) is not seen again after such a
      click. */
  lemma ShadowRadiusAfterClick(w: World, clicked: Path)
    requires ValidPath(w.scene.children, clicked)
    requires IsLamp(NodeAt(w.scene.children, clicked))
    requires !LampClick(w, clicked).threw
    ensures var cs := LampClick(w, clicked).world.scene.children;
      forall i :: 0 <= i < |cs| && cs[i].kind.PointLight? && IsShadowLight(cs[i]) ==>
        cs[i].kind.shadowRadius == (if w.lightIsOn then 20.0 else 10.0)
  {
    ClickShowsPreClickTheme(w, clicked);
  }

  // ---------------------------------------------------------------------------
  // The handler, as the source writes it

  /** `updateLight`: intensity and colour chosen by the flag. */
  function UpdateLight(light: Node, isLightOn: bool, lowIntensity: real, highIntensity: real,
                       lowColor: int, highColor: int): (r: Node)
    ensures r == light.(kind := r.kind)
    ensures r.kind.PointLight? == light.kind.PointLight? && r.kind.AmbientLight? == light.kind.AmbientLight?
    ensures r.kind.PointLight? ==> r.kind.shadowRadius == light.kind.shadowRadius
    ensures r.kind.PointLight? || r.kind.AmbientLight? ==>
              && r.kind.intensity == (if isLightOn then lowIntensity else highIntensity)
              && r.kind.color == (if isLightOn then lowColor else highColor)
    ensures !light.kind.PointLight? && !light.kind.AmbientLight? ==> r == light
  {
    var intensity := if isLightOn then lowIntensity else highIntensity;
    var color := if isLightOn then lowColor else highColor;
    match light.kind
    case PointLight(_, _, radius) => light.(kind := PointLight(color, intensity, radius))
    case AmbientLight(_, _) => light.(kind := AmbientLight(color, intensity))
    case _ => light
  }

  /** `updateShadowLight`: blur radius, and a colour that overrides the one `updateLight` set. */
  function UpdateShadowLight(light: Node, isLightOn: bool): (r: Node)
    ensures r == light.(kind := r.kind) && r.kind.PointLight? == light.kind.PointLight?
    ensures light.kind.PointLight? ==>
              && r.kind.intensity == light.kind.intensity
              && r.kind.color == ThemeFor(isLightOn).shadowColor
              && r.kind.shadowRadius == ThemeFor(isLightOn).shadowRadius
    ensures !light.kind.PointLight? ==> r == light
  {
    match light.kind
    case PointLight(_, intensity, _) =>
      light.(kind := PointLight(if isLightOn then 0x252526 else 0xf7e3c1, intensity, if isLightOn then 20.0 else 10.0))
    case _ => light
  }

  /** `updateLightMaterial`: the bulb's emissive colour and intensity. */
  function UpdateLightMaterial(material: Material, isLightOn: bool): (r: Material)
    ensures r == Material(ThemeFor(isLightOn).bulbEmissive, ThemeFor(isLightOn).bulbIntensity)
    ensures r.emissiveIntensity == (if isLightOn then 1.0 else 17.0)
  {
    if isLightOn then Material(Rgb(0.1, 0.05, 0.0), 1.0)
    else Material(Rgb(1.0, 0.573, 0.0), 17.0)
  }

  /** `toggleTheme`: every top-level point and ambient light, then the background, from the flag. */
  method ToggleTheme(scene: Scene, state: LightState)
    modifies scene
    ensures scene.children == ThemedChildren(old(scene.children), ThemeFor(state.lightIsOn))
    ensures scene.background == Some(ThemeFor(state.lightIsOn).background)
  {
    ghost var t := ThemeFor(state.lightIsOn);
    var i := 0;
    while i < |scene.children|
      invariant 0 <= i <= |scene.children| == |old(scene.children)|
      invariant forall k :: 0 <= k < i ==> scene.children[k] == Themed(old(scene.children)[k], t)
      invariant forall k :: i <= k < |scene.children| ==> scene.children[k] == old(scene.children)[k]
    {
      var child := scene.children[i];
      match child.kind {
        case PointLight(_, _, _) =>
          child := UpdateLight(child, state.lightIsOn, 0.1, 2.0, 0xc1d5f7, 0xf7e3c1);
          if ContainsCI(child.name, "shadowLight") {
            child := UpdateShadowLight(child, state.lightIsOn);
          }
        case AmbientLight(_, _) =>
          child := UpdateLight(child, state.lightIsOn, 0.1, 1.3, 0xc1d5f7, 0xffffff);
        case _ =>
      }
      scene.children := scene.children[i := child];
      i := i + 1;
    }
    scene.background := Some(if state.lightIsOn then 0x4e5257 else 0xffffff);
  }

  /** `switchOffTheLight`: every sibling of the clicked node (itself included) named like a
      bulb gets the bulb material of the flag. A sibling without a material throws, which
      ends the loop with the earlier siblings already updated; `threw` reports it. */
  method SwitchOffTheLight(clicked: Path, scene: Scene, state: LightState) returns (threw: bool)
    requires ValidPath(scene.children, clicked)
    modifies scene
    ensures threw == (FirstThrow(ChildrenAt(old(scene.children), Parent(clicked))) < |ChildrenAt(old(scene.children), Parent(clicked))|)
    ensures scene.children == LitAt(old(scene.children), Parent(clicked), ThemeFor(state.lightIsOn))
    ensures scene.background == old(scene.background)
  {
    ghost var t := ThemeFor(state.lightIsOn);
    var parent := clicked[..|clicked| - 1];
    var siblings := ChildrenAt(scene.children, parent);
    ghost var sibs := siblings;
    threw := false;
    var i := 0;
    while i < |siblings|
      invariant 0 <= i <= |siblings| == |sibs|
      invariant forall k :: 0 <= k < i ==> !BulbThrows(sibs[k]) && siblings[k] == Lit(sibs[k], t)
      invariant forall k :: i <= k < |siblings| ==> siblings[k] == sibs[k]
      invariant !threw
    {
      var child := siblings[i];
      if ContainsCI(child.name, "lampe_2") {
        match child.kind {
          case Mesh(material) =>
            siblings := siblings[i := child.(kind := Mesh(UpdateLightMaterial(material, state.lightIsOn)))];
          case _ =>
            threw := true;
            break;
        }
      }
      i := i + 1;
    }
    assert threw <==> FirstThrow(sibs) < |sibs|;
    assert threw ==> FirstThrow(sibs) == i;
    assert !threw ==> i == FirstThrow(sibs);
    assert siblings == SwitchedSiblings(sibs, t);
    scene.children := ReplaceChildrenAt(scene.children, parent, siblings);
  }

  /** `handleLampClick`: on a lamp, the bulbs, then the theme, then the flag flips once;
      all three read the flag as it was before the click. Any other node changes nothing. */
  method HandleLampClick(clicked: Path, scene: Scene, state: LightState) returns (threw: bool)
    requires ValidPath(scene.children, clicked)
    modifies scene, state
    ensures LampClick(old(World(scene.Value(), state.lightIsOn)), clicked)
         == ClickOutcome(World(scene.Value(), state.lightIsOn), threw)
    ensures !IsLamp(old(NodeAt(scene.children, clicked))) ==>
              !threw && scene.Value() == old(scene.Value()) && state.lightIsOn == old(state.lightIsOn)
  {
    threw := false;
    var node := NodeAt(scene.children, clicked);
    if ContainsCI(node.name, "lampe") {
      threw := SwitchOffTheLight(clicked, scene, state);
      if !threw {
        ToggleTheme(scene, state);
        state.lightIsOn := !state.lightIsOn;
      }
    }
  }
}
