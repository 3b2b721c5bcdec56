/**
 * The initial scene (`createScene` in src/three/sceneSetUp.js): a white background,
 * an ambient light, a warm point light that lights the models, and the warm point
 * light named "shadowLight", the only light that casts shadows.
 */
module SceneSetUp {
  import opened Names
  import opened SceneGraph
  import opened LightingHandler

  /** A point light's shadow radius before anything sets it. */
  const DefaultShadowRadius: real := 1.0

  /** `createScene` */
  method CreateScene() returns (scene: Scene)
    ensures fresh(scene)
    ensures scene.background == Some(0xffffff)
    ensures scene.children == InitialLights()
  {
    scene := new Scene();
    scene.background := Some(0xffffff);

    var ambientLight := NewNode(AmbientLight(0xffffff, 1.3));
    scene.Add(ambientLight);

    var pointLight := NewNode(PointLight(0xf7e3c1, 2.0, DefaultShadowRadius));
    pointLight := pointLight.(position := Vec3(-0.6, 0.2, 0.8));
    scene.Add(pointLight);

    var shadowLight := NewNode(PointLight(0xf7e3c1, 2.0, DefaultShadowRadius));
    shadowLight := shadowLight.(position := Vec3(0.5, 0.6, -0.4));
    shadowLight := shadowLight.(castShadow := true);
    shadowLight := shadowLight.(kind := shadowLight.kind.(shadowRadius := 8.0));
    shadowLight := shadowLight.(name := "shadowLight");
    scene.Add(shadowLight);
  }

  /** The lights `createScene` builds, in order. */
  function InitialLights(): seq<Node>
  {
    [ NewNode(AmbientLight(0xffffff, 1.3)),
      NewNode(PointLight(0xf7e3c1, 2.0, DefaultShadowRadius)).(position := Vec3(-0.6, 0.2, 0.8)),
      NewNode(PointLight(0xf7e3c1, 2.0, 8.0))
        .(name := "shadowLight", position := Vec3(0.5, 0.6, -0.4), castShadow := true) ]
  }

  /** Of the initial lights exactly the third is found by the name "shadowLight", and it
      is the only one that casts a shadow. */
  lemma OnlyShadowLightCastsShadow()
    ensures forall i :: 0 <= i < 3 ==>
      (IsShadowLight(InitialLights()[i]) <==> i == 2) && (InitialLights()[i].castShadow <==> i == 2)
  {
    var ls := InitialLights();
    assert MatchAt(ls[2].name, "shadowLight", 0);
    assert !ContainsCI(ls[0].name, "shadowLight") && !ContainsCI(ls[1].name, "shadowLight");
  }

  /** The initial scene already shows the theme a click writes when the pre-click flag is
      false, except that the shadow light's radius is 8 where that theme writes 10; the
      theme touches nothing else. */
  lemma InitialSceneIsOffTheme()
    ensures var ls := InitialLights();
      && ThemedChildren(ls, ThemeFor(false))
           == ls[2 := ls[2].(kind := ls[2].kind.(shadowRadius := 10.0))]
      && Some(ThemeFor(false).background) == Some(0xffffff)
  {
    var ls := InitialLights();
    OnlyShadowLightCastsShadow();
    var r := ThemedChildren(ls, ThemeFor(false));
    assert r[0] == ls[0];
    assert r[1] == ls[1];
  }
}
