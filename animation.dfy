/**
 * The frame loop (src/three/animation.js).
 *
 * Each frame computes the time since the previous frame in seconds, remembers the
 * new timestamp, draws the scene once, and then turns every top-level node whose
 * first child is named like "vapeur" about y, at half a turn per second times pi,
 * that is one full turn every four seconds.
 */
module Animation {
  import opened Names
  import opened SceneGraph

  /** Seconds between two timestamps given in milliseconds. */
  function DeltaTime(timestamp: real, previousTime: real): (dt: real)
    ensures dt * 1000.0 == timestamp - previousTime
  {
    (timestamp - previousTime) / 1000.0
  }

  /** Only the first child of a top-level node is looked at. */
  predicate Rotates(pivot: Node)
  {
    |pivot.children| > 0 && ContainsCI(pivot.children[0].name, "vapeur")
  }

  /** The angle a rotating pivot turns by in `dt` seconds. */
  function Turn(dt: real): real
  {
    Pi * dt * 0.5
  }

  function Spun(pivot: Node, dt: real): Node
  {
    if Rotates(pivot) then pivot.(rotation := pivot.rotation.(y := pivot.rotation.y + Turn(dt)))
    else pivot
  }

  /** The top-level children after the rotation pass of one frame. */
  function TickChildren(cs: seq<Node>, dt: real): (r: seq<Node>)
    ensures |r| == |cs|
    ensures forall i :: 0 <= i < |cs| ==>
      && r[i] == cs[i].(rotation := r[i].rotation)
      && r[i].rotation.x == cs[i].rotation.x && r[i].rotation.z == cs[i].rotation.z
      && r[i].rotation.y == cs[i].rotation.y + (if Rotates(cs[i]) then Turn(dt) else 0.0)
  {
    seq(|cs|, i requires 0 <= i < |cs| => Spun(cs[i], dt))
  }

  /** The state of the loop: the timestamp of the previous frame. */
  class Animator {
    var previousTime: real

    /** The loop once its first two frames have run. `animate` starts with a previous time
        of 0 and calls `updateAnimation` once without a timestamp, which leaves the previous
        time undefined; the first real frame therefore computes a NaN delta time as well and
        records its own timestamp. The frames modelled are the ones after it. */
    constructor (firstTimestamp: real)
      ensures previousTime == firstTimestamp
    {
      previousTime := firstTimestamp;
    }

    /** `updateAnimation(timestamp)`: one frame. The renderer is given the scene exactly
        once, before any rotation changes; afterwards only rotations have changed and no
        top-level child was added or removed. */
    method UpdateAnimation(timestamp: real, scene: Scene, camera: Camera, renderer: Renderer)
      modifies this, scene, renderer
      ensures previousTime == timestamp
      ensures renderer.frames == old(renderer.frames) + [Frame(old(scene.Value()), camera.target)]
      ensures scene.children == TickChildren(old(scene.children), DeltaTime(timestamp, old(previousTime)))
      ensures scene.background == old(scene.background)
    {
      var deltaTime := (timestamp - previousTime) / 1000.0;
      previousTime := timestamp;

      renderer.Render(scene, camera);

      var i := 0;
      while i < |scene.children|
        invariant 0 <= i <= |scene.children| == |old(scene.children)|
        invariant forall k :: 0 <= k < i ==> scene.children[k] == Spun(old(scene.children)[k], deltaTime)
        invariant forall k :: i <= k < |scene.children| ==> scene.children[k] == old(scene.children)[k]
        invariant scene.background == old(scene.background) && previousTime == timestamp
        invariant renderer.frames == old(renderer.frames) + [Frame(old(scene.Value()), camera.target)]
      {
        var pivot := scene.children[i];
        if |pivot.children| > 0 && ContainsCI(pivot.children[0].name, "vapeur") {
          pivot := pivot.(rotation := pivot.rotation.(y := pivot.rotation.y + Pi * deltaTime * 0.5));
        }
        scene.children := scene.children[i := pivot];
        i := i + 1;
      }
    }
  }

  /** The top-level children after one frame per timestamp, starting from `previousTime`. */
  function RunTicks(cs: seq<Node>, previousTime: real, timestamps: seq<real>): (r: seq<Node>)
    ensures |r| == |cs|
    decreases |timestamps|
  {
    if timestamps == [] then cs
    else RunTicks(TickChildren(cs, DeltaTime(timestamps[0], previousTime)), timestamps[0], timestamps[1..])
  }

  /** Over consecutive frames the turns add up to the turn for the whole elapsed time,
      however the time is split into frames; no child is added, removed or otherwise changed. */
  lemma {:induction false} RotationTelescopes(cs: seq<Node>, previousTime: real, timestamps: seq<real>, i: nat)
    requires timestamps != [] && i < |cs|
    ensures var r := RunTicks(cs, previousTime, timestamps);
      && |r| == |cs|
      && r[i] == cs[i].(rotation := r[i].rotation)
      && r[i].rotation.y == cs[i].rotation.y +
           (if Rotates(cs[i]) then Turn(DeltaTime(timestamps[|timestamps| - 1], previousTime)) else 0.0)
    decreases |timestamps|
  {
    var t0 := timestamps[0];
    var cs1 := TickChildren(cs, DeltaTime(t0, previousTime));
    assert Rotates(cs1[i]) == Rotates(cs[i]);
    if |timestamps| > 1 {
      RotationTelescopes(cs1, t0, timestamps[1..], i);
      var last := timestamps[|timestamps| - 1];
      assert timestamps[1..][|timestamps[1..]| - 1] == last;
      if Rotates(cs[i]) {
        TurnsAdd(DeltaTime(t0, previousTime), DeltaTime(last, t0));
        assert DeltaTime(t0, previousTime) + DeltaTime(last, t0) == DeltaTime(last, previousTime);
      }
    }
  }

  lemma TurnsAdd(a: real, b: real)
    ensures Turn(a) + Turn(b) == Turn(a + b)
  {
  }

  /** Four seconds of frames, in any number of steps, turn a "vapeur" pivot by exactly 2 pi. */
  lemma FullTurnInFourSeconds(cs: seq<Node>, previousTime: real, timestamps: seq<real>, i: nat)
    requires timestamps != [] && i < |cs| && Rotates(cs[i])
    requires timestamps[|timestamps| - 1] - previousTime == 4000.0
    ensures RunTicks(cs, previousTime, timestamps)[i].rotation.y == cs[i].rotation.y + 2.0 * Pi
  {
    RotationTelescopes(cs, previousTime, timestamps, i);
    assert DeltaTime(timestamps[|timestamps| - 1], previousTime) == 4.0;
  }
}
