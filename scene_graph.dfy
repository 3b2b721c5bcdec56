/**
 * The scene graph the scene code reads and writes: nodes with a name, a kind, a local
 * transform, shadow flags and owned children; the scene (background and top-level
 * children), the camera's look-at target and the frames handed to the renderer.
 *
 * A parent exclusively owns its children, so a node is a value and a subtree is a
 * tree of values; the objects whose fields the scene code reassigns are classes.
 */
module SceneGraph {

  datatype Option<T> = None | Some(value: T)

  /** `Math.PI` as JavaScript prints it; no proof depends on its digits. */
  const Pi: real := 3.141592653589793

  datatype Vec3 = Vec3(x: real, y: real, z: real)

  function Sub(a: Vec3, b: Vec3): Vec3
  {
    Vec3(a.x - b.x, a.y - b.y, a.z - b.z)
  }

  /** A colour given by its red, green and blue components (`Color.setRGB`). */
  datatype Rgb = Rgb(r: real, g: real, b: real)

  /** The part of a mesh material the scene code writes. */
  datatype Material = Material(emissive: Rgb, emissiveIntensity: real)

  /** What a node is, as far as the scene code distinguishes: colours are hex values. */
  datatype Kind =
    | Object3D   // groups, pivots and every other node the scene code only moves
    | Mesh(material: Material)
    | PointLight(color: int, intensity: real, shadowRadius: real)
    | AmbientLight(color: int, intensity: real)

  datatype Node = Node(
    name: string,
    kind: Kind,
    position: Vec3,
    rotation: Vec3,
    castShadow: bool,
    receiveShadow: bool,
    isLetter: Option<bool>,
    children: seq<Node>)

  /** A freshly constructed node: empty name, at the origin, no rotation, no flags, no children. */
  function NewNode(kind: Kind): Node
  {
    Node("", kind, Vec3(0.0, 0.0, 0.0), Vec3(0.0, 0.0, 0.0), false, false, None, [])
  }

  /** A path of child indices, starting in a list of top-level nodes. */
  type Path = seq<nat>

  /** `q` leads, through the lists of children, to a node (or, when empty, to the list itself). */
  predicate ValidListPath(cs: seq<Node>, q: Path)
    decreases q
  {
    q == [] || (q[0] < |cs| && ValidListPath(cs[q[0]].children, q[1..]))
  }

  /** The children of the node `q` leads to; the list itself when `q` is empty. */
  function ChildrenAt(cs: seq<Node>, q: Path): seq<Node>
    requires ValidListPath(cs, q)
    decreases q
  {
    if q == [] then cs else ChildrenAt(cs[q[0]].children, q[1..])
  }

  /** The list in which the children of the node `q` leads to are replaced by `kids`. */
  function ReplaceChildrenAt(cs: seq<Node>, q: Path, kids: seq<Node>): (r: seq<Node>)
    requires ValidListPath(cs, q)
    ensures ValidListPath(r, q) && ChildrenAt(r, q) == kids
    ensures q != [] ==> |r| == |cs| && forall i :: 0 <= i < |cs| && i != q[0] ==> r[i] == cs[i]
    decreases q
  {
    if q == [] then kids
    else cs[q[0] := cs[q[0]].(children := ReplaceChildrenAt(cs[q[0]].children, q[1..], kids))]
  }

  /** Putting back what is there changes nothing. */
  lemma {:induction false} ReplaceWithSame(cs: seq<Node>, q: Path)
    requires ValidListPath(cs, q)
    ensures ReplaceChildrenAt(cs, q, ChildrenAt(cs, q)) == cs
    decreases q
  {
    if q != [] {
      ReplaceWithSame(cs[q[0]].children, q[1..]);
    }
  }

  /** A second replacement at the same place overrides the first. */
  lemma {:induction false} ReplaceTwice(cs: seq<Node>, q: Path, k1: seq<Node>, k2: seq<Node>)
    requires ValidListPath(cs, q)
    ensures ReplaceChildrenAt(ReplaceChildrenAt(cs, q, k1), q, k2) == ReplaceChildrenAt(cs, q, k2)
    decreases q
  {
    if q != [] {
      ReplaceTwice(cs[q[0]].children, q[1..], k1, k2);
    }
  }

  /** The path of the parent's list of children. */
  function Parent(p: Path): Path
    requires |p| > 0
  {
    p[..|p| - 1]
  }

  /** `p` leads to a node: its parent path is valid and its last index is in range. */
  predicate ValidPath(cs: seq<Node>, p: Path)
  {
    |p| > 0 && ValidListPath(cs, Parent(p)) && p[|p| - 1] < |ChildrenAt(cs, Parent(p))|
  }

  function NodeAt(cs: seq<Node>, p: Path): Node
    requires ValidPath(cs, p)
  {
    ChildrenAt(cs, Parent(p))[p[|p| - 1]]
  }

  /** What the renderer sees of a scene. */
  datatype SceneValue = SceneValue(background: Option<int>, children: seq<Node>)

  /** `THREE.Scene`: a background colour (null until set) and the top-level children. */
  class Scene {
    var background: Option<int>
    var children: seq<Node>

    constructor ()
      ensures background == None && children == []
    {
      background := None;
      children := [];
    }

    function Value(): SceneValue
      reads this
    {
      SceneValue(background, children)
    }

    /** `scene.add(node)` for a node that has no parent yet. */
    method Add(node: Node)
      modifies this
      ensures children == old(children) + [node]
      ensures background == old(background)
    {
      children := children + [node];
    }
  }

  /** The camera, reduced to the point it was last told to look at. */
  class Camera {
    var target: Vec3

    constructor (target: Vec3)
      ensures this.target == target
    {
      this.target := target;
    }

    /** `camera.lookAt(x, y, z)` */
    method LookAt(x: real, y: real, z: real)
      modifies this
      ensures target == Vec3(x, y, z)
    {
      target := Vec3(x, y, z);
    }
  }

  /** One call of `renderer.render(scene, camera)`: what was drawn. */
  datatype Frame = Frame(scene: SceneValue, cameraTarget: Vec3)

  /** The renderer, reduced to the sequence of frames it was asked to draw. */
  class Renderer {
    var frames: seq<Frame>

    constructor ()
      ensures frames == []
    {
      frames := [];
    }

    method Render(scene: Scene, camera: Camera)
      modifies this
      ensures frames == old(frames) + [Frame(scene.Value(), camera.target)]
    {
      frames := frames + [Frame(scene.Value(), camera.target)];
    }
  }
}
