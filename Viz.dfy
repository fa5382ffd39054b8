/**
  The slice of the Vizard scene graph that the manipulation code relies on.

  A node has a list of parents (a node may transiently hang below several;
  the first one is the frame its parent-relative transform is measured in,
  and a node with no parents sits directly below the root, `World`), a
  transform relative to that frame ("local", the engine's ABS_PARENT mode)
  and a transform in world coordinates ("global", ABS_GLOBAL).

  Rotation math is the engine's and stays uninterpreted: it enters as a
  `Geometry` value of functions. Scale composes componentwise with the frame
  parent's world scale. The engine's propagation of a transform change to
  the descendants of the node addressed is not part of this model: every
  engine call below changes the entry of the node it addresses only.
*/
module Viz {

  /** A scene-graph node: the root `World` or a group node with a handle. */
  datatype Node = World | Group(id: nat)

  /** A position, an Euler triple or a scale triple. */
  datatype Vec3 = Vec3(x: real, y: real, z: real)

  const Origin: Vec3 := Vec3(0.0, 0.0, 0.0)
  const UnitScale: Vec3 := Vec3(1.0, 1.0, 1.0)

  /** Componentwise product, the way nested scales compose. */
  function Mul(a: Vec3, b: Vec3): Vec3 {
    Vec3(a.x * b.x, a.y * b.y, a.z * b.z)
  }

  datatype Transform = Transform(pos: Vec3, euler: Vec3, scale: Vec3)

  const Identity: Transform := Transform(Origin, Origin, UnitScale)

  /** The frame a local transform is measured in: the root, or a parent with its world transform. */
  datatype Frame = Root | Below(parent: Transform)

  /**
    The engine's rotation math, left uninterpreted. Each conversion takes
    the world transform of the frame's node:
    - posToGlobal / posToLocal: a point from the frame's coordinates to world
      coordinates and back;
    - eulerToGlobal / eulerToLocal: the same for an orientation;
    - lookAt(from, to): the orientation that turns a node at `from` toward `to`;
    - axis(euler, k): the k-th axis of an orientation (what getNormal reads).
  */
  datatype Geometry = Geometry(
    posToGlobal: (Transform, Vec3) -> Vec3,
    posToLocal: (Transform, Vec3) -> Vec3,
    eulerToGlobal: (Transform, Vec3) -> Vec3,
    eulerToLocal: (Transform, Vec3) -> Vec3,
    lookAt: (Vec3, Vec3) -> Vec3,
    axis: (Vec3, nat) -> Vec3)
  {
    /** A world-coordinate point, in the coordinates of `f`. */
    function PosIn(f: Frame, p: Vec3): Vec3 {
      match f
      case Root => p
      case Below(t) => posToLocal(t, p)
    }

    /** A world orientation, relative to `f`. */
    function EulerIn(f: Frame, e: Vec3): Vec3 {
      match f
      case Root => e
      case Below(t) => eulerToLocal(t, e)
    }

    /** A scale given relative to `f`, in world terms. */
    function ScaleToGlobal(f: Frame, s: Vec3): Vec3 {
      match f
      case Root => s
      case Below(t) => Mul(t.scale, s)
    }

    /** A transform given relative to `f`, in world terms. */
    function ToGlobal(f: Frame, t: Transform): Transform {
      match f
      case Root => t
      case Below(p) => Transform(posToGlobal(p, t.pos), eulerToGlobal(p, t.euler), ScaleToGlobal(f, t.scale))
    }
  }

  /** What the engine keeps per node. */
  datatype NodeState = NodeState(parents: seq<Node>, global: Transform, local: Transform)

  /** The parent list that `setParent(p)` leaves: none below the root. */
  function ParentList(p: Node): (ps: seq<Node>)
    ensures p == World <==> ps == []
    ensures ps != [] ==> ps == [p]
  {
    if p == World then [] else [p]
  }

  /** The node a parent list places its node in: the first parent, else the root. */
  function FirstParent(ps: seq<Node>): Node {
    if ps == [] then World else ps[0]
  }

  /** `setParent(p)` makes `p` the frame parent. */
  lemma FirstParentOfParentList(p: Node)
    ensures FirstParent(ParentList(p)) == p
  {
  }

  /** The frame that hanging a node below `p` puts it in, given the nodes of a scene. */
  function FrameIn(nodes: map<Node, NodeState>, p: Node): Frame {
    if p in nodes && p != World then Below(nodes[p].global) else Root
  }

  /** The root is a node without parents; every parent is another node, never the root. */
  ghost predicate GraphOk(nodes: map<Node, NodeState>) {
    && World in nodes && nodes[World].parents == []
    && (forall n, i :: n in nodes && 0 <= i < |nodes[n].parents| ==>
      nodes[n].parents[i] in nodes && nodes[n].parents[i] != World && nodes[n].parents[i] != n)
  }

  /** A node with at most one parent has the parent list `setParent` gives for its frame parent. */
  lemma ParentListOfFirstParent(nodes: map<Node, NodeState>, n: Node)
    requires GraphOk(nodes) && n in nodes && |nodes[n].parents| <= 1
    ensures ParentList(FirstParent(nodes[n].parents)) == nodes[n].parents
  {
    if |nodes[n].parents| == 1 {
      assert nodes[n].parents == [nodes[n].parents[0]];
    }
  }

  /** The nodes after `n.setScale(s)`: the scale is relative to the frame parent. */
  function Rescaled(g: Geometry, nodes: map<Node, NodeState>, n: Node, s: Vec3): map<Node, NodeState>
    requires n in nodes
  {
    var st := nodes[n];
    nodes[n := st.(
      global := st.global.(scale := g.ScaleToGlobal(FrameIn(nodes, FirstParent(st.parents)), s)),
      local := st.local.(scale := s))]
  }

  /** The nodes after `n.lookAt(point, mode=viz.ABS_GLOBAL)`: `n` is turned toward a world point. */
  function Faced(g: Geometry, nodes: map<Node, NodeState>, n: Node, point: Vec3): map<Node, NodeState>
    requires n in nodes
  {
    var st := nodes[n];
    var e := g.lookAt(st.global.pos, point);
    nodes[n := st.(
      global := st.global.(euler := e),
      local := st.local.(euler := g.EulerIn(FrameIn(nodes, FirstParent(st.parents)), e)))]
  }

  class Scene {
    const geometry: Geometry
    var nodes: map<Node, NodeState>
    var nextId: nat

    /** The graph is well formed and every handle given out so far is below `nextId`. */
    ghost predicate Valid()
      reads this
    {
      GraphOk(nodes) && (forall n :: n in nodes && n.Group? ==> n.id < nextId)
    }

    /** The node whose frame `n`'s local transform is measured in. */
    function FrameParent(n: Node): Node
      reads this
      requires n in nodes
    {
      FirstParent(nodes[n].parents)
    }

    /** The frame that hanging a node below `p` puts it in. */
    function FrameOf(p: Node): Frame
      reads this
    {
      FrameIn(nodes, p)
    }

    /** The engine's world transform of `n` agrees with its local one. */
    ghost predicate Consistent(n: Node)
      reads this
      requires n in nodes
    {
      nodes[n].global == geometry.ToGlobal(FrameOf(FrameParent(n)), nodes[n].local)
    }

    /** A scene holding only the root. */
    constructor (geometry: Geometry)
      ensures Valid() && this.geometry == geometry
      ensures nodes == map[World := NodeState([], Identity, Identity)]
    {
      this.geometry := geometry;
      nodes := map[World := NodeState([], Identity, Identity)];
      nextId := 0;
    }

    /** `viz.addGroup()`: a fresh group at the origin, directly below the root. */
    method AddGroup() returns (n: Node)
      requires Valid()
      modifies this
      ensures Valid()
      ensures n.Group? && n !in old(nodes)
      ensures nodes == old(nodes)[n := NodeState([], Identity, Identity)]
    {
      n := Group(nextId);
      nodes := nodes[n := NodeState([], Identity, Identity)];
      nextId := nextId + 1;
    }

    /** `n.setParent(p)`: `p` becomes the only parent; the local transform is kept. */
    method SetParent(n: Node, p: Node)
      requires Valid() && n in nodes && p in nodes && n != World && p != n
      modifies this
      ensures Valid() && nextId == old(nextId)
      ensures nodes == old(nodes)[n := NodeState(
        ParentList(p), geometry.ToGlobal(old(FrameOf(p)), old(nodes[n].local)), old(nodes[n].local))]
    {
      var local := nodes[n].local;
      nodes := nodes[n := NodeState(ParentList(p), geometry.ToGlobal(FrameOf(p), local), local)];
    }

    /** `n.addParent(p)`: `p` is appended to the parents; the local transform is kept. */
    method AddParent(n: Node, p: Node)
      requires Valid() && n in nodes && p in nodes && n != World && p != World && p != n
      modifies this
      ensures Valid() && nextId == old(nextId)
      ensures nodes == old(nodes)[n := NodeState(
        old(nodes[n].parents) + [p],
        geometry.ToGlobal(old(FrameOf(FirstParent(nodes[n].parents + [p]))), old(nodes[n].local)),
        old(nodes[n].local))]
    {
      var parents := nodes[n].parents + [p];
      var local := nodes[n].local;
      nodes := nodes[n := NodeState(parents, geometry.ToGlobal(FrameOf(FirstParent(parents)), local), local)];
    }

    /** `n.setPosition(v, viz.ABS_GLOBAL)`. */
    method SetGlobalPosition(n: Node, v: Vec3)
      requires Valid() && n in nodes && n != World
      modifies this
      ensures Valid() && nextId == old(nextId)
      ensures nodes == old(nodes)[n := old(nodes[n]).(
        global := old(nodes[n].global).(pos := v),
        local := old(nodes[n].local).(pos := geometry.PosIn(old(FrameOf(FrameParent(n))), v)))]
    {
      var st := nodes[n];
      var frame := FrameOf(FrameParent(n));
      nodes := nodes[n := st.(global := st.global.(pos := v), local := st.local.(pos := geometry.PosIn(frame, v)))];
    }

    /** `n.setEuler(e, viz.ABS_GLOBAL)`. */
    method SetGlobalEuler(n: Node, e: Vec3)
      requires Valid() && n in nodes && n != World
      modifies this
      ensures Valid() && nextId == old(nextId)
      ensures nodes == old(nodes)[n := old(nodes[n]).(
        global := old(nodes[n].global).(euler := e),
        local := old(nodes[n].local).(euler := geometry.EulerIn(old(FrameOf(FrameParent(n))), e)))]
    {
      var st := nodes[n];
      var frame := FrameOf(FrameParent(n));
      nodes := nodes[n := st.(global := st.global.(euler := e), local := st.local.(euler := geometry.EulerIn(frame, e)))];
    }

    /** `n.setScale(s)`: the scale relative to the frame parent. */
    method SetScale(n: Node, s: Vec3)
      requires Valid() && n in nodes && n != World
      modifies this
      ensures Valid() && nextId == old(nextId)
      ensures nodes == Rescaled(geometry, old(nodes), n, s)
    {
      var st := nodes[n];
      var frame := FrameOf(FrameParent(n));
      nodes := nodes[n := st.(global := st.global.(scale := geometry.ScaleToGlobal(frame, s)), local := st.local.(scale := s))];
    }

    /** `n.lookAt(point, mode=viz.ABS_GLOBAL)`: turn `n` toward a world point. */
    method LookAt(n: Node, point: Vec3)
      requires Valid() && n in nodes && n != World
      modifies this
      ensures Valid() && nextId == old(nextId)
      ensures nodes == Faced(geometry, old(nodes), n, point)
    {
      SetGlobalEuler(n, geometry.lookAt(nodes[n].global.pos, point));
    }
  }
}
