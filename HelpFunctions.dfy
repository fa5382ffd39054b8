/**
  The scene-graph helpers of the manipulation code: the effective parent of
  a node, reparenting that keeps the world pose, reading a node's position or
  normal as if it hung below another node, and the distance of two points.
*/
module HelpFunctions {
  import opened Viz

  /** `get_parent`: the first parent, or the root when there is none. */
  function GetParent(s: Scene, obj: Node): (p: Node)
    reads s
    requires s.Valid() && obj in s.nodes
    ensures p in s.nodes && (obj != World ==> p != obj)
    ensures p == World <==> s.nodes[obj].parents == []
    ensures p == s.FrameParent(obj)
  {
    var parents := s.nodes[obj].parents;
    if |parents| == 0 then World else parents[0]
  }

  /**
    The nodes after `set_parent_without_changing_transform(obj, parent)`:
    `parent` is the only parent of `obj`, whose world position and
    orientation are kept and whose former WORLD scale is its new LOCAL scale.
  */
  function Reparent(g: Geometry, nodes: map<Node, NodeState>, obj: Node, parent: Node): map<Node, NodeState>
    requires obj in nodes
  {
    var frame := FrameIn(nodes, parent);
    var w := nodes[obj].global;
    nodes[obj := NodeState(
      ParentList(parent),
      w.(scale := g.ScaleToGlobal(frame, w.scale)),
      Transform(g.PosIn(frame, w.pos), g.EulerIn(frame, w.euler), w.scale))]
  }

  /** Reparenting keeps the graph well formed and drops no node. */
  lemma ReparentKeepsGraph(g: Geometry, nodes: map<Node, NodeState>, obj: Node, parent: Node)
    requires GraphOk(nodes) && obj in nodes && parent in nodes && obj != World && parent != obj
    ensures GraphOk(Reparent(g, nodes, obj, parent))
    ensures forall n :: n in nodes ==> n in Reparent(g, nodes, obj, parent)
  {
  }

  /**
    Reparenting touches `obj` only: it gets `parent` as its frame parent and
    keeps its world position and orientation.
  */
  lemma ReparentKeepsPose(g: Geometry, nodes: map<Node, NodeState>, obj: Node, parent: Node)
    requires obj in nodes
    ensures var r := Reparent(g, nodes, obj, parent);
      && r.Keys == nodes.Keys
      && r[obj].parents == ParentList(parent) && FirstParent(r[obj].parents) == parent
      && r[obj].global.pos == nodes[obj].global.pos && r[obj].global.euler == nodes[obj].global.euler
      && (forall n :: n in nodes && n != obj ==> r[n] == nodes[n])
  {
  }

  /** `set_parent_without_changing_transform`, as the engine calls it performs it. */
  method SetParentWithoutChangingTransform(s: Scene, obj: Node, parent: Node)
    requires s.Valid() && obj in s.nodes && parent in s.nodes && obj != World && parent != obj
    modifies s
    ensures s.Valid() && s.nextId == old(s.nextId)
    ensures s.nodes == Reparent(s.geometry, old(s.nodes), obj, parent)
    ensures GetParent(s, obj) == parent
    ensures s.nodes[obj].global.pos == old(s.nodes[obj].global.pos)
    ensures s.nodes[obj].global.euler == old(s.nodes[obj].global.euler)
    ensures (parent == World || old(s.nodes[parent].global.scale) == UnitScale) ==> s.nodes[obj].global == old(s.nodes[obj].global)
  {
    var pos := s.nodes[obj].global.pos;
    var euler := s.nodes[obj].global.euler;
    var scale := s.nodes[obj].global.scale;
    ghost var nodes0 := s.nodes;
    s.SetParent(obj, parent);
    ghost var st1 := s.nodes[obj];
    s.SetGlobalPosition(obj, pos);
    UpdateTwice(nodes0, obj, st1, s.nodes[obj]);
    ghost var st2 := s.nodes[obj];
    s.SetGlobalEuler(obj, euler);
    UpdateTwice(nodes0, obj, st2, s.nodes[obj]);
    ghost var st3 := s.nodes[obj];
    s.SetScale(obj, scale);
    UpdateTwice(nodes0, obj, st3, s.nodes[obj]);
  }

  lemma UpdateTwice<K, V>(m: map<K, V>, k: K, a: V, b: V)
    ensures m[k := a][k := b] == m[k := b]
  {
  }

  /**
    Reparenting keeps the node's world scale exactly when the new frame is the
    root or a parent at unit world scale (for a world scale with no zero
    component): the old world scale is written back as the LOCAL scale.
  */
  lemma {:induction false} ScaleKeptOnlyUnderUnitFrame(g: Geometry, nodes: map<Node, NodeState>, obj: Node, parent: Node)
    requires obj in nodes
    requires nodes[obj].global.scale.x != 0.0 && nodes[obj].global.scale.y != 0.0 && nodes[obj].global.scale.z != 0.0
    ensures Reparent(g, nodes, obj, parent)[obj].global.scale == nodes[obj].global.scale
      <==> (FrameIn(nodes, parent) == Root || nodes[parent].global.scale == UnitScale)
  {
    var v := nodes[obj].global.scale;
    if FrameIn(nodes, parent) != Root && Reparent(g, nodes, obj, parent)[obj].global.scale == v {
      var f := nodes[parent].global.scale;
      CancelFactor(f.x, v.x);
      CancelFactor(f.y, v.y);
      CancelFactor(f.z, v.z);
    }
  }

  lemma CancelFactor(a: real, b: real)
    requires b != 0.0 && a * b == b
    ensures a == 1.0
  {
    assert (a - 1.0) * b == 0.0;
  }

  /**
    The undo step shared by `get_local_position` and `get_local_normal`:
    hang `child` below the root, then add back each of the saved `parents`
    in order. The local transform of `child` is kept throughout.
  */
  method RestoreParents(s: Scene, child: Node, parents: seq<Node>)
    requires s.Valid() && child in s.nodes && child != World
    requires forall p :: p in parents ==> p in s.nodes && p != World && p != child
    modifies s
    ensures s.Valid() && s.nextId == old(s.nextId)
    ensures s.nodes == old(s.nodes)[child := NodeState(
      parents, s.geometry.ToGlobal(FrameIn(old(s.nodes), FirstParent(parents)), old(s.nodes[child].local)), old(s.nodes[child].local))]
  {
    ghost var nodes0 := s.nodes;
    ghost var local0 := s.nodes[child].local;
    s.SetParent(child, World);
    for i := 0 to |parents|
      invariant s.Valid() && s.nextId == old(s.nextId)
      invariant s.nodes == nodes0[child :=
        NodeState(parents[..i], s.geometry.ToGlobal(FrameIn(nodes0, FirstParent(parents[..i])), local0), local0)]
    {
      assert parents[..i + 1] == parents[..i] + [parents[i]];
      ghost var st := s.nodes[child];
      s.AddParent(child, parents[i]);
      UpdateTwice(nodes0, child, st, s.nodes[child]);
    }
    assert parents[..|parents|] == parents;
  }

  /**
    `get_local_position`: the world position of `semiChild` expressed in the
    frame of `semiParent`, read by hanging `semiChild` below `semiParent` for
    a moment and then putting its parents and world position back.
  */
  method GetLocalPosition(s: Scene, semiParent: Node, semiChild: Node) returns (position: Vec3)
    requires s.Valid() && semiParent in s.nodes && semiChild in s.nodes
    requires semiChild != World && semiParent != semiChild
    modifies s
    ensures s.Valid() && s.nextId == old(s.nextId)
    ensures position == s.geometry.PosIn(old(s.FrameOf(semiParent)), old(s.nodes[semiChild].global.pos))
    ensures s.nodes == old(s.nodes)[semiChild := old(s.nodes[semiChild]).(
      global := s.geometry.ToGlobal(old(s.FrameOf(s.FrameParent(semiChild))), old(s.nodes[semiChild].local))
        .(pos := old(s.nodes[semiChild].global.pos)),
      local := old(s.nodes[semiChild].local)
        .(pos := s.geometry.PosIn(old(s.FrameOf(s.FrameParent(semiChild))), old(s.nodes[semiChild].global.pos))))]
    ensures s.nodes[semiChild].parents == old(s.nodes[semiChild].parents)
    ensures s.nodes[semiChild].global.pos == old(s.nodes[semiChild].global.pos)
    ensures old(s.Consistent(semiChild)) ==> s.nodes[semiChild].global == old(s.nodes[semiChild].global)
  {
    var parents := s.nodes[semiChild].parents;
    var childPos := s.nodes[semiChild].global.pos;
    ghost var nodes0 := s.nodes;
    s.SetParent(semiChild, semiParent);
    ghost var st := s.nodes[semiChild];
    s.SetGlobalPosition(semiChild, childPos);
    UpdateTwice(nodes0, semiChild, st, s.nodes[semiChild]);
    position := s.nodes[semiChild].local.pos;
    st := s.nodes[semiChild];
    RestoreParents(s, semiChild, parents);
    UpdateTwice(nodes0, semiChild, st, s.nodes[semiChild]);
    st := s.nodes[semiChild];
    s.SetGlobalPosition(semiChild, childPos);
    UpdateTwice(nodes0, semiChild, st, s.nodes[semiChild]);
  }

  /**
    `get_local_normal`: the normal (axis 1) of `semiChild`'s world
    orientation expressed relative to `semiParent`, read the same way as
    `GetLocalPosition`; parents and world orientation are put back.
  */
  method GetLocalNormal(s: Scene, semiParent: Node, semiChild: Node) returns (normal: Vec3)
    requires s.Valid() && semiParent in s.nodes && semiChild in s.nodes
    requires semiChild != World && semiParent != semiChild
    modifies s
    ensures s.Valid() && s.nextId == old(s.nextId)
    ensures normal == s.geometry.axis(s.geometry.EulerIn(old(s.FrameOf(semiParent)), old(s.nodes[semiChild].global.euler)), 1)
    ensures s.nodes == old(s.nodes)[semiChild := old(s.nodes[semiChild]).(
      global := s.geometry.ToGlobal(old(s.FrameOf(s.FrameParent(semiChild))), old(s.nodes[semiChild].local))
        .(euler := old(s.nodes[semiChild].global.euler)),
      local := old(s.nodes[semiChild].local)
        .(euler := s.geometry.EulerIn(old(s.FrameOf(s.FrameParent(semiChild))), old(s.nodes[semiChild].global.euler))))]
    ensures s.nodes[semiChild].parents == old(s.nodes[semiChild].parents)
    ensures s.nodes[semiChild].global.euler == old(s.nodes[semiChild].global.euler)
    ensures old(s.Consistent(semiChild)) ==> s.nodes[semiChild].global == old(s.nodes[semiChild].global)
  {
    var parents := s.nodes[semiChild].parents;
    var childEuler := s.nodes[semiChild].global.euler;
    ghost var nodes0 := s.nodes;
    s.SetParent(semiChild, semiParent);
    ghost var st := s.nodes[semiChild];
    s.SetGlobalEuler(semiChild, childEuler);
    UpdateTwice(nodes0, semiChild, st, s.nodes[semiChild]);
    normal := s.geometry.axis(s.nodes[semiChild].local.euler, 1);
    st := s.nodes[semiChild];
    RestoreParents(s, semiChild, parents);
    UpdateTwice(nodes0, semiChild, st, s.nodes[semiChild]);
    st := s.nodes[semiChild];
    s.SetGlobalEuler(semiChild, childEuler);
    UpdateTwice(nodes0, semiChild, st, s.nodes[semiChild]);
  }

  /**
    The product of two reals. Squares are written through it so that the
    solver keeps `Sq(r)` as a term of its own rather than rewriting facts
    about `r * r`.
  */
  function Prod(a: real, b: real): real {
    a * b
  }

  function Sq(r: real): real {
    Prod(r, r)
  }

  /** What `math.sqrt` promises on non-negative arguments. */
  ghost predicate IsSqrt(sqrt: real -> real) {
    forall x: real :: 0.0 <= x ==> 0.0 <= sqrt(x) && Sq(sqrt(x)) == x
  }

  /** The sum of the squared coordinate differences. */
  function SquaredDistance(a: Vec3, b: Vec3): real {
    Sq(b.x - a.x) + Sq(b.y - a.y) + Sq(b.z - a.z)
  }

  lemma ProdPos(a: real, b: real)
    requires 0.0 < a && 0.0 < b
    ensures 0.0 < Prod(a, b)
  {
  }

  lemma {:induction false} SquarePos(r: real)
    requires r != 0.0
    ensures 0.0 < Sq(r)
  {
    if r > 0.0 {
      ProdPos(r, r);
    } else {
      ProdPos(-r, -r);
      assert Sq(-r) == Sq(r);
    }
  }

  lemma SquareNonneg(r: real)
    ensures 0.0 <= Sq(r)
  {
    if r != 0.0 {
      SquarePos(r);
    }
  }

  /** On non-negative reals, squaring keeps strict order. */
  lemma {:induction false} SquareLess(a: real, b: real)
    requires 0.0 <= a < b
    ensures Sq(a) < Sq(b)
  {
    ProdPos(b - a, b + a);
    assert Sq(b) - Sq(a) == Prod(b - a, b + a);
  }

  /** ... and so does taking roots. */
  lemma {:induction false} RootLess(a: real, b: real)
    requires 0.0 <= a && 0.0 <= b && Sq(a) < Sq(b)
    ensures a < b
  {
    if b < a {
      SquareLess(b, a);
      assert false;
    } else if b == a {
      assert false;
    }
  }

  /** `get_distance`: the Euclidean distance of two points; `sqrt` stands for `math.sqrt`. */
  function Distance(sqrt: real -> real, start: Vec3, end: Vec3): (d: real)
    requires IsSqrt(sqrt)
    ensures 0.0 <= d && Sq(d) == SquaredDistance(start, end)
  {
    var x := end.x - start.x;
    var y := end.y - start.y;
    var z := end.z - start.z;
    SquareNonneg(x);
    SquareNonneg(y);
    SquareNonneg(z);
    sqrt(Sq(x) + Sq(y) + Sq(z))
  }

  lemma DistanceSymmetric(sqrt: real -> real, a: Vec3, b: Vec3)
    requires IsSqrt(sqrt)
    ensures Distance(sqrt, a, b) == Distance(sqrt, b, a)
  {
    assert SquaredDistance(a, b) == SquaredDistance(b, a);
  }

  /** The distance vanishes exactly for identical points. */
  lemma {:induction false} DistanceZeroIffSame(sqrt: real -> real, a: Vec3, b: Vec3)
    requires IsSqrt(sqrt)
    ensures Distance(sqrt, a, b) == 0.0 <==> a == b
  {
    var d := Distance(sqrt, a, b);
    SquareNonneg(b.x - a.x);
    SquareNonneg(b.y - a.y);
    SquareNonneg(b.z - a.z);
    if a == b {
      if d != 0.0 {
        SquarePos(d);
        assert false;
      }
    } else {
      if b.x != a.x {
        SquarePos(b.x - a.x);
      } else if b.y != a.y {
        SquarePos(b.y - a.y);
      } else {
        SquarePos(b.z - a.z);
      }
      assert 0.0 < Sq(d);
    }
  }

  /**
    Points that differ by (1, 3, 7), as (1, 2, 3) and (2, 5, 10) do, are the
    square root of 59 apart, 7.68114574786...
  */
  lemma {:induction false} DistanceExample(sqrt: real -> real, a: Vec3, b: Vec3)
    requires IsSqrt(sqrt) && b.x - a.x == 1.0 && b.y - a.y == 3.0 && b.z - a.z == 7.0
    ensures Sq(Distance(sqrt, a, b)) == 59.0
    ensures 7.6811457478 < Distance(sqrt, a, b) < 7.6811457479
  {
    assert SquaredDistance(a, b) == 59.0;
    RootLess(7.6811457478, Distance(sqrt, a, b));
    RootLess(Distance(sqrt, a, b), 7.6811457479);
  }
}
