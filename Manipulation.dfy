/**
  Grabbing and two-hand zooming of one target object.

  Each hand (a tracker) drives two follower nodes: a grabber that follows the
  tracker's full pose and a zoomer that follows its position only. Grabbing
  hangs the target below the hand's grabber; when the second hand grabs the
  object the first hand already holds, both grabs are released and a zoom
  starts: the object hangs below zoomer 0, which turns toward zoomer 1 and
  scales with the distance of the two hands. Releasing either hand ends the
  zoom and hands the object over to the other hand.

  The trackers' links to their follower nodes are the engine's business and
  are not modelled: a follower's transform is whatever the scene holds.
*/
module Manipulation {
  import opened Wrappers
  import opened Viz
  import opened HelpFunctions

  /** `_Grab`: the grabbed object, the grabber it hangs below, and the parent to give back. */
  datatype GrabRecord = GrabRecord(grabbedObject: Node, grabber: Node, oldParent: Node)

  /**
    `_Zoom`: the zoomed object, the hands' distance when the zoom started, the
    zoomer that holds the object (`helper`), the zoomer it turns toward
    (`distant`), and the parent to give back.
  */
  datatype ZoomRecord = ZoomRecord(grabbedObject: Node, initialDistance: real, helper: Node, distant: Node, oldParent: Node)

  /** The `ValueError` of the constructor. */
  datatype ConfigError = TooManyTrackers

  /** What a session does not change: engine geometry, `math.sqrt`, and the follower nodes per hand. */
  datatype Setup = Setup(geometry: Geometry, sqrt: real -> real, grabbers: seq<Node>, zoomers: seq<Node>)

  /** The state of a session: the scene's nodes, the target, the two grab slots, the zoom and the update callback. */
  datatype Session = Session(
    nodes: map<Node, NodeState>,
    target: Option<Node>,
    grabs: seq<Option<GrabRecord>>,
    zooming: Option<ZoomRecord>,
    updateRegistered: bool)

  // ---------------------------------------------------------------------------
  // Invariant of a session
  // ---------------------------------------------------------------------------

  /** A node that can be grabbed: a scene node other than the root and the followers. */
  ghost predicate Grabbable(c: Setup, nodes: map<Node, NodeState>, n: Node) {
    n in nodes && n != World && n !in c.grabbers && n !in c.zoomers
  }

  /** One grabber and one zoomer per tracker, at most two trackers, all of them scene nodes, the grabbers distinct. */
  ghost predicate FollowersOk(c: Setup, nodes: map<Node, NodeState>) {
    && |c.grabbers| <= 2 && |c.zoomers| == |c.grabbers|
    && (|c.grabbers| == 2 ==> c.grabbers[0] != c.grabbers[1])
    && (forall i :: 0 <= i < |c.grabbers| ==> c.grabbers[i] in nodes && c.grabbers[i] != World)
    && (forall i :: 0 <= i < |c.zoomers| ==> c.zoomers[i] in nodes && c.zoomers[i] != World)
  }

  /** Slot `i` is empty or holds a grab by hand `i`'s grabber of a grabbable object. */
  ghost predicate SlotOk(c: Setup, nodes: map<Node, NodeState>, i: nat, slot: Option<GrabRecord>) {
    slot.Some? ==>
      && i < |c.grabbers| && slot.value.grabber == c.grabbers[i]
      && Grabbable(c, nodes, slot.value.grabbedObject)
      && slot.value.oldParent in nodes && slot.value.oldParent != slot.value.grabbedObject
  }

  /** A zoom runs between the two zoomers, on a grabbable object. */
  ghost predicate ZoomOk(c: Setup, nodes: map<Node, NodeState>, z: ZoomRecord) {
    && |c.zoomers| == 2 && z.helper == c.zoomers[0] && z.distant == c.zoomers[1]
    && Grabbable(c, nodes, z.grabbedObject)
    && z.oldParent in nodes && z.oldParent != z.grabbedObject
  }

  /**
    The session invariant: a well-formed scene, followers and records that
    name scene nodes, a zoom only while both slots are empty, and the update
    callback registered exactly while zooming.
  */
  ghost predicate Inv(c: Setup, st: Session) {
    && GraphOk(st.nodes) && FollowersOk(c, st.nodes)
    && (st.target.Some? ==> Grabbable(c, st.nodes, st.target.value))
    && |st.grabs| == 2
    && SlotOk(c, st.nodes, 0, st.grabs[0]) && SlotOk(c, st.nodes, 1, st.grabs[1])
    && (st.zooming.Some? ==> st.grabs == [None, None] && ZoomOk(c, st.nodes, st.zooming.value))
    && (st.updateRegistered <==> st.zooming.Some?)
  }

  /** Every node of `nodes` is still a node of `nodes'`. */
  ghost predicate Grows(nodes: map<Node, NodeState>, nodes': map<Node, NodeState>) {
    forall n :: n in nodes ==> n in nodes'
  }

  /** The invariant survives a change of the nodes that keeps them well formed and drops none. */
  lemma InvWithNodes(c: Setup, st: Session, nodes': map<Node, NodeState>)
    requires Inv(c, st) && GraphOk(nodes') && Grows(st.nodes, nodes')
    ensures Inv(c, st.(nodes := nodes'))
  {
  }

  /** `setScale` and `lookAt` leave every parent list as it is. */
  lemma PoseChangeKeepsGraph(g: Geometry, nodes: map<Node, NodeState>, n: Node, v: Vec3)
    requires GraphOk(nodes) && n in nodes
    ensures GraphOk(Rescaled(g, nodes, n, v)) && Grows(nodes, Rescaled(g, nodes, n, v))
    ensures GraphOk(Faced(g, nodes, n, v)) && Grows(nodes, Faced(g, nodes, n, v))
  {
  }

  // ---------------------------------------------------------------------------
  // The effects of `_Grab` and `_Zoom` on the nodes
  // ---------------------------------------------------------------------------

  /** The nodes after `_Zoom.__init__` has turned `helper` toward `distant` and reset its scale. */
  function ZoomPrepared(g: Geometry, nodes: map<Node, NodeState>, helper: Node, distant: Node): map<Node, NodeState>
    requires helper in nodes && distant in nodes
  {
    Rescaled(g, Faced(g, nodes, helper, nodes[distant].local.pos), helper, UnitScale)
  }

  /** The zoom `_Zoom.__init__` records for `obj` between `helper` and `distant`. */
  function NewZoom(sqrt: real -> real, nodes: map<Node, NodeState>, obj: Node, helper: Node, distant: Node): ZoomRecord
    requires IsSqrt(sqrt) && obj in nodes && helper in nodes && distant in nodes
  {
    ZoomRecord(obj, Distance(sqrt, nodes[helper].global.pos, nodes[distant].global.pos), helper, distant,
      FirstParent(nodes[obj].parents))
  }

  /** The nodes after `_Zoom.__init__`: the helper prepared, the object hung below it. */
  function ZoomStartNodes(g: Geometry, nodes: map<Node, NodeState>, obj: Node, helper: Node, distant: Node): map<Node, NodeState>
    requires obj in nodes && helper in nodes && distant in nodes
  {
    Reparent(g, ZoomPrepared(g, nodes, helper, distant), obj, helper)
  }

  /** The nodes after `_Zoom.stop`: the object back below its old parent, the helper at unit scale. */
  function ZoomStopNodes(g: Geometry, nodes: map<Node, NodeState>, z: ZoomRecord): map<Node, NodeState>
    requires z.grabbedObject in nodes && z.helper in nodes
  {
    Rescaled(g, Reparent(g, nodes, z.grabbedObject, z.oldParent), z.helper, UnitScale)
  }

  /**
    The factor `_Zoom.update` scales the helper by: the hands' distance now
    over their distance when the zoom started.
  */
  function ZoomFactor(initialDistance: real, newDistance: real): (f: real)
    requires initialDistance != 0.0
    ensures Prod(f, initialDistance) == newDistance
  {
    newDistance / initialDistance
  }

  /** `_Grab.__init__`: save the object's effective parent, then hang it below the grabber. */
  method StartGrab(s: Scene, grabber: Node, obj: Node) returns (grab: GrabRecord)
    requires s.Valid() && grabber in s.nodes && obj in s.nodes && obj != World && grabber != obj
    modifies s
    ensures s.Valid() && s.nextId == old(s.nextId)
    ensures grab == GrabRecord(obj, grabber, old(s.FrameParent(obj)))
    ensures s.nodes == Reparent(s.geometry, old(s.nodes), obj, grabber)
  {
    var oldParent := GetParent(s, obj);
    SetParentWithoutChangingTransform(s, obj, grabber);
    grab := GrabRecord(obj, grabber, oldParent);
  }

  /** `_Grab.stop`: hang the object below the parent saved when the grab started. */
  method StopGrab(s: Scene, grab: GrabRecord)
    requires s.Valid() && grab.grabbedObject in s.nodes && grab.grabbedObject != World
    requires grab.oldParent in s.nodes && grab.oldParent != grab.grabbedObject
    modifies s
    ensures s.Valid() && s.nextId == old(s.nextId)
    ensures s.nodes == Reparent(s.geometry, old(s.nodes), grab.grabbedObject, grab.oldParent)
  {
    SetParentWithoutChangingTransform(s, grab.grabbedObject, grab.oldParent);
  }

  /**
    `_Zoom.__init__`: measure the distance of the two zoomers, turn the helper
    toward the other one and reset its scale, save the object's effective
    parent and hang the object below the helper.
  */
  method StartZoom(s: Scene, sqrt: real -> real, obj: Node, helper: Node, distant: Node) returns (zoom: ZoomRecord)
    requires s.Valid() && IsSqrt(sqrt)
    requires obj in s.nodes && helper in s.nodes && distant in s.nodes
    requires obj != World && helper != World && obj != helper
    modifies s
    ensures s.Valid() && s.nextId == old(s.nextId)
    ensures zoom == NewZoom(sqrt, old(s.nodes), obj, helper, distant)
    ensures s.nodes == ZoomStartNodes(s.geometry, old(s.nodes), obj, helper, distant)
    ensures s.nodes[helper].local.scale == UnitScale && GetParent(s, obj) == helper
  {
    var initialDistance := Distance(sqrt, s.nodes[helper].global.pos, s.nodes[distant].global.pos);
    s.LookAt(helper, s.nodes[distant].local.pos);
    s.SetScale(helper, UnitScale);
    var oldParent := GetParent(s, obj);
    SetParentWithoutChangingTransform(s, obj, helper);
    zoom := ZoomRecord(obj, initialDistance, helper, distant, oldParent);
  }

  /**
    `_Zoom.update`: turn the helper toward the distant zoomer and scale it,
    on all three axes, by the ratio of the hands' distance now to their
    distance when the zoom started. Returns that ratio.
  */
  method UpdateZoom(s: Scene, sqrt: real -> real, zoom: ZoomRecord) returns (factor: real)
    requires s.Valid() && IsSqrt(sqrt)
    requires zoom.helper in s.nodes && zoom.distant in s.nodes && zoom.helper != World
    requires zoom.initialDistance != 0.0
    modifies s
    ensures s.Valid() && s.nextId == old(s.nextId)
    ensures Prod(factor, zoom.initialDistance)
      == Distance(sqrt, old(s.nodes[zoom.helper].global.pos), old(s.nodes[zoom.distant].global.pos))
    ensures s.nodes == Rescaled(s.geometry,
      Faced(s.geometry, old(s.nodes), zoom.helper, old(s.nodes[zoom.distant].local.pos)),
      zoom.helper, Vec3(factor, factor, factor))
    ensures (Distance(sqrt, old(s.nodes[zoom.helper].global.pos), old(s.nodes[zoom.distant].global.pos))
               == zoom.initialDistance) ==> s.nodes[zoom.helper].local.scale == UnitScale
  {
    s.LookAt(zoom.helper, s.nodes[zoom.distant].local.pos);
    var newDistance := Distance(sqrt, s.nodes[zoom.helper].global.pos, s.nodes[zoom.distant].global.pos);
    factor := ZoomFactor(zoom.initialDistance, newDistance);
    s.SetScale(zoom.helper, Vec3(factor, factor, factor));
    if newDistance == zoom.initialDistance {
      CancelFactor(factor, zoom.initialDistance);
    }
  }

  /** `_Zoom.stop`: hang the object below its saved parent and reset the helper's scale. */
  method StopZoom(s: Scene, zoom: ZoomRecord)
    requires s.Valid() && zoom.grabbedObject in s.nodes && zoom.helper in s.nodes
    requires zoom.grabbedObject != World && zoom.helper != World
    requires zoom.oldParent in s.nodes && zoom.oldParent != zoom.grabbedObject
    modifies s
    ensures s.Valid() && s.nextId == old(s.nextId)
    ensures s.nodes == ZoomStopNodes(s.geometry, old(s.nodes), zoom)
  {
    SetParentWithoutChangingTransform(s, zoom.grabbedObject, zoom.oldParent);
    s.SetScale(zoom.helper, UnitScale);
  }

  // ---------------------------------------------------------------------------
  // `grab` and `ungrab` on a session
  // ---------------------------------------------------------------------------

  /** Both slots hold a grab of the same object. */
  predicate SameObjectHeld(grabs: seq<Option<GrabRecord>>)
    requires |grabs| == 2
  {
    grabs[0].Some? && grabs[1].Some? && grabs[0].value.grabbedObject == grabs[1].value.grabbedObject
  }

  /**
    How a session looks between calls: every object a slot records hangs
    directly below that hand's grabber, so it follows the hand, and the two
    slots never record the same object (both hands on one object is only a
    step inside `grab`, which turns it into a zoom).
  */
  ghost predicate Settled(c: Setup, st: Session) {
    && Inv(c, st)
    && (forall i :: 0 <= i < |st.grabs| && st.grabs[i].Some? ==>
          i < |c.grabbers| && st.nodes[st.grabs[i].value.grabbedObject].parents == [c.grabbers[i]])
    && !SameObjectHeld(st.grabs)
  }

  /** What `grab(h)` demands: while not zooming, a grabber for hand `h` and a target to grab. */
  ghost predicate CanGrab(c: Setup, st: Session, h: nat) {
    Inv(c, st) && (st.zooming.None? ==> h < 2 && h < |c.grabbers| && st.target.Some?)
  }

  /** What `ungrab(h)` demands here: a hand index, and while zooming a target to hand over. */
  ghost predicate CanUngrab(c: Setup, st: Session, h: nat) {
    Inv(c, st) && h < 2 && (st.zooming.Some? ==> st.target.Some?)
  }

  /** `ungrab(h)` while not zooming: stop hand `h`'s grab, if there is one. */
  function AfterRelease(c: Setup, st: Session, h: nat): (r: Session)
    requires Inv(c, st) && st.zooming.None? && h < 2
    ensures Inv(c, r) && r.zooming.None? && r.target == st.target
    ensures r.grabs == st.grabs[h := None]
    ensures st.grabs[h].None? ==> r == st
  {
    match st.grabs[h]
    case None => st
    case Some(g) =>
      var nodes' := Reparent(c.geometry, st.nodes, g.grabbedObject, g.oldParent);
      ReparentKeepsGraph(c.geometry, st.nodes, g.grabbedObject, g.oldParent);
      InvWithNodes(c, st, nodes');
      st.(nodes := nodes', grabs := st.grabs[h := None])
  }

  /** `_Grab(grabbers[h], target)` stored in slot `h`, while not zooming. */
  function AfterTake(c: Setup, st: Session, h: nat): (r: Session)
    requires Inv(c, st) && st.zooming.None? && h < |c.grabbers| && st.target.Some?
    ensures Inv(c, r) && r.zooming.None? && r.target == st.target
    ensures r.grabs == st.grabs[h := Some(GrabRecord(st.target.value, c.grabbers[h], FirstParent(st.nodes[st.target.value].parents)))]
  {
    var obj := st.target.value;
    var nodes' := Reparent(c.geometry, st.nodes, obj, c.grabbers[h]);
    ReparentKeepsGraph(c.geometry, st.nodes, obj, c.grabbers[h]);
    InvWithNodes(c, st, nodes');
    st.(nodes := nodes', grabs := st.grabs[h := Some(GrabRecord(obj, c.grabbers[h], FirstParent(st.nodes[obj].parents)))])
  }

  /**
    Both hands hold the target: release hand `h`, then the other hand, and
    start a zoom of the target between the two zoomers.
  */
  function AfterPromote(c: Setup, st: Session, h: nat): (r: Session)
    requires Inv(c, st) && st.zooming.None? && h < 2 && st.target.Some?
    requires SameObjectHeld(st.grabs) && st.grabs[h].value.grabbedObject == st.target.value
    requires IsSqrt(c.sqrt)
    ensures Inv(c, r) && r.target == st.target && r.zooming.Some? && r.grabs == [None, None]
  {
    var obj := st.target.value;
    var released := AfterRelease(c, AfterRelease(c, st, h), 1 - h);
    assert released.grabs == [None, None];
    var nodes' := ZoomStartNodes(c.geometry, released.nodes, obj, c.zoomers[0], c.zoomers[1]);
    ZoomStartKeepsGraph(c, released.nodes, obj);
    InvWithNodes(c, released, nodes');
    released.(nodes := nodes', zooming := Some(NewZoom(c.sqrt, released.nodes, obj, c.zoomers[0], c.zoomers[1])),
      updateRegistered := true)
  }

  lemma PromoteUnfolds(c: Setup, st: Session, h: nat, released: Session)
    requires Inv(c, st) && st.zooming.None? && h < 2 && st.target.Some?
    requires SameObjectHeld(st.grabs) && st.grabs[h].value.grabbedObject == st.target.value
    requires IsSqrt(c.sqrt)
    requires released == AfterRelease(c, AfterRelease(c, st, h), 1 - h)
    ensures AfterPromote(c, st, h) == released.(
      nodes := ZoomStartNodes(c.geometry, released.nodes, st.target.value, c.zoomers[0], c.zoomers[1]),
      zooming := Some(NewZoom(c.sqrt, released.nodes, st.target.value, c.zoomers[0], c.zoomers[1])),
      updateRegistered := true)
  {
  }

  /**
    `grab(h)`: nothing while zooming; otherwise hand `h` grabs the target,
    and if both hands now hold the same object the two grabs are released in
    reverse order and a zoom of the target starts.
  */
  function AfterGrab(c: Setup, st: Session, h: nat): (r: Session)
    requires CanGrab(c, st, h) && IsSqrt(c.sqrt)
    ensures Inv(c, r) && r.target == st.target
    ensures st.zooming.Some? ==> r == st
  {
    if st.zooming.Some? then st
    else
      var held := AfterTake(c, st, h);
      if SameObjectHeld(held.grabs) then AfterPromote(c, held, h) else held
  }

  /**
    `ungrab(h)`: while not zooming, release hand `h`; while zooming, remove
    the update callback, stop the zoom and let the other hand grab the target.
  */
  function AfterUngrab(c: Setup, st: Session, h: nat): (r: Session)
    requires CanUngrab(c, st, h) && IsSqrt(c.sqrt)
    ensures Inv(c, r) && r.target == st.target
    ensures r.zooming.None? && !r.updateRegistered && r.grabs[h].None?
  {
    if st.zooming.None? then AfterRelease(c, st, h)
    else AfterGrab(c, AfterZoomStop(c, st), 1 - h)
  }

  /** `ungrab` while zooming, before the hand-over: the update callback removed and `_Zoom.stop` done. */
  function AfterZoomStop(c: Setup, st: Session): (r: Session)
    requires Inv(c, st) && st.zooming.Some?
    ensures Inv(c, r) && r.target == st.target && r.grabs == [None, None]
    ensures r.zooming.None? && !r.updateRegistered
  {
    var nodes' := ZoomStopNodes(c.geometry, st.nodes, st.zooming.value);
    ZoomStopKeepsGraph(c, st.nodes, st.zooming.value);
    InvWithNodes(c, st, nodes');
    st.(nodes := nodes', zooming := None, updateRegistered := false)
  }

  lemma ZoomStartKeepsGraph(c: Setup, nodes: map<Node, NodeState>, obj: Node)
    requires GraphOk(nodes) && FollowersOk(c, nodes) && |c.zoomers| == 2 && Grabbable(c, nodes, obj)
    ensures GraphOk(ZoomStartNodes(c.geometry, nodes, obj, c.zoomers[0], c.zoomers[1]))
    ensures Grows(nodes, ZoomStartNodes(c.geometry, nodes, obj, c.zoomers[0], c.zoomers[1]))
  {
    var g, helper := c.geometry, c.zoomers[0];
    var faced := Faced(g, nodes, helper, nodes[c.zoomers[1]].local.pos);
    PoseChangeKeepsGraph(g, nodes, helper, nodes[c.zoomers[1]].local.pos);
    PoseChangeKeepsGraph(g, faced, helper, UnitScale);
    ReparentKeepsGraph(g, ZoomPrepared(g, nodes, helper, c.zoomers[1]), obj, helper);
  }

  lemma ZoomStopKeepsGraph(c: Setup, nodes: map<Node, NodeState>, z: ZoomRecord)
    requires GraphOk(nodes) && FollowersOk(c, nodes) && ZoomOk(c, nodes, z)
    ensures GraphOk(ZoomStopNodes(c.geometry, nodes, z)) && Grows(nodes, ZoomStopNodes(c.geometry, nodes, z))
  {
    var back := Reparent(c.geometry, nodes, z.grabbedObject, z.oldParent);
    ReparentKeepsGraph(c.geometry, nodes, z.grabbedObject, z.oldParent);
    PoseChangeKeepsGraph(c.geometry, back, z.helper, UnitScale);
  }

  // ---------------------------------------------------------------------------
  // The session object
  // ---------------------------------------------------------------------------

  /**
    `GrabAndZoom`: the follower nodes of up to two trackers, the target, the
    two grab slots (`_grabs`), the running zoom (`_zooming_object`) and
    whether its per-frame update is registered with the engine.
  */
  class GrabAndZoom {
    const scene: Scene
    const sqrt: real -> real
    const grabbers: seq<Node>
    const zoomers: seq<Node>
    var target: Option<Node>
    var grabs: seq<Option<GrabRecord>>
    var zooming: Option<ZoomRecord>
    var updateRegistered: bool

    function Config(): Setup {
      Setup(scene.geometry, sqrt, grabbers, zoomers)
    }

    ghost function State(): Session
      reads this, scene
    {
      Session(scene.nodes, target, grabs, zooming, updateRegistered)
    }

    ghost predicate Valid()
      reads this, scene
    {
      scene.Valid() && IsSqrt(sqrt) && Inv(Config(), State())
    }

    /**
      `__init__` for at most two trackers: a grabber and then a zoomer per
      tracker, each a fresh group below the root, no two the same; both
      slots empty, no zoom.
    */
    constructor (scene: Scene, sqrt: real -> real, trackerCount: nat, obj: Option<Node>)
      requires scene.Valid() && IsSqrt(sqrt) && trackerCount <= 2
      requires obj.Some? ==> obj.value in scene.nodes && obj.value != World
      modifies scene
      ensures Valid() && this.scene == scene && this.sqrt == sqrt
      ensures target == obj && grabs == [None, None] && zooming.None? && !updateRegistered
      ensures |grabbers| == trackerCount && |zoomers| == trackerCount
      ensures forall i, j :: 0 <= i < j < |grabbers| ==> grabbers[i] != grabbers[j]
      ensures forall i, j :: 0 <= i < j < |zoomers| ==> zoomers[i] != zoomers[j]
      ensures forall n :: n in grabbers ==> n !in zoomers
      ensures Settled(Config(), State())
      ensures forall n :: n in grabbers || n in zoomers ==>
        n !in old(scene.nodes) && n in scene.nodes && scene.nodes[n] == NodeState([], Identity, Identity)
      ensures forall n :: n in old(scene.nodes) ==> n in scene.nodes && scene.nodes[n] == old(scene.nodes[n])
    {
      var gs := AddFollowers(scene, trackerCount);
      var zs := AddFollowers(scene, trackerCount);
      this.scene := scene;
      this.sqrt := sqrt;
      grabbers := gs;
      zoomers := zs;
      target := obj;
      grabs := [None, None];
      zooming := None;
      updateRegistered := false;
    }

    /** `__init__` as a caller sees it: a `ValueError` for more than two trackers, before the scene is touched. */
    static method Create(scene: Scene, sqrt: real -> real, trackerCount: nat, obj: Option<Node>)
      returns (r: Result<GrabAndZoom, ConfigError>)
      requires scene.Valid() && IsSqrt(sqrt)
      requires obj.Some? ==> obj.value in scene.nodes && obj.value != World
      modifies scene
      ensures r.Failure? <==> trackerCount > 2
      ensures r.Failure? ==> scene.nodes == old(scene.nodes)
      ensures r.Success? ==> (fresh(r.value) && r.value.Valid() && r.value.scene == scene
        && r.value.target == obj && r.value.grabs == [None, None] && r.value.zooming.None?
        && |r.value.grabbers| == trackerCount && |r.value.zoomers| == trackerCount
        && (forall n :: n in r.value.grabbers ==> n !in r.value.zoomers)
        && (forall n :: n in old(scene.nodes) ==> n in scene.nodes && scene.nodes[n] == old(scene.nodes[n])))
    {
      if trackerCount > 2 {
        r := Failure(TooManyTrackers);
      } else {
        var gaz := new GrabAndZoom(scene, sqrt, trackerCount, obj);
        r := Success(gaz);
      }
    }

    /** `set_item`: only the target changes. */
    method SetItem(obj: Option<Node>)
      requires Valid()
      requires obj.Some? ==> Grabbable(Config(), scene.nodes, obj.value)
      modifies this
      ensures Valid()
      ensures State() == old(State()).(target := obj)
    {
      target := obj;
    }

    /** `grab(hand_number)`. */
    method Grab(h: nat)
      requires Valid() && (zooming.None? ==> h < 2 && h < |grabbers| && target.Some?)
      modifies this, scene
      ensures Valid()
      ensures State() == AfterGrab(Config(), old(State()), h)
      decreases if zooming.Some? then 1 else 0, 4
    {
      if zooming.None? {
        Take(h);
      }
      if zooming.None? && grabs[0].Some? && grabs[1].Some? {
        if grabs[0].value.grabbedObject == grabs[1].value.grabbedObject {
          Promote(h);
        }
      }
    }

    /** The first step of `grab` while not zooming: hand `h` grabs the target into slot `h`. */
    method Take(h: nat)
      requires Valid() && zooming.None? && h < |grabbers| && target.Some?
      modifies this, scene
      ensures Valid()
      ensures State() == AfterTake(Config(), old(State()), h)
    {
      var grab := StartGrab(scene, grabbers[h], target.value);
      grabs := grabs[h := Some(grab)];
    }

    /**
      The second step of `grab` when both hands hold the target: release the
      grabs in reverse order, then start the zoom and register its update.
    */
    method Promote(h: nat)
      requires Valid() && zooming.None? && h < 2 && target.Some?
      requires SameObjectHeld(grabs) && grabs[h].value.grabbedObject == target.value
      modifies this, scene
      ensures Valid()
      ensures State() == AfterPromote(Config(), old(State()), h)
      decreases 0, 3
    {
      ghost var held := State();
      ReleaseBoth(h);
      ghost var released := State();
      var zoom := StartZoom(scene, sqrt, target.value, zoomers[0], zoomers[1]);
      ghost var nodes' := ZoomStartNodes(scene.geometry, released.nodes, held.target.value, zoomers[0], zoomers[1]);
      ghost var zoom' := NewZoom(sqrt, released.nodes, held.target.value, zoomers[0], zoomers[1]);
      assert scene.nodes == nodes' && zoom == zoom';
      zooming := Some(zoom);
      updateRegistered := true;
      PromoteUnfolds(Config(), held, h, released);
      assert AfterPromote(Config(), held, h) == Session(nodes', released.target, released.grabs, Some(zoom'), true);
      assert State() == Session(nodes', released.target, released.grabs, Some(zoom'), true);
    }

    /** The reverse-order release in `grab`: `ungrab(h)`, then `ungrab(1 - h)`, while not zooming. */
    method ReleaseBoth(h: nat)
      requires Valid() && zooming.None? && h < 2
      modifies this, scene
      ensures Valid()
      ensures State() == AfterRelease(Config(), AfterRelease(Config(), old(State()), h), 1 - h)
      decreases 0, 2
    {
      Ungrab(h);
      Ungrab(1 - h);
    }

    /** `ungrab(hand_number)`. */
    method Ungrab(h: nat)
      requires Valid() && h < 2 && (zooming.Some? ==> target.Some?)
      modifies this, scene
      ensures Valid()
      ensures State() == AfterUngrab(Config(), old(State()), h)
      decreases if zooming.Some? then 1 else 0, 1
    {
      if zooming.None? {
        Release(h);
      } else {
        HandOver(h);
      }
    }

    /**
      `ungrab` while zooming: remove the update callback, stop the zoom, and
      grab with every hand except `h`.
    */
    method HandOver(h: nat)
      requires Valid() && zooming.Some? && h < 2 && target.Some?
      modifies this, scene
      ensures Valid()
      ensures State() == AfterUngrab(Config(), old(State()), h)
      decreases 1, 0
    {
      EndZoom();
      GrabOthers(h);
    }

    /** The loop ending `ungrab` while zooming: every hand except `h` grabs the target. */
    method GrabOthers(h: nat)
      requires Valid() && zooming.None? && h < 2 && |grabbers| == 2 && target.Some?
      modifies this, scene
      ensures Valid()
      ensures State() == AfterGrab(Config(), old(State()), 1 - h)
      decreases 0, 5
    {
      ghost var start := State();
      ghost var done := AfterGrab(Config(), start, 1 - h);
      for i := 0 to 2
        invariant scene.Valid()
        invariant i <= 1 - h ==> State() == start
        invariant 1 - h < i ==> State() == done
      {
        if i != h {
          Grab(i);
        }
      }
    }

    /** `ungrab` while not zooming: stop hand `h`'s grab, if there is one, and empty its slot. */
    method Release(h: nat)
      requires Valid() && zooming.None? && h < 2
      modifies this, scene
      ensures Valid()
      ensures State() == AfterRelease(Config(), old(State()), h)
    {
      if grabs[h].Some? {
        StopGrab(scene, grabs[h].value);
        grabs := grabs[h := None];
      }
    }

    /** The first step of `ungrab` while zooming: remove the update callback and stop the zoom. */
    method EndZoom()
      requires Valid() && zooming.Some?
      modifies this, scene
      ensures Valid()
      ensures State() == AfterZoomStop(Config(), old(State()))
    {
      updateRegistered := false;
      StopZoom(scene, zooming.value);
      zooming := None;
      ZoomStopKeepsGraph(Config(), old(scene.nodes), old(zooming.value));
      InvWithNodes(Config(), old(State()), scene.nodes);
    }

    /** The engine firing the registered update callback: `_Zoom.update` of the running zoom. */
    method OnUpdate() returns (factor: real)
      requires Valid() && updateRegistered && zooming.value.initialDistance != 0.0
      modifies scene
      ensures Valid()
      ensures Prod(factor, zooming.value.initialDistance) == Distance(sqrt,
        old(scene.nodes[zooming.value.helper].global.pos), old(scene.nodes[zooming.value.distant].global.pos))
      ensures scene.nodes == Rescaled(scene.geometry,
        Faced(scene.geometry, old(scene.nodes), zooming.value.helper, old(scene.nodes[zooming.value.distant].local.pos)),
        zooming.value.helper, Vec3(factor, factor, factor))
      ensures scene.nodes[zooming.value.helper].local.scale == Vec3(factor, factor, factor)
      ensures (Distance(sqrt, old(scene.nodes[zooming.value.helper].global.pos),
                        old(scene.nodes[zooming.value.distant].global.pos)) == zooming.value.initialDistance)
        ==> scene.nodes[zooming.value.helper].local.scale == UnitScale
    {
      factor := UpdateZoom(scene, sqrt, zooming.value);
      ghost var z := zooming.value;
      ghost var faced := Faced(scene.geometry, old(scene.nodes), z.helper, old(scene.nodes[z.distant].local.pos));
      PoseChangeKeepsGraph(scene.geometry, old(scene.nodes), z.helper, old(scene.nodes[z.distant].local.pos));
      PoseChangeKeepsGraph(scene.geometry, faced, z.helper, Vec3(factor, factor, factor));
      InvWithNodes(Config(), old(State()), scene.nodes);
    }
  }

  /** The `viz.addGroup()` loop of `__init__`: one fresh group per tracker, no two the same. */
  method AddFollowers(s: Scene, count: nat) returns (followers: seq<Node>)
    requires s.Valid()
    modifies s
    ensures s.Valid() && |followers| == count
    ensures forall i, j :: 0 <= i < j < |followers| ==> followers[i] != followers[j]
    ensures forall n :: n in followers ==>
      n.Group? && n !in old(s.nodes) && n in s.nodes && s.nodes[n] == NodeState([], Identity, Identity)
    ensures forall n :: n in old(s.nodes) ==> n in s.nodes && s.nodes[n] == old(s.nodes[n])
  {
    followers := [];
    for i := 0 to count
      invariant s.Valid() && |followers| == i
      invariant forall k, l :: 0 <= k < l < |followers| ==> followers[k] != followers[l]
      invariant forall n :: n in followers ==>
        n.Group? && n !in old(s.nodes) && n in s.nodes && s.nodes[n] == NodeState([], Identity, Identity)
      invariant forall n :: n in old(s.nodes) ==> n in s.nodes && s.nodes[n] == old(s.nodes[n])
    {
      var n := s.AddGroup();
      followers := followers + [n];
    }
  }
}
