/**
  What `grab` and `ungrab` promise over whole sequences of calls: a grab by
  one hand hangs the target on that hand's grabber without moving it, a
  grab of the object the other hand holds starts a zoom, releasing a hand
  while zooming hands the object to the other hand, and after both hands
  have grabbed and let go the object is back below the parent it started
  under.
*/
module GrabScenarios {
  import opened Wrappers
  import opened Viz
  import opened HelpFunctions
  import opened Manipulation

  /** The hand other than `h` holds the target. */
  ghost predicate OtherHandHolds(st: Session, h: nat)
    requires |st.grabs| == 2 && h < 2 && st.target.Some?
  {
    st.grabs[1 - h].Some? && st.grabs[1 - h].value.grabbedObject == st.target.value
  }

  /** `nodes'` differs from `nodes` in `obj` only, whose world position and orientation it keeps. */
  ghost predicate MovedOnly(nodes: map<Node, NodeState>, nodes': map<Node, NodeState>, obj: Node) {
    && obj in nodes && nodes'.Keys == nodes.Keys
    && (forall n :: n in nodes && n != obj ==> nodes'[n] == nodes[n])
    && nodes'[obj].global.pos == nodes[obj].global.pos
    && nodes'[obj].global.euler == nodes[obj].global.euler
  }

  /**
    A grab while not zooming, unless the other hand holds the target: slot
    `h` records the target with its current frame parent, the target hangs
    below grabber `h`, and no zoom starts.
  */
  lemma {:induction false} GrabHangsTargetOnGrabber(c: Setup, st: Session, h: nat, r: Session)
    requires CanGrab(c, st, h) && IsSqrt(c.sqrt) && st.zooming.None? && !OtherHandHolds(st, h)
    requires r == AfterGrab(c, st, h)
    ensures r.zooming.None? && !r.updateRegistered
    ensures r.grabs == st.grabs[h := Some(GrabRecord(st.target.value, c.grabbers[h],
      FirstParent(st.nodes[st.target.value].parents)))]
    ensures r.nodes[st.target.value].parents == [c.grabbers[h]]
  {
    ReparentKeepsPose(c.geometry, st.nodes, st.target.value, c.grabbers[h]);
  }

  /** Such a grab changes no other node and does not move the target in the world. */
  lemma {:induction false} GrabKeepsTargetPose(c: Setup, st: Session, h: nat, r: Session)
    requires CanGrab(c, st, h) && IsSqrt(c.sqrt) && st.zooming.None? && !OtherHandHolds(st, h)
    requires r == AfterGrab(c, st, h)
    ensures MovedOnly(st.nodes, r.nodes, st.target.value)
  {
    ReparentKeepsPose(c.geometry, st.nodes, st.target.value, c.grabbers[h]);
  }

  /**
    The second hand grabbing the object the first holds starts a zoom: both
    slots are emptied, the update is registered, the object hangs below
    zoomer 0, zoomer 0 is at unit scale, and the zoom records the zoomers'
    distance and the parent the FIRST grab saved. The object does not move
    in the world.
  */
  lemma {:induction false} SecondHandStartsZoom(c: Setup, st: Session, h: nat, g: GrabRecord, r: Session)
    requires CanGrab(c, st, h) && IsSqrt(c.sqrt) && st.zooming.None?
    requires st.grabs[1 - h] == Some(g) && g.grabbedObject == st.target.value
    requires r == AfterGrab(c, st, h)
    ensures |c.zoomers| == 2
    ensures r.grabs == [None, None] && r.updateRegistered
    ensures r.zooming == Some(ZoomRecord(st.target.value,
      Distance(c.sqrt, st.nodes[c.zoomers[0]].global.pos, st.nodes[c.zoomers[1]].global.pos),
      c.zoomers[0], c.zoomers[1], g.oldParent))
    ensures r.nodes[st.target.value].parents == [c.zoomers[0]]
    ensures r.nodes[c.zoomers[0]].local.scale == UnitScale
    ensures r.nodes[st.target.value].global.pos == st.nodes[st.target.value].global.pos
    ensures r.nodes[st.target.value].global.euler == st.nodes[st.target.value].global.euler
  {
    var t := st.target.value;
    var held := AfterTake(c, st, h);
    ReparentKeepsPose(c.geometry, st.nodes, t, c.grabbers[h]);
    var once := AfterRelease(c, held, h);
    ReparentKeepsPose(c.geometry, held.nodes, t, held.grabs[h].value.oldParent);
    var released := AfterRelease(c, once, 1 - h);
    ReparentKeepsPose(c.geometry, once.nodes, t, g.oldParent);
    assert FirstParent(released.nodes[t].parents) == g.oldParent;
    assert released.nodes[c.zoomers[0]] == st.nodes[c.zoomers[0]];
    assert released.nodes[c.zoomers[1]] == st.nodes[c.zoomers[1]];
    PromoteUnfolds(c, held, h, released);
    ReparentKeepsPose(c.geometry, ZoomPrepared(c.geometry, released.nodes, c.zoomers[0], c.zoomers[1]), t, c.zoomers[0]);
  }

  /** A grab starts a zoom exactly when it is the other hand that already holds the target. */
  lemma {:induction false} GrabZoomsIff(c: Setup, st: Session, h: nat, r: Session)
    requires CanGrab(c, st, h) && IsSqrt(c.sqrt)
    requires r == AfterGrab(c, st, h)
    ensures r.zooming.Some? <==> st.zooming.Some? || (st.target.Some? && OtherHandHolds(st, h))
  {
    if st.zooming.None? {
      if OtherHandHolds(st, h) {
        SecondHandStartsZoom(c, st, h, st.grabs[1 - h].value, r);
      } else {
        GrabHangsTargetOnGrabber(c, st, h, r);
      }
    }
  }

  /**
    Releasing a hand that holds a grab while not zooming empties its slot and
    hangs the grabbed object below the parent the grab saved.
  */
  lemma {:induction false} ReleaseRestoresSavedParent(c: Setup, st: Session, h: nat, g: GrabRecord, r: Session)
    requires Inv(c, st) && IsSqrt(c.sqrt) && st.zooming.None? && h < 2 && st.grabs[h] == Some(g)
    requires r == AfterUngrab(c, st, h)
    ensures r.grabs == st.grabs[h := None] && r.zooming.None? && !r.updateRegistered
    ensures r.nodes[g.grabbedObject].parents == ParentList(g.oldParent)
  {
    ReparentKeepsPose(c.geometry, st.nodes, g.grabbedObject, g.oldParent);
  }

  /** Such a release changes no other node and does not move the object in the world. */
  lemma {:induction false} ReleaseKeepsPose(c: Setup, st: Session, h: nat, g: GrabRecord, r: Session)
    requires Inv(c, st) && IsSqrt(c.sqrt) && st.zooming.None? && h < 2 && st.grabs[h] == Some(g)
    requires r == AfterUngrab(c, st, h)
    ensures MovedOnly(st.nodes, r.nodes, g.grabbedObject)
  {
    ReparentKeepsPose(c.geometry, st.nodes, g.grabbedObject, g.oldParent);
  }

  /**
    One hand grabs and lets go while not zooming, the other hand not holding
    the target: the target is back below the parent it started under, in the
    same place in the world, nothing else has changed, and slot `h` is empty.
  */
  lemma {:induction false} GrabReleaseRestoresParent(c: Setup, st: Session, h: nat, s1: Session, s2: Session)
    requires CanGrab(c, st, h) && IsSqrt(c.sqrt) && st.zooming.None? && !OtherHandHolds(st, h)
    requires s1 == AfterGrab(c, st, h) && s2 == AfterUngrab(c, s1, h)
    ensures s2.grabs == st.grabs[h := None] && s2.zooming.None? && !s2.updateRegistered
    ensures s2.nodes[st.target.value].parents == ParentList(FirstParent(st.nodes[st.target.value].parents))
    ensures MovedOnly(st.nodes, s2.nodes, st.target.value)
  {
    var t := st.target.value;
    var g := GrabRecord(t, c.grabbers[h], FirstParent(st.nodes[t].parents));
    GrabHangsTargetOnGrabber(c, st, h, s1);
    GrabKeepsTargetPose(c, st, h, s1);
    ReleaseRestoresSavedParent(c, s1, h, g, s2);
    ReleaseKeepsPose(c, s1, h, g, s2);
  }

  /**
    Releasing either hand while zooming ends the zoom and hands the object
    over: the other hand's slot holds it with the parent the zoom saved, it
    hangs below that hand's grabber, and zoomer 0 is back at unit scale.
    The object does not move in the world.
  */
  lemma {:induction false} ZoomReleaseHandsOver(c: Setup, st: Session, h: nat, z: ZoomRecord, r: Session)
    requires CanUngrab(c, st, h) && IsSqrt(c.sqrt)
    requires st.zooming == Some(z) && st.target == Some(z.grabbedObject)
    requires r == AfterUngrab(c, st, h)
    ensures |c.grabbers| == 2
    ensures r.zooming.None? && !r.updateRegistered && r.grabs[h].None?
    ensures r.grabs[1 - h] == Some(GrabRecord(z.grabbedObject, c.grabbers[1 - h], z.oldParent))
    ensures r.nodes[z.grabbedObject].parents == [c.grabbers[1 - h]]
    ensures r.nodes[z.helper].local.scale == UnitScale
    ensures r.nodes[z.grabbedObject].global.pos == st.nodes[z.grabbedObject].global.pos
    ensures r.nodes[z.grabbedObject].global.euler == st.nodes[z.grabbedObject].global.euler
  {
    var ended := AfterZoomStop(c, st);
    ReparentKeepsPose(c.geometry, st.nodes, z.grabbedObject, z.oldParent);
    assert FirstParent(ended.nodes[z.grabbedObject].parents) == z.oldParent;
    assert ended.nodes[z.helper].local.scale == UnitScale;
    GrabHangsTargetOnGrabber(c, ended, 1 - h, r);
    GrabKeepsTargetPose(c, ended, 1 - h, r);
  }

  /**
    `grab` keeps a session settled: after it, every recorded object still
    hangs below its hand's grabber and no object is recorded twice.
  */
  lemma {:induction false} GrabKeepsSettled(c: Setup, st: Session, h: nat, r: Session)
    requires CanGrab(c, st, h) && IsSqrt(c.sqrt) && Settled(c, st)
    requires r == AfterGrab(c, st, h)
    ensures Settled(c, r)
  {
  }

  /** `ungrab` keeps a session settled, whether or not a zoom was running. */
  lemma {:induction false} UngrabKeepsSettled(c: Setup, st: Session, h: nat, r: Session)
    requires CanUngrab(c, st, h) && IsSqrt(c.sqrt) && Settled(c, st)
    requires r == AfterUngrab(c, st, h)
    ensures Settled(c, r)
  {
  }

  /**
    Both hands grab the target one after the other, starting from empty
    hands: the second grab starts a zoom of the target that will give back
    the target's frame parent from before the first grab.
  */
  lemma {:induction false} GrabBothStartsZoom(c: Setup, st: Session, a: nat, s1: Session, s2: Session)
    requires Inv(c, st) && IsSqrt(c.sqrt) && st.zooming.None? && st.grabs == [None, None]
    requires st.target.Some? && |c.grabbers| == 2 && a < 2
    requires s1 == AfterGrab(c, st, a) && s2 == AfterGrab(c, s1, 1 - a)
    ensures s1.zooming.None?
    ensures s2.zooming.Some? && s2.zooming.value.grabbedObject == st.target.value
    ensures s2.zooming.value.oldParent == FirstParent(st.nodes[st.target.value].parents)
  {
    var t := st.target.value;
    GrabHangsTargetOnGrabber(c, st, a, s1);
    SecondHandStartsZoom(c, s1, 1 - a, GrabRecord(t, c.grabbers[a], FirstParent(st.nodes[t].parents)), s2);
  }

  /**
    Both hands let go of a zoomed object, in either order: the object ends
    up below the parent the zoom saved, with both slots empty and no zoom.
  */
  lemma {:induction false} ReleaseBothEndsZoom(c: Setup, st: Session, b: nat, s3: Session, s4: Session)
    requires Inv(c, st) && IsSqrt(c.sqrt) && st.zooming.Some? && b < 2
    requires st.target == Some(st.zooming.value.grabbedObject)
    requires s3 == AfterUngrab(c, st, b) && s4 == AfterUngrab(c, s3, 1 - b)
    ensures s3.zooming.None? && s3.grabs[1 - b].Some?
    ensures s4.grabs == [None, None] && s4.zooming.None? && !s4.updateRegistered
    ensures s4.nodes[st.target.value].parents == ParentList(st.zooming.value.oldParent)
  {
    var z := st.zooming.value;
    ZoomReleaseHandsOver(c, st, b, z, s3);
    ReleaseRestoresSavedParent(c, s3, 1 - b, GrabRecord(z.grabbedObject, c.grabbers[1 - b], z.oldParent), s4);
    assert s4.grabs == [None, None];
  }

  /**
    Both hands grab the target one after the other (which starts a zoom),
    then both let go, in either order: the object ends up below the parent
    it started under. Its parent list is restored exactly when it had at
    most one parent.
  */
  lemma {:induction false} GrabBothReleaseBothRestoresParent(c: Setup, st: Session, a: nat, b: nat,
      s1: Session, s2: Session, s3: Session, s4: Session)
    requires Inv(c, st) && IsSqrt(c.sqrt) && st.zooming.None? && st.grabs == [None, None]
    requires st.target.Some? && |c.grabbers| == 2 && a < 2 && b < 2
    requires s1 == AfterGrab(c, st, a) && s2 == AfterGrab(c, s1, 1 - a)
    requires s3 == AfterUngrab(c, s2, b) && s4 == AfterUngrab(c, s3, 1 - b)
    ensures s4.nodes[st.target.value].parents == ParentList(FirstParent(st.nodes[st.target.value].parents))
    ensures FirstParent(s4.nodes[st.target.value].parents) == FirstParent(st.nodes[st.target.value].parents)
    ensures |st.nodes[st.target.value].parents| <= 1 ==> s4.nodes[st.target.value].parents == st.nodes[st.target.value].parents
  {
    var t := st.target.value;
    var p0 := FirstParent(st.nodes[t].parents);
    GrabBothStartsZoom(c, st, a, s1, s2);
    ReleaseBothEndsZoom(c, s2, b, s3, s4);
    FirstParentOfParentList(p0);
    if |st.nodes[t].parents| <= 1 {
      ParentListOfFirstParent(st.nodes, t);
    }
  }

  /**
    A hand that grabs twice in a row and then lets go leaves the object on
    its grabber: the second grab saves the grabber itself as the parent to
    give back, and the original parent is lost.
  */
  lemma {:induction false} RepeatedGrabKeepsGrabber(c: Setup, st: Session, h: nat, s1: Session, s2: Session, s3: Session)
    requires Inv(c, st) && IsSqrt(c.sqrt) && st.zooming.None? && st.grabs == [None, None]
    requires st.target.Some? && h < |c.grabbers|
    requires s1 == AfterGrab(c, st, h) && s2 == AfterGrab(c, s1, h) && s3 == AfterUngrab(c, s2, h)
    ensures s2.grabs[h] == Some(GrabRecord(st.target.value, c.grabbers[h], c.grabbers[h]))
    ensures s3.grabs == [None, None] && s3.zooming.None?
    ensures s3.nodes[st.target.value].parents == [c.grabbers[h]]
  {
    var t := st.target.value;
    GrabHangsTargetOnGrabber(c, st, h, s1);
    GrabHangsTargetOnGrabber(c, s1, h, s2);
    ReleaseRestoresSavedParent(c, s2, h, GrabRecord(t, c.grabbers[h], c.grabbers[h]), s3);
    assert s3.grabs == [None, None];
  }
}
