# ToothVR grab and zoom, in Dafny

A model of the two-hand grab-and-zoom interaction of ToothVR and of the
scene-graph helpers it is built on, with proofs of what the interaction
promises about parents, grab slots and zooms.

- `Viz.dfy` (module `Viz`) is the slice of the Vizard scene graph the code
  relies on: a `Scene` class holding, per node, its parent list, its world
  ("global", `ABS_GLOBAL`) transform and its parent-relative ("local",
  `ABS_PARENT`) transform. The engine calls used by the code (`addGroup`,
  `setParent`, `addParent`, `setPosition`/`setEuler` in world mode,
  `setScale`, `lookAt`) are methods that change the addressed node. The
  frame a local transform is measured in is the node's first parent, or the
  root `World` when it has none. Rotation math is the engine's and stays
  uninterpreted (a `Geometry` value of functions); scales compose
  componentwise with the frame parent's world scale.
- `HelpFunctions.dfy` models `src/HelpFunctions.py`: the effective parent
  (`GetParent`), reparenting that keeps the world pose
  (`SetParentWithoutChangingTransform`, whose effect on the nodes is the
  function `Reparent`), reading a node's position or normal relative to
  another node by reparenting it for a moment (`GetLocalPosition`,
  `GetLocalNormal`, with the parent-restoring loop `RestoreParents`), and
  the Euclidean distance (`Distance`, with `math.sqrt` as a parameter `sqrt`
  that satisfies `IsSqrt`).
- `Manipulation.dfy` models `src/GrabAndZoom.py`. `_Grab` and `_Zoom` are
  the records `GrabRecord` and `ZoomRecord`; their `__init__`, `update`
  and `stop` are the methods `StartGrab`, `StopGrab`, `StartZoom`,
  `UpdateZoom` and `StopZoom` over a `Scene`. The class `GrabAndZoom` has
  the follower nodes per tracker (grabbers and zoomers), the target, the two
  grab slots, the running zoom and whether its per-frame update is
  registered. Its methods `Grab` and `Ungrab` call each other as the source
  does. Each is proved against a function on an abstract `Session` value
  (`AfterGrab`, `AfterUngrab`, built from `AfterTake`, `AfterPromote`,
  `AfterRelease` and `AfterZoomStop`). Each such function preserves the
  session invariant `Inv`:
  - the scene graph is well formed;
  - there are at most two trackers, each with a grabber and a zoomer, and
    the two grabbers are different nodes;
  - each slot holds only a grab by its own hand;
  - a zoom runs only while both slots are empty;
  - the update callback is registered exactly while zooming.
  A session is `Settled` when, on top of `Inv`, every recorded object hangs
  directly below its hand's grabber and no object is recorded twice. This is
  not part of `Inv`, because it does not hold in the middle of `grab`, where
  both slots briefly record the target.
- `GrabScenarios.dfy` proves what sequences of `grab` and `ungrab` do.
  - A single grab hangs the target on the hand's grabber without moving it.
  - Grabbing the object the other hand holds starts a zoom, and it does so
    exactly then.
  - Releasing while zooming hands the object over to the other hand, while
    the target is still the zoomed object. The hand-over grabs the current
    target, so a target changed during the zoom is what the other hand
    takes.
  - Between calls, every object a hand's slot records hangs directly below
    that hand's grabber, and the two slots never record the same object.
    Both `grab` and `ungrab` keep this.
  - Grabbing with both hands and releasing both, in either order, puts the
    object back below the parent it started under.
  - Grabbing twice with the same hand and then releasing leaves the object
    on that hand's grabber.

Two behaviours of the code a reader might not expect:
- A repeated `grab(h)` is not a no-op. It overwrites slot `h` with a grab
  whose saved parent is the hand's own grabber, so the original parent is
  lost (`GrabScenarios.RepeatedGrabKeepsGrabber`).
- `grab` with no target is not a no-op either. `_Grab.__init__` calls
  `get_parent(None)`, which fails, so a target is a precondition of
  grabbing.

## Model

| member | source | states |
|---|---|---|
| HelpFunctions.GetParent | src/HelpFunctions.py:90-98 | the result is the root exactly when the node has no parents, otherwise its first parent; it is always a scene node, and never the node itself unless that node is the root |
| HelpFunctions.SetParentWithoutChangingTransform | src/HelpFunctions.py:74-87 | afterwards the effective parent is `parent`, the world position and orientation are as before, and the world scale is as before when the new parent is the root or has unit world scale; the new nodes are `Reparent` of the old ones and nothing else changes |
| HelpFunctions.ReparentKeepsPose | src/HelpFunctions.py:74-87 | reparenting changes only `obj`: its parent list becomes that of `setParent(parent)`, so its effective parent is `parent`, and its world position and orientation are kept |
| HelpFunctions.ReparentKeepsGraph | src/HelpFunctions.py:74-87 | reparenting a node below another node keeps the scene graph well formed and drops no node |
| HelpFunctions.ScaleKeptOnlyUnderUnitFrame | src/HelpFunctions.py:81-87 | writing the old world scale back as the local scale keeps the world scale if and only if the new frame parent's world scale is unit (for a scale without zero components) |
| HelpFunctions.RestoreParents | src/HelpFunctions.py:33-35 | hanging the node below the root and re-adding the saved parents one by one restores exactly that parent list, in order, and keeps the local transform |
| HelpFunctions.GetLocalPosition | src/HelpFunctions.py:20-38 | the result is the node's world position expressed in the frame of `semiParent`; afterwards the node's parent list and world position are as before, and its whole world transform is as before when it was consistent with its local one |
| HelpFunctions.GetLocalNormal | src/HelpFunctions.py:41-59 | the result is axis 1 of the node's world orientation expressed relative to `semiParent`; afterwards the node's parent list and world orientation are as before |
| HelpFunctions.Distance | src/HelpFunctions.py:62-71 | the distance is non-negative and its square is the sum of the squared coordinate differences |
| HelpFunctions.DistanceSymmetric | src/HelpFunctions.py:62-71 | the distance from a to b equals the distance from b to a |
| HelpFunctions.DistanceZeroIffSame | src/HelpFunctions.py:62-71 | the distance is zero if and only if the two points are the same |
| HelpFunctions.DistanceExample | src/HelpFunctions.py:126-129 | two points that differ by (1, 3, 7), as (1, 2, 3) and (2, 5, 10) do, are at a distance that squares to 59 and lies between 7.6811457478 and 7.6811457479 |
| Manipulation.ZoomFactor | src/GrabAndZoom.py:134 | the factor times the initial distance is the new distance |
| Manipulation.StartGrab | src/GrabAndZoom.py:153-164 | the record saves the object's effective parent from before the call and names the grabber; the object is reparented below the grabber keeping its world pose |
| Manipulation.StopGrab | src/GrabAndZoom.py:167-172 | the object is reparented below the saved parent keeping its world pose |
| Manipulation.StartZoom | src/GrabAndZoom.py:104-123 | the record holds the zoomers' world distance from before the call and the object's effective parent from before the call; the helper is turned toward the other zoomer and set to unit scale, and the object hangs below the helper |
| Manipulation.UpdateZoom | src/GrabAndZoom.py:126-134 | the helper is turned toward the other zoomer and scaled on all three axes by the returned factor, which times the initial distance is the zoomers' current distance; while the zoomers are exactly as far apart as when the zoom started, the helper stays at unit scale, so the object is not resized |
| Manipulation.StopZoom | src/GrabAndZoom.py:137-145 | the object is reparented below the saved parent and the helper is set back to unit scale |
| Manipulation.AddFollowers | src/GrabAndZoom.py:37-49 | one fresh group per tracker, no two the same, each directly below the root at the identity transform; every existing node is unchanged |
| Manipulation.AfterRelease | src/GrabAndZoom.py:83-87 | keeps the session invariant; slot `h` ends empty, and an empty slot leaves the session unchanged |
| Manipulation.AfterTake | src/GrabAndZoom.py:64-66 | keeps the session invariant; slot `h` holds a grab of the target by grabber `h` that saves the target's effective parent |
| Manipulation.AfterPromote | src/GrabAndZoom.py:69-75 | keeps the session invariant; both slots end empty and a zoom runs |
| Manipulation.AfterGrab | src/GrabAndZoom.py:59-75 | keeps the session invariant and the target; while zooming the session is unchanged |
| Manipulation.AfterZoomStop | src/GrabAndZoom.py:88-92 | keeps the session invariant; the zoom is gone, the update is unregistered, both slots are empty |
| Manipulation.AfterUngrab | src/GrabAndZoom.py:78-96 | keeps the session invariant and the target; afterwards no zoom runs, no update is registered and slot `h` is empty |
| Manipulation.GrabAndZoom.constructor | src/GrabAndZoom.py:23-49 | both slots empty, no zoom, no update, the given target; one fresh grabber and one fresh zoomer per tracker, all of them different nodes, so no zoomer is a grabber; existing nodes unchanged; the new session is settled |
| Manipulation.GrabAndZoom.Create | src/GrabAndZoom.py:23-34 | fails exactly when more than two trackers are given, and then leaves the scene unchanged; otherwise a valid object with empty slots and no zoom, one grabber and one zoomer per tracker, no zoomer a grabber, and every existing node unchanged |
| Manipulation.GrabAndZoom.SetItem | src/GrabAndZoom.py:52-56 | only the target changes: slots, zoom, update flag and all nodes are unchanged |
| Manipulation.GrabAndZoom.Grab | src/GrabAndZoom.py:59-75 | the new state is `AfterGrab` of the old one |
| Manipulation.GrabAndZoom.Take | src/GrabAndZoom.py:64-66 | the new state is `AfterTake` of the old one |
| Manipulation.GrabAndZoom.Promote | src/GrabAndZoom.py:68-75 | the new state is `AfterPromote` of the old one |
| Manipulation.GrabAndZoom.ReleaseBoth | src/GrabAndZoom.py:71-73 | the new state is hand `h` released, then the other hand released |
| Manipulation.GrabAndZoom.Ungrab | src/GrabAndZoom.py:78-96 | the new state is `AfterUngrab` of the old one |
| Manipulation.GrabAndZoom.Release | src/GrabAndZoom.py:83-87 | the new state is `AfterRelease` of the old one |
| Manipulation.GrabAndZoom.HandOver | src/GrabAndZoom.py:88-96 | the new state is `AfterUngrab` of the old one, while zooming |
| Manipulation.GrabAndZoom.EndZoom | src/GrabAndZoom.py:90-92 | the new state is `AfterZoomStop` of the old one |
| Manipulation.GrabAndZoom.GrabOthers | src/GrabAndZoom.py:93-96 | the loop over both hand indices amounts to one grab by the hand other than `h` |
| Manipulation.GrabAndZoom.OnUpdate | src/GrabAndZoom.py:126-134 | the invariant holds afterwards; the new scene is the old one with the helper turned toward the other zoomer and scaled by the returned factor on all axes, so no other node changes; and the factor times the initial distance is the zoomers' distance; with the zoomers as far apart as at the start, that scale is the unit scale |
| GrabScenarios.GrabHangsTargetOnGrabber | src/GrabAndZoom.py:64-66 | when not zooming and the other hand does not hold the target, slot `h` records the target with its effective parent, the target's parent list becomes `[grabber h]`, and no zoom starts |
| GrabScenarios.GrabKeepsTargetPose | src/GrabAndZoom.py:153-164 | such a grab changes no node but the target and keeps the target's world position and orientation |
| GrabScenarios.SecondHandStartsZoom | src/GrabAndZoom.py:69-75 | grabbing the object the other hand holds empties both slots, registers the update, hangs the object below zoomer 0 at unit scale, and records the zoomers' distance and the parent the other hand's grab saved; the object keeps its world position and orientation |
| GrabScenarios.GrabZoomsIff | src/GrabAndZoom.py:69-70 | a grab results in a zoom if and only if one was running or the other hand holds the target; different objects never promote |
| GrabScenarios.ReleaseRestoresSavedParent | src/GrabAndZoom.py:83-87 | releasing a held grab when not zooming empties that slot and gives the object the parent list of its saved parent |
| GrabScenarios.ReleaseKeepsPose | src/GrabAndZoom.py:167-172 | such a release changes no node but the object and keeps its world position and orientation |
| GrabScenarios.GrabReleaseRestoresParent | src/GrabAndZoom.py:59-87 | one hand grabbing and then letting go, while not zooming and with the other hand not holding the target, empties that hand's slot, hangs the target back below the first parent it started under, keeps its world position and orientation, and changes no other node |
| GrabScenarios.ZoomReleaseHandsOver | src/GrabAndZoom.py:88-96 | releasing while zooming, with the target still the zoomed object, ends the zoom and unregisters the update; the other slot holds the object with the zoom's saved parent, the object hangs below that hand's grabber, and the helper is at unit scale; the object keeps its world position and orientation through the hand-over |
| GrabScenarios.GrabBothStartsZoom | src/GrabAndZoom.py:71-74 | from empty hands, grabs by both hands start a zoom whose saved parent is the object's effective parent from before the first grab |
| GrabScenarios.ReleaseBothEndsZoom | src/GrabAndZoom.py:78-96 | releasing both hands of a zoom, in either order, with the target still the zoomed object, ends with empty slots, no zoom, and the object below the zoom's saved parent |
| GrabScenarios.GrabBothReleaseBothRestoresParent | src/GrabAndZoom.py:59-96 | after grab, grab, release, release the object's effective parent is the one it started with, and a parent list of at most one parent is restored exactly |
| GrabScenarios.RepeatedGrabKeepsGrabber | src/GrabAndZoom.py:66 | grabbing twice with the same hand saves the grabber itself as the parent to give back, so releasing leaves the object below that grabber |
| GrabScenarios.GrabKeepsSettled | src/GrabAndZoom.py:59-75 | from a settled session (every recorded object directly below its hand's grabber, no object recorded by both slots), `grab` leads to a settled session |
| GrabScenarios.UngrabKeepsSettled | src/GrabAndZoom.py:78-96 | from a settled session, `ungrab` leads to a settled session, both when releasing and when ending a zoom with a hand-over |

## Left out

- Rotation math (`lookAt`, Euler composition, `getNormal`, converting between world and parent coordinates) is uninterpreted. So the worked example of `get_local_position` (src/HelpFunctions.py:106-114) is not proved, and no contract states an orientation beyond which engine function produces it.
- The engine's propagation of a node's transform change to its descendants is not modelled: an engine call changes the entry of the node it addresses only.
- `viz.link` of the trackers to the followers (src/GrabAndZoom.py:40, 48) is not modelled. A follower's transform is whatever the scene holds, and hand motion does not appear.
- The per-frame callback registration is a boolean flag, and the engine firing it is the method `OnUpdate`. Scheduling is not modelled.
- Floating-point arithmetic is modelled with reals. `math.sqrt` is a parameter that returns a non-negative root for non-negative arguments.
- `Manipulation.UpdateZoom`: demands a nonzero initial distance, because the source divides by it without a guard. A zoom started with both hands at the same point is not covered.
- `Manipulation.GrabAndZoom.OnUpdate`: demands a nonzero initial distance for the same reason.
- `Manipulation.GrabAndZoom.Grab`: when not zooming, demands a hand index below 2 with a grabber for that hand, and a target. The source fails with an index error or on `None` in those cases. While zooming it demands nothing and does nothing, as the source does.
- `Manipulation.GrabAndZoom.Ungrab`: demands a hand index below 2 and, while zooming, a target. When not zooming the source fails with a `KeyError` for a larger index, because the slots are a dictionary keyed 0 and 1 (src/GrabAndZoom.py:33, 84). While zooming with no target, the source stops the zoom and then fails in `_Grab.__init__` on `get_parent(None)` (src/GrabAndZoom.py:90-96, 161). While zooming with an index of 2 or more, it grabs with both hands, and that starts a new zoom (src/GrabAndZoom.py:94-96). Neither case is modelled.
- `Manipulation.GrabAndZoom.SetItem`: demands that the new target is a scene node other than the root and the follower nodes. Some grabs of a follower would make a node its own parent, which the scene model rules out: a hand grabbing its own grabber, or a zoom of zoomer 0. Other grabs of a follower would not, for example hand 0 grabbing grabber 1, but the model excludes all followers. Every caller passes a scene object (src/ToothVR.py:222, 280, 287).
- `setParent(viz.WORLD)` leaves an empty parent list: a node below the root reports no parents. This is what `get_parent` and the restore loop of `get_local_position` rely on.
- `trackers` is modelled by its number only. The trackers themselves are engine objects.
- Object identity (`is`) is modelled as equality of nodes.
- src/Controls.py, src/ToothVR.py, src/config.py and src/vizconnect_config_steamvr.py are not part of this model. They are application wiring, device configuration and input forwarding.
