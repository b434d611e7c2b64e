# Grabventure game logic in Dafny

Grabventure is a browser viewer for GRAB levels. It fetches a random level
as a protobuf document, builds a three.js scene from the tree of level nodes,
and lets the player walk, jump and grapple through it. This project models
the discrete game logic of `game.js` and proves properties about it:

- **Schema** (`schema.dfy`): the level document (`Level`, `LevelNode` and its
  content cases, vectors, quaternions, animations) as the decoder hands it
  over. Every float the decoder may leave out is an `Option<real>`, and the
  game's `x || 0` is `OrZero`. An empty list is left out by the decoder as
  well, so `[]` stands for an absent list. Shape and material are open
  enums, so they are plain integers.
- **Scene builder** (`builder.dfy`): what `loadLevelNode` makes of each node,
  as values:
  - the dispatch precedence (group, gravity, static, crumbling, sign, start,
    finish);
  - the shape and material index fallbacks;
  - the defaulted animation frames;
  - the pre-order list of objects;
  - the post-order list of animated objects;
  - the spawn point left by the last Start node;
  - where loading throws: `levelNodes` and `childNodes` are iterated with an
    unguarded `forEach`, so an empty level or an empty group (whose list the
    decoder left out) aborts the load. The object lists then stop at that
    point, the aborted group's entry never gets its animation, and
    `isLoading` stays set.
- **Animation cursor** (`animation.dfy`): the bounded search loop of
  `updateObjectAnimation` over the persisted `currentFrameIndex`, and the
  epsilon-guarded interpolation factor.
- **Physics and input** (`physics.dfy`): the player state and what one frame
  of `animate`, the key handlers and the grapple handlers do to it, as
  functions. The lemmas cover bounce, ice, finish, lava, jump and grapple.
- **Game** (`game.dfy`): the class `GameState.Game` holds the globals of
  `game.js` as fields. `loadLevel`, `loadLevelNode`, `updateObjectAnimation`,
  `animate`, `handleKey`, `handleKeyUp`, `onWindowClick` and `onWindowRelease`
  are its methods. Each method is proved to change the fields exactly as the
  matching function above says.

Coordinates and times are `real`s. Ray casting is not modelled: a frame step
or a click takes the ray's hits as input, nearest first. `loadRandomLevel` is
a ghost counter, `levelRequests`, of requested loads.

The schema embedded in the code and the builder disagree about shapes, and
the model follows the builder. The `LevelNodeShape` enum (game.js:107-120)
has no value 1005 or 1006. But static and crumbling nodes take
`shapes[shape - 1000]` whenever that index is below `shapes.length`, which
is 7 (game.js:603-607, 654-658). So shapes 1005 and 1006 get `shapes[5]`
and `shapes[6]`, the sign and start/finish models. Only other out-of-range
shapes fall back to the cube.

## Model

| member | source | states |
|---|---|---|
| SceneBuilder.Dispatch | game.js:535-743 | The branch taken is the first content case present, in the order group, gravity, static, crumbling, sign, start, finish: it is present and no case of higher precedence is. No branch is taken only when no case is present. |
| SceneBuilder.DispatchOfOneof | game.js:535-743 | For a node with exactly one content case set, the branch taken is that case. |
| SceneBuilder.ShapeIndex | game.js:603-607 | The model index is always below 7. It is `shape - 1000` exactly when that is in `0..6`, and otherwise 0. |
| SceneBuilder.StaticMaterialIndex | game.js:608-611 | The material index is always below 10. It is `material` exactly when that is in `0..9`, and otherwise 0. |
| SceneBuilder.DefaultFrames | game.js:747-756 | One frame per input frame, in order, with every left-out time, position or rotation component read as 0. |
| SceneBuilder.RegisteredAnimation | game.js:746-758 | A node gets an animation iff `animations[0]` exists and has a frame. That animation is playable, with its cursor at 0. |
| SceneBuilder.BuildObject | game.js:533-743 | A node gets an object iff some branch is taken. The object has that branch's kind, records the node it was built from, carries the registered animation, and has its shape below 7 and its material below 10. Per kind: group and gravity have no shape and no surface. Static has the shape fallback, the material fallback with its colours, and its position. Crumbling has the shape fallback, material 7 in white, and its position. Sign has shape 5 and material 4, and keeps the model's own scale. Start has shape 6, the start material, its position and radius. Finish has shape 6, the finish material, its position and radius, and no rotation. |
| SceneBuilder.ObjectsArePreOrder | game.js:533-556 | The objects one node adds are the objects of its subtree's pre-order visit, up to the first abort, with unrecognised nodes dropped: a group comes before its children. |
| SceneBuilder.ObjectsArePreOrderAll | game.js:493-495 | The same for a list of sibling nodes, in document order. |
| SceneBuilder.ObjectCount | game.js:481-495 | The nodes of a level add exactly one object per visited node with recognised content. |
| SceneBuilder.Pushed | game.js:537-760 | A node has an entry iff it has an object. When its loading returns, the entry is the built object. A group whose recursion threw keeps its entry without an animation, because the write at game.js:757 is never reached. |
| SceneBuilder.AnimatedAreTheAnimatedObjects | game.js:537-760 | The animated objects a node registers are, as a multiset, exactly the entries it adds that carry an animation, also after an abort. |
| SceneBuilder.AnimatedAreTheAnimatedObjectsAll | game.js:744-760 | The same for a list of sibling nodes. |
| SceneBuilder.GroupContributes | game.js:536-556 | A group completes iff its child list is non-empty and completes. Its entry comes before its children's, and its registration after theirs. Its spawn point and Start objects are its children's. |
| SceneBuilder.LoadStep | game.js:493-495 | After siblings that all returned normally, one more sibling appends its objects, registrations and spawn point, and the list completes iff that sibling does. |
| SceneBuilder.AbortStopsTheLoad | game.js:554-556 | Once a prefix of the siblings aborts, the whole list aborts, and its objects, registrations, spawn point and visited nodes are those of the prefix. |
| SceneBuilder.EmptyGroupAbortsTheLoad | game.js:537-556 | A level starting with a group without children aborts. Only that group's object is pushed, without an animation; nothing is registered, and the spawn point is unchanged. |
| SceneBuilder.AnimatedAreRegistered | game.js:744-760 | Every registered object has a first animation with a frame, and carries exactly that animation, defaulted, with the cursor at 0. |
| SceneBuilder.AnimatedAreRegisteredAll | game.js:744-760 | The same for a list of sibling nodes. |
| SceneBuilder.SpawnIsLastStart | game.js:708-727 | The spawn point after loading a node is the one of the last Start object among the objects it adds, or the old one if there is none. |
| SceneBuilder.SpawnIsLastStartAll | game.js:493-495 | The same for a list of sibling nodes. |
| SceneBuilder.LastStartSpawnCases | game.js:726-727 | Without a Start object the spawn point is unchanged. With one, the result does not depend on the old spawn point. |
| AnimationPlayer.SearchFrom | game.js:778-791 | The loop leaves the cursor and the old frame at valid indices, and the new frame is the old one's successor with wrap-around. Leaving by `break` means the old and new frames bracket the time and the cursor stays on the old frame. Giving up leaves the cursor one past the old frame, wrapping at the last index. |
| AnimationPlayer.SearchMisses | game.js:778-791 | A search that gives up has tried, and rejected, the pair at every cursor it visited. |
| AnimationPlayer.SearchIsComplete | game.js:778-791 | A search that gives up proves that no consecutive pair `i, i+1` brackets the time, whatever the starting cursor. |
| AnimationPlayer.SingleFrameNeverFound | game.js:773-791 | A one-frame animation never brackets: the search ends at cursor 0 with old and new both frame 0. |
| AnimationPlayer.FindFramePair | game.js:773-791 | The loop runs at most `|frames| + 1` passes and agrees with `SearchFrom`. The new index is the old one plus 1 when there are two or more frames. A `break` means `old.time <= t < new.time`. Otherwise no consecutive pair brackets `t`. |
| AnimationPlayer.InterpolationFactor | game.js:793-798 | The factor is 0 when the gap is at most 1e-8. Otherwise `old + f * (new - old) == t`. When the pair brackets `t`, `0 <= f < 1`. |
| AnimationPlayer.Step | game.js:764-791 | One call keeps the frames and leaves a playable cursor. |
| AnimationPlayer.StepKeepsBracketingCursor | game.js:778-786 | A cursor that already brackets the time stays where it is. |
| Physics.GroundVelocity | game.js:834-843 | After contact, the vertical velocity is non-negative. A bouncing surface gives 0.8 times the speed: `-0.8 vy` from a fall, `0.8 vy` when moving up. Any other surface gives `max(0, vy)`. A hit above half the player's height adds 1 to either. It never decreases unless a bounce reflects an upward velocity. |
| Physics.SnapHeight | game.js:844-846 | The height never goes down and ends at least a third of the player's height above the hit. It rises iff the hit is above two thirds of the player, and then it is exactly two thirds of the player's height above the hit. |
| Physics.PrefixExists | game.js:848-860 | A hit of each kind occurs in a list iff it occurs in its prefix or is the last hit. |
| Physics.ScanIce | game.js:848-853 | The hit loop multiplies the speed by 1.5 per ice hit. The jump survives iff it was eligible and no hit is ice. |
| Physics.ScanFinish | game.js:854-857 | The hit loop leaves loading iff it was loading or some hit is a finish. It requests one level exactly when it was not loading and some hit is a finish, and none otherwise. |
| Physics.ScanLava | game.js:858-860 | The hit loop leaves the player at the spawn point iff some hit is lava, and otherwise where it was. |
| Physics.HeadingIsNormalised | game.js:864-866 | With the diagonal scale 1/sqrt 2, the normalised input direction has length 1 unless the flags cancel out, and length 0 then. |
| Physics.NotFallingOnContactOrGrapple | game.js:832-884 | After a frame with ground contact or a grapple target, the vertical velocity is non-negative. |
| Physics.JumpEligibility | game.js:832-853 | On the ground, the jump is eligible after the frame iff no hit is ice. In the air, the frame leaves eligibility unchanged. |
| Physics.FinishRequestsOnce | game.js:854-857 | A frame requests a level iff it touches a finish while not loading, and then exactly one. Afterwards it is loading iff it was, or it touched a finish. |
| Physics.FinishAcrossFrames | game.js:854-857 | Two frames in a row on a finish request at most one level. |
| Physics.LavaRespawns | game.js:858-874 | Without a grapple target, a frame touching lava ends at the spawn point moved by that frame's own velocity, whatever the old position. With a target, the model states this only for x and z, because it leaves out the grapple pull. |
| Physics.BounceReflects | game.js:836-838 | Landing from a fall on a bouncing surface, with no nudge, sends the player up at 0.8 of the fall speed. |
| Physics.IceSpeed | game.js:820-853 | The speed a frame steers with is 80 times 1.5 per ice hit. |
| Physics.KeyUpUndoesKeyDown | game.js:893-951 | A movement key's press sets its flag. Its release then restores the state exactly. |
| Physics.SpaceJumps | game.js:914-921 | Space adds 8, or 16 with Shift, to the vertical velocity only when the jump is eligible, always makes it ineligible, and leaves horizontal velocity alone. Two presses add at most 16. |
| Physics.FirstGrapplable | game.js:960-967 | None iff no hit has static material 5 or 6. Otherwise the point of such a hit with no such hit before it. |
| Physics.ClickThenRelease | game.js:953-978 | A click followed by a release leaves no target and nothing else changed, with no velocity boost. |
| Physics.ClickTargets | game.js:953-967 | A locked click sets the target to the point of the first grapplable hit. |
| GameState.Advanced | game.js:764-791 | An animated object stays animated after one update. |
| GameState.Game.constructor | game.js:9-24 | The globals start cleared, at eye height (0, 1, 0), loading, with empty lists. |
| GameState.Game.LoadLevel | game.js:479-531 | `objects` is the player object and then the tree's pre-order objects up to the first abort, one per recognised node. `animatedObjects` is the tree's registered objects, all playable. The spawn point comes from the last Start loaded, and the camera moves there iff one was loaded. Velocity is zeroed. Loading ends iff the level has nodes and no group in it is empty; otherwise `isLoading` keeps its old value. Nothing else changes. |
| GameState.Game.LoadLevelNodes | game.js:493-495 | Loading siblings in order appends their objects and animated objects and threads the spawn point through them, stopping at the first one that aborts. It completes iff the list is non-empty and every sibling completes. |
| GameState.Game.DefaultedAnimation | game.js:746-758 | The frame-defaulting loop produces exactly the registered animation of the node. |
| GameState.Game.LoadLevelNode | game.js:533-762 | The if/else chain and the recursion append exactly the node's objects and animated objects, set the spawn point from a Start, and move the camera only when a Start is loaded. It completes iff the node is not a group, or is a group whose non-empty children all complete. An aborted group stays pushed but unregistered. Nothing else changes. |
| GameState.Game.LoadGroupNode | game.js:536-760 | The group's entry is pushed first, without an animation, and its children are loaded after it. Only when they return does the entry get its animation and a place in `animatedObjects`. The spawn point and camera are the children's. Nothing else changes. |
| GameState.Game.LoadLeafNode | game.js:557-742 | A node that is not a group gets exactly its built object pushed. A Start node moves the spawn point and the camera just above itself. Nothing else changes. |
| GameState.Game.UpdateObjectAnimation | game.js:764-798 | Only the `k`-th animated object's cursor moves, as the search says. The returned frame pair and factor are the search's pair and its interpolation factor. |
| GameState.Game.Touch | game.js:834-846 | Contact sets the vertical velocity by the ground rule, makes the jump eligible and snaps the height. |
| GameState.Game.ScanContacts | game.js:848-860 | The hit loop updates jump, speed, loading, requests and position as the scan function says. |
| GameState.Game.Steering | game.js:864-869 | The horizontal velocity is accelerated along the normalised heading of the held keys. |
| GameState.Game.Translate | game.js:871-874 | The camera walks along the view by the horizontal velocity, then rises by the vertical one. |
| GameState.Game.Move | game.js:827-884 | The player state after the frame's physics is `FrameStep` of the state before. |
| GameState.Game.UpdateAnimations | game.js:886-888 | Every animated object, in order, is advanced once with its own relative time. |
| GameState.Game.Animate | game.js:814-889 | A frame moves the player as `FrameStep` says and advances every animated object once. |
| GameState.Game.HandleKey | game.js:893-927 | A key press changes the state as `KeyDown` says. |
| GameState.Game.HandleKeyUp | game.js:929-951 | A key release changes the state as `KeyUp` says. |
| GameState.Game.OnWindowClick | game.js:953-974 | The first-match loop sets the target as `Click` says: the first grapplable hit, with the pointer locked. |
| GameState.Game.OnWindowRelease | game.js:976-978 | Release clears the target and nothing else. |

## Left out

- Protobuf decoding, `fetch`, file reading and URL building (game.js:366-393, 470-477): foreign library and network I/O. A decoded `Level` is the input of `LoadLevel`, and each `loadRandomLevel` call is one step of the ghost counter `levelRequests`.
- Textures, models, shader materials and the GLSL sources (game.js:231-364): rendering assets. A surface is modelled as a material index plus its `colors` uniform, or the start/finish material.
- The scene graph (`parent.add`), world and normal matrices, sky, fog, background gradient, renderer and resize (game.js:497-528, 637-648, 890, 980-985): rendering. Object positions stay parent-relative.
- The interpolated transform of an animated object (game.js:800-811): quaternion slerp, vector lerp and `applyQuaternion` are three.js numeric routines. The model stops at the frame pair and the factor they are given.
- The relative time `(time * speed) % lastFrame.time` (game.js:767) is an input of `UpdateObjectAnimation`, because float `%` is not modelled. The caller passes the frame's `delta` rather than an accumulated time (game.js:887). An undefined `speed` would make it NaN.
- `Physics.Steer`: `direction.normalize()` needs a square root, so the reciprocal of sqrt 2 for a diagonal is the parameter `diagonalScale`. `Physics.HeadingIsNormalised` shows that the value 1/sqrt 2 normalises the direction.
- `Physics.FrameStep`: the grapple pull `camera.position.add(normalize(target - position) * 30 * delta)` (game.js:879-882) is not modelled, because it needs the square root of a distance. The vertical clamp of the same block is modelled. The camera's right axis, which `moveRight`/`moveForward` read from the camera matrix, is the parameter `right`.
- Ray casting (game.js:819-823, 956-958): the hits are an input sequence, nearest first. Each hit carries the node the object was built from and the hit point.
- The gravity node's particle cloud (game.js:559-600): `Math.random` and rendering. Only its dispatch, transform and push into `objects` are modelled. The embedded schema (game.js:214-229) has no gravity field, so the decoder drops it. On decoded input `levelNodeGravity` is always absent and this branch never runs; it is modelled as the code is written.
- SceneBuilder.ObjectsOf: an entry keeps its `node` even for a group whose recursion threw, where the source never sets `grabNodeData` (game.js:745). Nothing in the code reads that field of a group's object, because a ray never hits a plain `Object3D`.
- Aliasing: `objects` and `animatedObjects` hold values, not shared three.js objects. A cursor moved by `UpdateObjectAnimation` changes the entry in `animatedObjects` only, not the same object's entry in `objects`. The builder's in-place writes into the decoded node (frame defaults, colour channels) are not reflected in the `node` an object keeps.
- A missing sub-message (for example a static node without `position`) makes the JavaScript throw a TypeError. The model's datatypes always hold the sub-message, with left-out scalar fields.
- Pointer-lock requests and `controls.lock()` (game.js:969-972): the click handler takes whether the pointer is locked as input.
- Touch buttons and the jump button's click/dblclick handlers (game.js:431-451): DOM wiring outside `handleKey`/`handleKeyUp`.
- `animations[0].direction` and `speed` are kept but not acted on. The code has no ping-pong playback.
