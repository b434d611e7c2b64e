/** The game's global state (game.js:9-24) as one object, and the
    functions of game.js that change it: `loadLevel` and `loadLevelNode`,
    `updateObjectAnimation`, the physics part of `animate`, the key handlers
    and the grapple handlers. Each method is proved to change the state as
    the matching function of `SceneBuilder`, `AnimationPlayer` or `Physics`
    says. */
module GameState {
  import opened Schema
  import opened AnimationPlayer
  import opened SceneBuilder
  import opened Physics

  /** An entry of `animatedObjects`: a built object with an animation the
      frame loop can step. */
  predicate Animated(o: SceneObject)
  {
    o.NodeObject? && o.animation.Some? && Playable(o.animation.value)
  }

  /** The object after one `updateObjectAnimation` call with `relativeTime`. */
  function Advanced(o: SceneObject, relativeTime: real): (r: SceneObject)
    requires Animated(o)
    ensures Animated(r)
  {
    o.(animation := Some(Step(o.animation.value, relativeTime)))
  }

  class Game {
    var moveForward: bool
    var moveBackward: bool
    var moveLeft: bool
    var moveRight: bool
    var canJump: bool
    var grappleTarget: Option<Vec3>
    var velocity: Vec3
    /** The camera's position, which is also the player's
        (`controls.getObject()` is the camera). */
    var position: Vec3
    var spawnPoint: Vec3
    var objects: seq<SceneObject>
    var animatedObjects: seq<SceneObject>
    var isLoading: bool
    /** How many times `loadRandomLevel` has been called: the fetch and the
        load it starts are outside this model. */
    ghost var levelRequests: nat

    ghost predicate Valid()
      reads this
    {
      forall i :: 0 <= i < |animatedObjects| ==> Animated(animatedObjects[i])
    }

    function Moves(): MoveFlags
      reads this
    {
      MoveFlags(moveForward, moveBackward, moveLeft, moveRight)
    }

    /** The part of the state the handlers and the frame step change. */
    ghost function Player(): PlayerState
      reads this
    {
      PlayerState(velocity, position, spawnPoint, canJump, isLoading, grappleTarget,
                  Moves(), levelRequests)
    }

    /** The globals as the script starts (game.js:9-24), with the camera
        placed at eye height (game.js:405). */
    constructor ()
      ensures Valid()
      ensures Player() == PlayerState(Vec3(0.0, 0.0, 0.0), Vec3(0.0, PlayerHeight, 0.0), Vec3(0.0, PlayerHeight, 0.0),
                                      false, true, None, MoveFlags(false, false, false, false), 0)
      ensures objects == [] && animatedObjects == []
    {
      moveForward, moveBackward, moveLeft, moveRight := false, false, false, false;
      canJump := false;
      grappleTarget := None;
      velocity := Vec3(0.0, 0.0, 0.0);
      position := Vec3(0.0, PlayerHeight, 0.0);
      spawnPoint := Vec3(0.0, PlayerHeight, 0.0);
      objects := [];
      animatedObjects := [];
      isLoading := true;
      levelRequests := 0;
    }

    /** `loadLevel` (game.js:479-531) without the scene, sky and fog: the
        lists start over with the player's object, the velocity is zeroed,
        the nodes are loaded in order, and loading ends. The spawn point is
        not reset: a level without a Start keeps the previous one. When the
        loading throws (an empty node list or an empty group, which the
        decoder leaves out), `isLoading` is never cleared and the state is
        whatever the nodes loaded before the throw left. */
    method LoadLevel(level: Level)
      modifies this
      ensures Valid()
      ensures LevelLoads(level) ==> !isLoading
      ensures !LevelLoads(level) ==> isLoading == old(isLoading)
      ensures objects == [PlayerControls] + ObjectsOfAll(level.levelNodes)
      ensures |objects| == 1 + RecognisedCount(PreOrderAll(level.levelNodes))
      ensures animatedObjects == AnimatedOfAll(level.levelNodes)
      ensures spawnPoint == SpawnOfAll(level.levelNodes, old(spawnPoint))
      ensures position == if HasStart(ObjectsOfAll(level.levelNodes)) then spawnPoint else old(position)
      ensures velocity == Vec3(0.0, 0.0, 0.0)
      ensures canJump == old(canJump) && grappleTarget == old(grappleTarget) && Moves() == old(Moves())
      ensures levelRequests == old(levelRequests)
    {
      objects := [PlayerControls];
      animatedObjects := [];
      velocity := Vec3(0.0, 0.0, 0.0);
      var completed := LoadLevelNodes(level.levelNodes);
      ObjectCount(level.levelNodes);
      AnimatedAreRegisteredAll(level.levelNodes);
      forall i | 0 <= i < |animatedObjects|
        ensures Animated(animatedObjects[i])
      {
        assert Registered(animatedObjects[i]);
      }
      if completed {
        isLoading := false;
      }
    }

    /** `nodes.forEach(node => loadLevelNode(node, parent))`
        (game.js:493-495, 554-556), with `completed` false where it throws:
        at once for an empty (left-out) list, and after the first node
        whose own loading throws, the rest being skipped. */
    method LoadLevelNodes(nodes: seq<LevelNode>) returns (completed: bool)
      modifies this
      ensures completed <==> |nodes| > 0 && CompletesAll(nodes)
      ensures objects == old(objects) + ObjectsOfAll(nodes)
      ensures animatedObjects == old(animatedObjects) + AnimatedOfAll(nodes)
      ensures spawnPoint == SpawnOfAll(nodes, old(spawnPoint))
      ensures position == if HasStart(ObjectsOfAll(nodes)) then spawnPoint else old(position)
      ensures velocity == old(velocity) && canJump == old(canJump) && isLoading == old(isLoading)
      ensures grappleTarget == old(grappleTarget) && Moves() == old(Moves()) && levelRequests == old(levelRequests)
      decreases nodes, 0
    {
      if nodes == [] {
        return false;
      }
      completed := true;
      var i := 0;
      while i < |nodes| && completed
        invariant i <= |nodes|
        invariant completed == CompletesAll(nodes[..i])
        invariant objects == old(objects) + ObjectsOfAll(nodes[..i])
        invariant animatedObjects == old(animatedObjects) + AnimatedOfAll(nodes[..i])
        invariant spawnPoint == SpawnOfAll(nodes[..i], old(spawnPoint))
        invariant position == if HasStart(ObjectsOfAll(nodes[..i])) then spawnPoint else old(position)
        invariant velocity == old(velocity) && canJump == old(canJump) && isLoading == old(isLoading)
        invariant grappleTarget == old(grappleTarget) && Moves() == old(Moves()) && levelRequests == old(levelRequests)
      {
        assert nodes[..i + 1][..i] == nodes[..i];
        ghost var before := ObjectsOfAll(nodes[..i]);
        ghost var spawn := spawnPoint;
        LoadStep(nodes, i, old(spawnPoint));
        completed := LoadLevelNode(nodes[i]);
        HasStartAppend(before, ObjectsOf(nodes[i]));
        SpawnIsLastStart(nodes[i], spawn);
        LastStartSpawnCases(ObjectsOf(nodes[i]), spawn, spawn);
        i := i + 1;
      }
      if completed {
        assert nodes[..i] == nodes;
      } else {
        AbortStopsTheLoad(nodes, i, old(spawnPoint));
      }
    }

    /** The frames of the node's first animation with every left-out
        component written as 0 (game.js:747-756), and the cursor at 0
        (game.js:758); none when the node has no animated first animation
        (game.js:746). */
    static method DefaultedAnimation(node: LevelNode) returns (anim: Option<AnimationState>)
      ensures anim == RegisteredAnimation(node)
    {
      if |node.animations| > 0 && |node.animations[0].frames| > 0 {
        var animation := node.animations[0];
        var frames: seq<KeyFrame> := [];
        for i := 0 to |animation.frames|
          invariant frames == DefaultFrames(animation.frames[..i])
        {
          assert animation.frames[..i + 1][..i] == animation.frames[..i];
          var frame := animation.frames[i];
          frames := frames + [KeyFrame(OrZero(frame.time), Resolve(frame.position), ResolveQuat(frame.rotation))];
        }
        assert animation.frames[..|animation.frames|] == animation.frames;
        anim := Some(AnimationState(animation.name, frames, animation.direction, animation.speed, 0));
      } else {
        anim := None;
      }
    }

    /** `loadLevelNode` (game.js:533-762): the branch of the first content
        field present builds the node's object and pushes it; a group then
        loads its children; a Start node moves the spawn point and the
        camera; an object with an animated first animation is registered
        after all that, unless a group's recursion threw (`completed`
        false), which skips the registration and leaves the group's entry
        without its animation. */
    method LoadLevelNode(node: LevelNode) returns (completed: bool)
      modifies this
      ensures completed == Completes(node)
      ensures objects == old(objects) + ObjectsOf(node)
      ensures animatedObjects == old(animatedObjects) + AnimatedOf(node)
      ensures spawnPoint == SpawnOf(node, old(spawnPoint))
      ensures position == if HasStart(ObjectsOf(node)) then spawnPoint else old(position)
      ensures velocity == old(velocity) && canJump == old(canJump) && isLoading == old(isLoading)
      ensures grappleTarget == old(grappleTarget) && Moves() == old(Moves()) && levelRequests == old(levelRequests)
      decreases node, 1
    {
      var anim := DefaultedAnimation(node);
      if node.levelNodeGroup.Some? {
        completed := LoadGroupNode(node, anim);
      } else {
        var built := LoadLeafNode(node, anim);
        completed := true;
        assert Pushed(node) == built;
        if built.Some? && anim.Some? {
          animatedObjects := animatedObjects + [built.value];
        }
      }
    }

    /** The group branch of `loadLevelNode` (game.js:536-556) and the
        registration block after it (game.js:744-760): the group's object is
        pushed before its children are loaded, and only when their loading
        returns does it get its animation, through the reference already in
        `objects`, and a place in `animatedObjects`. */
    method LoadGroupNode(node: LevelNode, anim: Option<AnimationState>) returns (completed: bool)
      requires node.levelNodeGroup.Some? && anim == RegisteredAnimation(node)
      modifies this
      ensures completed == Completes(node)
      ensures objects == old(objects) + ObjectsOf(node)
      ensures animatedObjects == old(animatedObjects) + AnimatedOf(node)
      ensures spawnPoint == SpawnOf(node, old(spawnPoint))
      ensures position == if HasStart(ObjectsOf(node)) then spawnPoint else old(position)
      ensures velocity == old(velocity) && canJump == old(canJump) && isLoading == old(isLoading)
      ensures grappleTarget == old(grappleTarget) && Moves() == old(Moves()) && levelRequests == old(levelRequests)
      decreases node, 0
    {
      var o := GroupObjectOf(node, node.levelNodeGroup.value, anim);
      var cs := node.levelNodeGroup.value.childNodes;
      var at := |objects|;
      objects := objects + [o.(animation := None)];
      completed := LoadLevelNodes(cs);
      GroupContributes(node, old(spawnPoint));
      if completed && anim.Some? {
        // `object.animation = …` (game.js:757) writes through the entry
        // pushed before the recursion.
        ghost var rest := ObjectsOfAll(cs);
        assert objects == old(objects) + [o.(animation := None)] + rest;
        objects := objects[at := o];
        assert objects == old(objects) + [o] + rest;
        animatedObjects := animatedObjects + [o];
      }
    }

    /** The branches of `loadLevelNode` for a node that is not a group
        (game.js:557-742): the object of the first content field present is
        pushed, and a Start node moves the spawn point and the camera to
        just above it (game.js:726-727). */
    method LoadLeafNode(node: LevelNode, anim: Option<AnimationState>) returns (built: Option<SceneObject>)
      requires node.levelNodeGroup.None? && anim == RegisteredAnimation(node)
      modifies this
      ensures built == BuildObject(node)
      ensures objects == old(objects) + ObjectsOf(node)
      ensures spawnPoint == SpawnOf(node, old(spawnPoint))
      ensures position == if HasStart(ObjectsOf(node)) then spawnPoint else old(position)
      ensures animatedObjects == old(animatedObjects)
      ensures velocity == old(velocity) && canJump == old(canJump) && isLoading == old(isLoading)
      ensures grappleTarget == old(grappleTarget) && Moves() == old(Moves()) && levelRequests == old(levelRequests)
    {
      built := None;
      if node.levelNodeGravity.Some? {
        var o := GravityObjectOf(node, node.levelNodeGravity.value, anim);
        objects := objects + [o];
        built := Some(o);
      } else if node.levelNodeStatic.Some? {
        var o := StaticObjectOf(node, node.levelNodeStatic.value, anim);
        objects := objects + [o];
        built := Some(o);
      } else if node.levelNodeCrumbling.Some? {
        var o := CrumblingObjectOf(node, node.levelNodeCrumbling.value, anim);
        objects := objects + [o];
        built := Some(o);
      } else if node.levelNodeSign.Some? {
        var o := SignObjectOf(node, node.levelNodeSign.value, anim);
        objects := objects + [o];
        built := Some(o);
      } else if node.levelNodeStart.Some? {
        var o := StartObjectOf(node, node.levelNodeStart.value, anim);
        objects := objects + [o];
        built := Some(o);
        position := StartSpawn(o);
        spawnPoint := StartSpawn(o);
        assert IsStart([o][0]);
      } else if node.levelNodeFinish.Some? {
        var o := FinishObjectOf(node, node.levelNodeFinish.value, anim);
        objects := objects + [o];
        built := Some(o);
      }
      assert built == BuildObject(node);
      if built.Some? {
        assert ObjectsOf(node) == [built.value];
        assert HasStart([built.value]) <==> IsStart(built.value) by {
          assert [built.value][0] == built.value;
        }
      }
    }

    /** `updateObjectAnimation` (game.js:764-798) for the `k`-th animated
        object, given its relative time: the search loop moves the persisted
        cursor, and the frame pair it settles on and the interpolation factor
        are returned for the transform update, which is not modelled. */
    method UpdateObjectAnimation(k: nat, relativeTime: real) returns (oldIndex: nat, newIndex: nat, factor: real)
      requires Valid() && k < |animatedObjects|
      modifies this
      ensures Valid()
      ensures animatedObjects == old(animatedObjects)[k := Advanced(old(animatedObjects[k]), relativeTime)]
      ensures objects == old(objects) && Player() == old(Player())
      ensures var a := old(animatedObjects[k]).animation.value;
        var r := SearchFrom(a.frames, a.currentFrameIndex, relativeTime, 0);
        oldIndex == r.oldIndex && newIndex == r.newIndex
        && factor == InterpolationFactor(relativeTime, a.frames[oldIndex].time, a.frames[newIndex].time)
    {
      var built := animatedObjects[k];
      var animation := built.animation.value;
      var cursor, found;
      ghost var passes;
      cursor, oldIndex, newIndex, found, passes := FindFramePair(animation.frames, animation.currentFrameIndex, relativeTime);
      var oldFrame, newFrame := animation.frames[oldIndex], animation.frames[newIndex];
      factor := 0.0;
      var timeDiff := newFrame.time - oldFrame.time;
      if Abs(timeDiff) > Epsilon {
        factor := (relativeTime - oldFrame.time) / timeDiff;
      }
      animatedObjects := animatedObjects[k := built.(animation := Some(animation.(currentFrameIndex := cursor)))];
    }

    /** The first half of ground contact (game.js:834-846), entered with the
        decayed velocity: the vertical velocity is bounced, clamped and
        nudged by the nearest hit `first`, the jump becomes eligible, and
        the height snaps onto the hit. */
    method Touch(first: Hit)
      modifies this
      ensures velocity == old(velocity).(y := GroundVelocity(old(velocity).y, first, old(position).y))
      ensures position == old(position).(y := SnapHeight(old(position).y, first))
      ensures canJump
      ensures isLoading == old(isLoading) && levelRequests == old(levelRequests) && spawnPoint == old(spawnPoint)
      ensures grappleTarget == old(grappleTarget) && Moves() == old(Moves())
      ensures objects == old(objects) && animatedObjects == old(animatedObjects)
    {
      if IsBouncing(first) {
        velocity := velocity.(y := Abs(velocity.y * BounceFactor));
      }
      velocity := velocity.(y := Max(0.0, velocity.y));
      canJump := true;
      if first.point.y > position.y - PlayerHeight / 2.0 {
        velocity := velocity.(y := velocity.y + 1.0);
      }
      if first.point.y > position.y - PlayerHeight / 3.0 {
        position := position.(y := first.point.y + (PlayerHeight / 3.0) * 2.0);
      }
    }

    /** The hit loop of game.js:848-860 at speed `speed`: ice, finish and
        lava hits in order, as `ScanHits` says. */
    method ScanContacts(hits: seq<Hit>, speed: real) returns (newSpeed: real)
      modifies this
      ensures Scan(canJump, newSpeed, isLoading, position, levelRequests)
           == ScanHits(Scan(old(canJump), speed, old(isLoading), old(position), old(levelRequests)), hits, spawnPoint)
      ensures velocity == old(velocity) && spawnPoint == old(spawnPoint)
      ensures grappleTarget == old(grappleTarget) && Moves() == old(Moves())
      ensures objects == old(objects) && animatedObjects == old(animatedObjects)
    {
      ghost var start := Scan(canJump, speed, isLoading, position, levelRequests);
      newSpeed := speed;
      var i := 0;
      while i < |hits|
        invariant i <= |hits|
        invariant Scan(canJump, newSpeed, isLoading, position, levelRequests) == ScanHits(start, hits[..i], spawnPoint)
        invariant velocity == old(velocity) && spawnPoint == old(spawnPoint)
        invariant grappleTarget == old(grappleTarget) && Moves() == old(Moves())
        invariant objects == old(objects) && animatedObjects == old(animatedObjects)
      {
        assert hits[..i + 1][..i] == hits[..i];
        if IsIce(hits[i]) {
          canJump := false;
          newSpeed := newSpeed * IceSpeedFactor;
        }
        if IsFinish(hits[i]) && !isLoading {
          isLoading := true;
          levelRequests := levelRequests + 1;
        }
        if IsLava(hits[i]) {
          position := spawnPoint;
        }
        i := i + 1;
      }
      assert hits[..i] == hits;
    }

    /** The loop of game.js:886-888: one `updateObjectAnimation` per animated
        object, in list order, the `j`-th with `relativeTimes[j]`. */
    method UpdateAnimations(relativeTimes: seq<real>)
      requires Valid() && |relativeTimes| == |animatedObjects|
      modifies this
      ensures Valid() && |animatedObjects| == |old(animatedObjects)|
      ensures forall j :: 0 <= j < |animatedObjects| ==> animatedObjects[j] == Advanced(old(animatedObjects[j]), relativeTimes[j])
      ensures objects == old(objects) && Player() == old(Player())
    {
      for j := 0 to |animatedObjects|
        invariant Valid() && |animatedObjects| == |old(animatedObjects)|
        invariant Player() == old(Player()) && objects == old(objects)
        invariant forall m :: 0 <= m < j ==> animatedObjects[m] == Advanced(old(animatedObjects[m]), relativeTimes[m])
        invariant forall m :: j <= m < |animatedObjects| ==> animatedObjects[m] == old(animatedObjects[m])
      {
        var _, _, _ := UpdateObjectAnimation(j, relativeTimes[j]);
      }
    }

    /** The steering of game.js:864-869: the input direction from the move
        flags, normalised (`diagonalScale` is 1/sqrt 2), accelerates the
        horizontal velocity by `speed * delta`. */
    method Steering(speed: real, delta: real, diagonalScale: real)
      modifies this
      ensures velocity == Steer(old(velocity), Moves(), speed, delta, diagonalScale)
      ensures position == old(position) && spawnPoint == old(spawnPoint) && canJump == old(canJump)
      ensures isLoading == old(isLoading) && levelRequests == old(levelRequests)
      ensures grappleTarget == old(grappleTarget) && Moves() == old(Moves())
      ensures objects == old(objects) && animatedObjects == old(animatedObjects)
    {
      var dz := Number(moveForward) - Number(moveBackward);
      var dx := Number(moveRight) - Number(moveLeft);
      var unit := if dz != 0 && dx != 0 then diagonalScale else 1.0;
      var heading := Vec3((dx as real) * unit, 0.0, (dz as real) * unit);
      assert heading == Heading(Moves(), diagonalScale);
      ghost var v := velocity;
      if moveForward || moveBackward {
        velocity := velocity.(z := velocity.z - heading.z * speed * delta);
      }
      if moveLeft || moveRight {
        velocity := velocity.(x := velocity.x - heading.x * speed * delta);
      }
      assert velocity == Steer(v, Moves(), speed, delta, diagonalScale);
    }

    /** `controls.moveRight(-velocity.x * delta)`,
        `controls.moveForward(-velocity.z * delta)` and the vertical move
        (game.js:871-874), with `right` the camera's right axis. */
    method Translate(right: Vec3, delta: real)
      modifies this
      ensures position == Travel(old(position), right, velocity, delta)
      ensures velocity == old(velocity) && spawnPoint == old(spawnPoint) && canJump == old(canJump)
      ensures isLoading == old(isLoading) && levelRequests == old(levelRequests)
      ensures grappleTarget == old(grappleTarget) && Moves() == old(Moves())
      ensures objects == old(objects) && animatedObjects == old(animatedObjects)
    {
      position := AddScaled(position, right, -velocity.x * delta);
      position := AddScaled(position, Forward(right), -velocity.z * delta);
      position := position.(y := position.y + velocity.y * delta);
    }

    /** The player part of one frame of `animate` (game.js:827-884):
        gravity and damping, ground contact from the downward ray's `hits`,
        steering, vertical movement, and the grapple clamp. */
    method Move(delta: real, hits: seq<Hit>, right: Vec3, diagonalScale: real)
      modifies this
      ensures Player() == FrameStep(old(Player()), delta, hits, right, diagonalScale)
      ensures objects == old(objects) && animatedObjects == old(animatedObjects)
    {
      ghost var p := Player();
      var speed := BaseSpeed;
      var onObject := |hits| > 0;
      velocity := Decay(velocity, delta);
      ghost var v0 := velocity;
      if onObject {
        Touch(hits[0]);
        speed := ScanContacts(hits, speed);
      }
      ghost var scan := Scan(canJump, speed, isLoading, position, levelRequests);
      ghost var vy := if onObject then GroundVelocity(v0.y, hits[0], p.position.y) else v0.y;
      assert velocity == v0.(y := vy);
      assert scan == if onObject then ScanHits(ContactStart(p, SnapHeight(p.position.y, hits[0])), hits, p.spawnPoint)
                     else Scan(p.canJump, BaseSpeed, p.isLoading, p.position, p.levelRequests);
      Steering(speed, delta, diagonalScale);
      ghost var v1 := velocity;
      assert v1 == Steer(v0.(y := vy), p.moves, scan.speed, delta, diagonalScale);
      Translate(right, delta);
      assert position == Travel(scan.position, right, v1, delta);
      if grappleTarget.Some? {
        velocity := velocity.(y := Max(0.0, velocity.y));
      }
      assert velocity == v1.(y := if p.grappleTarget.Some? then Max(0.0, v1.y) else v1.y);
      assert Player() == p.(velocity := velocity, position := position, canJump := scan.canJump,
                            isLoading := scan.isLoading, levelRequests := scan.levelRequests);
    }

    /** One frame of `animate` (game.js:814-889) without rendering and the
        grapple pull: the player moves, then every animated object is
        updated with the relative time given for it. */
    method Animate(delta: real, hits: seq<Hit>, relativeTimes: seq<real>, right: Vec3, diagonalScale: real)
      requires Valid() && |relativeTimes| == |animatedObjects|
      modifies this
      ensures Valid()
      ensures Player() == FrameStep(old(Player()), delta, hits, right, diagonalScale)
      ensures objects == old(objects) && |animatedObjects| == |old(animatedObjects)|
      ensures forall j :: 0 <= j < |animatedObjects| ==> animatedObjects[j] == Advanced(old(animatedObjects[j]), relativeTimes[j])
    {
      Move(delta, hits, right, diagonalScale);
      UpdateAnimations(relativeTimes);
    }

    /** `handleKey` (game.js:893-927). */
    method HandleKey(code: KeyCode, shiftKey: bool)
      modifies this
      ensures Player() == KeyDown(old(Player()), code, shiftKey)
      ensures objects == old(objects) && animatedObjects == old(animatedObjects)
    {
      match code
      case ArrowUp => moveForward := true;
      case KeyW => moveForward := true;
      case ArrowLeft => moveLeft := true;
      case KeyA => moveLeft := true;
      case ArrowDown => moveBackward := true;
      case KeyS => moveBackward := true;
      case ArrowRight => moveRight := true;
      case KeyD => moveRight := true;
      case Space =>
        if canJump {
          velocity := velocity.(y := velocity.y + JumpImpulse);
          if shiftKey {
            velocity := velocity.(y := velocity.y + JumpImpulse);
          }
        }
        canJump := false;
      case KeyR => levelRequests := levelRequests + 1;
      case OtherKey =>
    }

    /** `handleKeyUp` (game.js:929-951). */
    method HandleKeyUp(code: KeyCode)
      modifies this
      ensures Player() == KeyUp(old(Player()), code)
      ensures objects == old(objects) && animatedObjects == old(animatedObjects)
    {
      match code
      case ArrowUp => moveForward := false;
      case KeyW => moveForward := false;
      case ArrowLeft => moveLeft := false;
      case KeyA => moveLeft := false;
      case ArrowDown => moveBackward := false;
      case KeyS => moveBackward := false;
      case ArrowRight => moveRight := false;
      case KeyD => moveRight := false;
      case _ =>
    }

    /** `onWindowClick` (game.js:953-974) given whether the pointer is
        locked and the hits of the ray along the view direction. */
    method OnWindowClick(locked: bool, hits: seq<Hit>)
      modifies this
      ensures Player() == Click(old(Player()), locked, hits)
      ensures objects == old(objects) && animatedObjects == old(animatedObjects)
    {
      if locked {
        if |hits| > 0 {
          var i := 0;
          while i < |hits|
            invariant i <= |hits|
            invariant forall j :: 0 <= j < i ==> !IsGrapplable(hits[j])
            invariant Player() == old(Player())
          {
            if IsGrapplable(hits[i]) {
              ClickTargets(old(Player()), hits, i);
              grappleTarget := Some(hits[i].point);
              break;
            }
            i := i + 1;
          }
        }
      }
    }

    /** `onWindowRelease` (game.js:976-978). */
    method OnWindowRelease()
      modifies this
      ensures Player() == Release(old(Player()))
      ensures objects == old(objects) && animatedObjects == old(animatedObjects)
    {
      grappleTarget := None;
    }
  }
}
