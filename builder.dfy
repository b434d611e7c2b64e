/** What `loadLevelNode` (game.js:533-762) builds for a level tree, as
    values: the object each node turns into, the pre-order list of objects
    the recursion pushes, the list of animated objects, and the spawn point
    the Start nodes leave behind. The imperative recursion that pushes into
    the game's lists is `GameState.Game.LoadLevelNode`; it is proved to
    produce exactly these values. */
module SceneBuilder {
  import opened Schema
  import opened AnimationPlayer

  /** `shapes` holds one model per entry of `shapeList` (game.js:38-46). */
  const ShapeCount: nat := 7
  /** `materials` holds one material per entry of `materialList` (game.js:26-37). */
  const MaterialCount: nat := 10

  const SignShapeIndex: nat := 5
  const StartFinishShapeIndex: nat := 6
  const SignMaterialIndex: nat := 4
  const CrumblingMaterialIndex: nat := 7

  /** Which branch of the builder's if/else chain a node takes. */
  datatype ObjectKind =
    | GroupObject | GravityObject | StaticObject | CrumblingObject
    | SignObject | StartObject | FinishObject

  /** The material an object gets: none (group, gravity), one of the
      `materials` by index with the `colors` uniform, or the start or finish
      shader material. */
  datatype Surface =
    | NoSurface
    | LevelMaterial(index: nat, colors: Vec3)
    | StartSurface
    | FinishSurface

  /** The scale the builder writes; a `None` component keeps the scale of
      the cloned model (signs; y of start and finish). */
  datatype ScaleSetting = ScaleSetting(x: Option<real>, y: Option<real>, z: Option<real>)

  /** An entry of `objects`: the player's camera object pushed first by
      `loadLevel`, or an object built from a node. `node` is that node,
      which the source stores as `grabNodeData` in the registration block
      (game.js:745); a group whose recursion threw never gets there, and
      then `animation` is `None` as well (see `Pushed`). `position` and `rotation` are also the object's
      `initialPosition` and `initialRotation`; a `None` rotation keeps the
      cloned model's (finish). `shape` is `None` for the plain containers. */
  datatype SceneObject =
    | PlayerControls
    | NodeObject(
        kind: ObjectKind,
        node: LevelNode,
        shape: Option<nat>,
        surface: Surface,
        position: Vec3,
        rotation: Option<Quat>,
        scale: ScaleSetting,
        animation: Option<AnimationState>)

  /** Whether the content field that branch `k` looks at is there. */
  predicate Present(node: LevelNode, k: ObjectKind)
  {
    match k
    case GroupObject => node.levelNodeGroup.Some?
    case GravityObject => node.levelNodeGravity.Some?
    case StaticObject => node.levelNodeStatic.Some?
    case CrumblingObject => node.levelNodeCrumbling.Some?
    case SignObject => node.levelNodeSign.Some?
    case StartObject => node.levelNodeStart.Some?
    case FinishObject => node.levelNodeFinish.Some?
  }

  /** The position of branch `k` in the if/else chain (game.js:535-743). */
  function Precedence(k: ObjectKind): nat
  {
    match k
    case GroupObject => 0
    case GravityObject => 1
    case StaticObject => 2
    case CrumblingObject => 3
    case SignObject => 4
    case StartObject => 5
    case FinishObject => 6
  }

  /** The branch the builder takes: the first content field, in the chain's
      order, that is there; none when no field is. */
  function Dispatch(node: LevelNode): (r: Option<ObjectKind>)
    ensures r.None? ==> forall k :: !Present(node, k)
    ensures r.Some? ==> Present(node, r.value)
    ensures r.Some? ==> forall k :: Precedence(k) < Precedence(r.value) ==> !Present(node, k)
  {
    if node.levelNodeGroup.Some? then Some(GroupObject)
    else if node.levelNodeGravity.Some? then Some(GravityObject)
    else if node.levelNodeStatic.Some? then Some(StaticObject)
    else if node.levelNodeCrumbling.Some? then Some(CrumblingObject)
    else if node.levelNodeSign.Some? then Some(SignObject)
    else if node.levelNodeStart.Some? then Some(StartObject)
    else if node.levelNodeFinish.Some? then Some(FinishObject)
    else None
  }

  /** A node as the decoder produces it has at most one `oneof` case set;
      for such a node the precedence does not matter: the branch taken is
      the case that is set. */
  lemma DispatchOfOneof(node: LevelNode, k: ObjectKind)
    requires Present(node, k)
    requires forall k' :: Present(node, k') ==> k' == k
    ensures Dispatch(node) == Some(k)
  {
  }

  /** The model a static or crumbling node gets (game.js:603-607, 654-658):
      `shapes[shape - 1000]` when that index is in range, else `shapes[0]`. */
  function ShapeIndex(shape: int): (r: nat)
    ensures r < ShapeCount
    ensures r == shape - 1000 <==> 0 <= shape - 1000 < ShapeCount
    ensures r != shape - 1000 ==> r == 0
  {
    if 0 <= shape - 1000 < ShapeCount then shape - 1000 else 0
  }

  /** The material a static node gets (game.js:608-611): `materials[m]` when
      `m` is nonzero and in range, else `materials[0]`. */
  function StaticMaterialIndex(material: int): (r: nat)
    ensures r < MaterialCount
    ensures r == material <==> 0 <= material < MaterialCount
    ensures r != material ==> r == 0
  {
    if material != 0 && 0 <= material < MaterialCount then material else 0
  }

  const White: Vec3 := Vec3(1.0, 1.0, 1.0)

  /** The `colors` uniform of a static node's material: white as the
      materials are created (game.js:337), or for the colored material the
      node's color with left-out channels read as 0 (game.js:612-616). */
  function StaticColors(s: LevelNodeStatic): Vec3
  {
    if s.material == MaterialDefaultColored then Vec3(OrZero(s.color.r), OrZero(s.color.g), OrZero(s.color.b))
    else White
  }

  function FullScale(v: Vector): ScaleSetting
  {
    ScaleSetting(Some(OrZero(v.x)), Some(OrZero(v.y)), Some(OrZero(v.z)))
  }

  function RadiusScale(radius: Option<real>): ScaleSetting
  {
    ScaleSetting(Some(OrZero(radius)), None, Some(OrZero(radius)))
  }

  /** One frame with every left-out component written as 0 (game.js:748-755). */
  function DefaultFrame(f: AnimationFrame): KeyFrame
  {
    KeyFrame(OrZero(f.time), Resolve(f.position), ResolveQuat(f.rotation))
  }

  function DefaultFrames(frames: seq<AnimationFrame>): (r: seq<KeyFrame>)
    ensures |r| == |frames|
    ensures forall i :: 0 <= i < |frames| ==> r[i] == DefaultFrame(frames[i])
  {
    if frames == [] then [] else DefaultFrames(frames[..|frames| - 1]) + [DefaultFrame(frames[|frames| - 1])]
  }

  /** Whether the builder registers the node's object as animated
      (game.js:746): `animations[0]` is there and has a frame. */
  predicate HasAnimation(node: LevelNode)
  {
    |node.animations| > 0 && |node.animations[0].frames| > 0
  }

  /** The animation a registered object carries: only `animations[0]`, its
      frames defaulted, its cursor at 0 (game.js:747-758). */
  function RegisteredAnimation(node: LevelNode): (r: Option<AnimationState>)
    ensures r.Some? <==> HasAnimation(node)
    ensures r.Some? ==> Playable(r.value) && r.value.currentFrameIndex == 0
  {
    if HasAnimation(node) then
      var a := node.animations[0];
      Some(AnimationState(a.name, DefaultFrames(a.frames), a.direction, a.speed, 0))
    else None
  }

  /** The object of each branch (game.js:536-552, 567-584, 602-635,
      653-675, 693-705, 709-723, 730-740), with its animation `anim`. */
  function GroupObjectOf(node: LevelNode, g: LevelNodeGroup, anim: Option<AnimationState>): SceneObject
  {
    NodeObject(GroupObject, node, None, NoSurface, Resolve(g.position), Some(ResolveQuat(g.rotation)), FullScale(g.scale), anim)
  }

  function GravityObjectOf(node: LevelNode, g: LevelNodeGravity, anim: Option<AnimationState>): SceneObject
  {
    NodeObject(GravityObject, node, None, NoSurface, Resolve(g.position), Some(ResolveQuat(g.rotation)), FullScale(g.scale), anim)
  }

  function StaticObjectOf(node: LevelNode, s: LevelNodeStatic, anim: Option<AnimationState>): SceneObject
  {
    NodeObject(StaticObject, node, Some(ShapeIndex(s.shape)),
      LevelMaterial(StaticMaterialIndex(s.material), StaticColors(s)),
      Resolve(s.position), Some(ResolveQuat(s.rotation)), FullScale(s.scale), anim)
  }

  function CrumblingObjectOf(node: LevelNode, c: LevelNodeCrumbling, anim: Option<AnimationState>): SceneObject
  {
    NodeObject(CrumblingObject, node, Some(ShapeIndex(c.shape)),
      LevelMaterial(CrumblingMaterialIndex, White),
      Resolve(c.position), Some(ResolveQuat(c.rotation)), FullScale(c.scale), anim)
  }

  function SignObjectOf(node: LevelNode, s: LevelNodeSign, anim: Option<AnimationState>): SceneObject
  {
    NodeObject(SignObject, node, Some(SignShapeIndex), LevelMaterial(SignMaterialIndex, White),
      Resolve(s.position), Some(ResolveQuat(s.rotation)), ScaleSetting(None, None, None), anim)
  }

  function StartObjectOf(node: LevelNode, s: LevelNodeStart, anim: Option<AnimationState>): SceneObject
  {
    NodeObject(StartObject, node, Some(StartFinishShapeIndex), StartSurface,
      Resolve(s.position), Some(ResolveQuat(s.rotation)), RadiusScale(s.radius), anim)
  }

  function FinishObjectOf(node: LevelNode, f: LevelNodeFinish, anim: Option<AnimationState>): SceneObject
  {
    NodeObject(FinishObject, node, Some(StartFinishShapeIndex), FinishSurface,
      Resolve(f.position), None, RadiusScale(f.radius), anim)
  }

  /** The object the builder makes for `node` itself (children aside), or
      none when the node has no content it recognises. */
  function BuildObject(node: LevelNode): (r: Option<SceneObject>)
    ensures r.Some? <==> Dispatch(node).Some?
    ensures r.Some? ==> r.value.NodeObject? && r.value.node == node && r.value.kind == Dispatch(node).value
    ensures r.Some? ==> r.value.animation == RegisteredAnimation(node)
    ensures r.Some? && r.value.surface.LevelMaterial? ==> r.value.surface.index < MaterialCount
    ensures r.Some? && r.value.shape.Some? ==> r.value.shape.value < ShapeCount
    ensures r.Some? && r.value.kind in {GroupObject, GravityObject} ==> r.value.shape.None? && r.value.surface.NoSurface?
    ensures r.Some? && r.value.kind == StaticObject ==>
      var s := node.levelNodeStatic.value;
      r.value.shape == Some(ShapeIndex(s.shape))
      && r.value.surface == LevelMaterial(StaticMaterialIndex(s.material), StaticColors(s))
      && r.value.position == Resolve(s.position)
    ensures r.Some? && r.value.kind == CrumblingObject ==>
      var c := node.levelNodeCrumbling.value;
      r.value.shape == Some(ShapeIndex(c.shape))
      && r.value.surface == LevelMaterial(CrumblingMaterialIndex, White)
      && r.value.position == Resolve(c.position)
    ensures r.Some? && r.value.kind == SignObject ==>
      r.value.shape == Some(SignShapeIndex) && r.value.surface == LevelMaterial(SignMaterialIndex, White)
      && r.value.scale == ScaleSetting(None, None, None)
    ensures r.Some? && r.value.kind == StartObject ==>
      var st := node.levelNodeStart.value;
      r.value.shape == Some(StartFinishShapeIndex) && r.value.surface == StartSurface
      && r.value.position == Resolve(st.position) && r.value.scale == RadiusScale(st.radius)
    ensures r.Some? && r.value.kind == FinishObject ==>
      var f := node.levelNodeFinish.value;
      r.value.shape == Some(StartFinishShapeIndex) && r.value.surface == FinishSurface
      && r.value.position == Resolve(f.position) && r.value.rotation.None? && r.value.scale == RadiusScale(f.radius)
  {
    var anim := RegisteredAnimation(node);
    match Dispatch(node)
    case None => None
    case Some(GroupObject) => Some(GroupObjectOf(node, node.levelNodeGroup.value, anim))
    case Some(GravityObject) => Some(GravityObjectOf(node, node.levelNodeGravity.value, anim))
    case Some(StaticObject) => Some(StaticObjectOf(node, node.levelNodeStatic.value, anim))
    case Some(CrumblingObject) => Some(CrumblingObjectOf(node, node.levelNodeCrumbling.value, anim))
    case Some(SignObject) => Some(SignObjectOf(node, node.levelNodeSign.value, anim))
    case Some(StartObject) => Some(StartObjectOf(node, node.levelNodeStart.value, anim))
    case Some(FinishObject) => Some(FinishObjectOf(node, node.levelNodeFinish.value, anim))
  }

  /** The children the builder recurses into: a group's child nodes; no
      other branch recurses. */
  function Children(node: LevelNode): seq<LevelNode>
  {
    if node.levelNodeGroup.Some? then node.levelNodeGroup.value.childNodes else []
  }

  /** Whether `loadLevelNode(node)` returns normally. A group whose child
      list is empty has no `childNodes` field at all (the decoder's
      `toObject` leaves empty repeated fields out), so the `forEach` of
      game.js:554 throws; a group also aborts when one of its children
      does. Every other node returns normally. */
  predicate Completes(node: LevelNode)
    decreases node, 1
  {
    node.levelNodeGroup.Some? ==>
      |node.levelNodeGroup.value.childNodes| > 0 && CompletesAll(node.levelNodeGroup.value.childNodes)
  }

  /** Whether loading `nodes` one after the other gets through all of them. */
  predicate CompletesAll(nodes: seq<LevelNode>)
    decreases nodes, 0
  {
    nodes == [] || (CompletesAll(nodes[..|nodes| - 1]) && Completes(nodes[|nodes| - 1]))
  }

  /** Whether `loadLevel` gets to its end: the level has nodes (an empty
      `levelNodes` is left out, and the `forEach` of game.js:493 throws) and
      none of them aborts. */
  predicate LevelLoads(level: Level)
  {
    |level.levelNodes| > 0 && CompletesAll(level.levelNodes)
  }

  /** The entry a node leaves in `objects` once its own loading has
      returned or thrown. The object is pushed before a group's recursion,
      and the registration block (game.js:744-760) writes its `animation`
      through that same reference afterwards; a group whose recursion threw
      never reaches that block, so its entry has no animation. */
  function Pushed(node: LevelNode): (r: Option<SceneObject>)
    ensures r.Some? <==> BuildObject(node).Some?
    ensures r.Some? ==> r.value.NodeObject?
    ensures Completes(node) ==> r == BuildObject(node)
    ensures r.Some? && !Completes(node) ==> r.value.animation.None? && r.value.kind == GroupObject
    ensures r.Some? ==> r.value.(animation := None) == BuildObject(node).value.(animation := None)
  {
    match BuildObject(node)
    case None => None
    case Some(o) => Some(if Completes(node) then o else o.(animation := None))
  }

  /** What `loadLevelNode(node)` leaves in `objects`, up to an abort: its
      own entry (a group's before its children's, so an empty group is
      pushed before its `forEach` throws), then its children's in document
      order. */
  function ObjectsOf(node: LevelNode): seq<SceneObject>
    decreases node, 1
  {
    match Pushed(node)
    case None => []
    case Some(o) => [o] + (if node.levelNodeGroup.Some? then ObjectsOfAll(node.levelNodeGroup.value.childNodes) else [])
  }

  function ObjectsOfAll(nodes: seq<LevelNode>): seq<SceneObject>
    decreases nodes, 0
  {
    if nodes == [] then []
    else if !CompletesAll(nodes[..|nodes| - 1]) then ObjectsOfAll(nodes[..|nodes| - 1])
    else ObjectsOfAll(nodes[..|nodes| - 1]) + ObjectsOf(nodes[|nodes| - 1])
  }

  /** What `loadLevelNode(node)` pushes into `animatedObjects`, up to an
      abort: its children's first, because the registration at
      game.js:744-760 runs after the recursion, then its own object when it
      is animated and the recursion returned normally. */
  function AnimatedOf(node: LevelNode): seq<SceneObject>
    decreases node, 1
  {
    match BuildObject(node)
    case None => []
    case Some(o) =>
      (if node.levelNodeGroup.Some? then AnimatedOfAll(node.levelNodeGroup.value.childNodes) else [])
      + (if Completes(node) && o.animation.Some? then [o] else [])
  }

  function AnimatedOfAll(nodes: seq<LevelNode>): seq<SceneObject>
    decreases nodes, 0
  {
    if nodes == [] then []
    else if !CompletesAll(nodes[..|nodes| - 1]) then AnimatedOfAll(nodes[..|nodes| - 1])
    else AnimatedOfAll(nodes[..|nodes| - 1]) + AnimatedOf(nodes[|nodes| - 1])
  }

  /** Where a Start node puts the spawn point and the camera: its position
      (relative to its parent) raised by the eye height (game.js:726-727). */
  function StartSpawn(o: SceneObject): Vec3
    requires o.NodeObject?
  {
    Vec3(o.position.x, o.position.y + PlayerHeight, o.position.z)
  }

  predicate IsStart(o: SceneObject)
  {
    o.NodeObject? && o.kind == StartObject
  }

  /** The spawn point after `loadLevelNode(node)` starting from `spawn`. */
  function SpawnOf(node: LevelNode, spawn: Vec3): Vec3
    decreases node, 1
  {
    match BuildObject(node)
    case None => spawn
    case Some(o) =>
      if IsStart(o) then StartSpawn(o)
      else if node.levelNodeGroup.Some? then SpawnOfAll(node.levelNodeGroup.value.childNodes, spawn)
      else spawn
  }

  function SpawnOfAll(nodes: seq<LevelNode>, spawn: Vec3): Vec3
    decreases nodes, 0
  {
    if nodes == [] then spawn
    else if !CompletesAll(nodes[..|nodes| - 1]) then SpawnOfAll(nodes[..|nodes| - 1], spawn)
    else SpawnOf(nodes[|nodes| - 1], SpawnOfAll(nodes[..|nodes| - 1], spawn))
  }

  // ---------------------------------------------------------------------
  // Reference definitions over the flat list, and the lemmas tying the
  // tree walk to them.

  /** The nodes the recursion is called on, in calling order: a node, then
      (for a group) its children's visits, in pre-order and up to the first
      abort. */
  function PreOrder(node: LevelNode): seq<LevelNode>
    decreases node, 1
  {
    [node] + (if node.levelNodeGroup.Some? then PreOrderAll(node.levelNodeGroup.value.childNodes) else [])
  }

  function PreOrderAll(nodes: seq<LevelNode>): seq<LevelNode>
    decreases nodes, 0
  {
    if nodes == [] then []
    else if !CompletesAll(nodes[..|nodes| - 1]) then PreOrderAll(nodes[..|nodes| - 1])
    else PreOrderAll(nodes[..|nodes| - 1]) + PreOrder(nodes[|nodes| - 1])
  }

  /** The entries of a list of visited nodes, each node contributing its own
      entry if it has one. */
  function BuiltAll(nodes: seq<LevelNode>): seq<SceneObject>
  {
    if nodes == [] then []
    else BuiltAll(nodes[..|nodes| - 1]) + (match Pushed(nodes[|nodes| - 1]) case None => [] case Some(o) => [o])
  }

  /** How many of `nodes` have content the builder recognises. */
  function RecognisedCount(nodes: seq<LevelNode>): nat
  {
    if nodes == [] then 0
    else RecognisedCount(nodes[..|nodes| - 1]) + (if Dispatch(nodes[|nodes| - 1]).Some? then 1 else 0)
  }

  lemma {:induction false} BuiltAllAppend(a: seq<LevelNode>, b: seq<LevelNode>)
    ensures BuiltAll(a + b) == BuiltAll(a) + BuiltAll(b)
    ensures RecognisedCount(a + b) == RecognisedCount(a) + RecognisedCount(b)
    decreases |b|
  {
    if b == [] {
      assert a + b == a;
    } else {
      var b' := b[..|b| - 1];
      assert (a + b)[..|a + b| - 1] == a + b';
      assert (a + b)[|a + b| - 1] == b[|b| - 1];
      BuiltAllAppend(a, b');
    }
  }

  lemma {:induction false} BuiltAllCount(nodes: seq<LevelNode>)
    ensures |BuiltAll(nodes)| == RecognisedCount(nodes)
    decreases |nodes|
  {
    if nodes != [] {
      BuiltAllCount(nodes[..|nodes| - 1]);
    }
  }

  /** The builder's object list is the pre-order visit with the
      unrecognised nodes dropped: a group's object comes before its
      children's, siblings keep document order, and a node without
      recognised content contributes nothing (not even its subtree, since
      only groups have children). */
  lemma {:induction false} ObjectsArePreOrder(node: LevelNode)
    ensures ObjectsOf(node) == BuiltAll(PreOrder(node))
    decreases node, 1
  {
    var cs := Children(node);
    if node.levelNodeGroup.Some? {
      ObjectsArePreOrderAll(node.levelNodeGroup.value.childNodes);
    }
    BuiltAllAppend([node], PreOrderAll(cs));
    assert BuiltAll([node]) == [] + (match Pushed(node) case None => [] case Some(o) => [o]);
    if Pushed(node).None? {
      assert cs == [];
      assert PreOrderAll(cs) == [];
    }
  }

  lemma {:induction false} ObjectsArePreOrderAll(nodes: seq<LevelNode>)
    ensures ObjectsOfAll(nodes) == BuiltAll(PreOrderAll(nodes))
    decreases nodes, 0
  {
    if nodes != [] {
      var init, last := nodes[..|nodes| - 1], nodes[|nodes| - 1];
      ObjectsArePreOrderAll(init);
      ObjectsArePreOrder(last);
      BuiltAllAppend(PreOrderAll(init), PreOrder(last));
    }
  }

  /** The number of objects a level tree adds is the number of visited
      nodes with recognised content. */
  lemma ObjectCount(nodes: seq<LevelNode>)
    ensures |ObjectsOfAll(nodes)| == RecognisedCount(PreOrderAll(nodes))
  {
    ObjectsArePreOrderAll(nodes);
    BuiltAllCount(PreOrderAll(nodes));
  }

  /** The objects among `objs` that carry an animation. */
  function WithAnimation(objs: seq<SceneObject>): seq<SceneObject>
  {
    if objs == [] then []
    else
      var o := objs[|objs| - 1];
      WithAnimation(objs[..|objs| - 1]) + (if o.NodeObject? && o.animation.Some? then [o] else [])
  }

  lemma {:induction false} WithAnimationAppend(a: seq<SceneObject>, b: seq<SceneObject>)
    ensures WithAnimation(a + b) == WithAnimation(a) + WithAnimation(b)
    decreases |b|
  {
    if b == [] {
      assert a + b == a;
    } else {
      var b' := b[..|b| - 1];
      assert (a + b)[..|a + b| - 1] == a + b';
      assert (a + b)[|a + b| - 1] == b[|b| - 1];
      WithAnimationAppend(a, b');
    }
  }

  /** `animatedObjects` holds exactly the entries of `objects` that carry
      an animation, each once: the same multiset, though in a different
      order (a group after its children). This holds after an abort too: a
      group whose recursion threw is neither registered nor given its
      animation. */
  lemma {:induction false} AnimatedAreTheAnimatedObjects(node: LevelNode)
    ensures multiset(AnimatedOf(node)) == multiset(WithAnimation(ObjectsOf(node)))
    decreases node, 1
  {
    match BuildObject(node)
    case None =>
    case Some(b) =>
      var o := Pushed(node).value;
      var cs := Children(node);
      var registered := if Completes(node) && b.animation.Some? then [b] else [];
      if node.levelNodeGroup.Some? {
        AnimatedAreTheAnimatedObjectsAll(node.levelNodeGroup.value.childNodes);
      }
      assert ObjectsOf(node) == [o] + ObjectsOfAll(cs);
      assert AnimatedOf(node) == AnimatedOfAll(cs) + registered;
      WithAnimationAppend([o], ObjectsOfAll(cs));
      assert [o][..0] == [];
      assert WithAnimation([o]) == registered;
  }

  lemma {:induction false} AnimatedAreTheAnimatedObjectsAll(nodes: seq<LevelNode>)
    ensures multiset(AnimatedOfAll(nodes)) == multiset(WithAnimation(ObjectsOfAll(nodes)))
    decreases nodes, 0
  {
    if nodes != [] {
      var init, last := nodes[..|nodes| - 1], nodes[|nodes| - 1];
      AnimatedAreTheAnimatedObjectsAll(init);
      if CompletesAll(init) {
        AnimatedAreTheAnimatedObjects(last);
        WithAnimationAppend(ObjectsOfAll(init), ObjectsOf(last));
      }
    }
  }

  /** What loading a group adds, in terms of its children: its own entry
      (with its animation only when the recursion returned), then theirs;
      its registration comes after theirs; the spawn point and the Start
      objects are its children's. */
  lemma GroupContributes(node: LevelNode, spawn: Vec3)
    requires node.levelNodeGroup.Some?
    ensures var g := node.levelNodeGroup.value;
      var o := GroupObjectOf(node, g, RegisteredAnimation(node));
      && Completes(node) == (|g.childNodes| > 0 && CompletesAll(g.childNodes))
      && ObjectsOf(node) == [if Completes(node) then o else o.(animation := None)] + ObjectsOfAll(g.childNodes)
      && AnimatedOf(node) == AnimatedOfAll(g.childNodes) + (if Completes(node) && o.animation.Some? then [o] else [])
      && SpawnOf(node, spawn) == SpawnOfAll(g.childNodes, spawn)
      && (HasStart(ObjectsOf(node)) <==> HasStart(ObjectsOfAll(g.childNodes)))
  {
    var g := node.levelNodeGroup.value;
    var o := GroupObjectOf(node, g, RegisteredAnimation(node));
    var e := if Completes(node) then o else o.(animation := None);
    HasStartAppend([e], ObjectsOfAll(g.childNodes));
    assert [e][0] == e;
  }

  /** Loading one more node after a prefix that returned normally appends
      that node's contribution. */
  lemma LoadStep(nodes: seq<LevelNode>, i: nat, spawn: Vec3)
    requires i < |nodes| && CompletesAll(nodes[..i])
    ensures CompletesAll(nodes[..i + 1]) == Completes(nodes[i])
    ensures ObjectsOfAll(nodes[..i + 1]) == ObjectsOfAll(nodes[..i]) + ObjectsOf(nodes[i])
    ensures AnimatedOfAll(nodes[..i + 1]) == AnimatedOfAll(nodes[..i]) + AnimatedOf(nodes[i])
    ensures SpawnOfAll(nodes[..i + 1], spawn) == SpawnOf(nodes[i], SpawnOfAll(nodes[..i], spawn))
  {
    assert nodes[..i + 1][..i] == nodes[..i];
  }

  /** Once a prefix of `nodes` aborts, the rest is never loaded: the objects,
      the registrations, the spawn point and the visited nodes are those of
      the prefix. */
  lemma {:induction false} AbortStopsTheLoad(nodes: seq<LevelNode>, j: nat, spawn: Vec3)
    requires j <= |nodes| && !CompletesAll(nodes[..j])
    ensures !CompletesAll(nodes)
    ensures ObjectsOfAll(nodes) == ObjectsOfAll(nodes[..j])
    ensures AnimatedOfAll(nodes) == AnimatedOfAll(nodes[..j])
    ensures SpawnOfAll(nodes, spawn) == SpawnOfAll(nodes[..j], spawn)
    ensures PreOrderAll(nodes) == PreOrderAll(nodes[..j])
    decreases |nodes|
  {
    if j < |nodes| {
      var init := nodes[..|nodes| - 1];
      assert init[..j] == nodes[..j];
      AbortStopsTheLoad(init, j, spawn);
    } else {
      assert nodes[..j] == nodes;
    }
  }

  /** A level whose first node is a group without children: the group is
      pushed, its `forEach` throws, and nothing after it is loaded or
      registered. */
  lemma EmptyGroupAbortsTheLoad(group: LevelNode, rest: seq<LevelNode>, spawn: Vec3)
    requires group.levelNodeGroup.Some? && group.levelNodeGroup.value.childNodes == []
    ensures !Completes(group) && !CompletesAll([group] + rest)
    ensures ObjectsOfAll([group] + rest) == [GroupObjectOf(group, group.levelNodeGroup.value, None)]
    ensures AnimatedOfAll([group] + rest) == []
    ensures SpawnOfAll([group] + rest, spawn) == spawn
  {
    var nodes := [group] + rest;
    assert nodes[..1] == [group];
    assert nodes[..1][..0] == [];
    AbortStopsTheLoad(nodes, 1, spawn);
  }

  /** Every registered object is a built object whose animation is its
      node's first animation with defaulted frames and the cursor at 0. */
  predicate Registered(o: SceneObject)
  {
    && o.NodeObject?
    && HasAnimation(o.node)
    && o.animation == RegisteredAnimation(o.node)
  }

  lemma {:induction false} AnimatedAreRegistered(node: LevelNode)
    ensures forall o :: o in AnimatedOf(node) ==> Registered(o)
    decreases node, 1
  {
    match BuildObject(node)
    case None =>
    case Some(o) =>
      if node.levelNodeGroup.Some? {
        AnimatedAreRegisteredAll(node.levelNodeGroup.value.childNodes);
      }
  }

  lemma {:induction false} AnimatedAreRegisteredAll(nodes: seq<LevelNode>)
    ensures forall o :: o in AnimatedOfAll(nodes) ==> Registered(o)
    decreases nodes, 0
  {
    if nodes != [] {
      AnimatedAreRegisteredAll(nodes[..|nodes| - 1]);
      AnimatedAreRegistered(nodes[|nodes| - 1]);
    }
  }

  /** The spawn point a list of objects leaves: each Start object in turn
      overwrites it, so the last one wins. */
  function LastStartSpawn(objs: seq<SceneObject>, spawn: Vec3): Vec3
  {
    if objs == [] then spawn
    else
      var o := objs[|objs| - 1];
      if IsStart(o) then StartSpawn(o) else LastStartSpawn(objs[..|objs| - 1], spawn)
  }

  lemma {:induction false} LastStartSpawnAppend(a: seq<SceneObject>, b: seq<SceneObject>, spawn: Vec3)
    ensures LastStartSpawn(a + b, spawn) == LastStartSpawn(b, LastStartSpawn(a, spawn))
    decreases |b|
  {
    if b == [] {
      assert a + b == a;
    } else {
      var b' := b[..|b| - 1];
      assert (a + b)[..|a + b| - 1] == a + b';
      assert (a + b)[|a + b| - 1] == b[|b| - 1];
      LastStartSpawnAppend(a, b', spawn);
    }
  }

  /** The spawn point after loading a tree is the one of the LAST Start
      object in the pre-order object list, or the old one if there is none. */
  lemma {:induction false} SpawnIsLastStart(node: LevelNode, spawn: Vec3)
    ensures SpawnOf(node, spawn) == LastStartSpawn(ObjectsOf(node), spawn)
    decreases node, 1
  {
    match Pushed(node)
    case None =>
    case Some(o) =>
      var cs := Children(node);
      if node.levelNodeGroup.Some? {
        SpawnIsLastStartAll(node.levelNodeGroup.value.childNodes, spawn);
      }
      LastStartSpawnAppend([o], ObjectsOfAll(cs), spawn);
      assert [o][..0] == [];
      if IsStart(o) {
        assert cs == [];
        assert ObjectsOf(node) == [o];
      } else {
        assert LastStartSpawn([o], spawn) == spawn;
      }
  }

  lemma {:induction false} SpawnIsLastStartAll(nodes: seq<LevelNode>, spawn: Vec3)
    ensures SpawnOfAll(nodes, spawn) == LastStartSpawn(ObjectsOfAll(nodes), spawn)
    decreases nodes, 0
  {
    if nodes != [] {
      var init, last := nodes[..|nodes| - 1], nodes[|nodes| - 1];
      SpawnIsLastStartAll(init, spawn);
      SpawnIsLastStart(last, SpawnOfAll(init, spawn));
      LastStartSpawnAppend(ObjectsOfAll(init), ObjectsOf(last), spawn);
    }
  }

  /** With no Start object among them, the objects leave the spawn point as
      it was; with one, it no longer depends on the old spawn point. */
  lemma {:induction false} LastStartSpawnCases(objs: seq<SceneObject>, spawn: Vec3, other: Vec3)
    ensures !HasStart(objs) ==> LastStartSpawn(objs, spawn) == spawn
    ensures HasStart(objs) ==> LastStartSpawn(objs, spawn) == LastStartSpawn(objs, other)
    decreases |objs|
  {
    if objs != [] {
      var init := objs[..|objs| - 1];
      LastStartSpawnCases(init, spawn, other);
      HasStartAppend(init, [objs[|objs| - 1]]);
      assert init + [objs[|objs| - 1]] == objs;
    }
  }

  /** Some object of `objs` is a Start object. */
  predicate HasStart(objs: seq<SceneObject>)
  {
    exists i :: 0 <= i < |objs| && IsStart(objs[i])
  }

  lemma HasStartAppend(a: seq<SceneObject>, b: seq<SceneObject>)
    ensures HasStart(a + b) <==> HasStart(a) || HasStart(b)
  {
    if HasStart(a + b) {
      var i :| 0 <= i < |a + b| && IsStart((a + b)[i]);
      if i >= |a| {
        assert IsStart(b[i - |a|]);
      }
    }
    if HasStart(b) {
      var i :| 0 <= i < |b| && IsStart(b[i]);
      assert IsStart((a + b)[|a| + i]);
    }
    if HasStart(a) {
      var i :| 0 <= i < |a| && IsStart(a[i]);
      assert IsStart((a + b)[i]);
    }
  }
}
