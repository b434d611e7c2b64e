/** The player state of game.js and what the frame step (`animate`,
    game.js:814-884), the key handlers (game.js:893-951) and the grapple
    handlers (game.js:953-978) do to it, as functions on values. The class
    `GameState.Game` holds the same state in fields and is proved to change
    it exactly as these functions say.

    Ray casting is not modelled: a frame step or a click takes the hits the
    ray caster returned, nearest first, each with the node the hit object
    was built from and the world-space hit point. */
module Physics {
  import opened Schema

  /** One ray-cast hit: the hit object's `grabNodeData` (none for an object
      without one) and the hit point. */
  datatype Hit = Hit(node: Option<LevelNode>, point: Vec3)

  datatype MoveFlags = MoveFlags(forward: bool, backward: bool, left: bool, right: bool)

  /** The game's globals that the handlers and the frame step change:
      `velocity`, the camera position, `spawnPoint`, `canJump`, `isLoading`,
      `grappleTarget`, the `move*` flags, and the number of level loads
      requested so far (each call of `loadRandomLevel`). */
  datatype PlayerState = PlayerState(
    velocity: Vec3,
    position: Vec3,
    spawnPoint: Vec3,
    canJump: bool,
    isLoading: bool,
    grappleTarget: Option<Vec3>,
    moves: MoveFlags,
    levelRequests: nat)

  const BaseSpeed: real := 80.0
  const IceSpeedFactor: real := 1.5
  const BounceFactor: real := 0.8
  const HorizontalDamping: real := 10.0
  const GravityAcceleration: real := 9.8 * 5.0
  const JumpImpulse: real := 8.0

  /** `hit.object.grabNodeData.levelNodeStatic.material == m`. */
  predicate StaticMaterialIs(h: Hit, m: int)
  {
    h.node.Some? && h.node.value.levelNodeStatic.Some? && h.node.value.levelNodeStatic.value.material == m
  }

  predicate IsIce(h: Hit) { StaticMaterialIs(h, MaterialIce) }
  predicate IsLava(h: Hit) { StaticMaterialIs(h, MaterialLava) }
  predicate IsBouncing(h: Hit) { StaticMaterialIs(h, MaterialBouncing) }

  /** `hit.object.grabNodeData.levelNodeFinish` is there. */
  predicate IsFinish(h: Hit)
  {
    h.node.Some? && h.node.value.levelNodeFinish.Some?
  }

  /** The materials a grapple can attach to (game.js:962). */
  predicate IsGrapplable(h: Hit)
  {
    StaticMaterialIs(h, MaterialGrapplable) || StaticMaterialIs(h, MaterialGrapplableLava)
  }

  // ---------------------------------------------------------------------
  // Ground contact (game.js:832-860)

  /** Vertical velocity after touching ground whose nearest hit is `first`,
      with the player at height `y` (game.js:834-843): a bouncing surface
      first reflects it as `|0.8 vy|`, it is then clamped at 0, and a hit
      above half the player's height adds 1. */
  function GroundVelocity(vy: real, first: Hit, y: real): (r: real)
    ensures r >= 0.0
    ensures first.point.y <= y - PlayerHeight / 2.0 ==>
      r == if IsBouncing(first) then Abs(vy) * BounceFactor else Max(0.0, vy)
    ensures first.point.y > y - PlayerHeight / 2.0 ==>
      r == 1.0 + if IsBouncing(first) then Abs(vy) * BounceFactor else Max(0.0, vy)
    ensures IsBouncing(first) && vy <= 0.0 && first.point.y <= y - PlayerHeight / 2.0 ==> r == -vy * BounceFactor
    ensures IsBouncing(first) && vy > 0.0 && first.point.y <= y - PlayerHeight / 2.0 ==> r == vy * BounceFactor
    ensures first.point.y > y - PlayerHeight / 2.0 ==> r >= 1.0
    ensures r >= vy || (IsBouncing(first) && vy > 0.0)
  {
    var bounced := if IsBouncing(first) then Abs(vy * BounceFactor) else vy;
    var clamped := Max(0.0, bounced);
    if first.point.y > y - PlayerHeight / 2.0 then clamped + 1.0 else clamped
  }

  /** The player's height after standing on `first` (game.js:844-846): a hit
      above two thirds of the player puts the player two thirds of its
      height above the hit. */
  function SnapHeight(y: real, first: Hit): (r: real)
    ensures r >= y && r >= first.point.y + PlayerHeight / 3.0
    ensures r > y <==> first.point.y > y - PlayerHeight / 3.0
    ensures r > y ==> r == first.point.y + PlayerHeight * 2.0 / 3.0
    ensures r == y || r == first.point.y + PlayerHeight * 2.0 / 3.0
  {
    if first.point.y > y - PlayerHeight / 3.0 then first.point.y + (PlayerHeight / 3.0) * 2.0 else y
  }

  /** What the hit loop of game.js:848-860 carries from hit to hit. */
  datatype Scan = Scan(canJump: bool, speed: real, isLoading: bool, position: Vec3, levelRequests: nat)

  /** One pass of that loop: ice takes away the jump and multiplies the
      speed; a finish hit while not loading starts loading and requests a
      level; lava puts the camera at the spawn point. */
  function ScanHit(s: Scan, h: Hit, spawnPoint: Vec3): Scan
  {
    var s1 := if IsIce(h) then s.(canJump := false, speed := s.speed * IceSpeedFactor) else s;
    var s2 := if IsFinish(h) && !s1.isLoading then s1.(isLoading := true, levelRequests := s1.levelRequests + 1) else s1;
    if IsLava(h) then s2.(position := spawnPoint) else s2
  }

  function ScanHits(s: Scan, hits: seq<Hit>, spawnPoint: Vec3): Scan
  {
    if hits == [] then s else ScanHit(ScanHits(s, hits[..|hits| - 1], spawnPoint), hits[|hits| - 1], spawnPoint)
  }

  function Pow(b: real, k: nat): real
  {
    if k == 0 then 1.0 else b * Pow(b, k - 1)
  }

  function IceCount(hits: seq<Hit>): nat
  {
    if hits == [] then 0 else IceCount(hits[..|hits| - 1]) + (if IsIce(hits[|hits| - 1]) then 1 else 0)
  }

  predicate AnyFinish(hits: seq<Hit>)
  {
    exists i :: 0 <= i < |hits| && IsFinish(hits[i])
  }

  predicate AnyLava(hits: seq<Hit>)
  {
    exists i :: 0 <= i < |hits| && IsLava(hits[i])
  }

  predicate AnyIce(hits: seq<Hit>)
  {
    exists i :: 0 <= i < |hits| && IsIce(hits[i])
  }

  lemma PrefixExists(hits: seq<Hit>)
    requires hits != []
    ensures AnyFinish(hits) <==> AnyFinish(hits[..|hits| - 1]) || IsFinish(hits[|hits| - 1])
    ensures AnyLava(hits) <==> AnyLava(hits[..|hits| - 1]) || IsLava(hits[|hits| - 1])
    ensures AnyIce(hits) <==> AnyIce(hits[..|hits| - 1]) || IsIce(hits[|hits| - 1])
  {
  }

  /** Ice: every ice hit multiplies the speed by 1.5, and the jump survives
      the scan only when no hit is ice. */
  lemma {:induction false} ScanIce(s: Scan, hits: seq<Hit>, spawnPoint: Vec3)
    ensures ScanHits(s, hits, spawnPoint).speed == s.speed * Pow(IceSpeedFactor, IceCount(hits))
    ensures ScanHits(s, hits, spawnPoint).canJump <==> s.canJump && !AnyIce(hits)
    decreases |hits|
  {
    if hits != [] {
      ScanIce(s, hits[..|hits| - 1], spawnPoint);
      PrefixExists(hits);
    }
  }

  /** Finish: the scan ends loading iff it started loading or some hit is a
      finish, and it requests a level at most once, and only when it
      started out not loading. */
  lemma {:induction false} ScanFinish(s: Scan, hits: seq<Hit>, spawnPoint: Vec3)
    ensures ScanHits(s, hits, spawnPoint).isLoading <==> s.isLoading || AnyFinish(hits)
    ensures ScanHits(s, hits, spawnPoint).levelRequests
         == s.levelRequests + (if !s.isLoading && AnyFinish(hits) then 1 else 0)
    decreases |hits|
  {
    if hits != [] {
      ScanFinish(s, hits[..|hits| - 1], spawnPoint);
      PrefixExists(hits);
    }
  }

  /** Lava: the scan leaves the camera at the spawn point iff some hit is
      lava, and otherwise where it was. */
  lemma {:induction false} ScanLava(s: Scan, hits: seq<Hit>, spawnPoint: Vec3)
    ensures ScanHits(s, hits, spawnPoint).position == if AnyLava(hits) then spawnPoint else s.position
    decreases |hits|
  {
    if hits != [] {
      ScanLava(s, hits[..|hits| - 1], spawnPoint);
      PrefixExists(hits);
    }
  }

  // ---------------------------------------------------------------------
  // The frame step (game.js:827-884)

  /** Damping of the horizontal velocity and gravity (game.js:827-830). */
  function Decay(v: Vec3, delta: real): Vec3
  {
    Vec3(v.x - v.x * HorizontalDamping * delta, v.y - GravityAcceleration * delta, v.z - v.z * HorizontalDamping * delta)
  }

  /** JavaScript's `Number(flag)` (game.js:864-865): 1 for true, 0 for false. */
  function Number(b: bool): int { if b then 1 else 0 }

  /** `direction` after game.js:864-866: the move flags as a vector (z
      forward minus backward, x right minus left), normalised.
      `normalize()` divides by the length; the only irrational length,
      sqrt 2 for a diagonal, is passed in as its reciprocal `diagonalScale`. */
  function Heading(moves: MoveFlags, diagonalScale: real): Vec3
  {
    var dz := Number(moves.forward) - Number(moves.backward);
    var dx := Number(moves.right) - Number(moves.left);
    var unit := if dz != 0 && dx != 0 then diagonalScale else 1.0;
    Vec3((dx as real) * unit, 0.0, (dz as real) * unit)
  }

  /** With `diagonalScale` the reciprocal of sqrt 2, the heading is a unit
      vector whenever the flags do not cancel out, and zero otherwise. */
  lemma HeadingIsNormalised(moves: MoveFlags, diagonalScale: real)
    requires diagonalScale > 0.0 && 2.0 * diagonalScale * diagonalScale == 1.0
    ensures var h := Heading(moves, diagonalScale);
      var still := moves.forward == moves.backward && moves.left == moves.right;
      h.x * h.x + h.z * h.z == (if still then 0.0 else 1.0)
  {
  }

  /** The steering of game.js:868-869: a held forward or backward key
      accelerates along z, a held left or right key along x, by the
      heading times `speed * delta`. */
  function Steer(v: Vec3, moves: MoveFlags, speed: real, delta: real, diagonalScale: real): Vec3
  {
    var h := Heading(moves, diagonalScale);
    var vz := if moves.forward || moves.backward then v.z - h.z * speed * delta else v.z;
    var vx := if moves.left || moves.right then v.x - h.x * speed * delta else v.x;
    Vec3(vx, v.y, vz)
  }

  /** `v + dir * s` (three.js `addScaledVector`). */
  function AddScaled(v: Vec3, dir: Vec3, s: real): Vec3
  {
    Vec3(v.x + dir.x * s, v.y + dir.y * s, v.z + dir.z * s)
  }

  /** The direction `moveForward` walks in: the camera's up axis (0, 1, 0)
      crossed with its right axis `right`, which is horizontal. */
  function Forward(right: Vec3): Vec3
  {
    Vec3(right.z, 0.0, -right.x)
  }

  /** `controls.moveRight(-v.x * delta)` then `controls.moveForward(-v.z *
      delta)` (game.js:871-872), with `right` the first column of the
      camera's matrix. */
  function Walk(position: Vec3, right: Vec3, v: Vec3, delta: real): Vec3
  {
    AddScaled(AddScaled(position, right, -v.x * delta), Forward(right), -v.z * delta)
  }

  /** Where the player ends a frame that starts at `position` with velocity
      `v`: walked along the view, then moved up by `v.y * delta`
      (game.js:871-874). */
  function Travel(position: Vec3, right: Vec3, v: Vec3, delta: real): Vec3
  {
    var walked := Walk(position, right, v, delta);
    walked.(y := walked.y + v.y * delta)
  }

  /** The scan state a frame starts the hit loop with: the player on the
      ground may jump, at base speed, after the height snap. */
  function ContactStart(p: PlayerState, y: real): Scan
  {
    Scan(true, BaseSpeed, p.isLoading, p.position.(y := y), p.levelRequests)
  }

  /** One frame of `animate` without its rendering: decay, ground contact
      and the hit loop, steering, walking along the view, vertical movement,
      and the grapple clamp. */
  function FrameStep(p: PlayerState, delta: real, hits: seq<Hit>, right: Vec3, diagonalScale: real): PlayerState
  {
    var v0 := Decay(p.velocity, delta);
    var onObject := |hits| > 0;
    var vy := if onObject then GroundVelocity(v0.y, hits[0], p.position.y) else v0.y;
    var scan :=
      if onObject then ScanHits(ContactStart(p, SnapHeight(p.position.y, hits[0])), hits, p.spawnPoint)
      else Scan(p.canJump, BaseSpeed, p.isLoading, p.position, p.levelRequests);
    var v1 := Steer(v0.(y := vy), p.moves, scan.speed, delta, diagonalScale);
    var position := Travel(scan.position, right, v1, delta);
    var vyFinal := if p.grappleTarget.Some? then Max(0.0, v1.y) else v1.y;
    p.(velocity := v1.(y := vyFinal), position := position, canJump := scan.canJump,
       isLoading := scan.isLoading, levelRequests := scan.levelRequests)
  }

  /** After a frame on the ground, or with a grapple target set, the player
      is not falling. */
  lemma NotFallingOnContactOrGrapple(p: PlayerState, delta: real, hits: seq<Hit>, right: Vec3, diagonalScale: real)
    requires |hits| > 0 || p.grappleTarget.Some?
    ensures FrameStep(p, delta, hits, right, diagonalScale).velocity.y >= 0.0
  {
  }

  /** On the ground the jump is eligible after the frame iff no hit is ice;
      in the air the frame does not touch it. Only a Space press or jump
      button takes it away otherwise. */
  lemma JumpEligibility(p: PlayerState, delta: real, hits: seq<Hit>, right: Vec3, diagonalScale: real)
    ensures |hits| > 0 ==> (FrameStep(p, delta, hits, right, diagonalScale).canJump <==> !AnyIce(hits))
    ensures |hits| == 0 ==> FrameStep(p, delta, hits, right, diagonalScale).canJump == p.canJump
  {
    if |hits| > 0 {
      ScanIce(ContactStart(p, SnapHeight(p.position.y, hits[0])), hits, p.spawnPoint);
    }
  }

  /** A frame requests a new level iff the player touches a finish while not
      already loading, and then exactly once; afterwards it is loading. */
  lemma FinishRequestsOnce(p: PlayerState, delta: real, hits: seq<Hit>, right: Vec3, diagonalScale: real)
    ensures FrameStep(p, delta, hits, right, diagonalScale).levelRequests
         == p.levelRequests + (if !p.isLoading && AnyFinish(hits) then 1 else 0)
    ensures FrameStep(p, delta, hits, right, diagonalScale).isLoading <==> p.isLoading || AnyFinish(hits)
  {
    if |hits| > 0 {
      ScanFinish(ContactStart(p, SnapHeight(p.position.y, hits[0])), hits, p.spawnPoint);
    }
  }

  /** Standing on a finish for two frames in a row, before the requested
      level has arrived, requests one level, not two. */
  lemma FinishAcrossFrames(p: PlayerState, delta1: real, hits1: seq<Hit>, delta2: real, hits2: seq<Hit>, right: Vec3, diagonalScale: real)
    ensures FrameStep(FrameStep(p, delta1, hits1, right, diagonalScale), delta2, hits2, right, diagonalScale).levelRequests
         <= p.levelRequests + 1
  {
    var q := FrameStep(p, delta1, hits1, right, diagonalScale);
    FinishRequestsOnce(p, delta1, hits1, right, diagonalScale);
    FinishRequestsOnce(q, delta2, hits2, right, diagonalScale);
  }

  /** A frame touching lava puts the player at the spawn point, then moves
      it by that frame's velocity: horizontally along the view, vertically
      by the vertical velocity. Where the player stood before does not
      matter. */
  lemma LavaRespawns(p: PlayerState, delta: real, hits: seq<Hit>, right: Vec3, diagonalScale: real)
    requires AnyLava(hits)
    ensures var r := FrameStep(p, delta, hits, right, diagonalScale);
      var w := Walk(p.spawnPoint, right, r.velocity, delta);
      r.position.x == w.x && r.position.z == w.z
      && (p.grappleTarget.None? ==> r.position.y == w.y + r.velocity.y * delta)
  {
    ScanLava(ContactStart(p, SnapHeight(p.position.y, hits[0])), hits, p.spawnPoint);
  }

  /** Landing on a bouncing surface from a fall, low enough for no nudge,
      sends the player up at 0.8 of the fall speed. */
  lemma BounceReflects(p: PlayerState, delta: real, hits: seq<Hit>, right: Vec3, diagonalScale: real)
    requires |hits| > 0 && IsBouncing(hits[0])
    requires Decay(p.velocity, delta).y <= 0.0
    requires hits[0].point.y <= p.position.y - PlayerHeight / 2.0
    ensures FrameStep(p, delta, hits, right, diagonalScale).velocity.y == -Decay(p.velocity, delta).y * BounceFactor
  {
  }

  /** The speed a frame steers with: 80, times 1.5 per ice hit. */
  lemma IceSpeed(p: PlayerState, hits: seq<Hit>)
    requires |hits| > 0
    ensures ScanHits(ContactStart(p, SnapHeight(p.position.y, hits[0])), hits, p.spawnPoint).speed
         == BaseSpeed * Pow(IceSpeedFactor, IceCount(hits))
  {
  }

  // ---------------------------------------------------------------------
  // Keys (game.js:893-951)

  datatype KeyCode =
    | ArrowUp | KeyW | ArrowLeft | KeyA | ArrowDown | KeyS | ArrowRight | KeyD
    | Space | KeyR | OtherKey

  predicate IsMovementKey(code: KeyCode)
  {
    code in {ArrowUp, KeyW, ArrowLeft, KeyA, ArrowDown, KeyS, ArrowRight, KeyD}
  }

  /** The move flags with the flag of `code` set to `value`. */
  function SetMove(m: MoveFlags, code: KeyCode, value: bool): MoveFlags
  {
    match code
    case ArrowUp => m.(forward := value)
    case KeyW => m.(forward := value)
    case ArrowLeft => m.(left := value)
    case KeyA => m.(left := value)
    case ArrowDown => m.(backward := value)
    case KeyS => m.(backward := value)
    case ArrowRight => m.(right := value)
    case KeyD => m.(right := value)
    case _ => m
  }

  function MoveFlag(m: MoveFlags, code: KeyCode): bool
    requires IsMovementKey(code)
  {
    match code
    case ArrowUp => m.forward
    case KeyW => m.forward
    case ArrowLeft => m.left
    case KeyA => m.left
    case ArrowDown => m.backward
    case KeyS => m.backward
    case ArrowRight => m.right
    case KeyD => m.right
  }

  /** `handleKey`: a movement key sets its flag; Space jumps by 8, or 16
      with Shift, when the jump is eligible, and always uses the jump up;
      R requests a random level. */
  function KeyDown(p: PlayerState, code: KeyCode, shiftKey: bool): PlayerState
  {
    match code
    case Space =>
      var impulse := if p.canJump then (if shiftKey then 2.0 * JumpImpulse else JumpImpulse) else 0.0;
      p.(velocity := p.velocity.(y := p.velocity.y + impulse), canJump := false)
    case KeyR => p.(levelRequests := p.levelRequests + 1)
    case _ => p.(moves := SetMove(p.moves, code, true))
  }

  /** `handleKeyUp`: a movement key clears its flag; other keys do nothing. */
  function KeyUp(p: PlayerState, code: KeyCode): PlayerState
  {
    if IsMovementKey(code) then p.(moves := SetMove(p.moves, code, false)) else p
  }

  /** Pressing and releasing a movement key that was not held leaves the
      state as it was; while held, its flag is set. */
  lemma KeyUpUndoesKeyDown(p: PlayerState, code: KeyCode, shiftKey: bool)
    requires IsMovementKey(code) && !MoveFlag(p.moves, code)
    ensures MoveFlag(KeyDown(p, code, shiftKey).moves, code)
    ensures KeyUp(KeyDown(p, code, shiftKey), code) == p
  {
  }

  /** Space adds 8 or 16 only when the jump is eligible, and always leaves it
      ineligible, so two presses in a row add at most one impulse. */
  lemma SpaceJumps(p: PlayerState, shift1: bool, shift2: bool)
    ensures var q := KeyDown(p, Space, shift1);
      !q.canJump
      && q.velocity.y - p.velocity.y == (if !p.canJump then 0.0 else if shift1 then 16.0 else 8.0)
      && q.velocity.x == p.velocity.x && q.velocity.z == p.velocity.z
    ensures KeyDown(KeyDown(p, Space, shift1), Space, shift2).velocity.y <= p.velocity.y + 16.0
  {
  }

  // ---------------------------------------------------------------------
  // Grapple (game.js:953-978)

  /** The point of the first (nearest) hit on a grapplable surface. */
  function FirstGrapplable(hits: seq<Hit>): (r: Option<Vec3>)
    ensures r.None? <==> forall i :: 0 <= i < |hits| ==> !IsGrapplable(hits[i])
    ensures r.Some? ==> exists i :: 0 <= i < |hits| && IsGrapplable(hits[i]) && hits[i].point == r.value
                                    && forall j :: 0 <= j < i ==> !IsGrapplable(hits[j])
  {
    if hits == [] then None
    else if IsGrapplable(hits[0]) then Some(hits[0].point)
    else
      var rest := FirstGrapplable(hits[1..]);
      assert forall j :: 1 <= j < |hits| ==> hits[j] == hits[1..][j - 1];
      rest
  }

  /** `onWindowClick`: with the pointer locked, the first grapplable hit
      becomes the target; with none, the target stays as it was. */
  function Click(p: PlayerState, locked: bool, hits: seq<Hit>): PlayerState
  {
    if locked then
      match FirstGrapplable(hits)
      case Some(point) => p.(grappleTarget := Some(point))
      case None => p
    else p
  }

  /** `onWindowRelease`. */
  function Release(p: PlayerState): PlayerState
  {
    p.(grappleTarget := None)
  }

  /** A click and a release leave no target, and otherwise the state as it
      was: releasing gives no velocity boost. */
  lemma ClickThenRelease(p: PlayerState, locked: bool, hits: seq<Hit>)
    ensures Release(Click(p, locked, hits)) == Release(p)
    ensures Release(p).velocity == p.velocity && Release(p).position == p.position
  {
  }

  /** A locked click on a grapplable surface sets the target to that hit's
      point; a click on none keeps the old target. */
  lemma ClickTargets(p: PlayerState, hits: seq<Hit>, i: nat)
    requires i < |hits| && IsGrapplable(hits[i])
    requires forall j :: 0 <= j < i ==> !IsGrapplable(hits[j])
    ensures Click(p, true, hits).grappleTarget == Some(hits[i].point)
  {
  }
}
