/** The keyframe cursor of `updateObjectAnimation` (game.js:764-798).

    The relative time `(time * speed) % lastFrame.time` is taken as an
    input: the floating-point `%` is not modelled. The quaternion slerp,
    the vector lerp and the world transform that follow the cursor search
    (game.js:800-811) are three.js routines and are not modelled either;
    what is modelled is the persisted cursor, the frame pair it settles on
    and the interpolation factor. */
module AnimationPlayer {
  import opened Schema

  /** An animation frame after the builder has written 0 into every
      component the decoder left out (game.js:747-756). */
  datatype KeyFrame = KeyFrame(time: real, position: Vec3, rotation: Quat)

  /** `object.animation`: the node's first animation plus the cursor the
      builder adds to it (game.js:757-758). */
  datatype AnimationState = AnimationState(
    name: string,
    frames: seq<KeyFrame>,
    direction: Direction,
    speed: Option<real>,
    currentFrameIndex: nat)

  /** Time gaps at or below this magnitude give factor 0 (game.js:795). */
  const Epsilon: real := 0.00000001

  /** The frame after `i`, wrapping at the end of the list (game.js:782-783). */
  function NextIndex(i: nat, n: nat): nat
  {
    if i + 1 >= n then 0 else i + 1
  }

  /** How the persisted cursor moves on: it wraps as soon as it would
      reach the LAST index, not past it (game.js:787-788). */
  function Advance(cursor: nat, n: nat): nat
  {
    if cursor + 1 >= n - 1 then 0 else cursor + 1
  }

  /** The values the cursor can hold: 0, or an index that still has a
      successor. With `Advance` wrapping at `n - 1`, the cursor never sits on
      the last frame of a list of two or more. */
  predicate CursorOk(cursor: nat, n: nat)
  {
    n > 0 && (cursor == 0 || cursor + 1 < n)
  }

  /** An animation the frame loop can step: at least one frame and a cursor
      in range. */
  predicate Playable(a: AnimationState)
  {
    CursorOk(a.currentFrameIndex, |a.frames|)
  }

  /** The frame pair (`old`, `new`) brackets `t` (the test of game.js:786). */
  predicate Brackets(frames: seq<KeyFrame>, i: nat, j: nat, t: real)
    requires i < |frames| && j < |frames|
  {
    frames[i].time <= t && frames[j].time > t
  }

  /** Where the search loop stops: the cursor it persists, the old and new
      frame it leaves in `oldFrame` and `newFrame`, and whether it left by
      `break`. */
  datatype Search = Search(cursor: nat, oldIndex: nat, newIndex: nat, found: bool)

  /** The `while` loop of game.js:778-791, entered with the persisted cursor
      and the loop counter: each pass takes the pair (cursor, next), stops if
      it brackets `t`, and otherwise advances the cursor; after the pass with
      counter `|frames|` the loop gives up. */
  function SearchFrom(frames: seq<KeyFrame>, cursor: nat, t: real, counter: nat): (r: Search)
    requires CursorOk(cursor, |frames|) && counter <= |frames|
    ensures CursorOk(r.cursor, |frames|) && CursorOk(r.oldIndex, |frames|)
    ensures r.newIndex == NextIndex(r.oldIndex, |frames|)
    ensures r.found ==> r.cursor == r.oldIndex && Brackets(frames, r.oldIndex, r.newIndex, t)
    ensures !r.found ==> r.cursor == Advance(r.oldIndex, |frames|)
    decreases |frames| - counter
  {
    var n := |frames|;
    var next := NextIndex(cursor, n);
    if frames[cursor].time <= t && frames[next].time > t then
      Search(cursor, cursor, next, true)
    else if counter == n then
      Search(Advance(cursor, n), cursor, next, false)
    else
      SearchFrom(frames, Advance(cursor, n), t, counter + 1)
  }

  /** The cursor after `k` advances. */
  function Iterate(cursor: nat, n: nat, k: nat): nat
    decreases k
  {
    if k == 0 then cursor else Iterate(Advance(cursor, n), n, k - 1)
  }

  lemma {:induction false} IterateNoWrap(cursor: nat, n: nat, k: nat)
    requires cursor + k < n - 1
    ensures Iterate(cursor, n, k) == cursor + k
    decreases k
  {
    if k > 0 {
      IterateNoWrap(cursor + 1, n, k - 1);
    }
  }

  lemma {:induction false} IterateAdd(cursor: nat, n: nat, a: nat, b: nat)
    ensures Iterate(cursor, n, a + b) == Iterate(Iterate(cursor, n, a), n, b)
    decreases a
  {
    if a > 0 {
      IterateAdd(Advance(cursor, n), n, a - 1, b);
    }
  }

  /** Every index that has a successor is reached from any cursor within
      `n - 2` advances. */
  lemma IterateReaches(cursor: nat, n: nat, i: nat) returns (k: nat)
    requires n >= 2 && cursor + 1 < n && i + 1 < n
    ensures k + 2 <= n && Iterate(cursor, n, k) == i
  {
    if cursor <= i {
      k := i - cursor;
      IterateNoWrap(cursor, n, k);
    } else {
      var toEnd := n - 2 - cursor;
      IterateNoWrap(cursor, n, toEnd);
      assert Iterate(n - 2, n, 1) == 0;
      IterateAdd(cursor, n, toEnd, 1);
      IterateNoWrap(0, n, i);
      IterateAdd(cursor, n, toEnd + 1, i);
      k := toEnd + 1 + i;
    }
  }

  /** A search that gives up has tried the pair at every cursor it visited. */
  lemma {:induction false} SearchMisses(frames: seq<KeyFrame>, cursor: nat, t: real, counter: nat, k: nat)
    requires CursorOk(cursor, |frames|) && counter <= |frames|
    requires !SearchFrom(frames, cursor, t, counter).found
    requires k <= |frames| - counter
    ensures CursorOk(Iterate(cursor, |frames|, k), |frames|)
    ensures !Brackets(frames, Iterate(cursor, |frames|, k), NextIndex(Iterate(cursor, |frames|, k), |frames|), t)
    decreases k
  {
    if k > 0 {
      SearchMisses(frames, Advance(cursor, |frames|), t, counter + 1, k - 1);
    }
  }

  /** One pass over the list is enough: a search from counter 0 that leaves
      without `break` has found NO consecutive pair `i, i+1` bracketing `t`,
      whatever the persisted cursor was. (The pair last, first is never
      tried, because the cursor wraps at the last index.) */
  lemma SearchIsComplete(frames: seq<KeyFrame>, cursor: nat, t: real)
    requires CursorOk(cursor, |frames|)
    requires !SearchFrom(frames, cursor, t, 0).found
    ensures forall i :: 0 <= i < |frames| - 1 ==> !(frames[i].time <= t < frames[i + 1].time)
  {
    var n := |frames|;
    forall i | 0 <= i < n - 1
      ensures !(frames[i].time <= t < frames[i + 1].time)
    {
      var k := IterateReaches(cursor, n, i);
      SearchMisses(frames, cursor, t, 0, k);
    }
  }

  /** A single-frame animation never brackets: old and new are the same
      frame. */
  lemma SingleFrameNeverFound(frames: seq<KeyFrame>, t: real, counter: nat)
    requires |frames| == 1 && counter <= 1
    ensures !SearchFrom(frames, 0, t, counter).found
    ensures SearchFrom(frames, 0, t, counter) == Search(0, 0, 0, false)
  {
  }

  /** The search loop of game.js:773-791 over the persisted cursor. It
      starts from `cursor`, runs at most `|frames| + 1` passes (counted in
      `passes`), and returns the cursor to persist together with the frame
      pair it settled on. */
  method FindFramePair(frames: seq<KeyFrame>, cursor: nat, relativeTime: real)
    returns (newCursor: nat, oldIndex: nat, newIndex: nat, found: bool, ghost passes: nat)
    requires CursorOk(cursor, |frames|)
    ensures passes <= |frames| + 1
    ensures Search(newCursor, oldIndex, newIndex, found) == SearchFrom(frames, cursor, relativeTime, 0)
    ensures CursorOk(newCursor, |frames|) && oldIndex < |frames| && newIndex < |frames|
    ensures |frames| >= 2 ==> newIndex == oldIndex + 1
    ensures found ==> newCursor == oldIndex && frames[oldIndex].time <= relativeTime < frames[newIndex].time
    ensures !found ==> forall i :: 0 <= i < |frames| - 1 ==> !(frames[i].time <= relativeTime < frames[i + 1].time)
  {
    var n := |frames|;
    newCursor := cursor;
    oldIndex := newCursor;
    newIndex := NextIndex(newCursor, n);
    found := false;
    var loopCounter := 0;
    passes := 0;
    while loopCounter <= n
      invariant loopCounter <= n + 1 && passes == loopCounter
      invariant CursorOk(newCursor, n)
      invariant loopCounter <= n ==> SearchFrom(frames, newCursor, relativeTime, loopCounter) == SearchFrom(frames, cursor, relativeTime, 0)
      invariant loopCounter == n + 1 ==> Search(newCursor, oldIndex, newIndex, false) == SearchFrom(frames, cursor, relativeTime, 0)
      decreases n + 1 - loopCounter
    {
      passes := passes + 1;
      oldIndex := newCursor;
      newIndex := NextIndex(newCursor, n);
      if frames[oldIndex].time <= relativeTime && frames[newIndex].time > relativeTime {
        found := true;
        break;
      }
      newCursor := Advance(newCursor, n);
      loopCounter := loopCounter + 1;
    }
    if !found {
      SearchIsComplete(frames, cursor, relativeTime);
    }
  }

  /** The interpolation factor of game.js:793-798. */
  function InterpolationFactor(t: real, oldTime: real, newTime: real): (f: real)
    ensures Abs(newTime - oldTime) <= Epsilon ==> f == 0.0
    ensures Abs(newTime - oldTime) > Epsilon ==> oldTime + f * (newTime - oldTime) == t
    ensures oldTime <= t < newTime ==> 0.0 <= f < 1.0
  {
    var timeDiff := newTime - oldTime;
    if Abs(timeDiff) > Epsilon then (t - oldTime) / timeDiff else 0.0
  }

  /** The animation with its cursor moved as one call of
      `updateObjectAnimation` moves it. */
  function Step(a: AnimationState, relativeTime: real): (r: AnimationState)
    requires Playable(a)
    ensures Playable(r) && r.frames == a.frames
  {
    a.(currentFrameIndex := SearchFrom(a.frames, a.currentFrameIndex, relativeTime, 0).cursor)
  }

  /** When the persisted cursor already brackets the relative time, a call
      leaves it where it is: between frames the search costs one pass. */
  lemma StepKeepsBracketingCursor(a: AnimationState, relativeTime: real)
    requires Playable(a)
    requires Brackets(a.frames, a.currentFrameIndex, NextIndex(a.currentFrameIndex, |a.frames|), relativeTime)
    ensures Step(a, relativeTime) == a
  {
  }
}
