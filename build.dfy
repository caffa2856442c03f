// The discrete build rules of src/core/Game.ts: item footprints, grid snapping,
// rotation and height steps, placement validity, and the level's bodies as the
// game logic sees them (tag, owner, position, quarter turns).

module Build {
  import opened Common

  /** The only item the party box offers and the only one that can be placed. */
  const Wood: string := "wood_block_321"

  /** An item's extent along x, y and z in grid units. */
  datatype Size = Size(x: int, y: int, z: int)

  /** getItemSize: the wood block is 3 x 1 x 2, or 2 x 1 x 3 when turned an odd number of quarter turns. */
  function ItemSize(itemId: string, rotation: int): Size
  {
    if itemId == Wood then
      if rotation % 2 == 0 then Size(3, 1, 2) else Size(2, 1, 3)
    else Size(1, 1, 1)
  }

  /** A quarter turn swaps the footprint's sides and keeps its area and height. */
  lemma QuarterTurnSwapsSides(itemId: string, rotation: int)
    ensures var s := ItemSize(itemId, rotation);
      var t := ItemSize(itemId, rotation + 1);
      t.x == s.z && t.z == s.x && t.y == s.y && t.x * t.z == s.x * s.z
    ensures ItemSize(itemId, rotation + 2) == ItemSize(itemId, rotation)
  {
  }

  /**
   * The grid snap along one axis: an even extent is centred on a grid line
   * (Math.round), an odd one on the middle of a cell (floor + 0.5).
   */
  function SnapAxis(extent: int, t: real): real
  {
    if extent % 2 == 0 then (t + 0.5).Floor as real else t.Floor as real + 0.5
  }

  /**
   * The snapped centre lies within half a cell of the pointer, and the item's
   * edges (centre minus half the extent) fall on grid lines.
   */
  lemma SnapAligns(extent: int, t: real)
    ensures var s := SnapAxis(extent, t);
      -0.5 < s - t <= 0.5
      && s - extent as real / 2.0 == (s - extent as real / 2.0).Floor as real
  {
    var h := extent / 2;
    if extent % 2 == 0 {
      var n := (t + 0.5).Floor;
      assert n as real <= t + 0.5 < n as real + 1.0;
      assert extent as real / 2.0 == h as real;
      assert SnapAxis(extent, t) - extent as real / 2.0 == (n - h) as real;
      assert ((n - h) as real).Floor == n - h;
    } else {
      var m := t.Floor;
      assert m as real <= t < m as real + 1.0;
      assert extent == 2 * h + 1;
      assert extent as real / 2.0 == h as real + 0.5;
      assert SnapAxis(extent, t) - extent as real / 2.0 == (m - h) as real;
      assert ((m - h) as real).Floor == m - h;
    }
  }

  /** The AABB half extents isValidPlacement tests for overlap. */
  function HalfExtents(itemId: string, rotation: int): Vec3
  {
    if itemId == Wood then
      if rotation % 2 == 0 then Vec3(1.45, 0.45, 0.95) else Vec3(0.95, 0.45, 1.45)
    else Vec3(0.45, 0.45, 0.45)
  }

  /**
   * The overlap test's box is the item's footprint shrunk by 0.05 on every side,
   * so blocks that merely touch a neighbour do not count as overlapping it.
   */
  lemma HalfExtentsShrinkFootprint(itemId: string, rotation: int)
    ensures var e := HalfExtents(itemId, rotation);
      var s := ItemSize(itemId, rotation);
      e.x == s.x as real / 2.0 - 0.05 && e.y == s.y as real / 2.0 - 0.05 && e.z == s.z as real / 2.0 - 0.05
  {
  }

  /** isValidPlacement: nothing overlaps the box, and only the wood block may float in the air. */
  predicate IsValidPlacement(itemId: string, overlap: bool)
  {
    !overlap && itemId == Wood
  }

  /** KeyQ: the next quarter turn. */
  function NextRotation(rotation: int): int
  {
    (rotation + 1) % 4
  }

  /** Rotations stay in 0..3 and four presses come back to the start. */
  lemma RotationCycles(rotation: int)
    requires 0 <= rotation < 4
    ensures 0 <= NextRotation(rotation) < 4
    ensures NextRotation(NextRotation(NextRotation(NextRotation(rotation)))) == rotation
  {
  }

  /** The mouse wheel: scrolling down (deltaY > 0) lowers the build height by one, up raises it, within 0..15. */
  function NextHeight(height: int, deltaY: real): int
  {
    var h := height + (if deltaY > 0.0 then -1 else 1);
    if h < 0 then 0 else if h > 15 then 15 else h
  }

  lemma HeightStaysInRange(height: int, deltaY: real)
    requires 0 <= height <= 15
    ensures 0 <= NextHeight(height, deltaY) <= 15
    ensures deltaY > 0.0 ==> NextHeight(height, deltaY) == if height == 0 then 0 else height - 1
    ensures deltaY <= 0.0 ==> NextHeight(height, deltaY) == if height == 15 then 15 else height + 1
  {
  }

  // ---------------------------------------------------------------------------
  // Bodies

  /**
   * A physics body as the game logic sees it: the tag and owner of its user
   * data (None when it has none), its position, the quarter turns it was placed
   * with, and a key that identifies the body object.
   */
  datatype Body = Body(tag: Option<string>, owner: Option<string>, pos: Vec3, turns: int, key: nat)

  /** The body with the given key, the first one should keys repeat; None when the world holds none. */
  function BodyWithKey(bodies: seq<Body>, k: nat): (r: Option<Body>)
    ensures r.Some? ==> r.value in bodies && r.value.key == k
    ensures r.None? <==> forall b :: b in bodies ==> b.key != k
  {
    if |bodies| == 0 then None
    else if bodies[0].key == k then Some(bodies[0])
    else BodyWithKey(bodies[1..], k)
  }

  /** clearLevel keeps untagged bodies (no tag, or an empty one) and the ground, goal and player bodies. */
  predicate KeptByClear(b: Body)
  {
    b.tag.None? || b.tag == Some("") || b.tag == Some("ground") || b.tag == Some("goal") || b.tag == Some("player")
  }

  /** clearLevel: drop every placed item, keeping the order of the rest. */
  function ClearLevel(bodies: seq<Body>): seq<Body>
  {
    if |bodies| == 0 then []
    else ClearLevel(bodies[..|bodies| - 1]) + (if KeptByClear(bodies[|bodies| - 1]) then [bodies[|bodies| - 1]] else [])
  }

  /** Exactly the kept bodies survive clearLevel. */
  lemma {:induction false} ClearLevelKeeps(bodies: seq<Body>)
    ensures forall b :: b in ClearLevel(bodies) <==> b in bodies && KeptByClear(b)
    ensures |ClearLevel(bodies)| <= |bodies|
  {
    if |bodies| > 0 {
      var init := bodies[..|bodies| - 1];
      ClearLevelKeeps(init);
      assert bodies == init + [bodies[|bodies| - 1]];
    }
  }

  /** A level with only kept bodies is left alone, so clearing twice is clearing once. */
  lemma {:induction false} ClearLevelIdempotent(bodies: seq<Body>)
    ensures (forall b :: b in bodies ==> KeptByClear(b)) ==> ClearLevel(bodies) == bodies
    ensures ClearLevel(ClearLevel(bodies)) == ClearLevel(bodies)
  {
    if |bodies| > 0 {
      var init := bodies[..|bodies| - 1];
      ClearLevelIdempotent(init);
      assert bodies == init + [bodies[|bodies| - 1]];
      ClearLevelKeeps(bodies);
      ClearLevelKeeps(init);
      var c := ClearLevel(bodies);
      if |c| > 0 {
        assert forall b :: b in c ==> KeptByClear(b);
        AllKeptUnchanged(c);
      }
    }
  }

  lemma {:induction false} AllKeptUnchanged(bodies: seq<Body>)
    requires forall b :: b in bodies ==> KeptByClear(b)
    ensures ClearLevel(bodies) == bodies
  {
    if |bodies| > 0 {
      var init := bodies[..|bodies| - 1];
      assert forall b :: b in init ==> b in bodies;
      AllKeptUnchanged(init);
      assert bodies == init + [bodies[|bodies| - 1]];
    }
  }

  /** The bodies whose key is not in `keys`, in order (removeBody for each of them). */
  function RemoveKeys(bodies: seq<Body>, keys: set<nat>): seq<Body>
  {
    if |bodies| == 0 then []
    else RemoveKeys(bodies[..|bodies| - 1], keys) + (if bodies[|bodies| - 1].key in keys then [] else [bodies[|bodies| - 1]])
  }

  lemma {:induction false} RemoveKeysSpec(bodies: seq<Body>, keys: set<nat>)
    ensures forall b :: b in RemoveKeys(bodies, keys) <==> b in bodies && b.key !in keys
  {
    if |bodies| > 0 {
      var init := bodies[..|bodies| - 1];
      RemoveKeysSpec(init, keys);
      assert bodies == init + [bodies[|bodies| - 1]];
    }
  }

  /**
   * Move the body with the given key (a kinematic replica following its
   * snapshot): it lands at pos keeping its tag, owner, turns and key, and
   * every other body stays as it was.
   */
  function MoveBody(bodies: seq<Body>, key: nat, pos: Vec3): (r: seq<Body>)
    ensures |r| == |bodies|
    ensures forall i :: 0 <= i < |bodies| && bodies[i].key != key ==> r[i] == bodies[i]
    ensures forall i :: 0 <= i < |bodies| && bodies[i].key == key ==>
      r[i].pos == pos && r[i].tag == bodies[i].tag && r[i].owner == bodies[i].owner
      && r[i].turns == bodies[i].turns && r[i].key == key
  {
    seq(|bodies|, i requires 0 <= i < |bodies| => if bodies[i].key == key then bodies[i].(pos := pos) else bodies[i])
  }

  /** Every body's tag is one the game itself hands out; in particular no body is a bomb. */
  predicate KnownTags(bodies: seq<Body>)
  {
    forall b :: b in bodies ==>
      b.tag == Some("ground") || b.tag == Some("goal") || b.tag == Some("player") || b.tag == Some("block")
  }

  /** clearLevel leaves only the ground, goal and player bodies of a level with known tags. */
  lemma ClearLevelLeavesFixtures(bodies: seq<Body>)
    requires KnownTags(bodies)
    ensures KnownTags(ClearLevel(bodies))
    ensures forall b :: b in ClearLevel(bodies) ==> b.tag != Some("block")
  {
    ClearLevelKeeps(bodies);
  }
}
