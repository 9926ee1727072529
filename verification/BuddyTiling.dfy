/** The buddy system without its data structures: a heap of `Pow2(upper)` bytes cut
    into used and free blocks. `tiles` maps the offset of each block to its record,
    the `blockinfo` that src/buddy.c keeps for the block. */
module BuddyTiling {
  import opened Powers

  const LOWER: nat := 8 // DEFAULT_LOWER, 256 bytes

  datatype BlockInfo = BlockInfo(sizem: nat, used: bool)

  type Tiles = map<nat, BlockInfo>

  function Size(t: BlockInfo): (r: nat)
    ensures r > 0
  {
    Pow2(t.sizem)
  }

  /** Every block is aligned on its size and lies inside the heap. */
  ghost predicate Placed(tiles: Tiles, upper: nat) {
    forall b :: b in tiles ==>
      LOWER <= tiles[b].sizem <= upper && Aligned(b, tiles[b].sizem) && b + Size(tiles[b]) <= Pow2(upper)
  }

  ghost predicate Disjoint(tiles: Tiles) {
    forall b, c :: b in tiles && c in tiles && b < c ==> b + Size(tiles[b]) <= c
  }

  /** Block `b` is followed by another block or by the end of the heap. */
  ghost predicate Followed(tiles: Tiles, upper: nat, b: nat)
    requires b in tiles
  {
    b + Size(tiles[b]) == Pow2(upper) || b + Size(tiles[b]) in tiles
  }

  ghost predicate Contiguous(tiles: Tiles, upper: nat) {
    0 in tiles && forall b {:trigger Followed(tiles, upper, b)} :: b in tiles ==> Followed(tiles, upper, b)
  }

  /** The blocks cover the heap exactly once; see `Owner`. */
  ghost predicate Tiling(tiles: Tiles, upper: nat) {
    Placed(tiles, upper) && Disjoint(tiles) && Contiguous(tiles, upper)
  }

  /** The blocks handed out to clients, with the logarithms of their sizes. */
  ghost function Used(tiles: Tiles): map<nat, nat> {
    map b | b in tiles && tiles[b].used :: tiles[b].sizem
  }

  ghost predicate IsFree(tiles: Tiles, b: nat, m: nat) {
    b in tiles && tiles[b] == BlockInfo(m, false)
  }

  /** The address `get_buddy` computes: `b` with bit `m` flipped. */
  function Buddy(b: nat, m: nat): (r: nat) {
    if Bit(b, m) then
      BitSet(b, m);
      b - Pow2(m)
    else b + Pow2(m)
  }

  /** `b` is one of two free buddies that ought to have been merged. */
  ghost predicate Mergeable(tiles: Tiles, upper: nat, b: nat) {
    && b in tiles && !tiles[b].used && tiles[b].sizem < upper
    && IsFree(tiles, Buddy(b, tiles[b].sizem), tiles[b].sizem)
  }

  /** No two free buddies lie side by side. */
  ghost predicate Coalesced(tiles: Tiles, upper: nat) {
    forall b :: b in tiles ==> !Mergeable(tiles, upper, b)
  }

  /** As `Coalesced`, except that block `x` may have a free buddy. */
  ghost predicate CoalescedBut(tiles: Tiles, upper: nat, x: nat) {
    forall b :: b in tiles && Mergeable(tiles, upper, b) ==> b == x || Buddy(b, tiles[b].sizem) == x
  }

  /** No byte of the window of `Pow2(m)` bytes at `w` belongs to a used block. */
  ghost predicate WindowFree(used: map<nat, nat>, w: nat, m: nat) {
    forall b :: b in used ==> b + Pow2(used[b]) <= w || w + Pow2(m) <= b
  }

  /** `w` is a place where a block of `Pow2(m)` bytes could be put. */
  ghost predicate Available(used: map<nat, nat>, upper: nat, w: nat, m: nat) {
    Aligned(w, m) && w + Pow2(m) <= Pow2(upper) && WindowFree(used, w, m)
  }

  function Initial(upper: nat): Tiles {
    map[0 := BlockInfo(upper, false)]
  }

  // ----- buddies -----

  lemma BuddyLaws(b: nat, m: nat)
    requires Aligned(b, m)
    ensures Buddy(b, m) != b && Aligned(Buddy(b, m), m) && Buddy(Buddy(b, m), m) == b
    ensures Aligned(if b < Buddy(b, m) then b else Buddy(b, m), m + 1)
    ensures Buddy(b, m) == b + Pow2(m) || b == Buddy(b, m) + Pow2(m)
  {
    AlignedSide(b, m);
    AlignedHalves(if Bit(b, m) then b - Pow2(m) else b, m);
  }

  lemma {:induction false} BuddyInHeap(b: nat, m: nat, upper: nat)
    requires Aligned(b, m) && m < upper && b + Pow2(m) <= Pow2(upper)
    ensures Buddy(b, m) + Pow2(m) <= Pow2(upper)
  {
    AlignedSide(b, m);
    if !Bit(b, m) {
      AlignedZero(upper);
      AlignedNested(b, m + 1, 0, upper);
    }
  }

  // ----- the tiles cover the heap -----

  /** Every byte of the heap lies in some block. */
  lemma {:induction false} Owner(tiles: Tiles, upper: nat, x: nat) returns (b: nat)
    requires Tiling(tiles, upper) && x < Pow2(upper)
    ensures b in tiles && b <= x < b + Size(tiles[b])
  {
    if x == 0 {
      b := 0;
    } else {
      b := Owner(tiles, upper, x - 1);
      assert Followed(tiles, upper, b);
      if x == b + Size(tiles[b]) { b := x; }
    }
  }

  // ----- what coalescing buys -----

  /** A large aligned block that holds the upper half of a window holds all of it. */
  lemma UpperHalfInside(w: nat, m: nat, b: nat, n: nat)
    requires 0 < m <= n && Aligned(w, m) && Aligned(b, n)
    requires b <= w + Pow2(m - 1) < b + Pow2(n)
    ensures b <= w && w + Pow2(m) <= b + Pow2(n)
  {
  }

  /** A window that no used block touches lies inside one single free block. */
  lemma {:induction false} FreeWindowInOneBlock(tiles: Tiles, upper: nat, w: nat, m: nat) returns (b: nat)
    requires Tiling(tiles, upper) && Coalesced(tiles, upper)
    requires LOWER <= m && Available(Used(tiles), upper, w, m)
    ensures b in tiles && !tiles[b].used && m <= tiles[b].sizem
    ensures b <= w && w + Pow2(m) <= b + Size(tiles[b])
    decreases m
  {
    if m == LOWER {
      b := Owner(tiles, upper, w);
      OwnerOfFreeWindow(tiles, w, m, b);
      AlignedNested(w, m, b, tiles[b].sizem);
    } else {
      HalvesAvailable(Used(tiles), upper, w, m - 1);
      var b1 := FreeWindowInOneBlock(tiles, upper, w, m - 1);
      var b2 := FreeWindowInOneBlock(tiles, upper, w + Pow2(m - 1), m - 1);
      if tiles[b1].sizem >= m {
        b := b1;
        AlignedNested(w, m, b, tiles[b].sizem);
      } else {
        AlignedHalves(w, m - 1);
        AlignedNested(w, m - 1, b1, m - 1);
        NotTwoFreeHalves(tiles, upper, w, m - 1, b1, b2);
        b := b2;
        UpperHalfInside(w, m, b, tiles[b].sizem);
      }
    }
  }

  lemma HalvesAvailable(used: map<nat, nat>, upper: nat, w: nat, m: nat)
    requires Available(used, upper, w, m + 1)
    ensures Available(used, upper, w, m) && Available(used, upper, w + Pow2(m), m)
  {
    AlignedHalves(w, m);
  }

  lemma OwnerOfFreeWindow(tiles: Tiles, w: nat, m: nat, b: nat)
    requires WindowFree(Used(tiles), w, m) && b in tiles && b <= w < b + Size(tiles[b])
    ensures !tiles[b].used
  {
    assert tiles[b].used ==> b in Used(tiles);
  }

  /** Free blocks that hold the two halves of a window are not both of the halves' size. */
  lemma NotTwoFreeHalves(tiles: Tiles, upper: nat, w: nat, m: nat, b1: nat, b2: nat)
    requires Tiling(tiles, upper) && Coalesced(tiles, upper) && m < upper && Aligned(w, m + 1)
    requires b1 in tiles && !tiles[b1].used && m == tiles[b1].sizem && b1 == w
    requires b2 in tiles && !tiles[b2].used && m <= tiles[b2].sizem
    requires b2 <= w + Pow2(m) < b2 + Size(tiles[b2])
    ensures m < tiles[b2].sizem
  {
    AlignedHalves(w, m);
    AlignedNested(w + Pow2(m), m, b2, tiles[b2].sizem);
    assert !Mergeable(tiles, upper, w);
  }

  /** The free blocks are a function of the used ones. */
  lemma UsedBlocksDetermineTiling(s: Tiles, t: Tiles, upper: nat)
    requires Tiling(s, upper) && Coalesced(s, upper)
    requires Tiling(t, upper) && Coalesced(t, upper)
    requires Used(s) == Used(t)
    ensures s == t
  {
    forall b | b in s ensures b in t && t[b] == s[b] { BlockShared(s, t, upper, b); }
    forall b | b in t ensures b in s && s[b] == t[b] { BlockShared(t, s, upper, b); }
  }

  lemma BlockShared(s: Tiles, t: Tiles, upper: nat, b: nat)
    requires Tiling(s, upper) && Coalesced(s, upper)
    requires Tiling(t, upper) && Coalesced(t, upper)
    requires Used(s) == Used(t) && b in s
    ensures b in t && t[b] == s[b]
  {
    if s[b].used {
      assert b in Used(t);
      assert Used(t)[b] == s[b].sizem;
    } else {
      FreeBlockIsAvailable(s, upper, b);
      var c := FreeWindowInOneBlock(t, upper, b, s[b].sizem);
      FreeBlockIsAvailable(t, upper, c);
      var d := FreeWindowInOneBlock(s, upper, c, t[c].sizem);
      assert d == b;
      assert c == b;
      Pow2Order(t[c].sizem, s[b].sizem);
    }
  }

  lemma FreeBlockIsAvailable(tiles: Tiles, upper: nat, b: nat)
    requires Tiling(tiles, upper) && b in tiles && !tiles[b].used
    ensures Available(Used(tiles), upper, b, tiles[b].sizem)
  {
  }

  lemma InitialIsCoalesced(upper: nat)
    requires LOWER <= upper
    ensures Tiling(Initial(upper), upper) && Coalesced(Initial(upper), upper)
    ensures Used(Initial(upper)) == map[]
  {
    AlignedZero(upper);
  }

  /** A block of the right size can be handed out exactly when some free block is large enough. */
  lemma RoomIffLargeFreeBlock(tiles: Tiles, upper: nat, m: nat)
    requires Tiling(tiles, upper) && Coalesced(tiles, upper) && LOWER <= m
    ensures (exists w :: Available(Used(tiles), upper, w, m))
       <==> (exists b :: b in tiles && !tiles[b].used && m <= tiles[b].sizem)
  {
    if w :| Available(Used(tiles), upper, w, m) {
      var b := FreeWindowInOneBlock(tiles, upper, w, m);
    }
    if b :| b in tiles && !tiles[b].used && m <= tiles[b].sizem {
      FreeBlockIsAvailable(tiles, upper, b);
      AlignedWeaken(b, tiles[b].sizem, m);
      Pow2Monotone(m, tiles[b].sizem);
      assert Available(Used(tiles), upper, b, m);
    }
  }

  // ----- the three steps that change the tiling -----

  /** Replace block `b` by its two halves. */
  ghost function Split(tiles: Tiles, b: nat): Tiles
    requires b in tiles && tiles[b].sizem > 0
  {
    var m := tiles[b].sizem - 1;
    tiles[b := BlockInfo(m, tiles[b].used)][b + Pow2(m) := BlockInfo(m, tiles[b].used)]
  }

  /** Replace the buddies `b` and `b + Pow2(m)` by the block above them. */
  ghost function Merge(tiles: Tiles, b: nat): Tiles
    requires b in tiles
  {
    (tiles - {b + Size(tiles[b])})[b := BlockInfo(tiles[b].sizem + 1, tiles[b].used)]
  }

  lemma SplitKeepsUsed(tiles: Tiles, b: nat)
    requires b in tiles && tiles[b].sizem > 0 && !tiles[b].used
    requires b + Pow2(tiles[b].sizem - 1) !in tiles
    ensures Used(Split(tiles, b)) == Used(tiles)
  {
  }

  lemma SplitKeepsTiling(tiles: Tiles, upper: nat, b: nat)
    requires Tiling(tiles, upper) && b in tiles && !tiles[b].used && tiles[b].sizem > LOWER
    ensures Tiling(Split(tiles, b), upper)
    ensures b + Pow2(tiles[b].sizem - 1) !in tiles
  {
    assert b + Pow2(tiles[b].sizem - 1) !in tiles;
    SplitIsPlaced(tiles, upper, b);
    SplitIsDisjoint(tiles, b);
    SplitIsContiguous(tiles, upper, b);
  }

  lemma SplitIsPlaced(tiles: Tiles, upper: nat, b: nat)
    requires Placed(tiles, upper) && b in tiles && tiles[b].sizem > LOWER
    ensures Placed(Split(tiles, b), upper)
  {
    AlignedHalves(b, tiles[b].sizem - 1);
  }

  lemma SplitIsDisjoint(tiles: Tiles, b: nat)
    requires Disjoint(tiles) && b in tiles && tiles[b].sizem > 0
    ensures Disjoint(Split(tiles, b))
  {
  }

  lemma SplitIsContiguous(tiles: Tiles, upper: nat, b: nat)
    requires Contiguous(tiles, upper) && b in tiles && tiles[b].sizem > 0
    requires b + Pow2(tiles[b].sizem - 1) !in tiles
    ensures Contiguous(Split(tiles, b), upper)
  {
    var t := Split(tiles, b);
    forall c | c in t ensures Followed(t, upper, c) {
      if c in tiles { assert Followed(tiles, upper, c); } else { assert Followed(tiles, upper, b); }
    }
  }

  lemma SplitKeepsCoalescing(tiles: Tiles, upper: nat, b: nat)
    requires Placed(tiles, upper) && b in tiles && !tiles[b].used && tiles[b].sizem > LOWER
    requires CoalescedBut(tiles, upper, b)
    ensures CoalescedBut(Split(tiles, b), upper, b)
  {
    var t := Split(tiles, b);
    SplitIsPlaced(tiles, upper, b);
    forall c | c in t && Mergeable(t, upper, c) ensures c == b || Buddy(c, t[c].sizem) == b {
      SplitMergeable(tiles, upper, b, c);
    }
  }

  lemma SplitMergeable(tiles: Tiles, upper: nat, b: nat, c: nat)
    requires b in tiles && tiles[b].sizem > 0 && Aligned(b, tiles[b].sizem)
    requires CoalescedBut(tiles, upper, b)
    requires Mergeable(Split(tiles, b), upper, c) && Aligned(c, Split(tiles, b)[c].sizem)
    ensures c == b || Buddy(c, Split(tiles, b)[c].sizem) == b
  {
    var t := Split(tiles, b);
    var m := tiles[b].sizem - 1;
    var h := b + Pow2(m);
    var d := Buddy(c, t[c].sizem);
    AlignedHalves(b, m);
    assert d == h && t[c].sizem == m ==> c == b by { BuddyLaws(c, t[c].sizem); }
    assert c != b && c != h && d != b && d != h ==> Mergeable(tiles, upper, c);
  }

  lemma MergeKeepsUsed(tiles: Tiles, b: nat)
    requires b in tiles && !tiles[b].used && IsFree(tiles, b + Size(tiles[b]), tiles[b].sizem)
    ensures Used(Merge(tiles, b)) == Used(tiles)
  {
  }

  lemma MergeKeepsTiling(tiles: Tiles, upper: nat, b: nat)
    requires Tiling(tiles, upper) && Mergeable(tiles, upper, b)
    requires b < Buddy(b, tiles[b].sizem)
    ensures Buddy(b, tiles[b].sizem) == b + Size(tiles[b])
    ensures Tiling(Merge(tiles, b), upper)
  {
    BuddyLaws(b, tiles[b].sizem);
    MergeIsPlaced(tiles, upper, b);
    MergeIsDisjoint(tiles, b);
    MergeIsContiguous(tiles, upper, b);
  }

  lemma MergeIsPlaced(tiles: Tiles, upper: nat, b: nat)
    requires Placed(tiles, upper) && b in tiles && tiles[b].sizem < upper
    requires b + Size(tiles[b]) in tiles && tiles[b + Size(tiles[b])].sizem == tiles[b].sizem
    requires Aligned(b, tiles[b].sizem + 1)
    ensures Placed(Merge(tiles, b), upper)
  {
  }

  lemma MergeIsDisjoint(tiles: Tiles, b: nat)
    requires Disjoint(tiles) && b in tiles
    requires b + Size(tiles[b]) in tiles && tiles[b + Size(tiles[b])].sizem == tiles[b].sizem
    ensures Disjoint(Merge(tiles, b))
  {
  }

  lemma MergeIsContiguous(tiles: Tiles, upper: nat, b: nat)
    requires Contiguous(tiles, upper) && Disjoint(tiles)
    requires b in tiles && !tiles[b].used && IsFree(tiles, b + Size(tiles[b]), tiles[b].sizem)
    ensures Contiguous(Merge(tiles, b), upper)
  {
    var t := Merge(tiles, b);
    var h: nat := b + Size(tiles[b]);
    assert Size(t[b]) == Size(tiles[b]) + Size(tiles[h]);
    hide Pow2;
    hide Size;
    assert Followed(tiles, upper, h) && Followed(t, upper, b);
    forall c | c in t && c != b ensures Followed(t, upper, c) {
      MergeFollowed(tiles, upper, b, c);
    }
  }

  lemma MergeFollowed(tiles: Tiles, upper: nat, b: nat, c: nat)
    requires Contiguous(tiles, upper) && Disjoint(tiles)
    requires b in tiles && !tiles[b].used && IsFree(tiles, b + Size(tiles[b]), tiles[b].sizem)
    requires c in Merge(tiles, b) && c != b
    ensures Followed(Merge(tiles, b), upper, c)
  {
    hide Pow2;
    assert Followed(tiles, upper, c);
  }

  lemma MergeKeepsCoalescing(tiles: Tiles, upper: nat, b: nat, x: nat)
    requires Tiling(tiles, upper) && Mergeable(tiles, upper, b)
    requires b < Buddy(b, tiles[b].sizem)
    requires x == b || x == Buddy(b, tiles[b].sizem)
    requires CoalescedBut(tiles, upper, x)
    ensures CoalescedBut(Merge(tiles, b), upper, b)
  {
    var t := Merge(tiles, b);
    MergeKeepsTiling(tiles, upper, b);
    BuddyLaws(b, tiles[b].sizem);
    forall c | c in t && Mergeable(t, upper, c) ensures c == b || Buddy(c, t[c].sizem) == b {
      BuddyLaws(c, t[c].sizem);
    }
  }

  lemma MarkChangesUsed(tiles: Tiles, b: nat, u: bool)
    requires b in tiles
    ensures Used(tiles[b := tiles[b].(used := u)]) ==
            if u then Used(tiles)[b := tiles[b].sizem] else Used(tiles) - {b}
  {
  }

  lemma MarkKeepsTiling(tiles: Tiles, upper: nat, b: nat, u: bool)
    requires Tiling(tiles, upper) && b in tiles
    ensures Tiling(tiles[b := tiles[b].(used := u)], upper)
  {
    var t := tiles[b := tiles[b].(used := u)];
    assert Placed(t, upper) && Disjoint(t);
    assert Contiguous(t, upper) by {
      forall c | c in t ensures Followed(t, upper, c) { assert Followed(tiles, upper, c); }
    }
  }

  lemma MarkKeepsCoalescing(tiles: Tiles, upper: nat, b: nat)
    requires Tiling(tiles, upper) && b in tiles
    ensures !tiles[b].used && CoalescedBut(tiles, upper, b) ==>
              Coalesced(tiles[b := tiles[b].(used := true)], upper)
    ensures Coalesced(tiles, upper) ==> CoalescedBut(tiles[b := tiles[b].(used := false)], upper, b)
  {
  }

  /** When the odd block has no free buddy either, coalescing is complete. */
  lemma CoalescedAtLast(tiles: Tiles, upper: nat, x: nat)
    requires Placed(tiles, upper) && CoalescedBut(tiles, upper, x) && !Mergeable(tiles, upper, x)
    ensures Coalesced(tiles, upper)
  {
    forall b | b in tiles ensures !Mergeable(tiles, upper, b) { BuddyLaws(b, tiles[b].sizem); }
  }
}
