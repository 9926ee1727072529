/** The buddy allocator of src/buddy.c: the `blocks` side table, the 32 free-list heads
    and a heap whose free blocks store the list links in their own first word. */
module BuddyAllocator {
  import opened Powers
  import opened BuddyTiling
  import opened Bytes

  const EMPTY: Word := 0xFFFF_FFFF

  const GRAIN: nat := 256 // 1 << LOWER, the bytes described by one entry of `blocks`

  // ----- free lists -----

  /** The link that leads to element `i` of a list. */
  function Link(chain: seq<nat>, i: nat): int {
    if i < |chain| then chain[i] else EMPTY
  }

  /** Following the links from `head` visits the offsets in `chain` and then stops. */
  ghost predicate Chain(heap: seq<Byte>, head: Word, chain: seq<nat>) {
    && head == Link(chain, 0)
    && (forall i :: 0 <= i < |chain| ==> chain[i] + 4 <= |heap|)
    && (forall i {:trigger Get32(heap, chain[i])} :: 0 <= i < |chain| ==> Get32(heap, chain[i]) == Link(chain, i + 1))
  }

  /** Every list head starts its chain. */
  ghost predicate Chains(heap: seq<Byte>, heads: seq<Word>, chains: seq<seq<nat>>) {
    |heads| == |chains| == 32 && forall m :: 0 <= m < 32 ==> Chain(heap, heads[m], chains[m])
  }

  ghost predicate Distinct(chain: seq<nat>) {
    forall i, j :: 0 <= i < j < |chain| ==> chain[i] != chain[j]
  }

  /** No link of `chain` is stored in the four bytes at `block`. */
  ghost predicate Off(chain: seq<nat>, block: nat) {
    forall i :: 0 <= i < |chain| ==> chain[i] + 4 <= block || block + 4 <= chain[i]
  }

  function Drop(chain: seq<nat>, k: nat): seq<nat>
    requires k < |chain|
  {
    chain[..k] + chain[k + 1..]
  }

  lemma ChainFrame(heap: seq<Byte>, head: Word, chain: seq<nat>, block: nat, v: Word)
    requires Chain(heap, head, chain) && block + 4 <= |heap| && Off(chain, block)
    ensures Chain(Put32(heap, block, v), head, chain)
  {
    forall i | 0 <= i < |chain| ensures Get32(Put32(heap, block, v), chain[i]) == Link(chain, i + 1) {
      assert Get32(heap, chain[i]) == Link(chain, i + 1);
    }
  }

  lemma ChainPush(heap: seq<Byte>, head: Word, chain: seq<nat>, block: Word)
    requires Chain(heap, head, chain) && block + 4 <= |heap| && Off(chain, block)
    ensures Chain(Put32(heap, block, head), block, [block] + chain)
  {
    GetPut(heap, block, head);
    ChainFrame(heap, head, chain, block, head);
  }

  lemma ChainUnlink(heap: seq<Byte>, head: Word, chain: seq<nat>, k: nat)
    requires Chain(heap, head, chain) && 0 < k < |chain|
    requires Off(Drop(chain, k - 1), chain[k - 1])
    ensures Chain(Put32(heap, chain[k - 1], Get32(heap, chain[k])), head, Drop(chain, k))
  {
    var v := Get32(heap, chain[k]);
    var h := Put32(heap, chain[k - 1], v);
    var c := Drop(chain, k);
    GetPut(heap, chain[k - 1], v);
    forall i | 0 <= i < |c| ensures c[i] + 4 <= |h| && Get32(h, c[i]) == Link(c, i + 1) {
      if i != k - 1 {
        assert c[i] == Drop(chain, k - 1)[if i < k then i else i];
        assert Get32(h, c[i]) == Get32(heap, c[i]);
      }
    }
  }

  lemma ChainsPush(heap: seq<Byte>, heads: seq<Word>, chains: seq<seq<nat>>, m: nat, block: Word)
    requires Chains(heap, heads, chains) && m < 32 && block + 4 <= |heap|
    requires forall k :: 0 <= k < 32 ==> Off(chains[k], block)
    ensures Chains(Put32(heap, block, heads[m]), heads[m := block], chains[m := [block] + chains[m]])
  {
    forall k | 0 <= k < 32 && k != m ensures Chain(Put32(heap, block, heads[m]), heads[k], chains[k]) {
      ChainFrame(heap, heads[k], chains[k], block, heads[m]);
    }
    ChainPush(heap, heads[m], chains[m], block);
  }

  lemma ChainsPop(heap: seq<Byte>, heads: seq<Word>, chains: seq<seq<nat>>, m: nat)
    requires Chains(heap, heads, chains) && m < 32 && chains[m] != []
    ensures chains[m][0] + 4 <= |heap|
    ensures Chains(heap, heads[m := Get32(heap, chains[m][0])], chains[m := Drop(chains[m], 0)])
  {
  }

  lemma ChainsUnlink(heap: seq<Byte>, heads: seq<Word>, chains: seq<seq<nat>>, m: nat, k: nat)
    requires Chains(heap, heads, chains) && m < 32 && 0 < k < |chains[m]|
    requires Off(Drop(chains[m], k - 1), chains[m][k - 1])
    requires forall j :: 0 <= j < 32 && j != m ==> Off(chains[j], chains[m][k - 1])
    ensures chains[m][k - 1] + 4 <= |heap| && chains[m][k] + 4 <= |heap|
    ensures Chains(Put32(heap, chains[m][k - 1], Get32(heap, chains[m][k])), heads, chains[m := Drop(chains[m], k)])
  {
    assert Chain(heap, heads[m], chains[m]);
    var x, v := chains[m][k - 1], Get32(heap, chains[m][k]);
    forall j | 0 <= j < 32 && j != m ensures Chain(Put32(heap, x, v), heads[j], chains[j]) {
      ChainFrame(heap, heads[j], chains[j], x, v);
    }
    ChainUnlink(heap, heads[m], chains[m], k);
  }

  /** List `m` holds every free block of size `Pow2(m)` once, blocks in `hidden` excepted. */
  ghost predicate Listing(chains: seq<seq<nat>>, tiles: Tiles, hidden: set<nat>) {
    && |chains| == 32
    && (forall m, b :: 0 <= m < 32 && b in chains[m] ==> IsFree(tiles, b, m) && b !in hidden)
    && (forall b :: b in tiles && !tiles[b].used && b !in hidden ==>
          tiles[b].sizem < 32 && b in chains[tiles[b].sizem])
    && (forall m :: 0 <= m < 32 ==> Distinct(chains[m]))
  }

  lemma Lists(chains: seq<seq<nat>>, tiles: Tiles, hidden: set<nat>)
    requires Listing(chains, tiles, hidden)
    ensures |chains| == 32
  {
  }

  lemma Halves(tiles: Tiles, upper: nat, b: nat, m: nat)
    requires Tiling(tiles, upper) && IsFree(tiles, b, m) && m > 0
    ensures IsFree(Split(tiles, b), b, m - 1) && IsFree(Split(tiles, b), b + Pow2(m - 1), m - 1) && Pow2(m - 1) > 0
  {
    hide Tiling;
  }

  lemma FreeOnTiling(tiles: Tiles, b: nat, m: nat)
    requires IsFree(tiles, b, m)
    ensures b in tiles && tiles[b] == BlockInfo(m, false)
  {
  }

  /** The least measure `m >= LOWER` with `nbytes < Pow2(m)`. */
  predicate IsMeasure(nbytes: nat, m: nat) {
    LOWER <= m && nbytes < Pow2(m) && (m == LOWER || Pow2(m - 1) <= nbytes)
  }

  lemma MeasureUnique(nbytes: nat, m: nat, n: nat)
    requires IsMeasure(nbytes, m) && IsMeasure(nbytes, n)
    ensures m == n
  {
    if m < n { Pow2Monotone(m, n - 1); }
    if n < m { Pow2Monotone(n, m - 1); }
  }

  method MForSize(nbytes: nat) returns (m: nat)
    requires nbytes < Pow2(31)
    ensures IsMeasure(nbytes, m) && m <= 31
    ensures nbytes < Pow2(m) && (Pow2(m) <= Pow2(LOWER) || Pow2(m) <= 2 * nbytes)
  {
    var pow2: Word := 1;
    m := 0;
    Pow2Constants();
    while pow2 <= nbytes
      invariant m <= 31 && pow2 == Pow2(m)
      invariant m > 0 ==> Pow2(m - 1) <= nbytes
      decreases 31 - m
    {
      Pow2Monotone(m, 31);
      assert m < 31 by { if m == 31 { assert false; } }
      Pow2Monotone(m + 1, 31);
      pow2 := pow2 * 2;
      m := m + 1;
    }
    if m < LOWER {
      Pow2Monotone(m, LOWER);
      m := LOWER;
    }
  }

  lemma ListingRemove(chains: seq<seq<nat>>, tiles: Tiles, hidden: set<nat>, m: nat, k: nat)
    requires Listing(chains, tiles, hidden) && m < 32 && k < |chains[m]|
    ensures Listing(chains[m := Drop(chains[m], k)], tiles, hidden + {chains[m][k]})
  {
  }

  lemma ListingAdd(chains: seq<seq<nat>>, tiles: Tiles, hidden: set<nat>, m: nat, b: nat)
    requires Listing(chains, tiles, hidden) && m < 32 && b in hidden && IsFree(tiles, b, m)
    ensures Listing(chains[m := [b] + chains[m]], tiles, hidden - {b})
  {
  }

  lemma ListingRetile(chains: seq<seq<nat>>, s: Tiles, hs: set<nat>, t: Tiles, ht: set<nat>)
    requires Listing(chains, s, hs)
    requires forall b, m :: (IsFree(s, b, m) && b !in hs) <==> (IsFree(t, b, m) && b !in ht)
    ensures Listing(chains, t, ht)
  {
    forall m, b | 0 <= m < 32 && b in chains[m] ensures IsFree(t, b, m) && b !in ht {
      assert IsFree(s, b, m);
    }
    forall b | b in t && !t[b].used && b !in ht ensures t[b].sizem < 32 && b in chains[t[b].sizem] {
      assert IsFree(t, b, t[b].sizem);
    }
  }

  /** Entry `i` of the side table describes the block that starts at `GRAIN * i`, if any. */
  function Entry(tiles: Tiles, i: nat): BlockInfo {
    if GRAIN * i in tiles then tiles[GRAIN * i] else BlockInfo(0, false)
  }

  ghost predicate Describes(info: seq<BlockInfo>, tiles: Tiles) {
    forall i :: 0 <= i < |info| ==> info[i] == Entry(tiles, i)
  }

  lemma DescribesPut(info: seq<BlockInfo>, tiles: Tiles, b: nat, t: BlockInfo)
    requires Describes(info, tiles) && b % GRAIN == 0 && b / GRAIN < |info|
    ensures Describes(info[b / GRAIN := t], tiles[b := t])
  {
  }

  lemma DescribesRemove(info: seq<BlockInfo>, tiles: Tiles, b: nat)
    requires Describes(info, tiles) && b % GRAIN == 0 && b / GRAIN < |info|
    ensures Describes(info[b / GRAIN := BlockInfo(0, false)], tiles - {b})
  {
  }

  lemma AlignedDivisible(x: nat, m: nat)
    requires Aligned(x, m) && m >= LOWER
    ensures x % GRAIN == 0
  {
    hide Aligned;
    var a := AlignedQuarter(x, m);
    var b := AlignedQuarter(a, m - 2);
    var c := AlignedQuarter(b, m - 4);
    var d := AlignedQuarter(c, m - 6);
    hide *;
    MultipleOfGrain(x, d);
  }

  lemma MultipleOfGrain(x: nat, d: nat)
    requires x == 4 * (4 * (4 * (4 * d)))
    ensures x % GRAIN == 0
  {
  }

  lemma AlignedQuarter(x: nat, m: nat) returns (y: nat)
    requires Aligned(x, m) && m >= 2
    ensures x == 4 * y && Aligned(y, m - 2)
  {
    y := x / 2 / 2;
  }

  lemma HeapSizes(upper: nat)
    requires LOWER <= upper <= 30
    ensures Pow2(upper) == GRAIN * Pow2(upper - 8) <= 0x4000_0000
  {
    assert Pow2(upper) <= 0x4000_0000 by { Pow2Constants(); Pow2Monotone(upper, 30); }
    Pow2Quarter(upper);
    Pow2Quarter(upper - 2);
    Pow2Quarter(upper - 4);
    Pow2Quarter(upper - 6);
  }

  lemma Pow2Quarter(m: nat)
    requires m >= 2
    ensures Pow2(m) == 4 * Pow2(m - 2)
  {
  }

  /** `s` and `t` agree on every byte of the blocks in `used`. */
  ghost predicate Keeps(used: map<nat, nat>, s: seq<Byte>, t: seq<Byte>) {
    |s| == |t| && forall b, x :: b in used && b <= x < b + Pow2(used[b]) && x < |s| ==> s[x] == t[x]
  }

  lemma KeepsSame(used: map<nat, nat>, m: seq<Byte>)
    ensures Keeps(used, m, m)
  {
  }

  lemma CoalescedIsBut(tiles: Tiles, upper: nat, b: nat)
    requires Coalesced(tiles, upper)
    ensures CoalescedBut(tiles, upper, b)
  {
  }

  lemma KeepsTransitive(used: map<nat, nat>, r: seq<Byte>, s: seq<Byte>, t: seq<Byte>)
    requires Keeps(used, r, s) && Keeps(used, s, t)
    ensures Keeps(used, r, t)
  {
  }

  lemma KeepsPut(tiles: Tiles, upper: nat, heap: seq<Byte>, b: nat, v: Word)
    requires Tiling(tiles, upper) && b in tiles && !tiles[b].used && b + 4 <= |heap|
    ensures Keeps(Used(tiles), heap, Put32(heap, b, v))
  {
    BlockHoldsLink(tiles, upper, b);
    forall c, x | c in Used(tiles) && c <= x < c + Pow2(Used(tiles)[c]) && x < |heap|
      ensures Put32(heap, b, v)[x] == heap[x]
    {
      assert x < b || b + 4 <= x;
    }
  }

  lemma BlockHoldsLink(tiles: Tiles, upper: nat, b: nat)
    requires Placed(tiles, upper) && b in tiles
    ensures Size(tiles[b]) >= 4 && b + 4 <= Pow2(upper)
  {
    Pow2Monotone(2, tiles[b].sizem);
  }

  lemma BlocksOff(tiles: Tiles, upper: nat, chain: seq<nat>, b: nat)
    requires Tiling(tiles, upper) && b in tiles
    requires forall i :: 0 <= i < |chain| ==> chain[i] in tiles && chain[i] != b
    ensures Off(chain, b)
  {
    forall i | 0 <= i < |chain| ensures chain[i] + 4 <= b || b + 4 <= chain[i] {
      BlockHoldsLink(tiles, upper, b);
      BlockHoldsLink(tiles, upper, chain[i]);
    }
  }

  /** A free block on no list is off every list. */
  lemma HiddenOff(chains: seq<seq<nat>>, tiles: Tiles, upper: nat, hidden: set<nat>, b: nat)
    requires Listing(chains, tiles, hidden) && Tiling(tiles, upper) && b in tiles && b in hidden
    ensures forall k :: 0 <= k < 32 ==> Off(chains[k], b)
  {
    forall k | 0 <= k < 32 ensures Off(chains[k], b) {
      forall i | 0 <= i < |chains[k]| ensures chains[k][i] in tiles && chains[k][i] != b {
        assert chains[k][i] in chains[k];
        assert IsFree(tiles, chains[k][i], k);
      }
      BlocksOff(tiles, upper, chains[k], b);
    }
  }

  /** A listed block is off the rest of its own list and off every other one. */
  lemma ListedOff(chains: seq<seq<nat>>, tiles: Tiles, upper: nat, hidden: set<nat>, m: nat, k: nat)
    requires Listing(chains, tiles, hidden) && Tiling(tiles, upper) && m < 32 && k < |chains[m]|
    ensures chains[m][k] in tiles && !tiles[chains[m][k]].used
    ensures Off(Drop(chains[m], k), chains[m][k])
    ensures forall j :: 0 <= j < 32 && j != m ==> Off(chains[j], chains[m][k])
  {
    var x := chains[m][k];
    assert x in chains[m];
    ListingRemove(chains, tiles, hidden, m, k);
    var rest := chains[m := Drop(chains[m], k)];
    HiddenOff(rest, tiles, upper, hidden + {x}, x);
    assert Off(rest[m], x);
    forall j | 0 <= j < 32 && j != m ensures Off(chains[j], x) { assert Off(rest[j], x); }
  }

  lemma SplitListing(chains: seq<seq<nat>>, tiles: Tiles, b: nat)
    requires b in tiles && !tiles[b].used && tiles[b].sizem > 0 && b + Pow2(tiles[b].sizem - 1) !in tiles
    requires Listing(chains, tiles, {b})
    ensures Listing(chains, Split(tiles, b), {b, b + Pow2(tiles[b].sizem - 1)})
  {
    ListingRetile(chains, tiles, {b}, Split(tiles, b), {b, b + Pow2(tiles[b].sizem - 1)});
  }

  lemma SplitDescribed(info: seq<BlockInfo>, tiles: Tiles, upper: nat, b: nat)
    requires LOWER <= upper <= 30 && |info| == Pow2(upper - 8) && Describes(info, tiles)
    requires Tiling(tiles, upper) && b in tiles && tiles[b].sizem > LOWER
    ensures var t, h := tiles[b].(sizem := tiles[b].sizem - 1), b + Pow2(tiles[b].sizem - 1);
      && b / GRAIN < |info| && h / GRAIN < |info|
      && Describes(info[b / GRAIN := t][h / GRAIN := t], Split(tiles, b))
      && info[b / GRAIN] == tiles[b] && info[h / GRAIN] == BlockInfo(0, false) && b / GRAIN != h / GRAIN
  {
    hide Pow2;
    hide Aligned;
    hide Tiling;
    var t, h := tiles[b].(sizem := tiles[b].sizem - 1), b + Pow2(tiles[b].sizem - 1);
    HalfIndices(tiles, upper, b);
    assert GRAIN * (b / GRAIN) == b && GRAIN * (h / GRAIN) == h;
    DescribesPut(info, tiles, b, t);
    DescribesPut(info[b / GRAIN := t], tiles[b := t], h, t);
  }

  lemma HalfIndices(tiles: Tiles, upper: nat, b: nat)
    requires LOWER <= upper <= 30 && Tiling(tiles, upper) && b in tiles && tiles[b].sizem > LOWER
    ensures var h := b + Pow2(tiles[b].sizem - 1);
      && b % GRAIN == 0 && h % GRAIN == 0 && b / GRAIN < Pow2(upper - 8) && h / GRAIN < Pow2(upper - 8)
      && h !in tiles && h != b
  {
    var h := b + Pow2(tiles[b].sizem - 1);
    AlignedHalves(b, tiles[b].sizem - 1);
    AlignedDivisible(b, tiles[b].sizem - 1);
    AlignedDivisible(h, tiles[b].sizem - 1);
    TableIndex(b, upper);
    TableIndex(h, upper);
    UpperHalfIsNoBlock(tiles, b);
  }

  lemma UpperHalfIsNoBlock(tiles: Tiles, b: nat)
    requires Disjoint(tiles) && b in tiles && tiles[b].sizem > 0
    ensures b + Pow2(tiles[b].sizem - 1) !in tiles && Pow2(tiles[b].sizem - 1) > 0
  {
  }

  lemma TableIndex(b: nat, upper: nat)
    requires LOWER <= upper <= 30 && b < Pow2(upper)
    ensures b / GRAIN < Pow2(upper - 8)
  {
    HeapSizes(upper);
  }

  lemma MergeListing(chains: seq<seq<nat>>, tiles: Tiles, b: nat)
    requires b in tiles && !tiles[b].used && IsFree(tiles, b + Size(tiles[b]), tiles[b].sizem)
    requires Listing(chains, tiles, {b, b + Size(tiles[b])})
    ensures Listing(chains, Merge(tiles, b), {b})
  {
    ListingRetile(chains, tiles, {b, b + Size(tiles[b])}, Merge(tiles, b), {b});
  }

  lemma MergeDescribed(info: seq<BlockInfo>, tiles: Tiles, upper: nat, b: nat)
    requires LOWER <= upper <= 30 && |info| == Pow2(upper - 8) && Describes(info, tiles)
    requires Tiling(tiles, upper) && b in tiles && b + Size(tiles[b]) in tiles
    ensures var t, h := tiles[b].(sizem := tiles[b].sizem + 1), b + Size(tiles[b]);
      && b / GRAIN < |info| && h / GRAIN < |info|
      && Describes(info[b / GRAIN := t][h / GRAIN := BlockInfo(0, false)], Merge(tiles, b))
  {
    var t, h := tiles[b].(sizem := tiles[b].sizem + 1), b + Size(tiles[b]);
    AlignedDivisible(b, tiles[b].sizem);
    AlignedDivisible(h, tiles[h].sizem);
    TableIndex(b, upper);
    TableIndex(h, upper);
    assert tiles[b := t] - {h} == Merge(tiles, b);
    hide *;
    DescribesPut(info, tiles, b, t);
    DescribesRemove(info[b / GRAIN := t], tiles[b := t], h);
  }

  lemma MarkListing(chains: seq<seq<nat>>, tiles: Tiles, b: nat)
    requires b in tiles
    ensures !tiles[b].used && Listing(chains, tiles, {b}) ==>
              Listing(chains, tiles[b := tiles[b].(used := true)], {})
    ensures tiles[b].used && Listing(chains, tiles, {}) ==>
              Listing(chains, tiles[b := tiles[b].(used := false)], {b})
  {
    if !tiles[b].used && Listing(chains, tiles, {b}) {
      ListingRetile(chains, tiles, {b}, tiles[b := tiles[b].(used := true)], {});
    }
    if tiles[b].used && Listing(chains, tiles, {}) {
      ListingRetile(chains, tiles, {}, tiles[b := tiles[b].(used := false)], {b});
    }
  }

  lemma MarkDescribed(info: seq<BlockInfo>, tiles: Tiles, upper: nat, b: nat, u: bool)
    requires LOWER <= upper <= 30 && |info| == Pow2(upper - 8) && Describes(info, tiles)
    requires Tiling(tiles, upper) && b in tiles
    ensures b / GRAIN < |info| && info[b / GRAIN] == tiles[b]
    ensures Describes(info[b / GRAIN := tiles[b].(used := u)], tiles[b := tiles[b].(used := u)])
  {
    AlignedDivisible(b, tiles[b].sizem);
    TableIndex(b, upper);
    DescribesPut(info, tiles, b, tiles[b].(used := u));
  }

  lemma BuddyDescribed(info: seq<BlockInfo>, tiles: Tiles, upper: nat, b: nat, m: nat)
    requires LOWER <= upper <= 30 && |info| == Pow2(upper - 8) && Describes(info, tiles)
    requires Tiling(tiles, upper) && IsFree(tiles, b, m) && m < upper
    ensures Buddy(b, m) / GRAIN < |info| && Buddy(b, m) != b
    ensures info[Buddy(b, m) / GRAIN] == BlockInfo(m, false) <==> Mergeable(tiles, upper, b)
  {
    BuddyInHeap(b, m, upper);
    BuddyLaws(b, m);
    AlignedDivisible(Buddy(b, m), m);
    TableIndex(Buddy(b, m), upper);
  }

  /** When no list from `m` upwards holds a block, there is no room for one of that size. */
  lemma EmptyListsNoRoom(chains: seq<seq<nat>>, tiles: Tiles, upper: nat, m: nat)
    requires Tiling(tiles, upper) && Coalesced(tiles, upper) && Listing(chains, tiles, {})
    requires LOWER <= m && upper < 32
    requires forall k :: m <= k <= upper ==> chains[k] == []
    ensures !exists w :: Available(Used(tiles), upper, w, m)
  {
    RoomIffLargeFreeBlock(tiles, upper, m);
  }

  lemma ListedRoom(chains: seq<seq<nat>>, tiles: Tiles, upper: nat, m: nat, n: nat)
    requires Tiling(tiles, upper) && Listing(chains, tiles, {})
    requires LOWER <= m <= n < 32 && chains[n] != []
    ensures Available(Used(tiles), upper, chains[n][0], m)
  {
    var b := chains[n][0];
    assert b in chains[n] && IsFree(tiles, b, n);
    FreeBlockIsAvailable(tiles, upper, b);
    AlignedWeaken(b, n, m);
    Pow2Monotone(m, n);
  }

  lemma ChainKept(chains: seq<seq<nat>>, tiles: Tiles, upper: nat, heap: seq<Byte>, head: Word, m: nat,
                  b: nat, x: nat, v: Byte)
    requires Listing(chains, tiles, {}) && Tiling(tiles, upper) && m < 32 && Chain(heap, head, chains[m])
    requires b in Used(tiles) && b <= x < b + Pow2(Used(tiles)[b]) && x < |heap|
    ensures Chain(heap[x := v], head, chains[m])
  {
    var c := chains[m];
    forall i | 0 <= i < |c| ensures Get32(heap[x := v], c[i]) == Link(c, i + 1) {
      assert c[i] in c && IsFree(tiles, c[i], m);
      BlockHoldsLink(tiles, upper, c[i]);
      assert x < c[i] || c[i] + 4 <= x;
      assert Get32(heap, c[i]) == Link(c, i + 1);
    }
  }

  lemma InitialListing(upper: nat, chains: seq<seq<nat>>)
    requires |chains| == 32 && LOWER <= upper < 32 && chains[upper] == [0]
    requires forall m :: 0 <= m < 32 && m != upper ==> chains[m] == []
    ensures Listing(chains, Initial(upper), {})
  {
  }

  class MemArea {
    const upper: nat
    const base: nat           // `mem`, the address of the heap
    const blocks: array<BlockInfo>
    const freelist: array<Word>
    const mem: array<Byte>
    ghost var tiles: Tiles
    ghost var chains: seq<seq<nat>>

    ghost predicate Shape() {
      && LOWER <= upper <= 30 && 0 < base
      && blocks.Length == Pow2(upper - 8) && freelist.Length == 32 && mem.Length == Pow2(upper)
    }

    ghost predicate Table()
      reads this`tiles, blocks
    {
      Describes(blocks[..], tiles)
    }

    /** The blocks tile the heap and every free block not in `hidden` is on its list. */
    ghost predicate Spine(hidden: set<nat>)
      reads this`tiles, this`chains, freelist, mem
    {
      && Shape()
      && Tiling(tiles, upper)
      && Listing(chains, tiles, hidden)
      && Chains(mem[..], freelist[..], chains)
    }

    ghost predicate Valid()
      reads this`tiles, this`chains, blocks, freelist, mem
    {
      Spine({}) && Table() && Coalesced(tiles, upper)
    }

    lemma Cut()
      requires Valid()
      ensures Shape() && Tiling(tiles, upper) && Coalesced(tiles, upper)
    {
    }

    /** The table records the sizes of the blocks in use. */
    lemma SizeRecorded(b: nat)
      requires Valid() && b in Used(tiles)
      ensures b / GRAIN < blocks.Length && blocks[b / GRAIN].sizem == Used(tiles)[b]
    {
      MarkDescribed(blocks[..], tiles, upper, b, true);
    }

    method AddToFreelist(m: nat, block: nat, ghost hidden: set<nat>)
      requires Spine(hidden) && m < 32 && block in hidden && IsFree(tiles, block, m)
      modifies this`chains, freelist, mem
      ensures Spine(hidden - {block})
      ensures chains == old(chains)[m := [block] + old(chains)[m]]
      ensures Keeps(Used(tiles), old(mem[..]), mem[..])
    {
      assert block + Pow2(m) <= Pow2(upper);
      HeapSizes(upper);
      BlockHoldsLink(tiles, upper, block);
      HiddenOff(chains, tiles, upper, hidden, block);
      ChainsPush(mem[..], freelist[..], chains, m, block);
      ListingAdd(chains, tiles, hidden, m, block);
      KeepsPut(tiles, upper, mem[..], block, freelist[m]);
      Store32(mem, block, freelist[m]);
      freelist[m] := block;
      chains := chains[m := [block] + chains[m]];
      assert freelist[..] == old(freelist[..])[m := block];
    }

    /** The link to element `k` of list `m` is redirected to element `k + 1`; the link is
        word `at` of the heap, or the list head when `at` is negative. */
    method Unlink(m: nat, ghost k: nat, block: nat, at: int, ghost hidden: set<nat>)
      requires Spine(hidden) && m < 32 && k < |chains[m]|
      requires chains[m][k] == block && at == if k == 0 then -1 else chains[m][k - 1]
      modifies this`chains, freelist, mem
      ensures Spine(hidden + {block})
      ensures chains == old(chains)[m := Drop(old(chains)[m], k)]
      ensures Keeps(Used(tiles), old(mem[..]), mem[..])
    {
      ListingRemove(chains, tiles, hidden, m, k);
      assert Chain(mem[..], freelist[m], chains[m]);
      var next := Load32(mem, block);
      if at < 0 {
        ChainsPop(mem[..], freelist[..], chains, m);
        freelist[m] := next;
        assert freelist[..] == old(freelist[..])[m := next];
      } else {
        ListedOff(chains, tiles, upper, hidden, m, k - 1);
        ChainsUnlink(mem[..], freelist[..], chains, m, k);
        KeepsPut(tiles, upper, mem[..], at, next);
        Store32(mem, at, next);
      }
      chains := chains[m := Drop(chains[m], k)];
    }

    /** The loop of `remove_from_freelist`: follow list `m` up to the link that leads to `block`. */
    method FindInFreelist(m: nat, block: nat) returns (found: bool, at: int, ghost k: nat)
      requires m < freelist.Length && m < |chains| && Chain(mem[..], freelist[m], chains[m])
      requires mem.Length <= EMPTY
      ensures found <==> block in chains[m]
      ensures found ==> k < |chains[m]| && chains[m][k] == block && forall i :: 0 <= i < k ==> chains[m][i] != block
      ensures found ==> at == if k == 0 then -1 else chains[m][k - 1]
    {
      ghost var chain := chains[m];
      k := 0;
      found := false;
      at := -1;
      var ptr := freelist[m];
      while ptr != EMPTY
        invariant k <= |chain| && ptr == Link(chain, k)
        invariant at == if k == 0 then -1 else chain[k - 1]
        invariant forall i :: 0 <= i < k ==> chain[i] != block
        decreases |chain| - k
      {
        assert Get32(mem[..], chain[k]) == Link(chain, k + 1);
        if ptr == block {
          found := true;
          break;
        }
        at := ptr;
        ptr := Load32(mem, ptr);
        k := k + 1;
      }
    }

    method RemoveFromFreelist(m: nat, block: nat, ghost hidden: set<nat>) returns (ghost k: nat)
      requires Spine(hidden) && m < 32 && block in chains[m]
      modifies this`chains, freelist, mem
      ensures Spine(hidden + {block})
      ensures k < |old(chains)[m]| && old(chains)[m][k] == block
      ensures old(chains)[m][0] == block ==> k == 0
      ensures chains == old(chains)[m := Drop(old(chains)[m], k)]
      ensures Keeps(Used(tiles), old(mem[..]), mem[..])
    {
      assert Chain(mem[..], freelist[m], chains[m]);
      HeapSizes(upper);
      var found, at;
      found, at, k := FindInFreelist(m, block);
      assert found;
      Unlink(m, k, block, at, hidden);
    }

    // ----- one split and one merge -----

    method SetInfo(block: nat, t: BlockInfo)
      requires block / GRAIN < blocks.Length
      modifies blocks
      ensures blocks[..] == old(blocks[..])[block / GRAIN := t]
    {
      blocks[block / GRAIN] := t;
    }

    /** One round of the splitting loop: the first block of list `cm` is replaced by its halves. */
    method SplitFirst(cm: nat)
      requires Spine({}) && Table() && LOWER < cm <= upper && chains[cm] != []
      requires CoalescedBut(tiles, upper, chains[cm][0])
      modifies this`tiles, this`chains, blocks, freelist, mem
      ensures Spine({}) && Table() && Used(tiles) == old(Used(tiles))
      ensures chains[cm - 1] != [] && chains[cm - 1][0] == old(chains[cm][0])
      ensures CoalescedBut(tiles, upper, chains[cm - 1][0])
      ensures Keeps(Used(tiles), old(mem[..]), mem[..])
    {
      var block := freelist[cm];
      assert Chain(mem[..], freelist[cm], chains[cm]) && block in chains[cm];
      assert IsFree(tiles, block, cm);
      MarkDescribed(blocks[..], tiles, upper, block, false);
      assert !blocks[block / GRAIN].used && blocks[block / GRAIN].sizem == cm;
      SplitKeepsCoalescing(tiles, upper, block);
      ghost var k := RemoveFromFreelist(cm, block, {});
      ghost var heap := mem[..];
      hide CoalescedBut;
      hide Keeps;
      AddHalves(cm, block, {} + {block});
      KeepsTransitive(Used(tiles), old(mem[..]), heap, mem[..]);
    }

    method AddHalves(cm: nat, block: nat, ghost hidden: set<nat>)
      requires hidden == {block} && Spine(hidden) && Table() && LOWER < cm <= upper && IsFree(tiles, block, cm)
      modifies this`tiles, this`chains, blocks, freelist, mem
      ensures Spine({}) && Table() && tiles == Split(old(tiles), block) && Used(tiles) == old(Used(tiles))
      ensures chains[cm - 1] != [] && chains[cm - 1][0] == block
      ensures Keeps(Used(tiles), old(mem[..]), mem[..])
    {
      hide Pow2;
      hide Keeps;
      hide Spine;
      hide Table;
      hide Split;
      hide IsFree;
      FreeOnTiling(tiles, block, cm);
      var half2 := block + Pow2(cm - 1);
      Halve(cm, block, half2, hidden);
      AddToFreelist(cm - 1, half2, {block, half2});
      ghost var heap := mem[..];
      assert {block, half2} - {half2} == {block};
      AddToFreelist(cm - 1, block, {block});
      assert {block} - {block} == {};
      KeepsTransitive(Used(tiles), old(mem[..]), heap, mem[..]);
    }

    method Halve(cm: nat, block: nat, half2: nat, ghost hidden: set<nat>)
      requires hidden == {block} && Spine(hidden) && Table() && LOWER < cm <= upper && IsFree(tiles, block, cm)
      requires half2 == block + Pow2(cm - 1)
      modifies this`tiles, blocks
      ensures Spine({block, half2}) && Table() && tiles == Split(old(tiles), block)
      ensures IsFree(tiles, block, cm - 1) && IsFree(tiles, half2, cm - 1) && half2 != block && |chains| == 32
      ensures cm < 32
      ensures Used(tiles) == old(Used(tiles))
    {
      hide Tiling;
      hide Listing;
      hide Chains;
      hide Describes;
      hide Split;
      hide Pow2;
      Lists(chains, tiles, hidden);
      Halves(tiles, upper, block, cm);
      SplitKeepsTiling(tiles, upper, block);
      SplitKeepsUsed(tiles, block);
      SplitListing(chains, tiles, block);
      SplitDescribed(blocks[..], tiles, upper, block);
      SetInfo(block, blocks[block / GRAIN].(sizem := cm - 1));
      SetInfo(half2, blocks[half2 / GRAIN].(sizem := cm - 1));
      assert !blocks[block / GRAIN].used && !blocks[half2 / GRAIN].used;
      tiles := Split(tiles, block);
    }

    // ----- buddy_alloc -----

    /** The search loop: the first list from `m` upwards that holds a block. */
    method FindSize(m: nat) returns (cm: nat)
      requires freelist.Length == |chains| == 32 && m < 32 && upper <= 30
      requires Chains(mem[..], freelist[..], chains) && mem.Length <= EMPTY
      ensures m <= cm
      ensures cm <= upper ==> chains[cm] != []
      ensures forall k :: m <= k < cm && k < 32 ==> chains[k] == []
    {
      forall k | 0 <= k < 32 ensures chains[k] == [] <==> freelist[k] == EMPTY {
        assert Chain(mem[..], freelist[k], chains[k]);
      }
      cm := m;
      if freelist[m] == EMPTY {
        cm := m + 1;
        while cm <= upper
          invariant m < cm && forall k :: m <= k < cm && k < 32 ==> chains[k] == []
        {
          if freelist[cm] != EMPTY { break; }
          cm := cm + 1;
        }
      }
    }

    /** The splitting loop: the first block of list `cm` is cut down to size `Pow2(m)`. */
    method SplitDown(m: nat, size: nat)
      requires Spine({}) && Table() && LOWER <= m <= size <= upper && chains[size] != []
      requires CoalescedBut(tiles, upper, chains[size][0])
      modifies this`tiles, this`chains, blocks, freelist, mem
      ensures Spine({}) && Table() && Used(tiles) == old(Used(tiles))
      ensures chains[m] != [] && chains[m][0] == old(chains[size][0])
      ensures CoalescedBut(tiles, upper, chains[m][0])
      ensures Keeps(Used(tiles), old(mem[..]), mem[..])
    {
      var cm := size;
      hide CoalescedBut;
      assert Keeps(Used(tiles), old(mem[..]), mem[..]);
      hide Keeps;
      while cm > m
        invariant m <= cm <= size
        invariant Spine({}) && Table() && Used(tiles) == old(Used(tiles))
        invariant chains[cm] != [] && chains[cm][0] == old(chains[size][0])
        invariant CoalescedBut(tiles, upper, chains[cm][0])
        invariant Keeps(Used(tiles), old(mem[..]), mem[..])
      {
        ghost var heap := mem[..];
        SplitFirst(cm);
        KeepsTransitive(Used(tiles), old(mem[..]), heap, mem[..]);
        cm := cm - 1;
      }
    }

    /** Hand out the first block of list `m`. */
    method TakeFirst(m: nat) returns (block: nat)
      requires Spine({}) && Table() && LOWER <= m <= upper && chains[m] != []
      requires CoalescedBut(tiles, upper, chains[m][0])
      modifies this`tiles, this`chains, blocks, freelist, mem
      ensures Valid() && block == old(chains[m][0]) && block < Pow2(upper)
      ensures Used(tiles) == old(Used(tiles))[block := m]
      ensures Keeps(old(Used(tiles)), old(mem[..]), mem[..])
    {
      hide Tiling;
      hide Listing;
      hide Chains;
      hide Describes;
      hide Coalesced;
      hide CoalescedBut;
      hide Keeps;
      FirstListed(m);
      block := freelist[m];
      MarkKeepsTiling(tiles, upper, block, true);
      MarkKeepsCoalescing(tiles, upper, block);
      MarkChangesUsed(tiles, block, true);
      MarkDescribed(blocks[..], tiles, upper, block, true);
      assert block != EMPTY && !blocks[block / GRAIN].used && blocks[block / GRAIN].sizem == m;
      ghost var marked := tiles[block := tiles[block].(used := true)];
      SetInfo(block, blocks[block / GRAIN].(used := true));
      ghost var k := RemoveFromFreelist(m, block, {});
      assert {} + {block} == {block};
      MarkListing(chains, tiles, block);
      tiles := marked;
    }

    /** The head of a list that is not empty. */
    lemma FirstListed(m: nat)
      requires Spine({}) && m <= upper
      ensures |chains| == 32 && LOWER <= upper <= 30 && blocks.Length == Pow2(upper - 8)
      ensures chains[m] != [] ==>
                freelist[m] == chains[m][0] && freelist[m] in chains[m] && IsFree(tiles, freelist[m], m)
                && freelist[m] != EMPTY && freelist[m] < Pow2(upper)
    {
      assert Chain(mem[..], freelist[m], chains[m]);
      assert chains[m] != [] ==> chains[m][0] in chains[m];
      HeapSizes(upper);
    }

    /** Pointer to a block of at least `nbytes + 1` bytes, or 0 (NULL) when there is no room.
        The block is cut from the first block on the first suitable non-empty list. */
    method Alloc(nbytes: nat) returns (p: nat, ghost m: nat)
      requires Valid() && nbytes < Pow2(31)
      modifies this`tiles, this`chains, blocks, freelist, mem
      ensures Valid() && IsMeasure(nbytes, m)
      ensures p == 0 <==> !exists w :: Available(old(Used(tiles)), upper, w, m)
      ensures p == 0 ==> unchanged(this, blocks, freelist, mem)
      ensures p != 0 ==> p >= base && Available(old(Used(tiles)), upper, p - base, m)
      ensures p != 0 ==> Used(tiles) == old(Used(tiles))[p - base := m]
      ensures p != 0 ==> exists n :: m <= n <= upper && (forall k :: m <= k < n ==> old(chains)[k] == [])
                                  && old(chains)[n] != [] && old(chains)[n][0] == p - base
      ensures Keeps(old(Used(tiles)), old(mem[..]), mem[..])
    {
      hide Spine;
      hide Table;
      hide Keeps;
      hide Coalesced;
      hide CoalescedBut;
      hide Tiling;
      hide Listing;
      hide Chains;
      hide Available;
      Ready();
      var measure := MForSize(nbytes);
      m := measure;
      var cm := FindSize(measure);
      KeepsSame(Used(tiles), mem[..]);
      if cm > upper {
        EmptyListsNoRoom(chains, tiles, upper, m);
        p := 0;
      } else {
        ListedRoom(chains, tiles, upper, m, cm);
        CoalescedIsBut(tiles, upper, chains[cm][0]);
        SplitDown(measure, cm);
        ghost var heap := mem[..];
        var block := TakeFirst(measure);
        KeepsTransitive(old(Used(tiles)), old(mem[..]), heap, mem[..]);
        p := base + block;
        assert m <= cm <= upper && old(chains)[cm] != [] && old(chains)[cm][0] == p - base;
      }
    }

    lemma Ready()
      requires Valid()
      ensures Shape() && upper <= 30 && mem.Length <= EMPTY && |chains| == 32
      ensures Tiling(tiles, upper) && Listing(chains, tiles, {}) && Chains(mem[..], freelist[..], chains)
    {
      HeapSizes(upper);
    }

    // ----- buddy_free -----

    method GetBuddy(block: nat) returns (buddy: nat)
      requires block / GRAIN < blocks.Length && LOWER <= blocks[block / GRAIN].sizem <= upper
      ensures buddy == Buddy(block, blocks[block / GRAIN].sizem)
    {
      var m := blocks[block / GRAIN].sizem;
      if Bit(block, m) {
        BitSet(block, m);
        buddy := block - Pow2(m);
      } else {
        buddy := block + Pow2(m);
      }
    }

    /** One round of the coalescing loop: the free block `block` and its free buddy become one. */
    method MergeBuddy(m: nat, block: nat, buddy: nat, ghost hidden: set<nat>) returns (low: nat)
      requires hidden == {block} && Spine(hidden) && Table() && LOWER <= m < upper
      requires IsFree(tiles, block, m) && buddy == Buddy(block, m) && IsFree(tiles, buddy, m)
      requires CoalescedBut(tiles, upper, block)
      modifies this`tiles, this`chains, blocks, freelist, mem
      ensures Spine({low}) && Table() && IsFree(tiles, low, m + 1)
      ensures low == (if block < buddy then block else buddy) && tiles == Merge(old(tiles), low)
      ensures CoalescedBut(tiles, upper, low)
      ensures Used(tiles) == old(Used(tiles))
      ensures Keeps(Used(tiles), old(mem[..]), mem[..])
    {
      BuddyLaws(block, m);
      assert buddy in chains[m];
      ghost var k := RemoveFromFreelist(m, buddy, hidden);
      hide Keeps;
      var high;
      low, high := block, buddy;
      if block > buddy {
        low, high := buddy, block;
      }
      Join(m, low, high, block, hidden + {buddy});
    }

    method Join(m: nat, low: nat, high: nat, ghost x: nat, ghost hidden: set<nat>)
      requires LOWER <= m < upper && IsFree(tiles, low, m) && IsFree(tiles, high, m)
      requires low < high && high == Buddy(low, m) && (x == low || x == high)
      requires hidden == {low, high} && Spine(hidden) && Table()
      requires CoalescedBut(tiles, upper, x)
      modifies this`tiles, blocks
      ensures Spine({low}) && Table() && IsFree(tiles, low, m + 1)
      ensures tiles == Merge(old(tiles), low)
      ensures CoalescedBut(tiles, upper, low)
      ensures Used(tiles) == old(Used(tiles))
    {
      hide Tiling;
      hide Listing;
      hide Chains;
      hide Describes;
      hide CoalescedBut;
      assert Mergeable(tiles, upper, low);
      MergeKeepsTiling(tiles, upper, low);
      MergeKeepsUsed(tiles, low);
      MergeKeepsCoalescing(tiles, upper, low, x);
      MergeListing(chains, tiles, low);
      MergeDescribed(blocks[..], tiles, upper, low);
      SetInfo(low, BlockInfo(m + 1, false));
      SetInfo(high, BlockInfo(0, false));
      tiles := Merge(tiles, low);
    }

    /** The coalescing loop. */
    method Coalesce(start: nat, measure: nat, ghost hidden: set<nat>) returns (block: nat, m: nat)
      requires hidden == {start} && Spine(hidden) && Table() && LOWER <= measure <= upper
      requires IsFree(tiles, start, measure) && CoalescedBut(tiles, upper, start)
      modifies this`tiles, this`chains, blocks, freelist, mem
      ensures Spine({block}) && Table() && IsFree(tiles, block, m) && Coalesced(tiles, upper)
      ensures m <= upper
      ensures Used(tiles) == old(Used(tiles))
      ensures Keeps(Used(tiles), old(mem[..]), mem[..])
    {
      block, m := start, measure;
      assert Keeps(Used(tiles), old(mem[..]), mem[..]);
      while m < upper
        invariant LOWER <= m <= upper && Spine({block}) && Table() && IsFree(tiles, block, m)
        invariant CoalescedBut(tiles, upper, block)
        invariant Used(tiles) == old(Used(tiles))
        invariant Keeps(Used(tiles), old(mem[..]), mem[..])
        decreases upper - m
      {
        MarkDescribed(blocks[..], tiles, upper, block, false);
        BuddyDescribed(blocks[..], tiles, upper, block, m);
        hide Keeps;
        hide CoalescedBut;
        hide Spine;
        hide Table;
        var buddy := GetBuddy(block);
        if blocks[buddy / GRAIN].used || blocks[buddy / GRAIN].sizem != m { break; }
        ghost var heap := mem[..];
        block := MergeBuddy(m, block, buddy, {block});
        KeepsTransitive(Used(tiles), old(mem[..]), heap, mem[..]);
        m := m + 1;
      }
      CoalescedAtLast(tiles, upper, block);
    }

    /** Give back the block at `p`; NULL is ignored. */
    method Free(p: nat)
      requires Valid() && (p == 0 || (base <= p && p - base in Used(tiles)))
      modifies this`tiles, this`chains, blocks, freelist, mem
      ensures Valid()
      ensures p == 0 ==> unchanged(this, blocks, freelist, mem)
      ensures p != 0 ==> Used(tiles) == old(Used(tiles)) - {p - base}
      ensures Keeps(Used(tiles), old(mem[..]), mem[..])
    {
      if p == 0 { return; }
      var block := p - base;
      assert block < Pow2(upper);
      MarkDescribed(blocks[..], tiles, upper, block, false);
      var m := blocks[block / GRAIN].sizem;
      assert LOWER <= m <= upper && blocks[block / GRAIN].used;
      Unmark(m, block);
      hide Keeps;
      hide Coalesced;
      hide CoalescedBut;
      block, m := Coalesce(block, m, {block});
      ghost var heap := mem[..];
      assert m < 32;
      hide Spine;
      hide Table;
      AddToFreelist(m, block, {block});
      assert {block} - {block} == {};
      KeepsTransitive(Used(tiles), old(mem[..]), heap, mem[..]);
    }

    method Unmark(m: nat, block: nat)
      requires Valid() && block in tiles && tiles[block] == BlockInfo(m, true)
      modifies this`tiles, blocks
      ensures Spine({block}) && Table() && IsFree(tiles, block, m) && CoalescedBut(tiles, upper, block)
      ensures Used(tiles) == old(Used(tiles)) - {block}
    {
      hide Listing;
      hide Chains;
      hide Describes;
      hide Coalesced;
      hide CoalescedBut;
      MarkKeepsTiling(tiles, upper, block, false);
      MarkKeepsCoalescing(tiles, upper, block);
      MarkChangesUsed(tiles, block, false);
      MarkDescribed(blocks[..], tiles, upper, block, false);
      MarkListing(chains, tiles, block);
      hide Tiling;
      SetInfo(block, BlockInfo(m, false));
      tiles := tiles[block := BlockInfo(m, false)];
    }

    // ----- clients and initialisation -----

    /** A client stores a byte somewhere in a block it was given. */
    method ClientWrite(b: nat, x: nat, v: Byte)
      requires Valid() && b in Used(tiles) && b <= x < b + Pow2(Used(tiles)[b])
      modifies mem
      ensures Valid() && mem[..] == old(mem[..])[x := v]
    {
      forall m | 0 <= m < 32 ensures Chain(mem[..][x := v], freelist[m], chains[m]) {
        ChainKept(chains, tiles, upper, mem[..], freelist[m], m, b, x, v);
      }
      mem[x] := v;
      assert mem[..] == old(mem[..])[x := v];
    }

    constructor (sizepow2: nat, membase: nat, heap: array<Byte>, info: array<BlockInfo>)
      requires LOWER <= sizepow2 <= 30 && 0 < membase
      requires heap.Length == Pow2(sizepow2) && info.Length == Pow2(sizepow2 - 8)
      modifies heap, info
      ensures Valid() && tiles == Initial(upper)
      ensures upper == sizepow2 && base == membase && mem == heap && blocks == info && fresh(freelist)
      ensures chains[upper] == [0] && forall m :: 0 <= m < 32 && m != upper ==> chains[m] == []
    {
      hide Tiling;
      hide Coalesced;
      hide Listing;
      upper, base, mem, blocks := sizepow2, membase, heap, info;
      freelist := new Word[32](_ => EMPTY);
      tiles := Initial(sizepow2);
      chains := seq(32, _ => [])[sizepow2 := [0]];
      new;
      InitialIsCoalesced(upper);
      HeapSizes(upper);
      InitialListing(upper, chains);
      forall i | 0 <= i < blocks.Length { blocks[i] := BlockInfo(0, false); }
      blocks[0] := BlockInfo(upper, false);
      freelist[upper] := 0;
      Store32(mem, 0, EMPTY);
      GetPut(old(heap[..]), 0, EMPTY);
    }
  }
}
