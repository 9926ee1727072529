/** Whole runs of the allocator, in the manner of src/testbuddy.c. Blocks are named by their
    offsets from the start of the heap. */
module BuddyRuns {
  import opened Powers
  import opened Bytes
  import opened BuddyTiling
  import opened BuddyAllocator

  datatype Command =
    | Malloc(nbytes: nat)
    | FreeAt(index: nat)                         // free the index-th outstanding block
    | Scribble(index: nat, at: nat, value: Byte) // a client stores into one of its blocks

  /** `live` lists each outstanding block once. */
  ghost predicate Outstanding(used: map<nat, nat>, live: seq<nat>) {
    Distinct(live) && forall b :: b in live <==> b in used
  }

  /** Blocks that are outstanding together lie in the heap and never overlap. */
  lemma OutstandingDisjoint(tiles: Tiles, upper: nat, live: seq<nat>, i: nat, j: nat)
    requires Tiling(tiles, upper) && Outstanding(Used(tiles), live)
    requires i < |live| && j < |live| && i != j
    ensures live[i] in Used(tiles) && live[j] in Used(tiles)
    ensures live[i] + Pow2(Used(tiles)[live[i]]) <= live[j] || live[j] + Pow2(Used(tiles)[live[j]]) <= live[i]
    ensures live[i] + Pow2(Used(tiles)[live[i]]) <= Pow2(upper)
  {
  }

  lemma OutstandingAdd(used: map<nat, nat>, live: seq<nat>, b: nat, m: nat)
    requires Outstanding(used, live) && b !in used
    ensures Outstanding(used[b := m], live + [b])
  {
  }

  lemma OutstandingRemove(used: map<nat, nat>, live: seq<nat>, k: nat)
    requires Outstanding(used, live) && k < |live|
    ensures live[k] in used && Outstanding(used - {live[k]}, Drop(live, k))
  {
  }

  ghost function Members(bs: seq<nat>): set<nat> {
    set b | b in bs
  }

  lemma AvailableIsUnused(used: map<nat, nat>, upper: nat, w: nat, m: nat)
    requires Available(used, upper, w, m)
    ensures w !in used
  {
  }

  /** Any run: requests, frees of outstanding blocks and stores into outstanding blocks. */
  method Exercise(ma: MemArea, commands: seq<Command>) returns (live: seq<nat>)
    requires ma.Valid() && Used(ma.tiles) == map[]
    requires forall i :: 0 <= i < |commands| && commands[i].Malloc? ==> commands[i].nbytes < Pow2(31)
    modifies ma`tiles, ma`chains, ma.blocks, ma.freelist, ma.mem
    ensures ma.Valid() && Outstanding(Used(ma.tiles), live)
  {
    live := [];
    for i := 0 to |commands|
      invariant ma.Valid() && Outstanding(Used(ma.tiles), live)
    {
      live := Execute(ma, commands[i], live);
    }
  }

  method Execute(ma: MemArea, command: Command, before: seq<nat>) returns (live: seq<nat>)
    requires ma.Valid() && Outstanding(Used(ma.tiles), before)
    requires command.Malloc? ==> command.nbytes < Pow2(31)
    modifies ma`tiles, ma`chains, ma.blocks, ma.freelist, ma.mem
    ensures ma.Valid() && Outstanding(Used(ma.tiles), live)
    ensures command.Malloc? ==> |before| <= |live| && live[..|before|] == before
    ensures command.FreeAt? && command.index < |before| ==> live == Drop(before, command.index)
  {
    hide ma.Valid;
    hide Outstanding;
    hide Used;
    live := before;
    ma.Cut();
    match command {
      case Malloc(nbytes) =>
        ghost var used := Used(ma.tiles);
        var p;
        ghost var m;
        p, m := ma.Alloc(nbytes);
        if p != 0 {
          AvailableIsUnused(used, ma.upper, p - ma.base, m);
          OutstandingAdd(used, live, p - ma.base, m);
          live := live + [p - ma.base];
        }
      case FreeAt(index) =>
        if index < |live| {
          OutstandingRemove(Used(ma.tiles), live, index);
          ma.Free(ma.base + live[index]);
          live := Drop(live, index);
        }
      case Scribble(index, at, value) =>
        if index < |live| {
          var b := live[index];
          OutstandingRemove(Used(ma.tiles), live, index);
          ma.SizeRecorded(b);
          if at < Pow2(ma.blocks[b / GRAIN].sizem) {
            ma.ClientWrite(b, b + at, value);
          }
        }
    }
  }

  /** Give back the blocks `bs` in the order listed. Whatever that order is, the heap ends up cut
      into the same blocks; when nothing stays in use it is the single block it started as. */
  method FreeAll(ma: MemArea, bs: seq<nat>)
    requires ma.Valid() && Distinct(bs) && forall b :: b in bs ==> b in Used(ma.tiles)
    modifies ma`tiles, ma`chains, ma.blocks, ma.freelist, ma.mem
    ensures ma.Valid() && Used(ma.tiles) == old(Used(ma.tiles)) - Members(bs)
    ensures forall t | Tiling(t, ma.upper) && Coalesced(t, ma.upper) && Used(t) == Used(ma.tiles) :: ma.tiles == t
    ensures Used(ma.tiles) == map[] ==> ma.tiles == Initial(ma.upper)
  {
    hide ma.Valid;
    ghost var used := Used(ma.tiles);
    assert used - Members(bs[..0]) == used;
    for i := 0 to |bs|
      invariant ma.Valid() && Used(ma.tiles) == used - Members(bs[..i])
    {
      assert bs[i] in bs && bs[i] !in bs[..i];
      assert Members(bs[..i + 1]) == Members(bs[..i]) + {bs[i]} by { assert bs[..i + 1] == bs[..i] + [bs[i]]; }
      ma.Cut();
      ma.Free(ma.base + bs[i]);
      assert used - Members(bs[..i]) - {bs[i]} == used - Members(bs[..i + 1]);
    }
    assert bs[..|bs|] == bs;
    ma.Cut();
    Settled(ma.tiles, ma.upper);
  }

  lemma Settled(tiles: Tiles, upper: nat)
    requires LOWER <= upper && Tiling(tiles, upper) && Coalesced(tiles, upper)
    ensures forall t | Tiling(t, upper) && Coalesced(t, upper) && Used(t) == Used(tiles) :: tiles == t
    ensures Used(tiles) == map[] ==> tiles == Initial(upper)
  {
    forall t | Tiling(t, upper) && Coalesced(t, upper) && Used(t) == Used(tiles) ensures tiles == t {
      UsedBlocksDetermineTiling(tiles, t, upper);
    }
    InitialIsCoalesced(upper);
  }

  /** Freeing a block straight after it was handed out restores the partition of the heap. */
  method AllocThenFree(ma: MemArea, nbytes: nat)
    requires ma.Valid() && nbytes < Pow2(31)
    modifies ma`tiles, ma`chains, ma.blocks, ma.freelist, ma.mem
    ensures ma.Valid() && ma.tiles == old(ma.tiles)
    ensures Keeps(Used(ma.tiles), old(ma.mem[..]), ma.mem[..])
  {
    hide ma.Valid;
    hide Keeps;
    hide Tiling;
    hide Coalesced;
    hide Available;
    ghost var tiles := ma.tiles;
    ghost var used := Used(ma.tiles);
    ma.Cut();
    var p;
    ghost var m;
    p, m := ma.Alloc(nbytes);
    ghost var heap := ma.mem[..];
    if p != 0 {
      AvailableIsUnused(used, ma.upper, p - ma.base, m);
      assert used[p - ma.base := m] - {p - ma.base} == used;
    }
    ma.Cut();
    ma.Free(p);
    ma.Cut();
    UsedBlocksDetermineTiling(ma.tiles, tiles, ma.upper);
    KeepsTransitive(used, old(ma.mem[..]), heap, ma.mem[..]);
  }
}
