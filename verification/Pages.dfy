/** src/page.c: the page allocator and the page tables it feeds. */
module Pages {
  import opened Bytes
  import opened PageModel

  function DirIndex(p: nat): (i: nat) {
    p / ENTRIES
  }

  function TblIndex(p: nat): (j: nat)
    ensures j < ENTRIES && p == ENTRIES * DirIndex(p) + j
    ensures p < MAX_FRAMES ==> DirIndex(p) < ENTRIES
  {
    p % ENTRIES
  }

  function ZeroPage(): (z: Page)
    ensures forall j :: 0 <= j < ENTRIES ==> z[j] == 0
  {
    seq(ENTRIES, _ => 0)
  }

  /** The entry for page number `p` in directory `d`, or 0 if there is no table for it. */
  function EntryAt(m: seq<Page>, d: nat, p: nat): (w: Word)
    requires p < MAX_FRAMES
  {
    Entry(m, d, DirIndex(p), TblIndex(p))
  }

  /** The pages mapped by a directory with their frames and permission bits: a flat map. */
  ghost function Flat(m: seq<Page>, d: nat): map<nat, Word> {
    map p: nat | p < MAX_FRAMES && Present(EntryAt(m, d, p)) :: EntryAt(m, d, p)
  }

  /** The page maps a frame of the allocator's. */
  ghost predicate Loses(v: map<nat, Word>, p: nat) {
    p in v && FrameOf(v[p]) >= START
  }

  ghost predicate Lost(m: seq<Page>, d: nat, p: nat)
    requires p < MAX_FRAMES
  {
    Present(EntryAt(m, d, p)) && FrameOf(EntryAt(m, d, p)) >= START
  }

  /** Frame `f` is now what page `p` of directory `d` maps, if the allocator has it. */
  ghost function SetRoles(roles: Roles, d: nat, p: nat, f: nat): Roles {
    if f < START then roles else roles[f := Mapped(d, DirIndex(p), TblIndex(p))]
  }

  /** Directory `d` has the tables that it had, at least. */
  ghost predicate TablesKept(m: seq<Page>, n: seq<Page>, d: nat) {
    d < |m| == |n| && forall i :: 0 <= i < ENTRIES && Present(m[d][i]) ==> Present(n[d][i])
  }

  /** Every page of every directory in `roles` maps what it did. */
  ghost predicate SameEntries(m: seq<Page>, n: seq<Page>, roles: Roles) {
    forall e: nat, q: nat :: IsDirectory(roles, e) && q < MAX_FRAMES ==> EntryAt(n, e, q) == EntryAt(m, e, q)
  }

  /** So does every page except page `p` of directory `d`. */
  ghost predicate SameButPage(m: seq<Page>, n: seq<Page>, roles: Roles, d: nat, p: nat) {
    forall e: nat, q: nat :: IsDirectory(roles, e) && q < MAX_FRAMES && (e, q) != (d, p) ==>
          EntryAt(n, e, q) == EntryAt(m, e, q)
  }

  /** So does every page of the directories other than `d`. */
  ghost predicate SameOthers(m: seq<Page>, n: seq<Page>, roles: Roles, d: nat) {
    forall e: nat, q: nat :: IsDirectory(roles, e) && q < MAX_FRAMES && e != d ==> EntryAt(n, e, q) == EntryAt(m, e, q)
  }

  /** Directory `d` may have been given frames; all else is as before. */
  ghost predicate Grown(m: seq<Page>, before: Roles, n: seq<Page>, after: Roles, d: nat) {
    && |m| == |n|
    && (forall g :: g in before ==>
          g in after
          && (after[g] == before[g] || (before[g].Loose? && after[g].Mapped? && after[g].d == d)))
    && (forall g :: g in after && g !in before ==> after[g].Loose? || g == d || Serves(after[g], d))
    && (forall g :: g in before && g < |m| && (before[g].Loose? || before[g].Mapped?) ==> n[g] == m[g])
    && (forall g: nat :: g < START && g < |m| ==> n[g] == m[g])
    && SameOthers(m, n, before, d)
  }

  lemma GrownTransitive(m: seq<Page>, r: Roles, n: seq<Page>, s: Roles, o: seq<Page>, t: Roles, d: nat)
    requires Grown(m, r, n, s, d) && Grown(n, s, o, t, d)
    ensures Grown(m, r, o, t, d)
  {
  }

  /** Directory `d` may have given up frames; all else is as before. */
  ghost predicate Shrunk(m: seq<Page>, before: Roles, n: seq<Page>, after: Roles, d: nat) {
    && |m| == |n|
    && (forall g :: g in after ==> g in before && after[g] == before[g])
    && (forall g :: g in before && g !in after ==> Serves(before[g], d))
    && (forall g :: g in after && g < |m| && (after[g].Loose? || after[g].Mapped?) ==> n[g] == m[g])
    && (forall g: nat :: g < START && g < |m| ==> n[g] == m[g])
    && SameOthers(m, n, before, d)
  }

  lemma ShrunkTransitive(m: seq<Page>, r: Roles, n: seq<Page>, s: Roles, o: seq<Page>, t: Roles, d: nat)
    requires Shrunk(m, r, n, s, d) && Shrunk(n, s, o, t, d)
    ensures Shrunk(m, r, o, t, d)
  {
  }

  lemma TableFrame(m: seq<Page>, roles: Roles, d: nat, i: nat)
    requires Tables(m, roles) && IsDirectory(roles, d) && i < ENTRIES
    ensures d < |m|
    ensures Present(m[d][i]) ==>
              var t := FrameOf(m[d][i]); START <= t < |m| && t in roles && roles[t] == Table(d, i)
  {
  }

  lemma FramesInMemory(m: seq<Page>, roles: Roles)
    requires Tables(m, roles)
    ensures forall f :: f in roles ==> START <= f < |m|
  {
  }

  lemma NothingChanged(m: seq<Page>, roles: Roles, d: nat)
    ensures Grown(m, roles, m, roles, d) && SameEntries(m, m, roles)
  {
  }

  lemma TableMade(m: seq<Page>, a: seq<Page>, n: seq<Page>, roles: Roles, d: nat, i: nat, t: nat,
                  chain: seq<nat>, head: nat, end: nat)
    requires Tables(m, roles) && IsDirectory(roles, d) && i < ENTRIES && !Present(m[d][i])
    requires |a| == |m| <= MAX_FRAMES && START <= t < |m| && t !in roles && a == m[t := a[t]]
    requires forall j :: 0 <= j < ENTRIES ==> a[t][j] == 0
    requires Tables(a, roles[t := Loose])
    requires n == a[d := a[d][i := MakeEntry(t, PRESENT + USER + READ_WRITE)]]
    requires FreeChain(a, head, chain) && Accounted(roles[t := Loose], chain, end)
    ensures Tables(n, roles[t := Table(d, i)])
    ensures Grown(m, roles, n, roles[t := Table(d, i)], d) && SameEntries(m, n, roles)
    ensures FreeChain(n, head, chain) && Accounted(roles[t := Table(d, i)], chain, end)
  {
    hide Tables;
    hide FreeChain;
    hide Accounted;
    hide Grown;
    hide SameEntries;
    FramesInMemory(m, roles);
    InstallTable(a, roles[t := Loose], d, i, t, MakeEntry(t, PRESENT + USER + READ_WRITE));
    assert roles[t := Loose][t := Table(d, i)] == roles[t := Table(d, i)];
    AllocTables(m, a, roles, t);
    InUse(roles[t := Loose], chain, end, d);
    OffChain(a, n, head, chain, d);
    Relabelled(roles[t := Loose], chain, end, t, Table(d, i));
    TableGrown(m, a, n, roles, d, i, t);
  }

  lemma InUse(roles: Roles, chain: seq<nat>, end: nat, f: nat)
    requires Accounted(roles, chain, end) && f in roles
    ensures f !in chain
  {
  }

  lemma TableGrown(m: seq<Page>, a: seq<Page>, n: seq<Page>, roles: Roles, d: nat, i: nat, t: nat)
    requires IsDirectory(roles, d) && START <= d < |m| && i < ENTRIES && START <= t < |m| && t !in roles
    requires |a| == |m| && a == m[t := a[t]] && |n| == |m| && n == a[d := n[d]]
    requires forall e: nat, k: nat, j: nat :: IsDirectory(roles, e) && k < ENTRIES && j < ENTRIES ==>
               Entry(a, e, k, j) == Entry(m, e, k, j)
    requires forall e: nat, k: nat, j: nat :: IsDirectory(roles[t := Loose], e) && k < ENTRIES && j < ENTRIES ==>
               Entry(n, e, k, j) == Entry(a, e, k, j)
    ensures Grown(m, roles, n, roles[t := Table(d, i)], d) && SameEntries(m, n, roles)
  {
    forall e: nat, q: nat | IsDirectory(roles, e) && q < MAX_FRAMES ensures EntryAt(n, e, q) == EntryAt(m, e, q) {
      assert IsDirectory(roles[t := Loose], e);
    }
  }

  /** A page's entry is set, in a table that exists, to a frame of its own or outside the allocator. */
  lemma PageMapped(m: seq<Page>, roles: Roles, a: seq<Page>, now: Roles, d: nat, p: nat, t: nat, f: nat, w: Word,
                   chain: seq<nat>, head: nat, end: nat)
    requires IsDirectory(roles, d) && p < MAX_FRAMES && Tables(a, now)
    requires t in now && now[t] == Table(d, DirIndex(p)) && START <= t < |a|
    requires forall g :: g in roles ==> g in now && now[g] == roles[g]
    requires Grown(m, roles, a, now, d) && SameEntries(m, a, roles)
    requires Present(w) && FrameOf(w) == f && (f < START || (f in roles && roles[f] == Loose && now[f] == Loose))
    requires Present(EntryAt(m, d, p)) ==> FrameOf(EntryAt(m, d, p)) < START
    requires FreeChain(a, head, chain) && Accounted(now, chain, end)
    ensures var n := a[t := a[t][TblIndex(p) := w]];
      var after := if f < START then now else now[f := Mapped(d, DirIndex(p), TblIndex(p))];
      && Tables(n, after) && EntryAt(n, d, p) == w && SameButPage(m, n, roles, d, p)
      && Grown(m, roles, n, after, d)
      && FreeChain(n, head, chain) && Accounted(after, chain, end)
  {
    hide Tables;
    hide FreeChain;
    hide Grown;
    hide SameButPage;
    var n := a[t := a[t][TblIndex(p) := w]];
    PageWritten(m, roles, a, now, d, p, t, w);
    SetMapping(a, now, t, TblIndex(p), f, w);
    OffChain(a, n, head, chain, t);
    PageGrown(m, roles, a, now, d, p, t, f, w);
  }

  /** What becomes of the frames when a page is mapped. */
  lemma MapRoles(before: Roles, mid: Roles, after: Roles, d: nat, p: nat, f: nat, lost: bool, g: nat)
    requires IsDirectory(before, d) && (f >= START ==> f in before && before[f] == Loose)
    requires forall x :: x in before ==> x in mid && mid[x] == before[x]
    requires forall x :: x in mid && x !in before ==> mid[x] == Table(d, DirIndex(p))
    requires lost ==> g in before && before[g] == Mapped(d, DirIndex(p), TblIndex(p))
    requires after == SetRoles(if lost then mid[g := Loose] else mid, d, p, f)
    ensures IsDirectory(after, d)
    ensures forall x :: x in before && x != f && !(lost && x == g) ==> x in after && after[x] == before[x]
    ensures lost ==> g in after && after[g] == Loose
    ensures forall x :: x in after && x !in before ==> after[x] == Table(d, DirIndex(p))
    ensures f >= START ==> f in after && after[f] == Mapped(d, DirIndex(p), TblIndex(p))
  {
  }

  lemma LostFrame(m: seq<Page>, roles: Roles, d: nat, p: nat)
    requires Tables(m, roles) && IsDirectory(roles, d) && p < MAX_FRAMES && Lost(m, d, p)
    ensures var f := FrameOf(EntryAt(m, d, p)); f in roles && roles[f] == Mapped(d, DirIndex(p), TblIndex(p))
  {
    TableFrame(m, roles, d, DirIndex(p));
    MappedFrame(m, roles, FrameOf(m[d][DirIndex(p)]), TblIndex(p));
  }

  /** The entry held a frame of the allocator's before: that frame is lost. */
  lemma PageRemapped(m: seq<Page>, roles: Roles, a: seq<Page>, now: Roles, d: nat, p: nat, t: nat, f: nat, w: Word,
                     chain: seq<nat>, head: nat, end: nat)
    requires IsDirectory(roles, d) && p < MAX_FRAMES && Tables(a, now)
    requires t in now && now[t] == Table(d, DirIndex(p)) && START <= t < |a|
    requires forall g :: g in roles ==> g in now && now[g] == roles[g]
    requires SameEntries(m, a, roles)
    requires Present(w) && FrameOf(w) == f && (f < START || (f in roles && roles[f] == Loose && now[f] == Loose))
    requires Present(EntryAt(m, d, p)) && FrameOf(EntryAt(m, d, p)) >= START
    requires FreeChain(a, head, chain) && Accounted(now, chain, end)
    ensures var n, g := a[t := a[t][TblIndex(p) := w]], FrameOf(EntryAt(m, d, p));
      var lost := now[g := Loose];
      var after := if f < START then lost else lost[f := Mapped(d, DirIndex(p), TblIndex(p))];
      && g in now && now[g] == Mapped(d, DirIndex(p), TblIndex(p))
      && Tables(n, after) && EntryAt(n, d, p) == w && SameButPage(m, n, roles, d, p)
      && FreeChain(n, head, chain) && Accounted(after, chain, end)
  {
    hide Tables;
    hide FreeChain;
    hide SameButPage;
    var j := TblIndex(p);
    var n := a[t := a[t][j := w]];
    var g := FrameOf(EntryAt(m, d, p));
    PageWritten(m, roles, a, now, d, p, t, w);
    MappedFrame(a, now, t, j);
    ClearMapping(a, now, t, j);
    var c := a[t := a[t][j := 0]];
    FramesInMemory(a, now);
    TablesLoose(c, now - {g}, g);
    assert (now - {g})[g := Loose] == now[g := Loose];
    SetMapping(c, now[g := Loose], t, j, f, w);
    assert a[t][j := 0][j := w] == a[t][j := w];
    assert c[t := c[t][j := w]] == n;
    OffChain(a, n, head, chain, t);
    Relabelled(now, chain, end, g, Loose);
    if f >= START { Relabelled(now[g := Loose], chain, end, f, Mapped(d, DirIndex(p), j)); }
  }

  lemma Relabelled(roles: Roles, chain: seq<nat>, end: nat, f: nat, role: Role)
    requires Accounted(roles, chain, end) && f in roles
    ensures Accounted(roles[f := role], chain, end)
  {
    var now := roles[f := role];
    forall g | g in now ensures START <= g < end && g !in chain {
      assert g in roles;
    }
    forall g | START <= g < end ensures g in now || g in chain {
      assert g in roles || g in chain;
    }
  }

  lemma PageGrown(m: seq<Page>, roles: Roles, a: seq<Page>, now: Roles, d: nat, p: nat, t: nat, f: nat, w: Word)
    requires p < MAX_FRAMES && t in now && now[t] == Table(d, DirIndex(p)) && t < |a|
    requires t in roles ==> roles[t].Table?
    requires START <= t
    requires Grown(m, roles, a, now, d) && SameButPage(m, a[t := a[t][TblIndex(p) := w]], roles, d, p)
    requires f < START || (f in roles && roles[f] == Loose && now[f] == Loose)
    ensures Grown(m, roles, a[t := a[t][TblIndex(p) := w]],
                  if f < START then now else now[f := Mapped(d, DirIndex(p), TblIndex(p))], d)
  {
  }

  lemma PageWritten(m: seq<Page>, roles: Roles, a: seq<Page>, now: Roles, d: nat, p: nat, t: nat, w: Word)
    requires IsDirectory(roles, d) && p < MAX_FRAMES && Tables(a, now)
    requires t in now && now[t] == Table(d, DirIndex(p)) && t < |a|
    requires SameEntries(m, a, roles) && forall e :: IsDirectory(roles, e) ==> IsDirectory(now, e)
    ensures EntryAt(a, d, p) == a[t][TblIndex(p)] == EntryAt(m, d, p)
    ensures EntryAt(a[t := a[t][TblIndex(p) := w]], d, p) == w
    ensures SameButPage(m, a[t := a[t][TblIndex(p) := w]], roles, d, p)
  {
  }

  /** Changing one page's entry changes one key of one flat map. */
  lemma OneKey(m: seq<Page>, n: seq<Page>, roles: Roles, d: nat, p: nat)
    requires IsDirectory(roles, d) && p < MAX_FRAMES && SameButPage(m, n, roles, d, p)
    ensures Present(EntryAt(n, d, p)) ==> Flat(n, d) == Flat(m, d)[p := EntryAt(n, d, p)]
    ensures !Present(EntryAt(n, d, p)) ==> Flat(n, d) == Flat(m, d) - {p}
    ensures forall e: nat :: IsDirectory(roles, e) && e != d ==> Flat(n, e) == Flat(m, e)
  {
    forall q: nat | q < MAX_FRAMES && q != p ensures EntryAt(n, d, q) == EntryAt(m, d, q) {
      assert (d, q) != (d, p);
    }
    forall e: nat | IsDirectory(roles, e) && e != d ensures Flat(n, e) == Flat(m, e) {
      assert forall q: nat :: q < MAX_FRAMES ==> EntryAt(n, e, q) == EntryAt(m, e, q);
    }
  }

  class Memory {
    const mem: array<Page>  // physical memory, one element a frame
    var pageEnd: nat        // page_end / PAGE_SIZE
    var pageFree: nat       // frame number of page_free, 0 for NULL
    var npages: nat
    ghost var chain: seq<nat>
    ghost var roles: Roles

    /** The allocator's own invariant, with page conservation. */
    ghost predicate Sound()
      reads this, mem
    {
      && START <= pageEnd <= mem.Length <= MAX_FRAMES
      && FreeChain(mem[..], pageFree, chain)
      && Accounted(roles, chain, pageEnd)
      && npages == |roles| && pageEnd - START == npages + |chain|
    }

    ghost predicate Valid()
      reads this, mem
    {
      Sound() && Tables(mem[..], roles)
    }

    /** Frames that can still be handed out. */
    function Room(): int
      reads this
    {
      mem.Length - START - npages
    }

    constructor (memory: array<Page>)
      requires START <= memory.Length <= MAX_FRAMES
      ensures Valid() && mem == memory && roles == map[] && npages == 0
      ensures Room() == memory.Length - START
    {
      mem := memory;
      pageEnd, pageFree, npages := START, 0, 0;
      chain, roles := [], map[];
    }

    method AllocPage() returns (f: nat)
      requires Sound() && Room() > 0
      modifies this, mem
      ensures Sound() && Room() == old(Room()) - 1
      ensures START <= f < mem.Length && f !in old(roles) && roles == old(roles)[f := Loose]
      ensures mem[..] == old(mem[..])[f := ZeroPage()]
      ensures old(Tables(mem[..], roles)) ==> Tables(mem[..], roles)
    {
      hide Tables;
      hide FreeChain;
      hide Accounted;
      ghost var m := mem[..];
      EmptyChain(m, pageFree, chain);
      npages := npages + 1;
      if pageFree == 0 {
        GrowAccounted(roles, chain, pageEnd);
        f := pageEnd;
        pageEnd := pageEnd + 1;
      } else {
        DistinctChain(m, pageFree, chain);
        TakeAccounted(roles, chain, pageEnd);
        TakeChain(m, pageFree, chain);
        f := pageFree;
        pageFree := FrameOf(mem[f][0]);
        chain := chain[1..];
      }
      roles := roles[f := Loose];
      Zero(f);
      assert mem[f] == ZeroPage();
      OffChain(m, mem[..], pageFree, chain, f);
      if Tables(m, old(roles)) {
        AllocTables(m, mem[..], old(roles), f);
      }
    }

    method Zero(f: nat)
      requires f < mem.Length
      modifies mem
      ensures mem[..] == old(mem[..])[f := mem[f]] && forall i :: 0 <= i < ENTRIES ==> mem[f][i] == 0
    {
      for i := 0 to ENTRIES
        invariant mem[..] == old(mem[..])[f := mem[f]] && forall k :: 0 <= k < i ==> mem[f][k] == 0
      {
        mem[f] := mem[f][i := 0];
      }
    }

    method FreePage(f: nat)
      requires Sound() && f in roles
      modifies this, mem
      ensures Sound() && Room() == old(Room()) + 1
      ensures roles == old(roles) - {f}
      ensures mem[..] == old(mem[..])[f := mem[f]]
    {
      assert 0 < npages;
      npages := npages - 1;
      mem[f] := mem[f][0 := PAGE * pageFree];
      pageFree := f;
      FreedChain(old(mem[..]), mem[..], old(pageFree), chain, f);
      chain := [f] + chain;
      roles := roles - {f};
    }

    /** What directory `d` maps. */
    ghost function View(d: nat): map<nat, Word>
      reads this, mem
    {
      Flat(mem[..], d)
    }

    method LookupPage(d: nat, p: nat) returns (found: bool, f: nat)
      requires Valid() && IsDirectory(roles, d) && p < MAX_FRAMES
      ensures found <==> p in View(d)
      ensures found ==> f == FrameOf(View(d)[p]) < mem.Length
    {
      var dirindex, tblindex := DirIndex(p), TblIndex(p);
      found, f := false, 0;
      if !Present(mem[d][dirindex]) { return; }
      var ptable := FrameOf(mem[d][dirindex]);
      TableFrame(mem[..], roles, d, dirindex);
      if !Present(mem[ptable][tblindex]) { return; }
      f := FrameOf(mem[ptable][tblindex]);
      found := true;
    }

    /** The table for entry `i` of directory `d`, made if there is none. */
    method NeedTable(d: nat, i: nat) returns (t: nat)
      requires Valid() && IsDirectory(roles, d) && i < ENTRIES
      requires Present(mem[d][i]) || Room() > 0
      modifies this, mem
      ensures Valid() && t in roles && t < mem.Length && roles[t] == Table(d, i) && Room() >= old(Room()) - 1
      ensures old(Present(mem[d][i])) ==> Room() == old(Room())
      ensures Present(mem[d][i]) && TablesKept(old(mem[..]), mem[..], d)
      ensures Grown(old(mem[..]), old(roles), mem[..], roles, d)
      ensures forall g :: g in old(roles) ==> g in roles && roles[g] == old(roles)[g]
      ensures forall g :: g in roles && g !in old(roles) ==> roles[g] == Table(d, i)
      ensures SameEntries(old(mem[..]), mem[..], old(roles))
    {
      hide Tables;
      hide Sound;
      hide Grown;
      hide SameEntries;
      TableFrame(mem[..], roles, d, i);
      if !Present(mem[d][i]) {
        t := MakeTable(d, i);
      } else {
        t := FrameOf(mem[d][i]);
        NothingChanged(mem[..], roles, d);
      }
    }

    method MakeTable(d: nat, i: nat) returns (t: nat)
      requires Valid() && IsDirectory(roles, d) && i < ENTRIES && !Present(mem[d][i]) && Room() > 0
      modifies this, mem
      ensures Valid() && t !in old(roles) && roles == old(roles)[t := Table(d, i)] && Room() == old(Room()) - 1
      ensures t < mem.Length && Present(mem[d][i]) && TablesKept(old(mem[..]), mem[..], d)
      ensures Grown(old(mem[..]), old(roles), mem[..], roles, d)
      ensures SameEntries(old(mem[..]), mem[..], old(roles))
    {
      hide Tables;
      hide Grown;
      hide SameEntries;
      hide FreeChain;
      hide Accounted;
      ghost var m := mem[..];
      FramesInMemory(m, roles);
      t := AllocPage();
      ghost var a := mem[..];
      assert a[d] == m[d];
      assert Tables(a, roles);
      mem[d] := mem[d][i := MakeEntry(t, PRESENT + USER + READ_WRITE)];
      assert mem[..] == a[d := a[d][i := MakeEntry(t, PRESENT + USER + READ_WRITE)]];
      TableMade(m, a, mem[..], old(roles), d, i, t, chain, pageFree, pageEnd);
      roles := roles[t := Table(d, i)];
      assert roles == old(roles)[t := Table(d, i)];
      assert |roles| == npages;
      assert Sound();
    }

    /** Map page `p` of directory `d` to frame `f`. A frame of the allocator's must be loose. If the
        page mapped one of the allocator's before, that frame is lost: it stays in use, loose. */
    method MapPage(d: nat, p: nat, f: nat, access: nat, readwrite: nat)
      requires Valid() && IsDirectory(roles, d) && p < MAX_FRAMES
      requires f < START || (f in roles && roles[f] == Loose)
      requires access in {0, USER} && readwrite in {0, READ_WRITE}
      requires Present(mem[d][DirIndex(p)]) || Room() > 0
      modifies this, mem
      ensures Valid() && Room() >= old(Room()) - 1
      ensures old(Present(mem[d][DirIndex(p)])) ==> Room() == old(Room())
      ensures IsDirectory(roles, d) && d < mem.Length && Present(mem[d][DirIndex(p)])
      ensures TablesKept(old(mem[..]), mem[..], d)
      ensures f < MAX_FRAMES && View(d) == old(View(d))[p := MakeEntry(f, PRESENT + access + readwrite)]
      ensures forall e: nat :: IsDirectory(old(roles), e) && e != d ==> View(e) == old(View(e))
      ensures !Loses(old(View(d)), p) ==> Grown(old(mem[..]), old(roles), mem[..], roles, d)
      ensures forall g :: g in old(roles) && g != f && !(Loses(old(View(d)), p) && g == FrameOf(old(View(d))[p])) ==>
                g in roles && roles[g] == old(roles)[g]
      ensures Loses(old(View(d)), p) ==>
                FrameOf(old(View(d))[p]) in roles && roles[FrameOf(old(View(d))[p])] == Loose
      ensures forall g :: g in roles && g !in old(roles) ==> roles[g] == Table(d, DirIndex(p))
      ensures f >= START ==> f in roles && roles[f] == Mapped(d, DirIndex(p), TblIndex(p))
    {
      hide Tables;
      hide FreeChain;
      hide Accounted;
      hide Grown;
      hide SameEntries;
      hide SameButPage;
      hide Flat;
      ghost var m, before := mem[..], roles;
      FlatAt(m, d, p);
      hide SetRoles;
      if Lost(m, d, p) { LostFrame(m, before, d, p); }
      var ptable := NeedTable(d, DirIndex(p));
      FramesInMemory(mem[..], roles);
      ghost var mid := roles;
      SetEntry(d, p, ptable, f, MakeEntry(f, PRESENT + access + readwrite), m, before);
      OneKey(m, mem[..], before, d, p);
      MapRoles(before, mid, roles, d, p, f, Lost(m, d, p), FrameOf(EntryAt(m, d, p)));
    }

    /** The entry is written into the page's table; `m` and `before` are from before there was one. */
    method SetEntry(d: nat, p: nat, ptable: nat, f: nat, w: Word, ghost m: seq<Page>, ghost before: Roles)
      requires Valid() && IsDirectory(before, d) && p < MAX_FRAMES && START <= ptable < mem.Length
      requires ptable in roles && roles[ptable] == Table(d, DirIndex(p))
      requires Present(w) && FrameOf(w) == f && (f < START || (f in before && before[f] == Loose))
      requires SameEntries(m, mem[..], before) && Grown(m, before, mem[..], roles, d)
      requires forall g :: g in before ==> g in roles && roles[g] == before[g]
      modifies this`roles, mem
      ensures Valid() && EntryAt(mem[..], d, p) == w && SameButPage(m, mem[..], before, d, p)
      ensures Lost(m, d, p) || Grown(m, before, mem[..], roles, d)
      ensures Lost(m, d, p) ==> FrameOf(EntryAt(m, d, p)) in old(roles)
      ensures roles == SetRoles(if Lost(m, d, p) then old(roles)[FrameOf(EntryAt(m, d, p)) := Loose] else old(roles),
                                d, p, f)
      ensures forall x: nat, y: nat :: x < mem.Length && y < ENTRIES && x != ptable ==> mem[x][y] == old(mem[x][y])
    {
      hide Tables;
      hide FreeChain;
      hide Accounted;
      hide Grown;
      hide SameEntries;
      hide SameButPage;
      ghost var a := mem[..];
      mem[ptable] := mem[ptable][TblIndex(p) := w];
      assert mem[..] == a[ptable := a[ptable][TblIndex(p) := w]];
      if Lost(m, d, p) {
        PageRemapped(m, before, a, roles, d, p, ptable, f, w, chain, pageFree, pageEnd);
        roles := roles[FrameOf(EntryAt(m, d, p)) := Loose];
      } else {
        PageMapped(m, before, a, roles, d, p, ptable, f, w, chain, pageFree, pageEnd);
      }
      roles := SetRoles(roles, d, p, f);
    }

    /** A frame of its own for page `p` of directory `d`. */
    method NewPage(d: nat, p: nat) returns (f: nat)
      requires Valid() && IsDirectory(roles, d) && p < MAX_FRAMES && p !in View(d)
      requires Room() > (if Present(mem[d][DirIndex(p)]) then 0 else 1)
      modifies this, mem
      ensures Valid() && IsDirectory(roles, d) && d < mem.Length && Present(mem[d][DirIndex(p)])
      ensures Room() >= old(Room()) - 2
      ensures old(Present(mem[d][DirIndex(p)])) ==> Room() == old(Room()) - 1
      ensures START <= f < mem.Length && f !in old(roles)
      ensures f in roles && roles[f] == Mapped(d, DirIndex(p), TblIndex(p))
      ensures View(d) == old(View(d))[p := MakeEntry(f, PRESENT + USER + READ_WRITE)]
      ensures mem[f] == ZeroPage()
      ensures Grown(old(mem[..]), old(roles), mem[..], roles, d)
      ensures forall g :: g in roles && g !in old(roles) && g != f ==> roles[g] == Table(d, DirIndex(p))
    {
      hide Tables;
      hide FreeChain;
      hide Accounted;
      hide Grown;
      hide SameEntries;
      hide Flat;
      ghost var m, before := mem[..], roles;
      f := AllocPage();
      ghost var a := mem[..];
      FreshFrame(m, a, before, d, f);
      assert a[d] == m[d];
      MapPage(d, p, f, USER, READ_WRITE);
      LooseKept(a, before[f := Loose], mem[..], roles, d, f);
      GrownTransitive(m, before, a, before[f := Loose], mem[..], roles, d);
    }

    /** An empty page directory. */
    method NewDirectory() returns (d: nat)
      requires Valid() && Room() > 0
      modifies this, mem
      ensures Valid() && Room() == old(Room()) - 1
      ensures d !in old(roles) && roles == old(roles)[d := Directory] && View(d) == map[]
      ensures Grown(old(mem[..]), old(roles), mem[..], roles, d)
    {
      hide Tables;
      hide FreeChain;
      hide Accounted;
      hide Grown;
      hide Flat;
      ghost var m, before := mem[..], roles;
      d := AllocPage();
      EmptyDirectory(m, mem[..], before, d);
      roles := roles[d := Directory];
      assert roles == before[d := Directory];
      DirectoryAccounted(before, chain, pageEnd, d);
    }

    /** A frame of its own with the given contents for page `p` of directory `d`. */
    method LoadPage(d: nat, p: nat, content: Page) returns (f: nat)
      requires Valid() && IsDirectory(roles, d) && p < MAX_FRAMES && p !in View(d)
      requires Room() > (if Present(mem[d][DirIndex(p)]) then 0 else 1)
      modifies this, mem
      ensures Valid() && IsDirectory(roles, d) && d < mem.Length && Present(mem[d][DirIndex(p)])
      ensures Room() >= old(Room()) - 2
      ensures old(Present(mem[d][DirIndex(p)])) ==> Room() == old(Room()) - 1
      ensures START <= f < mem.Length && f !in old(roles)
      ensures f in roles && roles[f] == Mapped(d, DirIndex(p), TblIndex(p))
      ensures View(d) == old(View(d))[p := MakeEntry(f, PRESENT + USER + READ_WRITE)]
      ensures mem[f] == content
      ensures Grown(old(mem[..]), old(roles), mem[..], roles, d)
      ensures forall g :: g in roles && g !in old(roles) && g != f ==> roles[g] == Table(d, DirIndex(p))
    {
      hide Tables;
      hide Sound;
      hide Grown;
      hide SameEntries;
      hide Flat;
      ghost var m, before := mem[..], roles;
      f := NewPage(d, p);
      ghost var a := mem[..];
      WritePage(f, content);
      WrittenSame(m, before, a, mem[..], roles, d, f);
    }

    /** Write a mapped page's contents. */
    method WritePage(f: nat, content: Page)
      requires Valid() && f in roles && f < mem.Length && (roles[f].Mapped? || roles[f].Loose?)
      modifies mem
      ensures Valid() && mem[..] == old(mem[..])[f := content]
      ensures SameEntries(old(mem[..]), mem[..], roles)
      ensures forall d: nat, i: nat :: IsDirectory(roles, d) && d < mem.Length && i < ENTRIES ==>
                mem[d][i] == old(mem[d][i])
    {
      hide Tables;
      hide FreeChain;
      hide SameEntries;
      mem[f] := content;
      KeptTables(old(mem[..]), mem[..], roles, f);
      OffChain(old(mem[..]), mem[..], pageFree, chain, f);
    }

    method UnmapAndFreePage(d: nat, p: nat)
      requires Valid() && IsDirectory(roles, d) && p < MAX_FRAMES
      requires p in View(d) ==> FrameOf(View(d)[p]) >= START
      modifies this, mem
      ensures Valid() && IsDirectory(roles, d)
      ensures View(d) == old(View(d)) - {p}
      ensures Shrunk(old(mem[..]), old(roles), mem[..], roles, d)
      ensures Room() == old(Room()) + if p in old(View(d)) then 1 else 0
    {
      hide Tables;
      hide FreeChain;
      hide Accounted;
      hide Shrunk;
      hide SameButPage;
      hide Flat;
      var dirindex, tblindex := DirIndex(p), TblIndex(p);
      ghost var m, before := mem[..], roles;
      FlatAt(m, d, p);
      TableFrame(m, roles, d, dirindex);
      NothingFreed(m, roles, d);
      if !Present(mem[d][dirindex]) {
        return;
      }
      var ptable := FrameOf(mem[d][dirindex]);
      if !Present(mem[ptable][tblindex]) {
        return;
      }
      var page := FrameOf(mem[ptable][tblindex]);
      MappedFrame(m, roles, ptable, tblindex);
      FramesInMemory(m, roles);
      FreePage(page);
      ghost var a := mem[..];
      mem[ptable] := mem[ptable][tblindex := 0];
      assert mem[..] == a[ptable := a[ptable][tblindex := 0]];
      PageUnmapped(m, before, a, d, p, ptable, page, chain, pageFree, pageEnd);
      PageShrunk(m, before, mem[..], d, p, ptable, page);
      OneKey(m, mem[..], before, d, p);
    }

    /** Give back a directory and its tables, but not the pages: frames it still maps stay in use. */
    method FreePageDir(d: nat)
      requires Valid() && IsDirectory(roles, d)
      modifies this, mem
      ensures Valid() && roles == Stranded(old(roles), d)
      ensures SameOn(old(mem[..]), mem[..], roles)
      ensures SameOthers(old(mem[..]), mem[..], old(roles), d)
    {
      hide Tables;
      hide FreeChain;
      hide Accounted;
      hide Stranded;
      hide SameOthers;
      hide TablesFrom;
      hide SameOn;
      ghost var m, before := mem[..], roles;
      AllSame(m, before);
      FirstTables(before, d);
      for dirindex := 0 to ENTRIES
        invariant Sound() && roles == TablesFrom(before, d, dirindex)
        invariant SameOn(m, mem[..], roles)
      {
        NextTable(m, before, d, dirindex);
        ghost var a := mem[..];
        SameAt(m, a, roles, d);
        assert d < mem.Length && mem[d] == a[d];
        if Present(mem[d][dirindex]) {
          var page := FrameOf(mem[d][dirindex]);
          NotBelow(m, before, d, dirindex);
          ghost var now := roles;
          FreePage(page);
          Freed(m, a, mem[..], now, page);
        }
      }
      LastTables(m, before, d);
      ghost var a, now := mem[..], roles;
      FreePage(d);
      Freed(m, a, mem[..], now, d);
      SameDomain(roles, Stranded(before, d), chain, pageEnd);
      StrandedSame(m, mem[..], roles, before, d);
      roles := Stranded(before, d);
      Dropped(m, mem[..], before, d);
    }
  }

  /** What is left of `roles` when directory `d`'s tables below entry `k` are gone. */
  ghost function TablesFrom(roles: Roles, d: nat, k: nat): Roles {
    map f | f in roles && !(roles[f].Table? && roles[f].d == d && roles[f].i < k) :: roles[f]
  }

  lemma FirstTables(roles: Roles, d: nat)
    ensures TablesFrom(roles, d, 0) == roles
  {
  }

  /** The frames in `roles` and those below the allocator's reach hold what they did. */
  ghost predicate SameOn(m: seq<Page>, n: seq<Page>, roles: Roles) {
    && |m| == |n|
    && (forall g :: g in roles ==> START <= g < |m| && n[g] == m[g])
    && (forall g: nat :: g < START && g < |m| ==> n[g] == m[g])
  }

  lemma SameAt(m: seq<Page>, n: seq<Page>, roles: Roles, f: nat)
    requires SameOn(m, n, roles) && f in roles
    ensures f < |m| == |n| && n[f] == m[f]
  {
  }

  lemma Freed(m: seq<Page>, a: seq<Page>, n: seq<Page>, roles: Roles, f: nat)
    requires SameOn(m, a, roles) && START <= f < |a| == |n| && n == a[f := n[f]]
    ensures SameOn(m, n, roles - {f})
  {
  }

  lemma NotBelow(m: seq<Page>, roles: Roles, d: nat, i: nat)
    requires Tables(m, roles) && IsDirectory(roles, d) && i < ENTRIES && d < |m| && Present(m[d][i])
    ensures START <= FrameOf(m[d][i]) < |m|
  {
  }

  lemma AllSame(m: seq<Page>, roles: Roles)
    requires Tables(m, roles)
    ensures SameOn(m, m, roles) && forall f :: f in roles ==> START <= f < |m|
  {
  }

  lemma NextTable(m: seq<Page>, roles: Roles, d: nat, k: nat)
    requires Tables(m, roles) && IsDirectory(roles, d) && k < ENTRIES
    ensures d < |m| && d in TablesFrom(roles, d, k)
    ensures Present(m[d][k]) ==> FrameOf(m[d][k]) in TablesFrom(roles, d, k)
                                 && TablesFrom(roles, d, k + 1) == TablesFrom(roles, d, k) - {FrameOf(m[d][k])}
    ensures !Present(m[d][k]) ==> TablesFrom(roles, d, k + 1) == TablesFrom(roles, d, k)
  {
  }

  lemma LastTables(m: seq<Page>, roles: Roles, d: nat)
    requires Tables(m, roles) && IsDirectory(roles, d)
    ensures d in TablesFrom(roles, d, ENTRIES)
    ensures (TablesFrom(roles, d, ENTRIES) - {d}).Keys == Stranded(roles, d).Keys
  {
  }

  lemma SameDomain(r: Roles, s: Roles, chain: seq<nat>, end: nat)
    requires Accounted(r, chain, end) && r.Keys == s.Keys
    ensures Accounted(s, chain, end) && |r| == |s|
  {
    assert forall f :: f in s <==> f in s.Keys;
    assert forall f :: f in r <==> f in r.Keys;
    assert |r| == |r.Keys| == |s.Keys| == |s|;
  }

  lemma StrandedSame(m: seq<Page>, n: seq<Page>, r: Roles, roles: Roles, d: nat)
    requires SameOn(m, n, r) && r.Keys == Stranded(roles, d).Keys
    ensures SameOn(m, n, Stranded(roles, d))
  {
    assert forall f :: f in Stranded(roles, d) ==> f in r.Keys;
  }

  lemma Dropped(m: seq<Page>, n: seq<Page>, roles: Roles, d: nat)
    requires Tables(m, roles) && IsDirectory(roles, d)
    requires SameOn(m, n, Stranded(roles, d))
    ensures Tables(n, Stranded(roles, d)) && SameOthers(m, n, roles, d)
  {
    hide Tables;
    DropDirectory(m, n, roles, d);
  }

  lemma NothingFreed(m: seq<Page>, roles: Roles, d: nat)
    ensures Shrunk(m, roles, m, roles, d)
  {
  }

  lemma EmptyDirectory(m: seq<Page>, a: seq<Page>, roles: Roles, f: nat)
    requires Tables(m, roles) && START <= f < |m| && f !in roles && a == m[f := ZeroPage()]
    ensures Tables(a, roles[f := Directory]) && Grown(m, roles, a, roles[f := Directory], f) && Flat(a, f) == map[]
  {
    hide Grown;
    TablesFrame(m, a, roles);
    EmptyGrown(m, a, roles, f);
  }

  lemma EmptyGrown(m: seq<Page>, a: seq<Page>, roles: Roles, f: nat)
    requires START <= f < |m| && f !in roles && a == m[f := ZeroPage()] && SameEntries(m, a, roles)
    ensures Grown(m, roles, a, roles[f := Directory], f)
  {
  }

  lemma DirectoryAccounted(roles: Roles, chain: seq<nat>, end: nat, f: nat)
    requires Accounted(roles[f := Loose], chain, end)
    ensures Accounted(roles[f := Directory], chain, end)
  {
    var was, now := roles[f := Loose], roles[f := Directory];
    forall g | g in now ensures START <= g < end && g !in chain {
      assert g in was;
    }
    forall g | START <= g < end ensures g in now || g in chain {
      assert g in was || g in chain;
    }
  }

  lemma WrittenSame(m: seq<Page>, before: Roles, a: seq<Page>, n: seq<Page>, roles: Roles, d: nat, f: nat)
    requires Grown(m, before, a, roles, d) && IsDirectory(roles, d)
    requires f !in before && START <= f < |a| && |n| == |a| && n == a[f := n[f]] && SameEntries(a, n, roles)
    ensures Grown(m, before, n, roles, d) && Flat(n, d) == Flat(a, d)
  {
  }

  /** A page's frame is back on the free list, and its entry is cleared. */
  lemma PageUnmapped(m: seq<Page>, roles: Roles, a: seq<Page>, d: nat, p: nat, t: nat, f: nat,
                     chain: seq<nat>, head: nat, end: nat)
    requires Tables(m, roles) && IsDirectory(roles, d) && p < MAX_FRAMES
    requires t in roles && roles[t] == Table(d, DirIndex(p)) && t < |m|
    requires Present(m[t][TblIndex(p)]) && FrameOf(m[t][TblIndex(p)]) == f && START <= f < |m|
    requires |a| == |m| && a == m[f := a[f]]
    requires FreeChain(a, head, chain) && Accounted(roles - {f}, chain, end)
    ensures var n := a[t := a[t][TblIndex(p) := 0]];
      && f in roles && roles[f] == Mapped(d, DirIndex(p), TblIndex(p))
      && Tables(n, roles - {f}) && EntryAt(n, d, p) == 0 && SameButPage(m, n, roles, d, p)
      && FreeChain(n, head, chain)
  {
    hide FreeChain;
    var n := a[t := a[t][TblIndex(p) := 0]];
    MappedFrame(m, roles, t, TblIndex(p));
    KeptTables(m, a, roles, f);
    ClearMapping(a, roles, t, TblIndex(p));
    assert t in roles - {f};
    OffChain(a, n, head, chain, t);
    PageWritten(m, roles, a, roles, d, p, t, 0);
  }

  lemma MappedFrame(m: seq<Page>, roles: Roles, t: nat, j: nat)
    requires Tables(m, roles) && t in roles && roles[t].Table? && j < ENTRIES && Present(m[t][j])
    ensures FrameOf(m[t][j]) < START
            || (FrameOf(m[t][j]) in roles && roles[FrameOf(m[t][j])] == Mapped(roles[t].d, roles[t].i, j))
  {
  }

  lemma KeptTables(m: seq<Page>, n: seq<Page>, roles: Roles, f: nat)
    requires Tables(m, roles) && f in roles && f < |m| && (roles[f].Mapped? || roles[f].Loose?)
    requires |n| == |m| && n == m[f := n[f]]
    ensures Tables(n, roles) && SameEntries(m, n, roles)
  {
    TablesFrame(m, n, roles);
  }

  lemma PageShrunk(m: seq<Page>, roles: Roles, n: seq<Page>, d: nat, p: nat, t: nat, f: nat)
    requires f in roles && roles[f] == Mapped(d, DirIndex(p), TblIndex(p)) && p < MAX_FRAMES
    requires t in roles && roles[t].Table? && START <= t < |m| && START <= f < |m|
    requires |n| == |m| && n == m[f := n[f]][t := n[t]] && SameButPage(m, n, roles, d, p)
    ensures Shrunk(m, roles, n, roles - {f}, d)
  {
  }

  lemma FreshFrame(m: seq<Page>, a: seq<Page>, roles: Roles, d: nat, f: nat)
    requires Tables(m, roles) && IsDirectory(roles, d)
    requires START <= f < |m| && f !in roles && |a| == |m| && a == m[f := a[f]]
    ensures Tables(a, roles[f := Loose]) && IsDirectory(roles[f := Loose], d) && d < |m| && d != f
    ensures Grown(m, roles, a, roles[f := Loose], d) && Flat(a, d) == Flat(m, d)
  {
    AllocTables(m, a, roles, f);
    assert forall p: nat :: p < MAX_FRAMES ==> EntryAt(a, d, p) == EntryAt(m, d, p);
  }

  lemma LooseKept(m: seq<Page>, r: Roles, n: seq<Page>, s: Roles, d: nat, f: nat)
    requires Grown(m, r, n, s, d) && f in r && r[f] == Loose && f < |m|
    ensures n[f] == m[f]
  {
  }

  lemma FlatAt(m: seq<Page>, d: nat, p: nat)
    requires p < MAX_FRAMES
    ensures p in Flat(m, d) <==> Present(EntryAt(m, d, p))
    ensures p in Flat(m, d) ==> Flat(m, d)[p] == EntryAt(m, d, p)
  {
  }

  lemma EmptyChain(m: seq<Page>, head: nat, chain: seq<nat>)
    requires FreeChain(m, head, chain)
    ensures head == 0 <==> chain == []
    ensures head != 0 ==> head == chain[0] && START <= head < |m|
  {
  }

  lemma DistinctChain(m: seq<Page>, head: nat, chain: seq<nat>)
    requires FreeChain(m, head, chain)
    ensures forall k, l :: 0 <= k < l < |chain| ==> chain[k] != chain[l]
  {
  }

  lemma GrowAccounted(roles: Roles, chain: seq<nat>, end: nat)
    requires Accounted(roles, chain, end) && end >= START
    ensures end !in roles && end !in chain && Accounted(roles[end := Loose], chain, end + 1)
  {
  }

  lemma TakeAccounted(roles: Roles, chain: seq<nat>, end: nat)
    requires Accounted(roles, chain, end) && chain != []
    requires forall k, l :: 0 <= k < l < |chain| ==> chain[k] != chain[l]
    ensures chain[0] !in roles && chain[0] !in chain[1..] && Accounted(roles[chain[0] := Loose], chain[1..], end)
  {
    assert chain[0] in chain;
    assert forall f :: f in chain <==> f == chain[0] || f in chain[1..];
  }

  lemma TakeChain(m: seq<Page>, head: nat, chain: seq<nat>)
    requires FreeChain(m, head, chain) && chain != []
    ensures head < |m| && FreeChain(m, FrameOf(m[head][0]), chain[1..])
  {
  }

  /** Changing a frame that is not on the list leaves the list alone. */
  lemma OffChain(m: seq<Page>, n: seq<Page>, head: nat, chain: seq<nat>, f: nat)
    requires FreeChain(m, head, chain) && f < |m| && |n| == |m| && n == m[f := n[f]] && f !in chain
    ensures FreeChain(n, head, chain)
  {
  }

  lemma AllocTables(m: seq<Page>, n: seq<Page>, roles: Roles, f: nat)
    requires Tables(m, roles) && START <= f < |m| && f !in roles && |n| == |m| && n == m[f := n[f]]
    ensures Tables(n, roles[f := Loose])
    ensures forall d: nat, i: nat, j: nat :: IsDirectory(roles, d) && i < ENTRIES && j < ENTRIES ==>
              Entry(n, d, i, j) == Entry(m, d, i, j)
  {
    TablesFrame(m, n, roles);
    TablesLoose(n, roles, f);
  }

  lemma FreedChain(m: seq<Page>, n: seq<Page>, head: nat, chain: seq<nat>, f: nat)
    requires FreeChain(m, head, chain) && START <= f < |m| && f !in chain
    requires |n| == |m| && n == m[f := n[f]] && n[f][0] == PAGE * head
    ensures FreeChain(n, f, [f] + chain)
  {
  }
}
