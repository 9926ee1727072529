/** The loops of src/page.c, src/unixproc.c and src/process.c that map, copy and unmap runs of
    pages. Addresses of pages are page numbers. */
module PageLoops {
  import opened Bytes
  import opened PageModel
  import opened Pages
  import opened PageContents

  // ----- tables that a run of pages may need -----

  function TablesFor(base: nat, n: nat): (t: nat)
    ensures n == 0 ==> t == 0
  {
    if n == 0 then 0 else DirIndex(base + n - 1) - DirIndex(base) + 1
  }

  /** Directory `d` has a table for the page before `p`, if the run from `base` has got there. */
  ghost predicate TableBehind(m: seq<Page>, d: nat, base: nat, p: nat) {
    d < |m| && (base < p <= MAX_FRAMES ==> Present(m[d][DirIndex(p - 1)]))
  }

  /** Directory `d` has the tables for the pages from `start` up to `end`. */
  ghost predicate TablesThere(m: seq<Page>, d: nat, start: nat, end: nat)
    requires end <= START
  {
    d < |m| && forall p: nat :: start <= p < end ==> Present(m[d][DirIndex(p)])
  }

  lemma ThereAt(m: seq<Page>, d: nat, start: nat, end: nat, p: nat)
    requires end <= START && TablesThere(m, d, start, end) && start <= p < end
    ensures d < |m| && DirIndex(p) < ENTRIES && Present(m[d][DirIndex(p)])
  {
  }

  lemma ThereNext(m: seq<Page>, n: seq<Page>, d: nat, start: nat, p: nat)
    requires start <= p < START && TablesThere(m, d, start, p) && TablesKept(m, n, d)
    requires DirIndex(p) < ENTRIES && Present(n[d][DirIndex(p)])
    ensures TablesThere(n, d, start, p + 1)
  {
    forall q: nat | start <= q < p + 1 ensures Present(n[d][DirIndex(q)]) {
      if q < p { assert Present(m[d][DirIndex(q)]); }
    }
  }

  lemma ThereKept(m: seq<Page>, n: seq<Page>, d: nat, start: nat, end: nat)
    requires end <= START && TablesThere(m, d, start, end) && TablesKept(m, n, d)
    ensures TablesThere(n, d, start, end)
  {
    forall q: nat | start <= q < end ensures Present(n[d][DirIndex(q)]) {
      assert Present(m[d][DirIndex(q)]);
    }
  }

  lemma ThereWithin(m: seq<Page>, d: nat, start: nat, end: nat)
    requires start <= end <= START && TablesThere(m, d, 0, START)
    ensures TablesThere(m, d, start, end)
  {
  }

  lemma TablesGrow(base: nat, p: nat, end: nat)
    requires base <= p < end
    ensures TablesFor(base, p - base) <= TablesFor(base, p + 1 - base) <= TablesFor(base, end - base)
    ensures TablesFor(base, p + 1 - base) <= TablesFor(base, p - base) + 1
    ensures p > base && DirIndex(p) == DirIndex(p - 1) ==> TablesFor(base, p + 1 - base) == TablesFor(base, p - base)
    ensures p == base || DirIndex(p) != DirIndex(p - 1) ==>
              TablesFor(base, p + 1 - base) == TablesFor(base, p - base) + 1
    ensures p < MAX_FRAMES ==> DirIndex(p) < ENTRIES
  {
  }

  /** `v` is `was` with the pages from `start` up to `end` mapped to themselves. */
  ghost predicate SelfMapped(was: map<nat, Word>, v: map<nat, Word>, start: nat, end: nat, flags: nat)
    requires flags < PAGE && end <= START
  {
    forall p: nat {:trigger p in v} {:trigger p in was} ::
      if start <= p < end then p in v && v[p] == MakeEntry(p, flags)
      else (p in v <==> p in was) && (p in v ==> v[p] == was[p])
  }

  ghost predicate LowOnly(v: map<nat, Word>) {
    forall p: nat :: p in v ==> FrameOf(v[p]) < START
  }

  lemma SelfMappedStart(was: map<nat, Word>, start: nat, flags: nat)
    requires flags < PAGE && start <= START
    ensures SelfMapped(was, was, start, start, flags)
  {
  }

  lemma SelfMappedStep(was: map<nat, Word>, v: map<nat, Word>, start: nat, p: nat, flags: nat)
    requires flags < PAGE && start <= p < START && SelfMapped(was, v, start, p, flags) && LowOnly(v)
    ensures SelfMapped(was, v[p := MakeEntry(p, flags)], start, p + 1, flags) && LowOnly(v[p := MakeEntry(p, flags)])
  {
  }

  lemma LowAt(v: map<nat, Word>, p: nat)
    requires LowOnly(v) && p in v
    ensures FrameOf(v[p]) < START
  {
  }

  /** No frame is loose after a step that gave directory `d` a table at most. */
  lemma NoLooseTable(m: seq<Page>, r: Roles, s: Roles, d: nat, i: nat, p: nat)
    requires NoLoose(r) && Tables(m, r) && p < START
    requires forall g :: g in r && g != p ==> g in s && s[g] == r[g]
    requires forall g :: g in s && g !in r ==> s[g] == Table(d, i)
    ensures NoLoose(s)
  {
  }

  lemma NoLoosePage(m: seq<Page>, r: Roles, n: seq<Page>, s: Roles, d: nat, i: nat, f: nat)
    requires NoLoose(r) && Grown(m, r, n, s, d) && f in s && !s[f].Loose?
    requires forall g :: g in s && g !in r && g != f ==> s[g] == Table(d, i)
    ensures NoLoose(s)
  {
  }

  /** One round of the loop below. */
  method IdentityPage(memory: Memory, d: nat, p: nat, access: nat, readwrite: nat)
    requires memory.Valid() && IsDirectory(memory.roles, d) && NoLoose(memory.roles)
    requires p < START && access in {0, USER} && readwrite in {0, READ_WRITE}
    requires LowOnly(memory.View(d))
    requires d < memory.mem.Length && (Present(memory.mem[d][DirIndex(p)]) || memory.Room() > 0)
    modifies memory, memory.mem
    ensures memory.Valid() && IsDirectory(memory.roles, d) && NoLoose(memory.roles)
    ensures d < memory.mem.Length && Present(memory.mem[d][DirIndex(p)])
    ensures TablesKept(old(memory.mem[..]), memory.mem[..], d)
    ensures memory.Room() >= old(memory.Room()) - 1
    ensures old(Present(memory.mem[d][DirIndex(p)])) ==> memory.Room() == old(memory.Room())
    ensures Grown(old(memory.mem[..]), old(memory.roles), memory.mem[..], memory.roles, d)
    ensures memory.View(d) == old(memory.View(d))[p := MakeEntry(p, PRESENT + access + readwrite)]
  {
    hide Tables;
    hide FreeChain;
    hide Accounted;
    hide Grown;
    hide Flat;
    hide LowOnly;
    hide NoLoose;
    ghost var a, now := memory.mem[..], memory.roles;
    if p in memory.View(d) { LowAt(memory.View(d), p); }
    memory.MapPage(d, p, p, access, readwrite);
    NoLooseTable(a, now, memory.roles, d, DirIndex(p), p);
  }

  method IdentityMap(memory: Memory, d: nat, start: nat, end: nat, access: nat, readwrite: nat)
    requires memory.Valid() && IsDirectory(memory.roles, d) && NoLoose(memory.roles)
    requires start <= end <= START
    requires access in {0, USER} && readwrite in {0, READ_WRITE}
    requires LowOnly(memory.View(d))
    requires memory.Room() >= TablesFor(start, end - start) || TablesThere(memory.mem[..], d, start, end)
    modifies memory, memory.mem
    ensures memory.Valid() && IsDirectory(memory.roles, d) && NoLoose(memory.roles)
    ensures memory.Room() >= old(memory.Room()) - TablesFor(start, end - start)
    ensures old(TablesThere(memory.mem[..], d, start, end)) ==> memory.Room() == old(memory.Room())
    ensures TablesThere(memory.mem[..], d, start, end)
    ensures Grown(old(memory.mem[..]), old(memory.roles), memory.mem[..], memory.roles, d)
    ensures SelfMapped(old(memory.View(d)), memory.View(d), start, end, PRESENT + access + readwrite)
    ensures LowOnly(memory.View(d))
  {
    hide Tables;
    hide FreeChain;
    hide Accounted;
    hide Grown;
    hide Flat;
    hide SelfMapped;
    hide LowOnly;
    hide NoLoose;
    hide TablesFor;
    hide DirIndex;
    hide TablesThere;
    hide TablesKept;
    ghost var m, before, was := memory.mem[..], memory.roles, memory.View(d);
    NothingChanged(m, before, d);
    DirectoryInMemory(m, before, d);
    SelfMappedStart(was, start, PRESENT + access + readwrite);
    TablesNone(start);
    NoneThere(m, d, start);
    var p := start;
    while p < end
      invariant start <= p <= end
      invariant memory.Valid() && IsDirectory(memory.roles, d) && NoLoose(memory.roles)
      invariant TableBehind(memory.mem[..], d, start, p)
      invariant memory.Room() >= old(memory.Room()) - TablesFor(start, p - start)
      invariant TablesThere(m, d, start, end) ==>
                  memory.Room() == old(memory.Room()) && TablesThere(memory.mem[..], d, start, end)
      invariant TablesThere(memory.mem[..], d, start, p)
      invariant Grown(m, before, memory.mem[..], memory.roles, d)
      invariant SelfMapped(was, memory.View(d), start, p, PRESENT + access + readwrite)
      invariant LowOnly(memory.View(d))
    {
      TablesGrow(start, p, end);
      ghost var a, now, v := memory.mem[..], memory.roles, memory.View(d);
      if TablesThere(m, d, start, end) { ThereAt(a, d, start, end, p); }
      IdentityPage(memory, d, p, access, readwrite);
      ThereNext(a, memory.mem[..], d, start, p);
      if TablesThere(m, d, start, end) { ThereKept(a, memory.mem[..], d, start, end); }
      GrownTransitive(m, before, a, now, memory.mem[..], memory.roles, d);
      SelfMappedStep(was, v, start, p, PRESENT + access + readwrite);
      p := p + 1;
    }
  }

  lemma NoneThere(m: seq<Page>, d: nat, start: nat)
    requires start <= START && d < |m|
    ensures TablesThere(m, d, start, start)
  {
  }

  lemma TablesNone(base: nat)
    ensures TablesFor(base, 0) == 0
  {
  }

  ghost predicate Unmapped(v: map<nat, Word>, base: nat, n: nat) {
    forall p: nat :: base <= p < base + n ==> p !in v
  }

  method MapNewPages(memory: Memory, d: nat, base: nat, n: nat)
    requires memory.Valid() && IsDirectory(memory.roles, d) && NoLoose(memory.roles)
    requires base + n <= MAX_FRAMES && Unmapped(memory.View(d), base, n)
    requires memory.Room() >= n + TablesFor(base, n)
    modifies memory, memory.mem
    ensures memory.Valid() && IsDirectory(memory.roles, d) && NoLoose(memory.roles)
    ensures memory.Room() >= old(memory.Room()) - n - TablesFor(base, n)
    ensures Loaded(old(memory.mem[..]), old(memory.roles), memory.mem[..], memory.roles, d, base, Zeros(n))
  {
    hide Tables;
    hide FreeChain;
    hide Accounted;
    hide Grown;
    hide Flat;
    hide NoLoose;
    hide TablesFor;
    hide DirIndex;
    hide Loaded;
    hide Unmapped;
    ghost var m, before := memory.mem[..], memory.roles;
    LoadedNothing(m, before, d, base);
    TablesNone(base);
    assert Zeros(0) == [];
    DirectoryInMemory(m, before, d);
    var i := 0;
    while i < n
      invariant 0 <= i <= n
      invariant memory.Valid() && IsDirectory(memory.roles, d) && NoLoose(memory.roles)
      invariant TableBehind(memory.mem[..], d, base, base + i)
      invariant memory.Room() >= old(memory.Room()) - i - TablesFor(base, i)
      invariant Loaded(m, before, memory.mem[..], memory.roles, d, base, Zeros(i))
    {
      TablesGrow(base, base + i, base + n);
      ghost var a, now := memory.mem[..], memory.roles;
      StillUnmapped(m, before, a, now, d, base, Zeros(i), n, base + i);
      var page := memory.NewPage(d, base + i);
      NoLoosePage(a, now, memory.mem[..], memory.roles, d, DirIndex(base + i), page);
      LoadedOne(m, before, a, now, memory.mem[..], memory.roles, d, base, Zeros(i), page);
      assert Zeros(i + 1) == Zeros(i) + [ZeroPage()];
      i := i + 1;
    }
  }

  ghost function Zeros(n: nat): (z: seq<Page>)
    ensures |z| == n && forall k :: 0 <= k < n ==> z[k] == ZeroPage()
  {
    seq(n, _ => ZeroPage())
  }

  lemma DirectoryInMemory(m: seq<Page>, r: Roles, d: nat)
    requires Tables(m, r) && IsDirectory(r, d)
    ensures d < |m|
  {
  }

  lemma StillUnmapped(m: seq<Page>, r: Roles, n: seq<Page>, s: Roles, d: nat, base: nat, c: seq<Page>, len: nat, p: nat)
    requires Loaded(m, r, n, s, d, base, c) && Unmapped(Flat(m, d), base, len) && base + |c| <= p < base + len
    ensures p !in Flat(n, d)
  {
    assert Same(m, n, d, p);
  }

  ghost function PagesOf(m: seq<Page>, d: nat, base: nat, n: nat): (c: seq<Page>)
    ensures |c| == n
    ensures forall p: nat {:trigger PageAt(m, d, p)} :: base <= p < base + n ==> c[p - base] == PageAt(m, d, p)
  {
    if n == 0 then [] else PagesOf(m, d, base, n - 1) + [PageAt(m, d, base + n - 1)]
  }

  ghost predicate MappedRange(v: map<nat, Word>, start: nat, end: nat) {
    forall p: nat :: start <= p < end ==> p in v
  }

  method MapAndCopy(memory: Memory, source: nat, dest: nat, start: nat, end: nat)
    requires memory.Valid() && NoLoose(memory.roles)
    requires IsDirectory(memory.roles, source) && IsDirectory(memory.roles, dest) && source != dest
    requires start <= end <= MAX_FRAMES && Unmapped(memory.View(dest), start, end - start)
    requires MappedRange(memory.View(source), start, end)
    requires memory.Room() >= end - start + TablesFor(start, end - start)
    modifies memory, memory.mem
    ensures memory.Valid() && IsDirectory(memory.roles, dest) && NoLoose(memory.roles)
    ensures memory.Room() >= old(memory.Room()) - (end - start) - TablesFor(start, end - start)
    ensures Loaded(old(memory.mem[..]), old(memory.roles), memory.mem[..], memory.roles, dest, start,
                   PagesOf(old(memory.mem[..]), source, start, end - start))
  {
    hide Tables;
    hide FreeChain;
    hide Accounted;
    hide Grown;
    hide Flat;
    hide NoLoose;
    hide TablesFor;
    hide DirIndex;
    hide Loaded;
    hide Unmapped;
    hide PageAt;
    hide Same;
    hide MappedRange;
    ghost var m, before := memory.mem[..], memory.roles;
    LoadedNothing(m, before, dest, start);
    TablesNone(start);
    assert PagesOf(m, source, start, 0) == [];
    DirectoryInMemory(m, before, dest);
    var p := start;
    while p < end
      invariant start <= p <= end
      invariant memory.Valid() && IsDirectory(memory.roles, dest) && NoLoose(memory.roles)
      invariant TableBehind(memory.mem[..], dest, start, p)
      invariant memory.Room() >= old(memory.Room()) - (p - start) - TablesFor(start, p - start)
      invariant Loaded(m, before, memory.mem[..], memory.roles, dest, start, PagesOf(m, source, start, p - start))
    {
      TablesGrow(start, p, end);
      ghost var a, now, c := memory.mem[..], memory.roles, PagesOf(m, source, start, p - start);
      StillUnmapped(m, before, a, now, dest, start, c, end - start, p);
      SourceKept(m, before, a, now, dest, start, c, source, p, end);
      var found, phys := memory.LookupPage(source, p);
      assert found;
      var page := memory.LoadPage(dest, p, memory.mem[phys]);
      NoLoosePage(a, now, memory.mem[..], memory.roles, dest, DirIndex(p), page);
      LoadedOne(m, before, a, now, memory.mem[..], memory.roles, dest, start, c, page);
      assert PagesOf(m, source, start, p + 1 - start) == c + [memory.mem[page]];
      p := p + 1;
    }
  }

  /** The source of a copy maps and holds what it did when the copying began. */
  lemma SourceKept(m: seq<Page>, r: Roles, n: seq<Page>, s: Roles, d: nat, base: nat, c: seq<Page>, source: nat,
                   p: nat, end: nat)
    requires Tables(m, r) && Tables(n, s) && IsDirectory(r, source) && source != d && Loaded(m, r, n, s, d, base, c)
    requires MappedRange(Flat(m, source), base, end) && base <= p < end
    ensures IsDirectory(s, source) && p in Flat(n, source)
    ensures FrameOf(Flat(n, source)[p]) < |n| ==> n[FrameOf(Flat(n, source)[p])] == PageAt(m, source, p)
  {
    GrownKeepsOthers(m, r, n, s, d, source);
    assert Same(m, n, source, p);
    OldFrames(m, r, n, s, d);
  }

  /** `v` without the pages from `start` up to `end`. */
  ghost function Cut(v: map<nat, Word>, start: nat, end: nat): map<nat, Word> {
    map p | p in v && !(start <= p < end) :: v[p]
  }

  ghost predicate BackedRange(v: map<nat, Word>, start: nat, end: nat) {
    forall p: nat :: start <= p < end ==> p in v && FrameOf(v[p]) >= START
  }

  lemma CutStart(v: map<nat, Word>, start: nat)
    ensures Cut(v, start, start) == v
  {
  }

  lemma CutStep(v: map<nat, Word>, start: nat, p: nat, end: nat)
    requires start <= p < end && BackedRange(v, start, end)
    ensures p in Cut(v, start, p) && FrameOf(Cut(v, start, p)[p]) >= START
    ensures Cut(v, start, p + 1) == Cut(v, start, p) - {p}
  {
  }

  method UnmapRange(memory: Memory, d: nat, start: nat, end: nat)
    requires memory.Valid() && IsDirectory(memory.roles, d)
    requires start <= end <= MAX_FRAMES && BackedRange(memory.View(d), start, end)
    modifies memory, memory.mem
    ensures memory.Valid() && IsDirectory(memory.roles, d)
    ensures memory.View(d) == Cut(old(memory.View(d)), start, end)
    ensures Shrunk(old(memory.mem[..]), old(memory.roles), memory.mem[..], memory.roles, d)
    ensures memory.Room() == old(memory.Room()) + (end - start)
  {
    hide Tables;
    hide FreeChain;
    hide Accounted;
    hide Shrunk;
    hide Flat;
    hide Cut;
    hide BackedRange;
    ghost var m, before, was := memory.mem[..], memory.roles, memory.View(d);
    NothingFreed(m, before, d);
    CutStart(was, start);
    var p := start;
    while p < end
      invariant start <= p <= end
      invariant memory.Valid() && IsDirectory(memory.roles, d)
      invariant memory.View(d) == Cut(was, start, p)
      invariant Shrunk(m, before, memory.mem[..], memory.roles, d)
      invariant memory.Room() == old(memory.Room()) + (p - start)
    {
      CutStep(was, start, p, end);
      ghost var a, now := memory.mem[..], memory.roles;
      memory.UnmapAndFreePage(d, p);
      ShrunkTransitive(m, before, a, now, memory.mem[..], memory.roles, d);
      p := p + 1;
    }
  }

  // ----- loading a program -----

  function FileByte(data: seq<Byte>, i: nat): Byte {
    if i < |data| then data[i] else 0
  }

  function FileWord(data: seq<Byte>, at: nat): Word {
    Get32([FileByte(data, at), FileByte(data, at + 1), FileByte(data, at + 2), FileByte(data, at + 3)], 0)
  }

  /** The page that holds the file's bytes from `pos` on, and zeros after its end. */
  function FilePage(data: seq<Byte>, pos: nat): Page {
    seq(ENTRIES, i requires 0 <= i => FileWord(data, pos + 4 * i))
  }

  lemma WordBytes(b0: Byte, b1: Byte, b2: Byte, b3: Byte)
    ensures Encode32(Get32([b0, b1, b2, b3], 0)) == [b0, b1, b2, b3]
  {
    var v := Get32([b0, b1, b2, b3], 0);
    var c1: int, c2: int, c3: int := b1, b2, b3;
    assert v / 0x100 == c1 + 0x100 * c2 + 0x1_0000 * c3;
    assert v / 0x1_0000 == c2 + 0x100 * c3;
    assert v / 0x100_0000 == c3;
  }

  lemma FilePageBytes(data: seq<Byte>, pos: nat, i: nat, b: nat)
    requires i < ENTRIES && b < 4
    ensures Encode32(FilePage(data, pos)[i])[b] == FileByte(data, pos + 4 * i + b)
  {
    hide Encode32;
    hide Get32;
    var at := pos + 4 * i;
    WordBytes(FileByte(data, at), FileByte(data, at + 1), FileByte(data, at + 2), FileByte(data, at + 3));
  }

  function PagesFor(size: nat): nat {
    (size + PAGE - 1) / PAGE
  }

  /** The first `n` pages of a file. */
  ghost function FilePages(data: seq<Byte>, n: nat): (c: seq<Page>)
    ensures |c| == n && forall k :: 0 <= k < n ==> c[k] == FilePage(data, PAGE * k)
  {
    seq(n, k requires 0 <= k => FilePage(data, PAGE * k))
  }

  lemma FilePagesStep(data: seq<Byte>, k: nat)
    ensures FilePages(data, k + 1) == FilePages(data, k) + [FilePage(data, PAGE * k)]
  {
  }

  /** Load a file into fresh pages from page `base` on; the result is the page after the last. */
  method LoadFile(memory: Memory, d: nat, base: nat, data: seq<Byte>) returns (end: nat)
    requires memory.Valid() && IsDirectory(memory.roles, d) && NoLoose(memory.roles)
    requires base + PagesFor(|data|) <= MAX_FRAMES && Unmapped(memory.View(d), base, PagesFor(|data|))
    requires memory.Room() >= PagesFor(|data|) + TablesFor(base, PagesFor(|data|))
    modifies memory, memory.mem
    ensures end == base + PagesFor(|data|)
    ensures memory.Valid() && IsDirectory(memory.roles, d) && NoLoose(memory.roles)
    ensures memory.Room() >= old(memory.Room()) - (end - base) - TablesFor(base, end - base)
    ensures Loaded(old(memory.mem[..]), old(memory.roles), memory.mem[..], memory.roles, d, base,
                   FilePages(data, end - base))
  {
    hide Tables;
    hide FreeChain;
    hide Accounted;
    hide Grown;
    hide Flat;
    hide NoLoose;
    hide TablesFor;
    hide DirIndex;
    hide Loaded;
    hide Unmapped;
    hide FilePage;
    hide PagesFor;
    ghost var m, before, last := memory.mem[..], memory.roles, base + PagesFor(|data|);
    LoadedNothing(m, before, d, base);
    TablesNone(base);
    assert FilePages(data, 0) == [];
    DirectoryInMemory(m, before, d);
    PagesReached(|data|, 0);
    var pos := 0;
    end := base;
    while pos < |data|
      invariant pos == PAGE * (end - base) && base <= end <= last
      invariant pos >= |data| <==> end == last
      invariant memory.Valid() && IsDirectory(memory.roles, d) && NoLoose(memory.roles)
      invariant TableBehind(memory.mem[..], d, base, end)
      invariant memory.Room() >= old(memory.Room()) - (end - base) - TablesFor(base, end - base)
      invariant Loaded(m, before, memory.mem[..], memory.roles, d, base, FilePages(data, end - base))
      decreases last - end
    {
      TablesGrow(base, end, last);
      PagesReached(|data|, end + 1 - base);
      FilePagesStep(data, end - base);
      ghost var a, now := memory.mem[..], memory.roles;
      StillUnmapped(m, before, a, now, d, base, FilePages(data, end - base), last - base, end);
      var page := memory.LoadPage(d, end, FilePage(data, pos));
      NoLoosePage(a, now, memory.mem[..], memory.roles, d, DirIndex(end), page);
      LoadedOne(m, before, a, now, memory.mem[..], memory.roles, d, base, FilePages(data, end - base), page);
      pos := pos + PAGE;
      end := end + 1;
    }
  }

  lemma PagesReached(size: nat, k: nat)
    ensures PAGE * k >= size <==> k >= PagesFor(size)
  {
  }
}
