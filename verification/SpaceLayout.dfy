/** How processes' address spaces are laid out, and what keeps them that way. */
module SpaceLayout {
  import opened Bytes
  import opened PageModel
  import opened Pages
  import opened PageContents
  import opened PageLoops

  const STACK_BASE: nat := 0x4_0000 // PROCESS_STACK_BASE / PAGE_SIZE
  const STACK_PAGES: nat := 16      // PROCESS_STACK_SIZE / PAGE_SIZE
  const DATA_BASE: nat := 0x2_0000  // PROCESS_DATA_BASE / PAGE_SIZE
  const TEXT_BASE: nat := 0x1_0000  // PROCESS_TEXT_BASE / PAGE_SIZE

  datatype Space = Space(dir: nat, textStart: nat, textEnd: nat, dataStart: nat, dataEnd: nat,
                         stackStart: nat, stackEnd: nat)

  predicate InRanges(s: Space, p: nat) {
    s.textStart <= p < s.textEnd || s.dataStart <= p < s.dataEnd || s.stackStart <= p < s.stackEnd
  }

  predicate Shaped(s: Space) {
    && s.textStart == TEXT_BASE <= s.textEnd <= DATA_BASE == s.dataStart
    && s.dataStart <= s.dataEnd <= s.stackStart == STACK_BASE - STACK_PAGES
    && s.stackEnd == STACK_BASE
  }

  /** The pages of text, data and stack have frames of the allocator's; besides these exactly the
      pages below 6 MB are mapped, each to itself. */
  ghost predicate Laid(v: map<nat, Word>, s: Space) {
    forall p: nat {:trigger p in v} {:trigger InRanges(s, p)} ::
      if InRanges(s, p) then p in v && FrameOf(v[p]) >= START
      else (p in v <==> p < START) && (p in v ==> FrameOf(v[p]) == p)
  }

  ghost predicate Good(m: seq<Page>, roles: Roles, s: Space) {
    IsDirectory(roles, s.dir) && Shaped(s) && Laid(Flat(m, s.dir), s)
  }

  type SpaceMap = map<nat, Space>

  ghost predicate HasOwner(spaces: SpaceMap, d: nat) {
    exists pid: nat :: pid in spaces && spaces[pid].dir == d
  }

  ghost predicate World(m: seq<Page>, roles: Roles, spaces: SpaceMap) {
    && NoLoose(roles)
    && (forall pid :: pid in spaces ==> Good(m, roles, spaces[pid]))
    && (forall a, b :: a in spaces && b in spaces && a != b ==> spaces[a].dir != spaces[b].dir)
    && (forall d: nat :: IsDirectory(roles, d) ==> HasOwner(spaces, d))
  }

  // ----- what a growing or shrinking directory does to the world -----

  /** The other processes see what they saw. */
  ghost predicate OthersSame(m: seq<Page>, n: seq<Page>, spaces: SpaceMap, pid: nat) {
    forall q: nat, p: nat :: q in spaces && q != pid ==> Same(m, n, spaces[q].dir, p)
  }

  lemma NewOwner(spaces: SpaceMap, pid: nat, sp: Space, d: nat)
    requires d == sp.dir || HasOwner(spaces, d)
    requires pid in spaces ==> spaces[pid].dir == sp.dir
    ensures HasOwner(spaces[pid := sp], d)
  {
    var after := spaces[pid := sp];
    if d == sp.dir {
      assert after[pid].dir == d;
    } else {
      var q: nat :| q in spaces && spaces[q].dir == d;
      assert after[q].dir == d;
    }
  }

  lemma WorldChanged(m: seq<Page>, r: Roles, n: seq<Page>, s: Roles, spaces: SpaceMap, pid: nat, sp: Space)
    requires World(m, r, spaces) && NoLoose(s) && Good(n, s, sp)
    requires if pid in spaces then spaces[pid].dir == sp.dir else sp.dir !in r
    requires forall q: nat :: q in spaces && q != pid ==> Good(n, s, spaces[q])
    requires forall d: nat :: IsDirectory(s, d) ==> d == sp.dir || IsDirectory(r, d)
    ensures World(n, s, spaces[pid := sp])
  {
    hide NoLoose;
    hide Flat;
    hide Laid;
    hide HasOwner;
    forall d: nat | IsDirectory(s, d) ensures HasOwner(spaces[pid := sp], d) {
      NewOwner(spaces, pid, sp, d);
    }
    forall q: nat | q in spaces && q != pid ensures spaces[q].dir != sp.dir {
      assert Good(m, r, spaces[q]);
    }
  }

  lemma StillGood(m: seq<Page>, r: Roles, n: seq<Page>, s: Roles, spaces: SpaceMap, q: nat)
    requires World(m, r, spaces) && q in spaces
    requires IsDirectory(r, spaces[q].dir) ==>
               IsDirectory(s, spaces[q].dir) && Flat(n, spaces[q].dir) == Flat(m, spaces[q].dir)
    ensures Good(n, s, spaces[q])
  {
  }

  lemma GoodDirectory(m: seq<Page>, r: Roles, spaces: SpaceMap, q: nat)
    requires World(m, r, spaces) && q in spaces
    ensures Good(m, r, spaces[q]) && IsDirectory(r, spaces[q].dir)
  {
  }

  lemma OtherDirectory(m: seq<Page>, r: Roles, spaces: SpaceMap, pid: nat, q: nat, d: nat)
    requires World(m, r, spaces) && q in spaces && q != pid
    requires if pid in spaces then spaces[pid].dir == d else d !in r
    ensures spaces[q].dir != d
  {
  }

  lemma WorldGrown(m: seq<Page>, r: Roles, n: seq<Page>, s: Roles, spaces: SpaceMap, pid: nat, sp: Space)
    requires Tables(m, r) && World(m, r, spaces) && Grown(m, r, n, s, sp.dir) && NoLoose(s) && Good(n, s, sp)
    requires if pid in spaces then spaces[pid].dir == sp.dir else sp.dir !in r
    ensures World(n, s, spaces[pid := sp]) && OthersSame(m, n, spaces, pid)
  {
    hide Tables;
    hide Grown;
    hide World;
    hide Good;
    hide Same;
    OldFrames(m, r, n, s, sp.dir);
    GrownDirectories(m, r, n, s, sp.dir);
    forall q: nat | q in spaces && q != pid
      ensures Good(n, s, spaces[q]) && forall p: nat :: Same(m, n, spaces[q].dir, p)
    {
      GoodDirectory(m, r, spaces, q);
      OtherDirectory(m, r, spaces, pid, q, sp.dir);
      GrownKeepsOthers(m, r, n, s, sp.dir, spaces[q].dir);
      StillGood(m, r, n, s, spaces, q);
    }
    WorldChanged(m, r, n, s, spaces, pid, sp);
  }

  lemma GrownDirectories(m: seq<Page>, r: Roles, n: seq<Page>, s: Roles, d: nat)
    requires Grown(m, r, n, s, d)
    ensures forall e: nat :: IsDirectory(s, e) ==> e == d || IsDirectory(r, e)
  {
  }

  lemma WorldShrunk(m: seq<Page>, r: Roles, n: seq<Page>, s: Roles, spaces: SpaceMap, pid: nat, sp: Space)
    requires Tables(m, r) && Tables(n, s) && World(m, r, spaces) && Shrunk(m, r, n, s, sp.dir) && Good(n, s, sp)
    requires pid in spaces && spaces[pid].dir == sp.dir
    ensures World(n, s, spaces[pid := sp]) && OthersSame(m, n, spaces, pid)
  {
    hide Tables;
    hide Shrunk;
    hide World;
    hide Good;
    hide Same;
    ShrunkRoles(m, r, n, s, spaces, sp.dir);
    forall q: nat | q in spaces && q != pid
      ensures Good(n, s, spaces[q]) && forall p: nat :: Same(m, n, spaces[q].dir, p)
    {
      GoodDirectory(m, r, spaces, q);
      OtherDirectory(m, r, spaces, pid, q, sp.dir);
      ShrunkKeepsOthers(m, r, n, s, sp.dir, spaces[q].dir);
      StillGood(m, r, n, s, spaces, q);
    }
    WorldChanged(m, r, n, s, spaces, pid, sp);
  }

  lemma ShrunkRoles(m: seq<Page>, r: Roles, n: seq<Page>, s: Roles, spaces: SpaceMap, d: nat)
    requires World(m, r, spaces) && Shrunk(m, r, n, s, d)
    ensures NoLoose(s)
    ensures forall e: nat :: IsDirectory(s, e) <==> IsDirectory(r, e)
  {
  }

  /** `wide` has the pages of `s` and those from `base` up to `end`. */
  ghost predicate Widened(s: Space, wide: Space, base: nat, end: nat) {
    && s.dir == wide.dir && START <= base
    && forall p: nat :: InRanges(wide, p) <==> InRanges(s, p) || base <= p < end
  }

  lemma LaidWider(m: seq<Page>, r: Roles, n: seq<Page>, t: Roles, s: Space, wide: Space, base: nat, c: seq<Page>)
    requires Laid(Flat(m, s.dir), s) && Loaded(m, r, n, t, s.dir, base, c) && Widened(s, wide, base, base + |c|)
    ensures Laid(Flat(n, s.dir), wide)
  {
    hide Flat;
    hide Grown;
    hide PageAt;
    hide InRanges;
    forall p: nat
      ensures if InRanges(wide, p) then p in Flat(n, s.dir) && FrameOf(Flat(n, s.dir)[p]) >= START
              else (p in Flat(n, s.dir) <==> p < START) && (p in Flat(n, s.dir) ==> FrameOf(Flat(n, s.dir)[p]) == p)
    {
      assert InRanges(wide, p) <==> InRanges(s, p) || base <= p < base + |c|;
      if base <= p < base + |c| {
        assert Fresh(n, r, s.dir, p);
      } else {
        assert Same(m, n, s.dir, p);
      }
    }
  }

  /** Directory `d` before it has any page of its own. */
  function Bare(d: nat): (s: Space)
    ensures forall p: nat :: !InRanges(s, p)
  {
    Space(d, TEXT_BASE, TEXT_BASE, DATA_BASE, DATA_BASE, STACK_BASE - STACK_PAGES, STACK_BASE - STACK_PAGES)
  }

  lemma BareLaid(v: map<nat, Word>, d: nat, flags: nat)
    requires flags < PAGE && SelfMapped(map[], v, 0, START, flags)
    ensures Laid(v, Bare(d))
  {
  }

  /** A second identity mapping below 6 MB leaves the layout alone. */
  lemma BareRemapped(was: map<nat, Word>, v: map<nat, Word>, d: nat, start: nat, end: nat, flags: nat)
    requires flags < PAGE && start <= end <= START && SelfMapped(was, v, start, end, flags) && Laid(was, Bare(d))
    ensures Laid(v, Bare(d))
  {
  }

  lemma LaidUnmapped(v: map<nat, Word>, s: Space, base: nat, n: nat)
    requires Laid(v, s) && base >= START
    requires forall p: nat :: base <= p < base + n ==> !InRanges(s, p)
    ensures Unmapped(v, base, n)
  {
  }

  lemma LaidMapped(v: map<nat, Word>, s: Space, start: nat, end: nat)
    requires Laid(v, s)
    requires forall p: nat :: start <= p < end ==> InRanges(s, p)
    ensures MappedRange(v, start, end) && BackedRange(v, start, end)
  {
  }

  lemma LaidLow(v: map<nat, Word>, d: nat)
    requires Laid(v, Bare(d))
    ensures LowOnly(v)
  {
  }

  // ----- fork -----

  /** `s` is being made a copy of the address space `from` that `m` holds. */
  ghost predicate Twin(m: seq<Page>, r: Roles, n: seq<Page>, t: Roles, from: nat, s: Space) {
    && Grown(m, r, n, t, s.dir) && s.dir !in r
    && Laid(Flat(n, s.dir), s)
    && forall p: nat :: InRanges(s, p) ==> Fresh(n, r, s.dir, p) && PageAt(n, s.dir, p) == PageAt(m, from, p)
  }

  lemma TwinStart(m: seq<Page>, r: Roles, n: seq<Page>, t: Roles, from: nat, d: nat)
    requires Grown(m, r, n, t, d) && d !in r && Laid(Flat(n, d), Bare(d))
    ensures Twin(m, r, n, t, from, Bare(d))
  {
  }

  lemma TwinReady(m: seq<Page>, r: Roles, n: seq<Page>, t: Roles, parent: Space, s: Space, start: nat, end: nat)
    requires Tables(m, r) && IsDirectory(r, parent.dir) && Laid(Flat(m, parent.dir), parent)
    requires Twin(m, r, n, t, parent.dir, s) && start <= end && start >= START
    requires forall p: nat :: start <= p < end ==> InRanges(parent, p) && !InRanges(s, p)
    ensures Unmapped(Flat(n, s.dir), start, end - start)
    ensures MappedRange(Flat(n, parent.dir), start, end)
    ensures IsDirectory(t, parent.dir) && parent.dir != s.dir
  {
    hide Tables;
    hide Flat;
    GrownKeepsOthers(m, r, n, t, s.dir, parent.dir);
    OldFrames(m, r, n, t, s.dir);
    LaidUnmapped(Flat(n, s.dir), s, start, end - start);
    LaidMapped(Flat(n, parent.dir), parent, start, end);
  }

  lemma TwinStep(m: seq<Page>, r: Roles, n: seq<Page>, t: Roles, o: seq<Page>, u: Roles, from: nat, s: Space,
                 wide: Space,
                 base: nat, len: nat)
    requires Tables(m, r) && IsDirectory(r, from) && Twin(m, r, n, t, from, s)
    requires Loaded(n, t, o, u, s.dir, base, PagesOf(n, from, base, len)) && Widened(s, wide, base, base + len)
    ensures Twin(m, r, o, u, from, wide)
  {
    hide Tables;
    hide Flat;
    hide Grown;
    hide PageAt;
    hide InRanges;
    hide PagesOf;
    GrownTransitive(m, r, n, t, o, u, s.dir);
    GrownKeepsOthers(m, r, n, t, s.dir, from);
    LaidWider(n, t, o, u, s, wide, base, PagesOf(n, from, base, len));
    OldFrames(m, r, n, t, s.dir);
    SameLength(n, t, o, u, s.dir);
    forall p: nat | InRanges(wide, p) ensures Fresh(o, r, s.dir, p) && PageAt(o, s.dir, p) == PageAt(m, from, p) {
      assert InRanges(s, p) || base <= p < base + len;
      if base <= p < base + len {
        assert Fresh(o, t, s.dir, p) && PageAt(o, s.dir, p) == PagesOf(n, from, base, len)[p - base];
        PagesOfAt(n, from, base, len, p);
        assert Same(m, n, from, p);
      } else {
        assert Fresh(n, r, s.dir, p) && PageAt(n, s.dir, p) == PageAt(m, from, p);
        assert Same(n, o, s.dir, p);
        StillFresh(n, o, r, s.dir, p);
      }
    }
  }

  lemma PagesOfAt(m: seq<Page>, d: nat, base: nat, n: nat, p: nat)
    requires base <= p < base + n
    ensures PagesOf(m, d, base, n)[p - base] == PageAt(m, d, p)
  {
  }

  /** Frames and tables that a copy of `s` needs, with its directory. */
  function ForkNeeds(s: Space): nat
    requires Shaped(s)
  {
    1 + TablesFor(0, START)
    + s.textEnd - s.textStart + TablesFor(s.textStart, s.textEnd - s.textStart)
    + s.dataEnd - s.dataStart + TablesFor(s.dataStart, s.dataEnd - s.dataStart)
    + s.stackEnd - s.stackStart + TablesFor(s.stackStart, s.stackEnd - s.stackStart)
  }

  lemma DirectoryAdded(r: Roles, d: nat)
    requires NoLoose(r)
    ensures NoLoose(r[d := Directory]) && LowOnly(map[])
  {
  }

  lemma RangesWiden(s: Space)
    requires Shaped(s)
    ensures START <= s.textStart <= s.textEnd <= MAX_FRAMES && START <= s.dataStart <= s.dataEnd <= MAX_FRAMES
    ensures START <= s.stackStart <= s.stackEnd <= MAX_FRAMES
    ensures Widened(Bare(s.dir), Bare(s.dir).(textEnd := s.textEnd), s.textStart, s.textEnd)
    ensures Widened(Bare(s.dir).(textEnd := s.textEnd), Bare(s.dir).(textEnd := s.textEnd, dataEnd := s.dataEnd),
              s.dataStart, s.dataEnd)
    ensures Widened(Bare(s.dir).(textEnd := s.textEnd, dataEnd := s.dataEnd), s, s.stackStart, s.stackEnd)
  {
  }

  lemma RangesApart(s: Space, d: nat)
    requires Shaped(s)
    ensures forall p: nat :: s.textStart <= p < s.textEnd ==> InRanges(s, p) && !InRanges(Bare(d), p)
    ensures forall p: nat :: s.dataStart <= p < s.dataEnd ==>
              InRanges(s, p) && !InRanges(Bare(d).(textEnd := s.textEnd), p)
    ensures forall p: nat :: s.stackStart <= p < s.stackEnd ==>
              InRanges(s, p) && !InRanges(Bare(d).(textEnd := s.textEnd, dataEnd := s.dataEnd), p)
  {
  }

  /** Frames and tables that a new process needs, with its directory. */
  function StartNeeds(): nat {
    1 + TablesFor(0, START) + STACK_PAGES + TablesFor(STACK_BASE - STACK_PAGES, STACK_PAGES)
  }

  function BrkNeeds(s: Space, end: nat): nat
    requires PAGE * s.dataEnd < end
  {
    PagesFor(end) - s.dataEnd + TablesFor(s.dataEnd, PagesFor(end) - s.dataEnd)
  }

  function Max(a: nat, b: nat): nat {
    if a < b then b else a
  }

  lemma Rounded(end: nat)
    ensures (if end % PAGE != 0 then (end / PAGE + 1) * PAGE else end) == PAGE * PagesFor(end)
  {
  }

  lemma BrkPages(s: Space, end: nat)
    requires Shaped(s) && end <= PAGE * s.stackStart
    ensures end <= PAGE * s.dataEnd <==> PagesFor(end) <= s.dataEnd
    ensures PagesFor(end) <= s.stackStart && START <= s.dataEnd <= s.stackStart < MAX_FRAMES
    ensures forall p: nat :: s.dataEnd <= p < s.stackStart ==> !InRanges(s, p)
  {
  }

  lemma WorldTight(m: seq<Page>, r: Roles, spaces: SpaceMap)
    requires World(m, r, spaces)
    ensures NoLoose(r)
  {
  }

  lemma Forked(m: seq<Page>, r: Roles, n: seq<Page>, t: Roles, spaces: SpaceMap, pid: nat, child: nat, s: Space)
    requires Tables(m, r) && World(m, r, spaces) && pid in spaces && child !in spaces
    requires NoLoose(t) && IsDirectory(t, s.dir) && Shaped(s) && s == spaces[pid].(dir := s.dir)
    requires Twin(m, r, n, t, spaces[pid].dir, s)
    ensures World(n, t, spaces[child := s])
    ensures forall p: nat :: InRanges(spaces[pid], p) ==>
              Fresh(n, r, s.dir, p) && PageAt(n, s.dir, p) == PageAt(m, spaces[pid].dir, p)
    ensures forall q: nat, p: nat :: q in spaces ==> Same(m, n, spaces[q].dir, p)
  {
    hide Tables;
    hide World;
    hide Flat;
    hide Grown;
    hide Laid;
    hide NoLoose;
    hide PageAt;
    hide Fresh;
    hide Same;
    WorldGrown(m, r, n, t, spaces, child, s);
    forall p: nat | InRanges(spaces[pid], p)
      ensures Fresh(n, r, s.dir, p) && PageAt(n, s.dir, p) == PageAt(m, spaces[pid].dir, p)
    {
      assert InRanges(s, p);
    }
  }

  lemma Started(m: seq<Page>, r: Roles, n: seq<Page>, t: Roles, o: seq<Page>, u: Roles, spaces: SpaceMap, pid: nat,
                d: nat)
    requires Tables(m, r) && World(m, r, spaces) && pid !in spaces && d !in r
    requires Grown(m, r, n, t, d) && Laid(Flat(n, d), Bare(d)) && NoLoose(u) && IsDirectory(u, d)
    requires Loaded(n, t, o, u, d, STACK_BASE - STACK_PAGES, Zeros(STACK_PAGES))
    ensures var s := Bare(d).(stackEnd := STACK_BASE);
      && World(o, u, spaces[pid := s]) && OthersSame(m, o, spaces, pid)
      && forall p: nat :: InRanges(s, p) ==> Fresh(o, r, d, p) && PageAt(o, d, p) == ZeroPage()
  {
    hide Tables;
    hide World;
    hide Flat;
    hide Grown;
    hide Laid;
    hide NoLoose;
    hide PageAt;
    hide Same;
    hide OthersSame;
    var s := Bare(d).(stackEnd := STACK_BASE);
    GrownTransitive(m, r, n, t, o, u, d);
    OldFrames(m, r, n, t, d);
    LaidWider(n, t, o, u, Bare(d), s, STACK_BASE - STACK_PAGES, Zeros(STACK_PAGES));
    WorldGrown(m, r, o, u, spaces, pid, s);
  }

  lemma NothingDone(m: seq<Page>, r: Roles, spaces: SpaceMap, pid: nat)
    requires pid in spaces
    ensures spaces == spaces[pid := spaces[pid].(dataEnd := spaces[pid].dataEnd)]
    ensures OthersSame(m, m, spaces, pid)
    ensures forall p: nat :: Same(m, m, spaces[pid].dir, p)
  {
  }

  lemma Extended(m: seq<Page>, r: Roles, n: seq<Page>, t: Roles, spaces: SpaceMap, pid: nat, dataEnd: nat)
    requires Tables(m, r) && World(m, r, spaces) && pid in spaces && NoLoose(t) && IsDirectory(t, spaces[pid].dir)
    requires spaces[pid].dataEnd <= dataEnd <= spaces[pid].stackStart && Shaped(spaces[pid])
    requires Loaded(m, r, n, t, spaces[pid].dir, spaces[pid].dataEnd, Zeros(dataEnd - spaces[pid].dataEnd))
    ensures var s := spaces[pid]; var wide := s.(dataEnd := dataEnd);
      && World(n, t, spaces[pid := wide]) && OthersSame(m, n, spaces, pid)
      && (forall p: nat :: InRanges(s, p) ==> Same(m, n, s.dir, p))
      && forall p: nat :: InRanges(wide, p) && !InRanges(s, p) ==>
            Fresh(n, r, s.dir, p) && PageAt(n, s.dir, p) == ZeroPage()
  {
    hide Tables;
    hide World;
    hide Flat;
    hide Grown;
    hide Laid;
    hide NoLoose;
    hide PageAt;
    hide Fresh;
    hide Same;
    hide OthersSame;
    var s := spaces[pid];
    var wide := s.(dataEnd := dataEnd);
    GoodDirectory(m, r, spaces, pid);
    LaidWider(m, r, n, t, s, wide, s.dataEnd, Zeros(dataEnd - s.dataEnd));
    WorldGrown(m, r, n, t, spaces, pid, wide);
  }

  lemma RangesMapped(v: map<nat, Word>, s: Space)
    requires Laid(v, s) && Shaped(s)
    ensures BackedRange(v, s.textStart, s.textEnd)
    ensures BackedRange(Cut(v, s.textStart, s.textEnd), s.dataStart, s.dataEnd)
    ensures BackedRange(v, s.stackStart, s.stackEnd)
    ensures BackedRange(Cut(v, s.stackStart, s.stackEnd), s.dataStart, s.dataEnd)
    ensures BackedRange(Cut(Cut(v, s.stackStart, s.stackEnd), s.dataStart, s.dataEnd), s.textStart, s.textEnd)
  {
  }

  lemma TextCut(v: map<nat, Word>, s: Space)
    requires Laid(v, s) && s.textStart == TEXT_BASE <= s.textEnd <= s.dataStart && s.textEnd <= s.stackStart
    ensures Laid(Cut(v, s.textStart, s.textEnd), s.(textEnd := s.textStart))
  {
  }

  lemma DataCut(v: map<nat, Word>, s: Space)
    requires Laid(v, s) && s.textEnd <= s.dataStart == DATA_BASE <= s.dataEnd <= s.stackStart
    ensures Laid(Cut(v, s.dataStart, s.dataEnd), s.(dataEnd := s.dataStart))
  {
  }

  lemma StackCut(v: map<nat, Word>, s: Space)
    requires Laid(v, s) && Shaped(s)
    ensures Laid(Cut(v, s.stackStart, s.stackEnd), s.(stackEnd := s.stackStart))
  {
  }

  lemma Emptied(m: seq<Page>, r: Roles, b: seq<Page>, rb: Roles, spaces: SpaceMap, pid: nat)
    requires Tables(m, r) && Tables(b, rb) && World(m, r, spaces) && pid in spaces
    requires Shrunk(m, r, b, rb, spaces[pid].dir) && IsDirectory(rb, spaces[pid].dir)
    requires Flat(b, spaces[pid].dir) ==
             Cut(Cut(Flat(m, spaces[pid].dir), spaces[pid].textStart, spaces[pid].textEnd),
                 spaces[pid].dataStart, spaces[pid].dataEnd)
    requires Laid(Flat(b, spaces[pid].dir),
                  spaces[pid].(textEnd := spaces[pid].textStart, dataEnd := spaces[pid].dataStart))
    ensures var s := spaces[pid]; var bare := s.(textEnd := s.textStart, dataEnd := s.dataStart);
      && NoLoose(rb) && World(b, rb, spaces[pid := bare]) && OthersSame(m, b, spaces, pid)
      && (forall p: nat :: p in Flat(m, s.dir) && s.stackStart <= p < s.stackEnd ==> Same(m, b, s.dir, p))
      && (forall p: nat :: s.stackStart <= p < s.stackEnd ==> p in Flat(m, s.dir))
      && forall p: nat :: TEXT_BASE <= p < DATA_BASE ==> !InRanges(bare, p)
  {
    hide Tables;
    hide World;
    hide Flat;
    hide Shrunk;
    hide NoLoose;
    hide Same;
    hide OthersSame;
    var s := spaces[pid];
    var bare := s.(textEnd := s.textStart, dataEnd := s.dataStart);
    GoodDirectory(m, r, spaces, pid);
    ShrunkRoles(m, r, b, rb, spaces, s.dir);
    WorldShrunk(m, r, b, rb, spaces, pid, bare);
    forall p: nat | s.stackStart <= p < s.stackEnd ensures p in Flat(m, s.dir) && Same(m, b, s.dir, p) {
      assert InRanges(s, p);
      ShrunkKeepsPage(m, r, b, rb, s.dir, s.dir, p);
    }
  }

  lemma Reloaded(m: seq<Page>, r: Roles, b: seq<Page>, rb: Roles, n: seq<Page>, t: Roles, spaces: SpaceMap, pid: nat,
                 data: seq<Byte>)
    requires Tables(b, rb) && pid in spaces && Shaped(spaces[pid]) && PagesFor(|data|) <= DATA_BASE - TEXT_BASE
    requires World(b, rb,
                   spaces[pid := spaces[pid].(textEnd := spaces[pid].textStart, dataEnd := spaces[pid].dataStart)])
    requires OthersSame(m, b, spaces, pid)
    requires forall p: nat :: spaces[pid].stackStart <= p < spaces[pid].stackEnd ==> Same(m, b, spaces[pid].dir, p)
    requires NoLoose(t) && IsDirectory(t, spaces[pid].dir)
    requires Loaded(b, rb, n, t, spaces[pid].dir, TEXT_BASE, FilePages(data, PagesFor(|data|)))
    ensures var s := spaces[pid]; var full := s.(textEnd := TEXT_BASE + PagesFor(|data|), dataEnd := DATA_BASE);
      && World(n, t, spaces[pid := full]) && OthersSame(m, n, spaces, pid)
      && (forall p: nat :: TEXT_BASE <= p < TEXT_BASE + PagesFor(|data|) ==>
            PageAt(n, s.dir, p) == FilePage(data, PAGE * (p - TEXT_BASE)))
      && forall p: nat :: s.stackStart <= p < s.stackEnd ==> Same(m, n, s.dir, p)
  {
    hide Tables;
    hide World;
    hide Flat;
    hide Grown;
    hide Laid;
    hide NoLoose;
    hide Same;
    hide PageAt;
    hide Fresh;
    hide PagesFor;
    hide FilePage;
    var s := spaces[pid];
    var bare := s.(textEnd := s.textStart, dataEnd := s.dataStart);
    var full := s.(textEnd := TEXT_BASE + PagesFor(|data|), dataEnd := DATA_BASE);
    var empty := spaces[pid := bare];
    GoodDirectory(b, rb, empty, pid);
    LaidWider(b, rb, n, t, bare, full, TEXT_BASE, FilePages(data, PagesFor(|data|)));
    WorldGrown(b, rb, n, t, empty, pid, full);
    assert empty[pid := full] == spaces[pid := full];
    forall q: nat, p: nat | q in spaces && q != pid ensures Same(m, n, spaces[q].dir, p) {
      assert q in empty && empty[q] == spaces[q];
      SameTransitive(m, b, n, spaces[q].dir, p);
    }
    forall p: nat | s.stackStart <= p < s.stackEnd ensures Same(m, n, s.dir, p) {
      SameTransitive(m, b, n, s.dir, p);
    }
  }

  lemma MappedSeen(m: seq<Page>, r: Roles, f: nat)
    requires Tables(m, r) && f in r && r[f].Mapped?
    ensures r[f].i < ENTRIES && r[f].j < ENTRIES && f >= START
    ensures ENTRIES * r[f].i + r[f].j in Flat(m, r[f].d)
    ensures FrameOf(Flat(m, r[f].d)[ENTRIES * r[f].i + r[f].j]) == f
  {
  }

  lemma NothingMapped(m: seq<Page>, r: Roles, d: nat)
    requires Tables(m, r) && IsDirectory(r, d) && LowOnly(Flat(m, d))
    ensures forall f :: f in r && r[f].Mapped? ==> r[f].d != d
  {
    hide Tables;
    hide Flat;
    forall f | f in r && r[f].Mapped? ensures r[f].d != d {
      MappedSeen(m, r, f);
    }
  }

  lemma WithoutRoles(r: Roles, d: nat)
    requires NoLoose(r)
    ensures NoLoose(Without(r, d))
    ensures forall e: nat :: IsDirectory(Without(r, d), e) <==> IsDirectory(r, e) && e != d
  {
  }

  lemma WithoutTwice(m: seq<Page>, r: Roles, n: seq<Page>, s: Roles, d: nat)
    requires Shrunk(m, r, n, s, d)
    ensures Without(s, d) == Without(r, d)
  {
  }

  /** Dropping a directory leaves what the others map, and its contents. */
  lemma DroppedKeepsOthers(m: seq<Page>, r: Roles, n: seq<Page>, t: Roles, d: nat, e: nat)
    requires Tables(n, t) && IsDirectory(t, e) && IsDirectory(r, e) && e != d
    requires SameOn(m, n, t) && SameOthers(m, n, r, d)
    ensures Flat(n, e) == Flat(m, e) && forall p: nat :: Same(m, n, e, p)
  {
  }

  lemma Killed(m: seq<Page>, r: Roles, c: seq<Page>, rc: Roles, n: seq<Page>, t: Roles, spaces: SpaceMap, pid: nat)
    requires Tables(m, r) && Tables(c, rc) && Tables(n, t) && World(m, r, spaces) && pid in spaces
    requires Shrunk(m, r, c, rc, spaces[pid].dir) && IsDirectory(rc, spaces[pid].dir)
    requires t == Without(rc, spaces[pid].dir) && SameOn(c, n, t) && SameOthers(c, n, rc, spaces[pid].dir)
    ensures World(n, t, spaces - {pid}) && OthersSame(m, n, spaces, pid)
    ensures t == Without(r, spaces[pid].dir)
  {
    hide Tables;
    hide Flat;
    hide Shrunk;
    hide SameOn;
    hide SameOthers;
    hide Without;
    hide NoLoose;
    hide Same;
    hide World;
    hide Good;
    var d := spaces[pid].dir;
    ShrunkRoles(m, r, c, rc, spaces, d);
    WithoutRoles(rc, d);
    WithoutTwice(m, r, c, rc, d);
    forall q: nat | q in spaces && q != pid
      ensures Good(n, t, spaces[q]) && forall p: nat :: Same(m, n, spaces[q].dir, p)
    {
      var e := spaces[q].dir;
      GoodDirectory(m, r, spaces, q);
      OtherDirectory(m, r, spaces, pid, q, d);
      ShrunkKeepsOthers(m, r, c, rc, d, e);
      DroppedKeepsOthers(c, rc, n, t, d, e);
      StillGood(m, r, n, t, spaces, q);
      forall p: nat ensures Same(m, n, e, p) {
        SameTransitive(m, c, n, e, p);
      }
    }
    WorldLess(m, r, n, t, spaces, pid);
  }

  lemma WorldLess(m: seq<Page>, r: Roles, n: seq<Page>, t: Roles, spaces: SpaceMap, pid: nat)
    requires World(m, r, spaces) && NoLoose(t) && pid in spaces
    requires forall q: nat :: q in spaces && q != pid ==> Good(n, t, spaces[q])
    requires forall e: nat :: IsDirectory(t, e) ==> IsDirectory(r, e) && e != spaces[pid].dir
    ensures World(n, t, spaces - {pid})
  {
    hide NoLoose;
    hide Good;
    forall e: nat | IsDirectory(t, e) ensures HasOwner(spaces - {pid}, e) {
      assert HasOwner(spaces, e);
      var q: nat :| q in spaces && spaces[q].dir == e;
      assert (spaces - {pid})[q].dir == e;
    }
  }

  lemma SomeDirectory(m: seq<Page>, roles: Roles, f: nat)
    requires Tables(m, roles) && NoLoose(roles) && f in roles
    ensures exists d: nat :: IsDirectory(roles, d)
  {
    assert !roles[f].Loose?;
    var d := if roles[f].Directory? then f else roles[f].d;
    assert IsDirectory(roles, d);
  }

  /** Conservation: when no process is left, every frame can be handed out again. */
  lemma AllGivenBack(m: seq<Page>, roles: Roles)
    requires Tables(m, roles) && World(m, roles, map[])
    ensures roles == map[]
  {
    hide Tables;
    forall d: nat ensures !HasOwner(map[], d) {
    }
    if roles != map[] {
      var f :| f in roles;
      SomeDirectory(m, roles, f);
      assert false;
    }
  }

  /** No two pages of live processes share a frame of the allocator's. */
  lemma FramesApart(m: seq<Page>, roles: Roles, spaces: SpaceMap, a: nat, p: nat, b: nat, q: nat)
    requires Tables(m, roles) && World(m, roles, spaces)
    requires a in spaces && b in spaces && InRanges(spaces[a], p) && InRanges(spaces[b], q) && (a, p) != (b, q)
    ensures p in Flat(m, spaces[a].dir) && q in Flat(m, spaces[b].dir)
    ensures FrameOf(Flat(m, spaces[a].dir)[p]) != FrameOf(Flat(m, spaces[b].dir)[q])
  {
    assert Good(m, roles, spaces[a]) && Good(m, roles, spaces[b]);
    SeparateFrames(m, roles, spaces[a].dir, p, spaces[b].dir, q);
  }

  /** The pages backed by frames of the allocator's are exactly those of text, data and stack. */
  lemma BackedExactly(m: seq<Page>, roles: Roles, spaces: SpaceMap, pid: nat, p: nat)
    requires World(m, roles, spaces) && pid in spaces
    ensures Backed(m, spaces[pid].dir, p) <==> InRanges(spaces[pid], p)
  {
  }
}
