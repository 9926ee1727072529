/** src/unixproc.c, src/process.c, brk of src/syscall.c: the address spaces that processes get,
    copy, replace and give up. */
module AddressSpaces {
  import opened Bytes
  import opened PageModel
  import opened Pages
  import opened PageContents
  import opened PageLoops
  import opened SpaceLayout

  /** A directory that maps the memory below 6 MB to itself. */
  method BareDirectory(memory: Memory, access: nat) returns (d: nat)
    requires memory.Valid() && NoLoose(memory.roles) && access in {0, USER}
    requires memory.Room() >= 1 + TablesFor(0, START)
    modifies memory, memory.mem
    ensures memory.Valid() && IsDirectory(memory.roles, d) && NoLoose(memory.roles) && d !in old(memory.roles)
    ensures memory.Room() >= old(memory.Room()) - 1 - TablesFor(0, START)
    ensures Grown(old(memory.mem[..]), old(memory.roles), memory.mem[..], memory.roles, d)
    ensures Laid(memory.View(d), Bare(d)) && TablesThere(memory.mem[..], d, 0, START)
  {
    hide TablesThere;
    hide Tables;
    hide FreeChain;
    hide Accounted;
    hide Flat;
    hide Grown;
    hide Laid;
    hide SelfMapped;
    hide TablesFor;
    hide NoLoose;
    hide LowOnly;
    ghost var m, r := memory.mem[..], memory.roles;
    d := memory.NewDirectory();
    DirectoryAdded(r, d);
    ghost var n, t := memory.mem[..], memory.roles;
    IdentityMap(memory, d, 0, START, access, 0);
    GrownTransitive(m, r, n, t, memory.mem[..], memory.roles, d);
    BareLaid(memory.View(d), d, PRESENT + access);
  }

  /** Copy one run of pages for a fork. */
  method CopyRange(memory: Memory, ghost m: seq<Page>, ghost r: Roles, parent: Space, d: nat, start: nat, end: nat,
                   ghost s: Space, ghost wide: Space)
    requires memory.Valid() && NoLoose(memory.roles) && IsDirectory(memory.roles, d) && s.dir == d
    requires Tables(m, r) && IsDirectory(r, parent.dir) && Laid(Flat(m, parent.dir), parent)
    requires Twin(m, r, memory.mem[..], memory.roles, parent.dir, s)
    requires START <= start <= end <= MAX_FRAMES && Widened(s, wide, start, end)
    requires forall p: nat :: start <= p < end ==> InRanges(parent, p) && !InRanges(s, p)
    requires memory.Room() >= end - start + TablesFor(start, end - start)
    modifies memory, memory.mem
    ensures memory.Valid() && NoLoose(memory.roles) && IsDirectory(memory.roles, d)
    ensures memory.Room() >= old(memory.Room()) - (end - start) - TablesFor(start, end - start)
    ensures Twin(m, r, memory.mem[..], memory.roles, parent.dir, wide)
  {
    hide Tables;
    hide FreeChain;
    hide Accounted;
    hide Flat;
    hide Grown;
    hide Laid;
    hide Loaded;
    hide NoLoose;
    hide Twin;
    hide Widened;
    hide TablesFor;
    hide Unmapped;
    hide MappedRange;
    hide InRanges;
    ghost var n, t := memory.mem[..], memory.roles;
    TwinReady(m, r, n, t, parent, s, start, end);
    MapAndCopy(memory, parent.dir, d, start, end);
    TwinStep(m, r, n, t, memory.mem[..], memory.roles, parent.dir, s, wide, start, end - start);
  }

  datatype Call =
    | CallStart(pid: nat, codeStart: nat, codeEnd: nat)
    | CallFork(pid: nat, child: nat)
    | CallBrk(pid: nat, end: nat)
    | CallExec(pid: nat, data: seq<Byte>)
    | CallKill(pid: nat)

  /** The process is there (or is not, for a new one), the segments fit, and so do the frames. */
  predicate Possible(call: Call, spaces: SpaceMap, room: int) {
    match call
    case CallStart(pid, codeStart, codeEnd) =>
      pid !in spaces && codeStart <= codeEnd <= START
      && room >= StartNeeds()
    case CallFork(pid, child) =>
      pid in spaces && child !in spaces && Shaped(spaces[pid]) && room >= ForkNeeds(spaces[pid])
    case CallBrk(pid, end) =>
      pid in spaces && end <= PAGE * spaces[pid].stackStart
      && (end > PAGE * spaces[pid].dataEnd ==> room >= BrkNeeds(spaces[pid], end))
    case CallExec(pid, data) =>
      pid in spaces && PagesFor(|data|) <= DATA_BASE - TEXT_BASE
      && room + (spaces[pid].textEnd - spaces[pid].textStart) + (spaces[pid].dataEnd - spaces[pid].dataStart)
         >= PagesFor(|data|) + TablesFor(TEXT_BASE, PagesFor(|data|))
    case CallKill(pid) => pid in spaces
  }

  class Spaces {
    const memory: Memory
    var spaces: SpaceMap // the live processes, by pid

    ghost predicate Valid()
      reads this, memory, memory.mem
    {
      memory.Valid() && World(memory.mem[..], memory.roles, spaces)
    }

    constructor (m: Memory)
      requires m.Valid() && m.roles == map[]
      ensures Valid() && memory == m && spaces == map[]
    {
      memory := m;
      spaces := map[];
    }

    /** A new process has nothing but a stack of zeros. */
    method Start(pid: nat, codeStart: nat, codeEnd: nat)
      requires Valid() && pid !in spaces && codeStart <= codeEnd <= START
      requires memory.Room() >= StartNeeds()
      modifies this, memory, memory.mem
      ensures Valid()
      ensures pid in spaces && spaces == old(spaces)[pid := Bare(spaces[pid].dir).(stackEnd := STACK_BASE)]
      ensures forall p: nat :: InRanges(spaces[pid], p) ==>
                Fresh(memory.mem[..], old(memory.roles), spaces[pid].dir, p)
                && PageAt(memory.mem[..], spaces[pid].dir, p) == ZeroPage()
      ensures OthersSame(old(memory.mem[..]), memory.mem[..], old(spaces), pid)
    {
      hide TablesThere;
      hide Tables;
      hide FreeChain;
      hide Accounted;
      hide World;
      hide Flat;
      hide Grown;
      hide Laid;
      hide Loaded;
      hide NoLoose;
      hide TablesFor;
      hide PageAt;
      hide Fresh;
      hide Same;
      hide InRanges;
      hide SelfMapped;
      hide LowOnly;
      hide Unmapped;
      hide OthersSame;
      ghost var m, r := memory.mem[..], memory.roles;
      WorldTight(m, r, spaces);
      var d := BareDirectory(memory, 0);
      ghost var n1, t1 := memory.mem[..], memory.roles;
      LaidLow(memory.View(d), d);
      ThereWithin(n1, d, codeStart, codeEnd);
      IdentityMap(memory, d, codeStart, codeEnd, USER, 0);
      BareRemapped(Flat(n1, d), memory.View(d), d, codeStart, codeEnd, PRESENT + USER);
      ghost var n2, t2 := memory.mem[..], memory.roles;
      GrownTransitive(m, r, n1, t1, n2, t2, d);
      LaidUnmapped(memory.View(d), Bare(d), STACK_BASE - STACK_PAGES, STACK_PAGES);
      MapNewPages(memory, d, STACK_BASE - STACK_PAGES, STACK_PAGES);
      spaces := spaces[pid := Bare(d).(stackEnd := STACK_BASE)];
      Started(m, r, n2, t2, memory.mem[..], memory.roles, old(spaces), pid, d);
    }

    /** The data segment grows to whole pages up to `end`, with zeros; it never shrinks. */
    method Brk(pid: nat, end: nat)
      requires Valid() && pid in spaces
      requires end <= PAGE * spaces[pid].stackStart
      requires end > PAGE * spaces[pid].dataEnd ==> memory.Room() >= BrkNeeds(spaces[pid], end)
      modifies this, memory, memory.mem
      ensures Valid()
      ensures pid in spaces
      ensures spaces == old(spaces)[pid := old(spaces)[pid].(dataEnd := Max(old(spaces)[pid].dataEnd, PagesFor(end)))]
      ensures forall p: nat :: InRanges(old(spaces)[pid], p) ==>
                Same(old(memory.mem[..]), memory.mem[..], spaces[pid].dir, p)
      ensures forall p: nat :: InRanges(spaces[pid], p) && !InRanges(old(spaces)[pid], p) ==>
                Fresh(memory.mem[..], old(memory.roles), spaces[pid].dir, p)
                && PageAt(memory.mem[..], spaces[pid].dir, p) == ZeroPage()
      ensures OthersSame(old(memory.mem[..]), memory.mem[..], old(spaces), pid)
    {
      hide Tables;
      hide FreeChain;
      hide Accounted;
      hide World;
      hide Flat;
      hide Grown;
      hide Laid;
      hide Loaded;
      hide NoLoose;
      hide TablesFor;
      hide PageAt;
      hide Fresh;
      hide Same;
      hide InRanges;
      hide Unmapped;
      hide OthersSame;
      hide PagesFor;
      hide Shaped;
      ghost var m, r := memory.mem[..], memory.roles;
      GoodDirectory(m, r, spaces, pid);
      WorldTight(m, r, spaces);
      var s := spaces[pid];
      var oldend, newend := PAGE * s.dataEnd, end;
      BrkPages(s, end);
      if newend <= oldend {
        NothingDone(m, r, spaces, pid);
        return;
      }
      if newend % PAGE != 0 {
        newend := (newend / PAGE + 1) * PAGE;
      }
      assert newend == PAGE * PagesFor(end) by { Rounded(end); }
      var n := (newend - oldend) / PAGE;
      assert n == PagesFor(end) - s.dataEnd;
      LaidUnmapped(memory.View(s.dir), s, s.dataEnd, n);
      MapNewPages(memory, s.dir, s.dataEnd, n);
      spaces := spaces[pid := s.(dataEnd := newend / PAGE)];
      Extended(m, r, memory.mem[..], memory.roles, old(spaces), pid, s.dataEnd + n);
    }

    /** The child gets a frame of its own for each page of the parent's, with the same contents;
        the parent and everybody else keep theirs. */
    method Fork(pid: nat, child: nat)
      requires Valid() && pid in spaces && child !in spaces
      requires memory.Room() >= ForkNeeds(spaces[pid])
      modifies this, memory, memory.mem
      ensures Valid()
      ensures child in spaces && spaces == old(spaces)[child := old(spaces)[pid].(dir := spaces[child].dir)]
      ensures forall p: nat :: InRanges(spaces[pid], p) ==>
                Fresh(memory.mem[..], old(memory.roles), spaces[child].dir, p)
                && PageAt(memory.mem[..], spaces[child].dir, p) == old(PageAt(memory.mem[..], spaces[pid].dir, p))
      ensures forall q: nat, p: nat :: q in old(spaces) ==>
                Same(old(memory.mem[..]), memory.mem[..], old(spaces)[q].dir, p)
    {
      hide Tables;
      hide FreeChain;
      hide Accounted;
      hide World;
      hide Flat;
      hide Grown;
      hide Laid;
      hide NoLoose;
      hide Twin;
      hide TablesFor;
      hide PageAt;
      hide Fresh;
      hide Same;
      hide Widened;
      hide InRanges;
      ghost var m, r := memory.mem[..], memory.roles;
      GoodDirectory(m, r, spaces, pid);
      WorldTight(m, r, spaces);
      var parent := spaces[pid];
      var d := BareDirectory(memory, USER);
      ghost var s := parent.(dir := d);
      ghost var text := Bare(d).(textEnd := s.textEnd);
      ghost var data := text.(dataEnd := s.dataEnd);
      RangesWiden(s);
      RangesApart(parent, d);
      TwinStart(m, r, memory.mem[..], memory.roles, parent.dir, d);
      CopyRange(memory, m, r, parent, d, parent.textStart, parent.textEnd, Bare(d), text);
      CopyRange(memory, m, r, parent, d, parent.dataStart, parent.dataEnd, text, data);
      CopyRange(memory, m, r, parent, d, parent.stackStart, parent.stackEnd, data, s);
      spaces := spaces[child := parent.(dir := d)];
      Forked(m, r, memory.mem[..], memory.roles, old(spaces), pid, child, s);
    }

    /** Text and data are replaced by the pages of a program file; the stack and everybody else's
        pages stay. */
    method Exec(pid: nat, data: seq<Byte>)
      requires Valid() && pid in spaces
      requires PagesFor(|data|) <= DATA_BASE - TEXT_BASE
      requires memory.Room() + (spaces[pid].textEnd - spaces[pid].textStart)
               + (spaces[pid].dataEnd - spaces[pid].dataStart)
               >= PagesFor(|data|) + TablesFor(TEXT_BASE, PagesFor(|data|))
      modifies this, memory, memory.mem
      ensures Valid()
      ensures pid in spaces
      ensures spaces == old(spaces)[pid :=
                old(spaces)[pid].(textEnd := TEXT_BASE + PagesFor(|data|), dataEnd := DATA_BASE)]
      ensures forall p: nat :: TEXT_BASE <= p < TEXT_BASE + PagesFor(|data|) ==>
                PageAt(memory.mem[..], spaces[pid].dir, p) == FilePage(data, PAGE * (p - TEXT_BASE))
      ensures forall p: nat :: spaces[pid].stackStart <= p < spaces[pid].stackEnd ==>
                Same(old(memory.mem[..]), memory.mem[..], spaces[pid].dir, p)
      ensures OthersSame(old(memory.mem[..]), memory.mem[..], old(spaces), pid)
    {
      hide Tables;
      hide FreeChain;
      hide Accounted;
      hide World;
      hide Flat;
      hide Grown;
      hide Shrunk;
      hide Laid;
      hide Loaded;
      hide NoLoose;
      hide TablesFor;
      hide PageAt;
      hide Fresh;
      hide Same;
      hide InRanges;
      hide Cut;
      hide OthersSame;
      hide MappedRange;
      hide BackedRange;
      hide Unmapped;
      hide PagesFor;
      hide FilePage;
      ghost var m, r := memory.mem[..], memory.roles;
      GoodDirectory(m, r, spaces, pid);
      var s := spaces[pid];
      RangesMapped(memory.View(s.dir), s);
      UnmapRange(memory, s.dir, s.textStart, s.textEnd);
      ghost var a, ra := memory.mem[..], memory.roles;
      TextCut(Flat(m, s.dir), s);
      UnmapRange(memory, s.dir, s.dataStart, s.dataEnd);
      ghost var b, rb := memory.mem[..], memory.roles;
      DataCut(Flat(a, s.dir), s.(textEnd := s.textStart));
      ShrunkTransitive(m, r, a, ra, b, rb, s.dir);
      Emptied(m, r, b, rb, spaces, pid);
      LaidUnmapped(Flat(b, s.dir), s.(textEnd := s.textStart, dataEnd := s.dataStart), TEXT_BASE, PagesFor(|data|));
      var end := LoadFile(memory, s.dir, TEXT_BASE, data);
      spaces := spaces[pid := s.(textEnd := end, dataEnd := DATA_BASE)];
      Reloaded(m, r, b, rb, memory.mem[..], memory.roles, old(spaces), pid, data);
    }

    /** A killed process gives back its frames, tables and directory, and nobody else's. */
    method Kill(pid: nat)
      requires Valid() && pid in spaces
      modifies this, memory, memory.mem
      ensures Valid() && spaces == old(spaces) - {pid}
      ensures memory.roles == Without(old(memory.roles), old(spaces)[pid].dir)
      ensures spaces == map[] ==> memory.npages == 0 && memory.Room() == memory.mem.Length - START
      ensures OthersSame(old(memory.mem[..]), memory.mem[..], old(spaces), pid)
    {
      hide Tables;
      hide FreeChain;
      hide Accounted;
      hide World;
      hide Flat;
      hide Grown;
      hide Shrunk;
      hide Laid;
      hide Loaded;
      hide NoLoose;
      hide TablesFor;
      hide PageAt;
      hide Fresh;
      hide Same;
      hide InRanges;
      hide Cut;
      hide OthersSame;
      hide MappedRange;
      hide BackedRange;
      hide Without;
      hide Stranded;
      hide SameOn;
      hide SameOthers;
      ghost var m, r := memory.mem[..], memory.roles;
      GoodDirectory(m, r, spaces, pid);
      var s := spaces[pid];
      RangesMapped(memory.View(s.dir), s);
      UnmapRange(memory, s.dir, s.stackStart, s.stackEnd);
      ghost var a, ra := memory.mem[..], memory.roles;
      StackCut(Flat(m, s.dir), s);
      UnmapRange(memory, s.dir, s.dataStart, s.dataEnd);
      ghost var b, rb := memory.mem[..], memory.roles;
      DataCut(Flat(a, s.dir), s.(stackEnd := s.stackStart));
      ShrunkTransitive(m, r, a, ra, b, rb, s.dir);
      UnmapRange(memory, s.dir, s.textStart, s.textEnd);
      ghost var c, rc := memory.mem[..], memory.roles;
      TextCut(Flat(b, s.dir), s.(stackEnd := s.stackStart, dataEnd := s.dataStart));
      ShrunkTransitive(m, r, b, rb, c, rc, s.dir);
      LaidLow(Flat(c, s.dir), s.dir);
      NothingMapped(c, rc, s.dir);
      memory.FreePageDir(s.dir);
      NothingStranded(rc, s.dir);
      spaces := spaces - {pid};
      Killed(m, r, c, rc, memory.mem[..], memory.roles, old(spaces), pid);
      if spaces == map[] { AllGivenBack(memory.mem[..], memory.roles); }
    }

    method Perform(call: Call)
      requires Valid() && Possible(call, spaces, memory.Room())
      modifies this, memory, memory.mem
      ensures Valid()
    {
      hide World;
      hide Same;
      hide Fresh;
      hide Without;
      match call
      case CallStart(pid, codeStart, codeEnd) => Start(pid, codeStart, codeEnd);
      case CallFork(pid, child) => Fork(pid, child);
      case CallBrk(pid, end) => Brk(pid, end);
      case CallExec(pid, data) => Exec(pid, data);
      case CallKill(pid) => Kill(pid);
    }

    /** Any calls in any order, leaving out those that cannot be made when their turn comes. */
    method Run(calls: seq<Call>)
      requires Valid()
      modifies this, memory, memory.mem
      ensures Valid()
      ensures forall pid: nat, p: nat :: pid in spaces ==>
                (Backed(memory.mem[..], spaces[pid].dir, p) <==> InRanges(spaces[pid], p))
      ensures spaces == map[] ==> memory.npages == 0 && memory.Room() == memory.mem.Length - START
    {
      hide World;
      hide Tables;
      hide Backed;
      hide InRanges;
      for i := 0 to |calls|
        invariant Valid()
      {
        if Possible(calls[i], spaces, memory.Room()) {
          Perform(calls[i]);
        }
      }
      forall pid: nat, p: nat | pid in spaces
        ensures Backed(memory.mem[..], spaces[pid].dir, p) <==> InRanges(spaces[pid], p)
      {
        BackedExactly(memory.mem[..], memory.roles, spaces, pid, p);
      }
      if spaces == map[] { AllGivenBack(memory.mem[..], memory.roles); }
    }
  }
}
