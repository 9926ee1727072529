/** What system calls do to the memory of all processes, as relations between the memory before and after. */
module MemoryChanges {
  import opened Bytes
  import opened PageModel
  import opened Pages
  import opened PageContents
  import opened PageLoops
  import opened SpaceLayout

  /** Everybody's memory: the address spaces, the frames that are left, physical memory, and what each of
      its frames is used for. */
  datatype Homes = AllHomes(spaces: SpaceMap, room: int, mem: seq<Page>, roles: Roles)

  /** Page `p` of directory `d` has got a frame of its own, full of zeros. */
  ghost predicate Blank(before: Homes, after: Homes, d: nat, p: nat) {
    Fresh(after.mem, before.roles, d, p) && PageAt(after.mem, d, p) == ZeroPage()
  }

  /** `pid` has got an address space with nothing in it but a stack of zeros. */
  ghost predicate Started(before: Homes, after: Homes, pid: nat)
    requires pid in after.spaces
  {
    var me := after.spaces[pid];
    && pid !in before.spaces && after.spaces == before.spaces[pid := me]
    && me.textStart == me.textEnd == TEXT_BASE && me.dataStart == me.dataEnd == DATA_BASE
    && me.stackStart == STACK_BASE - STACK_PAGES && me.stackEnd == STACK_BASE
    && (forall p: nat :: InRanges(me, p) ==> Blank(before, after, me.dir, p))
    && OthersSame(before.mem, after.mem, before.spaces, pid)
  }

  /** The child has the segments of its parent, and of each of their pages a copy in a frame of its own; all
      who were there before, the parent among them, keep what they had. */
  ghost predicate Copied(before: Homes, after: Homes, pid: nat, child: nat)
    requires pid in before.spaces && child in after.spaces
  {
    var mine, copy := before.spaces[pid].dir, after.spaces[child].dir;
    && child !in before.spaces && after.spaces == before.spaces[child := before.spaces[pid].(dir := copy)]
    && (forall p: nat :: InRanges(before.spaces[pid], p) ==>
          Fresh(after.mem, before.roles, copy, p) && PageAt(after.mem, copy, p) == PageAt(before.mem, mine, p))
    && (forall q: nat, p: nat :: q in before.spaces ==> Same(before.mem, after.mem, before.spaces[q].dir, p))
  }

  /** The data segment of `pid` reaches to `end`, or as far as it did; the pages it gained are zeros, those it
      had and everybody else's are as they were. */
  ghost predicate Lengthened(before: Homes, after: Homes, pid: nat, end: nat)
    requires pid in before.spaces
  {
    var was := before.spaces[pid];
    var now := was.(dataEnd := Max(was.dataEnd, PagesFor(end)));
    && after.spaces == before.spaces[pid := now]
    && (forall p: nat :: InRanges(was, p) ==> Same(before.mem, after.mem, was.dir, p))
    && (forall p: nat :: InRanges(now, p) && !InRanges(was, p) ==> Blank(before, after, was.dir, p))
    && OthersSame(before.mem, after.mem, before.spaces, pid)
  }

  /** Text and data of `pid` are the pages of `program`; its stack and everybody else's pages are as they
      were. */
  ghost predicate Reloaded(before: Homes, after: Homes, pid: nat, program: seq<Byte>)
    requires pid in before.spaces
  {
    var was := before.spaces[pid];
    var now := was.(textEnd := TEXT_BASE + PagesFor(|program|), dataEnd := DATA_BASE);
    && after.spaces == before.spaces[pid := now]
    && (forall p: nat :: TEXT_BASE <= p < now.textEnd ==>
          PageAt(after.mem, was.dir, p) == FilePage(program, PAGE * (p - TEXT_BASE)))
    && (forall p: nat :: was.stackStart <= p < was.stackEnd ==> Same(before.mem, after.mem, was.dir, p))
    && OthersSame(before.mem, after.mem, before.spaces, pid)
  }

  /** Exactly what `pid` had is given back; everybody else's pages are as they were. */
  ghost predicate GivenUp(before: Homes, after: Homes, pid: nat)
    requires pid in before.spaces
  {
    && after.spaces == before.spaces - {pid}
    && after.roles == Without(before.roles, before.spaces[pid].dir)
    && OthersSame(before.mem, after.mem, before.spaces, pid)
  }
}
