/** The kernel's first process: start_process of src/process.c on the kernel's data. */
module KernelStart {
  import opened ProcessState
  import opened StartUp
  import opened DescriptorCalls
  import opened KernelTable
  import opened MemoryChanges
  import opened KernelSteps
  import opened KernelCalls
  import ProcessLists
  import Mailboxes
  import PipeBuffers
  import PageModel
  import Pages
  import SpaceLayout
  import AddressSpaces

  /** The kernel's data before there is a process, on fresh memory. */
  method EmptyKernel(r: Regs, memory: array<PageModel.Page>) returns (k: Kernel)
    requires PageModel.START <= memory.Length <= PageModel.MAX_FRAMES
    ensures k.Valid() && fresh(k.Repr - {memory}) && k.state == Empty(r)
    ensures k.spaces.spaces == map[] && k.spaces.memory.Room() == memory.Length - PageModel.START
  {
    hide ProcessLists.Lists.Valid;
    hide PipeBuffers.PipeStore.Valid;
    hide AddressSpaces.Spaces.Valid;
    hide Pages.Memory.Valid;
    hide Mailboxes.MailRoom.Valid;
    var pages := new Pages.Memory(memory);
    var spaces := new AddressSpaces.Spaces(pages);
    var lists := new ProcessLists.Lists();
    var mail := new Mailboxes.MailRoom();
    var store := new PipeBuffers.PipeStore();
    k := new Kernel(r, lists, mail, store, spaces);
  }

  /** start_process: the slot, its address space, a pipe for standard input, three handles, and a
      place on the ready list. */
  method StartFirst(k: Kernel, r: Regs, codeStart: nat, codeEnd: nat)
    requires k.Valid() && k.state == Empty(r) && k.spaces.spaces == map[]
    requires codeStart <= codeEnd <= PageModel.START
    requires k.spaces.memory.Room() >= SpaceLayout.StartNeeds()
    modifies k.Repr
    ensures k.Valid() && fresh(k.Repr - old(k.Repr)) && Housed(k) && k.state == Boot(r)
    ensures 1 in k.Homes().spaces && Started(old(k.Homes()), k.Homes(), 1)
  {
    hide k.Valid;
    hide SpaceLayout.StartNeeds;
    hide Started;
    hide EachHoused;
    var p := GetFreePid(k);
    FirstPid(k.state, r);
    k.SetSlot(p, Slot(true, false, false, Idle, r, seq(MAX_FDS, _ => NULL), NULL, NULL, 255, false, 0));
    k.StartSpace(p, codeStart, codeEnd);
    FirstSpace(old(k.Homes()), k.Homes());
    Streams(k, p);
    k.See();
    k.SetSlot(p, k.slots[p].(ready := true));
    k.ListReady(p);
    assert k.state.procs == Boot(r).procs;
    assert k.state == Boot(r);
    FirstHoused(k.Homes(), r);
  }

  lemma FirstHoused(homes: Homes, r: Regs)
    requires 1 in homes.spaces && homes.spaces == map[1 := homes.spaces[1]]
    ensures EachHoused(homes.spaces, Boot(r))
  {
  }

  lemma FirstSpace(before: Homes, after: Homes)
    requires before.spaces == map[] && 1 in after.spaces && Started(before, after, 1)
    ensures after.spaces == map[1 := after.spaces[1]]
  {
  }

  lemma FirstPid(s: State, r: Regs)
    requires s == Empty(r)
    ensures FreePid(s.procs, 1) == 1
  {
  }

  /** A pipe for standard input, and the three descriptors. */
  method Streams(k: Kernel, p: int)
    requires k.Valid() && Shape(k.state) && IsPid(p) && k.state.next !in k.state.pipes
    modifies k.Repr
    ensures k.Valid() && fresh(k.Repr - old(k.Repr)) && k.Homes() == old(k.Homes())
    ensures var s, b := old(k.state), old(k.state).next;
      k.state == SetProc(s, p, s.procs[p].(fds := s.procs[p].fds[0 := b + 1][1 := b + 2][2 := b + 3]))
                   .(pipes := s.pipes[b := FreshPipe()],
                     handles := s.handles[b + 1 := Handle(Reader(b), 1)]
                                         [b + 2 := Handle(Screen, 1)][b + 3 := Handle(Screen, 1)],
                     next := b + 4)
  {
    hide k.Valid;
    var b := k.NewName();
    k.NewPipe(b);
    Descriptors(k, p, b);
  }

  /** Standard input is the reading end of pipe `b`, output and error are the screen. */
  method Descriptors(k: Kernel, p: int, b: int)
    requires k.Valid() && Shape(k.state) && IsPid(p)
    modifies k.Repr
    ensures k.Valid() && fresh(k.Repr - old(k.Repr)) && k.Homes() == old(k.Homes())
    ensures var s, h := old(k.state), old(k.state).next;
      k.state == SetProc(s, p, s.procs[p].(fds := s.procs[p].fds[0 := h][1 := h + 1][2 := h + 2]))
                   .(handles := s.handles[h := Handle(Reader(b), 1)]
                                        [h + 1 := Handle(Screen, 1)][h + 2 := Handle(Screen, 1)],
                     next := h + 3)
  {
    hide k.Valid;
    ghost var s := k.state;
    var input := k.NewName();
    PutHandle(k, p, 0, input, Handle(Reader(b), 1));
    var output := k.NewName();
    PutHandle(k, p, 1, output, Handle(Screen, 1));
    var error := k.NewName();
    PutHandle(k, p, 2, error, Handle(Screen, 1));
    assert k.state.procs == s.procs[p := s.procs[p].(fds := s.procs[p].fds[0 := input][1 := output][2 := error])];
  }
}
