/** The kernel's data: the process table, the two linked lists, mailboxes, pipe buffers, handles
    and address spaces. `state` is what they stand for in the process model. */
module KernelTable {
  import opened Bytes
  import opened ProcessState
  import opened StartUp
  import opened MemoryChanges
  import ProcessLists
  import Scheduler
  import Mailboxes
  import PipeBuffers
  import PageModel
  import SpaceLayout
  import AddressSpaces

  /** A process structure without its mailbox and its histories. */
  datatype Slot = Slot(used: bool, exited: bool, ready: bool, inCall: InCall, regs: Regs, fds: seq<int>, parent: int,
                       waitingOn: int, status: int, blocked: bool, errno: nat)

  function Fields(p: Proc): Slot {
    Slot(p.used, p.exited, p.ready, p.inCall, p.regs, p.fds, p.parent, p.waitingOn, p.status, p.blocked, p.errno)
  }

  /** `p` with its fields as in `x`. */
  function Filled(p: Proc, x: Slot): Proc {
    p.(used := x.used, exited := x.exited, ready := x.ready, inCall := x.inCall, regs := x.regs, fds := x.fds,
       parent := x.parent, waitingOn := x.waitingOn, status := x.status, blocked := x.blocked, errno := x.errno)
  }

  class Kernel {
    const slots: array<Slot>      // processes
    const lists: ProcessLists.Lists            // ready and suspended
    const mail: Mailboxes.MailRoom
    const store: PipeBuffers.PipeStore
    const spaces: AddressSpaces.Spaces
    var current: int              // current_process, a pid or NULL
    var handles: map<int, Handle>
    var console: int              // input_pipe
    var next: nat                 // the next unused name for a handle or pipe
    ghost var state: State
    ghost var Repr: set<object>

    ghost function ListParts(): set<object> {
      {lists, lists.next, lists.prev}
    }

    ghost function MailParts(): set<object> {
      {mail, mail.places, mail.sizes, mail.made}
    }

    ghost function SpaceParts(): set<object> {
      {spaces, spaces.memory, spaces.memory.mem}
    }

    /** All parts but the pipe buffers. */
    ghost function Parts(): set<object> {
      {this, slots} + ListParts() + MailParts() + SpaceParts()
    }

    /** The parts are different objects. */
    ghost predicate Apart()
      reads this, store
    {
      && Repr == Parts() + store.Repr && store in store.Repr && Parts() !! store.Repr
      && {this, slots} !! ListParts() && {this, slots} !! MailParts() && {this, slots} !! SpaceParts()
      && ListParts() !! MailParts() && ListParts() !! SpaceParts() && MailParts() !! SpaceParts()
    }

    ghost predicate Valid()
      reads this, Repr, store
    {
      && Apart() && lists.Valid() && mail.Valid() && store.Valid() && spaces.Valid()
      && Shape(state) && slots.Length == |mail.boxes| == MAX_PROCESSES
      && (forall p :: 0 <= p < MAX_PROCESSES ==>
            slots[p] == Fields(state.procs[p]) && mail.boxes[p] == state.procs[p].mailbox)
      && lists.readyList == state.ready && lists.suspendedList == state.suspended
      && store.pipes == state.pipes && handles == state.handles
      && current == state.current && console == state.console && next == state.next
    }

    /** A kernel without processes, made of empty parts. */
    constructor (r: Regs, l: ProcessLists.Lists, m: Mailboxes.MailRoom, p: PipeBuffers.PipeStore,
                 a: AddressSpaces.Spaces)
      requires l.Valid() && l.readyList == l.suspendedList == []
      requires m.Valid() && |m.boxes| == MAX_PROCESSES && forall q :: 0 <= q < MAX_PROCESSES ==> m.boxes[q] == []
      requires p.Valid() && p.pipes == map[] && p in p.Repr && a.Valid() && a.spaces == map[]
      requires {l.next, l.prev} !! {m.sizes as object, a.memory.mem, p}
      requires p.Repr !! {l, l.next, l.prev, m, m.places, m.sizes, m.made, a, a.memory, a.memory.mem}
      ensures Valid() && state == Empty(r) && lists == l && mail == m && store == p && spaces == a
      ensures fresh(this) && fresh(slots)
    {
      hide ProcessLists.Lists.Valid;
      hide Mailboxes.MailRoom.Valid;
      hide PipeBuffers.PipeStore.Valid;
      hide AddressSpaces.Spaces.Valid;
      hide Shape;
      slots := new Slot[MAX_PROCESSES](_ => Fields(Unused(r)));
      lists, mail, store, spaces := l, m, p, a;
      current, handles, console, next := NULL, map[], 0, 0;
      state := Empty(r);
      new;
      Repr := Parts() + store.Repr;
    }

    ghost function Homes(): Homes
      reads spaces, spaces.memory, spaces.memory.mem
    {
      AllHomes(spaces.spaces, spaces.memory.Room(), spaces.memory.mem[..], spaces.memory.roles)
    }

    /** What the parts say about the state. */
    lemma See()
      requires Valid()
      ensures Shape(state) && slots.Length == MAX_PROCESSES
      ensures forall p :: 0 <= p < MAX_PROCESSES ==> slots[p] == Fields(state.procs[p])
      ensures handles == state.handles && current == state.current && console == state.console && next == state.next
    {
    }

    // ----- single changes -----

    method SetSlot(p: int, x: Slot)
      requires Valid() && IsPid(p) && |x.fds| == MAX_FDS
      modifies Repr
      ensures Valid() && fresh(Repr - old(Repr)) && Homes() == old(Homes())
      ensures state == SetProc(old(state), p, Filled(old(state).procs[p], x))
    {
      hide ProcessLists.Lists.Valid;
      hide Mailboxes.MailRoom.Valid;
      hide PipeBuffers.PipeStore.Valid;
      hide AddressSpaces.Spaces.Valid;
      slots[p] := x;
      state := SetProc(state, p, Filled(state.procs[p], x));
    }

    method SetCurrent(c: int)
      requires Valid()
      modifies Repr
      ensures Valid() && fresh(Repr - old(Repr)) && Homes() == old(Homes())
      ensures state == old(state).(current := c)
    {
      hide ProcessLists.Lists.Valid;
      hide Mailboxes.MailRoom.Valid;
      hide PipeBuffers.PipeStore.Valid;
      hide AddressSpaces.Spaces.Valid;
      current := c;
      state := state.(current := c);
    }

    method SetHandles(h: map<int, Handle>)
      requires Valid()
      modifies Repr
      ensures Valid() && fresh(Repr - old(Repr)) && Homes() == old(Homes())
      ensures state == old(state).(handles := h)
    {
      hide ProcessLists.Lists.Valid;
      hide Mailboxes.MailRoom.Valid;
      hide PipeBuffers.PipeStore.Valid;
      hide AddressSpaces.Spaces.Valid;
      handles := h;
      state := state.(handles := h);
    }

    /** A name for a new handle or pipe. */
    method NewName() returns (n: nat)
      requires Valid()
      modifies Repr
      ensures Valid() && fresh(Repr - old(Repr)) && Homes() == old(Homes())
      ensures n == old(state).next && state == old(state).(next := n + 1)
    {
      hide ProcessLists.Lists.Valid;
      hide Mailboxes.MailRoom.Valid;
      hide PipeBuffers.PipeStore.Valid;
      hide AddressSpaces.Spaces.Valid;
      n := next;
      next := next + 1;
      state := state.(next := next);
    }

    // ----- lists -----

    /** list_add(&ready, …) */
    method ListReady(p: int)
      requires Valid() && IsPid(p) && p !in state.ready && p !in state.suspended
      modifies Repr
      ensures Valid() && fresh(Repr - old(Repr)) && Homes() == old(Homes())
      ensures state == old(state).(ready := [p] + old(state).ready)
    {
      hide ProcessLists.Lists.Valid;
      hide Mailboxes.MailRoom.Valid;
      hide PipeBuffers.PipeStore.Valid;
      hide AddressSpaces.Spaces.Valid;
      lists.Put(p, true);
      state := state.(ready := [p] + state.ready);
    }

    /** The choice of context_switch. */
    method ChooseCurrent()
      requires Valid() && (state.current == NULL || state.current in state.ready)
      modifies Repr
      ensures Valid() && fresh(Repr - old(Repr)) && Homes() == old(Homes())
      ensures state == old(state).(current := Scheduler.Next(old(state).ready, old(state).current))
    {
      hide ProcessLists.Lists.Valid;
      hide Mailboxes.MailRoom.Valid;
      hide PipeBuffers.PipeStore.Valid;
      hide AddressSpaces.Spaces.Valid;
      hide Scheduler.Next;
      current := lists.Choose(current);
      state := state.(current := current);
    }

    /** list_remove, from the list that the ready flag names. */
    method Unlist(p: int)
      requires Valid() && IsPid(p) && p in (if state.procs[p].ready then state.ready else state.suspended)
      modifies Repr
      ensures Valid() && fresh(Repr - old(Repr)) && Homes() == old(Homes())
      ensures state == old(if state.procs[p].ready then state.(ready := Without(state.ready, p))
                           else state.(suspended := Without(state.suspended, p)))
    {
      hide ProcessLists.Lists.Valid;
      hide Mailboxes.MailRoom.Valid;
      hide PipeBuffers.PipeStore.Valid;
      hide AddressSpaces.Spaces.Valid;
      lists.Drop(p, slots[p].ready);
      state := state.(ready := lists.readyList, suspended := lists.suspendedList);
    }

    method SuspendProcess(p: int)
      requires Valid() && IsPid(p) && state.procs[p].used && state.procs[p].ready && p in state.ready
      modifies Repr
      ensures Valid() && fresh(Repr - old(Repr)) && Homes() == old(Homes())
      ensures state == Suspend(old(state), p)
    {
      hide ProcessLists.Lists.Valid;
      hide Mailboxes.MailRoom.Valid;
      hide PipeBuffers.PipeStore.Valid;
      hide AddressSpaces.Spaces.Valid;
      hide Without;
      SetSlot(p, slots[p].(ready := false));
      lists.Suspend(p);
      state := state.(ready := Without(state.ready, p), suspended := [p] + state.suspended);
    }

    method ResumeProcess(p: int)
      requires Valid() && IsPid(p) && state.procs[p].used && !state.procs[p].ready && p in state.suspended
      modifies Repr
      ensures Valid() && fresh(Repr - old(Repr)) && Homes() == old(Homes())
      ensures state == Resume(old(state), p)
    {
      hide ProcessLists.Lists.Valid;
      hide Mailboxes.MailRoom.Valid;
      hide PipeBuffers.PipeStore.Valid;
      hide AddressSpaces.Spaces.Valid;
      hide Without;
      SetSlot(p, slots[p].(ready := true));
      lists.Resume(p);
      state := state.(suspended := Without(state.suspended, p), ready := [p] + state.ready);
    }

    // ----- mailboxes -----

    method PutMail(p: int, msg: Message) returns (ok: bool)
      requires Valid() && IsPid(p)
      modifies Repr
      ensures Valid() && fresh(Repr - old(Repr)) && Homes() == old(Homes())
      ensures ok == (|old(state).procs[p].mailbox| < MAILBOX)
      ensures state == if ok then SetProc(old(state), p, Deliver(old(state).procs[p], msg)) else old(state)
    {
      hide ProcessLists.Lists.Valid;
      hide Mailboxes.MailRoom.Valid;
      hide PipeBuffers.PipeStore.Valid;
      hide AddressSpaces.Spaces.Valid;
      ok := mail.Put(p, msg);
      if ok { state := SetProc(state, p, Deliver(state.procs[p], msg)); }
    }

    method TakeMail(p: int) returns (msg: Message)
      requires Valid() && IsPid(p) && state.procs[p].mailbox != []
      modifies Repr
      ensures Valid() && fresh(Repr - old(Repr)) && Homes() == old(Homes())
      ensures msg == old(state).procs[p].mailbox[0] && state == SetProc(old(state), p, Fetch(old(state).procs[p]))
    {
      hide ProcessLists.Lists.Valid;
      hide Mailboxes.MailRoom.Valid;
      hide PipeBuffers.PipeStore.Valid;
      hide AddressSpaces.Spaces.Valid;
      msg := mail.Take(p);
      state := SetProc(state, p, Fetch(state.procs[p]));
    }

    /** A cleared slot: no mailbox, and a history that begins here. */
    method ClearMail(p: int)
      requires Valid() && IsPid(p)
      modifies Repr
      ensures Valid() && fresh(Repr - old(Repr)) && Homes() == old(Homes())
      ensures state == SetProc(old(state), p, old(state).procs[p].(mailbox := [], sent := [], received := []))
    {
      hide ProcessLists.Lists.Valid;
      hide Mailboxes.MailRoom.Valid;
      hide PipeBuffers.PipeStore.Valid;
      hide AddressSpaces.Spaces.Valid;
      mail.Clear(p);
      state := SetProc(state, p, state.procs[p].(mailbox := [], sent := [], received := []));
    }

    // ----- pipes -----

    method NewPipe(q: int)
      requires Valid() && q !in state.pipes
      modifies Repr
      ensures Valid() && fresh(Repr - old(Repr)) && Homes() == old(Homes())
      ensures state == old(state).(pipes := old(state).pipes[q := FreshPipe()])
    {
      hide ProcessLists.Lists.Valid;
      hide Mailboxes.MailRoom.Valid;
      hide PipeBuffers.PipeStore.Valid;
      hide AddressSpaces.Spaces.Valid;
      store.New(q);
      assert Parts() <= old(Repr);
      Repr := Parts() + store.Repr;
      state := state.(pipes := store.pipes);
    }

    method FreePipe(q: int)
      requires Valid() && q in state.pipes
      modifies Repr
      ensures Valid() && fresh(Repr - old(Repr)) && Homes() == old(Homes())
      ensures state == old(state).(pipes := old(state).pipes - {q})
    {
      hide ProcessLists.Lists.Valid;
      hide Mailboxes.MailRoom.Valid;
      hide PipeBuffers.PipeStore.Valid;
      hide AddressSpaces.Spaces.Valid;
      store.Free(q);
      assert Parts() <= old(Repr);
      Repr := Parts() + store.Repr;
      state := state.(pipes := store.pipes);
    }

    method AppendPipe(q: int, data: seq<Byte>)
      requires Valid() && q in state.pipes && |state.pipes[q].data| + |data| < PIPE_LIMIT
      modifies Repr
      ensures Valid() && fresh(Repr - old(Repr)) && Homes() == old(Homes())
      ensures state == old(state).(pipes := old(state).pipes[q := Append(old(state).pipes[q], data)])
    {
      hide ProcessLists.Lists.Valid;
      hide Mailboxes.MailRoom.Valid;
      hide PipeBuffers.PipeStore.Valid;
      hide AddressSpaces.Spaces.Valid;
      store.Write(q, data);
      assert Parts() <= old(Repr);
      Repr := Parts() + store.Repr;
      state := state.(pipes := store.pipes);
    }

    method SetReader(q: int, pid: int)
      requires Valid() && q in state.pipes
      modifies Repr
      ensures Valid() && fresh(Repr - old(Repr)) && Homes() == old(Homes())
      ensures state == old(state).(pipes := old(state).pipes[q := old(state).pipes[q].(readpid := pid)])
    {
      hide ProcessLists.Lists.Valid;
      hide Mailboxes.MailRoom.Valid;
      hide PipeBuffers.PipeStore.Valid;
      hide AddressSpaces.Spaces.Valid;
      store.SetReader(q, pid);
      assert Parts() <= old(Repr);
      Repr := Parts() + store.Repr;
      state := state.(pipes := store.pipes);
    }

    method ShutReading(q: int)
      requires Valid() && q in state.pipes
      modifies Repr
      ensures Valid() && fresh(Repr - old(Repr)) && Homes() == old(Homes())
      ensures state == old(state).(pipes := old(state).pipes[q := old(state).pipes[q].(reading := false)])
    {
      hide ProcessLists.Lists.Valid;
      hide Mailboxes.MailRoom.Valid;
      hide PipeBuffers.PipeStore.Valid;
      hide AddressSpaces.Spaces.Valid;
      store.ShutReading(q);
      assert Parts() <= old(Repr);
      Repr := Parts() + store.Repr;
      state := state.(pipes := store.pipes);
    }

    method ShutWriting(q: int)
      requires Valid() && q in state.pipes
      modifies Repr
      ensures Valid() && fresh(Repr - old(Repr)) && Homes() == old(Homes())
      ensures state == old(state).(pipes := old(state).pipes[q := old(state).pipes[q].(writing := false)])
    {
      hide ProcessLists.Lists.Valid;
      hide Mailboxes.MailRoom.Valid;
      hide PipeBuffers.PipeStore.Valid;
      hide AddressSpaces.Spaces.Valid;
      store.ShutWriting(q);
      assert Parts() <= old(Repr);
      Repr := Parts() + store.Repr;
      state := state.(pipes := store.pipes);
    }

    method TakePipe(q: int, count: nat) returns (bytes: seq<Byte>)
      requires Valid() && q in state.pipes && state.pipes[q].data != []
      modifies Repr
      ensures Valid() && fresh(Repr - old(Repr)) && Homes() == old(Homes())
      ensures bytes == old(state).pipes[q].data[..PipeBuffers.Oldest(old(state).pipes[q], count)]
      ensures state == old(state).(pipes := old(state).pipes[q := Take(old(state).pipes[q], |bytes|)])
    {
      hide ProcessLists.Lists.Valid;
      hide Mailboxes.MailRoom.Valid;
      hide PipeBuffers.PipeStore.Valid;
      hide AddressSpaces.Spaces.Valid;
      hide PipeBuffers.Oldest;
      hide Take;
      bytes := store.Read(q, count);
      assert Parts() <= old(Repr);
      Repr := Parts() + store.Repr;
      state := state.(pipes := store.pipes);
    }

    // ----- address spaces -----

    /** kill_process gives back what the process has of memory. */
    method LeaveSpace(p: int)
      requires Valid() && p in spaces.spaces
      modifies Repr
      ensures Valid() && fresh(Repr - old(Repr)) && state == old(state)
      ensures GivenUp(old(Homes()), Homes(), p)
    {
      hide ProcessLists.Lists.Valid;
      hide Mailboxes.MailRoom.Valid;
      hide PipeBuffers.PipeStore.Valid;
      hide AddressSpaces.Spaces.Valid;
      spaces.Kill(p);
    }

    /** start_process gives a process a stack. */
    method StartSpace(p: nat, codeStart: nat, codeEnd: nat)
      requires Valid() && p !in spaces.spaces && codeStart <= codeEnd <= PageModel.START
      requires spaces.memory.Room() >= SpaceLayout.StartNeeds()
      modifies Repr
      ensures Valid() && fresh(Repr - old(Repr)) && state == old(state)
      ensures p in Homes().spaces && Started(old(Homes()), Homes(), p)
    {
      hide ProcessLists.Lists.Valid;
      hide Mailboxes.MailRoom.Valid;
      hide PipeBuffers.PipeStore.Valid;
      hide AddressSpaces.Spaces.Valid;
      spaces.Start(p, codeStart, codeEnd);
    }

    /** brk lengthens the data segment of a process. */
    method GrowSpace(p: nat, end: nat)
      requires Valid() && AddressSpaces.Possible(AddressSpaces.CallBrk(p, end), spaces.spaces, spaces.memory.Room())
      modifies Repr
      ensures Valid() && fresh(Repr - old(Repr)) && state == old(state)
      ensures Lengthened(old(Homes()), Homes(), p, end)
    {
      hide ProcessLists.Lists.Valid;
      hide Mailboxes.MailRoom.Valid;
      hide PipeBuffers.PipeStore.Valid;
      hide AddressSpaces.Spaces.Valid;
      spaces.Brk(p, end);
    }

    /** execve replaces text and data of a process by a program. */
    method LoadSpace(p: nat, program: seq<Byte>)
      requires Valid()
      requires AddressSpaces.Possible(AddressSpaces.CallExec(p, program), spaces.spaces, spaces.memory.Room())
      modifies Repr
      ensures Valid() && fresh(Repr - old(Repr)) && state == old(state)
      ensures Reloaded(old(Homes()), Homes(), p, program)
    {
      hide ProcessLists.Lists.Valid;
      hide Mailboxes.MailRoom.Valid;
      hide PipeBuffers.PipeStore.Valid;
      hide AddressSpaces.Spaces.Valid;
      spaces.Exec(p, program);
    }

    /** fork gives the child an address space like its parent's. */
    method CopySpace(p: int, child: nat)
      requires Valid() && p in spaces.spaces && child !in spaces.spaces
      requires spaces.memory.Room() >= SpaceLayout.ForkNeeds(spaces.spaces[p])
      modifies Repr
      ensures Valid() && fresh(Repr - old(Repr)) && state == old(state)
      ensures child in Homes().spaces && Copied(old(Homes()), Homes(), p, child)
    {
      hide ProcessLists.Lists.Valid;
      hide Mailboxes.MailRoom.Valid;
      hide PipeBuffers.PipeStore.Valid;
      hide AddressSpaces.Spaces.Valid;
      spaces.Fork(p, child);
    }

    lemma SeeMail(p: int)
      requires Valid() && IsPid(p)
      ensures mail.sizes.Length == MAX_PROCESSES && mail.sizes[p] == |state.procs[p].mailbox|
    {
    }

    lemma SeeNames()
      requires Valid()
      ensures store.buffers.Keys == state.pipes.Keys
    {
    }

    /** The buffer of a pipe as the code reads it. */
    lemma SeePipe(q: int)
      requires Valid() && q in state.pipes
      ensures q in store.buffers && store.buffers[q] in Repr
      ensures var b, p := store.buffers[q], state.pipes[q];
        b.readpid == p.readpid && b.reading == p.reading && b.writing == p.writing && b.len == |p.data|
    {
      store.Seen(q);
    }
  }
}
