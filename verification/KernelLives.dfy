/** exit, kill and fork: the calls that make or end processes, with their address spaces. */
module KernelLives {
  import opened Bytes
  import opened ProcessState
  import opened ProcessInvariant
  import opened ProcessSteps
  import opened ProcessCalls
  import opened DescriptorCalls
  import opened Filing
  import opened KernelTable
  import opened MemoryChanges
  import opened KernelSteps
  import opened KernelCalls
  import SpaceLayout
  import AddressSpaces

  lemma MortalWhen(s: State, p: int, busy: int)
    requires Inv(s, multiset{}, busy, NULL) && IsPid(p) && Live(s.procs[p]) && !InRead(s.procs[p])
    ensures Mortal(s, p)
  {
    InvFiled(s, multiset{}, busy, NULL);
    NoReader(s, p, multiset{}, busy, NULL);
    assert Sleeper(s.procs, p, NULL);
  }

  lemma LivesAfterKill(s: State, p: int)
    requires Shape(s) && Killable(s, p)
    ensures forall i | IsPid(i) :: Live(KillProcess(s, p).procs[i]) == (i != p && Live(s.procs[i]))
  {
    hide Killable;
    hide KillProcess;
    KillEnds(s, p);
    forall i | IsPid(i) && i != p ensures Live(KillProcess(s, p).procs[i]) == Live(s.procs[i]) {
      KillOthers(s, p, i);
    }
  }

  /** kill_process of a live process outside a read. */
  method EndProcess(k: Kernel, p: int, ghost busy: int)
    requires k.Valid() && Housed(k) && Inv(k.state, multiset{}, busy, NULL)
    requires IsPid(p) && Live(k.state.procs[p]) && !InRead(k.state.procs[p])
    modifies k.Repr
    ensures k.Valid() && fresh(k.Repr - old(k.Repr)) && Housed(k)
    ensures Killable(old(k.state), p) && k.state == KillProcess(old(k.state), p)
    ensures p in old(k.Homes()).spaces && GivenUp(old(k.Homes()), k.Homes(), p)
  {
    hide k.Valid;
    hide Inv;
    hide InRead;
    hide Killable;
    hide KillProcess;
    hide Mortal;
    ghost var s := k.state;
    k.See();
    KillKeeps(s, p, busy);
    MortalWhen(s, p, busy);
    LivesAfterKill(s, p);
    KillProc(k, p);
  }

  method SyscallExit(k: Kernel, status: int) returns (res: int)
    requires k.Valid() && Housed(k) && Running(k.state, Exit(status))
    modifies k.Repr
    ensures k.Valid() && fresh(k.Repr - old(k.Repr)) && Housed(k)
    ensures Outcome(k.state, res) == DoExit(old(k.state), status)
    ensures old(k.state).current in old(k.Homes()).spaces
    ensures GivenUp(old(k.Homes()), k.Homes(), old(k.state).current)
  {
    hide Killable;
    hide KillProcess;
    hide k.Valid;
    hide Inv;
    hide Filed;
    ghost var s := k.state;
    InvShape(s);
    InvFiled(s, multiset{}, s.current, NULL);
    k.See();
    ExitReady(s, status);
    k.SetSlot(k.current, k.slots[k.current].(status := status));
    k.See();
    EndProcess(k, k.current, s.current);
    res := -ESUSPEND;
  }

  method SyscallKill(k: Kernel, p: int) returns (res: int)
    requires k.Valid() && Housed(k) && Running(k.state, Kill(p)) && Allowed(k.state, Kill(p))
    modifies k.Repr
    ensures k.Valid() && fresh(k.Repr - old(k.Repr)) && Housed(k)
    ensures IsPid(p) && old(k.state).procs[p].used ==> Killable(old(k.state), p)
    ensures Outcome(k.state, res) == DoKill(old(k.state), p)
    ensures if res == -ESRCH then k.Homes() == old(k.Homes())
            else p in old(k.Homes()).spaces && GivenUp(old(k.Homes()), k.Homes(), p)
  {
    hide Killable;
    hide KillProcess;
    hide k.Valid;
    hide Inv;
    hide Filed;
    ghost var s := k.state;
    InvShape(s);
    InvFiled(s, multiset{}, s.current, NULL);
    k.See();
    AllowedKillable(s, p);
    res := 0;
    if p < 0 || MAX_PROCESSES <= p || !k.slots[p].used {
      return -ESRCH;
    }
    if p == k.current {
      res := -ESUSPEND;
    }
    EndProcess(k, p, s.current);
  }

  // ----- fork -----

  /** Do the segments and `room` frames suffice for a call of process `me`? */
  predicate Affordable(call: Call, me: int, spaces: SpaceLayout.SpaceMap, room: int) {
    match call
    case Fork =>
      me in spaces && SpaceLayout.Shaped(spaces[me]) && room >= SpaceLayout.ForkNeeds(spaces[me])
    case Brk(end) =>
      0 <= me && AddressSpaces.Possible(AddressSpaces.CallBrk(me, end), spaces, room)
    case Execve(failure, program, _) =>
      0 <= me && (failure == 0 ==> AddressSpaces.Possible(AddressSpaces.CallExec(me, program), spaces, room))
    case _ => true
  }

  /** Does the memory that is left suffice for the running process's call? */
  predicate CanServe(k: Kernel, call: Call)
    reads k, k.spaces, k.spaces.memory
  {
    Affordable(call, k.current, k.spaces.spaces, k.spaces.memory.Room())
  }

  /** What a call that came to `res` for process `me` has done to memory. */
  ghost predicate Moved(call: Call, me: int, res: int, before: Homes, after: Homes) {
    match call
    case Exit(_) => 0 <= me && me in before.spaces && GivenUp(before, after, me)
    case Kill(p) => if res == -ESRCH then after == before else 0 <= p && p in before.spaces && GivenUp(before, after, p)
    case Fork =>
      if res == -EAGAIN then after == before
      else 0 <= me && me in before.spaces && 0 <= res && res in after.spaces && Copied(before, after, me, res)
    case Brk(end) => 0 <= me && me in before.spaces && Lengthened(before, after, me, end)
    case Execve(failure, program, _) =>
      if failure != 0 then after == before
      else 0 <= me && me in before.spaces && Reloaded(before, after, me, program)
    case _ => after == before
  }

  lemma HasSpace(k: Kernel, call: Call)
    requires CanServe(k, call) && (call.Brk? || (call.Execve? && call.failure == 0))
    ensures 0 <= k.current && k.current in k.spaces.spaces
  {
  }

  method SyscallBrk(k: Kernel, end: nat) returns (res: int)
    requires k.Valid() && Housed(k) && CanServe(k, Brk(end))
    modifies k.Repr
    ensures k.Valid() && fresh(k.Repr - old(k.Repr)) && Housed(k)
    ensures res == 0 && k.state == old(k.state)
    ensures old(k.current) in old(k.Homes()).spaces && Lengthened(old(k.Homes()), k.Homes(), old(k.current), end)
  {
    hide k.Valid;
    hide AddressSpaces.Possible;
    HasSpace(k, Brk(end));
    k.GrowSpace(k.current, end);
    res := 0;
  }

  /** The part of execve that concerns memory; the frame is the dispatcher's. */
  method SyscallExecve(k: Kernel, failure: nat, program: seq<Byte>, start: Regs) returns (res: int)
    requires k.Valid() && Housed(k) && CanServe(k, Execve(failure, program, start))
    modifies k.Repr
    ensures k.Valid() && fresh(k.Repr - old(k.Repr)) && Housed(k)
    ensures res == 0 - failure && k.state == old(k.state)
    ensures if failure != 0 then k.Homes() == old(k.Homes())
            else old(k.current) in old(k.Homes()).spaces
                 && Reloaded(old(k.Homes()), k.Homes(), old(k.current), program)
  {
    hide k.Valid;
    hide AddressSpaces.Possible;
    if failure != 0 {
      return 0 - failure;
    }
    HasSpace(k, Execve(failure, program, start));
    k.LoadSpace(k.current, program);
    res := 0;
  }

  method SyscallFork(k: Kernel, r: Regs) returns (res: int)
    requires k.Valid() && Housed(k) && Running(k.state, Fork) && CanServe(k, Fork)
    modifies k.Repr
    ensures k.Valid() && fresh(k.Repr - old(k.Repr)) && Housed(k)
    ensures Outcome(k.state, res) == DoFork(old(k.state), r)
    ensures if res == -EAGAIN then k.Homes() == old(k.Homes())
            else 0 <= res && old(k.state).current in old(k.Homes()).spaces && res in k.Homes().spaces
                 && Copied(old(k.Homes()), k.Homes(), old(k.state).current, res)
  {
    hide AddRefs;
    hide FreePid;
    hide SpaceLayout.ForkNeeds;
    hide k.Valid;
    hide Inv;
    hide Filed;
    ghost var s := k.state;
    InvShape(s);
    InvFiled(s, multiset{}, s.current, NULL);
    k.See();
    SlotsHold(s);
    var child := GetFreePid(k);
    if child < 0 {
      return -EAGAIN;
    }
    ChildNowhere(s, child);
    Birth(k, child, r);
    res := child;
    ForkLives(s, r, child);
  }

  lemma ForkLives(s: State, r: Regs, c: int)
    requires Shape(s) && IsPid(s.current) && IsPid(c)
    ensures forall i | IsPid(i) :: Live(ForkState(s, r, c).procs[i]) == (i == c || Live(s.procs[i]))
  {
  }

  /** What fork does once it has found a slot for the child. */
  method Birth(k: Kernel, child: int, r: Regs)
    requires k.Valid() && Shape(k.state) && IsPid(k.state.current) && IsPid(child) && child != k.state.current
    requires CanServe(k, Fork) && child !in k.spaces.spaces && child !in k.state.ready && child !in k.state.suspended
    requires NULL !in k.state.handles
    requires forall i :: 0 <= i < MAX_FDS && Me(k.state).fds[i] != NULL ==> Me(k.state).fds[i] in k.state.handles
    modifies k.Repr
    ensures k.Valid() && fresh(k.Repr - old(k.Repr)) && k.state == ForkState(old(k.state), r, child)
    ensures old(k.state).current in old(k.Homes()).spaces && child in k.Homes().spaces
    ensures Copied(old(k.Homes()), k.Homes(), old(k.state).current, child)
  {
    hide k.Valid;
    hide AddRefs;
    hide SpaceLayout.ForkNeeds;
    ghost var s := k.state;
    k.See();
    var parent, fds := k.current, k.slots[k.current].fds;
    assert fds == Me(s).fds;
    forall i | 0 <= i < MAX_FDS && fds[i] != NULL ensures fds[i] in s.handles {
      assert Me(s).fds[i] != NULL;
    }
    NewSlot(k, child, parent);
    k.CopySpace(parent, child);
    ShareDescriptors(k, child, fds);
    Begin(k, child, r);
    assert k.state.procs == ForkState(s, r, child).procs;
  }

  /** The child gets its parent's registers, but for EAX, and becomes ready. */
  method Begin(k: Kernel, child: int, r: Regs)
    requires k.Valid() && Shape(k.state) && IsPid(child) && child !in k.state.ready && child !in k.state.suspended
    modifies k.Repr
    ensures k.Valid() && fresh(k.Repr - old(k.Repr)) && k.Homes() == old(k.Homes())
    ensures k.state == SetProc(old(k.state), child, old(k.state).procs[child].(regs := r.(eax := 0), ready := true))
                       .(ready := [child] + old(k.state).ready)
  {
    hide k.Valid;
    k.See();
    k.SetSlot(child, k.slots[child].(regs := r.(eax := 0)));
    k.See();
    k.SetSlot(child, k.slots[child].(ready := true));
    k.ListReady(child);
  }

  lemma ChildNowhere(s: State, child: int)
    requires Inv(s, multiset{}, s.current, NULL) && IsPid(child) && !s.procs[child].used
    ensures child !in s.ready && child !in s.suspended && !Live(s.procs[child])
  {
    InvFiled(s, multiset{}, s.current, NULL);
  }

  /** memset, and the first assignments to the cleared process structure. */
  method NewSlot(k: Kernel, child: int, parent: int)
    requires k.Valid() && Shape(k.state) && IsPid(child)
    modifies k.Repr
    ensures k.Valid() && fresh(k.Repr - old(k.Repr)) && k.Homes() == old(k.Homes())
    ensures k.state ==
              SetProc(old(k.state), child, Child(parent, seq(MAX_FDS, _ => NULL), old(k.state).procs[child].regs)
                               .(regs := old(k.state).procs[child].regs, ready := false))
  {
    hide k.Valid;
    k.See();
    k.ClearMail(child);
    k.See();
    k.SetSlot(child, Slot(true, false, false, Idle, k.slots[child].regs, seq(MAX_FDS, _ => NULL), parent,
                          0, 0, false, 0));
  }

  /** The child gets the parent's handles, and each handle one reference more for each slot. */
  method ShareDescriptors(k: Kernel, child: int, fds: seq<int>)
    requires k.Valid() && Shape(k.state) && IsPid(child) && |fds| == MAX_FDS
    requires k.state.procs[child].fds == seq(MAX_FDS, _ => NULL)
    requires forall i :: 0 <= i < MAX_FDS && fds[i] != NULL ==> fds[i] in k.state.handles
    requires NULL !in k.state.handles
    modifies k.Repr
    ensures k.Valid() && fresh(k.Repr - old(k.Repr)) && k.Homes() == old(k.Homes())
    ensures k.state == SetProc(old(k.state), child, old(k.state).procs[child].(fds := fds))
                       .(handles := AddRefs(old(k.state).handles, fds))
  {
    hide k.Valid;
    hide AddRefs;
    ghost var s := k.state;
    AddNoRefs(s.handles);
    assert fds[..0] == [];
    assert s.procs[child := s.procs[child].(fds := s.procs[child].fds)] == s.procs;
    for i := 0 to MAX_FDS
      invariant k.Valid() && fresh(k.Repr - old(k.Repr)) && k.Homes() == old(k.Homes()) && Shape(k.state)
      invariant k.state == SetProc(s, child, s.procs[child].(fds := k.state.procs[child].fds))
                             .(handles := AddRefs(s.handles, fds[..i]))
      invariant k.state.handles.Keys == s.handles.Keys
      invariant forall j :: 0 <= j < MAX_FDS ==> k.state.procs[child].fds[j] == if j < i then fds[j] else NULL
    {
      AddOneRef(s.handles, fds, i);
      ShareOne(k, child, fds, i);
    }
    assert fds[..MAX_FDS] == fds;
    assert k.state.procs[child].fds == fds;
  }

  /** One round of that loop. */
  method ShareOne(k: Kernel, child: int, fds: seq<int>, i: nat)
    requires k.Valid() && Shape(k.state) && IsPid(child) && |fds| == MAX_FDS && i < MAX_FDS
    requires fds[i] != NULL ==> fds[i] in k.state.handles
    modifies k.Repr
    ensures k.Valid() && fresh(k.Repr - old(k.Repr)) && k.Homes() == old(k.Homes())
    ensures fds[i] == NULL ==> k.state == old(k.state)
    ensures fds[i] != NULL ==>
      k.state == SetProc(old(k.state), child,
                         old(k.state).procs[child].(fds := old(k.state).procs[child].fds[i := fds[i]]))
                   .(handles := old(k.state).handles[fds[i] := old(k.state).handles[fds[i]]
                                  .(refcount := old(k.state).handles[fds[i]].refcount + 1)])
  {
    hide k.Valid;
    k.See();
    if fds[i] != NULL {
      k.SetSlot(child, k.slots[child].(fds := k.slots[child].fds[i := fds[i]]));
      k.See();
      k.SetHandles(k.handles[fds[i] := k.handles[fds[i]].(refcount := k.handles[fds[i]].refcount + 1)]);
    }
  }

  lemma AddNoRefs(handles: map<int, Handle>)
    ensures AddRefs(handles, []) == handles
  {
    forall h | h in handles ensures AddRefs(handles, [])[h] == handles[h] {
      assert multiset([])[h] == 0;
    }
  }

  lemma SlotsHold(s: State)
    requires Inv(s, multiset{}, s.current, NULL) && IsPid(s.current) && Live(s.procs[s.current])
    ensures |s.procs[s.current].fds| == MAX_FDS && NULL !in s.handles
    ensures forall i :: 0 <= i < MAX_FDS && s.procs[s.current].fds[i] != NULL ==> s.procs[s.current].fds[i] in s.handles
  {
    forall i | 0 <= i < MAX_FDS && s.procs[s.current].fds[i] != NULL ensures s.procs[s.current].fds[i] in s.handles {
      HandleExists(s, s.current, i);
    }
  }

  lemma AddOneRef(handles: map<int, Handle>, fds: seq<int>, i: nat)
    requires i < |fds| && NULL !in handles && (fds[i] != NULL ==> fds[i] in handles)
    ensures AddRefs(handles, fds[..i]).Keys == handles.Keys
    ensures var before := AddRefs(handles, fds[..i]);
      AddRefs(handles, fds[..i + 1]) ==
        if fds[i] == NULL then before else before[fds[i] := before[fds[i]].(refcount := before[fds[i]].refcount + 1)]
  {
    assert fds[..i + 1] == fds[..i] + [fds[i]];
  }
}
