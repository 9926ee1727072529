/** src/process.c, src/pipe.c and src/filedesc.c on the kernel's data, in the order of the code. Each
    method is tied to the function of `ProcessState` that says what it is for. */
module KernelSteps {
  import opened Bytes
  import opened ProcessState
  import opened ProcessSteps
  import opened Commuting
  import opened Filing
  import opened KernelTable
  import opened MemoryChanges
  import SpaceLayout

  /** The address spaces are those of the live processes. */
  ghost predicate Housed(k: Kernel)
    reads k, k.Repr, k.store, k.spaces
  {
    EachHoused(k.spaces.spaces, k.state)
  }

  ghost predicate EachHoused(spaces: SpaceLayout.SpaceMap, s: State) {
    forall p: int :: p in spaces <==> IsPid(p) && |s.procs| == MAX_PROCESSES && Live(s.procs[p])
  }

  method WakeUpReader(k: Kernel, q: int, ghost gone: int)
    requires k.Valid() && Wakeable(k.state, q) && Filed(k.state, gone)
    modifies k.Repr
    ensures k.Valid() && fresh(k.Repr - old(k.Repr)) && k.Homes() == old(k.Homes())
    ensures k.state == WakeReader(old(k.state), q)
  {
    hide k.Valid;
    hide Filed;
    k.See();
    k.SeePipe(q);
    WakeReaderFiled(k.state, q, gone);
    var b := k.store.buffers[q];
    if 0 <= b.readpid {
      k.ResumeProcess(b.readpid);
      k.SetReader(q, NULL);
    }
  }

  method WriteToPipe(k: Kernel, q: int, data: seq<Byte>, ghost gone: int)
    requires k.Valid() && Wakeable(k.state, q) && Filed(k.state, gone)
    requires |k.state.pipes[q].data| + |data| < PIPE_LIMIT
    modifies k.Repr
    ensures k.Valid() && fresh(k.Repr - old(k.Repr)) && k.Homes() == old(k.Homes())
    ensures k.state == WritePipe(old(k.state), q, data)
  {
    hide k.Valid;
    hide Filed;
    hide WakeReader;
    FiledShape(k.state, gone);
    AppendFiled(k.state, q, data, gone);
    k.AppendPipe(q, data);
    WakeUpReader(k, q, gone);
  }

  lemma AppendFiled(s: State, q: int, data: seq<Byte>, gone: int)
    requires Filed(s, gone) && Shape(s) && Wakeable(s, q)
    ensures var t := s.(pipes := s.pipes[q := Append(s.pipes[q], data)]); Filed(t, gone) && Wakeable(t, q)
  {
  }

  /** The pipe goes exactly when both its ends are closed, and its buffer with it. */
  method CheckBufferFree(k: Kernel, q: int)
    requires k.Valid() && q in k.state.pipes
    requires !k.state.pipes[q].reading && !k.state.pipes[q].writing ==> k.state.pipes[q].readpid == NULL
    modifies k.Repr
    ensures k.Valid() && fresh(k.Repr - old(k.Repr)) && k.Homes() == old(k.Homes())
    ensures k.state == CheckFree(old(k.state), q)
    ensures q in k.store.buffers <==> old(k.state).pipes[q].reading || old(k.state).pipes[q].writing
  {
    hide k.Valid;
    k.See();
    k.SeePipe(q);
    var b := k.store.buffers[q];
    if !b.reading && !b.writing {
      assert b.readpid == NULL;
      k.FreePipe(q);
    }
    k.SeeNames();
  }

  /** The destroy function of a handle whose last reference is gone. */
  method DestroyHandle(k: Kernel, h: int, ghost gone: int)
    requires k.Valid() && Droppable(k.state, h) && k.state.handles[h].refcount == 1 && Filed(k.state, gone)
    modifies k.Repr
    ensures k.Valid() && fresh(k.Repr - old(k.Repr)) && k.Homes() == old(k.Homes())
    ensures k.state == Destroy(old(k.state), h)
  {
    hide k.Valid;
    hide Filed;
    hide WakeReader;
    k.See();
    match k.handles[h].kind {
      case Reader(q) =>
        k.SeePipe(q);
        assert k.store.buffers[q].reading;
        k.ShutReading(q);
        CheckBufferFree(k, q);
      case Writer(q) =>
        k.SeePipe(q);
        assert k.store.buffers[q].writing;
        ShutFiled(k.state, q, gone);
        k.ShutWriting(q);
        WakeUpReader(k, q, gone);
        CheckBufferFree(k, q);
      case Screen =>
      case Plain =>
    }
    k.See();
    k.SetHandles(k.handles - {h});
  }

  lemma ShutFiled(s: State, q: int, gone: int)
    requires Filed(s, gone) && Shape(s) && Wakeable(s, q) && s.pipes[q].readpid >= NULL
    ensures var t := s.(pipes := s.pipes[q := s.pipes[q].(writing := false)]);
      Filed(t, gone) && Wakeable(t, q) && q in WakeReader(t, q).pipes && WakeReader(t, q).pipes[q].readpid == NULL
  {
  }

  method CloseFilehandle(k: Kernel, h: int, ghost gone: int)
    requires k.Valid() && Droppable(k.state, h) && Filed(k.state, gone)
    modifies k.Repr
    ensures k.Valid() && fresh(k.Repr - old(k.Repr)) && k.Homes() == old(k.Homes())
    ensures k.state == Drop(old(k.state), h)
  {
    hide k.Valid;
    hide Filed;
    hide Destroy;
    k.See();
    assert 1 <= k.handles[h].refcount;
    if k.handles[h].refcount == 1 {
      DestroyHandle(k, h, gone);
    } else {
      k.SetHandles(k.handles[h := k.handles[h].(refcount := k.handles[h].refcount - 1)]);
    }
  }

  /** The closing loop of kill_process. */
  method CloseAll(k: Kernel, fds: seq<int>, ghost gone: int)
    requires k.Valid() && AllDroppable(k.state, fds) && Filed(k.state, gone)
    modifies k.Repr
    ensures k.Valid() && fresh(k.Repr - old(k.Repr)) && k.Homes() == old(k.Homes())
    ensures k.state == DropAll(old(k.state), fds) && Filed(k.state, gone)
  {
    hide k.Valid;
    hide Filed;
    hide Drop;
    hide Droppable;
    FiledShape(k.state, gone);
    for i := 0 to |fds|
      invariant k.Valid() && fresh(k.Repr - old(k.Repr)) && k.Homes() == old(k.Homes())
      invariant Shape(k.state) && Filed(k.state, gone) && AllDroppable(k.state, fds[i..])
      invariant DropAll(k.state, fds[i..]) == DropAll(old(k.state), fds)
    {
      if fds[i] != NULL {
        DropFiled(k.state, fds[i], gone);
        CloseFilehandle(k, fds[i], gone);
      }
    }
  }

  lemma FiledShape(s: State, gone: int)
    requires Filed(s, gone)
    ensures Shape(s)
  {
  }

  /** The children of a dead process lose their parent. */
  method Disown(k: Kernel, p: int)
    requires k.Valid()
    modifies k.Repr
    ensures k.Valid() && fresh(k.Repr - old(k.Repr)) && k.Homes() == old(k.Homes())
    ensures k.state == Orphaned(old(k.state), p, MAX_PROCESSES)
  {
    hide k.Valid;
    hide Orphaned;
    k.See();
    OrphanNone(k.state, p);
    for child := 0 to MAX_PROCESSES
      invariant k.Valid() && fresh(k.Repr - old(k.Repr)) && k.Homes() == old(k.Homes())
      invariant k.state == Orphaned(old(k.state), p, child)
    {
      k.See();
      OrphanOne(old(k.state), p, child);
      if k.slots[child].parent == p {
        k.SetSlot(child, k.slots[child].(parent := NULL));
      }
    }
  }

  /** The children of `p` among the first `n` processes have no parent. */
  function Orphaned(s: State, p: int, n: nat): (t: State)
    requires Shape(s)
    ensures Shape(t)
  {
    s.(procs := seq(MAX_PROCESSES, i requires 0 <= i < MAX_PROCESSES =>
      if i < n && s.procs[i].parent == p then s.procs[i].(parent := NULL) else s.procs[i]))
  }

  lemma OrphanNone(s: State, p: int)
    requires Shape(s)
    ensures Orphaned(s, p, 0) == s
  {
  }

  lemma OrphanOne(s: State, p: int, n: nat)
    requires Shape(s) && n < MAX_PROCESSES
    ensures var t := Orphaned(s, p, n);
      Orphaned(s, p, n + 1) == if t.procs[n].parent == p then SetProc(t, n, t.procs[n].(parent := NULL)) else t
  {
  }

  /** A dying process without a parent frees its slot; otherwise the parent is told. */
  method TellParent(k: Kernel, p: int)
    requires k.Valid() && IsPid(p) && Shape(k.state) && Filed(k.state, p) && Survived(k.state, p)
    modifies k.Repr
    ensures k.Valid() && fresh(k.Repr - old(k.Repr)) && k.Homes() == old(k.Homes())
    ensures k.state == Told(old(k.state), p, old(k.state).procs[p].parent)
  {
    hide k.Valid;
    hide Filed;
    hide Without;
    k.See();
    ghost var s := k.state;
    var parent := k.slots[p].parent;
    if parent == NULL {
      k.SetSlot(p, k.slots[p].(used := false));
    } else if IsPid(parent) && k.slots[parent].inCall.In? && k.slots[parent].inCall.call.Waitpid?
          && k.slots[parent].waitingOn == p {
      FiledWhere(k.state, p, parent);
      k.SetSlot(parent, k.slots[parent].(waitingOn := NULL));
      k.ResumeProcess(parent);
    }
  }

  /** A parent that waits for `p` lives and sleeps. */
  ghost predicate Survived(s: State, p: int)
    requires Shape(s) && IsPid(p)
  {
    var parent := s.procs[p].parent;
    parent != p && (AwaitedBy(s, p, parent) ==> Live(s.procs[parent]) && !s.procs[parent].ready)
  }

  method MarkDead(k: Kernel, p: int)
    requires k.Valid() && IsPid(p) && Shape(k.state)
    modifies k.Repr
    ensures k.Valid() && fresh(k.Repr - old(k.Repr)) && k.Homes() == old(k.Homes())
    ensures k.state == SetProc(old(k.state), p, old(k.state).procs[p].(exited := true))
  {
    hide k.Valid;
    k.See();
    k.SetSlot(p, k.slots[p].(exited := true));
  }

  /** kill_process, in the kernel's order: off the list, descriptors, memory, children, parent, and
      only then is the process marked dead. */
  method KillProc(k: Kernel, p: int)
    requires k.Valid() && Killable(k.state, p) && Mortal(k.state, p) && p in k.spaces.spaces
    modifies k.Repr
    ensures k.Valid() && fresh(k.Repr - old(k.Repr))
    ensures k.state == KillProcess(old(k.state), p)
    ensures GivenUp(old(k.Homes()), k.Homes(), p)
  {
    hide k.Valid;
    hide AllDroppable;
    hide DropAll;
    hide Alike;
    hide OnlyWoken;
    hide Bury;
    hide Without;
    hide Notify;
    hide Filed;
    hide Killable;
    hide KillProcess;
    hide Told;
    hide Orphaned;
    ghost var s := k.state;
    KillInOrder(s, p);
    UnlistFiled(s, p);
    FiledWhere(s, NULL, p);
    k.See();
    if k.current == p { k.SetCurrent(NULL); }
    k.Unlist(p);
    assert k.state == Unlist(s, p);
    k.See();
    CloseAll(k, k.slots[p].fds, p);
    ghost var u := k.state;
    k.LeaveSpace(p);
    Disown(k, p);
    Disowned(s, u, k.state, p);
    TellParent(k, p);
    MarkDead(k, p);
  }

  /** What kill_process relies on besides its asserts: the process lives and is not remembered as
      a reader, and so does its parent, which is another process. */
  ghost predicate Mortal(s: State, p: int) {
    && Filed(s, NULL) && IsPid(p) && Live(s.procs[p])
    && (forall q :: q in s.pipes ==> s.pipes[q].readpid != p)
    && s.procs[p].parent != p && (IsPid(s.procs[p].parent) ==> Live(s.procs[s.procs[p].parent]))
  }

  /** The last part of `KillProcess`. */
  ghost function Told(t: State, p: int, parent: int): (u: State)
    requires Shape(t) && IsPid(p)
    requires AwaitedBy(t, p, parent) ==> t.procs[parent].used && !t.procs[parent].ready
    ensures Shape(u)
  {
    if parent == NULL then SetProc(t, p, t.procs[p].(used := false)) else Notify(t, p, parent)
  }

  /** The parent may be told before or after the process is marked dead. */
  lemma ToldThenMarked(t: State, p: int, parent: int)
    requires Shape(t) && IsPid(p) && parent != p
    requires AwaitedBy(t, p, parent) ==> t.procs[parent].used && !t.procs[parent].ready
    ensures var u := Told(t, p, parent);
      SetProc(u, p, u.procs[p].(exited := true)) == Told(SetProc(t, p, t.procs[p].(exited := true)), p, parent)
  {
    hide Without;
    var u, v := Told(t, p, parent), Told(SetProc(t, p, t.procs[p].(exited := true)), p, parent);
    assert u.procs[p := u.procs[p].(exited := true)] == v.procs;
  }

  /** With the children disowned, what remains to be done leads to the state that `KillProcess`
      describes. */
  lemma Disowned(s: State, u: State, d: State, p: int)
    requires Killable(s, p) && Mortal(s, p) && AllDroppable(Unlist(s, p), s.procs[p].fds)
    requires u == DropAll(Unlist(s, p), s.procs[p].fds) && d == Orphaned(u, p, MAX_PROCESSES) && Filed(u, p)
    requires Alike(DropAll(Bury(s, p), s.procs[p].fds), u) && OnlyWoken(Unlist(s, p), u)
    requires OnlyWoken(Bury(s, p), DropAll(Bury(s, p), s.procs[p].fds))
    ensures d.procs[p].parent == s.procs[p].parent && Survived(d, p) && Filed(d, p)
    ensures var v := Told(d, p, s.procs[p].parent); SetProc(v, p, v.procs[p].(exited := true)) == KillProcess(s, p)
  {
    hide AllDroppable;
    hide DropAll;
    hide Bury;
    hide OnlyWoken;
    hide Alike;
    hide Notify;
    hide Filed;
    hide Told;
    hide Orphaned;
    var t := DropAll(Bury(s, p), s.procs[p].fds);
    OrphanedIs(u, p);
    OrphanedFiled(u, p);
    MarkedDead(s, u, d, t, p);
    ParentLives(s, u, d, p);
    AwaitedStill(d, p);
    ToldThenMarked(d, p, s.procs[p].parent);
    assert Told(t, p, s.procs[p].parent) == KillProcess(s, p) by { ToldIs(s, p); }
  }

  lemma ToldIs(s: State, p: int)
    requires Killable(s, p)
    ensures Told(DropAll(Bury(s, p), s.procs[p].fds), p, s.procs[p].parent) == KillProcess(s, p)
  {
    hide AllDroppable;
    hide DropAll;
    hide Bury;
    hide Notify;
  }

  lemma AwaitedStill(d: State, p: int)
    requires Shape(d) && IsPid(p) && d.procs[p].parent != p
    ensures AwaitedBy(SetProc(d, p, d.procs[p].(exited := true)), p, d.procs[p].parent) <==>
              AwaitedBy(d, p, d.procs[p].parent)
  {
  }

  lemma ParentLives(s: State, u: State, d: State, p: int)
    requires Shape(s) && Shape(d) && |u.procs| == MAX_PROCESSES && Mortal(s, p) && OnlyWoken(Unlist(s, p), u)
    requires forall i :: 0 <= i < MAX_PROCESSES ==>
               d.procs[i] == if u.procs[i].parent == p then u.procs[i].(parent := NULL) else u.procs[i]
    ensures IsPid(s.procs[p].parent) ==> Live(d.procs[s.procs[p].parent])
  {
    hide Filed;
  }

  lemma OrphanedIs(u: State, p: int)
    requires Shape(u)
    ensures var d := Orphaned(u, p, MAX_PROCESSES);
      && d == u.(procs := d.procs)
      && forall i :: 0 <= i < MAX_PROCESSES ==>
           d.procs[i] == if u.procs[i].parent == p then u.procs[i].(parent := NULL) else u.procs[i]
  {
  }

  lemma OrphanedFiled(u: State, p: int)
    requires Filed(u, p)
    ensures Filed(Orphaned(u, p, MAX_PROCESSES), p)
  {
  }

  lemma MarkedDead(s: State, u: State, d: State, t: State, p: int)
    requires Shape(s) && IsPid(p) && s.procs[p].parent != p
    requires |d.procs| == |u.procs| == MAX_PROCESSES && d == u.(procs := d.procs)
    requires forall i :: 0 <= i < MAX_PROCESSES ==>
               d.procs[i] == if u.procs[i].parent == p then u.procs[i].(parent := NULL) else u.procs[i]
    requires Alike(t, u) && OnlyWoken(Unlist(s, p), u) && OnlyWoken(Bury(s, p), t)
    ensures Shape(d) && d.procs[p].parent == s.procs[p].parent && t == SetProc(d, p, d.procs[p].(exited := true))
  {
  }
}
