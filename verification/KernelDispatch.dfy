/** The dispatcher of src/syscall.c and the context switch of src/process.c, which call each other. */
module KernelDispatch {
  import opened Bytes
  import opened ProcessState
  import opened ProcessInvariant
  import opened ProcessCalls
  import opened DescriptorCalls
  import opened Scheduler
  import opened KernelTable
  import opened MemoryChanges
  import opened KernelSteps
  import opened KernelCalls
  import opened KernelLives
  import SpaceLayout

  /** Only exit, kill and fork make or end processes. */
  lemma ExecLives(s: State, call: Call, r: Regs)
    requires Running(s, call) && Allowed(s, call) && !call.Exit? && !call.Kill? && !call.Fork?
    ensures Shape(s) && Shape(Exec(s, call, r).s)
    ensures forall i | IsPid(i) :: Live(Exec(s, call, r).s.procs[i]) == Live(s.procs[i])
  {
    hide Inv;
    ExecKeeps(s, call, r);
    InvShape(s);
    InvShapeAny(Exec(s, call, r).s, s.current);
    match call
    case Write(fd, data) => WriteLives(s, fd, data);
    case Close(fd) => CloseLives(s, fd);
    case Dup2(oldfd, newfd) => Dup2Lives(s, oldfd, newfd);
    case Send(to, tag, body) =>
      AllowedSendable(s, to, tag, body);
      SendLives(s, to, tag, body);
    case Read(fd, count, fileCount) =>
    case Receive(block) =>
    case Waitpid(pid) =>
    case MakePipe =>
    case Open(failure) =>
    case GetErrno =>
    case Brk(end) =>
    case Execve(failure, program, start) =>
    case Other(result) =>
  }

  lemma ExecHoused(spaces: SpaceLayout.SpaceMap, s: State, call: Call, r: Regs)
    requires Running(s, call) && Allowed(s, call) && !call.Exit? && !call.Kill? && !call.Fork?
    requires EachHoused(spaces, s)
    ensures Shape(Exec(s, call, r).s)
    ensures forall m: SpaceLayout.SpaceMap :: m.Keys == spaces.Keys ==> EachHoused(m, Exec(s, call, r).s)
  {
    hide Running;
    hide Allowed;
    hide Exec;
    ExecLives(s, call, r);
    assert forall p: int :: p in spaces <==> p in spaces.Keys;
  }

  lemma InvShapeAny(s: State, busy: int)
    requires Inv(s, multiset{}, busy, NULL)
    ensures Shape(s)
  {
  }

  lemma WriteLives(s: State, fd: int, data: seq<Byte>)
    requires Running(s, Write(fd, data))
    ensures |DoWrite(s, fd, data).s.procs| == MAX_PROCESSES
    ensures forall i | IsPid(i) :: Live(DoWrite(s, fd, data).s.procs[i]) == Live(s.procs[i])
  {
    hide Inv;
    InvShape(s);
    if IsFd(fd) && Me(s).fds[fd] != NULL { HandleExists(s, s.current, fd); }
  }

  lemma CloseLives(s: State, fd: int)
    requires Running(s, Close(fd))
    ensures Shape(s) && Shape(DoClose(s, fd).s)
    ensures forall i | IsPid(i) :: Live(DoClose(s, fd).s.procs[i]) == Live(s.procs[i])
  {
    hide Inv;
    hide CloseSlot;
    InvShape(s);
    if IsFd(fd) && Me(s).fds[fd] != NULL { CloseKeeps(s, s.current, fd); }
  }

  lemma Dup2Lives(s: State, oldfd: int, newfd: int)
    requires Running(s, Dup2(oldfd, newfd))
    ensures Shape(s) && Shape(DoDup2(s, oldfd, newfd).s)
    ensures forall i | IsPid(i) :: Live(DoDup2(s, oldfd, newfd).s.procs[i]) == Live(s.procs[i])
  {
    hide Inv;
    hide Vacate;
    InvShape(s);
    if IsFd(oldfd) && IsFd(newfd) && Me(s).fds[oldfd] != NULL { VacateKeeps(s, newfd); }
  }

  lemma SendLives(s: State, to: int, tag: int, body: seq<Byte>)
    requires Running(s, Send(to, tag, body)) && Sendable(s, to, body)
    ensures Shape(s) && |DoSend(s, to, tag, body).s.procs| == MAX_PROCESSES
    ensures forall i | IsPid(i) :: Live(DoSend(s, to, tag, body).s.procs[i]) == Live(s.procs[i])
  {
    hide Inv;
    InvShape(s);
  }

  method Dispatch(k: Kernel, call: Call, r: Regs) returns (res: int)
    requires k.Valid() && Housed(k) && Running(k.state, call) && Allowed(k.state, call)
    requires CanServe(k, call)
    modifies k.Repr
    ensures k.Valid() && fresh(k.Repr - old(k.Repr)) && Housed(k)
    ensures Outcome(k.state, res) == Exec(old(k.state), call, r)
    ensures Moved(call, old(k.state).current, res, old(k.Homes()), k.Homes())
  {
    hide k.Valid;
    hide Running;
    hide DoWrite;
    hide DoRead;
    hide DoSend;
    hide DoReceive;
    hide DoClose;
    hide DoPipe;
    hide DoDup2;
    hide DoFork;
    hide DoWaitpid;
    hide DoKill;
    hide DoOpen;
    hide DoExit;
    hide GivenUp;
    hide Copied;
    hide Lengthened;
    hide Reloaded;
    hide EachHoused;
    k.See();
    RunningShape(k.state, call);
    if !call.Exit? && !call.Kill? && !call.Fork? {
      ExecHoused(k.spaces.spaces, k.state, call, r);
    }
    match call {
      case Exit(status) => res := SyscallExit(k, status);
      case Write(fd, data) => res := SyscallWrite(k, fd, data);
      case Read(fd, count, fileCount) =>
        var bytes;
        res, bytes := SyscallRead(k, fd, count, fileCount);
      case Send(to, tag, body) => res := SyscallSend(k, to, tag, body);
      case Receive(block) =>
        var got;
        res, got := SyscallReceive(k, block);
      case Close(fd) => res := SyscallClose(k, fd);
      case MakePipe =>
        var readfd, writefd;
        res, readfd, writefd := SyscallPipe(k);
      case Dup2(oldfd, newfd) => res := SyscallDup2(k, oldfd, newfd);
      case Fork => res := SyscallFork(k, r);
      case Waitpid(pid) =>
        var status;
        res, status := SyscallWaitpid(k, pid);
      case Kill(p) => res := SyscallKill(k, p);
      case Open(failure) => res := SyscallOpen(k, failure);
      case GetErrno => res := k.slots[k.current].errno;
      case Brk(end) => res := SyscallBrk(k, end);
      case Execve(failure, program, start) => res := SyscallExecve(k, failure, program, start);
      case Other(result) => res := result;
    }
  }

  lemma RunningShape(s: State, call: Call)
    requires Running(s, call)
    ensures Shape(s) && IsPid(s.current)
  {
  }

  /** syscall: carry out the call in frame `r`, then go back to the caller or switch away. */
  method Syscall(k: Kernel, r: Regs) returns (r': Regs)
    requires k.Valid() && Housed(k) && Entering(k.state, r) && CanServe(k, r.call)
    modifies k.Repr
    ensures k.Valid() && fresh(k.Repr - old(k.Repr)) && Housed(k)
    ensures Shape(old(k.state)) && Shape(k.state) && Settled(k.state, r')
    ensures FramesKept(Enter(old(k.state), r.call), r, k.state, r')
    ensures Blocking(r.call) ==> SameLives(old(k.state), k.state)
    ensures Moved(r.call, old(k.state).current, Made(old(k.state), r).res, old(k.Homes()), k.Homes())
    ensures DoneAtOnce(old(k.state), r, k.state, r') && Served(old(k.state), r, k.state, r')
    decreases if k.state.procs[k.state.current].inCall.Idle? then 1 else 0, |Pending(k.state)|, 0
  {
    hide k.Valid;
    hide Housed;
    hide Inv;
    hide Running;
    hide Elsewhere;
    hide FramesKept;
    hide Moved;
    hide Exec;
    hide Pending;
    hide Returned;
    ghost var s := k.state;
    InvShape(s);
    EnterKeeps(s, r);
    var oldCurrent := EnterCall(k, r.call);
    ghost var e := k.state;
    assert e == Enter(s, r.call);
    ExecKeeps(e, r.call, r);
    var res := Dispatch(k, r.call, r);
    ghost var o := Outcome(k.state, res);
    EnteredLives(s, r);
    AfterShape(e, r.call, o);
    if res == -ESUSPEND {
      SuspendedSwitches(e, r, o);
      if s.procs[s.current].inCall.In? {
        ReEnter(s, r.call);
        PendingShrinks(e, o.s);
      }
      r' := ContextSwitch(k, r);
      assert Served(s, r, k.state, r');
      FramesThrough(e, o.s, r, k.state, r');
    } else {
      LeaveKeeps(o.s, r.call, o.res);
      LeaveLives(o.s, r.call, o.res);
      ReturnedHere(e, r.call, r);
      LeaveCall(k, oldCurrent, r.call, res);
      r' := Onward(r.call, r).(eax := Shown(res));
      LeaveAnswers(o, r);
      FramesLeave(e, o.s, r, r.call, res);
    }
  }

  /** A change of a process structure that neither makes nor ends a process. */
  method SetField(k: Kernel, p: int, x: Slot)
    requires k.Valid() && Housed(k) && Shape(k.state) && IsPid(p) && |x.fds| == MAX_FDS
    requires x.used == k.state.procs[p].used && x.exited == k.state.procs[p].exited
    modifies k.Repr
    ensures k.Valid() && fresh(k.Repr - old(k.Repr)) && Housed(k) && k.Homes() == old(k.Homes())
    ensures k.state == SetProc(old(k.state), p, Filled(old(k.state).procs[p], x))
  {
    hide k.Valid;
    k.SetSlot(p, x);
  }

  /** in_syscall is set. */
  method EnterCall(k: Kernel, call: Call) returns (current: int)
    requires k.Valid() && Housed(k) && Shape(k.state) && IsPid(k.state.current)
    modifies k.Repr
    ensures k.Valid() && fresh(k.Repr - old(k.Repr)) && Housed(k)
    ensures k.state == Enter(old(k.state), call) && current == k.state.current && k.Homes() == old(k.Homes())
    ensures CanServe(k, call) == old(CanServe(k, call))
  {
    hide k.Valid;
    hide Housed;
    hide Affordable;
    k.See();
    current := k.current;
    SetField(k, k.current, k.slots[k.current].(inCall := In(call)));
    k.See();
  }

  /** errno and in_syscall when a call is over. The caller is still the current process, so there is
      no further switch. */
  method LeaveCall(k: Kernel, oldCurrent: int, call: Call, res: int)
    requires k.Valid() && Housed(k) && Shape(k.state) && IsPid(k.state.current) && oldCurrent == k.state.current
    modifies k.Repr
    ensures k.Valid() && fresh(k.Repr - old(k.Repr)) && Housed(k)
    ensures k.state == Leave(old(k.state), call, res) && k.Homes() == old(k.Homes())
  {
    hide k.Valid;
    hide Housed;
    k.See();
    if !call.GetErrno? {
      SetField(k, k.current, k.slots[k.current].(errno := if res < 0 then -res else 0));
      k.See();
    }
    SetField(k, oldCurrent, k.slots[oldCurrent].(inCall := Idle));
  }

  /** context_switch: save frame `r`, pick the next ready process and load its frame; a call the
      process was left in is executed again at once. */
  method ContextSwitch(k: Kernel, r: Regs) returns (r': Regs)
    requires k.Valid() && Housed(k) && Switching(k.state, r)
    modifies k.Repr
    ensures k.Valid() && fresh(k.Repr - old(k.Repr)) && Housed(k)
    ensures Shape(old(k.state)) && Shape(k.state) && Settled(k.state, r')
    ensures FramesKept(old(k.state), r, k.state, r') && SameLives(old(k.state), k.state)
    ensures Pending(old(k.state)) == {} ==> Rotated(old(k.state), r, k.state, r')
    ensures Switched(old(k.state), r, k.state, r') && k.Homes() == old(k.Homes())
    decreases 0, |Pending(k.state)|, 1
  {
    hide k.Valid;
    hide Housed;
    hide Inv;
    hide FramesKept;
    hide SameFrames;
    hide SameLives;
    hide Entering;
    hide Stable;
    hide Pending;
    hide Returned;
    hide Next;
    ghost var s := k.state;
    SaveKeeps(s, r);
    NullNotReady(Save(s, r));
    ChooseNext(k, r);
    ghost var mid := k.state;
    CurrentFree(Save(s, r), mid.current);
    k.See();
    if k.current != NULL {
      Picked(mid, mid.current);
      r' := k.slots[k.current].regs;
      SavedFrames(s, r, mid.current, r');
      ghost var loaded := r';
      if k.slots[k.current].inCall.In? {
        ReEnter(mid, mid.procs[mid.current].inCall.call);
        PickedCall(mid, mid.current);
        PendingHas(mid, mid.current);
        r' := Syscall(k, r');
      }
      FramesAfterSame(s, r, mid, loaded, k.state, r');
    } else {
      r' := IDLE;
      IdleStable(mid);
      SavedFrames(s, r, mid.current, r');
      FramesAfterSame(s, r, mid, r', k.state, r');
    }
  }

  lemma PendingHas(s: State, p: int)
    requires Shape(s) && IsPid(p) && Live(s.procs[p]) && s.procs[p].ready && s.procs[p].inCall.In?
    ensures p in Pending(s)
  {
  }

  /** Save the frame of the process being left, and follow the links of the ready list. */
  method ChooseNext(k: Kernel, r: Regs)
    requires k.Valid() && Housed(k) && Switching(k.state, r)
    modifies k.Repr
    ensures k.Valid() && fresh(k.Repr - old(k.Repr)) && Housed(k)
    ensures Shape(old(k.state)) && Shape(k.state) && k.Homes() == old(k.Homes())
    ensures k.state == Save(old(k.state), r).(current := Next(old(k.state).ready, Save(old(k.state), r).current))
  {
    hide k.Valid;
    hide Inv;
    hide Next;
    hide EachHoused;
    hide Switching;
    ghost var s := k.state;
    SwitchShape(s, r);
    SaveKeeps(s, r);
    SavedListed(s, r);
    k.See();
    if k.current != NULL {
      SetField(k, k.current, k.slots[k.current].(regs := r));
      k.See();
      if !k.slots[k.current].ready { k.SetCurrent(NULL); }
    }
    assert k.state == Save(s, r);
    k.ChooseCurrent();
    SaveHoused(k.spaces.spaces, s, r, k.state);
  }

  lemma SwitchShape(s: State, r: Regs)
    requires Switching(s, r)
    ensures Shape(s) && (s.current == NULL || IsPid(s.current))
  {
  }

  lemma SaveHoused(spaces: SpaceLayout.SpaceMap, s: State, r: Regs, t: State)
    requires Shape(s) && (s.current == NULL || IsPid(s.current)) && EachHoused(spaces, s)
    requires t == Save(s, r).(current := t.current)
    ensures EachHoused(spaces, t)
  {
  }

  lemma SavedListed(s: State, r: Regs)
    requires Switching(s, r) && Shape(s)
    ensures Save(s, r).current == NULL || Save(s, r).current in Save(s, r).ready
  {
    SaveKeeps(s, r);
  }
}
