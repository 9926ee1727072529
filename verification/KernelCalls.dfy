/** The system calls as src/syscall.c, src/unixproc.c, src/pipe.c, src/filedesc.c and src/fscalls.c
    carry them out on the kernel's data. */
module KernelCalls {
  import opened Bytes
  import opened ProcessState
  import opened ProcessInvariant
  import opened ProcessSteps
  import opened ProcessCalls
  import opened DescriptorCalls
  import opened Commuting
  import opened Filing
  import opened KernelTable
  import opened KernelSteps

  method SyscallWrite(k: Kernel, fd: int, data: seq<Byte>) returns (res: int)
    requires k.Valid() && Running(k.state, Write(fd, data)) && Allowed(k.state, Write(fd, data))
    modifies k.Repr
    ensures k.Valid() && fresh(k.Repr - old(k.Repr)) && k.Homes() == old(k.Homes())
    ensures Outcome(k.state, res) == DoWrite(old(k.state), fd, data)
  {
    hide k.Valid;
    hide Inv;
    hide Filed;
    ghost var s := k.state;
    InvShape(s);
    InvFiled(s, multiset{}, s.current, NULL);
    k.See();
    var me := k.slots[k.current];
    if fd < 0 || MAX_FDS <= fd || me.fds[fd] == NULL {
      return -EBADF;
    }
    HandleExists(s, s.current, fd);
    match k.handles[me.fds[fd]].kind {
      case Screen => res := |data|;
      case Reader(_) => res := -EINVAL;
      case Plain => res := -EBADF;
      case Writer(q) =>
        WriterIn(s, me.fds[fd], data);
        WriteToPipe(k, q, data, NULL);
        res := |data|;
    }
  }

  method SyscallRead(k: Kernel, fd: int, count: nat, fileCount: nat) returns (res: int, bytes: seq<Byte>)
    requires k.Valid() && Running(k.state, Read(fd, count, fileCount))
    modifies k.Repr
    ensures k.Valid() && fresh(k.Repr - old(k.Repr)) && k.Homes() == old(k.Homes())
    ensures Outcome(k.state, res) == DoRead(old(k.state), fd, count, fileCount)
    ensures forall q :: q in k.state.pipes && q in old(k.state).pipes ==>
              k.state.pipes[q].taken == old(k.state).pipes[q].taken
              || k.state.pipes[q].taken == old(k.state).pipes[q].taken + bytes
  {
    hide k.Valid;
    hide Inv;
    hide Filed;
    ghost var s := k.state;
    InvShape(s);
    InvFiled(s, multiset{}, s.current, NULL);
    k.See();
    var me := k.slots[k.current];
    bytes := [];
    if fd < 0 || MAX_FDS <= fd || me.fds[fd] == NULL {
      return -EBADF, bytes;
    }
    HandleExists(s, s.current, fd);
    match k.handles[me.fds[fd]].kind {
      case Screen => res := -EINVAL;
      case Writer(_) => res := -EINVAL;
      case Plain => res := fileCount;
      case Reader(q) =>
        ReaderIn(s, me.fds[fd]);
        k.SeePipe(q);
        var b := k.store.buffers[q];
        if b.readpid != NULL {
          res := -EBADF;
        } else if b.len > 0 {
          bytes := k.TakePipe(q, count);
          res := |bytes|;
        } else if !b.writing {
          res := 0;
        } else {
          FiledWhere(s, NULL, s.current);
          k.SetReader(q, k.current);
          k.See();
          k.SuspendProcess(k.current);
          res := -ESUSPEND;
        }
    }
  }

  method SyscallSend(k: Kernel, to: int, tag: int, body: seq<Byte>) returns (res: int)
    requires k.Valid() && Running(k.state, Send(to, tag, body)) && Allowed(k.state, Send(to, tag, body))
    modifies k.Repr
    ensures k.Valid() && fresh(k.Repr - old(k.Repr)) && k.Homes() == old(k.Homes())
    ensures Sendable(old(k.state), to, body)
    ensures Outcome(k.state, res) == DoSend(old(k.state), to, tag, body)
  {
    hide k.Valid;
    hide Inv;
    hide Filed;
    ghost var s := k.state;
    InvShape(s);
    InvFiled(s, multiset{}, s.current, NULL);
    k.See();
    AllowedSendable(s, to, tag, body);
    if to < 0 || MAX_PROCESSES <= to || !k.slots[to].used {
      return -ESRCH;
    }
    if MAX_MESSAGE_SIZE < |body| {
      return -EINVAL;
    }
    var ok := k.PutMail(to, Message(k.current, tag, body));
    if !ok {
      return -ENOMEM;
    }
    k.See();
    if k.slots[to].blocked {
      FiledWhere(s, NULL, to);
      k.ResumeProcess(to);
      k.See();
      k.SetSlot(to, k.slots[to].(blocked := false));
    }
    res := 0;
  }

  method SyscallReceive(k: Kernel, block: bool) returns (res: int, got: seq<Message>)
    requires k.Valid() && Running(k.state, Receive(block))
    modifies k.Repr
    ensures k.Valid() && fresh(k.Repr - old(k.Repr)) && k.Homes() == old(k.Homes())
    ensures Outcome(k.state, res) == DoReceive(old(k.state), block)
    ensures |got| == if res == 0 then 1 else 0
    ensures Shape(old(k.state)) && Shape(k.state)
    ensures var p := old(k.state).current; k.state.procs[p].received == old(k.state).procs[p].received + got
  {
    hide k.Valid;
    hide Inv;
    hide Filed;
    ghost var s := k.state;
    InvShape(s);
    InvFiled(s, multiset{}, s.current, NULL);
    k.See();
    k.SeeMail(k.current);
    got := [];
    if k.mail.sizes[k.current] > 0 {
      var msg := k.TakeMail(k.current);
      got := [msg];
      res := 0;
    } else if block {
      FiledWhere(s, NULL, s.current);
      k.SetSlot(k.current, k.slots[k.current].(blocked := true));
      k.See();
      k.SuspendProcess(k.current);
      res := -ESUSPEND;
    } else {
      res := -EAGAIN;
    }
  }

  method SyscallWaitpid(k: Kernel, pid: int) returns (res: int, status: int)
    requires k.Valid() && Running(k.state, Waitpid(pid))
    modifies k.Repr
    ensures k.Valid() && fresh(k.Repr - old(k.Repr)) && k.Homes() == old(k.Homes())
    ensures Outcome(k.state, res) == DoWaitpid(old(k.state), pid)
    ensures res >= 0 ==> Shape(old(k.state)) && IsPid(pid) && status == old(k.state).procs[pid].status
  {
    hide k.Valid;
    hide Inv;
    hide Filed;
    ghost var s := k.state;
    InvShape(s);
    InvFiled(s, multiset{}, s.current, NULL);
    status := 0;
    k.See();
    FiledWhere(s, NULL, s.current);
    if pid < 0 || MAX_PROCESSES <= pid {
      return -ECHILD, status;
    }
    k.SetSlot(k.current, k.slots[k.current].(waitingOn := NULL));
    k.See();
    if !k.slots[pid].used || k.slots[pid].parent != k.current {
      return -ECHILD, status;
    }
    if k.slots[pid].exited {
      status := k.slots[pid].status;
      k.SetSlot(pid, k.slots[pid].(used := false));
      res := pid;
    } else {
      k.SetSlot(k.current, k.slots[k.current].(waitingOn := pid));
      k.See();
      k.SuspendProcess(k.current);
      res := -ESUSPEND;
    }
  }

  // ----- descriptors -----

  /** Close a slot of the running process: the handle first, then the slot. */
  method CloseDescriptor(k: Kernel, fd: int)
    requires k.Valid() && Inv(k.state, multiset{}, k.state.current, NULL) && IsPid(k.state.current) && IsFd(fd)
    requires Live(Me(k.state)) && Me(k.state).ready && Me(k.state).fds[fd] != NULL
    modifies k.Repr
    ensures k.Valid() && fresh(k.Repr - old(k.Repr)) && k.Homes() == old(k.Homes())
    ensures k.state == CloseSlot(old(k.state), old(k.state).current, fd)
  {
    hide Drop;
    hide Droppable;
    hide k.Valid;
    hide Inv;
    hide Filed;
    ghost var s := k.state;
    InvShape(s);
    InvFiled(s, multiset{}, s.current, NULL);
    k.See();
    DropCleared(s, s.current, fd);
    ClearAfterDrop(s, s.current, fd, s.procs[s.current].fds[fd]);
    DropOnlyWakes(s, s.procs[s.current].fds[fd]);
    CloseFilehandle(k, k.slots[k.current].fds[fd], NULL);
    k.See();
    k.SetSlot(k.current, k.slots[k.current].(fds := k.slots[k.current].fds[fd := NULL]));
  }

  method SyscallClose(k: Kernel, fd: int) returns (res: int)
    requires k.Valid() && Running(k.state, Close(fd))
    modifies k.Repr
    ensures k.Valid() && fresh(k.Repr - old(k.Repr)) && k.Homes() == old(k.Homes())
    ensures Outcome(k.state, res) == DoClose(old(k.state), fd)
  {
    hide CloseSlot;
    hide k.Valid;
    hide Inv;
    hide Filed;
    ghost var s := k.state;
    InvShape(s);
    InvFiled(s, multiset{}, s.current, NULL);
    k.See();
    if fd < 0 || MAX_FDS <= fd || k.slots[k.current].fds[fd] == NULL {
      return -EBADF;
    }
    CloseDescriptor(k, fd);
    res := 0;
  }

  method SyscallDup2(k: Kernel, oldfd: int, newfd: int) returns (res: int)
    requires k.Valid() && Running(k.state, Dup2(oldfd, newfd))
    modifies k.Repr
    ensures k.Valid() && fresh(k.Repr - old(k.Repr)) && k.Homes() == old(k.Homes())
    ensures Outcome(k.state, res) == DoDup2(old(k.state), oldfd, newfd)
  {
    hide CloseSlot;
    hide k.Valid;
    hide Inv;
    hide Filed;
    ghost var s := k.state;
    InvShape(s);
    InvFiled(s, multiset{}, s.current, NULL);
    k.See();
    if oldfd < 0 || MAX_FDS <= oldfd || newfd < 0 || MAX_FDS <= newfd {
      return -EBADF;
    }
    var fh := k.slots[k.current].fds[oldfd];
    if fh == NULL {
      return -EBADF;
    }
    if oldfd == newfd {
      return newfd;
    }
    VacateKeeps(s, newfd);
    if k.slots[k.current].fds[newfd] != NULL {
      CloseDescriptor(k, newfd);
    }
    ghost var t := k.state;
    HandleExists(t, t.current, oldfd);
    k.See();
    k.SetSlot(k.current, k.slots[k.current].(fds := k.slots[k.current].fds[newfd := fh]));
    k.See();
    k.SetHandles(k.handles[fh := k.handles[fh].(refcount := k.handles[fh].refcount + 1)]);
    res := newfd;
  }

  /** The first free slot, or MAX_FDS. */
  method FindFd(fds: seq<int>) returns (fd: nat)
    requires |fds| == MAX_FDS
    ensures fd == FreeFd(fds, 0)
  {
    fd := 0;
    while fd < MAX_FDS && fds[fd] != NULL
      invariant fd <= MAX_FDS && FreeFd(fds, 0) == FreeFd(fds, fd)
    {
      fd := fd + 1;
    }
  }

  /** `failure` stands for what the path lookup and the type checks find wrong, 0 for nothing. */
  method SyscallOpen(k: Kernel, failure: nat) returns (res: int)
    requires k.Valid() && Running(k.state, Open(failure))
    modifies k.Repr
    ensures k.Valid() && fresh(k.Repr - old(k.Repr)) && k.Homes() == old(k.Homes())
    ensures Outcome(k.state, res) == DoOpen(old(k.state), failure)
  {
    hide k.Valid;
    hide Inv;
    hide Filed;
    ghost var s := k.state;
    InvShape(s);
    InvFiled(s, multiset{}, s.current, NULL);
    k.See();
    var fd := FindFd(k.slots[k.current].fds);
    if fd == MAX_FDS {
      return -EMFILE;
    }
    if failure != 0 {
      return 0 - failure;
    }
    var h := k.NewName();
    k.See();
    k.SetHandles(k.handles[h := Handle(Plain, 1)]);
    k.See();
    k.SetSlot(k.current, k.slots[k.current].(fds := k.slots[k.current].fds[fd := h]));
    res := fd;
  }

  /** The first two free slots, -1 for those that are not there. */
  method FindTwoFds(fds: seq<int>) returns (readfd: int, writefd: int)
    requires |fds| == MAX_FDS
    ensures readfd == if FreeFd(fds, 0) == MAX_FDS then -1 else FreeFd(fds, 0)
    ensures writefd == if readfd < 0 || FreeFd(fds, readfd + 1) == MAX_FDS then -1 else FreeFd(fds, readfd + 1)
  {
    readfd, writefd := -1, -1;
    var i := 0;
    while i < MAX_FDS && writefd == -1
      invariant 0 <= i <= MAX_FDS && -1 <= readfd < MAX_FDS && -1 <= writefd < MAX_FDS
      invariant readfd < 0 ==> writefd < 0 && FreeFd(fds, 0) == FreeFd(fds, i)
      invariant readfd >= 0 ==> readfd == FreeFd(fds, 0)
      invariant readfd >= 0 ==> FreeFd(fds, readfd + 1) == if writefd < 0 then FreeFd(fds, i) else writefd
    {
      if fds[i] == NULL {
        if readfd == -1 {
          readfd := i;
        } else if writefd == -1 {
          writefd := i;
        }
      }
      i := i + 1;
    }
  }

  /** `readfd` and `writefd` are new descriptors of the running process, on the two ends of one new pipe. */
  ghost predicate Joined(s: State, t: State, readfd: int, writefd: int)
    requires Shape(s) && Shape(t) && IsPid(s.current)
  {
    && IsFd(readfd) && IsFd(writefd) && Me(s).fds[readfd] == NULL && Me(s).fds[writefd] == NULL
    && var fds := t.procs[s.current].fds;
       && fds[readfd] in t.handles && t.handles[fds[readfd]].kind.Reader?
       && fds[writefd] in t.handles && t.handles[fds[writefd]].kind.Writer?
       && t.handles[fds[readfd]].kind.r == t.handles[fds[writefd]].kind.w
       && t.handles[fds[readfd]].kind.r !in s.pipes
  }

  lemma PipeJoined(s: State, readfd: int, writefd: int)
    requires Shape(s) && IsPid(s.current) && IsFd(readfd) && IsFd(writefd) && readfd != writefd
    requires Me(s).fds[readfd] == NULL && Me(s).fds[writefd] == NULL && s.next !in s.pipes
    ensures Shape(NewPipe(s, readfd, writefd)) && Joined(s, NewPipe(s, readfd, writefd), readfd, writefd)
  {
  }

  method SyscallPipe(k: Kernel) returns (res: int, readfd: int, writefd: int)
    requires k.Valid() && Running(k.state, MakePipe)
    modifies k.Repr
    ensures k.Valid() && fresh(k.Repr - old(k.Repr)) && k.Homes() == old(k.Homes())
    ensures Outcome(k.state, res) == DoPipe(old(k.state))
    ensures Shape(old(k.state)) && Shape(k.state)
    ensures res == 0 ==> Joined(old(k.state), k.state, readfd, writefd)
  {
    hide Joined;
    hide NewPipe;
    hide FreeFd;
    hide k.Valid;
    hide Inv;
    hide Filed;
    ghost var s := k.state;
    InvShape(s);
    InvFiled(s, multiset{}, s.current, NULL);
    k.See();
    readfd, writefd := FindTwoFds(k.slots[k.current].fds);
    if readfd == -1 || writefd == -1 {
      res := -EMFILE;
      return;
    }
    NamesNew(s);
    PipeJoined(s, readfd, writefd);
    OpenPipe(k, readfd, writefd);
    res := 0;
  }

  /** A new pipe and its two handles. */
  method OpenPipe(k: Kernel, readfd: int, writefd: int)
    requires k.Valid() && Shape(k.state) && IsPid(k.state.current) && IsFd(readfd) && IsFd(writefd)
    requires k.state.next !in k.state.pipes
    modifies k.Repr
    ensures k.Valid() && fresh(k.Repr - old(k.Repr)) && k.Homes() == old(k.Homes())
    ensures k.state == NewPipe(old(k.state), readfd, writefd)
  {
    hide k.Valid;
    ghost var s := k.state;
    var q := k.NewName();
    k.NewPipe(q);
    var r := k.NewName();
    k.See();
    PutHandle(k, k.current, readfd, r, Handle(Reader(q), 1));
    var w := k.NewName();
    k.See();
    PutHandle(k, k.current, writefd, w, Handle(Writer(q), 1));
    assert k.state.procs == NewPipe(s, readfd, writefd).procs;
  }

  /** A new handle goes into a slot of process `p`. */
  method PutHandle(k: Kernel, p: int, fd: int, h: int, handle: Handle)
    requires k.Valid() && IsPid(p) && IsFd(fd) && Shape(k.state)
    modifies k.Repr
    ensures k.Valid() && fresh(k.Repr - old(k.Repr)) && k.Homes() == old(k.Homes())
    ensures k.state == SetProc(old(k.state), p, old(k.state).procs[p].(fds := old(k.state).procs[p].fds[fd := h]))
                       .(handles := old(k.state).handles[h := handle])
  {
    hide k.Valid;
    k.See();
    k.SetHandles(k.handles[h := handle]);
    k.See();
    k.SetSlot(p, k.slots[p].(fds := k.slots[p].fds[fd := h]));
  }

  // ----- processes -----

  method GetFreePid(k: Kernel) returns (pid: int)
    requires k.Valid()
    ensures Shape(k.state)
    ensures pid == if FreePid(k.state.procs, 1) == MAX_PROCESSES then -1 else FreePid(k.state.procs, 1)
  {
    hide k.Valid;
    k.See();
    var p := 1;
    while p < MAX_PROCESSES && k.slots[p].used
      invariant 1 <= p <= MAX_PROCESSES && FreePid(k.state.procs, 1) == FreePid(k.state.procs, p)
    {
      p := p + 1;
    }
    pid := if p >= MAX_PROCESSES then -1 else p;
  }
}
