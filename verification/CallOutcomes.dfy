/** The results of the calls, their errors, and all that they change. */
module CallOutcomes {
  import opened Bytes
  import opened ProcessState
  import opened ProcessInvariant
  import opened ProcessSteps
  import opened ProcessCalls
  import opened DescriptorCalls
  import opened StartUp
  import opened CallEffects

  /** Descriptor `fd` of the running process refers to nothing. */
  predicate BadFd(s: State, fd: int)
    requires Shape(s) && IsPid(s.current)
  {
    fd < 0 || MAX_FDS <= fd || Me(s).fds[fd] == NULL
  }

  /** Nobody's process structure changes but those of `a` and `b`. */
  ghost predicate OthersKept(s: State, t: State, a: int, b: int)
    requires |s.procs| == MAX_PROCESSES
  {
    |t.procs| == MAX_PROCESSES && forall i | IsPid(i) && i != a && i != b :: t.procs[i] == s.procs[i]
  }

  /** Handles, pipes and what runs are as they were. */
  ghost predicate NothingOpened(s: State, t: State) {
    && t.handles == s.handles && t.pipes == s.pipes && t.next == s.next && t.current == s.current
    && t.console == s.console
  }

  // ----- close -----

  lemma DropHandles(s: State, h: int)
    requires Shape(s) && Droppable(s, h)
    ensures Drop(s, h).handles == if s.handles[h].refcount == 1 then s.handles - {h}
                                  else s.handles[h := s.handles[h].(refcount := s.handles[h].refcount - 1)]
    ensures Drop(s, h).console == s.console && Drop(s, h).next == s.next
  {
  }

  /** What giving up a reference does to the pipes: nothing, unless it was the last one to an end of a pipe;
      then that end is closed, and the pipe goes when the other end was closed before. */
  lemma DropPipes(s: State, h: int)
    requires Shape(s) && Droppable(s, h)
    ensures var t, handle := Drop(s, h), s.handles[h];
      if handle.refcount > 1 || handle.kind.Screen? || handle.kind.Plain? then t.pipes == s.pipes
      else
        var q := if handle.kind.Reader? then handle.kind.r else handle.kind.w;
        var other := if handle.kind.Reader? then s.pipes[q].writing else s.pipes[q].reading;
        if !other then t.pipes == s.pipes - {q}
        else
          && t.pipes.Keys == s.pipes.Keys && (forall k | k in s.pipes && k != q :: t.pipes[k] == s.pipes[k])
          && (handle.kind.Reader? ==> t.pipes[q] == s.pipes[q].(reading := false))
          && (handle.kind.Writer? ==> t.pipes[q] == s.pipes[q].(writing := false, readpid := NULL))
  {
  }

  /** close fails exactly for a descriptor that is not open, and then changes nothing. Otherwise the descriptor
      is free again and no other is; the handle has one reference less, and goes with the last one. */
  lemma CloseReleases(s: State, fd: int)
    requires Running(s, Close(fd))
    ensures Shape(s)
    ensures var o := DoClose(s, fd);
      && (o.res == -EBADF <==> BadFd(s, fd)) && (BadFd(s, fd) ==> o.s == s)
      && (!BadFd(s, fd) ==>
            && o.res == 0 && Shape(o.s) && o.s.current == s.current
            && var h := Me(s).fds[fd];
               && Me(o.s) == Me(s).(fds := Me(s).fds[fd := NULL])
               && (forall i | IsPid(i) && i != s.current :: o.s.procs[i] == s.procs[i].(ready := o.s.procs[i].ready))
               && h in s.handles
               && o.s.handles == if s.handles[h].refcount == 1 then s.handles - {h}
                                 else s.handles[h := s.handles[h].(refcount := s.handles[h].refcount - 1)])
  {
    hide Inv;
    InvShape(s);
    if !BadFd(s, fd) {
      HandleExists(s, s.current, fd);
      CloseKeeps(s, s.current, fd);
      DropCleared(s, s.current, fd);
      DropHandles(SetProc(s, s.current, Me(s).(fds := Me(s).fds[fd := NULL])), Me(s).fds[fd]);
    }
  }

  /** Closing the last descriptor on an end of a pipe closes that end; the pipe goes with its second end. A
      reader that slept is woken when nobody can write any more. */
  lemma CloseShutsEnd(s: State, fd: int, q: int)
    requires Running(s, Close(fd)) && Shape(s) && !BadFd(s, fd)
    requires Me(s).fds[fd] in s.handles && s.handles[Me(s).fds[fd]].refcount == 1
    requires s.handles[Me(s).fds[fd]].kind == Reader(q) || s.handles[Me(s).fds[fd]].kind == Writer(q)
    requires q in s.pipes
    ensures var t := DoClose(s, fd).s;
      var reader := s.handles[Me(s).fds[fd]].kind.Reader?;
      && (q in t.pipes <==> if reader then s.pipes[q].writing else s.pipes[q].reading)
      && (q in t.pipes ==> t.pipes[q].data == s.pipes[q].data)
      && (q in t.pipes && reader ==> !t.pipes[q].reading && t.pipes[q].writing)
      && (q in t.pipes && !reader ==> !t.pipes[q].writing && t.pipes[q].reading && t.pipes[q].readpid == NULL)
      && (forall k | k in s.pipes && k != q :: k in t.pipes && t.pipes[k] == s.pipes[k])
  {
    hide Inv;
    InvShape(s);
    DropCleared(s, s.current, fd);
    DropPipes(SetProc(s, s.current, Me(s).(fds := Me(s).fds[fd := NULL])), Me(s).fds[fd]);
  }

  // ----- dup2 -----

  /** dup2 fails exactly when one of the two is no descriptor or the old one is not open, and then changes
      nothing; otherwise it gives back the new descriptor. */
  lemma Dup2Fails(s: State, oldfd: int, newfd: int)
    requires Running(s, Dup2(oldfd, newfd))
    ensures Shape(s)
    ensures var o := DoDup2(s, oldfd, newfd);
      var bad := BadFd(s, oldfd) || newfd < 0 || MAX_FDS <= newfd;
      && (bad ==> o == Outcome(s, -EBADF)) && (!bad ==> o.res == newfd) && (oldfd == newfd ==> o.s == s)
  {
    hide Inv;
    InvShape(s);
  }

  /** Of the handles that dup2 leaves, each is of the kind it was, and none is new. */
  lemma Dup2OpensNothing(s: State, oldfd: int, newfd: int)
    requires Running(s, Dup2(oldfd, newfd))
    ensures var o := DoDup2(s, oldfd, newfd);
      forall h | h in o.s.handles :: h in s.handles && o.s.handles[h].kind == s.handles[h].kind
  {
    hide Inv;
    InvShape(s);
    if !BadFd(s, oldfd) && IsFd(newfd) && oldfd != newfd {
      VacateKeeps(s, newfd);
      HandleExists(Vacate(s, newfd), s.current, oldfd);
      if !BadFd(s, newfd) {
        DropCleared(s, s.current, newfd);
        DropHandles(SetProc(s, s.current, Me(s).(fds := Me(s).fds[newfd := NULL])), Me(s).fds[newfd]);
      }
    }
  }

  // ----- open and pipe -----

  /** pipe leaves alone all handles, pipes and processes that there were, apart from its caller. */
  lemma PipeTouches(s: State)
    requires Running(s, MakePipe)
    ensures var o := DoPipe(s);
      && (o.res == -EMFILE ==> o.s == s) && o.s.current == s.current
      && (forall h | h in s.handles :: h in o.s.handles && o.s.handles[h] == s.handles[h])
      && |o.s.handles| <= |s.handles| + 2
      && (forall q | q in s.pipes :: q in o.s.pipes && o.s.pipes[q] == s.pipes[q])
      && |s.procs| == MAX_PROCESSES && OthersKept(s, o.s, s.current, s.current)
  {
    NamesAhead(s);
    hide Inv;
    InvShape(s);
  }

  lemma NamesAhead(s: State)
    requires Inv(s, multiset{}, s.current, NULL)
    ensures s.next !in s.handles && s.next + 1 !in s.handles && s.next + 2 !in s.handles && s.next !in s.pipes
  {
  }

  /** open gives back the lowest free descriptor, which is the only reference to a handle that is new. It
      fails exactly when none is free or the path lookup failed, and then changes nothing. */
  lemma OpenTakesLowest(s: State, failure: nat)
    requires Running(s, Open(failure))
    ensures Shape(s)
    ensures var o := DoOpen(s, failure);
      var full := forall i | IsFd(i) :: Me(s).fds[i] != NULL;
      && (full ==> o == Outcome(s, -EMFILE))
      && (!full && failure != 0 ==> o == Outcome(s, 0 - failure))
      && (!full && failure == 0 ==>
            && IsFd(o.res) && Me(s).fds[o.res] == NULL && (forall i | 0 <= i < o.res :: Me(s).fds[i] != NULL)
            && OthersKept(s, o.s, s.current, s.current) && o.s.current == s.current && o.s.pipes == s.pipes
            && var me := o.s.procs[s.current];
               && me == Me(s).(fds := me.fds) && |me.fds| == MAX_FDS
               && (forall i | IsFd(i) && i != o.res :: me.fds[i] == Me(s).fds[i])
               && me.fds[o.res] !in s.handles
               && o.s.handles == s.handles[me.fds[o.res] := Handle(Plain, 1)])
  {
    NamesAhead(s);
    hide Inv;
    InvShape(s);
  }

  // ----- write and read -----

  /** Only a write to a pipe changes anything. A write to the screen is complete; other handles cannot be
      written to. */
  lemma WriteElsewhere(s: State, fd: int, data: seq<Byte>)
    requires Running(s, Write(fd, data))
    ensures Shape(s)
    ensures var o := DoWrite(s, fd, data);
      && (BadFd(s, fd) ==> o == Outcome(s, -EBADF))
      && (!BadFd(s, fd) ==> Me(s).fds[fd] in s.handles)
      && (!BadFd(s, fd) ==>
            match s.handles[Me(s).fds[fd]].kind
            case Screen => o == Outcome(s, |data|)
            case Plain => o == Outcome(s, -EBADF)
            case Reader(_) => o == Outcome(s, -EINVAL)
            case Writer(_) => o.res == |data|)
  {
    hide Inv;
    InvShape(s);
    if !BadFd(s, fd) { HandleExists(s, s.current, fd); }
  }

  /** A write to a pipe adds to the history of that pipe and touches no other, no handle, and of the processes
      only the one it wakes. */
  lemma WriteTouches(s: State, fd: int, data: seq<Byte>, q: int)
    requires Running(s, Write(fd, data)) && IsFd(fd)
    requires Me(s).fds[fd] in s.handles && s.handles[Me(s).fds[fd]].kind == Writer(q) && q in s.pipes
    ensures var o, p := DoWrite(s, fd, data), s.pipes[q];
      && o.s.handles == s.handles && o.s.current == s.current && o.s.pipes.Keys == s.pipes.Keys
      && o.s.pipes[q] == p.(data := p.data + data, written := p.written + data, readpid := NULL)
      && (forall k | k in s.pipes && k != q :: o.s.pipes[k] == s.pipes[k])
      && OthersKept(s, o.s, p.readpid, p.readpid)
      && (p.readpid != NULL ==>
            IsPid(p.readpid) && o.s.procs[p.readpid] == s.procs[p.readpid].(ready := true) && !s.procs[p.readpid].ready)
  {
    WriterIn(s, Me(s).fds[fd], data);
    RecordedAsleep(s, q);
    hide Inv;
    InvShape(s);
  }

  lemma RecordedAsleep(s: State, q: int)
    requires Inv(s, multiset{}, s.current, NULL) && q in s.pipes
    ensures var p := s.pipes[q].readpid; p == NULL || (IsPid(p) && |s.procs| == MAX_PROCESSES && !s.procs[p].ready)
  {
    assert s.pipes[q].readpid != NULL ==> AsleepOn(s.procs, s.handles, s.pipes[q].readpid, q);
  }

  /** What a read comes to when there is no data to hand over: a file's own answer, end of file, an error, or
      sleep. Only sleep changes anything. */
  lemma ReadElsewhere(s: State, fd: int, count: nat, fileCount: nat)
    requires Running(s, Read(fd, count, fileCount))
    ensures Shape(s)
    ensures var o := DoRead(s, fd, count, fileCount);
      && (BadFd(s, fd) ==> o == Outcome(s, -EBADF))
      && (!BadFd(s, fd) ==> Me(s).fds[fd] in s.handles)
      && (!BadFd(s, fd) ==>
            match s.handles[Me(s).fds[fd]].kind
            case Screen => o == Outcome(s, -EINVAL)
            case Writer(_) => o == Outcome(s, -EINVAL)
            case Plain => o == Outcome(s, fileCount)
            case Reader(q) =>
              q in s.pipes
              && (s.pipes[q].readpid != NULL ==> o == Outcome(s, -EBADF))
              && (s.pipes[q].readpid == NULL && s.pipes[q].data == [] && !s.pipes[q].writing ==> o == Outcome(s, 0)))
  {
    hide Inv;
    InvShape(s);
    if !BadFd(s, fd) {
      HandleExists(s, s.current, fd);
      if s.handles[Me(s).fds[fd]].kind.Reader? { ReaderIn(s, Me(s).fds[fd]); }
    }
  }

  /** A reader goes to sleep on its pipe, and nothing else happens. */
  lemma ReadSleeps(s: State, fd: int, count: nat, fileCount: nat, q: int)
    requires Running(s, Read(fd, count, fileCount)) && IsFd(fd)
    requires Me(s).fds[fd] in s.handles && s.handles[Me(s).fds[fd]].kind == Reader(q) && q in s.pipes
    requires s.pipes[q].readpid == NULL && s.pipes[q].data == [] && s.pipes[q].writing
    ensures Shape(s)
    ensures var o := DoRead(s, fd, count, fileCount);
      && o.res == -ESUSPEND && o.s.pipes == s.pipes[q := s.pipes[q].(readpid := s.current)]
      && o.s.handles == s.handles && o.s.current == s.current && o.s.suspended == [s.current] + s.suspended
      && OthersKept(s, o.s, s.current, s.current) && o.s.procs[s.current] == Me(s).(ready := false)
  {
    NoNullHandle(s);
    hide Inv;
    InvShape(s);
  }

  lemma NoNullHandle(s: State)
    requires Inv(s, multiset{}, s.current, NULL)
    ensures NULL !in s.handles
  {
  }

  // ----- messages -----

  /** send fails exactly when there is no such process, the message is too long or the mailbox full, in this
      order, and then changes nothing. Otherwise the message, with its sender, is the last in the mailbox; a
      receiver that slept is the first ready process. */
  lemma SendDelivers(s: State, to: int, tag: int, body: seq<Byte>)
    requires Running(s, Send(to, tag, body)) && Sendable(s, to, body)
    ensures Shape(s)
    ensures var o := DoSend(s, to, tag, body);
      if !IsPid(to) || !s.procs[to].used then o == Outcome(s, -ESRCH)
      else if |body| > MAX_MESSAGE_SIZE then o == Outcome(s, -EINVAL)
      else if |s.procs[to].mailbox| >= MAILBOX then o == Outcome(s, -ENOMEM)
      else
        && o.res == 0 && OthersKept(s, o.s, to, to) && NothingOpened(s, o.s)
        && var was, now := s.procs[to], o.s.procs[to];
           && now.mailbox == was.mailbox + [Message(s.current, tag, body)]
           && now.sent == was.sent + [Message(s.current, tag, body)]
           && now == was.(mailbox := now.mailbox, sent := now.sent, ready := now.ready, blocked := false)
           && (was.blocked ==> now.ready && o.s.ready == [to] + s.ready)
           && (!was.blocked ==> now.ready == was.ready && o.s.ready == s.ready && o.s.suspended == s.suspended)
  {
    hide Inv;
    InvShape(s);
  }

  /** receive hands over the oldest message, exactly when there is one; otherwise it sleeps or fails, as it was
      asked to. */
  lemma ReceiveTakesOldest(s: State, block: bool)
    requires Running(s, Receive(block))
    ensures Shape(s)
    ensures var o, was := DoReceive(s, block), s.procs[s.current];
      && OthersKept(s, o.s, s.current, s.current) && NothingOpened(s, o.s)
      && var now := o.s.procs[s.current];
         if was.mailbox != [] then
           && o.res == 0 && now == was.(mailbox := now.mailbox, received := now.received)
           && [was.mailbox[0]] + now.mailbox == was.mailbox && now.received == was.received + [was.mailbox[0]]
           && o.s.ready == s.ready && o.s.suspended == s.suspended
         else if block then
           o.res == -ESUSPEND && now == was.(ready := false, blocked := true)
           && o.s.suspended == [s.current] + s.suspended
         else o == Outcome(s, -EAGAIN)
  {
    hide Inv;
    InvShape(s);
  }

  // ----- children -----

  /** What waitpid leaves alone: all but the slot it frees and what the caller waits for. */
  lemma WaitpidTouches(s: State, pid: int)
    requires Running(s, Waitpid(pid))
    ensures Shape(s)
    ensures var o := DoWaitpid(s, pid);
      var reaped := IsPid(pid) && s.procs[pid].used && s.procs[pid].parent == s.current && s.procs[pid].exited;
      var was := s.procs[s.current];
      && NothingOpened(s, o.s) && OthersKept(s, o.s, s.current, if reaped then pid else s.current)
      && o.s.procs[s.current] == was.(waitingOn := o.s.procs[s.current].waitingOn,
                                      ready := o.s.procs[s.current].ready)
      && (o.s.procs[s.current].ready <==> o.res != -ESUSPEND)
      && (reaped ==> o.s.procs[pid] == s.procs[pid].(used := false))
  {
    ChildPid(s, if IsPid(pid) then pid else 0);
    hide Inv;
    InvShape(s);
  }

  /** The child of a fork has its parent's handles, each of which counts its descriptors as well; nothing else
      is opened. */
  lemma ForkCountsTwice(s: State, r: Regs)
    requires Running(s, Fork)
    ensures Shape(s)
    ensures var o := DoFork(s, r);
      && (o.res == -EAGAIN ==> o.s == s)
      && (o.res != -EAGAIN ==>
            && o.s.pipes == s.pipes && o.s.current == s.current && o.s.suspended == s.suspended
            && o.s.handles.Keys == s.handles.Keys
            && forall h | h in s.handles ::
                 && o.s.handles[h].kind == s.handles[h].kind
                 && o.s.handles[h].refcount == s.handles[h].refcount + multiset(Me(s).fds)[h])
  {
    hide Inv;
    InvShape(s);
  }

  // ----- kill and exit -----

  /** kill fails exactly when there is no such process, and then changes nothing. Otherwise that process and no
      other is dead, and the caller goes on unless it was the one. */
  lemma KillOutcome(s: State, p: int)
    requires Running(s, Kill(p)) && Allowed(s, Kill(p))
    ensures Shape(s)
    ensures IsPid(p) && s.procs[p].used ==> Killable(s, p)
    ensures var o := DoKill(s, p);
      if !IsPid(p) || !s.procs[p].used then o == Outcome(s, -ESRCH)
      else
        && o.res == (if p == s.current then -ESUSPEND else 0)
        && o.s.current == (if p == s.current then NULL else s.current)
        && |o.s.procs| == MAX_PROCESSES && o.s.procs[p].exited
        && o.s.procs[p].used == (s.procs[p].parent != NULL)
        && forall i | IsPid(i) && i != p ::
             && o.s.procs[i].used == s.procs[i].used && o.s.procs[i].exited == s.procs[i].exited
             && o.s.procs[i].fds == s.procs[i].fds
  {
    hide Inv;
    hide Killable;
    hide KillProcess;
    InvShape(s);
    AllowedKillable(s, p);
    if IsPid(p) && s.procs[p].used {
      KillBuries(s, p, s.current);
      KillCurrent(s, p);
      forall i | IsPid(i) && i != p
        ensures var me := KillProcess(s, p).procs[i];
          me.used == s.procs[i].used && me.exited == s.procs[i].exited && me.fds == s.procs[i].fds
      {
        KillOthers(s, p, i);
      }
    }
  }

  /** exit ends the caller and leaves its status for the parent, if there is one to collect it; a parent that
      waited for it is awake. */
  lemma ExitLeavesStatus(s: State, status: int)
    requires Running(s, Exit(status))
    ensures Shape(s)
    ensures var o, p := DoExit(s, status), s.current;
      && o.res == -ESUSPEND && o.s.current == NULL && |o.s.procs| == MAX_PROCESSES
      && o.s.procs[p].exited && o.s.procs[p].status == status && o.s.procs[p].used == (s.procs[p].parent != NULL)
      && p !in o.s.ready && p !in o.s.suspended
      && (forall i | IsPid(i) && i != p ::
            && o.s.procs[i].used == s.procs[i].used && o.s.procs[i].exited == s.procs[i].exited
            && o.s.procs[i].fds == s.procs[i].fds && o.s.procs[i].status == s.procs[i].status)
      && (var q := s.procs[p].parent;
          IsPid(q) && q != p && Live(s.procs[q]) && s.procs[q].waitingOn == p ==> o.s.procs[q].ready)
  {
    hide Inv;
    hide Killable;
    hide KillProcess;
    InvShape(s);
    ExitReady(s, status);
    var p := s.current;
    var t := SetProc(s, p, Me(s).(status := status));
    KillBuries(t, p, p);
    KillCurrent(t, p);
    KillStatus(t, p);
    forall i | IsPid(i) && i != p
      ensures var me := KillProcess(t, p).procs[i];
        me.used == s.procs[i].used && me.exited == s.procs[i].exited && me.fds == s.procs[i].fds
    {
      KillOthers(t, p, i);
    }
  }

  lemma KillStatus(s: State, p: int)
    requires Killable(s, p)
    ensures forall i | IsPid(i) :: KillProcess(s, p).procs[i].status == s.procs[i].status
  {
    var b := Bury(s, p);
    DropAllStays(b, s.procs[p].fds);
    var t := DropAll(b, s.procs[p].fds);
    assert forall i | IsPid(i) :: t.procs[i] == b.procs[i].(ready := t.procs[i].ready);
  }

  // ----- start-up -----

  /** The first process: standard input is the reading end of the console pipe, standard output and error are
      screens, and it is the only one there is. */
  lemma BootStreams(r: Regs)
    ensures var s := Boot(r);
      && Shape(s) && s.ready == [1] && s.suspended == [] && s.current == NULL
      && (forall p | IsPid(p) :: s.procs[p].used <==> p == 1)
      && Live(s.procs[1]) && s.procs[1].parent == NULL && s.procs[1].inCall.Idle? && s.procs[1].regs == r
      && s.procs[1].mailbox == [] && s.pipes == map[s.console := FreshPipe()]
      && var fds := s.procs[1].fds;
         && (forall fd | 3 <= fd < MAX_FDS :: fds[fd] == NULL)
         && fds[0] in s.handles && s.handles[fds[0]] == Handle(Reader(s.console), 1)
         && fds[1] in s.handles && s.handles[fds[1]] == Handle(Screen, 1)
         && fds[2] in s.handles && s.handles[fds[2]] == Handle(Screen, 1)
         && fds[0] != fds[1] && fds[1] != fds[2] && fds[2] != fds[0]
         && s.handles.Keys == {fds[0], fds[1], fds[2]}
  {
  }
}
