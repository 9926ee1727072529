/** What the calls do for their callers, beyond keeping the invariant. */
module CallEffects {
  import opened Bytes
  import opened ProcessState
  import opened ProcessInvariant
  import opened ProcessSteps
  import opened ProcessCalls
  import opened DescriptorCalls

  /** Bytes come out of a pipe in the order they went in: what was read so far, followed by what
      is buffered, is everything that was written. Mailboxes likewise, and they hold at most 8. */
  lemma Fifo(s: State, q: int, p: int)
    requires Inv(s, multiset{}, NULL, NULL)
    ensures q in s.pipes ==> s.pipes[q].taken + s.pipes[q].data == s.pipes[q].written
    ensures IsPid(p) && Live(s.procs[p]) ==>
      s.procs[p].received + s.procs[p].mailbox == s.procs[p].sent && |s.procs[p].mailbox| <= MAILBOX
  {
  }

  /** A read that finds data hands over the oldest `res` bytes, as many as asked for if there
      are that many, and touches nothing else. */
  lemma ReadTakesOldest(s: State, fd: int, count: nat, fileCount: nat, q: int)
    requires Running(s, Read(fd, count, fileCount)) && IsFd(fd)
    requires Me(s).fds[fd] in s.handles && s.handles[Me(s).fds[fd]].kind == Reader(q) && q in s.pipes
    requires s.pipes[q].readpid == NULL && s.pipes[q].data != []
    ensures var o := DoRead(s, fd, count, fileCount);
      && 0 <= o.res <= count && (o.res == count || o.res == |s.pipes[q].data|)
      && o.res <= |s.pipes[q].data| && q in o.s.pipes
      && o.s.pipes[q].taken == s.pipes[q].taken + s.pipes[q].data[..o.res]
      && s.pipes[q].data[..o.res] + o.s.pipes[q].data == s.pipes[q].data
      && o.s.procs == s.procs && o.s.handles == s.handles
      && forall k :: k in s.pipes && k != q ==> k in o.s.pipes && o.s.pipes[k] == s.pipes[k]
  {
  }

  /** Reading an empty pipe reports end-of-file exactly when nobody can write to it any more: no handle
      can, and it is not the console's, which the keyboard writes to. */
  lemma ReadEmpty(s: State, fd: int, count: nat, fileCount: nat, q: int)
    requires Running(s, Read(fd, count, fileCount)) && IsFd(fd)
    requires Me(s).fds[fd] in s.handles && s.handles[Me(s).fds[fd]].kind == Reader(q) && q in s.pipes
    requires s.pipes[q].readpid == NULL && s.pipes[q].data == []
    ensures DoRead(s, fd, count, fileCount).res == (if HasWriter(s.handles, q) || q == s.console then -ESUSPEND else 0)
  {
  }

  /** A write appends to the pipe and wakes its reader, which becomes the first ready process. */
  lemma WriteAppends(s: State, fd: int, data: seq<Byte>, q: int)
    requires Running(s, Write(fd, data)) && IsFd(fd)
    requires Me(s).fds[fd] in s.handles && s.handles[Me(s).fds[fd]].kind == Writer(q) && q in s.pipes
    ensures var o := DoWrite(s, fd, data);
      && o.res == |data| && q in o.s.pipes
      && o.s.pipes[q].data == s.pipes[q].data + data && o.s.pipes[q].readpid == NULL
      && (s.pipes[q].readpid == NULL ==> o.s.ready == s.ready)
      && (s.pipes[q].readpid != NULL ==> o.s.ready == [s.pipes[q].readpid] + s.ready)
  {
  }

  /** After dup2 both descriptors refer to the same handle, and no other descriptor of the caller
      has changed. */
  lemma Dup2Shares(s: State, oldfd: int, newfd: int)
    requires Running(s, Dup2(oldfd, newfd)) && IsFd(oldfd) && IsFd(newfd) && Me(s).fds[oldfd] != NULL
    ensures var o := DoDup2(s, oldfd, newfd);
      && o.res == newfd && |o.s.procs| == MAX_PROCESSES && |o.s.procs[s.current].fds| == MAX_FDS
      && o.s.procs[s.current].fds[newfd] == o.s.procs[s.current].fds[oldfd] == Me(s).fds[oldfd]
      && forall i :: 0 <= i < MAX_FDS && i != newfd ==> o.s.procs[s.current].fds[i] == Me(s).fds[i]
  {
    hide Inv;
    hide Vacate;
    InvShape(s);
    if oldfd != newfd { VacateKeeps(s, newfd); }
  }

  /** pipe opens its two lowest free descriptors on the two ends of a new, empty pipe, or fails
      because fewer than two are free. */
  lemma PipeJoinsEnds(s: State)
    requires Running(s, MakePipe)
    ensures var o := DoPipe(s);
      && (o.res == -EMFILE <==> forall i, j :: 0 <= i < j < MAX_FDS ==> Me(s).fds[i] != NULL || Me(s).fds[j] != NULL)
      && (o.res != -EMFILE ==> o.res == 0 && Shape(o.s) && exists i, j, q ::
           && 0 <= i < j < MAX_FDS && Me(s).fds[i] == NULL && Me(s).fds[j] == NULL
           && (forall k :: 0 <= k < j && k != i ==> Me(s).fds[k] != NULL)
           && q !in s.pipes && q in o.s.pipes && o.s.pipes[q] == FreshPipe()
           && var fds := o.s.procs[s.current].fds;
              && fds == Me(s).fds[i := fds[i]][j := fds[j]]
              && fds[i] in o.s.handles && o.s.handles[fds[i]] == Handle(Reader(q), 1)
              && fds[j] in o.s.handles && o.s.handles[fds[j]] == Handle(Writer(q), 1))
  {
    hide Inv;
    InvShape(s);
    NamesNew(s);
    var i := FreeFd(Me(s).fds, 0);
    if i < MAX_FDS {
      var j := FreeFd(Me(s).fds, i + 1);
      if j < MAX_FDS {
        var o := DoPipe(s);
        var q, fds := s.next, o.s.procs[s.current].fds;
        assert fds == Me(s).fds[i := fds[i]][j := fds[j]];
        assert q !in s.pipes && q in o.s.pipes;
      }
    }
  }

  /** The child of a fork takes the lowest unused slot, shares every descriptor of its parent, and
      resumes with the parent's registers except that it sees 0. */
  lemma ForkTwin(s: State, r: Regs)
    requires Running(s, Fork)
    ensures var o := DoFork(s, r);
      && (o.res == -EAGAIN <==> forall i :: 1 <= i < MAX_PROCESSES ==> s.procs[i].used)
      && (o.res != -EAGAIN ==>
           && 1 <= o.res < MAX_PROCESSES && !s.procs[o.res].used && |o.s.procs| == MAX_PROCESSES
           && (forall i :: 1 <= i < o.res ==> s.procs[i].used)
           && Live(o.s.procs[o.res]) && o.s.procs[o.res].parent == s.current
           && o.s.procs[o.res].fds == Me(s).fds && o.s.procs[o.res].regs == r.(eax := 0)
           && o.s.procs[o.res].mailbox == [] && o.s.procs[o.res].inCall == Idle
           && o.s.ready == [o.res] + s.ready
           && forall i :: IsPid(i) && i != o.res ==> o.s.procs[i] == s.procs[i])
  {
  }

  /** waitpid gives back the pid of a dead child and frees its slot; it sleeps while the child
      lives; it fails for anything that is not a child. */
  lemma WaitpidReaps(s: State, pid: int)
    requires Running(s, Waitpid(pid))
    ensures var o := DoWaitpid(s, pid);
      var child := IsPid(pid) && s.procs[pid].used && s.procs[pid].parent == s.current;
      && |o.s.procs| == MAX_PROCESSES
      && (!child ==> o.res == -ECHILD)
      && (child && s.procs[pid].exited ==> o.res == pid && !o.s.procs[pid].used)
      && (child && !s.procs[pid].exited ==> o.res == -ESUSPEND && o.s.procs[s.current].waitingOn == pid)
  {
  }

  /** A dead process is on no list, keeps its slot only for a parent to collect, has lost its
      children, and has woken the parent that waited for it. */
  lemma KillBuries(s: State, p: int, busy: int)
    requires Inv(s, multiset{}, busy, NULL) && IsPid(p) && Live(s.procs[p]) && !InRead(s.procs[p])
    ensures Killable(s, p)
    ensures var t := KillProcess(s, p);
      && Shape(t) && t.procs[p].exited && t.procs[p].used == (s.procs[p].parent != NULL)
      && p !in t.ready && p !in t.suspended
      && (forall i :: IsPid(i) && i != p ==>
            t.procs[i].parent == if s.procs[i].parent == p then NULL else s.procs[i].parent)
      && (forall i :: IsPid(i) && i != p && Live(s.procs[i]) && s.procs[i].waitingOn == p ==> t.procs[i].ready)
  {
    KillKeeps(s, p, busy);
    KillShape(s, p);
    BuriedDead(s, p, busy);
  }

  lemma KillShape(s: State, p: int)
    requires Killable(s, p)
    ensures var t := KillProcess(s, p);
      && t.procs[p].exited && (s.procs[p].used ==> t.procs[p].used == (s.procs[p].parent != NULL))
      && (forall i :: IsPid(i) && i != p ==>
            t.procs[i].parent == if s.procs[i].parent == p then NULL else s.procs[i].parent)
  {
    var b := Bury(s, p);
    DropAllStays(b, s.procs[p].fds);
    var t := DropAll(b, s.procs[p].fds);
    assert forall i :: IsPid(i) ==> t.procs[i] == b.procs[i].(ready := t.procs[i].ready);
  }

  lemma BuriedDead(s: State, p: int, busy: int)
    requires Killable(s, p) && Inv(KillProcess(s, p), multiset{}, busy, NULL) && KillProcess(s, p).procs[p].exited
    requires Inv(s, multiset{}, busy, NULL) && Live(s.procs[p])
    ensures var t := KillProcess(s, p);
      && p !in t.ready && p !in t.suspended
      && (forall i :: IsPid(i) && i != p && Live(s.procs[i]) && s.procs[i].waitingOn == p ==> t.procs[i].ready)
  {
    var t := KillProcess(s, p);
    forall i | IsPid(i) && i != p && Live(s.procs[i]) && s.procs[i].waitingOn == p ensures t.procs[i].ready {
      KillOthers(s, p, i);
      assert Sleeper(s.procs, i, NULL) && Sleeper(s.procs, p, NULL) && Sleeper(t.procs, i, NULL);
    }
  }
}
