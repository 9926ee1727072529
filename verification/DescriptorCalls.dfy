/** The system calls that create, share and give up file descriptors, and those that create
    and end processes. */
module DescriptorCalls {
  import opened ProcessState
  import opened ProcessInvariant
  import opened ProcessSteps
  import opened ProcessCalls

  // ----- close -----

  /** Empty slot `fd` of a process and give up its reference. */
  function CloseSlot(s: State, p: int, fd: int): (t: State)
    requires Inv(s, multiset{}, s.current, NULL) && IsPid(p) && Live(s.procs[p]) && s.procs[p].ready
    requires IsFd(fd) && s.procs[p].fds[fd] != NULL
  {
    var h := s.procs[p].fds[fd];
    var cleared := SetProc(s, p, s.procs[p].(fds := s.procs[p].fds[fd := NULL]));
    DropCleared(s, p, fd);
    Drop(cleared, h)
  }

  lemma ClearKeeps(s: State, p: int, fd: int)
    requires Inv(s, multiset{}, s.current, NULL) && IsPid(p) && Live(s.procs[p]) && s.procs[p].ready
    requires IsFd(fd) && s.procs[p].fds[fd] != NULL
    ensures Inv(SetProc(s, p, s.procs[p].(fds := s.procs[p].fds[fd := NULL])),
                multiset{s.procs[p].fds[fd]}, s.current, NULL)
  {
    hide Listed;
    hide Slots;
    hide Counted;
    hide Ended;
    hide Remembered;
    hide Recorded;
    hide Sleepers;
    hide Sleeper;
    var me := s.procs[p].(fds := s.procs[p].fds[fd := NULL]);
    ListedSame(s.procs, s.procs[p := me], s.ready, true);
    ListedSame(s.procs, s.procs[p := me], s.suspended, false);
    ClearCounts(s, p, fd);
    AwokenReaders(s.procs, s.handles, s.pipes, p, me);
    FdsSleepers(s.procs, p, me);
  }

  lemma ClearCounts(s: State, p: int, fd: int)
    requires Shape(s) && IsPid(p) && Live(s.procs[p]) && IsFd(fd) && s.procs[p].fds[fd] != NULL
    requires Counted(s.handles, Slots(s.procs, MAX_PROCESSES), multiset{})
    ensures var me := s.procs[p].(fds := s.procs[p].fds[fd := NULL]);
      Counted(s.handles, Slots(s.procs[p := me], MAX_PROCESSES), multiset{s.procs[p].fds[fd]})
  {
    var me := s.procs[p].(fds := s.procs[p].fds[fd := NULL]);
    SlotsUpdate(s.procs, p, me, MAX_PROCESSES);
    CountedClear(s.handles, Slots(s.procs, MAX_PROCESSES), s.procs[p].fds, fd);
  }

  lemma CountedClear(handles: map<int, Handle>, slots: multiset<int>, fds: seq<int>, fd: int)
    requires Counted(handles, slots, multiset{}) && multiset(fds) <= slots && 0 <= fd < |fds| && fds[fd] != NULL
    ensures Counted(handles, slots - multiset(fds) + multiset(fds[fd := NULL]), multiset{fds[fd]})
  {
  }

  /** Nobody's reasons depend on descriptors. */
  lemma FdsSleepers(procs: seq<Proc>, p: int, proc: Proc)
    requires |procs| == MAX_PROCESSES && IsPid(p) && Sleepers(procs, NULL) && proc == procs[p].(fds := proc.fds)
    ensures Sleepers(procs[p := proc], NULL)
  {
  }

  lemma DropCleared(s: State, p: int, fd: int)
    requires Inv(s, multiset{}, s.current, NULL) && IsPid(p) && Live(s.procs[p]) && s.procs[p].ready
    requires IsFd(fd) && s.procs[p].fds[fd] != NULL
    ensures var cleared := SetProc(s, p, s.procs[p].(fds := s.procs[p].fds[fd := NULL]));
      && Droppable(cleared, s.procs[p].fds[fd])
      && Inv(Drop(cleared, s.procs[p].fds[fd]), multiset{}, s.current, NULL)
      && OnlyWoken(cleared, Drop(cleared, s.procs[p].fds[fd]))
  {
    hide Inv;
    InvShape(s);
    var h := s.procs[p].fds[fd];
    var cleared := SetProc(s, p, s.procs[p].(fds := s.procs[p].fds[fd := NULL]));
    ClearKeeps(s, p, fd);
    DropKeeps(cleared, h, multiset{h}, s.current, NULL);
    assert multiset{h} - multiset{h} == multiset{};
    DropOnlyWakes(cleared, h);
  }

  lemma CloseKeeps(s: State, p: int, fd: int)
    requires Inv(s, multiset{}, s.current, NULL) && IsPid(p) && Live(s.procs[p]) && s.procs[p].ready
    requires IsFd(fd) && s.procs[p].fds[fd] != NULL
    ensures var t := CloseSlot(s, p, fd);
      && Inv(t, multiset{}, s.current, NULL) && t.current == s.current && Shape(t)
      && t.procs[p] == s.procs[p].(fds := s.procs[p].fds[fd := NULL])
      && forall i :: IsPid(i) && i != p ==> t.procs[i] == s.procs[i].(ready := t.procs[i].ready)
  {
    DropCleared(s, p, fd);
    hide Inv;
    InvShape(s);
    var cleared := SetProc(s, p, s.procs[p].(fds := s.procs[p].fds[fd := NULL]));
    DropOthers(cleared, s.procs[p].fds[fd], p);
  }

  /** Dropping a handle wakes sleepers only. */
  lemma DropOthers(s: State, h: int, p: int)
    requires Shape(s) && Droppable(s, h) && IsPid(p) && s.procs[p].ready
    ensures Drop(s, h).procs[p] == s.procs[p]
  {
  }

  function DoClose(s: State, fd: int): (o: Outcome)
    requires Running(s, Close(fd))
  {
    if !IsFd(fd) || Me(s).fds[fd] == NULL then Outcome(s, -EBADF)
    else Outcome(CloseSlot(s, s.current, fd), 0)
  }

  lemma DoCloseKeeps(s: State, fd: int)
    requires Running(s, Close(fd))
    ensures After(s, Close(fd), DoClose(s, fd))
  {
    hide Inv;
    InvShape(s);
    hide CloseSlot;
    if IsFd(fd) && Me(s).fds[fd] != NULL { CloseKeeps(s, s.current, fd); }
  }

  // ----- dup2 -----

  /** One more slot refers to handle `h`. */
  lemma AttachKeeps(s: State, p: int, fd: int, h: int)
    requires Inv(s, multiset{}, s.current, NULL) && IsPid(p) && Live(s.procs[p]) && s.procs[p].ready
    requires IsFd(fd) && s.procs[p].fds[fd] == NULL && h in s.handles
    ensures var t := SetProc(s, p, s.procs[p].(fds := s.procs[p].fds[fd := h]));
      Inv(t.(handles := s.handles[h := s.handles[h].(refcount := s.handles[h].refcount + 1)]),
          multiset{}, s.current, NULL)
  {
    hide Listed;
    hide Slots;
    hide Counted;
    hide Ended;
    hide Remembered;
    hide Recorded;
    hide Sleepers;
    hide Sleeper;
    var me := s.procs[p].(fds := s.procs[p].fds[fd := h]);
    var handles := s.handles[h := s.handles[h].(refcount := s.handles[h].refcount + 1)];
    ListedSame(s.procs, s.procs[p := me], s.ready, true);
    ListedSame(s.procs, s.procs[p := me], s.suspended, false);
    SlotsUpdate(s.procs, p, me, MAX_PROCESSES);
    FillSlots(Slots(s.procs, MAX_PROCESSES), s.procs[p].fds, fd, h);
    CountedAttach(s.handles, Slots(s.procs, MAX_PROCESSES), Slots(s.procs[p := me], MAX_PROCESSES), h);
    AwokenReaders(s.procs, s.handles, s.pipes, p, me);
    KindsMatter(s.procs[p := me], s.handles, handles, s.pipes, s.console);
    FdsSleepers(s.procs, p, me);
  }

  lemma FillSlots(slots: multiset<int>, fds: seq<int>, fd: int, h: int)
    requires multiset(fds) <= slots && 0 <= fd < |fds| && fds[fd] == NULL
    ensures slots - multiset(fds) + multiset(fds[fd := h]) == slots - multiset{NULL} + multiset{h}
  {
  }

  lemma CountedAttach(handles: map<int, Handle>, slots: multiset<int>, slots': multiset<int>, h: int)
    requires Counted(handles, slots, multiset{}) && h in handles && slots' == slots - multiset{NULL} + multiset{h}
    ensures Counted(handles[h := handles[h].(refcount := handles[h].refcount + 1)], slots', multiset{})
  {
  }

  /** Slot `fd` of the running process made empty. */
  function Vacate(s: State, fd: int): (t: State)
    requires Inv(s, multiset{}, s.current, NULL) && IsPid(s.current) && Live(Me(s)) && Me(s).ready && IsFd(fd)
  {
    if Me(s).fds[fd] != NULL then CloseSlot(s, s.current, fd) else s
  }

  lemma VacateKeeps(s: State, fd: int)
    requires Inv(s, multiset{}, s.current, NULL) && IsPid(s.current) && Live(Me(s)) && Me(s).ready && IsFd(fd)
    ensures var t := Vacate(s, fd);
      && Inv(t, multiset{}, s.current, NULL) && t.current == s.current && Shape(t)
      && t.procs[s.current] == Me(s).(fds := Me(s).fds[fd := NULL])
      && forall i :: IsPid(i) && i != s.current ==> t.procs[i] == s.procs[i].(ready := t.procs[i].ready)
  {
    hide Inv;
    InvShape(s);
    hide CloseSlot;
    if Me(s).fds[fd] != NULL {
      CloseKeeps(s, s.current, fd);
    } else {
      assert Me(s).fds[fd := NULL] == Me(s).fds;
    }
  }

  function Attach(s: State, fd: int, h: int): (t: State)
    requires Shape(s) && IsPid(s.current) && IsFd(fd) && h in s.handles
  {
    SetProc(s, s.current, Me(s).(fds := Me(s).fds[fd := h]))
      .(handles := s.handles[h := s.handles[h].(refcount := s.handles[h].refcount + 1)])
  }

  function DoDup2(s: State, oldfd: int, newfd: int): (o: Outcome)
    requires Running(s, Dup2(oldfd, newfd))
  {
    if !IsFd(oldfd) || !IsFd(newfd) || Me(s).fds[oldfd] == NULL then Outcome(s, -EBADF)
    else if oldfd == newfd then Outcome(s, newfd)
    else
      VacateKeeps(s, newfd);
      var t := Vacate(s, newfd);
      HandleExists(t, t.current, oldfd);
      Outcome(Attach(t, newfd, Me(s).fds[oldfd]), newfd)
  }

  lemma DoDup2Keeps(s: State, oldfd: int, newfd: int)
    requires Running(s, Dup2(oldfd, newfd))
    ensures After(s, Dup2(oldfd, newfd), DoDup2(s, oldfd, newfd))
  {
    hide Inv;
    InvShape(s);
    hide Vacate;
    hide Elsewhere;
    ElsewhereSame(s, s, false);
    if IsFd(oldfd) && IsFd(newfd) && Me(s).fds[oldfd] != NULL && oldfd != newfd {
      VacateKeeps(s, newfd);
      var t := Vacate(s, newfd);
      HandleExists(t, t.current, oldfd);
      AttachKeeps(t, t.current, newfd, Me(s).fds[oldfd]);
      ElsewhereSame(s, DoDup2(s, oldfd, newfd).s, false);
    }
  }

  // ----- open and pipe -----

  /** The first empty descriptor from `from` on, or MAX_FDS. */
  function FreeFd(fds: seq<int>, from: nat): (fd: nat)
    requires |fds| == MAX_FDS && from <= MAX_FDS
    ensures from <= fd <= MAX_FDS && (fd < MAX_FDS ==> fds[fd] == NULL)
    ensures forall i :: from <= i < fd ==> fds[i] != NULL
    decreases MAX_FDS - from
  {
    if from == MAX_FDS || fds[from] == NULL then from else FreeFd(fds, from + 1)
  }

  lemma CountedNew(handles: map<int, Handle>, slots: multiset<int>, slots': multiset<int>, h: int, kind: Kind)
    requires Counted(handles, slots, multiset{}) && h >= 0 && h !in handles
    requires slots' == slots - multiset{NULL} + multiset{h}
    ensures Counted(handles[h := Handle(kind, 1)], slots', multiset{})
  {
  }

  lemma OpenKeeps(s: State, fd: int)
    requires Inv(s, multiset{}, s.current, NULL) && IsPid(s.current) && Live(s.procs[s.current])
    requires s.procs[s.current].ready
    requires IsFd(fd) && Me(s).fds[fd] == NULL
    ensures var t := SetProc(s, s.current, Me(s).(fds := Me(s).fds[fd := s.next]));
      Inv(t.(handles := s.handles[s.next := Handle(Plain, 1)], next := s.next + 1), multiset{}, s.current, NULL)
  {
    hide Listed;
    hide Slots;
    hide Counted;
    hide Ended;
    hide Remembered;
    hide Recorded;
    hide Sleepers;
    hide Sleeper;
    var p, h := s.current, s.next;
    var me := s.procs[p].(fds := s.procs[p].fds[fd := h]);
    var handles := s.handles[h := Handle(Plain, 1)];
    ListedSame(s.procs, s.procs[p := me], s.ready, true);
    ListedSame(s.procs, s.procs[p := me], s.suspended, false);
    SlotsUpdate(s.procs, p, me, MAX_PROCESSES);
    FillSlots(Slots(s.procs, MAX_PROCESSES), s.procs[p].fds, fd, h);
    CountedNew(s.handles, Slots(s.procs, MAX_PROCESSES), Slots(s.procs[p := me], MAX_PROCESSES), h, Plain);
    AwokenReaders(s.procs, s.handles, s.pipes, p, me);
    ReadersMoreHandles(s.procs[p := me], s.handles, handles, s.pipes);
    EndedPlain(s.handles, s.pipes, s.console, h);
    FdsSleepers(s.procs, p, me);
  }

  lemma ReadersMoreHandles(procs: seq<Proc>, handles: map<int, Handle>, handles': map<int, Handle>,
                           pipes: map<int, Pipe>)
    requires |procs| == MAX_PROCESSES
    requires forall h :: h in handles ==> h in handles' && handles'[h] == handles[h]
    requires Remembered(procs, handles, pipes) && Recorded(procs, handles, pipes)
    ensures Remembered(procs, handles', pipes) && Recorded(procs, handles', pipes)
  {
  }

  lemma EndedPlain(handles: map<int, Handle>, pipes: map<int, Pipe>, console: int, h: int)
    requires Ended(handles, pipes, console) && h !in handles
    ensures Ended(handles[h := Handle(Plain, 1)], pipes, console)
  {
    MoreEnds(handles, handles[h := Handle(Plain, 1)]);
  }

  lemma MoreEnds(handles: map<int, Handle>, handles': map<int, Handle>)
    requires forall h :: h in handles ==> h in handles' && handles'[h] == handles[h]
    ensures forall q :: HasReader(handles, q) ==> HasReader(handles', q)
    ensures forall q :: HasWriter(handles, q) ==> HasWriter(handles', q)
  {
  }

  function DoOpen(s: State, failure: nat): (o: Outcome)
    requires Running(s, Open(failure))
  {
    var fd := FreeFd(Me(s).fds, 0);
    if fd == MAX_FDS then Outcome(s, -EMFILE)
    else if failure != 0 then Outcome(s, 0 - failure)
    else
      var t := SetProc(s, s.current, Me(s).(fds := Me(s).fds[fd := s.next]));
      Outcome(t.(handles := s.handles[s.next := Handle(Plain, 1)], next := s.next + 1), fd)
  }

  lemma DoOpenKeeps(s: State, failure: nat)
    requires Running(s, Open(failure)) && failure != ESUSPEND
    ensures After(s, Open(failure), DoOpen(s, failure))
  {
    hide Inv;
    InvShape(s);
    var fd := FreeFd(Me(s).fds, 0);
    if fd != MAX_FDS { OpenKeeps(s, fd); }
  }

  function DoPipe(s: State): (o: Outcome)
    requires Running(s, MakePipe)
  {
    var readfd := FreeFd(Me(s).fds, 0);
    var writefd := if readfd < MAX_FDS then FreeFd(Me(s).fds, readfd + 1) else MAX_FDS;
    if writefd == MAX_FDS then Outcome(s, -EMFILE)
    else Outcome(NewPipe(s, readfd, writefd), 0)
  }

  /** A new pipe with both its handles, in slots `readfd` and `writefd` of the running process. */
  function NewPipe(s: State, readfd: int, writefd: int): (t: State)
    requires Shape(s) && IsPid(s.current) && IsFd(readfd) && IsFd(writefd)
  {
    var q, r, w := s.next, s.next + 1, s.next + 2;
    SetProc(s, s.current, Me(s).(fds := Me(s).fds[readfd := r][writefd := w]))
      .(handles := s.handles[r := Handle(Reader(q), 1)][w := Handle(Writer(q), 1)],
        pipes := s.pipes[q := FreshPipe()],
        next := s.next + 3)
  }

  lemma PipeCounts(s: State, p: int, readfd: int, writefd: int, q: int, r: int, w: int)
    requires Shape(s) && IsPid(p) && Live(s.procs[p]) && IsFd(readfd) && IsFd(writefd) && readfd != writefd
    requires s.procs[p].fds[readfd] == NULL && s.procs[p].fds[writefd] == NULL
    requires r >= 0 && w >= 0 && r != w && r !in s.handles && w !in s.handles
    requires Counted(s.handles, Slots(s.procs, MAX_PROCESSES), multiset{})
    ensures var me := s.procs[p].(fds := s.procs[p].fds[readfd := r][writefd := w]);
      Counted(s.handles[r := Handle(Reader(q), 1)][w := Handle(Writer(q), 1)],
              Slots(s.procs[p := me], MAX_PROCESSES), multiset{})
  {
    hide Slots;
    hide Counted;
    var fds := s.procs[p].fds;
    var half := s.procs[p].(fds := fds[readfd := r]);
    var me := s.procs[p].(fds := fds[readfd := r][writefd := w]);
    SlotsUpdate(s.procs, p, half, MAX_PROCESSES);
    FillSlots(Slots(s.procs, MAX_PROCESSES), fds, readfd, r);
    CountedNew(s.handles, Slots(s.procs, MAX_PROCESSES), Slots(s.procs[p := half], MAX_PROCESSES), r, Reader(q));
    SlotsUpdate(s.procs[p := half], p, me, MAX_PROCESSES);
    FillSlots(Slots(s.procs[p := half], MAX_PROCESSES), half.fds, writefd, w);
    assert s.procs[p := half][p := me] == s.procs[p := me];
    CountedNew(s.handles[r := Handle(Reader(q), 1)], Slots(s.procs[p := half], MAX_PROCESSES),
               Slots(s.procs[p := me], MAX_PROCESSES), w, Writer(q));
  }

  lemma EndedNewPipe(handles: map<int, Handle>, pipes: map<int, Pipe>, console: int, q: int, r: int, w: int)
    requires Ended(handles, pipes, console) && q !in pipes && r !in handles && w !in handles && r != w
    ensures Ended(handles[r := Handle(Reader(q), 1)][w := Handle(Writer(q), 1)], pipes[q := FreshPipe()], console)
  {
    var handles' := handles[r := Handle(Reader(q), 1)][w := Handle(Writer(q), 1)];
    MoreEnds(handles, handles');
    assert HasReader(handles', q) by { assert handles'[r].kind == Reader(q); }
    assert HasWriter(handles', q) by { assert handles'[w].kind == Writer(q); }
  }

  lemma NewPipeKeeps(s: State, readfd: int, writefd: int)
    requires Inv(s, multiset{}, s.current, NULL) && IsPid(s.current) && Live(s.procs[s.current])
    requires s.procs[s.current].ready
    requires IsFd(readfd) && IsFd(writefd) && readfd != writefd
    requires s.procs[s.current].fds[readfd] == NULL && s.procs[s.current].fds[writefd] == NULL
    ensures Inv(NewPipe(s, readfd, writefd), multiset{}, s.current, NULL)
  {
    hide Listed;
    hide Slots;
    hide Counted;
    hide Ended;
    hide Remembered;
    hide Recorded;
    hide Sleepers;
    hide Sleeper;
    var p, q, r, w := s.current, s.next, s.next + 1, s.next + 2;
    var me := s.procs[p].(fds := s.procs[p].fds[readfd := r][writefd := w]);
    var handles := s.handles[r := Handle(Reader(q), 1)][w := Handle(Writer(q), 1)];
    var pipes := s.pipes[q := FreshPipe()];
    ListedSame(s.procs, s.procs[p := me], s.ready, true);
    ListedSame(s.procs, s.procs[p := me], s.suspended, false);
    PipeCounts(s, p, readfd, writefd, q, r, w);
    EndedNewPipe(s.handles, s.pipes, s.console, q, r, w);
    AwokenReaders(s.procs, s.handles, s.pipes, p, me);
    ReadersMoreHandles(s.procs[p := me], s.handles, handles, s.pipes);
    ReadersOtherPipe(s.procs[p := me], handles, s.pipes, pipes, q);
    FdsSleepers(s.procs, p, me);
  }

  lemma DoPipeKeeps(s: State)
    requires Running(s, MakePipe)
    ensures After(s, MakePipe, DoPipe(s))
  {
    hide Inv;
    InvShape(s);
    var readfd := FreeFd(Me(s).fds, 0);
    if readfd < MAX_FDS {
      var writefd := FreeFd(Me(s).fds, readfd + 1);
      if writefd < MAX_FDS { NewPipeKeeps(s, readfd, writefd); }
    }
  }

  // ----- fork -----

  /** get_free_pid: the lowest unused slot above 0, or MAX_PROCESSES. */
  function FreePid(procs: seq<Proc>, from: nat): (p: nat)
    requires |procs| == MAX_PROCESSES && from <= MAX_PROCESSES
    ensures from <= p <= MAX_PROCESSES && (p < MAX_PROCESSES ==> !procs[p].used)
    ensures forall i :: from <= i < p ==> procs[i].used
    decreases MAX_PROCESSES - from
  {
    if from == MAX_PROCESSES || !procs[from].used then from else FreePid(procs, from + 1)
  }

  /** The child: a cleared slot, then the parent's descriptors and registers, with EAX 0. */
  function Child(parent: int, fds: seq<int>, r: Regs): Proc {
    Proc(true, false, true, Idle, r.(eax := 0), fds, parent, 0, 0, false, [], [], [], 0)
  }

  function ForkState(s: State, r: Regs, c: int): (t: State)
    requires Shape(s) && IsPid(s.current) && IsPid(c)
  {
    var fds := Me(s).fds;
    SetProc(s, c, Child(s.current, fds, r)).(ready := [c] + s.ready, handles := AddRefs(s.handles, fds))
  }

  function AddRefs(handles: map<int, Handle>, fds: seq<int>): map<int, Handle> {
    map h | h in handles :: handles[h].(refcount := handles[h].refcount + multiset(fds)[h])
  }

  function DoFork(s: State, r: Regs): (o: Outcome)
    requires Running(s, Fork)
  {
    var c := FreePid(s.procs, 1);
    if c == MAX_PROCESSES then Outcome(s, -EAGAIN) else Outcome(ForkState(s, r, c), c)
  }

  lemma ListedBorn(procs: seq<Proc>, ready: seq<int>, suspended: seq<int>, c: int, proc: Proc)
    requires |procs| == MAX_PROCESSES && IsPid(c) && !Live(procs[c]) && Live(proc) && proc.ready
    requires Listed(procs, ready, true) && Listed(procs, suspended, false)
    ensures Listed(procs[c := proc], [c] + ready, true) && Listed(procs[c := proc], suspended, false)
  {
  }

  lemma ForkCounts(s: State, p: int, c: int, child: Proc)
    requires Shape(s) && IsPid(p) && IsPid(c) && Live(s.procs[p]) && !Live(s.procs[c])
    requires Live(child) && child.fds == s.procs[p].fds
    requires Counted(s.handles, Slots(s.procs, MAX_PROCESSES), multiset{})
    ensures Counted(AddRefs(s.handles, child.fds), Slots(s.procs[c := child], MAX_PROCESSES), multiset{})
  {
    SlotsUpdate(s.procs, c, child, MAX_PROCESSES);
    SlotsUpdate(s.procs, p, s.procs[p], MAX_PROCESSES);
    var slots, fds := Slots(s.procs, MAX_PROCESSES), child.fds;
    assert Slots(s.procs[c := child], MAX_PROCESSES) == slots + multiset(fds);
    CountedFork(s.handles, slots, fds);
  }

  lemma CountedFork(handles: map<int, Handle>, slots: multiset<int>, fds: seq<int>)
    requires Counted(handles, slots, multiset{}) && multiset(fds) <= slots
    ensures Counted(AddRefs(handles, fds), slots + multiset(fds), multiset{})
  {
  }

  lemma BornSleepers(procs: seq<Proc>, c: int, parent: int, fds: seq<int>, r: Regs)
    requires |procs| == MAX_PROCESSES && IsPid(c) && c > 0 && !procs[c].used && IsPid(parent) && Live(procs[parent])
    requires Sleepers(procs, NULL)
    ensures Sleepers(procs[c := Child(parent, fds, r)], NULL)
  {
  }

  lemma ForkKeeps(s: State, r: Regs, c: int)
    requires Inv(s, multiset{}, s.current, NULL) && IsPid(s.current) && Live(s.procs[s.current])
    requires IsPid(c) && c > 0 && !s.procs[c].used
    ensures Inv(ForkState(s, r, c), multiset{}, s.current, NULL)
  {
    hide Listed;
    hide Slots;
    hide Counted;
    hide Ended;
    hide Remembered;
    hide Recorded;
    hide Sleepers;
    hide Sleeper;
    var fds := s.procs[s.current].fds;
    var child := Child(s.current, fds, r);
    ListedBorn(s.procs, s.ready, s.suspended, c, child);
    ForkCounts(s, s.current, c, child);
    AwokenReaders(s.procs, s.handles, s.pipes, c, child);
    KindsMatter(s.procs[c := child], s.handles, AddRefs(s.handles, fds), s.pipes, s.console);
    BornSleepers(s.procs, c, s.current, fds, r);
  }

  lemma ForkElsewhere(s: State, r: Regs, c: int)
    requires Shape(s) && IsPid(s.current) && IsPid(c) && !s.procs[c].used
    ensures Elsewhere(s, ForkState(s, r, c), false)
  {
  }

  lemma DoForkKeeps(s: State, r: Regs)
    requires Running(s, Fork)
    ensures After(s, Fork, DoFork(s, r))
  {
    hide Inv;
    InvShape(s);
    hide Elsewhere;
    ElsewhereSame(s, s, false);
    var c := FreePid(s.procs, 1);
    if c != MAX_PROCESSES {
      ForkKeeps(s, r, c);
      ForkElsewhere(s, r, c);
    }
  }

  // ----- kill and exit -----

  /** Whatever kill_process does to `p`, another process keeps its call, frame and descriptors,
      and stays ready if it was. */
  lemma KillOthers(s: State, p: int, i: int)
    requires Killable(s, p) && IsPid(i) && i != p
    ensures var me := KillProcess(s, p).procs[i];
      && me.inCall == s.procs[i].inCall && me.regs == s.procs[i].regs && me.fds == s.procs[i].fds
      && me.used == s.procs[i].used && me.exited == s.procs[i].exited && (s.procs[i].ready ==> me.ready)
  {
    var b := Bury(s, p);
    DropAllStays(b, s.procs[p].fds);
    DropAllReady(b, s.procs[p].fds, i);
    var t := DropAll(b, s.procs[p].fds);
    assert t.procs[i] == b.procs[i].(ready := t.procs[i].ready);
  }

  lemma {:induction false} DropAllReady(s: State, fds: seq<int>, i: int)
    requires Shape(s) && AllDroppable(s, fds) && IsPid(i)
    ensures s.procs[i].ready ==> DropAll(s, fds).procs[i].ready
    decreases |fds|
  {
    if fds != [] {
      if fds[0] == NULL {
        DropAllReady(s, fds[1..], i);
      } else {
        if s.procs[i].ready { DropOthers(s, fds[0], i); }
        DropAllReady(Drop(s, fds[0]), fds[1..], i);
      }
    }
  }

  function DoKill(s: State, p: int): (o: Outcome)
    requires Running(s, Kill(p))
    requires IsPid(p) && s.procs[p].used ==> Killable(s, p)
  {
    if !IsPid(p) || !s.procs[p].used then Outcome(s, -ESRCH)
    else Outcome(KillProcess(s, p), if p == s.current then -ESUSPEND else 0)
  }

  lemma AllowedKillable(s: State, p: int)
    requires Running(s, Kill(p)) && Allowed(s, Kill(p))
    ensures IsPid(p) && s.procs[p].used ==> Killable(s, p)
  {
    if IsPid(p) && s.procs[p].used { KillKeeps(s, p, s.current); }
  }

  /** kill keeps the invariant whenever its target can be spared by it. */
  lemma DoKillKeeps(s: State, p: int)
    requires Running(s, Kill(p)) && (IsPid(p) && s.procs[p].used ==> Expendable(s.procs[p]))
    ensures IsPid(p) && s.procs[p].used ==> Killable(s, p)
    ensures After(s, Kill(p), DoKill(s, p))
  {
    hide Inv;
    InvShape(s);
    hide Killable;
    hide KillProcess;
    hide Elsewhere;
    ElsewhereSame(s, s, false);
    if IsPid(p) && s.procs[p].used {
      KillKeepsIff(s, p, s.current);
      KillCurrent(s, p);
      KilledElsewhere(s, p);
      KillEnds(s, p);
      if p != s.current { KillOthers(s, p, s.current); }
    }
  }

  lemma KillCurrent(s: State, p: int)
    requires Killable(s, p)
    ensures KillProcess(s, p).current == if s.current == p then NULL else s.current
  {
    DropAllStays(Bury(s, p), s.procs[p].fds);
  }

  lemma KillEnds(s: State, p: int)
    requires Killable(s, p)
    ensures KillProcess(s, p).procs[p].exited
  {
    var b := Bury(s, p);
    DropAllStays(b, s.procs[p].fds);
    var t := DropAll(b, s.procs[p].fds);
    assert t.procs[p] == b.procs[p].(ready := t.procs[p].ready);
  }

  lemma KilledElsewhere(s: State, p: int)
    requires Shape(s) && Killable(s, p)
    ensures Elsewhere(s, KillProcess(s, p), false)
  {
    hide Killable;
    hide KillProcess;
    KillEnds(s, p);
    forall i | IsPid(i) && i != p
      ensures KillProcess(s, p).procs[i].inCall == s.procs[i].inCall
      ensures KillProcess(s, p).procs[i].regs == s.procs[i].regs
    {
      KillOthers(s, p, i);
    }
  }

  function DoExit(s: State, status: int): (o: Outcome)
    requires Running(s, Exit(status))
  {
    var t := SetProc(s, s.current, Me(s).(status := status));
    ExitReady(s, status);
    Outcome(KillProcess(t, s.current), -ESUSPEND)
  }

  lemma ExitReady(s: State, status: int)
    requires Running(s, Exit(status))
    ensures var t := SetProc(s, s.current, s.procs[s.current].(status := status));
      Inv(t, multiset{}, s.current, NULL) && Killable(t, s.current)
  {
    hide Inv;
    InvShape(s);
    BlockedAsleep(s, s.current);
    TweakKeeps(s, s.current, Me(s).(status := status), s.current);
    KillKeeps(SetProc(s, s.current, Me(s).(status := status)), s.current, s.current);
  }

  lemma DoExitKeeps(s: State, status: int)
    requires Running(s, Exit(status))
    ensures After(s, Exit(status), DoExit(s, status))
  {
    hide Inv;
    InvShape(s);
    hide Killable;
    hide KillProcess;
    ExitReady(s, status);
    var t := SetProc(s, s.current, Me(s).(status := status));
    KillKeeps(t, s.current, s.current);
    KilledElsewhere(t, s.current);
    KillEnds(t, s.current);
  }
}
