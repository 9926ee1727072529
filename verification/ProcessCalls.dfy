/** The system calls, each a function from the state in which the current process has entered
    the call to the state after it and the handler's result. */
module ProcessCalls {
  import opened Bytes
  import opened ProcessState
  import opened ProcessInvariant
  import opened ProcessSteps

  datatype Outcome = Outcome(s: State, res: int)

  /** The current process is executing `call`. */
  ghost predicate Running(s: State, call: Call) {
    && Inv(s, multiset{}, s.current, NULL)
    && IsPid(s.current) && Live(s.procs[s.current]) && s.procs[s.current].ready
    && s.procs[s.current].inCall == In(call)
  }

  /** What runs may ask for: no message is delivered to a process after it has exited, none is
      killed after it has exited or while it sleeps in a read, and pipes stay below 2 GB.
      `SendKeepsIff` and `KillKeepsIff` say exactly when the first two would do harm. */
  predicate Allowed(s: State, call: Call)
    requires Shape(s)
  {
    match call
    case Write(fd, data) => RoomFor(s, fd, |data|)
    case Send(to, _, body) => Delivers(s, to, body) ==> !s.procs[to].exited
    case Kill(p) => IsPid(p) && s.procs[p].used ==> !s.procs[p].exited && !InRead(s.procs[p])
    case Open(failure) => failure != ESUSPEND
    case Execve(failure, _, _) => failure != ESUSPEND
    case Other(res) => res != -ESUSPEND
    case _ => true
  }

  /** If descriptor `fd` is the writing end of a pipe, `n` more bytes keep the pipe small. */
  predicate RoomFor(s: State, fd: int, n: nat)
    requires Shape(s)
  {
    IsPid(s.current) && IsFd(fd) && s.procs[s.current].fds[fd] in s.handles ==>
      match s.handles[s.procs[s.current].fds[fd]].kind
      case Writer(q) => q in s.pipes ==> |s.pipes[q].data| + n < PIPE_LIMIT
      case _ => true
  }

  /** A message gets past the checks of syscall_send and into the mailbox. */
  predicate Delivers(s: State, to: int, body: seq<Byte>)
    requires Shape(s)
  {
    IsPid(to) && s.procs[to].used && |body| <= MAX_MESSAGE_SIZE && |s.procs[to].mailbox| < MAILBOX
  }

  /** The assert of resume_process that syscall_send runs into. */
  predicate Sendable(s: State, to: int, body: seq<Byte>)
    requires Shape(s)
  {
    Delivers(s, to, body) && s.procs[to].blocked ==> !s.procs[to].ready
  }

  function Me(s: State): Proc
    requires Shape(s) && IsPid(s.current)
  {
    s.procs[s.current]
  }

  predicate IsFd(fd: int) {
    0 <= fd < MAX_FDS
  }

  /** Processes other than the caller keep their calls and saved frames; a call that can block
      (`quiet`) neither wakes nor ends any of them. */
  ghost predicate Elsewhere(s: State, t: State, quiet: bool)
    requires |s.procs| == |t.procs| == MAX_PROCESSES
  {
    forall i | IsPid(i) && i != s.current ::
      && (Live(s.procs[i]) && Live(t.procs[i]) ==>
            t.procs[i].inCall == s.procs[i].inCall && t.procs[i].regs == s.procs[i].regs)
      && (quiet ==> Live(t.procs[i]) == Live(s.procs[i]) && t.procs[i].ready == s.procs[i].ready)
  }

  /** After a call its caller still runs it, or sleeps in it, or is dead; the invariant holds. */
  ghost predicate After(s: State, call: Call, o: Outcome) {
    && Inv(o.s, multiset{}, s.current, NULL)
    && IsPid(s.current) && |o.s.procs| == |s.procs| == MAX_PROCESSES
    && Elsewhere(s, o.s, Blocking(call))
    && (o.res == -ESUSPEND ==>
          o.s.current == NULL || (o.s.current == s.current && !o.s.procs[s.current].ready
                && Live(o.s.procs[s.current])))
    && (o.res != -ESUSPEND ==>
          o.s.current == s.current && Live(o.s.procs[s.current]) && o.s.procs[s.current].ready)
    && (o.s.current != NULL ==> o.s.procs[s.current].inCall == In(call))
    && (o.s.current == NULL ==> !Live(o.s.procs[s.current]) && !Blocking(call))
  }

  lemma ElsewhereSame(s: State, t: State, quiet: bool)
    requires |s.procs| == |t.procs| == MAX_PROCESSES
    requires forall i :: IsPid(i) && i != s.current ==> t.procs[i] == s.procs[i].(ready := t.procs[i].ready)
    requires quiet ==> forall i :: IsPid(i) && i != s.current ==> t.procs[i].ready == s.procs[i].ready
    ensures Elsewhere(s, t, quiet)
  {
  }

  lemma InvShape(s: State)
    requires Inv(s, multiset{}, s.current, NULL)
    ensures Shape(s)
  {
  }

  lemma NamesNew(s: State)
    requires Inv(s, multiset{}, s.current, NULL)
    ensures s.next !in s.pipes
  {
  }

  // ----- changing the running process -----

  /** Fields of a ready process that no invariant speaks of. */
  lemma TweakKeeps(s: State, p: int, proc: Proc, busy: int)
    requires Inv(s, multiset{}, busy, NULL) && IsPid(p) && Live(s.procs[p]) && s.procs[p].ready
    requires proc.used && !proc.exited && proc.ready && proc.fds == s.procs[p].fds && proc.parent == s.procs[p].parent
    requires proc.waitingOn <= 0 && !proc.blocked && |proc.mailbox| <= MAILBOX
    requires proc.sent == proc.received + proc.mailbox
    requires p == busy || proc.inCall.Idle? || (proc.inCall == s.procs[p].inCall && proc.regs == s.procs[p].regs)
    ensures Inv(SetProc(s, p, proc), multiset{}, busy, NULL)
  {
    hide Listed;
    hide Slots;
    hide Counted;
    hide Ended;
    hide Remembered;
    hide Recorded;
    hide Sleepers;
    hide Sleeper;
    var procs := s.procs[p := proc];
    ListedSame(s.procs, procs, s.ready, true);
    ListedSame(s.procs, procs, s.suspended, false);
    SlotsSame(s.procs, procs, MAX_PROCESSES);
    AwokenReaders(s.procs, s.handles, s.pipes, p, proc);
    TweakSleepers(s.procs, p, proc);
  }

  lemma TweakSleepers(procs: seq<Proc>, p: int, proc: Proc)
    requires |procs| == MAX_PROCESSES && IsPid(p) && Sleepers(procs, NULL) && Live(procs[p]) && procs[p].ready
    requires proc.used && !proc.exited && proc.ready && proc.parent == procs[p].parent
    requires proc.waitingOn <= 0 && !proc.blocked && |proc.mailbox| <= MAILBOX
    requires proc.sent == proc.received + proc.mailbox
    ensures Sleepers(procs[p := proc], NULL)
  {
  }

  // ----- write and read -----

  function DoWrite(s: State, fd: int, data: seq<Byte>): (o: Outcome)
    requires Running(s, Write(fd, data))
  {
    if !IsFd(fd) || Me(s).fds[fd] == NULL then Outcome(s, -EBADF)
    else
      HandleExists(s, s.current, fd);
      match s.handles[Me(s).fds[fd]].kind
      case Screen => Outcome(s, |data|)
      case Reader(_) => Outcome(s, -EINVAL)
      case Plain => Outcome(s, -EBADF)
      case Writer(q) =>
        WriterEnd(s.handles, s.pipes, s.console, Me(s).fds[fd]);
        WritePipeKeeps(s, q, data, multiset{}, s.current, NULL);
        Outcome(WritePipe(s, q, data), |data|)
  }

  lemma HandleExists(s: State, p: int, fd: int)
    requires Inv(s, multiset{}, s.current, NULL) && IsPid(p) && Live(s.procs[p]) && IsFd(fd)
    ensures s.procs[p].fds[fd] != NULL ==> s.procs[p].fds[fd] in s.handles
  {
    SlotCounted(s.procs, p, fd);
  }

  lemma WriteOthers(s: State, q: int, data: seq<Byte>, p: int)
    requires Shape(s) && Wakeable(s, q) && IsPid(p) && s.procs[p].ready
    ensures WritePipe(s, q, data).procs[p] == s.procs[p]
  {
  }

  lemma DoWriteKeeps(s: State, fd: int, data: seq<Byte>)
    requires Running(s, Write(fd, data))
    ensures After(s, Write(fd, data), DoWrite(s, fd, data))
  {
    hide Inv;
    InvShape(s);
    if IsFd(fd) && Me(s).fds[fd] != NULL {
      HandleExists(s, s.current, fd);
      var h := Me(s).fds[fd];
      if s.handles[h].kind.Writer? {
        WriterIn(s, h, data);
        var q := s.handles[h].kind.w;
        WritePipeKeeps(s, q, data, multiset{}, s.current, NULL);
        WriteOthers(s, q, data, s.current);
        ElsewhereSame(s, WritePipe(s, q, data), false);
      }
    }
  }

  lemma WriterIn(s: State, h: int, data: seq<Byte>)
    requires Inv(s, multiset{}, s.current, NULL) && h in s.handles && s.handles[h].kind.Writer?
    ensures s.handles[h].kind.w in s.pipes && Wakeable(s, s.handles[h].kind.w)
  {
    WriterEnd(s.handles, s.pipes, s.console, h);
    WritePipeKeeps(s, s.handles[h].kind.w, data, multiset{}, s.current, NULL);
  }

  lemma ReaderIn(s: State, h: int)
    requires Inv(s, multiset{}, s.current, NULL) && h in s.handles && s.handles[h].kind.Reader?
    ensures s.handles[h].kind.r in s.pipes
  {
    ReaderEnd(s.handles, s.pipes, s.console, h);
  }

  function DoRead(s: State, fd: int, count: nat, fileCount: nat): (o: Outcome)
    requires Running(s, Read(fd, count, fileCount))
  {
    if !IsFd(fd) || Me(s).fds[fd] == NULL then Outcome(s, -EBADF)
    else
      HandleExists(s, s.current, fd);
      match s.handles[Me(s).fds[fd]].kind
      case Screen => Outcome(s, -EINVAL)
      case Writer(_) => Outcome(s, -EINVAL)
      case Plain => Outcome(s, fileCount)
      case Reader(q) =>
        ReaderEnd(s.handles, s.pipes, s.console, Me(s).fds[fd]);
        var pipe := s.pipes[q];
        if pipe.readpid != NULL then Outcome(s, -EBADF)
        else if pipe.data != [] then
          var copy := if count < |pipe.data| then count else |pipe.data|;
          Outcome(s.(pipes := s.pipes[q := Take(pipe, copy)]), copy)
        else if !pipe.writing then Outcome(s, 0)
        else Outcome(Suspend(s.(pipes := s.pipes[q := pipe.(readpid := s.current)]), s.current), -ESUSPEND)
  }

  lemma DoReadKeeps(s: State, fd: int, count: nat, fileCount: nat)
    requires Running(s, Read(fd, count, fileCount))
    ensures After(s, Read(fd, count, fileCount), DoRead(s, fd, count, fileCount))
  {
    hide Inv;
    InvShape(s);
    if IsFd(fd) && Me(s).fds[fd] != NULL {
      HandleExists(s, s.current, fd);
      var h := Me(s).fds[fd];
      if s.handles[h].kind.Reader? {
        ReaderIn(s, h);
        var q := s.handles[h].kind.r;
        var pipe := s.pipes[q];
        if pipe.readpid == NULL {
          if pipe.data != [] {
            var copy := if count < |pipe.data| then count else |pipe.data|;
            PipeLedger(s, q, multiset{}, s.current, NULL);
            DataKeeps(s, q, Take(pipe, copy), multiset{}, s.current, NULL);
          } else if pipe.writing {
            SleepInRead(s, fd, h, q);
          }
        }
      }
    }
  }

  lemma SleepInRead(s: State, fd: int, h: int, q: int)
    requires Inv(s, multiset{}, s.current, NULL) && IsPid(s.current) && Live(s.procs[s.current])
    requires s.procs[s.current].ready
    requires s.procs[s.current].inCall.In? && s.procs[s.current].inCall.call.Read?
    requires s.procs[s.current].inCall.call.fd == fd && IsFd(fd) && s.procs[s.current].fds[fd] == h
    requires h in s.handles && s.handles[h].kind == Reader(q) && q in s.pipes
    requires s.pipes[q].readpid == NULL && s.pipes[q].data == [] && s.pipes[q].writing
    ensures Inv(Suspend(s.(pipes := s.pipes[q := s.pipes[q].(readpid := s.current)]), s.current),
                multiset{}, s.current, NULL)
  {
    hide Listed;
    hide Slots;
    hide Counted;
    hide Ended;
    hide Remembered;
    hide Recorded;
    hide Sleepers;
    hide Sleeper;
    hide Framed;
    var p := s.current;
    var me := s.procs[p].(ready := false);
    var procs := s.procs[p := me];
    var pipes := s.pipes[q := s.pipes[q].(readpid := p)];
    ListedMove(s.procs, procs, s.ready, s.suspended, p, false);
    SlotsSame(s.procs, procs, MAX_PROCESSES);
    EndedSame(s.handles, s.pipes, pipes, s.console);
    AsleepReaders(s.procs, s.handles, s.pipes, p, me, q);
    SleepSleepers(s.procs, p, me);
    FramedSame(s.procs, procs, p);
  }

  lemma AsleepReaders(procs: seq<Proc>, handles: map<int, Handle>, pipes: map<int, Pipe>, p: int, proc: Proc, q: int)
    requires |procs| == MAX_PROCESSES && IsPid(p) && procs[p].ready && InRead(proc) && ReadsFrom(proc, handles, q)
    requires q in pipes && pipes[q].readpid == NULL && pipes[q].data == [] && pipes[q].writing
    requires Remembered(procs, handles, pipes) && Recorded(procs, handles, pipes)
    ensures Remembered(procs[p := proc], handles, pipes[q := pipes[q].(readpid := p)])
    ensures Recorded(procs[p := proc], handles, pipes[q := pipes[q].(readpid := p)])
  {
  }

  /** The running process goes to sleep for one of the three reasons. */
  lemma SleepSleepers(procs: seq<Proc>, p: int, proc: Proc)
    requires |procs| == MAX_PROCESSES && IsPid(p) && Sleepers(procs, NULL) && Live(procs[p]) && procs[p].ready
    requires proc.used && !proc.exited && !proc.ready && proc.parent == procs[p].parent && proc.inCall.In?
    requires proc.mailbox == procs[p].mailbox && proc.sent == procs[p].sent && proc.received == procs[p].received
    requires match proc.inCall.call
      case Read(_, _, _) => proc.waitingOn == procs[p].waitingOn && proc.blocked == procs[p].blocked
      case Waitpid(c) => c > 0 && proc.waitingOn == c && IsPid(c) && Live(procs[c]) && procs[c].parent == p
                         && proc.blocked == procs[p].blocked
      case Receive(_) => proc.blocked && proc.mailbox == [] && proc.waitingOn == procs[p].waitingOn
      case _ => false
    ensures Sleepers(procs[p := proc], NULL)
  {
  }

  /** Going to sleep for a reason other than a read. */
  lemma SleepKeeps(s: State, proc: Proc)
    requires Inv(s, multiset{}, s.current, NULL) && IsPid(s.current) && Live(s.procs[s.current])
    requires s.procs[s.current].ready
    requires proc.used && !proc.exited && !proc.ready && proc.fds == s.procs[s.current].fds
    requires proc.parent == s.procs[s.current].parent && proc.inCall.In? && proc.mailbox == s.procs[s.current].mailbox
    requires proc.sent == s.procs[s.current].sent && proc.received == s.procs[s.current].received
    requires match proc.inCall.call
      case Waitpid(c) => c > 0 && proc.waitingOn == c && IsPid(c) && Live(s.procs[c]) && s.procs[c].parent == s.current
                         && proc.blocked == s.procs[s.current].blocked
      case Receive(_) => proc.blocked && proc.mailbox == [] && proc.waitingOn == s.procs[s.current].waitingOn
      case _ => false
    ensures var p := s.current;
      Inv(s.(procs := s.procs[p := proc], ready := Without(s.ready, p), suspended := [p] + s.suspended),
          multiset{}, p, NULL)
  {
    hide Listed;
    hide Slots;
    hide Counted;
    hide Ended;
    hide Remembered;
    hide Recorded;
    hide Sleepers;
    hide Sleeper;
    var p := s.current;
    var procs := s.procs[p := proc];
    ListedMove(s.procs, procs, s.ready, s.suspended, p, false);
    SlotsSame(s.procs, procs, MAX_PROCESSES);
    AwokenReaders(s.procs, s.handles, s.pipes, p, proc);
    SleepSleepers(s.procs, p, proc);
  }

  // ----- send, receive, waitpid -----

  function DoSend(s: State, to: int, tag: int, body: seq<Byte>): (o: Outcome)
    requires Running(s, Send(to, tag, body)) && Sendable(s, to, body)
  {
    if !IsPid(to) || !s.procs[to].used then Outcome(s, -ESRCH)
    else if |body| > MAX_MESSAGE_SIZE then Outcome(s, -EINVAL)
    else if |s.procs[to].mailbox| >= MAILBOX then Outcome(s, -ENOMEM)
    else
      var msg := Message(s.current, tag, body);
      var t := SetProc(s, to, Deliver(s.procs[to], msg));
      if s.procs[to].blocked then
        var u := Resume(t, to);
        Outcome(SetProc(u, to, u.procs[to].(blocked := false)), 0)
      else Outcome(t, 0)
  }

  lemma BlockedAsleep(s: State, p: int)
    requires Inv(s, multiset{}, s.current, NULL) && IsPid(p) && Live(s.procs[p])
    ensures s.procs[p].blocked ==> !s.procs[p].ready && s.procs[p].mailbox == [] && s.procs[p].waitingOn <= 0
                                   && s.procs[p].inCall.In? && s.procs[p].inCall.call.Receive?
    ensures s.procs[p].ready ==> s.procs[p].waitingOn <= 0
    ensures |s.procs[p].mailbox| <= MAILBOX && s.procs[p].sent == s.procs[p].received + s.procs[p].mailbox
  {
  }

  /** A live receiver meets the assert. */
  lemma AllowedSendable(s: State, to: int, tag: int, body: seq<Byte>)
    requires Running(s, Send(to, tag, body)) && Allowed(s, Send(to, tag, body))
    ensures Sendable(s, to, body)
  {
    if Delivers(s, to, body) { BlockedAsleep(s, to); }
  }

  /** Delivery keeps the invariant, unless it wakes a dead process. */
  lemma DoSendKeeps(s: State, to: int, tag: int, body: seq<Byte>)
    requires Running(s, Send(to, tag, body)) && Sendable(s, to, body)
    requires Delivers(s, to, body) ==> !s.procs[to].exited || !s.procs[to].blocked
    ensures After(s, Send(to, tag, body), DoSend(s, to, tag, body))
  {
    hide Inv;
    InvShape(s);
    if Delivers(s, to, body) {
      var msg := Message(s.current, tag, body);
      if s.procs[to].blocked {
        BlockedAsleep(s, to);
        WokenMailKeeps(s, to, msg);
        var me := Deliver(s.procs[to], msg).(ready := true, blocked := false);
        assert DoSend(s, to, tag, body).s.procs == s.procs[to := me];
      } else {
        MailKeeps(s, to, msg);
      }
    }
  }

  lemma MailKeeps(s: State, p: int, msg: Message)
    requires Inv(s, multiset{}, s.current, NULL) && IsPid(p) && !s.procs[p].blocked
    requires |s.procs[p].mailbox| < MAILBOX
    ensures Inv(SetProc(s, p, Deliver(s.procs[p], msg)), multiset{}, s.current, NULL)
  {
    hide Listed;
    hide Slots;
    hide Counted;
    hide Ended;
    hide Remembered;
    hide Recorded;
    hide Sleepers;
    hide Sleeper;
    var procs := s.procs[p := Deliver(s.procs[p], msg)];
    ListedSame(s.procs, procs, s.ready, true);
    ListedSame(s.procs, procs, s.suspended, false);
    SlotsSame(s.procs, procs, MAX_PROCESSES);
    MailReaders(s.procs, procs, s.handles, s.pipes);
    MailSleepers(s.procs, p, msg);
  }

  lemma MailSleepers(procs: seq<Proc>, p: int, msg: Message)
    requires |procs| == MAX_PROCESSES && IsPid(p) && Sleepers(procs, NULL) && !procs[p].blocked
    requires |procs[p].mailbox| < MAILBOX
    ensures Sleepers(procs[p := Deliver(procs[p], msg)], NULL)
  {
  }

  /** Only liveness, ready flags, calls and descriptors matter to the readers. */
  lemma MailReaders(procs: seq<Proc>, procs': seq<Proc>, handles: map<int, Handle>, pipes: map<int, Pipe>)
    requires |procs| == |procs'| == MAX_PROCESSES
    requires forall i | 0 <= i < MAX_PROCESSES ::
               && Live(procs'[i]) == Live(procs[i]) && procs'[i].ready == procs[i].ready
               && procs'[i].inCall == procs[i].inCall && procs'[i].fds == procs[i].fds
    requires Remembered(procs, handles, pipes) && Recorded(procs, handles, pipes)
    ensures Remembered(procs', handles, pipes) && Recorded(procs', handles, pipes)
  {
  }

  lemma WokenMailKeeps(s: State, p: int, msg: Message)
    requires Inv(s, multiset{}, s.current, NULL) && IsPid(p) && Live(s.procs[p]) && s.procs[p].blocked
    requires !s.procs[p].ready && s.procs[p].mailbox == [] && s.procs[p].waitingOn <= 0
    requires s.procs[p].inCall.In? && s.procs[p].inCall.call.Receive?
    requires s.procs[p].sent == s.procs[p].received + s.procs[p].mailbox
    ensures var me := Deliver(s.procs[p], msg).(ready := true, blocked := false);
      Inv(s.(procs := s.procs[p := me], suspended := Without(s.suspended, p), ready := [p] + s.ready),
          multiset{}, s.current, NULL)
  {
    hide Listed;
    hide Slots;
    hide Counted;
    hide Ended;
    hide Remembered;
    hide Recorded;
    hide Sleepers;
    hide Sleeper;
    var me := Deliver(s.procs[p], msg).(ready := true, blocked := false);
    var procs := s.procs[p := me];
    ListedMove(s.procs, procs, s.suspended, s.ready, p, true);
    SlotsSame(s.procs, procs, MAX_PROCESSES);
    AwokenReaders(s.procs, s.handles, s.pipes, p, me);
    assert (s.procs[p].received + s.procs[p].mailbox) + [msg] == s.procs[p].received + (s.procs[p].mailbox + [msg]);
    WokenMailSleepers(s.procs, p, me);
  }

  lemma WokenMailSleepers(procs: seq<Proc>, p: int, proc: Proc)
    requires |procs| == MAX_PROCESSES && IsPid(p) && Sleepers(procs, NULL) && Live(procs[p]) && procs[p].waitingOn <= 0
    requires proc.used && !proc.exited && proc.ready && proc.parent == procs[p].parent
    requires proc.waitingOn <= 0 && !proc.blocked && |proc.mailbox| <= MAILBOX
    requires proc.sent == proc.received + proc.mailbox
    ensures Sleepers(procs[p := proc], NULL)
  {
  }

  function DoReceive(s: State, block: bool): (o: Outcome)
    requires Running(s, Receive(block))
  {
    if Me(s).mailbox != [] then
      Outcome(SetProc(s, s.current, Fetch(Me(s))), 0)
    else if block then
      Outcome(Suspend(SetProc(s, s.current, Me(s).(blocked := true)), s.current), -ESUSPEND)
    else Outcome(s, -EAGAIN)
  }

  lemma DoReceiveKeeps(s: State, block: bool)
    requires Running(s, Receive(block))
    ensures After(s, Receive(block), DoReceive(s, block))
  {
    hide Inv;
    InvShape(s);
    BlockedAsleep(s, s.current);
    if Me(s).mailbox != [] {
      TweakKeeps(s, s.current, Fetch(Me(s)), s.current);
    } else if block {
      var me := Me(s).(blocked := true, ready := false);
      SleepKeeps(s, me);
      assert DoReceive(s, block).s.procs == s.procs[s.current := me];
    }
  }

  function DoWaitpid(s: State, pid: int): (o: Outcome)
    requires Running(s, Waitpid(pid))
  {
    if !IsPid(pid) then Outcome(s, -ECHILD)
    else
      var t := SetProc(s, s.current, Me(s).(waitingOn := NULL));
      if !t.procs[pid].used || t.procs[pid].parent != s.current then Outcome(t, -ECHILD)
      else if t.procs[pid].exited then Outcome(SetProc(t, pid, t.procs[pid].(used := false)), pid)
      else Outcome(Suspend(SetProc(t, s.current, Me(t).(waitingOn := pid)), s.current), -ESUSPEND)
  }

  lemma DoWaitpidKeeps(s: State, pid: int)
    requires Running(s, Waitpid(pid))
    ensures After(s, Waitpid(pid), DoWaitpid(s, pid))
  {
    hide Inv;
    InvShape(s);
    hide Elsewhere;
    ElsewhereSame(s, s, true);
    if IsPid(pid) {
      BlockedAsleep(s, s.current);
      var t := SetProc(s, s.current, Me(s).(waitingOn := NULL));
      TweakKeeps(s, s.current, Me(s).(waitingOn := NULL), s.current);
      ElsewhereSame(s, t, true);
      ChildPid(t, pid);
      if t.procs[pid].used && t.procs[pid].parent == s.current {
        if t.procs[pid].exited {
          ReapKeeps(t, pid);
          ReapElsewhere(s, t, pid);
        } else {
          var me := Me(t).(waitingOn := pid, ready := false);
          SleepKeeps(t, me);
          assert DoWaitpid(s, pid).s.procs == t.procs[s.current := me];
          ElsewhereSame(s, DoWaitpid(s, pid).s, true);
        }
      }
    }
  }

  lemma ReapElsewhere(s: State, t: State, p: int)
    requires Shape(s) && Shape(t) && IsPid(p) && t.procs[p].exited && Elsewhere(s, t, true)
    ensures Elsewhere(s, SetProc(t, p, t.procs[p].(used := false)), true)
  {
  }

  lemma ChildPid(s: State, p: int)
    requires Inv(s, multiset{}, s.current, NULL) && IsPid(p)
    ensures s.procs[p].used ==> p > 0 && s.procs[p].parent != p
  {
  }

  /** A dead child that has been waited for leaves the table. */
  lemma ReapKeeps(s: State, p: int)
    requires Inv(s, multiset{}, s.current, NULL) && IsPid(p) && s.procs[p].exited
    ensures Inv(SetProc(s, p, s.procs[p].(used := false)), multiset{}, s.current, NULL)
  {
    hide Listed;
    hide Slots;
    hide Counted;
    hide Ended;
    hide Remembered;
    hide Recorded;
    hide Sleepers;
    hide Sleeper;
    var gone := s.procs[p].(used := false);
    ListedSame(s.procs, s.procs[p := gone], s.ready, true);
    ListedSame(s.procs, s.procs[p := gone], s.suspended, false);
    SlotsSame(s.procs, s.procs[p := gone], MAX_PROCESSES);
    AwokenReaders(s.procs, s.handles, s.pipes, p, gone);
    GoneSleepers(s.procs, p, NULL);
  }
}
