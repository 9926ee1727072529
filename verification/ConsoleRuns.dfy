/** The console over whole runs: what processes read is what was typed, in that order. */
module ConsoleRuns {
  import opened Bytes
  import opened ProcessState
  import opened ProcessInvariant
  import opened ProcessCalls
  import opened DescriptorCalls
  import opened Scheduler
  import opened StartUp
  import opened CallOutcomes
  import opened Answering
  import opened KernelLives
  import opened KernelRuns

  /** From `s` to `t` pipes may go, but nothing is written. */
  ghost predicate Unwritten(s: State, t: State) {
    && t.console == s.console
    && forall q | q in t.pipes :: q in s.pipes && t.pipes[q].written == s.pipes[q].written
  }

  /** Nothing is written to the console. */
  ghost predicate Untyped(s: State, t: State) {
    && t.console == s.console && s.console in s.pipes && t.console in t.pipes
    && t.pipes[t.console].written == s.pipes[s.console].written
  }

  lemma ConsoleThere(s: State, busy: int)
    requires Inv(s, multiset{}, busy, NULL)
    ensures Shape(s) && s.console in s.pipes
    ensures s.pipes[s.console].written == s.pipes[s.console].taken + s.pipes[s.console].data
    ensures forall h | h in s.handles && s.handles[h].kind.Writer? ::
              s.handles[h].kind.w in s.pipes && s.handles[h].kind.w != s.console
  {
  }

  // ----- closing -----

  lemma DropUnwritten(s: State, h: int)
    requires Shape(s) && Droppable(s, h)
    ensures Unwritten(s, Drop(s, h))
  {
    DropPipes(s, h);
    DropHandles(s, h);
  }

  lemma {:induction false} DropAllUnwritten(s: State, fds: seq<int>)
    requires Shape(s) && AllDroppable(s, fds)
    ensures Unwritten(s, DropAll(s, fds))
    decreases |fds|
  {
    hide Droppable;
    hide Drop;
    if fds != [] {
      if fds[0] == NULL {
        DropAllUnwritten(s, fds[1..]);
      } else {
        DropUnwritten(s, fds[0]);
        DropAllUnwritten(Drop(s, fds[0]), fds[1..]);
      }
    }
  }

  lemma KillUnwritten(s: State, p: int)
    requires Killable(s, p)
    ensures Unwritten(s, KillProcess(s, p))
  {
    hide AllDroppable;
    hide DropAll;
    DropAllUnwritten(Bury(s, p), s.procs[p].fds);
  }

  lemma CloseUnwritten(s: State, fd: int)
    requires Running(s, Close(fd))
    ensures Unwritten(s, DoClose(s, fd).s)
  {
    hide Inv;
    hide Drop;
    InvShape(s);
    if !BadFd(s, fd) {
      DropCleared(s, s.current, fd);
      DropUnwritten(SetProc(s, s.current, Me(s).(fds := Me(s).fds[fd := NULL])), Me(s).fds[fd]);
    }
  }

  lemma Dup2Unwritten(s: State, oldfd: int, newfd: int)
    requires Running(s, Dup2(oldfd, newfd))
    ensures Unwritten(s, DoDup2(s, oldfd, newfd).s)
  {
    hide Inv;
    hide Drop;
    InvShape(s);
    if !BadFd(s, oldfd) && IsFd(newfd) && oldfd != newfd && !BadFd(s, newfd) {
      DropCleared(s, s.current, newfd);
      DropUnwritten(SetProc(s, s.current, Me(s).(fds := Me(s).fds[newfd := NULL])), Me(s).fds[newfd]);
    }
  }

  lemma ExitUnwritten(s: State, status: int)
    requires Running(s, Exit(status))
    ensures Unwritten(s, DoExit(s, status).s)
  {
    hide Inv;
    hide Killable;
    hide KillProcess;
    InvShape(s);
    ExitReady(s, status);
    KillUnwritten(SetProc(s, s.current, Me(s).(status := status)), s.current);
  }

  // ----- calls -----

  lemma WriteUntyped(s: State, fd: int, data: seq<Byte>)
    requires Running(s, Write(fd, data))
    ensures Shape(s) && s.console in s.pipes
    ensures var t := DoWrite(s, fd, data).s;
      t.console == s.console && s.console in t.pipes
      && t.pipes[s.console].written == s.pipes[s.console].written
  {
    ConsoleThere(s, s.current);
    hide Inv;
    WriteElsewhere(s, fd, data);
    WriteConsole(s, fd, data);
    if !BadFd(s, fd) && s.handles[Me(s).fds[fd]].kind.Writer? {
      WriteTouches(s, fd, data, s.handles[Me(s).fds[fd]].kind.w);
    }
  }

  lemma WriteConsole(s: State, fd: int, data: seq<Byte>)
    requires Running(s, Write(fd, data))
    ensures DoWrite(s, fd, data).s.console == s.console
  {
    hide Inv;
    InvShape(s);
    if !BadFd(s, fd) {
      HandleExists(s, s.current, fd);
      if s.handles[Me(s).fds[fd]].kind.Writer? { WriterIn(s, Me(s).fds[fd], data); }
    }
  }

  /** No system call writes to the console pipe: only the keyboard does. */
  lemma CallUntyped(s: State, call: Call, r: Regs)
    requires Running(s, call) && Allowed(s, call)
    ensures Untyped(s, Exec(s, call, r).s)
  {
    hide Inv;
    hide Running;
    hide Allowed;
    hide DoWrite;
    hide DoClose;
    hide DoDup2;
    hide DoKill;
    hide DoExit;
    hide DoSend;
    hide DoRead;
    hide DoReceive;
    hide DoWaitpid;
    hide DoPipe;
    hide DoOpen;
    hide DoFork;
    hide Sendable;
    hide Killable;
    BothThere(s, call, r);
    match call
    case Exit(status) => ExitUnwritten(s, status);
    case Write(fd, data) => WriteUntyped(s, fd, data);
    case Read(fd, count, fileCount) => ReadUndisturbed(s, fd, count, fileCount);
    case Send(to, tag, body) =>
      AllowedSendable(s, to, tag, body);
      SendDelivers(s, to, tag, body);
    case Receive(block) => ReceiveTakesOldest(s, block);
    case Close(fd) => CloseUnwritten(s, fd);
    case MakePipe => OldPipes(s);
    case Dup2(oldfd, newfd) => Dup2Unwritten(s, oldfd, newfd);
    case Fork => ForkUnwritten(s, r);
    case Waitpid(pid) => WaitpidTouches(s, pid);
    case Kill(p) => KillCallUnwritten(s, p);
    case Open(failure) => OpenUnwritten(s, failure);
    case GetErrno =>
    case Brk(_) =>
    case Execve(_, _, _) =>
    case Other(_) =>
  }

  lemma BothThere(s: State, call: Call, r: Regs)
    requires Running(s, call) && Allowed(s, call)
    ensures Shape(s) && s.console in s.pipes && Exec(s, call, r).s.console in Exec(s, call, r).s.pipes
  {
    hide Exec;
    ExecKeeps(s, call, r);
    ConsoleThere(s, s.current);
    ConsoleThere(Exec(s, call, r).s, s.current);
  }

  lemma OldPipes(s: State)
    requires Running(s, MakePipe)
    ensures var t := DoPipe(s).s;
      t.console == s.console && forall q | q in s.pipes :: q in t.pipes && t.pipes[q] == s.pipes[q]
  {
    hide Inv;
    InvShape(s);
    PipeTouches(s);
  }

  lemma ForkUnwritten(s: State, r: Regs)
    requires Running(s, Fork)
    ensures Unwritten(s, DoFork(s, r).s)
  {
    hide Inv;
    InvShape(s);
  }

  lemma OpenUnwritten(s: State, failure: nat)
    requires Running(s, Open(failure))
    ensures Unwritten(s, DoOpen(s, failure).s)
  {
    hide Inv;
    InvShape(s);
  }

  lemma KillCallUnwritten(s: State, p: int)
    requires Running(s, Kill(p)) && Allowed(s, Kill(p))
    ensures IsPid(p) && s.procs[p].used ==> Killable(s, p)
    ensures Unwritten(s, DoKill(s, p).s)
  {
    hide Inv;
    hide Killable;
    hide KillProcess;
    InvShape(s);
    AllowedKillable(s, p);
    if IsPid(p) && s.procs[p].used { KillUnwritten(s, p); }
  }

  // ----- interrupts -----

  lemma ServedUntyped(s: State, r: Regs, t: State, r': Regs)
    requires Entering(s, r) && Served(s, r, t, r')
    ensures Untyped(s, t)
  {
    hide Inv;
    hide Exec;
    hide Pending;
    MadeWell(s, r);
    CallUntyped(Enter(s, r.call), r.call, r);
    var o := Made(s, r);
    if o.res == -ESUSPEND { SwitchedUndisturbed(o.s, r, t, r'); }
  }

  /** The key that an interrupt puts into the console pipe, if it is one that does. */
  function Key(s: State, e: Event): seq<Byte>
    requires s.console in s.pipes
  {
    if e.Typed? && Enters(s, e.key) then [e.key] else []
  }

  lemma TypedConsole(s: State, r: Regs, key: Byte, room: bool, t: State, r': Regs)
    requires Stable(s) && Shape(s) && s.console in s.pipes && Handled(s, r, Typed(key), room, t, r')
    ensures t.console == s.console && s.console in t.pipes
    ensures t.pipes[s.console].written == s.pipes[s.console].written + Key(s, Typed(key))
  {
    hide Inv;
    hide Switched;
    hide Switching;
    hide FramesKept;
    hide SameLives;
    hide Arrived;
    KeyArrives(s, key);
    SwitchedUndisturbed(Arrived(s, key), r, t, r');
  }

  lemma FaultConsole(s: State, r: Regs, room: bool, t: State, r': Regs)
    requires Stable(s) && Shape(s) && s.console in s.pipes && Handled(s, r, Fault, room, t, r')
    ensures Untyped(s, t)
  {
    hide Inv;
    hide Switched;
    hide Switching;
    hide FramesKept;
    hide SameLives;
    hide KillProcess;
    hide Killable;
    if s.current != NULL {
      var u := KillProcess(s, s.current);
      KillUnwritten(s, s.current);
      StillThere(s);
      SwitchedUndisturbed(u, r, t, r');
    }
  }

  lemma TrapConsole(s: State, r: Regs, call: Call, rest: int, room: bool, t: State, r': Regs)
    requires Stable(s) && Shape(s) && s.console in s.pipes && Handled(s, r, Trap(call, rest), room, t, r')
    ensures Untyped(s, t)
  {
    hide Inv;
    hide Served;
    hide FramesKept;
    hide Allowed;
    hide Entering;
    if !(t == s && r' == r) { ServedUntyped(s, TrapFrame(call, rest), t, r'); }
  }

  lemma TimerConsole(s: State, r: Regs, room: bool, t: State, r': Regs)
    requires Stable(s) && Shape(s) && s.console in s.pipes && Handled(s, r, Timer, room, t, r')
    ensures Untyped(s, t)
  {
    hide Inv;
    hide Switched;
    hide Switching;
    hide FramesKept;
    hide SameLives;
    SwitchedUndisturbed(s, r, t, r');
  }

  lemma FollowsConsole(m: Moment, e: Event, n: Moment)
    requires Follows(m, e, n)
    ensures n.s.console == m.s.console && m.s.console in m.s.pipes && n.s.console in n.s.pipes
    ensures n.s.pipes[n.s.console].written == m.s.pipes[m.s.console].written + Key(m.s, e)
  {
    ConsoleThere(m.s, NULL);
    hide Inv;
    hide Handled;
    hide Affordable;
    hide MemoryAfter;
    var room := e.Trap? && Affordable(e.call, m.s.current, m.homes.spaces, m.homes.room);
    match e
    case Timer => TimerConsole(m.s, m.r, room, n.s, n.r);
    case Typed(key) => TypedConsole(m.s, m.r, key, room, n.s, n.r);
    case Fault => FaultConsole(m.s, m.r, room, n.s, n.r);
    case Trap(call, rest) => TrapConsole(m.s, m.r, call, rest, room, n.s, n.r);
  }

  lemma StillThere(s: State)
    requires Stable(s) && s.current != NULL && Killable(s, s.current)
    ensures KillProcess(s, s.current).console in KillProcess(s, s.current).pipes
  {
    FaultKeeps(s);
    ConsoleThere(KillProcess(s, s.current), NULL);
  }

  // ----- runs -----

  /** The keys that went into the console pipe before moment `i`. */
  ghost function Typing(trace: seq<Moment>, events: seq<Event>, i: nat): seq<Byte>
    requires i <= |events| == |trace| - 1
    requires forall j | 0 <= j < i :: trace[j].s.console in trace[j].s.pipes
  {
    if i == 0 then [] else Typing(trace, events, i - 1) + Key(trace[i - 1].s, events[i - 1])
  }

  /** In every run, what processes have read from the console followed by what still waits there is what was
      typed, less the keys for which the pipe had no room. */
  lemma {:induction false} ReadAsTyped(trace: seq<Moment>, r0: Regs, events: seq<Event>, i: nat)
    requires History(trace, r0, events) && i <= |events|
    ensures forall j | 0 <= j <= i :: trace[j].s.console == trace[0].s.console && trace[j].s.console in trace[j].s.pipes
    ensures var console := trace[i].s.pipes[trace[i].s.console];
      console.taken + console.data == console.written == Typing(trace, events, i)
  {
    hide Inv;
    hide Follows;
    if i == 0 {
      assert trace[0].s == Boot(r0);
    } else {
      ReadAsTyped(trace, r0, events, i - 1);
      assert Follows(trace[i - 1], events[i - 1], trace[i]);
      FollowsConsole(trace[i - 1], events[i - 1], trace[i]);
      FollowsStable(trace[i - 1], events[i - 1], trace[i]);
      ConsoleThere(trace[i].s, NULL);
    }
  }

  lemma FollowsStable(m: Moment, e: Event, n: Moment)
    requires Follows(m, e, n)
    ensures Stable(n.s)
  {
  }
}
