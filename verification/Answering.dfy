/** What system calls and switches give back to the processes they go on with, and what a switch leaves
    alone although it may execute calls again. */
module Answering {
  import opened ProcessState
  import opened ProcessInvariant
  import opened ProcessCalls
  import opened Scheduler

  // ----- errno -----

  /** Asking for the error right after a call answers with what that call has come to: 0 if it succeeded,
      and e if it failed with -e. Asking again gives the same answer. */
  lemma ErrnoTold(s: State, r: Regs, t: State, r': Regs, ask: Regs, u: State, r'': Regs)
    requires Entering(s, r) && Made(s, r).res != -ESUSPEND && Served(s, r, t, r')
    requires ask.call.GetErrno? && Entering(t, ask) && Served(t, ask, u, r'')
    ensures Shape(s) && Shape(t) && t.current == s.current
    ensures !r.call.GetErrno? && Made(s, r).res >= 0 ==> r''.eax == 0
    ensures !r.call.GetErrno? && Made(s, r).res < 0 ==> r'.eax == -1 && r''.eax == -Made(s, r).res > 0
    ensures r.call.GetErrno? ==> r''.eax == r'.eax
  {
    hide Entering;
    hide Made;
    hide Switched;
    hide Enter;
    Answered(s, r, t, r');
    Asked(t, ask);
    Answered(t, ask, u, r'');
    if r.call.GetErrno? { Asked(s, r); }
  }

  lemma Answered(s: State, r: Regs, t: State, r': Regs)
    requires Entering(s, r) && Made(s, r).res != -ESUSPEND && Served(s, r, t, r')
    ensures Shape(s) && Shape(t) && IsPid(s.current) && t.current == s.current
    ensures Answers(Made(s, r), r, t, r')
  {
    hide Entering;
    hide Inv;
    hide Switched;
    hide Exec;
    MadeWell(s, r);
  }

  /** GetErrno changes nothing. */
  lemma Asked(s: State, r: Regs)
    requires Entering(s, r) && r.call.GetErrno?
    ensures Shape(s) && IsPid(s.current) && Made(s, r) == Outcome(Enter(s, r.call), Me(s).errno)
    ensures Me(Enter(s, r.call)) == Me(s).(inCall := In(r.call))
  {
    hide Inv;
    MadeWell(s, r);
  }

  // ----- calls executed again -----

  /** Nobody starts or ends, nothing is opened, closed or written, and no message is sent: bytes and messages
      only reach those they were for. */
  ghost predicate Undisturbed(s: State, t: State)
    requires Shape(s) && Shape(t)
  {
    && t.handles == s.handles && t.console == s.console && t.next == s.next && t.pipes.Keys == s.pipes.Keys
    && (forall q | q in s.pipes ::
          t.pipes[q] == s.pipes[q].(data := t.pipes[q].data, taken := t.pipes[q].taken, readpid := t.pipes[q].readpid))
    && (forall p | IsPid(p) ::
          && Live(t.procs[p]) == Live(s.procs[p]) && t.procs[p].fds == s.procs[p].fds
          && t.procs[p].parent == s.procs[p].parent && t.procs[p].sent == s.procs[p].sent
          && t.procs[p].status == s.procs[p].status)
  }

  lemma AgainUndisturbed(s: State, r: Regs)
    requires Entering(s, r) && Blocking(r.call)
    ensures Shape(s) && Undisturbed(s, Made(s, r).s)
  {
    hide Inv;
    hide Entering;
    hide Running;
    hide Allowed;
    hide DoRead;
    hide DoReceive;
    hide DoWaitpid;
    hide Switching;
    hide Pending;
    MadeWell(s, r);
    var e := Enter(s, r.call);
    match r.call
    case Read(fd, count, fileCount) => ReadUndisturbed(e, fd, count, fileCount);
    case Receive(block) => ReceiveUndisturbed(e, block);
    case Waitpid(pid) => WaitUndisturbed(e, pid);
  }

  lemma ReceiveUndisturbed(s: State, block: bool)
    requires Running(s, Receive(block))
    ensures Shape(s) && Shape(DoReceive(s, block).s) && Undisturbed(s, DoReceive(s, block).s)
  {
    hide Inv;
    InvShape(s);
  }

  lemma WaitUndisturbed(s: State, pid: int)
    requires Running(s, Waitpid(pid))
    ensures Shape(s) && Shape(DoWaitpid(s, pid).s) && Undisturbed(s, DoWaitpid(s, pid).s)
  {
    hide Inv;
    InvShape(s);
  }

  lemma ReadUndisturbed(s: State, fd: int, count: nat, fileCount: nat)
    requires Running(s, Read(fd, count, fileCount))
    ensures Shape(s) && Shape(DoRead(s, fd, count, fileCount).s)
    ensures Undisturbed(s, DoRead(s, fd, count, fileCount).s)
  {
    hide Inv;
    InvShape(s);
    if IsFd(fd) && Me(s).fds[fd] != NULL {
      HandleExists(s, s.current, fd);
      if s.handles[Me(s).fds[fd]].kind.Reader? { ReaderIn(s, Me(s).fds[fd]); }
    }
  }

  lemma ServedUndisturbed(s: State, r: Regs, t: State, r': Regs)
    requires Entering(s, r) && Blocking(r.call) && Served(s, r, t, r')
    ensures Shape(s) && Shape(t) && Undisturbed(s, t)
    decreases if s.procs[s.current].inCall.Idle? then 1 else 0, |Pending(s)|, 0
  {
    hide Inv;
    hide Entering;
    hide Switching;
    hide Pending;
    MadeWell(s, r);
    AgainUndisturbed(s, r);
    var o := Made(s, r);
    if o.res == -ESUSPEND { SwitchedUndisturbed(o.s, r, t, r'); }
  }

  /** Whatever calls a switch executes again, they leave all this alone. */
  lemma {:induction false} SwitchedUndisturbed(s: State, r: Regs, t: State, r': Regs)
    requires Switching(s, r) && Switched(s, r, t, r')
    ensures Shape(s) && Shape(t) && Undisturbed(s, t)
    decreases 0, |Pending(s)|, 1
  {
    hide Inv;
    hide Entering;
    hide Switching;
    hide Chosen;
    hide Pending;
    ChosenWell(s, r);
    ChosenUndisturbed(s, r);
    var mid := Chosen(s, r);
    if mid.current != NULL && mid.procs[mid.current].inCall.In? {
      AgainBlocks(mid);
      ServedUndisturbed(mid, mid.procs[mid.current].regs, t, r');
    }
  }

  lemma ChosenUndisturbed(s: State, r: Regs)
    requires Switching(s, r)
    ensures Shape(s) && Shape(Chosen(s, r)) && Undisturbed(s, Chosen(s, r))
  {
    hide Inv;
    hide Next;
    ChosenWell(s, r);
  }

  lemma AgainBlocks(s: State)
    requires IsPid(s.current) && Shape(s) && Entering(s, s.procs[s.current].regs) && s.procs[s.current].inCall.In?
    ensures Blocking(s.procs[s.current].regs.call)
    ensures s.procs[s.current].inCall == In(s.procs[s.current].regs.call)
  {
  }

  /** A call that puts its caller to sleep again leaves one pending process fewer. */
  lemma AgainAsleep(s: State, r: Regs)
    requires Entering(s, r) && Shape(s) && s.procs[s.current].inCall.In? && Made(s, r).res == -ESUSPEND
    ensures Switching(Made(s, r).s, r) && |Pending(Made(s, r).s)| < |Pending(s)|
  {
    hide Inv;
    hide Exec;
    MadeWell(s, r);
  }

  // ----- a woken reader stays awake -----

  /** `p` is ready, in a read of pipe `q`, and there is something to read. */
  ghost predicate Fed(s: State, p: int, q: int)
    requires Shape(s)
  {
    && IsPid(p) && Live(s.procs[p]) && s.procs[p].ready && ReadsFrom(s.procs[p], s.handles, q)
    && q in s.pipes && s.pipes[q].data != []
  }

  /** A process with something to read does not go to sleep. */
  lemma FedReads(s: State, r: Regs, q: int)
    requires Entering(s, r) && Shape(s) && Fed(s, s.current, q) && s.procs[s.current].inCall == In(r.call)
    ensures Made(s, r).res != -ESUSPEND
    ensures IsPid(s.current) && Made(s, r).s.procs[s.current].ready
  {
    hide Inv;
    MadeWell(s, r);
    var e := Enter(s, r.call);
    ExecKeeps(e, r.call, r);
  }

  /** Another process that goes to sleep again takes nothing from it. */
  lemma FedStays(s: State, r: Regs, p: int, q: int)
    requires Entering(s, r) && Blocking(r.call) && Shape(s) && Fed(s, p, q) && p != s.current
    ensures Shape(Made(s, r).s) && Made(s, r).s.procs[p].ready
    ensures Made(s, r).res == -ESUSPEND ==> Fed(Made(s, r).s, p, q)
  {
    hide Inv;
    hide Exec;
    hide Running;
    hide Allowed;
    MadeWell(s, r);
    AgainUndisturbed(s, r);
    var e := Enter(s, r.call);
    ExecKeeps(e, r.call, r);
    if Made(s, r).res == -ESUSPEND { SleepTakesNothing(e, r, q); }
  }

  lemma SleepTakesNothing(s: State, r: Regs, q: int)
    requires Running(s, r.call) && Allowed(s, r.call) && Blocking(r.call) && q in s.pipes
    requires Exec(s, r.call, r).res == -ESUSPEND
    ensures q in Exec(s, r.call, r).s.pipes && Exec(s, r.call, r).s.pipes[q].data == s.pipes[q].data
  {
    hide Inv;
    InvShape(s);
  }

  /** A process that has been woken to read is still awake after the switch. */
  lemma {:induction false} WokenStaysAwake(s: State, r: Regs, t: State, r': Regs, p: int, q: int)
    requires Switching(s, r) && Switched(s, r, t, r') && Shape(s) && Fed(s, p, q)
    ensures Shape(t) && t.procs[p].ready
    decreases |Pending(s)|
  {
    hide Inv;
    hide Entering;
    hide Switching;
    hide Next;
    hide Pending;
    hide Made;
    ChosenWell(s, r);
    var mid := Chosen(s, r);
    FedSaved(s, r, p, q);
    var n := mid.current;
    if n != NULL && mid.procs[n].inCall.In? {
      var f := mid.procs[n].regs;
      var o := Made(mid, f);
      AgainBlocks(mid);
      if n == p { FedReads(mid, f, q); } else { FedStays(mid, f, p, q); }
      if o.res == -ESUSPEND {
        AgainAsleep(mid, f);
        WokenStaysAwake(o.s, f, t, r', p, q);
      }
    }
  }

  lemma FedSaved(s: State, r: Regs, p: int, q: int)
    requires Switching(s, r) && Shape(s) && Fed(s, p, q)
    ensures Shape(Chosen(s, r)) && Fed(Chosen(s, r), p, q)
  {
  }
}
