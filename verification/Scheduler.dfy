/** The system call dispatcher and the context switch, which call each other, and whole runs. */
module Scheduler {
  import opened ProcessState
  import opened ProcessInvariant
  import opened ProcessCalls
  import opened DescriptorCalls

  // ----- dispatch -----

  function Exec(s: State, call: Call, r: Regs): (o: Outcome)
    requires Running(s, call) && Allowed(s, call)
  {
    match call
    case Exit(status) => DoExit(s, status)
    case Write(fd, data) => DoWrite(s, fd, data)
    case Read(fd, count, fileCount) => DoRead(s, fd, count, fileCount)
    case Send(to, tag, body) =>
      AllowedSendable(s, to, tag, body);
      DoSend(s, to, tag, body)
    case Receive(block) => DoReceive(s, block)
    case Close(fd) => DoClose(s, fd)
    case MakePipe => DoPipe(s)
    case Dup2(oldfd, newfd) => DoDup2(s, oldfd, newfd)
    case Fork => DoFork(s, r)
    case Waitpid(pid) => DoWaitpid(s, pid)
    case Kill(p) =>
      AllowedKillable(s, p);
      DoKill(s, p)
    case Open(failure) => DoOpen(s, failure)
    case GetErrno => Outcome(s, Me(s).errno)
    case Brk(_) => Outcome(s, 0)
    case Execve(failure, _, _) => Outcome(s, 0 - failure)
    case Other(res) => Outcome(s, res)
  }

  lemma ExecKeeps(s: State, call: Call, r: Regs)
    requires Running(s, call) && Allowed(s, call)
    ensures After(s, call, Exec(s, call, r))
  {
    match call
    case Exit(status) => DoExitKeeps(s, status);
    case Write(fd, data) => DoWriteKeeps(s, fd, data);
    case Read(fd, count, fileCount) => DoReadKeeps(s, fd, count, fileCount);
    case Send(to, tag, body) =>
      AllowedSendable(s, to, tag, body);
      DoSendKeeps(s, to, tag, body);
    case Receive(block) => DoReceiveKeeps(s, block);
    case Close(fd) => DoCloseKeeps(s, fd);
    case MakePipe => DoPipeKeeps(s);
    case Dup2(oldfd, newfd) => DoDup2Keeps(s, oldfd, newfd);
    case Fork => DoForkKeeps(s, r);
    case Waitpid(pid) => DoWaitpidKeeps(s, pid);
    case Kill(p) => DoKillKeeps(s, p);
    case Open(failure) => DoOpenKeeps(s, failure);
    case GetErrno =>
    case Brk(_) =>
    case Execve(_, _, _) =>
    case Other(_) =>
  }

  // ----- entering, leaving and saving -----

  /** About to enter a call: for the first time, or again after being woken. */
  ghost predicate Entering(s: State, r: Regs) {
    && Inv(s, multiset{}, s.current, NULL)
    && IsPid(s.current) && Live(s.procs[s.current]) && s.procs[s.current].ready
    && r.eax == Number(r.call) && Allowed(s, r.call)
    && (s.procs[s.current].inCall.Idle? || (s.procs[s.current].inCall == In(r.call) && Blocking(r.call)))
  }

  function Enter(s: State, call: Call): State
    requires Shape(s) && IsPid(s.current)
  {
    SetProc(s, s.current, Me(s).(inCall := In(call)))
  }

  lemma EnterKeeps(s: State, r: Regs)
    requires Entering(s, r)
    ensures Running(Enter(s, r.call), r.call) && Allowed(Enter(s, r.call), r.call)
  {
    BlockedAsleep(s, s.current);
    hide Inv;
    InvShape(s);
    TweakKeeps(s, s.current, Me(s).(inCall := In(r.call)), s.current);
  }

  /** The result as the caller sees it in EAX, and errno. */
  function Shown(res: int): int {
    if res < 0 then -1 else res
  }

  function Leave(s: State, call: Call, res: int): State
    requires Shape(s) && IsPid(s.current)
  {
    var errno: nat := if call.GetErrno? then Me(s).errno else if res < 0 then -res else 0;
    SetProc(s, s.current, Me(s).(inCall := Idle, errno := errno))
  }

  lemma LeaveKeeps(s: State, call: Call, res: int)
    requires Inv(s, multiset{}, s.current, NULL) && IsPid(s.current) && Live(s.procs[s.current])
    requires s.procs[s.current].ready
    ensures Stable(Leave(s, call, res))
  {
    BlockedAsleep(s, s.current);
    var t := Leave(s, call, res);
    assert Inv(t, multiset{}, s.current, NULL) by {
      hide Inv;
      TweakKeeps(s, s.current, Me(t), s.current);
    }
    NotBusy(t, s.current);
  }

  /** A process that is dead or in no call, or whose saved frame shows its call, is not special. */
  lemma NotBusy(s: State, busy: int)
    requires Inv(s, multiset{}, busy, NULL)
    requires IsPid(busy) && Live(s.procs[busy]) && s.procs[busy].inCall.In? ==>
      && Blocking(s.procs[busy].inCall.call) && s.procs[busy].regs.call == s.procs[busy].inCall.call
      && s.procs[busy].regs.eax == Number(s.procs[busy].inCall.call)
    ensures Inv(s, multiset{}, NULL, NULL)
  {
  }

  /** What context_switch may be called with: a running process in no call, one that has just
      gone to sleep in a call, or none. */
  ghost predicate Switching(s: State, r: Regs) {
    && Inv(s, multiset{}, s.current, NULL)
    && (s.current != NULL ==>
          && IsPid(s.current) && Live(s.procs[s.current])
          && (s.procs[s.current].ready ==> s.procs[s.current].inCall.Idle?)
          && (!s.procs[s.current].ready ==>
                s.procs[s.current].inCall == In(r.call) && Blocking(r.call) && r.eax == Number(r.call)))
  }

  /** Save the frame of the process being left; forget the process if it sleeps. */
  function Save(s: State, r: Regs): State
    requires Shape(s) && (s.current == NULL || IsPid(s.current))
  {
    if s.current == NULL then s
    else
      var t := SetProc(s, s.current, Me(s).(regs := r));
      if Me(s).ready then t else t.(current := NULL)
  }

  lemma SaveKeeps(s: State, r: Regs)
    requires Switching(s, r)
    ensures Shape(s) && Inv(Save(s, r), multiset{}, NULL, NULL)
    ensures var t := Save(s, r);
      t.current == NULL || (t.current == s.current && IsPid(t.current) && Live(t.procs[t.current])
            && t.procs[t.current].ready)
  {
    if s.current != NULL {
      var t := SetProc(s, s.current, Me(s).(regs := r));
      RegsKeeps(s, s.current, r);
      NotBusy(t, s.current);
      CurrentFree(t, NULL);
    }
  }

  /** The scheduler's choice plays no part in the invariant. */
  lemma CurrentFree(s: State, current: int)
    requires Inv(s, multiset{}, NULL, NULL)
    ensures Inv(s.(current := current), multiset{}, NULL, NULL)
  {
  }

  lemma RegsKeeps(s: State, p: int, r: Regs)
    requires Inv(s, multiset{}, p, NULL) && IsPid(p)
    ensures Inv(SetProc(s, p, s.procs[p].(regs := r)), multiset{}, p, NULL)
  {
    hide Listed;
    hide Slots;
    hide Counted;
    hide Ended;
    hide Remembered;
    hide Recorded;
    hide Sleepers;
    hide Sleeper;
    var procs := s.procs[p := s.procs[p].(regs := r)];
    ListedSame(s.procs, procs, s.ready, true);
    ListedSame(s.procs, procs, s.suspended, false);
    SlotsSame(s.procs, procs, MAX_PROCESSES);
    MailReaders(s.procs, procs, s.handles, s.pipes);
    RegsSleepers(s.procs, p, r);
  }

  lemma RegsSleepers(procs: seq<Proc>, p: int, r: Regs)
    requires |procs| == MAX_PROCESSES && IsPid(p) && Sleepers(procs, NULL)
    ensures Sleepers(procs[p := procs[p].(regs := r)], NULL)
  {
  }

  // ----- choosing the next process -----

  /** The process after `p` in the ready list; the first one if `p` is last or NULL. */
  function Next(list: seq<int>, p: int): (n: int)
    ensures n == NULL || n in list
    ensures list != [] ==> n in list
  {
    if list == [] then NULL
    else
      var i := Position(list, p);
      if i + 1 < |list| && i >= 0 then list[i + 1] else list[0]
  }

  /** The place of `p` in `list`, or -1. */
  function Position(list: seq<int>, p: int): (i: int)
    ensures -1 <= i < |list| && (i >= 0 ==> list[i] == p) && (i < 0 ==> p !in list)
  {
    if list == [] then -1
    else if list[0] == p then 0
    else
      var i := Position(list[1..], p);
      if i < 0 then -1 else i + 1
  }

  // ----- frames -----

  /** The register frame with which `p` will continue. */
  function Frame(s: State, r: Regs, p: int): Regs
    requires Shape(s) && IsPid(p)
  {
    if p == s.current then r else s.procs[p].regs
  }

  /** Carrying out `call` for `p` with frame `r` in state `m` completes it, and leaves `eax`. */
  ghost predicate Completes(m: State, p: int, call: Call, r: Regs, eax: int) {
    && m.current == p && Running(m, call) && Allowed(m, call)
    && var res := Exec(m, call, r).res;
       res != -ESUSPEND && (res >= 0 ==> eax == res) && (res < 0 ==> eax == -1)
  }

  ghost predicate Returned(p: int, call: Call, r: Regs, eax: int) {
    exists m: State :: Completes(m, p, call, r, eax)
  }

  /** The frame with which a process goes on after `call`: execve that succeeds starts a program. */
  function Onward(call: Call, r: Regs): Regs {
    if call.Execve? && call.failure == 0 then call.start else r
  }

  /** The frame for a process in state `now` that was in state `before`. */
  function Kept(before: InCall, now: InCall, r: Regs): Regs {
    if before.In? && now.Idle? then Onward(before.call, r) else r
  }

  /** Every process that lives on keeps its frame, unless it has started a program; EAX may change
      only for a process that was in a call, and then the call is over and EAX shows its result. */
  ghost predicate FramesKept(s: State, r: Regs, t: State, r': Regs)
    requires Shape(s) && Shape(t)
  {
    forall p | IsPid(p) && Live(s.procs[p]) && Live(t.procs[p]) ::
      && Frame(t, r', p) == Kept(s.procs[p].inCall, t.procs[p].inCall, Frame(s, r, p)).(eax := Frame(t, r', p).eax)
      && (s.procs[p].inCall.Idle? || t.procs[p].inCall.In? ==> Frame(t, r', p).eax == Frame(s, r, p).eax)
      && (s.procs[p].inCall.In? && t.procs[p].inCall.Idle? ==>
            Returned(p, s.procs[p].inCall.call, Frame(s, r, p), Frame(t, r', p).eax))
  }

  /** Ready processes that still have a call to execute again. */
  ghost function Pending(s: State): set<int>
    requires Shape(s)
  {
    set p | 0 <= p < MAX_PROCESSES && Live(s.procs[p]) && s.procs[p].ready && s.procs[p].inCall.In?
  }

  ghost predicate SameLives(s: State, t: State)
    requires Shape(s) && Shape(t)
  {
    forall p | IsPid(p) :: Live(t.procs[p]) == Live(s.procs[p])
  }

  lemma FramesThrough(s: State, o: State, r: Regs, t: State, r': Regs)
    requires Shape(s) && Shape(o) && Shape(t) && IsPid(s.current)
    requires Elsewhere(s, o, false) && FramesKept(o, r, t, r') && SameLives(o, t)
    requires o.current == s.current || !Live(o.procs[s.current])
    requires o.current == s.current ==> o.procs[s.current].inCall == s.procs[s.current].inCall
    requires o.current == NULL || o.current == s.current
    ensures FramesKept(s, r, t, r')
  {
  }

  lemma FramesLeave(s: State, o: State, r: Regs, call: Call, res: int)
    requires Shape(s) && Shape(o) && IsPid(s.current) && o.current == s.current
    requires Elsewhere(s, o, false) && s.procs[s.current].inCall == In(call)
    requires Returned(s.current, call, r, Shown(res))
    ensures FramesKept(s, r, Leave(o, call, res), Onward(call, r).(eax := Shown(res)))
  {
    hide Returned;
    NothingReturned(s, o, call, res);
  }

  lemma NothingReturned(s: State, o: State, call: Call, res: int)
    requires Shape(s) && Shape(o) && IsPid(s.current) && o.current == s.current && Elsewhere(s, o, false)
    ensures forall p | IsPid(p) && Live(s.procs[p]) && Live(o.procs[p]) && p != s.current ::
              Leave(o, call, res).procs[p].inCall == s.procs[p].inCall
  {
  }

  lemma ReturnedHere(s: State, call: Call, r: Regs)
    requires Running(s, call) && Allowed(s, call) && Exec(s, call, r).res != -ESUSPEND
    ensures Returned(s.current, call, r, Shown(Exec(s, call, r).res))
  {
    assert Completes(s, s.current, call, r, Shown(Exec(s, call, r).res));
  }

  /** What the call that `r` asks for comes to. */
  ghost function Made(s: State, r: Regs): (o: Outcome)
    requires Entering(s, r)
    ensures Shape(s) && Shape(o.s) && (o.res != -ESUSPEND ==> o.s.current == s.current && IsPid(s.current))
  {
    MadeWell(s, r);
    EnterKeeps(s, r);
    Exec(Enter(s, r.call), r.call, r)
  }

  lemma MadeWell(s: State, r: Regs)
    requires Entering(s, r)
    ensures Shape(s) && IsPid(s.current) && Running(Enter(s, r.call), r.call) && Allowed(Enter(s, r.call), r.call)
    ensures var o := Exec(Enter(s, r.call), r.call, r);
      && Shape(o.s) && (o.res != -ESUSPEND ==> o.s.current == s.current && IsPid(s.current))
      && (o.res == -ESUSPEND ==>
            && Switching(o.s, r)
            && (s.procs[s.current].inCall.In? ==> |Pending(o.s)| < |Pending(s)|))
  {
    hide Inv;
    hide Running;
    hide Elsewhere;
    hide Exec;
    hide Pending;
    InvShape(s);
    EnterKeeps(s, r);
    var e := Enter(s, r.call);
    ExecKeeps(e, r.call, r);
    var o := Exec(e, r.call, r);
    EnteredLives(s, r);
    AfterShape(e, r.call, o);
    if o.res == -ESUSPEND {
      SuspendedSwitches(e, r, o);
      if s.procs[s.current].inCall.In? {
        ReEnter(s, r.call);
        PendingShrinks(e, o.s);
      }
    }
  }

  /** The running process of `o` leaves the call that frame `r` asked for: it goes on with the result, or
      -1 for an error, in EAX, and can ask for the error, which asking does not change. execve that
      succeeds starts the program instead. */
  ghost predicate Answers(o: Outcome, r: Regs, t: State, r': Regs)
    requires Shape(o.s) && IsPid(o.s.current)
  {
    var p := o.s.current;
    && |t.procs| == MAX_PROCESSES && t == o.s.(procs := t.procs)
    && (forall i | IsPid(i) && i != p :: t.procs[i] == o.s.procs[i])
    && t.procs[p] == Me(o.s).(inCall := Idle, errno := t.procs[p].errno)
    && (o.res >= 0 ==> r'.eax == o.res)
    && (o.res < 0 ==> r'.eax == -1)
    && (r.call.GetErrno? ==> t.procs[p].errno == Me(o.s).errno)
    && (!r.call.GetErrno? && o.res >= 0 ==> t.procs[p].errno == 0)
    && (!r.call.GetErrno? && o.res < 0 ==> t.procs[p].errno == -o.res)
    && (r.call.Execve? && r.call.failure == 0 ==> r' == r.call.start.(eax := r'.eax))
    && (!r.call.Execve? || r.call.failure != 0 ==> r' == r.(eax := r'.eax))
  }

  lemma LeaveAnswers(o: Outcome, r: Regs)
    requires Shape(o.s) && IsPid(o.s.current)
    ensures Answers(o, r, Leave(o.s, r.call, o.res), Onward(r.call, r).(eax := Shown(o.res)))
  {
  }

  /** If the call that `r` asks for completes, its caller goes on at once with the result. */
  ghost predicate DoneAtOnce(s: State, r: Regs, t: State, r': Regs)
    requires Entering(s, r)
  {
    var o := Made(s, r);
    o.res != -ESUSPEND ==> o.s.current == s.current && Answers(o, r, t, r')
  }

  /** The process switched to is the next one in the ready list, with the frame it had saved. */
  ghost predicate Rotated(s: State, r: Regs, t: State, r': Regs)
    requires Shape(s) && (s.current == NULL || IsPid(s.current))
  {
    && t == Save(s, r).(current := Next(s.ready, Save(s, r).current))
    && r' == if IsPid(t.current) then Save(s, r).procs[t.current].regs else IDLE
  }

  /** A blocking call that puts its caller to sleep leaves one pending process fewer. */
  lemma PendingShrinks(s: State, o: State)
    requires Shape(s) && Shape(o) && IsPid(s.current) && Elsewhere(s, o, true)
    requires Live(s.procs[s.current]) && s.procs[s.current].ready && s.procs[s.current].inCall.In?
    requires !o.procs[s.current].ready
    ensures |Pending(o)| < |Pending(s)|
  {
    assert Pending(o) == Pending(s) - {s.current};
  }

  /** Every process continues with the same frame, in the same call. */
  ghost predicate SameFrames(s: State, r: Regs, t: State, r': Regs)
    requires Shape(s) && Shape(t)
  {
    forall p | IsPid(p) :: Live(t.procs[p]) == Live(s.procs[p]) && t.procs[p].inCall == s.procs[p].inCall
                           && (Live(s.procs[p]) ==> Frame(t, r', p) == Frame(s, r, p))
  }

  lemma SavedFrames(s: State, r: Regs, n: int, r': Regs)
    requires Switching(s, r) && Shape(s)
    requires IsPid(n) ==> r' == Save(s, r).procs[n].regs
    ensures var t := Save(s, r).(current := n);
      Shape(t) && SameFrames(s, r, t, r') && Pending(t) == Pending(s)
  {
    hide Inv;
    var t := Save(s, r).(current := n);
    assert forall p :: IsPid(p) ==> t.procs[p] == s.procs[p].(regs := t.procs[p].regs);
    assert Pending(t) == Pending(s);
  }

  lemma FramesAfterSame(s: State, r: Regs, t: State, r1: Regs, u: State, r2: Regs)
    requires Shape(s) && Shape(t) && Shape(u) && SameFrames(s, r, t, r1)
    requires (u == t && r2 == r1) || (FramesKept(t, r1, u, r2) && SameLives(t, u))
    ensures FramesKept(s, r, u, r2) && SameLives(s, u)
  {
  }

  lemma EnteredLives(s: State, r: Regs)
    requires Entering(s, r) && Shape(s)
    ensures var e := Enter(s, r.call); Live(e.procs[e.current]) && SameLives(s, e)
  {
  }

  lemma LeaveLives(s: State, call: Call, res: int)
    requires Shape(s) && IsPid(s.current)
    ensures Shape(Leave(s, call, res)) && SameLives(s, Leave(s, call, res))
  {
  }

  lemma NullNotReady(s: State)
    requires Inv(s, multiset{}, NULL, NULL)
    ensures Shape(s) && NULL !in s.ready
  {
  }

  lemma ReEnter(s: State, call: Call)
    requires Shape(s) && IsPid(s.current) && s.procs[s.current].inCall == In(call)
    ensures Enter(s, call) == s
  {
  }

  /** What the scheduler picks is ready, and is about to continue or to execute its call again. */
  lemma Picked(s: State, n: int)
    requires Inv(s, multiset{}, NULL, NULL) && n in s.ready && s.current == n
    ensures IsPid(n) && Live(s.procs[n]) && s.procs[n].ready
    ensures s.procs[n].inCall.In? ==> Entering(s, s.procs[n].regs)
    ensures s.procs[n].inCall.Idle? ==> Stable(s)
  {
  }

  ghost predicate Settled(t: State, r: Regs) {
    Stable(t) && (t.current == NULL ==> t.ready == [])
  }

  const IDLE: Regs := Regs(0, Other(0), 0)

  lemma AfterShape(s: State, call: Call, o: Outcome)
    requires Shape(s) && After(s, call, o) && Live(s.procs[s.current])
    ensures Shape(o.s) && Elsewhere(s, o.s, false)
    ensures Blocking(call) ==> SameLives(s, o.s)
  {
  }

  lemma SuspendedSwitches(s: State, r: Regs, o: Outcome)
    requires Running(s, r.call) && After(s, r.call, o) && o.res == -ESUSPEND && r.eax == Number(r.call)
    ensures Switching(o.s, r)
  {
  }

  lemma PickedCall(s: State, n: int)
    requires Shape(s) && IsPid(n) && s.current == n && Entering(s, s.procs[n].regs) && s.procs[n].inCall.In?
    ensures s.procs[n].inCall.call == s.procs[n].regs.call && Blocking(s.procs[n].regs.call)
  {
  }

  lemma IdleStable(s: State)
    requires Inv(s, multiset{}, NULL, NULL) && s.current == NULL
    ensures Stable(s)
  {
  }

  // ----- system calls and switches to their end -----

  /** What a system call leads to: its caller goes on with the result, or it sleeps and another
      process is switched to. */
  ghost predicate Served(s: State, r: Regs, t: State, r': Regs)
    requires Entering(s, r)
    decreases if s.procs[s.current].inCall.Idle? then 1 else 0, |Pending(s)|, 0
  {
    MadeWell(s, r);
    var o := Made(s, r);
    if o.res == -ESUSPEND then Switched(o.s, r, t, r') else Answers(o, r, t, r')
  }

  /** What a switch leads to: the next ready process goes on with its saved frame; if it had been in a
      call, that call is executed again. */
  ghost predicate Switched(s: State, r: Regs, t: State, r': Regs)
    requires Switching(s, r)
    decreases 0, |Pending(s)|, 1
  {
    ChosenWell(s, r);
    var mid := Chosen(s, r);
    if mid.current == NULL then t == mid && r' == IDLE
    else
      var p := mid.procs[mid.current];
      if p.inCall.In? then Served(mid, p.regs, t, r') else t == mid && r' == p.regs
  }

  /** The frame saved and the next process chosen. */
  ghost function Chosen(s: State, r: Regs): State
    requires Switching(s, r)
  {
    SaveKeeps(s, r);
    Save(s, r).(current := Next(s.ready, Save(s, r).current))
  }

  lemma ChosenWell(s: State, r: Regs)
    requires Switching(s, r)
    ensures var mid := Chosen(s, r);
      && Shape(s) && Shape(mid) && |Pending(mid)| == |Pending(s)|
      && (mid.current != NULL ==>
            && IsPid(mid.current) && Live(mid.procs[mid.current]) && mid.procs[mid.current].ready
            && (mid.procs[mid.current].inCall.In? ==> Entering(mid, mid.procs[mid.current].regs)))
  {
    hide Inv;
    hide Next;
    hide Pending;
    hide Entering;
    hide Stable;
    SaveKeeps(s, r);
    NullNotReady(Save(s, r));
    var mid := Chosen(s, r);
    CurrentFree(Save(s, r), mid.current);
    if mid.current != NULL { Picked(mid, mid.current); }
    SavedFrames(s, r, mid.current, if IsPid(mid.current) then mid.procs[mid.current].regs else IDLE);
  }
}
