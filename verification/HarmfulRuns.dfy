/** Three runs from start-up that the assumptions on runs exclude, each up to the call that would
    break the invariant. */
module HarmfulRuns {
  import opened Bytes
  import opened ProcessState
  import opened ProcessInvariant
  import opened ProcessSteps
  import opened ProcessCalls
  import opened DescriptorCalls
  import opened Scheduler
  import opened StartUp
  import opened AfterDeath

  /** The register frame of a process that makes `call`. */
  function Trap(call: Call): Regs {
    Regs(Number(call), call, 0)
  }

  /** The running process is about to make `call`. */
  ghost predicate MayCall(s: State, call: Call) {
    Stable(s) && s.current != NULL && Allowed(s, call)
  }

  lemma CallRuns(s: State, call: Call)
    requires Stable(s) && s.current != NULL
    ensures Shape(s) && IsPid(s.current) && Running(Enter(s, call), call)
  {
    assert Inv(s, multiset{}, s.current, NULL);
    BlockedAsleep(s, s.current);
    hide Inv;
    InvShape(s);
    TweakKeeps(s, s.current, Me(s).(inCall := In(call)), s.current);
  }

  /** What the running process's call does; the call is allowed. */
  ghost function Made(s: State, call: Call): (o: Outcome)
    requires MayCall(s, call)
  {
    EnterKeeps(s, Trap(call));
    Exec(Enter(s, call), call, Trap(call))
  }

  /** The state once a call that completes has been served. */
  ghost function Served(s: State, call: Call): (t: State)
    requires MayCall(s, call) && Made(s, call).res != -ESUSPEND
    ensures Stable(t) && t.current == s.current
  {
    var o := Made(s, call);
    EnterKeeps(s, Trap(call));
    ExecKeeps(Enter(s, call), call, Trap(call));
    LeaveKeeps(o.s, call, o.res);
    Leave(o.s, call, o.res)
  }

  /** The process to be switched to is in no call. */
  ghost predicate NextIdle(s: State, r: Regs)
    requires Switching(s, r)
  {
    SaveKeeps(s, r);
    var n := Next(Save(s, r).ready, Save(s, r).current);
    n != NULL ==> IsPid(n) && s.procs[n].inCall.Idle?
  }

  /** The state after a switch to such a process. */
  ghost function Switched(s: State, r: Regs): (t: State)
    requires Switching(s, r) && NextIdle(s, r)
    ensures Stable(t)
  {
    SaveKeeps(s, r);
    var v := Save(s, r);
    var n := Next(v.ready, v.current);
    CurrentFree(v, n);
    NullNotReady(v);
    if n != NULL then Picked(v.(current := n), n); v.(current := n) else v.(current := n)
  }

  /** The first process runs. */
  function Running1(r: Regs): State {
    Boot(r).(current := 1)
  }

  lemma FirstRuns(r: Regs)
    ensures Stable(Running1(r)) && Shape(Running1(r))
  {
    BootStable(r);
    var s := Boot(r);
    assert Live(s.procs[1]) && s.procs[1].ready && s.procs[1].inCall.Idle?;
    CurrentFree(s, 1);
  }

  /** Processes 1 and 2 are there, in no call and with the same descriptors; standard input is the
      empty console pipe. Process 1 runs. */
  ghost predicate Pair(s: State) {
    && Stable(s) && Shape(s) && s.current == 1 && s.ready == [2, 1] && s.suspended == []
    && Live(s.procs[1]) && s.procs[1].ready && s.procs[1].inCall.Idle?
    && Live(s.procs[2]) && s.procs[2].ready && s.procs[2].inCall.Idle? && s.procs[2].parent == 1
    && s.procs[2].fds == s.procs[1].fds && s.procs[1].fds[0] == 1
    && s.procs[2].mailbox == [] && !s.procs[2].blocked
    && 1 in s.handles && s.handles[1].kind == Reader(0)
    && 0 in s.pipes && s.pipes[0] == FreshPipe()
  }

  lemma AfterFork(r: Regs)
    ensures MayCall(Running1(r), Fork) && Made(Running1(r), Fork).res == 2
    ensures Pair(Served(Running1(r), Fork))
  {
    hide Inv;
    FirstRuns(r);
    var s := Running1(r);
    CallRuns(s, Fork);
    var e := Enter(s, Fork);
    assert FreePid(e.procs, 1) == 2 by {
      assert e.procs[1].used && !e.procs[2].used;
      assert FreePid(e.procs, 2) == 2;
    }
    assert Made(s, Fork).s == ForkState(e, Trap(Fork), 2);
  }

  /** The call puts its caller to sleep, and another process, in no call, is switched to. */
  ghost predicate Sleeps(s: State, call: Call) {
    && MayCall(s, call) && Made(s, call).res == -ESUSPEND
    && Switching(Made(s, call).s, Trap(call)) && NextIdle(Made(s, call).s, Trap(call))
  }

  ghost function Slept(s: State, call: Call): (t: State)
    requires Sleeps(s, call)
    ensures Stable(t)
  {
    Switched(Made(s, call).s, Trap(call))
  }

  lemma MadeSwitches(s: State, call: Call)
    requires MayCall(s, call) && Made(s, call).res == -ESUSPEND
    ensures Switching(Made(s, call).s, Trap(call))
  {
    EnterKeeps(s, Trap(call));
    ExecKeeps(Enter(s, call), call, Trap(call));
    SuspendedSwitches(Enter(s, call), Trap(call), Made(s, call));
  }

  // ----- killing a process that sleeps in a read -----

  lemma ReaderSleeps(s: State)
    requires Pair(s)
    ensures Sleeps(s, Read(0, 1, 0))
    ensures var t := Slept(s, Read(0, 1, 0));
      Shape(t) && t.current == 2 && t.procs[1].used && !t.procs[1].exited && InRead(t.procs[1])
  {
    hide Inv;
    var call := Read(0, 1, 0);
    CallRuns(s, call);
    assert Made(s, call) == DoRead(Enter(s, call), 0, 1, 0);
    MadeSwitches(s, call);
    var o := Made(s, call);
    assert Without([1], 1) == [];
    assert o.s.ready == [2] && o.s.current == 1;
    assert Next([2], NULL) == 2;
  }

  /** If the running process killed `p`, an assert would fail or the invariant would. */
  ghost predicate KillHarms(s: State, p: int) {
    && Stable(s) && Shape(s) && s.current != NULL && IsPid(p) && s.procs[p].used
    && var e := Enter(s, Kill(p));
       Running(e, Kill(p)) && !(Killable(e, p) && After(e, Kill(p), DoKill(e, p)))
  }

  lemma HarmedByKill(s: State, p: int)
    requires Stable(s) && Shape(s) && s.current != NULL && IsPid(p) && s.procs[p].used
    requires p != s.current && !Expendable(s.procs[p])
    ensures KillHarms(s, p)
  {
    hide Inv;
    hide Killable;
    hide After;
    CallRuns(s, Kill(p));
    DoKillKeepsIff(Enter(s, Kill(p)), p);
  }

  /** The first process forks and then reads the console before anything is typed. Its child would
      do harm by killing it in its sleep. */
  lemma KilledInRead(r: Regs)
    ensures MayCall(Running1(r), Fork) && Made(Running1(r), Fork).res == 2
    ensures var s := Served(Running1(r), Fork);
      Sleeps(s, Read(0, 1, 0)) && KillHarms(Slept(s, Read(0, 1, 0)), 1)
  {
    hide Inv;
    hide Pair;
    hide Sleeps;
    hide Slept;
    hide Served;
    hide Made;
    hide KillHarms;
    AfterFork(r);
    var s := Served(Running1(r), Fork);
    ReaderSleeps(s);
    HarmedByKill(Slept(s, Read(0, 1, 0)), 1);
  }

  // ----- killing a process twice -----

  /** A process that is killed is dead then, and otherwise keeps its mailbox, descriptors and wish
      for a message. */
  lemma ChildDies(s: State)
    requires Stable(s) && Shape(s) && s.current == 1 && Live(s.procs[2]) && s.procs[2].parent == 1
    requires !InRead(s.procs[2])
    ensures MayCall(s, Kill(2)) && Made(s, Kill(2)).res == 0
    ensures var t := Served(s, Kill(2));
      && Shape(t) && t.procs[2].used && t.procs[2].exited && t.procs[2].fds == s.procs[2].fds
      && t.procs[2].mailbox == s.procs[2].mailbox && t.procs[2].blocked == s.procs[2].blocked
  {
    hide Inv;
    CallRuns(s, Kill(2));
    var e := Enter(s, Kill(2));
    AllowedKillable(e, 2);
    assert Made(s, Kill(2)) == DoKill(e, 2);
    var b := Bury(e, 2);
    DropAllStays(b, e.procs[2].fds);
    assert DropAll(b, e.procs[2].fds).procs[2] == b.procs[2].(ready := DropAll(b, e.procs[2].fds).procs[2].ready);
  }

  /** The first process forks and kills its child. Killing it again would do harm, because the
      dead child's descriptors would be closed a second time. */
  lemma KilledTwice(r: Regs)
    ensures MayCall(Running1(r), Fork) && Made(Running1(r), Fork).res == 2
    ensures var s := Served(Running1(r), Fork);
      MayCall(s, Kill(2)) && Made(s, Kill(2)).res == 0 && KillHarms(Served(s, Kill(2)), 2)
  {
    hide Inv;
    hide Served;
    hide Made;
    hide KillHarms;
    AfterFork(r);
    var s := Served(Running1(r), Fork);
    ChildDies(s);
    var t := Served(s, Kill(2));
    assert t.procs[2].fds[0] == 1;
    HarmedByKill(t, 2);
  }

  // ----- sending to a process that died while it waited for a message -----

  lemma ChildTurns(s: State, r: Regs)
    requires Pair(s)
    ensures Switching(s, r) && NextIdle(s, r)
    ensures var t := Switched(s, r);
      && Shape(t) && t.current == 2 && t.ready == [2, 1] && Live(t.procs[2]) && t.procs[2].parent == 1
      && t.procs[2].mailbox == [] && t.procs[1].inCall.Idle? && Live(t.procs[1])
  {
    hide Inv;
    StableSwitches(s, r);
    assert Position([1], 1) == 0;
    assert Position([2, 1], 1) == 1;
    assert Next([2, 1], 1) == 2;
  }

  lemma StableSwitches(s: State, r: Regs)
    requires Stable(s)
    ensures Switching(s, r)
  {
  }

  lemma ReceiverSleeps(s: State)
    requires Stable(s) && Shape(s) && s.current == 2 && s.ready == [2, 1] && Live(s.procs[2])
    requires s.procs[2].mailbox == []
    requires s.procs[1].inCall.Idle? && Live(s.procs[1]) && s.procs[2].parent == 1
    ensures Sleeps(s, Receive(true))
    ensures var t := Slept(s, Receive(true));
      && Shape(t) && t.current == 1 && Live(t.procs[2]) && t.procs[2].parent == 1 && t.procs[2].blocked
      && t.procs[2].mailbox == [] && !InRead(t.procs[2])
  {
    hide Inv;
    var call := Receive(true);
    CallRuns(s, call);
    assert Made(s, call) == DoReceive(Enter(s, call), true);
    MadeSwitches(s, call);
    var o := Made(s, call);
    assert o.s.ready == [1] && o.s.current == 2;
    assert Next([1], NULL) == 1;
  }

  /** If the running process sent a message to `p`, an assert would fail or the invariant would. */
  ghost predicate SendHarms(s: State, p: int, body: seq<Byte>) {
    && Stable(s) && Shape(s) && s.current != NULL
    && var e := Enter(s, Send(p, 0, body));
       Running(e, Send(p, 0, body))
       && !(Sendable(e, p, body) && After(e, Send(p, 0, body), DoSend(e, p, 0, body)))
  }

  /** The first process forks; its child waits for a message, and is killed. Sending it one now
      would do harm, because it would make a dead process ready. */
  lemma SentAfterDeath(r: Regs)
    ensures MayCall(Running1(r), Fork) && Made(Running1(r), Fork).res == 2
    ensures var s := Served(Running1(r), Fork);
      Switching(s, r) && NextIdle(s, r) && Sleeps(Switched(s, r), Receive(true))
    ensures var u := Slept(Switched(Served(Running1(r), Fork), r), Receive(true));
      MayCall(u, Kill(2)) && Made(u, Kill(2)).res == 0 && SendHarms(Served(u, Kill(2)), 2, [])
  {
    hide Inv;
    hide Sleeps;
    hide Served;
    hide Made;
    hide Slept;
    hide Switching;
    hide NextIdle;
    hide Switched;
    AfterFork(r);
    var s := Served(Running1(r), Fork);
    ChildTurns(s, r);
    ReceiverSleeps(Switched(s, r));
    var u := Slept(Switched(s, r), Receive(true));
    ChildDies(u);
    var v := Served(u, Kill(2));
    CallRuns(v, Send(2, 0, []));
    SendKeepsIff(Enter(v, Send(2, 0, [])), 2, 0, []);
  }
}
