/** Whole runs of the kernel from start-up, and what holds in every state they reach. */
module KernelRuns {
  import opened Bytes
  import opened ProcessState
  import opened ProcessInvariant
  import opened ProcessSteps
  import opened ProcessCalls
  import opened Scheduler
  import opened StartUp
  import opened Filing
  import opened KernelTable
  import opened KernelSteps
  import opened KernelLives
  import opened KernelDispatch
  import opened KernelStart
  import opened MemoryChanges
  import opened Answering
  import PageModel
  import SpaceLayout

  // ----- the keyboard -----

  /** keyboard_handler: the kernel writes what was typed into the console pipe. */
  function Keyboard(s: State, typed: seq<Byte>): (t: State)
    requires Stable(s)
  {
    WritePipeKeeps(s, s.console, typed, multiset{}, NULL, NULL);
    WritePipe(s, s.console, typed)
  }

  lemma KeyboardKeeps(s: State, typed: seq<Byte>)
    requires Stable(s)
    ensures Stable(Keyboard(s, typed))
  {
    WakeableReader(s, s.console);
    assert Shape(s) && s.console in s.pipes;
    hide Inv;
    WritePipeKeeps(s, s.console, typed, multiset{}, NULL, NULL);
    if s.current != NULL { WriteOthers(s, s.console, typed, s.current); }
  }

  // ----- interrupts -----

  datatype Event =
    | Timer                       // the timer interrupt
    | Typed(key: Byte)            // the keyboard interrupt, with the converted key or 0
    | Trap(call: Call, rest: int) // the running process makes a system call
    | Fault                       // the running process, in no call, causes a page fault

  lemma TimerSwitches(s: State, r: Regs)
    requires Stable(s)
    ensures Switching(s, r)
  {
  }

  lemma TrapEnters(s: State, call: Call, rest: int)
    requires Stable(s) && s.current != NULL && Shape(s) && Allowed(s, call)
    ensures Entering(s, TrapFrame(call, rest))
  {
  }

  lemma StableShape(s: State)
    requires Stable(s)
    ensures Shape(s) && (s.current == NULL || IsPid(s.current))
  {
  }

  /** May the running process make `call`? */
  method MayTrap(k: Kernel, call: Call) returns (ok: bool)
    requires k.Valid() && Stable(k.state)
    ensures Shape(k.state)
    ensures ok == (k.state.current != NULL && Allowed(k.state, call) && CanServe(k, call))
  {
    hide k.Valid;
    hide Inv;
    StableShape(k.state);
    k.See();
    if k.current == NULL { return false; }
    match call {
      case Write(fd, data) =>
        ok := true;
        if 0 <= fd < MAX_FDS && k.slots[k.current].fds[fd] in k.handles {
          match k.handles[k.slots[k.current].fds[fd]].kind {
            case Writer(q) =>
              k.SeeNames();
              if q in k.store.buffers {
                k.SeePipe(q);
                ok := k.store.buffers[q].len + |data| < PIPE_LIMIT;
              }
            case _ =>
          }
        }
      case Send(to, _, body) =>
        ok := true;
        if 0 <= to < MAX_PROCESSES {
          k.SeeMail(to);
          ok := !(k.slots[to].used && |body| <= MAX_MESSAGE_SIZE && k.mail.sizes[to] < MAILBOX && k.slots[to].exited);
        }
      case Kill(p) =>
        ok := 0 <= p < MAX_PROCESSES && k.slots[p].used ==> !k.slots[p].exited && !Reads(k.slots[p]);
      case Open(failure) => ok := failure != ESUSPEND;
      case Execve(failure, _, _) => ok := failure != ESUSPEND;
      case Other(res) => ok := res != -ESUSPEND;
      case _ => ok := true;
    }
    ok := ok && CanServe(k, call);
  }

  /** The process sleeps in a read. */
  predicate Reads(x: Slot) {
    x.used && !x.exited && !x.ready && x.inCall.In? && x.inCall.call.Read?
  }

  lemma ConsoleOpen(s: State)
    requires Stable(s)
    ensures Shape(s) && Wakeable(s, s.console) && Filed(s, NULL)
  {
    InvFiled(s, multiset{}, NULL, NULL);
    WakeableReader(s, s.console);
  }

  lemma SettledStable(t: State, r: Regs)
    requires Settled(t, r)
    ensures Stable(t) && (t.current == NULL ==> t.ready == [])
  {
  }

  /** Is a key put into the console pipe? Not 0, which stands for none, and not when the pipe is full. */
  predicate Enters(s: State, key: Byte)
    requires s.console in s.pipes
  {
    key != 0 && |s.pipes[s.console].data| + 1 < PIPE_LIMIT
  }

  /** The state in which the interrupt leaves the process model before it switches. */
  ghost function Arrived(s: State, key: Byte): (t: State)
    requires Stable(s)
    ensures Stable(t)
  {
    ConsoleOpen(s);
    KeyboardKeeps(s, [key]);
    if Enters(s, key) then Keyboard(s, [key]) else s
  }

  /** Exactly that byte is appended to all that was written to the console, and to what is there to be
      read; a reader that slept is the first in the ready list. Nothing else changes. */
  lemma KeyArrives(s: State, key: Byte)
    requires Stable(s) && Shape(s) && s.console in s.pipes
    ensures var t, was := Arrived(s, key), s.pipes[s.console];
      && Shape(t) && t.pipes.Keys == s.pipes.Keys && t.handles == s.handles && t.console == s.console
      && (forall i | IsPid(i) :: t.procs[i] == s.procs[i].(ready := t.procs[i].ready))
      && (forall q | q in s.pipes && q != s.console :: t.pipes[q] == s.pipes[q])
      && var now := t.pipes[s.console];
         if Enters(s, key) then
           && now.written == was.written + [key] && now.data == was.data + [key] && now.readpid == NULL
           && (was.readpid != NULL ==>
                 IsPid(was.readpid) && t.ready == [was.readpid] + s.ready && t.procs[was.readpid].ready)
         else t == s
  {
    ConsoleOpen(s);
    ReaderPid(s);
    hide Inv;
  }

  lemma ReaderPid(s: State)
    requires Stable(s) && s.console in s.pipes
    ensures s.pipes[s.console].readpid == NULL || IsPid(s.pipes[s.console].readpid)
  {
  }

  /** The converted key goes into the console pipe, unless that is full. */
  method TypeKey(k: Kernel, key: Byte)
    requires k.Valid() && Housed(k) && Stable(k.state)
    modifies k.Repr
    ensures k.Valid() && fresh(k.Repr - old(k.Repr)) && Housed(k) && k.Homes() == old(k.Homes())
    ensures Stable(k.state) && k.state == Arrived(old(k.state), key)
  {
    hide k.Valid;
    hide Inv;
    ghost var s := k.state;
    ConsoleOpen(s);
    k.See();
    k.SeePipe(k.console);
    if key != 0 && k.store.buffers[k.console].len + 1 < PIPE_LIMIT {
      KeyboardKeeps(s, [key]);
      KeyboardLives(s, [key]);
      WriteToPipe(k, k.console, [key], NULL);
    }
  }

  lemma KeyboardLives(s: State, typed: seq<Byte>)
    requires Shape(s) && Wakeable(s, s.console)
    ensures var t := WritePipe(s, s.console, typed);
      |t.procs| == MAX_PROCESSES && forall i | IsPid(i) :: Live(t.procs[i]) == Live(s.procs[i])
  {
  }

  /** The page fault branch of interrupt_handler. */
  method KillCurrent(k: Kernel, p: int)
    requires k.Valid() && Housed(k) && Stable(k.state) && p == k.state.current != NULL
    modifies k.Repr
    ensures k.Valid() && fresh(k.Repr - old(k.Repr)) && Housed(k)
    ensures Stable(k.state) && k.state.current == NULL && Killable(old(k.state), p)
    ensures k.state == KillProcess(old(k.state), p)
    ensures p in old(k.Homes()).spaces && GivenUp(old(k.Homes()), k.Homes(), p)
  {
    hide k.Valid;
    hide Inv;
    hide KillProcess;
    hide Killable;
    FaultKeeps(k.state);
    EndProcess(k, p, NULL);
  }

  lemma FaultKeeps(s: State)
    requires Stable(s) && s.current != NULL
    ensures IsPid(s.current) && Shape(s) && Live(s.procs[s.current]) && !InRead(s.procs[s.current])
    ensures Inv(s, multiset{}, NULL, NULL) && Killable(s, s.current)
    ensures Stable(KillProcess(s, s.current)) && KillProcess(s, s.current).current == NULL
  {
    hide Inv;
    StableShape(s);
    KillKeeps(s, s.current, NULL);
  }

  function TrapFrame(call: Call, rest: int): Regs {
    Regs(Number(call), call, rest)
  }

  /** A switch from `s`, in which everybody keeps frames and lives. */
  ghost predicate Goes(s: State, r: Regs, t: State, r': Regs) {
    Shape(s) && Shape(t) && Switching(s, r) && Switched(s, r, t, r') && FramesKept(s, r, t, r') && SameLives(s, t)
  }

  /** What an interrupt leads to. A trap is served if a process is there to make it, a run may contain it,
      and memory lasts (`room`); otherwise it is skipped, and so is a fault that nobody is there to cause. */
  ghost predicate Handled(s: State, r: Regs, e: Event, room: bool, t: State, r': Regs)
    requires Stable(s) && Shape(s)
  {
    match e
    case Timer => Goes(s, r, t, r')
    case Typed(key) => Goes(Arrived(s, key), r, t, r')
    case Fault =>
      if s.current == NULL then t == s && r' == r
      else Killable(s, s.current) && Goes(KillProcess(s, s.current), r, t, r')
    case Trap(call, rest) =>
      if s.current == NULL || !Allowed(s, call) || !room then t == s && r' == r
      else
        var f := TrapFrame(call, rest);
        Shape(t) && Entering(s, f) && Served(s, f, t, r') && FramesKept(Enter(s, call), f, t, r')
  }

  /** A typed key is appended to what has been written to the console, and nothing else is written anywhere;
      if a process slept until there is something to read, it is awake after the interrupt. */
  lemma KeyReaches(s: State, r: Regs, key: Byte, t: State, r': Regs)
    requires Stable(s) && Shape(s) && s.console in s.pipes && Handled(s, r, Typed(key), false, t, r')
    ensures Shape(t) && t.pipes.Keys == s.pipes.Keys && SameLives(s, t)
    ensures forall q | q in s.pipes ::
              t.pipes[q].written == s.pipes[q].written + if q == s.console && Enters(s, key) then [key] else []
    ensures var p := s.pipes[s.console].readpid;
      Enters(s, key) && p != NULL ==> IsPid(p) && Live(t.procs[p]) && t.procs[p].ready
  {
    hide Arrived;
    hide Inv;
    hide Switched;
    hide Switching;
    hide FramesKept;
    hide SameLives;
    KeyArrives(s, key);
    var u := Arrived(s, key);
    SwitchedUndisturbed(u, r, t, r');
    Relived(s, u, t);
    var p := s.pipes[s.console].readpid;
    if Enters(s, key) && p != NULL {
      ReaderFed(s, u, key);
      WokenStaysAwake(u, r, t, r', p, s.console);
    }
  }

  lemma Relived(s: State, u: State, t: State)
    requires Shape(s) && Shape(u) && Shape(t) && SameLives(u, t)
    requires forall i | IsPid(i) :: u.procs[i] == s.procs[i].(ready := u.procs[i].ready)
    ensures SameLives(s, t)
  {
  }

  lemma ReaderFed(s: State, u: State, key: Byte)
    requires Stable(s) && Shape(s) && s.console in s.pipes && s.pipes[s.console].readpid != NULL
    requires Shape(u) && u.handles == s.handles && s.console in u.pipes && u.pipes[s.console].data != []
    requires forall i | IsPid(i) :: u.procs[i] == s.procs[i].(ready := u.procs[i].ready)
    requires IsPid(s.pipes[s.console].readpid) && u.procs[s.pipes[s.console].readpid].ready
    ensures Fed(u, s.pipes[s.console].readpid, s.console) && Live(s.procs[s.pipes[s.console].readpid])
  {
    assert AsleepOn(s.procs, s.handles, s.pipes[s.console].readpid, s.console);
  }

  /** A page fault ends the process that ran, and no other. */
  lemma FaultKills(s: State, r: Regs, t: State, r': Regs)
    requires Stable(s) && Shape(s) && s.current != NULL && Handled(s, r, Fault, false, t, r')
    ensures Shape(t) && forall i | IsPid(i) :: Live(t.procs[i]) <==> i != s.current && Live(s.procs[i])
  {
    hide Inv;
    hide KillProcess;
    hide Killable;
    hide Switched;
    hide Switching;
    hide FramesKept;
    FaultKeeps(s);
    LivesAfterKill(s, s.current);
  }

  /** A system call that completes is answered: its caller runs on with the result, or with -1 and the error
      to ask for. One that does not gives way to the next process. */
  lemma TrapAnswered(s: State, r: Regs, call: Call, rest: int, t: State, r': Regs)
    requires Stable(s) && Shape(s) && s.current != NULL && Allowed(s, call)
    requires Handled(s, r, Trap(call, rest), true, t, r')
    ensures var f := TrapFrame(call, rest);
      && Entering(s, f)
      && var o := Made(s, f);
         if o.res == -ESUSPEND then Switching(o.s, f) && Switched(o.s, f, t, r')
         else t.current == s.current && Answers(o, f, t, r')
  {
    hide Inv;
    hide FramesKept;
    hide Exec;
    MadeWell(s, TrapFrame(call, rest));
  }

  /** What an interrupt does to memory. */
  ghost predicate MemoryAfter(s: State, e: Event, room: bool, before: Homes, after: Homes)
    requires Stable(s) && Shape(s)
  {
    match e
    case Fault => if s.current == NULL then after == before
                  else 0 <= s.current && s.current in before.spaces && GivenUp(before, after, s.current)
    case Trap(call, rest) =>
      if s.current == NULL || !Allowed(s, call) || !room then after == before
      else
        TrapEnters(s, call, rest);
        Moved(call, s.current, Made(s, TrapFrame(call, rest)).res, before, after)
    case _ => after == before
  }

  /** The kernel between two interrupts, and the registers the processor goes on with. */
  datatype Moment = Moment(s: State, r: Regs, homes: Homes)

  /** Interrupt `e` leads from `m` to `n`. */
  ghost predicate Follows(m: Moment, e: Event, n: Moment) {
    && Stable(m.s) && Shape(m.s) && Stable(n.s)
    && var room := e.Trap? && Affordable(e.call, m.s.current, m.homes.spaces, m.homes.room);
       Handled(m.s, m.r, e, room, n.s, n.r) && MemoryAfter(m.s, e, room, m.homes, n.homes)
  }

  /** `trace` goes from the start-up state through `events`. */
  ghost predicate History(trace: seq<Moment>, r0: Regs, events: seq<Event>) {
    && |trace| == |events| + 1 && trace[0].s == Boot(r0) && trace[0].r == r0
    && forall i | 0 <= i < |events| :: Follows(trace[i], events[i], trace[i + 1])
  }

  /** One interrupt. */
  method Interrupt(k: Kernel, r: Regs, e: Event) returns (r': Regs)
    requires k.Valid() && Housed(k) && Stable(k.state)
    modifies k.Repr
    ensures k.Valid() && fresh(k.Repr - old(k.Repr)) && Housed(k) && Stable(k.state)
    ensures !(e.Trap? || (e.Fault? && old(k.state).current == NULL)) ==>
              (k.state.current == NULL ==> k.state.ready == [])
    ensures Follows(Moment(old(k.state), r, old(k.Homes())), e, Moment(k.state, r', k.Homes()))
  {
    hide k.Valid;
    hide Housed;
    hide Affordable;
    hide Stable;
    hide Switching;
    hide Entering;
    hide Settled;
    hide Inv;
    hide FramesKept;
    hide SameLives;
    hide Allowed;
    hide Served;
    hide Switched;
    hide Moved;
    hide GivenUp;
    hide KillProcess;
    hide Killable;
    StableShape(k.state);
    k.See();
    if e.Trap? {
      var ok := MayTrap(k, e.call);
      r' := r;
      if ok {
        TrapEnters(k.state, e.call, e.rest);
        r' := Syscall(k, TrapFrame(e.call, e.rest));
        SettledStable(k.state, r');
      }
      return;
    }
    if e.Typed? {
      TypeKey(k, e.key);
    } else if e.Fault? {
      if k.current == NULL { return r; }
      KillCurrent(k, k.current);
    }
    TimerSwitches(k.state, r);
    r' := ContextSwitch(k, r);
    SettledStable(k.state, r');
  }

  // ----- runs -----

  /** The lists partition the live processes by their ready flags, in the links of the process table;
      pipe buffers hold at most what was allocated for them; mailboxes hold at most 8 messages; every
      live process has an address space of its own, and nobody else has one. */
  ghost predicate InOrder(k: Kernel)
    reads k, k.Repr, k.store, k.spaces
  {
    && k.Valid() && Stable(k.state)
    && k.lists.Valid() && k.store.Valid() && k.mail.Valid() && k.spaces.Valid()
    && (forall p :: p in k.lists.readyList <==> IsPid(p) && Live(k.state.procs[p]) && k.state.procs[p].ready)
    && (forall p :: p in k.lists.suspendedList <==> IsPid(p) && Live(k.state.procs[p]) && !k.state.procs[p].ready)
    && (forall q :: q in k.store.buffers ==>
          k.store.buffers[q].Valid() && k.store.buffers[q].len <= k.store.buffers[q].alloc)
    && (forall p: int :: p in k.spaces.spaces <==> IsPid(p) && Live(k.state.procs[p]))
  }

  lemma WhatHolds(k: Kernel)
    requires k.Valid() && Housed(k) && Stable(k.state)
    ensures InOrder(k)
  {
    InvFiled(k.state, multiset{}, NULL, NULL);
    forall q | q in k.store.buffers
      ensures k.store.buffers[q].Valid() && k.store.buffers[q].len <= k.store.buffers[q].alloc
    {
      k.store.Seen(q);
    }
  }

  /** Every state of every run is in order: the asserts of the kernel never fail, and each interrupt leads to
      what it is for. */
  method Run(memory: array<PageModel.Page>, codeStart: nat, codeEnd: nat, r0: Regs, events: seq<Event>)
    returns (k: Kernel, r: Regs, ghost trace: seq<Moment>)
    requires codeStart <= codeEnd <= PageModel.START
    requires PageModel.START + SpaceLayout.StartNeeds() <= memory.Length <= PageModel.MAX_FRAMES
    modifies memory
    ensures InOrder(k)
    ensures History(trace, r0, events) && trace[|events|] == Moment(k.state, r, k.Homes())
  {
    hide SpaceLayout.StartNeeds;
    hide Kernel.Valid;
    hide Housed;
    hide Stable;
    hide InOrder;
    hide Follows;
    BootStable(r0);
    k := EmptyKernel(r0, memory);
    StartFirst(k, r0, codeStart, codeEnd);
    r := r0;
    trace := [Moment(k.state, r, k.Homes())];
    for i := 0 to |events|
      invariant fresh(k.Repr - {memory}) && k.Valid() && Housed(k) && Stable(k.state)
      invariant History(trace, r0, events[..i]) && trace[i] == Moment(k.state, r, k.Homes())
    {
      r := Interrupt(k, r, events[i]);
      Extended(trace, r0, events, i, Moment(k.state, r, k.Homes()));
      trace := trace + [Moment(k.state, r, k.Homes())];
    }
    assert events[..|events|] == events;
    WhatHolds(k);
  }

  lemma Extended(trace: seq<Moment>, r0: Regs, events: seq<Event>, i: nat, n: Moment)
    requires i < |events| && History(trace, r0, events[..i]) && Follows(trace[i], events[i], n)
    ensures History(trace + [n], r0, events[..i + 1])
  {
    hide Follows;
    assert events[..i + 1] == events[..i] + [events[i]];
  }

  // ----- what holds in every stable state -----

  /** `p` is the recorded reader of some pipe. */
  ghost predicate AwaitsData(s: State, p: int) {
    exists q :: q in s.pipes && s.pipes[q].readpid == p
  }

  /** No lost wake-ups: a suspended process has exactly one reason to be woken, and what it waits
      for has not happened yet. */
  lemma NoLostWakeUps(s: State, p: int)
    requires Stable(s) && IsPid(p) && Live(s.procs[p]) && !s.procs[p].ready
    ensures var me := s.procs[p];
      && p in s.suspended && p !in s.ready
      && (AwaitsData(s, p) <==> me.waitingOn <= 0 && !me.blocked)
      && (me.waitingOn > 0 ==> !AwaitsData(s, p) && !me.blocked)
      && (me.blocked ==> !AwaitsData(s, p) && me.waitingOn <= 0)
      && (forall q :: q in s.pipes && s.pipes[q].readpid == p ==>
            s.pipes[q].data == [] && s.pipes[q].writing && ReadsFrom(me, s.handles, q))
      && (me.waitingOn > 0 ==> IsPid(me.waitingOn) && Live(s.procs[me.waitingOn]) && s.procs[me.waitingOn].parent == p)
      && (me.blocked ==> me.mailbox == [])
  {
    assert Sleeper(s.procs, p, NULL);
    forall q | q in s.pipes && s.pipes[q].readpid == p ensures AsleepOn(s.procs, s.handles, p, q) {}
    if s.procs[p].inCall.call.Read? {
      assert InRead(s.procs[p]);
      var q :| q in s.pipes && s.pipes[q].readpid == p;
    }
  }

  /** A handle exists exactly while some descriptor of a live process refers to it. */
  lemma HandleIffReferenced(s: State, h: int)
    requires Stable(s) && h >= 0
    ensures h in s.handles <==>
              exists p, fd :: IsPid(p) && 0 <= fd < MAX_FDS && Live(s.procs[p]) && s.procs[p].fds[fd] == h
  {
    if h in s.handles {
      var p, fd := SlotWitness(s.procs, MAX_PROCESSES, h);
    }
    if p, fd :| IsPid(p) && 0 <= fd < MAX_FDS && Live(s.procs[p]) && s.procs[p].fds[fd] == h {
      SlotCounted(s.procs, p, fd);
    }
  }

  lemma {:induction false} SlotWitness(procs: seq<Proc>, n: nat, h: int) returns (p: int, fd: int)
    requires n <= |procs| && Slots(procs, n)[h] > 0
    ensures 0 <= p < n && Live(procs[p]) && 0 <= fd < |procs[p].fds| && procs[p].fds[fd] == h
  {
    if SlotsOf(procs[n - 1])[h] > 0 {
      p := n - 1;
      assert h in procs[p].fds;
      fd :| 0 <= fd < |procs[p].fds| && procs[p].fds[fd] == h;
    } else {
      p, fd := SlotWitness(procs, n - 1, h);
    }
  }

  /** Descriptor `fd` of the live process `p` is on an end of pipe `q`. */
  ghost predicate EndAt(s: State, p: int, fd: int, q: int)
    requires Shape(s)
  {
    && IsPid(p) && 0 <= fd < MAX_FDS && Live(s.procs[p])
    && var h := s.procs[p].fds[fd];
       h in s.handles && (s.handles[h].kind == Reader(q) || s.handles[h].kind == Writer(q))
  }

  /** A pipe exists exactly while a live descriptor is on one of its ends, or it is the console's. */
  lemma PipeIffReferenced(s: State, q: int)
    requires Stable(s) && Shape(s)
    ensures q in s.pipes <==> q == s.console || exists p, fd :: EndAt(s, p, fd, q)
  {
    if q in s.pipes && q != s.console {
      var h := PipeHandle(s.handles, s.pipes, s.console, q);
      assert Slots(s.procs, MAX_PROCESSES)[h] > 0;
      var p, fd := SlotWitness(s.procs, MAX_PROCESSES, h);
      assert EndAt(s, p, fd, q);
    }
    if p, fd :| EndAt(s, p, fd, q) {
      var h := s.procs[p].fds[fd];
      assert q in s.pipes;
    }
  }

  lemma PipeHandle(handles: map<int, Handle>, pipes: map<int, Pipe>, console: int, q: int) returns (h: int)
    requires Ended(handles, pipes, console) && q in pipes && q != console
    ensures h in handles && (handles[h].kind == Reader(q) || handles[h].kind == Writer(q))
  {
    if pipes[q].reading {
      assert HasReader(handles, q);
      h :| h in handles && handles[h].kind.Reader? && handles[h].kind.r == q;
    } else {
      assert HasWriter(handles, q);
      h :| h in handles && handles[h].kind.Writer? && handles[h].kind.w == q;
    }
  }

  // ----- fairness of the rotation -----

  lemma {:induction false} PositionOf(list: seq<int>, i: int)
    requires Distinct(list) && 0 <= i < |list|
    ensures Position(list, list[i]) == i
  {
  }

  function Rotate(list: seq<int>, p: int, k: nat): int {
    if k == 0 then p else Next(list, Rotate(list, p, k - 1))
  }

  /** While the ready list stays as it is, the k-th switch from its i-th process reaches process
      i + k, counted around the list: |list| switches reach each process exactly once. */
  lemma {:induction false} RoundRobin(list: seq<int>, i: nat, k: nat)
    requires Distinct(list) && i < |list| && k <= |list|
    ensures Rotate(list, list[i], k) == list[if i + k < |list| then i + k else i + k - |list|]
  {
    if k > 0 {
      RoundRobin(list, i, k - 1);
      var j := if i + k - 1 < |list| then i + k - 1 else i + k - 1 - |list|;
      PositionOf(list, j);
    }
  }

  /** |list| switches from process i visit the list from i + 1 on, around to i. */
  lemma Visits(list: seq<int>, i: nat, seen: seq<int>)
    requires Distinct(list) && i < |list| && |seen| == |list|
    requires forall j: nat :: j < |seen| ==> seen[j] == Rotate(list, list[i], j + 1)
    ensures multiset(seen) == multiset(list)
  {
    hide Rotate;
    hide Distinct;
    var turned := list[i + 1..] + list[..i + 1];
    forall j: nat | j < |seen| ensures seen[j] == turned[j] {
      VisitedAt(list, i, j);
    }
    assert seen == turned;
    assert list == list[..i + 1] + list[i + 1..];
  }

  lemma VisitedAt(list: seq<int>, i: nat, j: nat)
    requires Distinct(list) && i < |list| && j < |list|
    ensures Rotate(list, list[i], j + 1) == (list[i + 1..] + list[..i + 1])[j]
  {
    RoundRobin(list, i, j + 1);
  }

  /** Where the rotation stands: after the running process, or at the end when none runs. */
  function Stand(list: seq<int>, current: int): (i: nat)
    requires list != [] && (current == NULL || current in list)
    ensures i < |list|
  {
    if current == NULL then |list| - 1 else Position(list, current)
  }

  lemma NextFromStand(list: seq<int>, current: int)
    requires Distinct(list) && list != [] && NULL !in list && (current == NULL || current in list)
    ensures Next(list, current) == Next(list, list[Stand(list, current)])
    ensures Next(list, current) in list
  {
    PositionOf(list, |list| - 1);
    if current == NULL { assert Position(list, NULL) < 0; }
  }

  /** The switch of a state in which no call is pending. */
  lemma TurnKeeps(s: State, r: Regs, t: State, r': Regs)
    requires Stable(s) && Shape(s) && Pending(s) == {} && s.ready != []
    requires (s.current == NULL || IsPid(s.current)) && Rotated(s, r, t, r') && Shape(t)
    ensures t.ready == s.ready && t.current == Next(s.ready, s.current) && Pending(t) == {}
    ensures Distinct(s.ready) && NULL !in s.ready && (s.current == NULL || s.current in s.ready)
  {
    NullNotReady(s);
    var v := Save(s, r);
    assert v.current == s.current && v.ready == s.ready;
    forall p | p in Pending(t) ensures p in Pending(s) {
    }
  }

  lemma StableDistinct(s: State)
    requires Stable(s)
    ensures Distinct(s.ready) && NULL !in s.ready && (s.current == NULL || s.current in s.ready)
  {
    NullNotReady(s);
  }

  /** As many timer interrupts as there are ready processes, none of which has a call to finish: each
      of them runs exactly once. */
  method Turns(k: Kernel, r0: Regs, n: nat) returns (seen: seq<int>, r: Regs)
    requires k.Valid() && Housed(k) && Stable(k.state) && Shape(k.state) && Pending(k.state) == {}
    requires n == |k.state.ready| > 0
    modifies k.Repr
    ensures k.Valid() && Housed(k) && Stable(k.state) && k.state.ready == old(k.state).ready
    ensures multiset(seen) == multiset(old(k.state).ready)
  {
    hide Kernel.Valid;
    hide Housed;
    hide Inv;
    hide Rotated;
    hide Pending;
    hide Next;
    hide FramesKept;
    hide SameLives;
    hide Switched;
    hide Position;
    ghost var list := k.state.ready;
    StableDistinct(k.state);
    ghost var start := k.state.current;
    ghost var i := Stand(list, start);
    NextFromStand(list, start);
    seen, r := [], r0;
    while |seen| < n
      invariant |seen| <= n == |list|
      invariant k.Valid() && fresh(k.Repr - old(k.Repr)) && Housed(k) && Stable(k.state) && Shape(k.state)
      invariant Pending(k.state) == {} && k.state.ready == list
      invariant if |seen| == 0 then k.state.current == start else k.state.current == Rotate(list, list[i], |seen|)
      invariant forall j: nat :: j < |seen| ==> seen[j] == Rotate(list, list[i], j + 1)
    {
      ghost var s := k.state;
      StableShape(s);
      TimerSwitches(s, r);
      ghost var before := r;
      r := ContextSwitch(k, r);
      SettledStable(k.state, r);
      TurnKeeps(s, before, k.state, r);
      k.See();
      seen := seen + [k.current];
    }
    Visits(list, i, seen);
  }
}
