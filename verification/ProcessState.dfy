/** The process table, the ready and suspended lists, file handles and pipes, and what each
    system call does to them. One call, one interrupt: gates run with interrupts off. */
module ProcessState {
  import opened Bytes

  const MAX_PROCESSES: nat := 32
  const MAX_FDS: nat := 16
  const MAILBOX: nat := 8
  const MAX_MESSAGE_SIZE: nat := 1024
  const PIPE_LIMIT: nat := 0x8000_0000 // up to here doubling a 32-bit size does not wrap
  const NULL: int := -1

  const EBADF: int := 2
  const EINVAL: int := 3
  const ESRCH: int := 4
  const EMFILE: int := 7
  const ENOMEM: int := 11
  const EAGAIN: int := 13
  const ECHILD: int := 14
  const ESUSPEND: int := 1000

  datatype Message = Message(from: int, tag: int, data: seq<Byte>)

  /** A system call with its arguments, as found on the caller's stack. Calls that neither
      block nor touch this state are `Other`; so are calls with a bad pointer. */
  datatype Call =
    | Exit(status: int)
    | Write(fd: int, data: seq<Byte>)
    | Read(fd: int, count: nat, fileCount: nat) // fileCount: what file_read would return
    | Send(to: int, tag: int, body: seq<Byte>)
    | Receive(block: bool)
    | Close(cfd: int)
    | MakePipe
    | Dup2(oldfd: int, newfd: int)
    | Fork
    | Waitpid(pid: int)
    | Kill(target: int)
    | Open(failure: nat)                        // what the path lookup and type checks say, 0 if all is well
    | GetErrno
    | Brk(end: nat)
    | Execve(failure: nat, program: seq<Byte>, start: Regs) // failure as for Open; start: what init_regs sets up
    | Other(result: int)

  /** The calls that can suspend their caller and are then executed again. */
  predicate Blocking(call: Call) {
    call.Read? || call.Waitpid? || call.Receive?
  }

  /** A register frame: EAX, the call frame EAX and ESP select, and everything else. */
  datatype Regs = Regs(eax: int, call: Call, rest: int)

  /** The number in EAX that selects a call. */
  function Number(call: Call): (n: int)
    ensures n > 0
  {
    match call
    case Exit(_) => 2
    case Write(_, _) => 3
    case Read(_, _, _) => 4
    case Send(_, _, _) => 7
    case Receive(_) => 8
    case Close(_) => 9
    case MakePipe => 10
    case Dup2(_, _) => 11
    case Fork => 12
    case Waitpid(_) => 14
    case Open(_) => 16
    case GetErrno => 5
    case Kill(_) => 20
    case Brk(_) => 6
    case Execve(_, _, _) => 13
    case Other(_) => 1
  }

  datatype InCall = Idle | In(call: Call)

  datatype Proc = Proc(
    used: bool,          // exists
    exited: bool,
    ready: bool,
    inCall: InCall,      // in_syscall
    regs: Regs,          // saved_regs
    fds: seq<int>,       // filedesc, NULL or a handle
    parent: int,
    waitingOn: int,
    status: int,
    blocked: bool,       // receive_blocked
    mailbox: seq<Message>,
    sent: seq<Message>,      // history: all that was ever put into the mailbox
    received: seq<Message>,  // history: all that was ever taken out of it
    errno: nat)

  predicate Live(p: Proc) {
    p.used && !p.exited
  }

  datatype Kind = Screen | Reader(r: int) | Writer(w: int) | Plain // Plain: a file or a directory

  datatype Handle = Handle(kind: Kind, refcount: int)

  /** `written` and `taken` are histories: all bytes ever written and all bytes ever read. */
  datatype Pipe = Pipe(reading: bool, writing: bool, readpid: int, data: seq<Byte>,
                       written: seq<Byte>, taken: seq<Byte>)

  function FreshPipe(): Pipe {
    Pipe(true, true, NULL, [], [], [])
  }

  function Append(p: Pipe, bytes: seq<Byte>): Pipe {
    p.(data := p.data + bytes, written := p.written + bytes)
  }

  function Take(p: Pipe, n: nat): Pipe
    requires n <= |p.data|
  {
    p.(data := p.data[n..], taken := p.taken + p.data[..n])
  }

  function Deliver(p: Proc, msg: Message): Proc {
    p.(mailbox := p.mailbox + [msg], sent := p.sent + [msg])
  }

  function Fetch(p: Proc): Proc
    requires p.mailbox != []
  {
    p.(mailbox := p.mailbox[1..], received := p.received + [p.mailbox[0]])
  }

  datatype State = State(
    procs: seq<Proc>,
    ready: seq<int>,
    suspended: seq<int>,
    current: int,
    handles: map<int, Handle>,
    pipes: map<int, Pipe>,
    console: int,        // the pipe the keyboard writes to
    next: nat)           // handles and pipes are named by increasing numbers

  // ----- lists -----

  function Without(list: seq<int>, p: int): seq<int> {
    if list == [] then [] else if list[0] == p then list[1..] else [list[0]] + Without(list[1..], p)
  }

  predicate IsPid(p: int) {
    0 <= p < MAX_PROCESSES
  }

  predicate Shape(s: State) {
    |s.procs| == MAX_PROCESSES && forall p :: 0 <= p < MAX_PROCESSES ==> |s.procs[p].fds| == MAX_FDS
  }

  function SetProc(s: State, p: int, proc: Proc): (t: State)
    requires Shape(s) && IsPid(p) && |proc.fds| == MAX_FDS
    ensures Shape(t)
  {
    s.(procs := s.procs[p := proc])
  }

  /** suspend_process; its two asserts are the last two conditions. */
  function Suspend(s: State, p: int): (t: State)
    requires Shape(s) && IsPid(p) && s.procs[p].used && s.procs[p].ready
    ensures Shape(t)
  {
    SetProc(s, p, s.procs[p].(ready := false)).(ready := Without(s.ready, p), suspended := [p] + s.suspended)
  }

  /** resume_process */
  function Resume(s: State, p: int): (t: State)
    requires Shape(s) && IsPid(p) && s.procs[p].used && !s.procs[p].ready
    ensures Shape(t)
  {
    SetProc(s, p, s.procs[p].(ready := true)).(suspended := Without(s.suspended, p), ready := [p] + s.ready)
  }

  // ----- pipes -----

  /** The condition under which wake_up_reader meets the asserts of resume_process. */
  predicate Wakeable(s: State, q: int) {
    |s.procs| == MAX_PROCESSES && q in s.pipes && (s.pipes[q].readpid >= 0 ==>
      IsPid(s.pipes[q].readpid) && s.procs[s.pipes[q].readpid].used && !s.procs[s.pipes[q].readpid].ready)
  }

  function WakeReader(s: State, q: int): (t: State)
    requires Shape(s) && Wakeable(s, q)
    ensures Shape(t)
  {
    var p := s.pipes[q].readpid;
    if p >= 0 then Resume(s, p).(pipes := s.pipes[q := s.pipes[q].(readpid := NULL)]) else s
  }

  function WritePipe(s: State, q: int, data: seq<Byte>): (t: State)
    requires Shape(s) && Wakeable(s, q)
    ensures Shape(t)
  {
    WakeReader(s.(pipes := s.pipes[q := Append(s.pipes[q], data)]), q)
  }

  /** check_buffer_free, whose assert is the precondition. */
  function CheckFree(s: State, q: int): (t: State)
    requires Shape(s) && q in s.pipes
    requires !s.pipes[q].reading && !s.pipes[q].writing ==> s.pipes[q].readpid == NULL
    ensures Shape(t)
  {
    if !s.pipes[q].reading && !s.pipes[q].writing then s.(pipes := s.pipes - {q}) else s
  }

  // ----- handles -----

  /** The asserts on the way through close_filehandle and the destroy functions. */
  predicate Droppable(s: State, h: int) {
    && h in s.handles && s.handles[h].refcount >= 1
    && match s.handles[h].kind
       case Reader(q) => q in s.pipes && s.pipes[q].reading &&
                         (s.handles[h].refcount == 1 && !s.pipes[q].writing ==> s.pipes[q].readpid == NULL)
       case Writer(q) => q in s.pipes && s.pipes[q].writing && s.pipes[q].readpid >= NULL && Wakeable(s, q)
       case _ => true
  }

  function Destroy(s: State, h: int): (t: State)
    requires Shape(s) && Droppable(s, h) && s.handles[h].refcount == 1
    ensures Shape(t)
  {
    var t := match s.handles[h].kind
      case Reader(q) =>
        CheckFree(s.(pipes := s.pipes[q := s.pipes[q].(reading := false)]), q)
      case Writer(q) =>
        CheckFree(WakeReader(s.(pipes := s.pipes[q := s.pipes[q].(writing := false)]), q), q)
      case _ => s;
    t.(handles := t.handles - {h})
  }

  /** close_filehandle */
  function Drop(s: State, h: int): (t: State)
    requires Shape(s) && Droppable(s, h)
    ensures Shape(t)
  {
    if s.handles[h].refcount == 1 then Destroy(s, h)
    else s.(handles := s.handles[h := s.handles[h].(refcount := s.handles[h].refcount - 1)])
  }

  /** The closing loop of kill_process over the descriptors `fds`. */
  ghost predicate AllDroppable(s: State, fds: seq<int>)
    requires Shape(s)
    decreases |fds|
  {
    fds == [] || (if fds[0] == NULL then AllDroppable(s, fds[1..])
                  else Droppable(s, fds[0]) && AllDroppable(Drop(s, fds[0]), fds[1..]))
  }

  function DropAll(s: State, fds: seq<int>): (t: State)
    requires Shape(s) && AllDroppable(s, fds)
    ensures Shape(t)
    decreases |fds|
  {
    if fds == [] then s
    else if fds[0] == NULL then DropAll(s, fds[1..])
    else DropAll(Drop(s, fds[0]), fds[1..])
  }

  // ----- kill_process -----

  /** Take `p` off its list and mark it dead; its children lose their parent. */
  function Bury(s: State, p: int): (t: State)
    requires Shape(s) && IsPid(p)
    ensures Shape(t)
  {
    var procs := seq(MAX_PROCESSES, i requires 0 <= i < MAX_PROCESSES =>
      if i == p then s.procs[p].(exited := true)
      else if s.procs[i].parent == p then s.procs[i].(parent := NULL)
      else s.procs[i]);
    s.(procs := procs,
       ready := if s.procs[p].ready then Without(s.ready, p) else s.ready,
       suspended := if s.procs[p].ready then s.suspended else Without(s.suspended, p),
       current := if s.current == p then NULL else s.current)
  }

  predicate AwaitedBy(s: State, p: int, parent: int)
    requires Shape(s)
  {
    IsPid(parent) && s.procs[parent].inCall.In? && s.procs[parent].inCall.call.Waitpid?
    && s.procs[parent].waitingOn == p
  }

  /** Wake the parent if it waits for `p`. */
  function Notify(s: State, p: int, parent: int): (t: State)
    requires Shape(s)
    requires AwaitedBy(s, p, parent) ==> s.procs[parent].used && !s.procs[parent].ready
    ensures Shape(t)
  {
    if AwaitedBy(s, p, parent) then
      Resume(SetProc(s, parent, s.procs[parent].(waitingOn := NULL)), parent)
    else s
  }

  /** The asserts that kill_process runs into. */
  ghost predicate Killable(s: State, p: int) {
    && Shape(s) && IsPid(p)
    && AllDroppable(Bury(s, p), s.procs[p].fds)
    && var t := DropAll(Bury(s, p), s.procs[p].fds);
       var parent := s.procs[p].parent;
       AwaitedBy(t, p, parent) ==> t.procs[parent].used && !t.procs[parent].ready
  }

  /** kill_process: descriptors are closed in order, and the parent is told last. */
  function KillProcess(s: State, p: int): (t: State)
    requires Killable(s, p)
    ensures Shape(t)
  {
    var t := DropAll(Bury(s, p), s.procs[p].fds);
    if s.procs[p].parent == NULL then SetProc(t, p, t.procs[p].(used := false))
    else Notify(t, p, s.procs[p].parent)
  }
}
