/** What every system call and interrupt keeps true of the process state. */
module ProcessInvariant {
  import opened ProcessState

  // ----- the lists -----

  ghost predicate Distinct(list: seq<int>) {
    forall i, j :: 0 <= i < j < |list| ==> list[i] != list[j]
  }

  /** `list` holds each live process whose ready flag is `flag`, once. */
  ghost predicate Listed(procs: seq<Proc>, list: seq<int>, flag: bool)
    requires |procs| == MAX_PROCESSES
  {
    && Distinct(list)
    && forall p :: p in list <==> IsPid(p) && Live(procs[p]) && procs[p].ready == flag
  }

  // ----- reference counts -----

  /** The descriptor slots of a process that refer to handles. */
  function SlotsOf(p: Proc): multiset<int> {
    if Live(p) then multiset(p.fds) else multiset{}
  }

  /** All slots of the first `n` processes. */
  function Slots(procs: seq<Proc>, n: nat): multiset<int>
    requires n <= |procs|
  {
    if n == 0 then multiset{} else Slots(procs, n - 1) + SlotsOf(procs[n - 1])
  }

  /** A handle's count is the number of live slots that refer to it, plus the references in
      `extra` that are about to be given up; a handle without references does not exist. */
  ghost predicate Counted(handles: map<int, Handle>, slots: multiset<int>, extra: multiset<int>) {
    && (forall h :: h in handles ==> h >= 0 && handles[h].refcount == slots[h] + extra[h] && handles[h].refcount >= 1)
    && (forall h :: h >= 0 && h !in handles ==> slots[h] + extra[h] == 0)
    && (forall h :: h < NULL ==> slots[h] + extra[h] == 0)
    && extra[NULL] == 0
  }

  // ----- pipe ends -----

  ghost predicate HasReader(handles: map<int, Handle>, q: int) {
    exists h :: h in handles && handles[h].kind.Reader? && handles[h].kind.r == q
  }

  ghost predicate HasWriter(handles: map<int, Handle>, q: int) {
    exists h :: h in handles && handles[h].kind.Writer? && handles[h].kind.w == q
  }

  /** A pipe exists while one of its ends does; its flags say which ends do. Only the console
      pipe is open for writing without a writer handle. */
  ghost predicate Ended(handles: map<int, Handle>, pipes: map<int, Pipe>, console: int) {
    && (forall h :: h in handles && handles[h].kind.Reader? ==>
          handles[h].kind.r in pipes && pipes[handles[h].kind.r].reading)
    && (forall h :: h in handles && handles[h].kind.Writer? ==>
          handles[h].kind.w in pipes && pipes[handles[h].kind.w].writing && handles[h].kind.w != console)
    && (forall h, k | h in handles && k in handles && handles[h].kind == handles[k].kind
          && (handles[h].kind.Reader? || handles[h].kind.Writer?) :: h == k)
    && (forall q :: q in pipes ==> pipes[q].reading || pipes[q].writing)
    && (forall q :: q in pipes && pipes[q].reading ==> HasReader(handles, q))
    && (forall q :: q in pipes && pipes[q].writing ==> q == console || HasWriter(handles, q))
    && console in pipes && pipes[console].writing
  }

  // ----- wake reasons -----

  /** The read call of `p` is on the reading end of pipe `q`. */
  ghost predicate ReadsFrom(p: Proc, handles: map<int, Handle>, q: int) {
    && p.inCall.In? && p.inCall.call.Read? && 0 <= p.inCall.call.fd < |p.fds|
    && var h := p.fds[p.inCall.call.fd];
       h in handles && handles[h].kind.Reader? && handles[h].kind.r == q
  }

  /** `p` sleeps in a read of pipe `q`. */
  ghost predicate AsleepOn(procs: seq<Proc>, handles: map<int, Handle>, p: int, q: int)
    requires |procs| == MAX_PROCESSES
  {
    IsPid(p) && Live(procs[p]) && !procs[p].ready && ReadsFrom(procs[p], handles, q)
  }

  /** A pipe with a recorded reader is empty and open for writing, and that reader sleeps on it. */
  ghost predicate Remembered(procs: seq<Proc>, handles: map<int, Handle>, pipes: map<int, Pipe>)
    requires |procs| == MAX_PROCESSES
  {
    forall q :: q in pipes && pipes[q].readpid != NULL ==>
      AsleepOn(procs, handles, pipes[q].readpid, q) && pipes[q].data == [] && pipes[q].writing
  }

  predicate InRead(p: Proc) {
    Live(p) && !p.ready && p.inCall.In? && p.inCall.call.Read?
  }

  /** A process that sleeps in a read is the recorded reader of its pipe. */
  ghost predicate Recorded(procs: seq<Proc>, handles: map<int, Handle>, pipes: map<int, Pipe>)
    requires |procs| == MAX_PROCESSES
  {
    forall p :: IsPid(p) && InRead(procs[p]) ==>
      exists q :: q in pipes && pipes[q].readpid == p && ReadsFrom(procs[p], handles, q)
  }

  /** The wake reasons that concern one process alone, and its family ties. */
  ghost predicate Sleeper(procs: seq<Proc>, p: int, dying: int)
    requires |procs| == MAX_PROCESSES && IsPid(p)
  {
    var me := procs[p];
    && (me.used ==> p > 0)
    && (me.used && me.parent != NULL ==> IsPid(me.parent) && Live(procs[me.parent]) && me.parent != p)
    && (Live(me) ==>
         && |me.mailbox| <= MAILBOX && me.sent == me.received + me.mailbox
         && (!me.ready ==> me.inCall.In? && match me.inCall.call
              case Read(_, _, _) => true
              case Waitpid(c) => c > 0 && me.waitingOn == c
              case Receive(_) => me.blocked
              case _ => false)
         && (me.waitingOn > 0 ==>
              && !me.ready && me.inCall.In? && me.inCall.call == Waitpid(me.waitingOn) && IsPid(me.waitingOn)
              && procs[me.waitingOn].used && procs[me.waitingOn].parent == p
              && (me.waitingOn != dying ==> !procs[me.waitingOn].exited))
         && (me.blocked ==> !me.ready && me.inCall.In? && me.inCall.call.Receive? && me.mailbox == []))
  }

  ghost predicate Sleepers(procs: seq<Proc>, dying: int)
    requires |procs| == MAX_PROCESSES
  {
    forall p :: IsPid(p) ==> Sleeper(procs, p, dying)
  }

  // ----- saved frames -----

  /** A process left in a call has its saved frame still showing that call. */
  ghost predicate Framed(procs: seq<Proc>, busy: int)
    requires |procs| == MAX_PROCESSES
  {
    forall p :: IsPid(p) && Live(procs[p]) && procs[p].inCall.In? && p != busy ==>
      && Blocking(procs[p].inCall.call)
      && procs[p].regs.call == procs[p].inCall.call && procs[p].regs.eax == Number(procs[p].inCall.call)
  }

  /** Pipes neither lose, nor invent, nor reorder bytes. */
  ghost predicate Ledgers(pipes: map<int, Pipe>) {
    forall q :: q in pipes ==> pipes[q].written == pipes[q].taken + pipes[q].data
  }

  ghost predicate Named(s: State) {
    && (forall h :: h in s.handles ==> h < s.next)
    && (forall q :: q in s.pipes ==> 0 <= q < s.next)
  }

  /** `extra` holds references about to be dropped, `busy` is the process inside the system call
      being executed, and `dying` a dead process whose parent is still to be told. */
  ghost predicate Inv(s: State, extra: multiset<int>, busy: int, dying: int) {
    && Shape(s)
    && Listed(s.procs, s.ready, true) && Listed(s.procs, s.suspended, false)
    && Counted(s.handles, Slots(s.procs, MAX_PROCESSES), extra)
    && Ended(s.handles, s.pipes, s.console)
    && Remembered(s.procs, s.handles, s.pipes) && Recorded(s.procs, s.handles, s.pipes)
    && Sleepers(s.procs, dying)
    && Framed(s.procs, busy)
    && Ledgers(s.pipes)
    && Named(s)
  }

  /** The invariant between interrupts: the running process is ready and in no call. */
  ghost predicate Stable(s: State) {
    && Inv(s, multiset{}, NULL, NULL)
    && (s.current != NULL ==> IsPid(s.current) && Live(s.procs[s.current]) && s.procs[s.current].ready
                              && s.procs[s.current].inCall.Idle?)
  }

  // ----- lists -----

  lemma {:induction false} WithoutLaws(list: seq<int>, p: int)
    requires Distinct(list)
    ensures Distinct(Without(list, p))
    ensures forall x :: x in Without(list, p) <==> x in list && x != p
  {
    if list != [] {
      var tail := list[1..];
      assert list[0] !in tail && Distinct(tail);
      MemberCons(list);
      if list[0] != p {
        WithoutLaws(tail, p);
        var w := Without(tail, p);
        assert Without(list, p) == [list[0]] + w && list[0] !in w;
        MemberCons([list[0]] + w);
        assert ([list[0]] + w)[1..] == w;
      }
    }
  }

  lemma MemberCons(list: seq<int>)
    requires list != []
    ensures forall x :: x in list <==> x == list[0] || x in list[1..]
  {
  }

  /** Only process `p` differs, and it changes from flag `!flag` to flag `flag`. */
  lemma ListedMove(procs: seq<Proc>, procs': seq<Proc>, from: seq<int>, to: seq<int>, p: int, flag: bool)
    requires |procs| == |procs'| == MAX_PROCESSES && IsPid(p)
    requires Listed(procs, from, !flag) && Listed(procs, to, flag)
    requires Live(procs[p]) && procs[p].ready == !flag && Live(procs'[p]) && procs'[p].ready == flag
    requires forall i :: 0 <= i < MAX_PROCESSES && i != p ==>
               Live(procs'[i]) == Live(procs[i]) && procs'[i].ready == procs[i].ready
    ensures Listed(procs', Without(from, p), !flag) && Listed(procs', [p] + to, flag)
  {
    WithoutLaws(from, p);
  }

  lemma ListedSame(procs: seq<Proc>, procs': seq<Proc>, list: seq<int>, flag: bool)
    requires |procs| == |procs'| == MAX_PROCESSES && Listed(procs, list, flag)
    requires forall i :: 0 <= i < MAX_PROCESSES ==>
               Live(procs'[i]) == Live(procs[i]) && (Live(procs[i]) ==> procs'[i].ready == procs[i].ready)
    ensures Listed(procs', list, flag)
  {
  }

  // ----- slots -----

  lemma {:induction false} SlotsUpdate(procs: seq<Proc>, p: int, proc: Proc, n: nat)
    requires 0 <= p < |procs| && n <= |procs|
    ensures p >= n ==> Slots(procs[p := proc], n) == Slots(procs, n)
    ensures p < n ==> SlotsOf(procs[p]) <= Slots(procs, n)
    ensures p < n ==> Slots(procs[p := proc], n) == Slots(procs, n) - SlotsOf(procs[p]) + SlotsOf(proc)
  {
    hide SlotsOf;
    if n > 0 {
      SlotsUpdate(procs, p, proc, n - 1);
      var a, x, x' := Slots(procs, n - 1), SlotsOf(procs[p]), SlotsOf(proc);
      if p == n - 1 {
        assert a + x - x + x' == a + x';
      } else if p < n - 1 {
        var y := SlotsOf(procs[n - 1]);
        assert (a - x + x') + y == (a + y) - x + x';
      }
    }
  }

  lemma {:induction false} SlotsSame(procs: seq<Proc>, procs': seq<Proc>, n: nat)
    requires |procs| == |procs'| && n <= |procs|
    requires forall i :: 0 <= i < n ==> SlotsOf(procs'[i]) == SlotsOf(procs[i])
    ensures Slots(procs', n) == Slots(procs, n)
  {
    if n > 0 { SlotsSame(procs, procs', n - 1); }
  }

  /** A live slot is counted. */
  lemma SlotCounted(procs: seq<Proc>, p: int, fd: int)
    requires |procs| == MAX_PROCESSES && IsPid(p) && Live(procs[p]) && 0 <= fd < |procs[p].fds|
    ensures Slots(procs, MAX_PROCESSES)[procs[p].fds[fd]] >= 1
  {
    SlotsUpdate(procs, p, procs[p], MAX_PROCESSES);
    assert procs[p].fds[fd] in multiset(procs[p].fds);
  }
}
