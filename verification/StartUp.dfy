/** The state after start_process has made the first process. */
module StartUp {
  import opened ProcessState
  import opened ProcessInvariant

  function Unused(r: Regs): Proc {
    Proc(false, false, false, Idle, r, seq(MAX_FDS, _ => NULL), 0, 0, 0, false, [], [], [], 0)
  }

  /** Before there is any process. */
  function Empty(r: Regs): (s: State)
    ensures Shape(s)
  {
    State(seq(MAX_PROCESSES, _ => Unused(r)), [], [], NULL, map[], map[], 0, 0)
  }

  /** After start_process has made the first process: standard input reads the console pipe,
      which the keyboard writes to; standard output and error are screens. */
  function Boot(r: Regs): State {
    var none := Unused(r);
    var fds := none.fds[0 := 1][1 := 2][2 := 3];
    var first := none.(used := true, ready := true, fds := fds, parent := NULL, waitingOn := NULL, status := 255);
    State(seq(MAX_PROCESSES, _ => none)[1 := first], [1], [], NULL,
          map[1 := Handle(Reader(0), 1), 2 := Handle(Screen, 1), 3 := Handle(Screen, 1)],
          map[0 := FreshPipe()], 0, 4)
  }

  lemma {:induction false} NoSlots(procs: seq<Proc>, n: nat)
    requires n <= |procs| && forall i :: 0 <= i < n ==> !Live(procs[i])
    ensures Slots(procs, n) == multiset{}
  {
    if n > 0 { NoSlots(procs, n - 1); }
  }

  lemma SingleSlots(none: Proc, first: Proc)
    requires !Live(none) && Live(first)
    ensures Slots(seq(MAX_PROCESSES, _ => none)[1 := first], MAX_PROCESSES) == multiset(first.fds)
  {
    var before := seq(MAX_PROCESSES, _ => none);
    NoSlots(before, MAX_PROCESSES);
    SlotsUpdate(before, 1, first, MAX_PROCESSES);
  }

  lemma Blank(fds: seq<int>)
    requires forall i :: 0 <= i < |fds| ==> fds[i] == NULL
    ensures forall h :: h != NULL ==> multiset(fds)[h] == 0
  {
  }

  lemma BootHandles(blank: multiset<int>)
    requires forall h :: h != NULL ==> blank[h] == 0
    ensures Counted(map[1 := Handle(Reader(0), 1), 2 := Handle(Screen, 1), 3 := Handle(Screen, 1)],
                    blank - multiset{NULL, NULL, NULL} + multiset{1, 2, 3}, multiset{})
  {
  }

  lemma BootCounts(r: Regs)
    ensures var s := Boot(r); Counted(s.handles, Slots(s.procs, MAX_PROCESSES), multiset{})
  {
    hide Slots;
    hide Counted;
    var blank := seq(MAX_FDS, _ => NULL);
    var none := Proc(false, false, false, Idle, r, blank, 0, 0, 0, false, [], [], [], 0);
    var first := none.(used := true, ready := true, fds := blank[0 := 1][1 := 2][2 := 3], parent := NULL,
                       waitingOn := NULL, status := 255);
    Blank(blank);
    FillTwice(blank);
    BootHandles(multiset(blank));
    SingleSlots(none, first);
    assert Boot(r).procs == seq(MAX_PROCESSES, _ => none)[1 := first];
  }

  lemma FillTwice(blank: seq<int>)
    requires |blank| == MAX_FDS && forall i :: 0 <= i < |blank| ==> blank[i] == NULL
    ensures multiset(blank[0 := 1][1 := 2][2 := 3]) == multiset(blank) - multiset{NULL, NULL, NULL} + multiset{1, 2, 3}
  {
  }

  lemma BootStable(r: Regs)
    ensures Stable(Boot(r))
  {
    var s := Boot(r);
    BootCounts(r);
    hide Slots;
    hide Counted;
    assert HasReader(s.handles, 0) by { assert s.handles[1].kind == Reader(0); }
    assert Listed(s.procs, s.ready, true) && Listed(s.procs, s.suspended, false);
    assert Sleepers(s.procs, NULL);
  }
}
