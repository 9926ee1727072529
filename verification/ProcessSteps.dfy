/** Each operation of the kernel keeps the invariant, and meets its asserts. */
module ProcessSteps {
  import opened Bytes
  import opened ProcessState
  import opened ProcessInvariant

  // ----- waking a reader -----

  lemma WakeableReader(s: State, q: int)
    requires Shape(s) && Remembered(s.procs, s.handles, s.pipes) && q in s.pipes
    ensures Wakeable(s, q)
    ensures s.pipes[q].readpid != NULL ==> s.pipes[q].readpid >= 0 && InRead(s.procs[s.pipes[q].readpid])
  {
  }

  lemma WokenLists(s: State, q: int)
    requires Shape(s) && Remembered(s.procs, s.handles, s.pipes) && q in s.pipes && s.pipes[q].readpid != NULL
    requires Listed(s.procs, s.ready, true) && Listed(s.procs, s.suspended, false) && Wakeable(s, q)
    ensures var t := WakeReader(s, q); Listed(t.procs, t.ready, true) && Listed(t.procs, t.suspended, false)
  {
    var p := s.pipes[q].readpid;
    assert AsleepOn(s.procs, s.handles, p, q);
    ListedMove(s.procs, s.procs[p := s.procs[p].(ready := true)], s.suspended, s.ready, p, true);
  }

  lemma WokenSlots(s: State, q: int)
    requires Shape(s) && Wakeable(s, q)
    ensures Slots(WakeReader(s, q).procs, MAX_PROCESSES) == Slots(s.procs, MAX_PROCESSES)
  {
    SlotsSame(s.procs, WakeReader(s, q).procs, MAX_PROCESSES);
  }

  lemma WokenReaders(s: State, q: int)
    requires Shape(s) && Wakeable(s, q) && s.pipes[q].readpid != NULL
    requires Remembered(s.procs, s.handles, s.pipes) && Recorded(s.procs, s.handles, s.pipes)
    ensures var t := WakeReader(s, q);
      Remembered(t.procs, t.handles, t.pipes) && Recorded(t.procs, t.handles, t.pipes)
  {
  }

  /** A ready flag that goes up in a reader leaves everybody's reasons alone. */
  lemma WokenSleepers(procs: seq<Proc>, p: int, dying: int)
    requires |procs| == MAX_PROCESSES && IsPid(p) && InRead(procs[p]) && Sleepers(procs, dying)
    ensures Sleepers(procs[p := procs[p].(ready := true)], dying)
  {
  }

  lemma WakeReaderKeeps(s: State, q: int, extra: multiset<int>, busy: int, dying: int)
    requires Inv(s, extra, busy, dying) && q in s.pipes
    ensures Shape(s) && Wakeable(s, q) && Inv(WakeReader(s, q), extra, busy, dying)
    ensures var t := WakeReader(s, q);
      && t.handles == s.handles && t.current == s.current && t.console == s.console && t.next == s.next
      && t.pipes == s.pipes[q := s.pipes[q].(readpid := NULL)]
  {
    hide Listed;
    hide Slots;
    hide Counted;
    hide Ended;
    hide Remembered;
    hide Recorded;
    hide Sleepers;
    hide Framed;
    WakeableReader(s, q);
    if s.pipes[q].readpid != NULL {
      var p := s.pipes[q].readpid;
      WokenLists(s, q);
      WokenSlots(s, q);
      WokenReaders(s, q);
      WokenSleepers(s.procs, p, dying);
      EndedSame(s.handles, s.pipes, s.pipes[q := s.pipes[q].(readpid := NULL)], s.console);
      FramedSame(s.procs, s.procs[p := s.procs[p].(ready := true)], busy);
    } else {
      assert s.pipes == s.pipes[q := s.pipes[q].(readpid := NULL)];
    }
  }

  /** Only the flags of the pipes matter to their ends. */
  lemma EndedSame(handles: map<int, Handle>, pipes: map<int, Pipe>, pipes': map<int, Pipe>, console: int)
    requires Ended(handles, pipes, console) && pipes'.Keys == pipes.Keys
    requires forall q :: q in pipes ==> pipes'[q].reading == pipes[q].reading && pipes'[q].writing == pipes[q].writing
    ensures Ended(handles, pipes', console)
  {
  }

  lemma FramedSame(procs: seq<Proc>, procs': seq<Proc>, busy: int)
    requires |procs| == |procs'| == MAX_PROCESSES && Framed(procs, busy)
    requires forall i :: 0 <= i < MAX_PROCESSES ==>
               && Live(procs'[i]) == Live(procs[i]) && procs'[i].inCall == procs[i].inCall
               && procs'[i].regs == procs[i].regs
    ensures Framed(procs', busy)
  {
  }

  // ----- changing a pipe nobody sleeps on -----

  lemma ReadersOtherPipe(procs: seq<Proc>, handles: map<int, Handle>, pipes: map<int, Pipe>, pipes': map<int, Pipe>,
                         q: int)
    requires |procs| == MAX_PROCESSES && Remembered(procs, handles, pipes) && Recorded(procs, handles, pipes)
    requires (q in pipes ==> pipes[q].readpid == NULL) && (q in pipes' ==> pipes'[q].readpid == NULL)
    requires forall k :: k != q ==> (k in pipes' <==> k in pipes) && (k in pipes ==> pipes'[k] == pipes[k])
    ensures Remembered(procs, handles, pipes') && Recorded(procs, handles, pipes')
  {
  }

  lemma DataKeeps(s: State, q: int, pipe: Pipe, extra: multiset<int>, busy: int, dying: int)
    requires Inv(s, extra, busy, dying) && q in s.pipes && s.pipes[q].readpid == NULL == pipe.readpid
    requires pipe.reading == s.pipes[q].reading && pipe.writing == s.pipes[q].writing
    requires pipe.written == pipe.taken + pipe.data
    ensures Inv(s.(pipes := s.pipes[q := pipe]), extra, busy, dying)
  {
    hide Listed;
    hide Counted;
    hide Ended;
    hide Remembered;
    hide Recorded;
    hide Sleepers;
    hide Framed;
    var pipes := s.pipes[q := pipe];
    EndedSame(s.handles, s.pipes, pipes, s.console);
    ReadersOtherPipe(s.procs, s.handles, s.pipes, pipes, q);
  }

  lemma WritePipeKeeps(s: State, q: int, data: seq<Byte>, extra: multiset<int>, busy: int, dying: int)
    requires Inv(s, extra, busy, dying) && q in s.pipes
    ensures Shape(s) && Wakeable(s, q) && Inv(WritePipe(s, q, data), extra, busy, dying)
    ensures WritePipe(s, q, data).current == s.current
  {
    hide Inv;
    WakeReaderKeeps(s, q, extra, busy, dying);
    var t := WakeReader(s, q);
    PipeLedger(s, q, extra, busy, dying);
    DataKeeps(t, q, Append(t.pipes[q], data), extra, busy, dying);
    WriteIsWakeThenAppend(s, q, data);
  }

  lemma PipeLedger(s: State, q: int, extra: multiset<int>, busy: int, dying: int)
    requires Inv(s, extra, busy, dying) && q in s.pipes
    ensures s.pipes[q].written == s.pipes[q].taken + s.pipes[q].data
    ensures forall d :: Append(s.pipes[q], d).written == Append(s.pipes[q], d).taken + Append(s.pipes[q], d).data
    ensures forall n :: 0 <= n <= |s.pipes[q].data| ==>
              Take(s.pipes[q], n).written == Take(s.pipes[q], n).taken + Take(s.pipes[q], n).data
  {
  }

  lemma WriteIsWakeThenAppend(s: State, q: int, data: seq<Byte>)
    requires Shape(s) && Wakeable(s, q)
    ensures var t := WakeReader(s, q);
      WritePipe(s, q, data) == t.(pipes := t.pipes[q := Append(t.pipes[q], data)])
  {
  }

  // ----- dropping a reference -----

  lemma CountedDrop(handles: map<int, Handle>, slots: multiset<int>, extra: multiset<int>, h: int)
    requires Counted(handles, slots, extra) && h in extra
    ensures h in handles && handles[h].refcount >= 1
    ensures handles[h].refcount > 1 ==>
      Counted(handles[h := handles[h].(refcount := handles[h].refcount - 1)], slots, extra - multiset{h})
    ensures handles[h].refcount == 1 ==> slots[h] == 0 && Counted(handles - {h}, slots, extra - multiset{h})
  {
  }

  /** A handle without live slots plays no part in anybody's read. */
  lemma ReadersOtherHandle(procs: seq<Proc>, handles: map<int, Handle>, pipes: map<int, Pipe>, h: int)
    requires |procs| == MAX_PROCESSES && forall p :: 0 <= p < MAX_PROCESSES ==> |procs[p].fds| == MAX_FDS
    requires Remembered(procs, handles, pipes) && Recorded(procs, handles, pipes)
    requires Slots(procs, MAX_PROCESSES)[h] == 0
    ensures Remembered(procs, handles - {h}, pipes) && Recorded(procs, handles - {h}, pipes)
  {
    forall p, q | IsPid(p) && Live(procs[p]) && ReadsFrom(procs[p], handles, q)
      ensures ReadsFrom(procs[p], handles - {h}, q)
    {
      SlotCounted(procs, p, procs[p].inCall.call.fd);
    }
    hide Slots;
    forall q | q in pipes && pipes[q].readpid != NULL
      ensures AsleepOn(procs, handles - {h}, pipes[q].readpid, q)
    {
      assert AsleepOn(procs, handles, pipes[q].readpid, q);
    }
  }

  /** Nobody sleeps on a pipe whose reading end is referred to by no live slot. */
  lemma NoSleeperOn(procs: seq<Proc>, handles: map<int, Handle>, pipes: map<int, Pipe>, console: int, h: int)
    requires |procs| == MAX_PROCESSES && forall p :: 0 <= p < MAX_PROCESSES ==> |procs[p].fds| == MAX_FDS
    requires Remembered(procs, handles, pipes) && Ended(handles, pipes, console)
    requires h in handles && handles[h].kind.Reader? && Slots(procs, MAX_PROCESSES)[h] == 0
    ensures pipes[handles[h].kind.r].readpid == NULL
  {
    var q := handles[h].kind.r;
    var p := pipes[q].readpid;
    if p != NULL {
      assert AsleepOn(procs, handles, p, q);
      var fd := procs[p].inCall.call.fd;
      assert procs[p].fds[fd] == h;
      SlotCounted(procs, p, fd);
    }
  }

  lemma EndedReaderGone(handles: map<int, Handle>, pipes: map<int, Pipe>, console: int, h: int)
    requires Ended(handles, pipes, console) && h in handles && handles[h].kind.Reader?
    ensures var q := handles[h].kind.r;
      var shut := pipes[q := pipes[q].(reading := false)];
      Ended(handles - {h}, if pipes[q].writing then shut else shut - {q}, console)
  {
    var q := handles[h].kind.r;
    var shut := pipes[q := pipes[q].(reading := false)];
    EndsKept(handles, h);
  }

  lemma EndedWriterGone(handles: map<int, Handle>, pipes: map<int, Pipe>, console: int, h: int)
    requires Ended(handles, pipes, console) && h in handles && handles[h].kind.Writer?
    ensures var q := handles[h].kind.w;
      var shut := pipes[q := pipes[q].(writing := false)];
      Ended(handles - {h}, if pipes[q].reading then shut else shut - {q}, console)
  {
    EndsKept(handles, h);
  }

  lemma EndedOtherGone(handles: map<int, Handle>, pipes: map<int, Pipe>, console: int, h: int)
    requires Ended(handles, pipes, console) && h in handles && !handles[h].kind.Reader? && !handles[h].kind.Writer?
    ensures Ended(handles - {h}, pipes, console)
  {
    EndsKept(handles, h);
  }

  lemma EndsKept(handles: map<int, Handle>, h: int)
    requires h in handles
    ensures forall q :: HasReader(handles, q) && handles[h].kind != Reader(q) ==> HasReader(handles - {h}, q)
    ensures forall q :: HasWriter(handles, q) && handles[h].kind != Writer(q) ==> HasWriter(handles - {h}, q)
  {
    forall q | HasReader(handles, q) && handles[h].kind != Reader(q) ensures HasReader(handles - {h}, q) {
      var k :| k in handles && handles[k].kind.Reader? && handles[k].kind.r == q;
      assert k in handles - {h} && (handles - {h})[k].kind.r == q;
    }
    forall q | HasWriter(handles, q) && handles[h].kind != Writer(q) ensures HasWriter(handles - {h}, q) {
      var k :| k in handles && handles[k].kind.Writer? && handles[k].kind.w == q;
      assert k in handles - {h} && (handles - {h})[k].kind.w == q;
    }
  }

  lemma DropReaderKeeps(s: State, h: int, extra: multiset<int>, busy: int, dying: int)
    requires Inv(s, extra, busy, dying) && h in extra && h in s.handles
    requires s.handles[h].refcount == 1 && s.handles[h].kind.Reader?
    ensures Droppable(s, h) && Inv(Drop(s, h), extra - multiset{h}, busy, dying)
    ensures Drop(s, h).procs == s.procs && Drop(s, h).current == s.current
  {
    hide Listed;
    hide Slots;
    hide Counted;
    hide Ended;
    hide Remembered;
    hide Recorded;
    hide Sleepers;
    hide Framed;
    CountedDrop(s.handles, Slots(s.procs, MAX_PROCESSES), extra, h);
    var q := s.handles[h].kind.r;
    ReaderEnd(s.handles, s.pipes, s.console, h);
    NoSleeperOn(s.procs, s.handles, s.pipes, s.console, h);
    EndedReaderGone(s.handles, s.pipes, s.console, h);
    var shut := s.pipes[q := s.pipes[q].(reading := false)];
    var pipes := if s.pipes[q].writing then shut else shut - {q};
    ReadersOtherPipe(s.procs, s.handles, s.pipes, pipes, q);
    ReadersOtherHandle(s.procs, s.handles, pipes, h);
    assert Drop(s, h) == s.(pipes := pipes, handles := s.handles - {h});
  }

  lemma ReaderEnd(handles: map<int, Handle>, pipes: map<int, Pipe>, console: int, h: int)
    requires Ended(handles, pipes, console) && h in handles && handles[h].kind.Reader?
    ensures handles[h].kind.r in pipes && pipes[handles[h].kind.r].reading
  {
  }

  lemma WriterEnd(handles: map<int, Handle>, pipes: map<int, Pipe>, console: int, h: int)
    requires Ended(handles, pipes, console) && h in handles && handles[h].kind.Writer?
    ensures handles[h].kind.w in pipes && pipes[handles[h].kind.w].writing && handles[h].kind.w != console
  {
  }

  lemma DropWriterKeeps(s: State, h: int, extra: multiset<int>, busy: int, dying: int)
    requires Inv(s, extra, busy, dying) && h in extra && h in s.handles
    requires s.handles[h].refcount == 1 && s.handles[h].kind.Writer?
    ensures Droppable(s, h) && Inv(Drop(s, h), extra - multiset{h}, busy, dying)
    ensures Drop(s, h).current == s.current
  {
    hide Listed;
    hide Slots;
    hide Counted;
    hide Ended;
    hide Remembered;
    hide Recorded;
    hide Sleepers;
    hide Framed;
    var q := s.handles[h].kind.w;
    WriterEnd(s.handles, s.pipes, s.console, h);
    WakeableReader(s, q);
    WakeReaderKeeps(s, q, extra, busy, dying);
    var t := WakeReader(s, q);
    CountedDrop(t.handles, Slots(t.procs, MAX_PROCESSES), extra, h);
    EndedWriterGone(t.handles, t.pipes, t.console, h);
    var shut := t.pipes[q := t.pipes[q].(writing := false)];
    var pipes := if t.pipes[q].reading then shut else shut - {q};
    ReadersOtherPipe(t.procs, t.handles, t.pipes, pipes, q);
    ReadersOtherHandle(t.procs, t.handles, pipes, h);
    ShutIsWakeThenClose(s, q);
    assert Drop(s, h) == t.(pipes := pipes, handles := t.handles - {h});
  }

  lemma ShutIsWakeThenClose(s: State, q: int)
    requires Shape(s) && Wakeable(s, q)
    ensures var t := WakeReader(s, q);
      WakeReader(s.(pipes := s.pipes[q := s.pipes[q].(writing := false)]), q)
      == t.(pipes := t.pipes[q := t.pipes[q].(writing := false)])
  {
  }

  lemma DropOtherKeeps(s: State, h: int, extra: multiset<int>, busy: int, dying: int)
    requires Inv(s, extra, busy, dying) && h in extra && h in s.handles
    requires s.handles[h].refcount > 1 || (!s.handles[h].kind.Reader? && !s.handles[h].kind.Writer?)
    ensures Droppable(s, h) && Inv(Drop(s, h), extra - multiset{h}, busy, dying)
    ensures Drop(s, h).procs == s.procs && Drop(s, h).current == s.current
  {
    hide Listed;
    hide Slots;
    hide Counted;
    hide Ended;
    hide Remembered;
    hide Recorded;
    hide Sleepers;
    hide Framed;
    CountedDrop(s.handles, Slots(s.procs, MAX_PROCESSES), extra, h);
    var kind := s.handles[h].kind;
    if kind.Reader? { ReaderEnd(s.handles, s.pipes, s.console, h); }
    if kind.Writer? { WriterEnd(s.handles, s.pipes, s.console, h); WakeableReader(s, kind.w); }
    if s.handles[h].refcount > 1 {
      var handles := s.handles[h := s.handles[h].(refcount := s.handles[h].refcount - 1)];
      KindsMatter(s.procs, s.handles, handles, s.pipes, s.console);
    } else {
      EndedOtherGone(s.handles, s.pipes, s.console, h);
      ReadersOtherHandle(s.procs, s.handles, s.pipes, h);
    }
  }

  /** Only the kinds of the handles matter to pipes and readers. */
  lemma KindsMatter(procs: seq<Proc>, handles: map<int, Handle>, handles': map<int, Handle>, pipes: map<int, Pipe>,
                    console: int)
    requires |procs| == MAX_PROCESSES && handles'.Keys == handles.Keys
    requires forall h :: h in handles ==> handles'[h].kind == handles[h].kind
    requires Ended(handles, pipes, console) && Remembered(procs, handles, pipes) && Recorded(procs, handles, pipes)
    ensures Ended(handles', pipes, console) && Remembered(procs, handles', pipes) && Recorded(procs, handles', pipes)
  {
    assert forall h :: h in handles' <==> h in handles;
    assert forall q :: HasReader(handles, q) ==> HasReader(handles', q);
    assert forall q :: HasWriter(handles, q) ==> HasWriter(handles', q);
    forall q | q in pipes && pipes[q].readpid != NULL ensures AsleepOn(procs, handles', pipes[q].readpid, q) {
      assert AsleepOn(procs, handles, pipes[q].readpid, q);
    }
  }

  /** Between `s` and `t` some processes were woken; nothing else happened to any process. */
  ghost predicate OnlyWoken(s: State, t: State) {
    && |s.procs| == |t.procs| && t.current == s.current && t.console == s.console
    && forall i :: 0 <= i < |s.procs| ==> t.procs[i] == s.procs[i].(ready := t.procs[i].ready)
  }

  lemma DropOnlyWakes(s: State, h: int)
    requires Shape(s) && Droppable(s, h)
    ensures OnlyWoken(s, Drop(s, h))
  {
    hide OnlyWoken;
    match s.handles[h].kind
    case Reader(q) => ReaderOnlyWakes(s, h, q);
    case Writer(q) => WriterOnlyWakes(s, h, q);
    case Screen => SameProcs(s, Drop(s, h));
    case Plain => SameProcs(s, Drop(s, h));
  }

  lemma SameProcs(s: State, t: State)
    requires t.procs == s.procs && t.current == s.current && t.console == s.console
    ensures OnlyWoken(s, t)
  {
  }

  lemma ReaderOnlyWakes(s: State, h: int, q: int)
    requires Shape(s) && Droppable(s, h) && s.handles[h].kind == Reader(q)
    ensures OnlyWoken(s, Drop(s, h))
  {
    SameProcs(s, Drop(s, h));
  }

  lemma WriterOnlyWakes(s: State, h: int, q: int)
    requires Shape(s) && Droppable(s, h) && s.handles[h].kind == Writer(q)
    ensures OnlyWoken(s, Drop(s, h))
  {
    if s.handles[h].refcount == 1 && s.pipes[q].readpid >= 0 {
      var p := s.pipes[q].readpid;
      assert Drop(s, h).procs == s.procs[p := s.procs[p].(ready := true)];
    } else {
      SameProcs(s, Drop(s, h));
    }
  }

  /** close_filehandle gives up one reference and keeps the invariant. */
  lemma DropKeeps(s: State, h: int, extra: multiset<int>, busy: int, dying: int)
    requires Inv(s, extra, busy, dying) && h in extra
    ensures Droppable(s, h) && Inv(Drop(s, h), extra - multiset{h}, busy, dying)
    ensures Drop(s, h).current == s.current
  {
    CountedDrop(s.handles, Slots(s.procs, MAX_PROCESSES), extra, h);
    hide Inv;
    if s.handles[h].refcount == 1 && s.handles[h].kind.Reader? {
      DropReaderKeeps(s, h, extra, busy, dying);
    } else if s.handles[h].refcount == 1 && s.handles[h].kind.Writer? {
      DropWriterKeeps(s, h, extra, busy, dying);
    } else {
      DropOtherKeeps(s, h, extra, busy, dying);
    }
  }

  // ----- kill_process -----

  /** The references that a descriptor table holds. */
  function Refs(fds: seq<int>): multiset<int> {
    multiset(fds)[NULL := 0]
  }

  lemma RefsCons(fds: seq<int>)
    requires fds != []
    ensures Refs(fds) == if fds[0] == NULL then Refs(fds[1..]) else Refs(fds[1..]) + multiset{fds[0]}
  {
    assert fds == [fds[0]] + fds[1..];
  }

  lemma {:induction false} DropAllKeeps(s: State, fds: seq<int>, busy: int, dying: int)
    requires Shape(s) && Inv(s, Refs(fds), busy, dying)
    ensures AllDroppable(s, fds) && Inv(DropAll(s, fds), multiset{}, busy, dying)
    ensures OnlyWoken(s, DropAll(s, fds))
    decreases |fds|
  {
    hide Inv;
    if fds == [] {
      assert Refs(fds) == multiset{};
    } else {
      RefsCons(fds);
      if fds[0] == NULL {
        DropAllKeeps(s, fds[1..], busy, dying);
      } else {
        DropKeeps(s, fds[0], Refs(fds), busy, dying);
        DropOnlyWakes(s, fds[0]);
        assert Refs(fds) - multiset{fds[0]} == Refs(fds[1..]);
        DropAllKeeps(Drop(s, fds[0]), fds[1..], busy, dying);
      }
    }
  }

  lemma BuriedLists(s: State, p: int)
    requires Shape(s) && IsPid(p) && Live(s.procs[p])
    requires Listed(s.procs, s.ready, true) && Listed(s.procs, s.suspended, false)
    ensures var t := Bury(s, p); Listed(t.procs, t.ready, true) && Listed(t.procs, t.suspended, false)
  {
    WithoutLaws(if s.procs[p].ready then s.ready else s.suspended, p);
  }

  lemma BuriedCounts(s: State, p: int)
    requires Shape(s) && IsPid(p) && Live(s.procs[p])
    requires Counted(s.handles, Slots(s.procs, MAX_PROCESSES), multiset{})
    ensures Counted(s.handles, Slots(Bury(s, p).procs, MAX_PROCESSES), Refs(s.procs[p].fds))
  {
    var t := Bury(s, p);
    var dead := t.procs[p];
    SlotsUpdate(s.procs, p, dead, MAX_PROCESSES);
    SlotsSame(s.procs[p := dead], t.procs, MAX_PROCESSES);
    CountedMove(s.handles, Slots(s.procs, MAX_PROCESSES), s.procs[p].fds);
  }

  lemma CountedMove(handles: map<int, Handle>, slots: multiset<int>, fds: seq<int>)
    requires Counted(handles, slots, multiset{}) && multiset(fds) <= slots
    ensures Counted(handles, slots - multiset(fds), Refs(fds))
  {
  }

  lemma BuriedReaders(s: State, p: int)
    requires Shape(s) && IsPid(p) && !InRead(s.procs[p])
    requires Remembered(s.procs, s.handles, s.pipes) && Recorded(s.procs, s.handles, s.pipes)
    ensures var t := Bury(s, p); Remembered(t.procs, s.handles, s.pipes) && Recorded(t.procs, s.handles, s.pipes)
  {
  }

  lemma BuriedSleepers(s: State, p: int)
    requires Shape(s) && IsPid(p) && Live(s.procs[p]) && Sleepers(s.procs, NULL)
    ensures Sleepers(Bury(s, p).procs, p)
  {
    hide Sleeper;
    hide Bury;
    forall i | IsPid(i) ensures Sleeper(Bury(s, p).procs, i, p) {
      assert Sleeper(s.procs, i, NULL) && Sleeper(s.procs, p, NULL);
      BuriedSleeper(s, p, i);
    }
  }

  lemma BuriedSleeper(s: State, p: int, i: int)
    requires Shape(s) && IsPid(p) && Live(s.procs[p]) && IsPid(i)
    requires Sleeper(s.procs, i, NULL) && Sleeper(s.procs, p, NULL)
    ensures Sleeper(Bury(s, p).procs, i, p)
  {
  }

  lemma BuryKeeps(s: State, p: int, busy: int)
    requires Inv(s, multiset{}, busy, NULL) && IsPid(p) && Live(s.procs[p]) && !InRead(s.procs[p])
    ensures Inv(Bury(s, p), Refs(s.procs[p].fds), busy, p)
  {
    hide Listed;
    hide Slots;
    hide Counted;
    hide Ended;
    hide Remembered;
    hide Recorded;
    hide Sleepers;
    BuriedLists(s, p);
    BuriedCounts(s, p);
    BuriedReaders(s, p);
    BuriedSleepers(s, p);
  }

  /** Nobody but the parent waits for a process. */
  lemma NotifiedSleepers(procs: seq<Proc>, p: int, parent: int)
    requires |procs| == MAX_PROCESSES && IsPid(p) && IsPid(parent) && procs[p].used && procs[p].parent == parent
    requires Sleepers(procs, p) && procs[parent].waitingOn == p && Live(procs[parent])
    ensures Sleepers(procs[parent := procs[parent].(waitingOn := NULL, ready := true)], NULL)
  {
  }

  lemma UnawaitedSleepers(s: State, p: int)
    requires Shape(s) && IsPid(p) && Sleepers(s.procs, p) && (s.procs[p].used ==> s.procs[p].parent != NULL)
    requires !AwaitedBy(s, p, s.procs[p].parent)
    ensures Sleepers(s.procs, NULL)
  {
  }

  /** Clearing the wait of a process that sleeps in waitpid is invisible to the pipes. */
  lemma AwokenReaders(procs: seq<Proc>, handles: map<int, Handle>, pipes: map<int, Pipe>, p: int, proc: Proc)
    requires |procs| == MAX_PROCESSES && IsPid(p) && !InRead(procs[p]) && !InRead(proc)
    requires Remembered(procs, handles, pipes) && Recorded(procs, handles, pipes)
    ensures Remembered(procs[p := proc], handles, pipes) && Recorded(procs[p := proc], handles, pipes)
  {
  }

  lemma NotifyKeeps(s: State, p: int, busy: int)
    requires Inv(s, multiset{}, busy, p) && IsPid(p) && s.procs[p].used && s.procs[p].parent != NULL
    ensures var parent := s.procs[p].parent;
      && (AwaitedBy(s, p, parent) ==> s.procs[parent].used && !s.procs[parent].ready)
      && Inv(Notify(s, p, parent), multiset{}, busy, NULL)
  {
    hide Listed;
    hide Slots;
    hide Counted;
    hide Ended;
    hide Remembered;
    hide Recorded;
    hide Sleepers;
    hide Sleeper;
    var parent := s.procs[p].parent;
    ParentAsleep(s, p);
    if AwaitedBy(s, p, parent) {
      var me := s.procs[parent].(waitingOn := NULL, ready := true);
      assert Notify(s, p, parent).procs == s.procs[parent := me];
      ListedMove(s.procs, s.procs[parent := me], s.suspended, s.ready, parent, true);
      SlotsSame(s.procs, s.procs[parent := me], MAX_PROCESSES);
      AwokenReaders(s.procs, s.handles, s.pipes, parent, me);
      NotifiedSleepers(s.procs, p, parent);
    } else {
      UnawaitedSleepers(s, p);
    }
  }

  lemma ParentAsleep(s: State, p: int)
    requires Shape(s) && IsPid(p) && Sleepers(s.procs, p) && s.procs[p].used && s.procs[p].parent != NULL
    ensures var parent := s.procs[p].parent;
      IsPid(parent) && Live(s.procs[parent]) && (AwaitedBy(s, p, parent) ==> !s.procs[parent].ready)
  {
  }

  /** kill_process meets its asserts and keeps the invariant, unless it kills a process that
      sleeps in a read. */
  lemma KillKeeps(s: State, p: int, busy: int)
    requires Inv(s, multiset{}, busy, NULL) && IsPid(p) && Live(s.procs[p]) && !InRead(s.procs[p])
    ensures Killable(s, p) && Inv(KillProcess(s, p), multiset{}, busy, NULL)
    ensures KillProcess(s, p).current == if s.current == p then NULL else s.current
  {
    BuryKeeps(s, p, busy);
    var b := Bury(s, p);
    hide Inv;
    DropAllKeeps(b, s.procs[p].fds, busy, p);
    var t := DropAll(b, s.procs[p].fds);
    assert t.procs[p] == b.procs[p].(ready := t.procs[p].ready);
    if s.procs[p].parent != NULL {
      NotifyKeeps(t, p, busy);
    } else {
      OrphanKeeps(t, p, busy);
    }
  }

  /** A dead process without a parent leaves the table at once. */
  lemma OrphanKeeps(s: State, p: int, busy: int)
    requires Inv(s, multiset{}, busy, p) && IsPid(p) && s.procs[p].exited && s.procs[p].parent == NULL
    ensures Inv(SetProc(s, p, s.procs[p].(used := false)), multiset{}, busy, NULL)
  {
    hide Listed;
    hide Slots;
    hide Counted;
    hide Ended;
    hide Remembered;
    hide Recorded;
    hide Sleepers;
    hide Sleeper;
    var gone := s.procs[p].(used := false);
    ListedSame(s.procs, s.procs[p := gone], s.ready, true);
    ListedSame(s.procs, s.procs[p := gone], s.suspended, false);
    SlotsSame(s.procs, s.procs[p := gone], MAX_PROCESSES);
    AwokenReaders(s.procs, s.handles, s.pipes, p, gone);
    GoneSleepers(s.procs, p, p);
  }

  /** Nobody's wait or parentage rests on a dead process whose parent is gone or is reaping it. */
  lemma GoneSleepers(procs: seq<Proc>, p: int, dying: int)
    requires |procs| == MAX_PROCESSES && IsPid(p) && procs[p].exited && Sleepers(procs, dying)
    requires (dying == p && procs[p].parent == NULL) || dying == NULL
    ensures Sleepers(procs[p := procs[p].(used := false)], NULL)
  {
  }

  // ----- killing a process that sleeps in a read -----

  /** The pipe still remembers the dead reader, or the dead reader has been put on the ready list. */
  ghost predicate Haunted(s: State, p: int, q: int) {
    (q in s.pipes && s.pipes[q].readpid == p) || p in s.ready
  }

  lemma DropHaunted(s: State, h: int, p: int, q: int)
    requires Shape(s) && Droppable(s, h) && Haunted(s, p, q) && p >= 0
    ensures Haunted(Drop(s, h), p, q)
  {
  }

  lemma {:induction false} DropAllHaunted(s: State, fds: seq<int>, p: int, q: int)
    requires Shape(s) && AllDroppable(s, fds) && Haunted(s, p, q) && p >= 0
    ensures Haunted(DropAll(s, fds), p, q)
    decreases |fds|
  {
    if fds != [] {
      if fds[0] == NULL {
        DropAllHaunted(s, fds[1..], p, q);
      } else {
        DropHaunted(s, fds[0], p, q);
        DropAllHaunted(Drop(s, fds[0]), fds[1..], p, q);
      }
    }
  }

  lemma {:induction false} DropAllStays(s: State, fds: seq<int>)
    requires Shape(s) && AllDroppable(s, fds)
    ensures OnlyWoken(s, DropAll(s, fds))
    decreases |fds|
  {
    if fds != [] {
      if fds[0] == NULL {
        DropAllStays(s, fds[1..]);
      } else {
        DropOnlyWakes(s, fds[0]);
        DropAllStays(Drop(s, fds[0]), fds[1..]);
      }
    }
  }

  lemma HauntedBreaks(s: State, p: int, q: int, extra: multiset<int>, busy: int, dying: int)
    requires Shape(s) && IsPid(p) && !Live(s.procs[p]) && Haunted(s, p, q)
    ensures !Inv(s, extra, busy, dying)
  {
  }

  lemma NotifyHaunted(s: State, p: int, parent: int, q: int)
    requires Shape(s) && Haunted(s, p, q) && IsPid(p)
    requires AwaitedBy(s, p, parent) ==> s.procs[parent].used && !s.procs[parent].ready
    ensures Haunted(Notify(s, p, parent), p, q)
    ensures Notify(s, p, parent).procs[p].exited == s.procs[p].exited
  {
  }

  lemma SleepingReaderBreaks(s: State, p: int, busy: int)
    requires Inv(s, multiset{}, busy, NULL) && IsPid(p) && Live(s.procs[p]) && InRead(s.procs[p]) && Killable(s, p)
    ensures !Inv(KillProcess(s, p), multiset{}, busy, NULL)
  {
    var q :| q in s.pipes && s.pipes[q].readpid == p && ReadsFrom(s.procs[p], s.handles, q);
    var b := Bury(s, p);
    hide Inv;
    DropAllHaunted(b, s.procs[p].fds, p, q);
    DropAllStays(b, s.procs[p].fds);
    var t := DropAll(b, s.procs[p].fds);
    assert t.procs[p] == b.procs[p].(ready := t.procs[p].ready);
    if s.procs[p].parent != NULL { NotifyHaunted(t, p, s.procs[p].parent, q); }
    HauntedBreaks(KillProcess(s, p), p, q, multiset{}, busy, NULL);
  }

  // ----- killing a process that is dead already -----

  /** A handle has fewer references than slots refer to it, or is gone while some do. */
  ghost predicate Short(s: State, h: int)
    requires Shape(s)
  {
    Slots(s.procs, MAX_PROCESSES)[h] >= 1
    && (h in s.handles ==> s.handles[h].refcount < Slots(s.procs, MAX_PROCESSES)[h])
  }

  lemma ShortBreaks(s: State, h: int, extra: multiset<int>, busy: int, dying: int)
    requires Shape(s) && Short(s, h) && h != NULL && extra == multiset{}
    ensures !Inv(s, extra, busy, dying)
  {
    assert Counted(s.handles, Slots(s.procs, MAX_PROCESSES), extra) ==> h !in s.handles || h >= 0;
  }

  lemma DropSlots(s: State, h: int)
    requires Shape(s) && Droppable(s, h)
    ensures Slots(Drop(s, h).procs, MAX_PROCESSES) == Slots(s.procs, MAX_PROCESSES)
  {
    hide Drop;
    hide Droppable;
    DropOnlyWakes(s, h);
    SlotsSame(s.procs, Drop(s, h).procs, MAX_PROCESSES);
  }

  /** What dropping `x` does to the counts. */
  lemma DropCounts(s: State, x: int)
    requires Shape(s) && Droppable(s, x)
    ensures var t := Drop(s, x);
      && (forall h :: h in t.handles ==> h in s.handles && t.handles[h].refcount <= s.handles[h].refcount)
      && (x in t.handles ==> t.handles[x].refcount == s.handles[x].refcount - 1)
      && x in s.handles && s.handles[x].refcount >= 1
  {
  }

  /** Closing the descriptors of a dead process takes references away from live ones. */
  lemma {:induction false} DeadSlotsBreak(s: State, fds: seq<int>, h: int)
    requires Shape(s) && AllDroppable(s, fds) && h != NULL
    requires Short(s, h) || (h in fds && (h in s.handles ==> s.handles[h].refcount <= Slots(s.procs, MAX_PROCESSES)[h]))
    ensures Short(DropAll(s, fds), h)
    decreases |fds|
  {
    hide Drop;
    hide Droppable;
    hide Slots;
    if fds != [] {
      assert h in fds ==> h == fds[0] || h in fds[1..];
      if fds[0] != NULL {
        DropSlots(s, fds[0]);
        DropCounts(s, fds[0]);
        DeadSlotsBreak(Drop(s, fds[0]), fds[1..], h);
      } else {
        DeadSlotsBreak(s, fds[1..], h);
      }
    }
  }

  lemma BuriedDeadKeeps(s: State, p: int, busy: int)
    requires Inv(s, multiset{}, busy, NULL) && IsPid(p) && s.procs[p].exited
    ensures Inv(Bury(s, p), multiset{}, busy, NULL)
    ensures Slots(Bury(s, p).procs, MAX_PROCESSES) == Slots(s.procs, MAX_PROCESSES)
  {
    hide Slots;
    hide Counted;
    hide Ended;
    hide Remembered;
    hide Recorded;
    hide Sleepers;
    BuriedDeadLists(s, p);
    SlotsSame(s.procs, Bury(s, p).procs, MAX_PROCESSES);
    BuriedReaders(s, p);
    BuriedDeadSleepers(s, p);
  }

  lemma BuriedDeadLists(s: State, p: int)
    requires Shape(s) && IsPid(p) && s.procs[p].exited
    requires Listed(s.procs, s.ready, true) && Listed(s.procs, s.suspended, false)
    ensures var t := Bury(s, p); Listed(t.procs, t.ready, true) && Listed(t.procs, t.suspended, false)
  {
    WithoutLaws(if s.procs[p].ready then s.ready else s.suspended, p);
  }

  lemma BuriedDeadSleepers(s: State, p: int)
    requires Shape(s) && IsPid(p) && s.procs[p].exited && Sleepers(s.procs, NULL)
    ensures Sleepers(Bury(s, p).procs, NULL)
  {
    var t := Bury(s, p);
    forall i | IsPid(i) ensures Sleeper(t.procs, i, NULL) {
      assert Sleeper(s.procs, i, NULL);
    }
  }

  lemma {:induction false} DropNothing(s: State, fds: seq<int>)
    requires Shape(s) && forall i :: 0 <= i < |fds| ==> fds[i] == NULL
    ensures AllDroppable(s, fds) && DropAll(s, fds) == s
    decreases |fds|
  {
    if fds != [] { DropNothing(s, fds[1..]); }
  }

  lemma NobodyWaitsForDead(s: State, p: int)
    requires Shape(s) && Sleepers(s.procs, NULL) && IsPid(p) && s.procs[p].used && s.procs[p].exited
    ensures s.procs[p].parent != NULL ==> !AwaitedBy(s, p, s.procs[p].parent)
    ensures Sleepers(s.procs, p)
  {
    assert Sleeper(s.procs, p, NULL);
    if IsPid(s.procs[p].parent) { assert Sleeper(s.procs, s.procs[p].parent, NULL); }
    forall i | IsPid(i) ensures Sleeper(s.procs, i, p) { assert Sleeper(s.procs, i, NULL); }
  }

  lemma KillAgainKeeps(s: State, p: int, busy: int)
    requires Inv(s, multiset{}, busy, NULL) && IsPid(p) && s.procs[p].used && s.procs[p].exited
    requires forall i :: 0 <= i < MAX_FDS ==> s.procs[p].fds[i] == NULL
    ensures Killable(s, p) && Inv(KillProcess(s, p), multiset{}, busy, NULL)
  {
    var b := Bury(s, p);
    BuriedDeadKeeps(s, p, busy);
    DropNothing(b, s.procs[p].fds);
    NobodyWaitsForDead(s, p);
    NobodyWaitsForDead(b, p);
    assert Inv(b, multiset{}, busy, p);
    hide Inv;
    if s.procs[p].parent == NULL { OrphanKeeps(b, p, busy); }
  }

  /** The handles and the slots of live processes after the descriptors are closed are final. */
  lemma KilledSlots(s: State, p: int)
    requires Killable(s, p) && s.procs[p].exited
    ensures var t := DropAll(Bury(s, p), s.procs[p].fds);
      && KillProcess(s, p).handles == t.handles
      && Slots(KillProcess(s, p).procs, MAX_PROCESSES) == Slots(t.procs, MAX_PROCESSES)
  {
    hide Slots;
    hide AllDroppable;
    hide DropAll;
    hide Notify;
    var b := Bury(s, p);
    DropAllStays(b, s.procs[p].fds);
    var t := DropAll(b, s.procs[p].fds);
    assert t.procs[p].exited;
    hide Bury;
    if s.procs[p].parent == NULL {
      SlotsSame(t.procs, t.procs[p := t.procs[p].(used := false)], MAX_PROCESSES);
    } else {
      ToldSlots(t, p, s.procs[p].parent);
    }
  }

  lemma ToldSlots(t: State, p: int, parent: int)
    requires Shape(t) && (AwaitedBy(t, p, parent) ==> t.procs[parent].used && !t.procs[parent].ready)
    ensures Notify(t, p, parent).handles == t.handles
    ensures Slots(Notify(t, p, parent).procs, MAX_PROCESSES) == Slots(t.procs, MAX_PROCESSES)
  {
    hide Slots;
    SlotsSame(t.procs, Notify(t, p, parent).procs, MAX_PROCESSES);
  }

  lemma KillAgainBreaks(s: State, p: int, busy: int, i: int)
    requires Inv(s, multiset{}, busy, NULL) && IsPid(p) && s.procs[p].used && s.procs[p].exited
    requires 0 <= i < MAX_FDS && s.procs[p].fds[i] != NULL && Killable(s, p)
    ensures !Inv(KillProcess(s, p), multiset{}, busy, NULL)
  {
    var h := s.procs[p].fds[i];
    assert h in s.handles ==> s.handles[h].refcount == Slots(s.procs, MAX_PROCESSES)[h];
    BuriedDeadKeeps(s, p, busy);
    hide Inv;
    hide Slots;
    hide Bury;
    DeadSlotsBreak(Bury(s, p), s.procs[p].fds, h);
    KilledSlots(s, p);
    ShortBreaks(KillProcess(s, p), h, multiset{}, busy, NULL);
  }

  /** What a process must be like for kill_process to do no harm. */
  predicate Expendable(p: Proc) {
    if p.exited then forall i :: 0 <= i < |p.fds| ==> p.fds[i] == NULL else !InRead(p)
  }

  /** The exact condition: killing a process keeps the invariant if and only if the process lives
      and does not sleep in a read, or is dead and had closed all its descriptors. */
  lemma KillKeepsIff(s: State, p: int, busy: int)
    requires Inv(s, multiset{}, busy, NULL) && IsPid(p) && s.procs[p].used
    ensures Killable(s, p) && Inv(KillProcess(s, p), multiset{}, busy, NULL) <==> Expendable(s.procs[p])
  {
    assert |s.procs[p].fds| == MAX_FDS;
    hide Inv;
    hide InRead;
    if !s.procs[p].exited {
      if !InRead(s.procs[p]) {
        KillKeeps(s, p, busy);
      } else if Killable(s, p) {
        SleepingReaderBreaks(s, p, busy);
      }
    } else if i :| 0 <= i < MAX_FDS && s.procs[p].fds[i] != NULL {
      if Killable(s, p) { KillAgainBreaks(s, p, busy, i); }
    } else {
      KillAgainKeeps(s, p, busy);
    }
  }
}
