/** Which list a process is on while a call is being carried out. list_remove is only right for a
    process that is on the list, and list_add for one that is on none. */
module Filing {
  import opened ProcessState
  import opened ProcessInvariant
  import opened Commuting

  /** Every live process but `gone` is on the list that its ready flag names, and nobody else is
      on a list. The readers that pipes remember are among them. */
  ghost predicate Filed(s: State, gone: int) {
    && Shape(s) && Distinct(s.ready) && Distinct(s.suspended)
    && (forall i :: i in s.ready <==> IsPid(i) && i != gone && Live(s.procs[i]) && s.procs[i].ready)
    && (forall i :: i in s.suspended <==> IsPid(i) && i != gone && Live(s.procs[i]) && !s.procs[i].ready)
    && (forall q :: q in s.pipes && s.pipes[q].readpid >= 0 ==>
          IsPid(s.pipes[q].readpid) && s.pipes[q].readpid != gone && Live(s.procs[s.pipes[q].readpid]))
  }

  lemma InvFiled(s: State, extra: multiset<int>, busy: int, dying: int)
    requires Inv(s, extra, busy, dying)
    ensures Filed(s, NULL)
  {
    forall q | q in s.pipes && s.pipes[q].readpid >= 0
      ensures IsPid(s.pipes[q].readpid) && Live(s.procs[s.pipes[q].readpid])
    {
      assert AsleepOn(s.procs, s.handles, s.pipes[q].readpid, q);
    }
  }

  lemma FiledWhere(s: State, gone: int, p: int)
    requires Filed(s, gone) && IsPid(p) && p != gone && Live(s.procs[p])
    ensures s.procs[p].ready ==> p in s.ready && p !in s.suspended
    ensures !s.procs[p].ready ==> p in s.suspended && p !in s.ready
  {
  }

  lemma ResumeFiled(s: State, p: int, gone: int)
    requires Filed(s, gone) && IsPid(p) && p != gone && Live(s.procs[p]) && !s.procs[p].ready
    ensures Filed(Resume(s, p), gone)
  {
    WithoutLaws(s.suspended, p);
  }

  lemma WakeReaderFiled(s: State, q: int, gone: int)
    requires Filed(s, gone) && Wakeable(s, q)
    ensures s.pipes[q].readpid >= 0 ==> s.pipes[q].readpid in s.suspended
    ensures Filed(WakeReader(s, q), gone)
  {
    var p := s.pipes[q].readpid;
    if p >= 0 { ResumeFiled(s, p, gone); }
  }

  lemma DropFiled(s: State, h: int, gone: int)
    requires Filed(s, gone) && Droppable(s, h)
    ensures Filed(Drop(s, h), gone)
  {
    if s.handles[h].refcount == 1 && s.handles[h].kind.Writer? {
      var q := s.handles[h].kind.w;
      var shut := s.(pipes := s.pipes[q := s.pipes[q].(writing := false)]);
      hide Wakeable;
      ShutWakeable(s, q);
      WakeReaderFiled(shut, q, gone);
      hide WakeReader;
      assert Filed(CheckFree(WakeReader(shut, q), q), gone);
    }
  }

  lemma ShutWakeable(s: State, q: int)
    requires Shape(s) && Wakeable(s, q)
    ensures var t := s.(pipes := s.pipes[q := s.pipes[q].(writing := false)]);
      Wakeable(t, q) && q in WakeReader(t, q).pipes
    ensures var t := s.(pipes := s.pipes[q := s.pipes[q].(writing := false)]); WakeReader(t, q).pipes[q].readpid < 0
  {
  }

  /** Taking a process that is no remembered reader off its list. */
  lemma UnlistFiled(s: State, p: int)
    requires Filed(s, NULL) && IsPid(p)
    requires forall q :: q in s.pipes ==> s.pipes[q].readpid != p
    ensures Filed(Unlist(s, p), p)
  {
    WithoutLaws(s.ready, p);
    WithoutLaws(s.suspended, p);
  }

  /** A process outside a read is no remembered reader. */
  lemma NoReader(s: State, p: int, extra: multiset<int>, busy: int, dying: int)
    requires Inv(s, extra, busy, dying) && IsPid(p) && !InRead(s.procs[p])
    ensures forall q :: q in s.pipes ==> s.pipes[q].readpid != p
  {
    forall q | q in s.pipes ensures s.pipes[q].readpid != p {
      if s.pipes[q].readpid != NULL { assert AsleepOn(s.procs, s.handles, s.pipes[q].readpid, q); }
    }
  }
}
