/** The kernel closes handles while parts of the process table are still to be changed; the order
    makes no difference, because closing only ever sets ready flags. */
module Commuting {
  import opened ProcessState
  import opened ProcessSteps

  /** The same but for fields of processes that closing a handle does not look at. */
  ghost predicate Alike(s: State, t: State) {
    && s == t.(procs := s.procs) && |s.procs| == |t.procs|
    && forall i :: 0 <= i < |s.procs| ==> s.procs[i].used == t.procs[i].used && s.procs[i].ready == t.procs[i].ready
  }

  lemma DropAlike(s: State, t: State, h: int)
    requires Shape(s) && Shape(t) && Alike(s, t) && Droppable(s, h)
    ensures Droppable(t, h) && Alike(Drop(s, h), Drop(t, h))
  {
  }

  lemma {:induction false} DropAllAlike(s: State, t: State, fds: seq<int>)
    requires Shape(s) && Shape(t) && Alike(s, t) && AllDroppable(s, fds)
    ensures AllDroppable(t, fds) && Alike(DropAll(s, fds), DropAll(t, fds))
    decreases |fds|
  {
    hide Alike;
    hide Droppable;
    hide Drop;
    if fds != [] {
      if fds[0] == NULL {
        DropAllAlike(s, t, fds[1..]);
      } else {
        DropAlike(s, t, fds[0]);
        DropAllAlike(Drop(s, fds[0]), Drop(t, fds[0]), fds[1..]);
      }
    }
  }

  /** Closing a handle before or after a descriptor is cleared comes to the same. */
  lemma ClearAfterDrop(s: State, p: int, fd: int, h: int)
    requires Shape(s) && IsPid(p) && 0 <= fd < MAX_FDS
    requires Droppable(SetProc(s, p, s.procs[p].(fds := s.procs[p].fds[fd := NULL])), h)
    ensures Droppable(s, h) && Shape(Drop(s, h))
    ensures var t := Drop(s, h);
      SetProc(t, p, t.procs[p].(fds := t.procs[p].fds[fd := NULL]))
      == Drop(SetProc(s, p, s.procs[p].(fds := s.procs[p].fds[fd := NULL])), h)
  {
    hide Drop;
    hide Droppable;
    var c := SetProc(s, p, s.procs[p].(fds := s.procs[p].fds[fd := NULL]));
    DropAlike(c, s, h);
    DropOnlyWakes(s, h);
    DropOnlyWakes(c, h);
    var t, u := Drop(s, h), Drop(c, h);
    assert t.procs[p := t.procs[p].(fds := t.procs[p].fds[fd := NULL])] == u.procs;
  }

  /** kill_process before it closes descriptors: the process is off its list. */
  function Unlist(s: State, p: int): (t: State)
    requires Shape(s) && IsPid(p)
    ensures Shape(t)
  {
    s.(ready := if s.procs[p].ready then Without(s.ready, p) else s.ready,
       suspended := if s.procs[p].ready then s.suspended else Without(s.suspended, p),
       current := if s.current == p then NULL else s.current)
  }

  lemma KillInOrder(s: State, p: int)
    requires Killable(s, p)
    ensures AllDroppable(Unlist(s, p), s.procs[p].fds)
    ensures var u, t := DropAll(Unlist(s, p), s.procs[p].fds), DropAll(Bury(s, p), s.procs[p].fds);
      && Alike(t, u) && OnlyWoken(Unlist(s, p), u) && OnlyWoken(Bury(s, p), t)
  {
    hide AllDroppable;
    hide DropAll;
    DropAllAlike(Bury(s, p), Unlist(s, p), s.procs[p].fds);
    DropAllStays(Unlist(s, p), s.procs[p].fds);
    DropAllStays(Bury(s, p), s.procs[p].fds);
  }
}
