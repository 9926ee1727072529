/** Messages to and kills of processes that have exited: exactly when they do harm, and runs of the
    kernel in which they do. */
module AfterDeath {
  import opened Bytes
  import opened ProcessState
  import opened ProcessInvariant
  import opened ProcessSteps
  import opened ProcessCalls
  import opened DescriptorCalls

  /** The exact condition: send keeps the invariant if and only if it is refused, or its receiver
      lives, or the receiver was not blocked in a receive when it died. */
  lemma SendKeepsIff(s: State, to: int, tag: int, body: seq<Byte>)
    requires Running(s, Send(to, tag, body))
    ensures Shape(s)
    ensures Sendable(s, to, body) && After(s, Send(to, tag, body), DoSend(s, to, tag, body))
            <==> (Delivers(s, to, body) ==> !s.procs[to].exited || !s.procs[to].blocked)
  {
    InvShape(s);
    hide Inv;
    if Delivers(s, to, body) ==> !s.procs[to].exited || !s.procs[to].blocked {
      if Delivers(s, to, body) && !s.procs[to].exited { BlockedAsleep(s, to); }
      DoSendKeeps(s, to, tag, body);
    } else if Sendable(s, to, body) {
      DeadOnReadyList(DoSend(s, to, tag, body).s, to, s.current);
    }
  }

  lemma DeadOnReadyList(s: State, p: int, busy: int)
    requires Shape(s) && IsPid(p) && s.procs[p].exited && p in s.ready
    ensures !Inv(s, multiset{}, busy, NULL)
  {
  }

  /** The exact condition for kill. */
  lemma DoKillKeepsIff(s: State, p: int)
    requires Running(s, Kill(p)) && IsPid(p) && s.procs[p].used
    ensures Killable(s, p) && After(s, Kill(p), DoKill(s, p)) <==> Expendable(s.procs[p])
  {
    hide Inv;
    InvShape(s);
    KillKeepsIff(s, p, s.current);
    if Expendable(s.procs[p]) { DoKillKeeps(s, p); }
  }
}
