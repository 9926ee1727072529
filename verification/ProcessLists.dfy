/** The ready and suspended lists as src/include/kernel.h links them: through `next` and `prev`
    fields in the process table, shared by both lists. Pids stand for pointers, NULL for no
    process. */
module ProcessLists {
  import ProcessState
  import Scheduler
  import opened ProcessInvariant

  const NULL: int := ProcessState.NULL
  const SLOTS: nat := ProcessState.MAX_PROCESSES

  datatype Head = Head(first: int, last: int)

  /** The k-th element, or NULL beyond either end. */
  function At(list: seq<int>, k: int): int {
    if 0 <= k < |list| then list[k] else NULL
  }

  ghost predicate InTable(list: seq<int>) {
    forall k :: 0 <= k < |list| ==> 0 <= list[k] < SLOTS
  }

  ghost predicate Node(next: seq<int>, prev: seq<int>, list: seq<int>, k: nat)
    requires |next| == |prev| == SLOTS && k < |list| && 0 <= list[k] < SLOTS
  {
    next[list[k]] == At(list, k + 1) && prev[list[k]] == At(list, k - 1)
  }

  /** `list` is what following `next` from `h.first` visits, and `prev` leads back. */
  ghost predicate Linked(next: seq<int>, prev: seq<int>, h: Head, list: seq<int>) {
    && |next| == |prev| == SLOTS
    && InTable(list) && Distinct(list)
    && h.first == At(list, 0) && h.last == At(list, |list| - 1)
    && (forall k: nat {:trigger Node(next, prev, list, k)} :: k < |list| ==> Node(next, prev, list, k))
  }

  /** A process on no list has no links; list_add relies on that. */
  ghost predicate Bare(next: seq<int>, prev: seq<int>, x: int) {
    0 <= x < SLOTS && |next| == |prev| == SLOTS && next[x] == prev[x] == NULL
  }

  /** Links of processes not on the list may change. */
  lemma LinkedFrame(next: seq<int>, prev: seq<int>, next': seq<int>, prev': seq<int>, h: Head, list: seq<int>)
    requires Linked(next, prev, h, list) && |next'| == |prev'| == SLOTS
    requires forall y :: y in list && 0 <= y < SLOTS ==> next'[y] == next[y] && prev'[y] == prev[y]
    ensures Linked(next', prev', h, list)
  {
    forall k: nat | k < |list| ensures Node(next', prev', list, k) {
      assert Node(next, prev, list, k) && list[k] in list;
    }
  }

  method ListAdd(next: array<int>, prev: array<int>, h: Head, x: int, ghost list: seq<int>) returns (r: Head)
    requires next != prev && Linked(next[..], prev[..], h, list) && Bare(next[..], prev[..], x) && x !in list
    modifies next, prev
    ensures Linked(next[..], prev[..], r, [x] + list)
    ensures forall y :: 0 <= y < SLOTS && y != x && y !in list ==> next[y] == old(next[y]) && prev[y] == old(prev[y])
  {
    if h.first != NULL {
      assert h.first == list[0];
      next[x] := h.first;
      prev[h.first] := x;
      r := Head(x, h.last);
    } else {
      r := Head(x, x);
    }
    Added(old(next[..]), old(prev[..]), next[..], prev[..], h, x, list);
  }

  lemma Added(next: seq<int>, prev: seq<int>, next': seq<int>, prev': seq<int>, h: Head, x: int, list: seq<int>)
    requires Linked(next, prev, h, list) && Bare(next, prev, x) && x !in list
    requires |next'| == |prev'| == SLOTS
    requires if list == [] then next' == next && prev' == prev
             else 0 <= list[0] < SLOTS && next' == next[x := list[0]] && prev' == prev[list[0] := x]
    ensures Linked(next', prev', Head(x, if list == [] then x else h.last), [x] + list)
  {
    var longer := [x] + list;
    assert InTable(longer);
    forall k: nat | k < |longer| ensures Node(next', prev', longer, k) {
      if k > 0 { assert Node(next, prev, list, k - 1); }
    }
  }

  method ListRemove(next: array<int>, prev: array<int>, h: Head, x: int, ghost list: seq<int>) returns (r: Head)
    requires next != prev && Linked(next[..], prev[..], h, list) && x in list
    modifies next, prev
    ensures Linked(next[..], prev[..], r, ProcessState.Without(list, x)) && Bare(next[..], prev[..], x)
    ensures forall y :: 0 <= y < SLOTS && y !in list ==> next[y] == old(next[y]) && prev[y] == old(prev[y])
  {
    ghost var i: nat :| i < |list| && list[i] == x;
    ghost var n, p := next[..], prev[..];
    assert Node(n, p, list, i);
    var first, last := h.first, h.last;
    if first == x { first := next[x]; }
    if last == x { last := prev[x]; }
    if next[x] != NULL { prev[next[x]] := prev[x]; }
    if prev[x] != NULL { next[prev[x]] := next[x]; }
    next[x] := NULL;
    prev[x] := NULL;
    r := Head(first, last);
    Removed(n, p, next[..], prev[..], h, list, i);
  }

  lemma {:induction false} WithoutAt(list: seq<int>, i: nat)
    requires i < |list| && Distinct(list)
    ensures ProcessState.Without(list, list[i]) == list[..i] + list[i + 1..]
  {
    if i > 0 {
      assert list[0] != list[i];
      WithoutAt(list[1..], i - 1);
      assert list[1..][..i - 1] == list[1..i] && list[1..][i..] == list[i + 1..];
    }
  }

  lemma Removed(next: seq<int>, prev: seq<int>, next': seq<int>, prev': seq<int>, h: Head, list: seq<int>, i: nat)
    requires Linked(next, prev, h, list) && i < |list| && |next'| == |prev'| == SLOTS
    requires var x := list[i]; var a, b := At(list, i - 1), At(list, i + 1);
      && (forall y :: 0 <= y < SLOTS ==> next'[y] == if y == x then NULL else if y == a then b else next[y])
      && (forall y :: 0 <= y < SLOTS ==> prev'[y] == if y == x then NULL else if y == b then a else prev[y])
    ensures Linked(next', prev', Head(if i == 0 then At(list, 1) else h.first,
                                      if i == |list| - 1 then At(list, i - 1) else h.last),
                   ProcessState.Without(list, list[i]))
  {
    hide Distinct;
    hide Node;
    WithoutAt(list, i);
    var less := list[..i] + list[i + 1..];
    LessShape(list, i);
    forall k: nat | k < |less| ensures Node(next', prev', less, k) {
      RemovedNode(next, prev, next', prev', h, list, i, k);
    }
  }

  lemma LessShape(list: seq<int>, i: nat)
    requires i < |list| && Distinct(list) && InTable(list)
    ensures var less := list[..i] + list[i + 1..];
      && Distinct(less) && InTable(less)
      && At(less, 0) == (if i == 0 then At(list, 1) else At(list, 0))
      && At(less, |less| - 1) == (if i == |list| - 1 then At(list, i - 1) else At(list, |list| - 1))
  {
  }

  lemma LessAt(list: seq<int>, i: nat, k: int)
    requires i < |list|
    ensures At(list[..i] + list[i + 1..], k) == if k < i then At(list, k) else At(list, k + 1)
  {
  }

  lemma AtIs(list: seq<int>, j: nat, k: int)
    requires j < |list| && Distinct(list) && InTable(list)
    ensures list[j] == At(list, k) <==> j == k
  {
  }

  lemma RemovedNode(next: seq<int>, prev: seq<int>, next': seq<int>, prev': seq<int>, h: Head, list: seq<int>,
                    i: nat, k: nat)
    requires Linked(next, prev, h, list) && i < |list| && k < |list| - 1 && |next'| == |prev'| == SLOTS
    requires var x := list[i]; var a, b := At(list, i - 1), At(list, i + 1);
      && (forall y :: 0 <= y < SLOTS ==> next'[y] == if y == x then NULL else if y == a then b else next[y])
      && (forall y :: 0 <= y < SLOTS ==> prev'[y] == if y == x then NULL else if y == b then a else prev[y])
    ensures 0 <= (list[..i] + list[i + 1..])[k] < SLOTS
    ensures Node(next', prev', list[..i] + list[i + 1..], k)
  {
    hide Distinct;
    var j := if k < i then k else k + 1;
    LessAt(list, i, k - 1);
    LessAt(list, i, k);
    LessAt(list, i, k + 1);
    AtIs(list, j, i);
    AtIs(list, j, i - 1);
    AtIs(list, j, i + 1);
    assert Node(next, prev, list, j);
  }

  /** The lists of the process table, and the moves between them. */
  class Lists {
    const next: array<int>
    const prev: array<int>
    var ready: Head
    var suspended: Head
    ghost var readyList: seq<int>
    ghost var suspendedList: seq<int>

    ghost predicate Valid()
      reads this, next, prev
    {
      && next != prev
      && Linked(next[..], prev[..], ready, readyList)
      && Linked(next[..], prev[..], suspended, suspendedList)
      && (forall p :: p in readyList ==> p !in suspendedList)
      && (forall p :: 0 <= p < SLOTS && p !in readyList && p !in suspendedList ==> Bare(next[..], prev[..], p))
    }

    constructor ()
      ensures Valid() && fresh(next) && fresh(prev) && readyList == [] && suspendedList == []
    {
      next, prev := new int[SLOTS](_ => NULL), new int[SLOTS](_ => NULL);
      ready, suspended := Head(NULL, NULL), Head(NULL, NULL);
      readyList, suspendedList := [], [];
    }

    /** list_add, on either list. */
    method Put(p: int, isReady: bool)
      requires Valid() && 0 <= p < SLOTS && p !in readyList && p !in suspendedList
      modifies this, next, prev
      ensures Valid()
      ensures readyList == (if isReady then [p] + old(readyList) else old(readyList))
      ensures suspendedList == (if isReady then old(suspendedList) else [p] + old(suspendedList))
    {
      hide Linked;
      hide Bare;
      ghost var n, v := next[..], prev[..];
      Sizes(n, v, ready, readyList);
      if isReady {
        ready := ListAdd(next, prev, ready, p, readyList);
        Sizes(next[..], prev[..], ready, [p] + readyList);
        OtherKept(n, v, next[..], prev[..], suspended, suspendedList, readyList, p);
        BareKept(n, v, next[..], prev[..], readyList, p);
        readyList := [p] + readyList;
      } else {
        suspended := ListAdd(next, prev, suspended, p, suspendedList);
        Sizes(next[..], prev[..], suspended, [p] + suspendedList);
        OtherKept(n, v, next[..], prev[..], ready, readyList, suspendedList, p);
        BareKept(n, v, next[..], prev[..], suspendedList, p);
        suspendedList := [p] + suspendedList;
      }
    }

    /** list_remove, from the list that the ready flag names; kill_process does just this. */
    method Drop(p: int, isReady: bool)
      requires Valid() && p in (if isReady then readyList else suspendedList)
      modifies this, next, prev
      ensures Valid() && 0 <= p < SLOTS && p !in readyList && p !in suspendedList
      ensures readyList == (if isReady then ProcessState.Without(old(readyList), p) else old(readyList))
      ensures suspendedList == (if isReady then old(suspendedList) else ProcessState.Without(old(suspendedList), p))
    {
      hide Linked;
      hide Bare;
      hide ProcessState.Without;
      ghost var n, v := next[..], prev[..];
      Sizes(n, v, ready, readyList);
      Sizes(n, v, suspended, suspendedList);
      if isReady {
        WithoutMembers(readyList, p);
        ready := ListRemove(next, prev, ready, p, readyList);
        OtherKept(n, v, next[..], prev[..], suspended, suspendedList, readyList, p);
        BareKept(n, v, next[..], prev[..], readyList, p);
        StillBare(n, v, next[..], prev[..], ready, readyList, p);
        readyList := ProcessState.Without(readyList, p);
      } else {
        WithoutMembers(suspendedList, p);
        suspended := ListRemove(next, prev, suspended, p, suspendedList);
        OtherKept(n, v, next[..], prev[..], ready, readyList, suspendedList, p);
        BareKept(n, v, next[..], prev[..], suspendedList, p);
        StillBare(n, v, next[..], prev[..], suspended, suspendedList, p);
        suspendedList := ProcessState.Without(suspendedList, p);
      }
    }

    /** The lists of suspend_process, as the process model has them. */
    method Suspend(p: int)
      requires Valid() && p in readyList
      modifies this, next, prev
      ensures Valid() && readyList == ProcessState.Without(old(readyList), p)
      ensures suspendedList == [p] + old(suspendedList)
    {
      Drop(p, true);
      Put(p, false);
    }

    /** The lists of resume_process. */
    method Resume(p: int)
      requires Valid() && p in suspendedList
      modifies this, next, prev
      ensures Valid() && suspendedList == ProcessState.Without(old(suspendedList), p)
      ensures readyList == [p] + old(readyList)
    {
      Drop(p, false);
      Put(p, true);
    }

    /** The choice of context_switch: the process after the current one, or the first. */
    method Choose(current: int) returns (q: int)
      requires Valid() && (current == NULL || current in readyList)
      ensures q == Scheduler.Next(readyList, current)
    {
      ghost var k := Scheduler.Position(readyList, current);
      if k >= 0 { assert Node(next[..], prev[..], readyList, k); }
      if current != NULL && next[current] != NULL {
        q := next[current];
      } else {
        q := ready.first;
      }
    }
  }

  lemma {:induction false} WithoutMembers(list: seq<int>, x: int)
    requires Distinct(list) && x in list
    ensures forall y :: y in ProcessState.Without(list, x) <==> y in list && y != x
  {
    var i: nat :| i < |list| && list[i] == x;
    WithoutAt(list, i);
    assert list == list[..i] + [x] + list[i + 1..];
  }

  lemma StillBare(next: seq<int>, prev: seq<int>, next': seq<int>, prev': seq<int>, h: Head, list: seq<int>, x: int)
    requires |next| == |prev| == |next'| == |prev'| == SLOTS
    requires Bare(next', prev', x) && forall y :: y != x && y !in list && Bare(next, prev, y) ==> Bare(next', prev', y)
    ensures forall y :: (y == x || y !in list) && Bare(next, prev, y) ==> Bare(next', prev', y)
  {
  }

  lemma Sizes(next: seq<int>, prev: seq<int>, h: Head, list: seq<int>)
    requires Linked(next, prev, h, list)
    ensures |next| == |prev| == SLOTS && Distinct(list) && InTable(list)
  {
  }

  /** A list is not affected by changes to another one, or to a process on neither. */
  lemma OtherKept(next: seq<int>, prev: seq<int>, next': seq<int>, prev': seq<int>, h: Head, list: seq<int>,
                  other: seq<int>, x: int)
    requires Linked(next, prev, h, list) && |next'| == |prev'| == SLOTS && x !in list
    requires forall p :: p in other ==> p !in list
    requires forall y :: 0 <= y < SLOTS && y != x && y !in other ==> next'[y] == next[y] && prev'[y] == prev[y]
    ensures Linked(next', prev', h, list)
  {
    LinkedFrame(next, prev, next', prev', h, list);
  }

  lemma BareKept(next: seq<int>, prev: seq<int>, next': seq<int>, prev': seq<int>, other: seq<int>, x: int)
    requires |next| == |prev| == |next'| == |prev'| == SLOTS
    requires forall y :: 0 <= y < SLOTS && y != x && y !in other ==> next'[y] == next[y] && prev'[y] == prev[y]
    ensures forall y :: y != x && y !in other && Bare(next, prev, y) ==> Bare(next', prev', y)
  {
  }
}
