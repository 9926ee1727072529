/** memmove of src/libc.c: a loop that copies from the front. */
module ByteMoves {
  import opened Bytes

  /** What copying `len` bytes one by one from the front does, byte by byte. */
  function Forward(s: seq<Byte>, to: nat, from: nat, len: nat): (r: seq<Byte>)
    requires to + len <= |s| && from + len <= |s|
    ensures |r| == |s|
    decreases len
  {
    if len == 0 then s else Forward(s[to := s[from]], to + 1, from + 1, len - 1)
  }

  /** What memmove is for: the bytes as they were, at their new place. */
  function Moved(s: seq<Byte>, to: nat, from: nat, len: nat): (r: seq<Byte>)
    requires to + len <= |s| && from + len <= |s|
    ensures |r| == |s|
  {
    s[..to] + s[from..from + len] + s[to + len..]
  }

  method MemMove(a: array<Byte>, to: nat, from: nat, len: nat)
    requires to + len <= a.Length && from + len <= a.Length
    modifies a
    ensures a[..] == Forward(old(a[..]), to, from, len)
  {
    var pos := 0;
    while pos < len
      invariant 0 <= pos <= len
      invariant Forward(old(a[..]), to, from, len) == Forward(a[..], to + pos, from + pos, len - pos)
    {
      ghost var s := a[..];
      a[to + pos] := a[from + pos];
      assert a[..] == s[to + pos := s[from + pos]];
      pos := pos + 1;
    }
  }

  lemma {:induction false} ForwardOutside(s: seq<Byte>, to: nat, from: nat, len: nat, x: nat)
    requires to + len <= |s| && from + len <= |s| && x < |s| && !(to <= x < to + len)
    ensures Forward(s, to, from, len)[x] == s[x]
    decreases len
  {
    if len > 0 { ForwardOutside(s[to := s[from]], to + 1, from + 1, len - 1, x); }
  }

  /** Copying to the left, or to a place apart, moves the bytes as they were. */
  lemma {:induction false} ForwardInside(s: seq<Byte>, to: nat, from: nat, len: nat, k: nat)
    requires to + len <= |s| && from + len <= |s| && k < len
    requires to <= from || from + len <= to
    ensures Forward(s, to, from, len)[to + k] == s[from + k]
    decreases len
  {
    var t := s[to := s[from]];
    if k == 0 {
      ForwardOutside(t, to + 1, from + 1, len - 1, to);
    } else {
      ForwardInside(t, to + 1, from + 1, len - 1, k - 1);
    }
  }

  /** Copying to the right reads what it wrote: afterwards each byte equals the one it came from. */
  lemma {:induction false} ForwardEchoes(s: seq<Byte>, to: nat, from: nat, len: nat, k: nat)
    requires to + len <= |s| && from < to && k < len
    ensures Forward(s, to, from, len)[to + k] == Forward(s, to, from, len)[from + k]
    decreases len
  {
    var t := s[to := s[from]];
    if k == 0 {
      ForwardOutside(t, to + 1, from + 1, len - 1, to);
      ForwardOutside(t, to + 1, from + 1, len - 1, from);
    } else {
      ForwardEchoes(t, to + 1, from + 1, len - 1, k - 1);
    }
  }

  /** memmove from elsewhere. */
  method CopyIn(a: array<Byte>, at: nat, bytes: seq<Byte>)
    requires at + |bytes| <= a.Length
    modifies a
    ensures a[..] == old(a[..])[..at] + bytes + old(a[..])[at + |bytes|..]
  {
    for pos := 0 to |bytes|
      invariant a[..] == old(a[..])[..at] + bytes[..pos] + old(a[..])[at + pos..]
    {
      a[at + pos] := bytes[pos];
    }
  }

  /** The bytes to be moved repeat themselves every `gap` bytes. */
  predicate Repeats(s: seq<Byte>, from: nat, len: nat, gap: nat)
    requires from + len <= |s|
  {
    forall x :: from + gap <= x < from + len ==> s[x] == s[x - gap]
  }

  lemma MovedAt(s: seq<Byte>, to: nat, from: nat, len: nat)
    requires to + len <= |s| && from + len <= |s|
    ensures forall x :: 0 <= x < |s| ==>
              Moved(s, to, from, len)[x] == if to <= x < to + len then s[x - to + from] else s[x]
  {
  }

  /** The loop is right exactly for moves to the left, for moves without overlap, and for data
      that repeats with the distance of the move. */
  lemma MemMoveRight(s: seq<Byte>, to: nat, from: nat, len: nat)
    requires to + len <= |s| && from + len <= |s|
    ensures Forward(s, to, from, len) == Moved(s, to, from, len)
            <==> to <= from || from + len <= to || Repeats(s, from, len, to - from)
  {
    var r, w := Forward(s, to, from, len), Moved(s, to, from, len);
    MovedAt(s, to, from, len);
    forall x | 0 <= x < |s| && !(to <= x < to + len) ensures r[x] == w[x] {
      ForwardOutside(s, to, from, len, x);
    }
    if to <= from || from + len <= to {
      forall x | to <= x < to + len ensures r[x] == w[x] {
        ForwardInside(s, to, from, len, x - to);
      }
    } else {
      Overlapping(s, to, from, len);
    }
  }

  lemma Overlapping(s: seq<Byte>, to: nat, from: nat, len: nat)
    requires to + len <= |s| && from < to < from + len
    ensures Forward(s, to, from, len) == Moved(s, to, from, len) <==> Repeats(s, from, len, to - from)
  {
    var r, w, gap := Forward(s, to, from, len), Moved(s, to, from, len), to - from;
    MovedAt(s, to, from, len);
    if r == w {
      forall x | from + gap <= x < from + len ensures s[x] == s[x - gap] {
        ForwardEchoes(s, to, from, len, x - from);
        assert w[x + gap] == s[x] && w[x] == s[x - gap];
      }
    }
    if Repeats(s, from, len, gap) {
      forall x: nat | x < |s| ensures r[x] == w[x] {
        Repeated(s, to, from, len, x);
      }
    }
  }

  lemma {:induction false} Repeated(s: seq<Byte>, to: nat, from: nat, len: nat, x: nat)
    requires to + len <= |s| && from < to < from + len && Repeats(s, from, len, to - from) && x < |s|
    ensures Forward(s, to, from, len)[x] == Moved(s, to, from, len)[x]
    decreases x
  {
    MovedAt(s, to, from, len);
    if to <= x < to + len {
      var y := x - (to - from);
      ForwardEchoes(s, to, from, len, x - to);
      Repeated(s, to, from, len, y);
    } else {
      ForwardOutside(s, to, from, len, x);
    }
  }

  /** Moving two bytes one place to the right: the second is lost. */
  lemma OverlapExample()
    ensures Forward([1, 2, 3], 1, 0, 2) == [1, 1, 1] && Moved([1, 2, 3], 1, 0, 2) == [1, 1, 2]
  {
  }
}
