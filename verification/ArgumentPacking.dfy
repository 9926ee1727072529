/** execve of src/unixproc.c: a program's arguments, packed into one block that becomes the top of
    the new program's stack. */
module ArgumentPacking {
  import opened Bytes
  import opened ByteMoves

  const STACK_BASE: nat := 0x4000_0000 // PROCESS_STACK_BASE

  type Args = seq<seq<Byte>>

  /** Bytes taken by the first `n` arguments, each with its terminator. */
  function StringsLen(args: Args, n: nat): nat
    requires n <= |args|
  {
    if n == 0 then 0 else StringsLen(args, n - 1) + |args[n - 1]| + 1
  }

  function Size(args: Args): nat {
    StringsLen(args, |args|) + 4 * |args| + 8
  }

  /** Where the block starts once it is on the stack. */
  function Base(args: Args): nat
    requires Size(args) <= STACK_BASE
  {
    STACK_BASE - Size(args)
  }

  /** Where argument `i` lies in the block: the first argument comes last. */
  function Offset(args: Args, i: nat): (at: int)
    requires i < |args|
  {
    Size(args) - StringsLen(args, i + 1)
  }

  // ----- the block, written as a value -----

  function Strings(args: Args, n: nat): (s: seq<Byte>)
    requires n <= |args|
    ensures |s| == StringsLen(args, n)
  {
    if n == 0 then [] else args[n - 1] + [0] + Strings(args, n - 1)
  }

  lemma {:induction false} LenGrows(args: Args, i: nat, n: nat)
    requires i <= n <= |args|
    ensures StringsLen(args, i) + (n - i) <= StringsLen(args, n)
    decreases n
  {
    if i < n { LenGrows(args, i, n - 1); }
  }

  function Pointers(args: Args, n: nat): (s: seq<Byte>)
    requires n <= |args| && Size(args) <= STACK_BASE
    ensures |s| == 4 * n
  {
    if n == 0 then []
    else
      LenGrows(args, n, |args|);
      Pointers(args, n - 1) + Encode32(Base(args) + Offset(args, n - 1))
  }

  function Block(args: Args): (b: seq<Byte>)
    requires Size(args) <= STACK_BASE
    ensures |b| == Size(args)
  {
    LenGrows(args, 0, |args|);
    Encode32(|args|) + Encode32(Base(args) + 8) + Pointers(args, |args|) + Strings(args, |args|)
  }

  /** The strings fill the block behind the pointer table: no gap, no overlap. */
  lemma StringsTile(args: Args)
    ensures args != [] ==> Offset(args, 0) + |args[0]| + 1 == Size(args)
    ensures forall i: nat :: i + 1 < |args| ==> Offset(args, i + 1) + |args[i + 1]| + 1 == Offset(args, i)
    ensures args != [] ==> Offset(args, |args| - 1) == 8 + 4 * |args|
  {
    assert args != [] ==> StringsLen(args, 1) == |args[0]| + 1;
  }

  // ----- packing -----

  lemma PlaceFits(args: Args, n: nat)
    requires n < |args|
    ensures 8 + 4 * |args| <= Offset(args, n) == Size(args) - StringsLen(args, n) - (|args[n]| + 1)
    ensures Offset(args, n) + |args[n]| + 1 <= Size(args)
    ensures Size(args) >= 8 + 4 * |args| && StringsLen(args, n + 1) == StringsLen(args, n) + |args[n]| + 1
  {
    LenGrows(args, n + 1, |args|);
  }

  /** The first `n` arguments have been copied, and their pointers stored. */
  ghost predicate Filled(b: seq<Byte>, args: Args, n: nat)
    requires Size(args) <= STACK_BASE && n <= |args|
  {
    && |b| == Size(args) && Size(args) - StringsLen(args, n) >= 8 + 4 * |args|
    && b[Size(args) - StringsLen(args, n)..] == Strings(args, n)
    && b[8..8 + 4 * n] == Pointers(args, n)
  }

  lemma FilledNone(b: seq<Byte>, args: Args)
    requires Size(args) <= STACK_BASE && |b| == Size(args)
    ensures Size(args) >= 8 + 5 * |args| && StringsLen(args, 0) == 0 && Filled(b, args, 0)
  {
    LenGrows(args, 0, |args|);
  }

  lemma FilledOne(s: seq<Byte>, u: seq<Byte>, args: Args, n: nat, pos: nat)
    requires Size(args) <= STACK_BASE && n < |args| && Filled(s, args, n) && pos == Offset(args, n) && |u| == |s|
    requires pos + |args[n]| + 1 <= |s| && 8 + 4 * |args| <= pos
    requires u[pos..] == args[n] + [0] + s[pos + |args[n]| + 1..]
    requires u[8..8 + 4 * n + 4] == s[8..8 + 4 * n] + Encode32(Base(args) + pos)
    ensures Filled(u, args, n + 1)
  {
  }

  lemma FilledStep(s: seq<Byte>, t: seq<Byte>, u: seq<Byte>, args: Args, n: nat, pos: nat, bytes: seq<Byte>)
    requires Size(args) <= STACK_BASE && n < |args| && Filled(s, args, n) && pos == Offset(args, n) && |s| == Size(args)
    requires bytes == args[n] + [0] && pos + |bytes| <= |s| && 8 + 4 * |args| <= pos
    requires t == s[..pos] + bytes + s[pos + |bytes|..] && u == Put32(t, 8 + 4 * n, Base(args) + pos)
    ensures Filled(u, args, n + 1)
  {
    hide Filled;
    hide Put32;
    hide Strings;
    hide StringsLen;
    hide Pointers;
    hide Encode32;
    Placed(s, t, u, pos, bytes, 8 + 4 * n, Base(args) + pos);
    FilledOne(s, u, args, n, pos);
  }

  lemma Placed(s: seq<Byte>, t: seq<Byte>, u: seq<Byte>, pos: nat, bytes: seq<Byte>, at: nat, v: Word)
    requires 8 <= at && at + 4 <= pos && pos + |bytes| <= |s|
    requires t == s[..pos] + bytes + s[pos + |bytes|..] && u == Put32(t, at, v)
    ensures u[pos..] == bytes + s[pos + |bytes|..]
    ensures u[8..at + 4] == s[8..at] + Encode32(v)
  {
  }

  lemma FilledAll(s: seq<Byte>, t: seq<Byte>, u: seq<Byte>, args: Args)
    requires Size(args) <= STACK_BASE && |args| < 0x1_0000_0000 && Filled(s, args, |args|)
    requires t == Put32(s, 0, |args|) && u == Put32(t, 4, Base(args) + 8)
    ensures u == Block(args)
  {
    hide Encode32;
    hide Put32;
    hide Pointers;
    hide Strings;
    WordPlaced(s, t, 0, 0, |args|, 8);
    WordPlaced(t, u, 0, 4, Base(args) + 8, 8);
    assert t[0..4] == Encode32(|args|);
    assert u[..8] == u[0..4 + 4] == Encode32(|args|) + Encode32(Base(args) + 8);
    Assembled(s, u, args);
  }

  method Pack(args: Args) returns (argdata: array<Byte>)
    requires Size(args) <= STACK_BASE
    ensures fresh(argdata) && argdata[..] == Block(args)
  {
    hide Block;
    hide Filled;
    hide Strings;
    hide StringsLen;
    hide Pointers;
    hide Put32;
    var size := Size(args);
    argdata := new Byte[size];
    FilledNone(argdata[..], args);
    var pos := size;
    for argno := 0 to |args|
      invariant pos == size - StringsLen(args, argno)
      invariant Filled(argdata[..], args, argno)
    {
      PlaceFits(args, argno);
      var nbytes := |args[argno]| + 1;
      pos := pos - nbytes;
      ghost var before := argdata[..];
      CopyIn(argdata, pos, args[argno] + [0]);
      ghost var copied := argdata[..];
      Store32(argdata, 8 + 4 * argno, STACK_BASE - size + pos);
      FilledStep(before, copied, argdata[..], args, argno, pos, args[argno] + [0]);
    }
    ghost var filled := argdata[..];
    Store32(argdata, 0, |args|);
    ghost var counted := argdata[..];
    Store32(argdata, 4, STACK_BASE - size + 8);
    FilledAll(filled, counted, argdata[..], args);
  }

  /** A word stored between `low` and `high` extends what lies from `low` and leaves what lies from `high`. */
  lemma WordPlaced(s: seq<Byte>, t: seq<Byte>, low: nat, at: nat, v: Word, high: nat)
    requires low <= at && at + 4 <= high <= |s| && t == Put32(s, at, v)
    ensures t[low..at + 4] == s[low..at] + Encode32(v)
    ensures t[high..] == s[high..]
  {
  }

  lemma Assembled(s: seq<Byte>, t: seq<Byte>, args: Args)
    requires Size(args) <= STACK_BASE && Filled(s, args, |args|) && |t| == |s|
    requires |args| < 0x1_0000_0000 && t[..8] == Encode32(|args|) + Encode32(Base(args) + 8) && t[8..] == s[8..]
    ensures t == Block(args)
  {
    hide Encode32;
    hide Pointers;
    hide Strings;
    Joined(s, t, 8 + 4 * |args|);
  }

  lemma Joined(s: seq<Byte>, t: seq<Byte>, mid: nat)
    requires 8 <= mid <= |s| == |t| && t[8..] == s[8..]
    ensures t == t[..8] + s[8..mid] + s[mid..]
  {
  }

  // ----- what the program finds -----

  /** A string up to its terminator. */
  function CString(s: seq<Byte>): seq<Byte> {
    if s == [] || s[0] == 0 then [] else [s[0]] + CString(s[1..])
  }

  /** `*(unsigned int *)addr` when the block `b` ends at STACK_BASE; 0 outside it. */
  function StackWord(b: seq<Byte>, addr: int): Word {
    var at := addr - (STACK_BASE - |b|);
    if 0 <= at && at + 4 <= |b| then Get32(b, at) else 0
  }

  function StackString(b: seq<Byte>, addr: int): seq<Byte> {
    var at := addr - (STACK_BASE - |b|);
    if 0 <= at <= |b| then CString(b[at..]) else []
  }

  /** main's argc and argv, from the two words at the top of the stack. */
  function Argument(b: seq<Byte>, i: nat): seq<Byte> {
    var sp := STACK_BASE - |b|;
    StackString(b, StackWord(b, StackWord(b, sp + 4) + 4 * i))
  }

  function Found(b: seq<Byte>, n: nat): Args {
    if n == 0 then [] else Found(b, n - 1) + [Argument(b, n - 1)]
  }

  function Arguments(b: seq<Byte>): Args {
    Found(b, StackWord(b, STACK_BASE - |b|))
  }

  predicate Terminated(a: seq<Byte>) {
    forall k :: 0 <= k < |a| ==> a[k] != 0
  }

  lemma {:induction false} StringFound(a: seq<Byte>, rest: seq<Byte>)
    requires Terminated(a)
    ensures CString(a + [0] + rest) == a
  {
    if a != [] {
      StringFound(a[1..], rest);
      assert (a + [0] + rest)[1..] == a[1..] + [0] + rest;
    }
  }

  lemma {:induction false} StringAt(args: Args, n: nat, i: nat)
    requires i < n <= |args|
    ensures StringsLen(args, i + 1) <= StringsLen(args, n)
    ensures Strings(args, n)[StringsLen(args, n) - StringsLen(args, i + 1)..] == args[i] + [0] + Strings(args, i)
    decreases n
  {
    LenGrows(args, i + 1, n);
    if i < n - 1 {
      StringAt(args, n - 1, i);
      Behind(args[n - 1] + [0], Strings(args, n - 1), StringsLen(args, n - 1) - StringsLen(args, i + 1));
    }
  }

  lemma Behind(a: seq<Byte>, b: seq<Byte>, k: nat)
    requires k <= |b|
    ensures (a + b)[|a| + k..] == b[k..]
  {
  }

  lemma Between(a: seq<Byte>, b: seq<Byte>, c: seq<Byte>, k: nat, l: nat)
    requires k <= l <= |b|
    ensures (a + b + c)[|a| + k..|a| + l] == b[k..l]
  {
  }

  lemma {:induction false} PointerAt(args: Args, n: nat, i: nat)
    requires Size(args) <= STACK_BASE && i < n <= |args|
    ensures 0 <= Base(args) + Offset(args, i) < STACK_BASE
    ensures Pointers(args, n)[4 * i..4 * i + 4] == Encode32(Base(args) + Offset(args, i))
    decreases n
  {
    hide Encode32;
    PlaceFits(args, i);
    LenGrows(args, n, |args|);
    if i < n - 1 {
      PointerAt(args, n - 1, i);
      assert Pointers(args, n)[4 * i..4 * i + 4] == Pointers(args, n - 1)[4 * i..4 * i + 4];
    }
  }

  /** Each pointer in the block leads to a copy of the argument it stands for. */
  lemma ArgumentFound(args: Args, i: nat)
    requires Size(args) <= STACK_BASE && i < |args| && Terminated(args[i])
    ensures Argument(Block(args), i) == args[i]
  {
    hide Block;
    hide Get32;
    hide CString;
    hide Strings;
    hide StringsLen;
    BlockWords(args);
    PlaceFits(args, i);
    PointerStored(args, i);
    StringStored(args, i);
    StringFound(args[i], Strings(args, i));
  }

  lemma PointerStored(args: Args, i: nat)
    requires Size(args) <= STACK_BASE && i < |args|
    ensures Size(args) >= 8 + 4 * |args|
    ensures Get32(Block(args), 8 + 4 * i) == Base(args) + Offset(args, i)
  {
    hide Encode32;
    hide Get32;
    hide Pointers;
    hide Strings;
    var b, n := Block(args), |args|;
    LenGrows(args, 0, n);
    PointerAt(args, n, i);
    Between(Encode32(n) + Encode32(Base(args) + 8), Pointers(args, n), Strings(args, n), 4 * i, 4 * i + 4);
    GetEncoded(b, 8 + 4 * i, Base(args) + Offset(args, i));
  }

  lemma StringStored(args: Args, i: nat)
    requires Size(args) <= STACK_BASE && i < |args|
    ensures 0 <= Offset(args, i) <= Size(args)
    ensures Block(args)[Offset(args, i)..] == args[i] + [0] + Strings(args, i)
  {
    hide Encode32;
    hide Pointers;
    hide Strings;
    var n := |args|;
    PlaceFits(args, i);
    StringAt(args, n, i);
    Behind(Encode32(n) + Encode32(Base(args) + 8) + Pointers(args, n), Strings(args, n),
           StringsLen(args, n) - StringsLen(args, i + 1));
  }

  lemma BlockWords(args: Args)
    requires Size(args) <= STACK_BASE
    ensures Get32(Block(args), 0) == |args| && Get32(Block(args), 4) == Base(args) + 8
  {
    LenGrows(args, 0, |args|);
    var b := Block(args);
    assert b[0..4] == Encode32(|args|);
    assert b[4..8] == Encode32(Base(args) + 8);
    GetEncoded(b, 0, |args|);
    GetEncoded(b, 4, Base(args) + 8);
  }

  lemma {:induction false} FoundAll(args: Args, n: nat)
    requires Size(args) <= STACK_BASE && n <= |args| && forall i :: 0 <= i < |args| ==> Terminated(args[i])
    ensures Found(Block(args), n) == args[..n]
  {
    hide Block;
    hide Argument;
    if n > 0 {
      FoundAll(args, n - 1);
      ArgumentFound(args, n - 1);
      assert args[..n] == args[..n - 1] + [args[n - 1]];
    }
  }

  /** Round trip: the new program finds the arguments that execve was given. */
  lemma PackedArgumentsFound(args: Args)
    requires Size(args) <= STACK_BASE && forall i :: 0 <= i < |args| ==> Terminated(args[i])
    ensures Arguments(Block(args)) == args
  {
    BlockWords(args);
    FoundAll(args, |args|);
  }
}
