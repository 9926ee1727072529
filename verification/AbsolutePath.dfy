/** `relative_to_absolute` of src/filesystem.c: a path buffer edited in place. */
module AbsolutePath {
  import opened Bytes
  import opened Paths

  type Name = seq<Byte>

  // ----- what the function is for: a stack of components -----

  /** "." stays, ".." goes up (and stays at the root), any other name goes down. */
  function Step(stack: seq<Name>, component: Name): seq<Name> {
    if component == [DOT] then stack
    else if component == [DOT, DOT] then (if stack == [] then [] else stack[..|stack| - 1])
    else stack + [component]
  }

  function Fold(stack: seq<Name>, components: seq<Name>): seq<Name>
    decreases |components|
  {
    if components == [] then stack else Fold(Step(stack, components[0]), components[1..])
  }

  /** The directory that `rel` names when the current directory is `base`. */
  function Target(base: seq<Name>, rel: seq<Byte>): seq<Name> {
    Fold(if IsAbsolute(rel) then [] else base, Components(rel))
  }

  predicate IsAbsolute(rel: seq<Byte>) {
    rel != [] && rel[0] == SLASH
  }

  /** A canonical stack holds names only, and neither "." nor "..". */
  predicate Canonical(stack: seq<Name>) {
    forall i :: 0 <= i < |stack| ==> IsName(stack[i]) && stack[i] != [DOT] && stack[i] != [DOT, DOT]
  }

  lemma {:induction false} FoldCanonical(stack: seq<Name>, components: seq<Name>)
    requires Canonical(stack) && forall c :: c in components ==> IsName(c)
    ensures Canonical(Fold(stack, components))
    decreases |components|
  {
    if components != [] {
      assert components[0] in components;
      assert forall c :: c in components[1..] ==> c in components;
      FoldCanonical(Step(stack, components[0]), components[1..]);
    }
  }

  lemma {:induction false} FoldAppend(stack: seq<Name>, a: seq<Name>, b: seq<Name>)
    ensures Fold(stack, a + b) == Fold(Fold(stack, a), b)
    decreases |a|
  {
    if a == [] {
      assert a + b == b;
    } else {
      assert (a + b)[1..] == a[1..] + b;
      FoldAppend(Step(stack, a[0]), a[1..], b);
    }
  }

  /** The result is always canonical. */
  lemma TargetCanonical(base: seq<Name>, rel: seq<Byte>)
    requires Canonical(base) && 0 !in rel
    ensures Canonical(Target(base, rel))
  {
    ScanNames(rel, 0, 0);
    FoldCanonical(if IsAbsolute(rel) then [] else base, Components(rel));
  }

  /** Going to `r1` and from there to `r2` is going to `r1/r2`. */
  lemma TargetComposes(base: seq<Name>, r1: seq<Byte>, r2: seq<Byte>)
    requires r1 != [] && !IsAbsolute(r2)
    ensures Target(Target(base, r1), r2) == Target(base, r1 + [SLASH] + r2)
  {
    ComponentsSlash(r1, r2);
    FoldAppend(if IsAbsolute(r1) then [] else base, Components(r1), Components(r2));
  }

  /** An absolute path names the same directory wherever it is used from. */
  lemma AbsoluteAnywhere(a: seq<Name>, b: seq<Name>, rel: seq<Byte>)
    requires rel != [] && rel[0] == SLASH
    ensures Target(a, rel) == Target(b, rel)
  {
  }

  lemma {:induction false} FoldNames(stack: seq<Name>, names: seq<Name>)
    requires Canonical(names)
    ensures Fold(stack, names) == stack + names
    decreases |names|
  {
    if names == [] {
      assert stack + names == stack;
    } else {
      FoldNames(stack + [names[0]], names[1..]);
      assert stack + [names[0]] + names[1..] == stack + names;
    }
  }

  /** The canonical path of a directory leads to it, from anywhere. */
  lemma TargetRendered(base: seq<Name>, names: seq<Name>)
    requires Canonical(names)
    ensures Target(base, Render(names)) == names
  {
    ComponentsRender(names);
    FoldNames([], names);
    assert [] + names == names;
    RenderedSlash(names);
  }

  lemma {:induction false} RenderedSlash(names: seq<Name>)
    ensures Render(names) != [] && Render(names)[0] == SLASH
  {
    if names != [] {
      var front := names[..|names| - 1];
      if front == [] { assert Join(front) == []; } else { RenderedSlash(front); }
    }
  }

  /** A name goes down to the directory of that name. */
  lemma TargetName(base: seq<Name>, name: Name)
    requires IsName(name) && name != [DOT] && name != [DOT, DOT]
    ensures Target(base, name) == base + [name]
  {
    ScanName(name, 0);
    FoldNames(base, [name]);
  }

  /** ".." undoes that, and does nothing at the root; "." and the empty path stay. */
  lemma TargetDots(base: seq<Name>, name: Name)
    ensures Target(base + [name], [DOT, DOT]) == base
    ensures Target([], [DOT, DOT]) == []
    ensures Target(base, [DOT]) == base
    ensures Target(base, []) == base
  {
    ScanName([DOT], 0);
    ScanName([DOT, DOT], 0);
    ScanName([], 0);
    FoldOne(base, [DOT]);
    FoldOne([], [DOT, DOT]);
    FoldOne(base + [name], [DOT, DOT]);
  }

  lemma FoldOne(stack: seq<Name>, component: Name)
    ensures Fold(stack, [component]) == Step(stack, component)
  {
    assert [component][1..] == [];
  }

  // ----- what the code does to the string -----

  /** Cut characters off the end up to a '/' or the first character. */
  function StripName(s: seq<Byte>): (r: seq<Byte>)
    ensures |r| <= |s| && (s != [] ==> r != [])
  {
    if |s| > 1 && s[|s| - 1] != SLASH then StripName(s[..|s| - 1]) else s
  }

  function Up(s: seq<Byte>): (r: seq<Byte>)
    ensures |r| <= |s| && (s != [] ==> r != [])
  {
    var t := StripName(s);
    if |t| > 1 then t[..|t| - 1] else t
  }

  /** Append as much of `t` as fits into a buffer of `max` bytes with its terminator. */
  function Fill(s: seq<Byte>, t: seq<Byte>, max: nat): (r: seq<Byte>)
    ensures |s| < max ==> |r| < max
    ensures s != [] ==> r != []
  {
    if |s| + |t| < max then s + t
    else if |s| + 1 < max then s + t[..max - 1 - |s|]
    else s
  }

  function Down(s: seq<Byte>, name: Name, max: nat): (r: seq<Byte>)
    ensures |s| < max ==> |r| < max
    ensures s != [] ==> r != []
  {
    Fill(if |s| + 1 < max && (s == [] || s[|s| - 1] != SLASH) then s + [SLASH] else s, name, max)
  }

  function Edit(s: seq<Byte>, component: Name, max: nat): (r: seq<Byte>)
    ensures |s| < max ==> |r| < max
    ensures s != [] ==> r != []
  {
    if component == [DOT] then s
    else if component == [DOT, DOT] then Up(s)
    else Down(s, component, max)
  }

  function Edits(s: seq<Byte>, components: seq<Name>, max: nat): (r: seq<Byte>)
    ensures |s| < max ==> |r| < max
    ensures s != [] ==> r != []
    decreases |components|
  {
    if components == [] then s else Edits(Edit(s, components[0], max), components[1..], max)
  }

  /** `snprintf(abs, max, "%s", s)` */
  function Clip(s: seq<Byte>, max: nat): (r: seq<Byte>)
    requires max > 0
    ensures |r| < max
  {
    if |s| < max then s else s[..max - 1]
  }

  // ----- with enough room the two agree -----

  lemma {:induction false} StripNameEnd(s: seq<Byte>, name: Name)
    requires s != [] && SLASH !in name && s[|s| - 1] == SLASH
    ensures StripName(s + name) == s
    decreases |name|
  {
    var n := |name|;
    if n > 0 {
      assert (s + name)[..|s + name| - 1] == s + name[..n - 1];
      StripNameEnd(s, name[..n - 1]);
    } else {
      assert s + name == s;
    }
  }

  lemma JoinLong(names: seq<Name>)
    requires names != [] && IsName(names[|names| - 1])
    ensures |Join(names)| > 1 && Join(names)[|Join(names)| - 1] != SLASH
  {
  }

  lemma UpRendered(stack: seq<Name>)
    requires Canonical(stack)
    ensures Up(Render(stack)) == Render(Step(stack, [DOT, DOT]))
  {
    if stack != [] {
      var front, last := stack[..|stack| - 1], stack[|stack| - 1];
      var s := Join(front) + [SLASH];
      assert Render(stack) == s + last;
      StripNameEnd(s, last);
      assert s[..|s| - 1] == Join(front);
      if front == [] { assert s == [SLASH]; } else { assert |Join(front)| > 1 by { JoinLong(front); } }
    }
  }

  lemma DownRendered(stack: seq<Name>, name: Name, max: nat)
    requires Canonical(stack) && IsName(name) && |Render(stack)| + 1 + |name| < max
    ensures Down(Render(stack), name, max) == Render(stack + [name])
  {
    assert (stack + [name])[..|stack|] == stack;
    if stack == [] {
      assert [] + [SLASH] + name == [SLASH] + name;
    } else {
      JoinLong(stack);
    }
  }

  /** Without that room a name is cut off where the buffer ends. */
  lemma DownCutOff(s: seq<Byte>, name: Name, max: nat)
    requires |s| < max
    ensures var full := (if s == [] || s[|s| - 1] != SLASH then s + [SLASH] else s) + name;
      Down(s, name, max) == if |full| < max then full else full[..max - 1]
  {
  }

  /** Whatever the buffer holds, ".." cuts it off before its last '/', or behind it at the root. */
  lemma UpCutsOff(a: seq<Byte>, b: seq<Byte>)
    requires SLASH !in b
    ensures Up(a + [SLASH] + b) == if a == [] then [SLASH] else a
  {
    var s := a + [SLASH];
    StripNameEnd(s, b);
    assert s[..|s| - 1] == a;
  }

  /** Characters that appending all of `components` can take. */
  function Cost(components: seq<Name>): nat {
    if components == [] then 0 else 1 + |components[0]| + Cost(components[1..])
  }

  lemma {:induction false} ScanCost(s: seq<Byte>, start: nat, pos: nat)
    requires start <= pos <= |s|
    ensures Cost(Scan(s, start, pos)) <= |s| - start + 1
    decreases |s| - pos
  {
    if pos < |s| {
      if s[pos] == SLASH {
        ScanCost(s, pos + 1, pos + 1);
        var rest := Scan(s, pos + 1, pos + 1);
        if pos > start { assert ([s[start..pos]] + rest)[1..] == rest; } else { assert [] + rest == rest; }
      } else {
        ScanCost(s, start, pos + 1);
      }
    } else if pos > start {
      assert Cost([s[start..pos]]) == 1 + (pos - start) + Cost([]);
    }
  }

  lemma {:induction false} EditsRendered(stack: seq<Name>, components: seq<Name>, max: nat)
    requires Canonical(stack) && forall i :: 0 <= i < |components| ==> IsName(components[i])
    requires |Render(stack)| + Cost(components) < max
    ensures Edits(Render(stack), components, max) == Render(Fold(stack, components))
    decreases |components|
  {
    if components != [] {
      var c := components[0];
      if c == [DOT, DOT] {
        UpRendered(stack);
      } else if c != [DOT] {
        DownRendered(stack, c, max);
        RenderedLength(stack, c);
      }
      EditsRendered(Step(stack, c), components[1..], max);
    }
  }

  lemma RenderedLength(stack: seq<Name>, name: Name)
    ensures |Render(stack + [name])| <= |Render(stack)| + 1 + |name|
  {
    assert (stack + [name])[..|stack|] == stack;
  }

  /** With a canonical base and enough room the string edits compute the target directory. */
  lemma EditsReachTarget(base: seq<Name>, rel: seq<Byte>, max: nat)
    requires Canonical(base) && 0 !in rel && |Render(base)| + |rel| + 1 < max
    ensures var init := if rel != [] && rel[0] == SLASH then [SLASH] else Render(base);
      Edits(Clip(init, max), Components(rel), max) == Render(Target(base, rel))
  {
    var stack := if IsAbsolute(rel) then [] else base;
    ScanNames(rel, 0, 0);
    ScanCost(rel, 0, 0);
    assert forall i :: 0 <= i < |Components(rel)| ==> Components(rel)[i] in Components(rel);
    if base != [] { JoinLong(base); }
    EditsRendered(stack, Components(rel), max);
  }

  // ----- the buffer -----

  /** The first `len` bytes of the buffer are a C string. */
  ghost predicate Terminated(buf: array<Byte>, len: nat)
    reads buf
  {
    len < buf.Length && buf[len] == 0
  }

  /** The ".." branch. */
  method GoUp(buf: array<Byte>, len: nat) returns (r: nat)
    requires Terminated(buf, len)
    modifies buf
    ensures Terminated(buf, r) && buf[..r] == Up(old(buf[..len])) && r <= len
  {
    r := len;
    while 1 < r && buf[r - 1] != SLASH
      invariant r <= len && Terminated(buf, r) && buf[..r] == old(buf[..r])
      invariant StripName(old(buf[..r])) == StripName(old(buf[..len]))
    {
      assert old(buf[..r])[..r - 1] == old(buf[..r - 1]);
      r := r - 1;
      buf[r] := 0;
    }
    assert buf[..r] == StripName(old(buf[..len]));
    if 1 < r {
      assert old(buf[..r])[..r - 1] == old(buf[..r - 1]);
      r := r - 1;
      buf[r] := 0;
    }
  }

  /** The branch that adds a directory name. */
  method GoDown(buf: array<Byte>, len: nat, max: nat, rel: seq<Byte>, start: nat, pos: nat) returns (r: nat)
    requires Terminated(buf, len) && len < max <= buf.Length && start <= pos <= |rel|
    requires len == 0 ==> max == 1
    modifies buf
    ensures Terminated(buf, r) && r < max && buf[..r] == Down(old(buf[..len]), rel[start..pos], max)
  {
    hide Down;
    hide Fill;
    r := len;
    ghost var s := buf[..len];
    if r < max - 1 && buf[r - 1] != SLASH {
      buf[r] := SLASH;
      r := r + 1;
      s := s + [SLASH];
    }
    ghost var from := r;
    var rpos := start;
    while r < max - 1 && rpos < pos
      invariant start <= rpos <= pos && r == from + (rpos - start) < max
      invariant buf[..r] == s + rel[start..rpos]
    {
      buf[r] := rel[rpos];
      r := r + 1;
      assert rel[start..rpos + 1] == rel[start..rpos] + [rel[rpos]];
      rpos := rpos + 1;
    }
    assert rel[start..pos][..rpos - start] == rel[start..rpos];
    Filled(old(buf[..len]), s, rel[start..pos], rpos - start, max);
    buf[r] := 0;
  }

  lemma Filled(s0: seq<Byte>, s: seq<Byte>, name: Name, n: nat, max: nat)
    requires s == if |s0| + 1 < max && (s0 == [] || s0[|s0| - 1] != SLASH) then s0 + [SLASH] else s0
    requires n <= |name| && |s| + n < max && (|s| + n == max - 1 || n == |name|)
    ensures s + name[..n] == Down(s0, name, max)
  {
  }

  method RelativeToAbsolute(buf: array<Byte>, base: seq<Byte>, rel: seq<Byte>, max: nat) returns (len: nat)
    requires 0 < max <= buf.Length && base != []
    modifies buf
    ensures len < max && Terminated(buf, len)
    ensures buf[..len] ==
              Edits(Clip(if rel != [] && rel[0] == SLASH then [SLASH] else base, max), Components(rel), max)
    ensures rel != [] && rel[0] == SLASH && 0 !in rel && |rel| + 2 < max ==> buf[..len] == Render(Target([], rel))
    ensures forall stack :: Canonical(stack) && base == Render(stack) && 0 !in rel && |base| + |rel| + 1 < max ==>
              buf[..len] == Render(Target(stack, rel))
  {
    hide Edits;
    hide Edit;
    hide Scan;
    hide Render;
    hide Target;
    hide Canonical;
    len := Print(buf, max, if IsAbsolute(rel) then [SLASH] else base);
    ghost var init := buf[..len];
    var start, pos := 0, 0;
    while pos <= |rel|
      invariant start <= pos <= |rel| + 1 && len < max && Terminated(buf, len) && (len == 0 ==> max == 1)
      invariant pos <= |rel| ==> SLASH !in rel[start..pos]
      invariant pos <= |rel| ==> Edits(init, Components(rel), max) == Edits(buf[..len], Scan(rel, start, pos), max)
      invariant pos == |rel| + 1 ==> Edits(init, Components(rel), max) == buf[..len]
    {
      ScanStep(rel, start, pos);
      if pos == |rel| || rel[pos] == SLASH {
        ghost var rest := if pos == |rel| then [] else Scan(rel, pos + 1, pos + 1);
        EditsCons(buf[..len], rel[start..pos], rest, max);
        if pos > start {
          len := EditBuffer(buf, len, max, rel, start, pos);
        }
        EditsNil(buf[..len], max);
        start := pos + 1;
      } else {
        assert rel[start..pos + 1] == rel[start..pos] + [rel[pos]];
      }
      pos := pos + 1;
    }
    forall stack | Canonical(stack) && base == Render(stack) && 0 !in rel && |base| + |rel| + 1 < max
      ensures buf[..len] == Render(Target(stack, rel))
    {
      EditsReachTarget(stack, rel, max);
    }
    if rel != [] && rel[0] == SLASH && 0 !in rel && |rel| + 2 < max { FromRoot(rel, max); }
  }

  lemma FromRoot(rel: seq<Byte>, max: nat)
    requires rel != [] && rel[0] == SLASH && 0 !in rel && |rel| + 2 < max
    ensures Edits(Clip([SLASH], max), Components(rel), max) == Render(Target([], rel))
  {
    EditsReachTarget([], rel, max);
  }

  lemma EditsCons(s: seq<Byte>, c: Name, rest: seq<Name>, max: nat)
    ensures Edits(s, [c] + rest, max) == Edits(Edit(s, c, max), rest, max)
  {
  }

  lemma EditsNil(s: seq<Byte>, max: nat)
    ensures Edits(s, [], max) == s
  {
  }

  method Print(buf: array<Byte>, max: nat, s: seq<Byte>) returns (len: nat)
    requires 0 < max <= buf.Length
    modifies buf
    ensures len < max && Terminated(buf, len) && buf[..len] == Clip(s, max)
  {
    len := if |s| < max then |s| else max - 1;
    forall i | 0 <= i < len { buf[i] := s[i]; }
    buf[len] := 0;
  }

  method EditBuffer(buf: array<Byte>, len: nat, max: nat, rel: seq<Byte>, start: nat, pos: nat) returns (r: nat)
    requires Terminated(buf, len) && len < max <= buf.Length && start < pos <= |rel|
    requires len == 0 ==> max == 1
    modifies buf
    ensures Terminated(buf, r) && r < max && buf[..r] == Edit(old(buf[..len]), rel[start..pos], max)
  {
    if rel[start..pos] == [DOT] {
      r := len;
    } else if rel[start..pos] == [DOT, DOT] {
      r := GoUp(buf, len);
    } else {
      r := GoDown(buf, len, max, rel, start, pos);
    }
  }
}
