/** Path names as the kernel scans them: byte strings cut into components at '/'. */
module Paths {
  import opened Bytes

  const SLASH: Byte := 47 // '/'
  const DOT: Byte := 46   // '.'

  /** A component of a path: not empty, and free of '/' and NUL. */
  predicate IsName(s: seq<Byte>) {
    s != [] && SLASH !in s && 0 !in s
  }

  /** The components of `s[start..]`, when `s[start..pos]` is known to hold no '/'. */
  function Scan(s: seq<Byte>, start: nat, pos: nat): (r: seq<seq<Byte>>)
    requires start <= pos <= |s|
    decreases |s| - pos
  {
    var last := if pos > start then [s[start..pos]] else [];
    if pos == |s| then last
    else if s[pos] == SLASH then last + Scan(s, pos + 1, pos + 1)
    else Scan(s, start, pos + 1)
  }

  function Components(s: seq<Byte>): seq<seq<Byte>> {
    Scan(s, 0, 0)
  }

  /** The components joined again, each preceded by '/'. */
  function Join(names: seq<seq<Byte>>): seq<Byte> {
    if names == [] then [] else Join(names[..|names| - 1]) + [SLASH] + names[|names| - 1]
  }

  /** The canonical absolute path with the given components. */
  function Render(names: seq<seq<Byte>>): seq<Byte> {
    if names == [] then [SLASH] else Join(names)
  }

  /** Scanning depends only on the part of the string not yet consumed. */
  lemma {:induction false} ScanShift(s: seq<Byte>, start: nat, pos: nat, p: seq<Byte>)
    requires start <= pos <= |s|
    ensures Scan(p + s, |p| + start, |p| + pos) == Scan(s, start, pos)
    decreases |s| - pos
  {
    assert (p + s)[|p| + start..|p| + pos] == s[start..pos];
    if pos < |s| {
      if s[pos] == SLASH { ScanShift(s, pos + 1, pos + 1, p); } else { ScanShift(s, start, pos + 1, p); }
    }
  }

  /** A '/' separates: the components of `s / t` are those of `s` and then those of `t`. */
  lemma {:induction false} ScanSlash(s: seq<Byte>, start: nat, pos: nat, t: seq<Byte>)
    requires start <= pos <= |s|
    ensures Scan(s + [SLASH] + t, start, pos) == Scan(s, start, pos) + Components(t)
    decreases |s| - pos
  {
    var u := s + [SLASH] + t;
    assert u[start..pos] == s[start..pos];
    var last := if pos > start then [s[start..pos]] else [];
    if pos == |s| {
      ScanShift(t, 0, 0, s + [SLASH]);
    } else if s[pos] == SLASH {
      ScanSlash(s, pos + 1, pos + 1, t);
      var rest, more := Scan(s, pos + 1, pos + 1), Components(t);
      assert Scan(u, start, pos) == last + (rest + more);
      assert Scan(s, start, pos) == last + rest;
      assert last + (rest + more) == (last + rest) + more;
    } else {
      ScanSlash(s, start, pos + 1, t);
    }
  }

  lemma ComponentsSlash(s: seq<Byte>, t: seq<Byte>)
    ensures Components(s + [SLASH] + t) == Components(s) + Components(t)
  {
    ScanSlash(s, 0, 0, t);
  }

  lemma {:induction false} ScanName(s: seq<Byte>, pos: nat)
    requires SLASH !in s && pos <= |s|
    ensures Scan(s, 0, pos) == if s == [] then [] else [s]
    decreases |s| - pos
  {
    assert s[0..|s|] == s;
    if pos < |s| { ScanName(s, pos + 1); }
  }

  /** Splitting undoes joining. */
  lemma {:induction false} ComponentsJoin(names: seq<seq<Byte>>)
    requires forall i :: 0 <= i < |names| ==> IsName(names[i])
    ensures Components(Join(names)) == names
  {
    if names != [] {
      var front, last := names[..|names| - 1], names[|names| - 1];
      ComponentsJoin(front);
      ComponentsSlash(Join(front), last);
      ScanName(last, 0);
      assert front + [last] == names;
    }
  }

  lemma ComponentsRender(names: seq<seq<Byte>>)
    requires forall i :: 0 <= i < |names| ==> IsName(names[i])
    ensures Components(Render(names)) == names
  {
    ComponentsJoin(names);
    assert [] + [SLASH] + [] == [SLASH];
    ComponentsSlash([], []);
  }

  /** Every component is a name, provided the string holds no NUL. */
  lemma {:induction false} ScanNames(s: seq<Byte>, start: nat, pos: nat)
    requires start <= pos <= |s| && 0 !in s && SLASH !in s[start..pos]
    ensures forall n :: n in Scan(s, start, pos) ==> IsName(n)
    decreases |s| - pos
  {
    if pos < |s| {
      if s[pos] == SLASH {
        ScanNames(s, pos + 1, pos + 1);
      } else {
        assert s[start..pos + 1] == s[start..pos] + [s[pos]];
        ScanNames(s, start, pos + 1);
      }
    }
  }

  /** When only slashes are left, the string ends in one. */
  lemma {:induction false} ScanEmpty(s: seq<Byte>, pos: nat)
    requires 0 < pos <= |s| && s[pos - 1] == SLASH && Scan(s, pos, pos) == []
    ensures s[|s| - 1] == SLASH
    decreases |s| - pos
  {
    if pos < |s| {
      if s[pos] == SLASH { ScanEmpty(s, pos + 1); } else { ScanNotEmpty(s, pos, pos + 1); }
    }
  }

  lemma {:induction false} ScanNotEmpty(s: seq<Byte>, start: nat, pos: nat)
    requires start < pos <= |s|
    ensures Scan(s, start, pos) != []
    decreases |s| - pos
  {
    if pos < |s| && s[pos] != SLASH { ScanNotEmpty(s, start, pos + 1); }
  }

  predicate EndsInSlash(path: seq<Byte>) {
    path != [] && path[|path| - 1] == SLASH
  }

  /** One step of a left-to-right scan. */
  lemma ScanStep(path: seq<Byte>, start: nat, pos: nat)
    requires start <= pos <= |path| && SLASH !in path[start..pos]
    ensures pos < |path| && path[pos] != SLASH ==> Scan(path, start, pos) == Scan(path, start, pos + 1)
    ensures pos == |path| || path[pos] == SLASH ==>
      var rest := if pos == |path| then [] else Scan(path, pos + 1, pos + 1);
      && Scan(path, start, pos) == (if pos > start then [path[start..pos]] + rest else rest)
      && (pos > start ==> (pos < |path| <==> rest != [] || EndsInSlash(path)))
  {
    if start < pos == |path| {
      assert path[start..pos][pos - start - 1] == path[|path| - 1];
    } else if start < pos < |path| && path[pos] == SLASH && Scan(path, pos + 1, pos + 1) == [] {
      ScanEmpty(path, pos + 1);
    }
  }
}
