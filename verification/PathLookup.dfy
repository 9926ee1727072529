/** `lookup` and `get_directory_entry` of src/filesystem.c, run over the bytes of an image. */
module PathLookup {
  import opened Bytes
  import opened Paths
  import opened ImageFormat

  const ENOENT: int := 6

  function StrLen(s: seq<Byte>, at: nat): (n: nat)
    requires at <= |s|
    ensures at + n <= |s| && 0 !in s[at..at + n]
    decreases |s| - at
  {
    if at == |s| || s[at] == 0 then 0
    else
      var n := StrLen(s, at + 1);
      assert s[at..at + 1 + n] == [s[at]] + s[at + 1..at + 1 + n];
      1 + n
  }

  lemma {:induction false} StrLenName(s: seq<Byte>, at: nat, n: nat)
    requires at + n < |s| && 0 !in s[at..at + n] && s[at + n] == 0
    ensures StrLen(s, at) == n
    decreases n
  {
    if n > 0 {
      assert s[at] == s[at..at + n][0] && s[at + 1..at + n] == s[at..at + n][1..];
      StrLenName(s, at + 1, n - 1);
    }
  }

  /** `strlen(name) == len && !strncmp(name, s, len)` for the name field of a directory_entry. */
  method NameMatches(img: seq<Byte>, at: nat, name: seq<Byte>, ghost item: Item) returns (b: bool)
    requires Labels(img, at, item) && IsName(item.name)
    ensures b <==> item.name == name
  {
    StrLenName(img, at + NAME, |item.name|);
    b := StrLen(img, at + NAME) == |name| && img[at + NAME..at + NAME + |name|] == name;
  }

  lemma ItemLabelled(img: seq<Byte>, dir: nat, hi: nat, node: Node, i: nat)
    requires node.Dir? && WellFormed(node) && Holds(img, dir, hi, node) && i < |node.items|
    ensures Labels(img, EntryAt(dir, i), node.items[i]) && IsName(node.items[i].name)
  {
  }

  lemma DirHeader(img: seq<Byte>, dir: nat, hi: nat, node: Node)
    requires node.Dir? && Holds(img, dir, hi, node)
    ensures dir + 4 <= |img| && Get32(img, dir) == |node.items|
  {
  }

  /** Address of the directory_entry called `name` in the directory at `dir`, or -1 for NULL. */
  method Lookup(img: seq<Byte>, dir: nat, name: seq<Byte>, ghost hi: nat, ghost node: Node) returns (at: int)
    requires node.Dir? && Holds(img, dir, hi, node) && WellFormed(node)
    ensures var i := Find(node.items, name); at == if i < 0 then -1 else EntryAt(dir, i)
  {
    hide *;
    DirHeader(img, dir, hi, node);
    var count := Get32(img, dir);
    var i := 0;
    while i < count
      invariant 0 <= i <= count == |node.items|
      invariant forall j :: 0 <= j < i ==> node.items[j].name != name
    {
      ItemLabelled(img, dir, hi, node, i);
      var b := NameMatches(img, EntryAt(dir, i), name, node.items[i]);
      if b { return EntryAt(dir, i); }
      i := i + 1;
    }
    at := -1;
  }

  /** Where the entry of something found in the tree stands in the image. */
  ghost predicate Locates(img: seq<Byte>, entry: nat, found: Found) {
    match found
    case NoEntry => false
    case Root => entry == 0
    case Member(item) =>
      && Labels(img, entry, item)
      && Holds(img, Location(img, entry), |img|, item.node)
  }

  lemma ItemHeld(img: seq<Byte>, dir: nat, hi: nat, node: Node, i: nat)
    requires node.Dir? && WellFormed(node) && Holds(img, dir, hi, node) && hi == |img| && i < |node.items|
    ensures EntryAt(dir, i) + 12 <= |img|
    ensures Get32(img, EntryAt(dir, i) + 4) == TYPE_DIR <==> node.items[i].node.Dir?
    ensures Holds(img, Get32(img, EntryAt(dir, i) + 8), hi, node.items[i].node)
    ensures WellFormed(node.items[i].node) && Locates(img, EntryAt(dir, i), Member(node.items[i]))
  {
  }

  /** One component of the loop of `get_directory_entry`; `more` says that the path goes on. */
  method Enter(img: seq<Byte>, dir: nat, name: seq<Byte>, more: bool,
               ghost here: Found, ghost node: Node, ghost rest: seq<seq<Byte>>, ghost slash: bool)
    returns (ok: bool, entry: nat, next: nat, ghost here': Found, ghost node': Node)
    requires node.Dir? && WellFormed(node) && Holds(img, dir, |img|, node)
    requires more <==> rest != [] || slash
    ensures node'.Dir? && WellFormed(node') && Holds(img, next, |img|, node')
    ensures !ok ==> Walk(here, node, [name] + rest, slash) == NoEntry
    ensures ok ==> Walk(here, node, [name] + rest, slash) == Walk(here', node', rest, slash)
    ensures ok ==> Locates(img, entry, here')
  {
    hide *;
    ok, entry, next, here', node' := false, 0, dir, here, node;
    WalkStep(here, node, name, rest, slash);
    var at := Lookup(img, dir, name, |img|, node);
    if at >= 0 {
      ghost var item := node.items[Find(node.items, name)];
      ItemHeld(img, dir, |img|, node, Find(node.items, name));
      entry := at;
      here' := Member(item);
      ok := Get32(img, entry + 4) == TYPE_DIR || !more;
      if Get32(img, entry + 4) == TYPE_DIR {
        next := Get32(img, entry + 8);
        node' := item.node;
      }
    }
  }

  lemma WalkStep(here: Found, dir: Node, name: seq<Byte>, rest: seq<seq<Byte>>, slash: bool)
    requires dir.Dir?
    ensures var i, w := Find(dir.items, name), Walk(here, dir, [name] + rest, slash);
      && (i < 0 ==> w == NoEntry)
      && (i >= 0 && dir.items[i].node.Dir? ==> w == Walk(Member(dir.items[i]), dir.items[i].node, rest, slash))
      && (i >= 0 && dir.items[i].node.File? && (rest != [] || slash) ==> w == NoEntry)
      && (i >= 0 && dir.items[i].node.File? && rest == [] && !slash ==>
            w == Walk(Member(dir.items[i]), dir, rest, slash))
  {
  }

  method GetDirectoryEntry(img: seq<Byte>, path: seq<Byte>, ghost tree: Node) returns (res: int, entry: nat)
    requires Image(img, tree) && WellFormed(tree)
    ensures res == if Resolve(tree, path).NoEntry? then -ENOENT else 0
    ensures res == 0 ==> Locates(img, entry, Resolve(tree, path))
  {
    hide *;
    ImageStart(img, tree, path);
    entry := 0;
    var dir: nat := Get32(img, 8);
    var len, start, pos := |path|, 0, 0;
    ghost var slash := EndsInSlash(path);
    ghost var here, node := Root, tree;
    while pos <= len
      invariant start <= pos <= len + 1
      invariant pos <= len ==> SLASH !in path[start..pos]
      invariant node.Dir? && WellFormed(node) && Holds(img, dir, |img|, node)
      invariant Locates(img, entry, here) && here != NoEntry
      invariant pos <= len ==> Resolve(tree, path) == Walk(here, node, Scan(path, start, pos), slash)
      invariant pos == len + 1 ==> Resolve(tree, path) == here
    {
      ScanStep(path, start, pos);
      if pos == len || path[pos] == SLASH {
        ghost var rest := if pos == len then [] else Scan(path, pos + 1, pos + 1);
        if pos > start {
          var ok;
          ok, entry, dir, here, node := Enter(img, dir, path[start..pos], pos < len, here, node, rest, slash);
          if !ok { return -ENOENT, entry; }
          Located(img, entry, here);
        }
        if pos == len { WalkEnds(here, node, slash); }
        start := pos + 1;
      } else {
        assert path[start..pos + 1] == path[start..pos] + [path[pos]];
      }
      pos := pos + 1;
    }
    res := 0;
  }

  lemma ImageStart(img: seq<Byte>, tree: Node, path: seq<Byte>)
    requires Image(img, tree)
    ensures ENOENT > 0 && tree.Dir? && 12 <= |img| && Holds(img, Get32(img, 8), |img|, tree)
    ensures Locates(img, 0, Root)
    ensures Resolve(tree, path) == Walk(Root, tree, Scan(path, 0, 0), EndsInSlash(path))
  {
  }

  lemma Located(img: seq<Byte>, entry: nat, found: Found)
    requires Locates(img, entry, found)
    ensures found != NoEntry
  {
  }

  lemma WalkEnds(here: Found, dir: Node, slash: bool)
    requires dir.Dir?
    ensures Walk(here, dir, [], slash) == here
  {
  }
}
