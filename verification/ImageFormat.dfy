/** The file system image of src/include/filesystem.h: what it means for an image to
    hold a directory tree, and what resolving a path in the tree means. */
module ImageFormat {
  import opened Bytes
  import opened Paths

  const TYPE_DIR: Word := 1
  const TYPE_FILE: Word := 2
  const MAX_FILENAME_LEN: nat := 255
  const HEADER: nat := 4    // sizeof(directory), the entry count
  const ENTRY: nat := 276   // sizeof(directory_entry)
  const NAME: nat := 20     // offset of the name in a directory_entry

  datatype Node =
    | File(content: seq<Byte>)
    | Dir(items: seq<Item>)

  /** A directory member with the attributes that `stat` reports for it. `pad` is the 256th
      name byte, which the builder leaves as it finds it. */
  datatype Item = Item(name: seq<Byte>, size: Word, mode: Word, mtime: Word, pad: Byte, node: Node)

  function TypeOf(node: Node): Word {
    if node.Dir? then TYPE_DIR else TYPE_FILE
  }

  /** Names fit their field with a terminator, and recorded file sizes are the true ones. */
  ghost predicate WellFormed(node: Node) {
    node.Dir? ==> forall i :: 0 <= i < |node.items| ==> GoodItem(node.items[i])
  }

  ghost predicate GoodItem(item: Item) {
    && IsName(item.name) && |item.name| < MAX_FILENAME_LEN
    && (item.node.File? ==> item.size == |item.node.content|)
    && WellFormed(item.node)
  }

  function EntryAt(loc: nat, i: nat): nat {
    loc + HEADER + ENTRY * i
  }

  /** The directory_entry at `at` carries the name and attributes of `item`. */
  ghost predicate Labels(img: seq<Byte>, at: nat, item: Item) {
    && at + ENTRY <= |img| && |item.name| < MAX_FILENAME_LEN
    && Get32(img, at) == item.size
    && Get32(img, at + 4) == TypeOf(item.node)
    && Get32(img, at + 12) == item.mode
    && Get32(img, at + 16) == item.mtime
    && img[at + NAME..at + NAME + |item.name|] == item.name
    && img[at + NAME + |item.name|] == 0
  }

  /** `node` is stored in `img[loc..hi]`. */
  ghost predicate Holds(img: seq<Byte>, loc: nat, hi: nat, node: Node)
    decreases node
  {
    match node
    case File(content) =>
      loc + |content| <= hi <= |img| && img[loc..loc + |content|] == content
    case Dir(items) =>
      && EntryAt(loc, |items|) <= hi <= |img|
      && Get32(img, loc) == |items|
      && forall i {:trigger items[i]} :: 0 <= i < |items| ==>
           && Labels(img, EntryAt(loc, i), items[i])
           && EntryAt(loc, |items|) <= Location(img, EntryAt(loc, i))
           && Holds(img, Location(img, EntryAt(loc, i)), hi, items[i].node)
  }

  /** The `location` field of the directory_entry at `at`, as an offset in the image. */
  function Location(img: seq<Byte>, at: nat): nat {
    if at + ENTRY <= |img| then Get32(img, at + 8) else 0
  }

  /** A whole image: the root entry and behind it the tree. */
  ghost predicate Image(img: seq<Byte>, tree: Node) {
    && tree.Dir? && ENTRY <= |img| && Get32(img, 4) == TYPE_DIR && Location(img, 0) == ENTRY
    && Holds(img, ENTRY, |img|, tree)
  }

  // ----- frames -----

  ghost predicate Same(s: seq<Byte>, t: seq<Byte>, lo: nat, hi: nat) {
    hi <= |s| && hi <= |t| && forall x :: lo <= x < hi ==> s[x] == t[x]
  }

  lemma LabelsFrame(s: seq<Byte>, t: seq<Byte>, lo: nat, hi: nat, at: nat, item: Item)
    requires Same(s, t, lo, hi) && lo <= at && at + ENTRY <= hi && Labels(s, at, item)
    ensures Labels(t, at, item) && Location(t, at) == Location(s, at)
  {
  }

  /** What is stored in `[loc, hi)` survives changes outside of it. */
  lemma {:induction false} HoldsFrame(s: seq<Byte>, t: seq<Byte>, loc: nat, hi: nat, hi': nat, node: Node)
    requires Holds(s, loc, hi, node) && Same(s, t, loc, hi) && hi <= hi' <= |t|
    ensures Holds(t, loc, hi', node)
    decreases node
  {
    match node
    case File(content) =>
      assert t[loc..loc + |content|] == s[loc..loc + |content|];
    case Dir(items) =>
      assert Get32(t, loc) == Get32(s, loc);
      forall i | 0 <= i < |items|
        ensures Labels(t, EntryAt(loc, i), items[i])
        ensures EntryAt(loc, |items|) <= Location(t, EntryAt(loc, i))
        ensures Holds(t, Location(t, EntryAt(loc, i)), hi', items[i].node)
      {
        LabelsFrame(s, t, loc, hi, EntryAt(loc, i), items[i]);
        HoldsFrame(s, t, Location(s, EntryAt(loc, i)), hi, hi', items[i].node);
      }
  }

  // ----- resolving a path in the tree -----

  datatype Found = NoEntry | Root | Member(item: Item)

  /** The first member of a directory with the given name. */
  function Find(items: seq<Item>, name: seq<Byte>): (r: int)
    ensures -1 <= r < |items|
    ensures r >= 0 ==> items[r].name == name && forall j :: 0 <= j < r ==> items[j].name != name
    ensures r < 0 ==> forall j :: 0 <= j < |items| ==> items[j].name != name
  {
    if items == [] then -1
    else if items[0].name == name then 0
    else
      var r := Find(items[1..], name);
      if r < 0 then -1 else r + 1
  }

  /** Follow `names` from directory `dir`, which was found as `here`. A file may only come last,
      and not before a trailing slash. */
  function Walk(here: Found, dir: Node, names: seq<seq<Byte>>, slash: bool): Found
    requires dir.Dir?
    decreases |names|
  {
    if names == [] then here
    else
      var i := Find(dir.items, names[0]);
      if i < 0 then NoEntry
      else
        var item := dir.items[i];
        if item.node.Dir? then Walk(Member(item), item.node, names[1..], slash)
        else if |names| == 1 && !slash then Member(item)
        else NoEntry
  }

  function Resolve(tree: Node, path: seq<Byte>): Found
    requires tree.Dir?
  {
    Walk(Root, tree, Components(path), EndsInSlash(path))
  }
}
