/** Building an image and resolving paths in it agree with resolving them in the tree. */
module ImageRoundTrip {
  import opened Bytes
  import opened Paths
  import opened ImageFormat
  import opened PathLookup
  import opened ImageBuilder

  /** Whatever a walk finds is a well-formed member of the tree. */
  lemma {:induction false} WalkGood(here: Found, dir: Node, names: seq<seq<Byte>>, slash: bool)
    requires dir.Dir? && WellFormed(dir) && (here.Member? ==> GoodItem(here.item))
    ensures Walk(here, dir, names, slash).Member? ==> GoodItem(Walk(here, dir, names, slash).item)
    decreases |names|
  {
    if names != [] {
      var i := Find(dir.items, names[0]);
      if i >= 0 {
        assert GoodItem(dir.items[i]);
        if dir.items[i].node.Dir? { WalkGood(Member(dir.items[i]), dir.items[i].node, names[1..], slash); }
      }
    }
  }

  /** Reading the fields of a resolved entry back. */
  lemma EntryReadBack(img: seq<Byte>, entry: nat, tree: Node, path: seq<Byte>)
    requires Image(img, tree) && WellFormed(tree) && Locates(img, entry, Resolve(tree, path))
    ensures entry + 12 <= |img|
    ensures Resolve(tree, path).Root? ==> Get32(img, entry + 4) == TYPE_DIR
    ensures Resolve(tree, path).Member? ==>
      var item, at := Resolve(tree, path).item, Get32(img, entry + 8);
      && Get32(img, entry) == item.size && Get32(img, entry + 4) == TypeOf(item.node)
      && (item.node.File? ==> at + item.size <= |img| && img[at..at + item.size] == item.node.content)
  {
    WalkGood(Root, tree, Components(path), EndsInSlash(path));
    if Resolve(tree, path).Member? {
      assert GoodItem(Resolve(tree, path).item);
      hide Walk;
    }
  }

  lemma Kinds(node: Node)
    ensures TypeOf(node) == TYPE_FILE <==> node.File?
    ensures TYPE_FILE != TYPE_DIR && ENOENT != 0
  {
  }

  /** What `fstool -build` followed by `fstool -get` reports, for every tree and every path:
      the attributes of the member the path names, and for a file its bytes. */
  method BuildAndGet(tree: Node, path: seq<Byte>, mode: Word, mtime: Word, junk: seq<Byte>)
    returns (res: int, kind: Word, size: Word, content: seq<Byte>)
    requires tree.Dir? && WellFormed(tree) && ENTRY + Footprint(tree) <= MAX_IMAGE
    requires |junk| == MAX_FILENAME_LEN + 1 - 5
    ensures res == if Resolve(tree, path).NoEntry? then -ENOENT else 0
    ensures Resolve(tree, path).Root? ==> kind == TYPE_DIR
    ensures Resolve(tree, path).Member? ==>
      var item := Resolve(tree, path).item;
      kind == TypeOf(item.node) && size == item.size && (item.node.File? ==> content == item.node.content)
  {
    hide *;
    var img := Build(tree, mode, mtime, junk);
    var entry;
    res, entry := GetDirectoryEntry(img, path, tree);
    kind, size, content := 0, 0, [];
    Kinds(tree);
    if res == 0 {
      EntryReadBack(img, entry, tree, path);
      size, kind := Get32(img, entry), Get32(img, entry + 4);
      if kind == TYPE_FILE {
        ghost var found := Resolve(tree, path);
        if found.Member? { Kinds(found.item.node); } else { Located(img, entry, found); }
        var at := Get32(img, entry + 8);
        content := img[at..at + size];
      } else if Resolve(tree, path).Member? {
        Kinds(Resolve(tree, path).item.node);
      }
    }
  }
}
