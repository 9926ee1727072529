/** The image builder of src/fstool.c: a growing output buffer, and `process_dir`, which
    appends a directory, then its members, and then fills in where the members went. */
module ImageBuilder {
  import opened Bytes
  import opened ImageFormat

  const MAX_IMAGE: nat := 0x8000_0000 // beyond it `alloc *= 2` wraps around to 0

  class Output {
    var alloc: nat
    var size: nat
    var data: array<Byte>

    ghost predicate Valid()
      reads this
    {
      0 < alloc && size <= alloc == data.Length
    }

    ghost function Contents(): seq<Byte>
      requires Valid()
      reads this, data
    {
      data[..size]
    }

    constructor ()
      ensures Valid() && Contents() == [] && fresh(data)
    {
      alloc, size := 1, 0;
      data := new Byte[1](_ => 0);
    }

    method Append(bytes: seq<Byte>)
      requires Valid() && size + |bytes| <= MAX_IMAGE
      modifies this, data
      ensures Valid() && Contents() == old(Contents()) + bytes
      ensures data == old(data) || fresh(data)
    {
      if size + |bytes| > alloc {
        while size + |bytes| > alloc
          invariant alloc > 0 && size == old(size) && data == old(data) && size <= data.Length
          invariant data[..] == old(data[..])
          decreases size + |bytes| - alloc
        {
          alloc := alloc * 2;
        }
        var bigger := new Byte[alloc](_ => 0);
        forall i | 0 <= i < size { bigger[i] := data[i]; }
        data := bigger;
      }
      assert data[..size] == old(data[..size]);
      forall i | 0 <= i < |bytes| { data[size + i] := bytes[i]; }
      size := size + |bytes|;
    }

    /** `memcpy(&out->data[at], bytes, |bytes|)` over bytes that were appended earlier. */
    method Patch(at: nat, bytes: seq<Byte>)
      requires Valid() && at + |bytes| <= size
      modifies data
      ensures Valid() && Contents() == old(Contents())[..at] + bytes + old(Contents())[at + |bytes|..]
    {
      forall i | 0 <= i < |bytes| { data[at + i] := bytes[i]; }
    }
  }

  // ----- sizes -----

  /** Bytes that `process_dir` or `process_file` appends for `node`. */
  function Footprint(node: Node): (n: nat)
    decreases node, if node.Dir? then |node.items| + 1 else 0
  {
    if node.File? then |node.content| else PartSize(node, |node.items|)
  }

  /** The directory table of `dir` and its first `k` members. */
  function PartSize(dir: Node, k: nat): (n: nat)
    requires dir.Dir? && k <= |dir.items|
    decreases dir, k
  {
    if k == 0 then HEADER + ENTRY * |dir.items| else PartSize(dir, k - 1) + Footprint(dir.items[k - 1].node)
  }

  lemma {:induction false} PartMonotone(dir: Node, j: nat, k: nat)
    requires dir.Dir? && j <= k <= |dir.items|
    ensures PartSize(dir, j) <= PartSize(dir, k)
  {
    if j < k { PartMonotone(dir, j, k - 1); }
  }

  // ----- directory tables -----

  function Zeros(n: nat): (s: seq<Byte>)
    ensures |s| == n && forall i :: 0 <= i < n ==> s[i] == 0
  {
    seq(n, _ => 0)
  }

  /** `strncpy(name, d_name, MAX_FILENAME_LEN)` and the byte after it. */
  function NameField(name: seq<Byte>, pad: Byte): (s: seq<Byte>)
    requires |name| < MAX_FILENAME_LEN
    ensures |s| == MAX_FILENAME_LEN + 1 && s[..|name|] == name && s[|name|] == 0
  {
    name + Zeros(MAX_FILENAME_LEN - |name|) + [pad]
  }

  function EncodeEntry(item: Item, location: Word): (s: seq<Byte>)
    requires |item.name| < MAX_FILENAME_LEN
    ensures |s| == ENTRY
  {
    Encode32(item.size) + Encode32(TypeOf(item.node)) + Encode32(location) + Encode32(item.mode)
    + Encode32(item.mtime) + NameField(item.name, item.pad)
  }

  function EncodeEntries(items: seq<Item>, locations: seq<Word>): (s: seq<Byte>)
    requires |items| == |locations| && forall i :: 0 <= i < |items| ==> |items[i].name| < MAX_FILENAME_LEN
    ensures |s| == ENTRY * |items|
  {
    if items == [] then []
    else
      var n := |items| - 1;
      EncodeEntries(items[..n], locations[..n]) + EncodeEntry(items[n], locations[n])
  }

  function EncodeTable(items: seq<Item>, locations: seq<Word>): (s: seq<Byte>)
    requires |items| == |locations| < 0x1_0000_0000
    requires forall i :: 0 <= i < |items| ==> |items[i].name| < MAX_FILENAME_LEN
    ensures |s| == HEADER + ENTRY * |items|
  {
    Encode32(|items|) + EncodeEntries(items, locations)
  }

  /** Decoding an entry gives back what was encoded. */
  lemma EntryRoundTrip(img: seq<Byte>, at: nat, item: Item, location: Word)
    requires at + ENTRY <= |img| && |item.name| < MAX_FILENAME_LEN
    requires img[at..at + ENTRY] == EncodeEntry(item, location)
    ensures Labels(img, at, item) && Location(img, at) == location
  {
    var e := EncodeEntry(item, location);
    EntryFields(item, location);
    forall k | 0 <= k < ENTRY ensures img[at + k] == e[k] {
      assert img[at..at + ENTRY][k] == img[at + k];
    }
    hide EncodeEntry;
    FieldRoundTrip(img, at, e, 0, item.size);
    FieldRoundTrip(img, at, e, 4, TypeOf(item.node));
    FieldRoundTrip(img, at, e, 8, location);
    FieldRoundTrip(img, at, e, 12, item.mode);
    FieldRoundTrip(img, at, e, 16, item.mtime);
    var n := |item.name|;
    assert img[at + NAME..at + NAME + n] == e[NAME..NAME + n];
  }

  lemma EntryFields(item: Item, location: Word)
    requires |item.name| < MAX_FILENAME_LEN
    ensures var e := EncodeEntry(item, location);
      && e[0..4] == Encode32(item.size) && e[4..8] == Encode32(TypeOf(item.node))
      && e[8..12] == Encode32(location) && e[12..16] == Encode32(item.mode) && e[16..20] == Encode32(item.mtime)
      && e[NAME..NAME + |item.name|] == item.name && e[NAME + |item.name|] == 0
  {
  }

  lemma FieldRoundTrip(img: seq<Byte>, at: nat, e: seq<Byte>, k: nat, v: Word)
    requires at + |e| <= |img| && k + 4 <= |e| && e[k..k + 4] == Encode32(v)
    requires forall x :: 0 <= x < |e| ==> img[at + x] == e[x]
    ensures Get32(img, at + k) == v
  {
    assert img[at + k..at + k + 4] == e[k..k + 4];
    GetEncoded(img, at + k, v);
  }

  lemma {:induction false} EntriesIndex(items: seq<Item>, locations: seq<Word>, i: nat)
    requires |items| == |locations| && forall i :: 0 <= i < |items| ==> |items[i].name| < MAX_FILENAME_LEN
    requires i < |items|
    ensures EncodeEntries(items, locations)[ENTRY * i..ENTRY * i + ENTRY] == EncodeEntry(items[i], locations[i])
    decreases |items|
  {
    var n := |items| - 1;
    var front, last := EncodeEntries(items[..n], locations[..n]), EncodeEntry(items[n], locations[n]);
    assert EncodeEntries(items, locations) == front + last;
    if i == n {
      assert (front + last)[ENTRY * n..ENTRY * n + ENTRY] == last;
    } else {
      EntriesIndex(items[..n], locations[..n], i);
      assert (front + last)[ENTRY * i..ENTRY * i + ENTRY] == front[ENTRY * i..ENTRY * i + ENTRY];
    }
  }

  // ----- process_dir -----

  /** The first `k` members are stored at their locations, which lie at or behind `lo`. */
  ghost predicate Stored(img: seq<Byte>, items: seq<Item>, locations: seq<nat>, lo: nat) {
    |locations| <= |items| &&
    forall j :: 0 <= j < |locations| ==> lo <= locations[j] && Holds(img, locations[j], |img|, items[j].node)
  }

  lemma StoredGrows(s: seq<Byte>, t: seq<Byte>, items: seq<Item>, locations: seq<nat>, lo: nat)
    requires Stored(s, items, locations, lo) && s <= t && |locations| < |items|
    requires lo <= |s| && Holds(t, |s|, |t|, items[|locations|].node)
    ensures Stored(t, items, locations + [|s|], lo)
  {
    forall j | 0 <= j < |locations| ensures Holds(t, locations[j], |t|, items[j].node) {
      HoldsFrame(s, t, locations[j], |s|, |t|, items[j].node);
    }
  }

  /** Filling in the table completes the directory and disturbs none of its members. */
  lemma PatchedDirectory(s: seq<Byte>, t: seq<Byte>, off: nat, dir: Node, locations: seq<Word>)
    requires dir.Dir? && WellFormed(dir) && |locations| == |dir.items| < 0x1_0000_0000
    requires off + HEADER + ENTRY * |dir.items| <= |s| == |t|
    requires forall i :: 0 <= i < |dir.items| ==> |dir.items[i].name| < MAX_FILENAME_LEN
    requires t == s[..off] + EncodeTable(dir.items, locations) + s[off + HEADER + ENTRY * |dir.items|..]
    requires Stored(s, dir.items, locations, off + HEADER + ENTRY * |dir.items|)
    ensures Holds(t, off, |t|, dir)
  {
    var items := dir.items;
    var end := off + HEADER + ENTRY * |items|;
    var entries := EncodeEntries(items, locations);
    assert Same(s, t, end, |s|);
    assert Get32(t, off) == |items| by {
      assert t[off..off + 4] == Encode32(|items|);
      GetEncoded(t, off, |items|);
    }
    assert t[off + HEADER..end] == entries;
    forall i | 0 <= i < |items|
      ensures Labels(t, EntryAt(off, i), items[i]) && Location(t, EntryAt(off, i)) == locations[i]
      ensures Holds(t, locations[i], |t|, items[i].node)
    {
      PatchedEntry(t, off, items, locations, i);
      HoldsFrame(s, t, locations[i], |s|, |t|, items[i].node);
    }
  }

  lemma SliceOfSlice(t: seq<Byte>, a: nat, n: nat, b: nat, k: nat)
    requires a + n <= |t| && b + k <= n
    ensures t[a..a + n][b..b + k] == t[a + b..a + b + k]
  {
    var u, v := t[a..a + n][b..b + k], t[a + b..a + b + k];
    assert |u| == |v| && forall x :: 0 <= x < |u| ==> u[x] == v[x];
    assert u == v;
  }

  lemma PatchedEntry(t: seq<Byte>, off: nat, items: seq<Item>, locations: seq<Word>, i: nat)
    requires |items| == |locations| && forall i :: 0 <= i < |items| ==> |items[i].name| < MAX_FILENAME_LEN
    requires i < |items| && off + HEADER + ENTRY * |items| <= |t|
    requires t[off + HEADER..off + HEADER + ENTRY * |items|] == EncodeEntries(items, locations)
    ensures Labels(t, EntryAt(off, i), items[i]) && Location(t, EntryAt(off, i)) == locations[i]
  {
    hide EncodeEntries;
    hide EncodeEntry;
    hide Labels;
    hide Location;
    var entries := EncodeEntries(items, locations);
    EntriesIndex(items, locations, i);
    SliceOfSlice(t, off + HEADER, ENTRY * |items|, ENTRY * i, ENTRY);
    EntryRoundTrip(t, EntryAt(off, i), items[i], locations[i]);
  }

  lemma NamesFit(dir: Node)
    requires dir.Dir? && WellFormed(dir)
    ensures forall i :: 0 <= i < |dir.items| ==> |dir.items[i].name| < MAX_FILENAME_LEN
    ensures forall i :: 0 <= i < |dir.items| ==> WellFormed(dir.items[i].node)
  {
  }

  lemma Sizes(dir: Node)
    requires dir.Dir?
    ensures Footprint(dir) == PartSize(dir, |dir.items|) >= PartSize(dir, 0) == HEADER + ENTRY * |dir.items|
    ensures |dir.items| <= Footprint(dir)
  {
    PartMonotone(dir, 0, |dir.items|);
  }

  lemma MemberSizes(dir: Node, i: nat)
    requires dir.Dir? && i < |dir.items|
    ensures PartSize(dir, i + 1) == PartSize(dir, i) + Footprint(dir.items[i].node) <= Footprint(dir)
    ensures HEADER + ENTRY * |dir.items| <= PartSize(dir, i)
  {
    PartMonotone(dir, 0, i);
    PartMonotone(dir, i + 1, |dir.items|);
  }

  lemma FileStored(s: seq<Byte>, node: Node)
    requires node.File?
    ensures Footprint(node) == |node.content|
    ensures Holds(s + node.content, |s|, |s| + |node.content|, node)
  {
  }

  /** Append one member: `process_dir` for a directory, `process_file` for a file. */
  method ProcessMember(out: Output, node: Node, ghost parent: Node)
    requires out.Valid() && WellFormed(node) && out.size + Footprint(node) <= MAX_IMAGE
    requires node < parent
    modifies out, out.data
    ensures out.Valid() && (out.data == old(out.data) || fresh(out.data))
    ensures out.size == old(out.size) + Footprint(node)
    ensures old(out.Contents()) <= out.Contents()
    ensures Holds(out.Contents(), old(out.size), out.size, node)
    decreases parent, 0
  {
    hide Holds;
    hide WellFormed;
    hide Footprint;
    if node.Dir? {
      ProcessDir(out, node);
    } else {
      FileStored(out.Contents(), node);
      out.Append(node.content);
    }
  }

  method ProcessDir(out: Output, dir: Node)
    requires out.Valid() && dir.Dir? && WellFormed(dir)
    requires out.size + Footprint(dir) <= MAX_IMAGE
    modifies out, out.data
    ensures out.Valid() && (out.data == old(out.data) || fresh(out.data))
    ensures out.size == old(out.size) + Footprint(dir)
    ensures old(out.Contents()) <= out.Contents()
    ensures Holds(out.Contents(), old(out.size), out.size, dir)
    decreases dir, 1
  {
    hide Holds;
    hide WellFormed;
    hide PartSize;
    hide Footprint;
    hide EncodeTable;
    hide Stored;
    var items := dir.items;
    var off := out.size;
    NamesFit(dir);
    Sizes(dir);
    var locations: seq<Word> := [];
    out.Append(EncodeTable(items, seq(|items|, _ => 0)));
    NothingStored(out.Contents(), items, off + HEADER + ENTRY * |items|);
    for i := 0 to |items|
      invariant out.Valid() && (out.data == old(out.data) || fresh(out.data))
      invariant |locations| == i && out.size == off + PartSize(dir, i)
      invariant old(out.Contents()) <= out.Contents()
      invariant Stored(out.Contents(), items, locations, off + HEADER + ENTRY * |items|)
    {
      MemberSizes(dir, i);
      ghost var before := out.Contents();
      var location: Word := out.size;
      ProcessMember(out, items[i].node, dir);
      StoredGrows(before, out.Contents(), items, locations, off + HEADER + ENTRY * |items|);
      locations := locations + [location];
    }
    ghost var before := out.Contents();
    out.Patch(off, EncodeTable(items, locations));
    PatchedDirectory(before, out.Contents(), off, dir, locations);
  }

  lemma NothingStored(img: seq<Byte>, items: seq<Item>, lo: nat)
    ensures Stored(img, items, [], lo)
  {
  }

  /** `fstool -build`: the root entry, then the tree. The builder never sets the root entry's mode,
      modification time and the tail of its name; `junk` is what happens to be in those bytes. */
  method Build(tree: Node, mode: Word, mtime: Word, junk: seq<Byte>) returns (img: seq<Byte>)
    requires tree.Dir? && WellFormed(tree) && ENTRY + Footprint(tree) <= MAX_IMAGE
    requires |junk| == MAX_FILENAME_LEN + 1 - 5
    ensures Image(img, tree) && |img| == ENTRY + Footprint(tree)
  {
    var out := new Output();
    var root := EncodeRoot(mode, mtime, junk);
    out.Append(root);
    ghost var before := out.Contents();
    hide Holds;
    hide WellFormed;
    ProcessDir(out, tree);
    img := out.data[..out.size];
    RootRoundTrip(mode, mtime, junk);
    assert Same(root, img, 0, ENTRY);
  }

  function EncodeRoot(mode: Word, mtime: Word, junk: seq<Byte>): (s: seq<Byte>)
    requires |junk| == MAX_FILENAME_LEN + 1 - 5
    ensures |s| == ENTRY
  {
    Encode32(0) + Encode32(TYPE_DIR) + Encode32(ENTRY) + Encode32(mode) + Encode32(mtime)
    + [82, 79, 79, 84, 0] + junk // "ROOT"
  }

  lemma RootRoundTrip(mode: Word, mtime: Word, junk: seq<Byte>)
    requires |junk| == MAX_FILENAME_LEN + 1 - 5
    ensures Get32(EncodeRoot(mode, mtime, junk), 4) == TYPE_DIR
    ensures Get32(EncodeRoot(mode, mtime, junk), 8) == ENTRY
  {
  }
}
