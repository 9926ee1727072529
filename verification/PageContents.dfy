/** What a process sees of its memory: the contents of the pages a directory maps. */
module PageContents {
  import opened PageModel
  import opened Pages

  /** The page is mapped to a frame of the allocator's. */
  ghost predicate Backed(m: seq<Page>, d: nat, p: nat) {
    p in Flat(m, d) && FrameOf(Flat(m, d)[p]) >= START
  }

  /** The contents of page `p` as directory `d` maps it. */
  ghost function PageAt(m: seq<Page>, d: nat, p: nat): Page {
    if p in Flat(m, d) && FrameOf(Flat(m, d)[p]) < |m| then m[FrameOf(Flat(m, d)[p])] else ZeroPage()
  }

  ghost predicate NoLoose(roles: Roles) {
    forall f :: f in roles ==> !roles[f].Loose?
  }

  /** Page `p` has a frame that was not in use in `before`, for a user to read and write. */
  ghost predicate Fresh(m: seq<Page>, before: Roles, d: nat, p: nat) {
    p in Flat(m, d) && START <= FrameOf(Flat(m, d)[p]) < |m| && FrameOf(Flat(m, d)[p]) !in before
    && Flat(m, d)[p] == MakeEntry(FrameOf(Flat(m, d)[p]) % MAX_FRAMES, PRESENT + USER + READ_WRITE)
  }

  /** Page `p` of directory `d` is as it was. */
  ghost predicate Same(m: seq<Page>, n: seq<Page>, d: nat, p: nat) {
    && (p in Flat(n, d) <==> p in Flat(m, d))
    && (p in Flat(m, d) ==> Flat(n, d)[p] == Flat(m, d)[p])
    && PageAt(n, d, p) == PageAt(m, d, p)
  }

  /** Directory `d` was given frames of its own for the pages from `base` on, with contents `c`. */
  ghost predicate Loaded(m: seq<Page>, before: Roles, n: seq<Page>, after: Roles, d: nat, base: nat, c: seq<Page>) {
    && Grown(m, before, n, after, d)
    && (forall p: nat :: p < base || base + |c| <= p ==> Same(m, n, d, p))
    && (forall p: nat :: base <= p < base + |c| ==> Fresh(n, before, d, p) && PageAt(n, d, p) == c[p - base])
  }

  lemma BackedFrame(m: seq<Page>, roles: Roles, d: nat, p: nat)
    requires Tables(m, roles) && IsDirectory(roles, d) && p in Flat(m, d)
    ensures p < MAX_FRAMES
    ensures Backed(m, d, p) ==>
              var f := FrameOf(Flat(m, d)[p]); f < |m| && f in roles && roles[f] == Mapped(d, DirIndex(p), TblIndex(p))
  {
  }

  /** Two pages share no frame of the allocator's. */
  lemma SeparateFrames(m: seq<Page>, roles: Roles, d: nat, p: nat, e: nat, q: nat)
    requires Tables(m, roles) && IsDirectory(roles, d) && IsDirectory(roles, e)
    requires Backed(m, d, p) && Backed(m, e, q) && (d, p) != (e, q)
    ensures FrameOf(Flat(m, d)[p]) != FrameOf(Flat(m, e)[q])
  {
    hide Tables;
    BackedFrame(m, roles, d, p);
    BackedFrame(m, roles, e, q);
  }

  lemma FlatSame(m: seq<Page>, n: seq<Page>, roles: Roles, d: nat, e: nat)
    requires SameOthers(m, n, roles, d) && IsDirectory(roles, e) && e != d
    ensures Flat(n, e) == Flat(m, e)
  {
  }

  /** A page whose mapping stays keeps its contents while `d` grows. */
  lemma GrownKeepsPage(m: seq<Page>, r: Roles, n: seq<Page>, s: Roles, d: nat, e: nat, p: nat)
    requires Tables(m, r) && IsDirectory(r, e) && Grown(m, r, n, s, d)
    requires p in Flat(m, e) ==> p in Flat(n, e) && Flat(n, e)[p] == Flat(m, e)[p]
    requires p !in Flat(m, e) ==> p !in Flat(n, e)
    ensures Same(m, n, e, p)
  {
    hide Tables;
    hide SameOthers;
    hide Flat;
    if p in Flat(m, e) { BackedFrame(m, r, e, p); }
  }

  lemma GrownKeepsOthers(m: seq<Page>, r: Roles, n: seq<Page>, s: Roles, d: nat, e: nat)
    requires Tables(m, r) && IsDirectory(r, e) && Grown(m, r, n, s, d) && e != d
    ensures forall p: nat :: Same(m, n, e, p)
    ensures Flat(n, e) == Flat(m, e)
  {
    hide Tables;
    FlatSame(m, n, r, d, e);
    forall p: nat ensures Same(m, n, e, p) {
      GrownKeepsPage(m, r, n, s, d, e, p);
    }
  }

  lemma ShrunkKeepsPage(m: seq<Page>, r: Roles, n: seq<Page>, s: Roles, d: nat, e: nat, p: nat)
    requires Tables(m, r) && IsDirectory(r, e) && Tables(n, s) && IsDirectory(s, e) && Shrunk(m, r, n, s, d)
    requires p in Flat(m, e) ==> p in Flat(n, e) && Flat(n, e)[p] == Flat(m, e)[p]
    requires p !in Flat(m, e) ==> p !in Flat(n, e)
    ensures Same(m, n, e, p)
  {
    hide Tables;
    hide SameOthers;
    hide Flat;
    if p in Flat(m, e) {
      BackedFrame(m, r, e, p);
      BackedFrame(n, s, e, p);
    }
  }

  lemma ShrunkKeepsOthers(m: seq<Page>, r: Roles, n: seq<Page>, s: Roles, d: nat, e: nat)
    requires Tables(m, r) && IsDirectory(r, e) && Tables(n, s) && IsDirectory(s, e) && Shrunk(m, r, n, s, d) && e != d
    ensures forall p: nat :: Same(m, n, e, p)
    ensures Flat(n, e) == Flat(m, e)
  {
    hide Tables;
    FlatSame(m, n, r, d, e);
    forall p: nat ensures Same(m, n, e, p) {
      ShrunkKeepsPage(m, r, n, s, d, e, p);
    }
  }

  lemma LoadedNothing(m: seq<Page>, roles: Roles, d: nat, base: nat)
    ensures Loaded(m, roles, m, roles, d, base, [])
  {
  }

  lemma LoadedOne(m0: seq<Page>, r0: Roles, m: seq<Page>, r: Roles, n: seq<Page>, s: Roles, d: nat, base: nat,
                  c: seq<Page>, f: nat)
    requires Loaded(m0, r0, m, r, d, base, c) && Grown(m, r, n, s, d) && IsDirectory(r, d)
    requires Tables(m, r)
    requires START <= f < |n| <= MAX_FRAMES && f !in r
    requires Flat(n, d) == Flat(m, d)[base + |c| := MakeEntry(f, PRESENT + USER + READ_WRITE)]
    ensures Loaded(m0, r0, n, s, d, base, c + [n[f]])
  {
    hide Tables;
    hide Grown;
    hide Flat;
    hide Fresh;
    hide Same;
    hide PageAt;
    var b := c + [n[f]];
    GrownTransitive(m0, r0, m, r, n, s, d);
    OldFrames(m0, r0, m, r, d);
    SameLength(m, r, n, s, d);
    NowFresh(n, r0, d, base + |c|, f);
    forall p: nat | p != base + |c| ensures Same(m, n, d, p) {
      GrownKeepsPage(m, r, n, s, d, d, p);
    }
    forall p: nat | base <= p < base + |b| ensures Fresh(n, r0, d, p) && PageAt(n, d, p) == b[p - base] {
      if p < base + |c| {
        assert Fresh(m, r0, d, p) && PageAt(m, d, p) == c[p - base];
        StillFresh(m, n, r0, d, p);
      }
    }
    forall p: nat | p < base || base + |b| <= p ensures Same(m0, n, d, p) {
      SameTransitive(m0, m, n, d, p);
    }
  }

  lemma NowFresh(m: seq<Page>, before: Roles, d: nat, p: nat, f: nat)
    requires START <= f < |m| <= MAX_FRAMES && f !in before
    requires p in Flat(m, d) && Flat(m, d)[p] == MakeEntry(f, PRESENT + USER + READ_WRITE)
    ensures Fresh(m, before, d, p) && PageAt(m, d, p) == m[f]
  {
  }

  lemma StillFresh(m: seq<Page>, n: seq<Page>, before: Roles, d: nat, p: nat)
    requires Fresh(m, before, d, p) && Same(m, n, d, p) && |m| == |n|
    ensures Fresh(n, before, d, p) && PageAt(n, d, p) == PageAt(m, d, p)
  {
  }

  lemma SameTransitive(m: seq<Page>, n: seq<Page>, o: seq<Page>, d: nat, p: nat)
    requires Same(m, n, d, p) && Same(n, o, d, p)
    ensures Same(m, o, d, p)
  {
  }

  lemma OldFrames(m: seq<Page>, r: Roles, n: seq<Page>, s: Roles, d: nat)
    requires Grown(m, r, n, s, d)
    ensures forall f :: f in r ==> f in s
    ensures forall e :: IsDirectory(r, e) ==> IsDirectory(s, e)
  {
  }

  lemma SameLength(m: seq<Page>, r: Roles, n: seq<Page>, s: Roles, d: nat)
    requires Grown(m, r, n, s, d)
    ensures |m| == |n|
  {
  }
}
