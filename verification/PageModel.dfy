/** Physical page frames as src/page.c uses them: free frames linked through their first word,
    and two-level page tables (Intel SDM Vol. 3A, section 4.3: 32-bit paging). Every frame in
    use has one role, so that no frame serves two purposes. */
module PageModel {
  import opened Bytes

  const PAGE: nat := 4096
  const ENTRIES: nat := 1024
  const START: nat := 1536          // PAGE_START / PAGE_SIZE, 6 MB
  const MAX_FRAMES: nat := 0x10_0000 // 4 GB

  type Page = s: seq<Word> | |s| == 1024 witness seq(1024, _ => 0)

  const PRESENT: nat := 1
  const READ_WRITE: nat := 2
  const USER: nat := 4

  predicate Present(w: Word) {
    w % 2 == 1
  }

  /** The frame an entry or a link refers to: `w & PAGE_ADDRESS_MASK`, as a frame number. */
  function FrameOf(w: Word): nat {
    w / PAGE
  }

  /** `address | flags` for the page-aligned address of frame `f`. */
  function MakeEntry(f: nat, flags: nat): (w: Word)
    requires f < MAX_FRAMES && flags < PAGE
    ensures FrameOf(w) == f && w % PAGE == flags
    ensures Present(w) <==> flags % 2 == 1
  {
    PAGE * f + flags
  }

  /** What a frame in use is used for; page (i, j) is page number 1024 * i + j. */
  datatype Role =
    | Loose                           // handed out, not in any page table
    | Directory
    | Table(d: nat, i: nat)           // the i-th page table of directory d
    | Mapped(d: nat, i: nat, j: nat)  // mapped by directory d at page (i, j)

  type Roles = map<nat, Role>

  // ----- the free list -----

  function Link(chain: seq<nat>, k: nat): nat {
    if k < |chain| then chain[k] else 0
  }

  ghost predicate FreeChain(m: seq<Page>, head: nat, chain: seq<nat>) {
    && head == Link(chain, 0)
    && (forall k :: 0 <= k < |chain| ==> START <= chain[k] < |m|)
    && (forall k {:trigger m[chain[k]]} :: 0 <= k < |chain| ==> m[chain[k]][0] == PAGE * Link(chain, k + 1))
    && (forall k, l :: 0 <= k < l < |chain| ==> chain[k] != chain[l])
  }

  /** Below `end`, each frame is either in use or on the free list. */
  ghost predicate Accounted(roles: Roles, chain: seq<nat>, end: nat) {
    && (forall f :: f in roles ==> START <= f < end && f !in chain)
    && (forall f :: f in chain ==> START <= f < end)
    && (forall f :: START <= f < end ==> f in roles || f in chain)
  }

  // ----- page tables -----

  /** The table entry for page (i, j) of directory `d`, or 0 if there is no such table. */
  function Entry(m: seq<Page>, d: nat, i: nat, j: nat): Word
    requires i < ENTRIES && j < ENTRIES
  {
    if d < |m| && Present(m[d][i]) && FrameOf(m[d][i]) < |m| then m[FrameOf(m[d][i])][j] else 0
  }

  ghost predicate IsDirectory(roles: Roles, d: nat) {
    d in roles && roles[d] == Directory
  }

  /** Directories refer to their own tables only, and tables to their own frames or to memory
      outside the allocator's reach. */
  ghost predicate Tables(m: seq<Page>, roles: Roles) {
    && (forall f :: f in roles ==> START <= f < |m|)
    && (forall d: nat, i: nat :: IsDirectory(roles, d) && 0 <= i < ENTRIES && Present(m[d][i]) ==>
          FrameOf(m[d][i]) in roles && roles[FrameOf(m[d][i])] == Table(d, i))
    && (forall t :: t in roles && roles[t].Table? ==>
          IsDirectory(roles, roles[t].d) && roles[t].i < ENTRIES
          && Present(m[roles[t].d][roles[t].i]) && FrameOf(m[roles[t].d][roles[t].i]) == t)
    && (forall t, j :: t in roles && roles[t].Table? && 0 <= j < ENTRIES && Present(m[t][j]) ==>
          FrameOf(m[t][j]) < START
          || (FrameOf(m[t][j]) in roles && roles[FrameOf(m[t][j])] == Mapped(roles[t].d, roles[t].i, j)))
    && (forall f :: f in roles && roles[f].Mapped? ==>
          IsDirectory(roles, roles[f].d) && roles[f].i < ENTRIES && roles[f].j < ENTRIES
          && Present(Entry(m, roles[f].d, roles[f].i, roles[f].j))
          && FrameOf(Entry(m, roles[f].d, roles[f].i, roles[f].j)) == f)
  }

  /** The frames that hold directories and tables are the same in `m` and `n`. */
  ghost predicate SameTables(m: seq<Page>, n: seq<Page>, roles: Roles) {
    |m| == |n| && forall f :: f in roles && f < |m| && (roles[f].Directory? || roles[f].Table?) ==> n[f] == m[f]
  }

  lemma TablesFrame(m: seq<Page>, n: seq<Page>, roles: Roles)
    requires Tables(m, roles) && SameTables(m, n, roles)
    ensures Tables(n, roles)
    ensures forall d: nat, i: nat, j: nat :: IsDirectory(roles, d) && 0 <= i < ENTRIES && 0 <= j < ENTRIES ==>
              Entry(n, d, i, j) == Entry(m, d, i, j)
  {
    forall d: nat, i: nat, j: nat | IsDirectory(roles, d) && 0 <= i < ENTRIES && 0 <= j < ENTRIES
      ensures Entry(n, d, i, j) == Entry(m, d, i, j)
    {
      if Present(m[d][i]) { assert roles[FrameOf(m[d][i])] == Table(d, i); }
    }
  }

  /** A frame that nobody refers to may come and go. */
  lemma TablesLoose(m: seq<Page>, roles: Roles, f: nat)
    requires Tables(m, roles) && f !in roles && f < |m| && f >= START
    ensures Tables(m, roles[f := Loose])
  {
  }

  /** A fresh, empty table is entered into a directory: no page becomes mapped by that. */
  lemma InstallTable(m: seq<Page>, roles: Roles, d: nat, i: nat, t: nat, w: Word)
    requires Tables(m, roles) && IsDirectory(roles, d) && i < ENTRIES && !Present(m[d][i])
    requires t in roles && roles[t] == Loose && (forall j :: 0 <= j < ENTRIES ==> m[t][j] == 0)
    requires Present(w) && FrameOf(w) == t
    ensures Tables(m[d := m[d][i := w]], roles[t := Table(d, i)])
    ensures forall e: nat, k: nat, j: nat :: IsDirectory(roles, e) && k < ENTRIES && j < ENTRIES ==>
              Entry(m[d := m[d][i := w]], e, k, j) == Entry(m, e, k, j)
  {
    var n := m[d := m[d][i := w]];
    assert n[t] == m[t];
    forall e: nat, k: nat, j: nat | IsDirectory(roles, e) && k < ENTRIES && j < ENTRIES
      ensures Entry(n, e, k, j) == Entry(m, e, k, j)
    {
      if e == d && k == i {
        assert FrameOf(n[e][k]) == t;
      } else {
        assert n[e][k] == m[e][k];
        if Present(m[e][k]) { assert roles[FrameOf(m[e][k])] == Table(e, k); }
      }
    }
  }

  /** Writing the entry of one page changes what that page of that directory maps, and no other. */
  lemma OneEntry(m: seq<Page>, roles: Roles, t: nat, j: nat, w: Word)
    requires Tables(m, roles) && t in roles && roles[t].Table? && j < ENTRIES
    ensures var d, i := roles[t].d, roles[t].i;
      && Entry(m[t := m[t][j := w]], d, i, j) == w && Entry(m, d, i, j) == m[t][j]
      && forall e: nat, k: nat, l: nat ::
              IsDirectory(roles, e) && k < ENTRIES && l < ENTRIES && (e, k, l) != (d, i, j) ==>
              Entry(m[t := m[t][j := w]], e, k, l) == Entry(m, e, k, l)
  {
  }

  lemma SetMapping(m: seq<Page>, roles: Roles, t: nat, j: nat, f: nat, w: Word)
    requires Tables(m, roles) && t in roles && roles[t].Table? && j < ENTRIES
    requires Present(w) && FrameOf(w) == f && (f < START || (f in roles && roles[f] == Loose))
    requires Present(m[t][j]) ==> FrameOf(m[t][j]) < START
    ensures Tables(m[t := m[t][j := w]], if f < START then roles else roles[f := Mapped(roles[t].d, roles[t].i, j)])
  {
    OneEntry(m, roles, t, j, w);
    var n := m[t := m[t][j := w]];
    var now := if f < START then roles else roles[f := Mapped(roles[t].d, roles[t].i, j)];
    forall g | g in now && now[g].Mapped?
      ensures Present(Entry(n, now[g].d, now[g].i, now[g].j)) && FrameOf(Entry(n, now[g].d, now[g].i, now[g].j)) == g
    {
      if g in roles && roles[g].Mapped? {
        assert now[g] == roles[g];
        assert FrameOf(Entry(m, roles[g].d, roles[g].i, roles[g].j)) == g;
      }
    }
  }

  lemma ClearMapping(m: seq<Page>, roles: Roles, t: nat, j: nat)
    requires Tables(m, roles) && t in roles && roles[t].Table? && j < ENTRIES
    requires Present(m[t][j]) && FrameOf(m[t][j]) >= START
    ensures Tables(m[t := m[t][j := 0]], roles - {FrameOf(m[t][j])})
  {
    OneEntry(m, roles, t, j, 0);
    var n := m[t := m[t][j := 0]];
    var f := FrameOf(m[t][j]);
    var now := roles - {f};
    assert roles[f] == Mapped(roles[t].d, roles[t].i, j);
    forall g | g in now && now[g].Mapped?
      ensures Present(Entry(n, now[g].d, now[g].i, now[g].j)) && FrameOf(Entry(n, now[g].d, now[g].i, now[g].j)) == g
    {
      assert FrameOf(Entry(m, roles[g].d, roles[g].i, roles[g].j)) == g;
    }
  }

  /** The frames that serve directory `d`. */
  predicate Serves(role: Role, d: nat) {
    (role.Table? && role.d == d) || (role.Mapped? && role.d == d)
  }

  ghost function Without(roles: Roles, d: nat): Roles {
    map f | f in roles && f != d && !Serves(roles[f], d) :: roles[f]
  }

  /** What is left when directory `d` and its tables are gone: the frames that it mapped stay in
      use, but belong to nobody. */
  ghost function Stranded(roles: Roles, d: nat): Roles {
    map f | f in roles && f != d && !(roles[f].Table? && roles[f].d == d) ::
      if roles[f].Mapped? && roles[f].d == d then Loose else roles[f]
  }

  lemma NothingStranded(roles: Roles, d: nat)
    requires forall f :: f in roles && roles[f].Mapped? ==> roles[f].d != d
    ensures Stranded(roles, d) == Without(roles, d)
  {
  }

  /** A directory can be dropped together with its tables. */
  lemma DropDirectory(m: seq<Page>, n: seq<Page>, roles: Roles, d: nat)
    requires Tables(m, roles) && IsDirectory(roles, d)
    requires SameTables(m, n, Stranded(roles, d))
    ensures Tables(n, Stranded(roles, d))
    ensures forall e: nat, i: nat, j: nat :: IsDirectory(roles, e) && e != d && i < ENTRIES && j < ENTRIES ==>
              Entry(n, e, i, j) == Entry(m, e, i, j)
  {
    StrandedTables(m, roles, d);
    hide Tables;
    TablesFrame(m, n, Stranded(roles, d));
  }

  lemma StrandedTables(m: seq<Page>, roles: Roles, d: nat)
    requires Tables(m, roles) && IsDirectory(roles, d)
    ensures Tables(m, Stranded(roles, d))
    ensures forall e :: IsDirectory(Stranded(roles, d), e) <==> IsDirectory(roles, e) && e != d
  {
  }
}
