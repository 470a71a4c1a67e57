/**
 Renaming a tree on disk and re-indexing it: the head row is moved by its global id, every node below
 by its file id. If tables and disk agreed before, they agree afterwards, whatever the order of the walk.
 */
module DirectoryMove {
  import opened Common
  import opened Disk
  import opened Records
  import opened Schema

  /** Where `p` ends up when the tree at `from` is renamed to `to`. */
  function Rebase(p: Path, from: Path, to: Path): Path
    requires from <= p
  {
    to + p[|from|..]
  }

  lemma RebaseBack(p: Path, from: Path, to: Path)
    requires from <= p
    ensures to <= Rebase(p, from, to) && Rebase(Rebase(p, from, to), to, from) == p
  {
    assert Rebase(p, from, to)[..|to|] == to;
    assert Rebase(p, from, to)[|to|..] == p[|from|..];
    assert from + p[|from|..] == p;
  }

  /** `q` is where some node of the tree at `from` ends up. */
  predicate Lands(disk: map<Path, Node>, q: Path, from: Path, to: Path) {
    to <= q && Rebase(q, to, from) in disk
  }

  function Renamed(disk: map<Path, Node>, from: Path, to: Path): map<Path, Node> {
    var landed := map q | q in (set p | p in disk && from <= p :: Rebase(p, from, to)) && Lands(disk, q, from, to)
                    :: disk[Rebase(q, to, from)];
    (map p | p in disk && !(from <= p) :: disk[p]) + landed
  }

  lemma RenamedAt(disk: map<Path, Node>, from: Path, to: Path, q: Path)
    requires forall p :: p in disk ==> !(to <= p)
    ensures q in Renamed(disk, from, to) <==> (q in disk && !(from <= q)) || Lands(disk, q, from, to)
    ensures q in disk && !(from <= q) ==> Renamed(disk, from, to)[q] == disk[q]
    ensures Lands(disk, q, from, to) ==> Renamed(disk, from, to)[q] == disk[Rebase(q, to, from)]
  {
    if Lands(disk, q, from, to) {
      var p := Rebase(q, to, from);
      assert p[..|from|] == from;
      RebaseBack(q, to, from);
      assert q == Rebase(p, from, to);
    }
  }

  predicate RowAt(t: Tables, g: nat, p: Path, fileId: nat) {
    g in t.files && t.files[g].path == p && t.files[g].fileId == fileId
  }

  predicate Carries(t: Tables, g: nat, fileId: nat) {
    g in t.files && t.files[g].fileId == fileId
  }

  /** Every node on disk has a row at its path that carries its file id. */
  ghost predicate InStep(t: Tables, disk: map<Path, Node>) {
    forall p :: p in disk ==> exists g :: RowAt(t, g, p, disk[p].fileId)
  }

  /** No two rows carry the file id of the same node. */
  ghost predicate OneRowPerNode(t: Tables, disk: map<Path, Node>) {
    forall p, g, h :: p in disk && Carries(t, g, disk[p].fileId) && Carries(t, h, disk[p].fileId) ==> g == h
  }

  /** Distinct nodes have distinct file ids: their rows differ. */
  lemma DistinctNodes(t: Tables, disk: map<Path, Node>, p: Path, q: Path)
    requires InStep(t, disk) && OneRowPerNode(t, disk) && p in disk && q in disk
    requires disk[p].fileId == disk[q].fileId
    ensures p == q
  {
    var g :| RowAt(t, g, p, disk[p].fileId);
    var h :| RowAt(t, h, q, disk[q].fileId);
    assert Carries(t, g, disk[p].fileId) && Carries(t, h, disk[p].fileId);
  }

  /** The tables after the head of the tree was renamed. */
  function MoveHead(t: Tables, m: MovedDto, mtime: int): Tables {
    UpdateFilePlace(UpdateLinkPlace(t, m.globalId, m.cloud, m.cloudFileId, m.mtime, m.newParentId), m.globalId, m.newPath, mtime)
  }

  /** One visit: the row found by the node's file id takes the node's path. */
  function Visit(t: Tables, disk: map<Path, Node>, p: Path): Tables {
    if p !in disk then t
    else
      var g := FindByFileId(t, disk[p].fileId);
      if g.None? then t else UpdateFilePlace(t, g.value, p, disk[p].mtime)
  }

  function WalkAlong(t: Tables, disk: map<Path, Node>, order: seq<Path>): Tables
    decreases |order|
  {
    if order == [] then t else Visit(WalkAlong(t, disk, order[..|order| - 1]), disk, order[|order| - 1])
  }

  /** The row of a node that the walk has visited, and of one it has not. */
  ghost predicate Follows(row: FileRow, row': FileRow, disk: map<Path, Node>, seen: set<Path>) {
    && row' == row.(path := row'.path, mtime := row'.mtime)
    && (forall p :: p in seen && p in disk && disk[p].fileId == row.fileId ==> row'.path == p && row'.mtime == disk[p].mtime)
    && ((forall p :: p in seen && p in disk ==> disk[p].fileId != row.fileId) ==> row' == row)
  }

  /** What the walk has done once it has visited `seen`: rows of visited nodes follow their node. */
  ghost predicate Walked(t: Tables, t': Tables, disk: map<Path, Node>, seen: set<Path>) {
    && t' == t.(files := t'.files)
    && t'.files.Keys == t.files.Keys
    && forall g :: g in t.files ==> Follows(t.files[g], t'.files[g], disk, seen)
  }

  /** Before the walk: every node has one row by file id, whatever its path says. */
  ghost predicate RowsByNode(t: Tables, disk: map<Path, Node>) {
    && (forall p :: p in disk ==> exists g: nat :: Carries(t, g, disk[p].fileId))
    && OneRowPerNode(t, disk)
    && (forall p, q :: p in disk && q in disk && disk[p].fileId == disk[q].fileId ==> p == q)
  }

  lemma WalkFinds(t: Tables, t': Tables, disk: map<Path, Node>, seen: set<Path>, p: Path)
    requires Integrity(t) && RowsByNode(t, disk) && Walked(t, t', disk, seen) && p in disk
    ensures FindByFileId(t', disk[p].fileId).Some?
    ensures Carries(t, FindByFileId(t', disk[p].fileId).value, disk[p].fileId)
  {
    var g: nat :| Carries(t, g, disk[p].fileId);
    assert Follows(t.files[g], t'.files[g], disk, seen);
    var r := FindByFileId(t', disk[p].fileId);
    assert g in t'.files && g <= t'.lastId;
    assert Follows(t.files[r.value], t'.files[r.value], disk, seen);
  }

  lemma FollowsMore(row: FileRow, row': FileRow, disk: map<Path, Node>, seen: set<Path>, p: Path)
    requires Follows(row, row', disk, seen) && p in disk && disk[p].fileId != row.fileId
    ensures Follows(row, row', disk, seen + {p})
  {
  }

  lemma FollowsNow(row: FileRow, row': FileRow, disk: map<Path, Node>, seen: set<Path>, p: Path)
    requires Follows(row, row', disk, seen) && p in disk && disk[p].fileId == row.fileId
    requires forall q, r :: q in disk && r in disk && disk[q].fileId == disk[r].fileId ==> q == r
    ensures Follows(row, row'.(path := p, mtime := disk[p].mtime), disk, seen + {p})
  {
  }

  lemma WalkStep(t: Tables, t': Tables, disk: map<Path, Node>, seen: set<Path>, p: Path)
    requires Integrity(t) && RowsByNode(t, disk) && Walked(t, t', disk, seen) && p in disk
    ensures Walked(t, Visit(t', disk, p), disk, seen + {p})
  {
    WalkFinds(t, t', disk, seen, p);
    var g := FindByFileId(t', disk[p].fileId).value;
    FollowsNow(t.files[g], t'.files[g], disk, seen, p);
    forall h | h in t.files && h != g
      ensures Follows(t.files[h], t'.files[h], disk, seen + {p})
    {
      assert !Carries(t, h, disk[p].fileId);
      FollowsMore(t.files[h], t'.files[h], disk, seen, p);
    }
  }

  function Nodes(order: seq<Path>): set<Path> {
    set p | p in order
  }

  lemma NodesMore(order: seq<Path>)
    requires order != []
    ensures Nodes(order) == Nodes(order[..|order| - 1]) + {order[|order| - 1]}
  {
    assert order == order[..|order| - 1] + [order[|order| - 1]];
  }

  lemma WalkedNothing(t: Tables, disk: map<Path, Node>)
    ensures Walked(t, t, disk, Nodes([]))
  {
  }

  /** Whatever the order of the visits, each row ends where its node is. */
  lemma {:induction false} WalkIsOrderIndependent(t: Tables, disk: map<Path, Node>, order: seq<Path>)
    requires Integrity(t) && RowsByNode(t, disk) && Nodes(order) <= disk.Keys
    ensures Walked(t, WalkAlong(t, disk, order), disk, Nodes(order))
    decreases |order|
  {
    if order == [] {
      WalkedNothing(t, disk);
    } else {
      var front, p := order[..|order| - 1], order[|order| - 1];
      NodesMore(order);
      WalkIsOrderIndependent(t, disk, front);
      WalkStep(t, WalkAlong(t, disk, front), disk, Nodes(front), p);
    }
  }

  function Below(disk: map<Path, Node>, dir: Path): set<Path> {
    set p | p in disk && dir < p
  }

  /** The tables and the disk agree, the payload names the moved row, and the target is free. */
  ghost predicate MoveFits(t: Tables, disk: map<Path, Node>, m: MovedDto) {
    && InStep(t, disk)
    && OneRowPerNode(t, disk)
    && Integrity(t)
    && m.oldPath in disk
    && RowAt(t, m.globalId, m.oldPath, disk[m.oldPath].fileId)
    && !(m.oldPath <= m.newPath)
    && (forall p :: p in disk ==> !(m.newPath <= p))
    && (Below(disk, m.oldPath) != {} ==> disk[m.oldPath].folder)
  }

  lemma HeadLands(disk: map<Path, Node>, m: MovedDto)
    requires m.oldPath in disk
    ensures m.newPath in Renamed(disk, m.oldPath, m.newPath)
    ensures Renamed(disk, m.oldPath, m.newPath)[m.newPath] == disk[m.oldPath]
  {
    assert Rebase(m.newPath, m.newPath, m.oldPath) == m.oldPath;
    assert Rebase(m.oldPath, m.oldPath, m.newPath) == m.newPath;
  }

  lemma NothingBelow(disk: map<Path, Node>, m: MovedDto)
    requires m.oldPath in disk && !disk[m.oldPath].folder
    requires forall p :: p in disk ==> !(m.newPath <= p)
    requires Below(disk, m.oldPath) != {} ==> disk[m.oldPath].folder
    ensures Below(Renamed(disk, m.oldPath, m.newPath), m.newPath) == {}
  {
    forall q | q in Renamed(disk, m.oldPath, m.newPath)
      ensures !(m.newPath < q)
    {
      RenamedAt(disk, m.oldPath, m.newPath, q);
      assert m.newPath <= q ==> Rebase(q, m.newPath, m.oldPath) !in Below(disk, m.oldPath);
    }
  }

  /** Where a node of the renamed disk was before. */
  function Origin(q: Path, m: MovedDto): Path {
    if m.newPath <= q then Rebase(q, m.newPath, m.oldPath) else q
  }

  lemma OriginOf(disk: map<Path, Node>, m: MovedDto, q: Path)
    requires forall p :: p in disk ==> !(m.newPath <= p)
    requires q in Renamed(disk, m.oldPath, m.newPath)
    ensures Origin(q, m) in disk && disk[Origin(q, m)] == Renamed(disk, m.oldPath, m.newPath)[q]
    ensures m.oldPath <= Origin(q, m) <==> m.newPath <= q
  {
    RenamedAt(disk, m.oldPath, m.newPath, q);
    if m.newPath <= q {
      RebaseBack(q, m.newPath, m.oldPath);
    }
  }

  lemma SameOrigin(q: Path, r: Path, m: MovedDto)
    requires Origin(q, m) == Origin(r, m)
    requires m.oldPath <= Origin(q, m) <==> m.newPath <= q
    requires m.oldPath <= Origin(r, m) <==> m.newPath <= r
    ensures q == r
  {
    if m.newPath <= q {
      RebaseBack(q, m.newPath, m.oldPath);
      RebaseBack(r, m.newPath, m.oldPath);
    }
  }

  lemma OriginUnique(t: Tables, disk: map<Path, Node>, m: MovedDto, q: Path, r: Path)
    requires MoveFits(t, disk, m)
    requires q in Renamed(disk, m.oldPath, m.newPath) && r in Renamed(disk, m.oldPath, m.newPath)
    requires Renamed(disk, m.oldPath, m.newPath)[q].fileId == Renamed(disk, m.oldPath, m.newPath)[r].fileId
    ensures q == r
  {
    OriginOf(disk, m, q);
    OriginOf(disk, m, r);
    DistinctNodes(t, disk, Origin(q, m), Origin(r, m));
    SameOrigin(q, r, m);
  }

  lemma HeadCarries(t: Tables, m: MovedDto, mtime: int, g: nat, fileId: nat)
    ensures Carries(MoveHead(t, m, mtime), g, fileId) <==> Carries(t, g, fileId)
  {
  }

  lemma NodeHasRow(t: Tables, disk: map<Path, Node>, m: MovedDto, q: Path)
    requires MoveFits(t, disk, m) && q in Renamed(disk, m.oldPath, m.newPath)
    ensures exists g: nat ::
              Carries(MoveHead(t, m, disk[m.oldPath].mtime), g, Renamed(disk, m.oldPath, m.newPath)[q].fileId)
  {
    OriginOf(disk, m, q);
    var f := Renamed(disk, m.oldPath, m.newPath)[q].fileId;
    var g: nat :| RowAt(t, g, Origin(q, m), f);
    HeadCarries(t, m, disk[m.oldPath].mtime, g, f);
  }

  lemma NodeHasOneRow(t: Tables, disk: map<Path, Node>, m: MovedDto, q: Path, g: nat, h: nat)
    requires MoveFits(t, disk, m) && q in Renamed(disk, m.oldPath, m.newPath)
    requires Carries(MoveHead(t, m, disk[m.oldPath].mtime), g, Renamed(disk, m.oldPath, m.newPath)[q].fileId)
    requires Carries(MoveHead(t, m, disk[m.oldPath].mtime), h, Renamed(disk, m.oldPath, m.newPath)[q].fileId)
    ensures g == h
  {
    OriginOf(disk, m, q);
    var f := Renamed(disk, m.oldPath, m.newPath)[q].fileId;
    HeadCarries(t, m, disk[m.oldPath].mtime, g, f);
    HeadCarries(t, m, disk[m.oldPath].mtime, h, f);
  }

  lemma RowsAfterRename(t: Tables, disk: map<Path, Node>, m: MovedDto)
    requires MoveFits(t, disk, m)
    ensures RowsByNode(MoveHead(t, m, disk[m.oldPath].mtime), Renamed(disk, m.oldPath, m.newPath))
  {
    var disk' := Renamed(disk, m.oldPath, m.newPath);
    var t' := MoveHead(t, m, disk[m.oldPath].mtime);
    forall q | q in disk'
      ensures exists g: nat :: Carries(t', g, disk'[q].fileId)
    {
      NodeHasRow(t, disk, m, q);
    }
    forall q, g, h | q in disk' && Carries(t', g, disk'[q].fileId) && Carries(t', h, disk'[q].fileId)
      ensures g == h
    {
      NodeHasOneRow(t, disk, m, q, g, h);
    }
    forall q, r | q in disk' && r in disk' && disk'[q].fileId == disk'[r].fileId
      ensures q == r
    {
      OriginUnique(t, disk, m, q, r);
    }
  }

  /** The nodes the walk visits once the head is renamed. */
  function Visited(disk: map<Path, Node>, dir: Path): set<Path> {
    if dir in disk && disk[dir].folder then Below(disk, dir) else {}
  }

  function MovedTables(t: Tables, disk: map<Path, Node>, m: MovedDto, order: seq<Path>): Tables
    requires m.oldPath in disk
  {
    WalkAlong(MoveHead(t, m, disk[m.oldPath].mtime), Renamed(disk, m.oldPath, m.newPath), order)
  }

  /** Where a row belongs after the move: below the moved node exactly the prefix is replaced. */
  function NewPlace(p: Path, m: MovedDto): Path {
    if m.oldPath <= p then Rebase(p, m.oldPath, m.newPath) else p
  }

  function LinksAfterMove(t: Tables, m: MovedDto): map<(nat, nat), LinkRow> {
    if (m.globalId, m.cloud) !in t.links then t.links
    else
      var link := t.links[(m.globalId, m.cloud)];
      t.links[(m.globalId, m.cloud) := LinkRow(m.cloudFileId, m.newParentId, m.mtime, link.hash, link.size)]
  }

  predicate HasNode(t: Tables, disk: map<Path, Node>, g: nat) {
    g in t.files && t.files[g].path in disk && disk[t.files[g].path].fileId == t.files[g].fileId
  }

  lemma HeadKeepsRows(t: Tables, m: MovedDto, mtime: int)
    requires Integrity(t)
    ensures Integrity(MoveHead(t, m, mtime))
    ensures MoveHead(t, m, mtime).files.Keys == t.files.Keys
    ensures forall g :: g in t.files ==> MoveHead(t, m, mtime).files[g].fileId == t.files[g].fileId
    ensures forall g :: g in t.files && g != m.globalId ==> MoveHead(t, m, mtime).files[g] == t.files[g]
  {
  }

  lemma WalkVisitsAllBelow(disk: map<Path, Node>, m: MovedDto, order: seq<Path>)
    requires m.oldPath in disk && forall p :: p in disk ==> !(m.newPath <= p)
    requires Below(disk, m.oldPath) != {} ==> disk[m.oldPath].folder
    requires Lists(order, Visited(Renamed(disk, m.oldPath, m.newPath), m.newPath))
    ensures Nodes(order) == Below(Renamed(disk, m.oldPath, m.newPath), m.newPath)
  {
    HeadLands(disk, m);
    if !disk[m.oldPath].folder {
      NothingBelow(disk, m);
    }
  }

  lemma MovedTablesWalked(t: Tables, disk: map<Path, Node>, m: MovedDto, order: seq<Path>)
    requires MoveFits(t, disk, m)
    requires Lists(order, Visited(Renamed(disk, m.oldPath, m.newPath), m.newPath))
    ensures Walked(MoveHead(t, m, disk[m.oldPath].mtime), MovedTables(t, disk, m, order),
                   Renamed(disk, m.oldPath, m.newPath), Below(Renamed(disk, m.oldPath, m.newPath), m.newPath))
  {
    RowsAfterRename(t, disk, m);
    HeadKeepsRows(t, m, disk[m.oldPath].mtime);
    WalkVisitsAllBelow(disk, m, order);
    WalkIsOrderIndependent(MoveHead(t, m, disk[m.oldPath].mtime), Renamed(disk, m.oldPath, m.newPath), order);
  }

  lemma WalkedTo(t: Tables, t': Tables, disk: map<Path, Node>, seen: set<Path>, g: nat, q: Path)
    requires Walked(t, t', disk, seen) && g in t.files
    requires q in seen && q in disk && disk[q].fileId == t.files[g].fileId
    ensures g in t'.files && t'.files[g] == t.files[g].(path := q, mtime := disk[q].mtime)
  {
    assert Follows(t.files[g], t'.files[g], disk, seen);
  }

  /** Where the node of a row is after the rename. */
  lemma NodeMoves(t: Tables, disk: map<Path, Node>, m: MovedDto, g: nat)
    requires MoveFits(t, disk, m) && HasNode(t, disk, g)
    ensures NewPlace(t.files[g].path, m) in Renamed(disk, m.oldPath, m.newPath)
    ensures Renamed(disk, m.oldPath, m.newPath)[NewPlace(t.files[g].path, m)] == disk[t.files[g].path]
  {
    var p := t.files[g].path;
    RenamedAt(disk, m.oldPath, m.newPath, NewPlace(p, m));
    if m.oldPath <= p {
      RebaseBack(p, m.oldPath, m.newPath);
    }
  }

  /** Only the row of the node at `q` carries that node's file id. */
  lemma VisitedElsewhere(t: Tables, disk: map<Path, Node>, m: MovedDto, g: nat, q: Path)
    requires MoveFits(t, disk, m) && g in t.files && q in Renamed(disk, m.oldPath, m.newPath)
    requires Renamed(disk, m.oldPath, m.newPath)[q].fileId == t.files[g].fileId
    ensures HasNode(t, disk, g) && q == NewPlace(t.files[g].path, m)
  {
    OriginOf(disk, m, q);
    var p := Origin(q, m);
    var h: nat :| RowAt(t, h, p, disk[p].fileId);
    assert Carries(t, g, disk[p].fileId) && Carries(t, h, disk[p].fileId);
    if m.newPath <= q {
      RebaseBack(q, m.newPath, m.oldPath);
    }
  }

  lemma RowBelowMoves(t: Tables, disk: map<Path, Node>, m: MovedDto, order: seq<Path>, g: nat)
    requires MoveFits(t, disk, m) && HasNode(t, disk, g) && m.oldPath < t.files[g].path
    requires Lists(order, Visited(Renamed(disk, m.oldPath, m.newPath), m.newPath))
    ensures g in MovedTables(t, disk, m, order).files
    ensures MovedTables(t, disk, m, order).files[g]
            == t.files[g].(path := NewPlace(t.files[g].path, m), mtime := disk[t.files[g].path].mtime)
  {
    MovedTablesWalked(t, disk, m, order);
    NodeMoves(t, disk, m, g);
    HeadKeepsRows(t, m, disk[m.oldPath].mtime);
    var disk', q := Renamed(disk, m.oldPath, m.newPath), NewPlace(t.files[g].path, m);
    WalkedTo(MoveHead(t, m, disk[m.oldPath].mtime), MovedTables(t, disk, m, order),
             disk', Below(disk', m.newPath), g, q);
  }

  lemma NotVisited(t: Tables, disk: map<Path, Node>, m: MovedDto, g: nat, q: Path)
    requires MoveFits(t, disk, m) && g in t.files && q in Below(Renamed(disk, m.oldPath, m.newPath), m.newPath)
    requires !(HasNode(t, disk, g) && m.oldPath < t.files[g].path)
    ensures Renamed(disk, m.oldPath, m.newPath)[q].fileId != t.files[g].fileId
  {
    if Renamed(disk, m.oldPath, m.newPath)[q].fileId == t.files[g].fileId {
      VisitedElsewhere(t, disk, m, g, q);
      OriginOf(disk, m, q);
      assert false;
    }
  }

  lemma RowAboveStays(t: Tables, disk: map<Path, Node>, m: MovedDto, order: seq<Path>, g: nat)
    requires MoveFits(t, disk, m) && g in t.files
    requires !(HasNode(t, disk, g) && m.oldPath < t.files[g].path)
    requires Lists(order, Visited(Renamed(disk, m.oldPath, m.newPath), m.newPath))
    ensures g in MovedTables(t, disk, m, order).files
    ensures MovedTables(t, disk, m, order).files[g] == MoveHead(t, m, disk[m.oldPath].mtime).files[g]
  {
    MovedTablesWalked(t, disk, m, order);
    HeadKeepsRows(t, m, disk[m.oldPath].mtime);
    var disk' := Renamed(disk, m.oldPath, m.newPath);
    var t1 := MoveHead(t, m, disk[m.oldPath].mtime);
    forall q | q in Below(disk', m.newPath)
      ensures disk'[q].fileId != t1.files[g].fileId
    {
      NotVisited(t, disk, m, g, q);
    }
    assert Follows(t1.files[g], MovedTables(t, disk, m, order).files[g], disk', Below(disk', m.newPath));
  }

  /**
   Descendants have exactly their prefix replaced, the moved row has its new path, both take the time of their node,
   the link of the cloud that reported the move takes what it reported, and all else stays.
   */
  lemma DirectoryMoveIsExact(t: Tables, disk: map<Path, Node>, m: MovedDto, order: seq<Path>, g: nat)
    requires MoveFits(t, disk, m) && g in t.files
    requires Lists(order, Visited(Renamed(disk, m.oldPath, m.newPath), m.newPath))
    ensures g in MovedTables(t, disk, m, order).files
    ensures HasNode(t, disk, g) && m.oldPath <= t.files[g].path ==>
              MovedTables(t, disk, m, order).files[g]
              == t.files[g].(path := m.newPath + t.files[g].path[|m.oldPath|..], mtime := disk[t.files[g].path].mtime)
    ensures HasNode(t, disk, g) ==> MovedTables(t, disk, m, order).files[g].path == NewPlace(t.files[g].path, m)
    ensures !HasNode(t, disk, g) || !(m.oldPath <= t.files[g].path) ==>
              MovedTables(t, disk, m, order).files[g] == t.files[g]
    ensures MovedTables(t, disk, m, order).links == LinksAfterMove(t, m)
  {
    WalkKeepsLinks(MoveHead(t, m, disk[m.oldPath].mtime), Renamed(disk, m.oldPath, m.newPath), order);
    if HasNode(t, disk, g) && m.oldPath < t.files[g].path {
      RowBelowMoves(t, disk, m, order, g);
    } else {
      RowAboveStays(t, disk, m, order, g);
      assert HasNode(t, disk, m.globalId);
      if HasNode(t, disk, g) && t.files[g].path == m.oldPath {
        assert Carries(t, g, disk[m.oldPath].fileId) && Carries(t, m.globalId, disk[m.oldPath].fileId);
        assert NewPlace(m.oldPath, m) == m.newPath;
      }
    }
  }

  /** After the rename and the walk, in any order, every node has a row at its path again. */
  lemma DirectoryMoveKeepsAgreement(t: Tables, disk: map<Path, Node>, m: MovedDto, order: seq<Path>)
    requires MoveFits(t, disk, m)
    requires Lists(order, Visited(Renamed(disk, m.oldPath, m.newPath), m.newPath))
    ensures InStep(MovedTables(t, disk, m, order), Renamed(disk, m.oldPath, m.newPath))
  {
    var t', disk' := MovedTables(t, disk, m, order), Renamed(disk, m.oldPath, m.newPath);
    forall q | q in disk'
      ensures exists g :: RowAt(t', g, q, disk'[q].fileId)
    {
      OriginOf(disk, m, q);
      var p := Origin(q, m);
      var g: nat :| RowAt(t, g, p, disk[p].fileId);
      DirectoryMoveIsExact(t, disk, m, order, g);
      if m.newPath <= q {
        RebaseBack(q, m.newPath, m.oldPath);
      }
      assert RowAt(t', g, q, disk'[q].fileId);
    }
  }

  lemma MovedRowCarries(t: Tables, disk: map<Path, Node>, m: MovedDto, order: seq<Path>, g: nat, fileId: nat)
    requires MoveFits(t, disk, m)
    requires Lists(order, Visited(Renamed(disk, m.oldPath, m.newPath), m.newPath))
    requires Carries(MovedTables(t, disk, m, order), g, fileId)
    ensures Carries(t, g, fileId)
  {
    MovedTablesWalked(t, disk, m, order);
    HeadKeepsRows(t, m, disk[m.oldPath].mtime);
    assert g in t.files;
    DirectoryMoveIsExact(t, disk, m, order, g);
  }

  /** File ids stay unique, so that the next move finds the same conditions. */
  lemma DirectoryMoveKeepsOneRow(t: Tables, disk: map<Path, Node>, m: MovedDto, order: seq<Path>)
    requires MoveFits(t, disk, m)
    requires Lists(order, Visited(Renamed(disk, m.oldPath, m.newPath), m.newPath))
    ensures OneRowPerNode(MovedTables(t, disk, m, order), Renamed(disk, m.oldPath, m.newPath))
  {
    var t', disk' := MovedTables(t, disk, m, order), Renamed(disk, m.oldPath, m.newPath);
    forall q, g, h | q in disk' && Carries(t', g, disk'[q].fileId) && Carries(t', h, disk'[q].fileId)
      ensures g == h
    {
      OriginOf(disk, m, q);
      MovedRowCarries(t, disk, m, order, g, disk'[q].fileId);
      MovedRowCarries(t, disk, m, order, h, disk'[q].fileId);
    }
  }

  lemma {:induction false} WalkKeepsLinks(t: Tables, disk: map<Path, Node>, order: seq<Path>)
    ensures WalkAlong(t, disk, order) == t.(files := WalkAlong(t, disk, order).files)
    decreases |order|
  {
    if order != [] {
      WalkKeepsLinks(t, disk, order[..|order| - 1]);
    }
  }
}
