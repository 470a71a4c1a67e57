/**
 What a cloud provider emits for a reported entry, and the tables once that change has run through its
 whole chain. The commands for the other clouds never touch the links of the source cloud, so the source
 sees exactly what the local stage wrote.
 */
module Emission {
  import opened Common
  import opened DirectoryMove
  import opened Disk
  import opened EventRegistry
  import opened LocalStorage
  import opened Propagation
  import opened Records
  import Scheduler
  import opened Schema

  datatype Emitted =
    | Silent
    | EmitNew(record: RecordDto)
    | EmitMove(moved: MovedDto)
    | EmitUpdate(updated: UpdatedDto)
    | EmitMoveUpdate(moved: MovedDto, updated: UpdatedDto)
    | EmitDelete(deleted: DeletedDto)

  /** A change after the registry was asked, and what the registry still expects. */
  datatype Verdict = Verdict(out: Emitted, expected: map<string, ChangeType>)

  function Check(out: Emitted, key: string, ct: ChangeType, m: map<string, ChangeType>): Verdict {
    if Expects(m, key, ct) then Verdict(Silent, Consume(m, key, ct)) else Verdict(out, m)
  }

  function NextId(t: Tables): nat {
    t.lastId + 1
  }

  /** Entries for the synchronised folder itself, or without a path, are passed over. */
  predicate Skipped(p: Path) {
    p == [] || p == ["."]
  }

  /** The change as the scheduler sees it; only a moved file that is also updated carries a dependent. */
  function TaskOf(out: Emitted, id: nat, next: nat): Scheduler.Task
    requires !out.Silent?
  {
    match out
    case EmitNew(r) => Scheduler.Task(id, r.path, New, r.kind, [])
    case EmitMove(m) => Scheduler.Task(id, m.oldPath, Move, m.kind, [])
    case EmitUpdate(u) => Scheduler.Task(id, u.path, Update, u.kind, [])
    case EmitMoveUpdate(m, u) =>
      Scheduler.Task(id, m.oldPath, Move, m.kind, [Scheduler.Task(next, u.path, Update, u.kind, [])])
    case EmitDelete(d) => Scheduler.Task(id, d.path, Delete, Null, [])
  }

  /** The update that comes with a move is for another path than the move itself. */
  predicate MovesAway(out: Emitted) {
    !out.Silent? && (out.EmitMoveUpdate? ==> out.updated.path != out.moved.oldPath)
  }

  lemma MovedAwayCarriesElsewhere(out: Emitted, id: nat, next: nat)
    requires MovesAway(out)
    ensures Scheduler.CarriesElsewhere(TaskOf(out, id, next))
  {
    if out.EmitMoveUpdate? {
      Scheduler.OnOne(TaskOf(out, id, next).attached[0], out.moved.oldPath);
    }
  }

  ghost predicate OwnOnly(ops: seq<Op>, own: map<nat, Op>) {
    forall i :: 0 <= i < |ops| ==> IsOwn(ops[i], own)
  }

  /** The statements of the cloud commands of a change on row `g` from `src`, in some order. */
  ghost predicate Leaves(ops: seq<Op>, own: map<nat, Op>, g: nat, src: nat) {
    OwnStatements(own, g) && src !in own && OwnOnly(ops, own)
  }

  // ---- the tables after each kind of change on a file ------------------------------------------

  ghost predicate NewOutcome(t: Tables, r: RecordDto, n: Node, ops: seq<Op>, t': Tables) {
    LocalNew(t, r, n).Some? && t' == Run(LocalNew(t, r, n).value, ops)
  }

  ghost predicate AppliedNew(t: Tables, r: RecordDto, t': Tables) {
    exists n, own, ops :: Leaves(ops, own, NextId(t), r.cloud) && NewOutcome(t, r, n, ops, t')
  }

  /** The walk below a moved node does not come across the moved row again. */
  ghost predicate Spares(t: Tables, disk: map<Path, Node>, order: seq<Path>, g: nat) {
    forall p :: p in order && p in disk ==> !Carries(t, g, disk[p].fileId)
  }

  /** The head is moved, the rows below follow their nodes in some order, the other clouds answer. */
  ghost predicate AppliedMove(t: Tables, m: MovedDto, t': Tables) {
    exists mtime, disk, order, own, ops ::
      && Leaves(ops, own, m.globalId, m.cloud) && Spares(t, disk, order, m.globalId)
      && t' == Run(WalkAlong(MoveHead(t, m, mtime), disk, order), ops)
  }

  ghost predicate AppliedUpdate(t: Tables, u: UpdatedDto, t': Tables) {
    exists n, own, ops ::
      Leaves(ops, own, u.globalId, u.cloud) && t' == Run(LocalUpdate(t, u, n), ops)
  }

  /** The update of a moved file is a dependent of the move: it runs once the move is complete. */
  ghost predicate Applied(t: Tables, out: Emitted, t': Tables) {
    match out
    case Silent => t' == t
    case EmitNew(r) => AppliedNew(t, r, t')
    case EmitMove(m) => AppliedMove(t, m, t')
    case EmitUpdate(u) => AppliedUpdate(t, u, t')
    case EmitMoveUpdate(m, u) => exists mid :: AppliedMove(t, m, mid) && AppliedUpdate(mid, u, t')
    case EmitDelete(d) => t' == DeleteFileAndLinks(t, d.globalId)
  }

  // ---- what the source cloud sees --------------------------------------------------------------

  /** Same rows, and the same links of cloud `c`. */
  ghost predicate SameView(a: Tables, b: Tables, c: nat) {
    a.files == b.files && a.lastId == b.lastId && forall h :: LinkAt(a, h, c) == LinkAt(b, h, c)
  }

  lemma {:induction false} LeavesAreInvisible(t: Tables, ops: seq<Op>, own: map<nat, Op>, g: nat, src: nat)
    requires Leaves(ops, own, g, src) && Integrity(t)
    ensures SameView(t, Run(t, ops), src) && Integrity(Run(t, ops))
    decreases |ops|
  {
    if ops != [] {
      var t' := Apply(t, ops[0]);
      assert SameView(t, t', src) && Integrity(t');
      LeavesAreInvisible(t', ops[1..], own, g, src);
    }
  }

  lemma SameViewLinks(a: Tables, b: Tables, c: nat, g: nat, id: string)
    requires SameView(a, b, c)
    ensures IsLink(a, g, c, id) <==> IsLink(b, g, c, id)
    ensures (g, c) in a.links <==> (g, c) in b.links
    ensures (g, c) in a.links ==> a.links[(g, c)] == b.links[(g, c)]
  {
    assert LinkAt(a, g, c) == LinkAt(b, g, c);
  }

  lemma SameViewFinds(a: Tables, b: Tables, c: nat, id: string)
    requires SameView(a, b, c) && Integrity(a) && Integrity(b)
    ensures FindLink(a, c, id) == FindLink(b, c, id)
  {
    var r, s := FindLink(a, c, id), FindLink(b, c, id);
    if r.Some? {
      SameViewLinks(a, b, c, r.value, id);
      FoundIsIssued(b, c, r.value, id);
    }
    if s.Some? {
      SameViewLinks(a, b, c, s.value, id);
      FoundIsIssued(a, c, s.value, id);
    }
  }

  lemma FoundIsIssued(t: Tables, c: nat, g: nat, id: string)
    requires Integrity(t) && IsLink(t, g, c, id)
    ensures g in t.files && g <= t.lastId && FindLink(t, c, id).Some? && FindLink(t, c, id).value <= g
  {
    assert (g, c) in t.links;
  }

  /** The source's view once a change is applied is the view the local stage left. */
  lemma NewView(t: Tables, r: RecordDto, t': Tables)
    requires Integrity(t) && AppliedNew(t, r, t')
    ensures exists n :: LocalNew(t, r, n).Some? && SameView(LocalNew(t, r, n).value, t', r.cloud)
    ensures Integrity(t')
  {
    var n, own, ops :| Leaves(ops, own, NextId(t), r.cloud) && NewOutcome(t, r, n, ops, t');
    LeavesAreInvisible(LocalNew(t, r, n).value, ops, own, t.lastId + 1, r.cloud);
  }

  lemma {:induction false} WalkSparesRow(t: Tables, disk: map<Path, Node>, order: seq<Path>, g: nat)
    requires Integrity(t) && Spares(t, disk, order, g) && g in t.files
    ensures var t1 := WalkAlong(t, disk, order);
            && Integrity(t1) && t1 == t.(files := t1.files) && t1.files.Keys == t.files.Keys
            && t1.files[g] == t.files[g]
            && forall h :: h in t.files ==> t1.files[h].fileId == t.files[h].fileId
    decreases |order|
  {
    if order != [] {
      var front := order[..|order| - 1];
      assert order == front + [order[|order| - 1]];
      WalkSparesRow(t, disk, front, g);
      assert order[|order| - 1] in order;
    }
  }

  /** The moved row stands at its new path, and only its link to the source has changed. */
  ghost predicate HeadMoved(t: Tables, m: MovedDto, t1: Tables) {
    && Integrity(t1) && PathOf(t1, m.globalId) == m.newPath
    && t1.links == UpdateLinkPlace(t, m.globalId, m.cloud, m.cloudFileId, m.mtime, m.newParentId).links
  }

  lemma WalkedHead(t: Tables, m: MovedDto, mtime: int, disk: map<Path, Node>, order: seq<Path>)
    requires Integrity(t) && m.globalId in t.files && Spares(t, disk, order, m.globalId)
    ensures HeadMoved(t, m, WalkAlong(MoveHead(t, m, mtime), disk, order))
  {
    HeadKeepsRows(t, m, mtime);
    assert Spares(MoveHead(t, m, mtime), disk, order, m.globalId);
    WalkSparesRow(MoveHead(t, m, mtime), disk, order, m.globalId);
  }

  lemma MoveView(t: Tables, m: MovedDto, t': Tables)
    requires Integrity(t) && AppliedMove(t, m, t') && m.globalId in t.files
    ensures exists t1 :: HeadMoved(t, m, t1) && SameView(t1, t', m.cloud)
    ensures Integrity(t')
  {
    var mtime, disk, order, own, ops :|
      && Leaves(ops, own, m.globalId, m.cloud) && Spares(t, disk, order, m.globalId)
      && t' == Run(WalkAlong(MoveHead(t, m, mtime), disk, order), ops);
    WalkedHead(t, m, mtime, disk, order);
    LeavesAreInvisible(WalkAlong(MoveHead(t, m, mtime), disk, order), ops, own, m.globalId, m.cloud);
  }

  /** The move of a file or of a whole tree, on a disk that agreed with the tables, is applied in this sense. */
  lemma LocalMoveApplies(
      t: Tables, disk: map<Path, Node>, m: MovedDto, order: seq<Path>, own: map<nat, Op>, ops: seq<Op>)
    requires m.cloud != 0 && MoveFits(t, disk, m)
    requires Lists(order, Visited(Renamed(disk, m.oldPath, m.newPath), m.newPath))
    requires Leaves(ops, own, m.globalId, m.cloud)
    ensures AppliedMove(t, m, Run(LocalMove(t, disk, m, order), ops))
  {
    var disk' := Renamed(disk, m.oldPath, m.newPath);
    HeadLands(disk, m);
    forall p | p in order && p in disk'
      ensures !Carries(t, m.globalId, disk'[p].fileId)
    {
      if disk'[p].fileId == disk'[m.newPath].fileId {
        OriginUnique(t, disk, m, p, m.newPath);
        assert false;
      }
    }
    assert Spares(t, disk', order, m.globalId);
  }

  lemma UpdateView(t: Tables, u: UpdatedDto, t': Tables)
    requires Integrity(t) && AppliedUpdate(t, u, t')
    ensures exists n :: SameView(LocalUpdate(t, u, n), t', u.cloud)
    ensures Integrity(t')
  {
    var n, own, ops :| Leaves(ops, own, u.globalId, u.cloud) && t' == Run(LocalUpdate(t, u, n), ops);
    LeavesAreInvisible(LocalUpdate(t, u, n), ops, own, u.globalId, u.cloud);
  }

  // ---- the entry's own row and link afterwards -------------------------------------------------

  /** The link of cloud `c` that carries `id` is found, and its row and link read as given. */
  ghost predicate Known(t: Tables, c: nat, id: string, g: nat, path: Path, link: LinkRow) {
    FindLink(t, c, id) == Some(g) && PathOf(t, g) == path && LinkAt(t, g, c) == Some(link)
  }

  lemma KnownInView(a: Tables, b: Tables, c: nat, id: string, g: nat, path: Path, link: LinkRow)
    requires SameView(a, b, c) && Integrity(a) && Integrity(b) && Known(a, c, id, g, path, link)
    ensures Known(b, c, id, g, path, link)
  {
    SameViewFinds(a, b, c, id);
    assert LinkAt(a, g, c) == LinkAt(b, g, c);
  }

  lemma FirstOfItsId(t: Tables, t1: Tables, g: nat, c: nat, id: string)
    requires Integrity(t) && Integrity(t1) && FindLink(t, c, id).None? && IsLink(t1, g, c, id)
    requires forall h :: h != g ==> LinkAt(t1, h, c) == LinkAt(t, h, c)
    ensures FindLink(t1, c, id) == Some(g)
  {
    FoundIsIssued(t1, c, g, id);
    var f := FindLink(t1, c, id).value;
    if f != g {
      assert LinkAt(t1, f, c) == LinkAt(t, f, c);
      FoundIsIssued(t, c, f, id);
      assert false;
    }
  }

  lemma LocalNewLinks(t: Tables, r: RecordDto, n: Node)
    requires Integrity(t) && LocalNew(t, r, n).Some? && r.cloud != 0
    ensures var t1 := LocalNew(t, r, n).value;
            && Integrity(t1)
            && (forall h :: LinkAt(t1, h, r.cloud) == if h == t.lastId + 1 then Some(LinkOf(r)) else LinkAt(t, h, r.cloud))
            && PathOf(t1, t.lastId + 1) == r.path
  {
  }

  lemma NewIsKnown(t: Tables, r: RecordDto, t': Tables)
    requires Integrity(t) && AppliedNew(t, r, t') && r.cloud != 0 && FindLink(t, r.cloud, r.cloudFileId).None?
    ensures Known(t', r.cloud, r.cloudFileId, t.lastId + 1, r.path, LinkOf(r)) && Integrity(t')
  {
    NewView(t, r, t');
    var n :| LocalNew(t, r, n).Some? && SameView(LocalNew(t, r, n).value, t', r.cloud);
    var t1 := LocalNew(t, r, n).value;
    LocalNewLinks(t, r, n);
    FirstOfItsId(t, t1, t.lastId + 1, r.cloud, r.cloudFileId);
    KnownInView(t1, t', r.cloud, r.cloudFileId, t.lastId + 1, r.path, LinkOf(r));
  }

  lemma SameFinder(t: Tables, t1: Tables, c: nat, id: string)
    requires Integrity(t) && Integrity(t1)
    requires forall h :: IsLink(t, h, c, id) <==> IsLink(t1, h, c, id)
    ensures FindLink(t, c, id) == FindLink(t1, c, id)
  {
    var r, s := FindLink(t, c, id), FindLink(t1, c, id);
    if r.Some? {
      FoundIsIssued(t1, c, r.value, id);
    }
    if s.Some? {
      FoundIsIssued(t, c, s.value, id);
    }
  }

  lemma HeadMovedLinks(t: Tables, m: MovedDto, t1: Tables)
    requires HeadMoved(t, m, t1) && IsLink(t, m.globalId, m.cloud, m.cloudFileId)
    ensures forall h :: IsLink(t, h, m.cloud, m.cloudFileId) <==> IsLink(t1, h, m.cloud, m.cloudFileId)
    ensures LinkAt(t1, m.globalId, m.cloud)
            == Some(t.links[(m.globalId, m.cloud)].(mtime := m.mtime, parentId := m.newParentId))
  {
  }

  lemma MoveIsKnown(t: Tables, m: MovedDto, t': Tables)
    requires Integrity(t) && AppliedMove(t, m, t') && FindLink(t, m.cloud, m.cloudFileId) == Some(m.globalId)
    ensures Known(t', m.cloud, m.cloudFileId, m.globalId, m.newPath,
                  t.links[(m.globalId, m.cloud)].(mtime := m.mtime, parentId := m.newParentId))
    ensures Integrity(t')
  {
    FoundIsIssued(t, m.cloud, m.globalId, m.cloudFileId);
    MoveView(t, m, t');
    var t1 :| HeadMoved(t, m, t1) && SameView(t1, t', m.cloud);
    HeadMovedLinks(t, m, t1);
    SameFinder(t, t1, m.cloud, m.cloudFileId);
    KnownInView(t1, t', m.cloud, m.cloudFileId, m.globalId, m.newPath,
                t.links[(m.globalId, m.cloud)].(mtime := m.mtime, parentId := m.newParentId));
  }

  lemma LocalUpdateLinks(t: Tables, u: UpdatedDto, n: Node)
    requires Integrity(t) && u.cloud != 0 && (u.globalId, u.cloud) in t.links
    ensures var t1 := LocalUpdate(t, u, n);
            && Integrity(t1)
            && (forall h :: h != u.globalId ==> LinkAt(t1, h, u.cloud) == LinkAt(t, h, u.cloud))
            && LinkAt(t1, u.globalId, u.cloud) == Some(
                 t.links[(u.globalId, u.cloud)].(hash := CloudHash(u.hash), mtime := u.mtime, size := u.size))
            && PathOf(t1, u.globalId) == PathOf(t, u.globalId)
  {
  }

  lemma UpdateIsKnown(t: Tables, u: UpdatedDto, t': Tables)
    requires Integrity(t) && AppliedUpdate(t, u, t') && u.cloud != 0
    requires FindLink(t, u.cloud, u.cloudFileId) == Some(u.globalId)
    ensures Known(t', u.cloud, u.cloudFileId, u.globalId, PathOf(t, u.globalId),
                  t.links[(u.globalId, u.cloud)].(hash := CloudHash(u.hash), mtime := u.mtime, size := u.size))
    ensures Integrity(t')
  {
    UpdateView(t, u, t');
    var n :| SameView(LocalUpdate(t, u, n), t', u.cloud);
    var t1 := LocalUpdate(t, u, n);
    LocalUpdateLinks(t, u, n);
    forall h
      ensures IsLink(t, h, u.cloud, u.cloudFileId) <==> IsLink(t1, h, u.cloud, u.cloudFileId)
    {
      assert h != u.globalId ==> LinkAt(t1, h, u.cloud) == LinkAt(t, h, u.cloud);
    }
    SameFinder(t, t1, u.cloud, u.cloudFileId);
    KnownInView(t1, t', u.cloud, u.cloudFileId, u.globalId, PathOf(t, u.globalId),
                t.links[(u.globalId, u.cloud)].(hash := CloudHash(u.hash), mtime := u.mtime, size := u.size));
  }

  /** An update moves nothing: every id is found where it was, and every row keeps its path. */
  lemma UpdateKeepsPlaces(t: Tables, u: UpdatedDto, t': Tables, id: string, g: nat)
    requires Integrity(t) && AppliedUpdate(t, u, t') && u.cloud != 0 && (u.globalId, u.cloud) in t.links
    ensures FindLink(t', u.cloud, id) == FindLink(t, u.cloud, id) && PathOf(t', g) == PathOf(t, g)
  {
    UpdateView(t, u, t');
    var n :| SameView(LocalUpdate(t, u, n), t', u.cloud);
    var t1 := LocalUpdate(t, u, n);
    LocalUpdateLinks(t, u, n);
    forall h
      ensures IsLink(t, h, u.cloud, id) <==> IsLink(t1, h, u.cloud, id)
    {
      assert h != u.globalId ==> LinkAt(t1, h, u.cloud) == LinkAt(t, h, u.cloud);
    }
    SameFinder(t, t1, u.cloud, id);
    SameViewFinds(t1, t', u.cloud, id);
  }

  lemma AfterDelete(t: Tables, g: nat, c: nat, id: string)
    requires Integrity(t)
    ensures Integrity(DeleteFileAndLinks(t, g))
    ensures forall h :: IsLink(DeleteFileAndLinks(t, g), h, c, id) <==> IsLink(t, h, c, id) && h != g
    ensures FindLink(t, c, id).None? ==> FindLink(DeleteFileAndLinks(t, g), c, id).None?
    ensures FindLink(DeleteFileAndLinks(t, g), c, id).None? <==> forall h :: h != g ==> !IsLink(t, h, c, id)
  {
    var t' := DeleteFileAndLinks(t, g);
    forall h | IsLink(t, h, c, id)
      ensures FindLink(t, c, id).Some?
      ensures h != g ==> FindLink(t', c, id).Some?
    {
      FoundIsIssued(t, c, h, id);
      if h != g {
        FoundIsIssued(t', c, h, id);
      }
    }
  }
}
