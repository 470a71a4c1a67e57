/**
 How a change spreads from the local stage to the clouds. The callback of the local stage hands one
 payload to each cloud command; each cloud command then writes its own link. The statements of the cloud
 commands run in any order, interleaved with the statements of unrelated changes.
 */
module Propagation {
  import opened Common
  import opened DirectoryMove
  import opened Disk
  import opened LocalStorage
  import opened PathIndex
  import opened Records
  import opened Schema
  import opened Store

  // ---- callbacks -------------------------------------------------------------------------------

  /** One payload object is overwritten for each next command and copied into it. */
  method LocalUploadCallback(storage: LocalStorage, dto: RecordDto, nexts: seq<nat>)
    returns (payloads: seq<RecordDto>, ok: bool)
    requires storage.db.Valid()
    modifies storage, storage.db
    ensures storage.db.Valid()
    ensures ok ==>
              var source := if dto.cloud != 0 then TmpPath(dto.path) else dto.path;
              && source in old(storage.disk)
              && LocalNew(old(storage.db.T()), dto, old(storage.disk)[source]) == Some(storage.db.T())
              && |payloads| == |nexts|
              && forall i :: 0 <= i < |nexts| ==>
                   payloads[i] == Measured(dto, old(storage.disk)[source]).(
                     globalId := storage.db.lastId,
                     parentId := CloudFileIdByPath(storage.db.T(), Parent(dto.path), nexts[i]),
                     cloud := nexts[i])
  {
    payloads := [];
    var own: RecordDto;
    own, ok := storage.ProccesUpload(dto);
    if !ok {
      return;
    }
    ghost var done := own;
    var i := 0;
    while i < |nexts|
      invariant 0 <= i <= |nexts| && |payloads| == i
      invariant own == done.(parentId := own.parentId, cloud := own.cloud)
      invariant forall k :: 0 <= k < i ==>
                  payloads[k] == done.(parentId := CloudFileIdByPath(storage.db.T(), Parent(dto.path), nexts[k]), cloud := nexts[k])
      modifies {}
    {
      var id := storage.db.GetCloudFileIdByPath(Parent(own.path), nexts[i]);
      own := own.(parentId := id, cloud := nexts[i]);
      payloads := payloads + [own];
      i := i + 1;
    }
  }

  /** The payload for cloud `c`: it names the file as that cloud knows it. */
  predicate UpdatePayload(p: UpdatedDto, dto: UpdatedDto, t: Tables, c: nat) {
    (dto.globalId, c) in t.links && p == dto.(cloudFileId := t.links[(dto.globalId, c)].cloudFileId, cloud := c)
  }

  /** It also names the folder that the file leaves and the one that it enters. */
  predicate MovePayload(p: MovedDto, dto: MovedDto, t: Tables, c: nat) {
    && (dto.globalId, c) in t.links
    && var link := t.links[(dto.globalId, c)];
       p == dto.(cloudFileId := link.cloudFileId, oldParentId := link.parentId,
                 newParentId := CloudFileIdByPath(t, Parent(dto.newPath), c), cloud := c)
  }

  ghost predicate UpdatePayloads(ps: seq<UpdatedDto>, dto: UpdatedDto, t: Tables, nexts: seq<nat>) {
    |ps| == |nexts| && forall i :: 0 <= i < |nexts| ==> UpdatePayload(ps[i], dto, t, nexts[i])
  }

  ghost predicate MovePayloads(ps: seq<MovedDto>, dto: MovedDto, t: Tables, nexts: seq<nat>) {
    |ps| == |nexts| && forall i :: 0 <= i < |nexts| ==> MovePayload(ps[i], dto, t, nexts[i])
  }

  /** A missing link throws: the remaining commands get no payload and the chain stops. */
  method LocalUpdateCallback(storage: LocalStorage, dto: UpdatedDto, nexts: seq<nat>)
    returns (payloads: seq<UpdatedDto>, ok: bool)
    requires storage.db.Valid()
    modifies storage, storage.db, storage.expected
    ensures storage.db.Valid()
    ensures ok && dto.cloud == 0 ==>
              && (forall n :: storage.db.T() == LocalUpdate(old(storage.db.T()), dto, n))
              && storage.disk == old(storage.disk)
              && UpdatePayloads(payloads, dto, storage.db.T(), nexts)
    ensures ok && dto.cloud != 0 ==>
              && TmpPath(dto.path) in old(storage.disk)
              && storage.db.T() == LocalUpdate(old(storage.db.T()), dto, old(storage.disk)[TmpPath(dto.path)])
              && UpdatePayloads(payloads, Remeasured(dto, old(storage.disk)[TmpPath(dto.path)]), storage.db.T(), nexts)
  {
    payloads := [];
    var own: UpdatedDto;
    own, ok := storage.ProccesUpdate(dto);
    if !ok {
      return;
    }
    ghost var done := own;
    var i := 0;
    while i < |nexts|
      invariant 0 <= i <= |nexts|
      invariant own == done.(cloudFileId := own.cloudFileId, cloud := own.cloud)
      invariant UpdatePayloads(payloads, done, storage.db.T(), nexts[..i])
      modifies {}
    {
      if (own.globalId, nexts[i]) !in storage.db.links {
        return payloads, false;
      }
      own := own.(cloudFileId := storage.db.links[(own.globalId, nexts[i])].cloudFileId, cloud := nexts[i]);
      payloads := payloads + [own];
      i := i + 1;
    }
    assert nexts[..i] == nexts;
  }

  /** The program dereferences the link of every next cloud without a test. */
  method LocalMoveCallback(storage: LocalStorage, dto: MovedDto, nexts: seq<nat>)
    returns (payloads: seq<MovedDto>, ok: bool, ghost order: seq<Path>)
    requires storage.db.Valid()
    requires forall i :: 0 <= i < |nexts| ==> (dto.globalId, nexts[i]) in storage.db.links
    modifies storage, storage.db, storage.expected
    ensures storage.db.Valid()
    ensures ok && dto.cloud == 0 ==>
              && storage.db.T() == UpdateFilePlace(old(storage.db.T()), dto.globalId, dto.newPath, dto.mtime)
              && MovePayloads(payloads, dto, storage.db.T(), nexts)
    ensures ok && dto.cloud != 0 ==>
              && dto.oldPath in old(storage.disk)
              && Lists(order, Visited(storage.disk, dto.newPath))
              && storage.db.T() == MovedTables(old(storage.db.T()), old(storage.disk), dto, order)
              && MovePayloads(payloads, dto.(mtime := old(storage.disk)[dto.oldPath].mtime), storage.db.T(), nexts)
  {
    payloads := [];
    var own: MovedDto;
    own, ok, order := storage.ProccesMove(dto);
    if !ok {
      return;
    }
    if dto.cloud != 0 {
      WalkKeepsLinks(MoveHead(old(storage.db.T()), dto, old(storage.disk)[dto.oldPath].mtime), storage.disk, order);
    }
    assert forall k :: 0 <= k < |nexts| ==> (dto.globalId, nexts[k]) in storage.db.links;
    payloads := MovePayloadsFor(storage.db, own, nexts);
  }

  /** One payload object is overwritten for each next command and copied into it. */
  method MovePayloadsFor(db: Database, dto: MovedDto, nexts: seq<nat>) returns (payloads: seq<MovedDto>)
    requires forall i :: 0 <= i < |nexts| ==> (dto.globalId, nexts[i]) in db.links
    ensures MovePayloads(payloads, dto, db.T(), nexts)
  {
    payloads := [];
    var own := dto;
    var t := db.T();
    var i := 0;
    while i < |nexts|
      invariant 0 <= i <= |nexts|
      invariant own == dto.(cloudFileId := own.cloudFileId, oldParentId := own.oldParentId,
                            newParentId := own.newParentId, cloud := own.cloud)
      invariant MovePayloads(payloads, dto, t, nexts[..i])
    {
      var link := db.links[(own.globalId, nexts[i])];
      var id := db.GetCloudFileIdByPath(Parent(own.newPath), nexts[i]);
      own := own.(cloudFileId := link.cloudFileId, oldParentId := link.parentId, newParentId := id, cloud := nexts[i]);
      payloads := payloads + [own];
      i := i + 1;
    }
    assert nexts[..i] == nexts;
  }

  /** The ids the clouds need are read before the row and its links disappear. */
  method LocalDeleteCallback(storage: LocalStorage, dto: DeletedDto, nexts: seq<nat>)
    returns (payloads: seq<DeletedDto>, ok: bool)
    requires storage.db.Valid()
    modifies storage, storage.db, storage.expected
    ensures storage.db.Valid()
    ensures ok <==> forall i :: 0 <= i < |nexts| ==> (dto.globalId, nexts[i]) in old(storage.db.links)
    ensures storage.db.T() == if ok then DeleteFileAndLinks(old(storage.db.T()), dto.globalId) else old(storage.db.T())
    ensures storage.disk == old(storage.disk) - (if ok && dto.cloud != 0 then {dto.path} else {})
    ensures ok ==> |payloads| == |nexts|
    ensures ok ==> forall i :: 0 <= i < |nexts| ==>
              payloads[i] == dto.(cloudFileId := old(storage.db.links)[(dto.globalId, nexts[i])].cloudFileId, cloud := nexts[i])
  {
    payloads, ok := [], true;
    var needLocalDelete := dto.cloud != 0;
    storage.ProccesDelete(dto);
    var own := dto;
    var i := 0;
    while i < |nexts|
      invariant 0 <= i <= |nexts| && |payloads| == i
      invariant own == dto.(cloudFileId := own.cloudFileId, cloud := own.cloud)
      invariant forall k :: 0 <= k < i ==>
                  && (dto.globalId, nexts[k]) in storage.db.links
                  && payloads[k] == dto.(cloudFileId := storage.db.links[(dto.globalId, nexts[k])].cloudFileId, cloud := nexts[k])
      modifies {}
    {
      if (own.globalId, nexts[i]) !in storage.db.links {
        return payloads, false;
      }
      own := own.(cloudFileId := storage.db.links[(own.globalId, nexts[i])].cloudFileId, cloud := nexts[i]);
      payloads := payloads + [own];
      i := i + 1;
    }
    if needLocalDelete {
      storage.disk := storage.disk - {dto.path};
    }
    storage.db.Delete(dto.globalId);
  }

  /** Statement issued when a cloud's upload, update or move has been answered. */
  function UploadOp(dto: RecordDto, c: nat, answer: Reply): Op {
    OpAddLink(dto.globalId, c, LinkOf(AnswerNew(dto.(cloud := c), answer)))
  }

  function UpdateOp(dto: UpdatedDto, c: nat, answer: Reply): Op {
    var u := AnswerUpdate(dto, answer);
    OpLinkContent(dto.globalId, c, CloudHash(u.hash), u.mtime, u.size)
  }

  function MoveOp(dto: MovedDto, c: nat, answer: Reply): Op {
    var m := AnswerMove(dto, answer);
    OpLinkPlace(dto.globalId, c, m.cloudFileId, m.mtime, m.newParentId)
  }

  method CloudUploadCallback(db: Database, c: nat, dto: RecordDto, answer: Reply) returns (ok: bool)
    requires db.Valid()
    modifies db
    ensures db.Valid() && db.T() == Apply(old(db.T()), UploadOp(dto, c, answer))
    ensures ok <==> (dto.globalId, c) in db.links
    ensures db.files == old(db.files)
    ensures !ok || (dto.globalId, c) in old(db.links) ==> db.links == old(db.links)
    ensures ok && (dto.globalId, c) !in old(db.links) ==>
              var link := db.links[(dto.globalId, c)];
              && db.links == old(db.links)[(dto.globalId, c) := link]
              && Shows(link.cloudFileId, answer.cloudFileId, dto.cloudFileId)
              && Shows(link.parentId, answer.parentId, dto.parentId)
              && Shows(link.mtime, answer.mtime, dto.mtime)
              && Shows(link.hash, answer.hash, if dto.hash.Text? then dto.hash.text else "")
              && Shows(link.size, answer.size, dto.size)
  {
    var own := AnswerNew(dto.(cloud := c), answer);
    ok := db.InsertLink(own.globalId, own.cloud, LinkOf(own));
  }

  method CloudUpdateCallback(db: Database, c: nat, dto: UpdatedDto, answer: Reply)
    requires db.Valid()
    modifies db
    ensures db.Valid() && db.T() == Apply(old(db.T()), UpdateOp(dto, c, answer))
    ensures db.files == old(db.files)
    ensures (dto.globalId, c) !in old(db.links) ==> db.links == old(db.links)
    ensures (dto.globalId, c) in old(db.links) ==>
              var was := old(db.links)[(dto.globalId, c)];
              && (dto.globalId, c) in db.links
              && var link := db.links[(dto.globalId, c)];
              && db.links == old(db.links)[(dto.globalId, c) := link]
              && link.cloudFileId == was.cloudFileId && link.parentId == was.parentId
              && Shows(link.mtime, answer.mtime, dto.mtime)
              && Shows(link.hash, answer.hash, if dto.hash.Text? then dto.hash.text else "")
              && Shows(link.size, answer.size, dto.size)
  {
    var own := AnswerUpdate(dto.(cloud := c), answer);
    db.SetLinkContent(own.globalId, own.cloud, own.hash, own.mtime, own.size);
  }

  method CloudMoveCallback(db: Database, c: nat, dto: MovedDto, answer: Reply)
    requires db.Valid()
    modifies db
    ensures db.Valid() && db.T() == Apply(old(db.T()), MoveOp(dto, c, answer))
    ensures db.files == old(db.files)
    ensures (dto.globalId, c) !in old(db.links) ==> db.links == old(db.links)
    ensures (dto.globalId, c) in old(db.links) ==>
              var was := old(db.links)[(dto.globalId, c)];
              && (dto.globalId, c) in db.links
              && var link := db.links[(dto.globalId, c)];
              && db.links == old(db.links)[(dto.globalId, c) := link]
              && link.cloudFileId == dto.cloudFileId && link.hash == was.hash && link.size == was.size
              && Shows(link.mtime, answer.mtime, dto.mtime)
              && Shows(link.parentId, answer.parentId, dto.newParentId)
  {
    var own := AnswerMove(dto.(cloud := c), answer);
    db.SetLinkPlace(own.globalId, own.cloud, own.cloudFileId, own.mtime, own.newParentId);
  }

  lemma LocalNewIsRun(t: Tables, dto: RecordDto, n: Node)
    requires LocalNew(t, dto, n).Some?
    ensures exists ops :: |ops| <= 2 && Run(t, ops) == LocalNew(t, dto, n).value
                          && forall i :: 0 <= i < |ops| ==> KeepsFolders(ops[i])
  {
    var add := OpAddFile(RowOf(Measured(dto, n)));
    var t1 := Apply(t, add);
    var link := OpAddLink(t1.lastId, dto.cloud, LinkOf(dto));
    assert [add, link][1..] == [link] && [link][1..] == [] && [add][1..] == [];
    assert Run(t, [add]) == t1;
    assert Run(t, [add, link]) == Run(t1, [link]) == Apply(t1, link);
    assert KeepsFolders(add) && KeepsFolders(link);
    assert LocalNew(t, dto, n).value == if dto.cloud == 0 then Run(t, [add]) else Run(t, [add, link]);
    assert |[add]| <= 2 && |[add, link]| <= 2;
  }

  /**
   A New change starts only when the missing part of its parent is empty. If no statement deletes or moves
   a folder before the local callback runs, every upload payload names a parent folder of its own cloud,
   unless the parent is the root.
   */
  lemma UploadPayloadsHaveParents(t: Tables, ops: seq<Op>, dto: RecordDto, n: Node, c: nat)
    requires Integrity(t) && NonEmptyIds(t) && c in t.clouds
    requires MissingPart(t, Parent(dto.path), |t.clouds|) == []
    requires forall i :: 0 <= i < |ops| ==> KeepsFolders(ops[i])
    requires LocalNew(Run(t, ops), dto, n).Some?
    ensures CloudFileIdByPath(LocalNew(Run(t, ops), dto, n).value, Parent(dto.path), c) != "" || Parent(dto.path) == []
    ensures Parent(dto.path) != [] ==>
              CloudFileIdByPath(LocalNew(Run(t, ops), dto, n).value, Parent(dto.path), c)
              == CloudFileIdByPath(t, Parent(dto.path), c)
  {
    if Parent(dto.path) != [] {
      ParentResolves(t, dto.path, c);
      ParentStaysResolved(t, Parent(dto.path), c, ops);
      RunKeepsIntegrity(t, ops);
      LocalNewIsRun(Run(t, ops), dto, n);
      var more :| |more| <= 2 && Run(Run(t, ops), more) == LocalNew(Run(t, ops), dto, n).value
                  && forall i :: 0 <= i < |more| ==> KeepsFolders(more[i]);
      ParentStaysResolved(Run(t, ops), Parent(dto.path), c, more);
    }
  }

  // ---- the cloud commands of one change, in any order ------------------------------------------

  function LinkAt(t: Tables, g: nat, c: nat): Option<LinkRow> {
    if (g, c) in t.links then Some(t.links[(g, c)]) else None
  }

  /** `own` holds the statement of each cloud command of the change on row `g`. */
  ghost predicate OwnStatements(own: map<nat, Op>, g: nat) {
    forall c :: c in own ==>
      match own[c]
      case OpAddLink(h, d, _) => h == g && d == c
      case OpLinkContent(h, d, _, _, _) => h == g && d == c
      case OpLinkPlace(h, d, _, _, _) => h == g && d == c
      case _ => false
  }

  /** What one statement makes of the link of its own cloud. */
  function Effect(op: Op, was: Option<LinkRow>): Option<LinkRow> {
    match op
    case OpAddLink(_, _, link) => if was.Some? then was else Some(link)
    case OpLinkContent(_, _, h, m, s) =>
      if was.Some? then Some(was.value.(hash := h, mtime := m, size := s)) else None
    case OpLinkPlace(_, _, i, m, p) =>
      if was.Some? then Some(was.value.(cloudFileId := i, mtime := m, parentId := p)) else None
    case _ => was
  }

  /** A statement of some other change: it leaves row `g` alone and puts no row at `path`. */
  predicate Foreign(op: Op, g: nat, path: Path) {
    match op
    case OpAddCloud => false
    case OpAddFile(row) => row.path != path
    case OpAddLink(h, _, _) => h != g
    case OpLinkContent(h, _, _, _, _) => h != g
    case OpLinkPlace(h, _, _, _, _) => h != g
    case OpFileContent(h, _, _, _, _) => h != g
    case OpFilePlace(h, p, _) => h != g && p != path
    case OpDelete(h) => h != g
  }

  predicate IsOwn(op: Op, own: map<nat, Op>) {
    match op
    case OpAddLink(_, c, _) => c in own && own[c] == op
    case OpLinkContent(_, c, _, _, _) => c in own && own[c] == op
    case OpLinkPlace(_, c, _, _, _) => c in own && own[c] == op
    case _ => false
  }

  /** An interleaving of the change's own statements with those of other changes. */
  ghost predicate Interleaved(ops: seq<Op>, g: nat, path: Path, own: map<nat, Op>) {
    forall i :: 0 <= i < |ops| ==> Foreign(ops[i], g, path) || IsOwn(ops[i], own)
  }

  /** Every cloud command has completed. */
  ghost predicate AllDone(ops: seq<Op>, own: map<nat, Op>) {
    forall c :: c in own ==> own[c] in ops
  }

  function Landed(t: Tables, ops: seq<Op>, g: nat, own: map<nat, Op>, c: nat): Option<LinkRow> {
    if c in own && own[c] in ops then Effect(own[c], LinkAt(t, g, c)) else LinkAt(t, g, c)
  }

  lemma OwnStep(t: Tables, op: Op, g: nat, own: map<nat, Op>, c: nat)
    requires Integrity(t) && g in t.files && OwnStatements(own, g) && own.Keys <= t.clouds && IsOwn(op, own)
    ensures LinkAt(Apply(t, op), g, c) == if c in own && own[c] == op then Effect(op, LinkAt(t, g, c)) else LinkAt(t, g, c)
    ensures Apply(t, op) == t.(links := Apply(t, op).links)
  {
  }

  lemma ForeignStep(t: Tables, op: Op, g: nat, path: Path, c: nat)
    requires Integrity(t) && g in t.files && Foreign(op, g, path)
    ensures LinkAt(Apply(t, op), g, c) == LinkAt(t, g, c)
    ensures g in Apply(t, op).files && Apply(t, op).files[g] == t.files[g]
    ensures Apply(t, op).clouds == t.clouds && Integrity(Apply(t, op))
  {
  }

  lemma EffectTwice(op: Op, l: Option<LinkRow>)
    ensures Effect(op, Effect(op, l)) == Effect(op, l)
  {
  }

  lemma StepLanded(t: Tables, ops: seq<Op>, g: nat, path: Path, own: map<nat, Op>, c: nat)
    requires ops != [] && Integrity(t) && g in t.files && OwnStatements(own, g) && own.Keys <= t.clouds
    requires Foreign(ops[0], g, path) || IsOwn(ops[0], own)
    ensures Landed(Apply(t, ops[0]), ops[1..], g, own, c) == Landed(t, ops, g, own, c)
  {
    assert ops == [ops[0]] + ops[1..];
    if IsOwn(ops[0], own) {
      OwnStep(t, ops[0], g, own, c);
      EffectTwice(ops[0], LinkAt(t, g, c));
    } else {
      ForeignStep(t, ops[0], g, path, c);
    }
  }

  /** The row keeps its place, and the link of each cloud shows exactly that cloud's own statement. */
  lemma {:induction false} LeavesLand(t: Tables, ops: seq<Op>, g: nat, path: Path, own: map<nat, Op>, c: nat)
    requires Integrity(t) && g in t.files && OwnStatements(own, g) && own.Keys <= t.clouds
    requires Interleaved(ops, g, path, own)
    ensures g in Run(t, ops).files && Run(t, ops).files[g] == t.files[g]
    ensures LinkAt(Run(t, ops), g, c) == Landed(t, ops, g, own, c)
    ensures Run(t, ops).clouds == t.clouds && Integrity(Run(t, ops))
    decreases |ops|
  {
    if ops != [] {
      StepLanded(t, ops, g, path, own, c);
      if IsOwn(ops[0], own) {
        OwnStep(t, ops[0], g, own, c);
      } else {
        ForeignStep(t, ops[0], g, path, c);
      }
      LeavesLand(Apply(t, ops[0]), ops[1..], g, path, own, c);
    }
  }

  ghost predicate OnlyRowAt(t: Tables, g: nat, path: Path) {
    forall h :: h in t.files && t.files[h].path == path ==> h == g
  }

  lemma {:induction false} NoSecondRow(t: Tables, ops: seq<Op>, g: nat, path: Path, own: map<nat, Op>)
    requires OnlyRowAt(t, g, path) && Interleaved(ops, g, path, own)
    ensures OnlyRowAt(Run(t, ops), g, path)
    decreases |ops|
  {
    if ops != [] {
      NoSecondRow(Apply(t, ops[0]), ops[1..], g, path, own);
    }
  }

  /** Any two interleavings in which every cloud command completes leave the same row and the same links. */
  lemma OrderIsIrrelevant(t: Tables, a: seq<Op>, b: seq<Op>, g: nat, path: Path, own: map<nat, Op>)
    requires Integrity(t) && g in t.files && OwnStatements(own, g) && own.Keys <= t.clouds
    requires Interleaved(a, g, path, own) && Interleaved(b, g, path, own) && AllDone(a, own) && AllDone(b, own)
    ensures g in Run(t, a).files && g in Run(t, b).files && Run(t, a).files[g] == Run(t, b).files[g]
    ensures forall c :: LinkAt(Run(t, a), g, c) == LinkAt(Run(t, b), g, c)
  {
    forall c
      ensures LinkAt(Run(t, a), g, c) == LinkAt(Run(t, b), g, c)
    {
      LeavesLand(t, a, g, path, own, c);
      LeavesLand(t, b, g, path, own, c);
    }
    LeavesLand(t, a, g, path, own, 0);
    LeavesLand(t, b, g, path, own, 0);
  }

  // ---- the four chains -------------------------------------------------------------------------

  /** The clouds that still have to be reached from `src`. */
  function Others(t: Tables, src: nat): set<nat> {
    t.clouds - {src, 0}
  }

  ghost predicate Uploads(own: map<nat, Op>, t: Tables, g: nat, src: nat) {
    own.Keys == Others(t, src) && forall c :: c in own ==> own[c].OpAddLink? && own[c].g == g && own[c].c == c
  }

  ghost predicate Updates(own: map<nat, Op>, t: Tables, g: nat, src: nat) {
    own.Keys == Others(t, src) && forall c :: c in own ==> own[c].OpLinkContent? && own[c].g == g && own[c].c == c
  }

  ghost predicate Moves(own: map<nat, Op>, t: Tables, g: nat, src: nat) {
    own.Keys == Others(t, src) && forall c :: c in own ==> own[c].OpLinkPlace? && own[c].g == g && own[c].c == c
  }

  /** Exactly one link for each registered cloud, and none else. */
  ghost predicate FullyLinked(t: Tables, g: nat) {
    g in t.files && forall c :: (g, c) in t.links <==> c in t.clouds
  }

  lemma NewReaches(t: Tables, dto: RecordDto, n: Node, own: map<nat, Op>, ops: seq<Op>, c: nat)
    requires Integrity(t) && LocalNew(t, dto, n).Some?
    requires Uploads(own, t, t.lastId + 1, dto.cloud)
    requires Interleaved(ops, t.lastId + 1, dto.path, own) && AllDone(ops, own)
    ensures LinkAt(Run(LocalNew(t, dto, n).value, ops), t.lastId + 1, c) ==
            if c in own then Some(own[c].link) else if c == dto.cloud && c != 0 then Some(LinkOf(dto)) else None
  {
    LeavesLand(LocalNew(t, dto, n).value, ops, t.lastId + 1, dto.path, own, c);
  }

  /**
   A fully successful New chain on an unknown path: one row, and exactly one link for each cloud,
   whatever the source, the order of the answers, and the changes running beside it.
   */
  lemma NewChainIndexes(t: Tables, dto: RecordDto, n: Node, own: map<nat, Op>, ops: seq<Op>)
    requires Integrity(t) && (dto.cloud == 0 || dto.cloud in t.clouds)
    requires forall h :: h in t.files ==> t.files[h].path != dto.path
    requires LocalNew(t, dto, n).Some?
    requires Uploads(own, t, t.lastId + 1, dto.cloud)
    requires Interleaved(ops, t.lastId + 1, dto.path, own) && AllDone(ops, own)
    ensures var g, t' := t.lastId + 1, Run(LocalNew(t, dto, n).value, ops);
            && FullyLinked(t', g) && OnlyRowAt(t', g, dto.path)
            && t'.files[g] == RowOf(Measured(dto, n))
            && (forall c :: c in own ==> LinkAt(t', g, c) == Some(own[c].link))
            && (dto.cloud != 0 ==> LinkAt(t', g, dto.cloud) == Some(LinkOf(dto)))
  {
    var g, t1 := t.lastId + 1, LocalNew(t, dto, n).value;
    forall c
      ensures LinkAt(Run(t1, ops), g, c) ==
              if c in own then Some(own[c].link) else if c == dto.cloud && c != 0 then Some(LinkOf(dto)) else None
    {
      NewReaches(t, dto, n, own, ops, c);
    }
    LeavesLand(t1, ops, g, dto.path, own, 0);
    NoSecondRow(t1, ops, g, dto.path, own);
    FullFromLinks(Run(t1, ops), g);
  }

  lemma FullFromLinks(t: Tables, g: nat)
    requires g in t.files && forall c :: LinkAt(t, g, c).Some? <==> c in t.clouds
    ensures FullyLinked(t, g)
  {
    forall c
      ensures (g, c) in t.links <==> c in t.clouds
    {
      assert LinkAt(t, g, c).Some? <==> (g, c) in t.links;
    }
  }

  /** What the link of cloud `c` shows after an update: the source's data, or what that cloud answered. */
  function Refreshed(l: LinkRow, dto: UpdatedDto, own: map<nat, Op>, c: nat): LinkRow
    requires c in own ==> own[c].OpLinkContent?
  {
    if c in own then l.(hash := own[c].hash, mtime := own[c].mtime, size := own[c].size)
    else if c == dto.cloud then l.(hash := CloudHash(dto.hash), mtime := dto.mtime, size := dto.size)
    else l
  }

  lemma UpdateReaches(t: Tables, dto: UpdatedDto, n: Node, own: map<nat, Op>, ops: seq<Op>, path: Path, c: nat)
    requires Integrity(t) && FullyLinked(t, dto.globalId) && Updates(own, t, dto.globalId, dto.cloud)
    requires Interleaved(ops, dto.globalId, path, own) && AllDone(ops, own)
    ensures LinkAt(Run(LocalUpdate(t, dto, n), ops), dto.globalId, c) ==
            if c in t.clouds then Some(Refreshed(t.links[(dto.globalId, c)], dto, own, c)) else None
  {
    var g, t1 := dto.globalId, LocalUpdate(t, dto, n);
    assert LinkAt(t1, g, c) == if c == dto.cloud && c in t.clouds
                               then Some(Refreshed(t.links[(g, c)], dto, map[], c)) else LinkAt(t, g, c);
    assert g in t1.files && t1.clouds == t.clouds;
    assert Integrity(t1);
    LeavesLand(t1, ops, g, path, own, c);
  }

  /** An Update chain keeps the row where it is, and its link to every cloud. */
  lemma UpdateChainKeeps(t: Tables, dto: UpdatedDto, n: Node, own: map<nat, Op>, ops: seq<Op>, path: Path)
    requires Integrity(t) && FullyLinked(t, dto.globalId) && Updates(own, t, dto.globalId, dto.cloud)
    requires OnlyRowAt(t, dto.globalId, path) && t.files[dto.globalId].path == path
    requires Interleaved(ops, dto.globalId, path, own) && AllDone(ops, own)
    ensures var g, t' := dto.globalId, Run(LocalUpdate(t, dto, n), ops);
            FullyLinked(t', g) && OnlyRowAt(t', g, path) && t'.files[g].path == path
  {
    var g, t1 := dto.globalId, LocalUpdate(t, dto, n);
    assert g in t1.files && t1.files[g].path == path && t1.clouds == t.clouds;
    assert Integrity(t1);
    LeavesLand(t1, ops, g, path, own, 0);
    assert OnlyRowAt(t1, g, path);
    NoSecondRow(t1, ops, g, path, own);
    forall c
      ensures LinkAt(Run(t1, ops), g, c).Some? <==> c in t.clouds
    {
      UpdateReaches(t, dto, n, own, ops, path, c);
    }
    FullFromLinks(Run(t1, ops), g);
  }

  /** The tables once the local stage of a move is over: index and links follow the disk. */
  function LocalMove(t: Tables, disk: map<Path, Node>, m: MovedDto, order: seq<Path>): Tables
    requires m.cloud != 0 ==> m.oldPath in disk
  {
    if m.cloud == 0 then UpdateFilePlace(t, m.globalId, m.newPath, m.mtime) else MovedTables(t, disk, m, order)
  }

  /** The target of the move is free, and the row that moves is the only one at its path. */
  ghost predicate MoveReady(t: Tables, disk: map<Path, Node>, m: MovedDto, order: seq<Path>) {
    && Integrity(t)
    && FullyLinked(t, m.globalId)
    && t.files[m.globalId].path == m.oldPath
    && OnlyRowAt(t, m.globalId, m.oldPath)
    && (forall h :: h in t.files ==> t.files[h].path != m.newPath)
    && (m.cloud != 0 ==>
          MoveFits(t, disk, m) && Lists(order, Visited(Renamed(disk, m.oldPath, m.newPath), m.newPath)))
  }

  lemma PlaceIsFresh(p: Path, m: MovedDto)
    requires NewPlace(p, m) == m.newPath && p != m.newPath
    ensures p == m.oldPath
  {
    assert |p[|m.oldPath|..]| == 0;
  }

  lemma LocalMoveRow(t: Tables, disk: map<Path, Node>, m: MovedDto, order: seq<Path>, h: nat)
    requires MoveReady(t, disk, m, order) && h in t.files
    ensures h in LocalMove(t, disk, m, order).files
    ensures LocalMove(t, disk, m, order).files[h].path == m.newPath <==> h == m.globalId
  {
    if m.cloud != 0 {
      DirectoryMoveIsExact(t, disk, m, order, h);
      assert NewPlace(m.oldPath, m) == m.newPath;
      if NewPlace(t.files[h].path, m) == m.newPath {
        PlaceIsFresh(t.files[h].path, m);
      }
    }
  }

  lemma LocalMoveFrame(t: Tables, disk: map<Path, Node>, m: MovedDto, order: seq<Path>)
    requires MoveReady(t, disk, m, order)
    ensures var t1 := LocalMove(t, disk, m, order);
            && t1 == t.(files := t1.files, links := t1.links)
            && t1.files.Keys == t.files.Keys && Integrity(t1)
            && t1.links == (if m.cloud == 0 then t.links
                            else UpdateLinkPlace(t, m.globalId, m.cloud, m.cloudFileId, m.mtime, m.newParentId).links)
  {
    if m.cloud != 0 {
      MovedTablesWalked(t, disk, m, order);
      WalkKeepsLinks(MoveHead(t, m, disk[m.oldPath].mtime), Renamed(disk, m.oldPath, m.newPath), order);
    }
  }

  function Relocated(l: LinkRow, m: MovedDto, own: map<nat, Op>, c: nat): LinkRow
    requires c in own ==> own[c].OpLinkPlace?
  {
    if c in own then l.(cloudFileId := own[c].cloudFileId, mtime := own[c].mtime, parentId := own[c].parentId)
    else if c == m.cloud then l.(cloudFileId := m.cloudFileId, mtime := m.mtime, parentId := m.newParentId)
    else l
  }

  lemma MoveReaches(
      t: Tables, disk: map<Path, Node>, m: MovedDto, order: seq<Path>, own: map<nat, Op>, ops: seq<Op>, c: nat)
    requires MoveReady(t, disk, m, order) && Moves(own, t, m.globalId, m.cloud)
    requires Interleaved(ops, m.globalId, m.newPath, own) && AllDone(ops, own)
    ensures LinkAt(Run(LocalMove(t, disk, m, order), ops), m.globalId, c) ==
            if c in t.clouds then Some(Relocated(t.links[(m.globalId, c)], m, own, c)) else None
  {
    LocalMoveFrame(t, disk, m, order);
    LeavesLand(LocalMove(t, disk, m, order), ops, m.globalId, m.newPath, own, c);
  }

  /** A Move chain, of a file or of a whole tree, takes the row to its new path and keeps every link. */
  lemma MoveChainKeeps(
      t: Tables, disk: map<Path, Node>, m: MovedDto, order: seq<Path>, own: map<nat, Op>, ops: seq<Op>)
    requires MoveReady(t, disk, m, order) && Moves(own, t, m.globalId, m.cloud)
    requires Interleaved(ops, m.globalId, m.newPath, own) && AllDone(ops, own)
    ensures var g, t' := m.globalId, Run(LocalMove(t, disk, m, order), ops);
            FullyLinked(t', g) && OnlyRowAt(t', g, m.newPath) && t'.files[g].path == m.newPath
  {
    var g, t1 := m.globalId, LocalMove(t, disk, m, order);
    LocalMoveFrame(t, disk, m, order);
    forall h | h in t.files
      ensures t1.files[h].path == m.newPath <==> h == g
    {
      LocalMoveRow(t, disk, m, order, h);
    }
    LeavesLand(t1, ops, g, m.newPath, own, 0);
    NoSecondRow(t1, ops, g, m.newPath, own);
    forall c
      ensures LinkAt(Run(t1, ops), g, c).Some? <==> c in t.clouds
    {
      MoveReaches(t, disk, m, order, own, ops, c);
    }
    FullFromLinks(Run(t1, ops), g);
  }

  /** A Delete chain leaves neither the row nor a link, and no later statement brings them back. */
  lemma DeleteChainForgets(t: Tables, dto: DeletedDto, ops: seq<Op>)
    requires Integrity(t) && dto.globalId in t.files
    ensures var t' := Run(DeleteFileAndLinks(t, dto.globalId), ops);
            dto.globalId !in t'.files && forall c :: LinkAt(t', dto.globalId, c) == None
  {
    DeletedStaysGone(t, dto.globalId, ops);
  }
}
