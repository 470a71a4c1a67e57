/** The local replica: the tree on disk, and what each finished change does to it and to the tables. */
module LocalStorage {
  import opened Common
  import opened DirectoryMove
  import opened Disk
  import opened EventRegistry
  import opened Records
  import opened Schema
  import opened Store

  // ---- the effect of the local stage on the tables ---------------------------------------------

  /** The payload after the stage: what was measured on disk. */
  function Measured(r: RecordDto, n: Node): RecordDto {
    if r.cloud != 0 then r.(fileId := n.fileId, size := n.size, hash := Number(n.hash), mtime := n.mtime, cloud := 0)
    else r.(fileId := n.fileId, hash := Number(n.hash), mtime := n.mtime)
  }

  /** A new row, and a link to the cloud the file came from. None: that cloud is not registered. */
  function LocalNew(t: Tables, r: RecordDto, n: Node): Option<Tables> {
    var t1 := AddFile(t, RowOf(Measured(r, n)));
    if r.cloud == 0 then Some(t1) else AddFileLink(t1, t1.lastId, r.cloud, LinkOf(r))
  }

  function Remeasured(u: UpdatedDto, n: Node): UpdatedDto {
    if u.cloud == 0 then u
    else u.(fileId := n.fileId, size := n.size, hash := Number(n.hash), mtime := n.mtime, cloud := 0)
  }

  function LocalUpdate(t: Tables, u: UpdatedDto, n: Node): Tables {
    var t1 := if u.cloud == 0 then t
              else UpdateLinkContent(t, u.globalId, u.cloud, CloudHash(u.hash), u.mtime, u.size);
    var m := Remeasured(u, n);
    UpdateFileContent(t1, u.globalId, m.size, LocalHash(m.hash), m.mtime, m.fileId)
  }

  /** The row shows the installed node, the link of the source shows what the source reported, and all else stays. */
  ghost predicate TableShows(t: Tables, t': Tables, u: UpdatedDto, n: Node) {
    && (u.globalId in t.files ==>
          var row := t.files[u.globalId];
          t'.files == t.files[u.globalId := FileRow(row.kind, row.path, n.size, n.hash, n.mtime, n.fileId)])
    && (u.globalId !in t.files ==> t'.files == t.files)
    && ((u.globalId, u.cloud) in t.links ==>
          var link := t.links[(u.globalId, u.cloud)];
          t'.links == t.links[(u.globalId, u.cloud) := LinkRow(
            link.cloudFileId, link.parentId, u.mtime, if u.hash.Text? then u.hash.text else "", u.size)])
    && ((u.globalId, u.cloud) !in t.links ==> t'.links == t.links)
  }

  class LocalStorage {
    const db: Database
    const expected: ThreadSafeEventsRegistry
    var disk: map<Path, Node>

    constructor (db: Database, disk: map<Path, Node>)
      ensures this.db == db && this.disk == disk && fresh(expected) && expected.m == map[]
    {
      this.db, this.disk := db, disk;
      expected := new ThreadSafeEventsRegistry();
    }

    /**
     Installs a downloaded file, or registers one found on disk. `ok` is false when the file is not where
     it should be, and when the link is refused; the row of a refused link has been written by then.
     */
    method ProccesUpload(dto: RecordDto) returns (done: RecordDto, ok: bool)
      requires db.Valid()
      modifies this, db
      ensures db.Valid()
      ensures var source := if dto.cloud != 0 then TmpPath(dto.path) else dto.path;
              if source !in old(disk) then !ok && db.T() == old(db.T()) && disk == old(disk)
              else
                var n := old(disk)[source];
                && ok == LocalNew(old(db.T()), dto, n).Some?
                && db.T() == (if ok then LocalNew(old(db.T()), dto, n).value
                              else AddFile(old(db.T()), RowOf(Measured(dto, n))))
                && disk == (if dto.cloud != 0 then (old(disk) - {source})[dto.path := n] else old(disk))
                && done == Measured(dto, n).(globalId := db.lastId)
      ensures ok ==>
                var n := old(disk)[if dto.cloud != 0 then TmpPath(dto.path) else dto.path];
                && db.lastId == old(db.lastId) + 1
                && db.files == old(db.files)[db.lastId := FileRow(
                     dto.kind, dto.path, if dto.cloud != 0 then n.size else dto.size, n.hash, n.mtime, n.fileId)]
                && db.links == (if dto.cloud == 0 then old(db.links)
                                else old(db.links)[(db.lastId, dto.cloud) := LinkRow(
                                  dto.cloudFileId, dto.parentId, dto.mtime,
                                  if dto.hash.Text? then dto.hash.text else "", dto.size)])
                && done == dto.(globalId := db.lastId, fileId := n.fileId, hash := Number(n.hash), mtime := n.mtime,
                                size := if dto.cloud != 0 then n.size else dto.size, cloud := 0)
    {
      done, ok := dto, true;
      if dto.cloud != 0 {
        var tmp := TmpPath(dto.path);
        if tmp !in disk {
          return dto, false;
        }
        var n := disk[tmp];
        disk := (disk - {tmp})[dto.path := n];
        done := done.(fileId := n.fileId, size := n.size, hash := Number(n.hash), mtime := n.mtime, cloud := 0);
        var g := db.InsertFile(RowOf(done));
        done := done.(globalId := g);
        ok := db.InsertLink(g, dto.cloud, LinkOf(dto));
      } else {
        if dto.path !in disk {
          return dto, false;
        }
        var n := disk[dto.path];
        done := done.(fileId := n.fileId, hash := Number(n.hash), mtime := n.mtime);
        var g := db.InsertFile(RowOf(done));
        done := done.(globalId := g);
      }
    }

    /** Replaces the file by the downloaded one and announces the deletion that the watcher will report. */
    method ProccesUpdate(dto: UpdatedDto) returns (done: UpdatedDto, ok: bool)
      requires db.Valid()
      modifies this, db, expected
      ensures db.Valid()
      ensures ok == (dto.cloud == 0 || TmpPath(dto.path) in old(disk) - {dto.path})
      ensures dto.cloud == 0 ==> done == dto && disk == old(disk) && expected.m == old(expected.m)
      ensures dto.cloud != 0 ==> expected.m == Emplace(old(expected.m), PathText(dto.path), Delete)
      ensures !ok ==> db.T() == old(db.T()) && disk == old(disk) - {dto.path}
      ensures ok && dto.cloud == 0 ==> forall n :: db.T() == LocalUpdate(old(db.T()), dto, n)
      ensures ok && dto.cloud != 0 ==>
                var n := old(disk)[TmpPath(dto.path)];
                && done == Remeasured(dto, n)
                && db.T() == LocalUpdate(old(db.T()), dto, n)
                && disk == (old(disk) - {dto.path, TmpPath(dto.path)})[dto.path := n]
      ensures ok && dto.cloud != 0 ==> TableShows(old(db.T()), db.T(), dto, old(disk)[TmpPath(dto.path)])
      ensures ok && dto.cloud != 0 ==>
                var n := old(disk)[TmpPath(dto.path)];
                done == dto.(fileId := n.fileId, size := n.size, hash := Number(n.hash), mtime := n.mtime, cloud := 0)
      ensures ok && dto.cloud == 0 ==>
                && db.links == old(db.links)
                && (dto.globalId in old(db.files) ==>
                      var row := old(db.files)[dto.globalId];
                      db.files == old(db.files)[dto.globalId := FileRow(
                        row.kind, row.path, dto.size, if dto.hash.Number? then dto.hash.number else 0, dto.mtime, dto.fileId)])
    {
      done, ok := dto, true;
      if dto.cloud != 0 {
        expected.Add(PathText(dto.path), Delete);
        disk := disk - {dto.path};
        var tmp := TmpPath(dto.path);
        if tmp !in disk {
          return dto, false;
        }
        var n := disk[tmp];
        disk := (disk - {tmp})[dto.path := n];
        db.SetLinkContent(dto.globalId, dto.cloud, dto.hash, dto.mtime, dto.size);
        done := done.(fileId := n.fileId, size := n.size, hash := Number(n.hash), mtime := n.mtime, cloud := 0);
      }
      db.SetFileContent(done.globalId, done.size, done.hash, done.mtime, done.fileId);
    }

    /** The node itself is removed later, by the callback. */
    method ProccesDelete(dto: DeletedDto)
      modifies expected
      ensures expected.m == if dto.cloud != 0 then Emplace(old(expected.m), PathText(dto.path), Delete) else old(expected.m)
    {
      if dto.cloud != 0 {
        expected.Add(PathText(dto.path), Delete);
      }
    }

    /**
     Renames the moved node and, below a directory, looks every node up by its file id and gives its row
     the new path. The nodes below are visited in any order.
     */
    method ProccesMove(dto: MovedDto) returns (done: MovedDto, ok: bool, ghost order: seq<Path>)
      requires db.Valid()
      modifies this, db, expected
      ensures db.Valid()
      ensures dto.cloud == 0 ==>
                && ok && done == dto && disk == old(disk) && expected.m == old(expected.m)
                && db.T() == UpdateFilePlace(old(db.T()), dto.globalId, dto.newPath, dto.mtime)
                && db.links == old(db.links)
                && (dto.globalId in old(db.files) ==>
                      db.files == old(db.files)[dto.globalId := old(db.files)[dto.globalId].(
                                                  path := dto.newPath, mtime := dto.mtime)])
      ensures dto.cloud != 0 ==>
                && ok == (dto.oldPath in old(disk))
                && expected.m == Emplace(old(expected.m), PathText(dto.oldPath), Move)
      ensures !ok ==> db.T() == old(db.T()) && disk == old(disk)
      ensures ok && dto.cloud != 0 ==>
                && disk == Renamed(old(disk), dto.oldPath, dto.newPath)
                && done == dto.(mtime := old(disk)[dto.oldPath].mtime, cloud := 0)
                && Lists(order, Visited(disk, dto.newPath))
                && db.T() == MovedTables(old(db.T()), old(disk), dto, order)
    {
      done, ok, order := dto, true, [];
      if dto.cloud == 0 {
        db.SetFilePlace(dto.globalId, dto.newPath, dto.mtime);
        return;
      }
      expected.Add(PathText(dto.oldPath), Move);
      if dto.oldPath !in disk {
        ok := false;
        return;
      }
      HeadLands(disk, dto);
      disk := Renamed(disk, dto.oldPath, dto.newPath);
      db.SetLinkPlace(dto.globalId, dto.cloud, dto.cloudFileId, dto.mtime, dto.newParentId);
      done := done.(mtime := disk[dto.newPath].mtime, cloud := 0);
      db.SetFilePlace(done.globalId, done.newPath, done.mtime);
      if disk[dto.newPath].folder {
        order := FollowNodes(dto.newPath);
      }
    }

    /** The recursive walk: every node below `dir`, in any order. */
    method FollowNodes(dir: Path) returns (ghost order: seq<Path>)
      requires db.Valid()
      modifies db
      ensures db.Valid()
      ensures Lists(order, Below(disk, dir))
      ensures db.T() == WalkAlong(old(db.T()), disk, order)
    {
      var rest := Below(disk, dir);
      order := [];
      while rest != {}
        invariant rest <= Below(disk, dir)
        invariant db.Valid()
        invariant Lists(order, Below(disk, dir) - rest)
        invariant db.T() == WalkAlong(old(db.T()), disk, order)
        decreases rest
      {
        var p :| p in rest;
        ListsMore(order, Below(disk, dir) - rest, p);
        rest := rest - {p};
        ghost var front := order;
        order := order + [p];
        assert order[..|order| - 1] == front;
        var g := FindByFileId(db.T(), disk[p].fileId);
        if g.Some? {
          db.SetFilePlace(g.value, p, disk[p].mtime);
        }
      }
    }
  }
}
