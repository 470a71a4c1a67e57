/**
 Google Drive: how a batch of reported entries becomes changes. Entries name their parent folder by id,
 so paths are rebuilt from the tables, the home folder, and the new folders met earlier in the batch.
 */
module Google {
  import opened Common
  import opened Emission
  import opened EventRegistry
  import opened Propagation
  import opened Records
  import opened Schema
  import opened Store
  import opened ThreadSafeQueue

  /**
   One reported change. A name is text that becomes a path when it is joined to one: a name without a
   slash is one component, a name with slashes is several.
   */
  datatype Entry = Entry(
    hasFile: bool, id: string, trashed: bool, kind: EntryType, name: Path, parent: string,
    mtime: int, size: nat, hash: string)

  function FilenamePath(p: Path): Path {
    if p == [] then [] else p[|p| - 1..]
  }

  // ---- classification --------------------------------------------------------------------------

  /** The path of an unlinked entry; empty when its parent is not known yet. */
  function Resolve(t: Tables, c: nat, home: string, e: Entry, pathMap: map<string, Path>): Path {
    var p := FindLink(t, c, e.parent);
    if p.Some? then PathOf(t, p.value) + e.name
    else if e.parent == home then e.name
    else if e.parent in pathMap then pathMap[e.parent] + e.name
    else []
  }

  /** The path of a linked entry; None when it was moved out of the synchronised tree. */
  function Place(t: Tables, c: nat, home: string, e: Entry, path: Path, parentId: string): Option<Path> {
    if parentId != e.parent then
      var p := FindLink(t, c, e.parent);
      if p.Some? then Some(PathOf(t, p.value) + e.name)
      else if e.parent == home then Some(e.name)
      else None
    else if e.name != FilenamePath(path) then Some(Parent(path) + e.name)
    else Some(path)
  }

  predicate Newer(e: Entry, link: LinkRow) {
    e.kind != Directory && e.mtime > link.mtime && e.hash != link.hash
  }

  function MovedOf(c: nat, e: Entry, g: nat, from: Path, to: Path, parentId: string): MovedDto {
    MovedDto(e.kind, from, to, e.id, parentId, e.parent, e.mtime, g, c)
  }

  function UpdatedOf(c: nat, e: Entry, g: nat, path: Path): UpdatedDto {
    UpdatedDto(e.kind, path, e.id, Text(e.hash), e.parent, e.size, e.mtime, 0, g, c)
  }

  function ClassifyLinked(t: Tables, c: nat, home: string, e: Entry, g: nat, path: Path, link: LinkRow): Emitted {
    var place := if e.trashed then None else Place(t, c, home, e, path, link.parentId);
    if place.None? then
      var path' := if e.trashed then path else Renamed(e, path);
      if Skipped(path') then Silent else EmitDelete(DeletedDto(path', e.id, e.mtime, g, c))
    else if Skipped(place.value) then Silent
    else if place.value != path && Newer(e, link) then
      EmitMoveUpdate(MovedOf(c, e, g, path, place.value, link.parentId), UpdatedOf(c, e, g, place.value))
    else if place.value != path then EmitMove(MovedOf(c, e, g, path, place.value, link.parentId))
    else if Newer(e, link) then EmitUpdate(UpdatedOf(c, e, g, place.value))
    else Silent
  }

  /** The path of an entry whose name alone changed; a file moved out carries it into its deletion. */
  function Renamed(e: Entry, path: Path): Path {
    if e.name != FilenamePath(path) then Parent(path) + e.name else path
  }

  function Classify(t: Tables, c: nat, home: string, e: Entry, pathMap: map<string, Path>): Emitted {
    var g := FindLink(t, c, e.id);
    if !e.hasFile then Silent
    else if g.Some? then ClassifyLinked(t, c, home, e, g.value, PathOf(t, g.value), t.links[(g.value, c)])
    else if e.trashed || e.parent == "" then Silent
    else
      var path := Resolve(t, c, home, e, pathMap);
      if Skipped(path) then Silent
      else EmitNew(RecordDto(e.kind, path, e.parent, e.id, Text(e.hash), e.size, 0, e.mtime, 0, c))
  }

  // ---- what is emitted, field by field -----------------------------------------------------------

  /** The path a linked entry has now: in the folder it was in, or in the folder that it names. */
  ghost predicate StandsAt(t: Tables, c: nat, home: string, e: Entry, path: Path, oldParent: string, to: Path) {
    if e.parent == oldParent then to == Parent(path) + e.name
    else
      var folder := FindLink(t, c, e.parent);
      || (folder.Some? && to == PathOf(t, folder.value) + e.name)
      || (folder.None? && e.parent == home && to == e.name)
  }

  ghost predicate LeftTheTree(t: Tables, c: nat, home: string, e: Entry, oldParent: string) {
    e.parent != oldParent && e.parent != home && forall g: nat :: g <= t.lastId ==> !IsLink(t, g, c, e.parent)
  }

  /** The path of an entry no link knows: in a linked folder, in the home folder, or in a folder of this batch. */
  ghost predicate AppearsAt(t: Tables, c: nat, home: string, e: Entry, pathMap: map<string, Path>, at: Path) {
    var folder := FindLink(t, c, e.parent);
    || (folder.Some? && at == PathOf(t, folder.value) + e.name)
    || (folder.None? && e.parent == home && at == e.name)
    || (folder.None? && e.parent != home && e.parent in pathMap && at == pathMap[e.parent] + e.name)
  }

  /** A file in the tree is updated exactly if it is newer with other contents, and moved exactly if its path changed. */
  ghost predicate ReportsAt(c: nat, e: Entry, g: nat, path: Path, link: LinkRow, to: Path, out: Emitted) {
    var edited := e.kind != Directory && e.mtime > link.mtime && e.hash != link.hash;
    if to == [] || to == ["."] then out == Silent
    else
      && (out.EmitUpdate? || out.EmitMoveUpdate? <==> edited)
      && (out.EmitMove? || out.EmitMoveUpdate? <==> to != path)
      && (out.Silent? <==> !edited && to == path)
      && (edited ==> out.updated
                     == UpdatedDto(e.kind, to, e.id, Text(e.hash), e.parent, e.size, e.mtime, 0, g, c))
      && (to != path ==> out.moved == MovedDto(e.kind, path, to, e.id, link.parentId, e.parent, e.mtime, g, c))
  }

  ghost predicate DeletesAt(c: nat, e: Entry, g: nat, at: Path, out: Emitted) {
    if at == [] || at == ["."] then out == Silent else out == EmitDelete(DeletedDto(at, e.id, e.mtime, g, c))
  }

  ghost predicate CreatesAt(c: nat, e: Entry, at: Path, out: Emitted) {
    if at == [] || at == ["."] then out == Silent
    else out == EmitNew(RecordDto(e.kind, at, e.parent, e.id, Text(e.hash), e.size, 0, e.mtime, 0, c))
  }

  ghost predicate LinkedEmits(
      t: Tables, c: nat, home: string, e: Entry, g: nat, path: Path, link: LinkRow, out: Emitted)
  {
    && (e.trashed ==> DeletesAt(c, e, g, path, out))
    && (!e.trashed && LeftTheTree(t, c, home, e, link.parentId) ==> DeletesAt(c, e, g, Parent(path) + e.name, out))
    && (!e.trashed ==> forall to :: StandsAt(t, c, home, e, path, link.parentId, to) ==>
                         ReportsAt(c, e, g, path, link, to, out))
  }

  lemma LinkedEmitsExactly(t: Tables, c: nat, home: string, e: Entry, g: nat, path: Path, link: LinkRow)
    requires forall h :: (h, c) in t.links ==> h <= t.lastId
    ensures LinkedEmits(t, c, home, e, g, path, link, ClassifyLinked(t, c, home, e, g, path, link))
    ensures !LeftTheTree(t, c, home, e, link.parentId) ==> exists to :: StandsAt(t, c, home, e, path, link.parentId, to)
  {
    var folder := FindLink(t, c, e.parent);
    assert e.name == FilenamePath(path) ==> Parent(path) + e.name == path;
    var to := if e.parent == link.parentId then Parent(path) + e.name
              else if folder.Some? then PathOf(t, folder.value) + e.name else e.name;
    if !LeftTheTree(t, c, home, e, link.parentId) {
      assert StandsAt(t, c, home, e, path, link.parentId, to);
    }
  }

  /**
   What one entry emits, by the fields it reports. An entry that a link knows is deleted when it is trashed or has left
   the tree, is moved if and only if its path changed, and is updated if and only if it is no directory, its time is
   later and its hash differs. An entry no link knows is new at the path of the folder that it names, if any is known.
   */
  lemma EmitsExactly(t: Tables, c: nat, home: string, e: Entry, pathMap: map<string, Path>)
    requires Integrity(t)
    ensures var g, out := FindLink(t, c, e.id), Classify(t, c, home, e, pathMap);
            && (!e.hasFile ==> out == Silent)
            && (e.hasFile && g.Some? ==>
                  LinkedEmits(t, c, home, e, g.value, PathOf(t, g.value), t.links[(g.value, c)], out))
            && (e.hasFile && g.None? ==>
                  && (e.trashed || e.parent == "" ==> out == Silent)
                  && (!e.trashed && e.parent != "" ==>
                        && (forall at :: AppearsAt(t, c, home, e, pathMap, at) ==> CreatesAt(c, e, at, out))
                        && (out.Silent? || AppearsAt(t, c, home, e, pathMap, out.record.path))))
  {
    if e.hasFile {
      var g := FindLink(t, c, e.id);
      if g.Some? {
        LinkedEmitsExactly(t, c, home, e, g.value, PathOf(t, g.value), t.links[(g.value, c)]);
      }
    }
  }

  // ---- batches ---------------------------------------------------------------------------------

  /** Expected changes are dropped; a new entry is expected by path, all others by id. */
  function Suppress(out: Emitted, id: string, m: map<string, ChangeType>): Verdict {
    match out
    case Silent => Verdict(Silent, m)
    case EmitNew(r) => Check(out, PathText(r.path), New, m)
    case EmitDelete(_) => Check(out, id, Delete, m)
    case EmitMove(_) => Check(out, id, Move, m)
    case EmitUpdate(_) => Check(out, id, Update, m)
    case EmitMoveUpdate(_, _) => if Expects(m, id, Move) then Check(out, id, Move, m) else Check(out, id, Update, m)
  }

  datatype Progress = Progress(pathMap: map<string, Path>, expected: map<string, ChangeType>, changes: seq<Emitted>)

  /** An entry that no link knows and that names a parent. */
  predicate Unlinked(t: Tables, c: nat, e: Entry) {
    e.hasFile && FindLink(t, c, e.id).None? && !e.trashed && e.parent != ""
  }

  /** A new folder is remembered, even when its own path could not be resolved. */
  function Remember(t: Tables, c: nat, home: string, e: Entry, pathMap: map<string, Path>): map<string, Path> {
    if Unlinked(t, c, e) && e.kind == Directory then pathMap[e.id := Resolve(t, c, home, e, pathMap)] else pathMap
  }

  /** A suppressed change and its expectation vanish together; any other leaves the registry as it is. */
  lemma SuppressedExactly(out: Emitted, id: string, m: map<string, ChangeType>)
    requires !out.Silent?
    ensures var v, path := Suppress(out, id, m), if out.EmitNew? then PathText(out.record.path) else id;
            && (v.out.Silent? <==>
                  path in m && match out
                               case EmitNew(_) => m[path] == New
                               case EmitDelete(_) => m[path] == Delete
                               case EmitMove(_) => m[path] == Move
                               case EmitUpdate(_) => m[path] == Update
                               case EmitMoveUpdate(_, _) => m[path] == Move || m[path] == Update)
            && (v.out.Silent? ==> v.expected == m - {path})
            && (!v.out.Silent? ==> v.out == out && v.expected == m)
  {
  }

  function Step(t: Tables, c: nat, home: string, s: Progress, e: Entry): Progress {
    var v := Suppress(Classify(t, c, home, e, s.pathMap), e.id, s.expected);
    Progress(Remember(t, c, home, e, s.pathMap), v.expected, if v.out.Silent? then s.changes else s.changes + [v.out])
  }

  function Interpret(t: Tables, c: nat, home: string, expected: map<string, ChangeType>, es: seq<Entry>): Progress {
    if es == [] then Progress(map[], expected, [])
    else Step(t, c, home, Interpret(t, c, home, expected, es[..|es| - 1]), es[|es| - 1])
  }

  function Entries(pages: seq<seq<Entry>>): seq<Entry> {
    if pages == [] then [] else Entries(pages[..|pages| - 1]) + pages[|pages| - 1]
  }

  lemma InterpretMore(
      t: Tables, c: nat, home: string, expected: map<string, ChangeType>, done: seq<Entry>, page: seq<Entry>, j: nat)
    requires j < |page|
    ensures Interpret(t, c, home, expected, done + page[..j + 1])
            == Step(t, c, home, Interpret(t, c, home, expected, done + page[..j]), page[j])
  {
    var es := done + page[..j + 1];
    assert es[..|es| - 1] == done + page[..j];
  }

  class GoogleDrive {
    const id: nat
    const home: string
    const db: Database
    const expected: ThreadSafeEventsRegistry
    const events: Queue<seq<seq<Entry>>>

    constructor (id: nat, home: string, db: Database)
      ensures this.id == id && this.home == home && this.db == db
      ensures fresh(expected) && fresh(events) && expected.m == map[] && events.items == []
    {
      this.id, this.home, this.db := id, home, db;
      expected := new ThreadSafeEventsRegistry();
      events := new Queue();
    }

    /** Takes one batch, snapshots the registry, and interprets every entry of every page in order. */
    method ProccessChanges() returns (changes: seq<Emitted>)
      modifies events, expected
      ensures old(events.items) == [] ==> changes == [] && expected.m == old(expected.m)
      ensures old(events.items) != [] ==>
                && events.items == old(events.items)[1..]
                && expected.m == map[]
                && changes == Interpret(db.T(), id, home, old(expected.m), Entries(old(events.items)[0])).changes
    {
      changes := [];
      var batch := events.TryPop();
      if batch.None? {
        return;
      }
      var pages := batch.value;
      var snapshot := expected.CopyMap();
      var prev := new PrevEventsRegistry(snapshot);
      var pathMap: map<string, Path> := map[];
      ghost var t := db.T();
      var i := 0;
      while i < |pages|
        invariant 0 <= i <= |pages| && fresh(prev)
        invariant Progress(pathMap, prev.m, changes) == Interpret(t, id, home, snapshot, Entries(pages[..i]))
        modifies prev
      {
        pathMap, changes := ProccessPage(pages[i], pathMap, changes, prev, snapshot, Entries(pages[..i]));
        assert pages[..i + 1][..i] == pages[..i];
        i := i + 1;
      }
      assert pages[..i] == pages;
    }

    /** `done` lists the entries of the pages before. */
    method ProccessPage(
        page: seq<Entry>, pathMap0: map<string, Path>, changes0: seq<Emitted>, prev: PrevEventsRegistry,
        ghost snapshot: map<string, ChangeType>, ghost done: seq<Entry>)
      returns (pathMap: map<string, Path>, changes: seq<Emitted>)
      requires Progress(pathMap0, prev.m, changes0) == Interpret(db.T(), id, home, snapshot, done)
      modifies prev
      ensures Progress(pathMap, prev.m, changes) == Interpret(db.T(), id, home, snapshot, done + page)
    {
      pathMap, changes := pathMap0, changes0;
      ghost var t := db.T();
      var j := 0;
      assert done + page[..0] == done;
      while j < |page|
        invariant 0 <= j <= |page| && db.T() == t
        invariant Progress(pathMap, prev.m, changes) == Interpret(t, id, home, snapshot, done + page[..j])
        modifies prev
      {
        InterpretMore(t, id, home, snapshot, done, page, j);
        pathMap, changes := ProccessEntry(page[j], pathMap, changes, prev);
        j := j + 1;
      }
      assert page[..j] == page;
    }

    method ProccessEntry(
        e: Entry, pathMap: map<string, Path>, changes: seq<Emitted>, prev: PrevEventsRegistry)
      returns (pathMap': map<string, Path>, changes': seq<Emitted>)
      modifies prev
      ensures Progress(pathMap', prev.m, changes') == Step(db.T(), id, home, Progress(pathMap, old(prev.m), changes), e)
    {
      var out;
      out, pathMap' := Evaluate(e, pathMap);
      changes' := changes;
      var needMove := out.EmitMove? || out.EmitMoveUpdate?;
      var needUpdate := out.EmitUpdate? || out.EmitMoveUpdate?;
      var found := false;
      if out.EmitNew? {
        found := prev.Check(PathText(out.record.path), New);
      }
      if out.EmitDelete? {
        found := prev.Check(e.id, Delete);
      }
      if needMove {
        found := prev.Check(e.id, Move);
      }
      if !found && needUpdate {
        found := prev.Check(e.id, Update);
      }
      if !found && !out.Silent? {
        changes' := changes' + [out];
      }
    }

    /** What the entry means by itself, flag by flag. */
    method Evaluate(e: Entry, pathMap: map<string, Path>) returns (out: Emitted, pathMap': map<string, Path>)
      ensures pathMap' == Remember(db.T(), id, home, e, pathMap)
      ensures out == Classify(db.T(), id, home, e, pathMap)
    {
      out, pathMap' := Silent, pathMap;
      if !e.hasFile {
        return;
      }
      var t := db.T();
      var link := FindLink(t, id, e.id);
      if link.None? {
        if e.trashed || e.parent == "" {
          return;
        }
        var relPath: Path := [];
        var parentLink := FindLink(t, id, e.parent);
        if parentLink.Some? {
          relPath := PathOf(t, parentLink.value) + e.name;
        } else if e.parent == home {
          relPath := e.name;
        } else if e.parent in pathMap {
          relPath := pathMap[e.parent] + e.name;
        }
        if e.kind == Directory {
          pathMap' := pathMap[e.id := relPath];
        }
        if relPath != [] && relPath != ["."] {
          out := EmitNew(RecordDto(e.kind, relPath, e.parent, e.id, Text(e.hash), e.size, 0, e.mtime, 0, id));
        }
        return;
      }
      out := EvaluateLinked(e, link.value);
    }

    method EvaluateLinked(e: Entry, globalId: nat) returns (out: Emitted)
      requires (globalId, id) in db.links
      ensures out == ClassifyLinked(
                       db.T(), id, home, e, globalId, PathOf(db.T(), globalId), db.T().links[(globalId, id)])
      ensures db.Valid() ==>
                LinkedEmits(db.T(), id, home, e, globalId, PathOf(db.T(), globalId), db.links[(globalId, id)], out)
    {
      var link := db.links[(globalId, id)];
      var oldPath := PathOf(db.T(), globalId);
      if db.Valid() {
        LinkedEmitsExactly(db.T(), id, home, e, globalId, oldPath, link);
      }
      var trashed, newPath, relPath := LocateLinked(e, oldPath, link.parentId);
      if relPath == [] || relPath == ["."] {
        return Silent;
      }
      var needMove := !trashed && newPath != oldPath;
      var needUpdate := !trashed && Newer(e, link);
      if needMove && needUpdate {
        out := EmitMoveUpdate(MovedOf(id, e, globalId, oldPath, newPath, link.parentId), UpdatedOf(id, e, globalId, newPath));
      } else if trashed {
        out := EmitDelete(DeletedDto(relPath, e.id, e.mtime, globalId, id));
      } else if needMove {
        out := EmitMove(MovedOf(id, e, globalId, oldPath, newPath, link.parentId));
      } else if needUpdate {
        out := EmitUpdate(UpdatedOf(id, e, globalId, newPath));
      } else {
        out := Silent;
      }
    }

    /** `trashed` also covers a file moved out of the tree. */
    method LocateLinked(e: Entry, oldPath: Path, oldParent: string)
      returns (trashed: bool, newPath: Path, relPath: Path)
      ensures e.trashed ==> trashed && relPath == oldPath
      ensures !e.trashed ==> trashed == Place(db.T(), id, home, e, oldPath, oldParent).None?
      ensures !e.trashed && trashed ==> relPath == Renamed(e, oldPath)
      ensures !trashed ==> Place(db.T(), id, home, e, oldPath, oldParent) == Some(newPath) && relPath == newPath
    {
      trashed, newPath, relPath := e.trashed, oldPath, oldPath;
      if !trashed {
        if e.name != FilenamePath(oldPath) {
          newPath := Parent(oldPath) + e.name;
        }
        if oldParent != e.parent {
          var parentLink := FindLink(db.T(), id, e.parent);
          if parentLink.Some? {
            newPath := PathOf(db.T(), parentLink.value) + e.name;
          } else if e.parent == home {
            newPath := e.name;
          } else {
            trashed := true;
          }
        }
        relPath := newPath;
      }
    }
  }
}
