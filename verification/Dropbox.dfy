/**
 Dropbox: how a batch of reported entries becomes changes. Entries carry whole paths; deletions carry no
 id, so the id is looked up by path. Deletions wait until the end of the batch, and a move to the path of
 a waiting deletion cancels it.
 */
module Dropbox {
  import opened Common
  import opened Emission
  import opened EventRegistry
  import opened Records
  import opened Schema
  import opened Store
  import opened ThreadSafeQueue

  datatype Tag = TagFile | TagFolder | TagDeleted

  /** `path` is relative to the home folder; `id` is empty when the entry names none. */
  datatype Entry = Entry(tag: Tag, id: string, path: Path, downloadable: bool, mtime: int, size: nat, hash: string)

  function KindOf(e: Entry): EntryType {
    if e.tag == TagFolder then Directory else if !e.downloadable then Document else File
  }

  /** Only files report contents. */
  function Mtime(e: Entry): int {
    if e.tag == TagFile then e.mtime else 0
  }

  function Size(e: Entry): nat {
    if e.tag == TagFile then e.size else 0
  }

  function Hash(e: Entry): string {
    if e.tag == TagFile then e.hash else ""
  }

  function IdOf(t: Tables, c: nat, e: Entry): string {
    if e.id == "" then CloudFileIdByPath(t, e.path, c) else e.id
  }

  predicate Newer(e: Entry, link: LinkRow) {
    e.tag == TagFile && e.mtime > link.mtime && e.hash != link.hash
  }

  function MovedOf(c: nat, e: Entry, id: string, g: nat, from: Path): MovedDto {
    MovedDto(KindOf(e), from, e.path, id, "", "", Mtime(e), g, c)
  }

  function UpdatedOf(c: nat, e: Entry, id: string, g: nat): UpdatedDto {
    UpdatedDto(KindOf(e), e.path, id, Text(Hash(e)), "", Size(e), Mtime(e), 0, g, c)
  }

  function ClassifyLinked(c: nat, e: Entry, id: string, g: nat, path: Path, link: LinkRow): Emitted {
    if e.tag == TagDeleted then EmitDelete(DeletedDto(e.path, id, 0, g, c))
    else if e.path != path && Newer(e, link) then EmitMoveUpdate(MovedOf(c, e, id, g, path), UpdatedOf(c, e, id, g))
    else if e.path != path then EmitMove(MovedOf(c, e, id, g, path))
    else if Newer(e, link) then EmitUpdate(UpdatedOf(c, e, id, g))
    else Silent
  }

  function Classify(t: Tables, c: nat, e: Entry): Emitted {
    var id := IdOf(t, c, e);
    var g := FindLink(t, c, id);
    if Skipped(e.path) then Silent
    else if g.Some? then ClassifyLinked(c, e, id, g.value, PathOf(t, g.value), t.links[(g.value, c)])
    else if e.tag == TagDeleted then Silent
    else EmitNew(RecordDto(KindOf(e), e.path, "", id, Text(Hash(e)), Size(e), 0, Mtime(e), 0, c))
  }

  // ---- what is emitted, field by field -----------------------------------------------------------

  ghost predicate LinkedEmits(c: nat, e: Entry, id: string, g: nat, path: Path, link: LinkRow, out: Emitted) {
    var kind := if e.tag == TagFolder then Directory else if e.downloadable then File else Document;
    var edited := e.tag == TagFile && e.mtime > link.mtime && e.hash != link.hash;
    if e.tag == TagDeleted then out == EmitDelete(DeletedDto(e.path, id, 0, g, c))
    else
      && (out.EmitUpdate? || out.EmitMoveUpdate? <==> edited)
      && (out.EmitMove? || out.EmitMoveUpdate? <==> e.path != path)
      && (out.Silent? <==> !edited && e.path == path)
      && (edited ==> out.updated == UpdatedDto(kind, e.path, id, Text(e.hash), "", e.size, e.mtime, 0, g, c))
      && (e.path != path ==>
            out.moved == MovedDto(kind, path, e.path, id, "", "", if e.tag == TagFile then e.mtime else 0, g, c))
  }

  /**
   What one entry emits, by the fields it reports. Its id is the one it names, or else the one the tables hold for its
   path. A known entry is deleted when reported as deleted, is moved if and only if its path changed, and is updated if
   and only if it is a file, its time is later and its hash differs. An unknown one is new unless reported as deleted.
   */
  lemma EmitsExactly(t: Tables, c: nat, e: Entry)
    ensures var id := if e.id != "" then e.id else CloudFileIdByPath(t, e.path, c);
            var g, out := FindLink(t, c, id), Classify(t, c, e);
            && (e.path == [] || e.path == ["."] ==> out == Silent)
            && (e.path != [] && e.path != ["."] ==>
                  && (g.Some? ==> LinkedEmits(c, e, id, g.value, PathOf(t, g.value), t.links[(g.value, c)], out))
                  && (g.None? && e.tag == TagDeleted ==> out == Silent)
                  && (g.None? && e.tag == TagFile ==>
                        out == EmitNew(RecordDto(if e.downloadable then File else Document, e.path, "", id,
                                                 Text(e.hash), e.size, 0, e.mtime, 0, c)))
                  && (g.None? && e.tag == TagFolder ==>
                        out == EmitNew(RecordDto(Directory, e.path, "", id, Text(""), 0, 0, 0, 0, c))))
  {
  }

  // ---- batches ---------------------------------------------------------------------------------

  /** New entries and deletions are expected by path, moves and updates by id. */
  function Suppress(out: Emitted, e: Entry, id: string, m: map<string, ChangeType>): Verdict {
    match out
    case Silent => Verdict(Silent, m)
    case EmitNew(_) => Check(out, PathText(e.path), New, m)
    case EmitDelete(_) => Check(out, PathText(e.path), Delete, m)
    case EmitMove(_) => Check(out, id, Move, m)
    case EmitUpdate(_) => Check(out, id, Update, m)
    case EmitMoveUpdate(_, _) => if Expects(m, id, Move) then Check(out, id, Move, m) else Check(out, id, Update, m)
  }

  /** A suppressed change and its expectation vanish together; any other leaves the registry as it is. */
  lemma SuppressedExactly(out: Emitted, e: Entry, id: string, m: map<string, ChangeType>)
    requires !out.Silent?
    ensures var v, key := Suppress(out, e, id, m), if out.EmitNew? || out.EmitDelete? then PathText(e.path) else id;
            && (v.out.Silent? <==>
                  key in m && match out
                              case EmitNew(_) => m[key] == New
                              case EmitDelete(_) => m[key] == Delete
                              case EmitMove(_) => m[key] == Move
                              case EmitUpdate(_) => m[key] == Update
                              case EmitMoveUpdate(_, _) => m[key] == Move || m[key] == Update)
            && (v.out.Silent? ==> v.expected == m - {key})
            && (!v.out.Silent? ==> v.out == out && v.expected == m)
  {
  }

  datatype Progress = Progress(
    expected: map<string, ChangeType>, pending: map<string, Emitted>, changes: seq<Emitted>)

  function Add(s: Progress, e: Entry, out: Emitted): Progress {
    var key := PathText(e.path);
    match out
    case Silent => s
    case EmitDelete(_) => if key in s.pending then s else s.(pending := s.pending[key := out])
    case EmitMove(_) => s.(pending := s.pending - {key}, changes := s.changes + [out])
    case EmitMoveUpdate(_, _) => s.(pending := s.pending - {key}, changes := s.changes + [out])
    case _ => s.(changes := s.changes + [out])
  }

  function Step(t: Tables, c: nat, s: Progress, e: Entry): Progress {
    var v := Suppress(Classify(t, c, e), e, IdOf(t, c, e), s.expected);
    Add(s.(expected := v.expected), e, v.out)
  }

  function Interpret(t: Tables, c: nat, expected: map<string, ChangeType>, es: seq<Entry>): Progress {
    if es == [] then Progress(expected, map[], [])
    else Step(t, c, Interpret(t, c, expected, es[..|es| - 1]), es[|es| - 1])
  }

  lemma InterpretMore(t: Tables, c: nat, expected: map<string, ChangeType>, es: seq<Entry>, j: nat)
    requires j < |es|
    ensures Interpret(t, c, expected, es[..j + 1]) == Step(t, c, Interpret(t, c, expected, es[..j]), es[j])
  {
    assert es[..j + 1][..j] == es[..j];
  }

  function Along(m: map<string, Emitted>, order: seq<string>): seq<Emitted>
    requires forall k :: k in order ==> k in m
  {
    seq(|order|, i requires 0 <= i < |order| => m[order[i]])
  }

  class Dropbox {
    const id: nat
    const db: Database
    const expected: ThreadSafeEventsRegistry
    const events: Queue<seq<Entry>>

    constructor (id: nat, db: Database)
      ensures this.id == id && this.db == db
      ensures fresh(expected) && fresh(events) && expected.m == map[] && events.items == []
    {
      this.id, this.db := id, db;
      expected := new ThreadSafeEventsRegistry();
      events := new Queue();
    }

    /** The entries of one batch in order, then the deletions that are still waiting, in any order. */
    method ProccessChanges() returns (changes: seq<Emitted>, ghost order: seq<string>)
      modifies events, expected
      ensures old(events.items) == [] ==> changes == [] && expected.m == old(expected.m)
      ensures old(events.items) != [] ==>
                && events.items == old(events.items)[1..]
                && expected.m == map[]
                && var s := Interpret(db.T(), id, old(expected.m), old(events.items)[0]);
                   Lists(order, s.pending.Keys) && changes == s.changes + Along(s.pending, order)
    {
      changes, order := [], [];
      var batch := events.TryPop();
      if batch.None? {
        return;
      }
      var entries := batch.value;
      var snapshot := expected.CopyMap();
      var prev := new PrevEventsRegistry(snapshot);
      var pending: map<string, Emitted> := map[];
      ghost var t := db.T();
      var j := 0;
      while j < |entries|
        invariant 0 <= j <= |entries| && fresh(prev)
        invariant Progress(prev.m, pending, changes) == Interpret(t, id, snapshot, entries[..j])
        modifies prev
      {
        InterpretMore(t, id, snapshot, entries, j);
        pending, changes := ProccessEntry(entries[j], pending, changes, prev);
        j := j + 1;
      }
      assert entries[..j] == entries;
      var rest := pending.Keys;
      ghost var before := changes;
      while rest != {}
        invariant rest <= pending.Keys
        invariant Lists(order, pending.Keys - rest)
        invariant changes == before + Along(pending, order)
        modifies {}
        decreases rest
      {
        var key :| key in rest;
        ListsMore(order, pending.Keys - rest, key);
        rest := rest - {key};
        assert Along(pending, order + [key]) == Along(pending, order) + [pending[key]];
        order := order + [key];
        changes := changes + [pending[key]];
      }
    }

    method ProccessEntry(e: Entry, pending: map<string, Emitted>, changes: seq<Emitted>, prev: PrevEventsRegistry)
      returns (pending': map<string, Emitted>, changes': seq<Emitted>)
      modifies prev
      ensures Progress(prev.m, pending', changes') == Step(db.T(), id, Progress(old(prev.m), pending, changes), e)
    {
      pending', changes' := pending, changes;
      var out, fileId := Evaluate(e);
      var needMove := out.EmitMove? || out.EmitMoveUpdate?;
      var needUpdate := out.EmitUpdate? || out.EmitMoveUpdate?;
      var found := false;
      if out.EmitNew? {
        found := prev.Check(PathText(e.path), New);
      }
      if out.EmitDelete? {
        found := prev.Check(PathText(e.path), Delete);
      }
      if needMove {
        found := prev.Check(fileId, Move);
      }
      if !found && needUpdate {
        found := prev.Check(fileId, Update);
      }
      if found || out.Silent? {
        return;
      }
      if out.EmitDelete? {
        if PathText(e.path) !in pending' {
          pending' := pending'[PathText(e.path) := out];
        }
        return;
      }
      if needMove {
        pending' := pending' - {PathText(e.path)};
      }
      changes' := changes' + [out];
    }

    /** What the entry means by itself, flag by flag. */
    method Evaluate(e: Entry) returns (out: Emitted, fileId: string)
      ensures out == Classify(db.T(), id, e)
      ensures fileId == IdOf(db.T(), id, e)
    {
      out, fileId := Silent, e.id;
      if fileId == "" {
        fileId := db.GetCloudFileIdByPath(e.path, id);
      }
      if e.path == [] || e.path == ["."] {
        return;
      }
      var t := db.T();
      var mtime, size, hash := 0, 0, "";
      if e.tag == TagFile {
        mtime, size, hash := e.mtime, e.size, e.hash;
      }
      var link := FindLink(t, id, fileId);
      var existed := link.Some?;
      var globalId := if existed then link.value else 0;
      var oldPath := if existed then PathOf(t, globalId) else [];
      var needNew := !existed && e.tag != TagDeleted;
      var needDel := existed && e.tag == TagDeleted;
      var needMove := existed && e.tag != TagDeleted && e.path != oldPath;
      var needUpdate := existed && e.tag == TagFile
        && mtime > t.links[(globalId, id)].mtime && hash != t.links[(globalId, id)].hash;
      var moved := MovedDto(KindOf(e), oldPath, e.path, fileId, "", "", mtime, globalId, id);
      var updated := UpdatedDto(KindOf(e), e.path, fileId, Text(hash), "", size, mtime, 0, globalId, id);
      if needMove && needUpdate {
        out := EmitMoveUpdate(moved, updated);
      } else if needNew {
        out := EmitNew(RecordDto(KindOf(e), e.path, "", fileId, Text(hash), size, 0, mtime, 0, id));
      } else if needDel {
        out := EmitDelete(DeletedDto(e.path, fileId, mtime, globalId, id));
      } else if needMove {
        out := EmitMove(moved);
      } else if needUpdate {
        out := EmitUpdate(updated);
      }
    }
  }
}
