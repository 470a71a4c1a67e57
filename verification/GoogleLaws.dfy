/** What Google's interpretation of entries guarantees: paths are true, and an applied entry falls silent. */
module GoogleLaws {
  import opened Common
  import opened Emission
  import DirectoryMove
  import opened EventRegistry
  import opened Google
  import opened Propagation
  import opened Records
  import Scheduler
  import opened Schema

  // ---- no sync loop ----------------------------------------------------------------------------

  lemma FitsItsPath(base: Path, name: Path)
    requires base + name != []
    ensures name == FilenamePath(base + name) <==> |name| == 1
    ensures |name| != 1 ==> Parent(base + name) + name != base + name
  {
    var p := base + name;
    if |name| == 1 {
      assert p[|p| - 1..] == name;
    } else {
      assert |Parent(p) + name| != |p|;
    }
  }

  /** Condition on an entry and the path it was given; a name without a slash always satisfies it. */
  predicate Settled(e: Entry, path: Path) {
    |e.name| == 1 || Skipped(Parent(path) + e.name)
  }

  lemma LookAgain(t: Tables, c: nat, home: string, e: Entry, g: nat, base: Path, link: LinkRow)
    requires !e.trashed && link.parentId == e.parent && link.mtime == e.mtime && base + e.name != []
    ensures ClassifyLinked(t, c, home, e, g, base + e.name, link) == Silent <==> Settled(e, base + e.name)
  {
    FitsItsPath(base, e.name);
  }

  lemma ClassifyKnown(t: Tables, c: nat, home: string, e: Entry, pm: map<string, Path>, g: nat, path: Path, link: LinkRow)
    requires e.hasFile && Known(t, c, e.id, g, path, link)
    ensures Classify(t, c, home, e, pm) == ClassifyLinked(t, c, home, e, g, path, link)
  {
  }

  /** Every new or moved path ends in the entry's name. */
  lemma PlaceEndsInName(t: Tables, c: nat, home: string, e: Entry, path: Path, parentId: string)
    requires Place(t, c, home, e, path, parentId).Some? && Place(t, c, home, e, path, parentId).value != path
    ensures exists base :: Place(t, c, home, e, path, parentId).value == base + e.name
  {
    var p := Place(t, c, home, e, path, parentId).value;
    assert e.name == [] + e.name;
    if parentId == e.parent {
      assert p == Parent(path) + e.name;
    } else if FindLink(t, c, e.parent).Some? {
      assert p == PathOf(t, FindLink(t, c, e.parent).value) + e.name;
    } else {
      assert p == [] + e.name;
    }
  }

  lemma NewSettles(t: Tables, c: nat, home: string, e: Entry, pm: map<string, Path>, pm': map<string, Path>, t': Tables)
    requires Integrity(t) && c != 0
    requires Classify(t, c, home, e, pm).EmitNew? && AppliedNew(t, Classify(t, c, home, e, pm).record, t')
    ensures Classify(t', c, home, e, pm') == Silent <==> Settled(e, Classify(t, c, home, e, pm).record.path)
  {
    var r := Classify(t, c, home, e, pm).record;
    NewIsKnown(t, r, t');
    ClassifyKnown(t', c, home, e, pm', t.lastId + 1, r.path, LinkOf(r));
    var p := FindLink(t, c, e.parent);
    var base := if p.Some? then PathOf(t, p.value) else if e.parent == home then [] else pm[e.parent];
    assert r.path == base + e.name;
    LookAgain(t', c, home, e, t.lastId + 1, base, LinkOf(r));
  }

  lemma MoveSettles(t: Tables, c: nat, home: string, e: Entry, pm: map<string, Path>, pm': map<string, Path>, t': Tables)
    requires Integrity(t) && c != 0
    requires Classify(t, c, home, e, pm).EmitMove? && AppliedMove(t, Classify(t, c, home, e, pm).moved, t')
    ensures Classify(t', c, home, e, pm') == Silent <==> Settled(e, Classify(t, c, home, e, pm).moved.newPath)
  {
    var m := Classify(t, c, home, e, pm).moved;
    var link := t.links[(m.globalId, c)];
    MoveIsKnown(t, m, t');
    ClassifyKnown(t', c, home, e, pm', m.globalId, m.newPath, link.(mtime := m.mtime, parentId := m.newParentId));
    PlaceEndsInName(t, c, home, e, m.oldPath, link.parentId);
    var base :| m.newPath == base + e.name;
    LookAgain(t', c, home, e, m.globalId, base, link.(mtime := m.mtime, parentId := m.newParentId));
  }

  lemma MoveUpdateSettles(
      t: Tables, c: nat, home: string, e: Entry, pm: map<string, Path>, pm': map<string, Path>, mid: Tables, t': Tables)
    requires Integrity(t) && c != 0
    requires Classify(t, c, home, e, pm).EmitMoveUpdate?
    requires AppliedMove(t, Classify(t, c, home, e, pm).moved, mid)
    requires AppliedUpdate(mid, Classify(t, c, home, e, pm).updated, t')
    ensures Classify(t', c, home, e, pm') == Silent <==> Settled(e, Classify(t, c, home, e, pm).moved.newPath)
  {
    var m, u := Classify(t, c, home, e, pm).moved, Classify(t, c, home, e, pm).updated;
    var link := t.links[(m.globalId, c)];
    var moved := link.(mtime := m.mtime, parentId := m.newParentId);
    MoveIsKnown(t, m, mid);
    UpdateIsKnown(mid, u, t');
    var last := moved.(hash := CloudHash(u.hash), mtime := u.mtime, size := u.size);
    assert Known(t', c, e.id, m.globalId, m.newPath, last);
    ClassifyKnown(t', c, home, e, pm', m.globalId, m.newPath, last);
    PlaceEndsInName(t, c, home, e, m.oldPath, link.parentId);
    var base :| m.newPath == base + e.name;
    LookAgain(t', c, home, e, m.globalId, base, last);
  }

  lemma UpdateSettles(t: Tables, c: nat, home: string, e: Entry, pm: map<string, Path>, pm': map<string, Path>, t': Tables)
    requires Integrity(t) && c != 0
    requires Classify(t, c, home, e, pm).EmitUpdate? && AppliedUpdate(t, Classify(t, c, home, e, pm).updated, t')
    ensures Classify(t', c, home, e, pm') == Silent
  {
    var u := Classify(t, c, home, e, pm).updated;
    var g, link := u.globalId, t.links[(u.globalId, c)];
    UpdateIsKnown(t, u, t');
    var link' := link.(hash := CloudHash(u.hash), mtime := u.mtime, size := u.size);
    ClassifyKnown(t', c, home, e, pm', g, PathOf(t, g), link');
    var p := FindLink(t, c, e.parent);
    UpdateKeepsPlaces(t, u, t', e.parent, if p.Some? then p.value else 0);
    assert Place(t', c, home, e, PathOf(t, g), link.parentId) == Place(t, c, home, e, PathOf(t, g), link.parentId);
  }

  /**
   When a deletion settles. Without a second link of the same id no new folder may adopt the file; with one,
   that link's file must be skipped, or already be what the entry says.
   */
  predicate Forgotten(t: Tables, c: nat, e: Entry, pm: map<string, Path>) {
    var h := FindLink(t, c, e.id);
    if h.None? then e.trashed || e.parent == "" || e.parent !in pm || Skipped(pm[e.parent] + e.name)
    else
      var path, link := PathOf(t, h.value), t.links[(h.value, c)];
      if e.trashed then Skipped(path)
      else Skipped(Renamed(e, path)) || (link.parentId == e.parent && Renamed(e, path) == path && !Newer(e, link))
  }

  /** A deletion repeats, or turns into another change, exactly if the entry is not forgotten by then. */
  lemma DeleteSettles(t: Tables, c: nat, home: string, e: Entry, pm: map<string, Path>, pm': map<string, Path>)
    requires Integrity(t)
    requires Classify(t, c, home, e, pm).EmitDelete?
    ensures var g := Classify(t, c, home, e, pm).deleted.globalId;
            var t' := DeleteFileAndLinks(t, g);
            && (Classify(t', c, home, e, pm') == Silent <==> Forgotten(t', c, e, pm'))
            && (FindLink(t', c, e.id).None? <==> forall h :: h != g ==> !IsLink(t, h, c, e.id))
  {
    var g := Classify(t, c, home, e, pm).deleted.globalId;
    AfterDelete(t, g, c, e.id);
    AfterDelete(t, g, c, e.parent);
  }

  /**
   No sync loop. Once the change emitted for an entry has run through its whole chain, the same entry emits
   nothing if and only if its name holds no slash (or what would follow is skipped); an update never
   repeats, and after a deletion the entry is silent if and only if it is forgotten.
   */
  lemma NoSyncLoop(t: Tables, c: nat, home: string, e: Entry, pm: map<string, Path>, pm': map<string, Path>, t': Tables)
    requires Integrity(t) && c != 0
    requires Applied(t, Classify(t, c, home, e, pm), t')
    ensures match Classify(t, c, home, e, pm)
            case Silent => true
            case EmitNew(r) => Classify(t', c, home, e, pm') == Silent <==> Settled(e, r.path)
            case EmitMove(m) => Classify(t', c, home, e, pm') == Silent <==> Settled(e, m.newPath)
            case EmitUpdate(_) => Classify(t', c, home, e, pm') == Silent
            case EmitMoveUpdate(m, _) => Classify(t', c, home, e, pm') == Silent <==> Settled(e, m.newPath)
            case EmitDelete(_) => Classify(t', c, home, e, pm') == Silent <==> Forgotten(t', c, e, pm')
  {
    match Classify(t, c, home, e, pm)
    case Silent =>
    case EmitNew(_) => NewSettles(t, c, home, e, pm, pm', t');
    case EmitMove(_) => MoveSettles(t, c, home, e, pm, pm', t');
    case EmitUpdate(_) => UpdateSettles(t, c, home, e, pm, pm', t');
    case EmitMoveUpdate(m, u) =>
      var mid :| AppliedMove(t, m, mid) && AppliedUpdate(mid, u, t');
      MoveUpdateSettles(t, c, home, e, pm, pm', mid, t');
    case EmitDelete(_) => DeleteSettles(t, c, home, e, pm, pm');
  }

  /** A deletion names the file's own path exactly when the file was not renamed while it was moved out. */
  lemma DeletionPathExact(t: Tables, c: nat, home: string, e: Entry, pm: map<string, Path>)
    requires Classify(t, c, home, e, pm).EmitDelete?
    ensures var d := Classify(t, c, home, e, pm).deleted;
            d.path == PathOf(t, d.globalId) <==> e.trashed || e.name == FilenamePath(PathOf(t, d.globalId))
  {
    var path := PathOf(t, Classify(t, c, home, e, pm).deleted.globalId);
    assert Parent(path) + e.name == path ==> e.name == path[|Parent(path)|..];
  }

  /** A renamed file whose new name holds a slash: its move is emitted again once applied, one level deeper. */
  lemma SlashNameMovesAgain(row: FileRow, link: LinkRow, e: Entry, t: Tables, pm: map<string, Path>)
    requires row == FileRow(File, ["x"], 1, 7, 1, 3) && link == LinkRow("id", "home", 1, "h", 1)
    requires t == Tables(map[1 := row], map[(1, 5) := link], 1, {5}, 5)
    requires e == Entry(true, "id", false, File, ["a", "b"], "home", 2, 1, "h")
    ensures var out := Classify(t, 5, "home", e, pm);
            var t' := DirectoryMove.MoveHead(t, MovedOf(5, e, 1, ["x"], ["a", "b"], "home"), 1);
            && out == EmitMove(MovedOf(5, e, 1, ["x"], ["a", "b"], "home"))
            && Applied(t, out, t')
            && Classify(t', 5, "home", e, pm) == EmitMove(MovedOf(5, e, 1, ["a", "b"], ["a", "a", "b"], "home"))
  {
    var m := MovedOf(5, e, 1, ["x"], ["a", "b"], "home");
    var t' := DirectoryMove.MoveHead(t, m, 1);
    assert IsLink(t, 1, 5, "id") && IsLink(t', 1, 5, "id");
    assert FindLink(t, 5, "id") == Some(1) && FindLink(t', 5, "id") == Some(1);
    assert [] + e.name == e.name && ["a"] + e.name == ["a", "a", "b"];
    EmptyMoveApplies(t, m, 1);
  }

  /** A move whose node has nothing below it, and whose chain reaches no other cloud. */
  lemma EmptyMoveApplies(t: Tables, m: MovedDto, mtime: int)
    ensures AppliedMove(t, m, DirectoryMove.MoveHead(t, m, mtime))
  {
    assert Leaves([], map[], m.globalId, m.cloud) && Spares(t, map[], [], m.globalId);
    var t' := DirectoryMove.MoveHead(t, m, mtime);
    assert t' == Run(DirectoryMove.WalkAlong(t', map[], []), []);
  }

  /** A file that left the tree under a new name is deleted under a path it never had here. */
  lemma MovedOutIsDeletedElsewhere(row: FileRow, link: LinkRow, e: Entry, t: Tables, pm: map<string, Path>)
    requires row == FileRow(File, ["d", "a"], 1, 7, 1, 3) && link == LinkRow("id", "d-id", 1, "h", 1)
    requires t == Tables(map[1 := row], map[(1, 5) := link], 1, {5}, 5)
    requires e == Entry(true, "id", false, File, ["b"], "outside", 2, 1, "h")
    ensures Classify(t, 5, "home", e, pm) == EmitDelete(DeletedDto(["d", "b"], "id", 2, 1, 5))
    ensures PathOf(t, 1) == ["d", "a"]
  {
    assert IsLink(t, 1, 5, "id") && FindLink(t, 5, "id") == Some(1);
    assert FindLink(t, 5, "outside").None?;
    assert ["d"] + e.name == ["d", "b"];
  }

  // ---- what the scheduler is handed ------------------------------------------------------------

  /** No emitted change carries a dependent for its own path: the update goes to where the file moves. */
  lemma {:induction false} EmittedCarryElsewhere(
      t: Tables, c: nat, home: string, expected: map<string, ChangeType>, es: seq<Entry>, k: nat, id: nat, next: nat)
    requires k < |Interpret(t, c, home, expected, es).changes|
    ensures !Interpret(t, c, home, expected, es).changes[k].Silent?
    ensures Scheduler.CarriesElsewhere(TaskOf(Interpret(t, c, home, expected, es).changes[k], id, next))
    decreases |es|
  {
    var s, e := Interpret(t, c, home, expected, es[..|es| - 1]), es[|es| - 1];
    if k < |s.changes| {
      EmittedCarryElsewhere(t, c, home, expected, es[..|es| - 1], k, id, next);
    } else {
      var out := Classify(t, c, home, e, s.pathMap);
      SuppressKeeps(out, e.id, s.expected);
      assert Interpret(t, c, home, expected, es).changes[k] == out;
      MovedAwayCarriesElsewhere(out, id, next);
    }
  }

  // ---- paths of new entries --------------------------------------------------------------------

  /** A file or folder as the cloud holds it. */
  datatype CloudNode = CloudNode(name: Path, parent: string)

  type Tree = map<string, CloudNode>

  /** `p` is the concatenation of the names on the way from the home folder, `depth` steps up, down to `id`. */
  ghost predicate PathAt(tree: Tree, home: string, id: string, p: Path, depth: nat)
    decreases depth
  {
    if depth == 0 then id == home && p == []
    else
      && id in tree
      && |tree[id].name| <= |p|
      && p[|p| - |tree[id].name|..] == tree[id].name
      && PathAt(tree, home, tree[id].parent, p[..|p| - |tree[id].name|], depth - 1)
  }

  ghost predicate TruePath(tree: Tree, home: string, id: string, p: Path) {
    exists depth :: PathAt(tree, home, id, p, depth)
  }

  /** The home folder is the root of the tree: an id has at most one true path. */
  lemma {:induction false} TruePathUnique(tree: Tree, home: string, id: string, p: Path, q: Path, i: nat, j: nat)
    requires home !in tree && PathAt(tree, home, id, p, i) && PathAt(tree, home, id, q, j)
    ensures p == q
    decreases i
  {
    if i > 0 {
      var n := |tree[id].name|;
      TruePathUnique(tree, home, tree[id].parent, p[..|p| - n], q[..|q| - n], i - 1, j - 1);
      assert p == p[..|p| - n] + tree[id].name && q == q[..|q| - n] + tree[id].name;
    }
  }

  lemma TruePathDown(tree: Tree, home: string, id: string, q: Path)
    requires id in tree && TruePath(tree, home, tree[id].parent, q)
    ensures TruePath(tree, home, id, q + tree[id].name)
  {
    var d: nat :| PathAt(tree, home, tree[id].parent, q, d);
    var p := q + tree[id].name;
    assert p[..|p| - |tree[id].name|] == q && p[|p| - |tree[id].name|..] == tree[id].name;
    assert PathAt(tree, home, id, p, d + 1);
  }

  lemma HomePath(tree: Tree, home: string)
    ensures TruePath(tree, home, home, [])
  {
    assert PathAt(tree, home, home, [], 0);
  }

  /** Every link of the cloud sits at the true path of its file. */
  ghost predicate LinksTrue(t: Tables, c: nat, tree: Tree, home: string) {
    forall g, id :: IsLink(t, g, c, id) ==> TruePath(tree, home, id, PathOf(t, g))
  }

  /** Entry `i` is new, reports what the cloud holds, and its parent is the home folder, linked, or a new folder before it. */
  ghost predicate Grounded(t: Tables, c: nat, home: string, tree: Tree, es: seq<Entry>, i: nat)
    requires i < |es|
  {
    Unlinked(t, c, es[i]) ==>
      && es[i].id in tree && tree[es[i].id] == CloudNode(es[i].name, es[i].parent)
      && (es[i].parent == home || FindLink(t, c, es[i].parent).Some?
          || exists j: nat :: j < i && Unlinked(t, c, es[j]) && es[j].kind == Directory && es[j].id == es[i].parent)
  }

  ghost predicate AllGrounded(t: Tables, c: nat, home: string, tree: Tree, es: seq<Entry>) {
    forall i: nat :: i < |es| ==> Grounded(t, c, home, tree, es, i)
  }

  /** Every remembered folder and every emitted new file has its true path, and none of the first `n` folders was forgotten. */
  ghost predicate Sound(t: Tables, c: nat, home: string, tree: Tree, es: seq<Entry>, n: nat, s: Progress)
    requires n <= |es|
  {
    FoldersTrue(tree, home, s.pathMap) && NewsTrue(tree, home, s.changes) && FoldersRemembered(t, c, es, n, s.pathMap)
  }

  ghost predicate FoldersTrue(tree: Tree, home: string, pathMap: map<string, Path>) {
    forall id :: id in pathMap ==> TruePath(tree, home, id, pathMap[id])
  }

  ghost predicate FoldersRemembered(t: Tables, c: nat, es: seq<Entry>, n: nat, pathMap: map<string, Path>)
    requires n <= |es|
  {
    forall j: nat :: j < n && Unlinked(t, c, es[j]) && es[j].kind == Directory ==> es[j].id in pathMap
  }

  lemma ResolveIsTrue(t: Tables, c: nat, home: string, tree: Tree, es: seq<Entry>, i: nat, s: Progress)
    requires i < |es| && LinksTrue(t, c, tree, home) && Grounded(t, c, home, tree, es, i)
    requires Sound(t, c, home, tree, es, i, s) && Unlinked(t, c, es[i])
    ensures TruePath(tree, home, es[i].id, Resolve(t, c, home, es[i], s.pathMap))
  {
    var e := es[i];
    var p := FindLink(t, c, e.parent);
    if p.Some? {
      TruePathDown(tree, home, e.id, PathOf(t, p.value));
    } else if e.parent == home {
      HomePath(tree, home);
      TruePathDown(tree, home, e.id, []);
      assert [] + e.name == e.name;
    } else {
      var j: nat :| j < i && Unlinked(t, c, es[j]) && es[j].kind == Directory && es[j].id == e.parent;
      TruePathDown(tree, home, e.id, s.pathMap[e.parent]);
    }
  }

  ghost predicate NewsTrue(tree: Tree, home: string, changes: seq<Emitted>) {
    forall k :: 0 <= k < |changes| && changes[k].EmitNew? ==>
      TruePath(tree, home, changes[k].record.cloudFileId, changes[k].record.path)
  }

  lemma SuppressKeeps(out: Emitted, id: string, m: map<string, ChangeType>)
    ensures Suppress(out, id, m).out == Silent || Suppress(out, id, m).out == out
  {
  }

  lemma ClassifyNewPath(t: Tables, c: nat, home: string, e: Entry, pm: map<string, Path>)
    requires Classify(t, c, home, e, pm).EmitNew?
    ensures Unlinked(t, c, e)
    ensures Classify(t, c, home, e, pm).record.path == Resolve(t, c, home, e, pm)
    ensures Classify(t, c, home, e, pm).record.cloudFileId == e.id
  {
  }

  lemma NewsMore(tree: Tree, home: string, changes: seq<Emitted>, out: Emitted)
    requires NewsTrue(tree, home, changes)
    requires out.EmitNew? ==> TruePath(tree, home, out.record.cloudFileId, out.record.path)
    ensures NewsTrue(tree, home, changes + [out])
  {
  }

  lemma EmissionSound(t: Tables, c: nat, home: string, tree: Tree, s: Progress, e: Entry)
    requires NewsTrue(tree, home, s.changes)
    requires Unlinked(t, c, e) ==> TruePath(tree, home, e.id, Resolve(t, c, home, e, s.pathMap))
    ensures NewsTrue(tree, home, Step(t, c, home, s, e).changes)
  {
    var out := Classify(t, c, home, e, s.pathMap);
    if out.EmitNew? {
      ClassifyNewPath(t, c, home, e, s.pathMap);
    }
    SuppressKeeps(out, e.id, s.expected);
    NewsMore(tree, home, s.changes, Suppress(out, e.id, s.expected).out);
  }

  lemma RememberSound(t: Tables, c: nat, home: string, tree: Tree, es: seq<Entry>, i: nat, pathMap: map<string, Path>)
    requires i < |es| && FoldersTrue(tree, home, pathMap) && FoldersRemembered(t, c, es, i, pathMap)
    requires Unlinked(t, c, es[i]) ==> TruePath(tree, home, es[i].id, Resolve(t, c, home, es[i], pathMap))
    ensures FoldersTrue(tree, home, Remember(t, c, home, es[i], pathMap))
    ensures FoldersRemembered(t, c, es, i + 1, Remember(t, c, home, es[i], pathMap))
  {
  }

  lemma StepSound(t: Tables, c: nat, home: string, tree: Tree, es: seq<Entry>, i: nat, s: Progress)
    requires i < |es| && LinksTrue(t, c, tree, home) && Grounded(t, c, home, tree, es, i)
    requires Sound(t, c, home, tree, es, i, s)
    ensures Sound(t, c, home, tree, es, i + 1, Step(t, c, home, s, es[i]))
  {
    var e := es[i];
    if Unlinked(t, c, e) {
      ResolveIsTrue(t, c, home, tree, es, i, s);
    }
    EmissionSound(t, c, home, tree, s, e);
    RememberSound(t, c, home, tree, es, i, s.pathMap);
  }

  /** Over all pages of a batch, in order, every new entry is given the path the cloud really has for it. */
  lemma {:induction false} NewPathsAreTrue(
      t: Tables, c: nat, home: string, tree: Tree, expected: map<string, ChangeType>, es: seq<Entry>)
    requires LinksTrue(t, c, tree, home) && AllGrounded(t, c, home, tree, es)
    ensures Sound(t, c, home, tree, es, |es|, Interpret(t, c, home, expected, es))
    decreases |es|
  {
    if es != [] {
      var i := |es| - 1;
      forall k: nat | k < i
        ensures Grounded(t, c, home, tree, es[..i], k)
      {
        assert Grounded(t, c, home, tree, es, k);
        assert forall j: nat :: j < k ==> es[..i][j] == es[j];
      }
      NewPathsAreTrue(t, c, home, tree, expected, es[..i]);
      assert Grounded(t, c, home, tree, es, i);
      StepSound(t, c, home, tree, es, i, Interpret(t, c, home, expected, es[..i]));
    }
  }

  // ---- whole batches ---------------------------------------------------------------------------

  /** What the entries of a batch emit, each given what those before it left behind. */
  function Told(t: Tables, c: nat, home: string, expected: map<string, ChangeType>, es: seq<Entry>): seq<Emitted> {
    if es == [] then []
    else
      var front, e := es[..|es| - 1], es[|es| - 1];
      var s := Interpret(t, c, home, expected, front);
      Told(t, c, home, expected, front) + [Suppress(Classify(t, c, home, e, s.pathMap), e.id, s.expected).out]
  }

  function Spoken(told: seq<Emitted>): seq<Emitted> {
    if told == [] then []
    else Spoken(told[..|told| - 1]) + (if told[|told| - 1].Silent? then [] else [told[|told| - 1]])
  }

  /** A batch yields what its entries emit, in order, and nothing else. */
  lemma {:induction false} BatchExactly(
      t: Tables, c: nat, home: string, expected: map<string, ChangeType>, es: seq<Entry>)
    ensures Interpret(t, c, home, expected, es).changes == Spoken(Told(t, c, home, expected, es))
    decreases |es|
  {
    if es != [] {
      var front, e := es[..|es| - 1], es[|es| - 1];
      BatchExactly(t, c, home, expected, front);
      var told := Told(t, c, home, expected, front);
      assert Told(t, c, home, expected, es)[..|told|] == told;
    }
  }
}
