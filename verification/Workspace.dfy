/**
 All replicas together: the local tree, one tree per cloud, and the tables that index them; and the
 creation of a directory path on every replica at once.
 */
module Workspace {
  import opened Common
  import opened Disk
  import opened PathIndex
  import opened Records
  import opened Schema

  /** A node in a cloud. `content` stands for the bytes; a local node's check sum stands for the same. */
  datatype Remote = Remote(folder: bool, id: string, parentId: string, mtime: int, hash: string, size: nat, content: nat)

  /**
   Google addresses nodes by parent id and name, Dropbox by path. `base` is the path of a Dropbox home folder
   in its account, and `unlisted` holds the files that stand elsewhere in the account, by the path there.
   */
  datatype Cloud = Cloud(google: bool, home: string, base: Path, tree: map<Path, Remote>, unlisted: map<Path, Remote>)

  datatype World = World(disk: map<Path, Node>, clouds: map<nat, Cloud>, t: Tables)

  /** Which paths are folders and which are files, the same on every replica. */
  datatype Layout = Layout(folders: set<Path>, files: set<Path>)

  ghost predicate LayoutOk(l: Layout) {
    && l.folders !! l.files && [] !in l.folders && [] !in l.files
    && forall p {:trigger Parent(p)} :: p in l.folders + l.files && |p| > 1 ==> Parent(p) in l.folders
  }

  predicate KindFits(l: Layout, p: Path, folder: bool) {
    p in (if folder then l.folders else l.files)
  }

  ghost predicate DiskOk(l: Layout, disk: map<Path, Node>) {
    && (forall p :: p in disk ==> KindFits(l, p, disk[p].folder))
    && (forall p {:trigger Parent(p)} :: p in disk && |p| > 1 ==> Parent(p) in disk)
  }

  ghost predicate TreeOk(l: Layout, tree: map<Path, Remote>) {
    && (forall p :: p in tree ==> KindFits(l, p, tree[p].folder))
    && (forall p {:trigger Parent(p)} :: p in tree && |p| > 1 ==> Parent(p) in tree)
  }

  predicate Holds(clouds: map<nat, Cloud>, c: nat, p: Path) {
    c in clouds && p in clouds[c].tree
  }

  /** No id names two nodes, in one cloud or in two. */
  ghost predicate UniqueIds(clouds: map<nat, Cloud>) {
    forall c, d, p, q :: Holds(clouds, c, p) && Holds(clouds, d, q)
      ==> (clouds[c].tree[p].id == clouds[d].tree[q].id ==> c == d && p == q)
  }

  /** Home folders are not nodes of the trees, and ids are not empty. */
  ghost predicate IdsApartFromHomes(clouds: map<nat, Cloud>) {
    forall c, d, p :: Holds(clouds, c, p) && d in clouds ==>
      clouds[c].tree[p].id != clouds[d].home && clouds[c].tree[p].id != ""
  }

  /** Google's home folders have ids of their own. */
  ghost predicate HomesDiffer(clouds: map<nat, Cloud>) {
    && (forall c, d :: c in clouds && d in clouds && clouds[c].google && clouds[d].google
          ==> (clouds[c].home == clouds[d].home ==> c == d))
    && (forall c :: c in clouds && clouds[c].google ==> clouds[c].home != "")
  }

  ghost predicate Apart(clouds: map<nat, Cloud>) {
    UniqueIds(clouds) && IdsApartFromHomes(clouds) && HomesDiffer(clouds)
  }

  /** One row for each node on disk, at its path, and no other rows. */
  ghost predicate Indexed(t: Tables, disk: map<Path, Node>) {
    && UniquePaths(t)
    && (forall g :: g in t.files ==> t.files[g].path in disk)
    && (forall p :: p in disk ==> FindByPath(t, p).Some?)
  }

  /** What a row says about the node at its path. */
  ghost predicate RowTrue(row: FileRow, n: Node) {
    && (row.kind == Directory <==> n.folder)
    && row.fileId == n.fileId && row.size == n.size && row.hash == n.hash && row.mtime == n.mtime
  }

  ghost predicate RowsTrue(t: Tables, disk: map<Path, Node>) {
    forall g :: g in t.files && t.files[g].path in disk ==> RowTrue(t.files[g], disk[t.files[g].path])
  }

  /** A link names the node that its cloud holds at the row's path and, in a Google cloud, the folder above it. */
  ghost predicate LinkTrue(w: World, k: (nat, nat))
    requires k in w.t.links
  {
    && k.0 in w.t.files && k.1 in w.clouds
    && w.t.files[k.0].path in w.clouds[k.1].tree
    && w.clouds[k.1].tree[w.t.files[k.0].path].id == w.t.links[k].cloudFileId
    && (w.clouds[k.1].google ==> w.t.links[k].parentId == FolderId(w.clouds[k.1], Parent(w.t.files[k.0].path)))
  }

  /** The folder above a node keeps its id while nodes keep theirs. */
  lemma FolderIdStays(cl: Cloud, cl': Cloud, p: Path)
    requires Rooted(cl.tree) && [] !in cl'.tree && p in cl.tree && cl'.home == cl.home
    requires forall q :: q in cl.tree ==> q in cl'.tree && cl'.tree[q].id == cl.tree[q].id
    ensures FolderId(cl', Parent(p)) == FolderId(cl, Parent(p))
  {
    if |p| > 1 {
      assert Parent(p) in cl.tree;
    }
  }

  ghost predicate LinksTrue(w: World) {
    forall k :: k in w.t.links ==> LinkTrue(w, k)
  }

  ghost predicate WorldOk(l: Layout, w: World) {
    && LayoutOk(l)
    && Integrity(w.t) && w.t.clouds == w.clouds.Keys
    && DiskOk(l, w.disk)
    && (forall c :: c in w.clouds ==> TreeOk(l, w.clouds[c].tree))
    && Apart(w.clouds)
    && Indexed(w.t, w.disk) && RowsTrue(w.t, w.disk)
    && LinksTrue(w)
  }

  /** Whatever stands below a home folder was listed, and a home folder is below folders only. */
  ghost predicate HomesListed(clouds: map<nat, Cloud>) {
    forall c, x :: c in clouds && !clouds[c].google && x in clouds[c].unlisted ==>
      !(clouds[c].base <= x) && !(x <= clouds[c].base)
  }

  /** The row at `path` has a link to cloud `c`. */
  predicate Linked(t: Tables, path: Path, c: nat) {
    var g := FindByPath(t, path);
    g.Some? && (g.value, c) in t.links
  }

  /** A prefix of `path` longer than `lo` and not longer than `hi`. */
  predicate Between(p: Path, path: Path, lo: nat, hi: nat) {
    p <= path && lo < |p| <= hi
  }

  lemma BetweenNext(p: Path, path: Path, lo: nat, i: nat)
    requires lo <= i < |path|
    ensures Between(p, path, lo, i + 1) <==> Between(p, path, lo, i) || p == path[..i + 1]
  {
  }

  // ---- local directories -----------------------------------------------------------------------

  /** The tree gained the prefixes of `path` up to length `hi`, as folders, and nothing else. */
  ghost predicate GrownDisk(disk: map<Path, Node>, disk': map<Path, Node>, path: Path, lo: nat, hi: nat) {
    && (forall p :: p in disk' <==> p in disk || Between(p, path, lo, hi))
    && (forall p :: p in disk ==> disk'[p] == disk[p])
    && (forall p :: p in disk' && p !in disk ==> disk'[p].folder)
  }

  /** A true entry for a directory that `disk` lacks. */
  ghost predicate DescribesOne(e: RecordDto, disk: map<Path, Node>, disk': map<Path, Node>) {
    && e.path in disk' && e.path !in disk && e.kind == Directory && e.cloud == 0
    && RowTrue(RowOf(e), disk'[e.path])
  }

  predicate Reported(created: seq<RecordDto>, p: Path) {
    exists a :: 0 <= a < |created| && created[a].path == p
  }

  /** `created` describes each path of `disk'` that `disk` lacks, once, ancestors first. */
  ghost predicate Describes(created: seq<RecordDto>, disk: map<Path, Node>, disk': map<Path, Node>) {
    && (forall a :: 0 <= a < |created| ==> DescribesOne(created[a], disk, disk'))
    && (forall a, b :: 0 <= a < b < |created| ==> |created[a].path| < |created[b].path|)
    && (forall p :: p in disk' && p !in disk ==> Reported(created, p))
  }

  lemma ReportedMore(created: seq<RecordDto>, r: RecordDto, p: Path)
    ensures Reported(created + [r], p) <==> Reported(created, p) || r.path == p
  {
    var created' := created + [r];
    if Reported(created, p) {
      var a :| 0 <= a < |created| && created[a].path == p;
      assert created'[a].path == p;
    }
    if r.path == p {
      assert created'[|created|].path == p;
    }
  }

  lemma DescribesMore(created: seq<RecordDto>, disk: map<Path, Node>, disk': map<Path, Node>, r: RecordDto, n: Node)
    requires Describes(created, disk, disk') && r.path !in disk' && r.kind == Directory && r.cloud == 0 && RowTrue(RowOf(r), n)
    requires forall p :: p in disk' && p !in disk ==> |p| < |r.path|
    requires forall p :: p in disk ==> p in disk'
    ensures Describes(created + [r], disk, disk'[r.path := n])
  {
    forall a | 0 <= a < |created|
      ensures DescribesOne(created[a], disk, disk'[r.path := n]) && |created[a].path| < |r.path|
    {
      assert DescribesOne(created[a], disk, disk');
    }
    forall p | p in disk'[r.path := n] && p !in disk
      ensures Reported(created + [r], p)
    {
      ReportedMore(created, r, p);
    }
  }

  /** What the file system reports about a new directory. */
  method Stat() returns (fileId: nat, mtime: int) {
    fileId, mtime := 0, 0;
  }

  lemma GrownMore(disk: map<Path, Node>, disk': map<Path, Node>, path: Path, lo: nat, i: nat, n: Node)
    requires lo <= i < |path| && GrownDisk(disk, disk', path, lo, i) && n.folder
    ensures GrownDisk(disk, if path[..i + 1] in disk' then disk' else disk'[path[..i + 1] := n], path, lo, i + 1)
  {
    forall p
      ensures Between(p, path, lo, i + 1) <==> Between(p, path, lo, i) || p == path[..i + 1]
    {
      BetweenNext(p, path, lo, i);
    }
  }

  /** Makes one directory unless it exists; only a new one is reported. */
  method CreateDirectory(
      ghost disk0: map<Path, Node>, disk: map<Path, Node>, created: seq<RecordDto>,
      ghost path: Path, ghost lo: nat, ghost i: nat, accum: Path)
    returns (disk': map<Path, Node>, created': seq<RecordDto>)
    requires lo <= i < |path| && accum == path[..i + 1]
    requires GrownDisk(disk0, disk, path, lo, i) && Describes(created, disk0, disk)
    ensures GrownDisk(disk0, disk', path, lo, i + 1) && Describes(created', disk0, disk')
  {
    disk', created' := disk, created;
    var fileId, mtime := Stat();
    var n := Node(true, fileId, 0, 0, mtime);
    GrownMore(disk0, disk, path, lo, i, n);
    if accum !in disk {
      var r := RecordDto(Directory, accum, "", "", Number(0), 0, fileId, mtime, 0, 0);
      DescribesMore(created, disk0, disk, r, n);
      disk' := disk[accum := n];
      created' := created + [r];
    }
  }

  method LocalCreatePath(disk: map<Path, Node>, path: Path, missing: Path)
    returns (disk': map<Path, Node>, created: seq<RecordDto>)
    requires |missing| <= |path| && missing == path[|path| - |missing|..]
    ensures GrownDisk(disk, disk', path, |path| - |missing|, |path|)
    ensures Describes(created, disk, disk')
  {
    disk', created := disk, [];
    var keep := |path| - |missing|;
    var accum := path[..keep];
    var k := keep;
    while k < |path|
      invariant keep <= k <= |path|
      invariant accum == path[..k]
      invariant GrownDisk(disk, disk', path, keep, k)
      invariant Describes(created, disk, disk')
    {
      NextPrefix(path, missing, k);
      accum := accum + [missing[k - keep]];
      disk', created := CreateDirectory(disk, disk', created, path, keep, k, accum);
      k := k + 1;
    }
  }

  // ---- the database writes ---------------------------------------------------------------------

  function AddRows(t: Tables, es: seq<RecordDto>): Tables {
    if es == [] then t else AddFile(AddRows(t, es[..|es| - 1]), RowOf(es[|es| - 1]))
  }

  function AddLinks(t: Tables, es: seq<RecordDto>): Tables {
    if es == [] then t
    else
      var e := es[|es| - 1];
      Apply(AddLinks(t, es[..|es| - 1]), OpAddLink(e.globalId, e.cloud, LinkOf(e)))
  }

  /** Local entries become rows and are given their ids; cloud entries become links. */
  method SyncDbWrite(t: Tables, entries: seq<RecordDto>, local: bool) returns (t': Tables, written: seq<RecordDto>)
    requires Integrity(t)
    requires forall i :: 0 <= i < |entries| ==> (entries[i].cloud == 0) == local
    ensures t' == if local then AddRows(t, entries) else AddLinks(t, entries)
    ensures |written| == |entries|
    ensures forall i :: 0 <= i < |entries| ==>
              written[i] == if local then entries[i].(globalId := t.lastId + 1 + i) else entries[i]
  {
    t', written := t, [];
    var i := 0;
    while i < |entries|
      invariant 0 <= i <= |entries| && |written| == i
      invariant t' == if local then AddRows(t, entries[..i]) else AddLinks(t, entries[..i])
      invariant local ==> t'.lastId == t.lastId + i
      invariant forall k :: 0 <= k < i ==>
                  written[k] == if local then entries[k].(globalId := t.lastId + 1 + k) else entries[k]
    {
      var e := entries[i];
      assert entries[..i + 1][..i] == entries[..i];
      if e.cloud == 0 {
        t' := AddFile(t', RowOf(e));
        written := written + [e.(globalId := t'.lastId)];
      } else {
        t' := Apply(t', OpAddLink(e.globalId, e.cloud, LinkOf(e)));
        written := written + [e];
      }
      i := i + 1;
    }
    assert entries[..i] == entries;
  }

  lemma {:induction false} RowsAdded(t: Tables, es: seq<RecordDto>)
    requires Integrity(t)
    ensures Integrity(AddRows(t, es)) && AddRows(t, es).lastId == t.lastId + |es|
    ensures AddRows(t, es).links == t.links && AddRows(t, es).clouds == t.clouds
    ensures forall g :: g in AddRows(t, es).files <==> g in t.files || t.lastId < g <= t.lastId + |es|
    ensures forall g :: g in t.files ==> AddRows(t, es).files[g] == t.files[g]
    ensures forall i :: 0 <= i < |es| ==> AddRows(t, es).files[t.lastId + 1 + i] == RowOf(es[i])
    decreases |es|
  {
    if es != [] {
      RowsAdded(t, es[..|es| - 1]);
    }
  }

  lemma RowsStayUnique(t: Tables, es: seq<RecordDto>, disk: map<Path, Node>, disk': map<Path, Node>, g: nat, h: nat)
    requires Integrity(t) && Indexed(t, disk) && Describes(es, disk, disk')
    requires g in AddRows(t, es).files && h in AddRows(t, es).files && g < h
    ensures AddRows(t, es).files[g].path != AddRows(t, es).files[h].path
  {
    RowsAdded(t, es);
    if h > t.lastId {
      assert AddRows(t, es).files[t.lastId + 1 + (h - t.lastId - 1)] == RowOf(es[h - t.lastId - 1]);
      if g > t.lastId {
        assert AddRows(t, es).files[t.lastId + 1 + (g - t.lastId - 1)] == RowOf(es[g - t.lastId - 1]);
      }
    }
  }

  /** The new rows index the new directories. */
  lemma RowsIndex(t: Tables, es: seq<RecordDto>, disk: map<Path, Node>, disk': map<Path, Node>)
    requires Integrity(t) && Indexed(t, disk) && disk.Keys <= disk'.Keys && Describes(es, disk, disk')
    ensures Indexed(AddRows(t, es), disk')
  {
    RowsAdded(t, es);
    var t' := AddRows(t, es);
    forall g, h | g in t'.files && h in t'.files && t'.files[g].path == t'.files[h].path
      ensures g == h
    {
      if g < h { RowsStayUnique(t, es, disk, disk', g, h); }
      if h < g { RowsStayUnique(t, es, disk, disk', h, g); }
    }
    forall g | g in t'.files
      ensures t'.files[g].path in disk'
    {
      if g > t.lastId {
        assert t'.files[t.lastId + 1 + (g - t.lastId - 1)] == RowOf(es[g - t.lastId - 1]);
      }
    }
    forall p | p in disk'
      ensures FindByPath(t', p).Some?
    {
      if p in disk {
        var g := FindByPath(t, p).value;
        assert g in t'.files && t'.files[g].path == p;
      } else {
        assert Reported(es, p);
        var a :| 0 <= a < |es| && es[a].path == p;
        assert t'.files[t.lastId + 1 + a].path == p;
        assert t.lastId + 1 + a in t'.files;
      }
    }
  }

  lemma NewRowsTrue(t: Tables, es: seq<RecordDto>, disk: map<Path, Node>, disk': map<Path, Node>)
    requires Integrity(t) && Indexed(t, disk) && RowsTrue(t, disk) && Describes(es, disk, disk')
    requires forall p :: p in disk ==> p in disk' && disk'[p] == disk[p]
    ensures RowsTrue(AddRows(t, es), disk')
  {
    RowsAdded(t, es);
    var t' := AddRows(t, es);
    forall g | g in t'.files && t'.files[g].path in disk'
      ensures RowTrue(t'.files[g], disk'[t'.files[g].path])
    {
      if g > t.lastId {
        assert t'.files[t.lastId + 1 + (g - t.lastId - 1)] == RowOf(es[g - t.lastId - 1]);
      }
    }
  }

  // ---- folders in one cloud --------------------------------------------------------------------

  /** The id of the folder at `p`; the home folder stands at the empty path. */
  function FolderId(cl: Cloud, p: Path): string {
    if p in cl.tree then cl.tree[p].id else cl.home
  }

  /** The cloud gained folders at the prefixes of `path` up to length `hi`, under the given ids, and nothing else. */
  ghost predicate GrownCloud(cl: Cloud, cl': Cloud, path: Path, lo: nat, hi: nat, ids: seq<string>)
    requires lo <= hi <= lo + |ids|
  {
    && cl' == cl.(tree := cl'.tree)
    && (forall p :: p in cl'.tree <==> p in cl.tree || Between(p, path, lo, hi))
    && (forall p :: p in cl.tree ==> cl'.tree[p] == cl.tree[p])
    && (forall p :: p in cl'.tree && p !in cl.tree ==> cl'.tree[p].folder && cl'.tree[p].id == ids[|p| - lo - 1])
  }

  lemma CloudMore(cl: Cloud, cl': Cloud, path: Path, lo: nat, i: nat, ids: seq<string>, r: Remote)
    requires lo <= i < |path| && i < lo + |ids|
    requires GrownCloud(cl, cl', path, lo, i, ids) && r.folder && r.id == ids[i - lo]
    ensures GrownCloud(cl, if path[..i + 1] in cl'.tree then cl' else cl'.(tree := cl'.tree[path[..i + 1] := r]),
                       path, lo, i + 1, ids)
  {
    forall p
      ensures Between(p, path, lo, i + 1) <==> Between(p, path, lo, i) || p == path[..i + 1]
    {
      BetweenNext(p, path, lo, i);
    }
  }

  /** The folder at `p` as cloud `c` knows it. */
  ghost predicate EntryOf(e: RecordDto, c: nat, cl: Cloud, p: Path) {
    && e.path == p && p in cl.tree && e.cloud == c && e.kind == Directory
    && e.cloudFileId == cl.tree[p].id
    && (cl.google ==> e.parentId == FolderId(cl, Parent(p)))
  }

  /** The entries a cloud reports for the segments so far: one per prefix. */
  ghost predicate Reports(created: seq<RecordDto>, c: nat, cl: Cloud, path: Path, lo: nat) {
    && lo + |created| <= |path|
    && forall a :: 0 <= a < |created| ==> EntryOf(created[a], c, cl, path[..lo + a + 1])
  }

  ghost predicate Rooted(tree: map<Path, Remote>) {
    [] !in tree && forall p {:trigger Parent(p)} :: p in tree && |p| > 1 ==> Parent(p) in tree
  }

  lemma EntryStays(e: RecordDto, c: nat, cl: Cloud, cl': Cloud, p: Path)
    requires EntryOf(e, c, cl, p) && Rooted(cl.tree) && [] !in cl'.tree
    requires cl'.google == cl.google && cl'.home == cl.home
    requires forall q :: q in cl.tree ==> q in cl'.tree && cl'.tree[q] == cl.tree[q]
    ensures EntryOf(e, c, cl', p)
  {
  }

  lemma ReportsMore(created: seq<RecordDto>, c: nat, cl: Cloud, cl': Cloud, path: Path, lo: nat, e: RecordDto)
    requires Reports(created, c, cl, path, lo) && lo + |created| < |path| && Rooted(cl.tree) && [] !in cl'.tree
    requires cl'.google == cl.google && cl'.home == cl.home
    requires forall q :: q in cl.tree ==> q in cl'.tree && cl'.tree[q] == cl.tree[q]
    requires EntryOf(e, c, cl', path[..lo + |created| + 1])
    ensures Reports(created + [e], c, cl', path, lo)
  {
    forall a | 0 <= a < |created|
      ensures EntryOf(created[a], c, cl', path[..lo + a + 1])
    {
      EntryStays(created[a], c, cl, cl', path[..lo + a + 1]);
    }
  }

  lemma StaysRooted(cl: Cloud, p: Path, r: Remote)
    requires Rooted(cl.tree) && p != [] && (|p| > 1 ==> Parent(p) in cl.tree)
    ensures Rooted(cl.tree[p := r])
  {
  }

  /** The first `k` components of the path stand in the cloud, and are reported. */
  ghost predicate Building(
      cl: Cloud, cl': Cloud, c: nat, path: Path, lo: nat, k: nat, ids: seq<string>, created: seq<RecordDto>)
    requires lo <= k <= |path| && k <= lo + |ids|
  {
    && GrownCloud(cl, cl', path, lo, k, ids) && Rooted(cl'.tree)
    && Reports(created, c, cl', path, lo) && |created| == k - lo
    && (path[..k] == [] || path[..k] in cl'.tree)
  }

  /** A lookup that finds the folder, or the request that creates it under the given id. */
  method EnsureFolder(
      ghost cl0: Cloud, cl: Cloud, c: nat, created: seq<RecordDto>, ghost path: Path, ghost lo: nat, ghost i: nat,
      ghost ids: seq<string>, accum: Path, parentId: string, newId: string, lookUp: bool)
    returns (cl': Cloud, created': seq<RecordDto>, id: string, found: bool)
    requires lo <= i < |path| && i < lo + |ids| && accum == path[..i + 1] && newId == ids[i - lo]
    requires Building(cl0, cl, c, path, lo, i, ids, created)
    requires cl.google ==> parentId == FolderId(cl, path[..i])
    requires !lookUp ==> accum !in cl.tree
    ensures Building(cl0, cl', c, path, lo, i + 1, ids, created')
    ensures accum in cl'.tree && id == cl'.tree[accum].id
    ensures found <==> accum in cl.tree
  {
    cl', found := cl, lookUp && accum in cl.tree;
    assert Parent(accum) == path[..i];
    var fileId, mtime := Stat();
    var r := Remote(true, newId, parentId, mtime, "", 0, 0);
    CloudMore(cl0, cl, path, lo, i, ids, r);
    if found {
      mtime := cl.tree[accum].mtime;
    } else {
      StaysRooted(cl, accum, r);
      cl' := cl.(tree := cl.tree[accum := r]);
    }
    id := cl'.tree[accum].id;
    var e := RecordDto(Directory, accum, parentId, id, Text(""), 0, 0, if cl.google then mtime else 0, 0, c);
    ReportsMore(created, c, cl, cl', path, lo, e);
    created' := created + [e];
  }

  lemma NextPrefix(path: Path, missing: Path, k: nat)
    requires |missing| <= |path| && missing == path[|path| - |missing|..] && |path| - |missing| <= k < |path|
    ensures path[..k] + [missing[k - (|path| - |missing|)]] == path[..k + 1]
  {
  }

  /** Below a missing folder there is nothing to be found. */
  lemma NothingBelow(cl: Cloud, cl': Cloud, path: Path, lo: nat, i: nat, ids: seq<string>)
    requires lo <= i < |path| && i <= lo + |ids| && 0 < i
    requires Rooted(cl.tree) && GrownCloud(cl, cl', path, lo, i, ids) && path[..i] !in cl.tree
    ensures path[..i + 1] !in cl.tree && path[..i + 1] !in cl'.tree
  {
    assert Parent(path[..i + 1]) == path[..i];
  }

  /** The first `i` components stand, the last of them under `folderId`; `creating` once one was missing. */
  ghost predicate GoogleWalk(
      cl0: Cloud, cl: Cloud, c: nat, path: Path, lo: nat, i: nat, ids: seq<string>, created: seq<RecordDto>,
      folderId: string, creating: bool)
    requires lo <= i <= |path| && i <= lo + |ids|
  {
    && Building(cl0, cl, c, path, lo, i, ids, created)
    && folderId == FolderId(cl, path[..i])
    && (creating ==> i > 0 && path[..i] !in cl0.tree)
  }

  /** One segment: while nothing had to be created it is looked up, afterwards it is created outright. */
  method GoogleFolder(
      ghost cl0: Cloud, cl: Cloud, c: nat, created: seq<RecordDto>, ghost path: Path, ghost lo: nat, ghost i: nat,
      ghost ids: seq<string>, accum: Path, parentId: string, newId: string, creating: bool)
    returns (cl': Cloud, created': seq<RecordDto>, id: string, creating': bool)
    requires lo <= i < |path| && i < lo + |ids| && accum == path[..i + 1] && newId == ids[i - lo]
    requires Rooted(cl0.tree) && GoogleWalk(cl0, cl, c, path, lo, i, ids, created, parentId, creating)
    ensures GoogleWalk(cl0, cl', c, path, lo, i + 1, ids, created', id, creating')
  {
    if creating {
      NothingBelow(cl0, cl, path, lo, i, ids);
    }
    var found;
    cl', created', id, found := EnsureFolder(cl0, cl, c, created, path, lo, i, ids, accum, parentId, newId, !creating);
    creating' := creating || !found;
  }

  /** The part of the path that exists, and ids for the part that may not. */
  ghost predicate MayCreate(cl: Cloud, path: Path, missing: Path, ids: seq<string>) {
    && |missing| <= |path| && missing == path[|path| - |missing|..] && |ids| == |missing|
    && Rooted(cl.tree)
    && (path[..|path| - |missing|] == [] || path[..|path| - |missing|] in cl.tree)
  }

  lemma NothingBuilt(cl: Cloud, c: nat, path: Path, missing: Path, ids: seq<string>)
    requires MayCreate(cl, path, missing, ids)
    ensures Building(cl, cl, c, path, |path| - |missing|, |path| - |missing|, ids, [])
  {
  }

  /** Looks every segment up under its parent's id until one is missing; from there on creates. */
  method GoogleCreatePath(cl: Cloud, c: nat, path: Path, missing: Path, prefixId: string, ids: seq<string>)
    returns (cl': Cloud, created: seq<RecordDto>)
    requires MayCreate(cl, path, missing, ids) && cl.google
    requires prefixId == FolderId(cl, path[..|path| - |missing|])
    ensures Building(cl, cl', c, path, |path| - |missing|, |path|, ids, created)
  {
    cl', created := cl, [];
    var keep := |path| - |missing|;
    var parentId, accum, creating := prefixId, path[..keep], false;
    NothingBuilt(cl, c, path, missing, ids);
    var k := keep;
    while k < |path|
      invariant keep <= k <= |path|
      invariant accum == path[..k]
      invariant GoogleWalk(cl, cl', c, path, keep, k, ids, created, parentId, creating)
    {
      NextPrefix(path, missing, k);
      accum := accum + [missing[k - keep]];
      cl', created, parentId, creating :=
        GoogleFolder(cl, cl', c, created, path, keep, k, ids, accum, parentId, ids[k - keep], creating);
      k := k + 1;
    }
  }

  /** No file stands, outside the tree, where a folder of the path is to be created. */
  ghost predicate Clear(cl: Cloud, path: Path, lo: nat, hi: nat) {
    cl.google
    || forall k {:trigger cl.base + path[..k]} :: lo < k <= hi <= |path| ==> path[..k] in cl.tree || cl.base + path[..k] !in cl.unlisted
  }

  lemma StillMissing(cl: Cloud, cl': Cloud, path: Path, lo: nat, k: nat, ids: seq<string>)
    requires lo <= k < |path| && k <= lo + |ids| && GrownCloud(cl, cl', path, lo, k, ids)
    ensures path[..k + 1] in cl'.tree <==> path[..k + 1] in cl.tree
  {
    assert !Between(path[..k + 1], path, lo, k);
  }

  lemma ClearMore(cl: Cloud, path: Path, lo: nat, k: nat)
    requires lo <= k < |path| && Clear(cl, path, lo, k)
    ensures Clear(cl, path, lo, k + 1) <==>
              cl.google || path[..k + 1] in cl.tree || cl.base + path[..k + 1] !in cl.unlisted
  {
  }

  lemma ClearLess(cl: Cloud, path: Path, lo: nat, k: nat)
    requires lo <= k < |path| && Clear(cl, path, lo, |path|)
    ensures Clear(cl, path, lo, k + 1)
  {
  }

  /** The first `i` components stand, and no file was in the way of those that had to be created. */
  ghost predicate DropboxWalk(
      cl0: Cloud, cl: Cloud, c: nat, path: Path, lo: nat, i: nat, ids: seq<string>, created: seq<RecordDto>)
    requires lo <= i <= |path| && i <= lo + |ids|
  {
    Building(cl0, cl, c, path, lo, i, ids, created) && Clear(cl0, path, lo, i)
  }

  lemma InTheWay(cl0: Cloud, cl: Cloud, path: Path, lo: nat, i: nat, ids: seq<string>)
    requires lo <= i < |path| && i <= lo + |ids| && GrownCloud(cl0, cl, path, lo, i, ids) && Clear(cl0, path, lo, i)
    ensures cl.google || path[..i + 1] in cl.tree || cl.base + path[..i + 1] !in cl.unlisted <==> Clear(cl0, path, lo, i + 1)
    ensures !Clear(cl0, path, lo, i + 1) ==> !Clear(cl0, path, lo, |path|)
  {
    StillMissing(cl0, cl, path, lo, i, ids);
    ClearMore(cl0, path, lo, i);
    if Clear(cl0, path, lo, |path|) {
      ClearLess(cl0, path, lo, i);
    }
  }

  /** One segment: a folder is created or found; a file in the way is a conflict of another kind. */
  method DropboxFolder(
      ghost cl0: Cloud, cl: Cloud, c: nat, created: seq<RecordDto>, ghost path: Path, ghost lo: nat, ghost i: nat,
      ghost ids: seq<string>, accum: Path, newId: string)
    returns (cl': Cloud, created': seq<RecordDto>, ok: bool)
    requires lo <= i < |path| && i < lo + |ids| && accum == path[..i + 1] && newId == ids[i - lo]
    requires !cl.google && DropboxWalk(cl0, cl, c, path, lo, i, ids, created)
    ensures ok ==> DropboxWalk(cl0, cl', c, path, lo, i + 1, ids, created')
    ensures !ok ==> !Clear(cl0, path, lo, |path|)
  {
    InTheWay(cl0, cl, path, lo, i, ids);
    cl', created', ok := cl, created, accum in cl.tree || cl.base + accum !in cl.unlisted;
    if ok {
      var id, found;
      cl', created', id, found := EnsureFolder(cl0, cl, c, created, path, lo, i, ids, accum, "", newId, true);
    }
  }

  /**
   Asks for every segment; an existing folder is a conflict, whose id is then fetched. A file in the way is
   another conflict: the call throws, and `ok` is false.
   */
  method DropboxCreatePath(cl: Cloud, c: nat, path: Path, missing: Path, ids: seq<string>)
    returns (cl': Cloud, created: seq<RecordDto>, ok: bool)
    requires MayCreate(cl, path, missing, ids) && !cl.google
    ensures ok <==> Clear(cl, path, |path| - |missing|, |path|)
    ensures ok ==> Building(cl, cl', c, path, |path| - |missing|, |path|, ids, created)
  {
    cl', created, ok := cl, [], true;
    var keep := |path| - |missing|;
    var accum := path[..keep];
    NothingBuilt(cl, c, path, missing, ids);
    var k := keep;
    while k < |path|
      invariant keep <= k <= |path|
      invariant accum == path[..k] && cl'.google == cl.google
      invariant ok && DropboxWalk(cl, cl', c, path, keep, k, ids, created)
    {
      NextPrefix(path, missing, k);
      accum := accum + [missing[k - keep]];
      cl', created, ok := DropboxFolder(cl, cl', c, created, path, keep, k, ids, accum, ids[k - keep]);
      if !ok {
        return;
      }
      k := k + 1;
    }
  }

  // ---- the path on every replica ---------------------------------------------------------------

  function UsedIds(clouds: map<nat, Cloud>): set<string> {
    (set c | c in clouds :: clouds[c].home)
    + (set c, p | c in clouds && p in clouds[c].tree :: clouds[c].tree[p].id)
  }

  ghost predicate FreshIds(ids: seq<string>, clouds: map<nat, Cloud>) {
    NoDuplicates(ids) && "" !in ids && forall i :: 0 <= i < |ids| ==> ids[i] !in UsedIds(clouds)
  }

  /** The server names a new node; all a caller knows is that the id was not in use. */
  method ServerId(used: set<string>) returns (id: string)
    ensures id !in used && id != ""
  {
    var n := 0;
    var rest := used;
    while rest != {}
      invariant rest <= used && n >= 0
      invariant forall s :: s in used - rest ==> |s| <= n
      decreases rest
    {
      var s :| s in rest;
      rest := rest - {s};
      n := if |s| > n then |s| else n;
    }
    id := seq(n + 1, _ => 'x');
    assert |id| == n + 1;
  }

  method ServerIds(clouds: map<nat, Cloud>, n: nat) returns (ids: seq<string>)
    ensures |ids| == n && FreshIds(ids, clouds)
  {
    ids := [];
    var used := UsedIds(clouds);
    while |ids| < n
      invariant |ids| <= n && FreshIds(ids, clouds)
      invariant forall i :: 0 <= i < |ids| ==> ids[i] in used
      invariant UsedIds(clouds) <= used
      decreases n - |ids|
    {
      var id := ServerId(used);
      used := used + {id};
      ids := ids + [id];
    }
  }

  lemma InUse(clouds: map<nat, Cloud>, c: nat, p: Path)
    requires c in clouds
    ensures clouds[c].home in UsedIds(clouds)
    ensures p in clouds[c].tree ==> clouds[c].tree[p].id in UsedIds(clouds)
  {
  }

  lemma IdOfGrown(clouds: map<nat, Cloud>, c: nat, cl': Cloud, path: Path, lo: nat, hi: nat, ids: seq<string>, p: Path)
    requires c in clouds && lo <= hi <= lo + |ids| && GrownCloud(clouds[c], cl', path, lo, hi, ids)
    requires p in cl'.tree && p !in clouds[c].tree
    ensures lo < |p| <= hi && p == path[..|p|] && cl'.tree[p].id == ids[|p| - lo - 1]
  {
    assert Between(p, path, lo, hi);
  }

  lemma ApartGrown(clouds: map<nat, Cloud>, c: nat, cl': Cloud, path: Path, lo: nat, hi: nat, ids: seq<string>)
    requires Apart(clouds) && c in clouds && lo <= hi <= lo + |ids|
    requires GrownCloud(clouds[c], cl', path, lo, hi, ids) && FreshIds(ids, clouds)
    ensures Apart(clouds[c := cl'])
  {
    var clouds' := clouds[c := cl'];
    forall d, e, p, q | Holds(clouds', d, p) && Holds(clouds', e, q) && clouds'[d].tree[p].id == clouds'[e].tree[q].id
      ensures d == e && p == q
    {
      SameId(clouds, c, cl', path, lo, hi, ids, d, e, p, q);
    }
    GrownApartFromHomes(clouds, c, cl', path, lo, hi, ids);
  }

  lemma GrownApartFromHomes(
      clouds: map<nat, Cloud>, c: nat, cl': Cloud, path: Path, lo: nat, hi: nat, ids: seq<string>)
    requires IdsApartFromHomes(clouds) && c in clouds && lo <= hi <= lo + |ids|
    requires GrownCloud(clouds[c], cl', path, lo, hi, ids) && FreshIds(ids, clouds)
    ensures IdsApartFromHomes(clouds[c := cl'])
  {
    var clouds' := clouds[c := cl'];
    forall d, e, p | Holds(clouds', d, p) && e in clouds'
      ensures clouds'[d].tree[p].id != clouds'[e].home && clouds'[d].tree[p].id != ""
    {
      InUse(clouds, e, p);
      if !Holds(clouds, d, p) {
        IdOfGrown(clouds, c, cl', path, lo, hi, ids, p);
      } else {
        assert clouds'[d].tree[p] == clouds[d].tree[p];
      }
    }
  }

  lemma SameId(
      clouds: map<nat, Cloud>, c: nat, cl': Cloud, path: Path, lo: nat, hi: nat, ids: seq<string>,
      d: nat, e: nat, p: Path, q: Path)
    requires Apart(clouds) && c in clouds && lo <= hi <= lo + |ids|
    requires GrownCloud(clouds[c], cl', path, lo, hi, ids) && FreshIds(ids, clouds)
    requires Holds(clouds[c := cl'], d, p) && Holds(clouds[c := cl'], e, q)
    requires clouds[c := cl'][d].tree[p].id == clouds[c := cl'][e].tree[q].id
    ensures d == e && p == q
  {
    var oldP, oldQ := Holds(clouds, d, p), Holds(clouds, e, q);
    if !oldP {
      IdOfGrown(clouds, c, cl', path, lo, hi, ids, p);
    }
    if !oldQ {
      IdOfGrown(clouds, c, cl', path, lo, hi, ids, q);
    }
    if oldP {
      InUse(clouds, d, p);
    }
    if oldQ {
      InUse(clouds, e, q);
    }
    if !oldP && !oldQ {
      assert |p| == |q|;
    }
  }
}
