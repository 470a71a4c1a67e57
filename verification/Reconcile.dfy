/**
 First half of the initial synchronisation: every path that a cloud reports is compared with the local
 file, and the newest version is downloaded. Downloads complete in any order while the loop goes on.
 */
module Reconcile {
  import opened Common
  import opened Disk
  import opened Listing
  import opened LocalStorage
  import opened PathCreation
  import opened PathIndex
  import opened Records
  import opened Schema
  import opened Workspace

  /** A change on its way: a download, then the local stage. */
  datatype Download = DownloadNew(record: RecordDto) | DownloadUpdate(updated: UpdatedDto)

  function UpdateOf(b: RecordDto, g: nat): UpdatedDto {
    UpdatedDto(b.kind, b.path, b.cloudFileId, b.hash, b.parentId, b.size, b.mtime, 0, g, b.cloud)
  }

  // ---- the invariant of the first half ---------------------------------------------------------

  /** Nodes are kept; only folders may be added. */
  ghost predicate Kept(cl: Cloud, cl': Cloud) {
    && cl' == cl.(tree := cl'.tree)
    && (forall p :: p in cl.tree ==> p in cl'.tree && cl'.tree[p] == cl.tree[p])
    && (forall p :: p in cl'.tree && p !in cl.tree ==> cl'.tree[p].folder)
  }

  ghost predicate AllKept(clouds: map<nat, Cloud>, clouds': map<nat, Cloud>) {
    clouds'.Keys == clouds.Keys && forall c :: c in clouds ==> Kept(clouds[c], clouds'[c])
  }

  predicate Arrived(w0: World, gr: Groups, done: set<Path>, jobs: map<Path, Download>, p: Path) {
    p in done && p !in jobs && Pulled(w0, gr, p)
  }

  /** The local file at `p`: the winner once it has arrived, as it was until then. */
  ghost predicate DiskCell(w0: World, gr: Groups, w: World, p: Path, arrived: bool) {
    if arrived then
      p in w.disk && !w.disk[p].folder && w.disk[p].hash == Version(w0, gr, p) && w.disk[p].size == WinnerSize(w0, gr, p)
    else (p in w.disk <==> p in w0.disk) && (p in w.disk ==> w.disk[p] == w0.disk[p])
  }

  predicate SourceOf(gr: Groups, p: Path, c: nat) {
    p in gr && gr[p] != [] && c == Best(gr[p]).cloud
  }

  /** Only a file that was new here is linked already, and only to the cloud it came from. */
  ghost predicate LinkCell(w0: World, gr: Groups, w: World, p: Path, arrived: bool) {
    forall c :: Linked(w.t, p, c) <==> arrived && p !in w0.disk && SourceOf(gr, p, c)
  }

  ghost predicate CellOk(w0: World, gr: Groups, w: World, p: Path, arrived: bool) {
    DiskCell(w0, gr, w, p, arrived) && LinkCell(w0, gr, w, p, arrived)
  }

  predicate ParentOnDisk(disk: map<Path, Node>, p: Path) {
    |p| > 1 ==> Parent(p) in disk
  }

  ghost predicate JobOk(l: Layout, w0: World, gr: Groups, w: World, p: Path, j: Download) {
    && p in l.files && Pulled(w0, gr, p) && ParentOnDisk(w.disk, p)
    && match j
       case DownloadNew(r) => p !in w0.disk && r == Best(gr[p])
       case DownloadUpdate(u) =>
         p in w0.disk && u == UpdateOf(Best(gr[p]), u.globalId) && FindByPath(w.t, p) == Some(u.globalId)
  }

  ghost predicate CellsOk(l: Layout, w0: World, gr: Groups, w: World, done: set<Path>, jobs: map<Path, Download>) {
    forall p :: p in l.files ==> CellOk(w0, gr, w, p, Arrived(w0, gr, done, jobs, p))
  }

  ghost predicate JobsOk(l: Layout, w0: World, gr: Groups, w: World, done: set<Path>, jobs: map<Path, Download>) {
    forall p :: p in jobs ==> p in done && JobOk(l, w0, gr, w, p, jobs[p])
  }

  /** Directories known so far are on disk. */
  ghost predicate FoldersOk(l: Layout, w0: World, w: World, done: set<Path>) {
    forall p :: p in w0.disk || (p in done && p in l.folders) ==> p in w.disk
  }

  /** Whatever is linked so far shows what was listed. */
  ghost predicate ListedLinks(l: Layout, w0: World, w: World) {
    forall k :: k in w.t.links && k.0 in w.t.files && w.t.files[k.0].path in l.files ==>
      ListedOne(w0, w.t.files[k.0].path, k.1, w.t.links[k])
  }

  predicate ListedOne(w0: World, p: Path, c: nat, link: LinkRow) {
    Holds(w0.clouds, c, p) && ShowsListing(link, w0.clouds[c], p)
  }

  ghost predicate Phase1(l: Layout, w0: World, gr: Groups, w: World, done: set<Path>, jobs: map<Path, Download>) {
    && WorldOk(l, w)
    && AllKept(w0.clouds, w.clouds)
    && CellsOk(l, w0, gr, w, done, jobs)
    && JobsOk(l, w0, gr, w, done, jobs)
    && FoldersOk(l, w0, w, done)
    && ListedLinks(l, w0, w)
  }

  // ---- creating a path keeps it ----------------------------------------------------------------

  lemma ExtendsKept(clouds0: map<nat, Cloud>, clouds: map<nat, Cloud>, clouds': map<nat, Cloud>, path: Path)
    requires AllKept(clouds0, clouds) && ExtendsClouds(clouds, clouds', path)
    ensures AllKept(clouds0, clouds')
  {
    forall c | c in clouds0
      ensures Kept(clouds0[c], clouds'[c])
    {
      assert Extends(clouds[c], clouds'[c], path);
    }
  }

  lemma NotAFolder(l: Layout, path: Path, p: Path)
    requires LayoutOk(l) && FolderPath(l, path) && p in l.files
    ensures !(p <= path && p != [])
  {
    assert p <= path ==> p == path[..|p|];
  }

  lemma RowsSame(l: Layout, w: World, w': World, path: Path, p: Path)
    requires WorldOk(l, w) && WorldOk(l, w') && Grown(w, w', path) && FolderPath(l, path) && p in l.files
    ensures FindByPath(w'.t, p) == FindByPath(w.t, p)
    ensures p in w'.disk <==> p in w.disk
  {
    NotAFolder(l, path, p);
    if p in w.disk {
      FindStays(w.t, w'.t, p);
    }
  }

  lemma LinksSame(l: Layout, w: World, w': World, path: Path, p: Path, c: nat)
    requires WorldOk(l, w) && WorldOk(l, w') && Grown(w, w', path) && FolderPath(l, path) && p in l.files
    ensures Linked(w'.t, p, c) <==> Linked(w.t, p, c)
  {
    RowsSame(l, w, w', path, p);
    NotAFolder(l, path, p);
    var g := FindByPath(w.t, p);
    assert g.Some? ==> g.value in w'.t.files && w'.t.files[g.value].path == p;
  }

  /** Nothing about `p` changed: neither the local node nor the links. */
  ghost predicate SameCell(w: World, w': World, p: Path) {
    && (p in w'.disk <==> p in w.disk)
    && (p in w.disk ==> w'.disk[p] == w.disk[p])
    && FindByPath(w'.t, p) == FindByPath(w.t, p)
    && forall c :: Linked(w'.t, p, c) <==> Linked(w.t, p, c)
  }

  lemma GrowSame(l: Layout, w: World, w': World, path: Path, p: Path)
    requires WorldOk(l, w) && WorldOk(l, w') && Grown(w, w', path) && FolderPath(l, path) && p in l.files
    ensures SameCell(w, w', p)
  {
    RowsSame(l, w, w', path, p);
    forall c { LinksSame(l, w, w', path, p, c); }
  }

  lemma CellCarries(w0: World, gr: Groups, w: World, w': World, p: Path, arrived: bool)
    requires SameCell(w, w', p) && CellOk(w0, gr, w, p, arrived)
    ensures CellOk(w0, gr, w', p, arrived)
  {
  }

  lemma GrowKeepsCells(
      l: Layout, w0: World, gr: Groups, w: World, w': World, path: Path, done: set<Path>, jobs: map<Path, Download>)
    requires WorldOk(l, w) && WorldOk(l, w') && Grown(w, w', path) && FolderPath(l, path)
    requires CellsOk(l, w0, gr, w, done, jobs)
    ensures CellsOk(l, w0, gr, w', done, jobs)
  {
    forall p | p in l.files
      ensures CellOk(w0, gr, w', p, Arrived(w0, gr, done, jobs, p))
    {
      GrowSame(l, w, w', path, p);
      CellCarries(w0, gr, w, w', p, Arrived(w0, gr, done, jobs, p));
    }
  }

  lemma GrowKeepsJobs(
      l: Layout, w0: World, gr: Groups, w: World, w': World, path: Path, done: set<Path>, jobs: map<Path, Download>)
    requires WorldOk(l, w) && WorldOk(l, w') && Grown(w, w', path) && FolderPath(l, path)
    requires JobsOk(l, w0, gr, w, done, jobs)
    ensures JobsOk(l, w0, gr, w', done, jobs)
  {
    forall p | p in jobs
      ensures JobOk(l, w0, gr, w', p, jobs[p])
    {
      assert JobOk(l, w0, gr, w, p, jobs[p]);
      RowsSame(l, w, w', path, p);
    }
  }

  lemma GrowKeepsListed(l: Layout, w0: World, w: World, w': World, path: Path)
    requires LayoutOk(l) && FolderPath(l, path) && Integrity(w.t) && GrownTables(w.t, w'.t, path) && ListedLinks(l, w0, w)
    ensures ListedLinks(l, w0, w')
  {
    forall k | k in w'.t.links && k.0 in w'.t.files && w'.t.files[k.0].path in l.files
      ensures ListedOne(w0, w'.t.files[k.0].path, k.1, w'.t.links[k])
    {
      NotAFolder(l, path, w'.t.files[k.0].path);
    }
  }

  lemma GrowKeepsPhase1(
      l: Layout, w0: World, gr: Groups, w: World, w': World, path: Path, done: set<Path>, jobs: map<Path, Download>)
    requires Phase1(l, w0, gr, w, done, jobs) && WorldOk(l, w') && Grown(w, w', path) && FolderPath(l, path)
    ensures Phase1(l, w0, gr, w', done, jobs)
  {
    ExtendsKept(w0.clouds, w.clouds, w'.clouds, path);
    GrowKeepsCells(l, w0, gr, w, w', path, done, jobs);
    GrowKeepsJobs(l, w0, gr, w, w', path, done, jobs);
    GrowKeepsListed(l, w0, w, w', path);
  }

  // ---- a download arrives ----------------------------------------------------------------------

  function InstallNew(w: World, r: RecordDto, n: Node): World {
    var t := LocalNew(w.t, r, n);
    World(w.disk[r.path := n], w.clouds, if t.Some? then t.value else w.t)
  }

  function InstallUpdate(w: World, u: UpdatedDto, n: Node): World {
    World(w.disk[u.path := n], w.clouds, LocalUpdate(w.t, u, n))
  }

  /** Tables that differ in the row and links of one path only. */
  ghost predicate OnlyPath(t: Tables, t': Tables, p: Path) {
    forall q :: q != p ==> FindByPath(t', q) == FindByPath(t, q) && forall c :: Linked(t', q, c) <==> Linked(t, q, c)
  }

  /** One row more, at a path that had none, with one link. */
  ghost predicate RowAndLink(t: Tables, t': Tables, row: FileRow, c: nat, link: LinkRow) {
    && t' == t.(files := t.files[NewId(t) := row], links := t.links[(NewId(t), c) := link], lastId := NewId(t))
    && NewId(t) !in t.files
    && (forall d: nat :: (NewId(t), d) !in t.links)
  }

  function NewId(t: Tables): nat {
    t.lastId + 1
  }

  lemma NewRowTables(t: Tables, r: RecordDto, n: Node)
    requires Integrity(t) && r.cloud in t.clouds
    ensures LocalNew(t, r, n).Some?
    ensures RowAndLink(t, LocalNew(t, r, n).value, RowOf(Measured(r, n)), r.cloud, LinkOf(r))
    ensures Integrity(LocalNew(t, r, n).value)
  {
  }

  lemma NewRowUnique(t: Tables, t': Tables, row: FileRow, c: nat, link: LinkRow)
    requires Integrity(t) && UniquePaths(t) && FindByPath(t, row.path).None? && RowAndLink(t, t', row, c, link)
    ensures UniquePaths(t')
  {
    assert forall g :: g in t.files ==> t.files[g].path != row.path;
  }

  lemma NewRowFound(t: Tables, t': Tables, row: FileRow, c: nat, link: LinkRow, q: Path)
    requires Integrity(t) && UniquePaths(t) && FindByPath(t, row.path).None? && RowAndLink(t, t', row, c, link)
    requires Integrity(t') && UniquePaths(t')
    ensures FindByPath(t', q) == if q == row.path then Some(NewId(t)) else FindByPath(t, q)
  {
    if q == row.path {
      assert NewId(t) in t'.files && t'.files[NewId(t)].path == q;
    } else if FindByPath(t, q).Some? {
      var g := FindByPath(t, q).value;
      assert g in t'.files && t'.files[g].path == q && g <= t'.lastId;
    }
  }

  lemma NewRowOnly(t: Tables, t': Tables, row: FileRow, c: nat, link: LinkRow)
    requires Integrity(t) && UniquePaths(t) && FindByPath(t, row.path).None? && RowAndLink(t, t', row, c, link)
    requires Integrity(t') && UniquePaths(t')
    ensures OnlyPath(t, t', row.path)
    ensures forall d :: Linked(t', row.path, d) <==> d == c
  {
    NewRowFound(t, t', row, c, link, row.path);
    forall q | q != row.path
      ensures FindByPath(t', q) == FindByPath(t, q) && forall d :: Linked(t', q, d) <==> Linked(t, q, d)
    {
      NewRowFound(t, t', row, c, link, q);
    }
  }

  ghost predicate Installable(l: Layout, w: World, p: Path, n: Node) {
    p in l.files && !n.folder && ParentOnDisk(w.disk, p)
  }

  lemma DiskStaysOk(l: Layout, w: World, p: Path, n: Node)
    requires DiskOk(l, w.disk) && Installable(l, w, p, n)
    ensures DiskOk(l, w.disk[p := n])
  {
  }

  lemma NewRowIndexed(t: Tables, t': Tables, row: FileRow, c: nat, link: LinkRow, disk: map<Path, Node>, n: Node)
    requires Integrity(t) && Indexed(t, disk) && row.path !in disk && RowAndLink(t, t', row, c, link) && Integrity(t')
    ensures FindByPath(t, row.path).None?
    ensures UniquePaths(t') && Indexed(t', disk[row.path := n])
  {
    NewRowUnique(t, t', row, c, link);
    forall p | p in disk[row.path := n]
      ensures FindByPath(t', p).Some?
    {
      NewRowFound(t, t', row, c, link, p);
    }
  }

  lemma NewRowTrue(t: Tables, t': Tables, row: FileRow, c: nat, link: LinkRow, disk: map<Path, Node>, n: Node)
    requires RowAndLink(t, t', row, c, link) && RowsTrue(t, disk) && RowTrue(row, n)
    requires forall g :: g in t.files ==> t.files[g].path != row.path
    ensures RowsTrue(t', disk[row.path := n])
  {
  }

  lemma NewLinkTrue(w: World, t': Tables, row: FileRow, c: nat, link: LinkRow, disk': map<Path, Node>)
    requires LinksTrue(w) && Integrity(w.t) && RowAndLink(w.t, t', row, c, link)
    requires Holds(w.clouds, c, row.path) && link.cloudFileId == w.clouds[c].tree[row.path].id
    requires w.clouds[c].google ==> link.parentId == FolderId(w.clouds[c], Parent(row.path))
    ensures LinksTrue(World(disk', w.clouds, t'))
  {
    var w' := World(disk', w.clouds, t');
    forall k | k in t'.links
      ensures LinkTrue(w', k)
    {
      if k != (NewId(w.t), c) {
        assert k in w.t.links && LinkTrue(w, k);
      }
    }
  }

  lemma InstallNewOk(l: Layout, w: World, r: RecordDto, n: Node)
    requires WorldOk(l, w) && Installable(l, w, r.path, n) && r.path !in w.disk
    requires Holds(w.clouds, r.cloud, r.path) && r.cloudFileId == w.clouds[r.cloud].tree[r.path].id
    requires w.clouds[r.cloud].google ==> r.parentId == FolderId(w.clouds[r.cloud], Parent(r.path))
    requires r.kind != Directory
    ensures WorldOk(l, InstallNew(w, r, n))
    ensures OnlyPath(w.t, InstallNew(w, r, n).t, r.path)
    ensures forall c :: Linked(InstallNew(w, r, n).t, r.path, c) <==> c == r.cloud
  {
    var w' := InstallNew(w, r, n);
    var row := RowOf(Measured(r, n));
    DiskStaysOk(l, w, r.path, n);
    NewRowTables(w.t, r, n);
    NewRowIndexed(w.t, w'.t, row, r.cloud, LinkOf(r), w.disk, n);
    NewRowOnly(w.t, w'.t, row, r.cloud, LinkOf(r));
    NewRowTrue(w.t, w'.t, row, r.cloud, LinkOf(r), w.disk, n);
    NewLinkTrue(w, w'.t, row, r.cloud, LinkOf(r), w'.disk);
  }

  lemma UpdatedRow(t: Tables, u: UpdatedDto, n: Node)
    requires Integrity(t)
    ensures var t' := LocalUpdate(t, u, n);
            && Integrity(t') && t'.clouds == t.clouds && t'.lastId == t.lastId
            && t'.files.Keys == t.files.Keys && t'.links.Keys == t.links.Keys
            && (forall g :: g in t.files ==> t'.files[g].path == t.files[g].path)
            && (forall k :: k in t.links ==>
                  t'.links[k].cloudFileId == t.links[k].cloudFileId && t'.links[k].parentId == t.links[k].parentId)
            && (forall k :: k in t.links && k != (u.globalId, u.cloud) ==> t'.links[k] == t.links[k])
            && (forall g :: g in t.files && g != u.globalId ==> t'.files[g] == t.files[g])
            && (u.globalId in t.files && u.cloud != 0 ==>
                  t'.files[u.globalId] ==
                  t.files[u.globalId].(size := n.size, hash := n.hash, mtime := n.mtime, fileId := n.fileId))
  {
  }

  lemma UpdatedRowTrue(w: World, u: UpdatedDto, n: Node)
    requires Integrity(w.t) && UniquePaths(w.t) && RowsTrue(w.t, w.disk) && u.path in w.disk && u.cloud != 0
    requires FindByPath(w.t, u.path) == Some(u.globalId) && !n.folder && !w.disk[u.path].folder
    ensures RowsTrue(LocalUpdate(w.t, u, n), w.disk[u.path := n])
  {
    UpdatedRow(w.t, u, n);
    var t', disk' := LocalUpdate(w.t, u, n), w.disk[u.path := n];
    assert RowTrue(w.t.files[u.globalId], w.disk[u.path]);
    forall g | g in t'.files && t'.files[g].path in disk'
      ensures RowTrue(t'.files[g], disk'[t'.files[g].path])
    {
      if g != u.globalId {
        assert w.t.files[g].path != u.path;
      }
    }
  }

  lemma SamePlaces(t: Tables, t': Tables, q: Path)
    requires Integrity(t) && t'.lastId == t.lastId && t'.files.Keys == t.files.Keys
    requires forall g :: g in t.files ==> t'.files[g].path == t.files[g].path
    ensures FindByPath(t', q) == FindByPath(t, q)
  {
    var r, s := FindByPath(t, q), FindByPath(t', q);
    assert r.Some? ==> r.value in t'.files && t'.files[r.value].path == q && r.value <= t'.lastId;
    assert s.Some? ==> s.value in t.files && t.files[s.value].path == q && s.value <= t.lastId;
  }

  lemma InstallUpdateOk(l: Layout, w: World, u: UpdatedDto, n: Node)
    requires WorldOk(l, w) && Installable(l, w, u.path, n) && u.path in w.disk && u.cloud != 0
    requires FindByPath(w.t, u.path) == Some(u.globalId)
    ensures WorldOk(l, InstallUpdate(w, u, n))
    ensures forall q :: FindByPath(InstallUpdate(w, u, n).t, q) == FindByPath(w.t, q)
    ensures forall q, c :: Linked(InstallUpdate(w, u, n).t, q, c) <==> Linked(w.t, q, c)
  {
    var w' := InstallUpdate(w, u, n);
    DiskStaysOk(l, w, u.path, n);
    UpdatedRow(w.t, u, n);
    assert KindFits(l, u.path, w.disk[u.path].folder);
    UpdatedRowTrue(w, u, n);
    forall q { SamePlaces(w.t, w'.t, q); }
    forall k | k in w'.t.links
      ensures LinkTrue(w', k)
    {
      assert LinkTrue(w, k);
    }
  }

  /** The local stage of a download put the winner at `p` and touched nothing else. */
  ghost predicate Put(w0: World, gr: Groups, w: World, w': World, p: Path) {
    && w'.clouds == w.clouds
    && p in w'.disk && w'.disk == w.disk[p := w'.disk[p]]
    && !w'.disk[p].folder && w'.disk[p].hash == Version(w0, gr, p) && w'.disk[p].size == WinnerSize(w0, gr, p)
    && OnlyPath(w.t, w'.t, p)
    && forall c :: Linked(w'.t, p, c) <==> p !in w0.disk && SourceOf(gr, p, c)
  }

  lemma PutKeepsCells(
      l: Layout, w0: World, gr: Groups, w: World, w': World, p: Path, done: set<Path>, jobs: map<Path, Download>)
    requires CellsOk(l, w0, gr, w, done, jobs) && Put(w0, gr, w, w', p) && p in jobs && p in done && Pulled(w0, gr, p)
    ensures CellsOk(l, w0, gr, w', done, jobs - {p})
  {
    forall q | q in l.files
      ensures CellOk(w0, gr, w', q, Arrived(w0, gr, done, jobs - {p}, q))
    {
      if q != p {
        assert Arrived(w0, gr, done, jobs - {p}, q) == Arrived(w0, gr, done, jobs, q);
        CellCarries(w0, gr, w, w', q, Arrived(w0, gr, done, jobs, q));
      }
    }
  }

  lemma PutKeepsJobs(
      l: Layout, w0: World, gr: Groups, w: World, w': World, p: Path, done: set<Path>, jobs: map<Path, Download>)
    requires JobsOk(l, w0, gr, w, done, jobs) && Put(w0, gr, w, w', p)
    ensures JobsOk(l, w0, gr, w', done, jobs - {p})
  {
    forall q | q in jobs - {p}
      ensures q in done && JobOk(l, w0, gr, w', q, jobs[q])
    {
      assert JobOk(l, w0, gr, w, q, jobs[q]);
    }
  }

  lemma PutKeepsPhase1(
      l: Layout, w0: World, gr: Groups, w: World, w': World, p: Path, done: set<Path>, jobs: map<Path, Download>)
    requires Phase1(l, w0, gr, w, done, jobs) && p in jobs && Put(w0, gr, w, w', p) && WorldOk(l, w')
    requires ListedLinks(l, w0, w')
    ensures Phase1(l, w0, gr, w', done, jobs - {p})
  {
    assert JobOk(l, w0, gr, w, p, jobs[p]);
    PutKeepsCells(l, w0, gr, w, w', p, done, jobs);
    PutKeepsJobs(l, w0, gr, w, w', p, done, jobs);
  }

  /** The source still holds the version it listed. */
  lemma SourceStays(w0: World, gr: Groups, w: World, p: Path)
    requires GroupsOk(w0.clouds, gr) && AllKept(w0.clouds, w.clouds) && Pulled(w0, gr, p)
    ensures Holds(w.clouds, Best(gr[p]).cloud, p)
    ensures w.clouds[Best(gr[p]).cloud].tree[p].content == Version(w0, gr, p)
    ensures w.clouds[Best(gr[p]).cloud].tree[p].id == Best(gr[p]).cloudFileId
    ensures Best(gr[p]).path == p
  {
    BestDescribed(w0.clouds, gr, p);
    var c := Best(gr[p]).cloud;
    assert Kept(w0.clouds[c], w.clouds[c]);
  }

  /** The listing of a file names its size and, in a Google cloud, the folder above it. */
  lemma ListingStays(l: Layout, cl0: Cloud, cl: Cloud, c: nat, p: Path)
    requires LayoutOk(l) && TreeOk(l, cl0.tree) && TreeOk(l, cl.tree) && Kept(cl0, cl) && p in cl0.tree && p in l.files
    ensures ShowsListing(LinkOf(Describe(c, cl0, p)), cl0, p)
    ensures p in cl.tree && cl.tree[p].size == Describe(c, cl0, p).size
    ensures cl.google ==> Describe(c, cl0, p).parentId == FolderId(cl, Parent(p))
  {
    assert KindFits(l, p, cl0.tree[p].folder);
    assert !KindFits(l, [], true) && !KindFits(l, [], false);
    ListedLink(c, cl0, p);
    FolderIdStays(cl0, cl, p);
  }

  lemma SourceListed(l: Layout, w0: World, gr: Groups, w: World, p: Path)
    requires Unindexed(l, w0) && GroupsOk(w0.clouds, gr) && AllKept(w0.clouds, w.clouds) && Pulled(w0, gr, p)
    requires (forall c :: c in w.clouds ==> TreeOk(l, w.clouds[c].tree)) && p in l.files
    ensures var c := Best(gr[p]).cloud;
            && ListedOne(w0, p, c, LinkOf(Best(gr[p])))
            && Holds(w.clouds, c, p) && w.clouds[c].tree[p].size == WinnerSize(w0, gr, p)
            && (w.clouds[c].google ==> Best(gr[p]).parentId == FolderId(w.clouds[c], Parent(p)))
  {
    BestDescribed(w0.clouds, gr, p);
    var c := Best(gr[p]).cloud;
    assert Kept(w0.clouds[c], w.clouds[c]);
    ListingStays(l, w0.clouds[c], w.clouds[c], c, p);
  }

  /** Rows that were there are found as before. */
  ghost predicate RowsStay(w: World, w': World) {
    forall p :: FindByPath(w.t, p).Some? ==> FindByPath(w'.t, p) == FindByPath(w.t, p)
  }

  lemma RowsStayOn(a: World, b: World, c: World)
    requires RowsStay(a, b) && RowsStay(b, c)
    ensures RowsStay(a, c)
  {
  }

  lemma NewPut(w0: World, gr: Groups, w: World, r: RecordDto, n: Node)
    requires r.path !in w0.disk && r.path in gr && gr[r.path] != [] && r == Best(gr[r.path])
    requires !n.folder && n.hash == Version(w0, gr, r.path) && n.size == WinnerSize(w0, gr, r.path)
    requires OnlyPath(w.t, InstallNew(w, r, n).t, r.path)
    requires forall c :: Linked(InstallNew(w, r, n).t, r.path, c) <==> c == r.cloud
    ensures Put(w0, gr, w, InstallNew(w, r, n), r.path)
  {
  }

  lemma NewArrives(
      l: Layout, w0: World, gr: Groups, w: World, done: set<Path>, jobs: map<Path, Download>, p: Path, n: Node)
    requires Unindexed(l, w0) && GroupsOk(w0.clouds, gr) && Phase1(l, w0, gr, w, done, jobs) && p in jobs && jobs[p].DownloadNew?
    requires !n.folder && n.hash == Version(w0, gr, p) && n.size == WinnerSize(w0, gr, p)
    ensures Phase1(l, w0, gr, InstallNew(w, jobs[p].record, n), done, jobs - {p})
    ensures RowsStay(w, InstallNew(w, jobs[p].record, n))
  {
    var r := jobs[p].record;
    assert JobOk(l, w0, gr, w, p, jobs[p]);
    SourceStays(w0, gr, w, p);
    assert CellOk(w0, gr, w, p, Arrived(w0, gr, done, jobs, p));
    SourceListed(l, w0, gr, w, p);
    InstallNewOk(l, w, r, n);
    NewListed(l, w0, w, r, n);
    NewPut(w0, gr, w, r, n);
    PutKeepsPhase1(l, w0, gr, w, InstallNew(w, r, n), p, done, jobs);
    NewRowsStay(l, w, r, n);
  }

  lemma NewListed(l: Layout, w0: World, w: World, r: RecordDto, n: Node)
    requires WorldOk(l, w) && ListedLinks(l, w0, w) && r.cloud in w.t.clouds && ListedOne(w0, r.path, r.cloud, LinkOf(r))
    ensures ListedLinks(l, w0, InstallNew(w, r, n))
  {
    NewRowTables(w.t, r, n);
    var t' := InstallNew(w, r, n).t;
    forall k | k in t'.links && k.0 in t'.files && t'.files[k.0].path in l.files
      ensures ListedOne(w0, t'.files[k.0].path, k.1, t'.links[k])
    {
      if k != (NewId(w.t), r.cloud) {
        assert k in w.t.links && LinkTrue(w, k);
      }
    }
  }

  lemma NotLinkedYet(w0: World, gr: Groups, w: World, p: Path, g: nat)
    requires CellOk(w0, gr, w, p, false) && FindByPath(w.t, p) == Some(g)
    ensures forall c: nat :: (g, c) !in w.t.links
  {
    forall c: nat
      ensures (g, c) !in w.t.links
    {
      assert !Linked(w.t, p, c);
    }
  }

  /** A file that the local folder had is not linked yet, so that its download rewrites no link. */
  lemma UpdateListed(l: Layout, w0: World, w: World, u: UpdatedDto, n: Node)
    requires WorldOk(l, w) && ListedLinks(l, w0, w) && (u.globalId, u.cloud) !in w.t.links
    ensures ListedLinks(l, w0, InstallUpdate(w, u, n))
  {
    UpdatedRow(w.t, u, n);
    var t' := InstallUpdate(w, u, n).t;
    forall k | k in t'.links && k.0 in t'.files && t'.files[k.0].path in l.files
      ensures ListedOne(w0, t'.files[k.0].path, k.1, t'.links[k])
    {
      assert k in w.t.links && t'.links[k] == w.t.links[k];
    }
  }

  lemma NewRowsStay(l: Layout, w: World, r: RecordDto, n: Node)
    requires WorldOk(l, w) && r.path !in w.disk && OnlyPath(w.t, InstallNew(w, r, n).t, r.path)
    ensures RowsStay(w, InstallNew(w, r, n))
  {
    assert FindByPath(w.t, r.path).None?;
  }

  lemma UpdatePut(w0: World, gr: Groups, w: World, u: UpdatedDto, n: Node)
    requires u.path in w0.disk && CellOk(w0, gr, w, u.path, false) 
    requires !n.folder && n.hash == Version(w0, gr, u.path) && n.size == WinnerSize(w0, gr, u.path)
    requires forall q :: FindByPath(InstallUpdate(w, u, n).t, q) == FindByPath(w.t, q)
    requires forall q, c :: Linked(InstallUpdate(w, u, n).t, q, c) <==> Linked(w.t, q, c)
    ensures Put(w0, gr, w, InstallUpdate(w, u, n), u.path)
  {
  }

  lemma UpdateArrives(
      l: Layout, w0: World, gr: Groups, w: World, done: set<Path>, jobs: map<Path, Download>, p: Path, n: Node)
    requires Unindexed(l, w0) && GroupsOk(w0.clouds, gr) && Phase1(l, w0, gr, w, done, jobs) && p in jobs && jobs[p].DownloadUpdate?
    requires !n.folder && n.hash == Version(w0, gr, p) && n.size == WinnerSize(w0, gr, p)
    ensures Phase1(l, w0, gr, InstallUpdate(w, jobs[p].updated, n), done, jobs - {p})
    ensures RowsStay(w, InstallUpdate(w, jobs[p].updated, n))
  {
    var u := jobs[p].updated;
    assert JobOk(l, w0, gr, w, p, jobs[p]);
    SourceStays(w0, gr, w, p);
    assert CellOk(w0, gr, w, p, Arrived(w0, gr, done, jobs, p));
    InstallUpdateOk(l, w, u, n);
    NotLinkedYet(w0, gr, w, p, u.globalId);
    UpdateListed(l, w0, w, u, n);
    UpdatePut(w0, gr, w, u, n);
    PutKeepsPhase1(l, w0, gr, w, InstallUpdate(w, u, n), p, done, jobs);
  }

  // ---- the operations --------------------------------------------------------------------------

  /** One download ends: the bytes are fetched, and the local stage installs them. */
  method CompleteDownload(
      ghost l: Layout, ghost w0: World, ghost gr: Groups, ghost done: set<Path>,
      w: World, jobs: map<Path, Download>, p: Path)
    returns (w': World)
    requires Unindexed(l, w0) && GroupsOk(w0.clouds, gr) && Phase1(l, w0, gr, w, done, jobs) && p in jobs
    ensures Phase1(l, w0, gr, w', done, jobs - {p}) && RowsStay(w, w')
  {
    assert JobOk(l, w0, gr, w, p, jobs[p]);
    SourceStays(w0, gr, w, p);
    SourceListed(l, w0, gr, w, p);
    var fileId, mtime := Stat();
    match jobs[p] {
      case DownloadNew(r) =>
        var n := Node(false, fileId, w.clouds[r.cloud].tree[r.path].size, w.clouds[r.cloud].tree[r.path].content, mtime);
        NewArrives(l, w0, gr, w, done, jobs, p, n);
        w' := InstallNew(w, r, n);
      case DownloadUpdate(u) =>
        var n := Node(false, fileId, w.clouds[u.cloud].tree[u.path].size, w.clouds[u.cloud].tree[u.path].content, mtime);
        UpdateArrives(l, w0, gr, w, done, jobs, p, n);
        w' := InstallUpdate(w, u, n);
    }
  }

  /** Any number of downloads end, in any order; with `all`, every one of them. */
  method CompleteDownloads(
      ghost l: Layout, ghost w0: World, ghost gr: Groups, ghost done: set<Path>,
      w: World, jobs: map<Path, Download>, all: bool)
    returns (w': World, jobs': map<Path, Download>)
    requires Unindexed(l, w0) && GroupsOk(w0.clouds, gr) && Phase1(l, w0, gr, w, done, jobs)
    ensures Phase1(l, w0, gr, w', done, jobs') && RowsStay(w, w')
    ensures all ==> jobs' == map[]
  {
    w', jobs' := w, jobs;
    var go: bool := *;
    while jobs' != map[] && (all || go)
      invariant Phase1(l, w0, gr, w', done, jobs') && RowsStay(w, w')
      decreases |jobs'|
    {
      var p :| p in jobs';
      ghost var before := w';
      w' := CompleteDownload(l, w0, gr, done, w', jobs', p);
      RowsStayOn(w, before, w');
      FewerJobs(jobs', p);
      jobs' := jobs' - {p};
      go := *;
    }
  }

  lemma FewerJobs(jobs: map<Path, Download>, p: Path)
    requires p in jobs
    ensures |jobs - {p}| < |jobs|
  {
    assert jobs.Keys == (jobs - {p}).Keys + {p};
    assert |jobs| == |jobs.Keys| && |jobs - {p}| == |(jobs - {p}).Keys|;
  }

  lemma GrownNothing(w: World, path: Path)
    ensures Grown(w, w, path)
  {
  }

  /** The test every New change passes: whatever of the path is missing is created on the spot, if that can be. */
  method EnsurePath(ghost l: Layout, w: World, path: Path) returns (w': World, ok: bool)
    requires WorldOk(l, w) && FolderPath(l, path)
    ensures ok <==> AllClear(w.clouds, path, 0)
    ensures ok ==> WorldOk(l, w') && Grown(w, w', path) && PrefixesLinked(w'.t, path)
  {
    var missing := MissingPart(w.t, path, |w.clouds|);
    SameSize(w.clouds);
    MissingPartExact(w.t, path, missing);
    if missing != [] {
      w', ok := CreatePath(l, w, path, missing);
    } else {
      w', ok := w, true;
      GrownNothing(w, path);
      NothingMissing(w.t, path);
      OnlyMissingInTheWay(l, w, path, missing);
    }
  }

  /** While nothing has been written to a cloud no file is in the way. */
  lemma NothingInTheWay(w0: World, w: World, path: Path)
    requires HomesListed(w0.clouds) && AllKept(w0.clouds, w.clouds)
    ensures AllClear(w.clouds, path, 0)
  {
    forall c | c in w.clouds
      ensures Clear(w.clouds[c], path, 0, |path|)
    {
      assert Kept(w0.clouds[c], w.clouds[c]);
      assert forall k :: 0 < k <= |path| ==> w.clouds[c].base <= w.clouds[c].base + path[..k];
    }
  }

  // ---- the local scan --------------------------------------------------------------------------

  type LocalFiles = map<Path, RecordDto>

  /** The paths outside `rest` have been given a row. */
  ghost predicate Scanned(w: World, t: Tables, local: LocalFiles, rest: set<Path>) {
    RowsScanned(w, t, rest) && LocalScanned(w, t, local, rest)
  }

  ghost predicate RowsScanned(w: World, t: Tables, rest: set<Path>) {
    && Integrity(t) && UniquePaths(t) && t.links == map[] && t.clouds == w.t.clouds
    && (forall g :: g in t.files ==> t.files[g].path in w.disk && t.files[g].path !in rest)
  }

  ghost predicate LocalScanned(w: World, t: Tables, local: LocalFiles, rest: set<Path>) {
    && (forall p :: p in local <==> p in w.disk && p !in rest)
    && (forall p :: p in local ==> p in w.disk && ScannedAs(t, p, w.disk[p], local[p]))
  }

  ghost predicate ScannedAs(t: Tables, p: Path, n: Node, r: RecordDto) {
    r == LocalRecord(p, n, r.globalId) && FindByPath(t, p) == Some(r.globalId) && t.files[r.globalId] == RowOf(r)
  }

  lemma AddedRowFound(t: Tables, row: FileRow, q: Path)
    requires Integrity(t) && UniquePaths(t) && FindByPath(t, row.path).None?
    ensures Integrity(AddFile(t, row)) && UniquePaths(AddFile(t, row))
    ensures FindByPath(AddFile(t, row), q) == if q == row.path then Some(NewId(t)) else FindByPath(t, q)
  {
    var t' := AddFile(t, row);
    assert forall g :: g in t.files ==> t.files[g].path != row.path;
    if q == row.path {
      assert NewId(t) in t'.files && t'.files[NewId(t)].path == q;
    } else if FindByPath(t, q).Some? {
      var g := FindByPath(t, q).value;
      assert g in t'.files && t'.files[g].path == q && g <= t'.lastId;
    }
  }

  lemma RowsScannedMore(w: World, t: Tables, rest: set<Path>, p: Path, row: FileRow)
    requires RowsScanned(w, t, rest) && p in rest && p in w.disk && row.path == p
    ensures FindByPath(t, p).None? && RowsScanned(w, AddFile(t, row), rest - {p})
  {
    assert FindByPath(t, p).None?;
    AddedRowFound(t, row, p);
  }

  lemma ScannedAsStays(t: Tables, row: FileRow, q: Path, n: Node, r: RecordDto)
    requires Integrity(t) && UniquePaths(t) && FindByPath(t, row.path).None? && ScannedAs(t, q, n, r) && q != row.path
    ensures ScannedAs(AddFile(t, row), q, n, r)
  {
    AddedRowFound(t, row, q);
  }

  lemma LocalScannedMore(w: World, t: Tables, t': Tables, local: LocalFiles, rest: set<Path>, p: Path, r: RecordDto)
    requires LocalScanned(w, t, local, rest) && p in rest && p in w.disk
    requires ScannedAs(t', p, w.disk[p], r)
    requires forall q :: q in local ==> q in w.disk && ScannedAs(t', q, w.disk[q], local[q])
    ensures LocalScanned(w, t', local[p := r], rest - {p})
  {
  }

  lemma ScanMore(w: World, t: Tables, local: LocalFiles, rest: set<Path>, p: Path)
    requires Scanned(w, t, local, rest) && p in rest && p in w.disk
    ensures var r := LocalRecord(p, w.disk[p], 0);
            Scanned(w, AddFile(t, RowOf(r)), local[p := r.(globalId := NewId(t))], rest - {p})
  {
    var row, t' := RowOf(LocalRecord(p, w.disk[p], 0)), AddFile(t, RowOf(LocalRecord(p, w.disk[p], 0)));
    RowsScannedMore(w, t, rest, p, row);
    AddedRowFound(t, row, p);
    forall q | q in local
      ensures q in w.disk && ScannedAs(t', q, w.disk[q], local[q])
    {
      ScannedAsStays(t, row, q, w.disk[q], local[q]);
    }
    LocalScannedMore(w, t, t', local, rest, p, LocalRecord(p, w.disk[p], NewId(t)));
  }

  /** Before the first scan: the replicas are in shape and the tables know no file. */
  ghost predicate Unindexed(l: Layout, w: World) {
    && LayoutOk(l) && DiskOk(l, w.disk) && Apart(w.clouds)
    && (forall c :: c in w.clouds ==> TreeOk(l, w.clouds[c].tree))
    && HomesListed(w.clouds)
    && Integrity(w.t) && w.t.clouds == w.clouds.Keys && w.t.files == map[] && w.t.links == map[]
  }

  lemma ScanStarts(w: World)
    requires Integrity(w.t) && w.t.files == map[] && w.t.links == map[]
    ensures Scanned(w, w.t, map[], w.disk.Keys)
  {
  }

  lemma ScannedRowTrue(w: World, t: Tables, local: LocalFiles, g: nat)
    requires Scanned(w, t, local, {}) && g in t.files
    ensures t.files[g].path in w.disk && RowTrue(t.files[g], w.disk[t.files[g].path])
  {
    var p := t.files[g].path;
    assert p in local && ScannedAs(t, p, w.disk[p], local[p]);
    assert local[p].globalId == g;
  }

  lemma ScanIndexes(l: Layout, w: World, t: Tables, local: LocalFiles)
    requires Unindexed(l, w) && Scanned(w, t, local, {})
    ensures WorldOk(l, w.(t := t))
  {
    forall p | p in w.disk
      ensures FindByPath(t, p).Some?
    {
      assert p in local && ScannedAs(t, p, w.disk[p], local[p]);
    }
    forall g | g in t.files
      ensures t.files[g].path in w.disk && RowTrue(t.files[g], w.disk[t.files[g].path])
    {
      ScannedRowTrue(w, t, local, g);
    }
  }

  method ScanLocal(ghost l: Layout, w: World) returns (w': World, local: LocalFiles)
    requires Unindexed(l, w)
    ensures WorldOk(l, w') && w' == w.(t := w'.t) && Scanned(w, w'.t, local, {})
  {
    local := map[];
    var t := w.t;
    var rest := w.disk.Keys;
    ScanStarts(w);
    while rest != {}
      invariant rest <= w.disk.Keys && Scanned(w, t, local, rest)
      decreases |rest|
    {
      var p :| p in rest;
      ScanMore(w, t, local, rest, p);
      var r := LocalRecord(p, w.disk[p], 0);
      t := AddFile(t, RowOf(r));
      local := local[p := r.(globalId := t.lastId)];
      rest := rest - {p};
    }
    ScanIndexes(l, w, t, local);
    w' := w.(t := t);
  }

  // ---- the reconciliation loop -----------------------------------------------------------------

  ghost predicate LocalEntryOk(w0: World, gr: Groups, w: World, p: Path, r: RecordDto, pulled: bool) {
    if pulled then
      && p in gr && gr[p] != [] && r == Best(gr[p]).(globalId := r.globalId)
      && if p in w0.disk then FindByPath(w.t, p) == Some(r.globalId) else r.globalId == 0
    else
      p in w0.disk && r == LocalRecord(p, w0.disk[p], r.globalId) && FindByPath(w.t, p) == Some(r.globalId)
  }

  /** The map of local files: what the scan found, overwritten by the winners of the clouds. */
  ghost predicate LocalOk(w0: World, gr: Groups, w: World, local: LocalFiles, done: set<Path>) {
    && (forall p :: p in local <==> p in w0.disk || p in done)
    && (forall p :: p in local ==> LocalEntryOk(w0, gr, w, p, local[p], p in done && Pulled(w0, gr, p)))
  }

  lemma LocalStays(w0: World, gr: Groups, w: World, w': World, local: LocalFiles, done: set<Path>)
    requires LocalOk(w0, gr, w, local, done) && RowsStay(w, w')
    ensures LocalOk(w0, gr, w', local, done)
  {
    forall p | p in local
      ensures LocalEntryOk(w0, gr, w', p, local[p], p in done && Pulled(w0, gr, p))
    {
      assert LocalEntryOk(w0, gr, w, p, local[p], p in done && Pulled(w0, gr, p));
    }
  }

  lemma LocalMore(w0: World, gr: Groups, w: World, local: LocalFiles, done: set<Path>, p: Path, r: RecordDto)
    requires LocalOk(w0, gr, w, local, done) && LocalEntryOk(w0, gr, w, p, r, Pulled(w0, gr, p)) && p !in done
    ensures LocalOk(w0, gr, w, local[p := r], done + {p})
  {
  }

  lemma GrownRowsStay(w: World, w': World, path: Path)
    requires Grown(w, w', path) && UniquePaths(w'.t) && Integrity(w'.t)
    ensures RowsStay(w, w')
  {
    forall p | FindByPath(w.t, p).Some?
      ensures FindByPath(w'.t, p) == FindByPath(w.t, p)
    {
      FindStays(w.t, w'.t, p);
    }
  }

  lemma FolderPathOf(l: Layout, p: Path)
    requires LayoutOk(l) && (p == [] || p in l.folders)
    ensures FolderPath(l, p)
    decreases |p|
  {
    if |p| > 0 {
      var q := Parent(p);
      assert q == [] || q in l.folders;
      FolderPathOf(l, q);
      forall k | 0 < k <= |p|
        ensures p[..k] in l.folders
      {
        assert k < |p| ==> p[..k] == q[..k];
        assert k == |p| ==> p[..k] == p;
      }
    }
  }

  lemma DoneWithoutJob(
      l: Layout, w0: World, gr: Groups, w: World, done: set<Path>, jobs: map<Path, Download>, p: Path)
    requires Phase1(l, w0, gr, w, done, jobs) && p !in done
    requires p in l.files ==> !Pulled(w0, gr, p)
    requires p in l.folders ==> p in w.disk
    ensures Phase1(l, w0, gr, w, done + {p}, jobs)
  {
    forall q | q in l.files
      ensures CellOk(w0, gr, w, q, Arrived(w0, gr, done + {p}, jobs, q))
    {
      assert Arrived(w0, gr, done + {p}, jobs, q) == Arrived(w0, gr, done, jobs, q);
    }
  }

  lemma DoneWithJob(
      l: Layout, w0: World, gr: Groups, w: World, done: set<Path>, jobs: map<Path, Download>, p: Path, j: Download)
    requires Phase1(l, w0, gr, w, done, jobs) && p !in done && JobOk(l, w0, gr, w, p, j)
    ensures Phase1(l, w0, gr, w, done + {p}, jobs[p := j])
  {
    assert p in l.files && p !in l.folders by {
      assert LayoutOk(l);
    }
    forall q | q in l.files
      ensures CellOk(w0, gr, w, q, Arrived(w0, gr, done + {p}, jobs[p := j], q))
    {
      assert Arrived(w0, gr, done + {p}, jobs[p := j], q) == Arrived(w0, gr, done, jobs, q);
    }
    JobsMore(l, w0, gr, w, done, jobs, p, j);
  }

  lemma JobsMore(
      l: Layout, w0: World, gr: Groups, w: World, done: set<Path>, jobs: map<Path, Download>, p: Path, j: Download)
    requires JobsOk(l, w0, gr, w, done, jobs) && JobOk(l, w0, gr, w, p, j)
    ensures JobsOk(l, w0, gr, w, done + {p}, jobs[p := j])
  {
    forall q | q in jobs[p := j]
      ensures q in done + {p} && JobOk(l, w0, gr, w, q, jobs[p := j][q])
    {
      if q != p {
        assert q in jobs && JobOk(l, w0, gr, w, q, jobs[q]);
      }
    }
  }

  /** What a cloud holds at a path says of which kind the path is. */
  lemma KindOfBest(l: Layout, w0: World, gr: Groups, p: Path)
    requires GroupsOk(w0.clouds, gr) && p in gr && forall c :: c in w0.clouds ==> TreeOk(l, w0.clouds[c].tree)
    ensures gr[p] != [] && Best(gr[p]).path == p && Best(gr[p]).globalId == 0
    ensures Best(gr[p]).kind == Directory ==> p in l.folders
    ensures Best(gr[p]).kind != Directory ==> p in l.files
  {
    BestDescribed(w0.clouds, gr, p);
    var c := Best(gr[p]).cloud;
    assert TreeOk(l, w0.clouds[c].tree);
    assert KindFits(l, p, w0.clouds[c].tree[p].folder);
  }

  lemma LinkedOnDisk(l: Layout, w: World, p: Path)
    requires WorldOk(l, w) && p != [] && PrefixesLinked(w.t, p)
    ensures p in w.disk
  {
    assert p[..|p|] == p;
    assert LinkedEverywhere(w.t, p[..|p|]);
    var g := FindByPath(w.t, p).value;
    assert w.t.files[g].path in w.disk;
  }

  method PullFolder(
      ghost l: Layout, ghost w0: World, ghost gr: Groups, ghost done: set<Path>, ghost jobs: map<Path, Download>,
      w: World, p: Path)
    returns (w': World)
    requires Phase1(l, w0, gr, w, done, jobs) && HomesListed(w0.clouds) && p in l.folders && p !in done
    ensures Phase1(l, w0, gr, w', done + {p}, jobs) && RowsStay(w, w')
  {
    FolderPathOf(l, p);
    NothingInTheWay(w0, w, p);
    var ok;
    w', ok := EnsurePath(l, w, p);
    GrowKeepsPhase1(l, w0, gr, w, w', p, done, jobs);
    LinkedOnDisk(l, w', p);
    DoneWithoutJob(l, w0, gr, w', done, jobs, p);
    GrownRowsStay(w, w', p);
  }

  lemma NewJobOk(l: Layout, w0: World, gr: Groups, w: World, p: Path)
    requires WorldOk(l, w) && p in l.files && Pulled(w0, gr, p) && p !in w0.disk
    requires PrefixesLinked(w.t, Parent(p))
    ensures JobOk(l, w0, gr, w, p, DownloadNew(Best(gr[p])))
  {
    if Parent(p) != [] {
      LinkedOnDisk(l, w, Parent(p));
    }
  }

  method PullFile(
      ghost l: Layout, ghost w0: World, ghost gr: Groups, ghost done: set<Path>,
      w: World, jobs: map<Path, Download>, p: Path, best: RecordDto)
    returns (w': World, jobs': map<Path, Download>)
    requires Phase1(l, w0, gr, w, done, jobs) && HomesListed(w0.clouds) && p in l.files && p !in done && p !in w0.disk
    requires p in gr && gr[p] != [] && best == Best(gr[p])
    ensures Phase1(l, w0, gr, w', done + {p}, jobs') && RowsStay(w, w')
  {
    FolderPathOf(l, Parent(p));
    NothingInTheWay(w0, w, Parent(p));
    var ok;
    w', ok := EnsurePath(l, w, Parent(p));
    GrowKeepsPhase1(l, w0, gr, w, w', Parent(p), done, jobs);
    NewJobOk(l, w0, gr, w', p);
    jobs' := jobs[p := DownloadNew(best)];
    DoneWithJob(l, w0, gr, w', done, jobs, p, DownloadNew(best));
    GrownRowsStay(w, w', Parent(p));
  }

  ghost predicate Reconciling(
      l: Layout, w0: World, gr: Groups, w: World, done: set<Path>, jobs: map<Path, Download>, local: LocalFiles) {
    && Unindexed(l, w0) && GroupsOk(w0.clouds, gr)
    && Phase1(l, w0, gr, w, done, jobs) && LocalOk(w0, gr, w, local, done)
  }

  /** Only clouds have it: a directory is made everywhere at once, a file is downloaded. */
  method PullNew(
      ghost l: Layout, ghost w0: World, ghost gr: Groups, ghost done: set<Path>,
      w: World, jobs: map<Path, Download>, local: LocalFiles, p: Path, best: RecordDto)
    returns (w': World, jobs': map<Path, Download>, local': LocalFiles)
    requires Reconciling(l, w0, gr, w, done, jobs, local)
    requires p in gr && gr[p] != [] && best == Best(gr[p]) && p !in done && p !in w0.disk
    ensures Reconciling(l, w0, gr, w', done + {p}, jobs', local')
  {
    KindOfBest(l, w0, gr, p);
    if best.kind == Directory {
      w' := PullFolder(l, w0, gr, done, jobs, w, p);
      jobs' := jobs;
    } else {
      w', jobs' := PullFile(l, w0, gr, done, w, jobs, p, best);
    }
    LocalStays(w0, gr, w, w', local, done);
    LocalMore(w0, gr, w', local, done, p, best);
    local' := local[p := best];
  }

  lemma UpdateJobOk(l: Layout, w0: World, gr: Groups, w: World, p: Path, g: nat)
    requires WorldOk(l, w) && p in l.files && Pulled(w0, gr, p) && p in w0.disk && p in w.disk
    requires FindByPath(w.t, p) == Some(g)
    ensures JobOk(l, w0, gr, w, p, DownloadUpdate(UpdateOf(Best(gr[p]), g)))
  {
  }

  /** The path was scanned and nothing has happened to it since. */
  lemma StillLocal(
      l: Layout, w0: World, gr: Groups, w: World, done: set<Path>, jobs: map<Path, Download>, local: LocalFiles, p: Path)
    requires Reconciling(l, w0, gr, w, done, jobs, local) && p in local && p in gr && p !in done
    ensures p in w0.disk && p in w.disk && w.disk[p].folder == w0.disk[p].folder
    ensures local[p] == LocalRecord(p, w0.disk[p], local[p].globalId)
    ensures FindByPath(w.t, p) == Some(local[p].globalId)
    ensures p in l.files <==> !w0.disk[p].folder
    ensures gr[p] != []
  {
    assert LocalEntryOk(w0, gr, w, p, local[p], false);
    assert KindFits(l, p, w0.disk[p].folder) && KindFits(l, p, w.disk[p].folder);
    BestDescribed(w0.clouds, gr, p);
  }

  lemma KeepLocal(
      l: Layout, w0: World, gr: Groups, w: World, done: set<Path>, jobs: map<Path, Download>, local: LocalFiles, p: Path)
    requires Reconciling(l, w0, gr, w, done, jobs, local) && p in local && p in gr && p !in done
    requires !Pulled(w0, gr, p)
    ensures Reconciling(l, w0, gr, w, done + {p}, jobs, local)
  {
    StillLocal(l, w0, gr, w, done, jobs, local, p);
    DoneWithoutJob(l, w0, gr, w, done, jobs, p);
    LocalMore(w0, gr, w, local, done, p, local[p]);
    Unchanged(local, p);
  }

  lemma TakeNewer(
      l: Layout, w0: World, gr: Groups, w: World, done: set<Path>, jobs: map<Path, Download>, local: LocalFiles, p: Path)
    requires Reconciling(l, w0, gr, w, done, jobs, local) && p in local && p in gr && p !in done
    requires Pulled(w0, gr, p)
    ensures var g := local[p].globalId;
            Reconciling(l, w0, gr, w, done + {p}, jobs[p := DownloadUpdate(UpdateOf(Best(gr[p]), g))],
                        local[p := Best(gr[p]).(globalId := g)])
  {
    var g := local[p].globalId;
    StillLocal(l, w0, gr, w, done, jobs, local, p);
    UpdateJobOk(l, w0, gr, w, p, g);
    DoneWithJob(l, w0, gr, w, done, jobs, p, DownloadUpdate(UpdateOf(Best(gr[p]), g)));
    LocalMore(w0, gr, w, local, done, p, Best(gr[p]).(globalId := g));
  }

  /** The local file exists: it is replaced only by a strictly newer one. */
  method PullUpdate(
      ghost l: Layout, ghost w0: World, ghost gr: Groups, ghost done: set<Path>,
      w: World, jobs: map<Path, Download>, local: LocalFiles, p: Path, best: RecordDto)
    returns (jobs': map<Path, Download>, local': LocalFiles)
    requires Reconciling(l, w0, gr, w, done, jobs, local)
    requires p in gr && gr[p] != [] && best == Best(gr[p]) && p !in done && p in local
    ensures Reconciling(l, w0, gr, w, done + {p}, jobs', local')
  {
    StillLocal(l, w0, gr, w, done, jobs, local, p);
    jobs', local' := jobs, local;
    if p in w.disk && !w.disk[p].folder && local[p].mtime < best.mtime {
      TakeNewer(l, w0, gr, w, done, jobs, local, p);
      jobs' := jobs[p := DownloadUpdate(UpdateOf(best, local[p].globalId))];
      local' := local[p := best.(globalId := local[p].globalId)];
    } else {
      KeepLocal(l, w0, gr, w, done, jobs, local, p);
    }
  }

  method ReconcilePath(
      ghost l: Layout, ghost w0: World, ghost done: set<Path>,
      w: World, jobs: map<Path, Download>, local: LocalFiles, gr: Groups, p: Path)
    returns (w': World, jobs': map<Path, Download>, local': LocalFiles)
    requires Reconciling(l, w0, gr, w, done, jobs, local) && p in gr && p !in done
    ensures Reconciling(l, w0, gr, w', done + {p}, jobs', local')
  {
    BestDescribed(w0.clouds, gr, p);
    var best := BestOf(gr[p]);
    if p !in local {
      w', jobs', local' := PullNew(l, w0, gr, done, w, jobs, local, p, best);
    } else {
      w' := w;
      jobs', local' := PullUpdate(l, w0, gr, done, w, jobs, local, p, best);
    }
  }

  lemma StillReconciling(
      l: Layout, w0: World, gr: Groups, w: World, w': World, done: set<Path>,
      jobs: map<Path, Download>, jobs': map<Path, Download>, local: LocalFiles)
    requires Reconciling(l, w0, gr, w, done, jobs, local) && RowsStay(w, w') && Phase1(l, w0, gr, w', done, jobs')
    ensures Reconciling(l, w0, gr, w', done, jobs', local)
  {
    LocalStays(w0, gr, w, w', local, done);
  }

  /** Every reported path, in any order, while downloads come in; then the wait for the rest of them. */
  method ReconcileAll(ghost l: Layout, ghost w0: World, w: World, local: LocalFiles, gr: Groups)
    returns (w': World, local': LocalFiles, ghost order: seq<Path>)
    requires Reconciling(l, w0, gr, w, {}, map[], local)
    ensures Reconciling(l, w0, gr, w', gr.Keys, map[], local')
    ensures Lists(order, gr.Keys)
  {
    w', local', order := w, local, [];
    var jobs: map<Path, Download> := map[];
    var rest := gr.Keys;
    NoneLeft(gr.Keys);
    while rest != {}
      invariant rest <= gr.Keys
      invariant Reconciling(l, w0, gr, w', gr.Keys - rest, jobs, local')
      invariant Lists(order, gr.Keys - rest)
      decreases |rest|
    {
      var p :| p in rest;
      ListsMore(order, gr.Keys - rest, p);
      order := order + [p];
      w', jobs := Interleave(l, w0, gr, gr.Keys - rest, w', jobs, local', false);
      w', jobs, local' := ReconcilePath(l, w0, gr.Keys - rest, w', jobs, local', gr, p);
      OneLess(gr.Keys, rest, p);
      rest := rest - {p};
    }
    NoneLeft(gr.Keys);
    w', jobs := Interleave(l, w0, gr, gr.Keys, w', jobs, local', true);
  }

  method Interleave(
      ghost l: Layout, ghost w0: World, ghost gr: Groups, ghost done: set<Path>,
      w: World, jobs: map<Path, Download>, ghost local: LocalFiles, all: bool)
    returns (w': World, jobs': map<Path, Download>)
    requires Reconciling(l, w0, gr, w, done, jobs, local)
    ensures Reconciling(l, w0, gr, w', done, jobs', local)
    ensures all ==> jobs' == map[]
  {
    w', jobs' := CompleteDownloads(l, w0, gr, done, w, jobs, all);
    StillReconciling(l, w0, gr, w, w', done, jobs, jobs', local);
  }
}
