/**
 Second half of the initial synchronisation: every local file is uploaded to the clouds that lack it and sent
 as an update to the clouds that have another version. An upload carries the parent id of its record; a record
 that came from one Google cloud names a folder there, which another Google cloud does not know. An update of
 a Dropbox file is written below the root of the account, whatever the home folder is.
 */
module Push {
  import opened Common
  import opened Disk
  import opened Listing
  import opened PathCreation
  import opened PathIndex
  import opened Reconcile
  import opened Records
  import opened Schema
  import opened Workspace

  datatype PushJob = Upload(record: RecordDto) | Overwrite(updated: UpdatedDto)

  type Pushes = map<(Path, nat), PushJob>

  // ---- where an update lands -------------------------------------------------------------------

  /** The path below the home folder that an update of `p` writes to, unless it leaves the home folder. */
  function Target(cl: Cloud, p: Path): Option<Path> {
    if cl.google then Some(p)
    else if cl.base <= p then Some(p[|cl.base|..])
    else None
  }

  /** The path whose update lands at `q`. */
  function Hit(cl: Cloud, q: Path): Path {
    if cl.google then q else cl.base + q
  }

  lemma TargetIsHit(cl: Cloud, p: Path, q: Path)
    ensures Target(cl, p) == Some(q) <==> Hit(cl, q) == p
  {
    if !cl.google && cl.base <= p {
      assert p == cl.base + p[|cl.base|..];
    }
    if !cl.google {
      assert (cl.base + q)[|cl.base|..] == q;
    }
  }

  /** Cloud `c` holds the file, and not as the source of the winner: it is sent an update. */
  predicate Updated(w0: World, gr: Groups, p: Path, c: nat) {
    && Holds(w0.clouds, c, p) && !w0.clouds[c].tree[p].folder
    && !(Pulled(w0, gr, p) && c == Best(gr[p]).cloud)
  }

  /** A file stands above `q`. */
  predicate FileAbove(cl: Cloud, q: Path) {
    exists r :: r in cl.tree && r < q && !cl.tree[r].folder
  }

  /** The update of `p` is written below the home folder, to a place where the cloud holds nothing at the start. */
  predicate Stray(w0: World, gr: Groups, p: Path, c: nat) {
    && Updated(w0, gr, p, c) && !w0.clouds[c].google
    && var base := w0.clouds[c].base;
       base <= p && p != base && p[|base|..] !in w0.clouds[c].tree && !FileAbove(w0.clouds[c], p[|base|..])
  }

  /** A stray update may be written where a folder is still to be created. */
  predicate Obstructs(l: Layout, w0: World, gr: Groups, p: Path, c: nat) {
    Stray(w0, gr, p, c) && p[|w0.clouds[c].base|..] in l.folders
  }

  ghost predicate NoneObstructed(l: Layout, w0: World, gr: Groups) {
    forall p, c :: Stray(w0, gr, p, c) ==> !Obstructs(l, w0, gr, p, c)
  }

  /** A stray update adds a file that no replica had: nothing known stands at its place, nor a file above it. */
  ghost predicate Litters(l: Layout, w0: World, gr: Groups, p: Path, c: nat) {
    && Stray(w0, gr, p, c)
    && var q := p[|w0.clouds[c].base|..];
       q !in l.files + l.folders && forall r :: r in l.files ==> !(r < q)
  }

  /** The cloud lacks the file at `p`, and a stray update is written below it: there can be a folder in its way. */
  ghost predicate Crowded(w0: World, gr: Groups, p: Path, c: nat) {
    && c in w0.clouds && !w0.clouds[c].google && p !in w0.clouds[c].tree
    && exists x :: Stray(w0, gr, x, c) && w0.clouds[c].base + p < x
  }

  // ---- the invariant of the second half --------------------------------------------------------

  /** The winner came from a Google cloud, and another Google cloud has nothing at the path. */
  predicate Refused(w0: World, gr: Groups, p: Path, c: nat) {
    && Pulled(w0, gr, p)
    && c in w0.clouds && p !in w0.clouds[c].tree && w0.clouds[c].google
    && Best(gr[p]).cloud in w0.clouds && w0.clouds[Best(gr[p]).cloud].google
  }

  /** All winners are on disk, and so are all directories. */
  ghost predicate Settled(l: Layout, w0: World, gr: Groups, w: World) {
    && (forall p :: p in l.files ==>
          p in w.disk && !w.disk[p].folder && w.disk[p].hash == Version(w0, gr, p) && w.disk[p].size == WinnerSize(w0, gr, p))
    && (forall p :: p in l.folders ==> p in w.disk)
  }

  /** No node of the start is lost or renamed. */
  ghost predicate IdsKept(clouds0: map<nat, Cloud>, clouds: map<nat, Cloud>) {
    && clouds.Keys == clouds0.Keys
    && forall c :: c in clouds0 ==>
         && clouds[c] == clouds0[c].(tree := clouds[c].tree, unlisted := clouds[c].unlisted)
         && forall p :: p in clouds0[c].tree ==> p in clouds[c].tree && clouds[c].tree[p].id == clouds0[c].tree[p].id
  }

  ghost predicate SameNode(a: map<Path, Remote>, b: map<Path, Remote>, p: Path) {
    (p in b <==> p in a) && (p in a ==> b[p] == a[p])
  }

  /** The update that lands at `p` in cloud `c` was sent and is over. */
  predicate Landed(w0: World, gr: Groups, p: Path, c: nat, done: set<Path>, jobs: Pushes)
    requires c in w0.clouds
  {
    var h := Hit(w0.clouds[c], p);
    Updated(w0, gr, h, c) && h in done && (h, c) !in jobs
  }

  /**
   Cloud `c` at `p`. A file of the start stays as it was until an update lands on it. Any other file appears
   with the end of its upload, unless that is refused or a folder is in its way; an update that lands here may
   replace it later.
   */
  ghost predicate CloudCell(
      w0: World, gr: Groups, w: World, p: Path, c: nat, announced: bool, waiting: bool, landed: bool)
    requires c in w0.clouds && c in w.clouds
  {
    var cl0, tree := w0.clouds[c], w.clouds[c].tree;
    if p in cl0.tree then
      && p in tree && !tree[p].folder
      && (if landed then tree[p].content == Version(w0, gr, Hit(cl0, p)) else tree[p] == cl0.tree[p])
      && (announced ==> Linked(w.t, p, c))
    else if p !in tree then !announced || waiting || Refused(w0, gr, p, c) || Crowded(w0, gr, p, c)
    else
      && announced && !waiting && !Refused(w0, gr, p, c) && !tree[p].folder && Linked(w.t, p, c)
      && (tree[p].content == Version(w0, gr, p) || (landed && tree[p].content == Version(w0, gr, Hit(cl0, p))))
  }

  ghost predicate CloudCells(l: Layout, w0: World, gr: Groups, w: World, done: set<Path>, jobs: Pushes)
    requires w.clouds.Keys == w0.clouds.Keys
  {
    forall p, c :: p in l.files && c in w0.clouds ==>
      CloudCell(w0, gr, w, p, c, p in done, (p, c) in jobs, Landed(w0, gr, p, c, done, jobs))
  }

  ghost predicate ParentReady(t: Tables, p: Path, c: nat) {
    Parent(p) == [] || Linked(t, Parent(p), c)
  }

  ghost predicate PayloadOk(w0: World, gr: Groups, w: World, p: Path, c: nat, j: PushJob)
    requires c in w0.clouds
  {
    match j
    case Upload(r) =>
      && p !in w0.clouds[c].tree && r.path == p && FindByPath(w.t, p) == Some(r.globalId)
      && r.size == WinnerSize(w0, gr, p)
      && (if Pulled(w0, gr, p) then r == Best(gr[p]).(globalId := r.globalId) else r.parentId == "")
    case Overwrite(u) =>
      && p in w0.clouds[c].tree && u.path == p && FindByPath(w.t, p) == Some(u.globalId)
      && u.cloudFileId == w0.clouds[c].tree[p].id && u.cloud == c
      && !(Pulled(w0, gr, p) && c == Best(gr[p]).cloud)
      && u.size == WinnerSize(w0, gr, p) && u.mtime == WinnerTime(w0, gr, p)
      && u.hash == Describe(c, w0.clouds[c], p).hash && u.parentId == Describe(c, w0.clouds[c], p).parentId
  }

  ghost predicate PushOk(l: Layout, w0: World, gr: Groups, w: World, done: set<Path>, k: (Path, nat), j: PushJob) {
    && k.0 in l.files && k.0 in done && k.1 in w0.clouds
    && ParentReady(w.t, k.0, k.1) && PayloadOk(w0, gr, w, k.0, k.1, j)
  }

  ghost predicate PushesOk(l: Layout, w0: World, gr: Groups, w: World, done: set<Path>, jobs: Pushes) {
    forall k :: k in jobs ==> PushOk(l, w0, gr, w, done, k, jobs[k])
  }

  /** What stands outside the tree of cloud `c`, below its home folder: the stray updates that have found nothing. */
  ghost predicate StraysAt(l: Layout, w0: World, gr: Groups, cl: Cloud, c: nat, done: set<Path>, jobs: Pushes)
    requires c in w0.clouds
  {
    && (forall x :: x in cl.unlisted && cl.base <= x ==>
          Stray(w0, gr, x, c) && x in done && (x, c) !in jobs && x[|cl.base|..] !in cl.tree)
    && (forall x :: x in cl.unlisted ==> !(x <= cl.base))
    && (forall x :: Litters(l, w0, gr, x, c) && x in done && (x, c) !in jobs ==> x in cl.unlisted)
  }

  ghost predicate StraysOk(l: Layout, w0: World, gr: Groups, w: World, done: set<Path>, jobs: Pushes)
    requires w.clouds.Keys == w0.clouds.Keys
  {
    forall c :: c in w0.clouds && !w0.clouds[c].google ==> StraysAt(l, w0, gr, w.clouds[c], c, done, jobs)
  }

  /**
   A link that shows the answer to a request which left `n` on the server. Dropbox's answer to an update may
   not say that it is about a file: then the payload stays as it was, without a check sum.
   */
  predicate ShowsAnswer(w0: World, gr: Groups, p: Path, google: bool, link: LinkRow, n: Remote) {
    && n.size == WinnerSize(w0, gr, p) == link.size
    && ((link.mtime == n.mtime && link.hash == n.hash)
        || (!google && link.mtime == WinnerTime(w0, gr, p) && link.hash == ""))
  }

  /**
   The link of a file whose update is over: it shows the answer, as long as nothing else was written to the
   place of the update. An update that was turned down leaves the link as listed.
   */
  ghost predicate UpdateShows(w0: World, gr: Groups, cl: Cloud, p: Path, c: nat, link: LinkRow)
    requires c in w0.clouds && p in w0.clouds[c].tree
  {
    var cl0, at := w0.clouds[c], Target(cl, p);
    if at.Some? && at.value in cl0.tree && !cl0.tree[at.value].folder then
      at.value in cl.tree && ShowsAnswer(w0, gr, p, cl.google, link, cl.tree[at.value])
    else if p in cl.unlisted then ShowsAnswer(w0, gr, p, cl.google, link, cl.unlisted[p])
    else if at.Some? && at.value in cl.tree then ShowsListing(link, cl0, p) || link.size == WinnerSize(w0, gr, p)
    else ShowsListing(link, cl0, p)
  }

  /** What the link of a file shows: the listing, until a request of the file itself is answered. */
  ghost predicate LinkShows(
      w0: World, gr: Groups, cl: Cloud, p: Path, c: nat, link: LinkRow, announced: bool, waiting: bool, landed: bool)
    requires c in w0.clouds
  {
    if p in w0.clouds[c].tree then
      if !announced || waiting || (Pulled(w0, gr, p) && c == Best(gr[p]).cloud) then ShowsListing(link, w0.clouds[c], p)
      else UpdateShows(w0, gr, cl, p, c, link)
    else
      && p in cl.tree && link.size == WinnerSize(w0, gr, p)
      && (landed || (link.mtime == cl.tree[p].mtime && link.hash == cl.tree[p].hash && link.size == cl.tree[p].size))
  }

  predicate LinkOfFile(l: Layout, t: Tables, k: (nat, nat)) {
    k in t.links && k.0 in t.files && t.files[k.0].path in l.files
  }

  ghost predicate LinksShow(l: Layout, w0: World, gr: Groups, w: World, done: set<Path>, jobs: Pushes)
    requires w.clouds.Keys == w0.clouds.Keys
  {
    forall k :: LinkOfFile(l, w.t, k) && k.1 in w0.clouds ==>
      var p := w.t.files[k.0].path;
      LinkShows(w0, gr, w.clouds[k.1], p, k.1, w.t.links[k], p in done, (p, k.1) in jobs, Landed(w0, gr, p, k.1, done, jobs))
  }

  ghost predicate FoldersLinked(l: Layout, w: World, done: set<Path>) {
    forall p :: p in done && p in l.folders ==> LinkedEverywhere(w.t, p)
  }

  ghost predicate Phase2(l: Layout, w0: World, gr: Groups, w: World, done: set<Path>, jobs: Pushes) {
    && WorldOk(l, w)
    && IdsKept(w0.clouds, w.clouds)
    && Settled(l, w0, gr, w)
    && CloudCells(l, w0, gr, w, done, jobs)
    && PushesOk(l, w0, gr, w, done, jobs)
    && FoldersLinked(l, w, done)
    && StraysOk(l, w0, gr, w, done, jobs)
    && LinksShow(l, w0, gr, w, done, jobs)
  }

  // ---- creating a path keeps it ----------------------------------------------------------------

  lemma LinkedMore(t: Tables, t': Tables, p: Path, c: nat)
    requires UniquePaths(t') && Integrity(t') && Linked(t, p, c)
    requires forall g :: g in t.files ==> g in t'.files && t'.files[g] == t.files[g]
    requires forall k :: k in t.links ==> k in t'.links
    ensures Linked(t', p, c) && FindByPath(t', p) == FindByPath(t, p)
  {
    FindStays(t, t', p);
  }

  lemma GrowKeepsIds(clouds0: map<nat, Cloud>, clouds: map<nat, Cloud>, clouds': map<nat, Cloud>, path: Path)
    requires IdsKept(clouds0, clouds) && ExtendsClouds(clouds, clouds', path)
    ensures IdsKept(clouds0, clouds')
  {
    forall c | c in clouds0
      ensures clouds'[c] == clouds0[c].(tree := clouds'[c].tree, unlisted := clouds'[c].unlisted)
      ensures forall p :: p in clouds0[c].tree ==> p in clouds'[c].tree && clouds'[c].tree[p].id == clouds0[c].tree[p].id
    {
      assert Extends(clouds[c], clouds'[c], path);
    }
  }

  lemma GrowSameNode(l: Layout, w: World, w': World, path: Path, p: Path, c: nat)
    requires WorldOk(l, w') && Grown(w, w', path) && FolderPath(l, path) && p in l.files && c in w.clouds
    ensures SameNode(w.clouds[c].tree, w'.clouds[c].tree, p)
  {
    NotAFolder(l, path, p);
    assert Extends(w.clouds[c], w'.clouds[c], path);
  }

  lemma GrowKeepsCell2(
      l: Layout, w0: World, gr: Groups, w: World, w': World, path: Path, p: Path, c: nat,
      announced: bool, waiting: bool, landed: bool)
    requires WorldOk(l, w) && WorldOk(l, w') && Grown(w, w', path) && FolderPath(l, path) && p in l.files
    requires c in w0.clouds && c in w.clouds && c in w'.clouds && CloudCell(w0, gr, w, p, c, announced, waiting, landed)
    ensures CloudCell(w0, gr, w', p, c, announced, waiting, landed)
  {
    GrowSameNode(l, w, w', path, p, c);
    LinksSame(l, w, w', path, p, c);
  }

  lemma GrowKeepsPush(
      l: Layout, w0: World, gr: Groups, w: World, w': World, path: Path, done: set<Path>, k: (Path, nat), j: PushJob)
    requires WorldOk(l, w) && WorldOk(l, w') && Grown(w, w', path) && FolderPath(l, path)
    requires PushOk(l, w0, gr, w, done, k, j)
    ensures PushOk(l, w0, gr, w', done, k, j)
  {
    RowsSame(l, w, w', path, k.0);
    if Parent(k.0) != [] {
      LinkedMore(w.t, w'.t, Parent(k.0), k.1);
    }
  }

  lemma GrowKeepsSettled(l: Layout, w0: World, gr: Groups, w: World, w': World, path: Path)
    requires Settled(l, w0, gr, w) && Grown(w, w', path)
    ensures Settled(l, w0, gr, w')
  {
  }

  lemma GrowKeepsStrays(
      l: Layout, w0: World, gr: Groups, cl: Cloud, cl': Cloud, c: nat, path: Path, done: set<Path>, jobs: Pushes)
    requires c in w0.clouds && StraysAt(l, w0, gr, cl, c, done, jobs)
    requires Extends(cl, cl', path) && Clear(cl, path, 0, |path|) && !cl.google
    ensures StraysAt(l, w0, gr, cl', c, done, jobs)
  {
    forall x | x in cl'.unlisted && cl'.base <= x
      ensures x[|cl.base|..] !in cl'.tree
    {
      var q := x[|cl.base|..];
      assert x == cl.base + q;
      assert q <= path ==> q == path[..|q|];
    }
  }

  /** A path can be created unless a stray update of the start stands in its way. */
  lemma WayIsClear(l: Layout, w0: World, gr: Groups, w: World, path: Path, done: set<Path>, jobs: Pushes)
    requires IdsKept(w0.clouds, w.clouds) && StraysOk(l, w0, gr, w, done, jobs)
    requires FolderPath(l, path) && NoneObstructed(l, w0, gr)
    ensures AllClear(w.clouds, path, 0)
  {
    forall c | c in w.clouds
      ensures Clear(w.clouds[c], path, 0, |path|)
    {
      forall k {:trigger path[..k]} | !w.clouds[c].google && 0 < k <= |path|
        ensures path[..k] in w.clouds[c].tree || w.clouds[c].base + path[..k] !in w.clouds[c].unlisted
      {
        NotObstructed(l, w0, gr, w, path[..k], c, done, jobs);
      }
    }
  }

  lemma NotObstructed(l: Layout, w0: World, gr: Groups, w: World, q: Path, c: nat, done: set<Path>, jobs: Pushes)
    requires IdsKept(w0.clouds, w.clouds) && StraysOk(l, w0, gr, w, done, jobs) && NoneObstructed(l, w0, gr)
    requires q in l.folders && c in w.clouds && !w.clouds[c].google
    ensures w.clouds[c].base + q !in w.clouds[c].unlisted
  {
    var x := w.clouds[c].base + q;
    if x in w.clouds[c].unlisted {
      assert StraysAt(l, w0, gr, w.clouds[c], c, done, jobs);
      assert x[|w.clouds[c].base|..] == q;
      assert Obstructs(l, w0, gr, x, c);
      assert false;
    }
  }

  lemma GrowKeepsShow(
      w0: World, gr: Groups, cl: Cloud, cl': Cloud, path: Path, p: Path, c: nat, link: LinkRow,
      announced: bool, waiting: bool, landed: bool)
    requires c in w0.clouds && Extends(cl, cl', path) && LinkShows(w0, gr, cl, p, c, link, announced, waiting, landed)
    ensures LinkShows(w0, gr, cl', p, c, link, announced, waiting, landed)
  {
  }

  lemma GrowKeepsLinksShow(
      l: Layout, w0: World, gr: Groups, w: World, w': World, path: Path, done: set<Path>, jobs: Pushes)
    requires LayoutOk(l) && Integrity(w.t) && FolderPath(l, path) && Grown(w, w', path)
    requires w.clouds.Keys == w0.clouds.Keys && LinksShow(l, w0, gr, w, done, jobs)
    ensures w'.clouds.Keys == w0.clouds.Keys && LinksShow(l, w0, gr, w', done, jobs)
  {
    forall k | LinkOfFile(l, w'.t, k) && k.1 in w0.clouds
      ensures var p := w'.t.files[k.0].path;
              LinkShows(w0, gr, w'.clouds[k.1], p, k.1, w'.t.links[k], p in done, (p, k.1) in jobs,
                        Landed(w0, gr, p, k.1, done, jobs))
    {
      var p := w'.t.files[k.0].path;
      NotAFolder(l, path, p);
      assert LinkOfFile(l, w.t, k) && w.t.files[k.0].path == p && w.t.links[k] == w'.t.links[k];
      assert Extends(w.clouds[k.1], w'.clouds[k.1], path);
      GrowKeepsShow(w0, gr, w.clouds[k.1], w'.clouds[k.1], path, p, k.1, w.t.links[k], p in done, (p, k.1) in jobs,
                    Landed(w0, gr, p, k.1, done, jobs));
    }
  }

  lemma GrowKeepsPhase2(
      l: Layout, w0: World, gr: Groups, w: World, w': World, path: Path, done: set<Path>, jobs: Pushes)
    requires Phase2(l, w0, gr, w, done, jobs) && WorldOk(l, w') && Grown(w, w', path) && FolderPath(l, path)
    requires AllClear(w.clouds, path, 0)
    ensures Phase2(l, w0, gr, w', done, jobs)
  {
    GrowKeepsIds(w0.clouds, w.clouds, w'.clouds, path);
    GrowKeepsSettled(l, w0, gr, w, w', path);
    forall p, c | p in l.files && c in w0.clouds
      ensures CloudCell(w0, gr, w', p, c, p in done, (p, c) in jobs, Landed(w0, gr, p, c, done, jobs))
    {
      GrowKeepsCell2(l, w0, gr, w, w', path, p, c, p in done, (p, c) in jobs, Landed(w0, gr, p, c, done, jobs));
    }
    forall k | k in jobs
      ensures PushOk(l, w0, gr, w', done, k, jobs[k])
    {
      GrowKeepsPush(l, w0, gr, w, w', path, done, k, jobs[k]);
    }
    forall p | p in done && p in l.folders
      ensures LinkedEverywhere(w'.t, p)
    {
      LinkedStays(w.t, w'.t, path, p);
    }
    forall c | c in w0.clouds && !w0.clouds[c].google
      ensures StraysAt(l, w0, gr, w'.clouds[c], c, done, jobs)
    {
      assert Extends(w.clouds[c], w'.clouds[c], path);
      GrowKeepsStrays(l, w0, gr, w.clouds[c], w'.clouds[c], c, path, done, jobs);
    }
    GrowKeepsLinksShow(l, w0, gr, w, w', path, done, jobs);
  }

  // ---- a push ends -----------------------------------------------------------------------------

  /**
   One answer of cloud `c` about `p`: a file stands at `at`, if anywhere below the home folder, with contents
   `v`; `p` is linked; everything else is as before.
   */
  ghost predicate Pushed(w: World, w': World, p: Path, c: nat, at: Option<Path>, v: nat) {
    && w'.disk == w.disk && w'.t.clouds == w.t.clouds
    && c in w.clouds && c in w'.clouds && w'.clouds == w.clouds[c := w'.clouds[c]]
    && StoredAt(w.clouds[c], w'.clouds[c], at, v)
    && (forall q :: FindByPath(w'.t, q) == FindByPath(w.t, q))
    && (forall q, d :: (q != p || d != c) ==> (Linked(w'.t, q, d) <==> Linked(w.t, q, d)))
    && Linked(w'.t, p, c)
  }

  ghost predicate StoredAt(cl: Cloud, cl': Cloud, at: Option<Path>, v: nat) {
    && cl' == cl.(tree := cl'.tree, unlisted := cl'.unlisted)
    && match at
       case None => cl'.tree == cl.tree
       case Some(q) =>
         && q in cl'.tree && cl'.tree == cl.tree[q := cl'.tree[q]]
         && !cl'.tree[q].folder && cl'.tree[q].content == v
         && (q in cl.tree ==> cl'.tree[q].id == cl.tree[q].id)
  }

  /** Which paths have an update of theirs under way does not depend on the end of another push. */
  lemma LandedElsewhere(
      w0: World, gr: Groups, p: Path, c: nat, done: set<Path>, jobs: Pushes, q: Path, d: nat)
    requires d in w0.clouds && (d != c || Hit(w0.clouds[d], q) != p || !Updated(w0, gr, p, c))
    ensures Landed(w0, gr, q, d, done, jobs - {(p, c)}) == Landed(w0, gr, q, d, done, jobs)
  {
  }

  lemma UploadedKeepsCell(
      l: Layout, w0: World, gr: Groups, w: World, w': World, p: Path, c: nat, done: set<Path>, jobs: Pushes, q: Path, d: nat)
    requires w.clouds.Keys == w0.clouds.Keys && CloudCells(l, w0, gr, w, done, jobs)
    requires Pushed(w, w', p, c, Some(p), Version(w0, gr, p)) && !Refused(w0, gr, p, c) && p in done
    requires c in w0.clouds && p !in w0.clouds[c].tree
    requires q in l.files && d in w0.clouds && d in w'.clouds
    ensures CloudCell(w0, gr, w', q, d, q in done, (q, d) in jobs - {(p, c)}, Landed(w0, gr, q, d, done, jobs - {(p, c)}))
  {
    assert CloudCell(w0, gr, w, q, d, q in done, (q, d) in jobs, Landed(w0, gr, q, d, done, jobs));
    LandedElsewhere(w0, gr, p, c, done, jobs, q, d);
    if q != p || d != c {
      assert SameNode(w.clouds[d].tree, w'.clouds[d].tree, q);
    }
  }

  /** The node an update of `p` replaces, if there is one. */
  ghost predicate Struck(cl: Cloud, p: Path, at: Option<Path>) {
    forall q :: at == Some(q) <==> Hit(cl, q) == p && q in cl.tree && !cl.tree[q].folder
  }

  lemma OverwrittenKeepsCell(
      l: Layout, w0: World, gr: Groups, w: World, w': World, p: Path, c: nat, at: Option<Path>,
      done: set<Path>, jobs: Pushes, q: Path, d: nat)
    requires IdsKept(w0.clouds, w.clouds) && CloudCells(l, w0, gr, w, done, jobs)
    requires Pushed(w, w', p, c, at, Version(w0, gr, p)) && Updated(w0, gr, p, c) && p in done
    requires Struck(w.clouds[c], p, at)
    requires q in l.files && d in w0.clouds && d in w'.clouds
    ensures CloudCell(w0, gr, w', q, d, q in done, (q, d) in jobs - {(p, c)}, Landed(w0, gr, q, d, done, jobs - {(p, c)}))
  {
    assert CloudCell(w0, gr, w, q, d, q in done, (q, d) in jobs, Landed(w0, gr, q, d, done, jobs));
    assert Hit(w.clouds[d], q) == Hit(w0.clouds[d], q);
    if d != c || Hit(w0.clouds[d], q) != p {
      LandedElsewhere(w0, gr, p, c, done, jobs, q, d);
      assert d == c ==> at != Some(q);
      assert SameNode(w.clouds[d].tree, w'.clouds[d].tree, q);
    } else {
      assert at == Some(q) <==> q in w.clouds[c].tree && !w.clouds[c].tree[q].folder;
      assert SameNode(w.clouds[d].tree, w'.clouds[d].tree, q) || at == Some(q);
    }
  }

  lemma PushedKeepsPush(
      l: Layout, w0: World, gr: Groups, w: World, w': World, p: Path, c: nat, at: Option<Path>, v: nat,
      done: set<Path>, k: (Path, nat), j: PushJob)
    requires PushOk(l, w0, gr, w, done, k, j) && Pushed(w, w', p, c, at, v)
    ensures PushOk(l, w0, gr, w', done, k, j)
  {
    assert FindByPath(w'.t, k.0) == FindByPath(w.t, k.0);
    assert Linked(w.t, Parent(k.0), k.1) ==> Linked(w'.t, Parent(k.0), k.1);
  }

  lemma PushedKeepsFolders(l: Layout, w: World, w': World, p: Path, c: nat, at: Option<Path>, v: nat, done: set<Path>)
    requires FoldersLinked(l, w, done) && Pushed(w, w', p, c, at, v)
    ensures FoldersLinked(l, w', done)
  {
    forall q | q in done && q in l.folders
      ensures LinkedEverywhere(w'.t, q)
    {
      assert FindByPath(w'.t, q) == FindByPath(w.t, q);
      forall d | d in w'.t.clouds
        ensures Linked(w'.t, q, d)
      {
        assert Linked(w.t, q, d);
      }
    }
  }

  lemma PushedKeepsIds(w0: World, w: World, w': World, p: Path, c: nat, at: Option<Path>, v: nat)
    requires IdsKept(w0.clouds, w.clouds) && Pushed(w, w', p, c, at, v)
    ensures IdsKept(w0.clouds, w'.clouds)
  {
  }

  /** Everything but the cells survives the end of a push. */
  lemma PushedKeepsRest(
      l: Layout, w0: World, gr: Groups, w: World, w': World, p: Path, c: nat, at: Option<Path>, v: nat,
      done: set<Path>, jobs: Pushes)
    requires Phase2(l, w0, gr, w, done, jobs) && WorldOk(l, w') && Pushed(w, w', p, c, at, v)
    ensures IdsKept(w0.clouds, w'.clouds) && Settled(l, w0, gr, w') && FoldersLinked(l, w', done)
    ensures PushesOk(l, w0, gr, w', done, jobs - {(p, c)})
  {
    PushedKeepsIds(w0, w, w', p, c, at, v);
    forall k | k in jobs - {(p, c)}
      ensures PushOk(l, w0, gr, w', done, k, jobs[k])
    {
      PushedKeepsPush(l, w0, gr, w, w', p, c, at, v, done, k, jobs[k]);
    }
    PushedKeepsFolders(l, w, w', p, c, at, v, done);
  }

  lemma UploadedKeepsPhase2(
      l: Layout, w0: World, gr: Groups, w: World, w': World, p: Path, c: nat, done: set<Path>, jobs: Pushes)
    requires Phase2(l, w0, gr, w, done, jobs) && WorldOk(l, w') && Pushed(w, w', p, c, Some(p), Version(w0, gr, p))
    requires StraysOk(l, w0, gr, w', done, jobs - {(p, c)}) && LinksShow(l, w0, gr, w', done, jobs - {(p, c)})
    requires p in done && !Refused(w0, gr, p, c) && c in w0.clouds && p !in w0.clouds[c].tree
    ensures Phase2(l, w0, gr, w', done, jobs - {(p, c)})
  {
    PushedKeepsRest(l, w0, gr, w, w', p, c, Some(p), Version(w0, gr, p), done, jobs);
    forall q, d | q in l.files && d in w0.clouds
      ensures CloudCell(
                w0, gr, w', q, d, q in done, (q, d) in jobs - {(p, c)}, Landed(w0, gr, q, d, done, jobs - {(p, c)}))
    {
      UploadedKeepsCell(l, w0, gr, w, w', p, c, done, jobs, q, d);
    }
  }

  lemma OverwrittenKeepsPhase2(
      l: Layout, w0: World, gr: Groups, w: World, w': World, p: Path, c: nat, at: Option<Path>,
      done: set<Path>, jobs: Pushes)
    requires Phase2(l, w0, gr, w, done, jobs) && WorldOk(l, w') && Pushed(w, w', p, c, at, Version(w0, gr, p))
    requires StraysOk(l, w0, gr, w', done, jobs - {(p, c)}) && LinksShow(l, w0, gr, w', done, jobs - {(p, c)})
    requires p in done && Updated(w0, gr, p, c) && Struck(w.clouds[c], p, at)
    ensures Phase2(l, w0, gr, w', done, jobs - {(p, c)})
  {
    PushedKeepsRest(l, w0, gr, w, w', p, c, at, Version(w0, gr, p), done, jobs);
    forall q, d | q in l.files && d in w0.clouds
      ensures CloudCell(
                w0, gr, w', q, d, q in done, (q, d) in jobs - {(p, c)}, Landed(w0, gr, q, d, done, jobs - {(p, c)}))
    {
      OverwrittenKeepsCell(l, w0, gr, w, w', p, c, at, done, jobs, q, d);
    }
  }

  /**
   The server turned the request down: an upload that is refused or has a folder in its way, or an update
   that has one.
   */
  ghost predicate TurnedDown(w0: World, gr: Groups, w: World, p: Path, c: nat) {
    || Refused(w0, gr, p, c) || Crowded(w0, gr, p, c)
    || (c in w.clouds && Updated(w0, gr, p, c) && Blocked(w.clouds[c], p))
  }

  lemma BlockedHitsNothing(l: Layout, w: World, p: Path, c: nat, q: Path)
    requires WorldOk(l, w) && c in w.clouds && Blocked(w.clouds[c], p) && Hit(w.clouds[c], q) == p && q in l.files
    ensures q !in w.clouds[c].tree
  {
    TargetIsHit(w.clouds[c], p, q);
    if q in w.clouds[c].tree {
      FileNode(l, w, c, q);
    }
  }

  lemma RefusalKeepsCell(
      l: Layout, w0: World, gr: Groups, w: World, p: Path, c: nat, done: set<Path>, jobs: Pushes, q: Path, d: nat)
    requires WorldOk(l, w) && IdsKept(w0.clouds, w.clouds) && CloudCells(l, w0, gr, w, done, jobs)
    requires TurnedDown(w0, gr, w, p, c) && (p, c) in jobs && q in l.files && d in w0.clouds
    ensures CloudCell(w0, gr, w, q, d, q in done, (q, d) in jobs - {(p, c)}, Landed(w0, gr, q, d, done, jobs - {(p, c)}))
  {
    assert CloudCell(w0, gr, w, q, d, q in done, (q, d) in jobs, Landed(w0, gr, q, d, done, jobs));
    if d == c && Hit(w0.clouds[d], q) == p && Updated(w0, gr, p, c) {
      BlockedHitsNothing(l, w, p, c, q);
    } else {
      LandedElsewhere(w0, gr, p, c, done, jobs, q, d);
    }
  }

  // ---- what stands outside the trees -----------------------------------------------------------

  /** Above a node there are only folders. */
  lemma OnlyFoldersAbove(l: Layout, tree: map<Path, Remote>, p: Path, r: Path)
    requires LayoutOk(l) && TreeOk(l, tree) && p in tree && r < p && r != []
    ensures r in tree && r in l.folders && tree[r].folder
    decreases |p|
  {
    assert KindFits(l, p, tree[p].folder);
    assert r <= Parent(p) && Parent(p) in tree && Parent(p) in l.folders;
    if r != Parent(p) {
      OnlyFoldersAbove(l, tree, Parent(p), r);
    } else {
      assert KindFits(l, r, tree[r].folder);
    }
  }

  /** Of two files of one cloud none stands above the other. */
  lemma FilesApart(l: Layout, w0: World, gr: Groups, p: Path, x: Path, c: nat)
    requires Unindexed(l, w0) && Updated(w0, gr, p, c) && Updated(w0, gr, x, c)
    ensures !(x < p)
  {
    assert TreeOk(l, w0.clouds[c].tree);
    RootIsNoFile(l, w0, c);
    if x < p {
      OnlyFoldersAbove(l, w0.clouds[c].tree, p, x);
      assert false;
    }
  }

  lemma RootIsNoFile(l: Layout, w0: World, c: nat)
    requires Unindexed(l, w0) && c in w0.clouds
    ensures [] !in w0.clouds[c].tree
  {
    assert TreeOk(l, w0.clouds[c].tree);
    assert !KindFits(l, [], true) && !KindFits(l, [], false);
  }

  /** Two paths above a third one are above each other. */
  lemma BothAbove(a: Path, b: Path, p: Path)
    requires a <= p && b <= p
    ensures a <= b || b <= a
  {
    if |a| <= |b| {
      assert a == p[..|a|] && b[..|a|] == p[..|a|];
    } else {
      assert b == p[..|b|] && a[..|b|] == p[..|b|];
    }
  }

  /** What is written elsewhere does not stand in the way of a stray update. */
  lemma NothingElsewhereInTheWay(
      l: Layout, w0: World, gr: Groups, cl: Cloud, p: Path, c: nat, done: set<Path>, jobs: Pushes, x: Path)
    requires Unindexed(l, w0) && c in w0.clouds && StraysAt(l, w0, gr, cl, c, done, jobs)
    requires Updated(w0, gr, p, c) && cl.base <= p && x in cl.unlisted
    ensures !(x < p) && !(p < x)
  {
    if x < p {
      BothAbove(cl.base, x, p);
      FilesApart(l, w0, gr, p, x, c);
    }
    if p < x {
      assert cl.base <= x;
      FilesApart(l, w0, gr, x, p, c);
    }
  }

  lemma SameKinds(l: Layout, w0: World, w: World, c: nat, r: Path)
    requires Unindexed(l, w0) && WorldOk(l, w) && IdsKept(w0.clouds, w.clouds) && Holds(w0.clouds, c, r)
    ensures Holds(w.clouds, c, r) && w.clouds[c].tree[r].folder == w0.clouds[c].tree[r].folder
  {
    assert TreeOk(l, w0.clouds[c].tree) && TreeOk(l, w.clouds[c].tree);
    assert KindFits(l, r, w0.clouds[c].tree[r].folder) && KindFits(l, r, w.clouds[c].tree[r].folder);
  }

  /** A stray update that adds a file is never turned down. */
  lemma LittersAreWritten(
      l: Layout, w0: World, gr: Groups, w: World, p: Path, c: nat, done: set<Path>, jobs: Pushes)
    requires Unindexed(l, w0) && WorldOk(l, w) && IdsKept(w0.clouds, w.clouds)
    requires c in w.clouds && StraysAt(l, w0, gr, w.clouds[c], c, done, jobs) && Litters(l, w0, gr, p, c)
    ensures !Blocked(w.clouds[c], p) && At(w.clouds[c], p) == None
  {
    var cl := w.clouds[c];
    var q := p[|cl.base|..];
    assert TreeOk(l, cl.tree);
    assert q in cl.tree ==> KindFits(l, q, cl.tree[q].folder);
    forall r | r in cl.tree && r < q
      ensures cl.tree[r].folder
    {
      assert KindFits(l, r, cl.tree[r].folder);
    }
    forall x | x in cl.unlisted
      ensures !(x < p) && !(p < x)
    {
      NothingElsewhereInTheWay(l, w0, gr, cl, p, c, done, jobs, x);
    }
  }

  lemma StraysElsewhere(
      l: Layout, w0: World, gr: Groups, cl: Cloud, d: nat, p: Path, c: nat, done: set<Path>, jobs: Pushes)
    requires d in w0.clouds && d != c && StraysAt(l, w0, gr, cl, d, done, jobs)
    ensures StraysAt(l, w0, gr, cl, d, done, jobs - {(p, c)})
  {
  }

  lemma StraysOneCloud(
      l: Layout, w0: World, gr: Groups, w: World, w': World, p: Path, c: nat, done: set<Path>, jobs: Pushes)
    requires w.clouds.Keys == w0.clouds.Keys && StraysOk(l, w0, gr, w, done, jobs)
    requires c in w.clouds && c in w'.clouds && w'.clouds == w.clouds[c := w'.clouds[c]]
    requires !w0.clouds[c].google ==> StraysAt(l, w0, gr, w'.clouds[c], c, done, jobs - {(p, c)})
    ensures w'.clouds.Keys == w0.clouds.Keys && StraysOk(l, w0, gr, w', done, jobs - {(p, c)})
  {
    forall d | d in w0.clouds && !w0.clouds[d].google
      ensures StraysAt(l, w0, gr, w'.clouds[d], d, done, jobs - {(p, c)})
    {
      if d != c {
        StraysElsewhere(l, w0, gr, w.clouds[d], d, p, c, done, jobs);
      }
    }
  }

  lemma UploadKeepsStrays(
      l: Layout, w0: World, gr: Groups, cl: Cloud, p: Path, n: Remote, c: nat, done: set<Path>, jobs: Pushes)
    requires c in w0.clouds && StraysAt(l, w0, gr, cl, c, done, jobs) && !Updated(w0, gr, p, c) && p in l.files
    requires cl.base == w0.clouds[c].base && !cl.google
    ensures StraysAt(l, w0, gr, Uploaded(cl, p, n), c, done, jobs - {(p, c)})
  {
    var cl' := Uploaded(cl, p, n);
    forall x | x in cl'.unlisted && cl'.base <= x
      ensures Stray(w0, gr, x, c) && x in done && (x, c) !in jobs - {(p, c)} && x[|cl'.base|..] !in cl'.tree
    {
      assert x == cl.base + x[|cl.base|..];
    }
    forall x | Litters(l, w0, gr, x, c) && x in done && (x, c) !in jobs - {(p, c)}
      ensures x in cl'.unlisted
    {
      assert (cl.base + p)[|cl.base|..] == p;
    }
  }

  lemma StraysWithout(l: Layout, w0: World, gr: Groups, cl: Cloud, p: Path, c: nat, done: set<Path>, jobs: Pushes)
    requires c in w0.clouds && StraysAt(l, w0, gr, cl, c, done, jobs) && !Litters(l, w0, gr, p, c)
    ensures StraysAt(l, w0, gr, cl, c, done, jobs - {(p, c)})
  {
  }

  lemma TurnedDownKeepsStrays(
      l: Layout, w0: World, gr: Groups, w: World, p: Path, c: nat, done: set<Path>, jobs: Pushes)
    requires Unindexed(l, w0) && WorldOk(l, w) && IdsKept(w0.clouds, w.clouds) && c in w.clouds
    requires StraysAt(l, w0, gr, w.clouds[c], c, done, jobs) && TurnedDown(w0, gr, w, p, c)
    ensures StraysAt(l, w0, gr, w.clouds[c], c, done, jobs - {(p, c)})
  {
    if Litters(l, w0, gr, p, c) {
      LittersAreWritten(l, w0, gr, w, p, c, done, jobs);
      assert false;
    }
    StraysWithout(l, w0, gr, w.clouds[c], p, c, done, jobs);
  }

  /** An update that is written outside the tree, below the home folder, is a stray one. */
  lemma WrittenIsStray(l: Layout, w0: World, gr: Groups, w: World, p: Path, c: nat)
    requires Unindexed(l, w0) && WorldOk(l, w) && IdsKept(w0.clouds, w.clouds) && Updated(w0, gr, p, c)
    requires c in w.clouds && !w.clouds[c].google && w.clouds[c].base <= p
    requires At(w.clouds[c], p) == None && !Blocked(w.clouds[c], p) && p !in w.clouds[c].unlisted
    ensures Stray(w0, gr, p, c) && p[|w.clouds[c].base|..] !in w.clouds[c].tree
  {
    var cl, cl0 := w.clouds[c], w0.clouds[c];
    var q := p[|cl.base|..];
    assert q in cl0.tree ==> q in cl.tree;
    forall r | r in cl0.tree && r < q
      ensures cl0.tree[r].folder
    {
      SameKinds(l, w0, w, c, r);
    }
  }

  lemma WritingKeepsStrays(
      l: Layout, w0: World, gr: Groups, cl: Cloud, cl': Cloud, p: Path, c: nat, done: set<Path>, jobs: Pushes)
    requires c in w0.clouds && StraysAt(l, w0, gr, cl, c, done, jobs) && p in done
    requires cl'.base == cl.base && cl'.tree.Keys == cl.tree.Keys
    requires cl'.unlisted.Keys == cl.unlisted.Keys || cl'.unlisted.Keys == cl.unlisted.Keys + {p}
    requires p in cl'.unlisted && p !in cl.unlisted && cl.base <= p ==> Stray(w0, gr, p, c) && p[|cl.base|..] !in cl.tree
    requires Litters(l, w0, gr, p, c) ==> p in cl'.unlisted
    requires p in cl'.unlisted && p !in cl.unlisted ==> !(p <= cl.base)
    ensures StraysAt(l, w0, gr, cl', c, done, jobs - {(p, c)})
  {
  }

  /** What an update that is not turned down does to the places outside the tree. */
  lemma WritesOutside(cl: Cloud, cl': Cloud, p: Path, v: nat)
    requires !Blocked(cl, p) && Lands(cl, cl', p, v) && !cl.google
    ensures cl'.base == cl.base && cl'.tree.Keys == cl.tree.Keys
    ensures cl'.unlisted.Keys == if At(cl, p) == None then cl.unlisted.Keys + {p} else cl.unlisted.Keys
    ensures At(cl, p) == None && p !in cl.unlisted ==> !(p <= cl.base)
  {
    if At(cl, p) == None {
      assert cl'.unlisted.Keys == cl.unlisted.Keys + {p};
    }
  }

  lemma OverwriteKeepsStrays(
      l: Layout, w0: World, gr: Groups, w: World, cl': Cloud, p: Path, v: nat, c: nat, done: set<Path>, jobs: Pushes)
    requires Unindexed(l, w0) && WorldOk(l, w) && IdsKept(w0.clouds, w.clouds) && c in w.clouds && !w.clouds[c].google
    requires StraysAt(l, w0, gr, w.clouds[c], c, done, jobs) && Updated(w0, gr, p, c) && p in done
    requires !Blocked(w.clouds[c], p) && Lands(w.clouds[c], cl', p, v)
    ensures StraysAt(l, w0, gr, cl', c, done, jobs - {(p, c)})
  {
    var cl := w.clouds[c];
    if Litters(l, w0, gr, p, c) {
      LittersAreWritten(l, w0, gr, w, p, c, done, jobs);
    }
    if At(cl, p) == None && cl.base <= p && p !in cl.unlisted {
      WrittenIsStray(l, w0, gr, w, p, c);
    }
    WritesOutside(cl, cl', p, v);
    WritingKeepsStrays(l, w0, gr, cl, cl', p, c, done, jobs);
  }

  // ---- what the links show ---------------------------------------------------------------------

  /** The link of one file, as the invariant sees it. */
  ghost predicate ShowsAt(l: Layout, w0: World, gr: Groups, w: World, k: (nat, nat), done: set<Path>, jobs: Pushes)
    requires w.clouds.Keys == w0.clouds.Keys && LinkOfFile(l, w.t, k) && k.1 in w0.clouds
  {
    var p := w.t.files[k.0].path;
    LinkShows(w0, gr, w.clouds[k.1], p, k.1, w.t.links[k], p in done, (p, k.1) in jobs, Landed(w0, gr, p, k.1, done, jobs))
  }

  lemma UploadKeepsShow(
      w0: World, gr: Groups, cl: Cloud, p: Path, n: Remote, c: nat, x: Path, link: LinkRow,
      announced: bool, waiting: bool, landed: bool)
    requires c in w0.clouds && p !in w0.clouds[c].tree && x != p
    requires LinkShows(w0, gr, cl, x, c, link, announced, waiting, landed)
    ensures LinkShows(w0, gr, Uploaded(cl, p, n), x, c, link, announced, waiting, landed)
  {
    TargetIsHit(cl, x, p);
  }

  /** An update leaves the links of all other files as true as they were. */
  lemma OverwriteKeepsShow(
      w0: World, gr: Groups, cl: Cloud, cl': Cloud, p: Path, v: nat, c: nat, x: Path, link: LinkRow,
      announced: bool, waiting: bool, landed: bool, landed': bool)
    requires c in w0.clouds && x != p && !Blocked(cl, p) && Lands(cl, cl', p, v)
    requires LinkShows(w0, gr, cl, x, c, link, announced, waiting, landed)
    requires landed ==> landed'
    requires Hit(cl, x) == p ==> landed'
    ensures LinkShows(w0, gr, cl', x, c, link, announced, waiting, landed')
  {
    TargetIsHit(cl, p, x);
    if At(cl, p).Some? {
      TargetIsHit(cl, p, At(cl, p).value);
      TargetIsHit(cl, x, At(cl, p).value);
    }
  }

  lemma LandedMore(w0: World, gr: Groups, p: Path, c: nat, done: set<Path>, jobs: Pushes, k: (Path, nat))
    requires c in w0.clouds
    ensures Landed(w0, gr, p, c, done, jobs) ==> Landed(w0, gr, p, c, done, jobs - {k})
  {
  }

  lemma MoreLandedShows(
      w0: World, gr: Groups, cl: Cloud, p: Path, c: nat, link: LinkRow, announced: bool, waiting: bool,
      landed: bool, landed': bool)
    requires c in w0.clouds && LinkShows(w0, gr, cl, p, c, link, announced, waiting, landed) && (landed ==> landed')
    ensures LinkShows(w0, gr, cl, p, c, link, announced, waiting, landed')
  {
  }

  lemma OnePathOneRow(t: Tables, g: nat, h: nat, p: Path)
    requires UniquePaths(t) && FindByPath(t, p) == Some(g) && h in t.files && t.files[h].path == p
    ensures g == h
  {
  }

  /** The link of a new file shows the answer to its upload. */
  lemma UploadKeepsLinksShow(
      l: Layout, w0: World, gr: Groups, w: World, t': Tables, p: Path, g: nat, c: nat, n: Remote, done: set<Path>, jobs: Pushes)
    requires w.clouds.Keys == w0.clouds.Keys && LinksShow(l, w0, gr, w, done, jobs)
    requires UniquePaths(w.t) && FindByPath(w.t, p) == Some(g) && LinkPut(w.t, t', g, c, n.id)
    requires c in w0.clouds && p !in w0.clouds[c].tree && n.size == WinnerSize(w0, gr, p)
    requires var link := t'.links[(g, c)]; link.mtime == n.mtime && link.hash == n.hash && link.size == n.size
    ensures LinksShow(l, w0, gr, World(w.disk, WithNode(w, c, p, n), t'), done, jobs - {(p, c)})
  {
    var w' := World(w.disk, WithNode(w, c, p, n), t');
    forall k | LinkOfFile(l, t', k) && k.1 in w0.clouds
      ensures ShowsAt(l, w0, gr, w', k, done, jobs - {(p, c)})
    {
      var x := t'.files[k.0].path;
      if k != (g, c) {
        assert LinkOfFile(l, w.t, k) && ShowsAt(l, w0, gr, w, k, done, jobs);
        LandedElsewhere(w0, gr, p, c, done, jobs, x, k.1);
        if x == p {
          OnePathOneRow(w.t, g, k.0, p);
        }
        if k.1 == c {
          UploadKeepsShow(w0, gr, w.clouds[c], p, n, c, x, w.t.links[k], x in done, (x, c) in jobs,
                          Landed(w0, gr, x, c, done, jobs));
        }
      }
    }
  }

  /** The link of an updated file shows the answer to its update. */
  lemma OwnLinkShows(
      l: Layout, w0: World, gr: Groups, cl: Cloud, cl': Cloud, p: Path, v: nat, c: nat, link: LinkRow,
      done: set<Path>, jobs: Pushes)
    requires c in w0.clouds && Updated(w0, gr, p, c) && !Blocked(cl, p) && Lands(cl, cl', p, v)
    requires cl.google == w0.clouds[c].google && (!cl.google ==> StraysAt(l, w0, gr, cl, c, done, jobs))
    requires forall q :: q in w0.clouds[c].tree && !w0.clouds[c].tree[q].folder ==> q in cl.tree && !cl.tree[q].folder
    requires Left(cl, cl', p).Some? && ShowsAnswer(w0, gr, p, cl.google, link, Left(cl, cl', p).value)
    ensures LinkShows(w0, gr, cl', p, c, link, true, false, true) && LinkShows(w0, gr, cl', p, c, link, true, false, false)
  {
  }

  /** The link of another file, and that of the same file in another cloud. */
  lemma OtherLinkShows(
      l: Layout, w0: World, gr: Groups, w: World, p: Path, c: nat, cl': Cloud, v: nat, k: (nat, nat),
      done: set<Path>, jobs: Pushes)
    requires w.clouds.Keys == w0.clouds.Keys && c in w.clouds && !Blocked(w.clouds[c], p) && Lands(w.clouds[c], cl', p, v)
    requires w.clouds[c].google == w0.clouds[c].google && w.clouds[c].base == w0.clouds[c].base
    requires Updated(w0, gr, p, c) && p in done
    requires LinkOfFile(l, w.t, k) && k.1 in w0.clouds && ShowsAt(l, w0, gr, w, k, done, jobs)
    requires w.t.files[k.0].path != p || k.1 != c
    ensures var x := w.t.files[k.0].path;
            LinkShows(w0, gr, w.clouds[c := cl'][k.1], x, k.1, w.t.links[k], x in done, (x, k.1) in jobs - {(p, c)},
                      Landed(w0, gr, x, k.1, done, jobs - {(p, c)}))
  {
    var x := w.t.files[k.0].path;
    LandedMore(w0, gr, x, k.1, done, jobs, (p, c));
    if k.1 == c {
      OverwriteKeepsShow(w0, gr, w.clouds[c], cl', p, v, c, x, w.t.links[k], x in done, (x, c) in jobs,
                         Landed(w0, gr, x, c, done, jobs), Landed(w0, gr, x, c, done, jobs - {(p, c)}));
    } else {
      MoreLandedShows(w0, gr, w.clouds[k.1], x, k.1, w.t.links[k], x in done, (x, k.1) in jobs,
                      Landed(w0, gr, x, k.1, done, jobs), Landed(w0, gr, x, k.1, done, jobs - {(p, c)}));
    }
  }

  lemma OverwriteKeepsLinksShow(
      l: Layout, w0: World, gr: Groups, w: World, t': Tables, p: Path, g: nat, c: nat, cl': Cloud, v: nat,
      done: set<Path>, jobs: Pushes)
    requires IdsKept(w0.clouds, w.clouds) && LinksShow(l, w0, gr, w, done, jobs) && c in w.clouds
    requires UniquePaths(w.t) && FindByPath(w.t, p) == Some(g) && (g, c) in w.t.links
    requires LinkPut(w.t, t', g, c, w.t.links[(g, c)].cloudFileId)
    requires p in done && Updated(w0, gr, p, c) && !Blocked(w.clouds[c], p) && Lands(w.clouds[c], cl', p, v)
    requires LinkShows(w0, gr, cl', p, c, t'.links[(g, c)], true, false, true)
    requires LinkShows(w0, gr, cl', p, c, t'.links[(g, c)], true, false, false)
    ensures LinksShow(l, w0, gr, World(w.disk, w.clouds[c := cl'], t'), done, jobs - {(p, c)})
  {
    var w' := World(w.disk, w.clouds[c := cl'], t');
    forall k | LinkOfFile(l, t', k) && k.1 in w0.clouds
      ensures ShowsAt(l, w0, gr, w', k, done, jobs - {(p, c)})
    {
      if k != (g, c) {
        assert LinkOfFile(l, w.t, k) && ShowsAt(l, w0, gr, w, k, done, jobs);
        if t'.files[k.0].path == p {
          OnePathOneRow(w.t, g, k.0, p);
        }
        OtherLinkShows(l, w0, gr, w, p, c, cl', v, k, done, jobs);
      }
    }
  }

  lemma FilesStay(l: Layout, w0: World, w: World, c: nat)
    requires Unindexed(l, w0) && WorldOk(l, w) && IdsKept(w0.clouds, w.clouds) && c in w0.clouds
    ensures forall q :: q in w0.clouds[c].tree ==>
              q in w.clouds[c].tree && w.clouds[c].tree[q].folder == w0.clouds[c].tree[q].folder
  {
    forall q | q in w0.clouds[c].tree
      ensures q in w.clouds[c].tree && w.clouds[c].tree[q].folder == w0.clouds[c].tree[q].folder
    {
      SameKinds(l, w0, w, c, q);
    }
  }

  /** A request that is turned down leaves the link as it was listed. */
  lemma OwnLinkStays(l: Layout, w0: World, gr: Groups, w: World, p: Path, c: nat, link: LinkRow)
    requires Unindexed(l, w0) && WorldOk(l, w) && IdsKept(w0.clouds, w.clouds) && c in w0.clouds
    requires Updated(w0, gr, p, c) && Blocked(w.clouds[c], p) && ShowsListing(link, w0.clouds[c], p)
    ensures UpdateShows(w0, gr, w.clouds[c], p, c, link)
  {
    FilesStay(l, w0, w, c);
  }

  lemma TurnedDownOwn(
      l: Layout, w0: World, gr: Groups, w: World, p: Path, c: nat, k: (nat, nat), done: set<Path>, jobs: Pushes)
    requires Unindexed(l, w0) && WorldOk(l, w) && IdsKept(w0.clouds, w.clouds) && TurnedDown(w0, gr, w, p, c)
    requires c in w0.clouds && CloudCell(w0, gr, w, p, c, p in done, true, Landed(w0, gr, p, c, done, jobs))
    requires LinkOfFile(l, w.t, k) && w.t.files[k.0].path == p && k.1 == c && (p, c) in jobs
    requires ShowsAt(l, w0, gr, w, k, done, jobs)
    ensures ShowsAt(l, w0, gr, w, k, done, jobs - {(p, c)})
  {
    assert LinkTrue(w, k);
    assert Updated(w0, gr, p, c);
    OwnLinkStays(l, w0, gr, w, p, c, w.t.links[k]);
  }

  lemma TurnedDownOther(
      l: Layout, w0: World, gr: Groups, w: World, p: Path, c: nat, k: (nat, nat), done: set<Path>, jobs: Pushes)
    requires w.clouds.Keys == w0.clouds.Keys && LinkOfFile(l, w.t, k) && k.1 in w0.clouds
    requires w.t.files[k.0].path != p || k.1 != c
    requires ShowsAt(l, w0, gr, w, k, done, jobs)
    ensures ShowsAt(l, w0, gr, w, k, done, jobs - {(p, c)})
  {
    var x := w.t.files[k.0].path;
    LandedMore(w0, gr, x, k.1, done, jobs, (p, c));
    MoreLandedShows(w0, gr, w.clouds[k.1], x, k.1, w.t.links[k], x in done, (x, k.1) in jobs,
                    Landed(w0, gr, x, k.1, done, jobs), Landed(w0, gr, x, k.1, done, jobs - {(p, c)}));
  }

  lemma TurnedDownKeepsLinks(
      l: Layout, w0: World, gr: Groups, w: World, p: Path, c: nat, done: set<Path>, jobs: Pushes)
    requires Unindexed(l, w0) && WorldOk(l, w) && IdsKept(w0.clouds, w.clouds) && CloudCells(l, w0, gr, w, done, jobs)
    requires LinksShow(l, w0, gr, w, done, jobs) && (p, c) in jobs && TurnedDown(w0, gr, w, p, c) && c in w0.clouds
    ensures LinksShow(l, w0, gr, w, done, jobs - {(p, c)})
  {
    forall k | LinkOfFile(l, w.t, k) && k.1 in w0.clouds
      ensures ShowsAt(l, w0, gr, w, k, done, jobs - {(p, c)})
    {
      assert ShowsAt(l, w0, gr, w, k, done, jobs);
      if w.t.files[k.0].path == p && k.1 == c {
        assert CloudCell(w0, gr, w, p, c, p in done, (p, c) in jobs, Landed(w0, gr, p, c, done, jobs));
        TurnedDownOwn(l, w0, gr, w, p, c, k, done, jobs);
      } else {
        TurnedDownOther(l, w0, gr, w, p, c, k, done, jobs);
      }
    }
  }

  lemma FewerPushesOk(l: Layout, w0: World, gr: Groups, w: World, done: set<Path>, jobs: Pushes, k0: (Path, nat))
    requires PushesOk(l, w0, gr, w, done, jobs)
    ensures PushesOk(l, w0, gr, w, done, jobs - {k0})
  {
  }

  /** A request that is turned down changes nothing, and nothing is what the cells then demand. */
  lemma RefusalKeepsPhase2(l: Layout, w0: World, gr: Groups, w: World, p: Path, c: nat, done: set<Path>, jobs: Pushes)
    requires Unindexed(l, w0) && Phase2(l, w0, gr, w, done, jobs) && (p, c) in jobs && TurnedDown(w0, gr, w, p, c)
    requires c in w0.clouds
    ensures Phase2(l, w0, gr, w, done, jobs - {(p, c)})
  {
    forall q, d | q in l.files && d in w0.clouds
      ensures CloudCell(
                w0, gr, w, q, d, q in done, (q, d) in jobs - {(p, c)}, Landed(w0, gr, q, d, done, jobs - {(p, c)}))
    {
      RefusalKeepsCell(l, w0, gr, w, p, c, done, jobs, q, d);
    }
    FewerPushesOk(l, w0, gr, w, done, jobs, (p, c));
    if !w0.clouds[c].google {
      TurnedDownKeepsStrays(l, w0, gr, w, p, c, done, jobs);
    }
    Unchanged(w.clouds, c);
    StraysOneCloud(l, w0, gr, w, w, p, c, done, jobs);
    TurnedDownKeepsLinks(l, w0, gr, w, p, c, done, jobs);
  }

  // ---- uploads ---------------------------------------------------------------------------------

  /** The folder an upload asks for: the one its record names, or the one the tables know for the parent. */
  function ParentOf(t: Tables, cl: Cloud, c: nat, r: RecordDto): string {
    if r.parentId != "" then r.parentId
    else if Parent(r.path) == [] then cl.home
    else CloudFileIdByPath(t, Parent(r.path), c)
  }

  /** Something was written below `p` outside the tree, so that a folder stands at `p`. */
  predicate FolderInTheWay(cl: Cloud, p: Path) {
    exists x :: x in cl.unlisted && cl.base + p < x
  }

  /** Google creates the file if the id is that of the parent folder; Dropbox goes by the path. */
  predicate Accepts(cl: Cloud, p: Path, parentId: string) {
    if cl.google then (Parent(p) == [] || Parent(p) in cl.tree) && parentId == FolderId(cl, Parent(p))
    else !FolderInTheWay(cl, p)
  }

  lemma RootIsNoNode(l: Layout, w: World, c: nat)
    requires WorldOk(l, w) && c in w.clouds
    ensures [] !in w.clouds[c].tree
  {
    assert TreeOk(l, w.clouds[c].tree);
    assert !KindFits(l, [], true) && !KindFits(l, [], false);
  }

  lemma TablesKnowParent(l: Layout, w: World, p: Path, c: nat)
    requires WorldOk(l, w) && c in w.clouds && ParentReady(w.t, p, c)
    ensures Parent(p) == [] || Parent(p) in w.clouds[c].tree
    ensures (if Parent(p) == [] then w.clouds[c].home else CloudFileIdByPath(w.t, Parent(p), c))
            == FolderId(w.clouds[c], Parent(p))
  {
    RootIsNoNode(l, w, c);
    if Parent(p) != [] {
      LinkedIsThere(l, w, Parent(p), c);
    }
  }

  /** Folder ids of two Google clouds differ. */
  lemma FoldersApart(w: World, c: nat, d: nat, q: Path)
    requires Apart(w.clouds) && c in w.clouds && d in w.clouds && c != d && w.clouds[c].google && w.clouds[d].google
    ensures FolderId(w.clouds[c], q) != FolderId(w.clouds[d], q)
    ensures FolderId(w.clouds[d], q) != ""
  {
    assert q in w.clouds[c].tree ==> Holds(w.clouds, c, q);
    assert q in w.clouds[d].tree ==> Holds(w.clouds, d, q);
  }

  /** The parent id in a Google record is still the id of that folder in its own cloud. */
  lemma RecordNamesItsFolder(l: Layout, w0: World, gr: Groups, w: World, p: Path)
    requires Unindexed(l, w0) && GroupsOk(w0.clouds, gr) && IdsKept(w0.clouds, w.clouds) && Pulled(w0, gr, p)
    requires WorldOk(l, w)
    ensures var c := Best(gr[p]).cloud;
            && c in w.clouds && p in w0.clouds[c].tree
            && Best(gr[p]).parentId == if w.clouds[c].google then FolderId(w.clouds[c], Parent(p)) else ""
  {
    BestDescribed(w0.clouds, gr, p);
    var c := Best(gr[p]).cloud;
    assert TreeOk(l, w0.clouds[c].tree);
    assert Best(gr[p]) == Describe(c, w0.clouds[c], p);
    RootIsNoNode(l, w, c);
    if Parent(p) in w0.clouds[c].tree {
      assert w.clouds[c].tree[Parent(p)].id == w0.clouds[c].tree[Parent(p)].id;
    } else {
      ParentIsRoot(l, w0, c, p);
    }
  }

  lemma ParentIsRoot(l: Layout, w0: World, c: nat, p: Path)
    requires Unindexed(l, w0) && c in w0.clouds && p in w0.clouds[c].tree && Parent(p) !in w0.clouds[c].tree
    ensures Parent(p) == []
  {
    assert TreeOk(l, w0.clouds[c].tree);
  }

  /** An upload is accepted if and only if it is not refused in the sense above, and no folder is in its way. */
  lemma AcceptedExactly(l: Layout, w0: World, gr: Groups, w: World, done: set<Path>, p: Path, c: nat, r: RecordDto)
    requires Unindexed(l, w0) && GroupsOk(w0.clouds, gr) && IdsKept(w0.clouds, w.clouds) && WorldOk(l, w)
    requires PushOk(l, w0, gr, w, done, (p, c), Upload(r))
    ensures Accepts(w.clouds[c], p, ParentOf(w.t, w.clouds[c], c, r)) <==>
              !Refused(w0, gr, p, c) && (w.clouds[c].google || !FolderInTheWay(w.clouds[c], p))
  {
    TablesKnowParent(l, w, p, c);
    if Pulled(w0, gr, p) {
      RecordNamesItsFolder(l, w0, gr, w, p);
      var d := Best(gr[p]).cloud;
      if w.clouds[c].google && w.clouds[d].google {
        FoldersApart(w, c, d, Parent(p));
      }
    }
  }

  // ---- the new state of the cloud --------------------------------------------------------------

  /** A new file at `p`; on Dropbox it replaces what was written to that place of the account before. */
  function Uploaded(cl: Cloud, p: Path, n: Remote): Cloud {
    cl.(tree := cl.tree[p := n], unlisted := if cl.google then cl.unlisted else cl.unlisted - {cl.base + p})
  }

  /** The file that an update of `p` replaces. */
  function At(cl: Cloud, p: Path): Option<Path> {
    var at := Target(cl, p);
    if at.Some? && at.value in cl.tree && !cl.tree[at.value].folder then at else None
  }

  /**
   No file stands where an update of `p` would be written, and it cannot be created there either: a folder
   stands at the place, or a file above it.
   */
  predicate Blocked(cl: Cloud, p: Path) {
    && !cl.google && At(cl, p) == None && p !in cl.unlisted
    && (p <= cl.base
        || (cl.base <= p && (p[|cl.base|..] in cl.tree || FileAbove(cl, p[|cl.base|..])))
        || exists x :: x in cl.unlisted && (x < p || p < x))
  }

  /** An update of `p` with contents `v`: it replaces the file it hits, or writes to a place outside the tree. */
  ghost predicate Lands(cl: Cloud, cl': Cloud, p: Path, v: nat) {
    if Blocked(cl, p) then cl' == cl
    else StoredAt(cl, cl', At(cl, p), v)
         && if At(cl, p).Some? then cl'.unlisted == cl.unlisted
            else p in cl'.unlisted && cl'.unlisted == cl.unlisted[p := cl'.unlisted[p]]
                 && !cl'.unlisted[p].folder && cl'.unlisted[p].content == v
  }

  /** The file that an update of `p` has left. */
  function Left(cl: Cloud, cl': Cloud, p: Path): Option<Remote> {
    var at := At(cl, p);
    if at.Some? then if at.value in cl'.tree then Some(cl'.tree[at.value]) else None
    else if p in cl'.unlisted then Some(cl'.unlisted[p]) else None
  }

  lemma AtIsStruck(cl: Cloud, p: Path)
    ensures Struck(cl, p, At(cl, p))
  {
    forall q
      ensures At(cl, p) == Some(q) <==> Hit(cl, q) == p && q in cl.tree && !cl.tree[q].folder
    {
      TargetIsHit(cl, p, q);
    }
  }

  /** Where an upload and the update of another path write to the same file, the later one decides. */
  lemma TheLaterWriteStays(cl: Cloud, q: Path, n: Remote, v: nat, first: Cloud, last: Cloud)
    requires q != [] && q !in cl.tree && !n.folder && !Blocked(cl, Hit(cl, q))
    requires Lands(cl, first, Hit(cl, q), v) && Lands(Uploaded(cl, q, n), last, Hit(cl, q), v)
    ensures Uploaded(first, q, n).tree[q].content == n.content
    ensures q in last.tree && last.tree[q].content == v
  {
    TargetIsHit(cl, Hit(cl, q), q);
    TargetIsHit(Uploaded(cl, q, n), Hit(cl, q), q);
  }

  /**
   Where an update is written below a file that is still to be uploaded, the earlier one decides: after the
   update the upload finds a folder in its way, after the upload the update is turned down.
   */
  lemma TheEarlierFileStays(cl: Cloud, q: Path, x: Path, n: Remote, v: nat, parentId: string, cl': Cloud)
    requires q != [] && q !in cl.tree && !cl.google && !n.folder && cl.base + q < x && !Blocked(cl, x) && At(cl, x) == None
    requires x !in cl.unlisted
    requires Lands(cl, cl', x, v)
    ensures !Accepts(cl', q, parentId)
    ensures At(Uploaded(cl, q, n), x) == None ==> Blocked(Uploaded(cl, q, n), x)
  {
    assert x in cl'.unlisted;
    var t := x[|cl.base|..];
    assert cl.base == (cl.base + q)[..|cl.base|] && x == cl.base + t;
    assert q == t[..|q|];
    assert q in Uploaded(cl, q, n).tree;
  }

  /**
   Where an update is written to the place of a folder that is still to be created, the earlier one decides:
   after the update the folder cannot be created, after the folder the update is turned down.
   */
  lemma TheEarlierKindStays(cl: Cloud, q: Path, folder: Remote, v: nat, cl': Cloud)
    requires q != [] && q !in cl.tree && !cl.google && folder.folder && !Blocked(cl, cl.base + q)
    requires cl.base + q !in cl.unlisted
    requires Lands(cl, cl', cl.base + q, v)
    ensures !Clear(cl', q, 0, |q|)
    ensures Blocked(cl.(tree := cl.tree[q := folder]), cl.base + q)
  {
    TargetIsHit(cl, cl.base + q, q);
    TargetIsHit(cl.(tree := cl.tree[q := folder]), cl.base + q, q);
    assert q[..|q|] == q;
    assert (cl.base + q)[|cl.base|..] == q;
  }

  function WithNode(w: World, c: nat, p: Path, n: Remote): map<nat, Cloud>
    requires c in w.clouds
  {
    w.clouds[c := Uploaded(w.clouds[c], p, n)]
  }

  lemma NewNodeApart(w: World, c: nat, p: Path, n: Remote)
    requires Apart(w.clouds) && c in w.clouds && p !in w.clouds[c].tree && FreshIds([n.id], w.clouds)
    ensures Apart(WithNode(w, c, p, n))
  {
    var clouds' := WithNode(w, c, p, n);
    assert [n.id][0] == n.id && n.id in [n.id];
    forall d, q | Holds(clouds', d, q)
      ensures (d == c && q == p && clouds'[d].tree[q] == n)
              || (Holds(w.clouds, d, q) && clouds'[d].tree[q] == w.clouds[d].tree[q] && clouds'[d].tree[q].id != n.id)
    {
      if d in w.clouds {
        InUse(w.clouds, d, q);
      }
    }
    forall d | d in clouds'
      ensures clouds'[d].home == w.clouds[d].home && clouds'[d].home != n.id
    {
      InUse(w.clouds, d, p);
    }
  }

  /** Both maps hold the same nodes under the same ids, and the same homes. */
  ghost predicate SameIds(clouds: map<nat, Cloud>, clouds': map<nat, Cloud>) {
    && clouds'.Keys == clouds.Keys
    && (forall d :: d in clouds ==> clouds'[d].home == clouds[d].home && clouds'[d].google == clouds[d].google)
    && (forall d, q :: Holds(clouds', d, q) ==> Holds(clouds, d, q) && clouds'[d].tree[q].id == clouds[d].tree[q].id)
  }

  lemma SameIdsApart(clouds: map<nat, Cloud>, clouds': map<nat, Cloud>)
    requires Apart(clouds) && SameIds(clouds, clouds')
    ensures Apart(clouds')
  {
    forall c, d, p, q | Holds(clouds', c, p) && Holds(clouds', d, q) && clouds'[c].tree[p].id == clouds'[d].tree[q].id
      ensures c == d && p == q
    {
      assert Holds(clouds, c, p) && Holds(clouds, d, q);
    }
  }

  lemma NodeKeepsTree(l: Layout, tree: map<Path, Remote>, p: Path, n: Remote)
    requires TreeOk(l, tree) && p in l.files && !n.folder && (Parent(p) == [] || Parent(p) in tree)
    ensures TreeOk(l, tree[p := n])
  {
  }

  /** The tables after one link of row `g` was written or rewritten. */
  ghost predicate LinkPut(t: Tables, t': Tables, g: nat, c: nat, id: string) {
    && (g, c) in t'.links && t'.links[(g, c)].cloudFileId == id
    && t' == t.(links := t.links[(g, c) := t'.links[(g, c)]])
  }

  lemma LinkPutFinds(t: Tables, t': Tables, p: Path, g: nat, c: nat, id: string)
    requires Integrity(t) && c in t.clouds && FindByPath(t, p) == Some(g) && LinkPut(t, t', g, c, id)
    ensures Integrity(t')
    ensures forall q :: FindByPath(t', q) == FindByPath(t, q)
    ensures forall q, d :: (q != p || d != c) ==> (Linked(t', q, d) <==> Linked(t, q, d))
    ensures Linked(t', p, c)
  {
    forall q
      ensures FindByPath(t', q) == FindByPath(t, q)
    {
      SamePlaces(t, t', q);
    }
    forall q, d | q != p || d != c
      ensures Linked(t', q, d) <==> Linked(t, q, d)
    {
      LinkPutElsewhere(t, t', p, g, c, id, q, d);
    }
  }

  lemma LinkPutElsewhere(t: Tables, t': Tables, p: Path, g: nat, c: nat, id: string, q: Path, d: nat)
    requires FindByPath(t, p) == Some(g) && LinkPut(t, t', g, c, id) && (q != p || d != c)
    requires FindByPath(t', q) == FindByPath(t, q)
    ensures Linked(t', q, d) <==> Linked(t, q, d)
  {
    var h := FindByPath(t, q);
    assert h.Some? ==> t.files[h.value].path == q;
    assert t.files[g].path == p;
  }

  lemma LinkPutIndexed(t: Tables, t': Tables, disk: map<Path, Node>)
    requires Indexed(t, disk) && t'.files == t.files && forall q :: FindByPath(t', q) == FindByPath(t, q)
    ensures Indexed(t', disk)
  {
  }

  lemma LinkPutTrue(w: World, t': Tables, clouds': map<nat, Cloud>, p: Path, g: nat, c: nat, n: Remote)
    requires LinksTrue(w) && c in w.clouds && clouds' == WithNode(w, c, p, n)
    requires g in w.t.files && w.t.files[g].path == p && LinkPut(w.t, t', g, c, n.id) && p !in w.clouds[c].tree
    requires w.clouds[c].google ==> t'.links[(g, c)].parentId == FolderId(w.clouds[c], Parent(p))
    requires Rooted(w.clouds[c].tree) && p != [] && (Parent(p) == [] || Parent(p) in w.clouds[c].tree)
    ensures LinksTrue(World(w.disk, clouds', t'))
  {
    var w' := World(w.disk, clouds', t');
    assert Parent(p) != p;
    forall k | k in t'.links
      ensures LinkTrue(w', k)
    {
      if k != (g, c) {
        assert k in w.t.links && LinkTrue(w, k);
        if k.1 == c {
          FolderIdStays(w.clouds[c], clouds'[c], w.t.files[k.0].path);
        }
      }
    }
  }

  /** A node and a link of the same file that may be put into the world. */
  ghost predicate Puttable(l: Layout, w: World, t': Tables, p: Path, g: nat, c: nat, n: Remote) {
    && c in w.clouds && p in l.files && FindByPath(w.t, p) == Some(g)
    && !n.folder && (Parent(p) == [] || Parent(p) in w.clouds[c].tree)
    && p !in w.clouds[c].tree && FreshIds([n.id], w.clouds)
    && LinkPut(w.t, t', g, c, n.id)
    && (w.clouds[c].google ==> t'.links[(g, c)].parentId == FolderId(w.clouds[c], Parent(p)))
  }

  lemma TreesStayOk(l: Layout, w: World, p: Path, c: nat, n: Remote)
    requires (forall d :: d in w.clouds ==> TreeOk(l, w.clouds[d].tree)) && c in w.clouds && p in l.files && !n.folder
    requires Parent(p) == [] || Parent(p) in w.clouds[c].tree
    ensures forall d :: d in WithNode(w, c, p, n) ==> TreeOk(l, WithNode(w, c, p, n)[d].tree)
  {
    NodeKeepsTree(l, w.clouds[c].tree, p, n);
  }

  lemma PutTables(l: Layout, w: World, t': Tables, p: Path, g: nat, c: nat, n: Remote)
    requires WorldOk(l, w) && Puttable(l, w, t', p, g, c, n)
    ensures Indexed(t', w.disk) && RowsTrue(t', w.disk) && Integrity(t') && t'.clouds == w.clouds.Keys
  {
    LinkPutFinds(w.t, t', p, g, c, n.id);
    LinkPutIndexed(w.t, t', w.disk);
  }

  lemma PutTrue(l: Layout, w: World, t': Tables, p: Path, g: nat, c: nat, n: Remote)
    requires WorldOk(l, w) && Puttable(l, w, t', p, g, c, n)
    ensures LinksTrue(World(w.disk, WithNode(w, c, p, n), t'))
  {
    TreesRooted(l, w);
    LinkPutTrue(w, t', WithNode(w, c, p, n), p, g, c, n);
  }

  lemma PutOk(l: Layout, w: World, t': Tables, p: Path, g: nat, c: nat, n: Remote)
    requires WorldOk(l, w) && Puttable(l, w, t', p, g, c, n)
    ensures WorldOk(l, World(w.disk, WithNode(w, c, p, n), t'))
  {
    PutTables(l, w, t', p, g, c, n);
    PutTrue(l, w, t', p, g, c, n);
    NewNodeApart(w, c, p, n);
    TreesStayOk(l, w, p, c, n);
  }

  lemma PutPushed(l: Layout, w: World, t': Tables, p: Path, g: nat, c: nat, n: Remote)
    requires WorldOk(l, w) && Puttable(l, w, t', p, g, c, n)
    ensures Pushed(w, World(w.disk, WithNode(w, c, p, n), t'), p, c, Some(p), n.content)
    ensures RowsStay(w, World(w.disk, WithNode(w, c, p, n), t'))
  {
    LinkPutFinds(w.t, t', p, g, c, n.id);
  }

  lemma PutKeeps(
      l: Layout, w0: World, gr: Groups, w: World, t': Tables, p: Path, g: nat, c: nat, n: Remote, done: set<Path>, jobs: Pushes)
    requires Pushing(l, w0, gr, w, done, jobs) && Puttable(l, w, t', p, g, c, n)
    requires n.content == Version(w0, gr, p) && p in done && !Refused(w0, gr, p, c)
    requires c in w0.clouds && p !in w0.clouds[c].tree && n.size == WinnerSize(w0, gr, p)
    requires var link := t'.links[(g, c)]; link.mtime == n.mtime && link.hash == n.hash && link.size == n.size
    ensures Pushing(l, w0, gr, World(w.disk, WithNode(w, c, p, n), t'), done, jobs - {(p, c)})
    ensures RowsStay(w, World(w.disk, WithNode(w, c, p, n), t'))
  {
    PutOk(l, w, t', p, g, c, n);
    PutPushed(l, w, t', p, g, c, n);
    if !w0.clouds[c].google {
      UploadKeepsStrays(l, w0, gr, w.clouds[c], p, n, c, done, jobs);
    }
    StraysOneCloud(l, w0, gr, w, World(w.disk, WithNode(w, c, p, n), t'), p, c, done, jobs);
    UploadKeepsLinksShow(l, w0, gr, w, t', p, g, c, n, done, jobs);
    UploadedKeepsPhase2(l, w0, gr, w, World(w.disk, WithNode(w, c, p, n), t'), p, c, done, jobs);
  }

  /** The link of an updated file keeps its id, and so does the file that the update hits, wherever that is. */
  ghost predicate Replaceable(w: World, t': Tables, p: Path, g: nat, c: nat, cl': Cloud, v: nat) {
    && c in w.clouds && FindByPath(w.t, p) == Some(g) && (g, c) in w.t.links
    && LinkPut(w.t, t', g, c, w.t.links[(g, c)].cloudFileId)
    && t'.links[(g, c)].parentId == w.t.links[(g, c)].parentId
    && !Blocked(w.clouds[c], p) && Lands(w.clouds[c], cl', p, v)
  }

  /** Same nodes, same ids, same kinds. */
  ghost predicate SameShape(cl: Cloud, cl': Cloud) {
    && cl' == cl.(tree := cl'.tree, unlisted := cl'.unlisted)
    && cl'.tree.Keys == cl.tree.Keys
    && forall q :: q in cl.tree ==> cl'.tree[q].id == cl.tree[q].id && cl'.tree[q].folder == cl.tree[q].folder
  }

  lemma StoredShape(cl: Cloud, cl': Cloud, p: Path, v: nat)
    requires StoredAt(cl, cl', At(cl, p), v)
    ensures SameShape(cl, cl')
  {
  }

  lemma ShapeKeepsTree(l: Layout, cl: Cloud, cl': Cloud)
    requires SameShape(cl, cl') && TreeOk(l, cl.tree)
    ensures TreeOk(l, cl'.tree)
  {
  }

  lemma ShapeKeepsIds(clouds: map<nat, Cloud>, c: nat, cl': Cloud)
    requires c in clouds && SameShape(clouds[c], cl') && Apart(clouds)
    ensures Apart(clouds[c := cl'])
  {
    SameIdsApart(clouds, clouds[c := cl']);
  }

  lemma ShapeKeepsLinks(w: World, t': Tables, g: nat, c: nat, cl': Cloud)
    requires LinksTrue(w) && c in w.clouds && SameShape(w.clouds[c], cl') && (g, c) in w.t.links
    requires LinkPut(w.t, t', g, c, w.t.links[(g, c)].cloudFileId)
    requires t'.links[(g, c)].parentId == w.t.links[(g, c)].parentId
    ensures LinksTrue(World(w.disk, w.clouds[c := cl'], t'))
  {
    var w' := World(w.disk, w.clouds[c := cl'], t');
    forall k | k in t'.links
      ensures LinkTrue(w', k)
    {
      assert k in w.t.links && LinkTrue(w, k);
    }
  }

  /** Tables with the same rows and clouds, and links that still refer to rows and clouds. */
  ghost predicate SameRows(t: Tables, t': Tables) {
    && Integrity(t') && t'.clouds == t.clouds && t'.files == t.files
    && forall q :: FindByPath(t', q) == FindByPath(t, q)
  }

  lemma ShapeKeepsWorld(l: Layout, w: World, t': Tables, c: nat, cl': Cloud)
    requires WorldOk(l, w) && c in w.clouds && SameShape(w.clouds[c], cl') && SameRows(w.t, t')
    requires LinksTrue(World(w.disk, w.clouds[c := cl'], t'))
    ensures WorldOk(l, World(w.disk, w.clouds[c := cl'], t'))
    ensures RowsStay(w, World(w.disk, w.clouds[c := cl'], t'))
  {
    LinkPutIndexed(w.t, t', w.disk);
    ShapeKeepsIds(w.clouds, c, cl');
    ShapeKeepsTree(l, w.clouds[c], cl');
  }

  lemma ReplacedPushed(w: World, t': Tables, p: Path, g: nat, c: nat, cl': Cloud, at: Option<Path>, v: nat)
    requires Integrity(w.t) && c in w.clouds && c in w.t.clouds && StoredAt(w.clouds[c], cl', at, v)
    requires FindByPath(w.t, p) == Some(g) && (g, c) in w.t.links
    requires LinkPut(w.t, t', g, c, w.t.links[(g, c)].cloudFileId)
    ensures Pushed(w, World(w.disk, w.clouds[c := cl'], t'), p, c, at, v)
  {
    LinkPutFinds(w.t, t', p, g, c, w.t.links[(g, c)].cloudFileId);
  }

  lemma ReplaceKeeps(
      l: Layout, w0: World, gr: Groups, w: World, t': Tables, p: Path, g: nat, c: nat, cl': Cloud, done: set<Path>, jobs: Pushes)
    requires Pushing(l, w0, gr, w, done, jobs) && Replaceable(w, t', p, g, c, cl', Version(w0, gr, p))
    requires p in done && Updated(w0, gr, p, c) && Left(w.clouds[c], cl', p).Some?
    requires ShowsAnswer(w0, gr, p, w.clouds[c].google, t'.links[(g, c)], Left(w.clouds[c], cl', p).value)
    ensures Pushing(l, w0, gr, World(w.disk, w.clouds[c := cl'], t'), done, jobs - {(p, c)})
    ensures RowsStay(w, World(w.disk, w.clouds[c := cl'], t'))
  {
    StoredShape(w.clouds[c], cl', p, Version(w0, gr, p));
    ShapeKeepsLinks(w, t', g, c, cl');
    LinkPutFinds(w.t, t', p, g, c, w.t.links[(g, c)].cloudFileId);
    ShapeKeepsWorld(l, w, t', c, cl');
    ReplacedPushed(w, t', p, g, c, cl', At(w.clouds[c], p), Version(w0, gr, p));
    AtIsStruck(w.clouds[c], p);
    if !w0.clouds[c].google {
      OverwriteKeepsStrays(l, w0, gr, w, cl', p, Version(w0, gr, p), c, done, jobs);
    }
    StraysOneCloud(l, w0, gr, w, World(w.disk, w.clouds[c := cl'], t'), p, c, done, jobs);
    FilesStay(l, w0, w, c);
    OwnLinkShows(l, w0, gr, w.clouds[c], cl', p, Version(w0, gr, p), c, t'.links[(g, c)], done, jobs);
    OverwriteKeepsLinksShow(l, w0, gr, w, t', p, g, c, cl', Version(w0, gr, p), done, jobs);
    OverwrittenKeepsPhase2(l, w0, gr, w, World(w.disk, w.clouds[c := cl'], t'), p, c, At(w.clouds[c], p), done, jobs);
  }

  // ---- the operations --------------------------------------------------------------------------

  ghost predicate Pushing(l: Layout, w0: World, gr: Groups, w: World, done: set<Path>, jobs: Pushes) {
    Unindexed(l, w0) && GroupsOk(w0.clouds, gr) && Phase2(l, w0, gr, w, done, jobs)
  }

  /** Whatever the server reports as check sum. */
  method ServerHash() returns (hash: string) {
    hash := "";
  }

  /** What is known when an upload is about to run: above all, whether it will be accepted. */
  ghost predicate UploadReady(l: Layout, w0: World, gr: Groups, w: World, p: Path, c: nat, r: RecordDto) {
    && p in l.files && c in w.clouds && p in w.disk && w.disk[p].hash == Version(w0, gr, p)
    && w.disk[p].size == WinnerSize(w0, gr, p)
    && (Parent(p) == [] || Parent(p) in w.clouds[c].tree)
    && p !in w.clouds[c].tree && r.path == p && FindByPath(w.t, p) == Some(r.globalId)
    && (Accepts(w.clouds[c], p, ParentOf(w.t, w.clouds[c], c, r)) <==>
          !Refused(w0, gr, p, c) && (w.clouds[c].google || !FolderInTheWay(w.clouds[c], p)))
    && c in w0.clouds && p !in w0.clouds[c].tree && r.size == WinnerSize(w0, gr, p)
  }

  /** What is known when an update is about to run. */
  ghost predicate OverwriteReady(l: Layout, w0: World, gr: Groups, w: World, p: Path, c: nat, u: UpdatedDto) {
    && p in l.files && c in w.clouds && p in w.disk && w.disk[p].hash == Version(w0, gr, p)
    && w.disk[p].size == WinnerSize(w0, gr, p)
    && p in w.clouds[c].tree && w.clouds[c].tree[p].id == u.cloudFileId
    && u.path == p && FindByPath(w.t, p) == Some(u.globalId) && Linked(w.t, p, c) && Updated(w0, gr, p, c)
    && u.size == WinnerSize(w0, gr, p) && u.mtime == WinnerTime(w0, gr, p)
  }

  lemma AboutToUpload(l: Layout, w0: World, gr: Groups, w: World, done: set<Path>, jobs: Pushes, p: Path, c: nat)
    requires Pushing(l, w0, gr, w, done, jobs) && (p, c) in jobs && jobs[(p, c)].Upload?
    ensures UploadReady(l, w0, gr, w, p, c, jobs[(p, c)].record) && p in done
  {
    assert PushOk(l, w0, gr, w, done, (p, c), jobs[(p, c)]);
    assert CloudCell(w0, gr, w, p, c, p in done, (p, c) in jobs, Landed(w0, gr, p, c, done, jobs));
    TablesKnowParent(l, w, p, c);
    AcceptedExactly(l, w0, gr, w, done, p, c, jobs[(p, c)].record);
  }

  lemma AboutToOverwrite(l: Layout, w0: World, gr: Groups, w: World, done: set<Path>, jobs: Pushes, p: Path, c: nat)
    requires Pushing(l, w0, gr, w, done, jobs) && (p, c) in jobs && jobs[(p, c)].Overwrite?
    ensures OverwriteReady(l, w0, gr, w, p, c, jobs[(p, c)].updated) && p in done
  {
    assert PushOk(l, w0, gr, w, done, (p, c), jobs[(p, c)]);
    assert CloudCell(w0, gr, w, p, c, p in done, (p, c) in jobs, Landed(w0, gr, p, c, done, jobs));
    assert TreeOk(l, w0.clouds[c].tree);
    assert KindFits(l, p, w0.clouds[c].tree[p].folder);
  }

  /** A cloud that lacks the file has no link for it. */
  lemma FreshLink(l: Layout, w: World, p: Path, g: nat, c: nat)
    requires WorldOk(l, w) && FindByPath(w.t, p) == Some(g) && c in w.clouds && p !in w.clouds[c].tree
    ensures (g, c) !in w.t.links && g in w.t.files && c in w.t.clouds
  {
    assert (g, c) in w.t.links ==> LinkTrue(w, (g, c));
  }

  lemma UploadPuttable(l: Layout, w0: World, gr: Groups, w: World, p: Path, c: nat, r: RecordDto, n: Remote, link: LinkRow)
    requires WorldOk(l, w) && UploadReady(l, w0, gr, w, p, c, r)
    requires FreshIds([n.id], w.clouds) && !n.folder && link.cloudFileId == n.id
    requires w.clouds[c].google ==> link.parentId == FolderId(w.clouds[c], Parent(p))
    ensures Puttable(l, w, Apply(w.t, OpAddLink(r.globalId, c, link)), p, r.globalId, c, n)
  {
    FreshLink(l, w, p, r.globalId, c);
  }

  /** The answer of the server to an accepted upload, and what the callback makes of it. */
  method StoreUpload(ghost l: Layout, ghost w0: World, ghost gr: Groups, w: World, p: Path, c: nat, r: RecordDto, parentId: string)
    returns (n: Remote, t': Tables)
    requires WorldOk(l, w) && UploadReady(l, w0, gr, w, p, c, r)
    requires w.clouds[c].google ==> parentId == FolderId(w.clouds[c], Parent(p))
    ensures Puttable(l, w, t', p, r.globalId, c, n) && n.content == Version(w0, gr, p) && n.size == WinnerSize(w0, gr, p)
    ensures var link := t'.links[(r.globalId, c)]; link.mtime == n.mtime && link.hash == n.hash && link.size == n.size
  {
    var ids := ServerIds(w.clouds, 1);
    var fileId, mtime := Stat();
    var hash := ServerHash();
    var google := w.clouds[c].google;
    n := Remote(false, ids[0], if google then parentId else "", mtime, hash, w.disk[p].size, w.disk[p].hash);
    assert ids == [n.id];
    var answer := Reply(Some(n.id), if google then Some(parentId) else None, Some(mtime), Some(hash), None);
    var link := LinkOf(AnswerNew(r, answer));
    UploadPuttable(l, w0, gr, w, p, c, r, n, link);
    FreshLink(l, w, p, r.globalId, c);
    t' := Apply(w.t, OpAddLink(r.globalId, c, link));
  }

  lemma FolderMeansCrowded(l: Layout, w0: World, gr: Groups, w: World, done: set<Path>, jobs: Pushes, p: Path, c: nat)
    requires IdsKept(w0.clouds, w.clouds) && StraysOk(l, w0, gr, w, done, jobs)
    requires c in w0.clouds && !w.clouds[c].google && p !in w0.clouds[c].tree && FolderInTheWay(w.clouds[c], p)
    ensures Crowded(w0, gr, p, c)
  {
    var x :| x in w.clouds[c].unlisted && w.clouds[c].base + p < x;
    assert StraysAt(l, w0, gr, w.clouds[c], c, done, jobs);
    assert w.clouds[c].base == (w.clouds[c].base + p)[..|w.clouds[c].base|];
    assert Stray(w0, gr, x, c);
  }

  /** A link that has the id, time, check sum and size of a node. */
  predicate Recorded(link: LinkRow, n: Remote) {
    link.cloudFileId == n.id && link.mtime == n.mtime && link.hash == n.hash && link.size == n.size
  }

  /** An upload is stored, unless it is refused or a folder is in its way; then nothing changes. */
  method RunUpload(
      ghost l: Layout, ghost w0: World, ghost gr: Groups, ghost done: set<Path>, ghost jobs: Pushes,
      w: World, p: Path, c: nat, r: RecordDto)
    returns (w': World)
    requires Pushing(l, w0, gr, w, done, jobs) && (p, c) in jobs && jobs[(p, c)] == Upload(r)
    ensures Pushing(l, w0, gr, w', done, jobs - {(p, c)}) && RowsStay(w, w')
    ensures c in w.clouds && c in w'.clouds
    ensures if Refused(w0, gr, p, c) || (!w.clouds[c].google && FolderInTheWay(w.clouds[c], p)) then w' == w
            else p in w'.clouds[c].tree
                 && w'.clouds == w.clouds[c := Uploaded(w.clouds[c], p, w'.clouds[c].tree[p])]
                 && w'.clouds[c].tree[p].content == Version(w0, gr, p) && !w'.clouds[c].tree[p].folder
                 && (r.globalId, c) in w'.t.links && Recorded(w'.t.links[(r.globalId, c)], w'.clouds[c].tree[p])
  {
    AboutToUpload(l, w0, gr, w, done, jobs, p, c);
    var parentId := ParentOf(w.t, w.clouds[c], c, r);
    if !Accepts(w.clouds[c], p, parentId) {
      if !Refused(w0, gr, p, c) {
        FolderMeansCrowded(l, w0, gr, w, done, jobs, p, c);
      }
      RefusalKeepsPhase2(l, w0, gr, w, p, c, done, jobs);
      return w;
    }
    var n, t' := StoreUpload(l, w0, gr, w, p, c, r, parentId);
    PutKeeps(l, w0, gr, w, t', p, r.globalId, c, n, done, jobs);
    w' := World(w.disk, WithNode(w, c, p, n), t');
  }

  lemma LinkedIsTrue(l: Layout, w: World, p: Path, g: nat, c: nat)
    requires WorldOk(l, w) && FindByPath(w.t, p) == Some(g) && c in w.clouds && Linked(w.t, p, c)
    ensures (g, c) in w.t.links && p in w.clouds[c].tree && w.t.links[(g, c)].cloudFileId == w.clouds[c].tree[p].id
  {
    assert LinkTrue(w, (g, c));
  }

  /** What the server makes of an update that it does not turn down: the file it leaves. */
  method StoreOverwrite(cl: Cloud, p: Path, v: nat, size: nat) returns (cl': Cloud, n: Remote)
    requires !Blocked(cl, p)
    ensures Lands(cl, cl', p, v) && Left(cl, cl', p) == Some(n) && n.size == size
  {
    var fileId, mtime := Stat();
    var hash := ServerHash();
    var at := At(cl, p);
    if at == None {
      n := Remote(false, "", "", mtime, hash, size, v);
      cl' := cl.(unlisted := cl.unlisted[p := n]);
    } else {
      n := cl.tree[at.value].(mtime := mtime, hash := hash, size := size, content := v);
      cl' := cl.(tree := cl.tree[at.value := n]);
    }
  }

  /** What the server answers: Google may leave out the size, Dropbox may not say that it is about a file. */
  method AnswerToUpdate(google: bool, n: Remote) returns (a: Reply)
    ensures if google then a.mtime == Some(n.mtime) && a.hash == Some(n.hash) && (a.size == None || a.size == Some(n.size))
            else (a.mtime == Some(n.mtime) && a.hash == Some(n.hash) && a.size == Some(n.size))
                 || (a.mtime == None && a.hash == Some("") && a.size == None)
  {
    var whole: bool := *;
    if whole {
      a := Reply(None, None, Some(n.mtime), Some(n.hash), Some(n.size));
    } else if google {
      a := Reply(None, None, Some(n.mtime), Some(n.hash), None);
    } else {
      a := Reply(None, None, None, Some(""), None);
    }
  }

  lemma OverwriteIsReplaceable(
      l: Layout, w0: World, gr: Groups, w: World, p: Path, c: nat, u: UpdatedDto, cl': Cloud, hash: string, mtime: int, size: nat)
    requires WorldOk(l, w) && OverwriteReady(l, w0, gr, w, p, c, u)
    requires !Blocked(w.clouds[c], p) && Lands(w.clouds[c], cl', p, Version(w0, gr, p))
    ensures var t' := UpdateLinkContent(w.t, u.globalId, c, hash, mtime, size);
            && Replaceable(w, t', p, u.globalId, c, cl', Version(w0, gr, p))
            && var link := t'.links[(u.globalId, c)]; link.hash == hash && link.mtime == mtime && link.size == size
  {
    LinkedIsTrue(l, w, p, u.globalId, c);
  }

  method WriteUpdate(
      ghost l: Layout, ghost w0: World, ghost gr: Groups, ghost done: set<Path>, ghost jobs: Pushes,
      w: World, p: Path, c: nat, u: UpdatedDto)
    returns (w': World)
    requires Pushing(l, w0, gr, w, done, jobs) && OverwriteReady(l, w0, gr, w, p, c, u) && p in done
    requires !Blocked(w.clouds[c], p)
    ensures Pushing(l, w0, gr, w', done, jobs - {(p, c)}) && RowsStay(w, w')
    ensures c in w'.clouds && w'.clouds == w.clouds[c := w'.clouds[c]]
    ensures Lands(w.clouds[c], w'.clouds[c], p, Version(w0, gr, p))
    ensures UpdateRecorded(w0, gr, w.clouds[c], w'.clouds[c], w'.t, p, u.globalId, c)
  {
    var cl', n := StoreOverwrite(w.clouds[c], p, w.disk[p].hash, w.disk[p].size);
    var answer := AnswerToUpdate(w.clouds[c].google, n);
    var done' := AnswerUpdate(u, answer);
    var hash := CloudHash(done'.hash);
    OverwriteIsReplaceable(l, w0, gr, w, p, c, u, cl', hash, done'.mtime, done'.size);
    var t' := UpdateLinkContent(w.t, u.globalId, c, hash, done'.mtime, done'.size);
    ReplaceKeeps(l, w0, gr, w, t', p, u.globalId, c, cl', done, jobs);
    w' := World(w.disk, w.clouds[c := cl'], t');
  }

  /** The link of the file shows what the server answered about the file that the update has left. */
  ghost predicate UpdateRecorded(w0: World, gr: Groups, cl: Cloud, cl': Cloud, t': Tables, p: Path, g: nat, c: nat) {
    && (g, c) in t'.links && Left(cl, cl', p).Some?
    && ShowsAnswer(w0, gr, p, cl.google, t'.links[(g, c)], Left(cl, cl', p).value)
  }

  /** An update writes where `Target` says, whatever the file it is meant for; the link of that file is rewritten. */
  method RunOverwrite(
      ghost l: Layout, ghost w0: World, ghost gr: Groups, ghost done: set<Path>, ghost jobs: Pushes,
      w: World, p: Path, c: nat, u: UpdatedDto)
    returns (w': World)
    requires Pushing(l, w0, gr, w, done, jobs) && (p, c) in jobs && jobs[(p, c)] == Overwrite(u)
    ensures Pushing(l, w0, gr, w', done, jobs - {(p, c)}) && RowsStay(w, w')
    ensures c in w.clouds && c in w'.clouds && w'.clouds == w.clouds[c := w'.clouds[c]]
    ensures Lands(w.clouds[c], w'.clouds[c], p, Version(w0, gr, p))
    ensures if Blocked(w.clouds[c], p) then w' == w
            else UpdateRecorded(w0, gr, w.clouds[c], w'.clouds[c], w'.t, p, u.globalId, c)
  {
    AboutToOverwrite(l, w0, gr, w, done, jobs, p, c);
    if Blocked(w.clouds[c], p) {
      RefusalKeepsPhase2(l, w0, gr, w, p, c, done, jobs);
      Unchanged(w.clouds, c);
      w' := w;
    } else {
      w' := WriteUpdate(l, w0, gr, done, jobs, w, p, c, u);
    }
  }

  method CompletePush(
      ghost l: Layout, ghost w0: World, ghost gr: Groups, ghost done: set<Path>, w: World, jobs: Pushes, k: (Path, nat))
    returns (w': World)
    requires Pushing(l, w0, gr, w, done, jobs) && k in jobs
    ensures Pushing(l, w0, gr, w', done, jobs - {k}) && RowsStay(w, w')
  {
    assert k == (k.0, k.1);
    match jobs[k] {
      case Upload(r) => w' := RunUpload(l, w0, gr, done, jobs, w, k.0, k.1, r);
      case Overwrite(u) => w' := RunOverwrite(l, w0, gr, done, jobs, w, k.0, k.1, u);
    }
  }

  lemma FewerPushes(jobs: Pushes, k: (Path, nat))
    requires k in jobs
    ensures |jobs - {k}| < |jobs|
  {
    assert jobs.Keys == (jobs - {k}).Keys + {k};
    assert |jobs| == |jobs.Keys| && |jobs - {k}| == |(jobs - {k}).Keys|;
  }

  method OnePush(ghost l: Layout, ghost w0: World, ghost gr: Groups, ghost done: set<Path>, w: World, jobs: Pushes)
    returns (w': World, jobs': Pushes)
    requires Pushing(l, w0, gr, w, done, jobs) && jobs != map[]
    ensures Pushing(l, w0, gr, w', done, jobs') && RowsStay(w, w')
    ensures |jobs'| < |jobs|
  {
    var k :| k in jobs;
    w' := CompletePush(l, w0, gr, done, w, jobs, k);
    FewerPushes(jobs, k);
    jobs' := jobs - {k};
  }

  /** Any number of pushes end, in any order; with `all`, every one of them. */
  method CompletePushes(
      ghost l: Layout, ghost w0: World, ghost gr: Groups, ghost done: set<Path>, w: World, jobs: Pushes, all: bool)
    returns (w': World, jobs': Pushes)
    requires Pushing(l, w0, gr, w, done, jobs)
    ensures Pushing(l, w0, gr, w', done, jobs') && RowsStay(w, w')
    ensures all ==> jobs' == map[]
  {
    w', jobs' := w, jobs;
    var go: bool := *;
    while jobs' != map[] && (all || go)
      invariant Pushing(l, w0, gr, w', done, jobs') && RowsStay(w, w')
      decreases |jobs'|
    {
      ghost var before := w';
      w', jobs' := OnePush(l, w0, gr, done, w', jobs');
      RowsStayOn(w, before, w');
      go := *;
    }
  }

  // ---- the push loop ---------------------------------------------------------------------------

  type Commands = map<nat, PushJob>

  /** The links that the loop body writes itself, for the clouds visited so far. */
  ghost predicate LinksFor(w0: World, w: World, t': Tables, p: Path, g: nat, seen: set<nat>) {
    && t' == w.t.(links := t'.links)
    && (forall k :: k in w.t.links ==> k in t'.links && t'.links[k] == w.t.links[k])
    && (forall k :: k in t'.links && k !in w.t.links ==>
          k.0 == g && Holds(w0.clouds, k.1, p) && t'.links[k] == LinkOf(Describe(k.1, w0.clouds[k.1], p)))
    && (forall c :: c in seen && Holds(w0.clouds, c, p) ==> (g, c) in t'.links)
  }

  /** The commands it builds: one for each visited cloud but the source of the winner. */
  ghost predicate CommandsFor(w0: World, gr: Groups, w: World, p: Path, cmds: Commands, seen: set<nat>) {
    && (forall c :: c in cmds ==> c in seen && c in w0.clouds && PayloadOk(w0, gr, w, p, c, cmds[c]))
    && (forall c :: c in seen && c !in cmds ==>
          Holds(w0.clouds, c, p) && Pulled(w0, gr, p) && c == Best(gr[p]).cloud)
  }

  /** The record about to be pushed, with the global id of its row. */
  ghost predicate WinnerRecord(w0: World, gr: Groups, w: World, p: Path, r: RecordDto) {
    && FindByPath(w.t, p) == Some(r.globalId)
    && r.path == p
    && r.size == WinnerSize(w0, gr, p) && r.mtime == WinnerTime(w0, gr, p)
    && if Pulled(w0, gr, p) then r == Best(gr[p]).(globalId := r.globalId) else r.parentId == "" && r.cloud == 0
  }

  lemma OldNode(w0: World, w: World, c: nat, p: Path)
    requires IdsKept(w0.clouds, w.clouds) && Holds(w0.clouds, c, p)
    ensures Holds(w.clouds, c, p) && w.clouds[c].tree[p].id == w0.clouds[c].tree[p].id
  {
  }

  lemma LinkWritten(w0: World, w: World, t': Tables, p: Path, g: nat, seen: set<nat>, c: nat, link: LinkRow)
    requires LinksFor(w0, w, t', p, g, seen) && g in w.t.files && c in w.t.clouds
    requires Holds(w0.clouds, c, p) && link == LinkOf(Describe(c, w0.clouds[c], p))
    ensures LinksFor(w0, w, Apply(t', OpAddLink(g, c, link)), p, g, seen + {c})
  {
  }

  lemma NoLinkNeeded(w0: World, w: World, t': Tables, p: Path, g: nat, seen: set<nat>, c: nat)
    requires LinksFor(w0, w, t', p, g, seen) && !Holds(w0.clouds, c, p)
    ensures LinksFor(w0, w, t', p, g, seen + {c})
  {
  }

  lemma CommandMore(w0: World, gr: Groups, w: World, p: Path, cmds: Commands, seen: set<nat>, c: nat, j: PushJob)
    requires CommandsFor(w0, gr, w, p, cmds, seen) && c in w0.clouds && PayloadOk(w0, gr, w, p, c, j)
    ensures CommandsFor(w0, gr, w, p, cmds[c := j], seen + {c})
  {
  }

  lemma SourceSkipped(w0: World, gr: Groups, w: World, p: Path, cmds: Commands, seen: set<nat>, c: nat)
    requires CommandsFor(w0, gr, w, p, cmds, seen)
    requires Holds(w0.clouds, c, p) && Pulled(w0, gr, p) && c == Best(gr[p]).cloud
    ensures CommandsFor(w0, gr, w, p, cmds, seen + {c})
  {
  }

  /** The entry of cloud `c` in a group. */
  method EntryFor(ghost clouds: map<nat, Cloud>, gr: Groups, c: nat, p: Path) returns (e: RecordDto)
    requires GroupsOk(clouds, gr) && InGroup(gr, c, p)
    ensures Holds(clouds, c, p) && e == Describe(c, clouds[c], p)
  {
    var i :| 0 <= i < |gr[p]| && gr[p][i].cloud == c;
    e := gr[p][i];
    assert GroupTrue(clouds, p, gr[p]);
    assert Described(clouds, p, gr[p][i]);
  }

  ghost predicate RecordReady(l: Layout, w0: World, w: World, gr: Groups, p: Path, r: RecordDto) {
    && WorldOk(l, w) && GroupsOk(w0.clouds, gr) && IdsKept(w0.clouds, w.clouds)
    && WinnerRecord(w0, gr, w, p, r)
  }

  lemma NothingBuilt(w0: World, gr: Groups, w: World, p: Path, g: nat)
    ensures LinksFor(w0, w, w.t, p, g, {}) && CommandsFor(w0, gr, w, p, map[], {})
  {
  }

  /** One cloud: upload what it lacks, link the source of the winner, link and overwrite an older version. */
  method PushToCloud(
      ghost l: Layout, ghost w0: World, w: World, gr: Groups, p: Path, r: RecordDto, c: nat,
      t: Tables, cmds: Commands, ghost seen: set<nat>)
    returns (t': Tables, cmds': Commands)
    requires RecordReady(l, w0, w, gr, p, r) && c in w.clouds
    requires LinksFor(w0, w, t, p, r.globalId, seen) && CommandsFor(w0, gr, w, p, cmds, seen)
    ensures LinksFor(w0, w, t', p, r.globalId, seen + {c}) && CommandsFor(w0, gr, w, p, cmds', seen + {c})
  {
    t', cmds' := t, cmds;
    if !InGroup(gr, c, p) {
      NoLinkNeeded(w0, w, t, p, r.globalId, seen, c);
      CommandMore(w0, gr, w, p, cmds, seen, c, Upload(r));
      cmds' := cmds[c := Upload(r)];
      return;
    }
    OldNode(w0, w, c, p);
    var e := EntryFor(w0.clouds, gr, c, p);
    if c == r.cloud {
      WinnerIsHere(w0, gr, w, p, r, c);
      LinkWritten(w0, w, t, p, r.globalId, seen, c, LinkOf(r));
      SourceSkipped(w0, gr, w, p, cmds, seen, c);
      t' := Apply(t, OpAddLink(r.globalId, c, LinkOf(r)));
    } else {
      LinkWritten(w0, w, t, p, r.globalId, seen, c, LinkOf(e));
      t' := Apply(t, OpAddLink(r.globalId, c, LinkOf(e)));
      var u := UpdatedDto(r.kind, p, e.cloudFileId, e.hash, e.parentId, r.size, r.mtime, 0, r.globalId, c);
      CommandMore(w0, gr, w, p, cmds, seen, c, Overwrite(u));
      cmds' := cmds[c := Overwrite(u)];
    }
  }

  lemma WinnerIsHere(w0: World, gr: Groups, w: World, p: Path, r: RecordDto, c: nat)
    requires GroupsOk(w0.clouds, gr) && IdsKept(w0.clouds, w.clouds) && WinnerRecord(w0, gr, w, p, r)
    requires Holds(w0.clouds, c, p) && c == r.cloud && c != 0
    ensures Pulled(w0, gr, p) && c == Best(gr[p]).cloud && LinkOf(r) == LinkOf(Describe(c, w0.clouds[c], p))
  {
    BestDescribed(w0.clouds, gr, p);
  }

  lemma ListingIsTrue(l: Layout, w0: World, w: World, c: nat, p: Path)
    requires Unindexed(l, w0) && WorldOk(l, w) && IdsKept(w0.clouds, w.clouds) && Holds(w0.clouds, c, p)
    ensures var link := LinkOf(Describe(c, w0.clouds[c], p));
            && Holds(w.clouds, c, p) && link.cloudFileId == w.clouds[c].tree[p].id
            && (w.clouds[c].google ==> link.parentId == FolderId(w.clouds[c], Parent(p)))
  {
    RootIsNoFile(l, w0, c);
    RootIsNoNode(l, w, c);
    assert TreeOk(l, w0.clouds[c].tree);
    FolderIdStays(w0.clouds[c], w.clouds[c], p);
  }

  /** The links of the loop body keep the world in shape. */
  lemma LinksKeepWorld(l: Layout, w0: World, w: World, t': Tables, p: Path, g: nat, seen: set<nat>)
    requires Unindexed(l, w0) && IdsKept(w0.clouds, w.clouds)
    requires WorldOk(l, w) && LinksFor(w0, w, t', p, g, seen) && FindByPath(w.t, p) == Some(g)
    ensures WorldOk(l, w.(t := t'))
    ensures forall q :: FindByPath(t', q) == FindByPath(w.t, q)
  {
    var w' := w.(t := t');
    forall k | k in t'.links
      ensures k.0 in t'.files && k.1 in t'.clouds
      ensures LinkTrue(w', k)
    {
      if k in w.t.links {
        assert LinkTrue(w, k);
      } else {
        ListingIsTrue(l, w0, w, k.1, p);
      }
    }
    forall q
      ensures FindByPath(t', q) == FindByPath(w.t, q)
    {
      SamePlaces(w.t, t', q);
    }
    LinkPutIndexed(w.t, t', w.disk);
  }

  lemma LinksKeepShow(
      l: Layout, w0: World, gr: Groups, w: World, t': Tables, p: Path, g: nat, seen: set<nat>, done: set<Path>, jobs: Pushes)
    requires Pushing(l, w0, gr, w, done, jobs) && LinksFor(w0, w, t', p, g, seen) && FindByPath(w.t, p) == Some(g) && p !in done
    ensures LinksShow(l, w0, gr, w.(t := t'), done, jobs)
  {
    forall k | LinkOfFile(l, t', k) && k.1 in w0.clouds
      ensures ShowsAt(l, w0, gr, w.(t := t'), k, done, jobs)
    {
      if k in w.t.links {
        assert LinkOfFile(l, w.t, k) && ShowsAt(l, w0, gr, w, k, done, jobs);
      } else {
        assert TreeOk(l, w0.clouds[k.1].tree) && KindFits(l, p, w0.clouds[k.1].tree[p].folder);
        ListedLink(k.1, w0.clouds[k.1], p);
      }
    }
  }

  lemma LinksElsewhere(w0: World, w: World, t': Tables, p: Path, g: nat, seen: set<nat>, q: Path, d: nat)
    requires LinksFor(w0, w, t', p, g, seen) && FindByPath(w.t, p) == Some(g) && FindByPath(t', q) == FindByPath(w.t, q)
    ensures Linked(w.t, q, d) ==> Linked(t', q, d)
    ensures q != p ==> (Linked(t', q, d) <==> Linked(w.t, q, d))
  {
    var h := FindByPath(w.t, q);
    assert h.Some? ==> w.t.files[h.value].path == q;
    assert w.t.files[g].path == p;
  }

  lemma LinksKeepCell(
      w0: World, gr: Groups, w: World, t': Tables, p: Path, g: nat, seen: set<nat>, q: Path, d: nat,
      announced: bool, waiting: bool, landed: bool)
    requires LinksFor(w0, w, t', p, g, seen) && FindByPath(w.t, p) == Some(g) && FindByPath(t', q) == FindByPath(w.t, q)
    requires d in w0.clouds && d in w.clouds && CloudCell(w0, gr, w, q, d, announced, waiting, landed)
    ensures CloudCell(w0, gr, w.(t := t'), q, d, announced, waiting, landed)
  {
    LinksElsewhere(w0, w, t', p, g, seen, q, d);
  }

  lemma LinksKeepPush(
      l: Layout, w0: World, gr: Groups, w: World, t': Tables, p: Path, g: nat, seen: set<nat>,
      done: set<Path>, k: (Path, nat), j: PushJob)
    requires LinksFor(w0, w, t', p, g, seen) && FindByPath(w.t, p) == Some(g)
    requires forall q :: FindByPath(t', q) == FindByPath(w.t, q)
    requires PushOk(l, w0, gr, w, done, k, j)
    ensures PushOk(l, w0, gr, w.(t := t'), done, k, j)
  {
    LinksElsewhere(w0, w, t', p, g, seen, Parent(k.0), k.1);
  }

  lemma LinksKeepFolders(l: Layout, w0: World, w: World, t': Tables, p: Path, g: nat, seen: set<nat>, done: set<Path>)
    requires LinksFor(w0, w, t', p, g, seen) && FindByPath(w.t, p) == Some(g) && FoldersLinked(l, w, done)
    requires forall q :: FindByPath(t', q) == FindByPath(w.t, q)
    ensures FoldersLinked(l, w.(t := t'), done)
  {
    forall q | q in done && q in l.folders
      ensures LinkedEverywhere(t', q)
    {
      assert LinkedEverywhere(w.t, q);
      forall d | d in t'.clouds
        ensures Linked(t', q, d)
      {
        assert Linked(w.t, q, d);
        LinksElsewhere(w0, w, t', p, g, seen, q, d);
      }
    }
  }

  lemma LinksKeepPhase2(
      l: Layout, w0: World, gr: Groups, w: World, t': Tables, p: Path, g: nat, seen: set<nat>, done: set<Path>, jobs: Pushes)
    requires Pushing(l, w0, gr, w, done, jobs) && LinksFor(w0, w, t', p, g, seen) && FindByPath(w.t, p) == Some(g)
    requires p !in done
    ensures Pushing(l, w0, gr, w.(t := t'), done, jobs) && RowsStay(w, w.(t := t'))
  {
    LinksKeepShow(l, w0, gr, w, t', p, g, seen, done, jobs);
    LinksKeepWorld(l, w0, w, t', p, g, seen);
    forall q, d | q in l.files && d in w0.clouds
      ensures CloudCell(w0, gr, w.(t := t'), q, d, q in done, (q, d) in jobs, Landed(w0, gr, q, d, done, jobs))
    {
      LinksKeepCell(w0, gr, w, t', p, g, seen, q, d, q in done, (q, d) in jobs, Landed(w0, gr, q, d, done, jobs));
    }
    forall k | k in jobs
      ensures PushOk(l, w0, gr, w.(t := t'), done, k, jobs[k])
    {
      LinksKeepPush(l, w0, gr, w, t', p, g, seen, done, k, jobs[k]);
    }
    LinksKeepFolders(l, w0, w, t', p, g, seen, done);
  }

  lemma AnnouncedStrays(
      l: Layout, w0: World, gr: Groups, w: World, done: set<Path>, jobs: Pushes, p: Path, cmds: Commands)
    requires w.clouds.Keys == w0.clouds.Keys && StraysOk(l, w0, gr, w, done, jobs) && p !in done
    requires CommandsFor(w0, gr, w, p, cmds, w0.clouds.Keys)
    ensures StraysOk(l, w0, gr, w, done + {p}, AddJobs(jobs, p, cmds))
  {
    forall c | c in w0.clouds && !w0.clouds[c].google
      ensures StraysAt(l, w0, gr, w.clouds[c], c, done + {p}, AddJobs(jobs, p, cmds))
    {
      forall x: Path
        ensures (x, c) in AddJobs(jobs, p, cmds) <==> (x, c) in jobs || (x == p && c in cmds)
      {
        JobsAdded(jobs, p, cmds, x, c);
      }
      assert StraysAt(l, w0, gr, w.clouds[c], c, done, jobs);
    }
  }

  lemma AnnouncedShowsAt(
      l: Layout, w0: World, gr: Groups, w: World, done: set<Path>, jobs: Pushes, p: Path, cmds: Commands, k: (nat, nat))
    requires w.clouds.Keys == w0.clouds.Keys && LinkOfFile(l, w.t, k) && k.1 in w0.clouds
    requires p !in done && CommandsFor(w0, gr, w, p, cmds, w0.clouds.Keys)
    requires ShowsAt(l, w0, gr, w, k, done, jobs)
    requires w.t.files[k.0].path == p ==> p in w0.clouds[k.1].tree
    ensures ShowsAt(l, w0, gr, w, k, done + {p}, AddJobs(jobs, p, cmds))
  {
    var x := w.t.files[k.0].path;
    JobsAdded(jobs, p, cmds, x, k.1);
    NothingLandsYet(w0, gr, w, done, jobs, p, cmds, x, k.1);
  }

  /** A path that is not announced yet has links to clouds only that listed it. */
  lemma LinkedWhereListed(
      l: Layout, w0: World, gr: Groups, w: World, done: set<Path>, jobs: Pushes, k: (nat, nat))
    requires LinksTrue(w) && w.clouds.Keys == w0.clouds.Keys && CloudCells(l, w0, gr, w, done, jobs)
    requires LinkOfFile(l, w.t, k) && w.t.files[k.0].path !in done
    ensures k.1 in w0.clouds && w.t.files[k.0].path in w0.clouds[k.1].tree
  {
    assert LinkTrue(w, k);
    var p := w.t.files[k.0].path;
    assert CloudCell(w0, gr, w, p, k.1, p in done, (p, k.1) in jobs, Landed(w0, gr, p, k.1, done, jobs));
  }

  lemma AnnouncedShow(
      l: Layout, w0: World, gr: Groups, w: World, done: set<Path>, jobs: Pushes, p: Path, cmds: Commands)
    requires w.clouds.Keys == w0.clouds.Keys && LinksTrue(w) && CloudCells(l, w0, gr, w, done, jobs)
    requires LinksShow(l, w0, gr, w, done, jobs) && p !in done && CommandsFor(w0, gr, w, p, cmds, w0.clouds.Keys)
    ensures LinksShow(l, w0, gr, w, done + {p}, AddJobs(jobs, p, cmds))
  {
    forall k | LinkOfFile(l, w.t, k) && k.1 in w0.clouds
      ensures ShowsAt(l, w0, gr, w, k, done + {p}, AddJobs(jobs, p, cmds))
    {
      assert ShowsAt(l, w0, gr, w, k, done, jobs);
      if w.t.files[k.0].path == p {
        LinkedWhereListed(l, w0, gr, w, done, jobs, k);
      }
      AnnouncedShowsAt(l, w0, gr, w, done, jobs, p, cmds, k);
    }
  }

  lemma AnnouncedFolderShow(l: Layout, w0: World, gr: Groups, w: World, done: set<Path>, jobs: Pushes, p: Path)
    requires Unindexed(l, w0) && LayoutOk(l) && p in l.folders
    requires w.clouds.Keys == w0.clouds.Keys && LinksShow(l, w0, gr, w, done, jobs)
    ensures LinksShow(l, w0, gr, w, done + {p}, jobs)
  {
    forall k | LinkOfFile(l, w.t, k) && k.1 in w0.clouds
      ensures ShowsAt(l, w0, gr, w, k, done + {p}, jobs)
    {
      assert ShowsAt(l, w0, gr, w, k, done, jobs);
      FoldersAreNotUpdated(l, w0, gr, p, k.1);
      assert w.t.files[k.0].path != p;
    }
  }

  lemma AnnouncedFolderStrays(l: Layout, w0: World, gr: Groups, w: World, done: set<Path>, jobs: Pushes, p: Path)
    requires Unindexed(l, w0) && w.clouds.Keys == w0.clouds.Keys && StraysOk(l, w0, gr, w, done, jobs) && p in l.folders
    ensures StraysOk(l, w0, gr, w, done + {p}, jobs)
  {
    forall c | c in w0.clouds && !w0.clouds[c].google
      ensures StraysAt(l, w0, gr, w.clouds[c], c, done + {p}, jobs)
    {
      FoldersAreNotUpdated(l, w0, gr, p, c);
      assert StraysAt(l, w0, gr, w.clouds[c], c, done, jobs);
    }
  }

  // ---- a path is announced ---------------------------------------------------------------------

  function Keyed(p: Path, cmds: Commands): set<(Path, nat)> {
    set c | c in cmds :: (p, c)
  }

  function AddJobs(jobs: Pushes, p: Path, cmds: Commands): Pushes {
    jobs + map k | k in Keyed(p, cmds) && k.1 in cmds :: cmds[k.1]
  }

  lemma JobsAdded(jobs: Pushes, p: Path, cmds: Commands, q: Path, c: nat)
    ensures (q, c) in AddJobs(jobs, p, cmds) <==> (q, c) in jobs || (q == p && c in cmds)
    ensures q == p && c in cmds ==> AddJobs(jobs, p, cmds)[(q, c)] == cmds[c]
    ensures (q, c) in jobs && !(q == p && c in cmds) ==> AddJobs(jobs, p, cmds)[(q, c)] == jobs[(q, c)]
  {
    if q == p && c in cmds {
      assert (p, c) in Keyed(p, cmds);
    }
  }

  ghost predicate LinkedWhereHeld(w0: World, t: Tables, p: Path) {
    forall c :: Holds(w0.clouds, c, p) ==> Linked(t, p, c)
  }

  /** Everything that has to be in place before the commands of `p` are dispatched. */
  ghost predicate Dispatchable(l: Layout, w0: World, gr: Groups, w: World, p: Path, cmds: Commands) {
    && CommandsFor(w0, gr, w, p, cmds, w0.clouds.Keys)
    && LinkedWhereHeld(w0, w.t, p)
    && (forall c :: c in cmds ==> ParentReady(w.t, p, c))
  }

  lemma FileNode(l: Layout, w: World, d: nat, p: Path)
    requires WorldOk(l, w) && d in w.clouds && p in l.files && p in w.clouds[d].tree
    ensures !w.clouds[d].tree[p].folder
  {
    assert TreeOk(l, w.clouds[d].tree);
    assert KindFits(l, p, w.clouds[d].tree[p].folder);
  }

  lemma NotYetPushed(l: Layout, w0: World, gr: Groups, w: World, done: set<Path>, jobs: Pushes, p: Path, d: nat)
    requires PushesOk(l, w0, gr, w, done, jobs) && p !in done
    ensures (p, d) !in jobs
  {
    assert (p, d) in jobs ==> PushOk(l, w0, gr, w, done, (p, d), jobs[(p, d)]);
  }

  lemma AnnouncedOwnCell(
      l: Layout, w0: World, gr: Groups, w: World, done: set<Path>, jobs: Pushes, p: Path, cmds: Commands, d: nat)
    requires Pushing(l, w0, gr, w, done, jobs) && p in l.files && p !in done && Dispatchable(l, w0, gr, w, p, cmds)
    requires d in w0.clouds && d in w.clouds
    ensures CloudCell(w0, gr, w, p, d, true, d in cmds, Landed(w0, gr, p, d, done, jobs)) && (p, d) !in jobs
  {
    assert CloudCell(w0, gr, w, p, d, p in done, (p, d) in jobs, Landed(w0, gr, p, d, done, jobs));
    NotYetPushed(l, w0, gr, w, done, jobs, p, d);
  }

  /** Announcing a path sends its updates; none of them has landed yet. */
  lemma NothingLandsYet(
      w0: World, gr: Groups, w: World, done: set<Path>, jobs: Pushes, p: Path, cmds: Commands, q: Path, d: nat)
    requires CommandsFor(w0, gr, w, p, cmds, w0.clouds.Keys) && p !in done && d in w0.clouds
    ensures Landed(w0, gr, q, d, done + {p}, AddJobs(jobs, p, cmds)) == Landed(w0, gr, q, d, done, jobs)
  {
    JobsAdded(jobs, p, cmds, Hit(w0.clouds[d], q), d);
  }

  lemma AnnouncedCells(l: Layout, w0: World, gr: Groups, w: World, done: set<Path>, jobs: Pushes, p: Path, cmds: Commands)
    requires w.clouds.Keys == w0.clouds.Keys && CloudCells(l, w0, gr, w, done, jobs)
    requires CommandsFor(w0, gr, w, p, cmds, w0.clouds.Keys) && p !in done
    requires forall d :: d in w0.clouds ==>
               CloudCell(w0, gr, w, p, d, true, d in cmds, Landed(w0, gr, p, d, done, jobs)) && (p, d) !in jobs
    ensures CloudCells(l, w0, gr, w, done + {p}, AddJobs(jobs, p, cmds))
  {
    forall q, d | q in l.files && d in w0.clouds
      ensures CloudCell(
                w0, gr, w, q, d, q in done + {p}, (q, d) in AddJobs(jobs, p, cmds),
                Landed(w0, gr, q, d, done + {p}, AddJobs(jobs, p, cmds)))
    {
      JobsAdded(jobs, p, cmds, q, d);
      NothingLandsYet(w0, gr, w, done, jobs, p, cmds, q, d);
      assert CloudCell(w0, gr, w, q, d, q in done, (q, d) in jobs, Landed(w0, gr, q, d, done, jobs));
    }
  }

  lemma AnnouncedPush(
      l: Layout, w0: World, gr: Groups, w: World, done: set<Path>, jobs: Pushes, p: Path, cmds: Commands, k: (Path, nat))
    requires PushesOk(l, w0, gr, w, done, jobs) && p in l.files && Dispatchable(l, w0, gr, w, p, cmds)
    requires k in AddJobs(jobs, p, cmds)
    ensures PushOk(l, w0, gr, w, done + {p}, k, AddJobs(jobs, p, cmds)[k])
  {
    JobsAdded(jobs, p, cmds, k.0, k.1);
    assert k == (k.0, k.1);
    if !(k.0 == p && k.1 in cmds) {
      assert PushOk(l, w0, gr, w, done, k, jobs[k]);
    }
  }

  lemma AnnounceFile(l: Layout, w0: World, gr: Groups, w: World, done: set<Path>, jobs: Pushes, p: Path, cmds: Commands)
    requires Pushing(l, w0, gr, w, done, jobs) && p in l.files && p !in done && Dispatchable(l, w0, gr, w, p, cmds)
    ensures Pushing(l, w0, gr, w, done + {p}, AddJobs(jobs, p, cmds))
  {
    forall d | d in w0.clouds
      ensures CloudCell(w0, gr, w, p, d, true, d in cmds, Landed(w0, gr, p, d, done, jobs)) && (p, d) !in jobs
    {
      AnnouncedOwnCell(l, w0, gr, w, done, jobs, p, cmds, d);
    }
    AnnouncedCells(l, w0, gr, w, done, jobs, p, cmds);
    forall k | k in AddJobs(jobs, p, cmds)
      ensures PushOk(l, w0, gr, w, done + {p}, k, AddJobs(jobs, p, cmds)[k])
    {
      AnnouncedPush(l, w0, gr, w, done, jobs, p, cmds, k);
    }
    FoldersLinkedMore(l, w, done, p);
    AnnouncedStrays(l, w0, gr, w, done, jobs, p, cmds);
    AnnouncedShow(l, w0, gr, w, done, jobs, p, cmds);
  }

  lemma FoldersLinkedMore(l: Layout, w: World, done: set<Path>, p: Path)
    requires FoldersLinked(l, w, done) && (p in l.folders ==> LinkedEverywhere(w.t, p)) && LayoutOk(l)
    ensures FoldersLinked(l, w, done + {p})
  {
  }

  lemma AnnouncedFolderCells(l: Layout, w0: World, gr: Groups, w: World, done: set<Path>, jobs: Pushes, p: Path)
    requires Unindexed(l, w0) && w.clouds.Keys == w0.clouds.Keys && CloudCells(l, w0, gr, w, done, jobs) && p in l.folders
    ensures CloudCells(l, w0, gr, w, done + {p}, jobs)
  {
    forall q, d | q in l.files && d in w0.clouds
      ensures CloudCell(w0, gr, w, q, d, q in done + {p}, (q, d) in jobs, Landed(w0, gr, q, d, done + {p}, jobs))
    {
      assert CloudCell(w0, gr, w, q, d, q in done, (q, d) in jobs, Landed(w0, gr, q, d, done, jobs));
      FoldersAreNotUpdated(l, w0, gr, p, d);
    }
  }

  lemma FoldersAreNotUpdated(l: Layout, w0: World, gr: Groups, p: Path, d: nat)
    requires Unindexed(l, w0) && p in l.folders
    ensures !Updated(w0, gr, p, d)
  {
    if Holds(w0.clouds, d, p) {
      assert TreeOk(l, w0.clouds[d].tree);
      assert KindFits(l, p, w0.clouds[d].tree[p].folder);
    }
  }

  lemma MoreDonePushesOk(l: Layout, w0: World, gr: Groups, w: World, done: set<Path>, jobs: Pushes, p: Path)
    requires PushesOk(l, w0, gr, w, done, jobs)
    ensures PushesOk(l, w0, gr, w, done + {p}, jobs)
  {
    forall k | k in jobs
      ensures PushOk(l, w0, gr, w, done + {p}, k, jobs[k])
    {
      assert PushOk(l, w0, gr, w, done, k, jobs[k]);
    }
  }

  lemma AnnounceFolder(l: Layout, w0: World, gr: Groups, w: World, done: set<Path>, jobs: Pushes, p: Path)
    requires Pushing(l, w0, gr, w, done, jobs) && p in l.folders && LinkedEverywhere(w.t, p)
    ensures Pushing(l, w0, gr, w, done + {p}, jobs)
  {
    AnnouncedFolderCells(l, w0, gr, w, done, jobs, p);
    MoreDonePushesOk(l, w0, gr, w, done, jobs, p);
    FoldersLinkedMore(l, w, done, p);
    AnnouncedFolderStrays(l, w0, gr, w, done, jobs, p);
    AnnouncedFolderShow(l, w0, gr, w, done, jobs, p);
  }

  // ---- one local file --------------------------------------------------------------------------

  method BuildCommands(ghost l: Layout, ghost w0: World, w: World, gr: Groups, p: Path, r: RecordDto)
    returns (t': Tables, cmds: Commands)
    requires RecordReady(l, w0, w, gr, p, r)
    ensures LinksFor(w0, w, t', p, r.globalId, w.clouds.Keys) && CommandsFor(w0, gr, w, p, cmds, w.clouds.Keys)
  {
    t', cmds := w.t, map[];
    var rest := w.clouds.Keys;
    NothingBuilt(w0, gr, w, p, r.globalId);
    NoneLeft(w.clouds.Keys);
    while rest != {}
      invariant rest <= w.clouds.Keys
      invariant LinksFor(w0, w, t', p, r.globalId, w.clouds.Keys - rest)
      invariant CommandsFor(w0, gr, w, p, cmds, w.clouds.Keys - rest)
      decreases |rest|
    {
      var c :| c in rest;
      t', cmds := PushToCloud(l, w0, w, gr, p, r, c, t', cmds, w.clouds.Keys - rest);
      OneLess(w.clouds.Keys, rest, c);
      rest := rest - {c};
    }
    NoneLeft(w.clouds.Keys);
  }

  lemma CommandsCarry(w0: World, gr: Groups, w: World, w': World, p: Path, cmds: Commands, seen: set<nat>)
    requires CommandsFor(w0, gr, w, p, cmds, seen) && FindByPath(w'.t, p) == FindByPath(w.t, p)
    ensures CommandsFor(w0, gr, w', p, cmds, seen)
  {
    forall c | c in cmds
      ensures PayloadOk(w0, gr, w', p, c, cmds[c])
    {
      assert PayloadOk(w0, gr, w, p, c, cmds[c]);
    }
  }

  /** A file is announced with its commands, once its parent exists everywhere. */
  method DispatchFile(
      ghost l: Layout, ghost w0: World, ghost gr: Groups, ghost done: set<Path>, w: World, jobs: Pushes,
      p: Path, cmds: Commands)
    returns (w': World, jobs': Pushes, ok: bool)
    requires Pushing(l, w0, gr, w, done, jobs) && p in l.files && p !in done
    requires CommandsFor(w0, gr, w, p, cmds, w0.clouds.Keys)
    requires LinkedWhereHeld(w0, w.t, p)
    ensures NoneObstructed(l, w0, gr) ==> ok
    ensures ok ==> Pushing(l, w0, gr, w', done + {p}, jobs') && RowsStay(w, w')
  {
    w', jobs', ok := w, jobs, true;
    if cmds != map[] {
      FolderPathOf(l, Parent(p));
      if NoneObstructed(l, w0, gr) {
        WayIsClear(l, w0, gr, w, Parent(p), done, jobs);
      }
      w', ok := EnsurePath(l, w, Parent(p));
      if !ok {
        return;
      }
      GrowKeepsPhase2(l, w0, gr, w, w', Parent(p), done, jobs);
      GrownRowsStay(w, w', Parent(p));
      DispatchAfterGrowth(l, w0, gr, w, w', p, cmds);
    }
    AnnounceFile(l, w0, gr, w', done, jobs, p, cmds);
    jobs' := AddJobs(jobs, p, cmds);
  }

  lemma DispatchAfterGrowth(l: Layout, w0: World, gr: Groups, w: World, w': World, p: Path, cmds: Commands)
    requires WorldOk(l, w) && WorldOk(l, w') && Grown(w, w', Parent(p)) && FolderPath(l, Parent(p)) && p in l.files
    requires w'.clouds.Keys == w0.clouds.Keys && PrefixesLinked(w'.t, Parent(p))
    requires CommandsFor(w0, gr, w, p, cmds, w0.clouds.Keys)
    requires LinkedWhereHeld(w0, w.t, p)
    ensures Dispatchable(l, w0, gr, w', p, cmds)
  {
    RowsSame(l, w, w', Parent(p), p);
    CommandsCarry(w0, gr, w, w', p, cmds, w0.clouds.Keys);
    forall c | Holds(w0.clouds, c, p)
      ensures Linked(w'.t, p, c)
    {
      LinksSame(l, w, w', Parent(p), p, c);
    }
    forall c | c in cmds
      ensures ParentReady(w'.t, p, c)
    {
      ParentLinked(w'.t, Parent(p), c);
    }
  }

  lemma ParentLinked(t: Tables, q: Path, c: nat)
    requires PrefixesLinked(t, q) && c in t.clouds
    ensures q == [] || Linked(t, q, c)
  {
    if q != [] {
      assert q[..|q|] == q;
      assert LinkedEverywhere(t, q[..|q|]);
    }
  }

  /** A directory is absorbed: its commands are dropped, and whatever of its path is missing is created. */
  method AbsorbFolder(
      ghost l: Layout, ghost w0: World, ghost gr: Groups, ghost done: set<Path>, ghost jobs: Pushes, w: World,
      p: Path, cmds: Commands)
    returns (w': World, ok: bool)
    requires Pushing(l, w0, gr, w, done, jobs) && p in l.folders
    requires CommandsFor(w0, gr, w, p, cmds, w0.clouds.Keys)
    requires FindByPath(w.t, p).Some? && LinkedWhereHeld(w0, w.t, p)
    ensures NoneObstructed(l, w0, gr) ==> ok
    ensures ok ==> Pushing(l, w0, gr, w', done + {p}, jobs) && RowsStay(w, w')
  {
    w', ok := w, true;
    if cmds != map[] {
      FolderPathOf(l, p);
      if NoneObstructed(l, w0, gr) {
        WayIsClear(l, w0, gr, w, p, done, jobs);
      }
      w', ok := EnsurePath(l, w, p);
      if !ok {
        return;
      }
      GrowKeepsPhase2(l, w0, gr, w, w', p, done, jobs);
      GrownRowsStay(w, w', p);
      assert p[..|p|] == p;
      assert LinkedEverywhere(w'.t, p[..|p|]);
    } else {
      forall c | c in w.t.clouds
        ensures Linked(w.t, p, c)
      {
        assert c !in cmds;
      }
    }
    AnnounceFolder(l, w0, gr, w', done, jobs, p);
  }

  /** The global id of a winner that only clouds had is looked up now that its row exists. */
  lemma RecordComplete(l: Layout, w0: World, gr: Groups, w: World, p: Path, r: RecordDto)
    requires Unindexed(l, w0) && GroupsOk(w0.clouds, gr) && WorldOk(l, w) && Settled(l, w0, gr, w) && p in l.files + l.folders
    requires LocalEntryOk(w0, gr, w, p, r, Pulled(w0, gr, p))
    ensures FindByPath(w.t, p).Some?
    ensures WinnerRecord(w0, gr, w, p, r.(globalId := if r.globalId == 0 then FindByPath(w.t, p).value else r.globalId))
    ensures (r.kind == Directory) == (p in l.folders)
  {
    assert p in w.disk;
    assert FindByPath(w.t, p).Some? && FindByPath(w.t, p).value > 0;
    if Pulled(w0, gr, p) {
      KindOfBest(l, w0, gr, p);
    } else {
      assert KindFits(l, p, w0.disk[p].folder);
    }
  }

  lemma WrittenLinks(w0: World, w: World, t': Tables, p: Path, g: nat)
    requires LinksFor(w0, w, t', p, g, w.clouds.Keys) && FindByPath(t', p) == Some(g) && w.clouds.Keys == w0.clouds.Keys
    ensures LinkedWhereHeld(w0, t', p)
  {
  }

  method PushPath(
      ghost l: Layout, ghost w0: World, ghost done: set<Path>, w: World, jobs: Pushes, gr: Groups, p: Path, r: RecordDto)
    returns (w': World, jobs': Pushes, ok: bool)
    requires Pushing(l, w0, gr, w, done, jobs) && p in l.files + l.folders && p !in done
    requires LocalEntryOk(w0, gr, w, p, r, Pulled(w0, gr, p))
    ensures NoneObstructed(l, w0, gr) ==> ok
    ensures ok ==> Pushing(l, w0, gr, w', done + {p}, jobs') && RowsStay(w, w')
  {
    RecordComplete(l, w0, gr, w, p, r);
    var record := r.(globalId := if r.globalId == 0 then FindByPath(w.t, p).value else r.globalId);
    var t, cmds := BuildCommands(l, w0, w, gr, p, record);
    var w1 := w.(t := t);
    LinksKeepPhase2(l, w0, gr, w, t, p, record.globalId, w.clouds.Keys, done, jobs);
    WrittenLinks(w0, w, t, p, record.globalId);
    CommandsCarry(w0, gr, w, w1, p, cmds, w.clouds.Keys);
    if r.kind == Directory {
      w', ok := AbsorbFolder(l, w0, gr, done, jobs, w1, p, cmds);
      jobs' := jobs;
    } else {
      w', jobs', ok := DispatchFile(l, w0, gr, done, w1, jobs, p, cmds);
    }
    if ok {
      RowsStayOn(w, w1, w');
    }
  }
}
