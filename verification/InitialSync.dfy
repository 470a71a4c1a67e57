/**
 The initial synchronisation as a whole: scan, listing, reconciliation, the barrier, the push, the wait.
 Whatever the order of paths, clouds and completions, all replicas end with the same version of every
 file, except where an upload is refused or an update is written to another place than its file.
 */
module InitialSync {
  import opened Common
  import opened Disk
  import opened Listing
  import opened PathCreation
  import opened Push
  import opened Reconcile
  import opened Records
  import opened Schema
  import opened Workspace

  /** The layout names exactly the paths that some replica has at the start. */
  ghost predicate Covers(l: Layout, w: World) {
    forall p :: p in l.files + l.folders ==> p in w.disk || exists c :: Holds(w.clouds, c, p)
  }

  /** What ends up at a path that the cloud held: the update that lands there, or what was there. */
  function Settles(w0: World, gr: Groups, p: Path, c: nat): nat
    requires Holds(w0.clouds, c, p)
  {
    var h := Hit(w0.clouds[c], p);
    if Updated(w0, gr, h, c) then Version(w0, gr, h) else w0.clouds[c].tree[p].content
  }

  /** The cloud holds the file at the start, and what settles there is not the winner. */
  predicate Missed(w0: World, gr: Groups, p: Path, c: nat) {
    Holds(w0.clouds, c, p) && Settles(w0, gr, p, c) != Version(w0, gr, p)
  }

  /** The cloud lacks the file, and an update of another path is written to the same place as its upload. */
  predicate Raced(w0: World, gr: Groups, p: Path, c: nat) {
    && c in w0.clouds && p !in w0.clouds[c].tree
    && var h := Hit(w0.clouds[c], p);
       Updated(w0, gr, h, c) && Version(w0, gr, h) != Version(w0, gr, p)
  }

  /** How cloud `c` ends at `p`. */
  ghost predicate EndsAs(w0: World, gr: Groups, w: World, p: Path, c: nat)
    requires c in w0.clouds && c in w.clouds
  {
    var tree := w.clouds[c].tree;
    if p in w0.clouds[c].tree then
      && p in tree && !tree[p].folder && tree[p].content == Settles(w0, gr, p, c)
      && (Updated(w0, gr, Hit(w0.clouds[c], p), c) || tree[p] == w0.clouds[c].tree[p])
    else if p in tree then
      && !Refused(w0, gr, p, c) && !tree[p].folder
      && (tree[p].content == Version(w0, gr, p)
          || (Raced(w0, gr, p, c) && tree[p].content == Version(w0, gr, Hit(w0.clouds[c], p))))
    else Refused(w0, gr, p, c) || Crowded(w0, gr, p, c)
  }

  /** What a Dropbox cloud ends with below its home folder besides its tree: files that stray updates have added. */
  ghost predicate StraysEnd(l: Layout, w0: World, gr: Groups, w: World, c: nat)
    requires c in w0.clouds && c in w.clouds
  {
    var cl := w.clouds[c];
    && (forall x :: x in cl.unlisted && cl.base <= x ==> Stray(w0, gr, x, c) && x[|cl.base|..] !in cl.tree)
    && (forall x :: Litters(l, w0, gr, x, c) ==> x in cl.unlisted)
  }

  /** The local folder holds the winner of every file, and every cloud ends as it must. */
  ghost predicate Converged(l: Layout, w0: World, gr: Groups, w: World) {
    && w.clouds.Keys == w0.clouds.Keys
    && (forall p :: p in l.files ==>
          && p in w.disk && !w.disk[p].folder && w.disk[p].hash == Version(w0, gr, p)
          && w.disk[p].size == WinnerSize(w0, gr, p)
          && forall c :: c in w.clouds ==> EndsAs(w0, gr, w, p, c))
    && (forall c :: c in w.clouds ==>
          && w.clouds[c].google == w0.clouds[c].google && w.clouds[c].base == w0.clouds[c].base
          && (!w0.clouds[c].google ==> StraysEnd(l, w0, gr, w, c)))
  }

  /** Every link of a file shows the listing, or the answer to the last request of that file. */
  ghost predicate LinksEnd(l: Layout, w0: World, gr: Groups, w: World) {
    forall k :: LinkOfFile(l, w.t, k) && k.1 in w0.clouds && k.1 in w.clouds ==>
      var p := w.t.files[k.0].path;
      LinkShows(w0, gr, w.clouds[k.1], p, k.1, w.t.links[k], true, false, Updated(w0, gr, Hit(w0.clouds[k.1], p), k.1))
  }

  /**
   Exactly one row for every path known to any replica, with the file id, size, check sum and time of the
   local node, and a link for each cloud that holds the path: all of them for a folder, and for a file all but
   those that refused its upload or had a folder in its way. The links of files show what they should.
   */
  ghost predicate FullyIndexed(l: Layout, w0: World, gr: Groups, w: World) {
    && UniquePaths(w.t) && RowsTrue(w.t, w.disk)
    && (forall g :: g in w.t.files ==> w.t.files[g].path in l.files + l.folders)
    && (forall p :: p in l.files + l.folders ==> FindByPath(w.t, p).Some?)
    && (forall p, c :: p in l.files && c in w.clouds ==> (Linked(w.t, p, c) <==> p in w.clouds[c].tree))
    && (forall p, c :: p in l.files && c in w.clouds && !Refused(w0, gr, p, c) && !Crowded(w0, gr, p, c) ==>
          Linked(w.t, p, c))
    && (forall p, c :: p in l.folders && c in w.clouds ==> Linked(w.t, p, c) && p in w.clouds[c].tree)
    && LinksEnd(l, w0, gr, w)
  }

  // ---- the start -------------------------------------------------------------------------------

  lemma Starts(l: Layout, w0: World, gr: Groups, w: World, local: LocalFiles)
    requires Unindexed(l, w0) && GroupsOk(w0.clouds, gr)
    requires WorldOk(l, w) && w == w0.(t := w.t) && Scanned(w0, w.t, local, {})
    ensures Reconciling(l, w0, gr, w, {}, map[], local)
  {
    forall p | p in l.files
      ensures CellOk(w0, gr, w, p, false)
    {
      assert forall c :: !Linked(w.t, p, c);
    }
    forall p | p in local
      ensures LocalEntryOk(w0, gr, w, p, local[p], false)
    {
      assert ScannedAs(w.t, p, w0.disk[p], local[p]);
    }
  }

  // ---- the barrier -----------------------------------------------------------------------------

  lemma KnownPath(l: Layout, w0: World, gr: Groups, p: Path)
    requires Covers(l, w0) && GroupsOk(w0.clouds, gr) && p in l.files + l.folders
    ensures p in w0.disk || (p in gr && gr[p] != [])
  {
    if p !in w0.disk {
      var c :| Holds(w0.clouds, c, p);
      assert InGroup(gr, c, p);
    }
  }

  lemma FileSettled(l: Layout, w0: World, gr: Groups, w: World, local: LocalFiles, p: Path)
    requires Reconciling(l, w0, gr, w, gr.Keys, map[], local) && Covers(l, w0) && p in l.files
    ensures p in w.disk && !w.disk[p].folder && w.disk[p].hash == Version(w0, gr, p)
    ensures w.disk[p].size == WinnerSize(w0, gr, p)
  {
    KnownPath(l, w0, gr, p);
    assert CellOk(w0, gr, w, p, Arrived(w0, gr, gr.Keys, map[], p));
    CellSettled(w0, gr, w, p);
    FileOnDisk(l, w, p);
  }

  lemma CellSettled(w0: World, gr: Groups, w: World, p: Path)
    requires CellOk(w0, gr, w, p, Arrived(w0, gr, gr.Keys, map[], p)) && (p in w0.disk || (p in gr && gr[p] != []))
    ensures p in w.disk && w.disk[p].hash == Version(w0, gr, p) && w.disk[p].size == WinnerSize(w0, gr, p)
  {
  }

  lemma FileOnDisk(l: Layout, w: World, p: Path)
    requires WorldOk(l, w) && p in l.files && p in w.disk
    ensures !w.disk[p].folder
  {
    assert KindFits(l, p, w.disk[p].folder);
  }

  lemma FileNotPushed(l: Layout, w0: World, gr: Groups, w: World, p: Path, c: nat)
    requires WorldOk(l, w) && AllKept(w0.clouds, w.clouds) && p in l.files && c in w0.clouds
    ensures SameNode(w0.clouds[c].tree, w.clouds[c].tree, p)
    ensures p in w.clouds[c].tree ==> !w.clouds[c].tree[p].folder
  {
    assert Kept(w0.clouds[c], w.clouds[c]);
    if p in w.clouds[c].tree {
      FileNode(l, w, c, p);
    }
  }

  lemma KeptIds(clouds0: map<nat, Cloud>, clouds: map<nat, Cloud>)
    requires AllKept(clouds0, clouds)
    ensures IdsKept(clouds0, clouds)
  {
    forall c | c in clouds0
      ensures clouds[c] == clouds0[c].(tree := clouds[c].tree, unlisted := clouds[c].unlisted)
      ensures forall p :: p in clouds0[c].tree ==> p in clouds[c].tree && clouds[c].tree[p].id == clouds0[c].tree[p].id
    {
      assert Kept(clouds0[c], clouds[c]);
    }
  }

  lemma FolderSettled(l: Layout, w0: World, gr: Groups, w: World, local: LocalFiles, p: Path)
    requires Reconciling(l, w0, gr, w, gr.Keys, map[], local) && Covers(l, w0) && p in l.folders
    ensures p in w.disk
  {
    KnownPath(l, w0, gr, p);
  }

  /** When the waits have returned no download is left: every winner is on disk, and the push can start. */
  lemma Barrier(l: Layout, w0: World, gr: Groups, w: World, local: LocalFiles)
    requires Reconciling(l, w0, gr, w, gr.Keys, map[], local) && Covers(l, w0)
    ensures Pushing(l, w0, gr, w, {}, map[])
  {
    KeptIds(w0.clouds, w.clouds);
    forall p | p in l.files
      ensures p in w.disk && !w.disk[p].folder && w.disk[p].hash == Version(w0, gr, p)
      ensures w.disk[p].size == WinnerSize(w0, gr, p)
    {
      FileSettled(l, w0, gr, w, local, p);
    }
    forall p | p in l.folders
      ensures p in w.disk
    {
      FolderSettled(l, w0, gr, w, local, p);
    }
    forall p, c | p in l.files && c in w0.clouds
      ensures CloudCell(w0, gr, w, p, c, false, false, Landed(w0, gr, p, c, {}, map[]))
    {
      FileNotPushed(l, w0, gr, w, p, c);
    }
    forall c | c in w0.clouds && !w0.clouds[c].google
      ensures StraysAt(l, w0, gr, w.clouds[c], c, {}, map[])
    {
      assert Kept(w0.clouds[c], w.clouds[c]);
    }
    ListedShow(l, w0, gr, w);
  }

  lemma ListedShow(l: Layout, w0: World, gr: Groups, w: World)
    requires w.clouds.Keys == w0.clouds.Keys && ListedLinks(l, w0, w)
    ensures LinksShow(l, w0, gr, w, {}, map[])
  {
    forall k | LinkOfFile(l, w.t, k) && k.1 in w0.clouds
      ensures ShowsAt(l, w0, gr, w, k, {}, map[])
    {
      assert ListedOne(w0, w.t.files[k.0].path, k.1, w.t.links[k]);
    }
  }

  lemma LocalKnows(l: Layout, w0: World, gr: Groups, w: World, local: LocalFiles, p: Path)
    requires Reconciling(l, w0, gr, w, gr.Keys, map[], local) && Covers(l, w0)
    ensures p in local <==> p in l.files + l.folders
    ensures p in local ==> LocalEntryOk(w0, gr, w, p, local[p], Pulled(w0, gr, p))
  {
    if p in l.files + l.folders {
      KnownPath(l, w0, gr, p);
    }
    if p in w0.disk {
      assert KindFits(l, p, w0.disk[p].folder);
    }
    if p in gr {
      KindOfBest(l, w0, gr, p);
    }
    if p in local {
      assert LocalEntryOk(w0, gr, w, p, local[p], p in gr.Keys && Pulled(w0, gr, p));
    }
  }

  // ---- the push --------------------------------------------------------------------------------

  /** The records that the push loop still has to visit are complete. */
  ghost predicate Remaining(l: Layout, w0: World, gr: Groups, w: World, local: LocalFiles, rest: set<Path>) {
    forall p :: p in rest ==>
      p in local && p in l.files + l.folders && LocalEntryOk(w0, gr, w, p, local[p], Pulled(w0, gr, p))
  }

  lemma RemainingStays(l: Layout, w0: World, gr: Groups, w: World, w': World, local: LocalFiles, rest: set<Path>)
    requires Remaining(l, w0, gr, w, local, rest) && RowsStay(w, w')
    ensures Remaining(l, w0, gr, w', local, rest)
  {
    forall p | p in rest
      ensures LocalEntryOk(w0, gr, w', p, local[p], Pulled(w0, gr, p))
    {
      assert LocalEntryOk(w0, gr, w, p, local[p], Pulled(w0, gr, p));
    }
  }

  lemma FewerRemaining(l: Layout, w0: World, gr: Groups, w: World, local: LocalFiles, rest: set<Path>, p: Path)
    requires Remaining(l, w0, gr, w, local, rest)
    ensures Remaining(l, w0, gr, w, local, rest - {p})
  {
  }

  method PushNext(
      ghost l: Layout, ghost w0: World, ghost done: set<Path>, ghost rest: set<Path>,
      w: World, jobs: Pushes, gr: Groups, local: LocalFiles, p: Path)
    returns (w': World, jobs': Pushes, ok: bool)
    requires Pushing(l, w0, gr, w, done, jobs) && Remaining(l, w0, gr, w, local, rest) && p in rest && p !in done && p in local
    ensures NoneObstructed(l, w0, gr) ==> ok
    ensures ok ==> Pushing(l, w0, gr, w', done + {p}, jobs') && Remaining(l, w0, gr, w', local, rest - {p})
  {
    var w1, jobs1 := CompletePushes(l, w0, gr, done, w, jobs, false);
    RemainingStays(l, w0, gr, w, w1, local, rest);
    w', jobs', ok := PushPath(l, w0, done, w1, jobs1, gr, p, local[p]);
    if ok {
      RemainingStays(l, w0, gr, w1, w', local, rest);
      FewerRemaining(l, w0, gr, w', local, rest, p);
    }
  }

  /**
   Every local file, in any order, while pushes end; then the wait for the rest of them. A path that cannot be
   created ends the loop with an exception; `ok` is false then.
   */
  method PushAll(ghost l: Layout, ghost w0: World, w: World, gr: Groups, local: LocalFiles)
    returns (w': World, ok: bool, ghost order: seq<Path>)
    requires Pushing(l, w0, gr, w, {}, map[]) && Remaining(l, w0, gr, w, local, local.Keys)
    ensures NoneObstructed(l, w0, gr) ==> ok
    ensures ok ==> Pushing(l, w0, gr, w', local.Keys, map[]) && Lists(order, local.Keys)
  {
    w', ok, order := w, true, [];
    var jobs: Pushes := map[];
    var rest := local.Keys;
    NoneLeft(local.Keys);
    while rest != {}
      invariant rest <= local.Keys
      invariant Pushing(l, w0, gr, w', local.Keys - rest, jobs)
      invariant Remaining(l, w0, gr, w', local, rest)
      invariant Lists(order, local.Keys - rest)
      decreases |rest|
    {
      var p :| p in rest;
      ListsMore(order, local.Keys - rest, p);
      order := order + [p];
      w', jobs, ok := PushNext(l, w0, local.Keys - rest, rest, w', jobs, gr, local, p);
      if !ok {
        return;
      }
      OneLess(local.Keys, rest, p);
      rest := rest - {p};
    }
    NoneLeft(local.Keys);
    w', jobs := CompletePushes(l, w0, gr, local.Keys, w', jobs, true);
    ok := true;
  }

  // ---- the end ---------------------------------------------------------------------------------

  /** With every path announced and no push left, every update has landed. */
  lemma AllLanded(l: Layout, w0: World, gr: Groups, done: set<Path>, p: Path, c: nat)
    requires Unindexed(l, w0) && l.files + l.folders <= done && c in w0.clouds
    ensures Landed(w0, gr, p, c, done, map[]) == Updated(w0, gr, Hit(w0.clouds[c], p), c)
  {
    var h := Hit(w0.clouds[c], p);
    if Updated(w0, gr, h, c) {
      assert TreeOk(l, w0.clouds[c].tree);
      assert KindFits(l, h, w0.clouds[c].tree[h].folder);
    }
  }

  lemma CellConverged(w0: World, gr: Groups, w: World, p: Path, c: nat)
    requires c in w0.clouds && c in w.clouds
    requires CloudCell(w0, gr, w, p, c, true, false, Updated(w0, gr, Hit(w0.clouds[c], p), c))
    ensures EndsAs(w0, gr, w, p, c)
    ensures p in w.clouds[c].tree ==> Linked(w.t, p, c)
  {
  }

  lemma NotLinked(l: Layout, w: World, p: Path, c: nat)
    requires WorldOk(l, w) && c in w.clouds && p !in w.clouds[c].tree
    ensures !Linked(w.t, p, c)
  {
    if Linked(w.t, p, c) {
      LinkedIsThere(l, w, p, c);
      assert false;
    }
  }

  lemma FileConverged(l: Layout, w0: World, gr: Groups, w: World, done: set<Path>, p: Path, c: nat)
    requires Unindexed(l, w0) && l.files + l.folders <= done
    requires WorldOk(l, w) && w.clouds.Keys == w0.clouds.Keys && CloudCells(l, w0, gr, w, done, map[])
    requires p in l.files && c in w.clouds
    ensures EndsAs(w0, gr, w, p, c)
    ensures Linked(w.t, p, c) <==> p in w.clouds[c].tree
  {
    AllLanded(l, w0, gr, done, p, c);
    assert CloudCell(w0, gr, w, p, c, p in done, false, Landed(w0, gr, p, c, done, map[]));
    CellConverged(w0, gr, w, p, c);
    if p !in w.clouds[c].tree {
      NotLinked(l, w, p, c);
    }
  }

  lemma StraysSettle(l: Layout, w0: World, gr: Groups, w: World, done: set<Path>, c: nat)
    requires Unindexed(l, w0) && l.files + l.folders <= done && c in w0.clouds && !w0.clouds[c].google
    requires IdsKept(w0.clouds, w.clouds) && StraysOk(l, w0, gr, w, done, map[])
    ensures StraysEnd(l, w0, gr, w, c)
  {
    assert StraysAt(l, w0, gr, w.clouds[c], c, done, map[]);
    forall x | Litters(l, w0, gr, x, c)
      ensures x in done
    {
      assert TreeOk(l, w0.clouds[c].tree);
      assert KindFits(l, x, w0.clouds[c].tree[x].folder);
    }
  }

  lemma LinksSettle(l: Layout, w0: World, gr: Groups, w: World, done: set<Path>)
    requires Unindexed(l, w0) && l.files + l.folders <= done
    requires w.clouds.Keys == w0.clouds.Keys && LinksShow(l, w0, gr, w, done, map[])
    ensures LinksEnd(l, w0, gr, w)
  {
    forall k | LinkOfFile(l, w.t, k) && k.1 in w0.clouds && k.1 in w.clouds
      ensures var p := w.t.files[k.0].path;
              LinkShows(w0, gr, w.clouds[k.1], p, k.1, w.t.links[k], true, false,
                        Updated(w0, gr, Hit(w0.clouds[k.1], p), k.1))
    {
      assert ShowsAt(l, w0, gr, w, k, done, map[]);
      AllLanded(l, w0, gr, done, w.t.files[k.0].path, k.1);
    }
  }

  lemma FolderConverged(l: Layout, w0: World, gr: Groups, w: World, done: set<Path>, p: Path, c: nat)
    requires Pushing(l, w0, gr, w, done, map[]) && p in l.folders && p in done && c in w.clouds
    ensures Linked(w.t, p, c) && p in w.clouds[c].tree
  {
    assert LinkedEverywhere(w.t, p);
    LinkedIsThere(l, w, p, c);
  }

  lemma RowsAreKnown(l: Layout, w: World, g: nat)
    requires WorldOk(l, w) && g in w.t.files
    ensures w.t.files[g].path in l.files + l.folders
  {
    assert KindFits(l, w.t.files[g].path, w.disk[w.t.files[g].path].folder);
  }

  lemma Ends(l: Layout, w0: World, gr: Groups, w: World, done: set<Path>)
    requires Pushing(l, w0, gr, w, done, map[]) && l.files + l.folders <= done
    ensures Converged(l, w0, gr, w) && FullyIndexed(l, w0, gr, w)
  {
    forall p, c | p in l.files && c in w.clouds
      ensures EndsAs(w0, gr, w, p, c)
      ensures Linked(w.t, p, c) <==> p in w.clouds[c].tree
    {
      FileConverged(l, w0, gr, w, done, p, c);
    }
    forall c | c in w.clouds && !w0.clouds[c].google
      ensures StraysEnd(l, w0, gr, w, c)
    {
      StraysSettle(l, w0, gr, w, done, c);
    }
    forall p, c | p in l.folders && c in w.clouds
      ensures Linked(w.t, p, c) && p in w.clouds[c].tree
    {
      FolderConverged(l, w0, gr, w, done, p, c);
    }
    forall g | g in w.t.files
      ensures w.t.files[g].path in l.files + l.folders
    {
      RowsAreKnown(l, w, g);
    }
    LinksSettle(l, w0, gr, w, done);
  }

  /** `ok` is false when the creation of a path threw, which ends the synchronisation. */
  method InitialSync(ghost l: Layout, w0: World) returns (w: World, gr: Groups, ok: bool)
    requires Unindexed(l, w0) && Covers(l, w0)
    ensures GroupsOk(w0.clouds, gr)
    ensures NoneObstructed(l, w0, gr) ==> ok
    ensures ok ==> WorldOk(l, w) && Converged(l, w0, gr, w) && FullyIndexed(l, w0, gr, w)
  {
    var local;
    ghost var order;
    w, local := ScanLocal(l, w0);
    gr := ListClouds(w.clouds);
    Starts(l, w0, gr, w, local);
    w, local, order := ReconcileAll(l, w0, w, local, gr);
    Barrier(l, w0, gr, w, local);
    forall p { LocalKnows(l, w0, gr, w, local, p); }
    w, ok, order := PushAll(l, w0, w, gr, local);
    if ok {
      Ends(l, w0, gr, w, local.Keys);
    }
  }

  // ---- what it means ---------------------------------------------------------------------------

  /** The cloud has the same paths as the local folder, with the same kinds and contents, and nothing else. */
  ghost predicate SameTree(disk: map<Path, Node>, cl: Cloud) {
    && (forall p :: p in cl.tree <==> p in disk)
    && (forall p :: p in disk && p in cl.tree ==>
          cl.tree[p].folder == disk[p].folder && (disk[p].folder || cl.tree[p].content == disk[p].hash))
    && (cl.google || forall x :: x in cl.unlisted ==> !(cl.base <= x))
  }

  ghost predicate Identical(w: World) {
    forall c :: c in w.clouds ==> SameTree(w.disk, w.clouds[c])
  }

  /** Nothing goes wrong at any file of any cloud. */
  ghost predicate NoneRefused(l: Layout, w0: World, gr: Groups) {
    forall p, c :: p in l.files && c in w0.clouds ==> !Refused(w0, gr, p, c)
  }

  ghost predicate NoneMissed(l: Layout, w0: World, gr: Groups) {
    forall p, c :: p in l.files && c in w0.clouds ==> !Missed(w0, gr, p, c)
  }

  ghost predicate NoneLitters(l: Layout, w0: World, gr: Groups) {
    forall p, c :: Stray(w0, gr, p, c) ==> !Litters(l, w0, gr, p, c)
  }

  /** No upload meets the update of another path, at its own place or below it. */
  ghost predicate NoneContested(l: Layout, w0: World, gr: Groups) {
    forall p, c :: p in l.files && c in w0.clouds ==> !Raced(w0, gr, p, c) && !Crowded(w0, gr, p, c)
  }

  /** The end of a run that was not cut short. */
  ghost predicate Ended(l: Layout, w0: World, gr: Groups, w: World) {
    Unindexed(l, w0) && WorldOk(l, w) && Converged(l, w0, gr, w) && FullyIndexed(l, w0, gr, w)
  }

  lemma IdenticalNeeds(l: Layout, w0: World, gr: Groups, w: World, p: Path, c: nat)
    requires Ended(l, w0, gr, w) && Identical(w) && p in l.files && c in w.clouds
    ensures !Refused(w0, gr, p, c) && !Missed(w0, gr, p, c)
  {
    assert EndsAs(w0, gr, w, p, c);
    assert SameTree(w.disk, w.clouds[c]);
  }

  lemma IdenticalLeavesNothing(l: Layout, w0: World, gr: Groups, w: World, p: Path, c: nat)
    requires Ended(l, w0, gr, w) && Identical(w) && Stray(w0, gr, p, c)
    ensures !Litters(l, w0, gr, p, c)
  {
    assert c in w.clouds && SameTree(w.disk, w.clouds[c]);
    assert StraysEnd(l, w0, gr, w, c);
  }

  lemma FileIsSame(l: Layout, w0: World, gr: Groups, w: World, p: Path, c: nat)
    requires Ended(l, w0, gr, w) && p in l.files && c in w.clouds
    requires !Refused(w0, gr, p, c) && !Missed(w0, gr, p, c) && !Raced(w0, gr, p, c) && !Crowded(w0, gr, p, c)
    ensures p in w.disk && p in w.clouds[c].tree && !w.disk[p].folder && !w.clouds[c].tree[p].folder
    ensures w.clouds[c].tree[p].content == w.disk[p].hash
  {
    assert EndsAs(w0, gr, w, p, c);
  }

  lemma FolderIsSame(l: Layout, w: World, p: Path, c: nat)
    requires WorldOk(l, w) && FindByPath(w.t, p).Some? && p in l.folders && c in w.clouds && p in w.clouds[c].tree
    ensures p in w.disk && w.disk[p].folder && w.clouds[c].tree[p].folder
  {
    assert w.t.files[FindByPath(w.t, p).value].path in w.disk;
    assert KindFits(l, p, w.disk[p].folder);
    assert TreeOk(l, w.clouds[c].tree) && KindFits(l, p, w.clouds[c].tree[p].folder);
  }

  lemma KnownPathsOnly(l: Layout, w: World, p: Path, c: nat)
    requires WorldOk(l, w) && c in w.clouds && (p in w.disk || p in w.clouds[c].tree)
    ensures p in l.files + l.folders
  {
    assert p in w.disk ==> KindFits(l, p, w.disk[p].folder);
    assert TreeOk(l, w.clouds[c].tree);
    assert p in w.clouds[c].tree ==> KindFits(l, p, w.clouds[c].tree[p].folder);
  }

  lemma NoFileAboveStray(l: Layout, w0: World, gr: Groups, x: Path, c: nat, r: Path)
    requires Unindexed(l, w0) && NoneContested(l, w0, gr) && Stray(w0, gr, x, c) && r in l.files
    ensures !(r < x[|w0.clouds[c].base|..])
  {
    var base, q := w0.clouds[c].base, x[|w0.clouds[c].base|..];
    if r < q {
      assert x == base + q && base + r < x;
      assert TreeOk(l, w0.clouds[c].tree);
      assert r in w0.clouds[c].tree ==> KindFits(l, r, w0.clouds[c].tree[r].folder);
      assert r !in w0.clouds[c].tree ==> Crowded(w0, gr, r, c);
    }
  }

  /** At the end a stray file stands at no known path: uploads and folders have replaced or prevented it. */
  lemma StrayIsElsewhere(l: Layout, w0: World, gr: Groups, w: World, x: Path, c: nat)
    requires Stray(w0, gr, x, c) && c in w.clouds && x[|w0.clouds[c].base|..] !in w.clouds[c].tree
    requires forall q :: q in l.files ==> EndsAs(w0, gr, w, q, c) && !Crowded(w0, gr, q, c)
    requires forall q :: q in l.folders ==> q in w.clouds[c].tree
    ensures x[|w0.clouds[c].base|..] !in l.files + l.folders
  {
    var q := x[|w0.clouds[c].base|..];
    assert !Refused(w0, gr, q, c);
  }

  /** The end of one cloud: each file as it must be, each folder there, and nothing else but added files. */
  ghost predicate CloudEnd(l: Layout, w0: World, gr: Groups, w: World, c: nat) {
    && c in w0.clouds && c in w.clouds
    && w.clouds[c].google == w0.clouds[c].google && w.clouds[c].base == w0.clouds[c].base
    && (forall p :: p in l.files ==> EndsAs(w0, gr, w, p, c))
    && (forall p :: p in l.folders ==> p in w.clouds[c].tree)
    && (!w.clouds[c].google ==> StraysEnd(l, w0, gr, w, c))
  }

  lemma EndOfCloud(l: Layout, w0: World, gr: Groups, w: World, c: nat)
    requires Converged(l, w0, gr, w) && FullyIndexed(l, w0, gr, w) && c in w.clouds
    ensures CloudEnd(l, w0, gr, w, c)
  {
  }

  /** A stray file that is there at the end is one that had to be added. */
  lemma StrayIsAdded(l: Layout, w0: World, gr: Groups, w: World, x: Path, c: nat)
    requires Unindexed(l, w0) && NoneContested(l, w0, gr) && CloudEnd(l, w0, gr, w, c)
    requires !w.clouds[c].google && x in w.clouds[c].unlisted && w.clouds[c].base <= x
    ensures Litters(l, w0, gr, x, c)
  {
    StrayIsElsewhere(l, w0, gr, w, x, c);
    forall r | r in l.files
      ensures !(r < x[|w0.clouds[c].base|..])
    {
      NoFileAboveStray(l, w0, gr, x, c, r);
    }
  }

  lemma NothingElse(l: Layout, w0: World, gr: Groups, w: World, c: nat)
    requires Unindexed(l, w0) && NoneContested(l, w0, gr) && NoneLitters(l, w0, gr) && CloudEnd(l, w0, gr, w, c)
    requires !w.clouds[c].google
    ensures forall x :: x in w.clouds[c].unlisted ==> !(w.clouds[c].base <= x)
  {
    forall x | x in w.clouds[c].unlisted
      ensures !(w.clouds[c].base <= x)
    {
      if w.clouds[c].base <= x {
        StrayIsAdded(l, w0, gr, w, x, c);
        assert false;
      }
    }
  }

  /** Every file and every folder of the layout is the same here and there. */
  ghost predicate SameFiles(l: Layout, disk: map<Path, Node>, tree: map<Path, Remote>) {
    forall p :: p in l.files ==>
      p in disk && p in tree && !disk[p].folder && !tree[p].folder && tree[p].content == disk[p].hash
  }

  ghost predicate SameFolders(l: Layout, disk: map<Path, Node>, tree: map<Path, Remote>) {
    forall p :: p in l.folders ==> p in disk && p in tree && disk[p].folder && tree[p].folder
  }

  lemma SameTreeFromParts(l: Layout, w: World, c: nat)
    requires c in w.clouds && SameFiles(l, w.disk, w.clouds[c].tree) && SameFolders(l, w.disk, w.clouds[c].tree)
    requires forall p :: p in w.disk || p in w.clouds[c].tree ==> p in l.files + l.folders
    requires w.clouds[c].google || forall x :: x in w.clouds[c].unlisted ==> !(w.clouds[c].base <= x)
    ensures SameTree(w.disk, w.clouds[c])
  {
  }

  lemma FoldersAreSame(l: Layout, w: World, c: nat)
    requires WorldOk(l, w) && c in w.clouds
    requires forall p :: p in l.folders ==> FindByPath(w.t, p).Some? && p in w.clouds[c].tree
    ensures SameFolders(l, w.disk, w.clouds[c].tree)
  {
    forall p | p in l.folders
      ensures p in w.disk && p in w.clouds[c].tree && w.disk[p].folder && w.clouds[c].tree[p].folder
    {
      FolderIsSame(l, w, p, c);
    }
  }

  lemma FilesAreSame(l: Layout, w0: World, gr: Groups, w: World, c: nat)
    requires Ended(l, w0, gr, w) && c in w.clouds
    requires NoneContested(l, w0, gr) && NoneRefused(l, w0, gr) && NoneMissed(l, w0, gr)
    ensures SameFiles(l, w.disk, w.clouds[c].tree)
  {
    forall p | p in l.files
      ensures p in w.disk && p in w.clouds[c].tree && !w.disk[p].folder && !w.clouds[c].tree[p].folder
      ensures w.clouds[c].tree[p].content == w.disk[p].hash
    {
      FileIsSame(l, w0, gr, w, p, c);
    }
  }

  lemma IdenticalFollows(l: Layout, w0: World, gr: Groups, w: World, c: nat)
    requires Ended(l, w0, gr, w) && c in w.clouds && NoneContested(l, w0, gr)
    requires NoneRefused(l, w0, gr) && NoneMissed(l, w0, gr) && NoneLitters(l, w0, gr)
    ensures SameTree(w.disk, w.clouds[c])
  {
    FilesAreSame(l, w0, gr, w, c);
    EndOfCloud(l, w0, gr, w, c);
    FoldersAreSame(l, w, c);
    forall p | p in w.disk || p in w.clouds[c].tree
      ensures p in l.files + l.folders
    {
      KnownPathsOnly(l, w, p, c);
    }
    if !w.clouds[c].google {
      NothingElse(l, w0, gr, w, c);
    }
    SameTreeFromParts(l, w, c);
  }

  /**
   All replicas become identical if and only if no upload is refused, no file is missed and no file is added,
   all of it known from the start. Where an upload meets the update of another path the order of the two decides.
   */
  lemma IdenticalExactly(l: Layout, w0: World, gr: Groups, w: World)
    requires Ended(l, w0, gr, w)
    ensures Identical(w) ==> NoneRefused(l, w0, gr) && NoneMissed(l, w0, gr) && NoneLitters(l, w0, gr)
    ensures NoneContested(l, w0, gr) ==>
              (Identical(w) <==> NoneRefused(l, w0, gr) && NoneMissed(l, w0, gr) && NoneLitters(l, w0, gr))
  {
    if Identical(w) {
      forall p, c | p in l.files && c in w0.clouds
        ensures !Refused(w0, gr, p, c) && !Missed(w0, gr, p, c)
      {
        IdenticalNeeds(l, w0, gr, w, p, c);
      }
      forall p, c | Stray(w0, gr, p, c)
        ensures !Litters(l, w0, gr, p, c)
      {
        IdenticalLeavesNothing(l, w0, gr, w, p, c);
      }
    }
    if NoneContested(l, w0, gr) && NoneRefused(l, w0, gr) && NoneMissed(l, w0, gr) && NoneLitters(l, w0, gr) {
      forall c | c in w.clouds
        ensures SameTree(w.disk, w.clouds[c])
      {
        IdenticalFollows(l, w0, gr, w, c);
      }
    }
  }

  // ---- what the next report will be compared with ----------------------------------------------

  /**
   The link has the id, size, time and check sum of the file in its cloud. Only the answer to a Dropbox update
   may have left time and check sum out.
   */
  predicate ShowsNode(w0: World, gr: Groups, p: Path, c: nat, google: bool, link: LinkRow, n: Remote) {
    && link.cloudFileId == n.id && link.size == n.size
    && ((link.mtime == n.mtime && link.hash == n.hash)
        || (!google && Updated(w0, gr, p, c) && link.mtime == WinnerTime(w0, gr, p) && link.hash == ""))
  }

  lemma EndOfLink(l: Layout, w0: World, gr: Groups, w: World, k: (nat, nat))
    requires LinksTrue(w) && Converged(l, w0, gr, w) && LinksEnd(l, w0, gr, w) && LinkOfFile(l, w.t, k) && k.1 in w.clouds
    ensures var p, c := w.t.files[k.0].path, k.1;
            && c in w0.clouds && w.clouds[c].google == w0.clouds[c].google && w.clouds[c].base == w0.clouds[c].base
            && p in w.clouds[c].tree && w.clouds[c].tree[p].id == w.t.links[k].cloudFileId && EndsAs(w0, gr, w, p, c)
            && LinkShows(w0, gr, w.clouds[c], p, c, w.t.links[k], true, false, Updated(w0, gr, Hit(w0.clouds[c], p), c))
  {
    assert LinkTrue(w, k);
  }

  lemma RootLinkShowsNode(l: Layout, w0: World, gr: Groups, w: World, p: Path, c: nat, link: LinkRow)
    requires Unindexed(l, w0) && GroupsOk(w0.clouds, gr) && c in w0.clouds && c in w.clouds && p in l.files
    requires w.clouds[c].google == w0.clouds[c].google && w.clouds[c].base == w0.clouds[c].base
    requires w0.clouds[c].google || w0.clouds[c].base == []
    requires p in w.clouds[c].tree && w.clouds[c].tree[p].id == link.cloudFileId && EndsAs(w0, gr, w, p, c)
    requires LinkShows(w0, gr, w.clouds[c], p, c, link, true, false, Updated(w0, gr, Hit(w0.clouds[c], p), c))
    ensures ShowsNode(w0, gr, p, c, w.clouds[c].google, link, w.clouds[c].tree[p])
  {
    assert Hit(w0.clouds[c], p) == p;
    TargetIsHit(w.clouds[c], p, p);
    assert TreeOk(l, w0.clouds[c].tree);
    assert p in w0.clouds[c].tree ==> KindFits(l, p, w0.clouds[c].tree[p].folder);
  }

  /**
   In a Google cloud, and below the root of a Dropbox account, the link of every file shows the file as it is in
   its cloud at the end, so that the next report of it is not taken for an edit.
   */
  lemma LinksShowNodes(l: Layout, w0: World, gr: Groups, w: World, k: (nat, nat))
    requires Unindexed(l, w0) && GroupsOk(w0.clouds, gr)
    requires LinksTrue(w) && Converged(l, w0, gr, w) && LinksEnd(l, w0, gr, w)
    requires LinkOfFile(l, w.t, k) && k.1 in w.clouds && k.1 in w0.clouds
    requires w0.clouds[k.1].google || w0.clouds[k.1].base == []
    ensures w.t.files[k.0].path in w.clouds[k.1].tree
    ensures ShowsNode(w0, gr, w.t.files[k.0].path, k.1, w.clouds[k.1].google, w.t.links[k],
                      w.clouds[k.1].tree[w.t.files[k.0].path])
  {
    EndOfLink(l, w0, gr, w, k);
    RootLinkShowsNode(l, w0, gr, w, w.t.files[k.0].path, k.1, w.t.links[k]);
  }

  // ---- what goes wrong where -------------------------------------------------------------------

  /** The source of the winner holds the winner. */
  lemma SourceHolds(w0: World, gr: Groups, p: Path, c: nat)
    requires GroupsOk(w0.clouds, gr) && Pulled(w0, gr, p) && c == Best(gr[p]).cloud
    ensures Holds(w0.clouds, c, p) && w0.clouds[c].tree[p].content == Version(w0, gr, p)
  {
    BestDescribed(w0.clouds, gr, p);
  }

  /** In a Google cloud, and below the root of a Dropbox account, no file is missed. */
  lemma NotMissed(w0: World, gr: Groups, p: Path, c: nat)
    requires GroupsOk(w0.clouds, gr) && Holds(w0.clouds, c, p) && !w0.clouds[c].tree[p].folder
    requires w0.clouds[c].google || w0.clouds[c].base == []
    ensures !Missed(w0, gr, p, c)
  {
    assert Hit(w0.clouds[c], p) == p;
    if !Updated(w0, gr, p, c) {
      SourceHolds(w0, gr, p, c);
    }
  }

  /**
   Below any other home folder a file is missed exactly when it is sent an update with other contents, as long
   as no update of another path lands there.
   */
  lemma MissedExactly(w0: World, gr: Groups, p: Path, c: nat)
    requires GroupsOk(w0.clouds, gr) && Holds(w0.clouds, c, p) && !w0.clouds[c].tree[p].folder
    requires !w0.clouds[c].google && w0.clouds[c].base != [] && !Updated(w0, gr, w0.clouds[c].base + p, c)
    ensures Missed(w0, gr, p, c) <==> Updated(w0, gr, p, c) && w0.clouds[c].tree[p].content != Version(w0, gr, p)
  {
    if !Updated(w0, gr, p, c) {
      SourceHolds(w0, gr, p, c);
    }
  }

  /** Two Google clouds are needed for a refusal, and a Dropbox home below the root for anything else. */
  lemma RootHomesSuffice(l: Layout, w0: World, gr: Groups)
    requires Unindexed(l, w0) && GroupsOk(w0.clouds, gr)
    ensures (forall d, e :: d in w0.clouds && e in w0.clouds && w0.clouds[d].google && w0.clouds[e].google ==> d == e)
            ==> NoneRefused(l, w0, gr)
    ensures (forall d :: d in w0.clouds && !w0.clouds[d].google ==> w0.clouds[d].base == [])
            ==> NoneMissed(l, w0, gr) && NoneLitters(l, w0, gr) && NoneContested(l, w0, gr) && NoneObstructed(l, w0, gr)
  {
    forall p, c | p in l.files && c in w0.clouds
      ensures Refused(w0, gr, p, c) ==>
                Best(gr[p]).cloud != c && w0.clouds[Best(gr[p]).cloud].google && w0.clouds[c].google
      ensures w0.clouds[c].google || w0.clouds[c].base == [] ==> !Missed(w0, gr, p, c) && !Raced(w0, gr, p, c)
    {
      RootHomeOrGoogle(l, w0, gr, p, c);
    }
    if forall d :: d in w0.clouds && !w0.clouds[d].google ==> w0.clouds[d].base == [] {
      forall x, c
        ensures !Stray(w0, gr, x, c)
      {
        assert x[0..] == x;
      }
    }
  }

  lemma RootHomeOrGoogle(l: Layout, w0: World, gr: Groups, p: Path, c: nat)
    requires Unindexed(l, w0) && GroupsOk(w0.clouds, gr) && p in l.files && c in w0.clouds
    ensures Refused(w0, gr, p, c) ==>
              Best(gr[p]).cloud != c && w0.clouds[Best(gr[p]).cloud].google && w0.clouds[c].google
    ensures w0.clouds[c].google || w0.clouds[c].base == [] ==> !Missed(w0, gr, p, c) && !Raced(w0, gr, p, c)
  {
    if Pulled(w0, gr, p) {
      BestDescribed(w0.clouds, gr, p);
    }
    if w0.clouds[c].google || w0.clouds[c].base == [] {
      assert Hit(w0.clouds[c], p) == p;
      if Holds(w0.clouds, c, p) {
        assert TreeOk(l, w0.clouds[c].tree) && KindFits(l, p, w0.clouds[c].tree[p].folder);
        NotMissed(w0, gr, p, c);
      }
    }
  }

  /** Two Google clouds, one file in the first of them: its upload to the second is refused. */
  lemma TwoGoogleCloudsDiverge(n: Remote, t: Tables)
    requires n == Remote(false, "id-a", "home-1", 1, "", 1, 7)
    requires t == Tables(map[], map[], 0, {1, 2}, 2)
    ensures var one, two := Cloud(true, "home-1", [], map[["a"] := n], map[]), Cloud(true, "home-2", [], map[], map[]);
            var w0 := World(map[], map[1 := one, 2 := two], t);
            var l := Layout({}, {["a"]});
            var gr: Groups := map[["a"] := [Describe(1, one, ["a"])]];
            && Unindexed(l, w0) && Covers(l, w0) && GroupsOk(w0.clouds, gr)
            && Refused(w0, gr, ["a"], 2)
  {
    var one, two := Cloud(true, "home-1", [], map[["a"] := n], map[]), Cloud(true, "home-2", [], map[], map[]);
    var w0 := World(map[], map[1 := one, 2 := two], t);
    var gr: Groups := map[["a"] := [Describe(1, one, ["a"])]];
    assert Holds(w0.clouds, 1, ["a"]);
    assert forall c, p :: Holds(w0.clouds, c, p) ==> c == 1 && p == ["a"];
    assert gr[["a"]][0].cloud == 1;
    assert InGroup(gr, 1, ["a"]);
    assert "home-1"[5] != "home-2"[5];
    assert "id-a"[0] != "home-1"[0];
  }

  /** One Dropbox cloud below `/Sync`, one file that is newer here: the cloud keeps its old version. */
  lemma HomeBelowRootKeepsOldVersion(n: Remote, t: Tables)
    requires n == Remote(false, "id-a", "", 1, "", 1, 7)
    requires t == Tables(map[], map[], 0, {1}, 1)
    ensures var cl := Cloud(false, "", ["Sync"], map[["a"] := n], map[]);
            var w0 := World(map[["a"] := Node(false, 1, 1, 8, 2)], map[1 := cl], t);
            var l := Layout({}, {["a"]});
            var gr: Groups := map[["a"] := [Describe(1, cl, ["a"])]];
            && Unindexed(l, w0) && Covers(l, w0) && GroupsOk(w0.clouds, gr)
            && NoneRefused(l, w0, gr) && NoneContested(l, w0, gr) && Missed(w0, gr, ["a"], 1)
            && Settles(w0, gr, ["a"], 1) == 7 && Version(w0, gr, ["a"]) == 8
  {
    var cl := Cloud(false, "", ["Sync"], map[["a"] := n], map[]);
    var w0 := World(map[["a"] := Node(false, 1, 1, 8, 2)], map[1 := cl], t);
    var gr: Groups := map[["a"] := [Describe(1, cl, ["a"])]];
    assert forall c, p :: Holds(w0.clouds, c, p) <==> c == 1 && p == ["a"];
    assert gr[["a"]][0].cloud == 1;
    assert InGroup(gr, 1, ["a"]);
    assert |["Sync"] + ["a"]| == 2;
  }

  /** A cloud below `/Sync` that holds `a` and, in a folder of the home folder's own name, an older `Sync/a`. */
  const NESTED := Cloud(false, "", ["Sync"], map[
    ["a"] := Remote(false, "1", "", 1, "", 1, 7), ["Sync"] := Remote(true, "2", "", 1, "", 0, 0),
    ["Sync", "a"] := Remote(false, "3", "", 1, "", 1, 8)], map[])

  const NESTED_START := World(
    map[["a"] := Node(false, 1, 1, 7, 1), ["Sync"] := Node(true, 2, 0, 0, 1), ["Sync", "a"] := Node(false, 3, 1, 9, 2)],
    map[1 := NESTED], Tables(map[], map[], 0, {1}, 1))

  lemma NestedIsApart()
    ensures Apart(NESTED_START.clouds)
  {
    assert "1"[0] != "2"[0] && "1"[0] != "3"[0] && "2"[0] != "3"[0];
    assert forall c, p :: Holds(NESTED_START.clouds, c, p) ==> c == 1 && (p == ["a"] || p == ["Sync"] || p == ["Sync", "a"]);
  }

  const NESTED_LAYOUT := Layout({["Sync"]}, {["a"], ["Sync", "a"]})

  lemma NestedPath(p: Path)
    requires p in NESTED_LAYOUT.files + NESTED_LAYOUT.folders
    ensures |p| > 1 ==> p == ["Sync", "a"] && Parent(p) == ["Sync"]
  {
  }

  lemma NestedLayoutOk()
    ensures LayoutOk(NESTED_LAYOUT)
  {
    forall p {:trigger Parent(p)} | p in NESTED_LAYOUT.folders + NESTED_LAYOUT.files && |p| > 1
      ensures Parent(p) in NESTED_LAYOUT.folders
    {
      NestedPath(p);
    }
  }

  lemma NestedTreeOk()
    ensures TreeOk(NESTED_LAYOUT, NESTED.tree)
  {
    forall p {:trigger Parent(p)} | p in NESTED.tree && |p| > 1
      ensures Parent(p) in NESTED.tree
    {
      NestedPath(p);
    }
  }

  lemma NestedDiskOk()
    ensures DiskOk(NESTED_LAYOUT, NESTED_START.disk)
  {
    forall p {:trigger Parent(p)} | p in NESTED_START.disk && |p| > 1
      ensures Parent(p) in NESTED_START.disk
    {
      NestedPath(p);
    }
  }

  /** The initial synchronisation may start there. */
  lemma NestedStarts()
    ensures Unindexed(NESTED_LAYOUT, NESTED_START)
  {
    NestedIsApart();
    NestedLayoutOk();
    NestedTreeOk();
    NestedDiskOk();
  }

  /** The update of `Sync/a` is written over `a`, although `a` was the same everywhere. */
  lemma UpdateHitsAnotherFile(gr: Groups)
    requires GroupsOk(NESTED_START.clouds, gr)
    ensures Version(NESTED_START, gr, ["a"]) == 7 == NESTED.tree[["a"]].content
    ensures Settles(NESTED_START, gr, ["a"], 1) == 9 && Missed(NESTED_START, gr, ["a"], 1)
  {
    var clouds := NESTED_START.clouds;
    assert ["Sync"] + ["a"] == ["Sync", "a"];
    assert Holds(clouds, 1, ["a"]) && Holds(clouds, 1, ["Sync", "a"]);
    assert InGroup(gr, 1, ["a"]) && InGroup(gr, 1, ["Sync", "a"]);
    BestDescribed(clouds, gr, ["a"]);
    BestDescribed(clouds, gr, ["Sync", "a"]);
  }

  /** A cloud below `/Sync` that holds nothing but a folder of the home folder's own name, with one file. */
  const LONE := Cloud(false, "", ["Sync"], map[
    ["Sync"] := Remote(true, "1", "", 1, "", 0, 0), ["Sync", "a"] := Remote(false, "2", "", 1, "", 1, 7)], map[])

  /** The same locally; with `dir` there is also a directory `a` here. */
  function LoneStart(dir: bool): World {
    var disk := map[["Sync"] := Node(true, 1, 0, 0, 1), ["Sync", "a"] := Node(false, 2, 1, 7, 1)];
    World(if dir then disk[["a"] := Node(true, 3, 0, 0, 1)] else disk, map[1 := LONE], Tables(map[], map[], 0, {1}, 1))
  }

  function LoneLayout(dir: bool): Layout {
    Layout(if dir then {["Sync"], ["a"]} else {["Sync"]}, {["Sync", "a"]})
  }

  lemma LoneIsApart(dir: bool)
    ensures Apart(LoneStart(dir).clouds) && HomesListed(LoneStart(dir).clouds)
    ensures forall c, p :: Holds(LoneStart(dir).clouds, c, p) <==> c == 1 && (p == ["Sync"] || p == ["Sync", "a"])
  {
    assert "1"[0] != "2"[0];
  }

  lemma LonePath(dir: bool, p: Path)
    requires p in LoneLayout(dir).files + LoneLayout(dir).folders
    ensures |p| > 1 ==> p == ["Sync", "a"] && Parent(p) == ["Sync"]
  {
  }

  lemma LoneFits(dir: bool)
    ensures LayoutOk(LoneLayout(dir)) && TreeOk(LoneLayout(dir), LONE.tree)
    ensures DiskOk(LoneLayout(dir), LoneStart(dir).disk)
  {
    var l, disk := LoneLayout(dir), LoneStart(dir).disk;
    forall p {:trigger Parent(p)} | (p in l.folders + l.files || p in LONE.tree || p in disk) && |p| > 1
      ensures Parent(p) == ["Sync"]
    {
      LonePath(dir, p);
    }
  }

  /** The initial synchronisation may start there. */
  lemma LoneStarts(dir: bool)
    ensures Unindexed(LoneLayout(dir), LoneStart(dir)) && Covers(LoneLayout(dir), LoneStart(dir))
  {
    LoneIsApart(dir);
    LoneFits(dir);
  }

  lemma LoneUpdate(dir: bool, gr: Groups)
    requires GroupsOk(LoneStart(dir).clouds, gr)
    ensures Stray(LoneStart(dir), gr, ["Sync", "a"], 1) && ["Sync", "a"][|LONE.base|..] == ["a"]
    ensures Version(LoneStart(dir), gr, ["Sync", "a"]) == 7
    ensures forall p, c :: Updated(LoneStart(dir), gr, p, c) ==> p == ["Sync", "a"] && c == 1
  {
    LoneIsApart(dir);
    assert InGroup(gr, 1, ["Sync", "a"]);
    BestDescribed(LoneStart(dir).clouds, gr, ["Sync", "a"]);
    assert !Pulled(LoneStart(dir), gr, ["Sync", "a"]);
    assert ["Sync"] <= ["Sync", "a"];
  }

  /**
   Everything is the same everywhere at the start, and no known path is touched; but the update of `Sync/a`
   puts a file `a` below the home folder, which the local folder does not have.
   */
  lemma UpdateAddsAFile(gr: Groups)
    requires GroupsOk(LoneStart(false).clouds, gr)
    ensures var w0, l := LoneStart(false), LoneLayout(false);
            && NoneRefused(l, w0, gr) && NoneMissed(l, w0, gr) && NoneContested(l, w0, gr) && NoneObstructed(l, w0, gr)
            && Litters(l, w0, gr, ["Sync", "a"], 1) && ["a"] !in l.files + l.folders
    ensures forall w :: Ended(LoneLayout(false), LoneStart(false), gr, w) ==> !Identical(w)
  {
    var w0, l := LoneStart(false), LoneLayout(false);
    LoneUpdate(false, gr);
    LoneIsApart(false);
    assert ["Sync"] + ["Sync", "a"] == ["Sync", "Sync", "a"];
    assert Litters(l, w0, gr, ["Sync", "a"], 1);
    forall w | Ended(l, w0, gr, w)
      ensures !Identical(w)
    {
      IdenticalExactly(l, w0, gr, w);
    }
  }

  /**
   With a directory `a` here that the cloud lacks, the update of `Sync/a` is written to the place of its folder.
   If the update comes first, the folder cannot be created, and the synchronisation ends with an exception.
   */
  lemma UpdateObstructsAFolder(gr: Groups, cl: Cloud)
    requires GroupsOk(LoneStart(true).clouds, gr)
    requires Lands(LONE, cl, ["Sync", "a"], 7)
    ensures Obstructs(LoneLayout(true), LoneStart(true), gr, ["Sync", "a"], 1)
    ensures !AllClear(map[1 := cl], ["a"], 0)
  {
    LoneUpdate(true, gr);
    assert ["Sync"] + ["a"] == ["Sync", "a"] && ["a"][..1] == ["a"];
    assert Target(LONE, ["Sync", "a"]) == Some(["a"]);
    assert !Blocked(LONE, ["Sync", "a"]);
    var clouds: map<nat, Cloud> := map[1 := cl];
    assert 1 in clouds && !Clear(clouds[1], ["a"], 0, |["a"]|);
  }
}
