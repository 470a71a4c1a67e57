/**
 What the replicas report at the start of the initial synchronisation, grouped by path, and the version
 that wins at each path.
 */
module Listing {
  import opened Common
  import opened Disk
  import opened PathCreation
  import opened Records
  import opened Schema
  import opened Workspace

  /** Every cloud's entries for each path, in the order in which the clouds were asked. */
  type Groups = map<Path, seq<RecordDto>>

  /** Folders carry no contents, and Dropbox reports no time for them. */
  function Describe(c: nat, cl: Cloud, p: Path): RecordDto
    requires p in cl.tree
  {
    var n := cl.tree[p];
    RecordDto(
      if n.folder then Directory else File, p, if cl.google then FolderId(cl, Parent(p)) else "",
      n.id, Text(if n.folder then "" else n.hash), if n.folder then 0 else n.size, 0,
      if n.folder && !cl.google then 0 else n.mtime, 0, c)
  }

  function LocalRecord(p: Path, n: Node, g: nat): RecordDto {
    RecordDto(if n.folder then Directory else File, p, "", "", Number(n.hash), n.size, n.fileId, n.mtime, g, 0)
  }

  /** A link that shows what the listing said of a file. */
  predicate ShowsListing(link: LinkRow, cl: Cloud, p: Path)
    requires p in cl.tree
  {
    var n := cl.tree[p];
    && link.cloudFileId == n.id && link.hash == n.hash && link.mtime == n.mtime && link.size == n.size
    && link.parentId == if cl.google then FolderId(cl, Parent(p)) else ""
  }

  lemma ListedLink(c: nat, cl: Cloud, p: Path)
    requires p in cl.tree && !cl.tree[p].folder
    ensures ShowsListing(LinkOf(Describe(c, cl, p)), cl, p)
  {
  }

  ghost predicate Described(clouds: map<nat, Cloud>, p: Path, e: RecordDto) {
    Holds(clouds, e.cloud, p) && e == Describe(e.cloud, clouds[e.cloud], p)
  }

  /** True entries, from different clouds. */
  ghost predicate GroupTrue(clouds: map<nat, Cloud>, p: Path, es: seq<RecordDto>) {
    && es != []
    && (forall i :: 0 <= i < |es| ==> Described(clouds, p, es[i]))
    && (forall i, j :: 0 <= i < j < |es| ==> es[i].cloud != es[j].cloud)
  }

  predicate InGroup(gr: Groups, c: nat, p: Path) {
    p in gr && exists i :: 0 <= i < |gr[p]| && gr[p][i].cloud == c
  }

  ghost predicate ListedSoFar(clouds: map<nat, Cloud>, gr: Groups, seen: set<(nat, Path)>) {
    && (forall p :: p in gr ==> GroupTrue(clouds, p, gr[p]))
    && (forall c: nat, p :: InGroup(gr, c, p) <==> (c, p) in seen)
  }

  /** The groups hold every entry of every cloud, once. */
  ghost predicate GroupsOk(clouds: map<nat, Cloud>, gr: Groups) {
    && (forall p :: p in gr ==> GroupTrue(clouds, p, gr[p]))
    && (forall c, p :: InGroup(gr, c, p) <==> Holds(clouds, c, p))
  }

  function AddEntry(gr: Groups, e: RecordDto): Groups {
    gr[e.path := (if e.path in gr then gr[e.path] else []) + [e]]
  }

  lemma InGroupMore(gr: Groups, e: RecordDto, c: nat, p: Path)
    ensures InGroup(AddEntry(gr, e), c, p) <==> InGroup(gr, c, p) || (c == e.cloud && p == e.path)
  {
    var es' := AddEntry(gr, e)[e.path];
    if InGroup(gr, c, p) && p == e.path {
      var i :| 0 <= i < |gr[p]| && gr[p][i].cloud == c;
      assert es'[i].cloud == c;
    }
    if c == e.cloud && p == e.path {
      assert es'[|es'| - 1].cloud == c;
    }
  }

  lemma GroupMore(clouds: map<nat, Cloud>, gr: Groups, seen: set<(nat, Path)>, e: RecordDto)
    requires ListedSoFar(clouds, gr, seen) && Described(clouds, e.path, e) && (e.cloud, e.path) !in seen
    ensures ListedSoFar(clouds, AddEntry(gr, e), seen + {(e.cloud, e.path)})
  {
    assert !InGroup(gr, e.cloud, e.path);
    var gr' := AddEntry(gr, e);
    assert GroupTrue(clouds, e.path, gr'[e.path]);
    forall c: nat, p
      ensures InGroup(gr', c, p) <==> (c, p) in seen + {(e.cloud, e.path)}
    {
      InGroupMore(gr, e, c, p);
    }
  }

  /** Asks one cloud; its entries come in any order. */
  method ListCloud(clouds: map<nat, Cloud>, c: nat, gr: Groups, ghost seen: set<(nat, Path)>)
    returns (gr': Groups, ghost seen': set<(nat, Path)>)
    requires c in clouds && ListedSoFar(clouds, gr, seen) && forall p :: (c, p) !in seen
    ensures ListedSoFar(clouds, gr', seen')
    ensures forall d, p :: (d, p) in seen' <==> (d, p) in seen || (d == c && p in clouds[c].tree)
  {
    gr', seen' := gr, seen;
    var rest := clouds[c].tree.Keys;
    while rest != {}
      invariant rest <= clouds[c].tree.Keys
      invariant ListedSoFar(clouds, gr', seen')
      invariant forall d, p :: (d, p) in seen' <==> (d, p) in seen || (d == c && p in clouds[c].tree && p !in rest)
      decreases |rest|
    {
      var p :| p in rest;
      rest := rest - {p};
      var e := Describe(c, clouds[c], p);
      assert Holds(clouds, c, p);
      GroupMore(clouds, gr', seen', e);
      gr' := AddEntry(gr', e);
      seen' := seen' + {(c, p)};
    }
  }

  method ListClouds(clouds: map<nat, Cloud>) returns (gr: Groups)
    ensures GroupsOk(clouds, gr)
  {
    gr := map[];
    ghost var seen: set<(nat, Path)> := {};
    var rest := clouds.Keys;
    while rest != {}
      invariant rest <= clouds.Keys
      invariant ListedSoFar(clouds, gr, seen)
      invariant forall c: nat, p :: (c, p) in seen <==> Holds(clouds, c, p) && c !in rest
      decreases |rest|
    {
      var c :| c in rest;
      rest := rest - {c};
      gr, seen := ListCloud(clouds, c, gr, seen);
    }
  }

  // ---- the best candidate ----------------------------------------------------------------------

  /** The first candidate of maximal modified time. */
  function Best(es: seq<RecordDto>): (b: RecordDto)
    requires es != []
    ensures exists i :: 0 <= i < |es| && es[i] == b && forall j :: 0 <= j < i ==> es[j].mtime < b.mtime
    ensures forall j :: 0 <= j < |es| ==> es[j].mtime <= b.mtime
  {
    if |es| == 1 then es[0]
    else
      var b := Best(es[..|es| - 1]);
      if es[|es| - 1].mtime > b.mtime then
        assert es[|es| - 1] == es[|es| - 1];
        es[|es| - 1]
      else b
  }

  method BestOf(es: seq<RecordDto>) returns (best: RecordDto)
    requires es != []
    ensures best == Best(es)
  {
    best := es[0];
    assert es[..1] == [es[0]];
    var i := 1;
    while i < |es|
      invariant 1 <= i <= |es| && best == Best(es[..i])
    {
      assert es[..i + 1][..i] == es[..i];
      if es[i].mtime > best.mtime {
        best := es[i];
      }
      i := i + 1;
    }
    assert es[..i] == es;
  }

  /** The version at `p` comes from a cloud: only clouds have it, or one has a newer one than the local file. */
  predicate Pulled(w: World, gr: Groups, p: Path) {
    && p in gr && gr[p] != []
    && (p !in w.disk || (!w.disk[p].folder && w.disk[p].mtime < Best(gr[p]).mtime))
  }

  /** The contents that win at `p`. */
  function Version(w: World, gr: Groups, p: Path): nat {
    if Pulled(w, gr, p) && Holds(w.clouds, Best(gr[p]).cloud, p) then w.clouds[Best(gr[p]).cloud].tree[p].content
    else if p in w.disk then w.disk[p].hash
    else 0
  }

  /** Size and time of the version that wins at `p`, as they were listed or scanned. */
  function WinnerSize(w: World, gr: Groups, p: Path): nat {
    if Pulled(w, gr, p) then Best(gr[p]).size else if p in w.disk then w.disk[p].size else 0
  }

  function WinnerTime(w: World, gr: Groups, p: Path): int {
    if Pulled(w, gr, p) then Best(gr[p]).mtime else if p in w.disk then w.disk[p].mtime else 0
  }

  lemma BestDescribed(clouds: map<nat, Cloud>, gr: Groups, p: Path)
    requires GroupsOk(clouds, gr) && p in gr
    ensures gr[p] != [] && Described(clouds, p, Best(gr[p])) && Best(gr[p]).path == p
    ensures InGroup(gr, Best(gr[p]).cloud, p)
  {
    assert GroupTrue(clouds, p, gr[p]);
    var i :| 0 <= i < |gr[p]| && gr[p][i] == Best(gr[p]) && forall j :: 0 <= j < i ==> gr[p][j].mtime < Best(gr[p]).mtime;
    assert Described(clouds, p, gr[p][i]);
  }

  /**
   The winner is a version of some replica and of maximal modified time among all replicas; the local file
   wins a tie with the clouds.
   */
  lemma WinnerIsMaximal(w: World, gr: Groups, p: Path)
    requires GroupsOk(w.clouds, gr) && (p in w.disk ==> !w.disk[p].folder)
    requires forall c :: Holds(w.clouds, c, p) ==> !w.clouds[c].tree[p].folder
    requires p in w.disk || p in gr
    ensures Pulled(w, gr, p) ==>
              && Holds(w.clouds, Best(gr[p]).cloud, p)
              && var best := w.clouds[Best(gr[p]).cloud].tree[p];
                 && Version(w, gr, p) == best.content
                 && (p in w.disk ==> w.disk[p].mtime < best.mtime)
                 && forall c :: Holds(w.clouds, c, p) ==> w.clouds[c].tree[p].mtime <= best.mtime
    ensures !Pulled(w, gr, p) ==>
              && p in w.disk && Version(w, gr, p) == w.disk[p].hash
              && forall c :: Holds(w.clouds, c, p) ==> w.clouds[c].tree[p].mtime <= w.disk[p].mtime
  {
    if p in gr {
      BestDescribed(w.clouds, gr, p);
      forall c | Holds(w.clouds, c, p)
        ensures w.clouds[c].tree[p].mtime <= Best(gr[p]).mtime
      {
        assert InGroup(gr, c, p);
        var i :| 0 <= i < |gr[p]| && gr[p][i].cloud == c;
        assert Described(w.clouds, p, gr[p][i]);
      }
    } else {
      assert forall c :: !InGroup(gr, c, p);
    }
  }
}
