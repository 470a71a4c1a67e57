/**
 Creating a missing path: first the local directories and their rows, then in every cloud the folders
 that it lacks, then a link for each folder and cloud. Afterwards nothing of the path is missing.
 */
module PathCreation {
  import opened Common
  import opened Disk
  import opened PathIndex
  import opened Records
  import opened Schema
  import opened Workspace

  ghost predicate Extends(cl: Cloud, cl': Cloud, path: Path) {
    && cl' == cl.(tree := cl'.tree)
    && (forall p :: p in cl.tree ==> p in cl'.tree && cl'.tree[p] == cl.tree[p])
    && (forall p :: p in cl'.tree && p !in cl.tree ==> p <= path && p != [] && cl'.tree[p].folder)
  }

  lemma GrownExtends(cl: Cloud, cl': Cloud, path: Path, lo: nat, hi: nat, ids: seq<string>)
    requires lo <= hi <= lo + |ids| && GrownCloud(cl, cl', path, lo, hi, ids)
    ensures Extends(cl, cl', path)
  {
  }

  lemma GrownRooted(cl: Cloud, cl': Cloud, path: Path, lo: nat, ids: seq<string>)
    requires lo <= |path| <= lo + |ids| && GrownCloud(cl, cl', path, lo, |path|, ids) && Rooted(cl.tree)
    requires path[..lo] == [] || path[..lo] in cl.tree
    ensures Rooted(cl'.tree)
  {
    forall p | p in cl'.tree && |p| > 1
      ensures Parent(p) in cl'.tree
    {
      if p in cl.tree {
        assert Parent(p) in cl.tree;
      } else {
        assert Between(p, path, lo, |path|);
        assert p == path[..|p|] && Parent(p) == path[..|p| - 1];
        if |p| - 1 > lo {
          assert Between(Parent(p), path, lo, |path|);
        }
      }
    }
  }

  ghost predicate OnlyGrew(clouds: map<nat, Cloud>, clouds': map<nat, Cloud>, c: nat, path: Path) {
    && c in clouds && c in clouds' && clouds' == clouds[c := clouds'[c]] && Apart(clouds')
    && Extends(clouds[c], clouds'[c], path) && Rooted(clouds'[c].tree)
  }

  /** One entry for each prefix from length `keep` on. */
  ghost predicate ReportsAll(clouds: map<nat, Cloud>, created: seq<RecordDto>, c: nat, path: Path, keep: nat) {
    c in clouds && keep + |created| == |path| && Reports(created, c, clouds[c], path, keep)
  }

  lemma GrowthOfOne(
      clouds: map<nat, Cloud>, c: nat, cl: Cloud, path: Path, keep: nat, ids: seq<string>, created: seq<RecordDto>)
    requires Apart(clouds) && c in clouds && Rooted(clouds[c].tree) && FreshIds(ids, clouds)
    requires keep <= |path| <= keep + |ids| && (path[..keep] == [] || path[..keep] in clouds[c].tree)
    requires Building(clouds[c], cl, c, path, keep, |path|, ids, created)
    ensures OnlyGrew(clouds, clouds[c := cl], c, path) && ReportsAll(clouds[c := cl], created, c, path, keep)
  {
    ApartGrown(clouds, c, cl, path, keep, |path|, ids);
    GrownExtends(clouds[c], cl, path, keep, |path|, ids);
    GrownRooted(clouds[c], cl, path, keep, ids);
  }

  /** The request to one cloud; Google needs the id of the existing prefix, which comes from the tables. */
  method AskCloud(t: Tables, cl: Cloud, c: nat, path: Path, missing: Path, ids: seq<string>)
    returns (cl': Cloud, created: seq<RecordDto>, ok: bool)
    requires MayCreate(cl, path, missing, ids)
    requires var prefix := path[..|path| - |missing|];
             prefix == [] || (prefix in cl.tree && CloudFileIdByPath(t, prefix, c) == cl.tree[prefix].id)
    ensures ok <==> Clear(cl, path, |path| - |missing|, |path|)
    ensures ok ==> Building(cl, cl', c, path, |path| - |missing|, |path|, ids, created)
  {
    if cl.google {
      var prefix := path[..|path| - |missing|];
      var prefixId := if prefix == [] then cl.home else CloudFileIdByPath(t, prefix, c);
      cl', created := GoogleCreatePath(cl, c, path, missing, prefixId, ids);
      ok := true;
    } else {
      cl', created, ok := DropboxCreatePath(cl, c, path, missing, ids);
    }
  }

  /** One cloud does its part. */
  method CloudCreatePath(t: Tables, clouds: map<nat, Cloud>, c: nat, path: Path, missing: Path)
    returns (clouds': map<nat, Cloud>, created: seq<RecordDto>, ok: bool)
    requires |missing| <= |path| && missing == path[|path| - |missing|..]
    requires Apart(clouds) && c in clouds && Rooted(clouds[c].tree)
    requires PrefixKnown(t, clouds, c, path[..|path| - |missing|])
    ensures ok <==> Clear(clouds[c], path, |path| - |missing|, |path|)
    ensures ok ==> OnlyGrew(clouds, clouds', c, path)
    ensures ok ==> ReportsAll(clouds', created, c, path, |path| - |missing|)
  {
    var ids := ServerIds(clouds, |missing|);
    var cl;
    cl, created, ok := AskCloud(t, clouds[c], c, path, missing, ids);
    clouds' := clouds[c := cl];
    if ok {
      GrowthOfOne(clouds, c, cl, path, |path| - |missing|, ids, created);
    }
  }

  // ---- the links -------------------------------------------------------------------------------

  predicate KeyOf(e: RecordDto, k: (nat, nat)) {
    k == (e.globalId, e.cloud)
  }

  ghost predicate Wrote(es: seq<RecordDto>, k: (nat, nat), link: LinkRow) {
    exists i :: 0 <= i < |es| && KeyOf(es[i], k) && LinkOf(es[i]) == link
  }

  ghost predicate Writable(t: Tables, es: seq<RecordDto>) {
    forall i :: 0 <= i < |es| ==> es[i].globalId in t.files && es[i].cloud in t.clouds
  }

  lemma WroteMore(es: seq<RecordDto>, k: (nat, nat), link: LinkRow)
    requires es != [] && Wrote(es[..|es| - 1], k, link)
    ensures Wrote(es, k, link)
  {
    var i :| 0 <= i < |es| - 1 && KeyOf(es[..|es| - 1][i], k) && LinkOf(es[..|es| - 1][i]) == link;
    assert KeyOf(es[i], k);
  }

  /** Old links stay; every new link was written by some entry; every entry has its link. */
  lemma {:induction false} LinksAdded(t: Tables, es: seq<RecordDto>)
    requires Writable(t, es)
    ensures AddLinks(t, es) == t.(links := AddLinks(t, es).links)
    ensures forall k :: k in t.links ==> k in AddLinks(t, es).links && AddLinks(t, es).links[k] == t.links[k]
    ensures forall k :: k in AddLinks(t, es).links && k !in t.links ==> Wrote(es, k, AddLinks(t, es).links[k])
    ensures forall i :: 0 <= i < |es| ==> (es[i].globalId, es[i].cloud) in AddLinks(t, es).links
    decreases |es|
  {
    if es != [] {
      var front, e := es[..|es| - 1], es[|es| - 1];
      LinksAdded(t, front);
      var t1, t2 := AddLinks(t, front), AddLinks(t, es);
      forall k | k in t2.links && k !in t.links
        ensures Wrote(es, k, t2.links[k])
      {
        if k in t1.links {
          WroteMore(es, k, t1.links[k]);
        } else {
          assert KeyOf(es[|es| - 1], k);
        }
      }
      forall i | 0 <= i < |es|
        ensures (es[i].globalId, es[i].cloud) in t2.links
      {
        assert i < |es| - 1 ==> es[i] == front[i];
      }
    }
  }

  // ---- global ids of cloud entries -------------------------------------------------------------

  ghost predicate RowIdsTrue(t: Tables, m: map<Path, nat>) {
    forall p :: p in m ==> FindByPath(t, p) == Some(m[p])
  }

  ghost predicate AllRowed(t: Tables, es: seq<RecordDto>) {
    forall i :: 0 <= i < |es| ==> FindByPath(t, es[i].path).Some?
  }

  ghost predicate WithIds(t: Tables, created: seq<RecordDto>, es: seq<RecordDto>)
    requires AllRowed(t, created)
  {
    |es| == |created| && forall i :: 0 <= i < |es| ==> es[i] == created[i].(globalId := FindByPath(t, created[i].path).value)
  }

  ghost predicate ListedAll(es: seq<RecordDto>, c: nat, path: Path, keep: nat)
    requires keep <= |path|
  {
    forall k {:trigger Listed(es, c, path[..k])} :: keep < k <= |path| ==> Listed(es, c, path[..k])
  }

  /** The ids of the rows just written, and the database for the others. */
  method AssignGlobalIds(t: Tables, pathToGlobalId: map<Path, nat>, created: seq<RecordDto>)
    returns (entries: seq<RecordDto>)
    requires RowIdsTrue(t, pathToGlobalId)
    requires AllRowed(t, created)
    ensures WithIds(t, created, entries)
  {
    entries := [];
    var i := 0;
    while i < |created|
      invariant 0 <= i <= |created| && |entries| == i
      invariant forall k :: 0 <= k < i ==> entries[k] == created[k].(globalId := FindByPath(t, created[k].path).value)
    {
      var e := created[i];
      var g := if e.path in pathToGlobalId then pathToGlobalId[e.path] else FindByPath(t, e.path).value;
      entries := entries + [e.(globalId := g)];
      i := i + 1;
    }
  }

  method RowIds(t: Tables, written: seq<RecordDto>) returns (pathToGlobalId: map<Path, nat>)
    requires FoundAgain(t, written)
    ensures RowIdsTrue(t, pathToGlobalId)
  {
    pathToGlobalId := map[];
    var i := 0;
    while i < |written|
      invariant 0 <= i <= |written|
      invariant RowIdsTrue(t, pathToGlobalId)
    {
      pathToGlobalId := pathToGlobalId[written[i].path := written[i].globalId];
      i := i + 1;
    }
  }

  // ---- every cloud, in any order ---------------------------------------------------------------

  ghost predicate CloudsDone(clouds: map<nat, Cloud>, clouds': map<nat, Cloud>, seen: set<nat>, path: Path) {
    && clouds'.Keys == clouds.Keys
    && Apart(clouds')
    && (forall c :: c in clouds ==> Extends(clouds[c], clouds'[c], path) && Rooted(clouds'[c].tree))
    && (forall c :: c in clouds && c !in seen ==> clouds'[c] == clouds[c])
  }

  ghost predicate EntryTrue(t: Tables, clouds: map<nat, Cloud>, e: RecordDto, path: Path) {
    && e.cloud in clouds && e.path <= path && e.path != []
    && FindByPath(t, e.path) == Some(e.globalId)
    && EntryOf(e, e.cloud, clouds[e.cloud], e.path)
  }

  ghost predicate EntriesTrue(t: Tables, clouds: map<nat, Cloud>, es: seq<RecordDto>, path: Path) {
    forall i :: 0 <= i < |es| ==> EntryTrue(t, clouds, es[i], path)
  }

  ghost predicate Listed(es: seq<RecordDto>, c: nat, p: Path) {
    exists i :: 0 <= i < |es| && es[i].cloud == c && es[i].path == p
  }

  ghost predicate AllListed(es: seq<RecordDto>, seen: set<nat>, path: Path, keep: nat)
    requires keep <= |path|
  {
    forall c, k {:trigger Listed(es, c, path[..k])} :: c in seen && keep < k <= |path| ==> Listed(es, c, path[..k])
  }

  lemma EntriesStayTrue(
      t: Tables, clouds: map<nat, Cloud>, clouds': map<nat, Cloud>, es: seq<RecordDto>, path: Path, c: nat)
    requires EntriesTrue(t, clouds, es, path)
    requires c in clouds && c in clouds' && clouds' == clouds[c := clouds'[c]]
    requires Rooted(clouds[c].tree) && Rooted(clouds'[c].tree) && Extends(clouds[c], clouds'[c], path)
    ensures EntriesTrue(t, clouds', es, path)
  {
    forall i | 0 <= i < |es|
      ensures EntryTrue(t, clouds', es[i], path)
    {
      assert EntryTrue(t, clouds, es[i], path);
      if es[i].cloud == c {
        EntryStays(es[i], c, clouds[c], clouds'[c], es[i].path);
      }
    }
  }

  lemma NewEntriesTrue(
      t: Tables, clouds: map<nat, Cloud>, created: seq<RecordDto>, es: seq<RecordDto>, c: nat, path: Path, keep: nat)
    requires c in clouds && keep + |created| == |path|
    requires Reports(created, c, clouds[c], path, keep)
    requires AllRowed(t, created)
    requires WithIds(t, created, es)
    ensures EntriesTrue(t, clouds, es, path)
    ensures ListedAll(es, c, path, keep)
  {
    forall i | 0 <= i < |es|
      ensures EntryTrue(t, clouds, es[i], path)
    {
      assert EntryOf(created[i], c, clouds[c], path[..keep + i + 1]);
    }
    forall k | keep < k <= |path|
      ensures Listed(es, c, path[..k])
    {
      assert EntryOf(created[k - keep - 1], c, clouds[c], path[..keep + (k - keep - 1) + 1]);
      assert es[k - keep - 1].path == path[..k];
    }
  }

  lemma AllListedMore(a: seq<RecordDto>, b: seq<RecordDto>, seen: set<nat>, c: nat, path: Path, keep: nat)
    requires keep <= |path| && AllListed(a, seen, path, keep)
    requires ListedAll(b, c, path, keep)
    ensures AllListed(a + b, seen + {c}, path, keep)
  {
    forall d, k | d in seen + {c} && keep < k <= |path|
      ensures Listed(a + b, d, path[..k])
    {
      if d in seen {
        assert Listed(a, d, path[..k]);
        var i :| 0 <= i < |a| && a[i].cloud == d && a[i].path == path[..k];
        assert (a + b)[i] == a[i];
      } else {
        assert Listed(b, c, path[..k]);
        var i :| 0 <= i < |b| && b[i].cloud == c && b[i].path == path[..k];
        assert (a + b)[|a| + i] == b[i];
      }
    }
  }

  lemma CloudsDoneMore(clouds0: map<nat, Cloud>, clouds: map<nat, Cloud>, clouds': map<nat, Cloud>, seen: set<nat>, c: nat, path: Path)
    requires CloudsDone(clouds0, clouds, seen, path) && c in clouds0 && c !in seen
    requires c in clouds' && clouds' == clouds[c := clouds'[c]] && Apart(clouds')
    requires Extends(clouds[c], clouds'[c], path) && Rooted(clouds'[c].tree)
    ensures CloudsDone(clouds0, clouds', seen + {c}, path)
  {
  }

  /** The clouds in `seen` have done their part, and `entries` says so. */
  ghost predicate Progress(
      t: Tables, clouds0: map<nat, Cloud>, clouds: map<nat, Cloud>, seen: set<nat>, path: Path, keep: nat, entries: seq<RecordDto>)
    requires keep <= |path|
  {
    CloudsDone(clouds0, clouds, seen, path) && EntriesTrue(t, clouds, entries, path) && AllListed(entries, seen, path, keep)
  }

  /** The existing prefix is known under the id the cloud has for it. */
  ghost predicate PrefixKnown(t: Tables, clouds: map<nat, Cloud>, c: nat, prefix: Path)
    requires c in clouds
  {
    prefix == [] || (prefix in clouds[c].tree && CloudFileIdByPath(t, prefix, c) == clouds[c].tree[prefix].id)
  }

  ghost predicate RowsKnown(t: Tables, path: Path, keep: nat)
    requires keep <= |path|
  {
    forall k {:trigger FindByPath(t, path[..k])} :: keep < k <= |path| ==> FindByPath(t, path[..k]).Some?
  }

  lemma ReportsKnown(t: Tables, created: seq<RecordDto>, c: nat, cl: Cloud, path: Path, keep: nat)
    requires keep <= |path| && RowsKnown(t, path, keep) && Reports(created, c, cl, path, keep)
    ensures AllRowed(t, created)
  {
    forall i | 0 <= i < |created|
      ensures FindByPath(t, created[i].path).Some?
    {
      assert EntryOf(created[i], c, cl, path[..keep + i + 1]);
    }
  }

  lemma OneCloudMore(
      t: Tables, clouds0: map<nat, Cloud>, clouds: map<nat, Cloud>, clouds': map<nat, Cloud>, seen: set<nat>, c: nat,
      path: Path, keep: nat, entries: seq<RecordDto>, es: seq<RecordDto>)
    requires keep <= |path|
    requires Progress(t, clouds0, clouds, seen, path, keep, entries) && c in clouds0 && c !in seen
    requires c in clouds' && clouds' == clouds[c := clouds'[c]] && Apart(clouds')
    requires Extends(clouds[c], clouds'[c], path) && Rooted(clouds'[c].tree)
    requires EntriesTrue(t, clouds', es, path)
    requires ListedAll(es, c, path, keep)
    ensures Progress(t, clouds0, clouds', seen + {c}, path, keep, entries + es)
  {
    CloudsDoneMore(clouds0, clouds, clouds', seen, c, path);
    EntriesStayTrue(t, clouds, clouds', entries, path, c);
    AllListedMore(entries, es, seen, c, path, keep);
    BothTrue(t, clouds', entries, es, path);
  }

  lemma BothTrue(t: Tables, clouds: map<nat, Cloud>, a: seq<RecordDto>, b: seq<RecordDto>, path: Path)
    requires EntriesTrue(t, clouds, a, path) && EntriesTrue(t, clouds, b, path)
    ensures EntriesTrue(t, clouds, a + b, path)
  {
  }

  /** What the clouds need to know: the missing suffix, the folder it hangs under, and the rows of its folders. */
  ghost predicate Inputs(t: Tables, clouds: map<nat, Cloud>, path: Path, missing: Path, pathToGlobalId: map<Path, nat>) {
    && |missing| <= |path| && missing == path[|path| - |missing|..]
    && (forall c :: c in clouds ==> PrefixKnown(t, clouds, c, path[..|path| - |missing|]))
    && RowIdsTrue(t, pathToGlobalId)
    && RowsKnown(t, path, |path| - |missing|)
  }

  /** A cloud whose turn has not come is as it was. */
  lemma Untouched(
      t: Tables, clouds0: map<nat, Cloud>, clouds: map<nat, Cloud>, seen: set<nat>, path: Path, missing: Path,
      pathToGlobalId: map<Path, nat>, entries: seq<RecordDto>, c: nat)
    requires Inputs(t, clouds0, path, missing, pathToGlobalId)
    requires Progress(t, clouds0, clouds, seen, path, |path| - |missing|, entries) && c in clouds0 && c !in seen
    ensures Apart(clouds) && c in clouds && clouds[c] == clouds0[c] && Rooted(clouds[c].tree)
    ensures PrefixKnown(t, clouds, c, path[..|path| - |missing|])
  {
    assert clouds[c] == clouds0[c];
    assert PrefixKnown(t, clouds0, c, path[..|path| - |missing|]);
  }

  ghost predicate AllRooted(clouds: map<nat, Cloud>) {
    forall c :: c in clouds ==> Rooted(clouds[c].tree)
  }

  lemma NoneDone(t: Tables, clouds: map<nat, Cloud>, path: Path, keep: nat)
    requires keep <= |path| && Apart(clouds) && AllRooted(clouds)
    ensures Progress(t, clouds, clouds, {}, path, keep, [])
  {
  }

  /** No cloud has a file where a folder of the path is to be created. */
  ghost predicate AllClear(clouds: map<nat, Cloud>, path: Path, lo: nat) {
    forall c :: c in clouds ==> Clear(clouds[c], path, lo, |path|)
  }

  method CloudsCreatePath(t: Tables, clouds: map<nat, Cloud>, path: Path, missing: Path, pathToGlobalId: map<Path, nat>)
    returns (clouds': map<nat, Cloud>, entries: seq<RecordDto>, ok: bool)
    requires Inputs(t, clouds, path, missing, pathToGlobalId)
    requires Apart(clouds) && AllRooted(clouds)
    ensures ok <==> AllClear(clouds, path, |path| - |missing|)
    ensures ok ==> Progress(t, clouds, clouds', clouds.Keys, path, |path| - |missing|, entries)
  {
    clouds', entries, ok := clouds, [], true;
    NoneDone(t, clouds, path, |path| - |missing|);
    NoneLeft(clouds.Keys);
    var rest := clouds.Keys;
    while rest != {} && ok
      invariant rest <= clouds.Keys
      invariant ok ==> Progress(t, clouds, clouds', clouds.Keys - rest, path, |path| - |missing|, entries)
      invariant ok ==> forall c :: c in clouds.Keys - rest ==> Clear(clouds[c], path, |path| - |missing|, |path|)
      invariant !ok ==> !AllClear(clouds, path, |path| - |missing|)
      decreases |rest|
    {
      var c :| c in rest;
      clouds', entries, ok := OneCloud(t, clouds, clouds', clouds.Keys - rest, c, path, missing, pathToGlobalId, entries);
      OneLess(clouds.Keys, rest, c);
      rest := rest - {c};
    }
    NoneLeft(clouds.Keys);
  }

  method OneCloud(
      t: Tables, ghost clouds0: map<nat, Cloud>, clouds: map<nat, Cloud>, ghost seen: set<nat>, c: nat,
      path: Path, missing: Path, pathToGlobalId: map<Path, nat>, entries: seq<RecordDto>)
    returns (clouds': map<nat, Cloud>, entries': seq<RecordDto>, ok: bool)
    requires Inputs(t, clouds0, path, missing, pathToGlobalId)
    requires Progress(t, clouds0, clouds, seen, path, |path| - |missing|, entries) && c in clouds0 && c !in seen
    ensures ok <==> Clear(clouds0[c], path, |path| - |missing|, |path|)
    ensures ok ==> Progress(t, clouds0, clouds', seen + {c}, path, |path| - |missing|, entries')
  {
    Untouched(t, clouds0, clouds, seen, path, missing, pathToGlobalId, entries, c);
    var es;
    clouds', es, ok := CloudEntries(t, clouds, c, path, missing, pathToGlobalId);
    entries' := entries + es;
    if ok {
      OneCloudMore(t, clouds0, clouds, clouds', seen, c, path, |path| - |missing|, entries, es);
    }
  }

  /** The part of one cloud, with its entries already carrying the global ids of their rows. */
  method CloudEntries(
      t: Tables, clouds: map<nat, Cloud>, c: nat, path: Path, missing: Path, pathToGlobalId: map<Path, nat>)
    returns (clouds': map<nat, Cloud>, es: seq<RecordDto>, ok: bool)
    requires |missing| <= |path| && missing == path[|path| - |missing|..]
    requires Apart(clouds) && c in clouds && Rooted(clouds[c].tree)
    requires PrefixKnown(t, clouds, c, path[..|path| - |missing|])
    requires RowIdsTrue(t, pathToGlobalId)
    requires RowsKnown(t, path, |path| - |missing|)
    ensures ok <==> Clear(clouds[c], path, |path| - |missing|, |path|)
    ensures ok ==> OnlyGrew(clouds, clouds', c, path)
    ensures ok ==> EntriesTrue(t, clouds', es, path) && ListedAll(es, c, path, |path| - |missing|)
  {
    var created;
    es := [];
    clouds', created, ok := CloudCreatePath(t, clouds, c, path, missing);
    if ok {
      es := NumberEntries(t, clouds', c, path, |path| - |missing|, pathToGlobalId, created);
    }
  }

  method NumberEntries(
      t: Tables, ghost clouds: map<nat, Cloud>, ghost c: nat, ghost path: Path, ghost keep: nat,
      pathToGlobalId: map<Path, nat>, created: seq<RecordDto>)
    returns (es: seq<RecordDto>)
    requires keep <= |path| && ReportsAll(clouds, created, c, path, keep)
    requires RowIdsTrue(t, pathToGlobalId) && RowsKnown(t, path, keep)
    ensures EntriesTrue(t, clouds, es, path) && ListedAll(es, c, path, keep)
  {
    ReportsKnown(t, created, c, clouds[c], path, keep);
    es := AssignGlobalIds(t, pathToGlobalId, created);
    NewEntriesTrue(t, clouds, created, es, c, path, keep);
  }

  // ---- the whole step --------------------------------------------------------------------------

  ghost predicate FolderPath(l: Layout, path: Path) {
    forall k {:trigger path[..k]} :: 0 < k <= |path| ==> path[..k] in l.folders
  }

  ghost predicate GrownTables(t: Tables, t': Tables, path: Path) {
    && t'.clouds == t.clouds && t'.lastCloud == t.lastCloud
    && (forall g :: g in t.files ==> g in t'.files && t'.files[g] == t.files[g])
    && (forall k :: k in t.links ==> k in t'.links && t'.links[k] == t.links[k])
    && (forall k :: k in t'.links && k !in t.links ==>
          k.0 in t'.files && t'.files[k.0].path <= path && t'.files[k.0].path != [])
  }

  ghost predicate ExtendsDisk(disk: map<Path, Node>, disk': map<Path, Node>, path: Path) {
    && (forall p :: p in disk ==> p in disk' && disk'[p] == disk[p])
    && (forall p :: p in disk' && p !in disk ==> p <= path && p != [] && disk'[p].folder)
  }

  ghost predicate ExtendsClouds(clouds: map<nat, Cloud>, clouds': map<nat, Cloud>, path: Path) {
    clouds'.Keys == clouds.Keys && forall c :: c in clouds ==> Extends(clouds[c], clouds'[c], path)
  }

  /** Every replica gained prefixes of `path` as folders; rows and links were only added, and only for those. */
  ghost predicate Grown(w: World, w': World, path: Path) {
    ExtendsDisk(w.disk, w'.disk, path) && ExtendsClouds(w.clouds, w'.clouds, path) && GrownTables(w.t, w'.t, path)
  }

  lemma TreesRooted(l: Layout, w: World)
    requires WorldOk(l, w)
    ensures AllRooted(w.clouds)
  {
    forall c | c in w.clouds
      ensures Rooted(w.clouds[c].tree)
    {
      assert TreeOk(l, w.clouds[c].tree);
      assert !KindFits(l, [], true) && !KindFits(l, [], false);
    }
  }

  /** A path linked everywhere has its directory on disk and its folder, under the linked id, in each cloud. */
  lemma LinkedIsThere(l: Layout, w: World, p: Path, c: nat)
    requires WorldOk(l, w) && Linked(w.t, p, c)
    ensures p in w.disk && c in w.clouds && p in w.clouds[c].tree
    ensures CloudFileIdByPath(w.t, p, c) == w.clouds[c].tree[p].id
  {
    var k := (FindByPath(w.t, p).value, c);
    assert k in w.t.links;
    assert LinkTrue(w, k);
  }

  lemma FindStays(t: Tables, t': Tables, p: Path)
    requires FindByPath(t, p).Some? && UniquePaths(t') && Integrity(t')
    requires forall g :: g in t.files ==> g in t'.files && t'.files[g] == t.files[g]
    ensures FindByPath(t', p) == FindByPath(t, p)
  {
    var g := FindByPath(t, p).value;
    assert g in t'.files && g <= t'.lastId && t'.files[g].path == p;
  }

  lemma GrownDiskOk(l: Layout, disk: map<Path, Node>, disk': map<Path, Node>, path: Path, lo: nat)
    requires DiskOk(l, disk) && lo <= |path| && GrownDisk(disk, disk', path, lo, |path|) && FolderPath(l, path)
    requires lo == 0 || path[..lo] in disk
    ensures DiskOk(l, disk')
  {
    forall p | p in disk'
      ensures KindFits(l, p, disk'[p].folder)
      ensures |p| > 1 ==> Parent(p) in disk'
    {
      if p in disk {
        assert |p| > 1 ==> Parent(p) in disk;
      } else {
        assert Between(p, path, lo, |path|) && p == path[..|p|];
        assert Parent(p) == path[..|p| - 1];
        if |p| - 1 > lo {
          assert Between(Parent(p), path, lo, |path|);
        }
      }
    }
  }

  lemma RowsStep(l: Layout, w: World, path: Path, missing: Path, disk': map<Path, Node>, created: seq<RecordDto>)
    requires WorldOk(l, w) && IsMissingPart(w.t, path, missing) && FolderPath(l, path)
    requires GrownDisk(w.disk, disk', path, |path| - |missing|, |path|) && Describes(created, w.disk, disk')
    ensures WorldOk(l, World(disk', w.clouds, AddRows(w.t, created)))
  {
    var lo := |path| - |missing|;
    if lo > 0 {
      assert LinkedEverywhere(w.t, path[..lo]);
    }
    GrownDiskOk(l, w.disk, disk', path, lo);
    RowsAdded(w.t, created);
    RowsIndex(w.t, created, w.disk, disk');
    NewRowsTrue(w.t, created, w.disk, disk');
    var w1 := World(disk', w.clouds, AddRows(w.t, created));
    forall k | k in w1.t.links
      ensures LinkTrue(w1, k)
    {
      assert LinkTrue(w, k);
    }
  }

  lemma WrittenId(t: Tables, t1: Tables, created: seq<RecordDto>, i: nat)
    requires Integrity(t) && t1 == AddRows(t, created) && UniquePaths(t1) && i < |created|
    ensures FindByPath(t1, created[i].path) == Some(t.lastId + 1 + i)
  {
    RowsAdded(t, created);
    var g := t.lastId + 1 + i;
    assert t1.files[g] == RowOf(created[i]);
    assert g in t1.files && t1.files[g].path == created[i].path;
  }

  ghost predicate Numbered(t: Tables, created: seq<RecordDto>, written: seq<RecordDto>) {
    |written| == |created| && forall i :: 0 <= i < |created| ==> written[i] == created[i].(globalId := t.lastId + 1 + i)
  }

  ghost predicate FoundAgain(t: Tables, written: seq<RecordDto>) {
    forall i :: 0 <= i < |written| ==> FindByPath(t, written[i].path) == Some(written[i].globalId)
  }

  lemma WrittenIds(t: Tables, t1: Tables, created: seq<RecordDto>, written: seq<RecordDto>)
    requires Integrity(t) && t1 == AddRows(t, created) && UniquePaths(t1) && Numbered(t, created, written)
    ensures FoundAgain(t1, written)
  {
    forall i | 0 <= i < |written|
      ensures FindByPath(t1, written[i].path) == Some(written[i].globalId)
    {
      WrittenId(t, t1, created, i);
    }
  }

  /** The rows written meanwhile do not hide the prefix that was linked before. */
  lemma InputsHold(l: Layout, w: World, w1: World, path: Path, missing: Path, m: map<Path, nat>)
    requires WorldOk(l, w) && WorldOk(l, w1) && IsMissingPart(w.t, path, missing) && w1.clouds == w.clouds
    requires w1.t.links == w.t.links && forall g :: g in w.t.files ==> g in w1.t.files && w1.t.files[g] == w.t.files[g]
    requires OnDisk(w1.disk, path, |path| - |missing|)
    requires RowIdsTrue(w1.t, m)
    ensures Inputs(w1.t, w1.clouds, path, missing, m)
  {
    var lo := |path| - |missing|;
    forall c | c in w1.clouds
      ensures PrefixKnown(w1.t, w1.clouds, c, path[..lo])
    {
      if lo > 0 {
        assert LinkedEverywhere(w.t, path[..lo]);
        FindStays(w.t, w1.t, path[..lo]);
        LinkedIsThere(l, w1, path[..lo], c);
      }
    }
  }

  /** Folders and their links, seen from one link. */
  lemma LinkGrown(w: World, clouds': map<nat, Cloud>, t': Tables, es: seq<RecordDto>, path: Path, k: (nat, nat))
    requires LinksTrue(w) && ExtendsClouds(w.clouds, clouds', path) && t' == AddLinks(w.t, es)
    requires AllRooted(w.clouds) && AllRooted(clouds')
    requires Writable(w.t, es) && EntriesTrue(w.t, clouds', es, path) && k in t'.links
    ensures LinkTrue(World(w.disk, clouds', t'), k)
    ensures k !in w.t.links ==> k.0 in w.t.files && w.t.files[k.0].path <= path && w.t.files[k.0].path != []
  {
    LinksAdded(w.t, es);
    if k in w.t.links {
      assert LinkTrue(w, k);
      assert Extends(w.clouds[k.1], clouds'[k.1], path);
      FolderIdStays(w.clouds[k.1], clouds'[k.1], w.t.files[k.0].path);
    } else {
      var i :| 0 <= i < |es| && KeyOf(es[i], k) && LinkOf(es[i]) == t'.links[k];
      assert EntryTrue(w.t, clouds', es[i], path);
    }
  }

  lemma EntriesWritable(l: Layout, w: World, clouds': map<nat, Cloud>, es: seq<RecordDto>, path: Path)
    requires WorldOk(l, w) && clouds'.Keys == w.clouds.Keys && EntriesTrue(w.t, clouds', es, path)
    ensures Writable(w.t, es)
    ensures forall i :: 0 <= i < |es| ==> (es[i].cloud == 0) == false
  {
    forall i | 0 <= i < |es|
      ensures es[i].globalId in w.t.files && es[i].cloud in w.t.clouds && es[i].cloud != 0
    {
      assert EntryTrue(w.t, clouds', es[i], path);
    }
  }

  lemma TreeGrownOk(l: Layout, cl: Cloud, cl': Cloud, path: Path)
    requires TreeOk(l, cl.tree) && Extends(cl, cl', path) && Rooted(cl'.tree) && FolderPath(l, path)
    ensures TreeOk(l, cl'.tree)
  {
    forall p | p in cl'.tree
      ensures KindFits(l, p, cl'.tree[p].folder)
    {
      if p !in cl.tree {
        assert p == path[..|p|];
      }
    }
  }

  lemma CloudsStep(l: Layout, w: World, clouds': map<nat, Cloud>, es: seq<RecordDto>, path: Path, keep: nat)
    requires WorldOk(l, w) && FolderPath(l, path) && keep <= |path|
    requires Progress(w.t, w.clouds, clouds', w.clouds.Keys, path, keep, es)
    ensures WorldOk(l, World(w.disk, clouds', AddLinks(w.t, es)))
    ensures GrownTables(w.t, AddLinks(w.t, es), path)
  {
    var w' := World(w.disk, clouds', AddLinks(w.t, es));
    EntriesWritable(l, w, clouds', es, path);
    LinksAdded(w.t, es);
    TreesRooted(l, w);
    forall c | c in clouds'
      ensures TreeOk(l, clouds'[c].tree)
    {
      TreeGrownOk(l, w.clouds[c], clouds'[c], path);
    }
    forall k | k in w'.t.links
      ensures LinkTrue(w', k) && (k !in w.t.links ==> w.t.files[k.0].path <= path && w.t.files[k.0].path != [])
    {
      LinkGrown(w, clouds', w'.t, es, path, k);
    }
    assert Integrity(w'.t);
    SameRowsIndexed(w.t, w'.t, w.disk);
  }

  lemma SameRowsIndexed(t: Tables, t': Tables, disk: map<Path, Node>)
    requires Indexed(t, disk) && t'.files == t.files && t'.lastId == t.lastId && Integrity(t')
    ensures Indexed(t', disk)
  {
    forall p | p in disk
      ensures FindByPath(t', p).Some?
    {
      var g := FindByPath(t, p).value;
      assert g in t'.files && g <= t'.lastId;
    }
  }

  lemma EntryLinks(t: Tables, clouds': map<nat, Cloud>, es: seq<RecordDto>, path: Path, c: nat, p: Path)
    requires EntriesTrue(t, clouds', es, path) && Writable(t, es) && Listed(es, c, p)
    requires UniquePaths(AddLinks(t, es)) && Integrity(AddLinks(t, es))
    ensures Linked(AddLinks(t, es), p, c)
  {
    var i :| 0 <= i < |es| && es[i].cloud == c && es[i].path == p;
    assert EntryTrue(t, clouds', es[i], path);
    LinksAdded(t, es);
    FindStays(t, AddLinks(t, es), p);
  }

  lemma LinkedStays(t: Tables, t': Tables, path: Path, p: Path)
    requires GrownTables(t, t', path) && UniquePaths(t') && Integrity(t') && LinkedEverywhere(t, p)
    ensures LinkedEverywhere(t', p)
  {
    FindStays(t, t', p);
  }

  lemma OldPrefixLinked(t: Tables, t1: Tables, t': Tables, path: Path, missing: Path, k: nat)
    requires IsMissingPart(t, path, missing) && GrownTables(t, t1, path) && GrownTables(t1, t', path)
    requires UniquePaths(t1) && Integrity(t1) && UniquePaths(t') && Integrity(t')
    requires 0 < k <= |path| - |missing|
    ensures LinkedEverywhere(t', path[..k])
  {
    assert LinkedEverywhere(t, path[..k]);
    LinkedStays(t, t1, path, path[..k]);
    LinkedStays(t1, t', path, path[..k]);
  }

  ghost predicate PrefixesLinked(t: Tables, path: Path) {
    forall k :: 0 < k <= |path| ==> LinkedEverywhere(t, path[..k])
  }

  /** Every prefix is now linked everywhere: the old ones still are, the others were written. */
  lemma NothingLeft(t: Tables, w1: World, w': World, path: Path, missing: Path, es: seq<RecordDto>)
    requires IsMissingPart(t, path, missing) && GrownTables(t, w1.t, path) && GrownTables(w1.t, w'.t, path)
    requires UniquePaths(w1.t) && Integrity(w1.t) && UniquePaths(w'.t) && Integrity(w'.t)
    requires Progress(w1.t, w1.clouds, w'.clouds, w1.clouds.Keys, path, |path| - |missing|, es)
    requires w'.t == AddLinks(w1.t, es) && Writable(w1.t, es) && w'.t.clouds == w1.clouds.Keys
    requires RowsKnown(w1.t, path, |path| - |missing|)
    ensures PrefixesLinked(w'.t, path)
  {
    forall k | 0 < k <= |path|
      ensures LinkedEverywhere(w'.t, path[..k])
    {
      if k <= |path| - |missing| {
        OldPrefixLinked(t, w1.t, w'.t, path, missing, k);
      } else {
        LinkedNow(w1, w', path, |path| - |missing|, es, k);
      }
    }
  }

  lemma LinkedNow(w1: World, w': World, path: Path, keep: nat, es: seq<RecordDto>, k: nat)
    requires keep < k <= |path| && w'.t == AddLinks(w1.t, es) && Writable(w1.t, es)
    requires Progress(w1.t, w1.clouds, w'.clouds, w1.clouds.Keys, path, keep, es)
    requires UniquePaths(w'.t) && Integrity(w'.t) && w'.t.clouds == w1.clouds.Keys
    requires FindByPath(w1.t, path[..k]).Some? && forall g :: g in w1.t.files ==> g in w'.t.files && w'.t.files[g] == w1.t.files[g]
    ensures LinkedEverywhere(w'.t, path[..k])
  {
    FindStays(w1.t, w'.t, path[..k]);
    forall c | c in w1.clouds
      ensures Linked(w'.t, path[..k], c)
    {
      assert Listed(es, c, path[..k]);
      EntryLinks(w1.t, w'.clouds, es, path, c, path[..k]);
    }
  }

  /** What is linked everywhere stands in every cloud: only the missing part can have a file in its way. */
  lemma OnlyMissingInTheWay(l: Layout, w: World, path: Path, missing: Path)
    requires WorldOk(l, w) && IsMissingPart(w.t, path, missing)
    ensures AllClear(w.clouds, path, |path| - |missing|) <==> AllClear(w.clouds, path, 0)
  {
    forall c | c in w.clouds
      ensures Clear(w.clouds[c], path, |path| - |missing|, |path|) <==> Clear(w.clouds[c], path, 0, |path|)
    {
      forall k {:trigger path[..k]} | 0 < k <= |path| - |missing|
        ensures path[..k] in w.clouds[c].tree
      {
        assert LinkedEverywhere(w.t, path[..k]);
        LinkedIsThere(l, w, path[..k], c);
      }
    }
  }

  /**
   The rows for the directories, the folders of every cloud, and the links; nothing of the path is missing then.
   It throws, and `ok` is false, exactly if a file stands where some cloud is to create a folder.
   */
  method CreatePath(ghost l: Layout, w: World, path: Path, missing: Path) returns (w': World, ok: bool)
    requires WorldOk(l, w) && FolderPath(l, path) && IsMissingPart(w.t, path, missing)
    ensures ok <==> AllClear(w.clouds, path, 0)
    ensures ok ==> WorldOk(l, w') && Grown(w, w', path)
    ensures ok ==> PrefixesLinked(w'.t, path) && MissingPart(w'.t, path, |w'.clouds|) == []
  {
    OnlyMissingInTheWay(l, w, path, missing);
    var disk, created := LocalCreatePath(w.disk, path, missing);
    RowsStep(l, w, path, missing, disk, created);
    var t1, written := WriteRows(w.t, created);
    var w1 := World(disk, w.clouds, t1);
    var ids := RowIds(t1, written);
    LocalStepGrows(l, w, w1, path, missing, created, ids);
    var clouds, entries;
    clouds, entries, ok := CloudsCreatePath(t1, w.clouds, path, missing, ids);
    w' := w;
    if ok {
      CloudsStep(l, w1, clouds, entries, path, |path| - |missing|);
      EntriesWritable(l, w1, clouds, entries, path);
      var t2, _ := SyncDbWrite(t1, entries, false);
      w' := World(disk, clouds, t2);
      NothingLeft(w.t, w1, w', path, missing, entries);
      NothingMissing(t2, path);
      SameSize(w'.clouds);
    }
  }

  lemma SameSize(clouds: map<nat, Cloud>)
    ensures |clouds| == |clouds.Keys|
  {
  }

  method WriteRows(t: Tables, created: seq<RecordDto>) returns (t1: Tables, written: seq<RecordDto>)
    requires Integrity(t) && UniquePaths(AddRows(t, created))
    requires forall i :: 0 <= i < |created| ==> (created[i].cloud == 0) == true
    ensures t1 == AddRows(t, created) && FoundAgain(t1, written)
  {
    t1, written := SyncDbWrite(t, created, true);
    WrittenIds(t, t1, created, written);
  }

  lemma RowsGrow(t: Tables, created: seq<RecordDto>, path: Path)
    requires Integrity(t)
    ensures GrownTables(t, AddRows(t, created), path) && AddRows(t, created).links == t.links
  {
    RowsAdded(t, created);
    AddRowsKeepsClouds(t, created);
  }

  lemma {:induction false} AddRowsKeepsClouds(t: Tables, es: seq<RecordDto>)
    ensures AddRows(t, es).lastCloud == t.lastCloud
    decreases |es|
  {
    if es != [] {
      AddRowsKeepsClouds(t, es[..|es| - 1]);
    }
  }

  lemma DirectoriesGrow(disk: map<Path, Node>, disk': map<Path, Node>, path: Path, lo: nat)
    requires lo <= |path| && GrownDisk(disk, disk', path, lo, |path|)
    ensures ExtendsDisk(disk, disk', path) && OnDisk(disk', path, lo)
  {
    forall k | lo < k <= |path|
      ensures path[..k] in disk'
    {
      assert Between(path[..k], path, lo, |path|);
    }
  }

  ghost predicate OnDisk(disk: map<Path, Node>, path: Path, lo: nat) {
    forall k {:trigger path[..k]} :: lo < k <= |path| ==> path[..k] in disk
  }

  lemma LocalStepGrows(l: Layout, w: World, w1: World, path: Path, missing: Path, created: seq<RecordDto>, ids: map<Path, nat>)
    requires WorldOk(l, w) && WorldOk(l, w1) && IsMissingPart(w.t, path, missing)
    requires w1.clouds == w.clouds && w1.t == AddRows(w.t, created) && RowIdsTrue(w1.t, ids)
    requires GrownDisk(w.disk, w1.disk, path, |path| - |missing|, |path|)
    ensures Inputs(w1.t, w.clouds, path, missing, ids)
    ensures GrownTables(w.t, w1.t, path) && ExtendsDisk(w.disk, w1.disk, path)
    ensures AllRooted(w.clouds) && RowsKnown(w1.t, path, |path| - |missing|)
  {
    RowsGrow(w.t, created, path);
    DirectoriesGrow(w.disk, w1.disk, path, |path| - |missing|);
    TreesRooted(l, w);
    InputsHold(l, w, w1, path, missing, ids);
  }
}
