/** Which part of a directory path is not yet known to every replica, and what that says about parents. */
module PathIndex {
  import opened Common
  import opened Schema

  /** The test the program makes: the first row at `path` has exactly `n` link rows. */
  predicate HasLinkCount(t: Tables, path: Path, n: nat) {
    var g := FindByPath(t, path);
    g.Some? && |LinkRows(t, g.value)| == n
  }

  /** The rest of `path` from the first prefix (longer than `k`) that fails the count test. */
  function MissingFrom(t: Tables, path: Path, n: nat, k: nat): Path
    requires k <= |path|
    decreases |path| - k
  {
    if k == |path| then []
    else if HasLinkCount(t, path[..k + 1], n) then MissingFrom(t, path, n, k + 1)
    else path[k..]
  }

  function MissingPart(t: Tables, path: Path, n: nat): Path {
    MissingFrom(t, path, n, 0)
  }

  // ---- pigeonhole: equally many links as clouds means a link in each cloud -----------------------

  function LinkedClouds(rows: set<(nat, nat)>): set<nat> {
    set k | k in rows :: k.1
  }

  lemma {:induction false} DistinctClouds(rows: set<(nat, nat)>, g: nat)
    requires forall k :: k in rows ==> k.0 == g
    ensures |LinkedClouds(rows)| == |rows|
    decreases |rows|
  {
    if rows != {} {
      var k :| k in rows;
      DistinctClouds(rows - {k}, g);
      assert LinkedClouds(rows) == LinkedClouds(rows - {k}) + {k.1};
    }
  }

  lemma SubsetOfSameSize<T>(a: set<T>, b: set<T>)
    requires a <= b && |a| == |b|
    ensures a == b
  {
    assert |b - a| == |b| - |a|;
    assert b == a + (b - a);
  }

  /** The count test is exactly "linked in every cloud", in both directions. */
  lemma CountMeansEveryCloud(t: Tables, path: Path)
    requires Integrity(t)
    ensures HasLinkCount(t, path, |t.clouds|) <==> LinkedEverywhere(t, path)
  {
    var r := FindByPath(t, path);
    if r.Some? {
      var rows := LinkRows(t, r.value);
      DistinctClouds(rows, r.value);
      assert LinkedClouds(rows) <= t.clouds;
      if |rows| == |t.clouds| {
        SubsetOfSameSize(LinkedClouds(rows), t.clouds);
        forall c | c in t.clouds ensures (r.value, c) in t.links {
          var k :| k in rows && k.1 == c;
          assert k == (r.value, c);
        }
      }
      if LinkedEverywhere(t, path) {
        forall c | c in t.clouds ensures c in LinkedClouds(rows) {
          assert (r.value, c) in rows;
        }
        assert LinkedClouds(rows) == t.clouds;
      }
    }
  }

  // ---- what the missing part means -------------------------------------------------------------

  /** `missing` is the suffix of `path` from the first prefix that some replica does not know. */
  ghost predicate IsMissingPart(t: Tables, path: Path, missing: Path) {
    && |missing| <= |path|
    && missing == path[|path| - |missing|..]
    && (forall j :: 0 < j <= |path| - |missing| ==> LinkedEverywhere(t, path[..j]))
    && (missing != [] ==> !LinkedEverywhere(t, path[..|path| - |missing| + 1]))
  }

  lemma {:induction false} MissingFromMeaning(t: Tables, path: Path, k: nat)
    requires Integrity(t) && k <= |path|
    requires forall j :: 0 < j <= k ==> LinkedEverywhere(t, path[..j])
    ensures IsMissingPart(t, path, MissingFrom(t, path, |t.clouds|, k))
    decreases |path| - k
  {
    if k < |path| {
      CountMeansEveryCloud(t, path[..k + 1]);
      if HasLinkCount(t, path[..k + 1], |t.clouds|) {
        MissingFromMeaning(t, path, k + 1);
      }
    }
  }

  /** The computed part is the only one that fits: the characterisation is exact. */
  lemma MissingPartExact(t: Tables, path: Path, missing: Path)
    requires Integrity(t)
    ensures MissingPart(t, path, |t.clouds|) == missing <==> IsMissingPart(t, path, missing)
  {
    MissingFromMeaning(t, path, 0);
    var m := MissingPart(t, path, |t.clouds|);
    if IsMissingPart(t, path, missing) {
      var known, known' := |path| - |m|, |path| - |missing|;
      if m != [] {
        assert !LinkedEverywhere(t, path[..known + 1]);
        assert known' < known + 1;
      }
      if missing != [] {
        assert !LinkedEverywhere(t, path[..known' + 1]);
        assert known < known' + 1;
      }
    }
  }

  lemma NothingMissing(t: Tables, path: Path)
    requires Integrity(t)
    ensures MissingPart(t, path, |t.clouds|) == []
            <==> forall j :: 0 < j <= |path| ==> LinkedEverywhere(t, path[..j])
  {
    MissingPartExact(t, path, []);
    assert path[|path|..] == [];
  }

  // ---- parents of uploads ----------------------------------------------------------------------

  ghost predicate NonEmptyIds(t: Tables) {
    forall k :: k in t.links ==> t.links[k].cloudFileId != ""
  }

  /**
   A New change starts only once the missing part of its parent is empty. From then on every cloud
   resolves the parent to a non-empty folder id, unless the parent is the root itself.
   */
  lemma ParentResolves(t: Tables, path: Path, c: nat)
    requires Integrity(t) && NonEmptyIds(t) && c in t.clouds
    requires MissingPart(t, Parent(path), |t.clouds|) == []
    ensures CloudFileIdByPath(t, Parent(path), c) != "" || Parent(path) == []
  {
    NothingMissing(t, Parent(path));
    if Parent(path) != [] {
      assert Parent(path)[..|Parent(path)|] == Parent(path);
    }
  }

  /** Statements other than a deletion, a move of a row or a move of a link keep that resolution. */
  predicate KeepsFolders(op: Op) {
    !op.OpDelete? && !op.OpFilePlace? && !op.OpLinkPlace? && !op.OpAddCloud?
  }

  lemma FirstRowStays(t: Tables, path: Path, op: Op)
    requires KeepsFolders(op) && FindByPath(t, path).Some? && Integrity(t)
    ensures FindByPath(Apply(t, op), path) == FindByPath(t, path)
  {
    var g, t' := FindByPath(t, path).value, Apply(t, op);
    assert g in t'.files && t'.files[g].path == path;
    var r := FindByPath(t', path);
    assert g <= t'.lastId;
    assert r.Some? && r.value <= g;
    assert r.value in t.files ==> g <= r.value;
  }

  lemma LinkStays(t: Tables, k: (nat, nat), op: Op)
    requires KeepsFolders(op) && k in t.links
    ensures k in Apply(t, op).links && Apply(t, op).links[k].cloudFileId == t.links[k].cloudFileId
  {
  }

  lemma {:induction false} ParentStaysResolved(t: Tables, path: Path, c: nat, ops: seq<Op>)
    requires Integrity(t)
    requires CloudFileIdByPath(t, path, c) != ""
    requires forall i :: 0 <= i < |ops| ==> KeepsFolders(ops[i])
    ensures CloudFileIdByPath(Run(t, ops), path, c) == CloudFileIdByPath(t, path, c)
    decreases |ops|
  {
    if ops != [] {
      var t' := Apply(t, ops[0]);
      assert KeepsFolders(ops[0]);
      FirstRowStays(t, path, ops[0]);
      LinkStays(t, (FindByPath(t, path).value, c), ops[0]);
      assert CloudFileIdByPath(t', path, c) == CloudFileIdByPath(t, path, c);
      RunKeepsIntegrity(t, [ops[0]]);
      assert [ops[0]][1..] == [];
      assert Run(t, [ops[0]]) == t';
      ParentStaysResolved(t', path, c, ops[1..]);
    }
  }
}
