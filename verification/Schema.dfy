/**
 The tables `files`, `file_links` and `cloud_configs` as values, with the relational effect of each
 statement the program issues. Global ids and cloud ids are AUTOINCREMENT keys: `lastId` and
 `lastCloud` are the largest ones ever issued.
 */
module Schema {
  import opened Common

  datatype FileRow = FileRow(kind: EntryType, path: Path, size: nat, hash: nat, mtime: int, fileId: nat)

  datatype LinkRow = LinkRow(cloudFileId: string, parentId: string, mtime: int, hash: string, size: nat)

  datatype Tables = Tables(
    files: map<nat, FileRow>,
    links: map<(nat, nat), LinkRow>,
    lastId: nat,
    clouds: set<nat>,
    lastCloud: nat)

  const EMPTY: Tables := Tables(map[], map[], 0, {}, 0)

  /** Keys were issued, and both foreign keys of every link resolve. Cloud 0 is the local storage. */
  ghost predicate Integrity(t: Tables) {
    && (forall g :: g in t.files ==> 0 < g <= t.lastId)
    && (forall c :: c in t.clouds ==> 0 < c <= t.lastCloud)
    && (forall k :: k in t.links ==> k.0 in t.files && k.1 in t.clouds)
  }

  function LocalHash(c: CheckSum): nat {
    if c.Number? then c.number else 0
  }

  function CloudHash(c: CheckSum): string {
    if c.Text? then c.text else ""
  }

  // ---- statements ------------------------------------------------------------------------------

  function AddCloud(t: Tables): Tables {
    t.(clouds := t.clouds + {t.lastCloud + 1}, lastCloud := t.lastCloud + 1)
  }

  /** `path` has no uniqueness constraint, so the insertion is never ignored. */
  function AddFile(t: Tables, row: FileRow): Tables {
    t.(files := t.files[t.lastId + 1 := row], lastId := t.lastId + 1)
  }

  /** None when a foreign key fails: the statement throws and the transaction is rolled back. */
  function AddFileLink(t: Tables, g: nat, c: nat, row: LinkRow): Option<Tables> {
    if (g, c) in t.links then Some(t)
    else if g in t.files && c in t.clouds then Some(t.(links := t.links[(g, c) := row]))
    else None
  }

  function UpdateLinkContent(t: Tables, g: nat, c: nat, hash: string, mtime: int, size: nat): Tables {
    if (g, c) !in t.links then t
    else t.(links := t.links[(g, c) := t.links[(g, c)].(hash := hash, mtime := mtime, size := size)])
  }

  function UpdateLinkPlace(t: Tables, g: nat, c: nat, cloudFileId: string, mtime: int, parentId: string): Tables {
    if (g, c) !in t.links then t
    else t.(links := t.links[(g, c) := t.links[(g, c)].(cloudFileId := cloudFileId, mtime := mtime, parentId := parentId)])
  }

  function UpdateFileContent(t: Tables, g: nat, size: nat, hash: nat, mtime: int, fileId: nat): Tables {
    if g !in t.files then t
    else t.(files := t.files[g := t.files[g].(size := size, hash := hash, mtime := mtime, fileId := fileId)])
  }

  function UpdateFilePlace(t: Tables, g: nat, path: Path, mtime: int): Tables {
    if g !in t.files then t
    else t.(files := t.files[g := t.files[g].(path := path, mtime := mtime)])
  }

  /** ON DELETE CASCADE removes the links together with the row. */
  function DeleteFileAndLinks(t: Tables, g: nat): Tables {
    t.(files := t.files - {g}, links := map k | k in t.links && k.0 != g :: t.links[k])
  }

  // ---- lookups ---------------------------------------------------------------------------------

  // A lookup with LIMIT 1 scans in row-id order.

  /** Global id of the first row with this path. */
  function FindByPath(t: Tables, path: Path): (r: Option<nat>)
    ensures r.Some? ==> r.value in t.files && t.files[r.value].path == path
    ensures r.Some? ==> forall g: nat :: g in t.files && t.files[g].path == path ==> r.value <= g
    ensures r.None? ==> forall g: nat :: g in t.files && g <= t.lastId ==> t.files[g].path != path
  {
    PathScan(t, path, 0)
  }

  function PathScan(t: Tables, path: Path, lo: nat): (r: Option<nat>)
    requires lo <= t.lastId + 1
    ensures r.Some? ==> lo <= r.value && r.value in t.files && t.files[r.value].path == path
    ensures r.Some? ==> forall g: nat :: g in t.files && t.files[g].path == path && lo <= g ==> r.value <= g
    ensures r.None? ==> forall g: nat :: g in t.files && lo <= g <= t.lastId ==> t.files[g].path != path
    decreases t.lastId + 1 - lo
  {
    if lo == t.lastId + 1 then None
    else if lo in t.files && t.files[lo].path == path then Some(lo)
    else PathScan(t, path, lo + 1)
  }

  function FindByFileId(t: Tables, fileId: nat): (r: Option<nat>)
    ensures r.Some? ==> r.value in t.files && t.files[r.value].fileId == fileId
    ensures r.Some? ==> forall g: nat :: g in t.files && t.files[g].fileId == fileId ==> r.value <= g
    ensures r.None? ==> forall g: nat :: g in t.files && g <= t.lastId ==> t.files[g].fileId != fileId
  {
    FileIdScan(t, fileId, 0)
  }

  function FileIdScan(t: Tables, fileId: nat, lo: nat): (r: Option<nat>)
    requires lo <= t.lastId + 1
    ensures r.Some? ==> lo <= r.value && r.value in t.files && t.files[r.value].fileId == fileId
    ensures r.Some? ==> forall g: nat :: g in t.files && t.files[g].fileId == fileId && lo <= g ==> r.value <= g
    ensures r.None? ==> forall g: nat :: g in t.files && lo <= g <= t.lastId ==> t.files[g].fileId != fileId
    decreases t.lastId + 1 - lo
  {
    if lo == t.lastId + 1 then None
    else if lo in t.files && t.files[lo].fileId == fileId then Some(lo)
    else FileIdScan(t, fileId, lo + 1)
  }

  predicate IsLink(t: Tables, g: nat, c: nat, cloudFileId: string) {
    (g, c) in t.links && t.links[(g, c)].cloudFileId == cloudFileId
  }

  /** Global id of the first link of cloud `c` that carries the given cloud file id. */
  function FindLink(t: Tables, c: nat, cloudFileId: string): (r: Option<nat>)
    ensures r.Some? ==> IsLink(t, r.value, c, cloudFileId)
    ensures r.Some? ==> forall g: nat :: IsLink(t, g, c, cloudFileId) ==> r.value <= g
    ensures r.None? ==> forall g: nat :: g <= t.lastId ==> !IsLink(t, g, c, cloudFileId)
  {
    LinkScan(t, c, cloudFileId, 0)
  }

  function LinkScan(t: Tables, c: nat, cloudFileId: string, lo: nat): (r: Option<nat>)
    requires lo <= t.lastId + 1
    ensures r.Some? ==> lo <= r.value && IsLink(t, r.value, c, cloudFileId)
    ensures r.Some? ==> forall g: nat :: IsLink(t, g, c, cloudFileId) && lo <= g ==> r.value <= g
    ensures r.None? ==> forall g: nat :: lo <= g <= t.lastId ==> !IsLink(t, g, c, cloudFileId)
    decreases t.lastId + 1 - lo
  {
    if lo == t.lastId + 1 then None
    else if IsLink(t, lo, c, cloudFileId) then Some(lo)
    else LinkScan(t, c, cloudFileId, lo + 1)
  }

  /** The empty string stands for "no such file or no such link", as in the program. */
  function CloudFileIdByPath(t: Tables, path: Path, c: nat): string {
    var g := FindByPath(t, path);
    if g.Some? && (g.value, c) in t.links then t.links[(g.value, c)].cloudFileId else ""
  }

  function PathOf(t: Tables, g: nat): Path {
    if g in t.files then t.files[g].path else []
  }

  function LinkRows(t: Tables, g: nat): set<(nat, nat)> {
    set k | k in t.links && k.0 == g
  }

  ghost predicate UniquePaths(t: Tables) {
    forall g, h :: g in t.files && h in t.files && t.files[g].path == t.files[h].path ==> g == h
  }

  ghost predicate UniqueCloudFileIds(t: Tables, c: nat) {
    forall g, h, i :: IsLink(t, g, c, i) && IsLink(t, h, c, i) ==> g == h
  }

  /** A row exists and every registered cloud has a link to it. */
  ghost predicate LinkedEverywhere(t: Tables, path: Path) {
    var g := FindByPath(t, path);
    g.Some? && forall c :: c in t.clouds ==> (g.value, c) in t.links
  }

  // ---- whole runs ------------------------------------------------------------------------------

  datatype Op =
    | OpAddCloud
    | OpAddFile(row: FileRow)
    | OpAddLink(g: nat, c: nat, link: LinkRow)
    | OpLinkContent(g: nat, c: nat, hash: string, mtime: int, size: nat)
    | OpLinkPlace(g: nat, c: nat, cloudFileId: string, mtime: int, parentId: string)
    | OpFileContent(g: nat, size: nat, localHash: nat, mtime: int, fileId: nat)
    | OpFilePlace(g: nat, path: Path, mtime: int)
    | OpDelete(g: nat)

  /** A statement that throws leaves the tables as they were. */
  function Apply(t: Tables, op: Op): Tables {
    match op
    case OpAddCloud => AddCloud(t)
    case OpAddFile(row) => AddFile(t, row)
    case OpAddLink(g, c, link) => (match AddFileLink(t, g, c, link) case Some(t') => t' case None => t)
    case OpLinkContent(g, c, h, m, s) => UpdateLinkContent(t, g, c, h, m, s)
    case OpLinkPlace(g, c, i, m, p) => UpdateLinkPlace(t, g, c, i, m, p)
    case OpFileContent(g, s, h, m, f) => UpdateFileContent(t, g, s, h, m, f)
    case OpFilePlace(g, p, m) => UpdateFilePlace(t, g, p, m)
    case OpDelete(g) => DeleteFileAndLinks(t, g)
  }

  function Run(t: Tables, ops: seq<Op>): Tables
    decreases |ops|
  {
    if ops == [] then t else Run(Apply(t, ops[0]), ops[1..])
  }

  /** The global ids a run hands out, in order. */
  function Issued(t: Tables, ops: seq<Op>): seq<nat>
    decreases |ops|
  {
    if ops == [] then []
    else (if ops[0].OpAddFile? then [t.lastId + 1] else []) + Issued(Apply(t, ops[0]), ops[1..])
  }

  lemma {:induction false} RunKeepsIntegrity(t: Tables, ops: seq<Op>)
    requires Integrity(t)
    ensures Integrity(Run(t, ops))
    decreases |ops|
  {
    if ops != [] {
      RunKeepsIntegrity(Apply(t, ops[0]), ops[1..]);
    }
  }

  /** Ids are handed out in strictly increasing order, above every id used before the run. */
  lemma {:induction false} IssuedNeverReused(t: Tables, ops: seq<Op>)
    ensures forall i :: 0 <= i < |Issued(t, ops)| ==> Issued(t, ops)[i] > t.lastId
    ensures forall i, j :: 0 <= i < j < |Issued(t, ops)| ==> Issued(t, ops)[i] < Issued(t, ops)[j]
    decreases |ops|
  {
    if ops != [] {
      IssuedNeverReused(Apply(t, ops[0]), ops[1..]);
    }
  }

  /** After a deletion no later statement can bring the row or one of its links back. */
  lemma {:induction false} DeletedStaysGone(t: Tables, g: nat, ops: seq<Op>)
    requires Integrity(t) && g <= t.lastId
    ensures g !in Run(DeleteFileAndLinks(t, g), ops).files
    ensures forall c :: (g, c) !in Run(DeleteFileAndLinks(t, g), ops).links
  {
    GoneStaysGone(DeleteFileAndLinks(t, g), g, ops);
  }

  lemma {:induction false} GoneStaysGone(t: Tables, g: nat, ops: seq<Op>)
    requires Integrity(t) && g <= t.lastId && g !in t.files
    ensures g !in Run(t, ops).files && forall c :: (g, c) !in Run(t, ops).links
    decreases |ops|
  {
    if ops != [] {
      GoneStaysGone(Apply(t, ops[0]), g, ops[1..]);
    }
  }

  /** A row that no statement of the run deletes keeps its id, its kind and all of its links. */
  lemma {:induction false} UndeletedSurvives(t: Tables, g: nat, ops: seq<Op>)
    requires Integrity(t) && g in t.files
    requires forall i :: 0 <= i < |ops| ==> ops[i] != OpDelete(g)
    ensures g in Run(t, ops).files && Run(t, ops).files[g].kind == t.files[g].kind
    ensures forall c :: (g, c) in t.links ==> (g, c) in Run(t, ops).links
    decreases |ops|
  {
    if ops != [] {
      UndeletedSurvives(Apply(t, ops[0]), g, ops[1..]);
    }
  }
}
