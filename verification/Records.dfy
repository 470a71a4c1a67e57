/** The payloads that commands carry, and what they write into the tables. */
module Records {
  import opened Common
  import opened Schema

  datatype RecordDto = RecordDto(
    kind: EntryType, path: Path, parentId: string, cloudFileId: string, hash: CheckSum,
    size: nat, fileId: nat, mtime: int, globalId: nat, cloud: nat)

  datatype UpdatedDto = UpdatedDto(
    kind: EntryType, path: Path, cloudFileId: string, hash: CheckSum, parentId: string,
    size: nat, mtime: int, fileId: nat, globalId: nat, cloud: nat)

  datatype MovedDto = MovedDto(
    kind: EntryType, oldPath: Path, newPath: Path, cloudFileId: string,
    oldParentId: string, newParentId: string, mtime: int, globalId: nat, cloud: nat)

  datatype DeletedDto = DeletedDto(path: Path, cloudFileId: string, when: int, globalId: nat, cloud: nat)

  function RowOf(r: RecordDto): FileRow {
    FileRow(r.kind, r.path, r.size, LocalHash(r.hash), r.mtime, r.fileId)
  }

  function LinkOf(r: RecordDto): LinkRow {
    LinkRow(r.cloudFileId, r.parentId, r.mtime, CloudHash(r.hash), r.size)
  }

  /** What a cloud's answer reports; absent fields leave the payload as it was. */
  datatype Reply = Reply(
    cloudFileId: Option<string>, parentId: Option<string>, mtime: Option<int>, hash: Option<string>, size: Option<nat>)

  function Or<T>(o: Option<T>, default: T): T {
    if o.Some? then o.value else default
  }

  function AnswerNew(r: RecordDto, a: Reply): RecordDto {
    r.(cloudFileId := Or(a.cloudFileId, r.cloudFileId),
       parentId := Or(a.parentId, r.parentId),
       mtime := Or(a.mtime, r.mtime),
       hash := if a.hash.Some? then Text(a.hash.value) else r.hash,
       size := Or(a.size, r.size))
  }

  function AnswerUpdate(u: UpdatedDto, a: Reply): UpdatedDto {
    u.(mtime := Or(a.mtime, u.mtime),
       hash := if a.hash.Some? then Text(a.hash.value) else u.hash,
       size := Or(a.size, u.size))
  }

  function AnswerMove(m: MovedDto, a: Reply): MovedDto {
    m.(mtime := Or(a.mtime, m.mtime), newParentId := Or(a.parentId, m.newParentId))
  }

  /** A stored field shows what was answered, and where nothing was answered what had been sent. */
  ghost predicate Shows<T>(stored: T, answered: Option<T>, sent: T) {
    if answered.Some? then stored == answered.value else stored == sent
  }

  /** The text of a path, as registries and the cloud interfaces see it. */
  function PathText(p: Path): string {
    if p == [] then "" else if |p| == 1 then p[0] else PathText(p[..|p| - 1]) + "/" + p[|p| - 1]
  }

  /** No component is empty or holds a slash. */
  ghost predicate Plain(p: Path) {
    forall i :: 0 <= i < |p| ==> p[i] != "" && '/' !in p[i]
  }

  lemma LastSlash(a: string, x: string, b: string, y: string)
    requires a + "/" + x == b + "/" + y && '/' !in x && '/' !in y
    ensures a == b && x == y
  {
    var s := a + "/" + x;
    assert forall k :: |a| < k < |s| ==> s[k] == x[k - |a| - 1];
    assert forall k :: |b| < k < |s| ==> s[k] == y[k - |b| - 1];
    assert s[|a|] == '/' && s[|b|] == '/';
    assert a == s[..|a|] && b == s[..|b|];
    assert x == s[|a| + 1..] && y == s[|b| + 1..];
  }

  lemma SlashesOnlyBetween(p: Path)
    requires Plain(p)
    ensures PathText(p) == "" <==> p == []
    ensures '/' in PathText(p) <==> |p| > 1
  {
    if |p| > 1 {
      assert PathText(p)[|PathText(p[..|p| - 1])|] == '/';
    }
  }

  /** Different paths of plain components have different registry keys. */
  lemma {:induction false} PathTextInjective(p: Path, q: Path)
    requires Plain(p) && Plain(q) && PathText(p) == PathText(q)
    ensures p == q
    decreases |p|
  {
    SlashesOnlyBetween(p);
    SlashesOnlyBetween(q);
    if |p| > 1 {
      var p', q' := p[..|p| - 1], q[..|q| - 1];
      LastSlash(PathText(p'), p[|p| - 1], PathText(q'), q[|q| - 1]);
      PathTextInjective(p', q');
      assert p == p' + [p[|p| - 1]] && q == q' + [q[|q| - 1]];
    }
  }
}
