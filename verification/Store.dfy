/** The database object: each method performs one statement in place on the tables it owns. */
module Store {
  import opened Common
  import opened Schema
  import opened PathIndex

  class Database {
    var files: map<nat, FileRow>
    var links: map<(nat, nat), LinkRow>
    var lastId: nat
    var clouds: set<nat>
    var lastCloud: nat

    function T(): Tables
      reads this
    {
      Tables(files, links, lastId, clouds, lastCloud)
    }

    ghost predicate Valid()
      reads this
    {
      Integrity(T())
    }

    constructor ()
      ensures Valid() && T() == EMPTY
    {
      files, links, lastId, clouds, lastCloud := map[], map[], 0, {}, 0;
    }

    method RegisterCloud() returns (c: nat)
      requires Valid()
      modifies this
      ensures Valid() && T() == AddCloud(old(T()))
      ensures c !in old(clouds) && clouds == old(clouds) + {c} && c == lastCloud == old(lastCloud) + 1
      ensures files == old(files) && links == old(links) && lastId == old(lastId)
    {
      lastCloud := lastCloud + 1;
      c := lastCloud;
      clouds := clouds + {c};
    }

    method InsertFile(row: FileRow) returns (globalId: nat)
      requires Valid()
      modifies this
      ensures Valid() && T() == AddFile(old(T()), row)
      ensures globalId == lastId == old(lastId) + 1 && globalId !in old(files)
      ensures files == old(files)[globalId := row] && links == old(links) && clouds == old(clouds)
    {
      lastId := lastId + 1;
      globalId := lastId;
      files := files[globalId := row];
    }

    /** INSERT OR IGNORE: an existing link wins; a broken foreign key throws and changes nothing. */
    method InsertLink(g: nat, c: nat, row: LinkRow) returns (ok: bool)
      requires Valid()
      modifies this
      ensures Valid()
      ensures ok <==> (g, c) in old(links) || (g in files && c in clouds)
      ensures files == old(files) && lastId == old(lastId) && clouds == old(clouds)
      ensures links == if ok && (g, c) !in old(links) then old(links)[(g, c) := row] else old(links)
      ensures ok <==> AddFileLink(old(T()), g, c, row).Some?
      ensures T() == if ok then AddFileLink(old(T()), g, c, row).value else old(T())
    {
      ok := true;
      if (g, c) !in links {
        if g in files && c in clouds {
          links := links[(g, c) := row];
        } else {
          ok := false;
        }
      }
    }

    method SetLinkContent(g: nat, c: nat, hash: CheckSum, mtime: int, size: nat)
      requires Valid()
      modifies this
      ensures Valid() && T() == UpdateLinkContent(old(T()), g, c, CloudHash(hash), mtime, size)
      ensures files == old(files)
      ensures (g, c) !in old(links) ==> links == old(links)
      ensures (g, c) in old(links) ==>
                var was := old(links)[(g, c)];
                links == old(links)[(g, c) := LinkRow(was.cloudFileId, was.parentId, mtime,
                                                      if hash.Text? then hash.text else "", size)]
    {
      if (g, c) in links {
        links := links[(g, c) := links[(g, c)].(hash := CloudHash(hash), mtime := mtime, size := size)];
      }
    }

    method SetLinkPlace(g: nat, c: nat, cloudFileId: string, mtime: int, parentId: string)
      requires Valid()
      modifies this
      ensures Valid() && T() == UpdateLinkPlace(old(T()), g, c, cloudFileId, mtime, parentId)
      ensures files == old(files)
      ensures (g, c) !in old(links) ==> links == old(links)
      ensures (g, c) in old(links) ==>
                var was := old(links)[(g, c)];
                links == old(links)[(g, c) := LinkRow(cloudFileId, parentId, mtime, was.hash, was.size)]
    {
      if (g, c) in links {
        links := links[(g, c) := links[(g, c)].(cloudFileId := cloudFileId, mtime := mtime, parentId := parentId)];
      }
    }

    method SetFileContent(g: nat, size: nat, hash: CheckSum, mtime: int, fileId: nat)
      requires Valid()
      modifies this
      ensures Valid() && T() == UpdateFileContent(old(T()), g, size, LocalHash(hash), mtime, fileId)
      ensures links == old(links)
      ensures g !in old(files) ==> files == old(files)
      ensures g in old(files) ==>
                var was := old(files)[g];
                files == old(files)[g := FileRow(was.kind, was.path, size,
                                                 if hash.Number? then hash.number else 0, mtime, fileId)]
    {
      if g in files {
        files := files[g := files[g].(size := size, hash := LocalHash(hash), mtime := mtime, fileId := fileId)];
      }
    }

    method SetFilePlace(g: nat, path: Path, mtime: int)
      requires Valid()
      modifies this
      ensures Valid() && T() == UpdateFilePlace(old(T()), g, path, mtime)
      ensures links == old(links)
      ensures g !in old(files) ==> files == old(files)
      ensures g in old(files) ==>
                var was := old(files)[g];
                files == old(files)[g := FileRow(was.kind, path, was.size, was.hash, mtime, was.fileId)]
    {
      if g in files {
        files := files[g := files[g].(path := path, mtime := mtime)];
      }
    }

    /** Exactly the row and all of its links disappear; every other row and link is untouched. */
    method Delete(g: nat)
      requires Valid()
      modifies this
      ensures Valid() && T() == DeleteFileAndLinks(old(T()), g)
      ensures forall h :: h in files <==> h in old(files) && h != g
      ensures forall h :: h in files ==> files[h] == old(files)[h]
      ensures forall k :: k in links <==> k in old(links) && k.0 != g
      ensures forall k :: k in links ==> links[k] == old(links)[k]
    {
      files := files - {g};
      links := map k | k in links && k.0 != g :: links[k];
    }

    method GetCloudFileIdByPath(path: Path, c: nat) returns (id: string)
      ensures id == CloudFileIdByPath(T(), path, c)
      ensures Valid() && (forall g :: g in files ==> files[g].path != path) ==> id == ""
      ensures Valid() && UniquePaths(T()) ==> forall g :: g in files && files[g].path == path ==>
                id == if (g, c) in links then links[(g, c)].cloudFileId else ""
    {
      var g := FindByPath(T(), path);
      if g.None? {
        return "";
      }
      if (g.value, c) !in links {
        return "";
      }
      id := links[(g.value, c)].cloudFileId;
    }

    /** Walks down the path, accumulating components, until a prefix fails the link count. */
    method GetMissingPathPart(path: Path, n: nat) returns (missing: Path)
      ensures missing == MissingPart(T(), path, n)
    {
      var t := T();
      var accum: Path := [];
      var i := 0;
      while i < |path|
        invariant i <= |path| && accum == path[..i]
        invariant MissingPart(t, path, n) == MissingFrom(t, path, n, i)
      {
        accum := accum + [path[i]];
        assert accum == path[..i + 1];
        var g := FindByPath(t, accum);
        if g.None? || |LinkRows(t, g.value)| != n {
          missing := path[i..];
          return;
        }
        i := i + 1;
      }
      missing := [];
    }
  }
}
