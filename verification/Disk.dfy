/** The tree on disk below the synchronised root. */
module Disk {
  import opened Common

  /** `fileId` stands for the inode number; size, check sum and time are what the file system reports. */
  datatype Node = Node(folder: bool, fileId: nat, size: nat, hash: nat, mtime: int)

  const TMP_PREFIX := ".-tmp-SyncHarbor-"

  /** Downloads land beside their target under a temporary name. */
  function TmpPath(p: Path): Path {
    Parent(p) + [TMP_PREFIX + Filename(p)]
  }
}
