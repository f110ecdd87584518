/** The part of the filesystem the bot touches: which paths exist, and which of
    them the process cannot open for reading or cannot delete. */
module Storage {
  import opened Assets

  datatype Disk = Disk(files: set<Path>, unreadable: set<Path>, undeletable: set<Path>)

  /** `open(path, 'rb')` succeeds. */
  predicate CanOpen(disk: Disk, path: Path)
  {
    path in disk.files && path !in disk.unreadable
  }

  /** `os.remove(path)` succeeds (it raises on a missing or protected file). */
  predicate CanRemove(disk: Disk, path: Path)
  {
    path in disk.files && path !in disk.undeletable
  }

  /** The disk after a file was written at `path`. */
  function Written(disk: Disk, path: Path): Disk
  {
    disk.(files := disk.files + {path})
  }
}
