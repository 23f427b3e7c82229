/** The two tables of the drive, as records keyed by their primary key. */
module Schema {
  import opened Common

  /** A row of the folders table; `parent == None` marks a root folder. */
  datatype Folder = Folder(id: Id, name: string, ownerId: UserId, parent: Option<Id>)

  /** A row of the files table. `fileType` and `utKey` are absent on rows
      inserted without them (the sandbox seeding inserts neither). */
  datatype File = File(
    id: Id,
    name: string,
    size: int,
    url: string,
    fileType: Option<string>,
    parent: Id,
    ownerId: UserId,
    utKey: Option<string>)

  /** Every folder row is stored under its own id. */
  predicate FoldersKeyed(folders: map<Id, Folder>)
  {
    forall k :: k in folders ==> folders[k].id == k
  }

  /** Every file row is stored under its own id. */
  predicate FilesKeyed(files: map<Id, File>)
  {
    forall k :: k in files ==> files[k].id == k
  }
}
