/** The server actions (src/server/actions.ts). Each one authenticates,
    re-reads its target, answers a missing target and one owned by someone
    else with the same "not found", and only then changes the database and
    the blob store. */
module Actions {
  import opened Common
  import opened Schema
  import opened Queries

  /** An operation issued to the blob store. Rows seeded without a key pass
      the absent key along. */
  datatype BlobOp = Rename(fileKey: Option<string>, newName: string) | Delete(fileKey: Option<string>)

  /** The blob store client (`UTApi`), seen only through the operations
      issued to it. */
  class UtApi {
    ghost var log: seq<BlobOp>

    constructor ()
      ensures log == []
    {
      log := [];
    }

    /** `utapi.renameFiles({ fileKey, newName })` */
    method RenameFiles(fileKey: Option<string>, newName: string)
      modifies this
      ensures log == old(log) + [Rename(fileKey, newName)]
    {
      log := log + [Rename(fileKey, newName)];
    }

    /** `utapi.deleteFiles(fileKey)` */
    method DeleteFiles(fileKey: Option<string>)
      modifies this
      ensures log == old(log) + [Delete(fileKey)]
    {
      log := log + [Delete(fileKey)];
    }
  }

  /** The `{ success: true }` every completed action returns. */
  datatype Outcome = Outcome(success: bool)

  /** `safelyGetFile`: the file, provided the caller is signed in and owns
      it. */
  function SafelyGetFile(files: map<Id, File>, userId: Option<UserId>, fileId: Id): (r: Result<File>)
    ensures !Authenticated(userId) ==> r == Err(Error(UserNotAuthenticated))
    ensures r.Ok? <==> Authenticated(userId) && fileId in files && files[fileId].ownerId == userId.value
    ensures r.Ok? ==> r.value == files[fileId]
    ensures Authenticated(userId) && r.Err? ==> r == Err(Error(FileNotFound))
  {
    if !Authenticated(userId) then Err(Error(UserNotAuthenticated))
    else
      match GetFileById(files, fileId)
      case None => Err(Error(FileNotFound))
      case Some(file) => if file.ownerId != userId.value then Err(Error(FileNotFound)) else Ok(file)
  }

  /** The check `renameFolder`, `createFolder` and `deleteFolder` make
      inline: the folder, provided the caller is signed in and owns it. */
  function GetOwnedFolder(folders: map<Id, Folder>, userId: Option<UserId>, folderId: Id): (r: Result<Folder>)
    ensures !Authenticated(userId) ==> r == Err(Error(UserNotAuthenticated))
    ensures r.Ok? <==> Authenticated(userId) && folderId in folders && folders[folderId].ownerId == userId.value
    ensures r.Ok? ==> r.value == folders[folderId]
    ensures Authenticated(userId) && r.Err? ==> r == Err(Error(FolderNotFound))
  {
    if !Authenticated(userId) then Err(Error(UserNotAuthenticated))
    else
      match GetFolderById(folders, folderId)
      case None => Err(Error(FolderNotFound))
      case Some(folder) => if folder.ownerId != userId.value then Err(Error(FolderNotFound)) else Ok(folder)
  }

  /** A file owned by someone else is indistinguishable from one that does
      not exist. */
  lemma ForeignFileLooksMissing(files: map<Id, File>, userId: Option<UserId>, fileId: Id)
    requires fileId in files && userId.Some? && files[fileId].ownerId != userId.value
    ensures SafelyGetFile(files, userId, fileId) == SafelyGetFile(files - {fileId}, userId, fileId)
  {
  }

  /** A folder owned by someone else is indistinguishable from one that
      does not exist. */
  lemma ForeignFolderLooksMissing(folders: map<Id, Folder>, userId: Option<UserId>, folderId: Id)
    requires folderId in folders && userId.Some? && folders[folderId].ownerId != userId.value
    ensures GetOwnedFolder(folders, userId, folderId) == GetOwnedFolder(folders - {folderId}, userId, folderId)
  {
  }

  /** `renameFile`: renames the blob and the row of a file the caller owns. */
  method RenameFile(db: Database, utapi: UtApi, userId: Option<UserId>, fileId: Id, newName: string)
    returns (r: Result<Outcome>)
    requires db.Valid()
    modifies db, utapi
    ensures db.Valid()
    ensures !Authenticated(userId) ==>
      r == Err(Error(UserNotAuthenticated)) && db.State() == old(db.State()) && utapi.log == old(utapi.log)
    ensures var guard := SafelyGetFile(old(db.files), userId, fileId);
      if guard.Err? then
        r == Err(guard.error) && db.State() == old(db.State()) && utapi.log == old(utapi.log)
      else
        && r == Ok(Outcome(true))
        && db.State() == old(db.State()).(files := old(db.files)[fileId := guard.value.(name := newName)])
        && utapi.log == old(utapi.log) + [Rename(guard.value.utKey, newName)]
    ensures r.Ok? ==> GetFileById(db.files, fileId).Some? && db.files[fileId].name == newName
  {
    var found := SafelyGetFile(db.files, userId, fileId);
    if found.Err? {
      return Err(found.error);
    }
    var file := found.value;
    utapi.RenameFiles(file.utKey, newName);
    db.RenameFile(fileId, newName);
    return Ok(Outcome(true));
  }

  /** `renameFolder`: renames a folder the caller owns. */
  method RenameFolder(db: Database, userId: Option<UserId>, folderId: Id, newName: string)
    returns (r: Result<Outcome>)
    requires db.Valid()
    modifies db
    ensures db.Valid()
    ensures !Authenticated(userId) ==> r == Err(Error(UserNotAuthenticated)) && db.State() == old(db.State())
    ensures var guard := GetOwnedFolder(old(db.folders), userId, folderId);
      if guard.Err? then
        r == Err(guard.error) && db.State() == old(db.State())
      else
        && r == Ok(Outcome(true))
        && db.State() == old(db.State()).(folders := old(db.folders)[folderId := guard.value.(name := newName)])
  {
    var found := GetOwnedFolder(db.folders, userId, folderId);
    if found.Err? {
      return Err(found.error);
    }
    db.RenameFolder(folderId, newName);
    return Ok(Outcome(true));
  }

  /** `deleteFile`: deletes the blob and the row of a file the caller owns. */
  method DeleteFile(db: Database, utapi: UtApi, userId: Option<UserId>, fileId: Id)
    returns (r: Result<Outcome>)
    requires db.Valid()
    modifies db, utapi
    ensures db.Valid()
    ensures !Authenticated(userId) ==>
      r == Err(Error(UserNotAuthenticated)) && db.State() == old(db.State()) && utapi.log == old(utapi.log)
    ensures var guard := SafelyGetFile(old(db.files), userId, fileId);
      if guard.Err? then
        r == Err(guard.error) && db.State() == old(db.State()) && utapi.log == old(utapi.log)
      else
        && r == Ok(Outcome(true))
        && db.State() == old(db.State()).(files := old(db.files) - {fileId})
        && utapi.log == old(utapi.log) + [Delete(guard.value.utKey)]
    ensures r.Ok? ==> fileId !in db.files
  {
    var found := SafelyGetFile(db.files, userId, fileId);
    if found.Err? {
      return Err(found.error);
    }
    var file := found.value;
    utapi.DeleteFiles(file.utKey);
    db.DeleteFile(fileId);
    return Ok(Outcome(true));
  }

  /** `createFolder`: creates a folder named `name` under a folder the
      caller owns. */
  method CreateFolder(db: Database, userId: Option<UserId>, parentId: Id, name: string)
    returns (r: Result<Outcome>)
    requires db.Valid()
    modifies db
    ensures db.Valid()
    ensures !Authenticated(userId) ==> r == Err(Error(UserNotAuthenticated)) && db.State() == old(db.State())
    ensures var guard := GetOwnedFolder(old(db.folders), userId, parentId);
      if guard.Err? then
        r == Err(guard.error) && db.State() == old(db.State())
      else
        var id := old(db.nextFolderId);
        && r == Ok(Outcome(true))
        && id !in old(db.folders)
        && db.State() == old(db.State()).(
             folders := old(db.folders)[id := Folder(id, name, userId.value, Some(parentId))],
             nextFolderId := id + 1)
  {
    var found := GetOwnedFolder(db.folders, userId, parentId);
    if found.Err? {
      return Err(found.error);
    }
    var id := db.CreateFolder(FolderInput(name, Some(parentId)), userId.value);
    return Ok(Outcome(true));
  }

  /** `deleteFolder`: after the ownership check, hands the folder id and
      the caller's identity to the store's folder deletion. The rows that
      deletion removes are its own choice and are given here as
      `removedFolders` and `removedFiles`. */
  method DeleteFolder(db: Database, userId: Option<UserId>, folderId: Id, removedFolders: set<Id>, removedFiles: set<Id>)
    returns (r: Result<Outcome>)
    requires db.Valid()
    modifies db
    ensures db.Valid()
    ensures !Authenticated(userId) ==> r == Err(Error(UserNotAuthenticated)) && db.State() == old(db.State())
    ensures var guard := GetOwnedFolder(old(db.folders), userId, folderId);
      if guard.Err? then
        r == Err(guard.error) && db.State() == old(db.State())
      else
        && r == Ok(Outcome(true))
        && db.State() == old(db.State()).(
             folders := old(db.folders) - removedFolders,
             files := old(db.files) - removedFiles,
             deleteFolderCalls := old(db.deleteFolderCalls) + [(folderId, userId.value)])
  {
    var found := GetOwnedFolder(db.folders, userId, folderId);
    if found.Err? {
      return Err(found.error);
    }
    db.DeleteFolder(folderId, userId.value, removedFolders, removedFiles);
    return Ok(Outcome(true));
  }
}
