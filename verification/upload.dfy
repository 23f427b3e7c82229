/** The upload route (src/app/api/uploadthing/core.ts): a middleware that
    decides whether an upload into a folder may start, and the completion
    handler that records the uploaded file. */
module Upload {
  import opened Common
  import opened Schema
  import opened Queries
  import Actions

  /** What the middleware hands on to the completion handler. */
  datatype Metadata = Metadata(userId: UserId, folderId: Id)

  /** What the blob store reports about a finished upload. */
  datatype UploadedFile = UploadedFile(name: string, size: int, ufsUrl: string, fileType: string, key: string)

  /** What the completion handler returns to the client. */
  datatype UploadResponse = UploadResponse(uploadedBy: UserId)

  /** The `driveUploader` middleware. Unlike the server actions it tells a
      missing folder ("Folder not found") from a foreign one
      ("Unauthorized"). */
  function Middleware(folders: map<Id, Folder>, userId: Option<UserId>, folderId: Id): (r: Result<Metadata>)
    ensures !Authenticated(userId) ==> r == Err(UploadThingError(Unauthorized))
    ensures Authenticated(userId) && folderId !in folders ==> r == Err(UploadThingError(FolderNotFound))
    ensures Authenticated(userId) && folderId in folders && folders[folderId].ownerId != userId.value ==>
      r == Err(UploadThingError(Unauthorized))
    ensures r.Ok? ==> r.value == Metadata(userId.value, folders[folderId].id)
  {
    if !Authenticated(userId) then Err(UploadThingError(Unauthorized))
    else
      match GetFolderById(folders, folderId)
      case None => Err(UploadThingError(FolderNotFound))
      case Some(folder) =>
        if folder.ownerId != userId.value then Err(UploadThingError(Unauthorized))
        else Ok(Metadata(userId.value, folder.id))
  }

  /** The middleware admits exactly the uploads into folders the server
      actions would let the same caller touch, and hands on the folder's
      own id. */
  lemma MiddlewareAdmitsOwner(folders: map<Id, Folder>, userId: Option<UserId>, folderId: Id)
    requires FoldersKeyed(folders)
    ensures Middleware(folders, userId, folderId).Ok? <==> Actions.GetOwnedFolder(folders, userId, folderId).Ok?
    ensures Middleware(folders, userId, folderId).Ok? ==>
      Middleware(folders, userId, folderId).value == Metadata(userId.value, folderId)
  {
  }

  /** Where the server actions answer a foreign folder exactly like a
      missing one, the middleware does not: its answer reveals whether
      the folder exists. */
  lemma MiddlewareDisclosesExistence(folders: map<Id, Folder>, userId: Option<UserId>, folderId: Id)
    requires folderId in folders && Authenticated(userId) && folders[folderId].ownerId != userId.value
    ensures Actions.GetOwnedFolder(folders, userId, folderId) == Actions.GetOwnedFolder(folders - {folderId}, userId, folderId)
    ensures Middleware(folders, userId, folderId) != Middleware(folders - {folderId}, userId, folderId)
  {
  }

  /** `onUploadComplete`: records the uploaded file in the folder the
      middleware admitted, owned by the uploader, under the blob's key. */
  method OnUploadComplete(db: Database, metadata: Metadata, file: UploadedFile) returns (r: UploadResponse)
    requires db.Valid()
    modifies db
    ensures db.Valid()
    ensures r.uploadedBy == metadata.userId
    ensures var id := old(db.nextFileId);
      && id !in old(db.files)
      && db.State() == old(db.State()).(
           files := old(db.files)[id := File(id, file.name, file.size, file.ufsUrl, Some(file.fileType),
                                              metadata.folderId, metadata.userId, Some(file.key))],
           nextFileId := id + 1)
  {
    var _ := db.CreateFile(
      FileInput(file.name, file.size, file.ufsUrl, Some(file.fileType), metadata.folderId),
      metadata.userId,
      file.key);
    return UploadResponse(metadata.userId);
  }
}
