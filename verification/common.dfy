/** Values shared by every part of the drive: row ids, identities, the
    outcome of a server call and the exceptions it throws. */
module Common {

  /** SQLite integer primary key. */
  type Id = int

  /** Opaque identity string handed out by the identity provider. */
  type UserId = string

  datatype Option<+T> = None | Some(value: T)

  /** An exception as the server code throws it: its class and its message. */
  datatype Thrown = Error(message: string) | UploadThingError(message: string)

  /** A server call either returns a value or throws. */
  datatype Result<+T> = Ok(value: T) | Err(error: Thrown)

  const UserNotAuthenticated: string := "User not authenticated"
  const FileNotFound: string := "File not found"
  const FolderNotFound: string := "Folder not found"
  const ParentFolderNotFound: string := "Parent folder not found"
  const Unauthorized: string := "Unauthorized"

  /** The session's `userId` may be null; the server code tests it with
      `!userId`, which rejects the empty string as well. */
  predicate Authenticated(userId: Option<UserId>)
  {
    userId.Some? && userId.value != ""
  }
}
