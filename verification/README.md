# drive-clone: a Dafny model of the folder/file store and its guarded mutations

This project models the server-side core of a small drive application.
Signed-in users own folders and files. The drive keeps two tables: folders,
which point to a parent folder or to none (a root), and files, which point
to a parent folder and carry the key of their blob in the blob store. The
model covers four source files:

- `src/server/db/queries.ts`: the read queries. These are point lookups,
  child listings ordered by id, and the breadcrumb walk
  `getAllParentsForFolder`. The file also holds the row mutations
  `createFile`, `deleteFile` and `deleteUsersFile`.
- `src/server/actions.ts`: the server actions. Each one authenticates the
  caller and re-reads its target. It answers a missing target and one owned
  by someone else with the same "not found", and only then changes the
  database and the blob store.
- `src/app/api/uploadthing/core.ts`: the upload middleware, which decides
  whether an upload into a folder may start, and the completion handler,
  which records the uploaded file.
- `src/app/sandbox/page.tsx`: the seeding action. It inserts a root folder
  for the caller and puts the seed folders and files inside it.

Modules:

- `Common` holds ids, identities, `Option`, `Result`, the thrown errors
  with their exact messages, and the `!userId` authentication test.
- `Schema` holds the row records.
- `Queries` holds the selections, the walk and its specification, and the
  `Database` class. That class has the two tables as map fields and the
  AUTOINCREMENT counters that issue ids.
- `Actions` holds the `UtApi` blob client, the ownership guards and the
  five actions.
- `Upload` holds the middleware and the completion handler.
- `Sandbox` holds `form_action`.

External services are inputs or abstract state. The identity from `auth()`
is an `Option<UserId>` parameter. The blob store is a class whose only
state is a ghost log of the operations issued to it. The database is the
`Database` object.

The walk has no cycle guard. It terminates because it requires a ghost
ranking (`Ranked`) that strictly decreases from a folder to its stored
parent. Dangling parent ids are allowed, so the "Parent folder not found"
path stays reachable. `Database.Valid()` keeps such a ranking as ghost
state. Every insert in the model keeps it, so the walk can always be called
on the store's folders.

Three behaviours of the code are worth stating outright:

- The code has no root-uniqueness check: `form_action` adds another
  parentless folder on every call (`SeedingAddsOneRoot`).
- `getFolders`/`getFiles` check no ownership: they list every row under the
  given parent, whoever owns it.
- The upload middleware tells a missing folder ("Folder not found") from a
  foreign one ("Unauthorized"), while the server actions answer both with
  the same "not found" (`MiddlewareDisclosesExistence`).

## Model

| member | source | states |
|---|---|---|
| `Queries.GetFolderById` | src/server/db/queries.ts:28-34 | returns a folder exactly when one is stored under the id, and then that stored row |
| `Queries.GetFileById` | src/server/db/queries.ts:52-58 | returns a file exactly when one is stored under the id, and then that stored row |
| `Queries.SortedIds` | src/server/db/queries.ts:41 | lists exactly the ids of the set, in strictly ascending order (the ORDER BY id) |
| `Queries.GetFolders` | src/server/db/queries.ts:36-42 | every listed folder is a stored row whose parent is the given folder; every stored folder with that parent is listed; ids strictly ascend |
| `Queries.GetFiles` | src/server/db/queries.ts:44-50 | every listed file is a stored row in the given folder; every stored file in that folder is listed; ids strictly ascend |
| `Queries.Ancestry` | src/server/db/queries.ts:11-26 | the walk's result: on success a non-empty path ending at the requested folder's stored row; every failure is "Parent folder not found" |
| `Queries.AncestrySound` | src/server/db/queries.ts:13-24 | on success the path starts at a parentless folder, holds only stored rows, links each folder to its parent, and ends at the requested id |
| `Queries.AncestryComplete` | src/server/db/queries.ts:14-23 | any such breadcrumb path is exactly what the walk returns, so the breadcrumb is unique |
| `Queries.AncestryCharacterized` | src/server/db/queries.ts:19-21 | the walk returns a path if and only if it is a breadcrumb, and it fails if and only if no breadcrumb exists (some id on the chain is not stored) |
| `Queries.GetAllParentsForFolder` | src/server/db/queries.ts:11-26 | the upward loop that prepends each fetched folder returns the walk's result; on success a breadcrumb, otherwise "Parent folder not found"; it only reads the table |
| `Queries.FolderRowsCount` | src/app/sandbox/page.tsx:36 | a multi-row folder insert under fresh ids adds exactly as many rows as it is given |
| `Queries.FileRowsCount` | src/app/sandbox/page.tsx:37 | a multi-row file insert under fresh ids adds exactly as many rows as it is given |
| `Queries.Database.constructor` | src/server/db/schema.ts:17-41 | an empty database whose first issued id is 1 |
| `Queries.Database.InsertFolder` | src/app/sandbox/page.tsx:13-18 | adds one folder row with the given values under a fresh id, returns that id, and changes nothing else |
| `Queries.Database.InsertFile` | src/server/db/queries.ts:68-70 | adds one file row with the given values under a fresh id and changes nothing else |
| `Queries.Database.InsertFolders` | src/app/sandbox/page.tsx:36 | adds the rows in order under consecutive fresh ids; the folder count grows by their number; the files are untouched |
| `Queries.Database.InsertFiles` | src/app/sandbox/page.tsx:37 | adds the rows in order under consecutive fresh ids; the file count grows by their number; the folders are untouched |
| `Queries.Database.CreateFile` | src/server/db/queries.ts:62-71 | adds exactly one file row with the given fields, `ownerId = userId` and the blob key, under a fresh id; the existing rows are unchanged |
| `Queries.Database.DeleteFile` | src/server/db/queries.ts:73-75 | removes the row with that id, whoever owns it, and nothing else |
| `Queries.Database.DeleteUsersFile` | src/server/db/queries.ts:77-81 | removes the row only when both its id and its owner match; otherwise the table is unchanged |
| `Queries.Database.RenameFile` | src/server/actions.ts:28 | sets the name of the file with that id and changes nothing else |
| `Queries.Database.RenameFolder` | src/server/actions.ts:43 | sets the name of the folder with that id and changes nothing else |
| `Queries.Database.CreateFolder` | src/server/actions.ts:68-74 | inserts one folder with the given name and parent (a folder id or null for a root), owned by the user, under a fresh id, and returns the id; the next id is one higher |
| `Queries.Database.DeleteFolder` | src/server/actions.ts:88 | records a call with the folder id and the owner; the tables lose the rows that this deletion chooses and nothing else changes |
| `Actions.UtApi.RenameFiles` | src/server/actions.ts:24-27 | issues one blob rename of that key to the new name |
| `Actions.UtApi.DeleteFiles` | src/server/actions.ts:50 | issues one blob delete of that key |
| `Actions.SafelyGetFile` | src/server/actions.ts:9-19 | without a user: "User not authenticated"; succeeds if and only if the file exists and the caller owns it, returning the stored row; every other failure is "File not found" |
| `Actions.GetOwnedFolder` | src/server/actions.ts:35-42 | without a user: "User not authenticated"; succeeds if and only if the folder exists and the caller owns it; every other failure is "Folder not found" |
| `Actions.ForeignFileLooksMissing` | src/server/actions.ts:15-17 | a file owned by someone else gets the same answer as if it did not exist |
| `Actions.ForeignFolderLooksMissing` | src/server/actions.ts:39-42 | a folder owned by someone else gets the same answer as if it did not exist |
| `Actions.RenameFile` | src/server/actions.ts:21-32 | if the guard fails, returns its error and changes neither store nor blob log; otherwise renames only that row, logs one blob rename of the file's key to the new name, and returns success |
| `Actions.RenameFolder` | src/server/actions.ts:34-45 | if the guard fails, returns its error and changes nothing; otherwise renames only that folder and returns success |
| `Actions.DeleteFile` | src/server/actions.ts:47-56 | if the guard fails, returns its error and changes nothing; otherwise the row is gone, exactly one blob delete of that file's key is logged, and it returns success |
| `Actions.CreateFolder` | src/server/actions.ts:58-76 | if the guard on the parent fails, returns its error and changes nothing; otherwise inserts one fresh folder with that name and parent, owned by the caller, and returns success |
| `Actions.DeleteFolder` | src/server/actions.ts:78-90 | if the guard fails, returns its error and changes nothing; otherwise calls the store's folder deletion once with the folder id and the caller's id, and returns success |
| `Upload.Middleware` | src/app/api/uploadthing/core.ts:18-32 | no user or a foreign folder gives "Unauthorized"; a missing folder gives "Folder not found"; acceptance returns the caller and the looked-up folder's id |
| `Upload.MiddlewareAdmitsOwner` | src/app/api/uploadthing/core.ts:27-31 | the middleware admits exactly what the actions' ownership guard admits, and hands on the requested folder id |
| `Upload.MiddlewareDisclosesExistence` | src/app/api/uploadthing/core.ts:23-29 | for a foreign folder the actions' answer equals the one for a missing folder; the middleware's answer differs |
| `Upload.OnUploadComplete` | src/app/api/uploadthing/core.ts:33-53 | inserts exactly one file row built from the upload (name, size, url, type, key) and the metadata (parent, owner), and returns `uploadedBy = metadata.userId` |
| `Sandbox.SeedFolderValues` | src/app/sandbox/page.tsx:20-25 | one row per seed folder, in order, keeping its name, owned by the caller, inside the new root |
| `Sandbox.SeedFileValues` | src/app/sandbox/page.tsx:27-34 | one row per seed file, in order, keeping name, size and url, owned by the caller, inside the new root |
| `Sandbox.SeedingAddsOneRoot` | src/app/sandbox/page.tsx:13-25 | inserting a root and folders inside it grows the caller's set of roots by exactly the new root |
| `Sandbox.SeedRowsAt` | src/app/sandbox/page.tsx:20-37 | the i-th seed folder and the i-th seed file are stored under the i-th fresh id with their own fields, in the new root, owned by the caller |
| `Sandbox.FormAction` | src/app/sandbox/page.tsx:6-38 | without a user: "Unauthorized" and nothing inserted; otherwise exactly one new parentless "root" under a fresh id, then the seed rows; folders grow by 1 + the seed folders, files by the seed files, and the caller's roots by one even if a root existed; the id counters advance past the new rows |

## Left out

- Identity, blob store and database services are abstract. `auth()` is an optional user id. `UTApi` is a ghost log of the operations issued to it. Drizzle/SQLite is the `Database` object with map-valued tables. Network failures of these services are not modelled.
- An empty-string user id counts as not signed in, because the source tests `!userId`.
- `Promise.all` in `renameFile` and `deleteFile` is modelled as the blob call followed by the row update. Partial failure across the two stores, and the lack of rollback, are not modelled.
- `MUTATIONS.renameFile`, `renameFolder`, `createFolder` and `deleteFolder` are called in src/server/actions.ts but not defined in src/server/db/queries.ts. They get minimal contracts. For `deleteFolder`, the rows it removes are inputs (`removedFolders`, `removedFiles`), and no subtree-deletion property is claimed.
- Queries.Database.InsertFolder: requires the parent id to be one already issued. This keeps the ghost acyclicity ranking valid. All callers pass an existing folder or the root just created.
- Queries.Database.CreateFolder: requires a non-null parent id to be one already issued, for the same reason. A null parent (a new root) is always accepted. The callers pass a folder they have just read, `null`, or the id `createFolder` has just returned.
- Queries.GetAllParentsForFolder: requires each row to be stored under its own id (`FoldersKeyed`), which the primary key guarantees, and a ranking, so the parent graph has no cycle. On a cyclic table the source would loop forever, and that is not modelled.
- Queries.GetFolders and Queries.GetFiles: require each row to be stored under its own id. The primary key guarantees this.
- Ids are issued by counters that start at 1, as SQLite AUTOINCREMENT does. `Number(lastInsertRowid)` is taken to be that id.
- A multi-row insert of an empty list inserts nothing in the model. The query builder's own handling of an empty list is not modelled.
- Table schema details are not modelled: column mapping, indexes, and the declared schema's omission of `ownerId`, `utKey` and `type`. The declared schema also maps `size` to column `"id"`. Rows carry the fields the code reads and writes. Rows seeded without `type` or `utKey` hold `None`.
- The upload limits (32MB, one file) and the zod validation of the upload input are enforced by libraries.
- The seed data contents are not modelled. Only the fields the seeding reads are modelled (folder name; file name, size and url).
- Logging (`console.log`) is not modelled.
- `src/app/layout.tsx` and `src/app/f/page.tsx` are UI and routing. `QUERIES.getRootFolderForUser` is not part of this model.
