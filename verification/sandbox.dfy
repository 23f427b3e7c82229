/** The sandbox seeding action (src/app/sandbox/page.tsx): inserts a new
    root folder for the caller and puts the seed folders and files in it. */
module Sandbox {
  import opened Common
  import opened Schema
  import opened Queries

  /** The part of a seed folder the seeding reads. */
  datatype MockFolder = MockFolder(name: string)

  /** The part of a seed file the seeding reads. */
  datatype MockFile = MockFile(name: string, size: int, url: string)

  /** The rows `mockFolders.map(...)` builds: each seed folder, owned by
      `userId`, inside the new root. */
  function SeedFolderValues(mockFolders: seq<MockFolder>, userId: UserId, rootFolderId: Id): (r: seq<FolderValues>)
    ensures |r| == |mockFolders|
    ensures forall i :: 0 <= i < |r| ==> r[i] == FolderValues(mockFolders[i].name, userId, Some(rootFolderId))
  {
    seq(|mockFolders|, i requires 0 <= i < |mockFolders| => FolderValues(mockFolders[i].name, userId, Some(rootFolderId)))
  }

  /** The rows `mockFiles.map(...)` builds: each seed file, owned by
      `userId`, inside the new root, with neither a type nor a blob key. */
  function SeedFileValues(mockFiles: seq<MockFile>, userId: UserId, rootFolderId: Id): (r: seq<FileValues>)
    ensures |r| == |mockFiles|
    ensures forall i :: 0 <= i < |r| ==>
      r[i] == FileValues(mockFiles[i].name, mockFiles[i].size, mockFiles[i].url, None, rootFolderId, userId, None)
  {
    seq(|mockFiles|, i requires 0 <= i < |mockFiles| =>
      FileValues(mockFiles[i].name, mockFiles[i].size, mockFiles[i].url, None, rootFolderId, userId, None))
  }

  /** The ids of `userId`'s root folders. */
  function RootsOf(folders: map<Id, Folder>, userId: UserId): set<Id>
  {
    set k | k in folders && folders[k].parent == None && folders[k].ownerId == userId
  }

  /** Adding a root and folders inside it adds exactly that one root. */
  lemma {:induction false} SeedingAddsOneRoot(
    folders: map<Id, Folder>, userId: UserId, root: Id, mockFolders: seq<MockFolder>)
    requires forall k :: k in folders ==> k < root
    ensures var seeded := folders[root := Folder(root, "root", userId, None)]
                          + FolderRowsFrom(root + 1, SeedFolderValues(mockFolders, userId, root));
      RootsOf(seeded, userId) == RootsOf(folders, userId) + {root}
  {
    var rows := SeedFolderValues(mockFolders, userId, root);
    var added := FolderRowsFrom(root + 1, rows);
    var seeded := folders[root := Folder(root, "root", userId, None)] + added;
    FolderRowsFromAt(root + 1, rows);
    forall k | k in added ensures added[k].parent == Some(root) && k != root {
      var i := k - (root + 1);
      assert added[root + 1 + i] == FolderRow(root + 1 + i, rows[i]);
    }
    forall k ensures k in RootsOf(seeded, userId) <==> k in RootsOf(folders, userId) + {root} {
      if k in added {
        assert seeded[k] == added[k] && k !in folders;
        assert k !in RootsOf(seeded, userId);
      } else if k == root {
        assert seeded[k] == Folder(root, "root", userId, None);
      } else if k in folders {
        assert seeded[k] == folders[k];
      }
    }
  }

  /** `form_action`: with a signed-in caller, inserts a parentless folder
      named "root" under a fresh id, then every seed folder and every seed
      file inside it. There is no check for an existing root. */
  method FormAction(db: Database, userId: Option<UserId>, mockFolders: seq<MockFolder>, mockFiles: seq<MockFile>)
    returns (r: Result<()>)
    requires db.Valid()
    modifies db
    ensures db.Valid()
    ensures !Authenticated(userId) ==> r == Err(Error(Unauthorized)) && db.State() == old(db.State())
    ensures Authenticated(userId) ==>
      var user, root, firstFile := userId.value, old(db.nextFolderId), old(db.nextFileId);
      && r == Ok(())
      && root !in old(db.folders)
      && db.folders == old(db.folders)[root := Folder(root, "root", user, None)]
                       + FolderRowsFrom(root + 1, SeedFolderValues(mockFolders, user, root))
      && db.files == old(db.files) + FileRowsFrom(firstFile, SeedFileValues(mockFiles, user, root))
      && |db.folders| == |old(db.folders)| + 1 + |mockFolders|
      && |db.files| == |old(db.files)| + |mockFiles|
      && db.nextFolderId == root + 1 + |mockFolders|
      && db.nextFileId == firstFile + |mockFiles|
      && RootsOf(db.folders, user) == RootsOf(old(db.folders), user) + {root}
      && db.deleteFolderCalls == old(db.deleteFolderCalls)
  {
    if !Authenticated(userId) {
      return Err(Error(Unauthorized));
    }
    var user := userId.value;
    var rootFolderId := db.InsertFolder(FolderValues("root", user, None));
    var insertableFolders := SeedFolderValues(mockFolders, user, rootFolderId);
    var insertableFiles := SeedFileValues(mockFiles, user, rootFolderId);
    db.InsertFolders(insertableFolders);
    db.InsertFiles(insertableFiles);
    SeedingAddsOneRoot(old(db.folders), user, rootFolderId, mockFolders);
    return Ok(());
  }

  /** Each seed folder and seed file keeps its own fields and lands in the
      new root, owned by the caller, under consecutive fresh ids. */
  lemma SeedRowsAt(
    userId: UserId, root: Id, firstFile: Id,
    mockFolders: seq<MockFolder>, mockFiles: seq<MockFile>)
    ensures var seeded := FolderRowsFrom(root + 1, SeedFolderValues(mockFolders, userId, root));
      forall i :: 0 <= i < |mockFolders| ==>
        root + 1 + i in seeded && seeded[root + 1 + i] == Folder(root + 1 + i, mockFolders[i].name, userId, Some(root))
    ensures var seeded := FileRowsFrom(firstFile, SeedFileValues(mockFiles, userId, root));
      forall i :: 0 <= i < |mockFiles| ==>
        firstFile + i in seeded &&
        seeded[firstFile + i] == File(firstFile + i, mockFiles[i].name, mockFiles[i].size, mockFiles[i].url, None, root, userId, None)
  {
    FolderRowsFromAt(root + 1, SeedFolderValues(mockFolders, userId, root));
    FileRowsFromAt(firstFile, SeedFileValues(mockFiles, userId, root));
  }
}
