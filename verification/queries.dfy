/** The read queries and the store mutations of the drive
    (src/server/db/queries.ts), over the two tables held as maps. */
module Queries {
  import opened Common
  import opened Schema

  // ---------------------------------------------------------------------
  // Point lookups and child listings
  // ---------------------------------------------------------------------

  /** `getFolderById`: the folder stored under `folderId`, if there is one. */
  function GetFolderById(folders: map<Id, Folder>, folderId: Id): (r: Option<Folder>)
    ensures r.Some? <==> folderId in folders
    ensures r.Some? ==> r.value == folders[folderId]
  {
    if folderId in folders then Some(folders[folderId]) else None
  }

  /** `getFileById`: the file stored under `fileId`, if there is one. */
  function GetFileById(files: map<Id, File>, fileId: Id): (r: Option<File>)
    ensures r.Some? <==> fileId in files
    ensures r.Some? ==> r.value == files[fileId]
  {
    if fileId in files then Some(files[fileId]) else None
  }

  lemma {:induction false} LeastExists(ids: set<Id>)
    requires ids != {}
    ensures exists m :: m in ids && forall k :: k in ids ==> m <= k
  {
    if forall y :: y !in ids { assert false; }
    var x :| x in ids;
    if ids == {x} {
      assert forall k :: k in ids ==> x <= k;
    } else {
      var rest := ids - {x};
      LeastExists(rest);
      var m :| m in rest && forall k :: k in rest ==> m <= k;
      var least := if x < m then x else m;
      forall k | k in ids ensures least <= k {
        if k != x { assert k in rest; }
      }
      assert least in ids;
    }
  }

  /** The ids of a set in strictly ascending order (the `ORDER BY id` of a
      selection). */
  function SortedIds(ids: set<Id>): (r: seq<Id>)
    ensures forall i :: 0 <= i < |r| ==> r[i] in ids
    ensures forall k :: k in ids ==> k in r
    ensures forall i, j :: 0 <= i < j < |r| ==> r[i] < r[j]
    decreases ids
  {
    if ids == {} then []
    else
      LeastExists(ids);
      var m :| m in ids && forall k :: k in ids ==> m <= k;
      [m] + SortedIds(ids - {m})
  }

  /** `getFolders`: the folders whose parent is `folderId`, ordered by id. */
  function GetFolders(folders: map<Id, Folder>, folderId: Id): (r: seq<Folder>)
    requires FoldersKeyed(folders)
    ensures forall i :: 0 <= i < |r| ==>
      r[i].id in folders && folders[r[i].id] == r[i] && r[i].parent == Some(folderId)
    ensures forall k :: k in folders && folders[k].parent == Some(folderId) ==> folders[k] in r
    ensures forall i, j :: 0 <= i < j < |r| ==> r[i].id < r[j].id
  {
    var ids := SortedIds(set k | k in folders && folders[k].parent == Some(folderId));
    var r := seq(|ids|, i requires 0 <= i < |ids| => folders[ids[i]]);
    assert forall i :: 0 <= i < |ids| ==> r[i] == folders[ids[i]];
    assert forall k :: k in folders && folders[k].parent == Some(folderId) ==> folders[k] in r by {
      forall k | k in folders && folders[k].parent == Some(folderId)
        ensures folders[k] in r
      {
        assert k in ids;
        var i :| 0 <= i < |ids| && ids[i] == k;
        assert r[i] == folders[k];
      }
    }
    r
  }

  /** `getFiles`: the files whose parent is `folderId`, ordered by id. */
  function GetFiles(files: map<Id, File>, folderId: Id): (r: seq<File>)
    requires FilesKeyed(files)
    ensures forall i :: 0 <= i < |r| ==>
      r[i].id in files && files[r[i].id] == r[i] && r[i].parent == folderId
    ensures forall k :: k in files && files[k].parent == folderId ==> files[k] in r
    ensures forall i, j :: 0 <= i < j < |r| ==> r[i].id < r[j].id
  {
    var ids := SortedIds(set k | k in files && files[k].parent == folderId);
    var r := seq(|ids|, i requires 0 <= i < |ids| => files[ids[i]]);
    assert forall i :: 0 <= i < |ids| ==> r[i] == files[ids[i]];
    assert forall k :: k in files && files[k].parent == folderId ==> files[k] in r by {
      forall k | k in files && files[k].parent == folderId
        ensures files[k] in r
      {
        assert k in ids;
        var i :| 0 <= i < |ids| && ids[i] == k;
        assert r[i] == files[k];
      }
    }
    r
  }

  // ---------------------------------------------------------------------
  // Ancestry walk
  // ---------------------------------------------------------------------

  /** A ranking that strictly decreases from a folder to its stored parent:
      the parent graph has no cycle. A parent id that is not stored (a
      dangling pointer) is not constrained. */
  ghost predicate Ranked(folders: map<Id, Folder>, rank: map<Id, nat>)
  {
    && folders.Keys <= rank.Keys
    && (forall k :: k in folders && folders[k].parent.Some? && folders[k].parent.value in folders ==>
          rank[folders[k].parent.value] < rank[k])
  }

  /** Termination measure of the walk from `id`. */
  ghost function Height(folders: map<Id, Folder>, rank: map<Id, nat>, id: Id): nat
    requires Ranked(folders, rank)
  {
    if id in folders then rank[id] + 1 else 0
  }

  /** What the walk computes from `id`: root first, `id`'s folder last, or
      "Parent folder not found" when the chain reaches an id not stored. */
  ghost function Ancestry(folders: map<Id, Folder>, rank: map<Id, nat>, id: Id): (r: Result<seq<Folder>>)
    requires Ranked(folders, rank)
    ensures r.Err? ==> r.error == Error(ParentFolderNotFound)
    ensures r.Ok? ==> id in folders && |r.value| > 0 && r.value[|r.value| - 1] == folders[id]
    decreases Height(folders, rank, id)
  {
    if id !in folders then Err(Error(ParentFolderNotFound))
    else
      match folders[id].parent
      case None => Ok([folders[id]])
      case Some(p) =>
        match Ancestry(folders, rank, p)
        case Ok(path) => Ok(path + [folders[id]])
        case Err(e) => Err(e)
  }

  /** `path` is a breadcrumb to `id`: it starts at a root, every folder in it
      is stored, each one is the parent of the next, and it ends at `id`. */
  ghost predicate IsRootPath(folders: map<Id, Folder>, path: seq<Folder>, id: Id)
  {
    && |path| > 0
    && path[|path| - 1].id == id
    && path[0].parent == None
    && (forall i :: 0 <= i < |path| ==> path[i].id in folders && folders[path[i].id] == path[i])
    && (forall i :: 0 <= i < |path| - 1 ==> path[i + 1].parent == Some(path[i].id))
  }

  /** Whatever the walk returns on success is a breadcrumb to `id`. */
  lemma {:induction false} AncestrySound(folders: map<Id, Folder>, rank: map<Id, nat>, id: Id)
    requires FoldersKeyed(folders) && Ranked(folders, rank)
    ensures Ancestry(folders, rank, id).Ok? ==> IsRootPath(folders, Ancestry(folders, rank, id).value, id)
    decreases Height(folders, rank, id)
  {
    if id in folders && folders[id].parent.Some? {
      var p := folders[id].parent.value;
      AncestrySound(folders, rank, p);
      var r := Ancestry(folders, rank, p);
      if r.Ok? {
        var path := r.value + [folders[id]];
        assert r.value[|r.value| - 1].id == p;
        assert forall i :: 0 <= i < |path| - 1 ==> path[i + 1].parent == Some(path[i].id) by {
          forall i | 0 <= i < |path| - 1
            ensures path[i + 1].parent == Some(path[i].id)
          {
            if i < |r.value| - 1 {
              assert path[i] == r.value[i] && path[i + 1] == r.value[i + 1];
            }
          }
        }
      }
    }
  }

  /** Every breadcrumb to `id` is what the walk returns: there is at most one. */
  lemma {:induction false} AncestryComplete(folders: map<Id, Folder>, rank: map<Id, nat>, path: seq<Folder>, id: Id)
    requires FoldersKeyed(folders) && Ranked(folders, rank)
    requires IsRootPath(folders, path, id)
    ensures Ancestry(folders, rank, id) == Ok(path)
    decreases |path|
  {
    var n := |path| - 1;
    assert id in folders && folders[id] == path[n];
    if n > 0 {
      var prefix := path[..n];
      var p := path[n - 1].id;
      assert IsRootPath(folders, prefix, p) by {
        assert forall i :: 0 <= i < |prefix| ==> prefix[i] == path[i];
      }
      AncestryComplete(folders, rank, prefix, p);
      assert prefix + [path[n]] == path;
    } else {
      assert path == [folders[id]];
    }
  }

  /** The walk succeeds with `path` exactly when `path` is a breadcrumb to
      `id`, and it fails exactly when no breadcrumb exists, that is, when
      some id on the parent chain is not stored. */
  lemma AncestryCharacterized(folders: map<Id, Folder>, rank: map<Id, nat>, id: Id, path: seq<Folder>)
    requires FoldersKeyed(folders) && Ranked(folders, rank)
    ensures Ancestry(folders, rank, id) == Ok(path) <==> IsRootPath(folders, path, id)
    ensures Ancestry(folders, rank, id).Err? <==> !exists q :: IsRootPath(folders, q, id)
  {
    AncestrySound(folders, rank, id);
    if IsRootPath(folders, path, id) {
      AncestryComplete(folders, rank, path, id);
    }
    if exists q :: IsRootPath(folders, q, id) {
      var q :| IsRootPath(folders, q, id);
      AncestryComplete(folders, rank, q, id);
    }
  }

  /** What remains of the walk when `current` is still to be fetched and
      `parents` has been collected so far. */
  ghost function WalkFrom(folders: map<Id, Folder>, rank: map<Id, nat>, current: Option<Id>, parents: seq<Folder>): Result<seq<Folder>>
    requires Ranked(folders, rank)
  {
    match current
    case None => Ok(parents)
    case Some(c) =>
      match Ancestry(folders, rank, c)
      case Ok(path) => Ok(path + parents)
      case Err(e) => Err(e)
  }

  /** `getAllParentsForFolder`: follows parent pointers upward from
      `folderId`, prepending each folder, until a folder without a parent. */
  method GetAllParentsForFolder(folders: map<Id, Folder>, ghost rank: map<Id, nat>, folderId: Id)
    returns (r: Result<seq<Folder>>)
    requires FoldersKeyed(folders) && Ranked(folders, rank)
    ensures r == Ancestry(folders, rank, folderId)
    ensures r.Ok? ==> IsRootPath(folders, r.value, folderId)
    ensures r.Err? ==> r.error == Error(ParentFolderNotFound)
  {
    var parents: seq<Folder> := [];
    var currentId: Option<Id> := Some(folderId);
    assert forall q: seq<Folder> :: q + parents == q;
    while currentId.Some?
      invariant Ancestry(folders, rank, folderId) == WalkFrom(folders, rank, currentId, parents)
      decreases if currentId.Some? then Height(folders, rank, currentId.value) else 0
    {
      var id := currentId.value;
      if id !in folders {
        r := Err(Error(ParentFolderNotFound));
        AncestrySound(folders, rank, folderId);
        return;
      }
      var folder := folders[id];
      ghost var before := parents;
      parents := [folder] + parents;
      currentId := folder.parent;
      assert currentId.Some? ==> forall q :: q + parents == (q + [folder]) + before;
    }
    r := Ok(parents);
    AncestrySound(folders, rank, folderId);
  }

  // ---------------------------------------------------------------------
  // The store and its mutations
  // ---------------------------------------------------------------------

  /** The values an insert supplies for a folder row (the id is issued). */
  datatype FolderValues = FolderValues(name: string, ownerId: UserId, parent: Option<Id>)

  /** The values an insert supplies for a file row (the id is issued). */
  datatype FileValues = FileValues(
    name: string,
    size: int,
    url: string,
    fileType: Option<string>,
    parent: Id,
    ownerId: UserId,
    utKey: Option<string>)

  /** The `file` part of the input of `createFile`. */
  datatype FileInput = FileInput(name: string, size: int, url: string, fileType: Option<string>, parent: Id)

  /** The `folder` part of the input of `createFolder`. */
  datatype FolderInput = FolderInput(name: string, parent: Option<Id>)

  function FolderRow(id: Id, v: FolderValues): Folder
  {
    Folder(id, v.name, v.ownerId, v.parent)
  }

  function FileRow(id: Id, v: FileValues): File
  {
    File(id, v.name, v.size, v.url, v.fileType, v.parent, v.ownerId, v.utKey)
  }

  /** The rows a multi-row insert of `rows` adds when ids are issued
      consecutively from `start`. */
  function FolderRowsFrom(start: Id, rows: seq<FolderValues>): map<Id, Folder>
  {
    if rows == [] then map[]
    else FolderRowsFrom(start, rows[..|rows| - 1])[start + |rows| - 1 := FolderRow(start + |rows| - 1, rows[|rows| - 1])]
  }

  /** The i-th row of a multi-row insert gets id `start + i`, and no other
      id is used. */
  lemma {:induction false} FolderRowsFromAt(start: Id, rows: seq<FolderValues>)
    ensures forall k :: k in FolderRowsFrom(start, rows) <==> start <= k < start + |rows|
    ensures forall i :: 0 <= i < |rows| ==> FolderRowsFrom(start, rows)[start + i] == FolderRow(start + i, rows[i])
  {
    if rows != [] {
      var n := |rows| - 1;
      FolderRowsFromAt(start, rows[..n]);
      assert forall j :: 0 <= j < n ==> rows[..n][j] == rows[j];
    }
  }

  /** The rows a multi-row insert of `rows` adds when ids are issued
      consecutively from `start`. */
  function FileRowsFrom(start: Id, rows: seq<FileValues>): map<Id, File>
  {
    if rows == [] then map[]
    else FileRowsFrom(start, rows[..|rows| - 1])[start + |rows| - 1 := FileRow(start + |rows| - 1, rows[|rows| - 1])]
  }

  /** The i-th row of a multi-row insert gets id `start + i`, and no other
      id is used. */
  lemma {:induction false} FileRowsFromAt(start: Id, rows: seq<FileValues>)
    ensures forall k :: k in FileRowsFrom(start, rows) <==> start <= k < start + |rows|
    ensures forall i :: 0 <= i < |rows| ==> FileRowsFrom(start, rows)[start + i] == FileRow(start + i, rows[i])
  {
    if rows != [] {
      var n := |rows| - 1;
      FileRowsFromAt(start, rows[..n]);
      assert forall j :: 0 <= j < n ==> rows[..n][j] == rows[j];
    }
  }

  /** One more row of a multi-row insert keeps the table equal to the old
      table plus the rows inserted so far. */
  lemma FolderRowsStep(base: map<Id, Folder>, start: Id, rows: seq<FolderValues>, i: nat)
    requires i < |rows|
    ensures (base + FolderRowsFrom(start, rows[..i]))[start + i := FolderRow(start + i, rows[i])]
      == base + FolderRowsFrom(start, rows[..i + 1])
  {
    assert rows[..i + 1][..i] == rows[..i];
  }

  /** One more row of a multi-row insert keeps the table equal to the old
      table plus the rows inserted so far. */
  lemma FileRowsStep(base: map<Id, File>, start: Id, rows: seq<FileValues>, i: nat)
    requires i < |rows|
    ensures (base + FileRowsFrom(start, rows[..i]))[start + i := FileRow(start + i, rows[i])]
      == base + FileRowsFrom(start, rows[..i + 1])
  {
    assert rows[..i + 1][..i] == rows[..i];
  }

  /** A multi-row insert under ids above every stored id adds exactly as
      many rows as it is given. */
  lemma {:induction false} FolderRowsCount(base: map<Id, Folder>, start: Id, rows: seq<FolderValues>)
    requires forall k :: k in base ==> k < start
    ensures |base + FolderRowsFrom(start, rows)| == |base| + |rows|
  {
    if rows != [] {
      var n := |rows| - 1;
      FolderRowsCount(base, start, rows[..n]);
      FolderRowsFromAt(start, rows[..n]);
      assert start + n !in base + FolderRowsFrom(start, rows[..n]);
      FolderRowsStep(base, start, rows, n);
      assert rows[..n + 1] == rows;
    }
  }

  /** A multi-row insert under ids above every stored id adds exactly as
      many rows as it is given. */
  lemma {:induction false} FileRowsCount(base: map<Id, File>, start: Id, rows: seq<FileValues>)
    requires forall k :: k in base ==> k < start
    ensures |base + FileRowsFrom(start, rows)| == |base| + |rows|
  {
    if rows != [] {
      var n := |rows| - 1;
      FileRowsCount(base, start, rows[..n]);
      FileRowsFromAt(start, rows[..n]);
      assert start + n !in base + FileRowsFrom(start, rows[..n]);
      FileRowsStep(base, start, rows, n);
      assert rows[..n + 1] == rows;
    }
  }

  /** The folder a fresh id may be ranked at: one above its stored parent. */
  ghost function RankBelow(folders: map<Id, Folder>, rank: map<Id, nat>, parent: Option<Id>): nat
    requires Ranked(folders, rank)
  {
    if parent.Some? && parent.value in folders then rank[parent.value] + 1 else 0
  }

  /** Everything about the database a caller can observe. */
  datatype Snapshot = Snapshot(
    folders: map<Id, Folder>,
    files: map<Id, File>,
    nextFolderId: Id,
    nextFileId: Id,
    deleteFolderCalls: seq<(Id, UserId)>)

  /** The database: both tables, the AUTOINCREMENT counters that issue ids,
      and, as ghost state, a ranking witnessing that the parent graph has
      no cycle and the calls made to the folder deletion. */
  class Database {
    var folders: map<Id, Folder>
    var files: map<Id, File>
    var nextFolderId: Id
    var nextFileId: Id
    ghost var rank: map<Id, nat>
    ghost var deleteFolderCalls: seq<(Id, UserId)>

    ghost predicate Valid()
      reads this
    {
      && FoldersKeyed(folders)
      && FilesKeyed(files)
      && (forall k :: k in folders ==> k < nextFolderId)
      && (forall k :: k in files ==> k < nextFileId)
      && (forall k :: k in folders && folders[k].parent.Some? ==> folders[k].parent.value < nextFolderId)
      && Ranked(folders, rank)
    }

    ghost function State(): Snapshot
      reads this
    {
      Snapshot(folders, files, nextFolderId, nextFileId, deleteFolderCalls)
    }

    /** An empty database; SQLite issues the first id 1. */
    constructor ()
      ensures Valid()
      ensures folders == map[] && files == map[] && deleteFolderCalls == []
      ensures nextFolderId == 1 && nextFileId == 1
    {
      folders, files := map[], map[];
      nextFolderId, nextFileId := 1, 1;
      rank := map[];
      deleteFolderCalls := [];
    }

    /** `db.insert(folders_table).values(v)`: adds one row under a fresh id
        and returns that id (`lastInsertRowid`). */
    method InsertFolder(v: FolderValues) returns (id: Id)
      requires Valid()
      requires v.parent.Some? ==> v.parent.value < nextFolderId
      modifies this
      ensures Valid()
      ensures id == old(nextFolderId) && id !in old(folders)
      ensures folders == old(folders)[id := FolderRow(id, v)]
      ensures nextFolderId == id + 1
      ensures files == old(files) && nextFileId == old(nextFileId)
      ensures deleteFolderCalls == old(deleteFolderCalls)
    {
      id := nextFolderId;
      rank := rank[id := RankBelow(folders, rank, v.parent)];
      folders := folders[id := FolderRow(id, v)];
      nextFolderId := nextFolderId + 1;
    }

    /** `db.insert(files_table).values(v)`: adds one row under a fresh id. */
    method InsertFile(v: FileValues) returns (id: Id)
      requires Valid()
      modifies this
      ensures Valid()
      ensures id == old(nextFileId) && id !in old(files)
      ensures files == old(files)[id := FileRow(id, v)]
      ensures nextFileId == id + 1
      ensures folders == old(folders) && nextFolderId == old(nextFolderId)
      ensures rank == old(rank) && deleteFolderCalls == old(deleteFolderCalls)
    {
      id := nextFileId;
      files := files[id := FileRow(id, v)];
      nextFileId := nextFileId + 1;
    }

    /** A multi-row insert into the folders table: the rows get consecutive
        fresh ids, in order. */
    method InsertFolders(rows: seq<FolderValues>)
      requires Valid()
      requires forall i :: 0 <= i < |rows| && rows[i].parent.Some? ==> rows[i].parent.value < nextFolderId
      modifies this
      ensures Valid()
      ensures nextFolderId == old(nextFolderId) + |rows|
      ensures folders == old(folders) + FolderRowsFrom(old(nextFolderId), rows)
      ensures |folders| == |old(folders)| + |rows|
      ensures files == old(files) && nextFileId == old(nextFileId)
      ensures deleteFolderCalls == old(deleteFolderCalls)
    {
      var i := 0;
      assert rows[..0] == [];
      while i < |rows|
        invariant 0 <= i <= |rows|
        invariant Valid()
        invariant nextFolderId == old(nextFolderId) + i
        invariant folders == old(folders) + FolderRowsFrom(old(nextFolderId), rows[..i])
        invariant files == old(files) && nextFileId == old(nextFileId)
        invariant deleteFolderCalls == old(deleteFolderCalls)
      {
        FolderRowsStep(old(folders), old(nextFolderId), rows, i);
        var id := InsertFolder(rows[i]);
        i := i + 1;
      }
      assert rows[..|rows|] == rows;
      FolderRowsCount(old(folders), old(nextFolderId), rows);
    }

    /** A multi-row insert into the files table. */
    method InsertFiles(rows: seq<FileValues>)
      requires Valid()
      modifies this
      ensures Valid()
      ensures nextFileId == old(nextFileId) + |rows|
      ensures files == old(files) + FileRowsFrom(old(nextFileId), rows)
      ensures |files| == |old(files)| + |rows|
      ensures folders == old(folders) && nextFolderId == old(nextFolderId)
      ensures deleteFolderCalls == old(deleteFolderCalls)
    {
      var i := 0;
      assert rows[..0] == [];
      while i < |rows|
        invariant 0 <= i <= |rows|
        invariant Valid()
        invariant nextFileId == old(nextFileId) + i
        invariant files == old(files) + FileRowsFrom(old(nextFileId), rows[..i])
        invariant folders == old(folders) && nextFolderId == old(nextFolderId)
        invariant deleteFolderCalls == old(deleteFolderCalls)
      {
        FileRowsStep(old(files), old(nextFileId), rows, i);
        var id := InsertFile(rows[i]);
        i := i + 1;
      }
      assert rows[..|rows|] == rows;
      FileRowsCount(old(files), old(nextFileId), rows);
    }

    /** `MUTATIONS.createFile`: inserts the given fields with the owner and
        blob key of the upload. */
    method CreateFile(file: FileInput, userId: UserId, utKey: string) returns (id: Id)
      requires Valid()
      modifies this
      ensures Valid()
      ensures id == old(nextFileId) && id !in old(files)
      ensures files == old(files)[id := File(id, file.name, file.size, file.url, file.fileType, file.parent, userId, Some(utKey))]
      ensures |files| == |old(files)| + 1
      ensures nextFileId == id + 1
      ensures folders == old(folders) && nextFolderId == old(nextFolderId)
      ensures deleteFolderCalls == old(deleteFolderCalls)
    {
      id := InsertFile(FileValues(file.name, file.size, file.url, file.fileType, file.parent, userId, Some(utKey)));
    }

    /** `MUTATIONS.deleteFile`: removes the row with that id, whoever owns it. */
    method DeleteFile(fileId: Id)
      requires Valid()
      modifies this
      ensures Valid()
      ensures files == old(files) - {fileId}
      ensures folders == old(folders) && nextFolderId == old(nextFolderId) && nextFileId == old(nextFileId)
      ensures deleteFolderCalls == old(deleteFolderCalls)
    {
      files := files - {fileId};
    }

    /** `MUTATIONS.deleteUsersFile`: removes the row only when both its id
        and its owner match. */
    method DeleteUsersFile(fileId: Id, userId: UserId)
      requires Valid()
      modifies this
      ensures Valid()
      ensures fileId in old(files) && old(files)[fileId].ownerId == userId ==> files == old(files) - {fileId}
      ensures !(fileId in old(files) && old(files)[fileId].ownerId == userId) ==> files == old(files)
      ensures folders == old(folders) && nextFolderId == old(nextFolderId) && nextFileId == old(nextFileId)
      ensures deleteFolderCalls == old(deleteFolderCalls)
    {
      if fileId in files && files[fileId].ownerId == userId {
        files := files - {fileId};
      }
    }

    /** `MUTATIONS.renameFile`: sets the name of the file with that id. */
    method RenameFile(fileId: Id, newName: string)
      requires Valid()
      modifies this
      ensures Valid()
      ensures fileId in old(files) ==> files == old(files)[fileId := old(files)[fileId].(name := newName)]
      ensures fileId !in old(files) ==> files == old(files)
      ensures folders == old(folders) && nextFolderId == old(nextFolderId) && nextFileId == old(nextFileId)
      ensures deleteFolderCalls == old(deleteFolderCalls)
    {
      if fileId in files {
        files := files[fileId := files[fileId].(name := newName)];
      }
    }

    /** `MUTATIONS.renameFolder`: sets the name of the folder with that id. */
    method RenameFolder(folderId: Id, newName: string)
      requires Valid()
      modifies this
      ensures Valid()
      ensures folderId in old(folders) ==> folders == old(folders)[folderId := old(folders)[folderId].(name := newName)]
      ensures folderId !in old(folders) ==> folders == old(folders)
      ensures files == old(files) && nextFolderId == old(nextFolderId) && nextFileId == old(nextFileId)
      ensures deleteFolderCalls == old(deleteFolderCalls)
    {
      if folderId in folders {
        folders := folders[folderId := folders[folderId].(name := newName)];
      }
    }

    /** `MUTATIONS.createFolder`: inserts a folder with the given name and
        parent, owned by `userId`, and returns its id. */
    method CreateFolder(folder: FolderInput, userId: UserId) returns (id: Id)
      requires Valid()
      requires folder.parent.Some? ==> folder.parent.value < nextFolderId
      modifies this
      ensures Valid()
      ensures id == old(nextFolderId) && id !in old(folders)
      ensures folders == old(folders)[id := Folder(id, folder.name, userId, folder.parent)]
      ensures |folders| == |old(folders)| + 1
      ensures nextFolderId == id + 1
      ensures files == old(files) && nextFileId == old(nextFileId)
      ensures deleteFolderCalls == old(deleteFolderCalls)
    {
      id := InsertFolder(FolderValues(folder.name, userId, folder.parent));
    }

    /** `MUTATIONS.deleteFolder(folderId, userId)`. Which rows it removes is
        decided by code that is not part of this model, so they are given as
        `removedFolders` and `removedFiles`; the call itself is recorded. */
    method DeleteFolder(folderId: Id, userId: UserId, removedFolders: set<Id>, removedFiles: set<Id>)
      requires Valid()
      modifies this
      ensures Valid()
      ensures folders == old(folders) - removedFolders && files == old(files) - removedFiles
      ensures nextFolderId == old(nextFolderId) && nextFileId == old(nextFileId)
      ensures deleteFolderCalls == old(deleteFolderCalls) + [(folderId, userId)]
    {
      folders := folders - removedFolders;
      files := files - removedFiles;
      deleteFolderCalls := deleteFolderCalls + [(folderId, userId)];
    }
  }
}
