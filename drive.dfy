/** The Drive helper (src/helpers/drive.ts): `uploadFile` resolves the root folder by
    finding or creating it, and stops there. */
module Drive {
  import opened Wrappers

  const FolderMimeType := "application/vnd.google-apps.folder"
  /** The name the folder query looks for. */
  const SearchedName := "Daily Journal"
  /** The name a newly created folder gets. */
  const CreatedName := "My Folder"

  /** A file in the user's Drive as the folder query sees it. */
  datatype DriveFile = DriveFile(name: string, mimeType: string, id: string)

  /** The file handed to `uploadFile`; only its name is modelled. */
  datatype LocalFile = LocalFile(name: string)

  /** The remote calls `uploadFile` makes, in order. */
  datatype Call = ListFiles(name: string, mimeType: string) | CreateFolder(name: string, mimeType: string)

  /** The files of the user's Drive that the app can see. */
  class Remote {
    var files: seq<DriveFile>

    constructor (files: seq<DriveFile>)
      ensures this.files == files
    {
      this.files := files;
    }
  }

  /** The ids the query `name='…' and mimeType='…'` returns, in listing order. */
  function Matching(files: seq<DriveFile>, name: string, mimeType: string): (ids: seq<string>)
    ensures |ids| <= |files|
    ensures forall id :: id in ids <==>
              exists i :: 0 <= i < |files| && files[i] == DriveFile(name, mimeType, id)
    decreases |files|
  {
    if files == [] then []
    else
      var rest := Matching(files[1..], name, mimeType);
      assert forall i :: 1 <= i < |files| ==> files[i] == files[1..][i - 1];
      if files[0].name == name && files[0].mimeType == mimeType then [files[0].id] + rest else rest
  }

  /** The folder `uploadFile` creates is not one its own query finds. */
  lemma {:induction false} CreatedFolderNotFound(files: seq<DriveFile>, id: string)
    ensures Matching(files + [DriveFile(CreatedName, FolderMimeType, id)], SearchedName, FolderMimeType) ==
            Matching(files, SearchedName, FolderMimeType)
    decreases |files|
  {
    var created := DriveFile(CreatedName, FolderMimeType, id);
    if files == [] {
      assert CreatedName != SearchedName by { assert CreatedName[0] != SearchedName[0]; }
      assert ([created])[1..] == [];
    } else {
      assert (files + [created])[1..] == files[1..] + [created];
      CreatedFolderNotFound(files[1..], id);
    }
  }

  /** `uploadFile`. Without a (non-empty) parent it lists the folders named
      `Daily Journal`; if that fails it stops; if none exists it creates one named
      `My Folder`; otherwise it takes the first match. A failed create leaves no folder
      and no parent: the response hook answers it with an empty response, which carries
      no `id`.
      The file itself is never sent and nothing is returned; `resolved` is the local
      `parent` at the end. */
  method UploadFile(remote: Remote, file: LocalFile, parent: Option<string>, listFails: bool,
                    createFails: bool, newId: string)
    returns (calls: seq<Call>, ghost resolved: Option<string>)
    modifies remote
    ensures parent.GetOr("") != "" ==> calls == [] && resolved == parent && unchanged(remote)
    ensures parent.GetOr("") == "" && listFails ==>
              calls == [ListFiles(SearchedName, FolderMimeType)] && resolved == parent && unchanged(remote)
    ensures parent.GetOr("") == "" && !listFails &&
            Matching(old(remote.files), SearchedName, FolderMimeType) == [] ==>
              calls == [ListFiles(SearchedName, FolderMimeType), CreateFolder(CreatedName, FolderMimeType)]
    ensures parent.GetOr("") == "" && !listFails &&
            Matching(old(remote.files), SearchedName, FolderMimeType) == [] && createFails ==>
              resolved == None && unchanged(remote)
    ensures parent.GetOr("") == "" && !listFails &&
            Matching(old(remote.files), SearchedName, FolderMimeType) == [] && !createFails ==>
              resolved == Some(newId) &&
              remote.files == old(remote.files) + [DriveFile(CreatedName, FolderMimeType, newId)]
    ensures parent.GetOr("") == "" && !listFails &&
            Matching(old(remote.files), SearchedName, FolderMimeType) != [] ==>
              calls == [ListFiles(SearchedName, FolderMimeType)] &&
              resolved == Some(Matching(old(remote.files), SearchedName, FolderMimeType)[0]) &&
              unchanged(remote)
  {
    calls, resolved := [], parent;
    if parent.GetOr("") == "" {
      calls := [ListFiles(SearchedName, FolderMimeType)];
      if listFails {
        return;
      }
      var found := Matching(remote.files, SearchedName, FolderMimeType);
      if found == [] {
        calls := calls + [CreateFolder(CreatedName, FolderMimeType)];
        if createFails {
          resolved := None;
          return;
        }
        remote.files := remote.files + [DriveFile(CreatedName, FolderMimeType, newId)];
        resolved := Some(newId);
      } else {
        resolved := Some(found[0]);
      }
    }
  }

  /** Find-or-create is not idempotent: with no `Daily Journal` folder, two calls in a
      row create two folders. */
  method UploadTwice(remote: Remote, file: LocalFile, firstId: string, secondId: string)
    returns (first: seq<Call>, second: seq<Call>)
    requires Matching(remote.files, SearchedName, FolderMimeType) == []
    modifies remote
    ensures first == second == [ListFiles(SearchedName, FolderMimeType), CreateFolder(CreatedName, FolderMimeType)]
    ensures remote.files == old(remote.files) + [DriveFile(CreatedName, FolderMimeType, firstId),
                                                 DriveFile(CreatedName, FolderMimeType, secondId)]
  {
    ghost var r1, r2;
    first, r1 := UploadFile(remote, file, None, false, false, firstId);
    CreatedFolderNotFound(old(remote.files), firstId);
    second, r2 := UploadFile(remote, file, None, false, false, secondId);
  }
}
