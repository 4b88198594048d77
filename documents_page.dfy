/** The document browser (`DocumentsPage`): a breadcrumb stack of opened
    folders whose last entry is the current folder, the list requests built
    from the current folder and the filters, and the create-folder and
    upload handlers. */
module DocumentsPage {
  import opened Common
  import opened Api

  const RootName: string := "Документы"
  const EnterFolderNameText: string := "Введите имя папки"
  const FolderCreatedText: string := "Папка создана"
  const FilesUploadedText: string := "Файлы загружены"
  const FileDeletedText: string := "Файл удалён"
  const FolderDeletedText: string := "Папка удалена"
  const PublicAccess: string := "public"
  const PrivateAccess: string := "private"

  /** One breadcrumb: a folder id (none for the root) and its name. */
  datatype Crumb = Crumb(id: Option<int>, name: string)

  const Root: Crumb := Crumb(None, RootName)

  /** `folderParams`: the parent folder, client and user, each only when set. */
  function FolderParams(folder: Option<int>, client: Option<int>, user: Option<int>): (r: Params)
    ensures r.Keys <= {"parent_folder_id", "client_id", "user_id"}
    ensures ("parent_folder_id" in r <==> IdSet(folder)) && (IdSet(folder) ==> r["parent_folder_id"] == IntParam(folder.value))
    ensures ("client_id" in r <==> IdSet(client)) && (IdSet(client) ==> r["client_id"] == IntParam(client.value))
    ensures ("user_id" in r <==> IdSet(user)) && (IdSet(user) ==> r["user_id"] == IntParam(user.value))
  {
    var p0: Params := map[];
    var p1 := if IdSet(folder) then p0["parent_folder_id" := IntParam(folder.value)] else p0;
    var p2 := if IdSet(client) then p1["client_id" := IntParam(client.value)] else p1;
    if IdSet(user) then p2["user_id" := IntParam(user.value)] else p2
  }

  /** `fileParams`: the folder, client, user and file name, each only when set. */
  function FileParams(folder: Option<int>, client: Option<int>, user: Option<int>, search: string): (r: Params)
    ensures r.Keys <= {"folder_id", "client_id", "user_id", "filename"}
    ensures ("folder_id" in r <==> IdSet(folder)) && (IdSet(folder) ==> r["folder_id"] == IntParam(folder.value))
    ensures ("client_id" in r <==> IdSet(client)) && (IdSet(client) ==> r["client_id"] == IntParam(client.value))
    ensures ("user_id" in r <==> IdSet(user)) && (IdSet(user) ==> r["user_id"] == IntParam(user.value))
    ensures ("filename" in r <==> search != "") && (search != "" ==> r["filename"] == StrParam(search))
  {
    var p0: Params := map[];
    var p1 := if IdSet(folder) then p0["folder_id" := IntParam(folder.value)] else p0;
    var p2 := if IdSet(client) then p1["client_id" := IntParam(client.value)] else p1;
    var p3 := if IdSet(user) then p2["user_id" := IntParam(user.value)] else p2;
    if search != "" then p3["filename" := StrParam(search)] else p3
  }

  /** The two requests filter alike: apart from the name of the folder key
      and the file-name search, they carry the same parameters. */
  lemma ParamsAgree(folder: Option<int>, client: Option<int>, user: Option<int>, search: string)
    ensures FolderParams(folder, client, user) - {"parent_folder_id"} ==
            FileParams(folder, client, user, search) - {"folder_id", "filename"}
    ensures ("parent_folder_id" in FolderParams(folder, client, user)) == ("folder_id" in FileParams(folder, client, user, search))
  {
    var a := FolderParams(folder, client, user) - {"parent_folder_id"};
    var b := FileParams(folder, client, user, search) - {"folder_id", "filename"};
    assert a.Keys == b.Keys;
  }

  /** `grantedUserIds.filter(id => id !== x)`. */
  function WithoutUser(ids: seq<int>, x: int): (r: seq<int>)
    ensures forall y :: y in r <==> y in ids && y != x
    ensures |r| <= |ids|
    ensures x !in ids ==> r == ids
  {
    if ids == [] then []
    else (if ids[0] == x then [] else [ids[0]]) + WithoutUser(ids[1..], x)
  }

  /** Ticking a user and unticking them again restores the grant list. */
  lemma {:induction false} GrantThenRevoke(ids: seq<int>, x: int)
    requires x !in ids
    ensures WithoutUser(ids + [x], x) == ids
  {
    if ids == [] {
      assert [x][1..] == [];
    } else {
      assert (ids + [x])[1..] == ids[1..] + [x];
      GrantThenRevoke(ids[1..], x);
    }
  }

  class DocumentsScreen {
    var currentFolderId: Option<int>
    var folderPath: seq<Crumb>
    var clientFilter: Option<int>
    var userFilter: Option<int>
    var searchFile: string
    var showCreateFolder: bool
    var folderName: string
    var folderAccess: string
    var grantedUserIds: seq<int>

    /** The breadcrumbs start at the root and end at the current folder. */
    predicate Valid()
      reads this
    {
      |folderPath| >= 1 && folderPath[0] == Root && currentFolderId == folderPath[|folderPath| - 1].id
    }

    constructor ()
      ensures Valid() && folderPath == [Root] && currentFolderId == None
      ensures clientFilter == None && userFilter == None && searchFile == ""
      ensures !showCreateFolder && folderName == "" && folderAccess == PublicAccess && grantedUserIds == []
    {
      currentFolderId, folderPath := None, [Root];
      clientFilter, userFilter, searchFile := None, None, "";
      showCreateFolder, folderName, folderAccess, grantedUserIds := false, "", PublicAccess, [];
    }

    /** `navigateToFolder`: one more breadcrumb, which becomes current. */
    method NavigateToFolder(id: int, name: string)
      requires Valid()
      modifies this`currentFolderId, this`folderPath
      ensures Valid()
      ensures folderPath == old(folderPath) + [Crumb(Some(id), name)] && currentFolderId == Some(id)
    {
      currentFolderId := Some(id);
      folderPath := folderPath + [Crumb(Some(id), name)];
    }

    /** `navigateBack`: drops the last breadcrumb unless only the root is left. */
    method NavigateBack()
      requires Valid()
      modifies this`currentFolderId, this`folderPath
      ensures Valid()
      ensures |old(folderPath)| <= 1 ==> folderPath == old(folderPath) && currentFolderId == old(currentFolderId)
      ensures |old(folderPath)| > 1 ==> folderPath == old(folderPath)[..|old(folderPath)| - 1]
    {
      if |folderPath| <= 1 {
        return;
      }
      var newPath := folderPath[..|folderPath| - 1];
      folderPath := newPath;
      currentFolderId := newPath[|newPath| - 1].id;
    }

    /** `navigateToPathItem(index)`: keeps the breadcrumbs up to `index`. */
    method NavigateToPathItem(index: nat)
      requires Valid()
      modifies this`currentFolderId, this`folderPath
      ensures Valid()
      ensures index < |old(folderPath)| ==> folderPath == old(folderPath)[..index + 1]
      ensures index >= |old(folderPath)| ==> folderPath == old(folderPath)
    {
      var newPath := if index + 1 <= |folderPath| then folderPath[..index + 1] else folderPath;
      folderPath := newPath;
      currentFolderId := newPath[|newPath| - 1].id;
    }

    /** The file-name search box (`setSearchFile`). */
    method SetSearchFile(text: string)
      modifies this`searchFile
      ensures searchFile == text
    {
      searchFile := text;
    }

    /** The client dropdown (`setClientFilter`); clearing it gives `None`. */
    method SetClientFilter(v: Option<int>)
      modifies this`clientFilter
      ensures clientFilter == v
    {
      clientFilter := v;
    }

    /** The employee dropdown of a director (`setUserFilter`). */
    method SetUserFilter(v: Option<int>)
      modifies this`userFilter
      ensures userFilter == v
    {
      userFilter := v;
    }

    /** `loadContent`: the two list requests, their params filled one key at
        a time as the page does. */
    method LoadContent() returns (calls: seq<Call>)
      ensures calls == [ListFolders(FolderParams(currentFolderId, clientFilter, userFilter)),
                        ListFiles(FileParams(currentFolderId, clientFilter, userFilter, searchFile))]
    {
      var folderParams: Params := map[];
      if IdSet(currentFolderId) { folderParams := folderParams["parent_folder_id" := IntParam(currentFolderId.value)]; }
      if IdSet(clientFilter) { folderParams := folderParams["client_id" := IntParam(clientFilter.value)]; }
      if IdSet(userFilter) { folderParams := folderParams["user_id" := IntParam(userFilter.value)]; }
      var fileParams: Params := map[];
      if IdSet(currentFolderId) { fileParams := fileParams["folder_id" := IntParam(currentFolderId.value)]; }
      if IdSet(clientFilter) { fileParams := fileParams["client_id" := IntParam(clientFilter.value)]; }
      if IdSet(userFilter) { fileParams := fileParams["user_id" := IntParam(userFilter.value)]; }
      if searchFile != "" { fileParams := fileParams["filename" := StrParam(searchFile)]; }
      calls := [ListFolders(folderParams), ListFiles(fileParams)];
    }

    /** A tick in the access list of a private folder. */
    method ToggleGrant(id: int, checked: bool)
      modifies this`grantedUserIds
      ensures checked ==> grantedUserIds == old(grantedUserIds) + [id]
      ensures !checked ==> grantedUserIds == WithoutUser(old(grantedUserIds), id)
    {
      if checked {
        grantedUserIds := grantedUserIds + [id];
      } else {
        grantedUserIds := WithoutUser(grantedUserIds, id);
      }
    }

    /** `handleCreateFolder`: an empty name is refused without a call; the
        access list is sent only for a private folder; success resets the
        dialog and reloads. */
    method HandleCreateFolder(reply: Reply<bool>) returns (calls: seq<Call>, toasts: seq<Toast>)
      modifies this`showCreateFolder, this`folderName, this`folderAccess, this`grantedUserIds
      ensures old(folderName) == "" ==>
        calls == [] && toasts == [ErrorToast(EnterFolderNameText)] &&
        showCreateFolder == old(showCreateFolder) && folderAccess == old(folderAccess) &&
        grantedUserIds == old(grantedUserIds) && folderName == old(folderName)
      ensures old(folderName) != "" ==>
        calls != [] && calls[0] == CreateFolder(old(folderName), old(folderAccess), currentFolderId,
                                 if old(folderAccess) == PrivateAccess then old(grantedUserIds) else [])
      ensures old(folderName) != "" && reply.Ok? ==>
        |calls| == 3 && calls[1..] == [ListFolders(FolderParams(currentFolderId, clientFilter, userFilter)),
                                       ListFiles(FileParams(currentFolderId, clientFilter, userFilter, searchFile))] &&
        toasts == [SuccessToast(FolderCreatedText)] &&
        !showCreateFolder && folderName == "" && folderAccess == PublicAccess && grantedUserIds == []
      ensures old(folderName) != "" && !reply.Ok? ==>
        |calls| == 1 && toasts == [] &&
        showCreateFolder == old(showCreateFolder) && folderName == old(folderName) &&
        folderAccess == old(folderAccess) && grantedUserIds == old(grantedUserIds)
    {
      if folderName == "" {
        return [], [ErrorToast(EnterFolderNameText)];
      }
      calls := [CreateFolder(folderName, folderAccess, currentFolderId,
                             if folderAccess == PrivateAccess then grantedUserIds else [])];
      toasts := [];
      if reply.Ok? {
        toasts := [SuccessToast(FolderCreatedText)];
        showCreateFolder, folderName, folderAccess, grantedUserIds := false, "", PublicAccess, [];
        var reload := LoadContent();
        calls := calls + reload;
      }
    }

    /** `handleUpload` with the chosen files: nothing for none, one upload for
        one file, one multi-upload otherwise; folder and client only when set. */
    method HandleUpload(files: seq<string>, reply: Reply<bool>) returns (calls: seq<Call>, toasts: seq<Toast>)
      ensures files == [] ==> calls == [] && toasts == []
      ensures var folder := if IdSet(currentFolderId) then currentFolderId else None;
        var client := if IdSet(clientFilter) then clientFilter else None;
        (|files| == 1 ==> calls != [] && calls[0] == UploadDocument(files[0], folder, client)) &&
        (|files| > 1 ==> calls != [] && calls[0] == UploadDocuments(files, folder, client))
      ensures files != [] && reply.Ok? ==>
        calls == [calls[0]] + [ListFolders(FolderParams(currentFolderId, clientFilter, userFilter)),
                               ListFiles(FileParams(currentFolderId, clientFilter, userFilter, searchFile))] &&
        toasts == [SuccessToast(FilesUploadedText)]
      ensures files != [] && !reply.Ok? ==> |calls| == 1 && toasts == []
    {
      if files == [] {
        return [], [];
      }
      var folder := if IdSet(currentFolderId) then currentFolderId else None;
      var client := if IdSet(clientFilter) then clientFilter else None;
      if |files| == 1 {
        calls := [UploadDocument(files[0], folder, client)];
      } else {
        calls := [UploadDocuments(files, folder, client)];
      }
      toasts := [];
      if reply.Ok? {
        toasts := [SuccessToast(FilesUploadedText)];
        var reload := LoadContent();
        calls := calls + reload;
      }
    }

    /** `handleDeleteDoc`: the file is deleted and, on success, the listing
        reloaded. */
    method HandleDeleteDoc(id: int, reply: Reply<bool>) returns (calls: seq<Call>, toasts: seq<Toast>)
      ensures reply.Ok? ==>
        calls == [DeleteDocument(id), ListFolders(FolderParams(currentFolderId, clientFilter, userFilter)),
                  ListFiles(FileParams(currentFolderId, clientFilter, userFilter, searchFile))] &&
        toasts == [SuccessToast(FileDeletedText)]
      ensures !reply.Ok? ==> calls == [DeleteDocument(id)] && toasts == []
    {
      calls, toasts := [DeleteDocument(id)], [];
      if reply.Ok? {
        toasts := [SuccessToast(FileDeletedText)];
        var reload := LoadContent();
        calls := calls + reload;
      }
    }

    /** `handleDeleteFolder`: the same for a folder. */
    method HandleDeleteFolder(id: int, reply: Reply<bool>) returns (calls: seq<Call>, toasts: seq<Toast>)
      ensures reply.Ok? ==>
        calls == [DeleteFolder(id), ListFolders(FolderParams(currentFolderId, clientFilter, userFilter)),
                  ListFiles(FileParams(currentFolderId, clientFilter, userFilter, searchFile))] &&
        toasts == [SuccessToast(FolderDeletedText)]
      ensures !reply.Ok? ==> calls == [DeleteFolder(id)] && toasts == []
    {
      calls, toasts := [DeleteFolder(id)], [];
      if reply.Ok? {
        toasts := [SuccessToast(FolderDeletedText)];
        var reload := LoadContent();
        calls := calls + reload;
      }
    }
  }

  /** Choosing a client and typing a file name on a fresh screen: both list
      requests filter by that client, only the file request by the name, and
      neither names a folder. */
  method FilterFreshScreen(client: int, name: string) returns (folders: Params, files: Params)
    requires client != 0
    ensures folders == map["client_id" := IntParam(client)]
    ensures "client_id" in files && files["client_id"] == IntParam(client)
    ensures ("filename" in files <==> name != "") && "folder_id" !in files && "user_id" !in files
  {
    var page := new DocumentsScreen();
    page.SetClientFilter(Some(client));
    page.SetSearchFile(name);
    var calls := page.LoadContent();
    folders, files := calls[0].params, calls[1].params;
  }

  /** Opening folders one after another and then going back as many times
      returns to the root, and one back undoes one open: it restores the
      previous breadcrumbs and makes the previous folder current again. */
  method OpenAndReturn(ids: seq<int>, names: seq<string>)
    returns (afterOpen: seq<Crumb>, afterOneBack: seq<Crumb>, oneBackCurrent: Option<int>,
             afterBack: seq<Crumb>, current: Option<int>)
    requires |names| == |ids|
    ensures |afterOpen| == |ids| + 1 && afterOpen[0] == Root
    ensures forall k :: 0 <= k < |ids| ==> afterOpen[k + 1] == Crumb(Some(ids[k]), names[k])
    ensures ids != [] ==> afterOneBack == afterOpen[..|ids|]
    ensures |ids| > 1 ==> oneBackCurrent == Some(ids[|ids| - 2])
    ensures |ids| <= 1 ==> oneBackCurrent == None
    ensures afterBack == [Root] && current == None
  {
    var page := new DocumentsScreen();
    var k := 0;
    while k < |ids|
      invariant 0 <= k <= |ids|
      invariant page.Valid() && |page.folderPath| == k + 1
      invariant forall j :: 0 <= j < k ==> page.folderPath[j + 1] == Crumb(Some(ids[j]), names[j])
    {
      page.NavigateToFolder(ids[k], names[k]);
      k := k + 1;
    }
    afterOpen := page.folderPath;
    page.NavigateBack();
    afterOneBack, oneBackCurrent := page.folderPath, page.currentFolderId;
    while |page.folderPath| > 1
      invariant page.Valid()
      decreases |page.folderPath|
    {
      page.NavigateBack();
    }
    afterBack, current := page.folderPath, page.currentFolderId;
  }
}
