/** The Drive gateway (`GDriveUtils`): which parent, metadata and query each request
    carries, the paginated drives listing, and the cached HTTP transport. Requests go
    to a `RemoteDrive`; each gateway operation is specified by a function on the
    store's value (`...On`), which the lemmas below are about. */
module GDrive {
  import opened Wrappers
  import opened DriveBackend

  /** The mime type that makes a created item a folder. */
  const FolderMimeType := "application/vnd.google-apps.folder"

  /** What a create request returns: the folder request asks only for the id,
      the file request for the id and the web view link. */
  datatype RemoteFile = RemoteFile(id: string, webViewLink: Option<string>)

  /** A local file: its path and the bytes written to it. */
  datatype LocalFile = LocalFile(path: string, bytes: seq<bv8>)

  /** The link the store reports for a created file. */
  function ViewLink(id: string): string {
    "https://drive.google.com/file/d/" + id + "/view"
  }

  /** The parent of a created item: the given folder, else the drive itself (its root). */
  function ParentFolder(driveId: string, parentFolderId: Option<string>): (p: string)
    ensures parentFolderId.Some? ==> p == parentFolderId.value
    ensures parentFolderId.None? ==> p == driveId
  {
    if parentFolderId.Some? then parentFolderId.value else driveId
  }

  function FolderMetadata(driveId: string, parentFolderId: Option<string>, folderName: Option<string>): Metadata {
    Metadata(folderName, driveId, [ParentFolder(driveId, parentFolderId)], FolderMimeType)
  }

  function FileMetadata(driveId: string, parentFolderId: Option<string>, file: LocalFile, mimeType: string): Metadata {
    Metadata(Some(BaseName(file.path)), driveId, [ParentFolder(driveId, parentFolderId)], mimeType)
  }

  /** A path without its trailing separators; a lone root separator is kept. */
  function StripTrailingSeparators(path: string): (r: string)
    ensures |r| <= |path| && r == path[..|r|]
    ensures r == [] <==> path == []
    ensures |r| > 1 ==> r[|r| - 1] != '/'
  {
    if |path| > 1 && path[|path| - 1] == '/' then StripTrailingSeparators(path[..|path| - 1]) else path
  }

  /** The characters after the last separator. */
  function LastSegment(path: string): string {
    if path == [] || path[|path| - 1] == '/' then []
    else LastSegment(path[..|path| - 1]) + [path[|path| - 1]]
  }

  /** `java.io.File.getName()` on a Unix path: the last name of the normalised path. */
  function BaseName(path: string): string {
    LastSegment(StripTrailingSeparators(path))
  }

  /** The last segment holds no separator and ends the path. */
  lemma {:induction false} LastSegmentIsSuffix(path: string)
    ensures var b := LastSegment(path);
      '/' !in b && |b| <= |path| && b == path[|path| - |b|..]
  {
    if path != [] && path[|path| - 1] != '/' {
      var init := path[..|path| - 1];
      LastSegmentIsSuffix(init);
      var b := LastSegment(init);
      assert path[|path| - |b| - 1..] == init[|init| - |b|..] + [path[|path| - 1]];
    }
  }

  /** The last segment is the whole path when the path has no separator;
      otherwise a separator precedes it. */
  lemma {:induction false} LastSegmentBoundary(path: string)
    ensures var b := LastSegment(path);
      && |b| <= |path|
      && ('/' !in path ==> b == path)
      && ('/' in path ==> |b| < |path| && path[|path| - |b| - 1] == '/')
  {
    if path != [] && path[|path| - 1] != '/' {
      var init := path[..|path| - 1];
      LastSegmentBoundary(init);
      assert path == init + [path[|path| - 1]];
      assert '/' in path <==> '/' in init;
    }
  }

  /** What the file's stored name is, in terms of its path. */
  lemma BaseNameOfPath(path: string)
    ensures '/' !in BaseName(path)
    ensures '/' !in path ==> BaseName(path) == path
    ensures var p := StripTrailingSeparators(path); var b := BaseName(path);
      |b| <= |p| && b == p[|p| - |b|..]
  {
    var p := StripTrailingSeparators(path);
    LastSegmentIsSuffix(p);
    LastSegmentBoundary(p);
    if '/' !in path {
      assert p == path[..|p|];
      if |p| < |path| {
        assert path[|path| - 1] == '/' by {
          StrippedOnlySeparators(path);
        }
      }
    }
  }

  /** Stripping removes nothing but trailing separators. */
  lemma {:induction false} StrippedOnlySeparators(path: string)
    ensures var p := StripTrailingSeparators(path);
      forall i :: |p| <= i < |path| ==> path[i] == '/'
  {
    if |path| > 1 && path[|path| - 1] == '/' {
      StrippedOnlySeparators(path[..|path| - 1]);
    }
  }

  /** The query that restricts a listing to the children of a folder. */
  function FolderQuery(parentFolderId: Option<string>): (q: Option<string>)
    ensures q.Some? <==> parentFolderId.Some?
  {
    if parentFolderId.Some? then Some("'" + parentFolderId.value + "' in parents") else None
  }

  /** Characters that are special inside a query's string literal. */
  predicate PlainId(id: string) {
    '\'' !in id && '\\' !in id
  }

  /** The store reads back exactly the folder the query was built from, when the id
      holds no quote and no backslash. */
  lemma QueryRoundTrip(parentFolderId: string)
    requires PlainId(parentFolderId)
    ensures FolderQuery(Some(parentFolderId)).Some?
    ensures ParseParentsQuery(FolderQuery(Some(parentFolderId)).value) == Some(parentFolderId)
  {
    var q := FolderQuery(Some(parentFolderId)).value;
    assert q[|q| - |ParentsSuffix|..] == ParentsSuffix;
    assert q[1..|q| - |ParentsSuffix|] == parentFolderId;
  }

  /** The id is put in the query unescaped; the store refuses the query when the id holds
      a quote or a backslash. */
  lemma QuotedIdRejected(parentFolderId: string)
    requires !PlainId(parentFolderId)
    ensures FolderQuery(Some(parentFolderId)).Some?
    ensures ParseParentsQuery(FolderQuery(Some(parentFolderId)).value) == None
  {
    var q := FolderQuery(Some(parentFolderId)).value;
    assert q[1..|q| - |ParentsSuffix|] == parentFolderId;
  }

  /** The id is not escaped: an id that closes the literal turns the query into one with
      two clauses, which the service would run as a listing of two folders. */
  lemma UnescapedIdExtendsQuery()
    ensures FolderQuery(Some("x' in parents or 'y")) == Some("'x' in parents or 'y' in parents")
    ensures ParseParentsQuery(FolderQuery(Some("x' in parents or 'y")).value) == None
  {
    assert "'" + "x' in parents or 'y" + "' in parents" == "'x' in parents or 'y' in parents";
    assert '\'' in "x' in parents or 'y" by {
      assert "x' in parents or 'y"[1] == '\'';
    }
    QuotedIdRejected("x' in parents or 'y");
  }

  /** `createFolder`: one create request carrying the folder metadata; the new folder
      is the only new item, its id is fresh, and nothing else changes. */
  function CreateFolderOn(s: Store, driveId: string, parentFolderId: Option<string>, folderName: Option<string>)
    : (r: (Store, Result<RemoteFile, RemoteError>))
    ensures r.0.log == s.log + [CreateCall(Metadata(folderName, driveId, [ParentFolder(driveId, parentFolderId)], FolderMimeType), None)]
    ensures r.0.failAt == s.failAt && r.0.drivePages == s.drivePages
    ensures r.1.Err? <==> FailsNext(s)
    ensures r.1.Err? ==> r.0.items == s.items && r.0.nextId == s.nextId
    ensures r.1.Ok? ==> r.1.value.id == IdOf(s.nextId) && r.0.nextId == s.nextId + 1
    ensures r.1.Ok? ==> r.0.items == s.items + [Item(r.1.value.id, FolderMetadata(driveId, parentFolderId, folderName), None)]
  {
    var (s1, created) := CreateItem(s, FolderMetadata(driveId, parentFolderId, folderName), None);
    (s1, if created.Ok? then Ok(RemoteFile(created.value, None)) else Err(created.error))
  }

  /** `createFile`: one create request carrying the file's base name, the given mime
      type and the file's bytes, under the same parent rule as folders. */
  function CreateFileOn(s: Store, driveId: string, parentFolderId: Option<string>, file: LocalFile, mimeType: string)
    : (r: (Store, Result<RemoteFile, RemoteError>))
    ensures r.0.log == s.log + [CreateCall(FileMetadata(driveId, parentFolderId, file, mimeType), Some(file.bytes))]
    ensures r.0.failAt == s.failAt && r.0.drivePages == s.drivePages
    ensures r.1.Err? <==> FailsNext(s)
    ensures r.1.Err? ==> r.0.items == s.items && r.0.nextId == s.nextId
    ensures r.1.Ok? ==> r.1.value == RemoteFile(IdOf(s.nextId), Some(ViewLink(IdOf(s.nextId)))) && r.0.nextId == s.nextId + 1
    ensures r.1.Ok? ==> r.0.items == s.items + [Item(r.1.value.id, FileMetadata(driveId, parentFolderId, file, mimeType), Some(file.bytes))]
  {
    var (s1, created) := CreateItem(s, FileMetadata(driveId, parentFolderId, file, mimeType), Some(file.bytes));
    (s1, if created.Ok? then Ok(RemoteFile(created.value, Some(ViewLink(created.value)))) else Err(created.error))
  }

  /** `getFolderContent`: the items of the drive, restricted to the folder's children
      when a folder is given. */
  function FolderContentOn(s: Store, driveId: string, parentFolderId: Option<string>): (r: (Store, Result<seq<Item>, RemoteError>))
    ensures r.0 == Record(s, ListFilesCall(driveId, FolderQuery(parentFolderId)))
    ensures r.1.Err? <==> FailsNext(s) || (parentFolderId.Some? && !PlainId(parentFolderId.value))
    ensures r.1.Err? && !FailsNext(s) ==> r.1.error == InvalidRequest
    ensures r.1.Ok? ==> forall x :: x in r.1.value <==> x in s.items && InListing(x, driveId, parentFolderId)
  {
    SelectMembers(s.items, driveId, parentFolderId);
    if parentFolderId.Some? then
      if !PlainId(parentFolderId.value) then
        QuotedIdRejected(parentFolderId.value);
        ListItems(s, driveId, FolderQuery(parentFolderId))
      else
        QueryRoundTrip(parentFolderId.value);
        assert !FailsNext(s) ==> ListItems(s, driveId, FolderQuery(parentFolderId)).1 == Ok(Select(s.items, driveId, parentFolderId));
        ListItems(s, driveId, FolderQuery(parentFolderId))
    else ListItems(s, driveId, None)
  }

  lemma {:induction false} SelectAppend(a: seq<Item>, b: seq<Item>, driveId: string, parent: Option<string>)
    ensures Select(a + b, driveId, parent) == Select(a, driveId, parent) + Select(b, driveId, parent)
  {
    if a != [] {
      SelectAppend(a[1..], b, driveId, parent);
      var ab := a + b;
      assert ab[0] == a[0] && ab[1..] == a[1..] + b;
      var head := if InListing(a[0], driveId, parent) then [a[0]] else [];
      assert Select(ab, driveId, parent) == head + Select(ab[1..], driveId, parent);
      assert Select(a, driveId, parent) == head + Select(a[1..], driveId, parent);
    } else {
      assert a + b == b;
    }
  }

  lemma {:induction false} SelectNone(items: seq<Item>, driveId: string, parent: Option<string>)
    requires forall x :: x in items ==> !InListing(x, driveId, parent)
    ensures Select(items, driveId, parent) == []
  {
    if items != [] {
      assert items[0] in items;
      SelectNone(items[1..], driveId, parent);
    }
  }

  /** A new folder created at the drive root, with one file uploaded into it, lists
      exactly that file, under the file's base name and the given mime type. */
  lemma FolderListsUploadedFile(s: Store, driveId: string, folderName: Option<string>, file: LocalFile, mimeType: string)
    requires NoFaults(s, 3)
    requires driveId != IdOf(s.nextId)
    requires forall x :: x in s.items ==> IdOf(s.nextId) !in x.meta.parents
    ensures var (s1, folder) := CreateFolderOn(s, driveId, None, folderName);
      folder.Ok? &&
      var (s2, created) := CreateFileOn(s1, driveId, Some(folder.value.id), file, mimeType);
      created.Ok? &&
      var (s3, listed) := FolderContentOn(s2, driveId, Some(folder.value.id));
      && listed.Ok? && |listed.value| == 1
      && listed.value[0].id == created.value.id
      && listed.value[0].meta.name == Some(BaseName(file.path))
      && listed.value[0].meta.mimeType == mimeType
  {
    var fid := IdOf(s.nextId);
    assert PlainId(fid);
    var (s1, folder) := CreateFolderOn(s, driveId, None, folderName);
    var (s2, created) := CreateFileOn(s1, driveId, Some(fid), file, mimeType);
    var folderItem := Item(fid, FolderMetadata(driveId, None, folderName), None);
    var fileItem := Item(created.value.id, FileMetadata(driveId, Some(fid), file, mimeType), Some(file.bytes));
    assert s2.items == s.items + [folderItem] + [fileItem];
    SelectAppend(s.items + [folderItem], [fileItem], driveId, Some(fid));
    SelectAppend(s.items, [folderItem], driveId, Some(fid));
    SelectNone(s.items, driveId, Some(fid));
    assert Select([folderItem], driveId, Some(fid)) == [];
    assert Select([fileItem], driveId, Some(fid)) == [fileItem];
  }

  /** The token that designates page `i` of the drives listing. */
  function TokenFor(i: nat): Option<nat> {
    if i == 0 then None else Some(i)
  }

  function Flatten(pages: seq<seq<DriveInfo>>): seq<DriveInfo> {
    if pages == [] then [] else pages[0] + Flatten(pages[1..])
  }

  /** The requests for pages `i` up to `n` - 1, in order. */
  function DrivesRequests(i: nat, n: nat): seq<Call>
    decreases n - i
  {
    if i < n then [ListDrivesCall(TokenFor(i))] + DrivesRequests(i + 1, n) else []
  }

  /** `listDrives` from the request for `pageToken` on, having found `found` so far:
      request a page, add its drives, and continue while the page names a next one. */
  function ListDrivesFrom(s: Store, pageToken: Option<nat>, found: seq<DriveInfo>): (Store, Result<seq<DriveInfo>, RemoteError>)
    decreases |s.drivePages| - PageIndex(pageToken)
  {
    var (s1, page) := ListDrivesPage(s, pageToken);
    if page.Err? then (s1, Err(page.error))
    else if page.value.nextPageToken.None? then (s1, Ok(found + page.value.drives))
    else ListDrivesFrom(s1, page.value.nextPageToken, found + page.value.drives)
  }

  /** No request among the next `n` fails. */
  predicate NoFaults(s: Store, n: nat) {
    forall k :: |s.log| <= k < |s.log| + n ==> k !in s.failAt
  }

  lemma {:induction false} ListDrivesFromPage(s: Store, i: nat, found: seq<DriveInfo>)
    requires i < |s.drivePages|
    requires NoFaults(s, |s.drivePages| - i)
    ensures ListDrivesFrom(s, TokenFor(i), found)
         == (s.(log := s.log + DrivesRequests(i, |s.drivePages|)), Ok(found + Flatten(s.drivePages[i..])))
    decreases |s.drivePages| - i
  {
    var n := |s.drivePages|;
    var s1 := Record(s, ListDrivesCall(TokenFor(i)));
    assert s.drivePages[i..] == [s.drivePages[i]] + s.drivePages[i + 1..];
    assert !FailsNext(s);
    assert ListDrivesPage(s, TokenFor(i)).1 == Ok(DrivesPage(s.drivePages[i], if i + 1 < n then Some(i + 1) else None));
    assert Flatten(s.drivePages[i..]) == s.drivePages[i] + Flatten(s.drivePages[i + 1..]) by {
      assert s.drivePages[i..][1..] == s.drivePages[i + 1..];
    }
    if i + 1 < n {
      assert NoFaults(s1, n - (i + 1));
      ListDrivesFromPage(s1, i + 1, found + s.drivePages[i]);
      assert s1.log + DrivesRequests(i + 1, n) == s.log + DrivesRequests(i, n);
      assert found + s.drivePages[i] + Flatten(s.drivePages[i + 1..]) == found + Flatten(s.drivePages[i..]);
    } else {
      assert s.drivePages[i + 1..] == [];
      assert DrivesRequests(i, n) == [ListDrivesCall(TokenFor(i))];
      assert found + s.drivePages[i] == found + Flatten(s.drivePages[i..]);
    }
  }

  /** Without faults, `listDrives` issues one request per page, the first with no token,
      and returns every page's drives in page order. */
  lemma ListDrivesCollectsAllPages(s: Store)
    requires NoFaults(s, if |s.drivePages| == 0 then 1 else |s.drivePages|)
    ensures |s.drivePages| > 0 ==>
      ListDrivesFrom(s, None, []) == (s.(log := s.log + DrivesRequests(0, |s.drivePages|)), Ok(Flatten(s.drivePages)))
    ensures |s.drivePages| == 0 ==>
      ListDrivesFrom(s, None, []) == (s.(log := s.log + [ListDrivesCall(None)]), Ok([]))
  {
    if |s.drivePages| > 0 {
      ListDrivesFromPage(s, 0, []);
      assert s.drivePages[0..] == s.drivePages;
      var none: seq<DriveInfo> := [];
      assert none + Flatten(s.drivePages) == Flatten(s.drivePages);
    } else {
      assert !FailsNext(s);
      var none: seq<DriveInfo> := [];
      assert none + none == none;
    }
  }

  /** A request that fails ends the listing with that failure. */
  lemma ListDrivesFailsWithPage(s: Store, pageToken: Option<nat>, found: seq<DriveInfo>)
    requires FailsNext(s)
    ensures ListDrivesFrom(s, pageToken, found) == (Record(s, ListDrivesCall(pageToken)), Err(Unavailable))
  {
  }

  /** `deleteFile`: one delete request for exactly that id. */
  function DeleteOn(s: Store, fileId: string): (r: (Store, Outcome<RemoteError>))
    ensures r.0.log == s.log + [DeleteCall(fileId)]
    ensures r.0.nextId == s.nextId && r.0.failAt == s.failAt && r.0.drivePages == s.drivePages
    ensures r.1.Pass? <==> !FailsNext(s) && HasId(s.items, fileId)
    ensures forall x :: x in r.0.items <==> x in s.items && (r.1.Pass? ==> x.id != fileId)
  {
    DeleteItem(s, fileId)
  }

  /** An object the HTTP transport stands for. */
  class Transport {
    constructor () {}
  }

  /** Why a session could not be opened. */
  datatype SessionError = CredentialsUnreadable | TransportUnavailable

  class DriveUtils {
    var transport: Transport?

    constructor ()
      ensures transport == null
    {
      transport := null;
    }

    /** `getTransport`: created on first use (which may fail), then always the same one. */
    method GetTransport(initFails: bool) returns (r: Result<Transport, SessionError>)
      modifies this
      ensures old(transport) != null ==> r == Ok(old(transport)) && transport == old(transport)
      ensures old(transport) == null && initFails ==> r == Err(TransportUnavailable) && transport == null
      ensures old(transport) == null && !initFails ==> r.Ok? && fresh(r.value) && transport == r.value
    {
      if transport == null {
        if initFails {
          return Err(TransportUnavailable);
        }
        transport := new Transport();
      }
      r := Ok(transport);
    }

    /** `getDriveServiceViaServiceAccount`: credentials are read first, then the transport
        is obtained; the session is the store those credentials reach. */
    method ServiceAccountSession(credentialsReadable: bool, transportInitFails: bool, remote: RemoteDrive)
      returns (r: Result<RemoteDrive, SessionError>)
      modifies this
      ensures !credentialsReadable ==> r == Err(CredentialsUnreadable) && transport == old(transport)
      ensures credentialsReadable ==> (r.Ok? <==> old(transport) != null || !transportInitFails)
      ensures credentialsReadable && r.Err? ==> r == Err(TransportUnavailable)
      ensures r.Ok? ==> r.value == remote && transport != null
      ensures old(transport) != null ==> transport == old(transport)
      ensures old(transport) == null && r.Err? ==> transport == null
    {
      if !credentialsReadable {
        return Err(CredentialsUnreadable);
      }
      var t := GetTransport(transportInitFails);
      if t.Err? {
        return Err(t.error);
      }
      r := Ok(remote);
    }

    method CreateFolder(service: RemoteDrive, driveId: string, parentFolderId: Option<string>, folderName: Option<string>)
      returns (r: Result<RemoteFile, RemoteError>)
      modifies service
      ensures (service.Snapshot(), r) == CreateFolderOn(old(service.Snapshot()), driveId, parentFolderId, folderName)
    {
      var created := service.Create(FolderMetadata(driveId, parentFolderId, folderName), None);
      r := if created.Ok? then Ok(RemoteFile(created.value, None)) else Err(created.error);
    }

    method CreateFile(service: RemoteDrive, driveId: string, parentFolderId: Option<string>, file: LocalFile, mimeType: string)
      returns (r: Result<RemoteFile, RemoteError>)
      modifies service
      ensures (service.Snapshot(), r) == CreateFileOn(old(service.Snapshot()), driveId, parentFolderId, file, mimeType)
    {
      var created := service.Create(FileMetadata(driveId, parentFolderId, file, mimeType), Some(file.bytes));
      r := if created.Ok? then Ok(RemoteFile(created.value, Some(ViewLink(created.value)))) else Err(created.error);
    }

    static method GetFolderContent(service: RemoteDrive, driveId: string, parentFolderId: Option<string>)
      returns (r: Result<seq<Item>, RemoteError>)
      modifies service
      ensures (service.Snapshot(), r) == FolderContentOn(old(service.Snapshot()), driveId, parentFolderId)
    {
      r := service.List(driveId, FolderQuery(parentFolderId));
    }

    /** `listDrives`: the first request carries no token; requests continue while the
        last page names a next one; the drives of every page are collected in order. */
    method ListDrives(service: RemoteDrive) returns (r: Result<seq<DriveInfo>, RemoteError>)
      modifies service
      ensures (service.Snapshot(), r) == ListDrivesFrom(old(service.Snapshot()), None, [])
    {
      var drivesFound: seq<DriveInfo> := [];
      var pageToken: Option<nat> := None;
      var more := true;
      while more
        invariant more ==> (ListDrivesFrom(service.Snapshot(), pageToken, drivesFound)
                            == ListDrivesFrom(old(service.Snapshot()), None, []))
        invariant more ==> PageIndex(pageToken) < |service.drivePages| || pageToken.None?
        invariant !more ==> (service.Snapshot(), Ok(drivesFound)) == ListDrivesFrom(old(service.Snapshot()), None, [])
        decreases more, |service.drivePages| - PageIndex(pageToken)
      {
        var page := service.Drives(pageToken);
        if page.Err? {
          return Err(page.error);
        }
        drivesFound := drivesFound + page.value.drives;
        pageToken := page.value.nextPageToken;
        more := pageToken.Some?;
      }
      r := Ok(drivesFound);
    }

    method DeleteFile(service: RemoteDrive, fileId: string) returns (r: Outcome<RemoteError>)
      modifies service
      ensures (service.Snapshot(), r) == DeleteOn(old(service.Snapshot()), fileId)
    {
      r := service.Delete(fileId);
    }

    /** `deleteFolder` is `deleteFile` on the folder's id. */
    method DeleteFolder(service: RemoteDrive, folderId: string) returns (r: Outcome<RemoteError>)
      modifies service
      ensures (service.Snapshot(), r) == DeleteOn(old(service.Snapshot()), folderId)
    {
      r := DeleteFile(service, folderId);
    }
  }
}
