# Google Drive upload connector, modelled in Dafny

This project models the core of the Bonita connector that uploads process documents to a
Google shared drive. The core has two parts:

- **`GoogleDriveUpload`**, the connector. It validates its inputs (`driveID`,
  `credentialsJSON`, `attachments`, `createFolder`). It resolves each attachment, which is
  either a document name in the current process instance or a document. It can create a
  folder at the drive root. It uploads every attachment into that folder, or into the
  current folder, and publishes `createdFolderID` and `createdFileList`.
- **`GDriveUtils`**, the gateway to the Drive API. It caches the HTTP transport and opens a
  service-account session. It creates folders and files under "the given folder, else the
  drive root". It lists a folder's content with a `'<id>' in parents` query, walks the
  paginated shared-drives listing, and deletes files and folders.

The Drive service is modelled as an in-memory store (`DriveBackend.Store`). It holds the
created items, a counter that issues fresh ids, and a log of every request issued to it. A
fault plan (`failAt`) says which requests fail with an I/O error. `RemoteDrive` is the
mutable object a session talks to. Each of its methods applies one pure transition to the
store's value.

Each gateway operation and the connector's `executeBusinessLogic` are `method`s on classes
with the source's fields. Each is proved against a function on the store's value
(`CreateFolderOn`, `CreateFileOn`, `FolderContentOn`, `ListDrivesFrom`, `DeleteOn`,
`BusinessLogic`). The lemmas are about those functions.

Modules:

| file | module | models |
|---|---|---|
| `wrappers.dfy` | `Wrappers` | `Option`, `Result`, `Outcome` |
| `drive_backend.dfy` | `DriveBackend` | the remote Drive store, fresh ids, requests and faults |
| `gdrive_utils.dfy` | `GDrive` | `GDriveUtils` |
| `google_drive_upload.dfy` | `Connector` | `GoogleDriveUpload` |
| `upload_properties.dfy` | `UploadProperties` | properties of validation, resolution, the upload loop and the execution |

Java's `null` is modelled as `None` or as an absent key of the input map.

`createFolder` goes through a "mandatory" check that only checks its type: an absent
`createFolder` passes validation, and `executeBusinessLogic` then fails when it unboxes
it. The model follows the code (`CheckMandatoryBoolean`, `AbsentCreateFolderFailsLate`).

The connector does not reset its `folderId` field between executions. So with
`createFolder` false, the upload target is whatever folder the connector last created,
and for a fresh connector it is the drive root. The model keeps that field.

## Model

| member | source | states |
|---|---|---|
| DriveBackend.IdOfInjective | src/main/java/com/bonitasoft/presales/gdrive/GDriveUtils.java:122-123 | distinct counter values give distinct ids, so ids returned by create requests never collide |
| DriveBackend.FreshId | src/main/java/com/bonitasoft/presales/gdrive/GDriveUtils.java:122-123 | the id handed out next was never handed out before |
| DriveBackend.CreateKeepsValid | src/main/java/com/bonitasoft/presales/gdrive/GDriveUtils.java:149-155 | a create keeps every stored id issued and unique, and returns an id no stored item has |
| DriveBackend.DeleteRemovesOnly | src/main/java/com/bonitasoft/presales/gdrive/GDriveUtils.java:187-190 | a delete logs one request and succeeds iff the request does not fail and the id is stored; it then removes exactly that one item and keeps every other; on failure the items are unchanged |
| DriveBackend.SelectMembers | src/main/java/com/bonitasoft/presales/gdrive/GDriveUtils.java:166-180 | a listing holds exactly the stored items of the drive that have the queried parent |
| DriveBackend.RemoteDrive.Create | src/main/java/com/bonitasoft/presales/gdrive/GDriveUtils.java:149-155 | the session's store applies one create request, and a valid store stays valid |
| DriveBackend.RemoteDrive.Delete | src/main/java/com/bonitasoft/presales/gdrive/GDriveUtils.java:189 | the session's store applies one delete request, and a valid store stays valid |
| DriveBackend.RemoteDrive.List | src/main/java/com/bonitasoft/presales/gdrive/GDriveUtils.java:180 | the session's store applies one file listing request, changing only its log |
| DriveBackend.RemoteDrive.Drives | src/main/java/com/bonitasoft/presales/gdrive/GDriveUtils.java:95-101 | the session's store applies one drives page request, changing only its log |
| GDrive.ParentFolder | src/main/java/com/bonitasoft/presales/gdrive/GDriveUtils.java:113-116 | the parent is the given folder when there is one, else the drive id |
| GDrive.StripTrailingSeparators | src/main/java/com/bonitasoft/presales/gdrive/GDriveUtils.java:145 | normalising a path keeps a prefix of it, is empty only for the empty path, and leaves no trailing separator except a lone root |
| GDrive.StrippedOnlySeparators | src/main/java/com/bonitasoft/presales/gdrive/GDriveUtils.java:145 | normalising drops nothing but trailing separators |
| GDrive.BaseName | src/main/java/com/bonitasoft/presales/gdrive/GDriveUtils.java:145 | `getName()` of the file: the last name of the path without trailing separators; its properties are stated by `BaseNameOfPath` |
| GDrive.BaseNameOfPath | src/main/java/com/bonitasoft/presales/gdrive/GDriveUtils.java:145 | a created file's stored name holds no separator, ends the normalised path, and is the whole path when the path has no separator |
| GDrive.FolderQuery | src/main/java/com/bonitasoft/presales/gdrive/GDriveUtils.java:177-179 | a query is set exactly when a parent folder is given |
| GDrive.QueryRoundTrip | src/main/java/com/bonitasoft/presales/gdrive/GDriveUtils.java:177-179 | for a folder id without quotes or backslashes (as every id the service issues is), the model's store reads back from the `'<id>' in parents` query exactly the folder id it was built from |
| GDrive.QuotedIdRejected | src/main/java/com/bonitasoft/presales/gdrive/GDriveUtils.java:178 | the id goes into the query unescaped; the model's store refuses the query when the id holds a quote or a backslash |
| GDrive.UnescapedIdExtendsQuery | src/main/java/com/bonitasoft/presales/gdrive/GDriveUtils.java:178 | an id that closes the literal, such as `x' in parents or 'y`, yields the two-clause query `'x' in parents or 'y' in parents` |
| GDrive.CreateFolderOn | src/main/java/com/bonitasoft/presales/gdrive/GDriveUtils.java:111-130 | one create request with the name, the drive, the single parent and the folder mime type; it fails iff that request fails, and then nothing is stored; on success the only new item is the folder, with the next fresh id |
| GDrive.CreateFileOn | src/main/java/com/bonitasoft/presales/gdrive/GDriveUtils.java:132-162 | one create request with the base name, drive, single parent, mime type and bytes; it fails iff that request fails, and then nothing is stored; on success the only new item is the file, and the fresh id comes back with its view link |
| GDrive.FolderContentOn | src/main/java/com/bonitasoft/presales/gdrive/GDriveUtils.java:164-181 | one list request, restricted by the parents query only when a folder is given; it fails iff the request fails or the folder id holds a quote or a backslash (then as an invalid request of the model's store); the result is exactly the drive's items (with that parent) |
| GDrive.FolderListsUploadedFile | src/test/java/com/bonitasoft/presales/gdrive/GDriveUtilsTest.java:44-80 | a new root folder with one file uploaded into it lists exactly that file, with its id, base name and mime type |
| GDrive.ListDrivesFrom | src/main/java/com/bonitasoft/presales/gdrive/GDriveUtils.java:94-107 | the listing from a given page token with the drives found so far; its properties are stated by `ListDrivesCollectsAllPages` and `ListDrivesFailsWithPage` |
| GDrive.ListDrivesCollectsAllPages | src/main/java/com/bonitasoft/presales/gdrive/GDriveUtils.java:91-108 | without faults, the listing issues one request per page (the first with no token) and returns every page's drives in page order |
| GDrive.ListDrivesFailsWithPage | src/main/java/com/bonitasoft/presales/gdrive/GDriveUtils.java:95-101 | a failing page request ends the listing with that error |
| GDrive.DeleteOn | src/main/java/com/bonitasoft/presales/gdrive/GDriveUtils.java:187-190 | one delete request for that id; it succeeds iff the request does not fail and the id is stored, only items with that id disappear, and the id counter, fault plan and drives pages are unchanged |
| GDrive.DriveUtils.constructor | src/main/java/com/bonitasoft/presales/gdrive/GDriveUtils.java:37 | a new gateway has no transport yet |
| GDrive.DriveUtils.GetTransport | src/main/java/com/bonitasoft/presales/gdrive/GDriveUtils.java:40-45 | the transport is created on first use (which may fail) and afterwards always the same object |
| GDrive.DriveUtils.ServiceAccountSession | src/main/java/com/bonitasoft/presales/gdrive/GDriveUtils.java:68-89 | unreadable credentials fail before the transport is touched; otherwise the session opens iff a transport exists or can be created; a failed creation leaves the transport unset |
| GDrive.DriveUtils.CreateFolder | src/main/java/com/bonitasoft/presales/gdrive/GDriveUtils.java:111-130 | the store and result are those of `CreateFolderOn` |
| GDrive.DriveUtils.CreateFile | src/main/java/com/bonitasoft/presales/gdrive/GDriveUtils.java:132-162 | the store and result are those of `CreateFileOn` |
| GDrive.DriveUtils.GetFolderContent | src/main/java/com/bonitasoft/presales/gdrive/GDriveUtils.java:164-181 | the store and result are those of `FolderContentOn` |
| GDrive.DriveUtils.ListDrives | src/main/java/com/bonitasoft/presales/gdrive/GDriveUtils.java:91-108 | the do-while loop over page tokens yields the store and result of `ListDrivesFrom` from the first page |
| GDrive.DriveUtils.DeleteFile | src/main/java/com/bonitasoft/presales/gdrive/GDriveUtils.java:187-190 | the store and result are those of `DeleteOn` |
| GDrive.DriveUtils.DeleteFolder | src/main/java/com/bonitasoft/presales/gdrive/GDriveUtils.java:183-185 | deleting a folder is deleting the file with the folder's id |
| Connector.CheckMandatoryString | src/main/java/com/bonitasoft/presales/connector/GoogleDriveUpload.java:97-108 | passes iff the input is present, a string and non-empty; a present non-string fails with the cast message, anything else with "missing", always naming that input |
| Connector.CheckMandatoryList | src/main/java/com/bonitasoft/presales/connector/GoogleDriveUpload.java:110-120 | passes iff the input is present and a list; absent fails with "missing", present and not a list with "not a list" |
| Connector.CheckMandatoryBoolean | src/main/java/com/bonitasoft/presales/connector/GoogleDriveUpload.java:122-129 | passes iff the input is absent or a boolean; otherwise fails with "missing" for that input |
| Connector.ValidateInputParameters | src/main/java/com/bonitasoft/presales/connector/GoogleDriveUpload.java:90-95 | a rejection names one of the four inputs, and createFolder is only ever rejected as "missing"; the order is stated by `ValidationReportsFirstFailure` |
| Connector.ValidInputsShape | src/main/java/com/bonitasoft/presales/connector/GoogleDriveUpload.java:90-95 | validated inputs have a string drive id, a list of attachments, and a boolean or absent createFolder |
| Connector.TrimStartBlank | src/main/java/com/bonitasoft/presales/connector/GoogleDriveUpload.java:71 | trimming the front leaves nothing iff every character is at most U+0020, and otherwise starts with a kept character |
| Connector.TrimEmptyIffBlank | src/main/java/com/bonitasoft/presales/connector/GoogleDriveUpload.java:71 | `trim().isEmpty()` holds exactly of strings whose characters are all at most U+0020 |
| Connector.GetDocument | src/main/java/com/bonitasoft/presales/connector/GoogleDriveUpload.java:69-81 | a resolved document is the attachment itself or the last document of that name in the process instance; failures are only the attachment-type error or "not found" for a name with no document |
| Connector.UploadAttachment | src/main/java/com/bonitasoft/presales/connector/GoogleDriveUpload.java:151-160 | one loop pass issues at most one request; a failure stores nothing, and a failed lookup changes nothing; a success stores one item and returns the file with the next fresh id and its view link |
| Connector.UploadFrom | src/main/java/com/bonitasoft/presales/connector/GoogleDriveUpload.java:150-162 | the loop over the remaining attachments, ending at the first failure; its properties are stated by the `Upload...` lemmas |
| Connector.FolderNameOf | src/main/java/com/bonitasoft/presales/connector/GoogleDriveUpload.java:45-47 | the folder name is absent when the input is absent, the string when it is a string, and a cast error otherwise |
| Connector.BusinessLogic | src/main/java/com/bonitasoft/presales/connector/GoogleDriveUpload.java:137-168 | a folder is reported only when createFolder is true, and it has the next fresh id; no file map means the execution failed; an absent createFolder fails before touching the store |
| Connector.OutputsAfter | src/main/java/com/bonitasoft/presales/connector/GoogleDriveUpload.java:146-163 | the folder id output is set once a folder is created, and the file list only when the execution completed; otherwise an earlier file list is kept |
| Connector.GoogleDriveUpload.constructor | src/main/java/com/bonitasoft/presales/connector/GoogleDriveUpload.java:36-39 | a new connector has no gateway, no session, no created files, no folder and no outputs |
| Connector.GoogleDriveUpload.Connect | src/main/java/com/bonitasoft/presales/connector/GoogleDriveUpload.java:172-182 | a new gateway is always installed; the session opens iff the credentials are readable and the transport is available, and each failure is reported with its cause |
| Connector.GoogleDriveUpload.ExecuteBusinessLogic | src/main/java/com/bonitasoft/presales/connector/GoogleDriveUpload.java:137-168 | the store, the outcome, the folder id, the created-files map and the outputs are those of `BusinessLogic` on the old store and folder id |
| Connector.GoogleDriveUpload.UploadAttachments | src/main/java/com/bonitasoft/presales/connector/GoogleDriveUpload.java:149-162 | the attachment loop leaves the store, the outcome and `createdFiles` as `UploadFrom` from an empty map |
| Connector.GoogleDriveUpload.Cleanup | src/main/java/com/bonitasoft/presales/connector/GoogleDriveUpload.java:184-186 | cleanup is one delete of the given folder id through the gateway |
| UploadProperties.ValidationAcceptsExactly | src/main/java/com/bonitasoft/presales/connector/GoogleDriveUpload.java:90-129 | validation accepts exactly a non-empty string drive id and credentials, a list of attachments, and a boolean or absent createFolder |
| UploadProperties.ValidationReportsFirstFailure | src/main/java/com/bonitasoft/presales/connector/GoogleDriveUpload.java:90-95 | validation fails iff one of the four checks fails, and it reports the first failing check in the order driveID, credentialsJSON, attachments, createFolder |
| UploadProperties.MissingDriveIdMessage | src/main/java/com/bonitasoft/presales/connector/GoogleDriveUpload.java:97-103 | an absent drive id is reported first, as "Mandatory parameter 'driveID' is missing." |
| UploadProperties.DriveIdNotStringMessage | src/main/java/com/bonitasoft/presales/connector/GoogleDriveUpload.java:104-107 | a non-string drive id is reported first, as "'driveID' parameter must be a String" |
| UploadProperties.NotAListMessage | src/main/java/com/bonitasoft/presales/connector/GoogleDriveUpload.java:110-120 | "not a list" is reported iff both strings pass and the attachments are present but not a list, and only ever for the attachments |
| UploadProperties.CreateFolderRejection | src/main/java/com/bonitasoft/presales/connector/GoogleDriveUpload.java:122-129 | createFolder is rejected only when present and not a boolean, and then with the "missing" message |
| UploadProperties.GetDocumentResolves | src/main/java/com/bonitasoft/presales/connector/GoogleDriveUpload.java:69-81 | a document resolves to itself; a non-blank name resolves to that name's last document in the process instance, or to "not found"; anything else, blank names included, is refused with the attachment-type error |
| UploadProperties.UploadOnlyAppends | src/main/java/com/bonitasoft/presales/connector/GoogleDriveUpload.java:149-162 | the loop keeps every stored item and every logged request, issues only file creates with content, adds at most one item per attachment, and each added item is a file with content, in the target drive, under the target parent, with the next fresh id |
| UploadProperties.UploadCompletes | src/main/java/com/bonitasoft/presales/connector/GoogleDriveUpload.java:150-162 | the loop completes iff every attachment resolves with stored content and none of its create requests fails; it then issues one create per attachment, in order, with that document's file name, bytes and mime type |
| UploadProperties.UploadFirstStep | src/main/java/com/bonitasoft/presales/connector/GoogleDriveUpload.java:152-160 | in a completed loop the first attachment is put under its document's name as the file created with the next fresh id |
| UploadProperties.UploadOutputKeys | src/main/java/com/bonitasoft/presales/connector/GoogleDriveUpload.java:149-163 | after a completed loop the map's keys are the earlier keys plus exactly the documents' names |
| UploadProperties.UploadKeepsOtherEntries | src/main/java/com/bonitasoft/presales/connector/GoogleDriveUpload.java:160 | an entry no document's name replaces is kept |
| UploadProperties.UploadLastWins | src/main/java/com/bonitasoft/presales/connector/GoogleDriveUpload.java:160 | a name maps to the file created for the last attachment with that name |
| UploadProperties.UploadSizeBound | src/main/java/com/bonitasoft/presales/connector/GoogleDriveUpload.java:149-160 | the loop adds at most one map entry per attachment |
| UploadProperties.UploadSplit | src/main/java/com/bonitasoft/presales/connector/GoogleDriveUpload.java:150-162 | the loop over two stretches is the loop over the first, then, if that completed, the loop over the second |
| UploadProperties.AbortsAtFirstFailure | src/main/java/com/bonitasoft/presales/connector/GoogleDriveUpload.java:150-167 | the first failing attachment ends the execution with its error: later attachments are never attempted, earlier uploads stay, a failed lookup issues no request, and a failed upload issues only its own create |
| UploadProperties.AbsentCreateFolderFailsLate | src/main/java/com/bonitasoft/presales/connector/GoogleDriveUpload.java:141 | validated inputs without createFolder fail on unboxing before any request, with no folder and no outputs |
| UploadProperties.CreateFolderTargetsNewFolder | src/main/java/com/bonitasoft/presales/connector/GoogleDriveUpload.java:141-159 | with createFolder true, exactly one folder is created, first, at the drive root with the given name: every later request is a file create with content and every later item a file under that folder; its id is the folder output, and it stays whatever happens next |
| UploadProperties.NoFolderTargetsCurrent | src/main/java/com/bonitasoft/presales/connector/GoogleDriveUpload.java:149-159 | with createFolder false, no folder is created: every request issued is a file create with content, and every uploaded file goes under the connector's current folder, or the drive root when there is none |
| UploadProperties.EmptyAttachmentsComplete | src/main/java/com/bonitasoft/presales/connector/GoogleDriveUpload.java:149-163 | an empty attachment list without a folder completes with an empty file map and no request |
| UploadProperties.CompletedExecutionOutput | src/main/java/com/bonitasoft/presales/connector/GoogleDriveUpload.java:149-163 | a completed execution's file map is keyed by exactly the documents' names and has at most one entry per attachment |
| UploadProperties.OutputsAfterKeepsOthers | src/main/java/com/bonitasoft/presales/connector/GoogleDriveUpload.java:146-163 | publishing the outputs sets only the folder id and the file list and keeps every other output |
| UploadProperties.FolderUploadCompletes | src/test/java/com/bonitasoft/presales/connector/GoogleDriveUploadTest.java:92-126 | with a folder, resolvable documents with distinct names and no failing request, the execution completes; the folder output is set, and each name maps to its own created file with id and view link |

## Left out

- OAuth installed-application flow (`getDriveServiceViaOAuth`): not used by the connector; it needs a browser and a local server.
- `getAllScopes` wraps the library constant `DriveScopes.all()`; the model's session takes no scopes.
- Credentials parsing, scoping and delegation: the model reduces the JSON credentials to "readable or not". Writing them to a temporary file is not modelled either.
- Writing each document to a local file (`FileUtils.writeByteArrayToFile`): the model takes the local file to hold the document's bytes, so a failing local write is not modelled.
- Logging: it has no effect on the result.
- Field masks, `supportsAllDrives`, `includeItemsFromAllDrives` and corpora: the model's store returns whole items and always spans shared drives.
- The content of `webViewLink` and of ids: the service chooses them. The model uses decimal counter ids and a fixed link pattern as stand-ins.
- A `null` document mime type, and a drives listing whose pages change while it is read: not modelled.
- A document without content, whose `getContentFileName()` is `null`: in the source `new java.io.File(null)` throws a `NullPointerException` before the content is fetched; the model's documents always carry a file name, and a missing content is reported as `DocumentNotFound`.
- GDrive.FolderContentOn: returns every matching item; the source issues one list request and never follows its `nextPageToken`, so on a folder larger than one page of the service it returns only the first page. The model has no page size for file listings. `SelectMembers` and `FolderListsUploadedFile` are stated under the same assumption. Its failure clause for ids holding a quote or a backslash describes the model's query parser, not the service.
- Deleting a folder does not delete its children in the model; the service's cascading delete is not modelled.
- The folder id goes into the parents query unescaped, as in the source. The model's query parser is faithful only for ids without `'` or `\`, which the service never issues: it refuses every other id (`QuotedIdRejected`). The service itself accepts escaped quotes (`\'`), rejects a literal left open by a trailing `\`, and runs an id that closes the literal as a longer query (`UnescapedIdExtendsQuery` shows the two-clause query built from `x' in parents or 'y`); such query injection is not modelled.
- `java.io.File.getName()` is modelled for Unix paths only (separator `/`).
- Connector.GoogleDriveUpload.Cleanup: requires a connected session; a cleanup after a failed `connect` throws a `NullPointerException` from `service.files()` in the source, which is not modelled.
- Connector.GoogleDriveUpload.ExecuteBusinessLogic: requires validated inputs and a connected session, which the Bonita connector lifecycle guarantees; running it out of order (a `NullPointerException` in Java) is not modelled.
- Connector.GoogleDriveUpload.Connect: the Bonita engine's wrapping of the thrown exception is reduced to an error value carrying its cause.
