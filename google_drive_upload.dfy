/** The Bonita connector `GoogleDriveUpload`: input validation, attachment resolution,
    the optional folder creation and the upload loop. The host's input map is a map
    from parameter names to values, where an absent key is Java's `null`. */
module Connector {
  import opened Wrappers
  import opened DriveBackend
  import opened GDrive

  const DriveIdInput := "driveID"
  const FolderNameInput := "folderName"
  const AttachmentsInput := "attachments"
  const CredentialsInput := "credentialsJSON"
  const CreateFolderInput := "createFolder"

  const CreatedFileListOutput := "createdFileList"
  const CreatedFolderIdOutput := "createdFolderID"

  /** A Bonita process document: its name, the id of its stored content, the content's
      mime type and the content's file name. */
  datatype Document = Document(name: string, contentStorageId: string, contentMimeType: string, contentFileName: string)

  /** A non-null value of an input parameter or of a list element. `VOther` is any
      other Java object (and, inside a list, `null`). */
  datatype Value = VStr(str: string) | VList(elems: seq<Value>) | VBool(flag: bool) | VDoc(doc: Document) | VOther

  /** The documents of the Bonita engine: the last version of each document by
      (process instance id, document name), and the stored contents by storage id. */
  datatype DocumentStore = DocumentStore(documents: map<(int, string), Document>, contents: map<string, seq<bv8>>)

  /** A rejected input, and the message the `ConnectorValidationException` carries. */
  datatype Violation = Missing(input: string) | NotAString(input: string) | NotAList(input: string)

  function Message(v: Violation): string {
    match v
    case Missing(name) => "Mandatory parameter '" + name + "' is missing."
    case NotAString(name) => "'" + name + "' parameter must be a String"
    case NotAList(name) => "Mandatory parameter '" + name + "' is not a list."
  }

  /** Absent or empty is missing; a present non-string fails the cast. */
  function CheckMandatoryString(inputs: map<string, Value>, name: string): (r: Outcome<Violation>)
    ensures r.Pass? <==> name in inputs && inputs[name].VStr? && |inputs[name].str| > 0
    ensures r.Fail? ==> r.error.input == name && !r.error.NotAList?
    ensures r.Fail? ==> (r.error.NotAString? <==> name in inputs && !inputs[name].VStr?)
  {
    if name !in inputs then Fail(Missing(name))
    else match inputs[name]
      case VStr(value) => if value == "" then Fail(Missing(name)) else Pass
      case _ => Fail(NotAString(name))
  }

  function CheckMandatoryList(inputs: map<string, Value>, name: string): (r: Outcome<Violation>)
    ensures r.Pass? <==> name in inputs && inputs[name].VList?
    ensures r.Fail? ==> r.error.input == name && !r.error.NotAString?
    ensures r.Fail? ==> (r.error.Missing? <==> name !in inputs)
  {
    if name !in inputs then Fail(Missing(name))
    else if !inputs[name].VList? then Fail(NotAList(name))
    else Pass
  }

  /** Only a failing cast is rejected (with the "missing" message); an absent value
      casts to `null` and passes. */
  function CheckMandatoryBoolean(inputs: map<string, Value>, name: string): (r: Outcome<Violation>)
    ensures r.Pass? <==> name !in inputs || inputs[name].VBool?
    ensures r.Fail? ==> r.error == Missing(name)
  {
    if name in inputs && !inputs[name].VBool? then Fail(Missing(name)) else Pass
  }

  /** `validateInputParameters`: the four checks in order; the first rejection is reported. */
  function ValidateInputParameters(inputs: map<string, Value>): (r: Outcome<Violation>)
    ensures r.Fail? ==> r.error.input in [DriveIdInput, CredentialsInput, AttachmentsInput, CreateFolderInput]
    ensures r.Fail? && r.error.input == CreateFolderInput ==> r.error.Missing?
  {
    var driveId := CheckMandatoryString(inputs, DriveIdInput);
    if driveId.Fail? then driveId else
    var credentials := CheckMandatoryString(inputs, CredentialsInput);
    if credentials.Fail? then credentials else
    var attachments := CheckMandatoryList(inputs, AttachmentsInput);
    if attachments.Fail? then attachments else
    CheckMandatoryBoolean(inputs, CreateFolderInput)
  }

  /** Inputs that pass validation have a string drive id and a list of attachments. */
  lemma ValidInputsShape(inputs: map<string, Value>)
    requires ValidateInputParameters(inputs).Pass?
    ensures DriveIdInput in inputs && inputs[DriveIdInput].VStr?
    ensures AttachmentsInput in inputs && inputs[AttachmentsInput].VList?
    ensures CreateFolderInput in inputs ==> inputs[CreateFolderInput].VBool?
  {
    assert CheckMandatoryString(inputs, DriveIdInput).Pass?;
    assert CheckMandatoryList(inputs, AttachmentsInput).Pass?;
  }

  /** Every way an execution can fail. */
  datatype ConnectorError =
    | AttachmentType               // ConnectorException raised by getDocument
    | DocumentNotFound             // DocumentNotFoundException, wrapped in a ConnectorException
    | RemoteIO(cause: RemoteError) // IOException from the gateway, wrapped in a ConnectorException
    | Session(reason: SessionError) // connect: credentials or transport failure, wrapped
    | NullCreateFolder             // unboxing an absent createFolder: NullPointerException
    | FolderNameNotString          // casting a non-string folderName: ClassCastException

  const AttachmentTypeMessage := "Attachments must be document names or org.bonitasoft.engine.bpm.document.Document"

  /** `String.trim()`: drops leading and trailing characters up to U+0020. */
  function TrimStart(s: string): string {
    if s != [] && s[0] <= ' ' then TrimStart(s[1..]) else s
  }

  function TrimEnd(s: string): string {
    if s != [] && s[|s| - 1] <= ' ' then TrimEnd(s[..|s| - 1]) else s
  }

  function Trim(s: string): string {
    TrimEnd(TrimStart(s))
  }

  /** Every character is one that `trim` drops. */
  predicate Blank(s: string) {
    forall i :: 0 <= i < |s| ==> s[i] <= ' '
  }

  lemma {:induction false} TrimStartBlank(s: string)
    ensures TrimStart(s) == [] <==> Blank(s)
    ensures TrimStart(s) != [] ==> TrimStart(s)[0] > ' '
  {
    if s != [] && s[0] <= ' ' {
      TrimStartBlank(s[1..]);
      assert Blank(s) <==> Blank(s[1..]) by {
        if Blank(s[1..]) {
          forall i | 0 <= i < |s| ensures s[i] <= ' ' {
            if i > 0 { assert s[i] == s[1..][i - 1]; }
          }
        }
      }
    } else if s != [] {
      assert !Blank(s);
    }
  }

  lemma {:induction false} TrimEndKeepsHead(s: string)
    requires s != [] && s[0] > ' '
    ensures TrimEnd(s) != []
  {
    if s[|s| - 1] <= ' ' {
      TrimEndKeepsHead(s[..|s| - 1]);
    }
  }

  /** `trim().isEmpty()` holds exactly of blank strings. */
  lemma TrimEmptyIffBlank(s: string)
    ensures Trim(s) == [] <==> Blank(s)
  {
    TrimStartBlank(s);
    if TrimStart(s) != [] {
      TrimEndKeepsHead(TrimStart(s));
    }
  }

  /** `processAPI.getLastDocument(processInstanceId, name)`. */
  function GetLastDocument(docs: DocumentStore, instanceId: int, name: string): Result<Document, ConnectorError> {
    if (instanceId, name) in docs.documents then Ok(docs.documents[(instanceId, name)]) else Err(DocumentNotFound)
  }

  /** `getDocument`: a non-blank name is looked up in the current process instance
      (untrimmed), a document is taken as it is, anything else is refused. */
  function GetDocument(attachment: Value, instanceId: int, docs: DocumentStore): (r: Result<Document, ConnectorError>)
    ensures r.Ok? ==> (attachment.VDoc? && r.value == attachment.doc) ||
                      (attachment.VStr? && (instanceId, attachment.str) in docs.documents &&
                       r.value == docs.documents[(instanceId, attachment.str)])
    ensures r.Err? ==> r.error == AttachmentType || r.error == DocumentNotFound
    ensures r.Err? && r.error == DocumentNotFound ==> attachment.VStr? && (instanceId, attachment.str) !in docs.documents
  {
    match attachment
    case VStr(name) => if Trim(name) != [] then GetLastDocument(docs, instanceId, name) else Err(AttachmentType)
    case VDoc(doc) => Ok(doc)
    case _ => Err(AttachmentType)
  }

  /** Where and for which process instance the attachments are uploaded. */
  datatype Target = Target(instanceId: int, docs: DocumentStore, driveId: string, folderId: Option<string>)

  /** One pass of the loop body: resolve, fetch the content, upload it. The result is
      the document's name and the created file. */
  function UploadAttachment(attachment: Value, t: Target, s: Store): (r: (Store, Result<(string, RemoteFile), ConnectorError>))
    ensures |r.0.log| <= |s.log| + 1 && s.log <= r.0.log
    ensures r.1.Err? ==> r.0.items == s.items && r.0.nextId == s.nextId
    ensures r.1.Err? && !r.1.error.RemoteIO? ==> r.0 == s
    ensures r.1.Ok? ==> r.1.value.1 == RemoteFile(IdOf(s.nextId), Some(ViewLink(IdOf(s.nextId))))
    ensures r.1.Ok? ==> |r.0.items| == |s.items| + 1 && s.items <= r.0.items && r.0.nextId == s.nextId + 1
  {
    match GetDocument(attachment, t.instanceId, t.docs)
    case Err(e) => (s, Err(e))
    case Ok(doc) =>
      if doc.contentStorageId !in t.docs.contents then (s, Err(DocumentNotFound))
      else
        var file := LocalFile(doc.contentFileName, t.docs.contents[doc.contentStorageId]);
        var (s1, created) := CreateFileOn(s, t.driveId, t.folderId, file, doc.contentMimeType);
        if created.Err? then (s1, Err(RemoteIO(created.error))) else (s1, Ok((doc.name, created.value)))
  }

  /** The state of the loop when it stops: the store, the name-to-file map built so far,
      and whether it stopped on a failure. */
  datatype Upload = Upload(store: Store, files: map<string, RemoteFile>, outcome: Outcome<ConnectorError>)

  /** The upload loop over the remaining `attachments`, with `files` put so far; the
      first failure ends it. */
  function UploadFrom(attachments: seq<Value>, t: Target, s: Store, files: map<string, RemoteFile>): Upload
    decreases |attachments|
  {
    if attachments == [] then Upload(s, files, Pass)
    else
      var (s1, uploaded) := UploadAttachment(attachments[0], t, s);
      if uploaded.Err? then Upload(s1, files, Fail(uploaded.error))
      else UploadFrom(attachments[1..], t, s1, files[uploaded.value.0 := uploaded.value.1])
  }

  /** `getFolderName()`: absent is `null`; a non-string fails the cast. */
  function FolderNameOf(inputs: map<string, Value>): (r: Result<Option<string>, ConnectorError>)
    ensures r.Ok? <==> FolderNameInput !in inputs || inputs[FolderNameInput].VStr?
    ensures r.Ok? ==> (r.value.None? <==> FolderNameInput !in inputs)
    ensures r.Ok? && r.value.Some? ==> inputs[FolderNameInput] == VStr(r.value.value)
    ensures r.Err? ==> r.error == FolderNameNotString
  {
    if FolderNameInput !in inputs then Ok(None)
    else if inputs[FolderNameInput].VStr? then Ok(Some(inputs[FolderNameInput].str))
    else Err(FolderNameNotString)
  }

  /** What `executeBusinessLogic` did: the store afterwards, the folder it created (whose
      id was set as an output), the `createdFiles` map it built (`None` when the loop
      was not reached), and how it ended. */
  datatype Execution = Execution(store: Store, createdFolder: Option<string>, files: Option<map<string, RemoteFile>>,
                                 outcome: Outcome<ConnectorError>)

  /** `executeBusinessLogic` on validated inputs, a store, and the connector's current
      `folderId` (the upload target when no folder is created). */
  function BusinessLogic(inputs: map<string, Value>, instanceId: int, docs: DocumentStore, s: Store, folderId: Option<string>)
    : (e: Execution)
    requires ValidateInputParameters(inputs).Pass?
    ensures e.createdFolder.Some? ==> CreateFolderInput in inputs && inputs[CreateFolderInput] == VBool(true)
    ensures e.createdFolder.Some? ==> e.createdFolder.value == IdOf(s.nextId)
    ensures e.files.None? ==> e.outcome.Fail?
    ensures CreateFolderInput !in inputs ==> e.outcome == Fail(NullCreateFolder) && e.store == s
  {
    ValidInputsShape(inputs);
    var driveId := inputs[DriveIdInput].str;
    var attachments := inputs[AttachmentsInput].elems;
    if CreateFolderInput !in inputs then Execution(s, None, None, Fail(NullCreateFolder))
    else if !inputs[CreateFolderInput].flag then
      var u := UploadFrom(attachments, Target(instanceId, docs, driveId, folderId), s, map[]);
      Execution(u.store, None, Some(u.files), u.outcome)
    else match FolderNameOf(inputs)
      case Err(e) => Execution(s, None, None, Fail(e))
      case Ok(name) =>
        var (s1, folder) := CreateFolderOn(s, driveId, None, name);
        if folder.Err? then Execution(s1, None, None, Fail(RemoteIO(folder.error)))
        else
          var u := UploadFrom(attachments, Target(instanceId, docs, driveId, Some(folder.value.id)), s1, map[]);
          Execution(u.store, Some(folder.value.id), Some(u.files), u.outcome)
  }

  /** An output parameter value. */
  datatype Output = FolderIdOutput(id: string) | FileListOutput(files: map<string, RemoteFile>)

  /** The outputs after an execution: the folder id once the folder exists, the file
      map only when every attachment was uploaded. */
  function OutputsAfter(outputs: map<string, Output>, e: Execution): (o: map<string, Output>)
    ensures e.createdFolder.Some? ==> CreatedFolderIdOutput in o && o[CreatedFolderIdOutput] == FolderIdOutput(e.createdFolder.value)
    ensures e.outcome.Pass? && e.files.Some? ==> CreatedFileListOutput in o && o[CreatedFileListOutput] == FileListOutput(e.files.value)
    ensures !(e.outcome.Pass? && e.files.Some?) ==>
      (CreatedFileListOutput in o <==> CreatedFileListOutput in outputs) &&
      (CreatedFileListOutput in outputs ==> o[CreatedFileListOutput] == outputs[CreatedFileListOutput])
  {
    var withFolder := if e.createdFolder.Some? then outputs[CreatedFolderIdOutput := FolderIdOutput(e.createdFolder.value)] else outputs;
    if e.outcome.Pass? && e.files.Some? then withFolder[CreatedFileListOutput := FileListOutput(e.files.value)] else withFolder
  }

  class GoogleDriveUpload {
    const inputs: map<string, Value>
    const instanceId: int
    const documents: DocumentStore
    var gDriveUtils: DriveUtils?
    var driveService: RemoteDrive?
    var createdFiles: Option<map<string, RemoteFile>>
    var folderId: Option<string>
    var outputs: map<string, Output>

    /** A connector as the host sets it up: inputs, execution context and engine API. */
    constructor (inputs: map<string, Value>, instanceId: int, documents: DocumentStore)
      ensures this.inputs == inputs && this.instanceId == instanceId && this.documents == documents
      ensures gDriveUtils == null && driveService == null
      ensures createdFiles == None && folderId == None && outputs == map[]
    {
      this.inputs, this.instanceId, this.documents := inputs, instanceId, documents;
      gDriveUtils, driveService := null, null;
      createdFiles, folderId, outputs := None, None, map[];
    }

    /** `connect`: a new gateway, then a session opened with the credentials (which the
        model takes as readable or not) over the gateway's transport. */
    method Connect(credentialsReadable: bool, transportInitFails: bool, remote: RemoteDrive) returns (r: Outcome<ConnectorError>)
      modifies this`gDriveUtils, this`driveService
      ensures gDriveUtils != null && fresh(gDriveUtils)
      ensures r.Pass? <==> credentialsReadable && !transportInitFails
      ensures !credentialsReadable ==> r == Fail(Session(CredentialsUnreadable))
      ensures credentialsReadable && transportInitFails ==> r == Fail(Session(TransportUnavailable))
      ensures r.Pass? ==> driveService == remote && gDriveUtils.transport != null
      ensures r.Fail? ==> driveService == old(driveService)
    {
      var utils := new DriveUtils();
      gDriveUtils := utils;
      var session := utils.ServiceAccountSession(credentialsReadable, transportInitFails, remote);
      if session.Err? {
        return Fail(Session(session.error));
      }
      driveService := session.value;
      r := Pass;
    }

    /** `executeBusinessLogic`, run by the host after validation and `connect`. */
    method ExecuteBusinessLogic() returns (r: Outcome<ConnectorError>)
      requires ValidateInputParameters(inputs).Pass?
      requires gDriveUtils != null && driveService != null
      modifies this`folderId, this`createdFiles, this`outputs, driveService
      ensures var e := BusinessLogic(inputs, instanceId, documents, old(driveService.Snapshot()), old(folderId));
        && driveService.Snapshot() == e.store
        && r == e.outcome
        && folderId == (if e.createdFolder.Some? then e.createdFolder else old(folderId))
        && createdFiles == (if e.files.Some? then e.files else old(createdFiles))
        && outputs == OutputsAfter(old(outputs), e)
    {
      ValidInputsShape(inputs);
      var driveId := inputs[DriveIdInput].str;
      if CreateFolderInput !in inputs {
        return Fail(NullCreateFolder);
      }
      if inputs[CreateFolderInput].flag {
        var folderName := FolderNameOf(inputs);
        if folderName.Err? {
          return Fail(folderName.error);
        }
        var folder := gDriveUtils.CreateFolder(driveService, driveId, None, folderName.value);
        if folder.Err? {
          return Fail(RemoteIO(folder.error));
        }
        folderId := Some(folder.value.id);
        outputs := outputs[CreatedFolderIdOutput := FolderIdOutput(folder.value.id)];
      }
      var attachments := inputs[AttachmentsInput].elems;
      r := UploadAttachments(attachments, Target(instanceId, documents, driveId, folderId));
      if r.Pass? {
        outputs := outputs[CreatedFileListOutput := FileListOutput(createdFiles.value)];
      }
    }

    /** The attachment loop of `executeBusinessLogic`: `createdFiles` starts empty and
        receives each uploaded file; the first failure ends the loop. */
    method UploadAttachments(attachments: seq<Value>, target: Target) returns (r: Outcome<ConnectorError>)
      requires gDriveUtils != null && driveService != null
      requires target.instanceId == instanceId && target.docs == documents
      modifies this`createdFiles, driveService
      ensures var u := UploadFrom(attachments, target, old(driveService.Snapshot()), map[]);
        driveService.Snapshot() == u.store && r == u.outcome && createdFiles == Some(u.files)
    {
      ghost var start := driveService.Snapshot();
      var files: map<string, RemoteFile> := map[];
      createdFiles := Some(files);
      var i := 0;
      while i < |attachments|
        invariant 0 <= i <= |attachments|
        invariant createdFiles == Some(files)
        invariant UploadFrom(attachments[i..], target, driveService.Snapshot(), files) == UploadFrom(attachments, target, start, map[])
      {
        assert attachments[i..][0] == attachments[i] && attachments[i..][1..] == attachments[i + 1..];
        var document := GetDocument(attachments[i], instanceId, documents);
        if document.Err? {
          return Fail(document.error);
        }
        var doc := document.value;
        if doc.contentStorageId !in documents.contents {
          return Fail(DocumentNotFound);
        }
        var file := LocalFile(doc.contentFileName, documents.contents[doc.contentStorageId]);
        var uploaded := gDriveUtils.CreateFile(driveService, target.driveId, target.folderId, file, doc.contentMimeType);
        if uploaded.Err? {
          return Fail(RemoteIO(uploaded.error));
        }
        files := files[doc.name := uploaded.value];
        createdFiles := Some(files);
        i := i + 1;
      }
      r := Pass;
    }

    /** `cleanup`: deletes the given folder through the gateway, nothing else. */
    method Cleanup(folderId: string) returns (r: Outcome<RemoteError>)
      requires gDriveUtils != null && driveService != null
      modifies driveService
      ensures (driveService.Snapshot(), r) == DeleteOn(old(driveService.Snapshot()), folderId)
    {
      r := gDriveUtils.DeleteFolder(driveService, folderId);
    }
  }
}
