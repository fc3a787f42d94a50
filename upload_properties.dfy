/** What `GoogleDriveUpload` promises, proved about its specification functions. */
module UploadProperties {
  import opened Wrappers
  import opened DriveBackend
  import opened GDrive
  import opened Connector

  /** The shapes validation accepts, stated without the checks: a non-empty string drive
      id and credentials (whitespace counts as content), a list of attachments, and a
      createFolder flag that is a boolean or absent. */
  lemma ValidationAcceptsExactly(inputs: map<string, Value>)
    ensures ValidateInputParameters(inputs).Pass? <==>
      && DriveIdInput in inputs && inputs[DriveIdInput].VStr? && inputs[DriveIdInput].str != ""
      && CredentialsInput in inputs && inputs[CredentialsInput].VStr? && inputs[CredentialsInput].str != ""
      && AttachmentsInput in inputs && inputs[AttachmentsInput].VList?
      && (CreateFolderInput in inputs ==> inputs[CreateFolderInput].VBool?)
  {
  }

  /** The checks in the order they run. */
  datatype InputKind = StringInput | ListInput | BooleanInput

  const ValidationOrder: seq<(string, InputKind)> :=
    [(DriveIdInput, StringInput), (CredentialsInput, StringInput), (AttachmentsInput, ListInput), (CreateFolderInput, BooleanInput)]

  function CheckOf(inputs: map<string, Value>, k: nat): Outcome<Violation>
    requires k < |ValidationOrder|
  {
    var (name, kind) := ValidationOrder[k];
    match kind
    case StringInput => CheckMandatoryString(inputs, name)
    case ListInput => CheckMandatoryList(inputs, name)
    case BooleanInput => CheckMandatoryBoolean(inputs, name)
  }

  /** A rejection names the first input, in the fixed order, whose check fails. */
  lemma ValidationReportsFirstFailure(inputs: map<string, Value>)
    ensures ValidateInputParameters(inputs).Fail? <==> exists k :: 0 <= k < |ValidationOrder| && CheckOf(inputs, k).Fail?
    ensures ValidateInputParameters(inputs).Fail? ==>
      exists k :: 0 <= k < |ValidationOrder| && ValidateInputParameters(inputs) == CheckOf(inputs, k) &&
                  forall j :: 0 <= j < k ==> CheckOf(inputs, j).Pass?
  {
    var r := ValidateInputParameters(inputs);
    if CheckOf(inputs, 0).Fail? {
      assert r == CheckOf(inputs, 0);
    } else if CheckOf(inputs, 1).Fail? {
      assert r == CheckOf(inputs, 1);
    } else if CheckOf(inputs, 2).Fail? {
      assert r == CheckOf(inputs, 2);
    } else if CheckOf(inputs, 3).Fail? {
      assert r == CheckOf(inputs, 3);
    } else {
      assert forall k :: 0 <= k < |ValidationOrder| ==> CheckOf(inputs, k).Pass?;
    }
  }

  /** An absent drive id is reported first, with the "missing" message. */
  lemma MissingDriveIdMessage(inputs: map<string, Value>)
    requires DriveIdInput !in inputs
    ensures ValidateInputParameters(inputs) == Fail(Missing(DriveIdInput))
    ensures Message(ValidateInputParameters(inputs).error) == "Mandatory parameter 'driveID' is missing."
  {
  }

  /** A drive id that is not a string is reported first, with the cast message. */
  lemma DriveIdNotStringMessage(inputs: map<string, Value>)
    requires DriveIdInput in inputs && !inputs[DriveIdInput].VStr?
    ensures ValidateInputParameters(inputs) == Fail(NotAString(DriveIdInput))
    ensures Message(ValidateInputParameters(inputs).error) == "'driveID' parameter must be a String"
  {
    assert "'" + DriveIdInput + "' parameter must be a String" == "'driveID' parameter must be a String";
  }

  /** "Not a list" is only ever reported for the attachments, and exactly when the two
      strings are fine and the attachments are present but not a list. */
  lemma NotAListMessage(inputs: map<string, Value>)
    ensures ValidateInputParameters(inputs) == Fail(NotAList(AttachmentsInput)) <==>
      && CheckMandatoryString(inputs, DriveIdInput).Pass? && CheckMandatoryString(inputs, CredentialsInput).Pass?
      && AttachmentsInput in inputs && !inputs[AttachmentsInput].VList?
    ensures ValidateInputParameters(inputs).Fail? && ValidateInputParameters(inputs).error.NotAList? ==>
      ValidateInputParameters(inputs).error.input == AttachmentsInput
  {
  }

  /** A createFolder that is present but not a boolean is reported with the "missing"
      message, and that is the only way createFolder is rejected. */
  lemma CreateFolderRejection(inputs: map<string, Value>)
    requires ValidateInputParameters(inputs).Fail? && ValidateInputParameters(inputs).error.input == CreateFolderInput
    ensures ValidateInputParameters(inputs).error == Missing(CreateFolderInput)
    ensures CreateFolderInput in inputs && !inputs[CreateFolderInput].VBool?
    ensures Message(ValidateInputParameters(inputs).error) == "Mandatory parameter 'createFolder' is missing."
  {
  }

  /** How an attachment resolves: a document as itself; a non-blank name to the last
      document of that name in the current process instance, and to "not found" when
      there is none; anything else, blank names included, is refused. */
  lemma GetDocumentResolves(attachment: Value, instanceId: int, docs: DocumentStore)
    ensures attachment.VDoc? ==> GetDocument(attachment, instanceId, docs) == Ok(attachment.doc)
    ensures attachment.VStr? && !Blank(attachment.str) ==>
      GetDocument(attachment, instanceId, docs) ==
        if (instanceId, attachment.str) in docs.documents then Ok(docs.documents[(instanceId, attachment.str)])
        else Err(DocumentNotFound)
    ensures GetDocument(attachment, instanceId, docs) == Err(AttachmentType) <==>
      !attachment.VDoc? && !(attachment.VStr? && !Blank(attachment.str))
  {
    if attachment.VStr? {
      TrimEmptyIffBlank(attachment.str);
    }
  }

  /** The attachment can be uploaded: it resolves and its content is stored. */
  predicate Uploadable(attachment: Value, t: Target) {
    var doc := GetDocument(attachment, t.instanceId, t.docs);
    doc.Ok? && doc.value.contentStorageId in t.docs.contents
  }

  function DocOf(attachment: Value, t: Target): Document
    requires Uploadable(attachment, t)
  {
    GetDocument(attachment, t.instanceId, t.docs).value
  }

  /** The local file written for an uploadable attachment. */
  function FileOf(attachment: Value, t: Target): LocalFile
    requires Uploadable(attachment, t)
  {
    var doc := DocOf(attachment, t);
    LocalFile(doc.contentFileName, t.docs.contents[doc.contentStorageId])
  }

  predicate AllUploadable(attachments: seq<Value>, t: Target) {
    forall i :: 0 <= i < |attachments| ==> Uploadable(attachments[i], t)
  }

  /** The documents' names, in attachment order. */
  function Names(attachments: seq<Value>, t: Target): (r: seq<string>)
    requires AllUploadable(attachments, t)
    ensures |r| == |attachments|
    ensures forall i :: 0 <= i < |attachments| ==> r[i] == DocOf(attachments[i], t).name
  {
    if attachments == [] then [] else [DocOf(attachments[0], t).name] + Names(attachments[1..], t)
  }

  /** The file created for the `i`-th upload counted from a store whose counter is `n`. */
  function CreatedFile(n: nat, i: nat): RemoteFile {
    RemoteFile(IdOf(n + i), Some(ViewLink(IdOf(n + i))))
  }

  /** The loop only ever adds items and file creates: everything stored and logged before
      it stays, every request it issues creates a file with content, every item it adds is
      a file under the target's parent in the target's drive with the next counter id, and
      at most one item is added per attachment. */
  lemma {:induction false} UploadOnlyAppends(attachments: seq<Value>, t: Target, s: Store, files: map<string, RemoteFile>)
    ensures var u := UploadFrom(attachments, t, s, files);
      && s.items <= u.store.items && s.log <= u.store.log
      && u.store.failAt == s.failAt && u.store.drivePages == s.drivePages
      && |u.store.items| - |s.items| <= |attachments|
      && u.store.nextId == s.nextId + (|u.store.items| - |s.items|)
      && (forall k :: |s.log| <= k < |u.store.log| ==> u.store.log[k].CreateCall? && u.store.log[k].content.Some?)
      && (forall k :: |s.items| <= k < |u.store.items| ==>
            && u.store.items[k].id == IdOf(s.nextId + (k - |s.items|))
            && u.store.items[k].meta.parents == [ParentFolder(t.driveId, t.folderId)]
            && u.store.items[k].meta.driveId == t.driveId
            && u.store.items[k].content.Some?)
    decreases |attachments|
  {
    if attachments != [] {
      var (s1, uploaded) := UploadAttachment(attachments[0], t, s);
      var doc := GetDocument(attachments[0], t.instanceId, t.docs);
      assert |s1.log| > |s.log| ==> s1.log[|s.log|].CreateCall? && s1.log[|s.log|].content.Some? by {
        if |s1.log| > |s.log| {
          assert doc.Ok? && doc.value.contentStorageId in t.docs.contents;
          var file := LocalFile(doc.value.contentFileName, t.docs.contents[doc.value.contentStorageId]);
          assert s1.log == s.log + [CreateCall(FileMetadata(t.driveId, t.folderId, file, doc.value.contentMimeType), Some(file.bytes))];
        }
      }
      if uploaded.Ok? {
        UploadOnlyAppends(attachments[1..], t, s1, files[uploaded.value.0 := uploaded.value.1]);
        var u := UploadFrom(attachments, t, s, files);
        assert s1.items == s.items + [s1.items[|s.items|]];
        forall k | |s.log| <= k < |u.store.log|
          ensures u.store.log[k].CreateCall? && u.store.log[k].content.Some?
        {
          if k == |s.log| {
            assert u.store.log[k] == s1.log[k];
          }
        }
        forall k | |s.items| <= k < |u.store.items|
          ensures u.store.items[k].id == IdOf(s.nextId + (k - |s.items|))
          ensures u.store.items[k].meta.parents == [ParentFolder(t.driveId, t.folderId)]
        {
          if k == |s.items| {
            assert u.store.items[k] == s1.items[k];
          }
        }
      }
    }
  }

  /** The loop completes exactly when every attachment is uploadable and none of its
      create requests fails; it then issues one create per attachment, in order, each
      carrying that document's file and mime type. */
  lemma {:induction false} UploadCompletes(attachments: seq<Value>, t: Target, s: Store, files: map<string, RemoteFile>)
    ensures var u := UploadFrom(attachments, t, s, files);
      u.outcome.Pass? <==> AllUploadable(attachments, t) && NoFaults(s, |attachments|)
    ensures var u := UploadFrom(attachments, t, s, files);
      u.outcome.Pass? ==>
        && |u.store.log| == |s.log| + |attachments|
        && |u.store.items| == |s.items| + |attachments|
        && forall i :: 0 <= i < |attachments| ==>
             var doc := DocOf(attachments[i], t);
             u.store.log[|s.log| + i] ==
               CreateCall(FileMetadata(t.driveId, t.folderId, FileOf(attachments[i], t), doc.contentMimeType),
                          Some(FileOf(attachments[i], t).bytes))
    decreases |attachments|
  {
    if attachments != [] {
      var (s1, uploaded) := UploadAttachment(attachments[0], t, s);
      var u := UploadFrom(attachments, t, s, files);
      if uploaded.Ok? {
        var files1 := files[uploaded.value.0 := uploaded.value.1];
        UploadCompletes(attachments[1..], t, s1, files1);
        UploadOnlyAppends(attachments[1..], t, s1, files1);
        assert NoFaults(s, |attachments|) <==> !FailsNext(s) && NoFaults(s1, |attachments| - 1);
        assert AllUploadable(attachments, t) <==> Uploadable(attachments[0], t) && AllUploadable(attachments[1..], t) by {
          if Uploadable(attachments[0], t) && AllUploadable(attachments[1..], t) {
            forall i | 0 <= i < |attachments| ensures Uploadable(attachments[i], t) {
              if i > 0 { assert attachments[i] == attachments[1..][i - 1]; }
            }
          }
        }
        if u.outcome.Pass? {
          forall i | 0 <= i < |attachments|
            ensures var doc := DocOf(attachments[i], t);
              u.store.log[|s.log| + i] ==
                CreateCall(FileMetadata(t.driveId, t.folderId, FileOf(attachments[i], t), doc.contentMimeType),
                           Some(FileOf(attachments[i], t).bytes))
          {
            if i == 0 {
              assert s1.log <= u.store.log;
              assert u.store.log[|s.log|] == s1.log[|s.log|];
            } else {
              assert attachments[i] == attachments[1..][i - 1];
            }
          }
        }
      } else {
        assert !(AllUploadable(attachments, t) && NoFaults(s, |attachments|)) by {
          if AllUploadable(attachments, t) {
            assert Uploadable(attachments[0], t);
          }
        }
      }
    }
  }

  /** The first step of a completed loop: the first attachment is uploaded as the next
      counter's file under its document's name. */
  lemma {:induction false} UploadFirstStep(attachments: seq<Value>, t: Target, s: Store, files: map<string, RemoteFile>)
    requires attachments != []
    requires UploadFrom(attachments, t, s, files).outcome.Pass?
    ensures AllUploadable(attachments, t)
    ensures var (s1, uploaded) := UploadAttachment(attachments[0], t, s);
      && uploaded == Ok((Names(attachments, t)[0], CreatedFile(s.nextId, 0)))
      && s1.nextId == s.nextId + 1
      && UploadFrom(attachments, t, s, files) ==
           UploadFrom(attachments[1..], t, s1, files[Names(attachments, t)[0] := CreatedFile(s.nextId, 0)])
      && UploadFrom(attachments[1..], t, s1, files[Names(attachments, t)[0] := CreatedFile(s.nextId, 0)]).outcome.Pass?
      && Names(attachments, t) == [Names(attachments, t)[0]] + Names(attachments[1..], t)
  {
    UploadCompletes(attachments, t, s, files);
    var names := Names(attachments, t);
    assert AllUploadable(attachments[1..], t) by {
      forall i | 0 <= i < |attachments[1..]| ensures Uploadable(attachments[1..][i], t) {
        assert attachments[1..][i] == attachments[i + 1];
      }
    }
    assert names == [names[0]] + Names(attachments[1..], t);
  }

  /** After a completed loop the map holds exactly the names put before it and the
      documents' names. */
  lemma {:induction false} UploadOutputKeys(attachments: seq<Value>, t: Target, s: Store, files: map<string, RemoteFile>)
    requires UploadFrom(attachments, t, s, files).outcome.Pass?
    ensures AllUploadable(attachments, t)
    ensures UploadFrom(attachments, t, s, files).files.Keys ==
      files.Keys + (set i | 0 <= i < |attachments| :: Names(attachments, t)[i])
    decreases |attachments|
  {
    UploadCompletes(attachments, t, s, files);
    if attachments != [] {
      UploadFirstStep(attachments, t, s, files);
      var s1 := UploadAttachment(attachments[0], t, s).0;
      var names := Names(attachments, t);
      var rest := attachments[1..];
      var files1 := files[names[0] := CreatedFile(s.nextId, 0)];
      UploadOutputKeys(rest, t, s1, files1);
      var restNames := set i | 0 <= i < |rest| :: Names(rest, t)[i];
      var allNames := set i | 0 <= i < |attachments| :: names[i];
      assert allNames == {names[0]} + restNames by {
        forall x | x in allNames ensures x in {names[0]} + restNames {
          var i :| 0 <= i < |attachments| && names[i] == x;
          if i > 0 { assert Names(rest, t)[i - 1] == x; }
        }
        forall x | x in restNames ensures x in allNames {
          var i :| 0 <= i < |rest| && Names(rest, t)[i] == x;
          assert names[i + 1] == x;
        }
      }
    }
  }

  /** A completed loop keeps the entries put before it that no document's name replaces. */
  lemma {:induction false} UploadKeepsOtherEntries(attachments: seq<Value>, t: Target, s: Store, files: map<string, RemoteFile>, k: string)
    requires UploadFrom(attachments, t, s, files).outcome.Pass?
    requires AllUploadable(attachments, t)
    requires k in files && k !in Names(attachments, t)
    ensures k in UploadFrom(attachments, t, s, files).files
    ensures UploadFrom(attachments, t, s, files).files[k] == files[k]
    decreases |attachments|
  {
    if attachments != [] {
      UploadFirstStep(attachments, t, s, files);
      var s1 := UploadAttachment(attachments[0], t, s).0;
      var names := Names(attachments, t);
      assert k != names[0] && k !in Names(attachments[1..], t);
      UploadKeepsOtherEntries(attachments[1..], t, s1, files[names[0] := CreatedFile(s.nextId, 0)], k);
    }
  }

  /** After a completed loop a document name maps to the file created for the last
      attachment of that name. */
  lemma {:induction false} UploadLastWins(attachments: seq<Value>, t: Target, s: Store, files: map<string, RemoteFile>, i: nat)
    requires UploadFrom(attachments, t, s, files).outcome.Pass?
    requires AllUploadable(attachments, t)
    requires i < |attachments| && Names(attachments, t)[i] !in Names(attachments, t)[i + 1..]
    ensures Names(attachments, t)[i] in UploadFrom(attachments, t, s, files).files
    ensures UploadFrom(attachments, t, s, files).files[Names(attachments, t)[i]] == CreatedFile(s.nextId, i)
    decreases |attachments|
  {
    UploadFirstStep(attachments, t, s, files);
    var s1 := UploadAttachment(attachments[0], t, s).0;
    var names := Names(attachments, t);
    var rest := attachments[1..];
    var files1 := files[names[0] := CreatedFile(s.nextId, 0)];
    UploadOutputKeys(rest, t, s1, files1);
    if i == 0 {
      assert names[1..] == Names(rest, t);
      assert names[0] in files1;
      UploadKeepsOtherEntries(rest, t, s1, files1, names[0]);
    } else {
      assert Names(rest, t)[i - 1] == names[i];
      assert Names(rest, t)[i..] == names[i + 1..];
      UploadLastWins(rest, t, s1, files1, i - 1);
      assert CreatedFile(s1.nextId, i - 1) == CreatedFile(s.nextId, i);
    }
  }

  /** A completed loop adds at most one entry per attachment. */
  lemma {:induction false} UploadSizeBound(attachments: seq<Value>, t: Target, s: Store, files: map<string, RemoteFile>)
    ensures |UploadFrom(attachments, t, s, files).files| <= |files| + |attachments|
    decreases |attachments|
  {
    if attachments != [] {
      var (s1, uploaded) := UploadAttachment(attachments[0], t, s);
      if uploaded.Ok? {
        var files1 := files[uploaded.value.0 := uploaded.value.1];
        UploadSizeBound(attachments[1..], t, s1, files1);
        assert files1.Keys == files.Keys + {uploaded.value.0};
        assert |files1.Keys| <= |files.Keys| + 1;
      }
    }
  }

  /** The loop over two stretches of attachments is the loop over the first, followed,
      if it completed, by the loop over the second. */
  lemma {:induction false} UploadSplit(a: seq<Value>, b: seq<Value>, t: Target, s: Store, files: map<string, RemoteFile>)
    ensures var u := UploadFrom(a, t, s, files);
      UploadFrom(a + b, t, s, files) == if u.outcome.Fail? then u else UploadFrom(b, t, u.store, u.files)
    decreases |a|
  {
    if a == [] {
      assert a + b == b;
    } else {
      assert (a + b)[0] == a[0] && (a + b)[1..] == a[1..] + b;
      var (s1, uploaded) := UploadAttachment(a[0], t, s);
      if uploaded.Ok? {
        UploadSplit(a[1..], b, t, s1, files[uploaded.value.0 := uploaded.value.1]);
      }
    }
  }

  /** The first attachment that fails ends the execution: the attachments after it are
      never attempted, the files uploaded before it stay in the store, and the map holds
      what was put before it. A failed lookup issues no request; a failed upload issues
      only its own create. */
  lemma AbortsAtFirstFailure(attachments: seq<Value>, k: nat, t: Target, s: Store, files: map<string, RemoteFile>)
    requires k < |attachments|
    requires UploadFrom(attachments[..k], t, s, files).outcome.Pass?
    requires UploadAttachment(attachments[k], t, UploadFrom(attachments[..k], t, s, files).store).1.Err?
    ensures var p := UploadFrom(attachments[..k], t, s, files);
      var (s1, failed) := UploadAttachment(attachments[k], t, p.store);
      && UploadFrom(attachments, t, s, files) == Upload(s1, p.files, Fail(failed.error))
      && s1.items == p.store.items
      && (failed.error.RemoteIO? ==> |s1.log| == |p.store.log| + 1)
      && (!failed.error.RemoteIO? ==> s1 == p.store)
  {
    var p := UploadFrom(attachments[..k], t, s, files);
    assert attachments == attachments[..k] + attachments[k..];
    UploadSplit(attachments[..k], attachments[k..], t, s, files);
    assert attachments[k..][0] == attachments[k];
  }

  /** An absent createFolder passes validation and then fails on unboxing, before any
      request is made. */
  lemma AbsentCreateFolderFailsLate(inputs: map<string, Value>, instanceId: int, docs: DocumentStore, s: Store, folderId: Option<string>)
    requires ValidateInputParameters(inputs).Pass?
    requires CreateFolderInput !in inputs
    ensures BusinessLogic(inputs, instanceId, docs, s, folderId) == Execution(s, None, None, Fail(NullCreateFolder))
  {
  }

  /** With createFolder true, exactly one folder is created first, at the drive root, with
      the given name; its id is the folder output and the parent of every uploaded file;
      and whatever happens to the uploads, the folder stays. */
  lemma CreateFolderTargetsNewFolder(inputs: map<string, Value>, instanceId: int, docs: DocumentStore, s: Store, folderId: Option<string>)
    requires ValidateInputParameters(inputs).Pass?
    requires CreateFolderInput in inputs && inputs[CreateFolderInput] == VBool(true)
    requires FolderNameOf(inputs).Ok? && !FailsNext(s)
    ensures var e := BusinessLogic(inputs, instanceId, docs, s, folderId);
      var driveId := inputs[DriveIdInput].str;
      var folder := Item(IdOf(s.nextId), FolderMetadata(driveId, None, FolderNameOf(inputs).value), None);
      && e.createdFolder == Some(IdOf(s.nextId))
      && folder.meta.parents == [driveId] && folder.meta.mimeType == FolderMimeType
      && s.items + [folder] <= e.store.items
      && s.log + [CreateCall(folder.meta, None)] <= e.store.log
      && (forall k :: |s.log| < k < |e.store.log| ==> e.store.log[k].CreateCall? && e.store.log[k].content.Some?)
      && (forall k :: |s.items| < k < |e.store.items| ==>
            e.store.items[k].meta.parents == [IdOf(s.nextId)] && e.store.items[k].content.Some?)
  {
    ValidInputsShape(inputs);
    var driveId := inputs[DriveIdInput].str;
    var (s1, folder) := CreateFolderOn(s, driveId, None, FolderNameOf(inputs).value);
    var t := Target(instanceId, docs, driveId, Some(folder.value.id));
    UploadOnlyAppends(inputs[AttachmentsInput].elems, t, s1, map[]);
  }

  /** With createFolder false, no folder is created and every uploaded file goes to the
      connector's current folder, which for a fresh connector is the drive root. */
  lemma NoFolderTargetsCurrent(inputs: map<string, Value>, instanceId: int, docs: DocumentStore, s: Store, folderId: Option<string>)
    requires ValidateInputParameters(inputs).Pass?
    requires CreateFolderInput in inputs && inputs[CreateFolderInput] == VBool(false)
    ensures var e := BusinessLogic(inputs, instanceId, docs, s, folderId);
      && e.createdFolder.None? && e.files.Some?
      && s.items <= e.store.items && s.log <= e.store.log
      && (forall k :: |s.log| <= k < |e.store.log| ==> e.store.log[k].CreateCall? && e.store.log[k].content.Some?)
      && |e.store.items| - |s.items| <= |inputs[AttachmentsInput].elems|
      && (forall k :: |s.items| <= k < |e.store.items| ==>
            e.store.items[k].meta.parents == [if folderId.Some? then folderId.value else inputs[DriveIdInput].str] &&
            e.store.items[k].content.Some?)
  {
    ValidInputsShape(inputs);
    var t := Target(instanceId, docs, inputs[DriveIdInput].str, folderId);
    UploadOnlyAppends(inputs[AttachmentsInput].elems, t, s, map[]);
  }

  /** An empty attachment list passes validation and, without a folder, completes with
      an empty map and no request. */
  lemma EmptyAttachmentsComplete(inputs: map<string, Value>, instanceId: int, docs: DocumentStore, s: Store, folderId: Option<string>)
    requires ValidateInputParameters(inputs).Pass?
    requires inputs[AttachmentsInput] == VList([])
    requires CreateFolderInput in inputs && inputs[CreateFolderInput] == VBool(false)
    ensures BusinessLogic(inputs, instanceId, docs, s, folderId) == Execution(s, None, Some(map[]), Pass)
  {
  }

  /** A completed execution's file map is keyed by exactly the documents' names and
      holds no more entries than there are attachments. */
  lemma CompletedExecutionOutput(inputs: map<string, Value>, instanceId: int, docs: DocumentStore, s: Store, folderId: Option<string>)
    requires ValidateInputParameters(inputs).Pass?
    requires BusinessLogic(inputs, instanceId, docs, s, folderId).outcome.Pass?
    ensures var e := BusinessLogic(inputs, instanceId, docs, s, folderId);
      var attachments := inputs[AttachmentsInput].elems;
      var target := Target(instanceId, docs, inputs[DriveIdInput].str, if e.createdFolder.Some? then e.createdFolder else folderId);
      && e.files.Some?
      && AllUploadable(attachments, target)
      && e.files.value.Keys == (set i | 0 <= i < |attachments| :: Names(attachments, target)[i])
      && |e.files.value| <= |attachments|
  {
    ValidInputsShape(inputs);
    var driveId := inputs[DriveIdInput].str;
    var attachments := inputs[AttachmentsInput].elems;
    var e := BusinessLogic(inputs, instanceId, docs, s, folderId);
    if inputs[CreateFolderInput].flag {
      var (s1, folder) := CreateFolderOn(s, driveId, None, FolderNameOf(inputs).value);
      var t := Target(instanceId, docs, driveId, Some(folder.value.id));
      UploadOutputKeys(attachments, t, s1, map[]);
      UploadSizeBound(attachments, t, s1, map[]);
    } else {
      var t := Target(instanceId, docs, driveId, folderId);
      UploadOutputKeys(attachments, t, s, map[]);
      UploadSizeBound(attachments, t, s, map[]);
    }
  }

  /** Names that no later attachment repeats. */
  predicate Distinct(names: seq<string>) {
    forall i, j :: 0 <= i < j < |names| ==> names[i] != names[j]
  }

  /** With a folder to create, documents that all resolve under distinct names, and no
      request failing, the execution completes: the folder is the first new item, and
      each document's name maps to the file created for it, with its id and view link. */
  lemma FolderUploadCompletes(inputs: map<string, Value>, instanceId: int, docs: DocumentStore, s: Store, folderId: Option<string>)
    requires ValidateInputParameters(inputs).Pass?
    requires CreateFolderInput in inputs && inputs[CreateFolderInput] == VBool(true)
    requires FolderNameOf(inputs).Ok?
    requires NoFaults(s, 1 + |inputs[AttachmentsInput].elems|)
    requires var t := Target(instanceId, docs, inputs[DriveIdInput].str, Some(IdOf(s.nextId)));
      AllUploadable(inputs[AttachmentsInput].elems, t) && Distinct(Names(inputs[AttachmentsInput].elems, t))
    ensures var e := BusinessLogic(inputs, instanceId, docs, s, folderId);
      var attachments := inputs[AttachmentsInput].elems;
      var names := Names(attachments, Target(instanceId, docs, inputs[DriveIdInput].str, Some(IdOf(s.nextId))));
      && e.outcome.Pass? && e.createdFolder == Some(IdOf(s.nextId)) && e.files.Some?
      && e.files.value.Keys == (set i | 0 <= i < |attachments| :: names[i])
      && forall i :: 0 <= i < |attachments| ==> e.files.value[names[i]] == CreatedFile(s.nextId + 1, i)
  {
    ValidInputsShape(inputs);
    var driveId := inputs[DriveIdInput].str;
    var attachments := inputs[AttachmentsInput].elems;
    assert !FailsNext(s);
    var (s1, folder) := CreateFolderOn(s, driveId, None, FolderNameOf(inputs).value);
    var t := Target(instanceId, docs, driveId, Some(folder.value.id));
    assert NoFaults(s1, |attachments|);
    UploadCompletes(attachments, t, s1, map[]);
    UploadOutputKeys(attachments, t, s1, map[]);
    var names := Names(attachments, t);
    forall i | 0 <= i < |attachments|
      ensures UploadFrom(attachments, t, s1, map[]).files[names[i]] == CreatedFile(s.nextId + 1, i)
    {
      assert names[i] !in names[i + 1..] by {
        forall j | i + 1 <= j < |names| ensures names[j] != names[i] {}
      }
      UploadLastWins(attachments, t, s1, map[], i);
    }
  }

  /** Publishing outputs touches only the folder id and the file list; every other
      output is kept. */
  lemma OutputsAfterKeepsOthers(outputs: map<string, Output>, e: Execution)
    ensures OutputsAfter(outputs, e).Keys <= outputs.Keys + {CreatedFolderIdOutput, CreatedFileListOutput}
    ensures forall k :: k in outputs && k != CreatedFolderIdOutput && k != CreatedFileListOutput ==>
      k in OutputsAfter(outputs, e) && OutputsAfter(outputs, e)[k] == outputs[k]
  {
  }
}
