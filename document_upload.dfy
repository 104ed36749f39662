/**
 * The document upload widget of the web app: validation of each chosen
 * file, the limit on the number of files, the files accepted into the list
 * when a batch is chosen, and removal from the list.
 */
module DocumentUpload {
  import opened Seqs
  import opened Strs

  /** A file the user chose: name, size in bytes and MIME type. */
  datatype ChosenFile = ChosenFile(name: string, size: nat, kind: string)

  datatype UploadStatus = Uploading | Success | Failed

  datatype UploadedFile = UploadedFile(
    id: string, name: string, size: nat, kind: string, url: string, status: UploadStatus, progress: nat)

  /** Why `validateFile` refuses a file; each has its own message. */
  datatype Refusal = UnsupportedType | TooLarge | DuplicateName

  const DefaultAcceptedTypes: seq<string> := ["application/pdf", "image/jpeg", "image/jpg", "image/png"]
  const DefaultMaxFiles := 1
  /** In megabytes. */
  const DefaultMaxSize := 10

  /**
   * `validateFile(file)`: the type, then the size, then the name against
   * the files already in the list; the first check that fails is reported.
   */
  function Validate(accepted: seq<string>, maxSize: nat, uploaded: seq<UploadedFile>, f: ChosenFile): (r: Option<Refusal>)
    ensures r == Some(UnsupportedType) <==> f.kind !in accepted
    ensures r == Some(TooLarge) <==> f.kind in accepted && f.size > maxSize * 1024 * 1024
    ensures r == Some(DuplicateName) <==>
      f.kind in accepted && f.size <= maxSize * 1024 * 1024 && exists u :: u in uploaded && u.name == f.name
    ensures r == None <==>
      f.kind in accepted && f.size <= maxSize * 1024 * 1024 && forall u :: u in uploaded ==> u.name != f.name
  {
    if f.kind !in accepted then Some(UnsupportedType)
    else if f.size > maxSize * 1024 * 1024 then Some(TooLarge)
    else if exists u :: u in uploaded && u.name == f.name then Some(DuplicateName)
    else None
  }

  /** The entry added for the `index`-th accepted file of a batch chosen at clock `now`. */
  function InitialEntry(documentId: string, now: nat, index: nat, f: ChosenFile): (u: UploadedFile)
    ensures u.name == f.name && u.size == f.size && u.kind == f.kind
    ensures u.status == Uploading && u.progress == 0 && u.url == ""
  {
    UploadedFile(documentId + "-" + Decimal(now) + "-" + Decimal(index), f.name, f.size, f.kind, "", Uploading, 0)
  }

  function InitialEntries(documentId: string, now: nat, files: seq<ChosenFile>): (r: seq<UploadedFile>)
    ensures |r| == |files|
    ensures forall i :: 0 <= i < |files| ==> r[i] == InitialEntry(documentId, now, i, files[i])
  {
    seq(|files|, i requires 0 <= i < |files| => InitialEntry(documentId, now, i, files[i]))
  }

  /** `validateFile(file) === null`, against a given list. */
  function Passing(accepted: seq<string>, maxSize: nat, uploaded: seq<UploadedFile>): ChosenFile -> bool {
    (f: ChosenFile) => Validate(accepted, maxSize, uploaded, f).None?
  }

  /** What choosing a batch did. */
  datatype BatchOutcome = TooManyFiles | NoneValid | Started(count: nat)

  /** Filtering a list that grows by one element. */
  lemma FilterSnoc<T(!new)>(s: seq<T>, x: T, p: T -> bool)
    ensures Filter(s + [x], p) == Filter(s, p) + (if p(x) then [x] else [])
  {
    FilterAppend(s, [x], p);
    assert [x][1..] == [];
  }

  class DocumentUploader {
    const documentId: string
    const maxFiles: nat
    const maxSize: nat
    const accepted: seq<string>
    var uploadedFiles: seq<UploadedFile>

    constructor (documentId: string, maxFiles: Option<nat>, maxSize: Option<nat>, accepted: Option<seq<string>>)
      ensures this.documentId == documentId && uploadedFiles == []
      ensures this.maxFiles == maxFiles.GetOr(DefaultMaxFiles) && this.maxSize == maxSize.GetOr(DefaultMaxSize)
      ensures this.accepted == accepted.GetOr(DefaultAcceptedTypes)
    {
      this.documentId := documentId;
      this.maxFiles := maxFiles.GetOr(DefaultMaxFiles);
      this.maxSize := maxSize.GetOr(DefaultMaxSize);
      this.accepted := accepted.GetOr(DefaultAcceptedTypes);
      uploadedFiles := [];
    }

    /**
     * The validation loop of `handleFileUpload`: the files of the batch
     * that pass `validateFile`, in their order. Every file is checked
     * against the list as it was before the batch, so two files of the same
     * batch with the same name both pass.
     */
    method ValidFiles(batch: seq<ChosenFile>) returns (valid: seq<ChosenFile>)
      ensures valid == Filter(batch, Passing(accepted, maxSize, uploadedFiles))
    {
      var passes := Passing(accepted, maxSize, uploadedFiles);
      valid := [];
      var i := 0;
      while i < |batch|
        invariant 0 <= i <= |batch|
        invariant valid == Filter(batch[..i], passes)
      {
        FilterSnoc(batch[..i], batch[i], passes);
        assert batch[..i + 1] == batch[..i] + [batch[i]];
        if passes(batch[i]) {
          valid := valid + [batch[i]];
        }
        i := i + 1;
      }
      assert batch[..i] == batch;
    }

    /**
     * `handleFileUpload(batch)` at clock `now`, up to the start of the
     * uploads: a batch that would exceed the file limit is refused whole;
     * otherwise the files that pass validation are appended as uploading
     * with progress 0, and nothing changes when none pass.
     */
    method HandleFileUpload(batch: seq<ChosenFile>, now: nat) returns (outcome: BatchOutcome)
      modifies this
      ensures |old(uploadedFiles)| + |batch| > maxFiles ==> outcome == TooManyFiles && uploadedFiles == old(uploadedFiles)
      ensures outcome == NoneValid ==> uploadedFiles == old(uploadedFiles)
      ensures outcome.Started? ==>
        var valid := Filter(batch, Passing(accepted, maxSize, old(uploadedFiles)));
        && |old(uploadedFiles)| + |batch| <= maxFiles
        && outcome.count == |valid| > 0
        && uploadedFiles == old(uploadedFiles) + InitialEntries(documentId, now, valid)
      ensures |old(uploadedFiles)| + |batch| <= maxFiles ==> outcome != TooManyFiles
      ensures |old(uploadedFiles)| + |batch| <= maxFiles ==>
        (outcome == NoneValid <==> Filter(batch, Passing(accepted, maxSize, old(uploadedFiles))) == [])
      ensures |uploadedFiles| <= maxFiles || uploadedFiles == old(uploadedFiles)
    {
      if |uploadedFiles| + |batch| > maxFiles {
        return TooManyFiles;
      }
      var valid := ValidFiles(batch);
      if |valid| == 0 {
        return NoneValid;
      }
      uploadedFiles := uploadedFiles + InitialEntries(documentId, now, valid);
      outcome := Started(|valid|);
    }

    /** `handleRemoveFile(id)`: the files with that id leave the list, the rest keep their order. */
    method HandleRemoveFile(id: string)
      modifies this
      ensures uploadedFiles == Filter(old(uploadedFiles), (f: UploadedFile) => f.id != id)
      ensures forall f :: f in uploadedFiles <==> f in old(uploadedFiles) && f.id != id
    {
      uploadedFiles := Filter(uploadedFiles, (f: UploadedFile) => f.id != id);
    }
  }

  /**
   * Two files with the same name chosen together both pass when the name is
   * not yet in the list: the duplicate check looks only at the list.
   */
  lemma SameBatchDuplicatesPass(accepted: seq<string>, maxSize: nat, uploaded: seq<UploadedFile>, f: ChosenFile)
    requires Validate(accepted, maxSize, uploaded, f).None?
    ensures Filter([f, f], Passing(accepted, maxSize, uploaded)) == [f, f]
  {
    var p := Passing(accepted, maxSize, uploaded);
    FilterSnoc([f], f, p);
    FilterSnoc([], f, p);
    assert [] + [f] == [f] && [f] + [f] == [f, f];
  }
}
