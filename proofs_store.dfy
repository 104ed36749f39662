/**
 * The proof-upload store of the web client: the uploaded proofs, the
 * upload wizard's state and the ids of uploads still in progress.
 */
module ProofsStore {
  import opened Seqs
  import opened Strs

  datatype ProofStatus = Pending | OnHold | Completed | Rejected
  datatype ProofType = ActivityPhoto | Receipt | MeetingPhoto | DocumentPhoto | Other

  /** A captured position; coordinates are kept as they are reported. */
  datatype Location = Location(latitude: real, longitude: real, accuracy: real, timestamp: int, address: Option<string>)

  /** The selected file as the wizard sees it. */
  datatype FileInfo = FileInfo(name: string, size: int, mime: string)

  datatype FormData = FormData(title: string, description: string, kind: ProofType, tags: seq<string>)

  /** A partial form: the fields to overwrite. */
  datatype FormPatch = FormPatch(
    title: Option<string>, description: Option<string>, kind: Option<ProofType>, tags: Option<seq<string>>)

  datatype WizardState = WizardState(
    currentStep: int, selectedFile: Option<FileInfo>, capturedLocation: Option<Location>,
    isCapturingLocation: bool, previewUrl: Option<string>, formData: FormData)

  /** An uploaded proof, with the fields the store writes; times are integers. */
  datatype Proof = Proof(
    id: string, title: string, description: string, kind: ProofType, status: ProofStatus,
    fileName: Option<string>, fileUrl: Option<string>, thumbnailUrl: Option<string>,
    fileSize: int, fileType: string, location: Option<Location>, timestamp: int,
    uploadedAt: int, verifiedAt: Option<int>, rejectedAt: Option<int>, rejectionReason: Option<string>,
    tags: seq<string>, verificationNotes: Option<string>)

  const EmptyForm := FormData("", "", ActivityPhoto, [])

  /** `initialWizardState`. */
  const InitialWizard := WizardState(0, None, None, false, None, EmptyForm)

  /** `{ ...form, ...data }`: the supplied fields replace the form's, the others stay. */
  function ApplyPatch(form: FormData, data: FormPatch): (r: FormData)
    ensures r.title == if data.title.Some? then data.title.value else form.title
    ensures r.description == if data.description.Some? then data.description.value else form.description
    ensures r.kind == if data.kind.Some? then data.kind.value else form.kind
    ensures r.tags == if data.tags.Some? then data.tags.value else form.tags
  {
    FormData(
      if data.title.Some? then data.title.value else form.title,
      if data.description.Some? then data.description.value else form.description,
      if data.kind.Some? then data.kind.value else form.kind,
      if data.tags.Some? then data.tags.value else form.tags)
  }

  /** Applying the same partial form twice is applying it once; an empty one changes nothing. */
  lemma ApplyPatchIdempotent(form: FormData, data: FormPatch)
    ensures ApplyPatch(ApplyPatch(form, data), data) == ApplyPatch(form, data)
    ensures ApplyPatch(form, FormPatch(None, None, None, None)) == form
  {
  }

  /** A JavaScript `||` default on an optional string: absent and empty both fall back. */
  function OrNone(s: Option<string>): (r: Option<string>)
    ensures r.Some? <==> s.Some? && s.value != ""
    ensures r.Some? ==> r == s
  {
    if s.Some? && s.value != "" then s else None
  }

  /** The id `uploadProof` gives a proof: `proof-` and the clock in milliseconds. */
  function ProofId(now: nat): (id: string)
    ensures "proof-" <= id && |id| > 6
  {
    "proof-" + Decimal(now)
  }

  /**
   * The proof `uploadProof` adds: pending, with the form's title,
   * description, type and tags, the file's name, size and type (0 and
   * `unknown` when absent or empty), and the preview URL when there is one.
   */
  function NewProof(w: WizardState, id: string, now: int): (p: Proof)
    ensures p.id == id && p.status == Pending
    ensures p.title == w.formData.title && p.description == w.formData.description
    ensures p.kind == w.formData.kind && p.tags == w.formData.tags
    ensures p.fileName == (if w.selectedFile.Some? then Some(w.selectedFile.value.name) else None)
    ensures p.fileUrl == p.thumbnailUrl == OrNone(w.previewUrl)
    ensures p.verifiedAt.None? && p.rejectedAt.None? && p.rejectionReason.None? && p.verificationNotes.None?
    ensures p.uploadedAt == now && p.location == w.capturedLocation
  {
    var file := w.selectedFile;
    Proof(
      id, w.formData.title, w.formData.description, w.formData.kind, Pending,
      if file.Some? then Some(file.value.name) else None,
      OrNone(w.previewUrl), OrNone(w.previewUrl),
      if file.Some? && file.value.size != 0 then file.value.size else 0,
      if file.Some? && file.value.mime != "" then file.value.mime else "unknown",
      w.capturedLocation, now, now, None, None, None, w.formData.tags, None)
  }

  /**
   * One proof after `updateProofStatus(id, status, notes)` at time `now`:
   * the status is set, the verification time only for a completed status,
   * the rejection time only for a rejected one, and the notes only when
   * non-empty ones are given.
   */
  function WithStatus(p: Proof, status: ProofStatus, notes: Option<string>, now: int): (q: Proof)
    ensures q.status == status
    ensures q.verifiedAt == if status == Completed then Some(now) else p.verifiedAt
    ensures q.rejectedAt == if status == Rejected then Some(now) else p.rejectedAt
    ensures q.verificationNotes == if notes.Some? && notes.value != "" then notes else p.verificationNotes
    ensures q.(status := p.status, verifiedAt := p.verifiedAt, rejectedAt := p.rejectedAt,
               verificationNotes := p.verificationNotes) == p
  {
    p.(status := status,
       verifiedAt := if status == Completed then Some(now) else p.verifiedAt,
       rejectedAt := if status == Rejected then Some(now) else p.rejectedAt,
       verificationNotes := if OrNone(notes).Some? then notes else p.verificationNotes)
  }

  /** The proofs of `updateProofStatus(id, status, notes)` at clock `now`. */
  function UpdateStatus(ps: seq<Proof>, id: string, status: ProofStatus, notes: Option<string>, now: int)
    : (r: seq<Proof>)
    ensures |r| == |ps|
    ensures forall i :: 0 <= i < |ps| ==> r[i] == if ps[i].id == id then WithStatus(ps[i], status, notes, now) else ps[i]
  {
    UpdateWhere(ps, (p: Proof) => p.id == id, (p: Proof) => WithStatus(p, status, notes, now))
  }

  /** The proofs of `deleteProof(id)`. */
  function Delete(ps: seq<Proof>, id: string): (r: seq<Proof>)
    ensures forall p :: p in r <==> p in ps && p.id != id
  {
    Filter(ps, (p: Proof) => p.id != id)
  }

  /** Deleting keeps the order of the rest: it distributes over concatenation. */
  lemma DeleteKeepsOrder(a: seq<Proof>, b: seq<Proof>, id: string)
    ensures Delete(a + b, id) == Delete(a, id) + Delete(b, id)
    ensures (forall p :: p in a ==> p.id != id) ==> Delete(a, id) == a
  {
    FilterAppend(a, b, (p: Proof) => p.id != id);
    if forall p :: p in a ==> p.id != id {
      FilterAll(a, (p: Proof) => p.id != id);
    }
  }

  /**
   * Marking an id in progress and then removing it leaves the in-progress
   * list as it was when the id was not in it, and never keeps the id.
   */
  lemma InProgressRoundTrip(s: seq<string>, id: string)
    ensures id !in RemoveAll(s + [id], id)
    ensures RemoveAll(s + [id], id) == RemoveAll(s, id)
    ensures id !in s ==> RemoveAll(s + [id], id) == s
  {
    RemoveAllAppend(s, [id], id);
    assert RemoveAll([id], id) == [];
  }

  datatype ProofFilters = ProofFilters(status: Option<ProofStatus>, kind: Option<ProofType>,
                                       from: Option<string>, to: Option<string>)

  class ProofsStore {
    var proofs: seq<Proof>
    var wizardState: WizardState
    var uploadInProgress: seq<string>
    var filters: ProofFilters

    constructor (mock: seq<Proof>)
      ensures proofs == mock && wizardState == InitialWizard && uploadInProgress == []
      ensures filters == ProofFilters(None, None, None, None)
    {
      proofs, wizardState, uploadInProgress := mock, InitialWizard, [];
      filters := ProofFilters(None, None, None, None);
    }

    method SetWizardStep(step: int)
      modifies this
      ensures wizardState == old(wizardState).(currentStep := step)
      ensures proofs == old(proofs) && uploadInProgress == old(uploadInProgress) && filters == old(filters)
    {
      wizardState := wizardState.(currentStep := step);
    }

    method SetSelectedFile(file: Option<FileInfo>)
      modifies this
      ensures wizardState == old(wizardState).(selectedFile := file)
      ensures proofs == old(proofs) && uploadInProgress == old(uploadInProgress) && filters == old(filters)
    {
      wizardState := wizardState.(selectedFile := file);
    }

    method SetCapturedLocation(location: Option<Location>)
      modifies this
      ensures wizardState == old(wizardState).(capturedLocation := location)
      ensures proofs == old(proofs) && uploadInProgress == old(uploadInProgress) && filters == old(filters)
    {
      wizardState := wizardState.(capturedLocation := location);
    }

    method SetIsCapturingLocation(capturing: bool)
      modifies this
      ensures wizardState == old(wizardState).(isCapturingLocation := capturing)
      ensures proofs == old(proofs) && uploadInProgress == old(uploadInProgress) && filters == old(filters)
    {
      wizardState := wizardState.(isCapturingLocation := capturing);
    }

    method SetPreviewUrl(url: Option<string>)
      modifies this
      ensures wizardState == old(wizardState).(previewUrl := url)
      ensures proofs == old(proofs) && uploadInProgress == old(uploadInProgress) && filters == old(filters)
    {
      wizardState := wizardState.(previewUrl := url);
    }

    /** `updateFormData(data)`: only the supplied form fields change. */
    method UpdateFormData(data: FormPatch)
      modifies this
      ensures wizardState == old(wizardState).(formData := ApplyPatch(old(wizardState).formData, data))
      ensures proofs == old(proofs) && uploadInProgress == old(uploadInProgress) && filters == old(filters)
    {
      wizardState := wizardState.(formData := ApplyPatch(wizardState.formData, data));
    }

    method ResetWizard()
      modifies this
      ensures wizardState == InitialWizard
      ensures wizardState.currentStep == 0 && wizardState.selectedFile.None? && wizardState.previewUrl.None?
      ensures wizardState.capturedLocation.None? && wizardState.formData == FormData("", "", ActivityPhoto, [])
      ensures proofs == old(proofs) && uploadInProgress == old(uploadInProgress) && filters == old(filters)
    {
      wizardState := InitialWizard;
    }

    method AddUploadInProgress(id: string)
      modifies this
      ensures uploadInProgress == old(uploadInProgress) + [id]
      ensures proofs == old(proofs) && wizardState == old(wizardState) && filters == old(filters)
    {
      uploadInProgress := uploadInProgress + [id];
    }

    method RemoveUploadInProgress(id: string)
      modifies this
      ensures uploadInProgress == RemoveAll(old(uploadInProgress), id)
      ensures id !in uploadInProgress
      ensures proofs == old(proofs) && wizardState == old(wizardState) && filters == old(filters)
    {
      uploadInProgress := RemoveAll(uploadInProgress, id);
    }

    /**
     * `uploadProof(wizard)` at clock `now`: the id is marked in progress,
     * the new proof is put first, and the id is unmarked again.
     */
    method UploadProof(wizard: WizardState, now: nat) returns (id: string)
      modifies this
      ensures id == ProofId(now)
      ensures proofs == [NewProof(wizard, id, now)] + old(proofs)
      ensures uploadInProgress == RemoveAll(old(uploadInProgress), id) && id !in uploadInProgress
      ensures wizardState == old(wizardState) && filters == old(filters)
    {
      id := ProofId(now);
      AddUploadInProgress(id);
      proofs := [NewProof(wizard, id, now)] + proofs;
      InProgressRoundTrip(old(uploadInProgress), id);
      RemoveUploadInProgress(id);
    }

    method UpdateProofStatus(id: string, status: ProofStatus, notes: Option<string>, now: int)
      modifies this
      ensures proofs == UpdateStatus(old(proofs), id, status, notes, now)
      ensures wizardState == old(wizardState) && uploadInProgress == old(uploadInProgress) && filters == old(filters)
    {
      proofs := UpdateStatus(proofs, id, status, notes, now);
    }

    method DeleteProof(id: string)
      modifies this
      ensures proofs == Delete(old(proofs), id)
      ensures wizardState == old(wizardState) && uploadInProgress == old(uploadInProgress) && filters == old(filters)
    {
      proofs := Delete(proofs, id);
    }
  }
}
