/**
 * The campaign-documents store of the web client: the required documents,
 * the guide steps, the overall progress and the uploads in progress.
 */
module Documents {
  import opened Seqs
  import opened Numbers

  datatype DocumentStatus = Pending | Uploaded | Verified | Rejected
  datatype DocumentCategory = Personal | Financial | Campaign | Legal | Party

  /** A document, with the fields the store writes; times are integers. */
  datatype Document = Document(
    id: string, title: string, required: bool, category: DocumentCategory, status: DocumentStatus,
    fileName: Option<string>, fileSize: Option<int>, uploadedAt: Option<int>, rejectionReason: Option<string>)

  datatype GuideStep = GuideStep(id: string, title: string, completed: bool, order: int, documents: seq<string>)

  /**
   * One document after `updateDocumentStatus(id, status, reason)` at time
   * `now`: a rejection carries the given reason and any other status clears
   * it; an upload or a verification refreshes the upload time.
   */
  function WithStatus(d: Document, status: DocumentStatus, reason: Option<string>, now: int): (e: Document)
    ensures e.status == status
    ensures e.rejectionReason == if status == Rejected then reason else None
    ensures e.uploadedAt == if status == Uploaded || status == Verified then Some(now) else d.uploadedAt
    ensures e.(status := d.status, rejectionReason := d.rejectionReason, uploadedAt := d.uploadedAt) == d
  {
    d.(status := status,
       rejectionReason := if status == Rejected then reason else None,
       uploadedAt := if status == Uploaded || status == Verified then Some(now) else d.uploadedAt)
  }

  /** The documents of `updateDocumentStatus(id, status, reason)` at clock `now`. */
  function UpdateStatus(ds: seq<Document>, id: string, status: DocumentStatus, reason: Option<string>, now: int)
    : (r: seq<Document>)
    ensures |r| == |ds|
    ensures forall i :: 0 <= i < |ds| ==>
      r[i] == if ds[i].id == id then WithStatus(ds[i], status, reason, now) else ds[i]
  {
    UpdateWhere(ds, (d: Document) => d.id == id, (d: Document) => WithStatus(d, status, reason, now))
  }

  /** The steps of `markStepCompleted(stepId)`. */
  function MarkStep(ss: seq<GuideStep>, stepId: string): (r: seq<GuideStep>)
    ensures |r| == |ss|
    ensures forall i :: 0 <= i < |ss| ==> r[i] == if ss[i].id == stepId then ss[i].(completed := true) else ss[i]
  {
    UpdateWhere(ss, (s: GuideStep) => s.id == stepId, (s: GuideStep) => s.(completed := true))
  }

  /** Marking a step is idempotent and touches only the matching steps. */
  lemma MarkStepIdempotent(ss: seq<GuideStep>, stepId: string)
    ensures MarkStep(MarkStep(ss, stepId), stepId) == MarkStep(ss, stepId)
    ensures forall i :: 0 <= i < |ss| && ss[i].id != stepId ==> MarkStep(ss, stepId)[i] == ss[i]
    ensures forall i :: 0 <= i < |ss| && ss[i].id == stepId ==> MarkStep(ss, stepId)[i].completed
  {
  }

  /** A document counts as done when uploaded or verified. */
  predicate Done(d: Document) {
    d.status == Verified || d.status == Uploaded
  }

  function RequiredCount(ds: seq<Document>): nat {
    CountIf(ds, (d: Document) => d.required)
  }

  function RequiredDone(ds: seq<Document>): (c: nat)
    ensures c <= RequiredCount(ds)
  {
    var required := Filter(ds, (d: Document) => d.required);
    CountIf(required, Done)
  }

  function CompletedSteps(ss: seq<GuideStep>): (c: nat)
    ensures c <= |ss|
  {
    CountIf(ss, (s: GuideStep) => s.completed)
  }

  /**
   * `calculateProgress`: 70 parts for the required documents done and 30
   * for the steps completed, rounded; with no required documents or no
   * steps the ratio is zero divided by zero.
   */
  function Progress(ds: seq<Document>, ss: seq<GuideStep>): (p: Num)
    ensures RequiredCount(ds) == 0 || ss == [] ==> p == NaN
    ensures RequiredCount(ds) > 0 && ss != [] ==> p.Value? && 0 <= p.v <= 100
    ensures RequiredCount(ds) > 0 && ss != [] && RequiredDone(ds) == RequiredCount(ds) && CompletedSteps(ss) == |ss|
      ==> p == Value(100)
    ensures RequiredCount(ds) > 0 && ss != [] && RequiredDone(ds) == 0 && CompletedSteps(ss) == 0
      ==> p == Value(0)
    ensures RequiredCount(ds) > 0 && ss != [] ==>
      var r, c, n, s := RequiredCount(ds), RequiredDone(ds), |ss|, CompletedSteps(ss);
      2 * (r * n) * p.v <= 2 * (70 * c * n + 30 * s * r) + r * n < 2 * (r * n) * p.v + 2 * (r * n)
  {
    var r, c, n, s := RequiredCount(ds), RequiredDone(ds), |ss|, CompletedSteps(ss);
    if r == 0 || n == 0 then NaN
    else
      WeightedWithin(c, r, s, n);
      Value(Weighted(c, r, s, n))
  }

  /**
   * `Math.round(c / r * 70 + s / n * 30)` over exact rationals: the integer
   * nearest to `(70 c n + 30 s r) / (r n)`, halves rounded up.
   */
  function Weighted(c: nat, r: nat, s: nat, n: nat): (w: int)
    requires r > 0 && n > 0
    ensures 2 * (r * n) * w <= 2 * (70 * c * n + 30 * s * r) + r * n < 2 * (r * n) * w + 2 * (r * n)
  {
    RoundDiv(70 * c * n + 30 * s * r, r * n)
  }

  /** More completed steps never give a lower weighted progress. */
  lemma WeightedMono(c: nat, r: nat, s1: nat, s2: nat, n: nat)
    requires r > 0 && n > 0 && s1 <= s2
    ensures Weighted(c, r, s1, n) <= Weighted(c, r, s2, n)
  {
    MulMono(30 * r, s1, s2);
    assert 30 * s1 * r == (30 * r) * s1 && 30 * s2 * r == (30 * r) * s2;
    RoundDivMono(70 * c * n + 30 * s1 * r, 70 * c * n + 30 * s2 * r, r * n);
  }

  lemma WeightedWithin(c: nat, r: nat, s: nat, n: nat)
    requires 0 < r && 0 < n && c <= r && s <= n
    ensures 0 <= Weighted(c, r, s, n) <= 100
    ensures c == r && s == n ==> Weighted(c, r, s, n) == 100
    ensures c == 0 && s == 0 ==> Weighted(c, r, s, n) == 0
  {
    var q := r * n;
    NumeratorWithin(c, r, s, n);
    RoundDivWithin(70 * c * n + 30 * s * r, q);
  }

  lemma NumeratorWithin(c: nat, r: nat, s: nat, n: nat)
    requires 0 < r && 0 < n && c <= r && s <= n
    ensures 0 <= 70 * c * n + 30 * s * r <= 100 * (r * n)
    ensures c == r && s == n ==> 70 * c * n + 30 * s * r == 100 * (r * n)
    ensures c == 0 && s == 0 ==> 70 * c * n + 30 * s * r == 0
  {
    MulMono(70 * n, c, r);
    MulMono(30 * r, s, n);
    assert 70 * c * n == (70 * n) * c && 70 * r * n == (70 * n) * r;
    assert 30 * s * r == (30 * r) * s && 30 * n * r == (30 * r) * n;
  }

  /** Marking a step never lowers the number of completed steps. */
  lemma {:induction false} MarkStepCompletedSteps(ss: seq<GuideStep>, stepId: string)
    ensures CompletedSteps(MarkStep(ss, stepId)) >= CompletedSteps(ss)
    ensures |MarkStep(ss, stepId)| == |ss|
  {
    if ss != [] {
      assert MarkStep(ss, stepId)[1..] == MarkStep(ss[1..], stepId);
      MarkStepCompletedSteps(ss[1..], stepId);
    }
  }

  /** Completing a step never lowers the overall progress. */
  lemma MarkStepMonotone(ds: seq<Document>, ss: seq<GuideStep>, stepId: string)
    requires RequiredCount(ds) > 0 && ss != []
    ensures Progress(ds, MarkStep(ss, stepId)).v >= Progress(ds, ss).v
  {
    var r, c, n := RequiredCount(ds), RequiredDone(ds), |ss|;
    var s1, s2 := CompletedSteps(ss), CompletedSteps(MarkStep(ss, stepId));
    MarkStepCompletedSteps(ss, stepId);
    WeightedMono(c, r, s1, s2, n);
  }

  class DocumentsStore {
    var documents: seq<Document>
    var guideSteps: seq<GuideStep>
    var currentStep: int
    var overallProgress: Num
    var uploadInProgress: seq<string>

    /** The initial state: step 1, progress 0, nothing uploading. */
    constructor (docs: seq<Document>, steps: seq<GuideStep>)
      ensures documents == docs && guideSteps == steps && currentStep == 1
      ensures overallProgress == Value(0) && uploadInProgress == []
    {
      documents, guideSteps, currentStep := docs, steps, 1;
      overallProgress, uploadInProgress := Value(0), [];
    }

    /** `updateDocumentStatus(id, status, reason)` at time `now`. */
    method UpdateDocumentStatus(id: string, status: DocumentStatus, reason: Option<string>, now: int)
      modifies this
      ensures documents == UpdateStatus(old(documents), id, status, reason, now)
      ensures guideSteps == old(guideSteps) && currentStep == old(currentStep)
      ensures overallProgress == old(overallProgress) && uploadInProgress == old(uploadInProgress)
    {
      documents := UpdateStatus(documents, id, status, reason, now);
    }

    method CalculateProgress()
      modifies this
      ensures overallProgress == Progress(documents, guideSteps)
      ensures documents == old(documents) && guideSteps == old(guideSteps)
      ensures currentStep == old(currentStep) && uploadInProgress == old(uploadInProgress)
    {
      overallProgress := Progress(documents, guideSteps);
    }

    /** `markStepCompleted(stepId)`: the step is marked and the progress recomputed. */
    method MarkStepCompleted(stepId: string)
      modifies this
      ensures guideSteps == MarkStep(old(guideSteps), stepId)
      ensures overallProgress == Progress(documents, guideSteps)
      ensures documents == old(documents) && currentStep == old(currentStep)
      ensures uploadInProgress == old(uploadInProgress)
    {
      guideSteps := MarkStep(guideSteps, stepId);
      CalculateProgress();
    }

    method SetCurrentStep(step: int)
      modifies this
      ensures currentStep == step
      ensures documents == old(documents) && guideSteps == old(guideSteps)
      ensures overallProgress == old(overallProgress) && uploadInProgress == old(uploadInProgress)
    {
      currentStep := step;
    }

    method AddUploadInProgress(id: string)
      modifies this
      ensures uploadInProgress == old(uploadInProgress) + [id]
      ensures documents == old(documents) && guideSteps == old(guideSteps)
      ensures currentStep == old(currentStep) && overallProgress == old(overallProgress)
    {
      uploadInProgress := uploadInProgress + [id];
    }

    method RemoveUploadInProgress(id: string)
      modifies this
      ensures uploadInProgress == RemoveAll(old(uploadInProgress), id) && id !in uploadInProgress
      ensures documents == old(documents) && guideSteps == old(guideSteps)
      ensures currentStep == old(currentStep) && overallProgress == old(overallProgress)
    {
      uploadInProgress := RemoveAll(uploadInProgress, id);
    }
  }
}
