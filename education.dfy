/**
 * The education store of the web client: learning contents, learning
 * paths, the completed and bookmarked id lists, and the derived views.
 */
module Education {
  import opened Seqs
  import opened Sorting
  import opened Numbers

  datatype ContentType = Guidebook | Video | Tutorial | Scenario | Manual
  datatype Difficulty = Beginner | Intermediate | Advanced
  datatype EducationCategory = Behavior | Communication | Legal | Strategy | Etiquette | Crisis

  /** A learning content, with the fields the store's logic reads or writes. */
  datatype Content = Content(
    id: string, title: string, category: EducationCategory, kind: ContentType, difficulty: Difficulty,
    prerequisites: seq<string>, isRequired: bool, isCompleted: bool, progress: int, rating: real,
    viewCount: int)

  /** A learning path: content ids in order. */
  datatype LearningPath = LearningPath(id: string, title: string, contents: seq<string>)

  /** The list filters; `None` stands for `'all'`. */
  datatype Filters = Filters(
    category: Option<EducationCategory>, kind: Option<ContentType>, difficulty: Option<Difficulty>,
    completedOnly: bool, requiredOnly: bool)

  const NoFilters := Filters(None, None, None, false, false)

  /** The number of recommendations listed. */
  const RecommendedCap := 5

  /** The completed list and the per-content flags agree. */
  predicate Synced(cs: seq<Content>, completed: seq<string>) {
    forall i :: 0 <= i < |cs| ==> (cs[i].isCompleted <==> cs[i].id in completed)
  }

  /**
   * The contents of `markContentCompleted(id, progress)`: the matching ones
   * flagged completed with the given progress, 100 when it is omitted.
   */
  function Complete(cs: seq<Content>, id: string, progress: Option<int>): (r: seq<Content>)
    ensures |r| == |cs|
    ensures forall i :: 0 <= i < |cs| && cs[i].id == id ==>
      r[i] == cs[i].(isCompleted := true, progress := if progress.Some? then progress.value else 100)
    ensures forall i :: 0 <= i < |cs| && cs[i].id != id ==> r[i] == cs[i]
  {
    var p := if progress.Some? then progress.value else 100;
    UpdateWhere(cs, (c: Content) => c.id == id, (c: Content) => c.(isCompleted := true, progress := p))
  }

  /** The contents of `updateContentProgress(id, progress)`. */
  function SetProgress(cs: seq<Content>, id: string, progress: int): (r: seq<Content>)
    ensures |r| == |cs|
    ensures forall i :: 0 <= i < |cs| ==> r[i] == if cs[i].id == id then cs[i].(progress := progress) else cs[i]
  {
    UpdateWhere(cs, (c: Content) => c.id == id, (c: Content) => c.(progress := progress))
  }

  /** The contents of `incrementViewCount(id)`. */
  function IncrementViews(cs: seq<Content>, id: string): (r: seq<Content>)
    ensures |r| == |cs|
    ensures forall i :: 0 <= i < |cs| ==>
      r[i] == if cs[i].id == id then cs[i].(viewCount := cs[i].viewCount + 1) else cs[i]
  {
    UpdateWhere(cs, (c: Content) => c.id == id, (c: Content) => c.(viewCount := c.viewCount + 1))
  }

  /** Completing a content puts its id in the list once and keeps the flags in step. */
  lemma CompleteSynced(cs: seq<Content>, completed: seq<string>, id: string, progress: Option<int>)
    requires Synced(cs, completed)
    ensures Synced(Complete(cs, id, progress), AddOnce(completed, id))
    ensures NoDup(completed) ==> NoDup(AddOnce(completed, id)) && Count(AddOnce(completed, id), id) == 1
  {
    if NoDup(completed) {
      var r := AddOnce(completed, id);
      if id in completed {
        NoDupCount(completed, id);
      } else {
        CountAbsent(completed, id);
        CountAppend(completed, id);
      }
    }
  }

  /**
   * Setting a progress changes only that field of the matching contents: it
   * neither clamps the value nor touches the completion flag.
   */
  lemma SetProgressEffect(cs: seq<Content>, completed: seq<string>, id: string, progress: int)
    requires Synced(cs, completed)
    ensures Synced(SetProgress(cs, id, progress), completed)
    ensures forall i :: 0 <= i < |cs| ==>
      SetProgress(cs, id, progress)[i] == if cs[i].id == id then cs[i].(progress := progress) else cs[i]
  {
  }

  /** A view raises only the matching view counts, each by one. */
  lemma IncrementViewsEffect(cs: seq<Content>, completed: seq<string>, id: string)
    requires Synced(cs, completed)
    ensures Synced(IncrementViews(cs, id), completed)
    ensures forall i :: 0 <= i < |cs| ==>
      IncrementViews(cs, id)[i] == if cs[i].id == id then cs[i].(viewCount := cs[i].viewCount + 1) else cs[i]
  {
  }

  /** The filter test of `getFilteredContents`. */
  predicate Matches(f: Filters, c: Content) {
    && (f.category.None? || c.category == f.category.value)
    && (f.kind.None? || c.kind == f.kind.value)
    && (f.difficulty.None? || c.difficulty == f.difficulty.value)
    && !(f.completedOnly && !c.isCompleted)
    && !(f.requiredOnly && !c.isRequired)
  }

  /** `getFilteredContents`: the contents passing every active filter, in store order. */
  function FilteredContents(cs: seq<Content>, f: Filters): (r: seq<Content>)
    ensures forall c :: c in r <==> c in cs && Matches(f, c)
    ensures multiset(r) <= multiset(cs)
    ensures f == NoFilters ==> r == cs
  {
    if f == NoFilters then FilterAll(cs, c => Matches(f, c)); Filter(cs, c => Matches(f, c))
    else Filter(cs, c => Matches(f, c))
  }

  /** Eligible for a recommendation: not completed, and no prerequisite or one completed. */
  predicate Eligible(c: Content, completed: seq<string>) {
    c.id !in completed && (c.prerequisites == [] || exists p :: p in c.prerequisites && p in completed)
  }

  /** The order of `getRecommendedContent`: required first, then higher rating. */
  predicate RequiredThenRating(a: Content, b: Content) {
    (a.isRequired && !b.isRequired) || (a.isRequired == b.isRequired && a.rating >= b.rating)
  }

  lemma RequiredThenRatingTotal()
    ensures TotalPreorder(RequiredThenRating)
  {
  }

  /** Eligibility as the filter of `getRecommendedContent` applies it. */
  function EligibleFor(completed: seq<string>): Content -> bool {
    (c: Content) => Eligible(c, completed)
  }

  /**
   * `getRecommendedContent`: the eligible contents sorted required-first and
   * then by rating, cut to the first five by `slice(0, 5)`.
   */
  function RecommendedContent(cs: seq<Content>, completed: seq<string>): (r: seq<Content>)
    ensures |r| <= 5
    ensures forall c :: c in r ==> c in cs && Eligible(c, completed)
    ensures forall i, j :: 0 <= i < j < |r| && r[j].isRequired ==> r[i].isRequired
    ensures forall i, j :: 0 <= i < j < |r| && r[i].isRequired == r[j].isRequired ==> r[i].rating >= r[j].rating
    ensures r <= Sort(Filter(cs, EligibleFor(completed)), RequiredThenRating)
    ensures var n := |Filter(cs, EligibleFor(completed))|; |r| == if n < 5 then n else 5
  {
    var eligible := Filter(cs, EligibleFor(completed));
    var sorted := Sort(eligible, RequiredThenRating);
    RequiredThenRatingTotal();
    SortSorted(eligible, RequiredThenRating);
    SortMembers(eligible, RequiredThenRating);
    var r := SliceTo(sorted, RecommendedCap);
    SortedPrefix(sorted, r);
    r
  }

  /** A prefix of a list sorted required-first and by rating keeps that order and its members. */
  lemma SortedPrefix(sorted: seq<Content>, r: seq<Content>)
    requires Sorted(sorted, RequiredThenRating)
    requires r <= sorted
    ensures forall t :: t in r ==> t in sorted
    ensures forall i, j :: 0 <= i < j < |r| ==> RequiredThenRating(r[i], r[j])
  {
    assert r == sorted[..|r|];
    forall i, j | 0 <= i < j < |r| ensures RequiredThenRating(r[i], r[j]) {
      assert RequiredThenRating(sorted[i], sorted[j]);
    }
  }

  /**
   * Fewer than five recommendations means every eligible content is
   * recommended.
   */
  lemma RecommendedContentComplete(cs: seq<Content>, completed: seq<string>, c: Content)
    requires c in cs && Eligible(c, completed) && |RecommendedContent(cs, completed)| < 5
    ensures c in RecommendedContent(cs, completed)
  {
    var eligible := Filter(cs, EligibleFor(completed));
    var sorted := Sort(eligible, RequiredThenRating);
    SortMembers(eligible, RequiredThenRating);
    assert RecommendedContent(cs, completed) == sorted;
  }

  /**
   * An eligible content left out of the recommendations ranks no higher
   * than any content recommended.
   */
  lemma RecommendedContentTop(cs: seq<Content>, completed: seq<string>, c: Content)
    requires c in cs && Eligible(c, completed) && c !in RecommendedContent(cs, completed)
    ensures forall u :: u in RecommendedContent(cs, completed) ==> RequiredThenRating(u, c)
  {
    var eligible := Filter(cs, EligibleFor(completed));
    var sorted := Sort(eligible, RequiredThenRating);
    var r := RecommendedContent(cs, completed);
    RequiredThenRatingTotal();
    SortSorted(eligible, RequiredThenRating);
    SortMembers(eligible, RequiredThenRating);
    assert c in sorted;
    var k :| 0 <= k < |sorted| && sorted[k] == c;
    assert k >= |r| by {
      if k < |r| {
        assert false;
      }
    }
    forall u | u in r ensures RequiredThenRating(u, c) {
      var j :| 0 <= j < |r| && r[j] == u;
      assert sorted[j] == u;
    }
  }

  /**
   * The progress of one path: the rounded percentage of its contents that
   * are completed; an empty path divides zero by zero.
   */
  function PathProgress(path: LearningPath, completed: seq<string>): (r: Num)
    ensures path.contents == [] ==> r == NaN
    ensures path.contents != [] ==> r.Value? && 0 <= r.v <= 100
    ensures path.contents != [] && (forall c :: c in path.contents ==> c in completed) ==> r == Value(100)
    ensures path.contents != [] && (forall c :: c in path.contents ==> c !in completed) ==> r == Value(0)
    ensures path.contents != [] ==>
      var k, n := CountIf(path.contents, IsCompleted(completed)), |path.contents|;
      2 * n * r.v <= 200 * k + n < 2 * n * r.v + 2 * n
  {
    var k := CountIf(path.contents, IsCompleted(completed));
    var n := |path.contents|;
    if n == 0 then NaN
    else
      CompletedCountFacts(path.contents, completed);
      Value(Percent(k, n))
  }

  /** Whether a content id is among the completed ones. */
  function IsCompleted(completed: seq<string>): string -> bool {
    (c: string) => c in completed
  }

  /** The completed count of a path is the path length when all are done and 0 when none are. */
  lemma CompletedCountFacts(ids: seq<string>, completed: seq<string>)
    ensures (forall c :: c in ids ==> c in completed) ==> CountIf(ids, IsCompleted(completed)) == |ids|
    ensures (forall c :: c in ids ==> c !in completed) ==> CountIf(ids, IsCompleted(completed)) == 0
  {
    var done := Filter(ids, IsCompleted(completed));
    if forall c :: c in ids ==> c in completed {
      FilterAll(ids, IsCompleted(completed));
    }
    if forall c :: c in ids ==> c !in completed {
      if done != [] {
        assert false;
      }
    }
  }

  /** `getLearningPathProgress(pathId)`: 0 for an unknown path, else the first such path's progress. */
  function LearningPathProgress(paths: seq<LearningPath>, completed: seq<string>, pathId: string): (r: Num)
    ensures FindFirst(paths, (p: LearningPath) => p.id == pathId).None? ==> r == Value(0)
    ensures FindFirst(paths, (p: LearningPath) => p.id == pathId).Some? ==>
      r == PathProgress(paths[FindFirst(paths, (p: LearningPath) => p.id == pathId).value], completed)
  {
    match FindFirst(paths, (p: LearningPath) => p.id == pathId)
    case None => Value(0)
    case Some(i) => PathProgress(paths[i], completed)
  }

  class EducationStore {
    var contents: seq<Content>
    var learningPaths: seq<LearningPath>
    var currentContent: Option<Content>
    var completedContents: seq<string>
    var bookmarkedContents: seq<string>
    var filters: Filters

    /** The store invariant: id lists without repeats, completion flags in step with the list. */
    ghost predicate Valid()
      reads this
    {
      NoDup(completedContents) && NoDup(bookmarkedContents) && Synced(contents, completedContents)
    }

    /** The initial state: nothing completed, nothing bookmarked. */
    constructor (mockContents: seq<Content>, mockPaths: seq<LearningPath>)
      requires forall i :: 0 <= i < |mockContents| ==> !mockContents[i].isCompleted
      ensures Valid()
      ensures contents == mockContents && learningPaths == mockPaths && currentContent == None
      ensures completedContents == [] && bookmarkedContents == [] && filters == NoFilters
    {
      contents, learningPaths, currentContent := mockContents, mockPaths, None;
      completedContents, bookmarkedContents, filters := [], [], NoFilters;
    }

    /** `markContentCompleted(id, progress)`. */
    method MarkContentCompleted(id: string, progress: Option<int>)
      requires Valid()
      modifies this
      ensures Valid()
      ensures completedContents == AddOnce(old(completedContents), id) && Count(completedContents, id) == 1
      ensures contents == Complete(old(contents), id, progress)
      ensures bookmarkedContents == old(bookmarkedContents) && currentContent == old(currentContent)
      ensures learningPaths == old(learningPaths) && filters == old(filters)
    {
      CompleteSynced(contents, completedContents, id, progress);
      completedContents := AddOnce(completedContents, id);
      contents := Complete(contents, id, progress);
    }

    method UpdateContentProgress(id: string, progress: int)
      requires Valid()
      modifies this
      ensures Valid()
      ensures contents == SetProgress(old(contents), id, progress)
      ensures completedContents == old(completedContents) && bookmarkedContents == old(bookmarkedContents)
      ensures currentContent == old(currentContent) && learningPaths == old(learningPaths) && filters == old(filters)
    {
      SetProgressEffect(contents, completedContents, id, progress);
      contents := SetProgress(contents, id, progress);
    }

    method IncrementViewCount(id: string)
      requires Valid()
      modifies this
      ensures Valid()
      ensures contents == IncrementViews(old(contents), id)
      ensures completedContents == old(completedContents) && bookmarkedContents == old(bookmarkedContents)
      ensures currentContent == old(currentContent) && learningPaths == old(learningPaths) && filters == old(filters)
    {
      IncrementViewsEffect(contents, completedContents, id);
      contents := IncrementViews(contents, id);
    }

    /** `setCurrentContent`: a content set as current gets one more view. */
    method SetCurrentContent(c: Option<Content>)
      requires Valid()
      modifies this
      ensures Valid()
      ensures currentContent == c
      ensures c.None? ==> contents == old(contents)
      ensures c.Some? ==> contents == IncrementViews(old(contents), c.value.id)
      ensures completedContents == old(completedContents) && bookmarkedContents == old(bookmarkedContents)
      ensures learningPaths == old(learningPaths) && filters == old(filters)
    {
      if c.Some? {
        IncrementViewCount(c.value.id);
      }
      currentContent := c;
    }

    method ToggleBookmark(id: string)
      requires Valid()
      modifies this
      ensures Valid()
      ensures bookmarkedContents == Toggle(old(bookmarkedContents), id)
      ensures id in bookmarkedContents <==> id !in old(bookmarkedContents)
      ensures contents == old(contents) && completedContents == old(completedContents)
      ensures currentContent == old(currentContent) && learningPaths == old(learningPaths) && filters == old(filters)
    {
      bookmarkedContents := Toggle(bookmarkedContents, id);
    }

    method ClearFilters()
      modifies this
      ensures filters == NoFilters
      ensures contents == old(contents) && completedContents == old(completedContents)
      ensures bookmarkedContents == old(bookmarkedContents)
      ensures currentContent == old(currentContent) && learningPaths == old(learningPaths)
    {
      filters := NoFilters;
    }
  }
}
