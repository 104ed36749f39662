/**
 * The policy-content store of the web client: policy and election-law
 * articles, the bookmarked ids, the recently viewed ids, and the derived
 * views.
 */
module Policies {
  import opened Seqs
  import opened Strs
  import opened Sorting

  datatype ContentCategory = Policy | ElectionLaw | Faq | CaseStudy | Guide
  datatype ContentPriority = High | Medium | Low

  /** An article; `body` is its Markdown text and `lastUpdated` a time. */
  datatype PolicyContent = PolicyContent(
    id: string, title: string, summary: string, category: ContentCategory, priority: ContentPriority,
    body: string, tags: seq<string>, lastUpdated: int, author: string, isBookmarked: bool,
    viewCount: int, relatedContentIds: seq<string>)

  /** What `addContent` receives: an article without id and view count. */
  datatype Draft = Draft(
    title: string, summary: string, category: ContentCategory, priority: ContentPriority,
    body: string, tags: seq<string>, lastUpdated: int, author: string, isBookmarked: bool,
    relatedContentIds: seq<string>)

  /** `Partial<PolicyContent>`: the fields `updateContent` overwrites. */
  datatype ContentPatch = ContentPatch(
    id: Option<string>, title: Option<string>, summary: Option<string>, category: Option<ContentCategory>,
    priority: Option<ContentPriority>, body: Option<string>, tags: Option<seq<string>>,
    lastUpdated: Option<int>, author: Option<string>, isBookmarked: Option<bool>,
    viewCount: Option<int>, relatedContentIds: Option<seq<string>>)

  const NoPatch := ContentPatch(None, None, None, None, None, None, None, None, None, None, None, None)

  datatype ContentFilter = ContentFilter(
    category: Option<ContentCategory>, priority: Option<ContentPriority>, searchTerm: string,
    tags: seq<string>, bookmarkedOnly: bool)

  const NoFilters := ContentFilter(None, None, "", [], false)

  /** Length bound of the recently viewed list. */
  const RecentCap := 10

  /** The id `addContent` gives an article: `content-` and the clock in milliseconds. */
  function ContentId(now: nat): (id: string)
    ensures "content-" <= id
  {
    "content-" + Decimal(now)
  }

  /** The article `addContent` builds: the draft's fields, the new id, no views. */
  function FromDraft(d: Draft, id: string): (c: PolicyContent)
    ensures c.id == id && c.viewCount == 0
    ensures c.title == d.title && c.summary == d.summary && c.category == d.category
    ensures c.priority == d.priority && c.body == d.body && c.tags == d.tags
    ensures c.isBookmarked == d.isBookmarked && c.relatedContentIds == d.relatedContentIds
    ensures c.lastUpdated == d.lastUpdated && c.author == d.author
  {
    PolicyContent(id, d.title, d.summary, d.category, d.priority, d.body, d.tags, d.lastUpdated,
                  d.author, d.isBookmarked, 0, d.relatedContentIds)
  }

  /** `{ ...content, ...updates }`. */
  function ApplyPatch(c: PolicyContent, u: ContentPatch): (r: PolicyContent)
    ensures u.id.None? ==> r.id == c.id
    ensures u.isBookmarked.None? ==> r.isBookmarked == c.isBookmarked
    ensures u.viewCount.Some? ==> r.viewCount == u.viewCount.value
  {
    PolicyContent(
      u.id.GetOr(c.id), u.title.GetOr(c.title), u.summary.GetOr(c.summary),
      u.category.GetOr(c.category), u.priority.GetOr(c.priority), u.body.GetOr(c.body),
      u.tags.GetOr(c.tags), u.lastUpdated.GetOr(c.lastUpdated), u.author.GetOr(c.author),
      u.isBookmarked.GetOr(c.isBookmarked), u.viewCount.GetOr(c.viewCount),
      u.relatedContentIds.GetOr(c.relatedContentIds))
  }

  /** Applying the same update twice is applying it once; an empty update changes nothing. */
  lemma ApplyPatchIdempotent(c: PolicyContent, u: ContentPatch)
    ensures ApplyPatch(ApplyPatch(c, u), u) == ApplyPatch(c, u)
    ensures ApplyPatch(c, NoPatch) == c
  {
  }

  /** The articles of `updateContent(id, updates)`. */
  function Update(cs: seq<PolicyContent>, id: string, u: ContentPatch): (r: seq<PolicyContent>)
    ensures |r| == |cs|
    ensures forall i :: 0 <= i < |cs| ==> r[i] == if cs[i].id == id then ApplyPatch(cs[i], u) else cs[i]
  {
    UpdateWhere(cs, (c: PolicyContent) => c.id == id, (c: PolicyContent) => ApplyPatch(c, u))
  }

  /** The bookmark list and the per-article flags agree. */
  predicate Synced(cs: seq<PolicyContent>, bookmarked: seq<string>) {
    forall i :: 0 <= i < |cs| ==> (cs[i].isBookmarked <==> cs[i].id in bookmarked)
  }

  /** The articles of `toggleBookmark(id)`: the matching ones get "not bookmarked before". */
  function ToggleFlags(cs: seq<PolicyContent>, bookmarked: seq<string>, id: string): (r: seq<PolicyContent>)
    ensures |r| == |cs|
    ensures forall i :: 0 <= i < |cs| ==>
      r[i] == if cs[i].id == id then cs[i].(isBookmarked := id !in bookmarked) else cs[i]
  {
    UpdateWhere(cs, (c: PolicyContent) => c.id == id,
                (c: PolicyContent) => c.(isBookmarked := id !in bookmarked))
  }

  /** `toggleBookmark` keeps the bookmark list and the flags in step. */
  lemma ToggleSynced(cs: seq<PolicyContent>, bookmarked: seq<string>, id: string)
    requires Synced(cs, bookmarked)
    ensures Synced(ToggleFlags(cs, bookmarked, id), Toggle(bookmarked, id))
  {
    var r := ToggleFlags(cs, bookmarked, id);
    assert forall i :: 0 <= i < |cs| ==> r[i].id == cs[i].id;
  }

  /**
   * Toggling the same bookmark twice restores every flag and every list
   * membership; the list itself comes back when the id was not in it.
   */
  lemma ToggleTwiceRestores(cs: seq<PolicyContent>, bookmarked: seq<string>, id: string)
    requires Synced(cs, bookmarked)
    ensures ToggleFlags(ToggleFlags(cs, bookmarked, id), Toggle(bookmarked, id), id) == cs
    ensures forall x :: x in Toggle(Toggle(bookmarked, id), id) <==> x in bookmarked
    ensures id !in bookmarked ==> Toggle(Toggle(bookmarked, id), id) == bookmarked
  {
    ToggleTwice(bookmarked, id);
    var once := ToggleFlags(cs, bookmarked, id);
    var twice := ToggleFlags(once, Toggle(bookmarked, id), id);
    assert |twice| == |cs|;
    forall i | 0 <= i < |cs| ensures twice[i] == cs[i] {
      if cs[i].id == id {
        assert once[i] == cs[i].(isBookmarked := id !in bookmarked);
      }
    }
  }

  /**
   * The articles of `viewContent(id)`: when an article has the id, every
   * article with that id gets the first one's view count plus one.
   */
  function CountView(cs: seq<PolicyContent>, id: string): (r: seq<PolicyContent>)
    ensures FindFirst(cs, (c: PolicyContent) => c.id == id).None? ==> r == cs
  {
    match FindFirst(cs, (c: PolicyContent) => c.id == id)
    case None => cs
    case Some(i) => Update(cs, id, NoPatch.(viewCount := Some(cs[i].viewCount + 1)))
  }

  /**
   * With distinct ids, a view raises the viewed article's count by one and
   * leaves every other article, and every bookmark flag, as it was.
   */
  lemma CountViewEffect(cs: seq<PolicyContent>, bookmarked: seq<string>, id: string)
    requires NoDup(Map(cs, (c: PolicyContent) => c.id))
    ensures |CountView(cs, id)| == |cs|
    ensures forall i :: 0 <= i < |cs| ==>
      CountView(cs, id)[i] == if cs[i].id == id then cs[i].(viewCount := cs[i].viewCount + 1) else cs[i]
    ensures Synced(cs, bookmarked) ==> Synced(CountView(cs, id), bookmarked)
  {
    var ids := Map(cs, (c: PolicyContent) => c.id);
    match FindFirst(cs, (c: PolicyContent) => c.id == id)
    case None =>
    case Some(k) =>
      forall i | 0 <= i < |cs| && cs[i].id == id ensures i == k {
        if i != k {
          assert false;
        }
      }
  }

  /** The filter test of `getFilteredContents`; the search ignores ASCII case. */
  predicate Matches(f: ContentFilter, c: PolicyContent) {
    var term := ToLower(f.searchTerm);
    && (f.category.None? || c.category == f.category.value)
    && (f.priority.None? || c.priority == f.priority.value)
    && (f.searchTerm == "" || Contains(ToLower(c.title), term) || Contains(ToLower(c.summary), term)
        || Contains(ToLower(c.body), term))
    && (f.tags == [] || exists t :: t in f.tags && t in c.tags)
    && !(f.bookmarkedOnly && !c.isBookmarked)
  }

  /** `getFilteredContents`: the articles passing every active filter, in store order. */
  function FilteredContents(cs: seq<PolicyContent>, f: ContentFilter): (r: seq<PolicyContent>)
    ensures forall c :: c in r <==> c in cs && Matches(f, c)
    ensures f.tags != [] ==> forall c :: c in r ==> exists t :: t in f.tags && t in c.tags
    ensures multiset(r) <= multiset(cs)
  {
    Filter(cs, c => Matches(f, c))
  }

  /** With the filters cleared every article is listed. */
  lemma ClearedFiltersKeepAll(cs: seq<PolicyContent>)
    ensures FilteredContents(cs, NoFilters) == cs
  {
    FilterAll(cs, c => Matches(NoFilters, c));
  }

  predicate MoreViews(a: PolicyContent, b: PolicyContent) {
    a.viewCount >= b.viewCount
  }

  /**
   * `getPopularContent(limit)`: the most viewed articles first, at most
   * `limit` of them (5 when omitted), taken from a copy of the list. The
   * result is the front of the views-descending sort, as long as
   * `slice(0, limit)` makes it, a negative limit counting from the end.
   */
  function PopularContent(cs: seq<PolicyContent>, limit: Option<int>): (r: seq<PolicyContent>)
    ensures forall i, j :: 0 <= i < j < |r| ==> r[i].viewCount >= r[j].viewCount
    ensures multiset(r) <= multiset(cs)
    ensures r <= Sort(cs, MoreViews)
    ensures limit.None? ==> |r| == if |cs| < 5 then |cs| else 5
    ensures limit.Some? && limit.value >= 0 ==> |r| == if |cs| < limit.value then |cs| else limit.value
    ensures limit.Some? && limit.value < 0 ==> |r| == if |cs| + limit.value >= 0 then |cs| + limit.value else 0
    ensures limit.Some? && limit.value >= |cs| ==> multiset(r) == multiset(cs)
  {
    var sorted := Sort(cs, MoreViews);
    assert TotalPreorder(MoreViews);
    SortSorted(cs, MoreViews);
    var r := SliceTo(sorted, if limit.Some? then limit.value else 5);
    SortedPrefix(sorted, r);
    r
  }

  /** A prefix of a views-descending list is views-descending and drawn from the list. */
  lemma SortedPrefix(sorted: seq<PolicyContent>, r: seq<PolicyContent>)
    requires Sorted(sorted, MoreViews)
    requires r <= sorted
    ensures forall i, j :: 0 <= i < j < |r| ==> r[i].viewCount >= r[j].viewCount
    ensures multiset(r) <= multiset(sorted)
    ensures |r| == |sorted| ==> multiset(r) == multiset(sorted)
  {
    assert r == sorted[..|r|];
    forall i, j | 0 <= i < j < |r| ensures r[i].viewCount >= r[j].viewCount {
      assert MoreViews(sorted[i], sorted[j]);
    }
    assert sorted == r + sorted[|r|..];
    assert multiset(sorted) == multiset(r) + multiset(sorted[|r|..]);
  }

  /** No article that `getPopularContent` leaves out has more views than one it lists. */
  lemma PopularContentTop(cs: seq<PolicyContent>, limit: Option<int>, c: PolicyContent)
    requires c in cs && c !in PopularContent(cs, limit)
    ensures forall u :: u in PopularContent(cs, limit) ==> u.viewCount >= c.viewCount
  {
    var sorted := Sort(cs, MoreViews);
    var r := PopularContent(cs, limit);
    assert TotalPreorder(MoreViews);
    SortSorted(cs, MoreViews);
    SortMembers(cs, MoreViews);
    var k :| 0 <= k < |sorted| && sorted[k] == c;
    assert k >= |r| by {
      if k < |r| {
        assert false;
      }
    }
    forall u | u in r ensures u.viewCount >= c.viewCount {
      var j :| 0 <= j < |r| && r[j] == u;
      assert sorted[j] == u;
    }
  }

  /** How `getRelatedContent` relates an article `c` to the article `of` asked about. */
  predicate Related(of: PolicyContent, c: PolicyContent) {
    c.id in of.relatedContentIds || of.id in c.relatedContentIds || (c.id != of.id && c.category == of.category)
  }

  function RelatedTo(of: PolicyContent): PolicyContent -> bool {
    (c: PolicyContent) => Related(of, c)
  }

  /**
   * `getRelatedContent(id)`: nothing for an unknown id; otherwise the first
   * three articles, in store order, linked to it in either direction or
   * sharing its category.
   */
  function RelatedContent(cs: seq<PolicyContent>, id: string): (r: seq<PolicyContent>)
    ensures FindFirst(cs, (c: PolicyContent) => c.id == id).None? ==> r == []
    ensures |r| <= 3
    ensures FindFirst(cs, (c: PolicyContent) => c.id == id).Some? ==>
      var related := Filter(cs, RelatedTo(cs[FindFirst(cs, (c: PolicyContent) => c.id == id).value]));
      r <= related && |r| == if |related| < 3 then |related| else 3
    ensures FindFirst(cs, (c: PolicyContent) => c.id == id).Some? ==>
      forall c :: c in r ==> c in cs && Related(cs[FindFirst(cs, (c: PolicyContent) => c.id == id).value], c)
  {
    match FindFirst(cs, (c: PolicyContent) => c.id == id)
    case None => []
    case Some(i) =>
      var of := cs[i];
      var related := Filter(cs, RelatedTo(of));
      var r := SliceTo(related, 3);
      assert forall c :: c in r ==> c in related by {
        forall c | c in r ensures c in related {
          var k :| 0 <= k < |r| && r[k] == c;
          assert related[k] == c;
        }
      }
      r
  }

  /** The bookmark state of the bundled articles, in order. */
  predicate MockShape(cs: seq<PolicyContent>) {
    && |cs| == 5
    && cs[0].id == "policy-1" && cs[0].isBookmarked
    && cs[1].id == "law-1" && !cs[1].isBookmarked
    && cs[2].id == "faq-1" && cs[2].isBookmarked
    && cs[3].id == "case-1" && !cs[3].isBookmarked
    && cs[4].id == "guide-1" && !cs[4].isBookmarked
  }

  class PoliciesStore {
    var contents: seq<PolicyContent>
    var filters: ContentFilter
    var selectedContent: Option<PolicyContent>
    var recentlyViewed: seq<string>
    var bookmarkedIds: seq<string>

    /** The store invariant: id lists without repeats, at most ten recent ids, flags in step. */
    ghost predicate Valid()
      reads this
    {
      && NoDup(bookmarkedIds) && NoDup(recentlyViewed) && |recentlyViewed| <= RecentCap
      && Synced(contents, bookmarkedIds)
    }

    constructor (mock: seq<PolicyContent>)
      requires MockShape(mock)
      ensures Valid()
      ensures contents == mock && filters == NoFilters && selectedContent == None
      ensures recentlyViewed == [] && bookmarkedIds == ["policy-1", "faq-1"]
    {
      contents, filters, selectedContent := mock, NoFilters, None;
      recentlyViewed, bookmarkedIds := [], ["policy-1", "faq-1"];
    }

    /** `addContent(draft)` at clock `now`: the new article comes first, with no views. */
    method AddContent(d: Draft, now: nat)
      modifies this
      ensures contents == [FromDraft(d, ContentId(now))] + old(contents)
      ensures old(Valid()) && (d.isBookmarked <==> ContentId(now) in bookmarkedIds) ==> Valid()
      ensures filters == old(filters) && selectedContent == old(selectedContent)
      ensures recentlyViewed == old(recentlyViewed) && bookmarkedIds == old(bookmarkedIds)
    {
      contents := [FromDraft(d, ContentId(now))] + contents;
    }

    /** `updateContent(id, updates)`: the updates merge into the matching articles. */
    method UpdateContent(id: string, u: ContentPatch)
      modifies this
      ensures contents == Update(old(contents), id, u)
      ensures old(Valid()) && u.id.None? && u.isBookmarked.None? ==> Valid()
      ensures filters == old(filters) && selectedContent == old(selectedContent)
      ensures recentlyViewed == old(recentlyViewed) && bookmarkedIds == old(bookmarkedIds)
    {
      contents := Update(contents, id, u);
    }

    /** `deleteContent(id)`: the id leaves the articles, the bookmarks and the recent list. */
    method DeleteContent(id: string)
      requires Valid()
      modifies this
      ensures Valid()
      ensures contents == Filter(old(contents), (c: PolicyContent) => c.id != id)
      ensures bookmarkedIds == RemoveAll(old(bookmarkedIds), id)
      ensures recentlyViewed == RemoveAll(old(recentlyViewed), id)
      ensures filters == old(filters) && selectedContent == old(selectedContent)
    {
      var kept := Filter(contents, (c: PolicyContent) => c.id != id);
      assert Synced(kept, RemoveAll(bookmarkedIds, id)) by {
        forall i | 0 <= i < |kept|
          ensures kept[i].isBookmarked <==> kept[i].id in RemoveAll(bookmarkedIds, id)
        {
          assert kept[i] in contents && kept[i].id != id;
          var j :| 0 <= j < |contents| && contents[j] == kept[i];
        }
      }
      RemoveAllNoDup(bookmarkedIds, id);
      RemoveAllNoDup(recentlyViewed, id);
      contents := kept;
      bookmarkedIds := RemoveAll(bookmarkedIds, id);
      recentlyViewed := RemoveAll(recentlyViewed, id);
    }

    /**
     * `viewContent(id)`: the id moves to the front of the recent list (once,
     * at most ten), and a known article counts one more view.
     */
    method ViewContent(id: string)
      requires Valid()
      modifies this
      ensures Valid()
      ensures recentlyViewed == MoveToFront(old(recentlyViewed), id, RecentCap)
      ensures recentlyViewed[0] == id && Count(recentlyViewed, id) == 1
      ensures contents == CountView(old(contents), id)
      ensures bookmarkedIds == old(bookmarkedIds)
      ensures filters == old(filters) && selectedContent == old(selectedContent)
    {
      recentlyViewed := MoveToFront(recentlyViewed, id, RecentCap);
      var next := CountView(contents, id);
      assert Synced(next, bookmarkedIds) by {
        var ids := Map(contents, (c: PolicyContent) => c.id);
        assert forall i :: 0 <= i < |next| ==>
          next[i].id == contents[i].id && next[i].isBookmarked == contents[i].isBookmarked;
      }
      contents := next;
    }

    method SetSelectedContent(c: Option<PolicyContent>)
      modifies this
      ensures selectedContent == c
      ensures contents == old(contents) && filters == old(filters)
      ensures recentlyViewed == old(recentlyViewed) && bookmarkedIds == old(bookmarkedIds)
    {
      selectedContent := c;
    }

    method ToggleBookmark(id: string)
      requires Valid()
      modifies this
      ensures Valid()
      ensures bookmarkedIds == Toggle(old(bookmarkedIds), id)
      ensures contents == ToggleFlags(old(contents), old(bookmarkedIds), id)
      ensures filters == old(filters) && selectedContent == old(selectedContent)
      ensures recentlyViewed == old(recentlyViewed)
    {
      ToggleSynced(contents, bookmarkedIds, id);
      contents := ToggleFlags(contents, bookmarkedIds, id);
      bookmarkedIds := Toggle(bookmarkedIds, id);
    }

    method ClearFilters()
      modifies this
      ensures filters == NoFilters
      ensures contents == old(contents) && selectedContent == old(selectedContent)
      ensures recentlyViewed == old(recentlyViewed) && bookmarkedIds == old(bookmarkedIds)
    {
      filters := NoFilters;
    }
  }
}
