/**
 * The design-template store of the web client: printable campaign
 * templates, the regulation guidelines, the download history and the
 * favourites, and the derived template views.
 */
module Templates {
  import opened Seqs
  import opened Sorting

  datatype TemplateCategory = Banner | BusinessCard | Flyer | Poster | Brochure | Digital | Sticker
  datatype TemplateFormat = Ai | Psd | Pdf | Jpg | Png | Svg | Docx | Hwp
  datatype TemplateSize = A4 | A3 | A2 | A1 | B4 | B3 | Card90x50 | Card85x55 | Custom

  /**
   * A template; `formats` lists the formats of its files, in order, and
   * `rating` is its average rating.
   */
  datatype Template = Template(
    id: string, title: string, category: TemplateCategory, formats: seq<TemplateFormat>,
    dimensions: TemplateSize, isPopular: bool, downloadCount: int, rating: real, isCompliant: bool)

  /** A guideline belongs to one template category or is general. */
  datatype GuidelineCategory = For(category: TemplateCategory) | General

  datatype Guideline = Guideline(id: string, title: string, category: GuidelineCategory)

  /** The list filters; `None` stands for `'all'`. */
  datatype Filters = Filters(
    category: Option<TemplateCategory>, format: Option<TemplateFormat>, size: Option<TemplateSize>,
    popularOnly: bool, compliantOnly: bool)

  const NoFilters := Filters(None, None, None, false, false)

  /** Length bound of the download history. */
  const HistoryCap := 50

  function Ids(ts: seq<Template>): (ids: seq<string>)
    ensures |ids| == |ts| && forall i :: 0 <= i < |ts| ==> ids[i] == ts[i].id
  {
    Map(ts, (t: Template) => t.id)
  }

  /** The templates of `downloadTemplate(id, format)`: the matching ones counted once more. */
  function CountDownload(ts: seq<Template>, id: string): (r: seq<Template>)
    ensures |r| == |ts|
    ensures forall i :: 0 <= i < |ts| ==>
      r[i] == if ts[i].id == id then ts[i].(downloadCount := ts[i].downloadCount + 1) else ts[i]
  {
    UpdateWhere(ts, (t: Template) => t.id == id, (t: Template) => t.(downloadCount := t.downloadCount + 1))
  }

  function TotalDownloads(ts: seq<Template>): int {
    SumOf(ts, (t: Template) => t.downloadCount)
  }

  /**
   * A download raises only the matching templates' counts, each by one, and
   * keeps every id and every other field.
   */
  lemma CountDownloadEffect(ts: seq<Template>, id: string)
    ensures Ids(CountDownload(ts, id)) == Ids(ts)
    ensures TotalDownloads(CountDownload(ts, id)) == TotalDownloads(ts) + CountIf(ts, (t: Template) => t.id == id)
    ensures forall i :: 0 <= i < |ts| ==>
      CountDownload(ts, id)[i] == if ts[i].id == id then ts[i].(downloadCount := ts[i].downloadCount + 1) else ts[i]
  {
    SumOfBump(ts, (t: Template) => t.id == id, (t: Template) => t.(downloadCount := t.downloadCount + 1),
              (t: Template) => t.downloadCount);
  }

  /** The filter test of `getFilteredTemplates`; a format matches when some file has it. */
  predicate Matches(f: Filters, t: Template) {
    && (f.category.None? || t.category == f.category.value)
    && (f.format.None? || f.format.value in t.formats)
    && (f.size.None? || t.dimensions == f.size.value)
    && !(f.popularOnly && !t.isPopular)
    && !(f.compliantOnly && !t.isCompliant)
  }

  /** `getFilteredTemplates`: the templates passing every active filter, in store order. */
  function FilteredTemplates(ts: seq<Template>, f: Filters): (r: seq<Template>)
    ensures forall t :: t in r <==> t in ts && Matches(f, t)
    ensures multiset(r) <= multiset(ts)
    ensures f == NoFilters ==> r == ts
  {
    if f == NoFilters then FilterAll(ts, t => Matches(f, t)); Filter(ts, t => Matches(f, t))
    else Filter(ts, t => Matches(f, t))
  }

  /** Filtering keeps the store order: it distributes over concatenation. */
  lemma FilteredTemplatesOrder(a: seq<Template>, b: seq<Template>, f: Filters)
    ensures FilteredTemplates(a + b, f) == FilteredTemplates(a, f) + FilteredTemplates(b, f)
  {
    FilterAppend(a, b, t => Matches(f, t));
  }

  const AllCategories: seq<TemplateCategory> := [Banner, BusinessCard, Flyer, Poster, Brochure, Digital, Sticker]

  lemma AllCategoriesListed()
    ensures forall c: TemplateCategory :: c in AllCategories
  {
    forall c: TemplateCategory ensures c in AllCategories {
      match c
      case Banner => assert AllCategories[0] == c;
      case BusinessCard => assert AllCategories[1] == c;
      case Flyer => assert AllCategories[2] == c;
      case Poster => assert AllCategories[3] == c;
      case Brochure => assert AllCategories[4] == c;
      case Digital => assert AllCategories[5] == c;
      case Sticker => assert AllCategories[6] == c;
    }
  }

  function InCategory(ts: seq<Template>, c: TemplateCategory): seq<Template> {
    Filter(ts, (t: Template) => t.category == c)
  }

  /** `getTemplatesByCategory`: one list per category. */
  function ByCategory(ts: seq<Template>): (m: map<TemplateCategory, seq<Template>>)
    ensures forall c :: c in m
  {
    AllCategoriesListed();
    map c: TemplateCategory | c in AllCategories :: InCategory(ts, c)
  }

  /** The category lists partition the templates, and their sizes add up to the total. */
  lemma ByCategoryPartition(ts: seq<Template>)
    ensures forall t, c :: t in ts ==> (t in ByCategory(ts)[c] <==> c == t.category)
    ensures forall c, t :: t in ByCategory(ts)[c] ==> t in ts && t.category == c
    ensures |ByCategory(ts)[Banner]| + |ByCategory(ts)[BusinessCard]| + |ByCategory(ts)[Flyer]|
          + |ByCategory(ts)[Poster]| + |ByCategory(ts)[Brochure]| + |ByCategory(ts)[Digital]|
          + |ByCategory(ts)[Sticker]| == |ts|
  {
    forall c ensures ByCategory(ts)[c] == InCategory(ts, c) {
      AllCategoriesListed();
    }
    CategorySizes(ts);
  }

  lemma {:induction false} CategorySizes(ts: seq<Template>)
    ensures |InCategory(ts, Banner)| + |InCategory(ts, BusinessCard)| + |InCategory(ts, Flyer)|
          + |InCategory(ts, Poster)| + |InCategory(ts, Brochure)| + |InCategory(ts, Digital)|
          + |InCategory(ts, Sticker)| == |ts|
  {
    if ts != [] {
      CategorySizes(ts[1..]);
      InCategoryStep(ts, Banner);
      InCategoryStep(ts, BusinessCard);
      InCategoryStep(ts, Flyer);
      InCategoryStep(ts, Poster);
      InCategoryStep(ts, Brochure);
      InCategoryStep(ts, Digital);
      InCategoryStep(ts, Sticker);
      HitsSumToOne(ts[0]);
    }
  }

  /** 1 for the category of `x`, 0 for every other. */
  function Hit(x: Template, c: TemplateCategory): nat {
    if x.category == c then 1 else 0
  }

  /** Every item has exactly one category. */
  lemma HitsSumToOne(x: Template)
    ensures Hit(x, Banner) + Hit(x, BusinessCard) + Hit(x, Flyer) + Hit(x, Poster)
          + Hit(x, Brochure) + Hit(x, Digital) + Hit(x, Sticker) == 1
  {
  }

  lemma InCategoryStep(ts: seq<Template>, c: TemplateCategory)
    requires ts != []
    ensures |InCategory(ts, c)| == |InCategory(ts[1..], c)| + Hit(ts[0], c)
  {
  }

  /** The comparator of `getPopularTemplates`: more downloads first. */
  predicate MoreDownloads(a: Template, b: Template) {
    a.downloadCount >= b.downloadCount
  }

  /** The recommendation score: the rating, raised by a fifth for popular templates. */
  function Score(t: Template): real {
    t.rating * (if t.isPopular then 1.2 else 1.0)
  }

  /** The comparator of `getRecommendedTemplates`: higher score first. */
  predicate HigherScore(a: Template, b: Template) {
    Score(a) >= Score(b)
  }

  lemma ComparatorsTotal()
    ensures TotalPreorder(MoreDownloads) && TotalPreorder(HigherScore)
  {
  }

  predicate Popular(t: Template) {
    t.isPopular
  }

  /**
   * `getPopularTemplates(limit)`: the popular templates, most downloaded
   * first, cut by `slice(0, limit)`; an omitted limit is 5 and a negative one
   * counts from the end.
   */
  function PopularTemplates(ts: seq<Template>, limit: Option<int>): (r: seq<Template>)
    ensures forall t :: t in r ==> t in ts && t.isPopular
    ensures forall i, j :: 0 <= i < j < |r| ==> r[i].downloadCount >= r[j].downloadCount
    ensures |r| <= (if limit.Some? then (if limit.value >= 0 then limit.value else |ts|) else 5)
    ensures r <= Sort(Filter(ts, Popular), MoreDownloads)
    ensures var pop := |Filter(ts, Popular)|;
      && (limit.None? ==> |r| == if pop < 5 then pop else 5)
      && (limit.Some? && limit.value >= 0 ==> |r| == if pop < limit.value then pop else limit.value)
      && (limit.Some? && limit.value < 0 ==> |r| == if pop + limit.value >= 0 then pop + limit.value else 0)
  {
    var popular := Filter(ts, Popular);
    var sorted := Sort(popular, MoreDownloads);
    ComparatorsTotal();
    SortSorted(popular, MoreDownloads);
    SortMembers(popular, MoreDownloads);
    var r := SliceTo(sorted, if limit.Some? then limit.value else 5);
    SortedPrefix(sorted, r);
    r
  }

  /** A prefix of a downloads-descending list is downloads-descending and drawn from the list. */
  lemma SortedPrefix(sorted: seq<Template>, r: seq<Template>)
    requires Sorted(sorted, MoreDownloads)
    requires r <= sorted
    ensures forall i, j :: 0 <= i < j < |r| ==> r[i].downloadCount >= r[j].downloadCount
    ensures forall t :: t in r ==> t in sorted
  {
    assert r == sorted[..|r|];
    forall i, j | 0 <= i < j < |r| ensures r[i].downloadCount >= r[j].downloadCount {
      assert MoreDownloads(sorted[i], sorted[j]);
    }
  }

  /**
   * No popular template that `getPopularTemplates` leaves out has more
   * downloads than one it lists.
   */
  lemma PopularTemplatesTop(ts: seq<Template>, limit: nat, t: Template)
    requires t in ts && t.isPopular && t !in PopularTemplates(ts, Some(limit))
    ensures forall u :: u in PopularTemplates(ts, Some(limit)) ==> u.downloadCount >= t.downloadCount
  {
    var popular := Filter(ts, Popular);
    var sorted := Sort(popular, MoreDownloads);
    var r := PopularTemplates(ts, Some(limit));
    ComparatorsTotal();
    SortSorted(popular, MoreDownloads);
    SortMembers(popular, MoreDownloads);
    assert t in sorted;
    var k :| 0 <= k < |sorted| && sorted[k] == t;
    assert k >= |r| by {
      if k < |r| {
        assert false;
      }
    }
    forall u | u in r ensures u.downloadCount >= t.downloadCount {
      var j :| 0 <= j < |r| && r[j] == u;
      assert sorted[j] == u;
    }
  }

  /**
   * `getRecommendedTemplates`: templates never downloaded, highest score
   * first, at most four.
   */
  function RecommendedTemplates(ts: seq<Template>, history: seq<string>): (r: seq<Template>)
    ensures |r| <= 4
    ensures forall t :: t in r ==> t in ts && t.id !in history
    ensures forall i, j :: 0 <= i < j < |r| ==> Score(r[i]) >= Score(r[j])
  {
    var unseen := Filter(ts, (t: Template) => t.id !in history);
    var sorted := Sort(unseen, HigherScore);
    ComparatorsTotal();
    SortSorted(unseen, HigherScore);
    SortMembers(unseen, HigherScore);
    var r := SliceTo(sorted, 4);
    assert forall t :: t in r ==> t in sorted by {
      forall t | t in r ensures t in sorted {
        var k :| 0 <= k < |r| && r[k] == t;
        assert sorted[k] == t;
      }
    }
    r
  }

  /** `getGuidelinesByCategory(c)`: the guidelines of that category and the general ones, in order. */
  function GuidelinesFor(gs: seq<Guideline>, c: GuidelineCategory): (r: seq<Guideline>)
    ensures forall g :: g in r <==> g in gs && (g.category == c || g.category == General)
    ensures multiset(r) <= multiset(gs)
  {
    Filter(gs, (g: Guideline) => g.category == c || g.category == General)
  }

  /** The general guidelines are listed for every category. */
  lemma GeneralAlwaysListed(gs: seq<Guideline>, g: Guideline, c: GuidelineCategory)
    requires g in gs && g.category == General
    ensures g in GuidelinesFor(gs, c)
  {
  }

  class TemplatesStore {
    var templates: seq<Template>
    var guidelines: seq<Guideline>
    var filters: Filters
    var downloadHistory: seq<string>
    var favoriteTemplates: seq<string>

    /** The history is a most-recent-first list without repeats of at most 50 ids; favourites do not repeat. */
    ghost predicate Valid()
      reads this
    {
      NoDup(downloadHistory) && |downloadHistory| <= HistoryCap && NoDup(favoriteTemplates)
    }

    constructor (mockTemplates: seq<Template>, mockGuidelines: seq<Guideline>)
      ensures Valid()
      ensures templates == mockTemplates && guidelines == mockGuidelines && filters == NoFilters
      ensures downloadHistory == [] && favoriteTemplates == []
    {
      templates, guidelines, filters := mockTemplates, mockGuidelines, NoFilters;
      downloadHistory, favoriteTemplates := [], [];
    }

    /**
     * `downloadTemplate(id, format)`: the id moves to the front of the
     * history (once, the rest in their order, at most 50) and the template's
     * download count rises by one. The format does not affect the state.
     */
    method DownloadTemplate(id: string, format: TemplateFormat)
      requires Valid()
      modifies this
      ensures Valid()
      ensures downloadHistory == MoveToFront(old(downloadHistory), id, HistoryCap)
      ensures downloadHistory[0] == id && Count(downloadHistory, id) == 1
      ensures templates == CountDownload(old(templates), id)
      ensures guidelines == old(guidelines) && filters == old(filters)
      ensures favoriteTemplates == old(favoriteTemplates)
    {
      downloadHistory := MoveToFront(downloadHistory, id, HistoryCap);
      templates := CountDownload(templates, id);
    }

    method ToggleFavorite(id: string)
      requires Valid()
      modifies this
      ensures Valid()
      ensures favoriteTemplates == Toggle(old(favoriteTemplates), id)
      ensures id in favoriteTemplates <==> id !in old(favoriteTemplates)
      ensures templates == old(templates) && guidelines == old(guidelines) && filters == old(filters)
      ensures downloadHistory == old(downloadHistory)
    {
      favoriteTemplates := Toggle(favoriteTemplates, id);
    }

    method ClearFilters()
      modifies this
      ensures filters == NoFilters
      ensures templates == old(templates) && guidelines == old(guidelines)
      ensures downloadHistory == old(downloadHistory) && favoriteTemplates == old(favoriteTemplates)
    {
      filters := NoFilters;
    }
  }
}
