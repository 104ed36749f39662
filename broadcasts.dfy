/**
 * The broadcasts store of the web client: party announcements with per-user
 * read and bookmark state, kept both as id lists and as flags on each
 * announcement, plus the list filters and the derived views.
 */
module Broadcasts {
  import opened Seqs
  import opened Strs
  import opened Sorting

  datatype Severity = Info | Warning | Critical | Urgent
  datatype Category = Party | Election | Legal | Campaign | Event | Emergency
  datatype Status = Published | Draft | Archived

  /** An announcement; `publishedAt` is the publication instant in milliseconds. */
  datatype Broadcast = Broadcast(
    id: string, title: string, summary: string, content: string,
    category: Category, severity: Severity, status: Status, publishedAt: int,
    isRead: bool, isBookmarked: bool, viewCount: int, priority: int)

  /** The list filters; `None` stands for `'all'`. */
  datatype Filters = Filters(
    severity: Option<Severity>, category: Option<Category>, status: Option<Status>,
    unreadOnly: bool, bookmarkedOnly: bool, searchTerm: string)

  /** The filters `clearFilters` installs, which are also the initial ones. */
  const NoFilters := Filters(None, None, None, false, false, "")

  function Ids(bs: seq<Broadcast>): (ids: seq<string>)
    ensures |ids| == |bs| && forall i :: 0 <= i < |bs| ==> ids[i] == bs[i].id
  {
    Map(bs, (b: Broadcast) => b.id)
  }

  /** The id lists and the per-announcement flags agree. */
  predicate Synced(bs: seq<Broadcast>, read: seq<string>, bookmarked: seq<string>) {
    forall i :: 0 <= i < |bs| ==>
      (bs[i].isRead <==> bs[i].id in read) && (bs[i].isBookmarked <==> bs[i].id in bookmarked)
  }

  /** The announcements of `markAsRead(id)`: the matching ones flagged read. */
  function MarkRead(bs: seq<Broadcast>, id: string): (r: seq<Broadcast>)
    ensures |r| == |bs|
    ensures forall i :: 0 <= i < |bs| ==> r[i] == if bs[i].id == id then bs[i].(isRead := true) else bs[i]
  {
    UpdateWhere(bs, (b: Broadcast) => b.id == id, (b: Broadcast) => b.(isRead := true))
  }

  /** The announcements of `markAllAsRead`. */
  function MarkAllRead(bs: seq<Broadcast>): (r: seq<Broadcast>)
    ensures |r| == |bs|
    ensures forall i :: 0 <= i < |bs| ==> r[i] == bs[i].(isRead := true)
  {
    Map(bs, (b: Broadcast) => b.(isRead := true))
  }

  /**
   * The announcements of `toggleBookmark(id)`: the matching ones get the
   * flag "not in the bookmark list before".
   */
  function ToggleFlags(bs: seq<Broadcast>, bookmarked: seq<string>, id: string): (r: seq<Broadcast>)
    ensures |r| == |bs|
    ensures forall i :: 0 <= i < |bs| ==>
      r[i] == if bs[i].id == id then bs[i].(isBookmarked := id !in bookmarked) else bs[i]
  {
    UpdateWhere(bs, (b: Broadcast) => b.id == id,
                (b: Broadcast) => b.(isBookmarked := id !in bookmarked))
  }

  /** The announcements of `incrementViewCount(id)`. */
  function IncrementViews(bs: seq<Broadcast>, id: string): (r: seq<Broadcast>)
    ensures |r| == |bs|
    ensures forall i :: 0 <= i < |bs| ==>
      r[i] == if bs[i].id == id then bs[i].(viewCount := bs[i].viewCount + 1) else bs[i]
  {
    UpdateWhere(bs, (b: Broadcast) => b.id == id, (b: Broadcast) => b.(viewCount := b.viewCount + 1))
  }

  /**
   * `markAsRead` flags exactly the matching announcements, adds the id to
   * the read list once, keeps the ids, and keeps the lists and flags in step.
   */
  lemma MarkReadSynced(bs: seq<Broadcast>, read: seq<string>, bookmarked: seq<string>, id: string)
    requires Synced(bs, read, bookmarked)
    ensures Synced(MarkRead(bs, id), AddOnce(read, id), bookmarked)
    ensures Ids(MarkRead(bs, id)) == Ids(bs)
    ensures forall i :: 0 <= i < |bs| ==>
      MarkRead(bs, id)[i].isRead == (bs[i].isRead || bs[i].id == id)
  {
    var r := MarkRead(bs, id);
    assert forall i :: 0 <= i < |bs| ==> r[i].id == bs[i].id;
  }

  predicate Unread(b: Broadcast) {
    !b.isRead
  }

  /** Number of unread announcements: `getUnreadCount`. */
  function UnreadCount(bs: seq<Broadcast>): (n: nat)
    ensures n == |Filter(bs, Unread)|
    ensures n <= |bs|
    ensures n == 0 <==> forall i :: 0 <= i < |bs| ==> bs[i].isRead
  {
    var n := CountIf(bs, Unread);
    if n == 0 then
      assert forall i :: 0 <= i < |bs| ==> bs[i].isRead by {
        forall i | 0 <= i < |bs| ensures bs[i].isRead {
          assert bs[i] in bs;
        }
      }
      n
    else n
  }

  /**
   * After `markAllAsRead` every announcement is read, the read list is the
   * list of all ids, the unread count is 0, and the flags stay in step.
   */
  lemma MarkAllReadFacts(bs: seq<Broadcast>, read: seq<string>, bookmarked: seq<string>)
    requires Synced(bs, read, bookmarked)
    ensures Synced(MarkAllRead(bs), Ids(bs), bookmarked)
    ensures Ids(MarkAllRead(bs)) == Ids(bs)
    ensures UnreadCount(MarkAllRead(bs)) == 0
  {
    var r := MarkAllRead(bs);
    forall i | 0 <= i < |bs| ensures r[i].id in Ids(bs) {
      assert Ids(bs)[i] == r[i].id;
    }
  }

  /** `toggleBookmark` keeps the bookmark list and the flags in step. */
  lemma ToggleSynced(bs: seq<Broadcast>, read: seq<string>, bookmarked: seq<string>, id: string)
    requires Synced(bs, read, bookmarked)
    ensures Synced(ToggleFlags(bs, bookmarked, id), read, Toggle(bookmarked, id))
    ensures Ids(ToggleFlags(bs, bookmarked, id)) == Ids(bs)
  {
    var r := ToggleFlags(bs, bookmarked, id);
    assert forall i :: 0 <= i < |bs| ==> r[i].id == bs[i].id;
  }

  /**
   * Toggling the same bookmark twice restores every flag and every list
   * membership; the list itself comes back when the id was not in it.
   */
  lemma ToggleTwiceRestores(bs: seq<Broadcast>, read: seq<string>, bookmarked: seq<string>, id: string)
    requires Synced(bs, read, bookmarked)
    ensures ToggleFlags(ToggleFlags(bs, bookmarked, id), Toggle(bookmarked, id), id) == bs
    ensures forall x :: x in Toggle(Toggle(bookmarked, id), id) <==> x in bookmarked
    ensures id !in bookmarked ==> Toggle(Toggle(bookmarked, id), id) == bookmarked
  {
    ToggleTwice(bookmarked, id);
    var once := ToggleFlags(bs, bookmarked, id);
    var twice := ToggleFlags(once, Toggle(bookmarked, id), id);
    assert |twice| == |bs|;
    forall i | 0 <= i < |bs| ensures twice[i] == bs[i] {
      if bs[i].id == id {
        assert once[i] == bs[i].(isBookmarked := id !in bookmarked);
      }
    }
  }

  /** Sum of the view counts. */
  function TotalViews(bs: seq<Broadcast>): int {
    SumOf(bs, (b: Broadcast) => b.viewCount)
  }

  /**
   * `incrementViewCount` adds exactly one view per matching announcement and
   * changes nothing else.
   */
  lemma {:induction false} IncrementViewsTotal(bs: seq<Broadcast>, id: string)
    ensures TotalViews(IncrementViews(bs, id)) == TotalViews(bs) + Count(Ids(bs), id)
    ensures forall i :: 0 <= i < |bs| ==>
      IncrementViews(bs, id)[i] == if bs[i].id == id then bs[i].(viewCount := bs[i].viewCount + 1) else bs[i]
  {
    if bs != [] {
      IncrementViewsTotal(bs[1..], id);
      assert IncrementViews(bs, id)[1..] == IncrementViews(bs[1..], id);
      assert Ids(bs)[1..] == Ids(bs[1..]);
    }
  }

  /** The filter test of `getFilteredBroadcasts`. */
  predicate Matches(f: Filters, b: Broadcast) {
    && (f.severity.None? || b.severity == f.severity.value)
    && (f.category.None? || b.category == f.category.value)
    && (f.status.None? || b.status == f.status.value)
    && !(f.unreadOnly && b.isRead)
    && !(f.bookmarkedOnly && !b.isBookmarked)
    && (f.searchTerm == ""
        || Contains(ToLower(b.title), ToLower(f.searchTerm))
        || Contains(ToLower(b.summary), ToLower(f.searchTerm))
        || Contains(ToLower(b.content), ToLower(f.searchTerm)))
  }

  /** The comparator: higher priority first, then the more recent first. */
  predicate PriorityThenNewer(a: Broadcast, b: Broadcast) {
    a.priority > b.priority || (a.priority == b.priority && a.publishedAt >= b.publishedAt)
  }

  /** The comparator of `getCriticalBroadcasts`: higher priority first. */
  predicate HigherPriority(a: Broadcast, b: Broadcast) {
    a.priority >= b.priority
  }

  lemma ComparatorsTotal()
    ensures TotalPreorder(PriorityThenNewer)
    ensures TotalPreorder(HigherPriority)
  {
  }

  /**
   * `getFilteredBroadcasts`: exactly the announcements passing every active
   * filter, each as often as in the store, in priority-then-recency order.
   */
  function FilteredBroadcasts(bs: seq<Broadcast>, f: Filters): (r: seq<Broadcast>)
    ensures multiset(r) == multiset(Filter(bs, b => Matches(f, b)))
    ensures forall b :: b in r <==> b in bs && Matches(f, b)
    ensures Sorted(r, PriorityThenNewer)
    ensures forall i, j :: 0 <= i < j < |r| ==>
      r[i].priority > r[j].priority ||
      (r[i].priority == r[j].priority && r[i].publishedAt >= r[j].publishedAt)
  {
    var kept := Filter(bs, b => Matches(f, b));
    ComparatorsTotal();
    SortSorted(kept, PriorityThenNewer);
    SortMembers(kept, PriorityThenNewer);
    Sort(kept, PriorityThenNewer)
  }

  /** With the filters cleared every announcement is listed, each as often as stored. */
  lemma ClearedFiltersKeepAll(bs: seq<Broadcast>)
    ensures multiset(FilteredBroadcasts(bs, NoFilters)) == multiset(bs)
  {
    FilterAll(bs, b => Matches(NoFilters, b));
  }

  /**
   * `getCriticalBroadcasts`: the critical and urgent announcements, each as
   * often as stored, highest priority first.
   */
  function CriticalBroadcasts(bs: seq<Broadcast>): (r: seq<Broadcast>)
    ensures forall b :: b in r <==> b in bs && (b.severity == Critical || b.severity == Urgent)
    ensures multiset(r) == multiset(Filter(bs, (b: Broadcast) => b.severity == Critical || b.severity == Urgent))
    ensures forall i, j :: 0 <= i < j < |r| ==> r[i].priority >= r[j].priority
  {
    var kept := Filter(bs, (b: Broadcast) => b.severity == Critical || b.severity == Urgent);
    ComparatorsTotal();
    SortSorted(kept, HigherPriority);
    SortMembers(kept, HigherPriority);
    Sort(kept, HigherPriority)
  }

  const AllCategories: seq<Category> := [Party, Election, Legal, Campaign, Event, Emergency]

  lemma AllCategoriesListed()
    ensures forall c: Category :: c in AllCategories
  {
    forall c: Category ensures c in AllCategories {
      match c
      case Party => assert AllCategories[0] == c;
      case Election => assert AllCategories[1] == c;
      case Legal => assert AllCategories[2] == c;
      case Campaign => assert AllCategories[3] == c;
      case Event => assert AllCategories[4] == c;
      case Emergency => assert AllCategories[5] == c;
    }
  }

  function InCategory(bs: seq<Broadcast>, c: Category): seq<Broadcast> {
    Filter(bs, (b: Broadcast) => b.category == c)
  }

  /** `getBroadcastsByCategory`: one list per category. */
  function ByCategory(bs: seq<Broadcast>): (m: map<Category, seq<Broadcast>>)
    ensures forall c :: c in m
  {
    AllCategoriesListed();
    map c: Category | c in AllCategories :: InCategory(bs, c)
  }

  /**
   * The category lists partition the announcements: each announcement is in
   * its own category's list and no other, and the sizes add up to the total.
   */
  lemma ByCategoryPartition(bs: seq<Broadcast>)
    ensures forall b, c :: b in bs ==> (b in ByCategory(bs)[c] <==> c == b.category)
    ensures forall c, b :: b in ByCategory(bs)[c] ==> b in bs && b.category == c
    ensures |ByCategory(bs)[Party]| + |ByCategory(bs)[Election]| + |ByCategory(bs)[Legal]|
          + |ByCategory(bs)[Campaign]| + |ByCategory(bs)[Event]| + |ByCategory(bs)[Emergency]| == |bs|
  {
    CategorySizes(bs);
  }

  lemma {:induction false} CategorySizes(bs: seq<Broadcast>)
    ensures |InCategory(bs, Party)| + |InCategory(bs, Election)| + |InCategory(bs, Legal)|
          + |InCategory(bs, Campaign)| + |InCategory(bs, Event)| + |InCategory(bs, Emergency)| == |bs|
  {
    if bs != [] {
      CategorySizes(bs[1..]);
      InCategoryStep(bs, Party);
      InCategoryStep(bs, Election);
      InCategoryStep(bs, Legal);
      InCategoryStep(bs, Campaign);
      InCategoryStep(bs, Event);
      InCategoryStep(bs, Emergency);
      HitsSumToOne(bs[0]);
    }
  }

  /** 1 for the category of `x`, 0 for every other. */
  function Hit(x: Broadcast, c: Category): nat {
    if x.category == c then 1 else 0
  }

  /** Every item has exactly one category. */
  lemma HitsSumToOne(x: Broadcast)
    ensures Hit(x, Party) + Hit(x, Election) + Hit(x, Legal) + Hit(x, Campaign)
          + Hit(x, Event) + Hit(x, Emergency) == 1
  {
  }

  lemma InCategoryStep(bs: seq<Broadcast>, c: Category)
    requires bs != []
    ensures |InCategory(bs, c)| == |InCategory(bs[1..], c)| + Hit(bs[0], c)
  {
  }

  /** The read and bookmark state of the bundled announcements, in order. */
  predicate MockShape(bs: seq<Broadcast>) {
    && |bs| == 5
    && bs[0].id == "broadcast-001" && !bs[0].isRead && !bs[0].isBookmarked
    && bs[1].id == "broadcast-002" && bs[1].isRead && bs[1].isBookmarked
    && bs[2].id == "broadcast-003" && !bs[2].isRead && !bs[2].isBookmarked
    && bs[3].id == "broadcast-004" && bs[3].isRead && !bs[3].isBookmarked
    && bs[4].id == "broadcast-005" && !bs[4].isRead && bs[4].isBookmarked
  }

  class BroadcastsStore {
    var broadcasts: seq<Broadcast>
    var filters: Filters
    var selected: Option<Broadcast>
    var readBroadcasts: seq<string>
    var bookmarkedBroadcasts: seq<string>

    /** The store invariant: lists without repeats, distinct ids, flags in step with the lists. */
    ghost predicate Valid()
      reads this
    {
      && NoDup(readBroadcasts) && NoDup(bookmarkedBroadcasts) && NoDup(Ids(broadcasts))
      && Synced(broadcasts, readBroadcasts, bookmarkedBroadcasts)
    }

    /** The initial state over the bundled announcements. */
    constructor (mock: seq<Broadcast>)
      requires MockShape(mock)
      ensures Valid()
      ensures broadcasts == mock && filters == NoFilters && selected == None
      ensures readBroadcasts == ["broadcast-002", "broadcast-004"]
      ensures bookmarkedBroadcasts == ["broadcast-002", "broadcast-005"]
    {
      broadcasts := mock;
      filters := NoFilters;
      selected := None;
      readBroadcasts := ["broadcast-002", "broadcast-004"];
      bookmarkedBroadcasts := ["broadcast-002", "broadcast-005"];
      new;
      assert Ids(mock) == ["broadcast-001", "broadcast-002", "broadcast-003", "broadcast-004", "broadcast-005"];
    }

    method MarkAsRead(id: string)
      requires Valid()
      modifies this
      ensures Valid()
      ensures broadcasts == MarkRead(old(broadcasts), id)
      ensures readBroadcasts == AddOnce(old(readBroadcasts), id)
      ensures bookmarkedBroadcasts == old(bookmarkedBroadcasts)
      ensures filters == old(filters) && selected == old(selected)
    {
      MarkReadSynced(broadcasts, readBroadcasts, bookmarkedBroadcasts, id);
      readBroadcasts := AddOnce(readBroadcasts, id);
      broadcasts := MarkRead(broadcasts, id);
    }

    method MarkAllAsRead()
      requires Valid()
      modifies this
      ensures Valid()
      ensures broadcasts == MarkAllRead(old(broadcasts))
      ensures readBroadcasts == Ids(old(broadcasts))
      ensures bookmarkedBroadcasts == old(bookmarkedBroadcasts)
      ensures filters == old(filters) && selected == old(selected)
    {
      MarkAllReadFacts(broadcasts, readBroadcasts, bookmarkedBroadcasts);
      readBroadcasts := Ids(broadcasts);
      broadcasts := MarkAllRead(broadcasts);
    }

    method ToggleBookmark(id: string)
      requires Valid()
      modifies this
      ensures Valid()
      ensures bookmarkedBroadcasts == Toggle(old(bookmarkedBroadcasts), id)
      ensures broadcasts == ToggleFlags(old(broadcasts), old(bookmarkedBroadcasts), id)
      ensures readBroadcasts == old(readBroadcasts)
      ensures filters == old(filters) && selected == old(selected)
    {
      ToggleSynced(broadcasts, readBroadcasts, bookmarkedBroadcasts, id);
      broadcasts := ToggleFlags(broadcasts, bookmarkedBroadcasts, id);
      bookmarkedBroadcasts := Toggle(bookmarkedBroadcasts, id);
    }

    method IncrementViewCount(id: string)
      requires Valid()
      modifies this
      ensures Valid()
      ensures broadcasts == IncrementViews(old(broadcasts), id)
      ensures readBroadcasts == old(readBroadcasts) && bookmarkedBroadcasts == old(bookmarkedBroadcasts)
      ensures filters == old(filters) && selected == old(selected)
    {
      var next := IncrementViews(broadcasts, id);
      assert forall i :: 0 <= i < |broadcasts| ==>
        next[i].id == broadcasts[i].id && next[i].isRead == broadcasts[i].isRead &&
        next[i].isBookmarked == broadcasts[i].isBookmarked;
      assert Ids(next) == Ids(broadcasts);
      broadcasts := next;
    }

    /**
     * `setSelectedBroadcast`: a selected announcement gets one more view and
     * is marked read; the selection holds the announcement as passed in.
     */
    method SetSelectedBroadcast(b: Option<Broadcast>)
      requires Valid()
      modifies this
      ensures Valid()
      ensures selected == b
      ensures b.None? ==> broadcasts == old(broadcasts) && readBroadcasts == old(readBroadcasts)
      ensures b.Some? ==> broadcasts == MarkRead(IncrementViews(old(broadcasts), b.value.id), b.value.id)
      ensures b.Some? ==> readBroadcasts == AddOnce(old(readBroadcasts), b.value.id)
      ensures bookmarkedBroadcasts == old(bookmarkedBroadcasts) && filters == old(filters)
    {
      if b.Some? {
        IncrementViewCount(b.value.id);
        MarkAsRead(b.value.id);
      }
      selected := b;
    }

    method ClearFilters()
      modifies this
      ensures filters == NoFilters
      ensures broadcasts == old(broadcasts) && selected == old(selected)
      ensures readBroadcasts == old(readBroadcasts) && bookmarkedBroadcasts == old(bookmarkedBroadcasts)
    {
      filters := NoFilters;
    }
  }
}
