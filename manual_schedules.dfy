/**
 * The manual-schedule store of the mobile app: schedules the user entered
 * by hand, and the record of visits made, at most one per schedule and day.
 */
module ManualSchedules {
  import opened Seqs
  import opened Strs

  datatype Place = Place(name: string, address: string)

  /** A schedule entered by hand; `date` and the times are text, `createdAt` a time. */
  datatype ManualSchedule = ManualSchedule(
    id: string, title: string, date: string, startTime: string, endTime: string,
    location: Option<Place>, color: string, memo: string, createdAt: int)

  /** What `addSchedule` receives: a schedule without id and creation time. */
  datatype ScheduleDraft = ScheduleDraft(
    title: string, date: string, startTime: string, endTime: string,
    location: Option<Place>, color: string, memo: string)

  /** The fields `updateSchedule` overwrites. */
  datatype SchedulePatch = SchedulePatch(
    title: Option<string>, date: Option<string>, startTime: Option<string>, endTime: Option<string>,
    location: Option<Option<Place>>, color: Option<string>, memo: Option<string>)

  datatype VisitRecord = VisitRecord(
    scheduleId: string, scheduleName: string, category: string, visitedAt: int, date: string)

  /** What `addVisitRecord` receives: a record without the visit time. */
  datatype VisitInput = VisitInput(scheduleId: string, scheduleName: string, category: string, date: string)

  /** The schedule `addSchedule` builds at clock `now`. */
  function NewSchedule(d: ScheduleDraft, now: nat): (s: ManualSchedule)
    ensures s.id == "manual-" + Decimal(now) && s.createdAt == now
    ensures s.title == d.title && s.date == d.date && s.startTime == d.startTime
    ensures s.endTime == d.endTime && s.location == d.location && s.color == d.color && s.memo == d.memo
  {
    ManualSchedule("manual-" + Decimal(now), d.title, d.date, d.startTime, d.endTime, d.location,
                   d.color, d.memo, now)
  }

  /**
   * `{ ...s, ...data }`: every field the patch supplies replaces the
   * schedule's own, every other field is kept, and the id and creation time
   * are never overwritten.
   */
  function Merge(s: ManualSchedule, u: SchedulePatch): (r: ManualSchedule)
    ensures r.id == s.id && r.createdAt == s.createdAt
    ensures u.title.Some? ==> r.title == u.title.value
    ensures u.title.None? ==> r.title == s.title
    ensures u.date.Some? ==> r.date == u.date.value
    ensures u.date.None? ==> r.date == s.date
    ensures u.startTime.Some? ==> r.startTime == u.startTime.value
    ensures u.startTime.None? ==> r.startTime == s.startTime
    ensures u.endTime.Some? ==> r.endTime == u.endTime.value
    ensures u.endTime.None? ==> r.endTime == s.endTime
    ensures u.location.Some? ==> r.location == u.location.value
    ensures u.location.None? ==> r.location == s.location
    ensures u.color.Some? ==> r.color == u.color.value
    ensures u.color.None? ==> r.color == s.color
    ensures u.memo.Some? ==> r.memo == u.memo.value
    ensures u.memo.None? ==> r.memo == s.memo
  {
    s.(title := u.title.GetOr(s.title), date := u.date.GetOr(s.date),
       startTime := u.startTime.GetOr(s.startTime), endTime := u.endTime.GetOr(s.endTime),
       location := u.location.GetOr(s.location), color := u.color.GetOr(s.color), memo := u.memo.GetOr(s.memo))
  }

  /** Merging the same fields twice is merging them once. */
  lemma MergeIdempotent(s: ManualSchedule, u: SchedulePatch)
    ensures Merge(Merge(s, u), u) == Merge(s, u)
  {
  }

  /**
   * `updateSchedule(id, data)`: the schedules with the id take the patch's
   * fields and keep their id; all others are unchanged.
   */
  function Update(ss: seq<ManualSchedule>, id: string, u: SchedulePatch): (r: seq<ManualSchedule>)
    ensures |r| == |ss|
    ensures forall i :: 0 <= i < |ss| && ss[i].id == id ==> r[i] == Merge(ss[i], u)
    ensures forall i :: 0 <= i < |ss| ==> r[i].id == ss[i].id && r[i].createdAt == ss[i].createdAt
    ensures forall i :: 0 <= i < |ss| && ss[i].id != id ==> r[i] == ss[i]
  {
    UpdateWhere(ss, (s: ManualSchedule) => s.id == id, (s: ManualSchedule) => Merge(s, u))
  }

  /** Updating a schedule twice with the same fields is updating it once. */
  lemma UpdateIdempotent(ss: seq<ManualSchedule>, id: string, u: SchedulePatch)
    ensures Update(Update(ss, id, u), id, u) == Update(ss, id, u)
  {
    var once := Update(ss, id, u);
    forall i | 0 <= i < |ss| ensures Update(once, id, u)[i] == once[i] {
      if ss[i].id == id {
        MergeIdempotent(ss[i], u);
      }
    }
  }

  /** `removeSchedule(id)`. */
  function Remove(ss: seq<ManualSchedule>, id: string): (r: seq<ManualSchedule>)
    ensures forall s :: s in r <==> s in ss && s.id != id
  {
    Filter(ss, (s: ManualSchedule) => s.id != id)
  }

  /** Removing keeps the order of the rest, and an absent id leaves the list as it is. */
  lemma RemoveKeepsOrder(a: seq<ManualSchedule>, b: seq<ManualSchedule>, id: string)
    ensures Remove(a + b, id) == Remove(a, id) + Remove(b, id)
    ensures (forall i :: 0 <= i < |a| ==> a[i].id != id) ==> Remove(a, id) == a
  {
    FilterAppend(a, b, (s: ManualSchedule) => s.id != id);
    if forall i :: 0 <= i < |a| ==> a[i].id != id {
      FilterAll(a, (s: ManualSchedule) => s.id != id);
    }
  }

  predicate SameVisit(r: VisitRecord, scheduleId: string, date: string) {
    r.scheduleId == scheduleId && r.date == date
  }

  /** No two records share a schedule and a date. */
  predicate OneVisitPerDay(rs: seq<VisitRecord>) {
    forall i, j :: 0 <= i < j < |rs| ==> !SameVisit(rs[i], rs[j].scheduleId, rs[j].date)
  }

  /** `addVisitRecord(input)` at clock `now`: nothing when that schedule was visited that day. */
  function AddVisit(rs: seq<VisitRecord>, v: VisitInput, now: int): (r: seq<VisitRecord>)
    ensures (exists k :: 0 <= k < |rs| && SameVisit(rs[k], v.scheduleId, v.date)) ==> r == rs
    ensures (forall k :: 0 <= k < |rs| ==> !SameVisit(rs[k], v.scheduleId, v.date)) ==>
      r == rs + [VisitRecord(v.scheduleId, v.scheduleName, v.category, now, v.date)]
    ensures OneVisitPerDay(rs) ==> OneVisitPerDay(r)
  {
    if exists k :: 0 <= k < |rs| && SameVisit(rs[k], v.scheduleId, v.date) then rs
    else rs + [VisitRecord(v.scheduleId, v.scheduleName, v.category, now, v.date)]
  }

  function InCategory(category: string): VisitRecord -> bool {
    (r: VisitRecord) => r.category == category
  }

  /**
   * `getVisitCountByCategory(c)`: the number of records of that category,
   * zero exactly when no record has it.
   */
  function VisitCount(rs: seq<VisitRecord>, category: string): (n: nat)
    ensures n == |Filter(rs, InCategory(category))|
    ensures n <= |rs|
    ensures n == 0 <==> forall r :: r in rs ==> r.category != category
  {
    var hits := Filter(rs, InCategory(category));
    assert hits != [] ==> hits[0] in hits;
    CountIf(rs, InCategory(category))
  }

  /** The visit counts of the categories of `ks`, added up. */
  function SumCounts(ks: seq<string>, rs: seq<VisitRecord>): nat {
    if ks == [] then 0 else VisitCount(rs, ks[0]) + SumCounts(ks[1..], rs)
  }

  /** The categories visited, each once. */
  function Categories(rs: seq<VisitRecord>): (ks: seq<string>)
    ensures NoDup(ks)
    ensures forall c :: c in ks <==> exists r :: r in rs && r.category == c
  {
    var all := Map(rs, (r: VisitRecord) => r.category);
    assert forall c :: c in all <==> exists r :: r in rs && r.category == c by {
      forall c ensures c in all <==> exists r :: r in rs && r.category == c {
        if c in all {
          var i :| 0 <= i < |all| && all[i] == c;
          assert rs[i] in rs;
        }
        if exists r :: r in rs && r.category == c {
          var r :| r in rs && r.category == c;
          var i :| 0 <= i < |rs| && rs[i] == r;
          assert all[i] == c;
        }
      }
    }
    Dedup(all)
  }

  /**
   * `getTotalVisitCount` is the number of records, and it equals the sum
   * of the per-category counts over the categories visited.
   */
  lemma TotalIsSumOfCategories(rs: seq<VisitRecord>)
    ensures SumCounts(Categories(rs), rs) == |rs|
  {
    var ks := Categories(rs);
    forall r | r in rs ensures r.category in ks {
    }
    SumCountsAll(ks, rs);
  }

  lemma {:induction false} SumCountsAll(ks: seq<string>, rs: seq<VisitRecord>)
    requires NoDup(ks) && forall r :: r in rs ==> r.category in ks
    ensures SumCounts(ks, rs) == |rs|
  {
    if rs == [] {
      SumCountsEmpty(ks);
    } else {
      SumCountsAll(ks, rs[1..]);
      SumCountsCons(ks, rs[0], rs[1..]);
      assert [rs[0]] + rs[1..] == rs;
      NoDupCount(ks, rs[0].category);
    }
  }

  lemma {:induction false} SumCountsEmpty(ks: seq<string>)
    ensures SumCounts(ks, []) == 0
  {
    if ks != [] {
      SumCountsEmpty(ks[1..]);
    }
  }

  /** One more record adds one to the sum for each time its category is listed. */
  lemma {:induction false} SumCountsCons(ks: seq<string>, r: VisitRecord, rs: seq<VisitRecord>)
    ensures SumCounts(ks, [r] + rs) == SumCounts(ks, rs) + Count(ks, r.category)
  {
    if ks != [] {
      SumCountsCons(ks[1..], r, rs);
      assert ([r] + rs)[1..] == rs;
    }
  }

  class ManualScheduleStore {
    var schedules: seq<ManualSchedule>
    var visitRecords: seq<VisitRecord>

    ghost predicate Valid()
      reads this
    {
      OneVisitPerDay(visitRecords)
    }

    constructor ()
      ensures Valid() && schedules == [] && visitRecords == []
    {
      schedules, visitRecords := [], [];
    }

    /** `addSchedule(draft)` at clock `now`: one schedule appended, the others unchanged. */
    method AddSchedule(d: ScheduleDraft, now: nat)
      requires Valid()
      modifies this
      ensures Valid()
      ensures schedules == old(schedules) + [NewSchedule(d, now)]
      ensures visitRecords == old(visitRecords)
    {
      schedules := schedules + [NewSchedule(d, now)];
    }

    method UpdateSchedule(id: string, u: SchedulePatch)
      requires Valid()
      modifies this
      ensures Valid()
      ensures schedules == Update(old(schedules), id, u)
      ensures visitRecords == old(visitRecords)
    {
      schedules := Update(schedules, id, u);
    }

    method RemoveSchedule(id: string)
      requires Valid()
      modifies this
      ensures Valid()
      ensures schedules == Remove(old(schedules), id)
      ensures visitRecords == old(visitRecords)
    {
      schedules := Remove(schedules, id);
    }

    method ClearAllSchedules()
      modifies this
      ensures Valid()
      ensures schedules == [] && visitRecords == []
    {
      schedules, visitRecords := [], [];
    }

    /** `addVisitRecord(input)` at clock `now`. */
    method AddVisitRecord(v: VisitInput, now: int)
      requires Valid()
      modifies this
      ensures Valid()
      ensures visitRecords == AddVisit(old(visitRecords), v, now)
      ensures schedules == old(schedules)
    {
      visitRecords := AddVisit(visitRecords, v, now);
    }

    function GetVisitCountByCategory(category: string): (n: nat)
      reads this
      ensures n == |Filter(visitRecords, InCategory(category))|
      ensures n <= |visitRecords|
      ensures n == 0 <==> forall r :: r in visitRecords ==> r.category != category
    {
      VisitCount(visitRecords, category)
    }

    function GetTotalVisitCount(): (n: nat)
      reads this
      ensures n == |visitRecords| == SumCounts(Categories(visitRecords), visitRecords)
    {
      TotalIsSumOfCategories(visitRecords);
      |visitRecords|
    }
  }
}
