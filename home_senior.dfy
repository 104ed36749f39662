/**
 * The large-text home screen of the mobile app: the generated schedules
 * sorted by start time, the ones still to come at the current clock time,
 * the next one and the rest.
 */
module HomeSenior {
  import opened Seqs
  import opened Strs
  import opened Sorting
  import opened TimeOfDay
  import opened ScheduleDetail

  /** `a.startTime.localeCompare(b.startTime) <= 0`. */
  predicate EarlierStart(a: CampaignSchedule, b: CampaignSchedule) {
    LexLe(a.startTime, b.startTime)
  }

  lemma EarlierStartTotal()
    ensures TotalPreorder(EarlierStart)
  {
    forall a: CampaignSchedule, b: CampaignSchedule ensures EarlierStart(a, b) || EarlierStart(b, a) {
      LexLeTotal(a.startTime, b.startTime);
    }
    forall a: CampaignSchedule, b: CampaignSchedule, c: CampaignSchedule | EarlierStart(a, b) && EarlierStart(b, c)
      ensures EarlierStart(a, c)
    {
      LexLeTrans(a.startTime, b.startTime, c.startTime);
    }
  }

  /** A generated schedule as the screen lists it: marked as not manual. */
  function Unmarked(g: CampaignSchedule): (s: CampaignSchedule)
    ensures !s.isManual && s.startTime == g.startTime && s.id == g.id
  {
    g.(isManual := false)
  }

  /**
   * `allSchedules`: the generated schedules only (manual ones are left out
   * in this mode), each marked as not manual, in start-time order.
   */
  function AllSchedules(generated: seq<CampaignSchedule>): (r: seq<CampaignSchedule>)
    ensures |r| == |generated|
    ensures multiset(r) == multiset(Map(generated, Unmarked))
    ensures forall s :: s in r <==> exists g :: g in generated && Unmarked(g) == s
    ensures Sorted(r, EarlierStart)
  {
    var marked := Map(generated, Unmarked);
    EarlierStartTotal();
    SortSorted(marked, EarlierStart);
    SortMembers(marked, EarlierStart);
    forall s ensures s in marked <==> exists g :: g in generated && Unmarked(g) == s {
      if s in marked {
        var i :| 0 <= i < |marked| && marked[i] == s;
        assert generated[i] in generated;
      }
      if exists g :: g in generated && Unmarked(g) == s {
        var g :| g in generated && Unmarked(g) == s;
        var i :| 0 <= i < |generated| && generated[i] == g;
        assert marked[i] == s;
      }
    }
    Sort(marked, EarlierStart)
  }

  /** `upcomingSchedules`: those starting at or after `currentTime`, as strings compare. */
  function Upcoming(all: seq<CampaignSchedule>, currentTime: string): (r: seq<CampaignSchedule>)
    ensures forall s :: s in r <==> s in all && LexLe(currentTime, s.startTime)
    ensures Sorted(all, EarlierStart) ==> Sorted(r, EarlierStart)
  {
    var keep := (s: CampaignSchedule) => LexLe(currentTime, s.startTime);
    FilterSorted(all, keep);
    Filter(all, keep)
  }

  /** Keeping some elements of a sorted list leaves them sorted. */
  lemma {:induction false} FilterSorted(s: seq<CampaignSchedule>, p: CampaignSchedule -> bool)
    ensures Sorted(s, EarlierStart) ==> Sorted(Filter(s, p), EarlierStart)
  {
    if s != [] && Sorted(s, EarlierStart) {
      assert Sorted(s[1..], EarlierStart) by {
        forall i, j | 0 <= i < j < |s[1..]| ensures EarlierStart(s[1..][i], s[1..][j]) {
          assert s[1..][i] == s[i + 1] && s[1..][j] == s[j + 1];
        }
      }
      FilterSorted(s[1..], p);
      assert s == [s[0]] + s[1..];
      FilterAppend([s[0]], s[1..], p);
      var rest := Filter(s[1..], p);
      forall x | x in rest ensures EarlierStart(s[0], x) {
        var j :| 0 <= j < |s[1..]| && s[1..][j] == x;
        assert s[j + 1] == x;
      }
    }
  }

  /** What the screen shows at clock time `h:m`. */
  datatype Agenda = Agenda(next: Option<CampaignSchedule>, remaining: seq<CampaignSchedule>, total: nat)

  /**
   * `nextSchedule`, `remainingSchedules` and `totalSchedules`: the first
   * upcoming schedule, the upcoming ones after it, and the number of all
   * generated schedules whatever the time.
   */
  function AgendaAt(generated: seq<CampaignSchedule>, h: nat, m: nat): (a: Agenda)
    requires h < 24 && m < 60
    ensures a.total == |generated|
    ensures var up := Upcoming(AllSchedules(generated), ClockTime(h, m));
      (a.next.None? <==> up == []) && (a.next.Some? ==> [a.next.value] + a.remaining == up)
    ensures a.next.None? <==> forall s :: s in generated ==> !LexLe(ClockTime(h, m), s.startTime)
    ensures a.next.Some? ==> LexLe(ClockTime(h, m), a.next.value.startTime) && !a.next.value.isManual
    ensures a.next.Some? ==> forall s :: s in a.remaining ==> EarlierStart(a.next.value, s)
    ensures a.next.None? ==> a.remaining == []
    ensures forall s :: s in a.remaining ==> LexLe(ClockTime(h, m), s.startTime)
  {
    var up := Upcoming(AllSchedules(generated), ClockTime(h, m));
    UpcomingFacts(generated, ClockTime(h, m));
    if up == [] then
      Agenda(None, [], |generated|)
    else
      FirstLeads(up);
      Agenda(Some(up[0]), up[1..], |generated|)
  }

  /**
   * The upcoming schedules are unmarked ones starting at or after `t`, and
   * there are none exactly when no generated schedule starts then.
   */
  lemma UpcomingFacts(generated: seq<CampaignSchedule>, t: string)
    ensures var up := Upcoming(AllSchedules(generated), t);
      && Sorted(up, EarlierStart)
      && (forall s :: s in up ==> !s.isManual && LexLe(t, s.startTime))
      && (up == [] <==> forall s :: s in generated ==> !LexLe(t, s.startTime))
  {
    var all := AllSchedules(generated);
    var up := Upcoming(all, t);
    if up == [] {
      forall s | s in generated ensures !LexLe(t, s.startTime) {
        assert Unmarked(s) in all;
      }
    } else {
      assert up[0] in all;
    }
  }

  /** In a list sorted by start time, the first element starts no later than the rest. */
  lemma FirstLeads(up: seq<CampaignSchedule>)
    requires up != [] && Sorted(up, EarlierStart)
    ensures [up[0]] + up[1..] == up
    ensures forall s :: s in up[1..] ==> EarlierStart(up[0], s)
  {
    forall s | s in up[1..] ensures EarlierStart(up[0], s) {
      var j :| 0 <= j < |up[1..]| && up[1..][j] == s;
      assert up[j + 1] == s;
    }
  }

  /**
   * For start times written as "HH:MM", a schedule is upcoming exactly when
   * it does not start before the current minute.
   */
  lemma UpcomingByClock(s: CampaignSchedule, sh: nat, sm: nat, h: nat, m: nat)
    requires sh < 24 && sm < 60 && h < 24 && m < 60 && s.startTime == ClockTime(sh, sm)
    ensures LexLe(ClockTime(h, m), s.startTime) <==> sh * 60 + sm >= h * 60 + m
  {
    ClockTimeOrder(h, m, sh, sm);
  }
}
