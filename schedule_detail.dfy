/**
 * The schedule detail sheet of the mobile app: the time-of-day slot of a
 * schedule's start time, its label and badge colours, and the place-type
 * label shown for manual and generated schedules.
 */
module ScheduleDetail {
  import opened Seqs
  import opened Strs
  import opened TimeOfDay

  datatype PoiType = Subway | Bus | Market | School | Facility | Religious | Other

  /** A generated campaign schedule, or a manual one shown in the same form. */
  datatype CampaignSchedule = CampaignSchedule(
    id: string, poiName: string, poiType: PoiType, date: string, startTime: string, isManual: bool)

  datatype TimeSlot = Morning | Noon | Evening | Night

  /** The hour: `parseInt` of the text before the first `:`, or of all of it without one. */
  function Hour(time: string): (h: Option<int>)
    ensures h == ParseInt(BeforeFirst(time, ':'))
  {
    SplitFirst(time, ':');
    ParseInt(Split(time, ':')[0])
  }

  /** `getTimeSlot(time)`. */
  function GetTimeSlot(time: string): (slot: TimeSlot)
    ensures slot == Morning <==> Hour(time).Some? && 6 <= Hour(time).value < 12
    ensures slot == Noon <==> Hour(time).Some? && 12 <= Hour(time).value < 17
    ensures slot == Evening <==> Hour(time).Some? && 17 <= Hour(time).value < 21
    ensures Hour(time).None? ==> slot == Night
  {
    var h := Hour(time);
    if h.Some? && 6 <= h.value < 12 then Morning
    else if h.Some? && 12 <= h.value < 17 then Noon
    else if h.Some? && 17 <= h.value < 21 then Evening
    else Night
  }

  /** The slot of a clock time "HH:MM" is decided by its hour alone. */
  lemma ClockTimeSlot(h: nat, m: nat)
    requires h < 24 && m < 60
    ensures GetTimeSlot(ClockTime(h, m)) ==
      if 6 <= h < 12 then Morning else if h < 17 && h >= 12 then Noon
      else if 17 <= h < 21 then Evening else Night
  {
    ClockTimeHour(h, m);
  }

  /** A start time with no digit at all (an unparsable hour) falls in the night slot. */
  lemma NoDigitsIsNight(time: string)
    requires forall i :: 0 <= i < |time| ==> !IsDigit(time[i])
    ensures GetTimeSlot(time) == Night
  {
    var first := Split(time, ':')[0];
    SplitFirst(time, ':');
    var t := first[SpaceCount(first)..];
    var u := Unsigned(t);
    if u != [] {
      assert u[0] in time;
    }
  }

  /** `timeSlotLabel`. */
  function TimeSlotLabel(slot: TimeSlot): (text: string)
    ensures |text| == 2
  {
    match slot
    case Morning => "출근"
    case Noon => "점심"
    case Evening => "퇴근"
    case Night => "심야"
  }

  datatype BadgeStyle = BadgeStyle(bg: string, color: string)

  /** `getTimeBadgeStyle()`: a background and a text colour, both `#RRGGBB` and different. */
  function TimeBadgeStyle(slot: TimeSlot): (b: BadgeStyle)
    ensures |b.bg| == 7 && |b.color| == 7 && b.bg[0] == '#' && b.color[0] == '#'
    ensures b.bg != b.color
  {
    match slot
    case Morning => BadgeStyle("#FEF3C7", "#D97706")
    case Noon => BadgeStyle("#FFEDD5", "#EA580C")
    case Evening => BadgeStyle("#FED7AA", "#C2410C")
    case Night => BadgeStyle("#E0E7FF", "#4F46E5")
  }

  /** Each slot has its own label and its own badge colours. */
  lemma SlotPresentationDistinct(a: TimeSlot, b: TimeSlot)
    requires a != b
    ensures TimeSlotLabel(a) != TimeSlotLabel(b)
    ensures TimeBadgeStyle(a).bg != TimeBadgeStyle(b).bg && TimeBadgeStyle(a).color != TimeBadgeStyle(b).color
  {
  }

  /** The keys of `poiTypeLabel`: every place type, and 'manual'. */
  datatype LabelKey = Poi(t: PoiType) | Manual

  /** `poiTypeLabel`. */
  function PoiTypeLabel(k: LabelKey): (text: string)
    ensures text != []
  {
    match k
    case Poi(Subway) => "대중교통"
    case Poi(Bus) => "대중교통"
    case Poi(Market) => "시장"
    case Poi(School) => "학교"
    case Poi(Facility) => "공원"
    case Poi(Religious) => "종교시설"
    case Poi(Other) => "기타"
    case Manual => "직접추가"
  }

  /** The label key of a schedule: 'manual' for a manual one, its place type otherwise. */
  function LabelKeyOf(s: CampaignSchedule): (k: LabelKey)
    ensures k == Manual <==> s.isManual
    ensures !s.isManual ==> k == Poi(s.poiType)
  {
    if s.isManual then Manual else Poi(s.poiType)
  }

  /**
   * The manual label is used by manual schedules only: no place type shares
   * it, and two place types share a label only for subway and bus.
   */
  lemma PlaceLabels(s: CampaignSchedule, a: PoiType, b: PoiType)
    ensures PoiTypeLabel(LabelKeyOf(s)) == "직접추가" <==> s.isManual
    ensures a != b && PoiTypeLabel(Poi(a)) == PoiTypeLabel(Poi(b)) ==> {a, b} == {Subway, Bus}
  {
  }
}
