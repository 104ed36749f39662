/**
 * The campaign checklist guide of the web app: two tabs of sectioned
 * checklists, check boxes that toggle, and the progress shown for the
 * active tab.
 */
module Checklist {
  import opened Seqs
  import opened Numbers

  datatype ChecklistItem = ChecklistItem(id: string, title: string)
  datatype ChecklistSection = ChecklistSection(title: string, items: seq<ChecklistItem>)
  datatype Tab = Preliminary | Candidate

  const PreliminaryChecklist: seq<ChecklistSection> := [
    ChecklistSection("예비후보자 등록", [
      ChecklistItem("p1", "예비후보자 등록신청서 작성"), ChecklistItem("p2", "기탁금 납부"),
      ChecklistItem("p3", "후보자 사진 촬영"), ChecklistItem("p4", "학력·경력 증빙서류 준비")]),
    ChecklistSection("캠페인 준비", [
      ChecklistItem("p5", "명함 제작"), ChecklistItem("p6", "어깨띠 제작"),
      ChecklistItem("p7", "선거사무소 설치"), ChecklistItem("p8", "선거사무원 선임")]),
    ChecklistSection("공천 관련", [
      ChecklistItem("p9", "공천 신청서 제출"), ChecklistItem("p10", "공천 면접"),
      ChecklistItem("p11", "공천 확정 통보")])
  ]

  const CandidateChecklist: seq<ChecklistSection> := [
    ChecklistSection("후보자 등록", [
      ChecklistItem("c1", "후보자등록신청서 작성"), ChecklistItem("c2", "정당추천서 수령"),
      ChecklistItem("c3", "기탁금 납부"), ChecklistItem("c4", "재산신고서 제출"),
      ChecklistItem("c5", "병역신고서 제출")]),
    ChecklistSection("선거운동 준비", [
      ChecklistItem("c6", "공보물 제작"), ChecklistItem("c7", "현수막 제작"),
      ChecklistItem("c8", "선거운동원 교육"), ChecklistItem("c9", "유세 일정 계획")]),
    ChecklistSection("선거 당일", [
      ChecklistItem("c10", "투표 참관인 배치"), ChecklistItem("c11", "개표 참관인 배치"),
      ChecklistItem("c12", "선거사무소 운영")])
  ]

  const InitialChecked: seq<string> := ["p9", "p10", "p11"]

  function SectionsOf(tab: Tab): seq<ChecklistSection> {
    if tab == Preliminary then PreliminaryChecklist else CandidateChecklist
  }

  /** `totalItems`: the items of every section; none exactly when every section is empty. */
  function TotalItems(sections: seq<ChecklistSection>): (n: nat)
    ensures n == 0 <==> forall k :: 0 <= k < |sections| ==> sections[k].items == []
  {
    if sections == [] then 0
    else
      assert forall k :: 1 <= k < |sections| ==> sections[1..][k - 1] == sections[k];
      |sections[0].items| + TotalItems(sections[1..])
  }

  function IsChecked(checked: seq<string>): ChecklistItem -> bool {
    (item: ChecklistItem) => item.id in checked
  }

  /** `sectionChecked`: the items of one section whose id is checked. */
  function SectionChecked(section: ChecklistSection, checked: seq<string>): (n: nat)
    ensures n <= |section.items|
  {
    CountIf(section.items, IsChecked(checked))
  }

  /** `checkedCount`: the section counts added up, never more than the number of items. */
  function CheckedCount(sections: seq<ChecklistSection>, checked: seq<string>): (n: nat)
    ensures n <= TotalItems(sections)
  {
    if sections == [] then 0 else SectionChecked(sections[0], checked) + CheckedCount(sections[1..], checked)
  }

  /** `progressPercent`: the rounded percentage of checked items, NaN when the tab had no items. */
  function ProgressPercent(sections: seq<ChecklistSection>, checked: seq<string>): (r: Num)
    ensures r.NaN? <==> TotalItems(sections) == 0
    ensures r.Value? ==> 0 <= r.v <= 100
    ensures r.Value? && CheckedCount(sections, checked) == TotalItems(sections) ==> r.v == 100
    ensures r.Value? && CheckedCount(sections, checked) == 0 ==> r.v == 0
    ensures r.Value? ==>
      var k, n := CheckedCount(sections, checked), TotalItems(sections);
      2 * n * r.v <= 200 * k + n < 2 * n * r.v + 2 * n
  {
    if TotalItems(sections) == 0 then NaN
    else Value(Percent(CheckedCount(sections, checked), TotalItems(sections)))
  }

  /** Ids of items the sections do not list never count. */
  lemma {:induction false} ForeignIdsIgnored(sections: seq<ChecklistSection>, checked: seq<string>, x: string)
    requires forall k, item :: 0 <= k < |sections| && item in sections[k].items ==> item.id != x
    ensures CheckedCount(sections, checked + [x]) == CheckedCount(sections, checked)
  {
    if sections != [] {
      ForeignIdsIgnored(sections[1..], checked, x);
      SameCount(sections[0].items, checked, x);
    }
  }

  lemma {:induction false} SameCount(items: seq<ChecklistItem>, checked: seq<string>, x: string)
    requires forall item :: item in items ==> item.id != x
    ensures CountIf(items, IsChecked(checked + [x])) == CountIf(items, IsChecked(checked))
  {
    if items != [] {
      SameCount(items[1..], checked, x);
    }
  }

  /**
   * Checking an unchecked item of the tab, listed once, raises the count by
   * exactly one.
   */
  lemma {:induction false} CheckRaisesByOne(sections: seq<ChecklistSection>, checked: seq<string>, x: string)
    requires x !in checked
    requires CountIf(Flatten(sections), HasId(x)) == 1
    ensures CheckedCount(sections, Toggle(checked, x)) == CheckedCount(sections, checked) + 1
  {
    CheckedIsFlat(sections, checked);
    CheckedIsFlat(sections, checked + [x]);
    OneMore(Flatten(sections), checked, x);
  }

  /** All items of the tab, section after section. */
  function Flatten(sections: seq<ChecklistSection>): (items: seq<ChecklistItem>)
    ensures |items| == TotalItems(sections)
  {
    if sections == [] then [] else sections[0].items + Flatten(sections[1..])
  }

  /** The per-section counts add up to the count over all items of the tab. */
  lemma {:induction false} CheckedIsFlat(sections: seq<ChecklistSection>, checked: seq<string>)
    ensures CheckedCount(sections, checked) == CountIf(Flatten(sections), IsChecked(checked))
  {
    if sections != [] {
      CheckedIsFlat(sections[1..], checked);
      FilterAppend(sections[0].items, Flatten(sections[1..]), IsChecked(checked));
    }
  }

  lemma {:induction false} OneMore(items: seq<ChecklistItem>, checked: seq<string>, x: string)
    requires x !in checked
    ensures CountIf(items, IsChecked(checked + [x])) ==
      CountIf(items, IsChecked(checked)) + CountIf(items, HasId(x))
  {
    if items != [] {
      OneMore(items[1..], checked, x);
      assert IsChecked(checked + [x])(items[0]) <==> IsChecked(checked)(items[0]) || HasId(x)(items[0]);
      assert !(IsChecked(checked)(items[0]) && HasId(x)(items[0]));
    }
  }

  function HasId(x: string): ChecklistItem -> bool {
    (item: ChecklistItem) => item.id == x
  }

  class ChecklistPage {
    var activeTab: Tab
    var checkedItems: seq<string>

    ghost predicate Valid()
      reads this
    {
      NoDup(checkedItems)
    }

    constructor ()
      ensures Valid() && activeTab == Preliminary && checkedItems == InitialChecked
    {
      activeTab, checkedItems := Preliminary, InitialChecked;
    }

    method SetActiveTab(tab: Tab)
      modifies this
      ensures activeTab == tab && checkedItems == old(checkedItems)
    {
      activeTab := tab;
    }

    /** `handleCheck(id)`: the id is checked when it was not, and unchecked when it was. */
    method HandleCheck(id: string)
      requires Valid()
      modifies this
      ensures Valid()
      ensures checkedItems == Toggle(old(checkedItems), id) && activeTab == old(activeTab)
    {
      checkedItems := Toggle(checkedItems, id);
    }

    function Progress(): (r: Num)
      reads this
      ensures r.Value? && 0 <= r.v <= 100
    {
      assert TotalItems(SectionsOf(activeTab)) > 0 by {
        assert SectionsOf(activeTab)[0].items != [];
      }
      ProgressPercent(SectionsOf(activeTab), checkedItems)
    }
  }
}
