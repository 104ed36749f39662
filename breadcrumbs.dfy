/**
 * The breadcrumb trail in the web header: one item for the home page, then
 * one per non-empty `/`-separated segment of the pathname, each linking to
 * the path up to and including that segment.
 */
module Breadcrumbs {
  import opened Seqs
  import opened Strs

  datatype Crumb = Crumb(href: string, text: string)

  /** `pathLabels`: readable names of the top-level pages. */
  const PathLabels: map<string, string> := map[
    "/home" := "홈",
    "/documents" := "서류 제출",
    "/proofs" := "증빙 업로드",
    "/policies" := "정책 및 법률",
    "/education" := "교육 자료",
    "/templates" := "홍보 템플릿",
    "/broadcasts" := "공지사항",
    "/onboarding" := "프로필 완성"
  ]

  /** `pathname.split('/').filter(Boolean)`. */
  function Segments(path: string): (segs: seq<string>)
    ensures forall k :: 0 <= k < |segs| ==> segs[k] != [] && '/' !in segs[k]
    ensures forall x :: x in segs <==> x in Split(path, '/') && x != []
  {
    Filter(Split(path, '/'), NonEmpty)
  }

  predicate NonEmpty(x: string) {
    x != []
  }

  /** The link of the item for segment `i`: a slash and the first `i + 1` segments joined. */
  function Href(segs: seq<string>, i: nat): string
    requires i < |segs|
  {
    "/" + Join(segs[..i + 1], '/')
  }

  /** `pathLabels[href] || segment`. */
  function CrumbText(href: string, segment: string): (text: string)
    ensures href !in PathLabels ==> text == segment
    ensures href in PathLabels ==> text == PathLabels[href]
  {
    if href in PathLabels && PathLabels[href] != [] then PathLabels[href] else segment
  }

  /** `Breadcrumbs()`: nothing at `/home`, otherwise the trail. */
  function Trail(path: string): (r: Option<seq<Crumb>>)
    ensures r.None? <==> path == "/home"
    ensures r.Some? ==> |r.value| == 1 + |Segments(path)| && r.value[0] == Crumb("/home", "홈")
  {
    if path == "/home" then None else Some(Items(Segments(path)))
  }

  /** The home item, then one item per segment. */
  function Items(segs: seq<string>): (items: seq<Crumb>)
    ensures |items| == 1 + |segs| && items[0] == Crumb("/home", "홈")
  {
    [Crumb("/home", "홈")] + seq(|segs|, i requires 0 <= i < |segs| => Crumb(Href(segs, i), CrumbText(Href(segs, i), segs[i])))
  }

  /**
   * Item `i + 1` of the trail links to segment `i`: the first one to
   * `/segment`, each later one to the previous link, a slash and its
   * segment; its text is the page's name when the link is a known page,
   * and otherwise the segment itself.
   */
  lemma TrailLinks(segs: seq<string>, i: nat)
    requires i < |segs|
    ensures i == 0 ==> Items(segs)[1].href == "/" + segs[0]
    ensures i > 0 ==> Items(segs)[i + 1].href == Items(segs)[i].href + "/" + segs[i]
    ensures Items(segs)[i + 1].href !in PathLabels ==> Items(segs)[i + 1].text == segs[i]
  {
    var items := Items(segs);
    assert items[i + 1] == Crumb(Href(segs, i), CrumbText(Href(segs, i), segs[i]));
    if i == 0 {
      assert segs[..1] == [segs[0]];
    } else {
      assert items[i] == Crumb(Href(segs, i - 1), CrumbText(Href(segs, i - 1), segs[i - 1]));
      assert segs[..i + 1] == segs[..i] + [segs[i]];
      JoinSnoc(segs[..i], segs[i], '/');
    }
  }
}
