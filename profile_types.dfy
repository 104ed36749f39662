/**
 * Profile value types of the web client, their display labels, and the
 * phone-number masker.
 */
module ProfileTypes {
  import opened Strs

  datatype Intensity = Hard | Normal | Light
  datatype Mobility = Car | Pickup | Trike | Bike | Walk
  datatype FontScale = DefaultScale | Large

  function IntensityLabel(i: Intensity): (name: string)
    ensures name != ""
  {
    match i
    case Hard => "고강도"
    case Normal => "보통"
    case Light => "저강도"
  }

  function MobilityLabel(m: Mobility): (name: string)
    ensures name != ""
  {
    match m
    case Car => "승용차"
    case Pickup => "트럭"
    case Trike => "삼륜차"
    case Bike => "자전거"
    case Walk => "도보"
  }

  function FontScaleLabel(f: FontScale): (name: string)
    ensures name != ""
  {
    match f
    case DefaultScale => "기본"
    case Large => "큰 글씨"
  }

  /** Every value has a non-empty label, and no two values share one. */
  lemma LabelsDistinct(i1: Intensity, i2: Intensity, m1: Mobility, m2: Mobility, f1: FontScale, f2: FontScale)
    ensures IntensityLabel(i1) != "" && MobilityLabel(m1) != "" && FontScaleLabel(f1) != ""
    ensures i1 != i2 ==> IntensityLabel(i1) != IntensityLabel(i2)
    ensures m1 != m2 ==> MobilityLabel(m1) != MobilityLabel(m2)
    ensures f1 != f2 ==> FontScaleLabel(f1) != FontScaleLabel(f2)
  {
  }

  /** The dashed form of a phone number: exactly two `-`, hence three parts. */
  predicate Dashed(phone: string) {
    Occurrences(phone, '-') == 2
  }

  /**
   * `maskPhoneNumber`: text shorter than 8 is returned as is; a number with
   * exactly two dashes keeps its first and last groups around `-****-`;
   * anything else keeps its first three and last four characters around
   * `****`.
   */
  function MaskPhone(phone: string): (r: string)
    ensures |phone| < 8 ==> r == phone
    ensures |phone| >= 8 ==> Contains(r, "****")
    ensures |phone| >= 8 && Dashed(phone) ==>
      r == BeforeFirst(phone, '-') + "-****-" + Last(Split(phone, '-'))
    ensures |phone| >= 8 && !Dashed(phone) ==>
      r == phone[..3] + "****" + phone[|phone| - 4..]
    ensures |phone| >= 8 ==> exists p, q :: p <= phone && Suffix(q, phone) && r == p + MaskOf(phone) + q
  {
    if |phone| < 8 then phone
    else
      var parts := Split(phone, '-');
      SplitLength(phone, '-');
      if '-' in phone && |parts| == 3 then
        SplitFirst(phone, '-');
        SplitLastSuffix(phone, '-');
        var r := parts[0] + "-****-" + parts[2];
        assert OccursAt(r, "****", |parts[0]| + 1);
        assert parts[0] <= phone && Suffix(parts[2], phone) && r == parts[0] + MaskOf(phone) + parts[2];
        r
      else
        DashedHasDash(phone);
        var r := phone[..3] + "****" + phone[|phone| - 4..];
        assert OccursAt(r, "****", 3);
        assert phone[..3] <= phone && Suffix(phone[|phone| - 4..], phone) && r == phone[..3] + MaskOf(phone) + phone[|phone| - 4..];
        r
  }

  /** The masked middle: `-****-` in the dashed form, `****` otherwise. */
  function MaskOf(phone: string): string {
    if Dashed(phone) then "-****-" else "****"
  }

  lemma DashedHasDash(s: string)
    ensures Dashed(s) ==> '-' in s
  {
    if '-' !in s {
      OccurrencesNone(s, '-');
    }
  }

  function Last(parts: seq<string>): string
    requires |parts| > 0
  {
    parts[|parts| - 1]
  }

  predicate Suffix(q: string, s: string) {
    |q| <= |s| && s[|s| - |q|..] == q
  }

  /** The last part of a split is a suffix of the text. */
  lemma {:induction false} SplitLastSuffix(s: string, c: char)
    ensures Suffix(Last(Split(s, c)), s)
    decreases |s|
  {
    var i := IndexOf(s, c);
    if i < |s| {
      var t := s[i + 1..];
      SplitLastSuffix(t, c);
      assert Split(s, c) == [s[..i]] + Split(t, c);
      assert Last(Split(s, c)) == Last(Split(t, c));
      SuffixOfTail(Last(Split(t, c)), s, i + 1);
    }
  }

  /** A suffix of a tail of the text is a suffix of the text. */
  lemma SuffixOfTail(q: string, s: string, k: nat)
    requires k <= |s| && Suffix(q, s[k..])
    ensures Suffix(q, s)
  {
    assert s[|s| - |q|..] == s[k..][|s| - k - |q|..];
  }
}
