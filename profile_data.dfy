/**
 * Profile completeness in the web client: whether the five required
 * profile fields are filled, and the filled share as a percentage.
 */
module ProfileData {
  import opened Seqs
  import opened Numbers
  import opened ProfileTypes

  /** `Partial<Profile>`, restricted to the fields the completeness check reads. */
  datatype PartialProfile = PartialProfile(
    name: Option<string>, phone: Option<string>, intensity: Option<Intensity>,
    mobility: Option<Mobility>, fontScale: Option<FontScale>)

  /** JavaScript truthiness of an optional string: present and non-empty. */
  predicate Filled(s: Option<string>) {
    s.Some? && s.value != ""
  }

  /** `isProfileComplete`: all five required fields are truthy. */
  predicate IsComplete(p: PartialProfile) {
    Filled(p.name) && Filled(p.phone) && p.intensity.Some? && p.mobility.Some? && p.fontScale.Some?
  }

  /** The number of the five required fields that are truthy. */
  function FilledCount(p: PartialProfile): (k: nat)
    ensures k <= 5
    ensures k == 5 <==> IsComplete(p)
  {
    (if Filled(p.name) then 1 else 0) + (if Filled(p.phone) then 1 else 0)
    + (if p.intensity.Some? then 1 else 0) + (if p.mobility.Some? then 1 else 0)
    + (if p.fontScale.Some? then 1 else 0)
  }

  /** `getProfileCompletionPercentage`: `Math.round(k / 5 * 100)`. */
  function CompletionPercentage(p: PartialProfile): (r: int)
    ensures r == 20 * FilledCount(p)
    ensures r in {0, 20, 40, 60, 80, 100}
    ensures r == 100 <==> IsComplete(p)
  {
    var k := FilledCount(p);
    RoundDivUnique(100 * k, 5, 20 * k);
    Percent(k, 5)
  }

  /** Filling a missing required field raises the percentage by 20. */
  lemma FillingRaises(p: PartialProfile, name: string)
    requires !Filled(p.name) && name != ""
    ensures CompletionPercentage(p.(name := Some(name))) == CompletionPercentage(p) + 20
  {
  }

  /** Every field filled in `p` is filled in `q`. */
  predicate MoreFilled(p: PartialProfile, q: PartialProfile) {
    && (Filled(p.name) ==> Filled(q.name)) && (Filled(p.phone) ==> Filled(q.phone))
    && (p.intensity.Some? ==> q.intensity.Some?) && (p.mobility.Some? ==> q.mobility.Some?)
    && (p.fontScale.Some? ==> q.fontScale.Some?)
  }

  /** Filling fields never lowers the percentage. */
  lemma FillingMonotone(p: PartialProfile, q: PartialProfile)
    requires MoreFilled(p, q)
    ensures CompletionPercentage(q) >= CompletionPercentage(p)
  {
  }

  /** A profile is complete exactly when nothing is missing: a field removed drops it below 100. */
  lemma MissingFieldIncomplete(p: PartialProfile)
    requires IsComplete(p)
    ensures CompletionPercentage(p.(phone := None)) == 80
    ensures CompletionPercentage(p.(intensity := None)) == 80
  {
  }
}
