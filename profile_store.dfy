/**
 * The profile store of the web client: the user's campaign profile with
 * its onboarding state, merged from partial updates.
 */
module ProfileStore {
  import opened Seqs
  import opened ProfileTypes

  datatype ReligionChoice = NoPreference | Exclude | Only
  datatype ReligionPreference = ReligionPreference(preference: ReligionChoice, values: seq<string>)

  datatype ProfileData = ProfileData(
    name: Option<string>, email: Option<string>, district: Option<string>, partyAffiliation: Option<string>,
    intensity: Intensity, mobility: Mobility, religionPref: ReligionPreference,
    isCandidateMode: bool, seniorUiMode: bool, onboardingCompleted: bool, onboardingStep: int)

  /** `Partial<ProfileData>`: the fields a merge overwrites. */
  datatype ProfilePatch = ProfilePatch(
    name: Option<string>, email: Option<string>, district: Option<string>, partyAffiliation: Option<string>,
    intensity: Option<Intensity>, mobility: Option<Mobility>, religionPref: Option<ReligionPreference>,
    isCandidateMode: Option<bool>, seniorUiMode: Option<bool>, onboardingCompleted: Option<bool>,
    onboardingStep: Option<int>)

  /** `defaultProfile`. */
  const DefaultProfile := ProfileData(
    None, None, None, Some("개혁신당"), Normal, Car, ReligionPreference(NoPreference, []),
    false, false, false, 0)

  /**
   * `{ ...profile, ...updates }`: every field the patch supplies replaces
   * the profile's own, and every field it leaves out is kept.
   */
  function Merge(p: ProfileData, u: ProfilePatch): (r: ProfileData)
    ensures u.name.Some? ==> r.name == u.name
    ensures u.name.None? ==> r.name == p.name
    ensures u.email.Some? ==> r.email == u.email
    ensures u.email.None? ==> r.email == p.email
    ensures u.district.Some? ==> r.district == u.district
    ensures u.district.None? ==> r.district == p.district
    ensures u.partyAffiliation.Some? ==> r.partyAffiliation == u.partyAffiliation
    ensures u.partyAffiliation.None? ==> r.partyAffiliation == p.partyAffiliation
    ensures u.intensity.Some? ==> r.intensity == u.intensity.value
    ensures u.intensity.None? ==> r.intensity == p.intensity
    ensures u.mobility.Some? ==> r.mobility == u.mobility.value
    ensures u.mobility.None? ==> r.mobility == p.mobility
    ensures u.religionPref.Some? ==> r.religionPref == u.religionPref.value
    ensures u.religionPref.None? ==> r.religionPref == p.religionPref
    ensures u.isCandidateMode.Some? ==> r.isCandidateMode == u.isCandidateMode.value
    ensures u.isCandidateMode.None? ==> r.isCandidateMode == p.isCandidateMode
    ensures u.seniorUiMode.Some? ==> r.seniorUiMode == u.seniorUiMode.value
    ensures u.seniorUiMode.None? ==> r.seniorUiMode == p.seniorUiMode
    ensures u.onboardingCompleted.Some? ==> r.onboardingCompleted == u.onboardingCompleted.value
    ensures u.onboardingCompleted.None? ==> r.onboardingCompleted == p.onboardingCompleted
    ensures u.onboardingStep.Some? ==> r.onboardingStep == u.onboardingStep.value
    ensures u.onboardingStep.None? ==> r.onboardingStep == p.onboardingStep
  {
    ProfileData(
      Spread(u.name, p.name), Spread(u.email, p.email), Spread(u.district, p.district),
      Spread(u.partyAffiliation, p.partyAffiliation),
      u.intensity.GetOr(p.intensity), u.mobility.GetOr(p.mobility), u.religionPref.GetOr(p.religionPref),
      u.isCandidateMode.GetOr(p.isCandidateMode), u.seniorUiMode.GetOr(p.seniorUiMode),
      u.onboardingCompleted.GetOr(p.onboardingCompleted), u.onboardingStep.GetOr(p.onboardingStep))
  }

  /** An optional field spread over another: the supplied one wins. */
  function Spread<T>(u: Option<T>, d: Option<T>): (r: Option<T>)
    ensures u.Some? ==> r == u
    ensures u.None? ==> r == d
  {
    if u.Some? then u else d
  }

  /** The patch that supplies every field of `p`. */
  function Full(p: ProfileData): ProfilePatch {
    ProfilePatch(
      p.name, p.email, p.district, p.partyAffiliation, Some(p.intensity), Some(p.mobility), Some(p.religionPref),
      Some(p.isCandidateMode), Some(p.seniorUiMode), Some(p.onboardingCompleted), Some(p.onboardingStep))
  }

  /**
   * Merging is idempotent, two merges combine into one in which the later
   * fields win, and the empty patch changes nothing.
   */
  lemma MergeLaws(p: ProfileData, u: ProfilePatch, v: ProfilePatch)
    ensures Merge(Merge(p, u), u) == Merge(p, u)
    ensures Merge(Merge(p, u), v) == Merge(p, Then(u, v))
    ensures Merge(p, ProfilePatch(None, None, None, None, None, None, None, None, None, None, None)) == p
  {
  }

  /**
   * The patch carrying every field of a profile `q` whose optional fields
   * are all set turns any profile into `q`.
   */
  lemma MergeFull(p: ProfileData, q: ProfileData)
    requires q.name.Some? && q.email.Some? && q.district.Some? && q.partyAffiliation.Some?
    ensures Merge(p, Full(q)) == q
  {
  }

  /** Two patches combined: the second one's fields win. */
  function Then(u: ProfilePatch, v: ProfilePatch): ProfilePatch {
    ProfilePatch(
      if v.name.Some? then v.name else u.name,
      if v.email.Some? then v.email else u.email,
      if v.district.Some? then v.district else u.district,
      if v.partyAffiliation.Some? then v.partyAffiliation else u.partyAffiliation,
      if v.intensity.Some? then v.intensity else u.intensity,
      if v.mobility.Some? then v.mobility else u.mobility,
      if v.religionPref.Some? then v.religionPref else u.religionPref,
      if v.isCandidateMode.Some? then v.isCandidateMode else u.isCandidateMode,
      if v.seniorUiMode.Some? then v.seniorUiMode else u.seniorUiMode,
      if v.onboardingCompleted.Some? then v.onboardingCompleted else u.onboardingCompleted,
      if v.onboardingStep.Some? then v.onboardingStep else u.onboardingStep)
  }

  class ProfileStore {
    var profile: ProfileData
    var isLoading: bool
    var error: Option<string>

    constructor ()
      ensures profile == DefaultProfile && !isLoading && error == None
    {
      profile, isLoading, error := DefaultProfile, false, None;
    }

    /** `setProfile(p)`: the given fields replace the stored ones. */
    method SetProfile(u: ProfilePatch)
      modifies this
      ensures profile == Merge(old(profile), u)
      ensures isLoading == old(isLoading) && error == old(error)
    {
      profile := Merge(profile, u);
    }

    /** `updateProfile(updates)`: the same merge as `setProfile`. */
    method UpdateProfile(u: ProfilePatch)
      modifies this
      ensures profile == Merge(old(profile), u)
      ensures isLoading == old(isLoading) && error == old(error)
    {
      profile := Merge(profile, u);
    }

    method SetLoading(loading: bool)
      modifies this
      ensures isLoading == loading && profile == old(profile) && error == old(error)
    {
      isLoading := loading;
    }

    method SetError(e: Option<string>)
      modifies this
      ensures error == e && profile == old(profile) && isLoading == old(isLoading)
    {
      error := e;
    }

    method ResetProfile()
      modifies this
      ensures profile == DefaultProfile && error == None && isLoading == old(isLoading)
    {
      profile, error := DefaultProfile, None;
    }

    /** `completeOnboarding()`: completed, back to step 0, nothing else changed. */
    method CompleteOnboarding()
      modifies this
      ensures profile == old(profile).(onboardingCompleted := true, onboardingStep := 0)
      ensures isLoading == old(isLoading) && error == old(error)
    {
      profile := profile.(onboardingCompleted := true, onboardingStep := 0);
    }

    method SetOnboardingStep(step: int)
      modifies this
      ensures profile == old(profile).(onboardingStep := step)
      ensures isLoading == old(isLoading) && error == old(error)
    {
      profile := profile.(onboardingStep := step);
    }
  }
}
