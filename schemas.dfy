/** Request validation for campaigns and their targeting: the field constraints
    and the "after" model validators that run before any store operation. */
module CampaignSchemas {
  import opened Common

  /** A campaign's targeting filter; an absent field means "no constraint". */
  datatype Targeting = Targeting(
    gender: Option<ExtendedGender>,
    ageFrom: Option<int>,
    ageTo: Option<int>,
    location: Option<string>)

  /** The targeting a campaign gets when the request omits it. */
  const Unrestricted: Targeting := Targeting(None, None, None, None)

  /** Field constraints: ages non-negative, location non-empty, when present. */
  predicate TargetingFieldsOk(t: Targeting) {
    && (t.ageFrom.Some? ==> t.ageFrom.value >= 0)
    && (t.ageTo.Some? ==> t.ageTo.value >= 0)
    && (t.location.Some? ==> |t.location.value| >= 1)
  }

  /** Python truthiness of an optional integer: None and 0 are both false. */
  predicate Truthy(x: Option<int>) {
    x.Some? && x.value != 0
  }

  /** The targeting validator: the age order is only checked when BOTH ages are truthy. */
  function ValidateTargeting(t: Targeting): (r: Result<Targeting>)
    ensures r.Success? ==> r.value == t && TargetingFieldsOk(t)
    ensures r.Success? && t.ageFrom.Some? && t.ageTo.Some? && t.ageTo.value != 0
            ==> t.ageFrom.value <= t.ageTo.value
    ensures TargetingFieldsOk(t) && (t.ageFrom.Some? && t.ageTo.Some? ==> t.ageFrom.value <= t.ageTo.value)
            ==> r.Success?
    ensures !TargetingFieldsOk(t) ==> r == Failure(Invalid(FieldConstraint))
    ensures r.Failure? ==> r.error.Invalid?
  {
    if !TargetingFieldsOk(t) then Failure(Invalid(FieldConstraint))
    else if Truthy(t.ageFrom) && Truthy(t.ageTo) && t.ageFrom.value > t.ageTo.value then
      Failure(Invalid(AgeRange))
    else Success(t)
  }

  /** `age_to = 0` is falsy, so any targeting with valid fields and a range
      ending at 0 passes the validator, however large `age_from` is. */
  lemma AgeToZeroBypassesRangeCheck(t: Targeting)
    requires TargetingFieldsOk(t) && t.ageTo == Some(0)
    ensures ValidateTargeting(t) == Success(t)
  {
  }

  /** A campaign-creation request as it arrives. */
  datatype CampaignCreate = CampaignCreate(
    impressionsLimit: int,
    clicksLimit: int,
    costPerImpression: real,
    costPerClick: real,
    adTitle: string,
    adText: string,
    startDate: int,
    endDate: int,
    targeting: Option<Targeting>,
    files: Option<seq<string>>)

  /** Field constraints of a creation request: non-negative numbers, non-empty texts. */
  predicate CreateFieldsOk(c: CampaignCreate) {
    && c.impressionsLimit >= 0 && c.clicksLimit >= 0
    && c.costPerImpression >= 0.0 && c.costPerClick >= 0.0
    && |c.adTitle| >= 1 && |c.adText| >= 1
    && c.startDate >= 0 && c.endDate >= 0
  }

  /** The creation validator: field constraints (the nested targeting included),
      then the date order, then the limit order. */
  function ValidateCampaign(c: CampaignCreate): (r: Result<CampaignCreate>)
    ensures c.startDate > c.endDate ==> r.Failure?
    ensures c.clicksLimit > c.impressionsLimit ==> r.Failure?
    ensures !CreateFieldsOk(c) ==> r.Failure?
    ensures r.Success? ==>
      && r.value == c
      && 0 <= c.clicksLimit <= c.impressionsLimit
      && 0 <= c.startDate <= c.endDate
      && c.costPerImpression >= 0.0 && c.costPerClick >= 0.0
      && |c.adTitle| >= 1 && |c.adText| >= 1
      && (c.targeting.Some? ==> ValidateTargeting(c.targeting.value).Success?)
    ensures CreateFieldsOk(c) && c.startDate <= c.endDate && c.clicksLimit <= c.impressionsLimit
            && (c.targeting.Some? ==> ValidateTargeting(c.targeting.value).Success?)
            ==> r.Success?
    ensures r.Failure? ==> r.error.Invalid?
  {
    if !CreateFieldsOk(c) then Failure(Invalid(FieldConstraint))
    else if c.targeting.Some? && ValidateTargeting(c.targeting.value).Failure? then
      ValidateTargeting(c.targeting.value).PropagateError()
    else if c.startDate > c.endDate then Failure(Invalid(DateRange))
    else if c.clicksLimit > c.impressionsLimit then Failure(Invalid(LimitOrder))
    else Success(c)
  }

  /** The targeting part of an update; each field may be left unset or set (null included). */
  datatype TargetingPatch = TargetingPatch(
    gender: Patch<Option<ExtendedGender>>,
    ageFrom: Patch<Option<int>>,
    ageTo: Patch<Option<int>>,
    location: Patch<Option<string>>)

  /** The fields an update request can carry: costs, texts, targeting and files only.
      Limits and dates have no field here, so an update can never change them. */
  datatype CampaignUpdate = CampaignUpdate(
    costPerImpression: Patch<real>,
    costPerClick: Patch<real>,
    adTitle: Patch<string>,
    adText: Patch<string>,
    targeting: Patch<Option<TargetingPatch>>,
    files: Patch<Option<seq<string>>>)

  function OrNull<T>(p: Patch<Option<T>>): Option<T> {
    if p.Set? then p.value else None
  }

  /** How the targeting validator sees a patch: unset fields take their default, null. */
  function PatchAsTargeting(p: TargetingPatch): Targeting {
    Targeting(OrNull(p.gender), OrNull(p.ageFrom), OrNull(p.ageTo), OrNull(p.location))
  }

  /** The update validator: set costs are non-negative, a set targeting passes
      the targeting validator on its own fields. Title and text have no length constraint. */
  function ValidateUpdate(u: CampaignUpdate): (r: Result<CampaignUpdate>)
    ensures r.Success? ==> r.value == u
    ensures r.Success? && u.costPerImpression.Set? ==> u.costPerImpression.value >= 0.0
    ensures r.Success? && u.costPerClick.Set? ==> u.costPerClick.value >= 0.0
    ensures r.Success? && u.targeting.Set? && u.targeting.value.Some? ==>
              ValidateTargeting(PatchAsTargeting(u.targeting.value.value)).Success?
    ensures (u.costPerImpression.Set? ==> u.costPerImpression.value >= 0.0)
            && (u.costPerClick.Set? ==> u.costPerClick.value >= 0.0)
            && (u.targeting.Set? && u.targeting.value.Some? ==>
                  ValidateTargeting(PatchAsTargeting(u.targeting.value.value)).Success?)
            ==> r.Success?
  {
    if u.costPerImpression.Set? && u.costPerImpression.value < 0.0 then Failure(Invalid(FieldConstraint))
    else if u.costPerClick.Set? && u.costPerClick.value < 0.0 then Failure(Invalid(FieldConstraint))
    else if u.targeting.Set? && u.targeting.value.Some?
            && ValidateTargeting(PatchAsTargeting(u.targeting.value.value)).Failure? then
      ValidateTargeting(PatchAsTargeting(u.targeting.value.value)).PropagateError()
    else Success(u)
  }
}
