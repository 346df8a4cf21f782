/** Vocabulary shared by every part of the ad-serving backend model: identifiers,
    the gender enums, optional values, partial-update patches and the error outcomes
    that the HTTP layer turns into status codes. */
module Common {

  /** Identifiers are UUIDs in the system; only their equality matters here. */
  type Uuid = nat
  type ClientId = Uuid
  type AdvertiserId = Uuid
  type CampaignId = Uuid

  /** A client's gender (MALE | FEMALE). */
  datatype Gender = Male | Female

  /** The targeting gender: one of the client genders, or ALL. */
  datatype ExtendedGender = Exactly(gender: Gender) | AllGenders

  datatype Option<+T> = None | Some(value: T)

  /** A field of a partial-update request: left unset, or set (possibly to null). */
  datatype Patch<+T> = Keep | Set(value: T)

  /** What a lookup did not find; each is a distinct "not found" message in the source. */
  datatype Missing =
    | NoClient
    | NoAdvertiser
    | NoCampaign
    | NoCurrentDate
    | NoMatchingAd

  /** Which request-validation rule rejected an input. */
  datatype Violation =
    | FieldConstraint   // a non-negative or non-empty field constraint
    | AgeRange          // age_from > age_to
    | DateRange         // start_date > end_date
    | LimitOrder        // clicks_limit > impressions_limit

  datatype Error = NotFound(what: Missing) | Invalid(rule: Violation)

  datatype Result<+T> = Success(value: T) | Failure(error: Error) {
    /** The same failure, at another success type. */
    function PropagateError<U>(): (r: Result<U>)
      requires Failure?
      ensures r.Failure? && r.error == error
    {
      Failure(error)
    }
  }

  function Min(a: int, b: int): int { if a <= b then a else b }
}
