/** The campaign store: lookup with the soft-delete and ownership filters, the
    paginated listing, creation, partial update and soft delete. */
module Campaigns {
  import opened Common
  import opened CampaignSchemas
  import opened Models
  import opened Store

  predicate OwnedBy(c: Campaign, owner: Option<AdvertiserId>) {
    owner.None? || c.advertiserId == owner.value
  }

  /** Lookup of a live campaign by id, optionally restricted to one owner.
      Every miss is the same "campaign not found". */
  function GetCampaignById(cs: seq<Campaign>, id: CampaignId, owner: Option<AdvertiserId>): (r: Result<Campaign>)
    ensures r.Success? ==>
      exists i :: 0 <= i < |cs| && cs[i] == r.value && cs[i].id == id && !cs[i].isDeleted && OwnedBy(cs[i], owner)
    ensures r.Failure? ==> r.error == NotFound(NoCampaign)
    ensures CampaignIdsUnique(cs) ==>
      forall i :: 0 <= i < |cs| && cs[i].id == id ==>
        (r.Success? <==> !cs[i].isDeleted && OwnedBy(cs[i], owner))
    ensures (forall i :: 0 <= i < |cs| ==> cs[i].id != id) ==> r.Failure?
  {
    match IndexOfCampaign(cs, id)
    case None => Failure(NotFound(NoCampaign))
    case Some(i) =>
      if cs[i].isDeleted || !OwnedBy(cs[i], owner) then Failure(NotFound(NoCampaign))
      else Success(cs[i])
  }

  /** A stored campaign as the response model reads it back. */
  function AsSchema(c: Campaign): CampaignCreate {
    CampaignCreate(c.impressionsLimit, c.clicksLimit, c.costPerImpression, c.costPerClick,
                   c.adTitle, c.adText, c.startDate, c.endDate, Some(c.targeting), c.files)
  }

  /** The response model re-runs the creation rules on a stored campaign. A stored
      row passes exactly when its texts are non-empty and its targeting passes the
      targeting validator; a rejection is a validation error. */
  function ValidateResponse(c: Campaign): (r: Result<Campaign>)
    ensures r.Success? ==> r.value == c
    ensures r.Success? ==> |c.adTitle| >= 1 && |c.adText| >= 1 && ValidateTargeting(c.targeting).Success?
    ensures CampaignOk(c) && |c.adTitle| >= 1 && |c.adText| >= 1 && ValidateTargeting(c.targeting).Success?
            ==> r.Success?
    ensures r.Failure? ==> r.error.Invalid?
  {
    match ValidateCampaign(AsSchema(c))
    case Success(_) => Success(c)
    case Failure(e) => Failure(e)
  }

  /** Reading one campaign: the owner-filtered lookup, then the response model. */
  function GetCampaign(cs: seq<Campaign>, id: CampaignId, advertiserId: AdvertiserId): (r: Result<Campaign>)
    ensures GetCampaignById(cs, id, Some(advertiserId)).Failure? ==> r == Failure(NotFound(NoCampaign))
    ensures GetCampaignById(cs, id, Some(advertiserId)).Success? ==>
              r == ValidateResponse(GetCampaignById(cs, id, Some(advertiserId)).value)
    ensures r.Success? ==>
      && r.value in cs && r.value.id == id && r.value.advertiserId == advertiserId && !r.value.isDeleted
      && |r.value.adTitle| >= 1 && |r.value.adText| >= 1
  {
    match GetCampaignById(cs, id, Some(advertiserId))
    case Failure(e) => Failure(e)
    case Success(c) => ValidateResponse(c)
  }

  // ---------------------------------------------------------------- listing

  /** The advertiser's campaigns in table order; deleted ones are NOT filtered out. */
  function OwnedCampaigns(cs: seq<Campaign>, advertiserId: AdvertiserId): (r: seq<Campaign>)
    ensures forall x :: x in r ==> x in cs && x.advertiserId == advertiserId
  {
    if cs == [] then []
    else if cs[0].advertiserId == advertiserId then [cs[0]] + OwnedCampaigns(cs[1..], advertiserId)
    else OwnedCampaigns(cs[1..], advertiserId)
  }

  lemma {:induction false} OwnedCampaignsComplete(cs: seq<Campaign>, advertiserId: AdvertiserId)
    ensures forall i :: 0 <= i < |cs| && cs[i].advertiserId == advertiserId ==> cs[i] in OwnedCampaigns(cs, advertiserId)
  {
    if cs != [] {
      OwnedCampaignsComplete(cs[1..], advertiserId);
      assert forall i :: 1 <= i < |cs| ==> cs[i] == cs[1..][i - 1];
    }
  }

  predicate StartDescending(s: seq<Campaign>) {
    forall i, j :: 0 <= i < j < |s| ==> s[i].startDate >= s[j].startDate
  }

  /** The head of a descending sequence starts no earlier than any of its campaigns. */
  lemma HeadStartsLatest(s: seq<Campaign>)
    requires StartDescending(s) && s != []
    ensures s == [s[0]] + s[1..]
    ensures StartDescending(s[1..])
    ensures forall x :: x in s ==> x.startDate <= s[0].startDate
  {
    assert forall j :: 1 <= j < |s| ==> s[1..][j - 1] == s[j];
  }

  /** A campaign starting no earlier than all of a descending sequence can lead it. */
  lemma ConsDescending(x: Campaign, s: seq<Campaign>)
    requires StartDescending(s)
    requires forall y :: y in s ==> y.startDate <= x.startDate
    ensures StartDescending([x] + s)
  {
    assert forall j :: 1 <= j < |[x] + s| ==> ([x] + s)[j] == s[j - 1];
  }

  /** Places `c` before the first campaign that starts strictly earlier. */
  function InsertByStart(c: Campaign, s: seq<Campaign>): (r: seq<Campaign>)
    requires StartDescending(s)
    ensures StartDescending(r)
    ensures forall x :: x in r <==> x == c || x in s
    ensures multiset(r) == multiset(s) + multiset{c}
  {
    if s == [] then [c]
    else
      HeadStartsLatest(s);
      if s[0].startDate <= c.startDate then
        ConsDescending(c, s);
        [c] + s
      else
        var rest := InsertByStart(c, s[1..]);
        ConsDescending(s[0], rest);
        [s[0]] + rest
  }

  /** `ORDER BY start_date DESC`: a start-date-descending permutation of `s`. */
  function SortByStartDesc(s: seq<Campaign>): (r: seq<Campaign>)
    ensures StartDescending(r)
    ensures forall x :: x in r <==> x in s
    ensures multiset(r) == multiset(s)
  {
    if s == [] then []
    else
      assert s == [s[0]] + s[1..];
      InsertByStart(s[0], SortByStartDesc(s[1..]))
  }

  /** The number of campaigns that pages before `page` take up. */
  function Offset(size: nat, page: nat): nat
    requires page >= 1
  {
    (page - 1) * size
  }

  /** A window of a descending sequence is descending and holds only its campaigns. */
  lemma SliceDescending(s: seq<Campaign>, lo: nat, hi: nat)
    requires StartDescending(s) && lo <= hi <= |s|
    ensures StartDescending(s[lo..hi])
    ensures forall x :: x in s[lo..hi] ==> x in s
  {
    assert forall k :: 0 <= k < hi - lo ==> s[lo..hi][k] == s[lo + k];
  }

  /** One page of the listing, before serialization: skip `(page - 1) * size` of
      the advertiser's campaigns in start-date-descending order, then take at most
      `size` of them. */
  function ListingPage(cs: seq<Campaign>, advertiserId: AdvertiserId, size: nat, page: nat): (r: seq<Campaign>)
    requires size >= 1 && page >= 1
    ensures |r| <= size
    ensures forall x :: x in r ==> x in cs && x.advertiserId == advertiserId
    ensures StartDescending(r)
    ensures var all := SortByStartDesc(OwnedCampaigns(cs, advertiserId));
            r == all[Min(Offset(size, page), |all|)..Min(Offset(size, page) + size, |all|)]
  {
    var all := SortByStartDesc(OwnedCampaigns(cs, advertiserId));
    var lo, hi := Min(Offset(size, page), |all|), Min(Offset(size, page) + size, |all|);
    SliceDescending(all, lo, hi);
    all[lo..hi]
  }

  /** Serializing a page through the response model: the first campaign it
      rejects fails the whole page with that campaign's error. */
  function ValidatePage(page: seq<Campaign>): (r: Result<seq<Campaign>>)
    ensures r.Success? <==> forall k :: 0 <= k < |page| ==> ValidateResponse(page[k]).Success?
    ensures r.Success? ==> r.value == page
    ensures r.Failure? ==>
      exists k :: 0 <= k < |page| && ValidateResponse(page[k]) == Failure(r.error)
                  && forall j :: 0 <= j < k ==> ValidateResponse(page[j]).Success?
    decreases |page|
  {
    if page == [] then Success([])
    else match ValidateResponse(page[0])
      case Failure(e) =>
        assert ValidateResponse(page[0]) == Failure(e);
        Failure(e)
      case Success(c) =>
        var rest := ValidatePage(page[1..]);
        assert forall k :: 1 <= k < |page| ==> page[k] == page[1..][k - 1];
        match rest
        case Failure(e) =>
          var k :| 0 <= k < |page[1..]| && ValidateResponse(page[1..][k]) == Failure(e)
                   && forall j :: 0 <= j < k ==> ValidateResponse(page[1..][j]).Success?;
          assert ValidateResponse(page[k + 1]) == Failure(e);
          Failure(e)
        case Success(tail) =>
          assert [c] + tail == page;
          Success([c] + tail)
  }

  /** The listing endpoint: a page of campaigns, or the validation error of the
      first campaign on it that the response model rejects. */
  function GetCampaigns(cs: seq<Campaign>, advertiserId: AdvertiserId, size: nat, page: nat): (r: Result<seq<Campaign>>)
    requires size >= 1 && page >= 1
    ensures r.Success? <==> forall x :: x in ListingPage(cs, advertiserId, size, page) ==> ValidateResponse(x).Success?
    ensures r.Success? ==> r.value == ListingPage(cs, advertiserId, size, page)
    ensures r.Failure? ==> r.error.Invalid?
  {
    var p := ListingPage(cs, advertiserId, size, page);
    var r := ValidatePage(p);
    assert forall x :: x in p ==> exists k :: 0 <= k < |p| && p[k] == x;
    r
  }

  /** Pages 1 to `n` read one after another. */
  function PagesUpTo(cs: seq<Campaign>, advertiserId: AdvertiserId, size: nat, n: nat): seq<Campaign>
    requires size >= 1
  {
    if n == 0 then [] else PagesUpTo(cs, advertiserId, size, n - 1) + ListingPage(cs, advertiserId, size, n)
  }

  /** The prefix before page `n`, followed by page `n`, is the prefix through page `n`. */
  lemma PrefixThroughPage(all: seq<Campaign>, size: nat, n: nat)
    requires n >= 1
    ensures var lo, hi := Min(Offset(size, n), |all|), Min(Offset(size, n) + size, |all|);
            all[..lo] + all[lo..hi] == all[..Min(n * size, |all|)]
  {
    assert Offset(size, n) + size == n * size;
  }

  /** Reading page `n` after pages 1 to `n - 1`, which cover the first `(n - 1) * size`
      campaigns of the sorted listing, covers the first `n * size`. */
  lemma PageStep(cs: seq<Campaign>, advertiserId: AdvertiserId, size: nat, n: nat, all: seq<Campaign>)
    requires size >= 1 && n >= 1
    requires all == SortByStartDesc(OwnedCampaigns(cs, advertiserId))
    requires PagesUpTo(cs, advertiserId, size, n - 1) == all[..Min((n - 1) * size, |all|)]
    ensures PagesUpTo(cs, advertiserId, size, n) == all[..Min(n * size, |all|)]
  {
    assert Offset(size, n) == (n - 1) * size;
    PrefixThroughPage(all, size, n);
  }

  /** Pages 1 to `n` together are the first `n * size` campaigns of the sorted listing. */
  lemma {:induction false} PagesCoverListing(cs: seq<Campaign>, advertiserId: AdvertiserId, size: nat, n: nat)
    requires size >= 1
    ensures var all := SortByStartDesc(OwnedCampaigns(cs, advertiserId));
            PagesUpTo(cs, advertiserId, size, n) == all[..Min(n * size, |all|)]
  {
    if n == 0 {
      assert n * size == 0;
    } else {
      PagesCoverListing(cs, advertiserId, size, n - 1);
      PageStep(cs, advertiserId, size, n, SortByStartDesc(OwnedCampaigns(cs, advertiserId)));
    }
  }

  /** Enough pages list every campaign of the advertiser exactly once. */
  lemma PagesListEveryCampaignOnce(cs: seq<Campaign>, advertiserId: AdvertiserId, size: nat, n: nat)
    requires size >= 1 && n * size >= |OwnedCampaigns(cs, advertiserId)|
    ensures multiset(PagesUpTo(cs, advertiserId, size, n)) == multiset(OwnedCampaigns(cs, advertiserId))
  {
    var owned := OwnedCampaigns(cs, advertiserId);
    var all := SortByStartDesc(owned);
    assert |all| == |multiset(all)| == |multiset(owned)| == |owned|;
    assert Min(n * size, |all|) == |all|;
    calc {
      PagesUpTo(cs, advertiserId, size, n);
      { PagesCoverListing(cs, advertiserId, size, n); }
      all[..|all|];
      all;
    }
  }

  // ---------------------------------------------------------------- creation

  /** The campaign row built from a validated request; omitted targeting becomes all-unset. */
  function NewCampaign(id: CampaignId, advertiserId: AdvertiserId, input: CampaignCreate): (c: Campaign)
    requires ValidateCampaign(input).Success?
    ensures CampaignOk(c)
    ensures ValidateResponse(c) == Success(c)
    ensures c.id == id && c.advertiserId == advertiserId && !c.isDeleted
    ensures input.targeting.None? ==> c.targeting == Unrestricted
    ensures input.targeting.Some? ==> c.targeting == input.targeting.value
    ensures c.impressionsLimit == input.impressionsLimit && c.clicksLimit == input.clicksLimit
    ensures c.costPerImpression == input.costPerImpression && c.costPerClick == input.costPerClick
    ensures c.adTitle == input.adTitle && c.adText == input.adText
    ensures c.startDate == input.startDate && c.endDate == input.endDate && c.files == input.files
  {
    var targeting := if input.targeting.None? then Unrestricted else input.targeting.value;
    Campaign(id, advertiserId, input.impressionsLimit, input.clicksLimit,
             input.costPerImpression, input.costPerClick, input.adTitle, input.adText,
             input.startDate, input.endDate, false, input.files, targeting)
  }

  /** Creation under an existing advertiser. The fresh id is a parameter. */
  method CreateCampaign(db: Database, advertiserId: AdvertiserId, input: CampaignCreate, newId: CampaignId)
    returns (r: Result<Campaign>)
    requires db.Valid()
    requires ValidateCampaign(input).Success?
    requires !CampaignExists(db.campaigns, newId)
    modifies db`campaigns
    ensures db.Valid()
    ensures advertiserId !in db.advertisers ==>
              r == Failure(NotFound(NoAdvertiser)) && db.campaigns == old(db.campaigns)
    ensures advertiserId in db.advertisers ==>
              r == Success(NewCampaign(newId, advertiserId, input)) && db.campaigns == old(db.campaigns) + [r.value]
  {
    if advertiserId !in db.advertisers {
      return Failure(NotFound(NoAdvertiser));
    }
    var c := NewCampaign(newId, advertiserId, input);
    CampaignIdsKeptByAppend(db.campaigns, c);
    EventRefsKept(db.impressions, db.clients, db.clients, db.campaigns, db.campaigns + [c]);
    EventRefsKept(db.clicks, db.clients, db.clients, db.campaigns, db.campaigns + [c]);
    db.campaigns := db.campaigns + [c];
    r := Success(c);
  }

  // ---------------------------------------------------------------- update

  /** Rewriting a row in place with a valid campaign of the same id and owner
      keeps the campaign table's constraints. */
  lemma ReplaceKeepsRowsOk(cs: seq<Campaign>, advertisers: map<AdvertiserId, Advertiser>, i: nat, c: Campaign)
    requires i < |cs| && CampaignRowsOk(cs, advertisers)
    requires c.id == cs[i].id && c.advertiserId == cs[i].advertiserId && CampaignOk(c)
    ensures CampaignRowsOk(cs[i := c], advertisers)
  {
  }

  function PatchField<T>(old_: T, p: Patch<T>): T {
    if p.Set? then p.value else old_
  }

  /** Field-by-field merge of a targeting patch into the stored targeting. */
  function MergeTargeting(t: Targeting, p: TargetingPatch): (r: Targeting)
    ensures p.gender.Set? ==> r.gender == p.gender.value
    ensures p.gender.Keep? ==> r.gender == t.gender
    ensures p.ageFrom.Set? ==> r.ageFrom == p.ageFrom.value
    ensures p.ageFrom.Keep? ==> r.ageFrom == t.ageFrom
    ensures p.ageTo.Set? ==> r.ageTo == p.ageTo.value
    ensures p.ageTo.Keep? ==> r.ageTo == t.ageTo
    ensures p.location.Set? ==> r.location == p.location.value
    ensures p.location.Keep? ==> r.location == t.location
  {
    Targeting(PatchField(t.gender, p.gender), PatchField(t.ageFrom, p.ageFrom),
              PatchField(t.ageTo, p.ageTo), PatchField(t.location, p.location))
  }

  /** The campaign after an update: only the fields present in the request change;
      a present targeting is merged into the stored one. */
  function ApplyUpdate(c: Campaign, u: CampaignUpdate): (r: Campaign)
  {
    var targeting :=
      if u.targeting.Set? && u.targeting.value.Some? then MergeTargeting(c.targeting, u.targeting.value.value)
      else c.targeting;
    c.(costPerImpression := PatchField(c.costPerImpression, u.costPerImpression),
       costPerClick := PatchField(c.costPerClick, u.costPerClick),
       adTitle := PatchField(c.adTitle, u.adTitle),
       adText := PatchField(c.adText, u.adText),
       files := PatchField(c.files, u.files),
       targeting := targeting)
  }

  /** What an update can and cannot change: identity, owner, limits, dates and
      the deletion flag are those of the stored campaign; every present field takes
      the request's value and every absent one keeps its value; a valid update
      keeps the campaign within the stored-campaign rules. */
  lemma UpdateChangesOnlyRequestedFields(c: Campaign, u: CampaignUpdate)
    ensures var r := ApplyUpdate(c, u);
      && r.id == c.id && r.advertiserId == c.advertiserId && r.isDeleted == c.isDeleted
      && r.impressionsLimit == c.impressionsLimit && r.clicksLimit == c.clicksLimit
      && r.startDate == c.startDate && r.endDate == c.endDate
      && r.costPerImpression == (if u.costPerImpression.Set? then u.costPerImpression.value else c.costPerImpression)
      && r.costPerClick == (if u.costPerClick.Set? then u.costPerClick.value else c.costPerClick)
      && r.adTitle == (if u.adTitle.Set? then u.adTitle.value else c.adTitle)
      && r.adText == (if u.adText.Set? then u.adText.value else c.adText)
      && r.files == (if u.files.Set? then u.files.value else c.files)
      && (u.targeting.Keep? || u.targeting.value.None? ==> r.targeting == c.targeting)
    ensures CampaignOk(c) && ValidateUpdate(u).Success? ==> CampaignOk(ApplyUpdate(c, u))
  {
  }

  /** The patch is validated alone, so a merge can store an inverted age range. */
  lemma MergeCanInvertAgeRange()
    ensures var t := Targeting(None, Some(18), Some(35), None);
            var p := TargetingPatch(Keep, Set(Some(40)), Keep, Keep);
            && ValidateTargeting(t).Success?
            && ValidateTargeting(PatchAsTargeting(p)).Success?
            && ValidateTargeting(MergeTargeting(t, p)).Failure?
  {
  }

  /** The in-place edit of one campaign: each field present in the request is
      set, then each present targeting field is set on the stored targeting. */
  method PatchCampaign(stored: Campaign, u: CampaignUpdate) returns (c: Campaign)
    ensures c == ApplyUpdate(stored, u)
  {
    // the non-targeting fields present in the request, one by one
    var costPerImpression, costPerClick := stored.costPerImpression, stored.costPerClick;
    var adTitle, adText, files := stored.adTitle, stored.adText, stored.files;
    if u.costPerImpression.Set? { costPerImpression := u.costPerImpression.value; }
    if u.costPerClick.Set? { costPerClick := u.costPerClick.value; }
    if u.adTitle.Set? { adTitle := u.adTitle.value; }
    if u.adText.Set? { adText := u.adText.value; }
    if u.files.Set? { files := u.files.value; }
    assert costPerImpression == PatchField(stored.costPerImpression, u.costPerImpression);
    assert costPerClick == PatchField(stored.costPerClick, u.costPerClick);
    assert adTitle == PatchField(stored.adTitle, u.adTitle);
    assert adText == PatchField(stored.adText, u.adText);
    assert files == PatchField(stored.files, u.files);
    // the targeting fields present in the request, merged one by one
    var t := stored.targeting;
    if u.targeting.Set? && u.targeting.value.Some? {
      var p := u.targeting.value.value;
      var gender, ageFrom, ageTo, location := t.gender, t.ageFrom, t.ageTo, t.location;
      if p.gender.Set? { gender := p.gender.value; }
      if p.ageFrom.Set? { ageFrom := p.ageFrom.value; }
      if p.ageTo.Set? { ageTo := p.ageTo.value; }
      if p.location.Set? { location := p.location.value; }
      t := Targeting(gender, ageFrom, ageTo, location);
      assert t == MergeTargeting(stored.targeting, p);
    }
    c := stored.(costPerImpression := costPerImpression, costPerClick := costPerClick,
                 adTitle := adTitle, adText := adText, files := files, targeting := t);
  }

  /** The partial update of a live campaign owned by `advertiserId`. The edited row
      is written first and then read back through the response model, so an update
      that empties a text or inverts the age range is stored and still reported as
      a validation error. */
  method UpdateCampaign(db: Database, id: CampaignId, advertiserId: AdvertiserId, u: CampaignUpdate)
    returns (r: Result<Campaign>)
    requires db.Valid()
    requires ValidateUpdate(u).Success?
    modifies db`campaigns
    ensures db.Valid()
    ensures GetCampaignById(old(db.campaigns), id, Some(advertiserId)).Failure? ==>
              r == Failure(NotFound(NoCampaign)) && db.campaigns == old(db.campaigns)
    ensures GetCampaignById(old(db.campaigns), id, Some(advertiserId)).Success? ==>
              var i := IndexOfCampaign(old(db.campaigns), id).value;
              var c := ApplyUpdate(old(db.campaigns)[i], u);
              && db.campaigns == old(db.campaigns)[i := c]
              && r == ValidateResponse(c)
  {
    var found := GetCampaignById(db.campaigns, id, Some(advertiserId));
    if found.Failure? {
      return Failure(found.error);
    }
    var i := IndexOfCampaign(db.campaigns, id).value;
    var c := PatchCampaign(db.campaigns[i], u);
    UpdateChangesOnlyRequestedFields(db.campaigns[i], u);
    ReplaceKeepsRowsOk(db.campaigns, db.advertisers, i, c);
    CampaignIdsKeptByReplace(db.campaigns, i, c);
    EventRefsKept(db.impressions, db.clients, db.clients, db.campaigns, db.campaigns[i := c]);
    EventRefsKept(db.clicks, db.clients, db.clients, db.campaigns, db.campaigns[i := c]);
    db.campaigns := db.campaigns[i := c];
    // the response model checks the row only after it is written
    r := ValidateResponse(c);
  }

  // ---------------------------------------------------------------- deletion

  /** The soft delete of a live campaign owned by `advertiserId`: only the flag changes. */
  method DeleteCampaign(db: Database, id: CampaignId, advertiserId: AdvertiserId) returns (r: Result<()>)
    requires db.Valid()
    modifies db`campaigns
    ensures db.Valid()
    ensures GetCampaignById(old(db.campaigns), id, Some(advertiserId)).Failure? ==>
              r == Failure(NotFound(NoCampaign)) && db.campaigns == old(db.campaigns)
    ensures GetCampaignById(old(db.campaigns), id, Some(advertiserId)).Success? ==>
              var i := IndexOfCampaign(old(db.campaigns), id).value;
              && r == Success(())
              && db.campaigns == old(db.campaigns)[i := old(db.campaigns)[i].(isDeleted := true)]
  {
    var found := GetCampaignById(db.campaigns, id, Some(advertiserId));
    if found.Failure? {
      return Failure(found.error);
    }
    // the lookup only returns live campaigns, so the "already deleted" branch cannot run
    var i := IndexOfCampaign(db.campaigns, id).value;
    var c := db.campaigns[i].(isDeleted := true);
    ReplaceKeepsRowsOk(db.campaigns, db.advertisers, i, c);
    CampaignIdsKeptByReplace(db.campaigns, i, c);
    EventRefsKept(db.impressions, db.clients, db.clients, db.campaigns, db.campaigns[i := c]);
    EventRefsKept(db.clicks, db.clients, db.clients, db.campaigns, db.campaigns[i := c]);
    db.campaigns := db.campaigns[i := c];
    r := Success(());
  }

  /** Once deleted, a campaign is not found by any lookup, whatever the owner filter;
      so reading, updating or deleting it again all fail with "campaign not found". */
  lemma DeletedCampaignIsNotFound(cs: seq<Campaign>, i: nat, owner: Option<AdvertiserId>)
    requires CampaignIdsUnique(cs) && i < |cs|
    ensures GetCampaignById(cs[i := cs[i].(isDeleted := true)], cs[i].id, owner) == Failure(NotFound(NoCampaign))
  {
    var cs' := cs[i := cs[i].(isDeleted := true)];
    assert cs'[i].id == cs[i].id;
    assert CampaignIdsUnique(cs');
  }
}
