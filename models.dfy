/** The persisted entities: clients, advertisers, campaigns (each owning its
    targeting), relevance-score rows and the rows of the two event tables. */
module Models {
  import opened Common
  import opened CampaignSchemas

  datatype Client = Client(id: ClientId, login: string, age: int, location: string, gender: Gender)

  /** The client field constraints: non-empty login and location, non-negative age. */
  predicate ClientOk(c: Client) {
    |c.login| >= 1 && c.age >= 0 && |c.location| >= 1
  }

  datatype Advertiser = Advertiser(id: AdvertiserId, name: string)

  predicate AdvertiserOk(a: Advertiser) {
    |a.name| >= 1
  }

  /** A campaign row together with the targeting row it owns one-to-one. */
  datatype Campaign = Campaign(
    id: CampaignId,
    advertiserId: AdvertiserId,
    impressionsLimit: int,
    clicksLimit: int,
    costPerImpression: real,
    costPerClick: real,
    adTitle: string,
    adText: string,
    startDate: int,
    endDate: int,
    isDeleted: bool,
    files: Option<seq<string>>,
    targeting: Targeting)

  /** What every stored campaign satisfies: the creation rules that an update cannot undo. */
  predicate CampaignOk(c: Campaign) {
    && 0 <= c.clicksLimit <= c.impressionsLimit
    && 0 <= c.startDate <= c.endDate
    && c.costPerImpression >= 0.0 && c.costPerClick >= 0.0
    && TargetingFieldsOk(c.targeting)
  }

  /** A row of the impression table or of the click table: who, which campaign,
      which day, and the price charged then. */
  datatype Event = Event(clientId: ClientId, campaignId: CampaignId, date: int, cost: real)

  /** A relevance score for a (client, advertiser) pair. */
  datatype ScoreRow = ScoreRow(clientId: ClientId, advertiserId: AdvertiserId, score: nat)

  /** The position of the campaign with this id in table order, if any. */
  function IndexOfCampaign(cs: seq<Campaign>, id: CampaignId): (r: Option<nat>)
    ensures r.Some? ==> r.value < |cs| && cs[r.value].id == id
    ensures r.Some? ==> forall j :: 0 <= j < r.value ==> cs[j].id != id
    ensures r.None? ==> forall j :: 0 <= j < |cs| ==> cs[j].id != id
  {
    if cs == [] then None
    else if cs[0].id == id then Some(0)
    else match IndexOfCampaign(cs[1..], id)
      case None => None
      case Some(k) => Some(k + 1)
  }

  predicate CampaignIdsUnique(cs: seq<Campaign>) {
    forall i, j :: 0 <= i < j < |cs| ==> cs[i].id != cs[j].id
  }

  predicate CampaignExists(cs: seq<Campaign>, id: CampaignId) {
    exists i :: 0 <= i < |cs| && cs[i].id == id
  }

  /** At most one row per (client, campaign, date). */
  predicate EventKeysUnique(rows: seq<Event>) {
    forall i, j :: 0 <= i < j < |rows| ==>
      (rows[i].clientId, rows[i].campaignId, rows[i].date) != (rows[j].clientId, rows[j].campaignId, rows[j].date)
  }

  /** At most one click row per (client, campaign), whatever its date. */
  predicate PairsUnique(rows: seq<Event>) {
    forall i, j :: 0 <= i < j < |rows| ==>
      (rows[i].clientId, rows[i].campaignId) != (rows[j].clientId, rows[j].campaignId)
  }

  /** Some row of the table belongs to this (client, campaign) pair, on any date. */
  predicate HasEvent(rows: seq<Event>, clientId: ClientId, campaignId: CampaignId) {
    exists i :: 0 <= i < |rows| && rows[i].clientId == clientId && rows[i].campaignId == campaignId
  }

  /** The invariant of the event ledger. */
  predicate LedgerOk(impressions: seq<Event>, clicks: seq<Event>) {
    && PairsUnique(clicks)
    && (forall i :: 0 <= i < |clicks| ==> HasEvent(impressions, clicks[i].clientId, clicks[i].campaignId))
    && (forall i :: 0 <= i < |impressions| ==> impressions[i].cost >= 0.0)
    && (forall i :: 0 <= i < |clicks| ==> clicks[i].cost >= 0.0)
  }

  /** Unique pairs imply unique (pair, date) keys: a click table with one row per
      pair also has one row per (client, campaign, date). */
  lemma PairsUniqueGivesKeysUnique(rows: seq<Event>)
    requires PairsUnique(rows)
    ensures EventKeysUnique(rows)
  {
  }

  predicate ScorePairsUnique(rows: seq<ScoreRow>) {
    forall i, j :: 0 <= i < j < |rows| ==>
      (rows[i].clientId, rows[i].advertiserId) != (rows[j].clientId, rows[j].advertiserId)
  }
}
