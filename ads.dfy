/** The ad selector and the click recorder: eligibility, ranking, the
    impression log and the guarded click insert. */
module Ads {
  import opened Common
  import opened CampaignSchemas
  import opened Models
  import opened Store
  import opened Scores
  import Clock
  import Campaigns

  /** The ad-facing projection of the winning campaign. */
  datatype Ad = Ad(adId: CampaignId, adTitle: string, adText: string, advertiserId: AdvertiserId)

  function AdOf(c: Campaign): (a: Ad)
    ensures a.adId == c.id && a.adTitle == c.adTitle && a.adText == c.adText && a.advertiserId == c.advertiserId
  {
    Ad(c.id, c.adTitle, c.adText, c.advertiserId)
  }

  /** Everything the selection reads besides the campaigns: the client, today,
      the two event tables and the score table. */
  datatype Viewing = Viewing(
    client: Client,
    today: int,
    impressions: seq<Event>,
    clicks: seq<Event>,
    scores: seq<ScoreRow>)

  // ---------------------------------------------------------------- eligibility

  /** The number of rows of a table for one campaign, over all clients and dates. */
  function CountFor(rows: seq<Event>, campaignId: CampaignId): (n: nat)
    ensures n <= |rows|
    ensures n == 0 <==> forall i :: 0 <= i < |rows| ==> rows[i].campaignId != campaignId
  {
    if rows == [] then 0
    else (if rows[0].campaignId == campaignId then 1 else 0) + CountFor(rows[1..], campaignId)
  }

  predicate GenderMatches(g: Option<ExtendedGender>, clientGender: Gender) {
    g.None? || g.value == AllGenders || g.value == Exactly(clientGender)
  }

  predicate AgeMatches(t: Targeting, age: int) {
    (t.ageFrom.None? || t.ageFrom.value <= age) && (t.ageTo.None? || t.ageTo.value >= age)
  }

  predicate LocationMatches(l: Option<string>, location: string) {
    l.None? || l.value == location
  }

  predicate TargetingMatches(t: Targeting, client: Client) {
    GenderMatches(t.gender, client.gender) && AgeMatches(t, client.age) && LocationMatches(t.location, client.location)
  }

  predicate Active(c: Campaign, today: int) {
    c.startDate <= today <= c.endDate
  }

  /** Both caps are still unmet: fewer clicks than the click limit and fewer
      impressions than the impression limit, counted over all clients. */
  predicate UnderLimits(c: Campaign, impressions: seq<Event>, clicks: seq<Event>) {
    CountFor(clicks, c.id) < c.clicksLimit && CountFor(impressions, c.id) < c.impressionsLimit
  }

  predicate Eligible(v: Viewing, c: Campaign) {
    && !c.isDeleted
    && Active(c, v.today)
    && TargetingMatches(c.targeting, v.client)
    && UnderLimits(c, v.impressions, v.clicks)
  }

  // ---------------------------------------------------------------- ranking

  /** A score over the maximum score lies in [0, 1]. */
  lemma ScoreRatioBounded(s: nat, m: nat)
    requires 0 < m && s <= m
    ensures 0.0 <= (s as real) / (m as real) <= 1.0
  {
    var q := (s as real) / (m as real);
    assert q * (m as real) == s as real;
  }

  /** The client's score for the campaign's advertiser divided by the largest score
      in the whole table; 0 without a score row (and, where the database would
      divide by zero, when the largest score is 0). */
  function Relevance(v: Viewing, c: Campaign): (r: real)
    ensures 0.0 <= r <= 1.0
    ensures ScoreOf(v.scores, v.client.id, c.advertiserId).None? ==> r == 0.0
    ensures v.scores == [] ==> r == 0.0
  {
    match ScoreOf(v.scores, v.client.id, c.advertiserId)
    case None => 0.0
    case Some(s) =>
      var m := MaxScore(v.scores);
      if m == 0 then 0.0
      else
        assert s <= m;
        ScoreRatioBounded(s, m);
        (s as real) / (m as real)
  }

  /** The ordering key: the impression price unless this client has already seen
      the campaign, plus the click price (unless already clicked) weighted by relevance. */
  function RankKey(v: Viewing, c: Campaign): real {
    (if HasEvent(v.impressions, v.client.id, c.id) then 0.0 else c.costPerImpression)
    + (if HasEvent(v.clicks, v.client.id, c.id) then 0.0 else c.costPerClick) * Relevance(v, c)
  }

  /** With no score rows at all the click term vanishes and only the impression term ranks. */
  lemma NoScoresRankByImpressionTerm(v: Viewing, c: Campaign)
    requires v.scores == []
    ensures RankKey(v, c) == if HasEvent(v.impressions, v.client.id, c.id) then 0.0 else c.costPerImpression
  {
  }

  /** The first admitted position whose key no admitted position exceeds: a
      later position replaces the one held only with a strictly greater key. */
  function FirstBest(admitted: seq<bool>, keys: seq<real>): (r: Option<nat>)
    requires |admitted| == |keys|
    ensures r.None? <==> forall i :: 0 <= i < |keys| ==> !admitted[i]
    ensures r.Some? ==> r.value < |keys| && admitted[r.value]
    ensures r.Some? ==> forall i :: 0 <= i < |keys| && admitted[i] ==> keys[i] <= keys[r.value]
    ensures r.Some? ==> forall i :: 0 <= i < r.value && admitted[i] ==> keys[i] < keys[r.value]
    decreases |keys|
  {
    if keys == [] then None
    else
      var last := |keys| - 1;
      var rest := FirstBest(admitted[..last], keys[..last]);
      assert forall i :: 0 <= i < last ==> admitted[..last][i] == admitted[i] && keys[..last][i] == keys[i];
      if !admitted[last] then rest
      else if rest.None? then Some(last)
      else if keys[last] > keys[rest.value] then Some(last)
      else rest
  }

  /** The eligible campaign of maximal key, the first one in table order among equals. */
  function Best(v: Viewing, cs: seq<Campaign>): (r: Option<nat>)
    ensures r.None? <==> forall i :: 0 <= i < |cs| ==> !Eligible(v, cs[i])
    ensures r.Some? ==> r.value < |cs| && Eligible(v, cs[r.value])
    ensures r.Some? ==> forall i :: 0 <= i < |cs| && Eligible(v, cs[i]) ==> RankKey(v, cs[i]) <= RankKey(v, cs[r.value])
  {
    var admitted := seq(|cs|, i requires 0 <= i < |cs| => Eligible(v, cs[i]));
    var keys := seq(|cs|, i requires 0 <= i < |cs| => RankKey(v, cs[i]));
    var r := FirstBest(admitted, keys);
    assert forall i :: 0 <= i < |cs| ==> admitted[i] == Eligible(v, cs[i]) && keys[i] == RankKey(v, cs[i]);
    r
  }

  /** The selection decision: the client must exist and the clock must be set;
      then the winner is an eligible campaign of maximal key, or there is none. */
  function ChooseCampaign(
    clients: map<ClientId, Client>, campaigns: seq<Campaign>, scores: seq<ScoreRow>,
    date: Option<int>, impressions: seq<Event>, clicks: seq<Event>, clientId: ClientId): (r: Result<Campaign>)
    ensures clientId !in clients ==> r == Failure(NotFound(NoClient))
    ensures clientId in clients && date.None? ==> r == Failure(NotFound(NoCurrentDate))
    ensures clientId in clients && date.Some? ==>
      var v := Viewing(clients[clientId], date.value, impressions, clicks, scores);
      && (r.Success? ==>
            && r.value in campaigns
            && Eligible(v, r.value)
            && forall c :: c in campaigns && Eligible(v, c) ==> RankKey(v, c) <= RankKey(v, r.value))
      && (r.Failure? ==>
            r.error == NotFound(NoMatchingAd) && forall c :: c in campaigns ==> !Eligible(v, c))
  {
    if clientId !in clients then Failure(NotFound(NoClient))
    else match Clock.CurrentDate(date)
      case Failure(e) => Failure(e)
      case Success(today) =>
        var v := Viewing(clients[clientId], today, impressions, clicks, scores);
        match Best(v, campaigns)
        case None => Failure(NotFound(NoMatchingAd))
        case Some(i) => Success(campaigns[i])
  }

  /** A campaign that has reached either cap is never chosen, for any client. */
  lemma ExhaustedCampaignNeverChosen(
    clients: map<ClientId, Client>, campaigns: seq<Campaign>, scores: seq<ScoreRow>,
    date: Option<int>, impressions: seq<Event>, clicks: seq<Event>, clientId: ClientId, c: Campaign)
    requires CountFor(clicks, c.id) >= c.clicksLimit || CountFor(impressions, c.id) >= c.impressionsLimit
    ensures ChooseCampaign(clients, campaigns, scores, date, impressions, clicks, clientId) != Success(c)
  {
  }

  /** A table of one campaign: it is chosen whenever it is eligible. */
  lemma OnlyCampaignChosen(clients: map<ClientId, Client>, c: Campaign, impressions: seq<Event>, today: int, clientId: ClientId)
    requires clientId in clients && Eligible(Viewing(clients[clientId], today, impressions, [], []), c)
    ensures ChooseCampaign(clients, [c], [], Some(today), impressions, [], clientId) == Success(c)
  {
    assert c in [c];
  }

  /** A range ending at age 0 that the validator lets through (age_from > 0)
      matches no client at all. */
  lemma InvertedZeroRangeMatchesNobody(t: Targeting, client: Client)
    requires t.ageTo == Some(0) && t.ageFrom.Some? && t.ageFrom.value > 0
    ensures !TargetingMatches(t, client)
  {
  }

  // ---------------------------------------------------------------- impressions

  predicate SameKey(a: Event, b: Event) {
    a.clientId == b.clientId && a.campaignId == b.campaignId && a.date == b.date
  }

  predicate KeyPresent(rows: seq<Event>, e: Event) {
    exists i :: 0 <= i < |rows| && SameKey(rows[i], e)
  }

  /** `INSERT ... ON CONFLICT DO NOTHING` as it would act if (client, campaign, date)
      were the impression table's whole key: the insert the impression log is
      meant to perform. */
  function InsertIgnore(rows: seq<Event>, e: Event): seq<Event> {
    if KeyPresent(rows, e) then rows else rows + [e]
  }

  /** After the insert the key is present; an existing key leaves the table as it
      was (no duplicate, no re-charge); a new key adds exactly the given row;
      the table still has one row per key. */
  lemma InsertIgnoreCorrect(rows: seq<Event>, e: Event)
    requires EventKeysUnique(rows)
    ensures KeyPresent(InsertIgnore(rows, e), e)
    ensures KeyPresent(rows, e) ==> InsertIgnore(rows, e) == rows
    ensures !KeyPresent(rows, e) ==> InsertIgnore(rows, e) == rows + [e]
    ensures EventKeysUnique(InsertIgnore(rows, e))
    ensures forall i :: 0 <= i < |rows| ==> InsertIgnore(rows, e)[i] == rows[i]
  {
    if !KeyPresent(rows, e) {
      assert SameKey(InsertIgnore(rows, e)[|rows|], e);
    }
  }

  /** The intended deduplication is per day: the same client and campaign on
      another day gets a second impression row, and the campaign's count grows. */
  lemma ImpressionRepeatsOnAnotherDay(rows: seq<Event>, e: Event)
    requires !KeyPresent(rows, e)
    ensures |InsertIgnore(rows, e)| == |rows| + 1
    ensures CountFor(InsertIgnore(rows, e), e.campaignId) == CountFor(rows, e.campaignId) + 1
  {
    CountAppend(rows, e, e.campaignId);
  }

  lemma {:induction false} CountAppend(rows: seq<Event>, e: Event, id: CampaignId)
    ensures CountFor(rows + [e], id) == CountFor(rows, id) + if e.campaignId == id then 1 else 0
  {
    if rows != [] {
      assert (rows + [e])[1..] == rows[1..] + [e];
      CountAppend(rows[1..], e, id);
    }
  }

  /** The intended insert keeps the ledger invariant together with one impression
      row per (client, campaign, date). */
  lemma InsertIgnoreKeepsLedger(impressions: seq<Event>, clicks: seq<Event>, e: Event)
    requires LedgerOk(impressions, clicks) && EventKeysUnique(impressions) && e.cost >= 0.0
    ensures LedgerOk(InsertIgnore(impressions, e), clicks)
    ensures EventKeysUnique(InsertIgnore(impressions, e))
  {
    InsertIgnoreCorrect(impressions, e);
    if !KeyPresent(impressions, e) {
      AppendKeepsLedger(impressions, clicks, e);
    }
  }

  /** Appending an impression at a non-negative price keeps the ledger invariant. */
  lemma AppendKeepsLedger(impressions: seq<Event>, clicks: seq<Event>, e: Event)
    requires LedgerOk(impressions, clicks) && e.cost >= 0.0
    ensures LedgerOk(impressions + [e], clicks)
  {
    var r := impressions + [e];
    forall i | 0 <= i < |clicks|
      ensures HasEvent(r, clicks[i].clientId, clicks[i].campaignId)
    {
      var j :| 0 <= j < |impressions| && impressions[j].clientId == clicks[i].clientId
               && impressions[j].campaignId == clicks[i].campaignId;
      assert r[j] == impressions[j];
    }
  }

  /** The impression insert. Every row also carries a fresh surrogate id in its
      primary key, so the conflict clause never fires and the row is always added. */
  method LogImpression(db: Database, clientId: ClientId, campaignId: CampaignId, cost: real, date: int)
    requires db.Valid() && cost >= 0.0
    requires clientId in db.clients && CampaignExists(db.campaigns, campaignId)
    modifies db`impressions
    ensures db.Valid()
    ensures db.impressions == old(db.impressions) + [Event(clientId, campaignId, date, cost)]
  {
    var e := Event(clientId, campaignId, date, cost);
    AppendKeepsLedger(db.impressions, db.clicks, e);
    EventRefsAppend(db.impressions, e, db.clients, db.campaigns);
    db.impressions := db.impressions + [e];
  }

  /** A client shown the same campaign twice on one day gets two impression rows
      for one (client, campaign, date), and the campaign is charged twice, where
      the intended insert-if-absent keeps one. With a single campaign that the
      client matches and an impression cap of at least 2, the second selection
      of the day picks the campaign again. */
  lemma SameDaySelectionLogsTwice(clients: map<ClientId, Client>, c: Campaign, today: int, clientId: ClientId)
    requires clientId in clients && Eligible(Viewing(clients[clientId], today, [], [], []), c)
    requires c.impressionsLimit >= 2
    ensures var e := Event(clientId, c.id, today, c.costPerImpression);
            && ChooseCampaign(clients, [c], [], Some(today), [], [], clientId) == Success(c)
            && ChooseCampaign(clients, [c], [], Some(today), [e], [], clientId) == Success(c)
            && !EventKeysUnique([e] + [e])
            && CountFor([e] + [e], c.id) == 2
            && InsertIgnore(InsertIgnore([], e), e) == [e]
  {
    var e := Event(clientId, c.id, today, c.costPerImpression);
    OnlyCampaignChosen(clients, c, [], today, clientId);
    assert CountFor([e], c.id) == 1;
    OnlyCampaignChosen(clients, c, [e], today, clientId);
    assert KeyPresent([e], e) by { assert SameKey([e][0], e); }
    CountAppend([e], e, c.id);
  }

  /** Ad selection: picks the winner, logs its impression for today at its
      impression price, and returns its projection. Any failure leaves the
      impression table untouched. */
  method GetAd(db: Database, clientId: ClientId) returns (r: Result<Ad>)
    requires db.Valid()
    modifies db`impressions
    ensures db.Valid()
    ensures var choice := ChooseCampaign(db.clients, db.campaigns, db.scores, db.currentDate,
                                         old(db.impressions), db.clicks, clientId);
      && (choice.Failure? ==> r == Failure(choice.error) && db.impressions == old(db.impressions))
      && (choice.Success? ==>
            && r == Success(AdOf(choice.value))
            && db.impressions == old(db.impressions)
                 + [Event(clientId, choice.value.id, db.currentDate.value, choice.value.costPerImpression)])
  {
    var choice := ChooseCampaign(db.clients, db.campaigns, db.scores, db.currentDate,
                                 db.impressions, db.clicks, clientId);
    if choice.Failure? {
      return Failure(choice.error);
    }
    var winner := choice.value;
    assert CampaignOk(winner);
    assert CampaignExists(db.campaigns, winner.id) by {
      var i :| 0 <= i < |db.campaigns| && db.campaigns[i] == winner;
    }
    LogImpression(db, clientId, winner.id, winner.costPerImpression, db.currentDate.value);
    r := Success(AdOf(winner));
  }

  // ---------------------------------------------------------------- clicks

  /** The click table after a click callback, or the client-lookup or clock error.
      A missing or deleted campaign, a pair never shown, or a pair already clicked
      (on any date) leaves the table as it was. */
  function RecordClick(
    clients: map<ClientId, Client>, campaigns: seq<Campaign>, date: Option<int>,
    impressions: seq<Event>, clicks: seq<Event>, adId: CampaignId, clientId: ClientId): (r: Result<seq<Event>>)
  {
    if clientId !in clients then Failure(NotFound(NoClient))
    else match Campaigns.GetCampaignById(campaigns, adId, None)
      case Failure(_) => Success(clicks)
      case Success(campaign) =>
        if !HasEvent(impressions, clientId, adId) then Success(clicks)
        else if HasEvent(clicks, clientId, adId) then Success(clicks)
        else match Clock.CurrentDate(date)
          case Failure(e) => Failure(e)
          case Success(today) => Success(clicks + [Event(clientId, adId, today, campaign.costPerClick)])
  }

  /** What a click does: it fails only for an unknown client (or an unset clock);
      it is a no-op for a missing or deleted campaign, an unseen pair or a pair
      already clicked; otherwise it appends exactly one row dated today and
      priced at the campaign's current click price. */
  lemma RecordClickOutcome(
    clients: map<ClientId, Client>, campaigns: seq<Campaign>, date: Option<int>,
    impressions: seq<Event>, clicks: seq<Event>, adId: CampaignId, clientId: ClientId)
    requires CampaignIdsUnique(campaigns)
    ensures var r := RecordClick(clients, campaigns, date, impressions, clicks, adId, clientId);
      && (clientId !in clients ==> r == Failure(NotFound(NoClient)))
      && ((clientId in clients && forall i :: 0 <= i < |campaigns| && campaigns[i].id == adId ==> campaigns[i].isDeleted)
            ==> r == Success(clicks))
      && (clientId in clients && !HasEvent(impressions, clientId, adId) ==> r == Success(clicks))
      && (clientId in clients && HasEvent(clicks, clientId, adId) ==> r == Success(clicks))
      && (forall i :: (0 <= i < |campaigns| && campaigns[i].id == adId && !campaigns[i].isDeleted
                       && clientId in clients && HasEvent(impressions, clientId, adId)
                       && !HasEvent(clicks, clientId, adId) && date.Some?) ==>
              r == Success(clicks + [Event(clientId, adId, date.value, campaigns[i].costPerClick)]))
  {
  }

  /** Replaying a click is a no-op: the second call leaves the table as the first made it. */
  lemma RecordClickIdempotent(
    clients: map<ClientId, Client>, campaigns: seq<Campaign>, date: Option<int>,
    impressions: seq<Event>, clicks: seq<Event>, adId: CampaignId, clientId: ClientId)
    requires RecordClick(clients, campaigns, date, impressions, clicks, adId, clientId).Success?
    ensures var once := RecordClick(clients, campaigns, date, impressions, clicks, adId, clientId).value;
            RecordClick(clients, campaigns, date, impressions, once, adId, clientId) == Success(once)
  {
    var once := RecordClick(clients, campaigns, date, impressions, clicks, adId, clientId).value;
    if once != clicks {
      var e := once[|clicks|];
      assert e.clientId == clientId && e.campaignId == adId;
      assert HasEvent(once, clientId, adId);
    }
  }

  /** A recorded click keeps the ledger invariant: one click per pair ever,
      every click backed by an impression, non-negative prices. */
  lemma RecordClickKeepsLedger(
    clients: map<ClientId, Client>, campaigns: seq<Campaign>, date: Option<int>,
    impressions: seq<Event>, clicks: seq<Event>, adId: CampaignId, clientId: ClientId)
    requires LedgerOk(impressions, clicks)
    requires forall i :: 0 <= i < |campaigns| ==> CampaignOk(campaigns[i])
    requires RecordClick(clients, campaigns, date, impressions, clicks, adId, clientId).Success?
    ensures LedgerOk(impressions, RecordClick(clients, campaigns, date, impressions, clicks, adId, clientId).value)
  {
    var r := RecordClick(clients, campaigns, date, impressions, clicks, adId, clientId).value;
    if r != clicks {
      var e := r[|clicks|];
      assert forall i :: 0 <= i < |clicks| ==> r[i] == clicks[i];
      assert !HasEvent(clicks, clientId, adId);
      assert e.clientId == clientId && e.campaignId == adId;
    }
  }

  /** The click callback. */
  method ClickAd(db: Database, adId: CampaignId, clientId: ClientId) returns (r: Result<()>)
    requires db.Valid()
    modifies db`clicks
    ensures db.Valid()
    ensures var outcome := RecordClick(db.clients, db.campaigns, db.currentDate, db.impressions,
                                       old(db.clicks), adId, clientId);
      && (outcome.Failure? ==> r == Failure(outcome.error) && db.clicks == old(db.clicks))
      && (outcome.Success? ==> r == Success(()) && db.clicks == outcome.value)
  {
    if clientId !in db.clients {
      return Failure(NotFound(NoClient));
    }
    var found := Campaigns.GetCampaignById(db.campaigns, adId, None);
    if found.Failure? {
      return Success(());
    }
    var campaign := found.value;
    if !HasEvent(db.impressions, clientId, adId) {
      return Success(());
    }
    if HasEvent(db.clicks, clientId, adId) {
      return Success(());
    }
    var today := Clock.CurrentDate(db.currentDate);
    if today.Failure? {
      return Failure(today.error);
    }
    RecordClickKeepsLedger(db.clients, db.campaigns, db.currentDate, db.impressions, db.clicks, adId, clientId);
    EventRefsAppend(db.clicks, Event(clientId, adId, today.value, campaign.costPerClick), db.clients, db.campaigns);
    db.clicks := db.clicks + [Event(clientId, adId, today.value, campaign.costPerClick)];
    r := Success(());
  }
}
