/** The relational store the backend works against, as one object whose fields
    are its tables. Every operation is atomic and runs alone. */
module Store {
  import opened Common
  import opened Models

  /** The constraints on the campaign table: unique ids, the stored-campaign
      rules, and every campaign's advertiser present. */
  predicate CampaignRowsOk(campaigns: seq<Campaign>, advertisers: map<AdvertiserId, Advertiser>) {
    && CampaignIdsUnique(campaigns)
    && (forall i :: 0 <= i < |campaigns| ==> CampaignOk(campaigns[i]))
    && (forall i :: 0 <= i < |campaigns| ==> campaigns[i].advertiserId in advertisers)
  }

  /** The foreign keys of an event table: every row names an existing client
      and an existing campaign row. */
  predicate EventRefsOk(rows: seq<Event>, clients: map<ClientId, Client>, campaigns: seq<Campaign>) {
    forall i :: 0 <= i < |rows| ==> rows[i].clientId in clients && CampaignExists(campaigns, rows[i].campaignId)
  }

  /** The foreign keys of the score table: every row names an existing client
      and an existing advertiser. */
  predicate ScoreRefsOk(scores: seq<ScoreRow>, clients: map<ClientId, Client>, advertisers: map<AdvertiserId, Advertiser>) {
    forall i :: 0 <= i < |scores| ==> scores[i].clientId in clients && scores[i].advertiserId in advertisers
  }

  /** Event references survive any change that removes no client and no campaign id. */
  lemma EventRefsKept(rows: seq<Event>, clients: map<ClientId, Client>, clients': map<ClientId, Client>,
                      campaigns: seq<Campaign>, campaigns': seq<Campaign>)
    requires EventRefsOk(rows, clients, campaigns)
    requires clients.Keys <= clients'.Keys
    requires forall id :: CampaignExists(campaigns, id) ==> CampaignExists(campaigns', id)
    ensures EventRefsOk(rows, clients', campaigns')
  {
  }

  /** An appended event row that names an existing client and campaign keeps the references valid. */
  lemma EventRefsAppend(rows: seq<Event>, e: Event, clients: map<ClientId, Client>, campaigns: seq<Campaign>)
    requires EventRefsOk(rows, clients, campaigns)
    requires e.clientId in clients && CampaignExists(campaigns, e.campaignId)
    ensures EventRefsOk(rows + [e], clients, campaigns)
  {
  }

  /** Rewriting one campaign row without changing its id keeps every campaign id present. */
  lemma CampaignIdsKeptByReplace(cs: seq<Campaign>, i: nat, c: Campaign)
    requires i < |cs| && c.id == cs[i].id
    ensures forall id :: CampaignExists(cs, id) ==> CampaignExists(cs[i := c], id)
  {
    forall id | CampaignExists(cs, id)
      ensures CampaignExists(cs[i := c], id)
    {
      var j :| 0 <= j < |cs| && cs[j].id == id;
      assert cs[i := c][j].id == id;
    }
  }

  /** Appending a campaign row keeps every campaign id present. */
  lemma CampaignIdsKeptByAppend(cs: seq<Campaign>, c: Campaign)
    ensures forall id :: CampaignExists(cs, id) ==> CampaignExists(cs + [c], id)
    ensures CampaignExists(cs + [c], c.id)
  {
    forall id | CampaignExists(cs, id)
      ensures CampaignExists(cs + [c], id)
    {
      var j :| 0 <= j < |cs| && cs[j].id == id;
      assert (cs + [c])[j].id == id;
    }
    assert (cs + [c])[|cs|].id == c.id;
  }

  class Database {
    var clients: map<ClientId, Client>
    var advertisers: map<AdvertiserId, Advertiser>
    /** Campaign rows (each with its targeting), in storage order. */
    var campaigns: seq<Campaign>
    /** Relevance-score rows. */
    var scores: seq<ScoreRow>
    /** The single current-date row, absent until the clock is first set. */
    var currentDate: Option<int>
    var impressions: seq<Event>
    var clicks: seq<Event>

    /** The integrity constraints of the tables: primary keys, unique constraints,
        the foreign keys from campaigns, events and scores, and the ledger
        invariant the operations maintain. */
    ghost predicate Valid()
      reads this
    {
      && (forall k :: k in clients ==> clients[k].id == k && ClientOk(clients[k]))
      && (forall k :: k in advertisers ==> advertisers[k].id == k && AdvertiserOk(advertisers[k]))
      && CampaignRowsOk(campaigns, advertisers)
      && ScorePairsUnique(scores)
      && ScoreRefsOk(scores, clients, advertisers)
      && EventRefsOk(impressions, clients, campaigns)
      && EventRefsOk(clicks, clients, campaigns)
      && LedgerOk(impressions, clicks)
    }

    /** An empty store. */
    constructor ()
      ensures Valid()
      ensures clients == map[] && advertisers == map[] && campaigns == [] && scores == []
      ensures currentDate == None && impressions == [] && clicks == []
    {
      clients, advertisers, campaigns, scores := map[], map[], [], [];
      currentDate, impressions, clicks := None, [], [];
    }
  }
}
