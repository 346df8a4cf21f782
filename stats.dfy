/** Reporting: lifetime totals and per-day rows, for one campaign or for all
    the campaigns of an advertiser, computed from the two event tables. */
module Stats {
  import opened Common
  import opened Models
  import opened Store
  import Campaigns
  import Ads

  datatype Stat = Stat(
    impressionsCount: nat,
    clicksCount: nat,
    conversion: real,
    spentImpressions: real,
    spentClicks: real,
    spentTotal: real)

  datatype DailyStat = DailyStat(
    date: int,
    impressionsCount: nat,
    clicksCount: nat,
    conversion: real,
    spentImpressions: real,
    spentClicks: real,
    spentTotal: real)

  /** Clicks per hundred impressions, 0 when there were no impressions. */
  function Conversion(clicks: nat, impressions: nat): (r: real)
    ensures impressions == 0 ==> r == 0.0
    ensures impressions > 0 ==> r * (impressions as real) == (clicks as real) * 100.0
    ensures 0.0 <= r
    ensures clicks <= impressions ==> r <= 100.0
  {
    if impressions > 0 then (clicks as real) / (impressions as real) * 100.0 else 0.0
  }

  // ---------------------------------------------------------------- selecting rows

  /** Which event rows a report counts: those of one campaign, or those joined to
      any campaign row of the advertiser (deleted campaigns included). */
  datatype Scope =
    | OneCampaign(campaignId: CampaignId)
    | AdvertiserCampaigns(campaigns: seq<Campaign>, advertiserId: AdvertiserId)

  predicate InScope(scope: Scope, campaignId: CampaignId) {
    match scope
    case OneCampaign(id) => campaignId == id
    case AdvertiserCampaigns(cs, adv) =>
      exists i :: 0 <= i < |cs| && cs[i].id == campaignId && cs[i].advertiserId == adv
  }

  /** The rows of a table that a report counts, in table order. */
  function Select(rows: seq<Event>, scope: Scope): (r: seq<Event>)
    ensures |r| <= |rows|
    ensures forall e :: e in r <==> e in rows && InScope(scope, e.campaignId)
    decreases |rows|
  {
    if rows == [] then []
    else
      var init, last := rows[..|rows| - 1], rows[|rows| - 1];
      assert rows == init + [last];
      Select(init, scope) + (if InScope(scope, last.campaignId) then [last] else [])
  }

  /** A report counts each in-scope row as often as the table holds it, and no
      other row: the selection is the in-scope part of the table as a multiset. */
  lemma {:induction false} SelectMultiplicity(rows: seq<Event>, scope: Scope, e: Event)
    ensures multiset(Select(rows, scope))[e] == if InScope(scope, e.campaignId) then multiset(rows)[e] else 0
    decreases |rows|
  {
    if rows != [] {
      var init, last := rows[..|rows| - 1], rows[|rows| - 1];
      assert rows == init + [last];
      SelectMultiplicity(init, scope, e);
      assert multiset(rows) == multiset(init) + multiset{last};
    }
  }

  /** For one campaign, the rows a report counts are the rows that count toward its delivery caps. */
  lemma {:induction false} SelectCountsCampaign(rows: seq<Event>, id: CampaignId)
    ensures |Select(rows, OneCampaign(id))| == Ads.CountFor(rows, id)
    decreases |rows|
  {
    if rows != [] {
      var init, last := rows[..|rows| - 1], rows[|rows| - 1];
      assert rows == init + [last];
      SelectCountsCampaign(init, id);
      Ads.CountAppend(init, last, id);
    }
  }

  function SumCost(rows: seq<Event>): real
    decreases |rows|
  {
    if rows == [] then 0.0 else SumCost(rows[..|rows| - 1]) + rows[|rows| - 1].cost
  }

  lemma {:induction false} SumCostNonNegative(rows: seq<Event>)
    requires forall i :: 0 <= i < |rows| ==> rows[i].cost >= 0.0
    ensures SumCost(rows) >= 0.0
    decreases |rows|
  {
    if rows != [] {
      SumCostNonNegative(rows[..|rows| - 1]);
    }
  }

  // ---------------------------------------------------------------- totals

  function Totals(impressions: seq<Event>, clicks: seq<Event>): Stat {
    var ic, cc := |impressions|, |clicks|;
    var si, sc := SumCost(impressions), SumCost(clicks);
    Stat(ic, cc, Conversion(cc, ic), si, sc, si + sc)
  }

  /** Lifetime totals of a live campaign; a missing or deleted campaign is "not found". */
  function CampaignStats(campaigns: seq<Campaign>, impressions: seq<Event>, clicks: seq<Event>, campaignId: CampaignId): (r: Result<Stat>)
    ensures r.Failure? ==> r.error == NotFound(NoCampaign)
    ensures CampaignIdsUnique(campaigns) ==>
      (r.Failure? <==> forall i :: 0 <= i < |campaigns| && campaigns[i].id == campaignId ==> campaigns[i].isDeleted)
    ensures r.Success? ==>
      && r.value.impressionsCount == Ads.CountFor(impressions, campaignId)
      && r.value.clicksCount == Ads.CountFor(clicks, campaignId)
      && r.value.spentImpressions == SumCost(Select(impressions, OneCampaign(campaignId)))
      && r.value.spentClicks == SumCost(Select(clicks, OneCampaign(campaignId)))
      && r.value.spentTotal == r.value.spentImpressions + r.value.spentClicks
      && r.value.conversion == Conversion(r.value.clicksCount, r.value.impressionsCount)
  {
    match Campaigns.GetCampaignById(campaigns, campaignId, None)
    case Failure(e) => Failure(e)
    case Success(_) =>
      SelectCountsCampaign(impressions, campaignId);
      SelectCountsCampaign(clicks, campaignId);
      Success(Totals(Select(impressions, OneCampaign(campaignId)), Select(clicks, OneCampaign(campaignId))))
  }

  /** Lifetime totals over every event row joined to one of the advertiser's campaigns. */
  function AdvertiserStats(
    advertisers: map<AdvertiserId, Advertiser>, campaigns: seq<Campaign>,
    impressions: seq<Event>, clicks: seq<Event>, advertiserId: AdvertiserId): (r: Result<Stat>)
    ensures r.Failure? <==> advertiserId !in advertisers
    ensures r.Failure? ==> r.error == NotFound(NoAdvertiser)
    ensures r.Success? ==>
      var scope := AdvertiserCampaigns(campaigns, advertiserId);
      && r.value.impressionsCount == |Select(impressions, scope)|
      && r.value.clicksCount == |Select(clicks, scope)|
      && r.value.spentImpressions == SumCost(Select(impressions, scope))
      && r.value.spentClicks == SumCost(Select(clicks, scope))
      && r.value.spentTotal == r.value.spentImpressions + r.value.spentClicks
      && r.value.conversion == Conversion(r.value.clicksCount, r.value.impressionsCount)
  {
    if advertiserId !in advertisers then Failure(NotFound(NoAdvertiser))
    else
      var scope := AdvertiserCampaigns(campaigns, advertiserId);
      Success(Totals(Select(impressions, scope), Select(clicks, scope)))
  }

  /** Under the ledger invariant every total is non-negative and the conversion
      of any report is at most 100: each click row is backed by an impression
      row of the same pair, and a pair is clicked at most once. */
  lemma TotalsBounded(impressions: seq<Event>, clicks: seq<Event>, scope: Scope)
    requires LedgerOk(impressions, clicks)
    ensures var s := Totals(Select(impressions, scope), Select(clicks, scope));
      && s.clicksCount <= s.impressionsCount
      && 0.0 <= s.conversion <= 100.0
      && s.spentImpressions >= 0.0 && s.spentClicks >= 0.0 && s.spentTotal >= 0.0
  {
    var ii, ci := Select(impressions, scope), Select(clicks, scope);
    forall i | 0 <= i < |ii| ensures ii[i].cost >= 0.0 {
      assert ii[i] in impressions;
    }
    forall i | 0 <= i < |ci| ensures ci[i].cost >= 0.0 {
      assert ci[i] in clicks;
    }
    SumCostNonNegative(ii);
    SumCostNonNegative(ci);
    ClicksAtMostImpressions(impressions, clicks, scope);
  }

  function PairOf(e: Event): (ClientId, CampaignId) {
    (e.clientId, e.campaignId)
  }

  function PairSet(rows: seq<Event>): (r: set<(ClientId, CampaignId)>)
    ensures forall p :: p in r <==> exists i :: 0 <= i < |rows| && PairOf(rows[i]) == p
    decreases |rows|
  {
    if rows == [] then {}
    else
      var init := rows[..|rows| - 1];
      assert forall i :: 0 <= i < |init| ==> init[i] == rows[i];
      PairSet(init) + {PairOf(rows[|rows| - 1])}
  }

  lemma {:induction false} PairSetBound(rows: seq<Event>)
    ensures |PairSet(rows)| <= |rows|
    decreases |rows|
  {
    if rows != [] {
      PairSetBound(rows[..|rows| - 1]);
    }
  }

  lemma {:induction false} PairSetExact(rows: seq<Event>)
    requires PairsUnique(rows)
    ensures |PairSet(rows)| == |rows|
    decreases |rows|
  {
    if rows != [] {
      var init, last := rows[..|rows| - 1], rows[|rows| - 1];
      assert forall i :: 0 <= i < |init| ==> init[i] == rows[i];
      PairSetExact(init);
      assert PairOf(last) !in PairSet(init);
    }
  }

  lemma {:induction false} SelectKeepsPairsUnique(rows: seq<Event>, scope: Scope)
    requires PairsUnique(rows)
    ensures PairsUnique(Select(rows, scope))
    decreases |rows|
  {
    if rows != [] {
      var init, last := rows[..|rows| - 1], rows[|rows| - 1];
      assert forall i :: 0 <= i < |init| ==> init[i] == rows[i];
      SelectKeepsPairsUnique(init, scope);
      var s := Select(init, scope);
      forall i | 0 <= i < |s| ensures PairOf(s[i]) != PairOf(last) {
        assert s[i] in init;
      }
    }
  }

  lemma SubsetCardinality<T>(a: set<T>, b: set<T>)
    requires a <= b
    ensures |a| <= |b|
  {
    assert b == a + (b - a);
  }

  /** A click row in scope has an impression row of the same pair in scope. */
  lemma ClickPairShown(impressions: seq<Event>, clicks: seq<Event>, scope: Scope, c: Event)
    requires forall i :: 0 <= i < |clicks| ==> HasEvent(impressions, clicks[i].clientId, clicks[i].campaignId)
    requires c in Select(clicks, scope)
    ensures PairOf(c) in PairSet(Select(impressions, scope))
  {
    var j :| 0 <= j < |clicks| && clicks[j] == c;
    assert HasEvent(impressions, c.clientId, c.campaignId);
    var m :| 0 <= m < |impressions| && impressions[m].clientId == c.clientId && impressions[m].campaignId == c.campaignId;
    var ii := Select(impressions, scope);
    assert impressions[m] in ii;
    var n :| 0 <= n < |ii| && ii[n] == impressions[m];
    assert PairOf(ii[n]) == PairOf(c);
  }

  lemma ClicksAtMostImpressions(impressions: seq<Event>, clicks: seq<Event>, scope: Scope)
    requires LedgerOk(impressions, clicks)
    ensures |Select(clicks, scope)| <= |Select(impressions, scope)|
  {
    var ii, ci := Select(impressions, scope), Select(clicks, scope);
    SelectKeepsPairsUnique(clicks, scope);
    PairSetExact(ci);
    PairSetBound(ii);
    forall p | p in PairSet(ci) ensures p in PairSet(ii) {
      var k :| 0 <= k < |ci| && PairOf(ci[k]) == p;
      ClickPairShown(impressions, clicks, scope, ci[k]);
    }
    SubsetCardinality(PairSet(ci), PairSet(ii));
  }

  // ---------------------------------------------------------------- per-day rows

  /** One row of a GROUP BY date query: the date, the rows on it, their cost sum. */
  datatype Bucket = Bucket(date: int, count: nat, spent: real)

  predicate Distinct(ds: seq<int>) {
    forall i, j :: 0 <= i < j < |ds| ==> ds[i] != ds[j]
  }

  /** The distinct values of `ds`, in order of first appearance. */
  function Firsts(ds: seq<int>): (r: seq<int>)
    ensures Distinct(r)
    ensures forall d :: d in r <==> d in ds
    decreases |ds|
  {
    if ds == [] then []
    else
      var init, last := ds[..|ds| - 1], ds[|ds| - 1];
      assert ds == init + [last];
      var p := Firsts(init);
      if last in p then p else p + [last]
  }

  function DatesOf(rows: seq<Event>): (r: seq<int>)
    ensures |r| == |rows| && forall i :: 0 <= i < |rows| ==> r[i] == rows[i].date
  {
    seq(|rows|, i requires 0 <= i < |rows| => rows[i].date)
  }

  function BucketDates(bs: seq<Bucket>): (r: seq<int>)
    ensures |r| == |bs| && forall i :: 0 <= i < |bs| ==> r[i] == bs[i].date
  {
    seq(|bs|, i requires 0 <= i < |bs| => bs[i].date)
  }

  /** The rows of a table on one date, in table order. */
  function OnDate(rows: seq<Event>, d: int): (r: seq<Event>)
    ensures forall e :: e in r <==> e in rows && e.date == d
    decreases |rows|
  {
    if rows == [] then []
    else
      var init, last := rows[..|rows| - 1], rows[|rows| - 1];
      assert rows == init + [last];
      OnDate(init, d) + (if last.date == d then [last] else [])
  }

  /** The per-date aggregation of one event table, dates in first-appearance order. */
  function GroupByDate(rows: seq<Event>): (r: seq<Bucket>)
    ensures Distinct(BucketDates(r))
    ensures forall d :: d in BucketDates(r) <==> d in DatesOf(rows)
    ensures forall i :: 0 <= i < |r| ==>
      r[i].count == |OnDate(rows, r[i].date)| && r[i].spent == SumCost(OnDate(rows, r[i].date))
  {
    var ds := Firsts(DatesOf(rows));
    var r := seq(|ds|, i requires 0 <= i < |ds| => Bucket(ds[i], |OnDate(rows, ds[i])|, SumCost(OnDate(rows, ds[i]))));
    assert BucketDates(r) == ds;
    r
  }

  /** The bucket a date maps to after assigning the buckets into a dictionary in
      order: the last one with that date. */
  function Lookup(bs: seq<Bucket>, d: int): (r: Option<Bucket>)
    ensures r.None? <==> d !in BucketDates(bs)
    ensures r.Some? ==> r.value in bs && r.value.date == d
    decreases |bs|
  {
    if bs == [] then None
    else
      var init, last := bs[..|bs| - 1], bs[|bs| - 1];
      assert BucketDates(bs) == BucketDates(init) + [last.date];
      if last.date == d then Some(last) else Lookup(init, d)
  }

  function CountIn(b: Option<Bucket>): nat {
    if b.Some? then b.value.count else 0
  }

  function SpentIn(b: Option<Bucket>): real {
    if b.Some? then b.value.spent else 0.0
  }

  /** The report row of one date from the two dictionaries of buckets. */
  function DayOf(imp: seq<Bucket>, clk: seq<Bucket>, d: int): DailyStat {
    var ic, cc := CountIn(Lookup(imp, d)), CountIn(Lookup(clk, d));
    var si, sc := SpentIn(Lookup(imp, d)), SpentIn(Lookup(clk, d));
    DailyStat(d, ic, cc, Conversion(cc, ic), si, sc, si + sc)
  }

  /** The order of the merged dictionary: impression dates first, then dates seen only in clicks. */
  function MergeOrder(imp: seq<Bucket>, clk: seq<Bucket>): seq<int> {
    Firsts(BucketDates(imp) + BucketDates(clk))
  }

  function DailySpec(imp: seq<Bucket>, clk: seq<Bucket>): seq<DailyStat> {
    var order := MergeOrder(imp, clk);
    seq(|order|, i requires 0 <= i < |order| => DayOf(imp, clk, order[i]))
  }

  lemma LookupSnoc(bs: seq<Bucket>, b: Bucket, d: int)
    ensures Lookup(bs + [b], d) == if b.date == d then Some(b) else Lookup(bs, d)
  {
    assert (bs + [b])[..|bs|] == bs;
  }

  lemma FirstsSnoc(ds: seq<int>, x: int)
    ensures Firsts(ds + [x]) == if x in Firsts(ds) then Firsts(ds) else Firsts(ds) + [x]
  {
    assert (ds + [x])[..|ds|] == ds;
  }

  /** A dictionary entry while merging. */
  datatype Tally = Tally(impressionsCount: nat, spentImpressions: real, clicksCount: nat, spentClicks: real)

  /** The report row built from one dictionary entry. */
  function RowOf(d: int, t: Tally): DailyStat {
    DailyStat(d, t.impressionsCount, t.clicksCount, Conversion(t.clicksCount, t.impressionsCount),
              t.spentImpressions, t.spentClicks, t.spentImpressions + t.spentClicks)
  }

  /** The dictionary is keyed by exactly the dates of `order`. */
  ghost predicate KeysMatch(daily: map<int, Tally>, order: seq<int>) {
    forall d :: d in daily <==> d in order
  }

  /** Each dictionary entry holds the impression bucket of `imp` and the click
      bucket of `clk` that assignment in order leaves at its date. */
  ghost predicate ValuesMatch(daily: map<int, Tally>, imp: seq<Bucket>, clk: seq<Bucket>) {
    forall d :: d in daily ==>
      daily[d] == Tally(CountIn(Lookup(imp, d)), SpentIn(Lookup(imp, d)),
                        CountIn(Lookup(clk, d)), SpentIn(Lookup(clk, d)))
  }

  /** The insertion order after assigning key `x`: a new key goes last. */
  function Grown(order: seq<int>, daily: map<int, Tally>, x: int): seq<int> {
    if x in daily then order else order + [x]
  }

  /** Assigning one key keeps the keys in step with the insertion order. */
  lemma KeysStep(daily: map<int, Tally>, order: seq<int>, x: int, t: Tally)
    requires KeysMatch(daily, order)
    ensures KeysMatch(daily[x := t], Grown(order, daily, x))
  {
  }

  /** Appending one date extends the first-appearance order as the dictionary's keys do. */
  lemma OrderStep(ds: seq<int>, daily: map<int, Tally>, order: seq<int>, x: int)
    requires order == Firsts(ds)
    requires KeysMatch(daily, order)
    ensures Grown(order, daily, x) == Firsts(ds + [x])
  {
    FirstsSnoc(ds, x);
  }

  /** One step of the first loop keeps the values in step with the impression
      buckets assigned so far. */
  lemma ImpressionValuesStep(daily: map<int, Tally>, done: seq<Bucket>, b: Bucket)
    requires ValuesMatch(daily, done, [])
    ensures ValuesMatch(daily[b.date := Tally(b.count, b.spent, 0, 0.0)], done + [b], [])
  {
    forall d | d in daily[b.date := Tally(b.count, b.spent, 0, 0.0)]
      ensures daily[b.date := Tally(b.count, b.spent, 0, 0.0)][d] ==
              Tally(CountIn(Lookup(done + [b], d)), SpentIn(Lookup(done + [b], d)), 0, 0.0)
    {
      LookupSnoc(done, b, d);
    }
  }

  /** One step of the first loop keeps the dictionary in step with the
      impression buckets assigned so far. */
  lemma ImpressionStep(daily: map<int, Tally>, order: seq<int>, imp: seq<Bucket>, i: nat)
    requires i < |imp|
    requires order == Firsts(BucketDates(imp[..i]))
    requires KeysMatch(daily, order) && ValuesMatch(daily, imp[..i], [])
    ensures Grown(order, daily, imp[i].date) == Firsts(BucketDates(imp[..i + 1]))
    ensures KeysMatch(daily[imp[i].date := Tally(imp[i].count, imp[i].spent, 0, 0.0)], Grown(order, daily, imp[i].date))
    ensures ValuesMatch(daily[imp[i].date := Tally(imp[i].count, imp[i].spent, 0, 0.0)], imp[..i + 1], [])
  {
    var done, b := imp[..i], imp[i];
    assert imp[..i + 1] == done + [b];
    assert BucketDates(done + [b]) == BucketDates(done) + [b.date];
    OrderStep(BucketDates(done), daily, order, b.date);
    KeysStep(daily, order, b.date, Tally(b.count, b.spent, 0, 0.0));
    ImpressionValuesStep(daily, done, b);
  }

  /** The first loop: one entry per impression date, clicks zeroed. */
  method CollectImpressions(imp: seq<Bucket>) returns (daily: map<int, Tally>, order: seq<int>)
    ensures order == Firsts(BucketDates(imp))
    ensures KeysMatch(daily, order) && ValuesMatch(daily, imp, [])
  {
    daily, order := map[], [];
    var i := 0;
    while i < |imp|
      invariant 0 <= i <= |imp|
      invariant order == Firsts(BucketDates(imp[..i]))
      invariant KeysMatch(daily, order) && ValuesMatch(daily, imp[..i], [])
    {
      var b := imp[i];
      ImpressionStep(daily, order, imp, i);
      order := Grown(order, daily, b.date);
      daily := daily[b.date := Tally(b.count, b.spent, 0, 0.0)];
      i := i + 1;
    }
    assert imp[..|imp|] == imp;
  }

  /** A click date already in the dictionary gets its click side set. */
  lemma ClickUpdateStep(daily: map<int, Tally>, imp: seq<Bucket>, done: seq<Bucket>, b: Bucket)
    requires ValuesMatch(daily, imp, done)
    requires b.date in daily
    ensures ValuesMatch(daily[b.date := daily[b.date].(clicksCount := b.count, spentClicks := b.spent)],
                        imp, done + [b])
  {
    forall d | d in daily
      ensures Lookup(done + [b], d) == if b.date == d then Some(b) else Lookup(done, d)
    {
      LookupSnoc(done, b, d);
    }
  }

  /** A click date not yet in the dictionary is added with impressions zeroed;
      being new, it has no impression bucket. */
  lemma ClickInsertStep(daily: map<int, Tally>, order: seq<int>, imp: seq<Bucket>, done: seq<Bucket>, b: Bucket)
    requires order == Firsts(BucketDates(imp) + BucketDates(done))
    requires KeysMatch(daily, order)
    requires ValuesMatch(daily, imp, done)
    requires b.date !in daily
    ensures ValuesMatch(daily[b.date := Tally(0, 0.0, b.count, b.spent)], imp, done + [b])
  {
    assert b.date !in BucketDates(imp);
    forall d | d in daily[b.date := Tally(0, 0.0, b.count, b.spent)]
      ensures Lookup(done + [b], d) == if b.date == d then Some(b) else Lookup(done, d)
    {
      LookupSnoc(done, b, d);
    }
  }

  /** The entry the second loop leaves at a click bucket's date. */
  function ClickEntry(daily: map<int, Tally>, b: Bucket): Tally {
    if b.date in daily then daily[b.date].(clicksCount := b.count, spentClicks := b.spent)
    else Tally(0, 0.0, b.count, b.spent)
  }

  /** One step of the second loop, as `ImpressionStep` for the first. */
  lemma ClickStep(daily: map<int, Tally>, order: seq<int>, imp: seq<Bucket>, clk: seq<Bucket>, j: nat)
    requires j < |clk|
    requires order == Firsts(BucketDates(imp) + BucketDates(clk[..j]))
    requires KeysMatch(daily, order) && ValuesMatch(daily, imp, clk[..j])
    ensures Grown(order, daily, clk[j].date) == Firsts(BucketDates(imp) + BucketDates(clk[..j + 1]))
    ensures KeysMatch(daily[clk[j].date := ClickEntry(daily, clk[j])], Grown(order, daily, clk[j].date))
    ensures ValuesMatch(daily[clk[j].date := ClickEntry(daily, clk[j])], imp, clk[..j + 1])
  {
    var done, b := clk[..j], clk[j];
    assert clk[..j + 1] == done + [b];
    assert BucketDates(imp) + BucketDates(done + [b]) == (BucketDates(imp) + BucketDates(done)) + [b.date];
    OrderStep(BucketDates(imp) + BucketDates(done), daily, order, b.date);
    KeysStep(daily, order, b.date, ClickEntry(daily, b));
    if b.date in daily {
      ClickUpdateStep(daily, imp, done, b);
    } else {
      ClickInsertStep(daily, order, imp, done, b);
    }
  }

  /** The second loop: a click date already present gets its click side set, a
      new click date is added with impressions zeroed. */
  method CollectClicks(imp: seq<Bucket>, clk: seq<Bucket>, daily0: map<int, Tally>, order0: seq<int>)
    returns (daily: map<int, Tally>, order: seq<int>)
    requires order0 == Firsts(BucketDates(imp))
    requires KeysMatch(daily0, order0) && ValuesMatch(daily0, imp, [])
    ensures order == MergeOrder(imp, clk)
    ensures KeysMatch(daily, order) && ValuesMatch(daily, imp, clk)
  {
    daily, order := daily0, order0;
    assert BucketDates(imp) + BucketDates(clk[..0]) == BucketDates(imp);
    var j := 0;
    while j < |clk|
      invariant 0 <= j <= |clk|
      invariant order == Firsts(BucketDates(imp) + BucketDates(clk[..j]))
      invariant KeysMatch(daily, order) && ValuesMatch(daily, imp, clk[..j])
    {
      var b := clk[j];
      ClickStep(daily, order, imp, clk, j);
      var t;
      if b.date in daily {
        var old_t := daily[b.date];
        t := old_t.(clicksCount := b.count, spentClicks := b.spent);
      } else {
        t := Tally(0, 0.0, b.count, b.spent);
      }
      assert t == ClickEntry(daily, b);
      order := Grown(order, daily, b.date);
      daily := daily[b.date := t];
      j := j + 1;
    }
    assert clk[..|clk|] == clk;
  }

  /** The third loop: one report row per dictionary entry, in insertion order. */
  method EmitRows(daily: map<int, Tally>, order: seq<int>) returns (result: seq<DailyStat>)
    requires forall d :: d in order ==> d in daily
    ensures |result| == |order|
    ensures forall n :: 0 <= n < |order| ==> result[n] == RowOf(order[n], daily[order[n]])
  {
    result := [];
    var k := 0;
    while k < |order|
      invariant 0 <= k <= |order|
      invariant |result| == k
      invariant forall n :: 0 <= n < k ==> result[n] == RowOf(order[n], daily[order[n]])
    {
      var d := order[k];
      var t := daily[d];
      result := result + [DailyStat(d, t.impressionsCount, t.clicksCount,
                                    Conversion(t.clicksCount, t.impressionsCount),
                                    t.spentImpressions, t.spentClicks,
                                    t.spentImpressions + t.spentClicks)];
      k := k + 1;
    }
  }

  /** The merge of the two per-date query results into one row per date. */
  method MergeDaily(imp: seq<Bucket>, clk: seq<Bucket>) returns (result: seq<DailyStat>)
    ensures result == DailySpec(imp, clk)
  {
    var daily, order := CollectImpressions(imp);
    daily, order := CollectClicks(imp, clk, daily, order);
    result := EmitRows(daily, order);
    forall n | 0 <= n < |order| ensures result[n] == DayOf(imp, clk, order[n]) {
      assert order[n] in daily;
    }
  }

  /** The daily report of a pair of event tables. */
  function DailyStats(impressions: seq<Event>, clicks: seq<Event>): seq<DailyStat> {
    DailySpec(GroupByDate(impressions), GroupByDate(clicks))
  }

  /** A date no row falls on selects no rows. */
  lemma NoRowsOnAbsentDate(rows: seq<Event>, d: int)
    requires d !in DatesOf(rows)
    ensures OnDate(rows, d) == []
  {
  }

  lemma LookupGrouped(rows: seq<Event>, d: int)
    ensures CountIn(Lookup(GroupByDate(rows), d)) == |OnDate(rows, d)|
    ensures SpentIn(Lookup(GroupByDate(rows), d)) == SumCost(OnDate(rows, d))
  {
    var g := GroupByDate(rows);
    if Lookup(g, d).None? {
      NoRowsOnAbsentDate(rows, d);
    } else {
      var b := Lookup(g, d).value;
      var i :| 0 <= i < |g| && g[i] == b;
    }
  }

  function ReportDates(rows: seq<DailyStat>): (r: seq<int>)
    ensures |r| == |rows| && forall i :: 0 <= i < |rows| ==> r[i] == rows[i].date
  {
    seq(|rows|, i requires 0 <= i < |rows| => rows[i].date)
  }

  /** The daily report has exactly one row per date on which there is an
      impression or a click. */
  lemma DailyDates(impressions: seq<Event>, clicks: seq<Event>)
    ensures var ds := ReportDates(DailyStats(impressions, clicks));
      && Distinct(ds)
      && forall d :: d in ds <==> d in DatesOf(impressions) || d in DatesOf(clicks)
  {
    var gi, gc := GroupByDate(impressions), GroupByDate(clicks);
    assert ReportDates(DailyStats(impressions, clicks)) == MergeOrder(gi, gc);
  }

  /** Each row of the daily report counts and prices exactly that date's rows. */
  lemma DailyRowsMatchEvents(impressions: seq<Event>, clicks: seq<Event>)
    ensures var rows := DailyStats(impressions, clicks);
      forall i :: 0 <= i < |rows| ==>
        && rows[i].impressionsCount == |OnDate(impressions, rows[i].date)|
        && rows[i].spentImpressions == SumCost(OnDate(impressions, rows[i].date))
        && rows[i].clicksCount == |OnDate(clicks, rows[i].date)|
        && rows[i].spentClicks == SumCost(OnDate(clicks, rows[i].date))
        && rows[i].spentTotal == rows[i].spentImpressions + rows[i].spentClicks
        && rows[i].conversion == Conversion(rows[i].clicksCount, rows[i].impressionsCount)
  {
    var rows := DailyStats(impressions, clicks);
    forall i | 0 <= i < |rows|
      ensures rows[i].impressionsCount == |OnDate(impressions, rows[i].date)|
      ensures rows[i].spentImpressions == SumCost(OnDate(impressions, rows[i].date))
      ensures rows[i].clicksCount == |OnDate(clicks, rows[i].date)|
      ensures rows[i].spentClicks == SumCost(OnDate(clicks, rows[i].date))
    {
      LookupGrouped(impressions, rows[i].date);
      LookupGrouped(clicks, rows[i].date);
    }
  }

  /** A date with only clicks reports no impressions and no impression spend, and
      a date with only impressions reports no clicks and no click spend. */
  lemma OneSidedDays(impressions: seq<Event>, clicks: seq<Event>)
    ensures var rows := DailyStats(impressions, clicks);
      forall i :: 0 <= i < |rows| ==>
        && (rows[i].date !in DatesOf(impressions) ==> rows[i].impressionsCount == 0 && rows[i].spentImpressions == 0.0)
        && (rows[i].date !in DatesOf(clicks) ==> rows[i].clicksCount == 0 && rows[i].spentClicks == 0.0)
  {
    DailyRowsMatchEvents(impressions, clicks);
    var rows := DailyStats(impressions, clicks);
    forall i | 0 <= i < |rows|
      ensures rows[i].date !in DatesOf(impressions) ==> OnDate(impressions, rows[i].date) == []
      ensures rows[i].date !in DatesOf(clicks) ==> OnDate(clicks, rows[i].date) == []
    {
      if rows[i].date !in DatesOf(impressions) {
        NoRowsOnAbsentDate(impressions, rows[i].date);
      }
      if rows[i].date !in DatesOf(clicks) {
        NoRowsOnAbsentDate(clicks, rows[i].date);
      }
    }
  }

  // ---------------------------------------------------------------- daily sums

  function ImpressionSum(rows: seq<DailyStat>): nat
    decreases |rows|
  {
    if rows == [] then 0 else ImpressionSum(rows[..|rows| - 1]) + rows[|rows| - 1].impressionsCount
  }

  function ClickSum(rows: seq<DailyStat>): nat
    decreases |rows|
  {
    if rows == [] then 0 else ClickSum(rows[..|rows| - 1]) + rows[|rows| - 1].clicksCount
  }

  /** The number of rows of a table falling on the given dates. */
  function CountOver(ds: seq<int>, rows: seq<Event>): nat
    decreases |ds|
  {
    if ds == [] then 0 else CountOver(ds[..|ds| - 1], rows) + |OnDate(rows, ds[|ds| - 1])|
  }

  function Occurrences(ds: seq<int>, x: int): nat
    decreases |ds|
  {
    if ds == [] then 0 else Occurrences(ds[..|ds| - 1], x) + if ds[|ds| - 1] == x then 1 else 0
  }

  lemma {:induction false} OccurrencesOfDistinct(ds: seq<int>, x: int)
    requires Distinct(ds)
    ensures Occurrences(ds, x) == if x in ds then 1 else 0
    decreases |ds|
  {
    if ds != [] {
      var init := ds[..|ds| - 1];
      assert ds == init + [ds[|ds| - 1]];
      OccurrencesOfDistinct(init, x);
    }
  }

  lemma {:induction false} CountOverAppend(ds: seq<int>, rows: seq<Event>, e: Event)
    ensures CountOver(ds, rows + [e]) == CountOver(ds, rows) + Occurrences(ds, e.date)
    decreases |ds|
  {
    if ds != [] {
      CountOverAppend(ds[..|ds| - 1], rows, e);
      assert (rows + [e])[..|rows|] == rows;
    }
  }

  /** Counting a table date by date over distinct dates that cover it counts every row once. */
  lemma {:induction false} CountOverCovering(ds: seq<int>, rows: seq<Event>)
    requires Distinct(ds)
    requires forall i :: 0 <= i < |rows| ==> rows[i].date in ds
    ensures CountOver(ds, rows) == |rows|
    decreases |rows|
  {
    if rows == [] {
      CountOverEmpty(ds);
    } else {
      var init, last := rows[..|rows| - 1], rows[|rows| - 1];
      assert rows == init + [last];
      CountOverCovering(ds, init);
      CountOverAppend(ds, init, last);
      OccurrencesOfDistinct(ds, last.date);
    }
  }

  lemma {:induction false} CountOverEmpty(ds: seq<int>)
    ensures CountOver(ds, []) == 0
    decreases |ds|
  {
    if ds != [] {
      CountOverEmpty(ds[..|ds| - 1]);
    }
  }

  lemma {:induction false} ImpressionSumIsCountOver(rows: seq<DailyStat>, ds: seq<int>, impressions: seq<Event>)
    requires |rows| == |ds|
    requires forall i :: 0 <= i < |rows| ==> rows[i].impressionsCount == |OnDate(impressions, ds[i])|
    ensures ImpressionSum(rows) == CountOver(ds, impressions)
    decreases |rows|
  {
    if rows != [] {
      ImpressionSumIsCountOver(rows[..|rows| - 1], ds[..|ds| - 1], impressions);
    }
  }

  lemma {:induction false} ClickSumIsCountOver(rows: seq<DailyStat>, ds: seq<int>, clicks: seq<Event>)
    requires |rows| == |ds|
    requires forall i :: 0 <= i < |rows| ==> rows[i].clicksCount == |OnDate(clicks, ds[i])|
    ensures ClickSum(rows) == CountOver(ds, clicks)
    decreases |rows|
  {
    if rows != [] {
      ClickSumIsCountOver(rows[..|rows| - 1], ds[..|ds| - 1], clicks);
    }
  }

  /** Summing the daily counts gives the totals: every row is counted on exactly one day. */
  lemma DailySumsToTotals(impressions: seq<Event>, clicks: seq<Event>)
    ensures ImpressionSum(DailyStats(impressions, clicks)) == |impressions|
    ensures ClickSum(DailyStats(impressions, clicks)) == |clicks|
  {
    DailyRowsMatchEvents(impressions, clicks);
    DailyDates(impressions, clicks);
    var rows := DailyStats(impressions, clicks);
    var ds := ReportDates(rows);
    forall i | 0 <= i < |impressions| ensures impressions[i].date in ds {
      assert DatesOf(impressions)[i] == impressions[i].date;
    }
    forall i | 0 <= i < |clicks| ensures clicks[i].date in ds {
      assert DatesOf(clicks)[i] == clicks[i].date;
    }
    ImpressionSumIsCountOver(rows, ds, impressions);
    ClickSumIsCountOver(rows, ds, clicks);
    CountOverCovering(ds, impressions);
    CountOverCovering(ds, clicks);
  }

  // ---------------------------------------------------------------- report queries

  /** Per-day rows of a live campaign. */
  method CampaignDailyStat(db: Database, campaignId: CampaignId) returns (r: Result<seq<DailyStat>>)
    ensures Campaigns.GetCampaignById(db.campaigns, campaignId, None).Failure? ==> r == Failure(NotFound(NoCampaign))
    ensures Campaigns.GetCampaignById(db.campaigns, campaignId, None).Success? ==>
      r == Success(DailyStats(Select(db.impressions, OneCampaign(campaignId)), Select(db.clicks, OneCampaign(campaignId))))
  {
    var found := Campaigns.GetCampaignById(db.campaigns, campaignId, None);
    if found.Failure? {
      return Failure(found.error);
    }
    var scope := OneCampaign(campaignId);
    var rows := MergeDaily(GroupByDate(Select(db.impressions, scope)), GroupByDate(Select(db.clicks, scope)));
    r := Success(rows);
  }

  /** Per-day rows over all the campaigns of an advertiser. */
  method AdvertiserCampaignsDailyStat(db: Database, advertiserId: AdvertiserId) returns (r: Result<seq<DailyStat>>)
    ensures advertiserId !in db.advertisers ==> r == Failure(NotFound(NoAdvertiser))
    ensures advertiserId in db.advertisers ==>
      var scope := AdvertiserCampaigns(db.campaigns, advertiserId);
      r == Success(DailyStats(Select(db.impressions, scope), Select(db.clicks, scope)))
  {
    if advertiserId !in db.advertisers {
      return Failure(NotFound(NoAdvertiser));
    }
    var scope := AdvertiserCampaigns(db.campaigns, advertiserId);
    var rows := MergeDaily(GroupByDate(Select(db.impressions, scope)), GroupByDate(Select(db.clicks, scope)));
    r := Success(rows);
  }
}
