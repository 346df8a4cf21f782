# Ad-serving backend: a verified model

This project models the core of an ad-serving backend for advertisers and clients.

- Advertisers run **campaigns**. Each campaign has impression and click caps, an impression price and a click price, an active window of days, ad texts and a **targeting** filter on gender, age and location.
- Clients request an ad. The selector finds every eligible campaign and ranks it by expected revenue. The ranking weights the click price by a per-(client, advertiser) relevance score. The winner's impression is logged for today, at the impression price, on every selection.
- A click is recorded at most once per (client, campaign). It is accepted only after the client has seen at least one impression of that campaign.
- Reports give lifetime totals and per-day rows: counts, spend and conversion. A report covers one campaign or all of an advertiser's campaigns.
- A single clock cell holds the current day. Clients and advertisers are maintained by bulk upserts, relevance scores by a single-pair upsert.

The store is one object, `Store.Database`. Its fields are the tables: clients and advertisers as maps by id, and campaigns, scores, impressions and clicks as sequences of rows in storage order. `Database.Valid()` groups the integrity constraints: primary keys, the unique score pair, the stored-campaign rules, the foreign keys (campaign to advertiser, impression and click to client and campaign, score to client and advertiser) and the ledger invariant `Models.LedgerOk`. Every state-changing operation preserves `Valid()`.

Each source file is one module:

- `Ads` models the ad selector and the click recorder.
- `Stats` models reporting.
- `Campaigns` models the campaign store.
- `CampaignSchemas` models request validation.
- `Clock`, `Scores`, `Clients` and `Advertisers` model the small stores.
- `Common`, `Models` and `Store` hold the shared types, the entities and the store class.

The query logic is written as pure functions over table contents. These include eligibility, ranking, the argmax, the aggregations and the click decision. The operations that change tables are module-level methods that take the store (`db: Database`) and carry modifies clauses on its fields. Each is proved equal to its specification function. Prices, scores and conversion are exact `real`s.

Four behaviours of the code are easy to miss:

- Impressions are not deduplicated at all. The impression insert asks the database to skip a row whose key already exists, but every row's primary key also holds a fresh surrogate id inherited from the common base model, so no insert ever conflicts. Two selections of the same campaign for the same client on one day leave two rows and charge twice (`Ads.SameDaySelectionLogsTwice`; see "## Findings"). The intended per-(client, campaign, day) insert is modelled beside it as `Ads.InsertIgnore`.
- The campaign listing does not filter out soft-deleted campaigns. The advertiser reports also count the events of deleted campaigns.
- The update request puts no length rule on title and text. It also validates the targeting patch alone, not the merged targeting (`Campaigns.MergeCanInvertAgeRange`).
- The responses are validated again by the response model, which re-runs the creation rules (non-empty title and text, the targeting age check). An update that empties a text or inverts the age range is therefore written to the table and then reported as a validation error (`Campaigns.UpdateCampaign`). Such a row also makes every listing page that contains it, and every read of it, fail (`Campaigns.GetCampaigns`, `Campaigns.GetCampaign`).

## Model

| member | source | states |
|---|---|---|
| CampaignSchemas.ValidateTargeting | solution/src/api_v1/campaigns/schemas.py:17-28 | accepted targeting meets the field rules, and its ages are ordered when `age_to` is not 0; bad fields are rejected; well-formed ordered targeting is accepted |
| CampaignSchemas.AgeToZeroBypassesRangeCheck | solution/src/api_v1/campaigns/schemas.py:24-28 | any targeting with valid fields and `age_to = 0` passes, however large `age_from` is, because 0 is falsy |
| CampaignSchemas.ValidateCampaign | solution/src/api_v1/campaigns/schemas.py:37-57 | rejects start after end, clicks cap above impressions cap, and any bad field; accepted requests meet all rules including the nested targeting; every request meeting them is accepted |
| CampaignSchemas.ValidateUpdate | solution/src/api_v1/campaigns/schemas.py:69-76 | accepted updates carry non-negative costs and a targeting patch that passes the targeting validator; the request has no limit or date field at all |
| Models.IndexOfCampaign | solution/src/api_v1/campaigns/crud.py:18-27 | finds the first row with the id, or none exists |
| Models.PairsUniqueGivesKeysUnique | solution/src/api_v1/ads/crud.py:186-203 | the click recorder's one-click-per-pair rule implies one click row per (client, campaign, date) |
| Clock.CurrentDate | solution/src/api_v1/time/crud.py:28-38 | reading before the first advance fails with "current date not found"; otherwise returns the stored day |
| Clock.AdvanceTime | solution/src/api_v1/time/crud.py:9-25 | stores any day, created or overwritten with no ordering check, returns it, and a later read returns it |
| Scores.ScoreOf | solution/src/api_v1/ml/crud.py:17-23 | absent exactly when no row has the pair; with unique pairs, returns that row's score |
| Scores.GetMlScore | solution/src/api_v1/ml/crud.py:12-29 | returns the pair's score, and 0 when no row exists |
| Scores.MaxScore | solution/src/api_v1/ads/crud.py:21 | an upper bound on all scores that some row attains; 0 for an empty table |
| Scores.Upsert | solution/src/api_v1/ml/crud.py:44-60 | definition: overwrite the score of an existing pair, or append a new row (its properties are stated by `Scores.UpsertCorrect`) |
| Scores.UpsertCorrect | solution/src/api_v1/ml/crud.py:44-60 | after an upsert the pairs stay unique and the lookup returns the new score; every other pair's lookup is unchanged; the table grows by one only for a new pair |
| Scores.UpsertKeepsRefs | solution/src/core/database/models/ml_score.py:7-11 | an upsert of a row naming an existing client and advertiser keeps every score row's client and advertiser present |
| Scores.UpdateMlScore | solution/src/api_v1/ml/crud.py:32-60 | an unknown client or advertiser fails with not-found and writes nothing; otherwise the table becomes the upsert |
| Clients.GetClient | solution/src/api_v1/clients/crud.py:19-29 | fails with not-found exactly when the id is absent |
| Clients.ApplyBatchContents | solution/src/api_v1/clients/crud.py:32-58 | after a batch, an id is present iff it was before or is in the batch; the last entry for an id wins; other clients are unchanged |
| Clients.UpdateClient | solution/src/api_v1/clients/crud.py:32-58 | returns one entry per input in input order; the table becomes the batch applied in order |
| Advertisers.GetAdvertiser | solution/src/api_v1/advertisers/crud.py:19-29 | fails with not-found exactly when the id is absent |
| Advertisers.ApplyBatchContents | solution/src/api_v1/advertisers/crud.py:32-58 | after a batch, an id is present iff it was before or is in the batch; the last entry's name wins; other advertisers are unchanged |
| Advertisers.UpdateAdvertiser | solution/src/api_v1/advertisers/crud.py:32-58 | returns one entry per input in input order; existing names are overwritten and new ids inserted |
| Campaigns.GetCampaignById | solution/src/api_v1/campaigns/crud.py:13-33 | succeeds only with a live campaign of that id and owner; with unique ids it succeeds iff that campaign is live and owned; a missing id fails with "campaign not found" |
| Campaigns.OwnedCampaigns | solution/src/api_v1/campaigns/crud.py:45 | lists only campaigns of that advertiser, deleted ones included |
| Campaigns.OwnedCampaignsComplete | solution/src/api_v1/campaigns/crud.py:45 | every campaign of the advertiser is listed |
| Campaigns.SortByStartDesc | solution/src/api_v1/campaigns/crud.py:47 | the result is ordered by start date descending and is a permutation of the input |
| Campaigns.ValidateResponse | solution/src/api_v1/campaigns/schemas.py:37-57 | a stored campaign is returned unchanged or rejected with a validation error; it passes only with non-empty texts and valid targeting, and a stored-valid row with those passes |
| Campaigns.GetCampaign | solution/src/api_v1/campaigns/crud.py:100-110 | a failed lookup is "campaign not found"; otherwise the response model's verdict on the live, owned row |
| Campaigns.ListingPage | solution/src/api_v1/campaigns/crud.py:36-52 | at most `size` campaigns, all owned, in descending start order: the slice `[(page-1)*size, page*size)` of the sorted listing |
| Campaigns.ValidatePage | solution/src/api_v1/campaigns/crud.py:53-55 | succeeds with the page itself iff every campaign on it passes the response model; otherwise fails with the first rejected campaign's error |
| Campaigns.GetCampaigns | solution/src/api_v1/campaigns/crud.py:36-55 | returns the page iff every campaign on it passes the response model, otherwise a validation error |
| Campaigns.PagesCoverListing | solution/src/api_v1/campaigns/crud.py:42-50 | pages 1 to n read in turn are exactly the first n·size campaigns of the sorted listing |
| Campaigns.PagesListEveryCampaignOnce | solution/src/api_v1/campaigns/crud.py:42-50 | enough pages list every campaign of the advertiser, each exactly once |
| Campaigns.NewCampaign | solution/src/api_v1/campaigns/crud.py:67-84 | the stored row carries the request's fields, is live and valid, passes the response model, and gets all-unset targeting when none was given |
| Campaigns.CreateCampaign | solution/src/api_v1/campaigns/crud.py:58-97 | an unknown advertiser fails with not-found and stores nothing; otherwise the new row is appended |
| Campaigns.ApplyUpdate | solution/src/api_v1/campaigns/crud.py:125-140 | definition: each field present in the request is set, and a present targeting patch is merged into the stored targeting (its properties are stated by `Campaigns.UpdateChangesOnlyRequestedFields`) |
| Campaigns.MergeTargeting | solution/src/api_v1/campaigns/crud.py:134-140 | each targeting field in the patch takes the patch's value; each absent one keeps its value |
| Campaigns.UpdateChangesOnlyRequestedFields | solution/src/api_v1/campaigns/crud.py:125-140 | id, owner, caps, dates and the deleted flag never change; present fields take the request's value and absent ones are kept; a valid update keeps the stored-campaign rules |
| Campaigns.MergeCanInvertAgeRange | solution/src/api_v1/campaigns/crud.py:134-140 | a valid 18–35 targeting patched with a valid age_from of 40 yields a range the targeting validator rejects |
| Campaigns.ReplaceKeepsRowsOk | solution/src/api_v1/campaigns/crud.py:125-141 | rewriting one row with a valid campaign of the same id and owner keeps ids unique, every row valid and every owner present |
| Campaigns.PatchCampaign | solution/src/api_v1/campaigns/crud.py:125-140 | the field-by-field edit yields exactly the merged update of the stored campaign |
| Campaigns.UpdateCampaign | solution/src/api_v1/campaigns/crud.py:113-143 | a missing, deleted or foreign campaign fails and changes nothing; otherwise only that row changes, to the merged update, and the result is the response model's verdict on the new row |
| Campaigns.DeleteCampaign | solution/src/api_v1/campaigns/crud.py:146-158 | a missing, deleted or foreign campaign fails and changes nothing; otherwise only that row's deleted flag is set |
| Campaigns.DeletedCampaignIsNotFound | solution/tests/unit/test_campaigns.py:114-118 | after deletion every lookup of that id fails with "campaign not found", whatever the owner filter |
| Ads.AdOf | solution/src/api_v1/ads/crud.py:146-151 | the ad carries the campaign's id, title, text and advertiser |
| Ads.CountFor | solution/src/api_v1/ads/crud.py:86-102 | bounded by the table size; 0 exactly when no row has the campaign |
| Ads.Eligible | solution/src/api_v1/ads/crud.py:62-103 | definition: not deleted, active today, targeting matches the client, and both caps unmet (used by `Ads.Best` and `Ads.ChooseCampaign`) |
| Ads.Relevance | solution/src/api_v1/ads/crud.py:116-122 | lies in [0, 1]; is 0 without a score row, and 0 for an empty score table |
| Ads.RankKey | solution/src/api_v1/ads/crud.py:105-124 | definition: impression price unless already seen, plus click price unless already clicked times relevance (used by `Ads.Best` and `Ads.NoScoresRankByImpressionTerm`) |
| Ads.NoScoresRankByImpressionTerm | solution/src/api_v1/ads/crud.py:105-124 | with no scores at all, the rank key is the impression term alone |
| Ads.FirstBest | solution/src/api_v1/ads/crud.py:105-127 | none iff no position is admitted; otherwise an admitted position whose key no admitted one exceeds, and every admitted position before it has a strictly smaller key |
| Ads.Best | solution/src/api_v1/ads/crud.py:105-127 | none iff no campaign is eligible; otherwise an eligible campaign whose key no eligible campaign exceeds |
| Ads.ChooseCampaign | solution/src/api_v1/ads/crud.py:16-136 | fails for an unknown client, then for an unset clock; otherwise returns an eligible campaign of maximal key, or fails with "no matching ad" exactly when nothing is eligible |
| Ads.ExhaustedCampaignNeverChosen | solution/src/api_v1/ads/crud.py:86-102 | a campaign at either cap is never chosen |
| Ads.InvertedZeroRangeMatchesNobody | solution/src/api_v1/ads/crud.py:72-81 | a targeting that passed validation with `age_to = 0` and `age_from > 0` matches no client |
| Ads.InsertIgnore | solution/src/api_v1/ads/crud.py:161-169 | definition of the intended insert: skip a row whose (client, campaign, date) is present, else append it |
| Ads.InsertIgnoreCorrect | solution/src/api_v1/ads/crud.py:161-169 | for the intended insert: afterwards the key is present; an existing key leaves the table unchanged, with no duplicate and no re-charge; a new key appends exactly the row; keys stay unique |
| Ads.ImpressionRepeatsOnAnotherDay | solution/src/core/database/models/impression.py:10-15 | for the intended insert: a new day for the same client and campaign adds a row and raises that campaign's count |
| Ads.InsertIgnoreKeepsLedger | solution/src/api_v1/ads/crud.py:161-169 | the intended insert keeps the ledger invariant and one impression row per (client, campaign, date) |
| Ads.AppendKeepsLedger | solution/src/api_v1/ads/crud.py:161-171 | appending an impression at a non-negative price keeps the ledger invariant |
| Ads.LogImpression | solution/src/api_v1/ads/crud.py:154-172 | the row is always appended, because the inherited surrogate id keeps the conflict clause from firing; the store stays valid, foreign keys included |
| Ads.OnlyCampaignChosen | solution/src/api_v1/ads/crud.py:105-136 | with a single campaign that is eligible for the client, the selector chooses it |
| Ads.SameDaySelectionLogsTwice | solution/src/api_v1/ads/crud.py:161-169 | as written, a second same-day selection chooses the campaign again and leaves two rows with one (client, campaign, date), counted twice, where the intended insert keeps one |
| Ads.GetAd | solution/src/api_v1/ads/crud.py:16-151 | a failed choice returns its error and leaves impressions unchanged; a winner's impression for today at its impression price is appended and the winner returned |
| Ads.RecordClick | solution/src/api_v1/ads/crud.py:175-214 | definition of the click decision (its properties are stated by `Ads.RecordClickOutcome`) |
| Ads.RecordClickOutcome | solution/src/api_v1/ads/crud.py:175-214 | an unknown client fails; a missing or deleted campaign, an unseen pair or an already-clicked pair changes nothing; otherwise exactly one row is appended, dated today at the current click price |
| Ads.RecordClickIdempotent | solution/src/api_v1/ads/crud.py:186-203 | repeating a click leaves the table as the first call made it |
| Ads.RecordClickKeepsLedger | solution/src/api_v1/ads/crud.py:205-214 | a recorded click keeps one click per pair, an impression behind every click and non-negative prices |
| Ads.ClickAd | solution/src/api_v1/ads/crud.py:175-214 | the click table becomes the click decision's table; errors change nothing |
| Stats.Conversion | solution/src/api_v1/stats/crud.py:45-47 | 0 without impressions; otherwise conversion × impressions = clicks × 100; at most 100 when clicks ≤ impressions |
| Stats.Select | solution/src/api_v1/stats/crud.py:76-105 | keeps exactly the rows of the campaign, or of any campaign row of the advertiser |
| Stats.SelectMultiplicity | solution/src/api_v1/stats/crud.py:76-105 | each in-scope row is counted as often as the table holds it, every other row not at all |
| Stats.SelectCountsCampaign | solution/src/api_v1/stats/crud.py:21-32 | a campaign report counts the same rows that count toward its delivery caps |
| Stats.CampaignStats | solution/src/api_v1/stats/crud.py:11-65 | a missing or deleted campaign fails with not-found; otherwise the counts are the campaign's rows, costs are summed, and the total is the sum of the two spends |
| Stats.AdvertiserStats | solution/src/api_v1/stats/crud.py:68-135 | an unknown advertiser fails with not-found; otherwise the same totals over its campaigns' rows |
| Stats.TotalsBounded | solution/src/api_v1/stats/crud.py:45-56 | under the ledger invariant: clicks ≤ impressions, conversion is in [0, 100], all spends are non-negative |
| Stats.ClicksAtMostImpressions | solution/src/api_v1/ads/crud.py:186-203 | under the ledger invariant, any report counts no more click rows than impression rows |
| Stats.GroupByDate | solution/src/api_v1/stats/crud.py:147-158 | one bucket per distinct date of the rows, holding that date's count and cost sum |
| Stats.Firsts | solution/src/api_v1/stats/crud.py:173-192 | distinct values with the same members as the input |
| Stats.Lookup | solution/src/api_v1/stats/crud.py:174-192 | absent exactly when no bucket has the date |
| Stats.ImpressionStep | solution/src/api_v1/stats/crud.py:173-180 | one assignment keeps the key order the first-appearance order of the dates so far, the keys equal to that order, and each entry the last bucket of its date |
| Stats.CollectImpressions | solution/src/api_v1/stats/crud.py:173-180 | one entry per impression date, with the click side zeroed |
| Stats.CollectClicks | solution/src/api_v1/stats/crud.py:182-192 | a click date already present gets its click side set; a new one is appended with impressions zeroed |
| Stats.ClickStep | solution/src/api_v1/stats/crud.py:182-192 | one click assignment keeps the merged key order, the keys, and each entry's impression side and last click bucket |
| Stats.EmitRows | solution/src/api_v1/stats/crud.py:194-212 | one row per entry in insertion order, with conversion and total derived from the entry |
| Stats.MergeDaily | solution/src/api_v1/stats/crud.py:173-214 | the merged rows are `Stats.DailySpec`'s: impression dates first, then click-only dates |
| Stats.DailySpec | solution/src/api_v1/stats/crud.py:173-214 | definition of the daily report from the two date groupings (its properties are stated by `Stats.DailyDates`, `Stats.DailyRowsMatchEvents` and `Stats.OneSidedDays`) |
| Stats.DailyDates | solution/src/api_v1/stats/crud.py:173-195 | exactly one row per date that has an impression or a click |
| Stats.DailyRowsMatchEvents | solution/src/api_v1/stats/crud.py:194-212 | each row counts and prices exactly its date's rows; total = sum of spends; derived conversion |
| Stats.OneSidedDays | solution/src/api_v1/stats/crud.py:175-192 | a click-only day reports zero impressions and zero impression spend, and vice versa |
| Stats.DailySumsToTotals | solution/tests/unit/test_stats.py:136-174 | the daily impression and click counts sum to the table sizes, which are the lifetime totals |
| Stats.CampaignDailyStat | solution/src/api_v1/stats/crud.py:138-214 | a missing or deleted campaign fails with not-found; otherwise returns the daily report of its rows |
| Stats.AdvertiserCampaignsDailyStat | solution/src/api_v1/stats/crud.py:217-300 | an unknown advertiser fails with not-found; otherwise returns the daily report of its campaigns' rows |

## Left out

- HTTP routing, dependency injection and the mapping of errors to status codes. Errors are `Result` values: not-found by entity, or invalid by rule.
- Listing all clients and all advertisers (`get_clients`, `get_advertisers`). These are whole-table reads with no logic.
- LLM moderation and text generation, object storage for files, and configuration. These are foreign services and I/O. Files are kept as opaque strings, and URL validation is not modelled.
- Async sessions, commits and concurrent requests. Each operation is atomic and runs alone, and database conflict resolution is not modelled.
- Id generation. A fresh campaign id is a parameter of `Campaigns.CreateCampaign`.
- The clock's request schema. time/schemas.py is not part of this model, so any integer day is accepted.
- The duplicate rows that the outer join in the ranking query can produce. `limit 1` hides them. The model ranks each campaign once.
- Floating-point arithmetic. Prices, scores and conversion are exact reals.
- Ads.Relevance: when a score row exists but the largest score is 0, the database would divide by zero. The model defines the factor as 0 there.
- Ads.Best: ties between equal rank keys are broken in the database's unspecified order. The model returns the first maximal campaign in table order (`Ads.FirstBest`); `Ads.Best` itself states only maximality.
- Campaigns.GetCampaigns: the database returns campaigns with equal start dates in an unspecified order. The model fixes one order (`Campaigns.SortByStartDesc`), so `Campaigns.ListingPage` names one particular page of several possible ones; with ties, pages read in separate requests need not together list every campaign once, which `Campaigns.PagesListEveryCampaignOnce` assumes away by reading all pages from one order.
- Models.PairsUniqueGivesKeysUnique: the click table's declared key also holds the inherited surrogate id, so the database enforces nothing about (client, campaign, date). The one-row-per-pair property comes from the check in the click recorder, not from the key.
- Ads.InsertIgnoreCorrect: states what the impression insert is meant to do. The code never takes its existing-key branch, because the surrogate id makes every key fresh; `Ads.LogImpression` models the code.
- Ads.InsertIgnoreKeepsLedger: one impression row per (client, campaign, date) holds only for the intended insert. The ledger invariant `Models.LedgerOk` does not include it, since the code does not maintain it; the report and cap proofs need only `Models.LedgerOk`.
- Stats.GroupByDate: SQL `GROUP BY` returns dates in an unspecified order. The model uses first-appearance order. Only the order of the daily rows depends on this.
- Campaigns.UpdateCampaign: an explicit `null` for a cost, title or text would violate a NOT NULL column in the database and fail there. The model has no null for those fields.
- Campaigns.UpdateCampaign: the branch for a campaign without a targeting row is not modelled. Every stored campaign owns a targeting row. The "already deleted" branches of update and delete cannot run either, because the lookup only returns live campaigns.
- CampaignSchemas.ValidateCampaign: the validator library collects every failing rule. The model reports only the first, in the order field rules, nested targeting, dates, limits.
- Database-level failures such as foreign-key or uniqueness violations on insert. The preconditions rule them out: a fresh campaign id, validated clients and advertisers in a batch, and an existing client and campaign for `Ads.LogImpression`, which is only called with the selector's client and winner.

## Findings

| source | as written | input that shows it | evidently intended | confidence | as-written member | corrected member |
|---|---|---|---|---|---|---|
| solution/src/api_v1/ads/crud.py:161-169 | the impression insert uses `ON CONFLICT DO NOTHING`, but the table's primary key includes a fresh surrogate id from the common base model, so the insert never conflicts | client 1 (age 30, location "L") and one campaign 7 matching them, impression cap 1000, start day 1, end day 10; two ad requests by client 1 on day 1 | one impression row per (client, campaign, day): the second request on day 1 adds no row and no charge | not executed | Ads.SameDaySelectionLogsTwice | Ads.InsertIgnoreCorrect |
