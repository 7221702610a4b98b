# tracionar core, modelled in Dafny

tracionar is a Facebook Ads dashboard server. This project models its core:

- the ads-platform sync engine. It walks campaigns → ad sets → ads, upserts each by natural key, upserts daily campaign metric rows, counts the records it touches, writes one sync log per run and advances `lastSync` only on success.
- the pure insight-row helpers: derived CPA and ROAS, conversion extraction, targeting classification.
- the weighted KPI aggregator, the dashboard date-window rule and the desired-CPA update.
- the AI service: the insight TTL cache with its base64 cache key and sweep, the alert rule table and the quick-recommendation choice.
- the dashboard status ladders with their colours and icons.
- the ad-account lifecycle: connect upsert, sync guard, soft-delete disconnect, sync status, campaign listing with latest metrics.
- credential validation, the first-setup gate and case-insensitive login.
- the encrypted-credential envelope `hex(iv):hex(tag):hex(ciphertext)`, its recognition, and hash/verify.

Modules:

| file | module | models |
|---|---|---|
| `wrappers.dfy` | `Wrappers` | `Option`, `Result` |
| `store.dfy` | `Store` | the database tables as the fields of class `Database` (maps keyed by natural key, logs as sequences) |
| `facebook_parse.dfy` | `FacebookParse` | `parseInsightData`, `getConversions`, `getRoas`, `getTargetingType` |
| `facebook_sync.dfy` | `FacebookSync` | `syncAccountData` and the fetch/save/log steps it calls |
| `analytics.dfy` | `Analytics` | KPI aggregation, the date filter, the desired-CPA update |
| `openai_service.dfy` | `OpenAiService` | insight cache, cache key, alerts, recommendations |
| `dashboard.dfy` | `Dashboard` | metric-card status ladders, `getStatusColor`, `getStatusIcon` |
| `facebook_routes.dfy` | `FacebookRoutes` | callback upsert, sync start, disconnect, sync status, campaign list |
| `auth_routes.dfy` | `AuthRoutes` | validation rules, first-setup gate, setup and login |
| `crypto_utils.dfy` | `CryptoUtils` | envelope, format check, `isEncrypted`, `hash`/`verifyHash` |

External effects are parameters:

- The Graph API is a value of type `GraphApi`. Each endpoint is a function that answers a page, no data, or a failure.
- Store write failures of the sync engine are a map `faults` from each failing write to its error message. The route handlers' store failures are not modelled (see below).
- The clock is an `int` parameter `now` in milliseconds.
- The language model's answer is a `Result` parameter.
- The cipher, key derivation and password hash are function parameters.
- `Math.random` becomes a nondeterministic choice (`:|`).
- JSON serialisation is an input: the serialised bytes for the cache key and the snapshot string for the history row.

Imperative code is modelled as methods on the shared `Database` object, or on `InsightCache` for the in-memory `Map`. Each method is proved against a specification function. For example, `SyncCampaigns` is proved against `SyncCampaignsSpec`, `SaveMetrics` against `SaveMetricsSpec`, `ClearOldCache` against `Sweep` and `GenerateAlerts` against `AlertHeads`. The properties are then lemmas about those functions.

## Model

| member | source | states |
|---|---|---|
| `FacebookParse.Truncate` | server/services/FacebookAPI.js:385-387 | `parseInt` on a number: truncation toward zero, bounded within one on each side for both signs |
| `FacebookParse.FindAction` | server/services/FacebookAPI.js:403-407 | `Array.find`: none iff no action has one of the types; otherwise the index of the first such action |
| `FacebookParse.GetConversions` | server/services/FacebookAPI.js:400-410 | 0 without actions or without a purchase/lead/complete_registration action; otherwise the truncated value of the first such action |
| `FacebookParse.GetRoas` | server/services/FacebookAPI.js:413-421 | 0 when actions are absent, spend is 0 or there is no purchase action; otherwise `roas * spend` equals the purchase value |
| `FacebookParse.Cpa` | server/services/FacebookAPI.js:381 | with conversions > 0, `cpa * conversions == spend`; otherwise 0 |
| `FacebookParse.ParseInsightData` | server/services/FacebookAPI.js:378-397 | conversions, spend, CPA and ROAS come from the helpers; impressions, reach and clicks are the truncated input values and CTR, CPC, CPM and frequency the input values, each 0 when absent |
| `FacebookParse.GetTargetingType` | server/services/FacebookAPI.js:424-441 | `unknown` iff targeting is absent; each audience kind iff its list is the first non-empty one in the order custom > lookalike > interests > behaviors |
| `FacebookParse.DemographicIsTheFallback` | server/services/FacebookAPI.js:440 | with all four lists empty or absent the type is `demographic` |
| `FacebookSync.UpsertCampaign` | server/services/FacebookAPI.js:250-277 | one row per key; name, objective and status are rewritten; an existing desired CPA is kept (none on create); other rows are unchanged |
| `FacebookSync.UpsertAdSet` | server/services/FacebookAPI.js:280-307 | the ad set's row under its natural key is replaced by the stored record built from the data |
| `FacebookSync.UpsertAd` | server/services/FacebookAPI.js:310-337 | the ad's row under its natural key is replaced by the stored record built from the data |
| `FacebookSync.UpsertCampaignIdempotent` | server/services/FacebookAPI.js:250-277 | saving a campaign twice equals saving it once; the table grows by one only for a new key |
| `FacebookSync.UpsertAdSetAndAdIdempotent` | server/services/FacebookAPI.js:280-337 | the same for ad sets and ads |
| `FacebookSync.SaveCampaign` | server/services/FacebookAPI.js:250-277 | a failing write is returned as the error and leaves the table unchanged; otherwise the table is the upsert |
| `FacebookSync.SaveAdSet` | server/services/FacebookAPI.js:280-307 | as `SaveCampaign`, for ad sets |
| `FacebookSync.SaveAd` | server/services/FacebookAPI.js:310-337 | as `SaveCampaign`, for ads |
| `FacebookSync.SyncAds` | server/services/FacebookAPI.js:120-122 | the innermost loop ends in the state `SaveAdsSpec` gives: ads saved in order, stopping at the first failing write |
| `FacebookSync.SyncAdSets` | server/services/FacebookAPI.js:113-123 | the ad-set loop ends in the state `SyncAdSetsSpec` gives; each ad set adds its fetched ads to the counter |
| `FacebookSync.SyncCampaign` | server/services/FacebookAPI.js:107-123 | one pass of the outer loop ends in the state `CampaignStep` gives |
| `FacebookSync.SyncCampaigns` | server/services/FacebookAPI.js:103-124 | the outer loop ends in the state `SyncCampaignsSpec` gives |
| `FacebookSync.SaveAdsSpecFacts` | server/services/FacebookAPI.js:120-122 | saving ads never changes the counter, campaigns or ad sets; an earlier error stays; without faulty entity writes no error arises; a new error comes from `faults` |
| `FacebookSync.SyncAdSetsSpecFacts` | server/services/FacebookAPI.js:110-123 | a completed ad-set walk adds exactly the fetched ad sets' ads; an aborted one adds at most that many |
| `FacebookSync.SyncCampaignsSpecFacts` | server/services/FacebookAPI.js:103-124 | a completed campaign walk adds exactly the ad sets and ads fetched below the campaigns |
| `FacebookSync.EntityCount` | server/services/FacebookAPI.js:94-124 | a completed walk counts fetched campaigns + ad sets + ads; an aborted one counts at most that and reports a message from `faults`; without entity faults it completes |
| `FacebookSync.FailedCampaignFetchIsEmptyRun` | server/services/FacebookAPI.js:161-176 | a failed campaign fetch gives an error-free walk that writes nothing and counts 0 |
| `FacebookSync.SyncCampaignsPreserves` | server/services/FacebookAPI.js:103-124 | the walk only writes the account's campaign rows and keeps every desired CPA |
| `FacebookSync.SyncKeepsDesiredCpa` | server/services/FacebookAPI.js:258-264 | a whole entity walk never disturbs a user-set desired CPA nor another account's campaigns |
| `FacebookSync.LastIndexOn` | server/services/FacebookAPI.js:354-374 | the index of the last insight of a given day: none iff no insight has that date |
| `FacebookSync.SaveMetricsLastWriteWins` | server/services/FacebookAPI.js:352-375 | after saving, each (campaign, day) key holds the parse of the day's last row; keys of other campaigns and days are untouched |
| `FacebookSync.SecondSampleWins` | server/services/FacebookAPI.js:356-373 | of two rows of the same day, the second is what stays stored |
| `FacebookSync.FirstMetricFault` | server/services/FacebookAPI.js:356-373 | the first insight whose metric write fails: none iff no write fails |
| `FacebookSync.SaveMetrics` | server/services/FacebookAPI.js:352-375 | a non-campaign level stores nothing; at campaign level rows are upserted in order, and the first failing write aborts with its message after the rows before it |
| `FacebookSync.SyncRecentMetrics` | server/services/FacebookAPI.js:340-349 | on success every stored campaign of the account holds its last-7-days rows; other campaigns' rows are never touched; without metric faults there is no error |
| `FacebookSync.UpdateLastSync` | server/services/FacebookAPI.js:134-137 | a missing row gives "record not found"; a failing write gives its message; otherwise only that row's `lastSync` becomes `now` |
| `FacebookSync.LogSync` | server/services/FacebookAPI.js:444-459 | appends exactly one entry, or nothing when the write fails; no error escapes |
| `FacebookSync.SyncAccountData` | server/services/FacebookAPI.js:92-158 | the entity tables are the spec walk; exactly one log entry (success with the count, or error with the count so far) unless its write fails; `full` always fails after saving; when the walk fails or the mode is `full` no metric row is written; success counts the fetched records and advances `lastSync`; failure leaves accounts unchanged; an incremental run fails only with `RecordNotFound` or the message of a failing write, and succeeds whenever none of the account's entity, metric or `lastSync` writes fails |
| `Analytics.SumOfConcat` | server/routes/analytics.js:185-188 | a sum over concatenated rows is the sum of the parts |
| `Analytics.SumOfPermutation` | server/routes/analytics.js:166-168 | a sum depends only on the multiset of rows |
| `Analytics.WeightedAverage` | server/routes/analytics.js:197-203 | 0 when the total weight is 0; otherwise `avg * Σweight == Σ(field·weight)` |
| `Analytics.CpaWeightedSum` | server/routes/analytics.js:189 | for rows whose CPA was derived at parse time, Σ(cpa·conversions) is the spend of the converting rows |
| `Analytics.AverageCpaIsSpendPerConversion` | server/routes/analytics.js:189 | the CPA average times total conversions equals converting spend |
| `Analytics.CalculateAggregatedKpis` | server/routes/analytics.js:165-182 | no rows give all nine KPIs 0 |
| `Analytics.EmptyBranchAgrees` | server/routes/analytics.js:170-194 | the general formula on no rows also gives all zeros, so the early return changes nothing |
| `Analytics.AggregatedIsKpisOfRows` | server/routes/analytics.js:165-195 | the KPIs are plain totals and fixed-weight averages (CPA by conversions, ROAS by spend, CTR and CPM by impressions, CPC by clicks) of the flattened rows |
| `Analytics.KpisDependOnlyOnRows` | server/routes/analytics.js:166-168 | accounts with the same multiset of flattened rows give equal KPIs, whatever the grouping and order |
| `Analytics.TotalsAddUpPerAccount` | server/routes/analytics.js:166-168 | a total over all accounts is the first account's total plus the rest |
| `Analytics.DateFilter` | server/routes/analytics.js:29-47 | a period outside the four is rejected; `30d` and `90d` give the window of 30 and 90 days back from `now`; no period and `7d` give 7 days; `custom` gives the closed window of its two dates when both are given and 7 days otherwise |
| `Analytics.WindowsNest` | server/routes/analytics.js:41-46 | the 7-day window lies inside the 30-day one, which lies inside the 90-day one |
| `Analytics.CustomWithoutBothDatesIsSevenDays` | server/routes/analytics.js:29-41 | `custom` without both dates, and no period at all, give the 7-day window |
| `Analytics.CustomWindowIsClosed` | server/routes/analytics.js:33-39 | the custom window holds exactly the dates from start to end inclusive |
| `Analytics.SetDesiredCpa` | server/routes/analytics.js:106-162 | a missing or negative value is rejected; a campaign the user does not own gives `CAMPAIGN_NOT_FOUND`; success sets only that campaign's desired CPA; failure changes nothing |
| `OpenAiService.Base64` | server/services/openaiService.js:284 | standard padded base64: 4 characters per started 3-byte group |
| `OpenAiService.Base64RoundTrip` | server/services/openaiService.js:284 | decoding the base64 text gives back the bytes |
| `OpenAiService.Base64Concat` | server/services/openaiService.js:284 | with a prefix of whole 3-byte groups, the encoding of a concatenation is the concatenation of encodings |
| `OpenAiService.Base64Injective` | server/services/openaiService.js:284 | distinct byte strings have distinct encodings |
| `OpenAiService.Ascii` | server/services/openaiService.js:283-284 | the UTF-8 bytes of ASCII text are its code points |
| `OpenAiService.GetCacheKey` | server/services/openaiService.js:282-285 | the key is the kind, `_`, and at most 20 base64 characters; it is a prefix of the untruncated key |
| `OpenAiService.CacheKeyDependsOnFirst15Bytes` | server/services/openaiService.js:284 | payloads agreeing on their first 15 bytes get the same key |
| `OpenAiService.KpiPayloadsCollide` | server/services/openaiService.js:282-285 | two distinct KPI payloads get the same key (the finding below) |
| `OpenAiService.AllKpiPayloadsCollide` | server/services/openaiService.js:282-285 | every payload starting with the KPI prefix gets the same key |
| `OpenAiService.CacheKeyInjective` | server/services/openaiService.js:282-285 | the corrected key is equal iff the payloads are equal |
| `OpenAiService.ParseInsightsResponse` | server/services/openaiService.js:252-260 | content is the answer, the time is `now`, type `general_insights`, confidence 0.85, actionable |
| `OpenAiService.SaveInsightsToDatabase` | server/services/openaiService.js:263-279 | appends exactly one history row with the insight's fields and the snapshot, or nothing when the write fails; no error escapes |
| `OpenAiService.Cached` | server/services/openaiService.js:22-27 | a hit iff the key is present and `now - timestamp < 3600000`; a hit is the stored data |
| `OpenAiService.Sweep` | server/services/openaiService.js:288-295 | keeps exactly the entries with `now - timestamp <= 3600000`, unchanged |
| `OpenAiService.SweepKeepsHits` | server/services/openaiService.js:288-295 | a sweep never changes what a read at the same time returns |
| `OpenAiService.BoundaryEntry` | server/services/openaiService.js:288-295 | an entry aged exactly 3600000 survives the sweep but is no longer a hit |
| `OpenAiService.SweepIdempotent` | server/services/openaiService.js:288-295 | sweeping twice at the same time equals sweeping once |
| `OpenAiService.InsightCache.constructor` | server/services/openaiService.js:13 | the cache starts empty |
| `OpenAiService.InsightCache.GenerateInsights` | server/services/openaiService.js:17-66 | under the truncated `insights_` key: the generator is called iff there is no hit; a hit returns the stored data and changes nothing; a failed generation fails with the fixed message and changes nothing; a success stores the insight at `now` and appends a history row unless that write fails |
| `OpenAiService.InsightCache.ClearOldCache` | server/services/openaiService.js:288-295 | the entries become `Sweep` of the old entries |
| `OpenAiService.StoredInsightIsServed` | server/services/openaiService.js:19-54 | an insight stored at time t is served for reads before t + 3600000 |
| `OpenAiService.CollidingPayloadIsServed` | server/services/openaiService.js:19-25 | an insight stored for one payload is served within the hour for any payload with the same first 15 bytes |
| `OpenAiService.CorrectedKeyServesOwnPayloadOnly` | server/services/openaiService.js:19-25 | under the untruncated key, storing one payload's insight never changes what another payload is served |
| `OpenAiService.StaleInsightForSecondPayload` | server/services/openaiService.js:17-66 | on an empty cache, two KPI insight requests within the hour: the second is not sent to the model and returns the first one's insight |
| `OpenAiService.RulesFor` | server/services/openaiService.js:129-185 | a rule is in a campaign's list iff it fires; the list is in rule order, high CPA < low ROAS < low CTR < excellent |
| `OpenAiService.RecommendationOptions` | server/services/openaiService.js:197-218 | the three known problem types have four options each, none the general review; every other type gets exactly the general review (names inherited from `Object.prototype` excepted, see Left out) |
| `OpenAiService.GetQuickRecommendation` | server/services/openaiService.js:196-220 | the answer is some member of the problem type's list |
| `OpenAiService.HeadsOf` | server/services/openaiService.js:132-183 | each fired rule of a campaign gives one alert head carrying the campaign's id and name |
| `OpenAiService.AlertFor` | server/services/openaiService.js:132-183 | the built alert has the rule's type, severity, title and campaign, and a recommendation from the rule's list |
| `OpenAiService.CheckRule` | server/services/openaiService.js:131-184 | one `if` of the loop body appends an alert iff its rule fires |
| `OpenAiService.CampaignAlerts` | server/services/openaiService.js:130-184 | one campaign gives exactly its fired rules' alerts, in rule order |
| `OpenAiService.GenerateAlerts` | server/services/openaiService.js:125-193 | the alerts are, in order, each campaign's fired rules in rule order |
| `OpenAiService.NoTargetNoCpaRules` | server/services/openaiService.js:131-173 | an unset or zero target CPA never fires the two CPA rules |
| `OpenAiService.RulesExclusive` | server/services/openaiService.js:145-173 | low ROAS and excellent never fire together; with a positive target, neither do high CPA and excellent |
| `OpenAiService.SampleRules` | server/routes/insights.js:92-123 | the mock campaigns fire [high CPA], [low ROAS, low CTR] and [excellent] |
| `OpenAiService.SampleAlerts` | server/routes/insights.js:92-146 | the mock campaigns give exactly four alerts, exactly one of them critical |
| `Dashboard.CpaStatus` | client/src/pages/DashboardPage.jsx:105 | good iff ≤ 50; warning iff in (50, 57.5]; critical iff > 57.5 |
| `Dashboard.RoasStatus` | client/src/pages/DashboardPage.jsx:111 | good iff ≥ 4; warning iff in [3, 4); critical iff < 3 |
| `Dashboard.CtrStatus` | client/src/pages/DashboardPage.jsx:117 | good iff ≥ 2; warning iff in [1.5, 2); critical iff < 1.5 |
| `Dashboard.CpcStatus` | client/src/pages/DashboardPage.jsx:123 | good iff ≤ 1.5; warning iff in (1.5, 2]; critical iff > 2 |
| `Dashboard.StatusesMonotone` | client/src/pages/DashboardPage.jsx:100-125 | lower CPA or CPC and higher ROAS or CTR never give a worse status |
| `Dashboard.StatusColor` | client/src/pages/DashboardPage.jsx:127-134 | fixed classes for good, warning and critical; grey iff the status is none of them |
| `Dashboard.StatusIcon` | client/src/pages/DashboardPage.jsx:136-143 | fixed icons for good, warning and critical; the white circle iff the status is none of them |
| `Dashboard.StatusDrawingsDistinct` | client/src/pages/DashboardPage.jsx:127-143 | the three statuses never get the default drawing, and distinct statuses get distinct colours and icons |
| `Dashboard.MetricCards` | client/src/pages/DashboardPage.jsx:100-125 | four cards: CPA, ROAS, CTR, CPC, each with its ladder's status |
| `Dashboard.EmptyDashboardStatuses` | client/src/pages/DashboardPage.jsx:100-125 | all-zero KPIs show CPA good, ROAS critical, CTR critical, CPC good |
| `FacebookRoutes.TokenExpiry` | server/routes/facebook.js:109-120 | an expiry iff `expires_in` is present and non-zero, and then it is `now + expires_in·1000` |
| `FacebookRoutes.AccountFor` | server/routes/facebook.js:99-105 | the row of a (user, accountId) pair, or none iff there is no such row |
| `FacebookRoutes.UpsertFacts` | server/routes/facebook.js:99-123 | after the upsert the table is still valid (no duplicate pair), one row holds the new name, token and expiry and is active, other pairs' rows are unchanged, and at most the fresh id is added |
| `FacebookRoutes.UpsertIdempotent` | server/routes/facebook.js:99-123 | connecting twice with the same data equals connecting once |
| `FacebookRoutes.Connect` | server/routes/facebook.js:70-149 | without an access token it fails with the fixed message before any write; an encryption failure of the token fails with the encryption message before any write; otherwise the table is the upsert of the token's envelope and the row returned is that pair's, active; under a cipher that opens what it seals, the stored token decrypts back to the access token |
| `FacebookRoutes.StartSync` | server/routes/facebook.js:152-207 | `ACCOUNT_NOT_FOUND` unless the account exists, is the caller's and is active; `SYNC_START_ERROR` when the stored token does not decrypt; otherwise acknowledged with type default `incremental` and status `in_progress`, whatever the run's outcome, and the state is what one sync run with the decrypted token leaves; on either error nothing changes |
| `FacebookRoutes.Deactivated` | server/routes/facebook.js:262-283 | an owned row becomes inactive and is kept; an unowned id changes nothing; other rows are unchanged |
| `FacebookRoutes.DeactivatedIdempotent` | server/routes/facebook.js:262-283 | disconnecting twice equals disconnecting once |
| `FacebookRoutes.DisconnectedRowIsKept` | server/routes/facebook.js:277-283 | a disconnected row keeps every field except `isActive` |
| `FacebookRoutes.Disconnect` | server/routes/facebook.js:258-303 | the table becomes `Deactivated`; owned gives the id, unowned gives `ACCOUNT_NOT_FOUND` |
| `FacebookRoutes.LogsUnder` | server/routes/facebook.js:215-216 | exactly the logs written under the key |
| `FacebookRoutes.NewestFirst` | server/routes/facebook.js:217-218 | at most n entries, the latest first |
| `FacebookRoutes.SyncStatusAsWritten` | server/routes/facebook.js:210-255 | as written: ownership-guarded, and it lists the newest 5 logs filed under the row id |
| `FacebookRoutes.SyncStatus` | server/routes/facebook.js:210-255 | ownership-guarded (activeness not needed); reports the row's name, `lastSync` and `isActive` and exactly the newest 5 logs filed under the account's platform id, newest first |
| `FacebookRoutes.StatusReportsLatestRun` | server/routes/facebook.js:215-219 | after a run is logged, the corrected status lists that run first |
| `FacebookRoutes.StatusAsWrittenMissesRun` | server/routes/facebook.js:215-219 | as written, a logged run never appears in the status when the row id differs from the account id |
| `FacebookRoutes.StatusAsWrittenExample` | server/routes/facebook.js:215-219 | a concrete account for which the as-written status is empty and the corrected one lists the run |
| `FacebookRoutes.LatestMetrics` | server/routes/facebook.js:331-343 | none iff the campaign has no metric row; otherwise one of its rows with the greatest date |
| `FacebookRoutes.ListCampaigns` | server/routes/facebook.js:306-354 | `ACCOUNT_NOT_FOUND` iff not owned and active; otherwise exactly the account's campaigns, each with none iff it has no metric row and otherwise its row with the greatest date |
| `AuthRoutes.Lead` | server/routes/auth.js:19 | the number of leading white-space characters |
| `AuthRoutes.TrimEnd` | server/routes/auth.js:19 | the longest prefix not ending in white space, with only white space cut |
| `AuthRoutes.Trim` | server/routes/auth.js:19 | a slice of the input that starts after the leading white space, has only white space after it, and neither starts nor ends with white space |
| `AuthRoutes.TrimIdempotent` | server/routes/auth.js:19 | trimming twice equals trimming once |
| `AuthRoutes.Lower` | server/routes/auth.js:70 | maps A–Z to a–z and keeps every other character |
| `AuthRoutes.ToLower` | server/routes/auth.js:70 | lowers each character in place |
| `AuthRoutes.ToLowerIdempotent` | server/routes/auth.js:70 | lowering twice equals lowering once |
| `AuthRoutes.Normalize` | server/routes/auth.js:17-23 | for a valid username, the stored key has 3–50 word characters and no capitals |
| `AuthRoutes.ValidityIgnoresCase` | server/routes/auth.js:17-23 | usernames with the same stored key are valid together |
| `AuthRoutes.CheckFirstSetup` | server/middleware/auth.js:72-90 | first setup iff the user table is empty |
| `AuthRoutes.NewUser` | server/routes/auth.js:68-77 | the stored username is lowercased and trimmed, the password is its hash, preferences are 50.0 and notifications on |
| `AuthRoutes.Setup` | server/routes/auth.js:41-126 | `ALREADY_SETUP` first, then `VALIDATION_ERROR`, then `USERNAME_TAKEN`; a valid first setup with a free name succeeds with the normalised name and adds exactly that user; every failure leaves the table unchanged; after success the table is non-empty |
| `AuthRoutes.SecondSetupRefused` | server/routes/auth.js:41-126 | gate, setup, gate, setup in a row: once the first setup succeeds, the second is answered `ALREADY_SETUP` |
| `AuthRoutes.Login` | server/routes/auth.js:129-205 | `VALIDATION_ERROR` on invalid input; an unknown user and a wrong password both give `INVALID_CREDENTIALS`; success iff valid, present and the hash matches |
| `AuthRoutes.LoginIgnoresCase` | server/routes/auth.js:145 | usernames with the same stored key log in alike |
| `AuthRoutes.SetupThenLogin` | server/routes/auth.js:68-171 | the created user can log in with the password under any casing of the name |
| `CryptoUtils.Hex` | server/utils/crypto.js:24-30 | two digits per byte, none of them `:` |
| `CryptoUtils.UnhexHex` | server/utils/crypto.js:48-49 | hex decoding undoes hex encoding |
| `CryptoUtils.HexInjective` | server/utils/crypto.js:73-76 | hex texts are equal iff the bytes are |
| `CryptoUtils.Split` | server/utils/crypto.js:43-46 | `split(':')`: at least one part, none containing `:` |
| `CryptoUtils.SplitCount` | server/utils/crypto.js:84-88 | the number of parts is the number of separators plus one |
| `CryptoUtils.SplitJoin` | server/utils/crypto.js:30-43 | splitting a join of separator-free parts gives the parts back |
| `CryptoUtils.Encrypt` | server/utils/crypto.js:16-36 | empty text gives null; a cipher error is rethrown with the fixed prefix; a sealed text always gives the three-part hex envelope of the iv, tag and ciphertext |
| `CryptoUtils.Decrypt` | server/utils/crypto.js:39-63 | absent or empty input gives null; a split without exactly 3 parts fails with the format message; a decrypted text comes only from a recognised envelope |
| `CryptoUtils.IsEncryptedIffTwoSeparators` | server/utils/crypto.js:84-88 | a string is recognised iff it holds exactly two `:` |
| `CryptoUtils.EncryptDecrypt` | server/utils/crypto.js:16-63 | a failed seal gives an error; a successful seal gives an envelope that is recognised and, when the cipher opens what it seals, decrypts to the text |
| `CryptoUtils.Hash` | server/utils/crypto.js:66-70 | the salt is the given one unless absent or empty, then a fresh one; the hash is the hex of the derived key |
| `CryptoUtils.HashVerifies` | server/utils/crypto.js:66-76 | a text verifies against its own hash; another text verifies iff it derives the same key |
| `Store.RewriteKeepsAccountsValid` | server/routes/facebook.js:99-105 | rewriting a row without changing its (user, accountId) pair keeps that pair unique |

## Left out

- Timestamps `createdAt`, `updatedAt` and the run `duration` are not stored; ISO time strings are modelled as the millisecond integer `now`.
- HTTP and Express wiring, status codes, JWT signing and verification, the login rate limit and the logger are not modelled.
- Prisma is replaced by maps keyed by natural keys. Account rows keep a string surrogate id, because the sync-status finding depends on it. Campaigns are identified by (account row id, platform id).
- The Graph API transport, the first-page limits and paging cursors are not modelled: a fetch is one page, and a failure or missing data becomes `[]`.
- `getAccountInfo` and `exchangeCodeForToken` are inputs to `Connect`; so are the fresh iv and the cipher that encrypt the token. The accounts listing and the auth-url routes are not modelled.
- `syncAllMetrics` is never defined. The `full` step is modelled as the error it throws, after the entities are saved.
- The fire-and-forget sync runs to completion sequentially inside `StartSync`, and its result is discarded. Concurrent requests are not modelled.
- `StartSync`: a stored token that decrypts to nothing is handed to the run as the empty string; a failing account lookup, the other way to reach `SYNC_START_ERROR`, is not modelled.
- A `USERNAME_TAKEN` race between check and insert is covered only by passing `isFirstSetup` in; the P2002 path appears when the key is already present.
- Cryptography is abstract: AES-GCM is a `Cipher` parameter, scrypt a `kdf` parameter, bcrypt a `hash` parameter. The iv is an input: it is written into the envelope as its first piece and never used otherwise, since `seal` takes no iv and `Decrypt` never reads that piece, which is how `createCipher` treats it. The AAD and the key derivation at construction time are not modelled.
- JSON serialisation (`JSON.stringify`) and UTF-8 encoding are inputs: the cache key takes the serialised bytes, the history row the snapshot string. Only ASCII text is turned into bytes by the model.
- Strings are sequences of characters; JavaScript UTF-16 code units are not distinguished.
- Numbers are unbounded `int`/`real`. `parseFloat`/`parseInt` string parsing, `toFixed`/`toLocaleString` and floating-point rounding are not modelled.
- `buildInsightsPrompt`, `analyzeCampaignPerformance`, the model name, temperature and token limit are not modelled; the completion is a `Result` parameter.
- `GenerateAlerts` has no catch path: no modelled step throws. The alert message text and `createdAt` field are not modelled.
- The campaign listing's order by `updatedAt` and its ad-set count are not modelled; the listing is a map.
- `getChartData` and `getCriticalCampaigns` are stubs returning empty lists, and are not modelled.
- Store failures of the route handlers are not modelled; only the sync engine takes `faults`. `Analytics.SetDesiredCpa` (UPDATE_CPA_ERROR), `FacebookRoutes.Connect` on a failing upsert (FACEBOOK_CALLBACK_ERROR), `FacebookRoutes.Disconnect` (DISCONNECT_ERROR), `AuthRoutes.Setup` on a non-P2002 or hashing failure (SETUP_ERROR), `FacebookRoutes.ListCampaigns` (CAMPAIGNS_LOAD_ERROR) and `FacebookRoutes.SyncStatus` (SYNC_STATUS_ERROR) therefore never take their 500 path.
- `OpenAiService.RecommendationOptions`: the fallback to the general review is stated for every other name, but in JavaScript a name inherited from `Object.prototype` (`constructor`, `toString`, `__proto__`, …) finds a truthy value, skips the fallback and yields `undefined`; every caller passes one of the three known names.
- `SetDesiredCpa`: the validator accepts 0 (`isFloat({ min: 0 })`), so 0 is accepted here, although the message speaks of a positive number.
- `Analytics.WeightedAverage`: the bound between the smallest and the largest field value is not stated.
- `AuthRoutes.Lower`: only ASCII letters are lowered; after validation a username holds only ASCII word characters, so this equals JavaScript's `toLowerCase` there.
- `FacebookSync.SyncRecentMetrics`: the stored campaigns are visited in an unspecified order, like `findMany` without `orderBy`; on error the contract says only which rows are untouched and that the message comes from a failing write.
- Ad sets are saved under the platform campaign id and ads under the platform ad-set id, as the code passes them; whether these match the stored relations is not modelled.

## Findings

| source | as written | input that shows it | evidently intended | confidence | as-written member | corrected member |
|---|---|---|---|---|---|---|
| server/routes/facebook.js:215-219 | sync status reads logs where `accountId` equals the route's account row id, but `logSync` files each run under the external account id (server/services/FacebookAPI.js:141, 153, 447-448) | account row `row1` with external id `act1`, after one logged run: the status lists no runs | list the runs of that account, filtered by its external id | not executed | `FacebookRoutes.SyncStatusAsWritten` (with `StatusAsWrittenMissesRun`, `StatusAsWrittenExample`) | `FacebookRoutes.SyncStatus` (with `StatusReportsLatestRun`) |
| server/services/openaiService.js:282-285 | the cache key keeps only the first 20 base64 characters, which encode the first 15 bytes of the serialised arguments | `[{"totalSpend":1},{}]` and `[{"totalSpend":2},{}]` share the 15-byte prefix `[{"totalSpend":`, so distinct KPI payloads get the same key and a stale insight is served | a key that distinguishes distinct inputs | not executed | `OpenAiService.GetCacheKey` (with `KpiPayloadsCollide`, `AllKpiPayloadsCollide`) | `OpenAiService.CacheKey` (with `CacheKeyInjective`, `CorrectedKeyServesOwnPayloadOnly`); `InsightCache.GenerateInsights` keeps the key as written, which `StaleInsightForSecondPayload` exhibits |
