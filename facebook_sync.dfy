/**
 * The account synchronisation of the ads-platform service: campaigns, then each campaign's ad
 * sets, then each ad set's ads are fetched and upserted by natural key, daily campaign metrics are
 * upserted by (campaign, day), the account's last-sync time is advanced, and one sync-log entry is
 * written per run.
 *
 * The platform's Graph API is an oracle (`GraphApi`) that answers each request with a page, a
 * response without data, or a failure; every fetcher turns the last two into an empty list.
 * A storage write fails exactly when its target is a key of `faults`, with the mapped message.
 */
module FacebookSync {
  import opened Wrappers
  import opened Store
  import opened FacebookParse

  /** The answer to one Graph API request (a single page: paging cursors are never followed). */
  datatype Fetch<T> = Page(data: seq<T>) | NoData | Failed(message: string)

  /** The four list endpoints, as functions of (object id, access token[, date preset, level]). */
  datatype GraphApi = GraphApi(
    campaigns: (string, string) -> Fetch<CampaignData>,
    adSets: (string, string) -> Fetch<AdSetData>,
    ads: (string, string) -> Fetch<AdData>,
    insights: (string, string, string, string) -> Fetch<InsightData>)

  /** `response.data.data || []`, with a failed request caught and answered by `[]`. */
  function Fetched<T>(f: Fetch<T>): seq<T> {
    if f.Page? then f.data else []
  }

  function GetCampaigns(api: GraphApi, accountId: string, token: string): seq<CampaignData> {
    Fetched(api.campaigns(accountId, token))
  }

  function GetAdSets(api: GraphApi, campaignId: string, token: string): seq<AdSetData> {
    Fetched(api.adSets(campaignId, token))
  }

  function GetAds(api: GraphApi, adSetId: string, token: string): seq<AdData> {
    Fetched(api.ads(adSetId, token))
  }

  function GetInsights(api: GraphApi, objectId: string, token: string, datePreset: string, level: string)
    : seq<InsightData>
  {
    Fetched(api.insights(objectId, token, datePreset, level))
  }

  /** The target of one storage write. */
  datatype Write =
    | CampaignWrite(campaign: CampaignKey)
    | AdSetWrite(adSet: AdSetKey)
    | AdWrite(ad: AdKey)
    | MetricWrite(metric: MetricKey)
    | AccountWrite(account: string)
    | LogWrite

  /** The writes that fail, each with the message of the error it throws. */
  type Faults = map<Write, string>

  function Fault(faults: Faults, w: Write): Option<string> {
    if w in faults then Some(faults[w]) else None
  }

  /** Every write that can fail is a sync-log write, which the service swallows. */
  predicate OnlyLogFaults(faults: Faults) {
    forall w :: w in faults ==> w == LogWrite
  }

  /** No campaign, ad-set or ad write fails. */
  predicate NoEntityFaults(faults: Faults) {
    forall w :: w in faults ==> !(w.CampaignWrite? || w.AdSetWrite? || w.AdWrite?)
  }

  /** No metric write fails. */
  predicate NoMetricFaults(faults: Faults) {
    forall w :: w in faults ==> !w.MetricWrite?
  }

  /** The message of the error thrown when `full` mode calls the metric step, which is not defined. */
  const SyncAllMetricsMissing: string := "this.syncAllMetrics is not a function"

  /** The message of the error thrown when the account row to update does not exist. */
  const RecordNotFound: string := "Record to update not found."

  // ---------------------------------------------------------------------------------------------
  // Upserts by natural key

  /** `saveCampaign`'s upsert: an update rewrites name, objective and status only. */
  function UpsertCampaign(campaigns: map<CampaignKey, Campaign>, key: CampaignKey, data: CampaignData)
    : (r: map<CampaignKey, Campaign>)
    ensures r.Keys == campaigns.Keys + {key}
    ensures r[key].name == data.name && r[key].objective == data.objective && r[key].status == data.status
    ensures r[key].desiredCPA == if key in campaigns then campaigns[key].desiredCPA else None
    ensures forall k :: k in campaigns && k != key ==> r[k] == campaigns[k]
  {
    if key in campaigns then
      campaigns[key := campaigns[key].(name := data.name, objective := data.objective, status := data.status)]
    else
      campaigns[key := Campaign(data.name, data.objective, data.status, None)]
  }

  function AdSetRecord(data: AdSetData): AdSet {
    AdSet(data.name, data.status, GetTargetingType(data.targeting))
  }

  /** `JSON.stringify(adData.creative || {})`. */
  function CreativeText(creative: Option<string>): string {
    if creative.Some? then creative.value else "{}"
  }

  function AdRecord(data: AdData): Ad {
    Ad(data.name, data.status, CreativeText(data.creative))
  }

  /** `saveAdSet`'s upsert: its update branch rewrites every stored field. */
  function UpsertAdSet(adSets: map<AdSetKey, AdSet>, key: AdSetKey, data: AdSetData): (r: map<AdSetKey, AdSet>)
    ensures r == adSets[key := AdSetRecord(data)]
  {
    if key in adSets then
      adSets[key := adSets[key].(name := data.name, status := data.status,
                                 targetingType := GetTargetingType(data.targeting))]
    else
      adSets[key := AdSet(data.name, data.status, GetTargetingType(data.targeting))]
  }

  /** `saveAd`'s upsert: its update branch rewrites every stored field. */
  function UpsertAd(ads: map<AdKey, Ad>, key: AdKey, data: AdData): (r: map<AdKey, Ad>)
    ensures r == ads[key := AdRecord(data)]
  {
    if key in ads then
      ads[key := ads[key].(name := data.name, status := data.status, creative := CreativeText(data.creative))]
    else
      ads[key := Ad(data.name, data.status, CreativeText(data.creative))]
  }

  /** Saving the same campaign twice gives the state of saving it once, with a single row. */
  lemma UpsertCampaignIdempotent(campaigns: map<CampaignKey, Campaign>, key: CampaignKey, data: CampaignData)
    ensures UpsertCampaign(UpsertCampaign(campaigns, key, data), key, data) == UpsertCampaign(campaigns, key, data)
    ensures |UpsertCampaign(campaigns, key, data)| == if key in campaigns then |campaigns| else |campaigns| + 1
  {
    var once := UpsertCampaign(campaigns, key, data);
    var twice := UpsertCampaign(once, key, data);
    assert twice.Keys == once.Keys;
    assert forall k :: k in once ==> twice[k] == once[k];
    if key in campaigns {
      assert once.Keys == campaigns.Keys;
    } else {
      assert once.Keys == campaigns.Keys + {key};
    }
  }

  /** Saving the same ad set or ad twice gives the state of saving it once. */
  lemma UpsertAdSetAndAdIdempotent(adSets: map<AdSetKey, AdSet>, sk: AdSetKey, s: AdSetData,
                                   ads: map<AdKey, Ad>, ak: AdKey, a: AdData)
    ensures UpsertAdSet(UpsertAdSet(adSets, sk, s), sk, s) == UpsertAdSet(adSets, sk, s)
    ensures UpsertAd(UpsertAd(ads, ak, a), ak, a) == UpsertAd(ads, ak, a)
    ensures |UpsertAdSet(adSets, sk, s)| == if sk in adSets then |adSets| else |adSets| + 1
    ensures |UpsertAd(ads, ak, a)| == if ak in ads then |ads| else |ads| + 1
  {
  }

  // ---------------------------------------------------------------------------------------------
  // Specification of the entity walk

  /** The entity tables, the records counter and the error that aborted the walk, if any. */
  datatype Progress = Progress(
    campaigns: map<CampaignKey, Campaign>,
    adSets: map<AdSetKey, AdSet>,
    ads: map<AdKey, Ad>,
    records: nat,
    err: Option<string>)

  /** Saving one ad: a failing write records its error, otherwise the ad is upserted. */
  function AdStep(p: Progress, adSetId: string, ad: AdData, faults: Faults): Progress {
    var key := AdKey(adSetId, ad.id);
    if AdWrite(key) in faults then p.(err := Some(faults[AdWrite(key)]))
    else p.(ads := UpsertAd(p.ads, key, ad))
  }

  /** Saves `ads` in order and stops at the first failing write. */
  function SaveAdsSpec(p: Progress, adSetId: string, ads: seq<AdData>, faults: Faults): Progress
    decreases |ads|
  {
    if ads == [] || p.err.Some? then p
    else SaveAdsSpec(AdStep(p, adSetId, ads[0], faults), adSetId, ads[1..], faults)
  }

  /** Saving one ad set, then fetching, counting and saving its ads. */
  function AdSetStep(p: Progress, campaignId: string, adSet: AdSetData, api: GraphApi, token: string,
                     faults: Faults): Progress
  {
    var key := AdSetKey(campaignId, adSet.id);
    if AdSetWrite(key) in faults then p.(err := Some(faults[AdSetWrite(key)]))
    else
      var ads := GetAds(api, adSet.id, token);
      SaveAdsSpec(p.(adSets := UpsertAdSet(p.adSets, key, adSet), records := p.records + |ads|), adSet.id, ads, faults)
  }

  /** Walks `adSets` in order and stops at the first failing write. */
  function SyncAdSetsSpec(p: Progress, campaignId: string, adSets: seq<AdSetData>, api: GraphApi,
                          token: string, faults: Faults): Progress
    decreases |adSets|
  {
    if adSets == [] || p.err.Some? then p
    else SyncAdSetsSpec(AdSetStep(p, campaignId, adSets[0], api, token, faults), campaignId, adSets[1..], api, token, faults)
  }

  /** Saving one campaign, then fetching, counting and walking its ad sets. */
  function CampaignStep(p: Progress, facebookAccountId: string, campaign: CampaignData, api: GraphApi,
                        token: string, faults: Faults): Progress
  {
    var key := CampaignKey(facebookAccountId, campaign.id);
    if CampaignWrite(key) in faults then p.(err := Some(faults[CampaignWrite(key)]))
    else
      var adSets := GetAdSets(api, campaign.id, token);
      SyncAdSetsSpec(p.(campaigns := UpsertCampaign(p.campaigns, key, campaign), records := p.records + |adSets|),
                     campaign.id, adSets, api, token, faults)
  }

  /** Walks `campaigns` in order and stops at the first failing write. */
  function SyncCampaignsSpec(p: Progress, facebookAccountId: string, campaigns: seq<CampaignData>,
                             api: GraphApi, token: string, faults: Faults): Progress
    decreases |campaigns|
  {
    if campaigns == [] || p.err.Some? then p
    else
      SyncCampaignsSpec(CampaignStep(p, facebookAccountId, campaigns[0], api, token, faults),
                        facebookAccountId, campaigns[1..], api, token, faults)
  }

  /** The entity part of one run: the counter starts at the number of fetched campaigns. */
  function SyncEntitiesSpec(campaigns: map<CampaignKey, Campaign>, adSets: map<AdSetKey, AdSet>,
                            ads: map<AdKey, Ad>, account: Account, api: GraphApi, token: string,
                            faults: Faults): Progress
  {
    var fetched := GetCampaigns(api, account.accountId, token);
    SyncCampaignsSpec(Progress(campaigns, adSets, ads, |fetched|, None), account.id, fetched, api, token, faults)
  }

  // ---------------------------------------------------------------------------------------------
  // How many entities the platform returned

  /** The number of ads fetched for `adSets`. */
  function AdsFetched(api: GraphApi, adSets: seq<AdSetData>, token: string): nat
    decreases |adSets|
  {
    if adSets == [] then 0 else |GetAds(api, adSets[0].id, token)| + AdsFetched(api, adSets[1..], token)
  }

  /** The number of ad sets and ads fetched below `campaigns`. */
  function ChildrenFetched(api: GraphApi, campaigns: seq<CampaignData>, token: string): nat
    decreases |campaigns|
  {
    if campaigns == [] then 0
    else
      var adSets := GetAdSets(api, campaigns[0].id, token);
      |adSets| + AdsFetched(api, adSets, token) + ChildrenFetched(api, campaigns[1..], token)
  }

  /** Campaigns plus ad sets plus ads returned for the account; metric rows are not counted. */
  function FetchedCount(api: GraphApi, account: Account, token: string): nat {
    var campaigns := GetCampaigns(api, account.accountId, token);
    |campaigns| + ChildrenFetched(api, campaigns, token)
  }

  // ---------------------------------------------------------------------------------------------
  // Facts about the entity walk

  /** Saving ads never changes the counter, the campaigns or the ad sets, and a set error stays. */
  lemma {:induction false} SaveAdsSpecFacts(p: Progress, adSetId: string, ads: seq<AdData>, faults: Faults)
    ensures SaveAdsSpec(p, adSetId, ads, faults).records == p.records
    ensures SaveAdsSpec(p, adSetId, ads, faults).campaigns == p.campaigns
    ensures SaveAdsSpec(p, adSetId, ads, faults).adSets == p.adSets
    ensures p.err.None? && NoEntityFaults(faults) ==> SaveAdsSpec(p, adSetId, ads, faults).err.None?
    ensures p.err.Some? ==> SaveAdsSpec(p, adSetId, ads, faults) == p
    ensures SaveAdsSpec(p, adSetId, ads, faults).err.Some? ==>
              SaveAdsSpec(p, adSetId, ads, faults).err == p.err
              || SaveAdsSpec(p, adSetId, ads, faults).err.value in faults.Values
    decreases |ads|
  {
    if ads != [] && p.err.None? {
      SaveAdsSpecFacts(AdStep(p, adSetId, ads[0], faults), adSetId, ads[1..], faults);
    }
  }

  /** The ad-set walk adds exactly the ad sets' ads to the counter when it completes. */
  lemma {:induction false} SyncAdSetsSpecFacts(p: Progress, campaignId: string, adSets: seq<AdSetData>,
                                               api: GraphApi, token: string, faults: Faults)
    ensures var r := SyncAdSetsSpec(p, campaignId, adSets, api, token, faults);
      && r.campaigns == p.campaigns
      && p.records <= r.records <= p.records + AdsFetched(api, adSets, token)
      && (p.err.None? && r.err.None? ==> r.records == p.records + AdsFetched(api, adSets, token))
      && (p.err.None? && NoEntityFaults(faults) ==> r.err.None?)
      && (p.err.Some? ==> r == p)
      && (r.err.Some? ==> r.err == p.err || r.err.value in faults.Values)
    decreases |adSets|
  {
    if adSets != [] && p.err.None? {
      var key := AdSetKey(campaignId, adSets[0].id);
      if AdSetWrite(key) !in faults {
        var ads := GetAds(api, adSets[0].id, token);
        var q := p.(adSets := UpsertAdSet(p.adSets, key, adSets[0]), records := p.records + |ads|);
        SaveAdsSpecFacts(q, adSets[0].id, ads, faults);
      }
      SyncAdSetsSpecFacts(AdSetStep(p, campaignId, adSets[0], api, token, faults), campaignId, adSets[1..], api, token, faults);
    }
  }

  /** The campaign walk adds exactly the ad sets and ads below the campaigns when it completes. */
  lemma {:induction false} SyncCampaignsSpecFacts(p: Progress, facebookAccountId: string,
                                                  campaigns: seq<CampaignData>, api: GraphApi,
                                                  token: string, faults: Faults)
    ensures var r := SyncCampaignsSpec(p, facebookAccountId, campaigns, api, token, faults);
      && p.records <= r.records <= p.records + ChildrenFetched(api, campaigns, token)
      && (p.err.None? && r.err.None? ==> r.records == p.records + ChildrenFetched(api, campaigns, token))
      && (p.err.None? && NoEntityFaults(faults) ==> r.err.None?)
      && (p.err.Some? ==> r == p)
      && (r.err.Some? ==> r.err == p.err || r.err.value in faults.Values)
    decreases |campaigns|
  {
    if campaigns != [] && p.err.None? {
      var key := CampaignKey(facebookAccountId, campaigns[0].id);
      if CampaignWrite(key) !in faults {
        var adSets := GetAdSets(api, campaigns[0].id, token);
        var q := p.(campaigns := UpsertCampaign(p.campaigns, key, campaigns[0]), records := p.records + |adSets|);
        SyncAdSetsSpecFacts(q, campaigns[0].id, adSets, api, token, faults);
      }
      SyncCampaignsSpecFacts(CampaignStep(p, facebookAccountId, campaigns[0], api, token, faults),
                             facebookAccountId, campaigns[1..], api, token, faults);
    }
  }

  /**
   * A completed entity walk counts exactly the fetched campaigns, ad sets and ads; an aborted one
   * counts at most that many and reports the message of a failing write; with no failing entity
   * write the walk completes.
   */
  lemma EntityCount(campaigns: map<CampaignKey, Campaign>, adSets: map<AdSetKey, AdSet>, ads: map<AdKey, Ad>,
                    account: Account, api: GraphApi, token: string, faults: Faults)
    ensures var r := SyncEntitiesSpec(campaigns, adSets, ads, account, api, token, faults);
      && r.records <= FetchedCount(api, account, token)
      && (r.err.None? ==> r.records == FetchedCount(api, account, token))
      && (NoEntityFaults(faults) ==> r.err.None?)
      && (r.err.Some? ==> r.err.value in faults.Values)
  {
    var fetched := GetCampaigns(api, account.accountId, token);
    SyncCampaignsSpecFacts(Progress(campaigns, adSets, ads, |fetched|, None), account.id, fetched, api, token, faults);
  }

  /** When the campaign request fails, the entity walk writes nothing and counts zero records. */
  lemma FailedCampaignFetchIsEmptyRun(campaigns: map<CampaignKey, Campaign>, adSets: map<AdSetKey, AdSet>,
                                      ads: map<AdKey, Ad>, account: Account, api: GraphApi, token: string,
                                      faults: Faults)
    requires api.campaigns(account.accountId, token).Failed?
    ensures SyncEntitiesSpec(campaigns, adSets, ads, account, api, token, faults)
            == Progress(campaigns, adSets, ads, 0, None)
  {
  }

  /** The campaign rows a walk may write are the account's; every existing desired CPA survives. */
  ghost predicate CampaignsPreserved(before: map<CampaignKey, Campaign>, after: map<CampaignKey, Campaign>,
                                     facebookAccountId: string)
  {
    && before.Keys <= after.Keys
    && (forall k :: k in before ==> after[k].desiredCPA == before[k].desiredCPA)
    && (forall k :: k in after && k !in before ==> after[k].desiredCPA.None? && k.facebookAccountId == facebookAccountId)
    && (forall k :: k in before && k.facebookAccountId != facebookAccountId ==> after[k] == before[k])
  }

  lemma CampaignsPreservedTransitive(a: map<CampaignKey, Campaign>, b: map<CampaignKey, Campaign>,
                                     c: map<CampaignKey, Campaign>, facebookAccountId: string)
    requires CampaignsPreserved(a, b, facebookAccountId) && CampaignsPreserved(b, c, facebookAccountId)
    ensures CampaignsPreserved(a, c, facebookAccountId)
  {
  }

  lemma {:induction false} SyncCampaignsPreserves(p: Progress, facebookAccountId: string,
                                                  campaigns: seq<CampaignData>, api: GraphApi,
                                                  token: string, faults: Faults)
    ensures CampaignsPreserved(p.campaigns,
                               SyncCampaignsSpec(p, facebookAccountId, campaigns, api, token, faults).campaigns,
                               facebookAccountId)
    decreases |campaigns|
  {
    if campaigns != [] && p.err.None? {
      var key := CampaignKey(facebookAccountId, campaigns[0].id);
      var next := CampaignStep(p, facebookAccountId, campaigns[0], api, token, faults);
      assert CampaignsPreserved(p.campaigns, next.campaigns, facebookAccountId) by {
        if CampaignWrite(key) !in faults {
          var adSets := GetAdSets(api, campaigns[0].id, token);
          var q := p.(campaigns := UpsertCampaign(p.campaigns, key, campaigns[0]), records := p.records + |adSets|);
          SyncAdSetsSpecFacts(q, campaigns[0].id, adSets, api, token, faults);
        }
      }
      var r := SyncCampaignsSpec(next, facebookAccountId, campaigns[1..], api, token, faults);
      assert CampaignsPreserved(next.campaigns, r.campaigns, facebookAccountId) by {
        SyncCampaignsPreserves(next, facebookAccountId, campaigns[1..], api, token, faults);
      }
      CampaignsPreservedTransitive(p.campaigns, next.campaigns, r.campaigns, facebookAccountId);
    }
  }

  /** Re-syncing never disturbs a user-set desired CPA, nor another account's campaigns. */
  lemma SyncKeepsDesiredCpa(campaigns: map<CampaignKey, Campaign>, adSets: map<AdSetKey, AdSet>,
                            ads: map<AdKey, Ad>, account: Account, api: GraphApi, token: string, faults: Faults)
    ensures CampaignsPreserved(campaigns, SyncEntitiesSpec(campaigns, adSets, ads, account, api, token, faults).campaigns,
                               account.id)
  {
    var fetched := GetCampaigns(api, account.accountId, token);
    SyncCampaignsPreserves(Progress(campaigns, adSets, ads, |fetched|, None), account.id, fetched, api, token, faults);
  }

  // ---------------------------------------------------------------------------------------------
  // Specification of the metric step

  function MetricAt(metrics: map<MetricKey, MetricRow>, key: MetricKey): Option<MetricRow> {
    if key in metrics then Some(metrics[key]) else None
  }

  /** Upserts each insight's parsed row under (campaign, date_start), in list order. */
  function SaveMetricsSpec(metrics: map<MetricKey, MetricRow>, campaign: CampaignKey, insights: seq<InsightData>)
    : map<MetricKey, MetricRow>
    decreases |insights|
  {
    if insights == [] then metrics
    else
      var last := insights[|insights| - 1];
      SaveMetricsSpec(metrics, campaign, insights[..|insights| - 1])[MetricKey(campaign, last.dateStart) := ParseInsightData(last)]
  }

  /** The index of the last insight row of day `date`. */
  function LastIndexOn(insights: seq<InsightData>, date: int): (r: Option<nat>)
    ensures r.None? <==> forall i :: 0 <= i < |insights| ==> insights[i].dateStart != date
    ensures r.Some? ==> r.value < |insights| && insights[r.value].dateStart == date
    ensures r.Some? ==> forall j :: r.value < j < |insights| ==> insights[j].dateStart != date
    decreases |insights|
  {
    if insights == [] then None
    else if insights[|insights| - 1].dateStart == date then Some(|insights| - 1)
    else LastIndexOn(insights[..|insights| - 1], date)
  }

  /** What `key` should hold once `insights` are saved for `campaign`: the day's last row, if any. */
  function MetricAfter(before: map<MetricKey, MetricRow>, campaign: CampaignKey, insights: seq<InsightData>,
                       key: MetricKey): Option<MetricRow>
  {
    var i := LastIndexOn(insights, key.date);
    if key.campaign == campaign && i.Some? then Some(ParseInsightData(insights[i.value])) else MetricAt(before, key)
  }

  /**
   * Saving a day's rows leaves exactly one row per (campaign, day), holding the last of them;
   * rows of other campaigns and other days are untouched.
   */
  lemma {:induction false} SaveMetricsLastWriteWins(before: map<MetricKey, MetricRow>, campaign: CampaignKey,
                                                    insights: seq<InsightData>, key: MetricKey)
    ensures MetricAt(SaveMetricsSpec(before, campaign, insights), key) == MetricAfter(before, campaign, insights, key)
    decreases |insights|
  {
    if insights != [] {
      var init := insights[..|insights| - 1];
      SaveMetricsLastWriteWins(before, campaign, init, key);
    }
  }

  /** Two rows for the same day: the second one is what remains stored. */
  lemma SecondSampleWins(before: map<MetricKey, MetricRow>, campaign: CampaignKey, a: InsightData, b: InsightData)
    requires a.dateStart == b.dateStart
    ensures SaveMetricsSpec(before, campaign, [a, b])[MetricKey(campaign, b.dateStart)] == ParseInsightData(b)
  {
    SaveMetricsLastWriteWins(before, campaign, [a, b], MetricKey(campaign, b.dateStart));
  }

  /** The rows requested for a stored campaign: the last 7 days, at campaign level. */
  function InsightsOf(api: GraphApi, token: string, campaign: CampaignKey): seq<InsightData> {
    GetInsights(api, campaign.campaignId, token, "last_7d", "campaign")
  }

  /** The account's campaign rows, as `findMany({ where: { facebookAccountId } })` returns them. */
  function AccountCampaigns(campaigns: map<CampaignKey, Campaign>, facebookAccountId: string): set<CampaignKey> {
    set k | k in campaigns && k.facebookAccountId == facebookAccountId
  }

  /** Every campaign of `camps` got its fetched rows saved; nothing else changed. */
  ghost predicate MetricsSynced(before: map<MetricKey, MetricRow>, after: map<MetricKey, MetricRow>,
                                camps: set<CampaignKey>, api: GraphApi, token: string)
  {
    forall key: MetricKey :: MetricAt(after, key) ==
      if key.campaign in camps then MetricAfter(before, key.campaign, InsightsOf(api, token, key.campaign), key)
      else MetricAt(before, key)
  }

  /** Metric rows of campaigns outside `camps` are untouched. */
  ghost predicate MetricsOutsideUnchanged(before: map<MetricKey, MetricRow>, after: map<MetricKey, MetricRow>,
                                          camps: set<CampaignKey>)
  {
    forall key: MetricKey :: key.campaign !in camps ==> MetricAt(after, key) == MetricAt(before, key)
  }

  // ---------------------------------------------------------------------------------------------
  // The service's methods

  /** `saveCampaign`: a failing write is rethrown, otherwise the campaign is upserted. */
  method SaveCampaign(db: Database, facebookAccountId: string, data: CampaignData, faults: Faults)
    returns (err: Option<string>)
    modifies db`campaigns
    ensures err == Fault(faults, CampaignWrite(CampaignKey(facebookAccountId, data.id)))
    ensures db.campaigns == if err.None? then UpsertCampaign(old(db.campaigns), CampaignKey(facebookAccountId, data.id), data)
                            else old(db.campaigns)
  {
    var key := CampaignKey(facebookAccountId, data.id);
    err := Fault(faults, CampaignWrite(key));
    if err.None? {
      db.campaigns := UpsertCampaign(db.campaigns, key, data);
    }
  }

  /** `saveAdSet`: a failing write is rethrown, otherwise the ad set is upserted. */
  method SaveAdSet(db: Database, campaignId: string, data: AdSetData, faults: Faults) returns (err: Option<string>)
    modifies db`adSets
    ensures err == Fault(faults, AdSetWrite(AdSetKey(campaignId, data.id)))
    ensures db.adSets == if err.None? then UpsertAdSet(old(db.adSets), AdSetKey(campaignId, data.id), data)
                         else old(db.adSets)
  {
    var key := AdSetKey(campaignId, data.id);
    err := Fault(faults, AdSetWrite(key));
    if err.None? {
      db.adSets := UpsertAdSet(db.adSets, key, data);
    }
  }

  /** `saveAd`: a failing write is rethrown, otherwise the ad is upserted. */
  method SaveAd(db: Database, adSetId: string, data: AdData, faults: Faults) returns (err: Option<string>)
    modifies db`ads
    ensures err == Fault(faults, AdWrite(AdKey(adSetId, data.id)))
    ensures db.ads == if err.None? then UpsertAd(old(db.ads), AdKey(adSetId, data.id), data) else old(db.ads)
  {
    var key := AdKey(adSetId, data.id);
    err := Fault(faults, AdWrite(key));
    if err.None? {
      db.ads := UpsertAd(db.ads, key, data);
    }
  }

  /** The entity tables of `db` with a counter and an error. */
  function State(db: Database, records: nat, err: Option<string>): Progress
    reads db
  {
    Progress(db.campaigns, db.adSets, db.ads, records, err)
  }

  /** The innermost loop of `syncAccountData`: save an ad set's ads. */
  method SyncAds(db: Database, adSetId: string, ads: seq<AdData>, faults: Faults, records: nat)
    returns (err: Option<string>)
    modifies db`ads
    ensures State(db, records, err) == SaveAdsSpec(old(State(db, records, None)), adSetId, ads, faults)
  {
    err := None;
    var i := 0;
    while i < |ads| && err.None?
      invariant 0 <= i <= |ads|
      invariant SaveAdsSpec(old(State(db, records, None)), adSetId, ads, faults)
                == SaveAdsSpec(State(db, records, err), adSetId, ads[i..], faults)
    {
      assert ads[i..][1..] == ads[i + 1..];
      ghost var before := State(db, records, err);
      err := SaveAd(db, adSetId, ads[i], faults);
      assert State(db, records, err) == AdStep(before, adSetId, ads[i], faults);
      i := i + 1;
    }
  }

  /** The middle loop of `syncAccountData`: save a campaign's ad sets, fetching and saving their ads. */
  method SyncAdSets(db: Database, campaignId: string, adSets: seq<AdSetData>, api: GraphApi, token: string,
                    faults: Faults, records0: nat)
    returns (records: nat, err: Option<string>)
    modifies db`adSets, db`ads
    ensures State(db, records, err) == SyncAdSetsSpec(old(State(db, records0, None)), campaignId, adSets, api, token, faults)
  {
    records, err := records0, None;
    var i := 0;
    while i < |adSets| && err.None?
      invariant 0 <= i <= |adSets|
      invariant SyncAdSetsSpec(old(State(db, records0, None)), campaignId, adSets, api, token, faults)
                == SyncAdSetsSpec(State(db, records, err), campaignId, adSets[i..], api, token, faults)
    {
      assert adSets[i..][1..] == adSets[i + 1..];
      var adSet := adSets[i];
      ghost var before := State(db, records, err);
      err := SaveAdSet(db, campaignId, adSet, faults);
      if err.None? {
        var ads := GetAds(api, adSet.id, token);
        records := records + |ads|;
        err := SyncAds(db, adSet.id, ads, faults, records);
      }
      assert State(db, records, err) == AdSetStep(before, campaignId, adSet, api, token, faults);
      i := i + 1;
    }
  }

  /** One pass of the outer loop: save the campaign, then fetch and walk its ad sets. */
  method SyncCampaign(db: Database, facebookAccountId: string, campaign: CampaignData, api: GraphApi,
                      token: string, faults: Faults, records0: nat)
    returns (records: nat, err: Option<string>)
    modifies db`campaigns, db`adSets, db`ads
    ensures State(db, records, err) == CampaignStep(old(State(db, records0, None)), facebookAccountId, campaign, api, token, faults)
  {
    records := records0;
    err := SaveCampaign(db, facebookAccountId, campaign, faults);
    if err.None? {
      var adSets := GetAdSets(api, campaign.id, token);
      records := records + |adSets|;
      records, err := SyncAdSets(db, campaign.id, adSets, api, token, faults, records);
    }
  }

  /** The outer loop of `syncAccountData`: save each campaign, then walk its ad sets. */
  method SyncCampaigns(db: Database, facebookAccountId: string, campaigns: seq<CampaignData>, api: GraphApi,
                       token: string, faults: Faults, records0: nat)
    returns (records: nat, err: Option<string>)
    modifies db`campaigns, db`adSets, db`ads
    ensures State(db, records, err)
            == SyncCampaignsSpec(old(State(db, records0, None)), facebookAccountId, campaigns, api, token, faults)
  {
    records, err := records0, None;
    var i := 0;
    while i < |campaigns| && err.None?
      invariant 0 <= i <= |campaigns|
      invariant SyncCampaignsSpec(old(State(db, records0, None)), facebookAccountId, campaigns, api, token, faults)
                == SyncCampaignsSpec(State(db, records, err), facebookAccountId, campaigns[i..], api, token, faults)
    {
      assert campaigns[i..][1..] == campaigns[i + 1..];
      records, err := SyncCampaign(db, facebookAccountId, campaigns[i], api, token, faults, records);
      i := i + 1;
    }
  }

  /** The first insight of `insights` whose metric write fails, if any. */
  function FirstMetricFault(campaign: CampaignKey, insights: seq<InsightData>, faults: Faults): (r: Option<nat>)
    ensures r.None? <==> forall i :: 0 <= i < |insights| ==> MetricWrite(MetricKey(campaign, insights[i].dateStart)) !in faults
    ensures r.Some? ==> r.value < |insights| && MetricWrite(MetricKey(campaign, insights[r.value].dateStart)) in faults
    ensures r.Some? ==> forall i :: 0 <= i < r.value ==> MetricWrite(MetricKey(campaign, insights[i].dateStart)) !in faults
    decreases |insights|
  {
    if insights == [] then None
    else if MetricWrite(MetricKey(campaign, insights[0].dateStart)) in faults then Some(0)
    else
      var r := FirstMetricFault(campaign, insights[1..], faults);
      if r.Some? then Some(r.value + 1) else None
  }

  /**
   * `saveMetrics`: at campaign level each insight is parsed and upserted under (entity, date_start)
   * in list order, and the first failing write aborts with its message; any other level stores
   * nothing.
   */
  method SaveMetrics(db: Database, insights: seq<InsightData>, level: string, entityId: CampaignKey, faults: Faults)
    returns (err: Option<string>)
    modifies db`campaignMetrics
    ensures level != "campaign" ==> err.None? && db.campaignMetrics == old(db.campaignMetrics)
    ensures level == "campaign" ==>
      match FirstMetricFault(entityId, insights, faults)
      case None =>
        err.None? && db.campaignMetrics == SaveMetricsSpec(old(db.campaignMetrics), entityId, insights)
      case Some(n) =>
        && err == Some(faults[MetricWrite(MetricKey(entityId, insights[n].dateStart))])
        && db.campaignMetrics == SaveMetricsSpec(old(db.campaignMetrics), entityId, insights[..n])
  {
    if level != "campaign" {
      return None;
    }
    err := None;
    var i := 0;
    while i < |insights| && err.None?
      invariant 0 <= i <= |insights|
      invariant err.None? ==> && NoMetricFaultBefore(entityId, insights, faults, i)
                              && db.campaignMetrics == SaveMetricsSpec(old(db.campaignMetrics), entityId, insights[..i])
      invariant err.Some? ==>
        && 0 < i
        && FirstMetricFault(entityId, insights, faults) == Some(i - 1)
        && err == Some(faults[MetricWrite(MetricKey(entityId, insights[i - 1].dateStart))])
        && db.campaignMetrics == SaveMetricsSpec(old(db.campaignMetrics), entityId, insights[..i - 1])
    {
      var insight := insights[i];
      var metrics := ParseInsightData(insight);
      var key := MetricKey(entityId, insight.dateStart);
      err := Fault(faults, MetricWrite(key));
      if err.None? {
        assert insights[..i + 1][..i] == insights[..i];
        db.campaignMetrics := db.campaignMetrics[key := metrics];
      } else {
        FirstMetricFaultAt(entityId, insights, faults, i);
      }
      i := i + 1;
    }
    assert err.None? ==> insights[..i] == insights;
  }

  /** No metric write among the first `n` insights fails. */
  predicate NoMetricFaultBefore(campaign: CampaignKey, insights: seq<InsightData>, faults: Faults, n: nat)
    requires n <= |insights|
  {
    forall j :: 0 <= j < n ==> MetricWrite(MetricKey(campaign, insights[j].dateStart)) !in faults
  }

  lemma FirstMetricFaultAt(campaign: CampaignKey, insights: seq<InsightData>, faults: Faults, n: nat)
    requires n < |insights| && NoMetricFaultBefore(campaign, insights, faults, n)
    requires MetricWrite(MetricKey(campaign, insights[n].dateStart)) in faults
    ensures FirstMetricFault(campaign, insights, faults) == Some(n)
  {
  }

  /** Saving rows of a campaign of `camps` keeps the rows outside `camps` untouched. */
  lemma MetricsStepOutside(before: map<MetricKey, MetricRow>, prev: map<MetricKey, MetricRow>, campaign: CampaignKey,
                           saved: seq<InsightData>, camps: set<CampaignKey>)
    requires MetricsOutsideUnchanged(before, prev, camps)
    requires campaign in camps
    ensures MetricsOutsideUnchanged(before, SaveMetricsSpec(prev, campaign, saved), camps)
  {
    forall key: MetricKey | key.campaign !in camps
      ensures MetricAt(SaveMetricsSpec(prev, campaign, saved), key) == MetricAt(before, key)
    {
      SaveMetricsLastWriteWins(prev, campaign, saved, key);
    }
  }

  /** Saving all fetched rows of one more campaign extends the synced set by that campaign. */
  lemma MetricsStepSynced(before: map<MetricKey, MetricRow>, prev: map<MetricKey, MetricRow>, campaign: CampaignKey,
                          done: set<CampaignKey>, api: GraphApi, token: string)
    requires MetricsSynced(before, prev, done, api, token)
    requires campaign !in done
    ensures MetricsSynced(before, SaveMetricsSpec(prev, campaign, InsightsOf(api, token, campaign)),
                          done + {campaign}, api, token)
  {
    var insights := InsightsOf(api, token, campaign);
    forall key: MetricKey
      ensures MetricAt(SaveMetricsSpec(prev, campaign, insights), key) ==
        if key.campaign in done + {campaign} then MetricAfter(before, key.campaign, InsightsOf(api, token, key.campaign), key)
        else MetricAt(before, key)
    {
      SaveMetricsLastWriteWins(prev, campaign, insights, key);
    }
  }

  /** The account's stored rows, each upserted with what the Graph API reported for it. */
  method SyncRecentMetrics(db: Database, account: Account, api: GraphApi, token: string, faults: Faults)
    returns (err: Option<string>)
    modifies db`campaignMetrics
    ensures err.None? ==>
      MetricsSynced(old(db.campaignMetrics), db.campaignMetrics, AccountCampaigns(db.campaigns, account.id), api, token)
    ensures MetricsOutsideUnchanged(old(db.campaignMetrics), db.campaignMetrics, AccountCampaigns(db.campaigns, account.id))
    ensures NoMetricFaults(faults) ==> err.None?
    ensures err.Some? ==> err.value in faults.Values
  {
    ghost var before := db.campaignMetrics;
    var camps := AccountCampaigns(db.campaigns, account.id);
    var todo := camps;
    ghost var done: set<CampaignKey> := {};
    err := None;
    while todo != {} && err.None?
      invariant todo <= camps && done == camps - todo
      invariant MetricsOutsideUnchanged(before, db.campaignMetrics, camps)
      invariant err.None? ==> MetricsSynced(before, db.campaignMetrics, done, api, token)
      invariant NoMetricFaults(faults) ==> err.None?
      invariant err.Some? ==> err.value in faults.Values
      decreases |todo|
    {
      var campaign :| campaign in todo;
      ghost var prev := db.campaignMetrics;
      var insights := GetInsights(api, campaign.campaignId, token, "last_7d", "campaign");
      err := SaveMetrics(db, insights, "campaign", campaign, faults);
      ghost var saved := match FirstMetricFault(campaign, insights, faults)
                           case None => insights
                           case Some(n) => insights[..n];
      assert db.campaignMetrics == SaveMetricsSpec(prev, campaign, saved);
      MetricsStepOutside(before, prev, campaign, saved, camps);
      if err.None? {
        MetricsStepSynced(before, prev, campaign, done, api, token);
      } else {
        var n := FirstMetricFault(campaign, insights, faults).value;
        assert MetricWrite(MetricKey(campaign, insights[n].dateStart)) in faults;
      }
      todo := todo - {campaign};
      done := done + {campaign};
    }
    assert err.None? ==> done == camps;
  }

  /** The `lastSync` update: a missing row or a failing write throws; otherwise the time is set. */
  method UpdateLastSync(db: Database, id: string, faults: Faults, now: int) returns (err: Option<string>)
    requires db.Valid()
    modifies db`accounts
    ensures db.Valid()
    ensures id !in old(db.accounts) ==> err == Some(RecordNotFound)
    ensures id in old(db.accounts) ==> err == Fault(faults, AccountWrite(id))
    ensures db.accounts == if err.None? then old(db.accounts)[id := old(db.accounts)[id].(lastSync := Some(now))]
                           else old(db.accounts)
  {
    if id !in db.accounts {
      return Some(RecordNotFound);
    }
    err := Fault(faults, AccountWrite(id));
    if err.None? {
      RewriteKeepsAccountsValid(db.accounts, id, db.accounts[id].(lastSync := Some(now)));
      db.accounts := db.accounts[id := db.accounts[id].(lastSync := Some(now))];
    }
  }

  /** `logSync`: appends one entry; a failing write is swallowed. */
  method LogSync(db: Database, entry: SyncLog, faults: Faults)
    modifies db`syncLogs
    ensures db.syncLogs == if LogWrite in faults then old(db.syncLogs) else old(db.syncLogs) + [entry]
  {
    if LogWrite !in faults {
      db.syncLogs := db.syncLogs + [entry];
    }
  }

  /** The entry a run writes: `success` with the final count, or `error` with the count so far. */
  function RunLog(account: Account, syncType: string, records: nat, r: Result<nat, string>): SyncLog {
    if r.Ok? then SyncLog(account.accountId, syncType, Success, records, None)
    else SyncLog(account.accountId, syncType, Error, records, Some(r.error))
  }

  /**
   * What one run of `syncAccountData` for `account` leaves behind, from the state before the run
   * to the state after it, `r` being its outcome: the entity tables are the walk's, exactly one
   * log entry is written unless that write fails, metrics outside the account's campaigns are
   * untouched, no metric row at all is written when the walk fails or the mode is `full`, and a
   * success has synced the recent metrics, counted every fetched record and stamped `lastSync`,
   * while a failure leaves the account table alone.  Only `full` mode fails with the missing
   * metric step; an incremental run fails only on a failing write or a vanished account row, and
   * succeeds when no entity, metric or `lastSync` write of the account fails.
   */
  twostate predicate SyncRan(db: Database, account: Account, token: string, syncType: string, api: GraphApi,
                             faults: Faults, now: int, new r: Result<nat, string>)
    reads db
  {
    && (var e := SyncEntitiesSpec(old(db.campaigns), old(db.adSets), old(db.ads), account, api, token, faults);
      && db.campaigns == e.campaigns && db.adSets == e.adSets && db.ads == e.ads
      && (r.Ok? ==> e.err.None? && syncType != "full")
      && (e.err.Some? ==> r == Err(e.err.value))
      && (e.err.None? && syncType == "full" ==> r == Err(SyncAllMetricsMissing))
      && (e.err.Some? || syncType == "full" ==> db.campaignMetrics == old(db.campaignMetrics))
      && db.syncLogs == old(db.syncLogs) + (if LogWrite in faults then [] else [RunLog(account, syncType, e.records, r)])
      && MetricsOutsideUnchanged(old(db.campaignMetrics), db.campaignMetrics, AccountCampaigns(e.campaigns, account.id))
      && (r.Ok? ==> MetricsSynced(old(db.campaignMetrics), db.campaignMetrics,
                                  AccountCampaigns(e.campaigns, account.id), api, token)))
    && (r.Ok? ==> r.value == FetchedCount(api, account, token))
    && (r.Ok? ==> && account.id in old(db.accounts)
                  && db.accounts == old(db.accounts)[account.id := old(db.accounts)[account.id].(lastSync := Some(now))])
    && (r.Err? ==> db.accounts == old(db.accounts))
    && (r.Err? ==> r.error == SyncAllMetricsMissing || r.error == RecordNotFound || r.error in faults.Values)
    && (syncType != "full" && r.Err? ==> r.error == RecordNotFound || r.error in faults.Values)
    && ((NoEntityFaults(faults) && NoMetricFaults(faults) && AccountWrite(account.id) !in faults
         && syncType != "full" && account.id in old(db.accounts)) ==> r.Ok?)
  }

  /**
   * `syncAccountData`: the entity walk, then the metric step (`full` mode throws, since its step is
   * not defined), then the `lastSync` update, then exactly one log entry; an error is rethrown
   * after logging.
   */
  method SyncAccountData(db: Database, account: Account, token: string, syncType: string, api: GraphApi,
                         faults: Faults, now: int)
    returns (r: Result<nat, string>)
    requires db.Valid()
    modifies db`campaigns, db`adSets, db`ads, db`campaignMetrics, db`accounts, db`syncLogs
    ensures db.Valid()
    ensures SyncRan(db, account, token, syncType, api, faults, now, r)
    ensures OnlyLogFaults(faults) && syncType != "full" && account.id in old(db.accounts) ==> r.Ok?
  {
    EntityCount(db.campaigns, db.adSets, db.ads, account, api, token, faults);
    var campaigns := GetCampaigns(api, account.accountId, token);
    var records, err := SyncCampaigns(db, account.id, campaigns, api, token, faults, |campaigns|);
    if err.None? {
      if syncType == "full" {
        err := Some(SyncAllMetricsMissing);
      } else {
        err := SyncRecentMetrics(db, account, api, token, faults);
      }
    }
    if err.None? {
      err := UpdateLastSync(db, account.id, faults, now);
    }
    r := if err.None? then Ok(records) else Err(err.value);
    LogSync(db, RunLog(account, syncType, records, r), faults);
  }
}
