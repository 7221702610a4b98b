/**
 * The relational tables the services read and write, as Dafny maps keyed by the keys the code
 * upserts on.  One `Database` object stands for the shared storage client; each table is a field,
 * so that every operation can say in its `modifies` clause which tables it touches.
 */
module Store {
  import opened Wrappers

  /** Ad-set audience classification; the names follow the strings stored by the service. */
  datatype TargetingType = CustomAudience | Lookalike | Interests | Behaviors | Demographic | Unknown

  /** A connected ad account.  `id` is the surrogate row id, `accountId` the platform's id. */
  datatype Account = Account(
    id: string,
    userId: string,
    accountId: string,
    accountName: string,
    accessToken: Option<string>,
    tokenExpiry: Option<int>,
    isActive: bool,
    lastSync: Option<int>)

  /**
   * Campaign rows are unique per (owning account row, platform campaign id); the model uses that
   * pair as the campaign's row id as well.
   */
  datatype CampaignKey = CampaignKey(facebookAccountId: string, campaignId: string)

  datatype Campaign = Campaign(name: string, objective: string, status: string, desiredCPA: Option<real>)

  /** Ad-set rows are unique per (campaign id as passed by the sync, platform ad-set id). */
  datatype AdSetKey = AdSetKey(campaignId: string, adSetId: string)

  datatype AdSet = AdSet(name: string, status: string, targetingType: TargetingType)

  /** Ad rows are unique per (ad-set id as passed by the sync, platform ad id). */
  datatype AdKey = AdKey(adSetId: string, adId: string)

  datatype Ad = Ad(name: string, status: string, creative: string)

  /** Daily campaign metrics are unique per (campaign row, day); `date` is a timestamp in ms. */
  datatype MetricKey = MetricKey(campaign: CampaignKey, date: int)

  datatype MetricRow = MetricRow(
    impressions: int,
    reach: int,
    clicks: int,
    spend: real,
    conversions: int,
    ctr: real,
    cpc: real,
    cpm: real,
    cpa: real,
    roas: real,
    frequency: real)

  datatype SyncStatus = Success | Error

  /** One entry of the append-only sync log; `accountId` is whatever the writer passed. */
  datatype SyncLog = SyncLog(
    accountId: string,
    syncType: string,
    status: SyncStatus,
    recordsSync: nat,
    errorMessage: Option<string>)

  datatype Preferences = Preferences(defaultCPA: real, notifications: bool)

  /** A user row; `password` holds the password hash, never the password. */
  datatype User = User(username: string, password: string, preferences: Preferences)

  /** One entry of the append-only history of generated insights. */
  datatype AiInsight = AiInsight(
    kind: string,
    content: string,
    confidence: real,
    actionable: bool,
    metricsSnapshot: string,
    createdAt: int)

  /**
   * Account rows are stored under their own id, and the natural key (userId, accountId) is
   * unique among them.
   */
  ghost predicate AccountsValid(accounts: map<string, Account>) {
    && (forall id :: id in accounts ==> accounts[id].id == id)
    && (forall i, j :: SameNaturalKey(accounts, i, j) ==> i == j)
  }

  /** Both ids name account rows that share the natural key (userId, accountId). */
  ghost predicate SameNaturalKey(accounts: map<string, Account>, i: string, j: string) {
    i in accounts && j in accounts
    && accounts[i].userId == accounts[j].userId
    && accounts[i].accountId == accounts[j].accountId
  }

  /** Rewriting a row in place, with its id and natural key kept, keeps the account table valid. */
  lemma RewriteKeepsAccountsValid(accounts: map<string, Account>, id: string, row: Account)
    requires AccountsValid(accounts) && id in accounts
    requires row.id == id && row.userId == accounts[id].userId && row.accountId == accounts[id].accountId
    ensures AccountsValid(accounts[id := row])
  {
    var next := accounts[id := row];
    assert forall i, j :: SameNaturalKey(next, i, j) ==> SameNaturalKey(accounts, i, j);
  }

  class Database {
    var accounts: map<string, Account>
    var campaigns: map<CampaignKey, Campaign>
    var adSets: map<AdSetKey, AdSet>
    var ads: map<AdKey, Ad>
    var campaignMetrics: map<MetricKey, MetricRow>
    var syncLogs: seq<SyncLog>
    var users: map<string, User>
    var aiInsights: seq<AiInsight>

    /** The account table keeps the invariant of `AccountsValid`. */
    ghost predicate Valid()
      reads this`accounts
    {
      AccountsValid(accounts)
    }

    constructor ()
      ensures Valid()
      ensures accounts == map[] && campaigns == map[] && adSets == map[] && ads == map[]
      ensures campaignMetrics == map[] && syncLogs == [] && users == map[] && aiInsights == []
    {
      accounts := map[];
      campaigns := map[];
      adSets := map[];
      ads := map[];
      campaignMetrics := map[];
      syncLogs := [];
      users := map[];
      aiInsights := [];
    }
  }
}
