/**
 * The analytics routes: the dashboard's aggregated KPIs over the metric rows of the selected
 * accounts' campaigns, the period to date-window rule, and the desired-CPA update.
 */
module Analytics {
  import opened Wrappers
  import opened Store
  import FacebookParse

  // ---------------------------------------------------------------------------------------------
  // Metric fields and sums

  /** The numeric metric columns the aggregator reads. */
  datatype Field = Impressions | Clicks | Spend | Conversions | Ctr | Cpc | Cpm | Cpa | Roas

  function Value(m: MetricRow, f: Field): real {
    match f
    case Impressions => m.impressions as real
    case Clicks => m.clicks as real
    case Spend => m.spend
    case Conversions => m.conversions as real
    case Ctr => m.ctr
    case Cpc => m.cpc
    case Cpm => m.cpm
    case Cpa => m.cpa
    case Roas => m.roas
  }

  /** What one row contributes to a sum: a field, or a field times its weight. */
  datatype Term = Plain(field: Field) | Product(field: Field, weight: Field)

  function TermOf(m: MetricRow, t: Term): real {
    match t
    case Plain(f) => Value(m, f)
    case Product(f, w) => Value(m, f) * Value(m, w)
  }

  /** `rows.reduce((sum, m) => sum + term(m), 0)`. */
  function SumOf(rows: seq<MetricRow>, t: Term): real
    decreases |rows|
  {
    if rows == [] then 0.0 else TermOf(rows[0], t) + SumOf(rows[1..], t)
  }

  lemma {:induction false} SumOfConcat(a: seq<MetricRow>, b: seq<MetricRow>, t: Term)
    ensures SumOf(a + b, t) == SumOf(a, t) + SumOf(b, t)
    decreases |a|
  {
    if a == [] {
      assert a + b == b;
    } else {
      assert (a + b)[1..] == a[1..] + b;
      SumOfConcat(a[1..], b, t);
    }
  }

  /** Taking row `j` out of a list takes its term out of the sum. */
  lemma SumOfRemove(b: seq<MetricRow>, j: nat, t: Term)
    requires j < |b|
    ensures SumOf(b, t) == TermOf(b[j], t) + SumOf(b[..j] + b[j + 1..], t)
  {
    assert b == b[..j] + ([b[j]] + b[j + 1..]);
    SumOfConcat(b[..j], [b[j]] + b[j + 1..], t);
    SumOfConcat(b[..j], b[j + 1..], t);
    assert ([b[j]] + b[j + 1..])[1..] == b[j + 1..];
  }

  /** Removing one occurrence of `a[0]` from each side of a multiset equality. */
  lemma MultisetRemove(a: seq<MetricRow>, b: seq<MetricRow>, j: nat)
    requires a != [] && j < |b| && b[j] == a[0]
    requires multiset(a) == multiset(b)
    ensures multiset(a[1..]) == multiset(b[..j] + b[j + 1..])
  {
    var x := a[0];
    assert a == [x] + a[1..];
    assert b == b[..j] + [x] + b[j + 1..];
    assert multiset(a[1..]) == multiset(a) - multiset{x};
    assert multiset(b[..j] + b[j + 1..]) == multiset(b) - multiset{x};
  }

  /** A sum depends only on the multiset of rows, not on their order. */
  lemma {:induction false} SumOfPermutation(a: seq<MetricRow>, b: seq<MetricRow>, t: Term)
    requires multiset(a) == multiset(b)
    ensures SumOf(a, t) == SumOf(b, t)
    decreases |a|
  {
    if a == [] {
      assert |b| == |multiset(b)| == 0;
    } else {
      assert a[0] in multiset(b);
      var j :| 0 <= j < |b| && b[j] == a[0];
      SumOfRemove(b, j, t);
      MultisetRemove(a, b, j);
      SumOfPermutation(a[1..], b[..j] + b[j + 1..], t);
    }
  }

  // ---------------------------------------------------------------------------------------------
  // The weighted average

  /** `calculateWeightedAverage`: Σ(field·weight) / Σweight, or 0 when the weights sum to 0. */
  function WeightedAverage(rows: seq<MetricRow>, field: Field, weight: Field): (r: real)
    ensures SumOf(rows, Plain(weight)) == 0.0 ==> r == 0.0
    ensures SumOf(rows, Plain(weight)) != 0.0 ==> r * SumOf(rows, Plain(weight)) == SumOf(rows, Product(field, weight))
  {
    var totalWeight := SumOf(rows, Plain(weight));
    if totalWeight == 0.0 then 0.0 else SumOf(rows, Product(field, weight)) / totalWeight
  }

  /** The spend of the rows that recorded at least one conversion. */
  function ConvertingSpend(rows: seq<MetricRow>): real
    decreases |rows|
  {
    if rows == [] then 0.0
    else (if rows[0].conversions > 0 then rows[0].spend else 0.0) + ConvertingSpend(rows[1..])
  }

  /** Each row's CPA was derived from its own spend and conversions, as insight parsing derives it. */
  predicate CpaDerived(rows: seq<MetricRow>) {
    forall i :: 0 <= i < |rows| ==> rows[i].cpa == FacebookParse.Cpa(rows[i].spend, rows[i].conversions)
  }

  lemma {:induction false} CpaWeightedSum(rows: seq<MetricRow>)
    requires CpaDerived(rows)
    ensures SumOf(rows, Product(Cpa, Conversions)) == ConvertingSpend(rows)
    decreases |rows|
  {
    if rows != [] {
      var m := rows[0];
      assert TermOf(m, Product(Cpa, Conversions)) == if m.conversions > 0 then m.spend else 0.0 by {
        assert m.cpa == FacebookParse.Cpa(m.spend, m.conversions);
      }
      assert CpaDerived(rows[1..]) by {
        forall i | 0 <= i < |rows[1..]|
          ensures rows[1..][i].cpa == FacebookParse.Cpa(rows[1..][i].spend, rows[1..][i].conversions)
        {
          assert rows[1..][i] == rows[i + 1];
        }
      }
      CpaWeightedSum(rows[1..]);
    }
  }

  /**
   * For parsed rows, the conversion-weighted CPA average is the spend of the converting days per
   * conversion: days without conversions add neither spend nor weight.
   */
  lemma AverageCpaIsSpendPerConversion(rows: seq<MetricRow>)
    requires CpaDerived(rows)
    requires SumOf(rows, Plain(Conversions)) != 0.0
    ensures WeightedAverage(rows, Cpa, Conversions) * SumOf(rows, Plain(Conversions)) == ConvertingSpend(rows)
  {
    CpaWeightedSum(rows);
  }

  // ---------------------------------------------------------------------------------------------
  // The aggregated KPIs

  /** The rows the dashboard loads: accounts, each with campaigns, each with its metric rows. */
  datatype CampaignView = CampaignView(metrics: seq<MetricRow>)
  datatype AccountView = AccountView(campaigns: seq<CampaignView>)

  /** `acc.campaigns.flatMap(camp => camp.metrics)`. */
  function CampaignRows(campaigns: seq<CampaignView>): seq<MetricRow>
    decreases |campaigns|
  {
    if campaigns == [] then [] else campaigns[0].metrics + CampaignRows(campaigns[1..])
  }

  /** `accounts.flatMap(...)`: every metric row, account by account. */
  function AllMetrics(accounts: seq<AccountView>): seq<MetricRow>
    decreases |accounts|
  {
    if accounts == [] then [] else CampaignRows(accounts[0].campaigns) + AllMetrics(accounts[1..])
  }

  datatype Kpis = Kpis(
    totalSpend: real,
    totalImpressions: real,
    totalClicks: real,
    totalConversions: real,
    avgCPA: real,
    avgROAS: real,
    avgCTR: real,
    avgCPC: real,
    avgCPM: real)

  const ZeroKpis := Kpis(0.0, 0.0, 0.0, 0.0, 0.0, 0.0, 0.0, 0.0, 0.0)

  /**
   * The KPIs of a list of rows: four plain totals, and ratio averages weighted by conversions
   * (CPA), spend (ROAS), impressions (CTR and CPM) and clicks (CPC).
   */
  function KpisOf(rows: seq<MetricRow>): Kpis {
    Kpis(
      SumOf(rows, Plain(Spend)),
      SumOf(rows, Plain(Impressions)),
      SumOf(rows, Plain(Clicks)),
      SumOf(rows, Plain(Conversions)),
      WeightedAverage(rows, Cpa, Conversions),
      WeightedAverage(rows, Roas, Spend),
      WeightedAverage(rows, Ctr, Impressions),
      WeightedAverage(rows, Cpc, Clicks),
      WeightedAverage(rows, Cpm, Impressions))
  }

  /** `calculateAggregatedKPIs`: all zeros for no rows, the KPIs of the flattened rows otherwise. */
  function CalculateAggregatedKpis(accounts: seq<AccountView>): (k: Kpis)
    ensures AllMetrics(accounts) == [] ==> k == ZeroKpis
  {
    var allMetrics := AllMetrics(accounts);
    if |allMetrics| == 0 then ZeroKpis else KpisOf(allMetrics)
  }

  /** The early return for no rows gives what the general formula gives anyway. */
  lemma EmptyBranchAgrees()
    ensures KpisOf([]) == ZeroKpis
  {
  }

  /** The KPIs are those of the flattened rows, whatever their number. */
  lemma AggregatedIsKpisOfRows(accounts: seq<AccountView>)
    ensures CalculateAggregatedKpis(accounts) == KpisOf(AllMetrics(accounts))
  {
    EmptyBranchAgrees();
  }

  /** Regrouping the rows into other accounts and campaigns, or reordering them, changes no KPI. */
  lemma KpisDependOnlyOnRows(a: seq<AccountView>, b: seq<AccountView>)
    requires multiset(AllMetrics(a)) == multiset(AllMetrics(b))
    ensures CalculateAggregatedKpis(a) == CalculateAggregatedKpis(b)
  {
    var ra, rb := AllMetrics(a), AllMetrics(b);
    AggregatedIsKpisOfRows(a);
    AggregatedIsKpisOfRows(b);
    forall t: Term
      ensures SumOf(ra, t) == SumOf(rb, t)
    {
      SumOfPermutation(ra, rb, t);
    }
  }

  /** The totals over all accounts are the sums of each account's totals. */
  lemma {:induction false} TotalsAddUpPerAccount(accounts: seq<AccountView>, t: Term)
    ensures SumOf(AllMetrics(accounts), t) == if accounts == [] then 0.0
            else SumOf(CampaignRows(accounts[0].campaigns), t) + SumOf(AllMetrics(accounts[1..]), t)
  {
    if accounts != [] {
      SumOfConcat(CampaignRows(accounts[0].campaigns), AllMetrics(accounts[1..]), t);
    }
  }

  // ---------------------------------------------------------------------------------------------
  // The dashboard's date window

  const DayMs: int := 24 * 60 * 60 * 1000

  /** `date >= gte`, or the closed interval `gte <= date <= lte`. */
  datatype DateWindow = Since(gte: int) | Between(gte: int, lte: int)

  predicate InWindow(w: DateWindow, date: int) {
    match w
    case Since(gte) => gte <= date
    case Between(gte, lte) => gte <= date <= lte
  }

  const Periods: set<string> := {"7d", "30d", "90d", "custom"}

  function DaysBack(period: string): int {
    if period == "30d" then 30 else if period == "90d" then 90 else 7
  }

  /**
   * The window of `GET /dashboard`: an unknown period is refused, an absent one means `7d`;
   * `custom` with both dates is their closed interval, anything else reaches back 7, 30 or 90 days
   * from `now`. Dates are in milliseconds, already parsed.
   */
  function DateFilter(period: Option<string>, dateStart: Option<int>, dateEnd: Option<int>, now: int)
    : (r: Result<DateWindow, string>)
    ensures r.Err? <==> period.Some? && period.value !in Periods
    ensures r.Ok? && r.value.Between? ==> period == Some("custom") && dateStart.Some? && dateEnd.Some?
    ensures r.Ok? && r.value.Since? ==> now - r.value.gte in {7 * DayMs, 30 * DayMs, 90 * DayMs}
    ensures period == Some("30d") ==> r == Ok(Since(now - 30 * DayMs))
    ensures period == Some("90d") ==> r == Ok(Since(now - 90 * DayMs))
    ensures period.None? || period == Some("7d") ==> r == Ok(Since(now - 7 * DayMs))
    ensures period == Some("custom") ==>
      r == if dateStart.Some? && dateEnd.Some? then Ok(Between(dateStart.value, dateEnd.value))
           else Ok(Since(now - 7 * DayMs))
  {
    if period.Some? && period.value !in Periods then Err("Período inválido")
    else
      var p := if period.Some? then period.value else "7d";
      if p == "custom" && dateStart.Some? && dateEnd.Some? then Ok(Between(dateStart.value, dateEnd.value))
      else Ok(Since(now - DaysBack(p) * DayMs))
  }

  /** A day from the last 7 is in the last 30, and a day from the last 30 is in the last 90. */
  lemma WindowsNest(now: int, date: int)
    ensures InWindow(DateFilter(Some("7d"), None, None, now).value, date)
            ==> InWindow(DateFilter(Some("30d"), None, None, now).value, date)
    ensures InWindow(DateFilter(Some("30d"), None, None, now).value, date)
            ==> InWindow(DateFilter(Some("90d"), None, None, now).value, date)
  {
  }

  /** `custom` missing either date, and an absent period, fall back to the last 7 days. */
  lemma CustomWithoutBothDatesIsSevenDays(dateStart: Option<int>, dateEnd: Option<int>, now: int)
    requires dateStart.None? || dateEnd.None?
    ensures DateFilter(Some("custom"), dateStart, dateEnd, now) == DateFilter(Some("7d"), dateStart, dateEnd, now)
    ensures DateFilter(None, dateStart, dateEnd, now) == DateFilter(Some("7d"), dateStart, dateEnd, now)
  {
  }

  /** A custom window holds exactly the days from start to end, both included. */
  lemma CustomWindowIsClosed(dateStart: int, dateEnd: int, now: int, date: int)
    ensures InWindow(DateFilter(Some("custom"), Some(dateStart), Some(dateEnd), now).value, date)
            <==> dateStart <= date <= dateEnd
  {
  }

  // ---------------------------------------------------------------------------------------------
  // The desired-CPA update

  const CampaignNotFound: string := "CAMPAIGN_NOT_FOUND"
  const InvalidCpa: string := "CPA inválido"

  /** The campaign row exists and its account belongs to `userId`. */
  predicate OwnsCampaign(accounts: map<string, Account>, campaigns: map<CampaignKey, Campaign>,
                         userId: string, campaignId: CampaignKey)
  {
    && campaignId in campaigns
    && campaignId.facebookAccountId in accounts
    && accounts[campaignId.facebookAccountId].userId == userId
  }

  /**
   * `POST /campaigns/:campaignId/desired-cpa`: a missing or negative number is refused, a campaign
   * not owned by the caller is not found, and otherwise only its `desiredCPA` changes.
   * `desiredCPA` is `None` when the body's value is not a number.
   */
  method SetDesiredCpa(db: Database, userId: string, campaignId: CampaignKey, desiredCPA: Option<real>)
    returns (r: Result<real, string>)
    modifies db`campaigns
    ensures desiredCPA.None? || desiredCPA.value < 0.0 ==> r == Err(InvalidCpa)
    ensures desiredCPA.Some? && desiredCPA.value >= 0.0 && !OwnsCampaign(db.accounts, old(db.campaigns), userId, campaignId)
            ==> r == Err(CampaignNotFound)
    ensures r.Ok? <==> desiredCPA.Some? && desiredCPA.value >= 0.0 && OwnsCampaign(db.accounts, old(db.campaigns), userId, campaignId)
    ensures r.Ok? ==> r.value == desiredCPA.value
                      && db.campaigns == old(db.campaigns)[campaignId := old(db.campaigns)[campaignId].(desiredCPA := desiredCPA)]
    ensures r.Err? ==> db.campaigns == old(db.campaigns)
  {
    if desiredCPA.None? || desiredCPA.value < 0.0 {
      return Err(InvalidCpa);
    }
    if !OwnsCampaign(db.accounts, db.campaigns, userId, campaignId) {
      return Err(CampaignNotFound);
    }
    var campaign := db.campaigns[campaignId];
    db.campaigns := db.campaigns[campaignId := campaign.(desiredCPA := desiredCPA)];
    r := Ok(desiredCPA.value);
  }
}
