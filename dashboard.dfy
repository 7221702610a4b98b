/**
 * The dashboard's metric cards: each average KPI is classified good, warning or critical by a
 * fixed threshold ladder, and each status is drawn with a fixed colour class and icon.
 */
module Dashboard {
  import Analytics

  datatype Status = Good | Warning | Critical

  /** Worse statuses rank higher. */
  function Rank(s: Status): nat {
    match s
    case Good => 0
    case Warning => 1
    case Critical => 2
  }

  /** The CPA card: the target is R$ 50,00 and up to 15% above it is a warning. */
  function CpaStatus(avgCPA: real): (s: Status)
    ensures s == Good <==> avgCPA <= 50.0
    ensures s == Warning <==> 50.0 < avgCPA <= 57.5
    ensures s == Critical <==> 57.5 < avgCPA
  {
    if avgCPA <= 50.0 then Good else if avgCPA <= 57.5 then Warning else Critical
  }

  /** The ROAS card: the target is 4,00x and 3x is a warning. */
  function RoasStatus(avgROAS: real): (s: Status)
    ensures s == Good <==> avgROAS >= 4.0
    ensures s == Warning <==> 3.0 <= avgROAS < 4.0
    ensures s == Critical <==> avgROAS < 3.0
  {
    if avgROAS >= 4.0 then Good else if avgROAS >= 3.0 then Warning else Critical
  }

  /** The CTR card: the target is 2,00% and 1.5% is a warning. */
  function CtrStatus(avgCTR: real): (s: Status)
    ensures s == Good <==> avgCTR >= 2.0
    ensures s == Warning <==> 1.5 <= avgCTR < 2.0
    ensures s == Critical <==> avgCTR < 1.5
  {
    if avgCTR >= 2.0 then Good else if avgCTR >= 1.5 then Warning else Critical
  }

  /** The CPC card: the target is R$ 1,50 and up to R$ 2 is a warning. */
  function CpcStatus(avgCPC: real): (s: Status)
    ensures s == Good <==> avgCPC <= 1.5
    ensures s == Warning <==> 1.5 < avgCPC <= 2.0
    ensures s == Critical <==> 2.0 < avgCPC
  {
    if avgCPC <= 1.5 then Good else if avgCPC <= 2.0 then Warning else Critical
  }

  /** A cheaper acquisition or click never shows a worse status; a higher return or click rate neither. */
  lemma StatusesMonotone(x: real, y: real)
    requires x <= y
    ensures Rank(CpaStatus(x)) <= Rank(CpaStatus(y))
    ensures Rank(CpcStatus(x)) <= Rank(CpcStatus(y))
    ensures Rank(RoasStatus(y)) <= Rank(RoasStatus(x))
    ensures Rank(CtrStatus(y)) <= Rank(CtrStatus(x))
  {
  }

  /** The string a card carries as its status. */
  function Label(s: Status): string {
    match s
    case Good => "good"
    case Warning => "warning"
    case Critical => "critical"
  }

  const GreyClasses: string := "text-gray-600 bg-gray-50 border-gray-200"

  /** `getStatusColor`: the Tailwind classes of a status string, grey for anything else. */
  function StatusColor(status: string): (classes: string)
    ensures status == "good" ==> classes == "text-green-600 bg-green-50 border-green-200"
    ensures status == "warning" ==> classes == "text-yellow-600 bg-yellow-50 border-yellow-200"
    ensures status == "critical" ==> classes == "text-red-600 bg-red-50 border-red-200"
    ensures classes == GreyClasses <==> status !in {"good", "warning", "critical"}
  {
    if status == "good" then "text-green-600 bg-green-50 border-green-200"
    else if status == "warning" then "text-yellow-600 bg-yellow-50 border-yellow-200"
    else if status == "critical" then "text-red-600 bg-red-50 border-red-200"
    else GreyClasses
  }

  const WhiteCircle: string := "\U{26AA}"

  /** `getStatusIcon`: a check mark, a warning sign, a cross, or a white circle for anything else. */
  function StatusIcon(status: string): (icon: string)
    ensures status == "good" ==> icon == "\U{2705}"
    ensures status == "warning" ==> icon == "\U{26A0}\U{FE0F}"
    ensures status == "critical" ==> icon == "\U{274C}"
    ensures icon == WhiteCircle <==> status !in {"good", "warning", "critical"}
  {
    if status == "good" then "\U{2705}"
    else if status == "warning" then "\U{26A0}\U{FE0F}"
    else if status == "critical" then "\U{274C}"
    else WhiteCircle
  }

  /** The three statuses are drawn apart from each other and from the default. */
  lemma StatusDrawingsDistinct(s: Status, t: Status)
    ensures StatusColor(Label(s)) != GreyClasses && StatusIcon(Label(s)) != WhiteCircle
    ensures s != t ==> StatusColor(Label(s)) != StatusColor(Label(t)) && StatusIcon(Label(s)) != StatusIcon(Label(t))
  {
  }

  datatype Card = Card(name: string, status: Status)

  /** `metricCards`: the four average KPIs of the dashboard response with their statuses. */
  function MetricCards(k: Analytics.Kpis): (cards: seq<Card>)
    ensures |cards| == 4
    ensures cards[0].status == CpaStatus(k.avgCPA) && cards[1].status == RoasStatus(k.avgROAS)
    ensures cards[2].status == CtrStatus(k.avgCTR) && cards[3].status == CpcStatus(k.avgCPC)
  {
    [ Card("CPA Médio", CpaStatus(k.avgCPA)),
      Card("ROAS Médio", RoasStatus(k.avgROAS)),
      Card("CTR Médio", CtrStatus(k.avgCTR)),
      Card("CPC Médio", CpcStatus(k.avgCPC)) ]
  }

  /**
   * With no metrics in the window every average is 0: CPA and CPC cards show good while the
   * ROAS and CTR cards show critical.
   */
  lemma EmptyDashboardStatuses()
    ensures var cards := MetricCards(Analytics.ZeroKpis);
      cards[0].status == Good && cards[1].status == Critical && cards[2].status == Critical && cards[3].status == Good
  {
  }
}
