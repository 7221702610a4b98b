/**
 * The insight service: an in-process cache of generated insights with a one-hour time to live,
 * its key, the sweep of old entries, the rule table that turns campaign figures into alerts, and
 * the history of generated insights.  The language-model call is an abstract completion that may
 * fail, and the clock is a parameter.
 */
module OpenAiService {
  import opened Wrappers
  import opened Store

  // ---------------------------------------------------------------------------------------------
  // Base64

  /** A byte of the UTF-8 serialisation. */
  type Byte = x: int | 0 <= x < 256

  /** The base64 digit of a 6-bit value. */
  function SextetChar(k: int): (c: char)
    requires 0 <= k < 64
    ensures c != '='
  {
    if k < 26 then (65 + k) as char
    else if k < 52 then (97 + k - 26) as char
    else if k < 62 then (48 + k - 52) as char
    else if k == 62 then '+'
    else '/'
  }

  /** The 6-bit value of a base64 digit. */
  function CharSextet(c: char): int {
    if 'A' <= c <= 'Z' then c as int - 65
    else if 'a' <= c <= 'z' then c as int - 71
    else if '0' <= c <= '9' then c as int + 4
    else if c == '+' then 62
    else 63
  }

  lemma SextetRoundTrip(k: int)
    requires 0 <= k < 64
    ensures CharSextet(SextetChar(k)) == k
  {
  }

  function Group3(a: Byte, b: Byte, c: Byte): string {
    [SextetChar(a / 4), SextetChar((a % 4) * 16 + b / 16), SextetChar((b % 16) * 4 + c / 64), SextetChar(c % 64)]
  }

  function Group2(a: Byte, b: Byte): string {
    [SextetChar(a / 4), SextetChar((a % 4) * 16 + b / 16), SextetChar((b % 16) * 4), '=']
  }

  function Group1(a: Byte): string {
    [SextetChar(a / 4), SextetChar((a % 4) * 16), '=', '=']
  }

  /** Standard base64 with `=` padding, as `Buffer.toString('base64')` produces it. */
  function Base64(bs: seq<Byte>): (s: string)
    ensures |s| == (|bs| + 2) / 3 * 4
    decreases |bs|
  {
    if |bs| == 0 then ""
    else if |bs| == 1 then Group1(bs[0])
    else if |bs| == 2 then Group2(bs[0], bs[1])
    else Group3(bs[0], bs[1], bs[2]) + Base64(bs[3..])
  }

  function DecodeGroup(g: string): seq<int>
    requires |g| == 4
  {
    var s0, s1, s2, s3 := CharSextet(g[0]), CharSextet(g[1]), CharSextet(g[2]), CharSextet(g[3]);
    if g[2] == '=' then [s0 * 4 + s1 / 16]
    else if g[3] == '=' then [s0 * 4 + s1 / 16, (s1 % 16) * 16 + s2 / 4]
    else [s0 * 4 + s1 / 16, (s1 % 16) * 16 + s2 / 4, (s2 % 4) * 64 + s3]
  }

  function Decode(s: string): seq<int>
    decreases |s|
  {
    if |s| < 4 then [] else DecodeGroup(s[..4]) + Decode(s[4..])
  }

  lemma Pack16(hi: int, lo: int)
    requires 0 <= lo < 16
    ensures (hi * 16 + lo) / 16 == hi && (hi * 16 + lo) % 16 == lo
  {
  }

  lemma Pack4(hi: int, lo: int)
    requires 0 <= lo < 4
    ensures (hi * 4 + lo) / 4 == hi && (hi * 4 + lo) % 4 == lo
  {
  }

  lemma Group3RoundTrip(a: Byte, b: Byte, c: Byte)
    ensures DecodeGroup(Group3(a, b, c)) == [a, b, c]
  {
    var s1, s2 := (a % 4) * 16 + b / 16, (b % 16) * 4 + c / 64;
    SextetRoundTrip(a / 4);
    SextetRoundTrip(s1);
    SextetRoundTrip(s2);
    SextetRoundTrip(c % 64);
    Pack16(a % 4, b / 16);
    Pack4(b % 16, c / 64);
    assert (a / 4) * 4 + s1 / 16 == a;
    assert (s1 % 16) * 16 + s2 / 4 == b;
    assert (s2 % 4) * 64 + c % 64 == c;
  }

  lemma Group2RoundTrip(a: Byte, b: Byte)
    ensures DecodeGroup(Group2(a, b)) == [a, b]
  {
    SextetRoundTrip(a / 4);
    SextetRoundTrip((a % 4) * 16 + b / 16);
    SextetRoundTrip((b % 16) * 4);
  }

  lemma Group1RoundTrip(a: Byte)
    ensures DecodeGroup(Group1(a)) == [a]
  {
    SextetRoundTrip(a / 4);
    SextetRoundTrip((a % 4) * 16);
  }

  lemma {:induction false} Base64RoundTrip(bs: seq<Byte>)
    ensures Decode(Base64(bs)) == bs
    decreases |bs|
  {
    if |bs| == 1 {
      Group1RoundTrip(bs[0]);
    } else if |bs| == 2 {
      Group2RoundTrip(bs[0], bs[1]);
    } else if |bs| >= 3 {
      var g, rest := Group3(bs[0], bs[1], bs[2]), Base64(bs[3..]);
      assert (g + rest)[..4] == g && (g + rest)[4..] == rest;
      Group3RoundTrip(bs[0], bs[1], bs[2]);
      Base64RoundTrip(bs[3..]);
      assert bs == bs[..3] + bs[3..];
    }
  }

  /** Splitting the input after a whole number of 3-byte groups splits the encoding. */
  lemma {:induction false} Base64Concat(a: seq<Byte>, b: seq<Byte>)
    requires |a| % 3 == 0
    ensures Base64(a + b) == Base64(a) + Base64(b)
    decreases |a|
  {
    if a == [] {
      assert a + b == b;
    } else {
      assert (a + b)[3..] == a[3..] + b;
      assert (a + b)[..3] == a[..3];
      Base64Concat(a[3..], b);
    }
  }

  lemma Base64Injective(a: seq<Byte>, b: seq<Byte>)
    ensures Base64(a) == Base64(b) ==> a == b
  {
    Base64RoundTrip(a);
    Base64RoundTrip(b);
  }

  /** The bytes of a string of ASCII characters. */
  function Ascii(s: string): (bs: seq<Byte>)
    requires forall i :: 0 <= i < |s| ==> s[i] as int < 128
    ensures |bs| == |s| && forall i :: 0 <= i < |s| ==> bs[i] == s[i] as int
  {
    seq(|s|, i requires 0 <= i < |s| => s[i] as int)
  }

  // ---------------------------------------------------------------------------------------------
  // The cache key

  /**
   * `getCacheKey`: the type, `_`, and the first 20 base64 characters of the serialised arguments
   * (`JSON.stringify(args)` as UTF-8 bytes, which is an input here).
   */
  function GetCacheKey(kind: string, serialized: seq<Byte>): (key: string)
    ensures |key| == |kind| + 1 + if |serialized| >= 15 then 20 else (|serialized| + 2) / 3 * 4
    ensures key[..|kind| + 1] == kind + "_"
    ensures key == CacheKey(kind, serialized)[..|key|]
  {
    var encoded := Base64(serialized);
    kind + "_" + encoded[..if |encoded| < 20 then |encoded| else 20]
  }

  /** The truncated key sees only the first 15 bytes of the serialisation. */
  lemma CacheKeyDependsOnFirst15Bytes(kind: string, a: seq<Byte>, b: seq<Byte>)
    requires |a| >= 15 && |b| >= 15 && a[..15] == b[..15]
    ensures GetCacheKey(kind, a) == GetCacheKey(kind, b)
  {
    assert a == a[..15] + a[15..];
    assert b == b[..15] + b[15..];
    Base64Concat(a[..15], a[15..]);
    Base64Concat(b[..15], b[15..]);
    assert |Base64(a[..15])| == 20;
  }

  /** The 15 bytes every serialised KPI payload starts with: `[{"totalSpend":`. */
  const KpiPrefix: string := "[{\"totalSpend\":"

  /** Two insight requests for different KPI figures share one cache key. */
  lemma KpiPayloadsCollide()
    ensures var a, b := Ascii("[{\"totalSpend\":1},{}]"), Ascii("[{\"totalSpend\":2},{}]");
      a != b && GetCacheKey("insights", a) == GetCacheKey("insights", b)
  {
    var a, b := Ascii("[{\"totalSpend\":1},{}]"), Ascii("[{\"totalSpend\":2},{}]");
    assert a[15] != b[15];
    assert a[..15] == b[..15];
    CacheKeyDependsOnFirst15Bytes("insights", a, b);
  }

  /** Every serialisation that starts with the KPI prefix maps to the same key. */
  lemma AllKpiPayloadsCollide(kind: string, a: seq<Byte>, b: seq<Byte>)
    requires |a| >= 15 && |b| >= 15
    requires a[..15] == Ascii(KpiPrefix) && b[..15] == Ascii(KpiPrefix)
    ensures GetCacheKey(kind, a) == GetCacheKey(kind, b)
  {
    CacheKeyDependsOnFirst15Bytes(kind, a, b);
  }

  /** The key with the whole encoding kept, as the cache evidently intends. */
  function CacheKey(kind: string, serialized: seq<Byte>): string {
    kind + "_" + Base64(serialized)
  }

  /** Equal keys of one type come from equal serialisations. */
  lemma CacheKeyInjective(kind: string, a: seq<Byte>, b: seq<Byte>)
    ensures CacheKey(kind, a) == CacheKey(kind, b) <==> a == b
  {
    if CacheKey(kind, a) == CacheKey(kind, b) {
      var n := |kind| + 1;
      assert CacheKey(kind, a)[n..] == Base64(a);
      assert CacheKey(kind, b)[n..] == Base64(b);
      Base64Injective(a, b);
    }
  }

  // ---------------------------------------------------------------------------------------------
  // Insights and their history

  /** The object `parseInsightsResponse` builds around the model's answer. */
  datatype Insight = Insight(content: string, generatedAt: int, kind: string, confidence: real, actionable: bool)

  const InsightsKind: string := "insights"
  const GeneralInsights: string := "general_insights"
  const InsightConfidence: real := 0.85
  const GenerationFailed: string := "Falha ao gerar insights da IA"

  /** `parseInsightsResponse`: the answer, stamped with the time and fixed type, score and flag. */
  function ParseInsightsResponse(aiResponse: string, now: int): (r: Insight)
    ensures r.content == aiResponse && r.generatedAt == now
    ensures r.kind == GeneralInsights && r.confidence == InsightConfidence && r.actionable
  {
    Insight(aiResponse, now, GeneralInsights, InsightConfidence, true)
  }

  /** The history row of an insight: its type, content, score and flag, with the metrics it read. */
  function HistoryRow(insight: Insight, metricsSnapshot: string, now: int): AiInsight {
    AiInsight(insight.kind, insight.content, insight.confidence, insight.actionable, metricsSnapshot, now)
  }

  /** `saveInsightsToDatabase`: appends the history row; a failing write is swallowed. */
  method SaveInsightsToDatabase(db: Database, insight: Insight, metricsSnapshot: string, writeFails: bool, now: int)
    modifies db`aiInsights
    ensures db.aiInsights == if writeFails then old(db.aiInsights)
                             else old(db.aiInsights) + [HistoryRow(insight, metricsSnapshot, now)]
  {
    if !writeFails {
      db.aiInsights := db.aiInsights + [HistoryRow(insight, metricsSnapshot, now)];
    }
  }

  // ---------------------------------------------------------------------------------------------
  // The cache

  /** One hour, in milliseconds. */
  const Ttl: int := 3600000

  datatype CacheEntry = CacheEntry(data: Insight, timestamp: int)

  /** The entry under `key` is fresh enough to be served at `now`. */
  predicate IsHit(entries: map<string, CacheEntry>, key: string, now: int) {
    key in entries && now - entries[key].timestamp < Ttl
  }

  /** What a read at `now` serves from the cache, if anything. */
  function Cached(entries: map<string, CacheEntry>, key: string, now: int): (r: Option<Insight>)
    ensures r.Some? <==> IsHit(entries, key, now)
    ensures r.Some? ==> r.value == entries[key].data
  {
    if IsHit(entries, key, now) then Some(entries[key].data) else None
  }

  /** The entries `clearOldCache` keeps at `now`: those at most one hour old. */
  function Sweep(entries: map<string, CacheEntry>, now: int): (r: map<string, CacheEntry>)
    ensures forall k :: k in r <==> k in entries && now - entries[k].timestamp <= Ttl
    ensures forall k :: k in r ==> r[k] == entries[k]
  {
    map k | k in entries && now - entries[k].timestamp <= Ttl :: entries[k]
  }

  /** The sweep never removes an entry that would still be served. */
  lemma SweepKeepsHits(entries: map<string, CacheEntry>, key: string, now: int)
    ensures Cached(Sweep(entries, now), key, now) == Cached(entries, key, now)
  {
  }

  /** An entry exactly one hour old survives the sweep but is no longer served. */
  lemma BoundaryEntry(entries: map<string, CacheEntry>, key: string, now: int)
    requires key in entries && now - entries[key].timestamp == Ttl
    ensures key in Sweep(entries, now) && Cached(entries, key, now).None?
  {
  }

  /** Sweeping twice at the same time removes nothing more. */
  lemma SweepIdempotent(entries: map<string, CacheEntry>, now: int)
    ensures Sweep(Sweep(entries, now), now) == Sweep(entries, now)
  {
  }

  /** The in-process map of the service, from cache key to insight and time of generation. */
  class InsightCache {
    var entries: map<string, CacheEntry>

    constructor ()
      ensures entries == map[]
    {
      entries := map[];
    }

    /**
     * `generateInsights`, keyed by the truncated `insights_` key of the serialised arguments: a
     * fresh entry under that key is served without calling the model; otherwise the model is asked (`completion`), a failure is rethrown as the generic error and leaves the
     * cache alone, and a success is stored under the key with time `now` and appended to the
     * history (whose failure is ignored).  `called` tells whether the model was asked.
     */
    method GenerateInsights(db: Database, serialized: seq<Byte>, metricsSnapshot: string,
                            completion: Result<string, string>, historyFails: bool, now: int)
      returns (r: Result<Insight, string>, called: bool)
      modifies this, db`aiInsights
      ensures called <==> !IsHit(old(entries), GetCacheKey(InsightsKind, serialized), now)
      ensures !called ==> && r == Ok(old(entries)[GetCacheKey(InsightsKind, serialized)].data)
                          && entries == old(entries) && db.aiInsights == old(db.aiInsights)
      ensures called && completion.Err? ==> && r == Err(GenerationFailed)
                                            && entries == old(entries) && db.aiInsights == old(db.aiInsights)
      ensures called && completion.Ok? ==>
        && r == Ok(ParseInsightsResponse(completion.value, now))
        && entries == old(entries)[GetCacheKey(InsightsKind, serialized) := CacheEntry(r.value, now)]
        && db.aiInsights == if historyFails then old(db.aiInsights)
                            else old(db.aiInsights) + [HistoryRow(r.value, metricsSnapshot, now)]
    {
      var key := GetCacheKey(InsightsKind, serialized);
      var hit := Cached(entries, key, now);
      if hit.Some? {
        return Ok(hit.value), false;
      }
      called := true;
      if completion.Err? {
        return Err(GenerationFailed), called;
      }
      var insight := ParseInsightsResponse(completion.value, now);
      entries := entries[key := CacheEntry(insight, now)];
      SaveInsightsToDatabase(db, insight, metricsSnapshot, historyFails, now);
      r := Ok(insight);
    }

    /** `clearOldCache`: deletes, one by one, every entry more than one hour old. */
    method ClearOldCache(now: int)
      modifies this
      ensures entries == Sweep(old(entries), now)
    {
      var pending := entries.Keys;
      while pending != {}
        invariant pending <= old(entries).Keys
        invariant forall k :: k in entries <==> k in old(entries) && (k in pending || now - old(entries)[k].timestamp <= Ttl)
        invariant forall k :: k in entries ==> entries[k] == old(entries)[k]
        decreases |pending|
      {
        var k :| k in pending;
        if now - entries[k].timestamp > Ttl {
          entries := entries - {k};
        }
        pending := pending - {k};
      }
    }
  }

  /** A stored insight is served, unchanged, to every read within the hour after it was stored. */
  lemma StoredInsightIsServed(entries: map<string, CacheEntry>, key: string, insight: Insight, stored: int, now: int)
    requires stored <= now < stored + Ttl
    ensures Cached(entries[key := CacheEntry(insight, stored)], key, now) == Some(insight)
  {
  }

  /**
   * With the truncated key, an insight stored for one payload is served, within the hour, for any
   * other payload with the same first 15 bytes.
   */
  lemma CollidingPayloadIsServed(entries: map<string, CacheEntry>, a: seq<Byte>, b: seq<Byte>, insight: Insight,
                                 stored: int, now: int)
    requires |a| >= 15 && |b| >= 15 && a[..15] == b[..15]
    requires stored <= now < stored + Ttl
    ensures var cache := entries[GetCacheKey(InsightsKind, a) := CacheEntry(insight, stored)];
      IsHit(cache, GetCacheKey(InsightsKind, b), now) && Cached(cache, GetCacheKey(InsightsKind, b), now) == Some(insight)
  {
    CacheKeyDependsOnFirst15Bytes(InsightsKind, a, b);
  }

  /** With the untruncated key, storing an insight for one payload never changes what another is served. */
  lemma CorrectedKeyServesOwnPayloadOnly(entries: map<string, CacheEntry>, a: seq<Byte>, b: seq<Byte>,
                                         entry: CacheEntry, now: int)
    requires a != b
    ensures Cached(entries[CacheKey(InsightsKind, a) := entry], CacheKey(InsightsKind, b), now)
            == Cached(entries, CacheKey(InsightsKind, b), now)
  {
    CacheKeyInjective(InsightsKind, a, b);
  }

  /**
   * Two insight requests on an empty cache, for the KPI payloads `[{"totalSpend":1},{}]` and
   * `[{"totalSpend":2},{}]`, within the hour: the second is answered from the cache with the
   * first one's insight, and the model is not asked again.
   */
  method StaleInsightForSecondPayload(cache: InsightCache, db: Database, completion: Result<string, string>,
                                      first: int, second: int)
    returns (r1: Result<Insight, string>, r2: Result<Insight, string>, called2: bool)
    requires cache.entries == map[] && completion.Ok? && first <= second < first + Ttl
    modifies cache, db`aiInsights
    ensures r1.Ok? && !called2 && r2 == r1
  {
    var a, b := Ascii("[{\"totalSpend\":1},{}]"), Ascii("[{\"totalSpend\":2},{}]");
    KpiPayloadsCollide();
    var called1;
    r1, called1 := cache.GenerateInsights(db, a, "", completion, false, first);
    r2, called2 := cache.GenerateInsights(db, b, "", completion, false, second);
  }

  // ---------------------------------------------------------------------------------------------
  // Alerts

  /** The figures `generateAlerts` reads for one campaign; `targetCPA` is absent when unset. */
  datatype CampaignFigures = CampaignFigures(
    id: string, name: string, cpa: real, targetCPA: Option<real>, roas: real, ctr: real)

  /** The four rules, in the order they are evaluated. */
  datatype Rule = HighCpa | LowRoas | LowCtr | Excellent

  /** `campaign.targetCPA` is truthy: set and not 0. */
  predicate HasTarget(c: CampaignFigures) {
    c.targetCPA.Some? && c.targetCPA.value != 0.0
  }

  predicate Fires(c: CampaignFigures, rule: Rule) {
    match rule
    case HighCpa => HasTarget(c) && c.cpa > c.targetCPA.value * 1.2
    case LowRoas => c.roas < 2.0
    case LowCtr => c.ctr < 1.0
    case Excellent => c.roas > 5.0 && HasTarget(c) && c.cpa < c.targetCPA.value * 0.8
  }

  /** `[rule]` when it fires, else nothing. */
  function Only(fires: bool, rule: Rule): seq<Rule> {
    if fires then [rule] else []
  }

  /** The rules a campaign triggers, in the order `generateAlerts` checks them. */
  function RulesFor(c: CampaignFigures): (rules: seq<Rule>)
    ensures forall rule :: rule in rules <==> Fires(c, rule)
    ensures forall i, j :: 0 <= i < j < |rules| ==> RuleRank(rules[i]) < RuleRank(rules[j])
  {
    Only(Fires(c, HighCpa), HighCpa) + Only(Fires(c, LowRoas), LowRoas)
    + Only(Fires(c, LowCtr), LowCtr) + Only(Fires(c, Excellent), Excellent)
  }

  function RuleRank(rule: Rule): nat {
    match rule
    case HighCpa => 0
    case LowRoas => 1
    case LowCtr => 2
    case Excellent => 3
  }

  function AlertType(rule: Rule): string {
    match rule
    case HighCpa => "warning"
    case LowRoas => "error"
    case LowCtr => "info"
    case Excellent => "success"
  }

  function Severity(rule: Rule): string {
    match rule
    case HighCpa => "high"
    case LowRoas => "critical"
    case LowCtr => "medium"
    case Excellent => "low"
  }

  function Title(rule: Rule): string {
    match rule
    case HighCpa => "CPA acima do desejável"
    case LowRoas => "ROAS crítico"
    case LowCtr => "CTR baixo"
    case Excellent => "Performance excelente!"
  }

  /** The `problemType` each rule asks a recommendation for; the excellent rule has a fixed one. */
  function ProblemType(rule: Rule): string {
    match rule
    case HighCpa => "high_cpa"
    case LowRoas => "low_roas"
    case LowCtr => "low_ctr"
    case Excellent => "excellent"
  }

  const ScaleUp: string := "Considere aumentar o orçamento para escalar esta campanha"
  const GeneralReview: string := "Revisar configurações gerais"

  /** The fixed recommendation lists of `getQuickRecommendation`, with the fallback. */
  function RecommendationOptions(problemType: string): (options: seq<string>)
    ensures |options| > 0
    ensures problemType in {"high_cpa", "low_roas", "low_ctr"} ==> |options| == 4 && GeneralReview !in options
    ensures problemType !in {"high_cpa", "low_roas", "low_ctr"} ==> options == [GeneralReview]
  {
    if problemType == "high_cpa" then
      ["Revisar segmentação de público", "Testar novos criativos", "Ajustar lances automáticos",
       "Excluir públicos com baixa performance"]
    else if problemType == "low_roas" then
      ["Verificar pixel de conversão", "Otimizar landing page", "Revisar funil de vendas", "Ajustar público-alvo"]
    else if problemType == "low_ctr" then
      ["Atualizar criativos visuais", "Testar novas copy do anúncio", "Revisar público-alvo",
       "Adicionar call-to-action mais forte"]
    else [GeneralReview]
  }

  /** The recommendations an alert of `rule` may carry. */
  function AllowedRecommendations(rule: Rule): seq<string> {
    if rule == Excellent then [ScaleUp] else RecommendationOptions(ProblemType(rule))
  }

  /** `getQuickRecommendation`: some entry of the list for the problem (chosen at random). */
  method GetQuickRecommendation(problemType: string) returns (recommendation: string)
    ensures recommendation in RecommendationOptions(problemType)
  {
    var options := RecommendationOptions(problemType);
    assert options[0] in options;
    recommendation :| recommendation in options;
  }

  /** An alert without its formatted message and time stamp. */
  datatype Alert = Alert(
    alertType: string, severity: string, campaignId: string, campaignName: string, title: string,
    recommendation: string)

  /** What an alert records apart from its recommendation. */
  datatype AlertHead = AlertHead(rule: Rule, campaignId: string, campaignName: string)

  /** The alerts for `campaigns`: campaign by campaign, and rule by rule within a campaign. */
  function AlertHeads(campaigns: seq<CampaignFigures>): seq<AlertHead>
    decreases |campaigns|
  {
    if campaigns == [] then []
    else
      var c := campaigns[0];
      HeadsOf(c, RulesFor(c)) + AlertHeads(campaigns[1..])
  }

  function HeadsOf(c: CampaignFigures, rules: seq<Rule>): (heads: seq<AlertHead>)
    ensures |heads| == |rules|
    ensures forall i :: 0 <= i < |rules| ==> heads[i] == AlertHead(rules[i], c.id, c.name)
  {
    seq(|rules|, i requires 0 <= i < |rules| => AlertHead(rules[i], c.id, c.name))
  }

  /** The alert is the one `head` describes, with one of the recommendations its rule allows. */
  predicate Realises(a: Alert, head: AlertHead) {
    && a.alertType == AlertType(head.rule)
    && a.severity == Severity(head.rule)
    && a.campaignId == head.campaignId
    && a.campaignName == head.campaignName
    && a.title == Title(head.rule)
    && a.recommendation in AllowedRecommendations(head.rule)
  }

  predicate RealisesAll(alerts: seq<Alert>, heads: seq<AlertHead>) {
    |alerts| == |heads| && forall i :: 0 <= i < |heads| ==> Realises(alerts[i], heads[i])
  }

  /** One alert of `rule` for `c`, asking `getQuickRecommendation` for all rules but the excellent one. */
  method AlertFor(c: CampaignFigures, rule: Rule) returns (alert: Alert)
    ensures Realises(alert, AlertHead(rule, c.id, c.name))
  {
    var recommendation;
    if rule == Excellent {
      recommendation := ScaleUp;
    } else {
      recommendation := GetQuickRecommendation(ProblemType(rule));
    }
    alert := Alert(AlertType(rule), Severity(rule), c.id, c.name, Title(rule), recommendation);
  }

  /** One rule check: when the rule fires for `c`, its alert is pushed. */
  method CheckRule(c: CampaignFigures, rule: Rule, alerts: seq<Alert>, ghost rules: seq<Rule>)
    returns (next: seq<Alert>)
    requires RealisesAll(alerts, HeadsOf(c, rules))
    ensures RealisesAll(next, HeadsOf(c, rules + Only(Fires(c, rule), rule)))
  {
    next := alerts;
    if Fires(c, rule) {
      var a := AlertFor(c, rule);
      HeadsOfSnoc(c, rules, rule);
      RealisesAllConcat(alerts, HeadsOf(c, rules), [a], [AlertHead(rule, c.id, c.name)]);
      next := alerts + [a];
    } else {
      assert rules + [] == rules;
    }
  }

  /** The four rule checks `generateAlerts` makes on one campaign, in order. */
  method CampaignAlerts(c: CampaignFigures) returns (alerts: seq<Alert>)
    ensures RealisesAll(alerts, HeadsOf(c, RulesFor(c)))
  {
    var high, roas, ctr := Only(Fires(c, HighCpa), HighCpa), Only(Fires(c, LowRoas), LowRoas), Only(Fires(c, LowCtr), LowCtr);
    alerts := CheckRule(c, HighCpa, [], []);
    assert [] + high == high;
    alerts := CheckRule(c, LowRoas, alerts, high);
    alerts := CheckRule(c, LowCtr, alerts, high + roas);
    alerts := CheckRule(c, Excellent, alerts, high + roas + ctr);
  }

  lemma HeadsOfSnoc(c: CampaignFigures, rules: seq<Rule>, rule: Rule)
    ensures HeadsOf(c, rules + [rule]) == HeadsOf(c, rules) + [AlertHead(rule, c.id, c.name)]
  {
  }

  lemma RealisesAllConcat(a: seq<Alert>, ha: seq<AlertHead>, b: seq<Alert>, hb: seq<AlertHead>)
    requires RealisesAll(a, ha) && RealisesAll(b, hb)
    ensures RealisesAll(a + b, ha + hb)
  {
    forall i | 0 <= i < |ha| + |hb|
      ensures Realises((a + b)[i], (ha + hb)[i])
    {
      if i < |ha| {
        assert (a + b)[i] == a[i] && (ha + hb)[i] == ha[i];
      } else {
        assert (a + b)[i] == b[i - |ha|] && (ha + hb)[i] == hb[i - |ha|];
      }
    }
  }

  /** `generateAlerts`: the alerts of each campaign in turn. */
  method GenerateAlerts(campaigns: seq<CampaignFigures>) returns (alerts: seq<Alert>)
    ensures RealisesAll(alerts, AlertHeads(campaigns))
  {
    alerts := [];
    var i := 0;
    while i < |campaigns|
      invariant 0 <= i <= |campaigns|
      invariant RealisesAll(alerts, AlertHeads(campaigns[..i]))
    {
      var more := CampaignAlerts(campaigns[i]);
      RealisesAllConcat(alerts, AlertHeads(campaigns[..i]), more, HeadsOf(campaigns[i], RulesFor(campaigns[i])));
      AlertHeadsSnoc(campaigns, i);
      alerts := alerts + more;
      i := i + 1;
    }
    assert campaigns[..i] == campaigns;
  }

  lemma {:induction false} AlertHeadsAppend(a: seq<CampaignFigures>, b: seq<CampaignFigures>)
    ensures AlertHeads(a + b) == AlertHeads(a) + AlertHeads(b)
    decreases |a|
  {
    if a == [] {
      assert a + b == b;
    } else {
      assert (a + b)[1..] == a[1..] + b;
      AlertHeadsAppend(a[1..], b);
    }
  }

  lemma AlertHeadsSnoc(campaigns: seq<CampaignFigures>, i: nat)
    requires i < |campaigns|
    ensures AlertHeads(campaigns[..i + 1]) == AlertHeads(campaigns[..i]) + HeadsOf(campaigns[i], RulesFor(campaigns[i]))
  {
    assert campaigns[..i + 1] == campaigns[..i] + [campaigns[i]];
    AlertHeadsAppend(campaigns[..i], [campaigns[i]]);
    assert AlertHeads([campaigns[i]]) == HeadsOf(campaigns[i], RulesFor(campaigns[i])) + AlertHeads([]);
  }

  /** Without a truthy target CPA neither CPA rule fires. */
  lemma NoTargetNoCpaRules(c: CampaignFigures)
    requires c.targetCPA.None? || c.targetCPA.value == 0.0
    ensures HighCpa !in RulesFor(c) && Excellent !in RulesFor(c)
  {
  }

  /** With a positive target a campaign is never both over and under its target; ROAS rules exclude each other. */
  lemma RulesExclusive(c: CampaignFigures)
    ensures !(LowRoas in RulesFor(c) && Excellent in RulesFor(c))
    ensures HasTarget(c) && c.targetCPA.value > 0.0 ==> !(HighCpa in RulesFor(c) && Excellent in RulesFor(c))
  {
  }

  function CountSeverity(heads: seq<AlertHead>, severity: string): nat
    decreases |heads|
  {
    if heads == [] then 0
    else (if Severity(heads[0].rule) == severity then 1 else 0) + CountSeverity(heads[1..], severity)
  }

  /** The three sample campaigns of the alerts route. */
  const SampleCampaigns: seq<CampaignFigures> := [
    CampaignFigures("1", "Campanha Vendas Q4", 75.50, Some(60.00), 3.2, 2.1),
    CampaignFigures("2", "Leads Qualificados", 45.00, Some(50.00), 1.8, 0.8),
    CampaignFigures("3", "Remarketing Premium", 35.00, Some(45.00), 6.5, 3.2)
  ]

  lemma SampleRules()
    ensures RulesFor(SampleCampaigns[0]) == [HighCpa]
    ensures RulesFor(SampleCampaigns[1]) == [LowRoas, LowCtr]
    ensures RulesFor(SampleCampaigns[2]) == [Excellent]
  {
    var c1, c2, c3 := SampleCampaigns[0], SampleCampaigns[1], SampleCampaigns[2];
    assert Fires(c1, HighCpa) && !Fires(c1, LowRoas) && !Fires(c1, LowCtr) && !Fires(c1, Excellent);
    assert !Fires(c2, HighCpa) && Fires(c2, LowRoas) && Fires(c2, LowCtr) && !Fires(c2, Excellent);
    assert !Fires(c3, HighCpa) && !Fires(c3, LowRoas) && !Fires(c3, LowCtr) && Fires(c3, Excellent);
  }

  /**
   * The sample campaigns give four alerts: high for the first, critical then medium for the
   * second, low for the third; exactly one is critical.
   */
  lemma SampleAlerts()
    ensures AlertHeads(SampleCampaigns) == [
      AlertHead(HighCpa, "1", "Campanha Vendas Q4"),
      AlertHead(LowRoas, "2", "Leads Qualificados"),
      AlertHead(LowCtr, "2", "Leads Qualificados"),
      AlertHead(Excellent, "3", "Remarketing Premium")]
    ensures CountSeverity(AlertHeads(SampleCampaigns), "critical") == 1
  {
    SampleRules();
    var cs := SampleCampaigns;
    assert cs[1..][1..][1..] == [];
    assert AlertHeads(cs[1..][1..]) == HeadsOf(cs[2], [Excellent]);
    assert AlertHeads(cs[1..]) == HeadsOf(cs[1], [LowRoas, LowCtr]) + AlertHeads(cs[1..][1..]);
    var heads := AlertHeads(cs);
    assert CountSeverity(heads[3..], "critical") == 0;
    assert CountSeverity(heads[2..], "critical") == 0;
    assert CountSeverity(heads[1..], "critical") == 1;
  }
}
