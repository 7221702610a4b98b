/**
 * The pure helpers of the ads-platform service: turning one raw daily insight row into a stored
 * metric row, extracting conversions and ROAS from its action list, and classifying an ad set's
 * targeting.  Raw numeric fields are the numbers their strings spell (string parsing is outside
 * the model); an absent field is `None`.
 */
module FacebookParse {
  import opened Wrappers
  import opened Store

  /** One entry of an insight row's `actions` list. */
  datatype Action = Action(actionType: string, value: real)

  /** One raw daily insight row as the platform returns it. */
  datatype InsightData = InsightData(
    impressions: Option<real>,
    reach: Option<real>,
    clicks: Option<real>,
    spend: Option<real>,
    actions: Option<seq<Action>>,
    ctr: Option<real>,
    cpc: Option<real>,
    cpm: Option<real>,
    frequency: Option<real>,
    dateStart: int)

  /** The audience lists of an ad set's targeting spec; an absent list is `None`. */
  datatype Targeting = Targeting(
    customAudiences: Option<seq<string>>,
    lookalikeAudiences: Option<seq<string>>,
    interests: Option<seq<string>>,
    behaviors: Option<seq<string>>)

  datatype CampaignData = CampaignData(id: string, name: string, objective: string, status: string)

  datatype AdSetData = AdSetData(id: string, name: string, status: string, targeting: Option<Targeting>)

  /** `creative` is the creative object already serialised, when the platform sent one. */
  datatype AdData = AdData(id: string, name: string, status: string, creative: Option<string>)

  /** The action types counted as conversions. */
  const ConversionTypes: set<string> := {"purchase", "lead", "complete_registration"}

  /** `x || 0` for a numeric field. */
  function OrZero(x: Option<real>): real {
    if x.Some? then x.value else 0.0
  }

  /** `parseInt` of a number: its integer part, truncated toward zero. */
  function Truncate(x: real): (n: int)
    ensures x >= 0.0 ==> n as real <= x < n as real + 1.0
    ensures x < 0.0 ==> n as real - 1.0 < x <= n as real
  {
    if x >= 0.0 then x.Floor else -((-x).Floor)
  }

  /** `Array.prototype.find`: the index of the first action whose type is in `types`. */
  function FindAction(actions: seq<Action>, types: set<string>): (r: Option<nat>)
    ensures r.None? <==> NoActionOf(actions, types)
    ensures r.Some? ==> IsFirstActionOf(actions, types, r.value)
  {
    if actions == [] then None
    else if actions[0].actionType in types then Some(0)
    else
      var rest := FindAction(actions[1..], types);
      if rest.Some? then Some(rest.value + 1) else None
  }

  /** No action in the list has a type in `types`. */
  predicate NoActionOf(actions: seq<Action>, types: set<string>) {
    forall i :: 0 <= i < |actions| ==> actions[i].actionType !in types
  }

  /** Index `i` holds the first action whose type is in `types`. */
  predicate IsFirstActionOf(actions: seq<Action>, types: set<string>, i: int) {
    && 0 <= i < |actions|
    && actions[i].actionType in types
    && forall j :: 0 <= j < i ==> actions[j].actionType !in types
  }

  /** `getConversions`: the truncated value of the first purchase, lead or registration action. */
  function GetConversions(actions: Option<seq<Action>>): (n: int)
    ensures actions.None? ==> n == 0
    ensures actions.Some? && NoActionOf(actions.value, ConversionTypes) ==> n == 0
    ensures actions.Some? ==>
      forall i :: IsFirstActionOf(actions.value, ConversionTypes, i) ==> n == Truncate(actions.value[i].value)
  {
    if actions.None? then 0
    else
      var found := FindAction(actions.value, ConversionTypes);
      if found.Some? then Truncate(actions.value[found.value].value) else 0
  }

  /** `getRoas`: the first purchase action's value over spend, or 0 when that is undefined. */
  function GetRoas(actions: Option<seq<Action>>, spend: real): (roas: real)
    ensures actions.None? || spend == 0.0 ==> roas == 0.0
    ensures actions.Some? && NoActionOf(actions.value, {"purchase"}) ==> roas == 0.0
    ensures actions.Some? && spend != 0.0 ==>
      forall i :: IsFirstActionOf(actions.value, {"purchase"}, i) ==> roas * spend == actions.value[i].value
  {
    if actions.None? || spend == 0.0 then 0.0
    else
      var found := FindAction(actions.value, {"purchase"});
      if found.None? then 0.0 else actions.value[found.value].value / spend
  }

  /** Cost per acquisition: spend per conversion, 0 when there are no conversions. */
  function Cpa(spend: real, conversions: int): (cpa: real)
    ensures conversions > 0 ==> cpa * conversions as real == spend
    ensures conversions <= 0 ==> cpa == 0.0
  {
    if conversions > 0 then spend / conversions as real else 0.0
  }

  /** `parseInsightData`: the stored metric row of one raw insight row. */
  function ParseInsightData(insight: InsightData): (m: MetricRow)
    ensures m.conversions == GetConversions(insight.actions)
    ensures m.spend == OrZero(insight.spend)
    ensures m.cpa == Cpa(m.spend, m.conversions)
    ensures m.roas == GetRoas(insight.actions, m.spend)
    ensures m.impressions == if insight.impressions.Some? then Truncate(insight.impressions.value) else 0
    ensures m.reach == if insight.reach.Some? then Truncate(insight.reach.value) else 0
    ensures m.clicks == if insight.clicks.Some? then Truncate(insight.clicks.value) else 0
    ensures m.ctr == if insight.ctr.Some? then insight.ctr.value else 0.0
    ensures m.cpc == if insight.cpc.Some? then insight.cpc.value else 0.0
    ensures m.cpm == if insight.cpm.Some? then insight.cpm.value else 0.0
    ensures m.frequency == if insight.frequency.Some? then insight.frequency.value else 0.0
  {
    var conversions := GetConversions(insight.actions);
    var spend := OrZero(insight.spend);
    MetricRow(
      impressions := Truncate(OrZero(insight.impressions)),
      reach := Truncate(OrZero(insight.reach)),
      clicks := Truncate(OrZero(insight.clicks)),
      spend := spend,
      conversions := conversions,
      ctr := OrZero(insight.ctr),
      cpc := OrZero(insight.cpc),
      cpm := OrZero(insight.cpm),
      cpa := Cpa(spend, conversions),
      roas := GetRoas(insight.actions, spend),
      frequency := OrZero(insight.frequency))
  }

  /** A targeting list counts only when it is present and non-empty. */
  predicate NonEmpty(list: Option<seq<string>>) {
    list.Some? && |list.value| > 0
  }

  /** `getTargetingType`: the first non-empty list wins, in the code's priority order. */
  function GetTargetingType(targeting: Option<Targeting>): (t: TargetingType)
    ensures t == Unknown <==> targeting.None?
    ensures t == CustomAudience <==> (targeting.Some? && NonEmpty(targeting.value.customAudiences))
    ensures t == Lookalike <==> (targeting.Some? && !NonEmpty(targeting.value.customAudiences)
                                 && NonEmpty(targeting.value.lookalikeAudiences))
    ensures t == Interests <==> (targeting.Some? && !NonEmpty(targeting.value.customAudiences)
                                 && !NonEmpty(targeting.value.lookalikeAudiences)
                                 && NonEmpty(targeting.value.interests))
    ensures t == Behaviors <==> (targeting.Some? && !NonEmpty(targeting.value.customAudiences)
                                 && !NonEmpty(targeting.value.lookalikeAudiences)
                                 && !NonEmpty(targeting.value.interests)
                                 && NonEmpty(targeting.value.behaviors))
  {
    if targeting.None? then Unknown
    else
      var t := targeting.value;
      if NonEmpty(t.customAudiences) then CustomAudience
      else if NonEmpty(t.lookalikeAudiences) then Lookalike
      else if NonEmpty(t.interests) then Interests
      else if NonEmpty(t.behaviors) then Behaviors
      else Demographic
  }

  /** A present targeting spec with no non-empty list is classified as demographic. */
  lemma DemographicIsTheFallback(t: Targeting)
    requires !NonEmpty(t.customAudiences) && !NonEmpty(t.lookalikeAudiences)
    requires !NonEmpty(t.interests) && !NonEmpty(t.behaviors)
    ensures GetTargetingType(Some(t)) == Demographic
  {
  }
}
