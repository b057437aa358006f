/**
 * The older helper module: the weather-code description table (WMO code
 * table 4677, as served by Open-Meteo) and a smaller recommendation rule set.
 */
module WeatherHelpers {
  import opened Options
  import opened Weather

  /** The codes the helper table names. */
  const DescribedCodes: set<int> :=
    {0, 1, 2, 3, 45, 48, 51, 53, 55, 61, 63, 65, 71, 73, 75, 95}

  /** The table itself: the text for a listed code, nothing otherwise. */
  function DescriptionEntry(code: int): (e: Option<string>)
    ensures e.Some? <==> code in DescribedCodes
    ensures e.Some? ==> e.value != "" && e.value != "Unknown"
  {
    match code
    case 0 => Some("Clear sky")
    case 1 => Some("Mainly clear")
    case 2 => Some("Partly cloudy")
    case 3 => Some("Overcast")
    case 45 => Some("Foggy")
    case 48 => Some("Depositing rime fog")
    case 51 => Some("Light drizzle")
    case 53 => Some("Moderate drizzle")
    case 55 => Some("Dense drizzle")
    case 61 => Some("Slight rain")
    case 63 => Some("Moderate rain")
    case 65 => Some("Heavy rain")
    case 71 => Some("Slight snow")
    case 73 => Some("Moderate snow")
    case 75 => Some("Heavy snow")
    case 95 => Some("Thunderstorm")
    case _ => None
  }

  /** `getWeatherDescription`: the table text, or "Unknown" for any other code. */
  function Description(code: int): (d: string)
    ensures d == "Unknown" <==> code !in DescribedCodes
    ensures code in DescribedCodes ==> Some(d) == DescriptionEntry(code)
  {
    match DescriptionEntry(code)
    case Some(text) => text
    case None => "Unknown"
  }

  /** The `type` of an entry of `getActivityRecommendations`. */
  datatype AdviceKind = WarmAdvice | ColdAdvice | WindyAdvice | RainAdvice

  datatype Advice = Advice(kind: AdviceKind, title: string, message: string)

  /** Position of each rule in the order the four `if`s run. */
  function AdviceRank(k: AdviceKind): nat {
    match k
    case WarmAdvice => 0
    case ColdAdvice => 1
    case WindyAdvice => 2
    case RainAdvice => 3
  }

  /** The fixed entry each rule pushes. */
  function AdviceFor(k: AdviceKind): (a: Advice)
    ensures a.kind == k
  {
    Advice(k, AdviceTitle(k), AdviceMessage(k))
  }

  function AdviceTitle(k: AdviceKind): string {
    match k
    case WarmAdvice => "Warm weather"
    case ColdAdvice => "Cold weather"
    case WindyAdvice => "Windy conditions"
    case RainAdvice => "Precipitation detected"
  }

  function AdviceMessage(k: AdviceKind): string {
    match k
    case WarmAdvice => "Perfect for swimming, light hiking. Stay hydrated!"
    case ColdAdvice => "Dress warmly in layers for outdoor activities."
    case WindyAdvice => "Great for wind sports, but secure loose items."
    case RainAdvice => "Pack rain gear for outdoor activities."
  }

  function AdviceKinds(rs: seq<Advice>): seq<AdviceKind> {
    seq(|rs|, i requires 0 <= i < |rs| => rs[i].kind)
  }

  /** The entries for the kinds `ks`, in that order. */
  function Entries(ks: seq<AdviceKind>): (rs: seq<Advice>)
    ensures AdviceKinds(rs) == ks
    ensures forall i :: 0 <= i < |rs| ==> rs[i] == AdviceFor(rs[i].kind)
  {
    var rs := seq(|ks|, i requires 0 <= i < |ks| => AdviceFor(ks[i]));
    assert AdviceKinds(rs) == ks;
    rs
  }

  lemma EntriesPush(ks: seq<AdviceKind>, k: AdviceKind)
    ensures Entries(ks) + [AdviceFor(k)] == Entries(ks + [k])
  {
  }

  /** The kinds a rule pushes when `fire` holds. */
  function When(fire: bool, k: AdviceKind): seq<AdviceKind> {
    if fire then [k] else []
  }

  /** The kinds the four rules push, given which of them fire. */
  function Fired(warm: bool, cold: bool, windy: bool, rain: bool): seq<AdviceKind> {
    When(warm, WarmAdvice) + When(cold, ColdAdvice) + When(windy, WindyAdvice) + When(rain, RainAdvice)
  }

  /**
   * What the four independent rules yield, given which of them fire (the
   * first two never fire together).
   */
  lemma FourRules(warm: bool, cold: bool, windy: bool, rain: bool)
    requires !(warm && cold)
    ensures var recs := Entries(Fired(warm, cold, windy, rain));
            && (WarmAdvice in AdviceKinds(recs) <==> warm)
            && (ColdAdvice in AdviceKinds(recs) <==> cold)
            && (WindyAdvice in AdviceKinds(recs) <==> windy)
            && (RainAdvice in AdviceKinds(recs) <==> rain)
            && (forall i :: 0 <= i < |recs| ==> recs[i] == AdviceFor(recs[i].kind))
            && (forall i, j :: 0 <= i < j < |recs| ==>
                  AdviceRank(recs[i].kind) < AdviceRank(recs[j].kind))
            && |recs| <= 3
  {
    var ks := Fired(warm, cold, windy, rain);
    FiredKinds(warm, cold, windy, rain);
    var recs := Entries(ks);
    assert forall i :: 0 <= i < |recs| ==> recs[i].kind == ks[i];
  }

  lemma FiredKinds(warm: bool, cold: bool, windy: bool, rain: bool)
    requires !(warm && cold)
    ensures var ks := Fired(warm, cold, windy, rain);
            && (WarmAdvice in ks <==> warm) && (ColdAdvice in ks <==> cold)
            && (WindyAdvice in ks <==> windy) && (RainAdvice in ks <==> rain)
            && |ks| <= 3
            && forall i, j :: 0 <= i < j < |ks| ==> AdviceRank(ks[i]) < AdviceRank(ks[j])
  {
  }

  /** One `if (...) recommendations.push(...)` of the rule set. */
  method PushWhen(recs: seq<Advice>, ghost ks: seq<AdviceKind>, fire: bool, k: AdviceKind)
    returns (recs': seq<Advice>)
    requires recs == Entries(ks)
    ensures recs' == Entries(ks + When(fire, k))
  {
    recs' := recs;
    if fire {
      EntriesPush(ks, k);
      recs' := recs' + [AdviceFor(k)];
    }
  }

  /**
   * `getActivityRecommendations`: four independent threshold tests, each
   * pushing its entry. An absent precipitation reading adds no rain entry
   * (`undefined > 0` is false).
   */
  method ActivityRecommendations(c: Current) returns (recs: seq<Advice>)
    ensures WarmAdvice in AdviceKinds(recs) <==> c.temperature > 25.0
    ensures ColdAdvice in AdviceKinds(recs) <==> c.temperature < 10.0
    ensures !(WarmAdvice in AdviceKinds(recs) && ColdAdvice in AdviceKinds(recs))
    ensures WindyAdvice in AdviceKinds(recs) <==> c.windSpeed > 20.0
    ensures RainAdvice in AdviceKinds(recs) <==>
      c.precipitation.Some? && c.precipitation.value > 0.0
    ensures forall i :: 0 <= i < |recs| ==> recs[i] == AdviceFor(recs[i].kind)
    ensures forall i, j :: 0 <= i < j < |recs| ==>
      AdviceRank(recs[i].kind) < AdviceRank(recs[j].kind)
    ensures |recs| <= 3
  {
    var warm := c.temperature > 25.0;
    var cold := c.temperature < 10.0;
    var windy := c.windSpeed > 20.0;
    var rain := c.precipitation.Some? && c.precipitation.value > 0.0;
    recs := [];
    recs := PushWhen(recs, [], warm, WarmAdvice);
    recs := PushWhen(recs, When(warm, WarmAdvice), cold, ColdAdvice);
    recs := PushWhen(recs, When(warm, WarmAdvice) + When(cold, ColdAdvice), windy, WindyAdvice);
    recs := PushWhen(recs, When(warm, WarmAdvice) + When(cold, ColdAdvice) + When(windy, WindyAdvice),
                     rain, RainAdvice);
    FourRules(warm, cold, windy, rain);
  }
}
