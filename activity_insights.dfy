/**
 * The activity classifier of the ActivityInsights panel: threshold rules over
 * the current readings that yield an ordered list of recommendations, plus the
 * clothing bucket, the energy label and the severity badges the panel shows.
 */
module ActivityInsights {
  import opened Options
  import opened Weather

  /** The `type` tag of a recommendation ('hot', 'warm', ..., 'perfect'). */
  datatype Kind =
    | Hot | Warm | Freezing | Cold      // temperature group
    | StrongWind | Windy                // wind group
    | HeavyRain | LightRain             // precipitation group ('heavyrain', 'rain')
    | Humid                             // humidity group
    | LowVisibility                     // visibility group
    | Perfect                           // ideal-conditions rule

  datatype Severity = Excellent | Good | Moderate | Warning

  /** A recommendation card, without its icon and colour classes. */
  datatype Recommendation = Recommendation(
    kind: Kind,
    severity: Severity,
    title: string,
    message: string,
    activities: seq<string>)

  /** Position of a kind's rule group in evaluation order. */
  function GroupRank(k: Kind): (g: nat)
    ensures g < 6
  {
    match k
    case Hot | Warm | Freezing | Cold => 0
    case StrongWind | Windy => 1
    case HeavyRain | LightRain => 2
    case Humid => 3
    case LowVisibility => 4
    case Perfect => 5
  }

  /** The badge level each kind of recommendation carries. */
  function SeverityOf(k: Kind): Severity {
    match k
    case Perfect => Excellent
    case Warm => Good
    case Cold | Windy | LightRain | Humid => Moderate
    case Hot | Freezing | StrongWind | HeavyRain | LowVisibility => Warning
  }

  /** The fixed record each rule pushes. */
  function Rule(k: Kind): (r: Recommendation)
    ensures r.kind == k && r.activities != []
    ensures r.severity == Excellent <==> k == Perfect
    ensures r.severity == Good <==> k == Warm
    ensures r.severity == Warning <==>
      k == Hot || k == Freezing || k == StrongWind || k == HeavyRain || k == LowVisibility
  {
    Recommendation(k, SeverityOf(k), Title(k), Message(k), Activities(k))
  }

  function Title(k: Kind): string {
    match k
    case Hot => "Very Hot Weather"
    case Warm => "Perfect Warm Weather"
    case Freezing => "Freezing Conditions"
    case Cold => "Cool Weather"
    case StrongWind => "Strong Winds"
    case Windy => "Windy Conditions"
    case HeavyRain => "Heavy Rain"
    case LightRain => "Light Rain Expected"
    case Humid => "High Humidity"
    case LowVisibility => "Low Visibility"
    case Perfect => "Perfect Outdoor Conditions!"
  }

  function Message(k: Kind): string {
    match k
    case Hot => "Stay hydrated and avoid prolonged sun exposure. Seek shade during peak hours (11 AM - 3 PM)."
    case Warm => "Ideal conditions for outdoor activities. Stay hydrated and use sunscreen."
    case Freezing => "Bundle up in multiple layers. Limit outdoor exposure and watch for ice."
    case Cold => "Dress in warm layers. Perfect for brisk outdoor activities."
    case StrongWind => "Exercise caution outdoors. Secure loose items and avoid tall structures."
    case Windy => "Great for wind sports! Secure loose items and be mindful of gusts."
    case HeavyRain => "Stay indoors if possible. If going out, use waterproof gear and be cautious."
    case LightRain => "Pack an umbrella and wear waterproof clothing."
    case Humid => "Air feels muggy. Stay hydrated and take breaks in air-conditioned spaces."
    case LowVisibility => "Reduced visibility due to fog or weather. Drive carefully and use headlights."
    case Perfect => "Excellent weather for any outdoor activity. Make the most of it!"
  }

  /** The literal activity list of each rule; never empty. */
  function Activities(k: Kind): (a: seq<string>)
    ensures |a| >= 2
  {
    match k
    case Hot => ["Swimming", "Indoor Activities", "Early Morning Walks"]
    case Warm => ["Hiking", "Cycling", "Beach Activities", "Picnic"]
    case Freezing => ["Indoor Sports", "Ice Skating", "Winter Photography"]
    case Cold => ["Jogging", "Hiking", "Outdoor Sports"]
    case StrongWind => ["Kite Flying", "Wind Surfing"]
    case Windy => ["Sailing", "Paragliding", "Kite Sports"]
    case HeavyRain => ["Indoor Activities", "Museum Visits", "Movie Time"]
    case LightRain => ["Indoor Climbing", "Shopping", "Caf\U{C3}\U{A9} Hopping"]
    case Humid => ["Swimming", "Water Sports", "Light Activities"]
    case LowVisibility => ["Indoor Activities", "Careful Driving Only"]
    case Perfect => ["All Outdoor Activities", "Hiking", "Sports", "Picnic", "Photography"]
  }

  /** The precipitation the rules see: an absent reading counts as 0 mm. */
  function Precipitation(c: Current): real {
    match c.precipitation
    case None => 0.0
    case Some(p) => p
  }

  // Each rule group is an if/else-if chain that pushes at most one record.

  function TemperatureKinds(t: real): (ks: seq<Kind>)
    ensures |ks| <= 1 && forall k :: k in ks ==> GroupRank(k) == 0
  {
    if t > 30.0 then [Hot]
    else if t > 25.0 then [Warm]
    else if t < 5.0 then [Freezing]
    else if t < 15.0 then [Cold]
    else []
  }

  function WindKinds(w: real): (ks: seq<Kind>)
    ensures |ks| <= 1 && forall k :: k in ks ==> GroupRank(k) == 1
  {
    if w > 30.0 then [StrongWind] else if w > 20.0 then [Windy] else []
  }

  function PrecipitationKinds(p: real): (ks: seq<Kind>)
    ensures |ks| <= 1 && forall k :: k in ks ==> GroupRank(k) == 2
  {
    if p > 5.0 then [HeavyRain] else if p > 0.0 then [LightRain] else []
  }

  function HumidityKinds(h: real): (ks: seq<Kind>)
    ensures |ks| <= 1 && forall k :: k in ks ==> GroupRank(k) == 3
  {
    if h > 80.0 then [Humid] else []
  }

  function VisibilityKinds(v: real): (ks: seq<Kind>)
    ensures |ks| <= 1 && forall k :: k in ks ==> GroupRank(k) == 4
  {
    if v < 5000.0 then [LowVisibility] else []
  }

  function IdealKinds(t: real, w: real, p: real, h: real): (ks: seq<Kind>)
    ensures |ks| <= 1 && forall k :: k in ks ==> GroupRank(k) == 5
  {
    if 15.0 <= t <= 25.0 && w < 20.0 && p == 0.0 && h < 70.0 then [Perfect] else []
  }

  /** The kinds pushed, in the order the groups run. */
  function FiredKinds(c: Current): (ks: seq<Kind>)
    ensures |ks| <= 6
  {
    var p := Precipitation(c);
    TemperatureKinds(c.temperature)
      + WindKinds(c.windSpeed)
      + PrecipitationKinds(p)
      + HumidityKinds(c.humidity)
      + VisibilityKinds(c.visibility)
      + IdealKinds(c.temperature, c.windSpeed, p, c.humidity)
  }

  /** Each group strictly precedes the next one in the list. */
  ghost predicate GroupOrdered(ks: seq<Kind>) {
    forall i, j :: 0 <= i < j < |ks| ==> GroupRank(ks[i]) < GroupRank(ks[j])
  }

  lemma FiredKindsOrdered(c: Current)
    ensures GroupOrdered(FiredKinds(c))
  {
    var p := Precipitation(c);
    GroupsChainOrdered(
      TemperatureKinds(c.temperature), WindKinds(c.windSpeed), PrecipitationKinds(p),
      HumidityKinds(c.humidity), VisibilityKinds(c.visibility),
      IdealKinds(c.temperature, c.windSpeed, p, c.humidity));
  }

  /** Six groups of at most one entry each, of ranks 0 to 5, concatenate in rank order. */
  lemma GroupsChainOrdered(t: seq<Kind>, w: seq<Kind>, p: seq<Kind>, h: seq<Kind>, v: seq<Kind>, i: seq<Kind>)
    requires |t| <= 1 && forall k :: k in t ==> GroupRank(k) == 0
    requires |w| <= 1 && forall k :: k in w ==> GroupRank(k) == 1
    requires |p| <= 1 && forall k :: k in p ==> GroupRank(k) == 2
    requires |h| <= 1 && forall k :: k in h ==> GroupRank(k) == 3
    requires |v| <= 1 && forall k :: k in v ==> GroupRank(k) == 4
    requires |i| <= 1 && forall k :: k in i ==> GroupRank(k) == 5
    ensures GroupOrdered(t + w + p + h + v + i)
  {
    OrderedCons(v, i, 4);
    OrderedCons(h, v + i, 3);
    OrderedCons(p, h + (v + i), 2);
    OrderedCons(w, p + (h + (v + i)), 1);
    OrderedCons(t, w + (p + (h + (v + i))), 0);
    assert t + w + p + h + v + i == t + (w + (p + (h + (v + i))));
  }

  /** Putting one group's (at most one) entry before later groups keeps the order. */
  lemma OrderedCons(head: seq<Kind>, rest: seq<Kind>, g: nat)
    requires |head| <= 1 && (forall k :: k in head ==> GroupRank(k) == g)
    requires GroupOrdered(rest) && (forall k :: k in rest ==> GroupRank(k) > g)
    ensures GroupOrdered(head + rest)
    ensures forall k :: k in head + rest ==> GroupRank(k) >= g
  {
    var s := head + rest;
    forall i, j | 0 <= i < j < |s| ensures GroupRank(s[i]) < GroupRank(s[j]) {
      if i < |head| {
        assert s[i] in head && s[j] in rest;
      } else {
        assert s[i] == rest[i - |head|] && s[j] == rest[j - |head|];
      }
    }
  }

  /**
   * The recommendation list (lines 14-153): one fixed record per fired rule,
   * groups in evaluation order, so never more than one entry per group.
   */
  function Recommendations(c: Current): (rs: seq<Recommendation>)
    ensures |rs| <= 6
    ensures KindsOf(rs) == FiredKinds(c)
    ensures forall i :: 0 <= i < |rs| ==> rs[i] == Rule(rs[i].kind)
    ensures forall i, j :: 0 <= i < j < |rs| ==> GroupRank(rs[i].kind) < GroupRank(rs[j].kind)
  {
    FiredKindsOrdered(c);
    RulesFor(FiredKinds(c))
  }

  /** The fixed record of each kind, in the kinds' order. */
  function RulesFor(ks: seq<Kind>): (rs: seq<Recommendation>)
    ensures KindsOf(rs) == ks
    ensures forall i :: 0 <= i < |rs| ==> rs[i] == Rule(ks[i])
  {
    var rs := seq(|ks|, i requires 0 <= i < |ks| => Rule(ks[i]));
    assert KindsOf(rs) == ks;
    rs
  }

  function KindsOf(rs: seq<Recommendation>): (ks: seq<Kind>)
    ensures |ks| == |rs| && forall i :: 0 <= i < |rs| ==> ks[i] == rs[i].kind
  {
    seq(|rs|, i requires 0 <= i < |rs| => rs[i].kind)
  }

  /**
   * The list holds a recommendation of kind `k`; by the contract of
   * `Recommendations`, these are exactly the fired kinds.
   */
  predicate Recommends(c: Current, k: Kind) {
    k in FiredKinds(c)
  }

  /** `Recommends` speaks about the rendered list: some record in it has kind `k`. */
  lemma RecommendsListed(c: Current, k: Kind)
    ensures Recommends(c, k) <==> exists i :: 0 <= i < |Recommendations(c)| && Recommendations(c)[i].kind == k
  {
    KindListed(Recommendations(c), k);
  }

  lemma KindListed(rs: seq<Recommendation>, k: Kind)
    ensures k in KindsOf(rs) <==> exists i :: 0 <= i < |rs| && rs[i].kind == k
  {
    if k in KindsOf(rs) {
      var i :| 0 <= i < |KindsOf(rs)| && KindsOf(rs)[i] == k;
      assert rs[i].kind == k;
    }
  }

  /** The entries group `g` contributes. */
  function GroupKinds(c: Current, g: nat): seq<Kind> {
    match g
    case 0 => TemperatureKinds(c.temperature)
    case 1 => WindKinds(c.windSpeed)
    case 2 => PrecipitationKinds(Precipitation(c))
    case 3 => HumidityKinds(c.humidity)
    case 4 => VisibilityKinds(c.visibility)
    case _ => IdealKinds(c.temperature, c.windSpeed, Precipitation(c), c.humidity)
  }

  /** A kind is listed exactly when its own group pushed it. */
  lemma RecommendsInGroup(c: Current, k: Kind)
    ensures Recommends(c, k) <==> k in GroupKinds(c, GroupRank(k))
  {
    var p := Precipitation(c);
    assert FiredKinds(c) == GroupKinds(c, 0) + GroupKinds(c, 1) + GroupKinds(c, 2)
                          + GroupKinds(c, 3) + GroupKinds(c, 4) + GroupKinds(c, 5);
  }

  /** Temperature group: one band above 25 or below 15 degrees, none in between. */
  lemma TemperatureGroup(c: Current)
    ensures Recommends(c, Hot) <==> c.temperature > 30.0
    ensures Recommends(c, Warm) <==> 25.0 < c.temperature <= 30.0
    ensures Recommends(c, Freezing) <==> c.temperature < 5.0
    ensures Recommends(c, Cold) <==> 5.0 <= c.temperature < 15.0
    ensures (forall k :: Recommends(c, k) ==> GroupRank(k) != 0) <==> 15.0 <= c.temperature <= 25.0
  {
    forall k ensures Recommends(c, k) <==> k in GroupKinds(c, GroupRank(k)) {
      RecommendsInGroup(c, k);
    }
    if !(15.0 <= c.temperature <= 25.0) {
      var k := TemperatureKinds(c.temperature)[0];
      assert Recommends(c, k) && GroupRank(k) == 0;
    }
  }

  /** Wind group: strong above 30 km/h, windy above 20 km/h up to 30. */
  lemma WindGroup(c: Current)
    ensures Recommends(c, StrongWind) <==> c.windSpeed > 30.0
    ensures Recommends(c, Windy) <==> 20.0 < c.windSpeed <= 30.0
  {
    RecommendsInGroup(c, StrongWind);
    RecommendsInGroup(c, Windy);
  }

  /**
   * Precipitation group: heavy above 5 mm, light above 0 up to 5 mm; an
   * absent reading fires neither.
   */
  lemma PrecipitationGroup(c: Current)
    ensures Recommends(c, HeavyRain) <==> c.precipitation.Some? && c.precipitation.value > 5.0
    ensures Recommends(c, LightRain) <==> c.precipitation.Some? && 0.0 < c.precipitation.value <= 5.0
  {
    RecommendsInGroup(c, HeavyRain);
    RecommendsInGroup(c, LightRain);
  }

  /** An absent precipitation reading classifies exactly like a reading of 0 mm. */
  lemma AbsentPrecipitationIsZero(c: Current)
    requires c.precipitation.None?
    ensures Recommendations(c) == Recommendations(c.(precipitation := Some(0.0)))
  {
    assert FiredKinds(c) == FiredKinds(c.(precipitation := Some(0.0)));
  }

  /** Humidity above 80 percent and visibility below 5000 m each add one entry. */
  lemma HumidityAndVisibility(c: Current)
    ensures Recommends(c, Humid) <==> c.humidity > 80.0
    ensures Recommends(c, LowVisibility) <==> c.visibility < 5000.0
  {
    RecommendsInGroup(c, Humid);
    RecommendsInGroup(c, LowVisibility);
  }

  /**
   * The ideal-conditions rule fires exactly when all four bounds hold, and then
   * the only other entry the list can hold is the low-visibility warning.
   */
  lemma PerfectConditions(c: Current)
    ensures Recommends(c, Perfect) <==>
      && 15.0 <= c.temperature <= 25.0
      && c.windSpeed < 20.0
      && (c.precipitation.None? || c.precipitation.value == 0.0)
      && c.humidity < 70.0
    ensures Recommends(c, Perfect) ==>
      forall k :: Recommends(c, k) ==> k == Perfect || k == LowVisibility
  {
    forall k ensures Recommends(c, k) <==> k in GroupKinds(c, GroupRank(k)) {
      RecommendsInGroup(c, k);
    }
  }

  /**
   * The panel falls back to "Conditions are normal" exactly when no rule
   * fires: a mild temperature, wind at most 20 km/h, no precipitation,
   * humidity at most 80 percent, visibility of 5000 m or more, and one of the
   * ideal bounds just missed.
   */
  lemma NoRuleFires(c: Current)
    ensures Recommendations(c) == [] <==>
      && 15.0 <= c.temperature <= 25.0
      && c.windSpeed <= 20.0
      && Precipitation(c) <= 0.0
      && c.humidity <= 80.0
      && c.visibility >= 5000.0
      && (c.windSpeed == 20.0 || Precipitation(c) < 0.0 || c.humidity >= 70.0)
  {
    assert |Recommendations(c)| == |FiredKinds(c)|;
  }

  /** The "What to Wear" bucket. */
  datatype Clothing = LightClothing | WarmLayers | CasualWear

  /** `getClothingAdvice`: light above 25 degrees, warm layers below 10, casual wear in between. */
  function ClothingAdvice(t: real): (a: Clothing)
    ensures a == LightClothing <==> t > 25.0
    ensures a == WarmLayers <==> t < 10.0
    ensures a == CasualWear <==> 10.0 <= t <= 25.0
  {
    if t > 25.0 then LightClothing else if t < 10.0 then WarmLayers else CasualWear
  }

  function ClothingText(a: Clothing): string {
    match a
    case LightClothing => "Light, breathable clothing"
    case WarmLayers => "Warm layers, jacket required"
    case CasualWear => "Comfortable casual wear"
  }

  /**
   * The clothing bucket agrees with the temperature group: light clothing
   * exactly when a hot or warm entry is listed, warm layers whenever it is
   * freezing and only when a freezing or cool entry is listed.
   */
  lemma ClothingFollowsTemperature(c: Current)
    ensures ClothingAdvice(c.temperature) == LightClothing <==> Recommends(c, Hot) || Recommends(c, Warm)
    ensures Recommends(c, Freezing) ==> ClothingAdvice(c.temperature) == WarmLayers
    ensures ClothingAdvice(c.temperature) == WarmLayers ==> Recommends(c, Freezing) || Recommends(c, Cold)
    ensures ClothingAdvice(c.temperature) == CasualWear <==> 10.0 <= c.temperature <= 25.0
  {
    TemperatureGroup(c);
  }

  /** The "Energy Level" label (lines 277-279). */
  datatype Energy = HighEnergy | LowEnergy | ModerateEnergy

  /**
   * High for a mild temperature with wind below 20 km/h, otherwise low above
   * 30 or below 5 degrees, otherwise moderate.
   */
  function EnergyLevel(t: real, w: real): (e: Energy)
    ensures e == HighEnergy <==> 15.0 <= t <= 25.0 && w < 20.0
    ensures e == LowEnergy <==> t > 30.0 || t < 5.0
    ensures e == ModerateEnergy <==> !(15.0 <= t <= 25.0 && w < 20.0) && 5.0 <= t <= 30.0
  {
    if 15.0 <= t <= 25.0 && w < 20.0 then HighEnergy
    else if t > 30.0 || t < 5.0 then LowEnergy
    else ModerateEnergy
  }

  function EnergyText(e: Energy): string {
    match e
    case HighEnergy => "High - Great for activities!"
    case LowEnergy => "Low - Take it easy"
    case ModerateEnergy => "Moderate - Pace yourself"
  }

  /**
   * The energy label agrees with the list: low exactly when the temperature
   * entry is a warning (hot or freezing); high exactly when there is no
   * temperature entry and the wind is below 20 km/h; high whenever the
   * ideal-conditions rule fires.
   */
  lemma EnergyFollowsRecommendations(c: Current)
    ensures EnergyLevel(c.temperature, c.windSpeed) == LowEnergy <==>
      Recommends(c, Hot) || Recommends(c, Freezing)
    ensures EnergyLevel(c.temperature, c.windSpeed) == HighEnergy <==>
      (forall k :: Recommends(c, k) ==> GroupRank(k) != 0) && c.windSpeed < 20.0
    ensures Recommends(c, Perfect) ==> EnergyLevel(c.temperature, c.windSpeed) == HighEnergy
  {
    TemperatureGroup(c);
    PerfectConditions(c);
  }

  /** The badge shown beside a recommendation's title. */
  datatype Badge = ExcellentBadge | GoodBadge | ModerateBadge | CautionBadge

  function BadgeText(b: Badge): string {
    match b
    case ExcellentBadge => "Excellent"
    case GoodBadge => "Good"
    case ModerateBadge => "Moderate"
    case CautionBadge => "Caution"
  }

  /** The `severity` string a record carries. */
  function SeverityName(s: Severity): string {
    match s
    case Excellent => "excellent"
    case Good => "good"
    case Moderate => "moderate"
    case Warning => "warning"
  }

  /** `getSeverityBadge`: the badge table, falling back to the "good" badge. */
  function SeverityBadge(name: string): (b: Badge)
    ensures b == GoodBadge <==> name !in {"excellent", "moderate", "warning"}
  {
    if name == "excellent" then ExcellentBadge
    else if name == "good" then GoodBadge
    else if name == "moderate" then ModerateBadge
    else if name == "warning" then CautionBadge
    else GoodBadge
  }

  /** Every severity gets its own badge, so the badge tells the severity. */
  lemma BadgesDistinguishSeverities(a: Severity, b: Severity)
    ensures SeverityBadge(SeverityName(a)) == SeverityBadge(SeverityName(b)) ==> a == b
  {
  }

  /** A card of the panel: the record and its badge. */
  datatype Card = Card(recommendation: Recommendation, badge: Badge)

  /** What the panel renders. */
  datatype InsightsView =
    | Hidden                          // no weather data or no current block
    | NormalConditions                // no rule fired
    | Panel(cards: seq<Card>, clothing: Clothing, energy: Energy)

  /** The ActivityInsights component. */
  function Insights(current: Option<Current>): (v: InsightsView)
    ensures v.Hidden? <==> current.None?
    ensures v.NormalConditions? <==> current.Some? && Recommendations(current.value) == []
    ensures v.Panel? ==>
      && current.Some?
      && |v.cards| == |Recommendations(current.value)| > 0
      && (forall i :: 0 <= i < |v.cards| ==>
            && v.cards[i].recommendation == Recommendations(current.value)[i]
            && v.cards[i].badge == SeverityBadge(SeverityName(v.cards[i].recommendation.severity)))
      && v.clothing == ClothingAdvice(current.value.temperature)
      && v.energy == EnergyLevel(current.value.temperature, current.value.windSpeed)
  {
    match current
    case None => Hidden
    case Some(c) =>
      var rs := Recommendations(c);
      if rs == [] then NormalConditions
      else
        Panel(seq(|rs|, i requires 0 <= i < |rs| => Card(rs[i], SeverityBadge(SeverityName(rs[i].severity)))),
              ClothingAdvice(c.temperature),
              EnergyLevel(c.temperature, c.windSpeed))
  }
}
