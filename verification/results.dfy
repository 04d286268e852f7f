/**
 * The demo's mock benefit analysis: from a submitted form record it derives
 * a confidence score with the factors behind it, a primary benefit chosen by
 * a first-match rule table, and an estimated annual value with a four-line
 * breakdown.
 *
 * Money is counted in halves of a currency unit so that the card multiplier
 * (1, 1.5 or 2) stays integral: it is written 2, 3 or 4 halves.
 */
module Results {
  import opened BenefitInput
  import ConfidenceMeter

  datatype Icon = Plane | Utensils | ShoppingBag | Shield

  datatype PrimaryBenefit = PrimaryBenefit(icon: Icon, title: string, description: string, value: string)

  datatype BreakdownItem = BreakdownItem(caption: string, value: int, icon: Icon)

  datatype BenefitResult = BenefitResult(
    confidence: int,
    factors: seq<string>,
    primaryBenefit: PrimaryBenefit,
    estimatedValue: int,
    breakdown: seq<BreakdownItem>)

  const BaseConfidence := 65
  const ConfidenceCap := 95

  const BaseValue := 12000
  /** Currency units per slider point: travel/100 * 15000, dining/100 * 8000, shopping/100 * 10000. */
  const TravelRate := 150
  const DiningRate := 80
  const ShoppingRate := 100

  const TravelInsurance := PrimaryBenefit(Plane, "Travel Insurance",
    "Comprehensive travel insurance including trip cancellation and medical coverage.", "₹50,000")
  const DiningRewards := PrimaryBenefit(Utensils, "Dining Rewards",
    "Enhanced cashback and exclusive offers at partner restaurants.", "5% Cashback")
  const ShoppingRewards := PrimaryBenefit(ShoppingBag, "Shopping Rewards",
    "Extra reward points and exclusive discounts on online and retail purchases.", "10X Points")
  const PurchaseProtection := PrimaryBenefit(Shield, "Purchase Protection",
    "Extended warranty and purchase protection on eligible items.", "₹25,000")

  // ---------------------------------------------------------------------------
  // Confidence and its factors
  // ---------------------------------------------------------------------------

  const CardTypeMatch := "Card Type Match"
  const LifestyleFit := "Lifestyle Fit"
  const RegionalData := "Regional Data"

  /** Position of a completeness tag in evaluation order. */
  function ProfileRank(tag: string): nat {
    if tag == CardTypeMatch then 0 else if tag == LifestyleFit then 1 else 2
  }

  /** One tag per filled-in profile field, in the order the fields are checked. */
  function ProfileFactors(d: InputData): (fs: seq<string>)
    ensures |fs| <= 3
    ensures CardTypeMatch in fs <==> d.cardType != ""
    ensures LifestyleFit in fs <==> d.persona != ""
    ensures RegionalData in fs <==> d.location != ""
    ensures forall t :: t in fs ==> t in [CardTypeMatch, LifestyleFit, RegionalData]
    ensures forall i, j :: 0 <= i < j < |fs| ==> ProfileRank(fs[i]) < ProfileRank(fs[j])
  {
    (if d.cardType != "" then [CardTypeMatch] else [])
    + (if d.persona != "" then [LifestyleFit] else [])
    + (if d.location != "" then [RegionalData] else [])
  }

  /** `Math.min(confidence, 95)`. */
  function Capped(score: int): int {
    if score <= ConfidenceCap then score else ConfidenceCap
  }

  /** The confidence before the cap: the base plus a bonus per filled-in profile field. */
  function ProfileScore(d: InputData): int {
    BaseConfidence
    + (if d.cardType != "" then 10 else 0)
    + (if d.persona != "" then 8 else 0)
    + (if d.location != "" then 5 else 0)
  }

  /** The bonus each completeness tag stands for. */
  function Weight(tag: string): int {
    if tag == CardTypeMatch then 10
    else if tag == LifestyleFit then 8
    else if tag == RegionalData then 5
    else 0
  }

  function TagWeights(fs: seq<string>): int {
    if fs == [] then 0 else Weight(fs[0]) + TagWeights(fs[1..])
  }

  lemma {:induction false} TagWeightsAppend(a: seq<string>, b: seq<string>)
    ensures TagWeights(a + b) == TagWeights(a) + TagWeights(b)
  {
    if a == [] {
      assert a + b == b;
    } else {
      assert (a + b)[0] == a[0];
      assert (a + b)[1..] == a[1..] + b;
      TagWeightsAppend(a[1..], b);
    }
  }

  /** The score is the base plus exactly the bonuses of the factors listed. */
  lemma ConfidenceCountsFactors(d: InputData)
    ensures ProfileScore(d) == BaseConfidence + TagWeights(ProfileFactors(d))
  {
    var c: seq<string> := if d.cardType != "" then [CardTypeMatch] else [];
    var p: seq<string> := if d.persona != "" then [LifestyleFit] else [];
    var l: seq<string> := if d.location != "" then [RegionalData] else [];
    TagWeightsAppend(c, p);
    TagWeightsAppend(c + p, l);
  }

  // ---------------------------------------------------------------------------
  // Primary benefit: the first rule that matches
  // ---------------------------------------------------------------------------

  /** The guard of each rule; Purchase Protection is the unconditional default. */
  predicate Qualifies(d: InputData, b: PrimaryBenefit) {
    match b.icon
    case Plane => d.travel > 60 || d.persona == "traveler"
    case Utensils => d.dining > 60 || d.persona == "foodie"
    case ShoppingBag => d.shopping > 60 || d.persona == "shopper"
    case Shield => true
  }

  /** The rules in priority order; the first that qualifies wins. */
  const Rules: seq<PrimaryBenefit> := [TravelInsurance, DiningRewards, ShoppingRewards]

  /** Index of the first rule that qualifies, or |rules| when none does. */
  function FirstQualifying(d: InputData, rules: seq<PrimaryBenefit>): (k: nat)
    ensures k <= |rules|
    ensures k < |rules| ==> Qualifies(d, rules[k])
    ensures forall j :: 0 <= j < k ==> !Qualifies(d, rules[j])
  {
    if rules == [] then 0
    else if Qualifies(d, rules[0]) then 0
    else 1 + FirstQualifying(d, rules[1..])
  }

  function Recommended(d: InputData): PrimaryBenefit {
    var k := FirstQualifying(d, Rules);
    if k < |Rules| then Rules[k] else PurchaseProtection
  }

  /** The rule chain spelled out: each benefit is chosen exactly when its guard holds and no earlier one does. */
  lemma RecommendedByPriority(d: InputData)
    ensures Recommended(d) == TravelInsurance <==> d.travel > 60 || d.persona == "traveler"
    ensures Recommended(d) == DiningRewards <==>
      !(d.travel > 60 || d.persona == "traveler") && (d.dining > 60 || d.persona == "foodie")
    ensures Recommended(d) == ShoppingRewards <==>
      !(d.travel > 60 || d.persona == "traveler") && !(d.dining > 60 || d.persona == "foodie")
      && (d.shopping > 60 || d.persona == "shopper")
    ensures Recommended(d) == PurchaseProtection <==>
      !(d.travel > 60 || d.persona == "traveler") && !(d.dining > 60 || d.persona == "foodie")
      && !(d.shopping > 60 || d.persona == "shopper")
  {
    assert Qualifies(d, Rules[0]) <==> d.travel > 60 || d.persona == "traveler";
    assert Qualifies(d, Rules[1]) <==> d.dining > 60 || d.persona == "foodie";
    assert Qualifies(d, Rules[2]) <==> d.shopping > 60 || d.persona == "shopper";
  }

  /** The factor appended for the chosen benefit; the default appends none. */
  function Tag(b: PrimaryBenefit): seq<string> {
    match b.icon
    case Plane => ["High Travel Score"]
    case Utensils => ["Dining Preference"]
    case ShoppingBag => ["Shopping Pattern"]
    case Shield => []
  }

  // ---------------------------------------------------------------------------
  // Estimated value
  // ---------------------------------------------------------------------------

  /** The card multiplier in halves: 2 for "infinite", 1.5 for "signature", 1 otherwise. */
  function Multiplier(cardType: string): (h: nat)
    ensures 2 <= h <= 4
    ensures h == 4 <==> cardType == "infinite"
    ensures h == 3 <==> cardType == "signature"
  {
    if cardType == "infinite" then 4 else if cardType == "signature" then 3 else 2
  }

  /** Math.round(n / 2): the nearest integer, a half rounded up. */
  function RoundHalf(n: int): (r: int)
    ensures n == 2 * r || n == 2 * r - 1
  {
    (n + 1) / 2
  }

  lemma RoundHalfOfEven(k: int)
    ensures RoundHalf(2 * k) == k
  {
  }

  function GrossValue(d: InputData): int {
    BaseValue + TravelRate * d.travel + DiningRate * d.dining + ShoppingRate * d.shopping
  }

  /** Travel, dining, shopping and base, each times the multiplier and rounded on its own. */
  function Breakdown(d: InputData): seq<BreakdownItem> {
    var h := Multiplier(d.cardType);
    [ BreakdownItem("Travel Benefits", RoundHalf(TravelRate * d.travel * h), Plane),
      BreakdownItem("Dining Rewards", RoundHalf(DiningRate * d.dining * h), Utensils),
      BreakdownItem("Shopping Cashback", RoundHalf(ShoppingRate * d.shopping * h), ShoppingBag),
      BreakdownItem("Base Perks", RoundHalf(BaseValue * h), Shield) ]
  }

  // ---------------------------------------------------------------------------
  // The whole analysis
  // ---------------------------------------------------------------------------

  /** What the analysis returns for `d`, assembled from the parts above. */
  function BenefitsOf(d: InputData): BenefitResult {
    var b := Recommended(d);
    var h := Multiplier(d.cardType);
    BenefitResult(
      Capped(ProfileScore(d)),
      ProfileFactors(d) + Tag(b),
      b,
      RoundHalf(GrossValue(d) * h),
      Breakdown(d))
  }

  /** Completeness bonuses: +10, +8, +5 for each filled-in profile field, with its factor tag. */
  method AdjustConfidence(data: InputData) returns (confidence: int, factors: seq<string>)
    ensures confidence == ProfileScore(data)
    ensures factors == ProfileFactors(data)
  {
    confidence := BaseConfidence;
    factors := [];
    if data.cardType != "" {
      confidence := confidence + 10;
      factors := factors + [CardTypeMatch];
    }
    if data.persona != "" {
      confidence := confidence + 8;
      factors := factors + [LifestyleFit];
    }
    if data.location != "" {
      confidence := confidence + 5;
      factors := factors + [RegionalData];
    }
  }

  /** The rule chain: the default, overridden by the first rule whose guard holds, which also appends its tag. */
  method DeterminePrimaryBenefit(data: InputData, factors: seq<string>)
    returns (primaryBenefit: PrimaryBenefit, factors': seq<string>)
    ensures primaryBenefit == Recommended(data)
    ensures factors' == factors + Tag(primaryBenefit)
  {
    primaryBenefit := PurchaseProtection;
    factors' := factors;
    if data.travel > 60 || data.persona == "traveler" {
      primaryBenefit := TravelInsurance;
      factors' := factors' + ["High Travel Score"];
    } else if data.dining > 60 || data.persona == "foodie" {
      primaryBenefit := DiningRewards;
      factors' := factors' + ["Dining Preference"];
    } else if data.shopping > 60 || data.persona == "shopper" {
      primaryBenefit := ShoppingRewards;
      factors' := factors' + ["Shopping Pattern"];
    }
    RecommendedByPriority(data);
  }

  /** The weighted sum times the card multiplier, rounded once, and each term rounded on its own. */
  method EstimateValue(data: InputData) returns (estimatedValue: int, breakdown: seq<BreakdownItem>)
    ensures estimatedValue == RoundHalf(GrossValue(data) * Multiplier(data.cardType))
    ensures breakdown == Breakdown(data)
  {
    var travelBonus := TravelRate * data.travel;
    var diningBonus := DiningRate * data.dining;
    var shoppingBonus := ShoppingRate * data.shopping;
    var cardMultiplier := if data.cardType == "infinite" then 4 else if data.cardType == "signature" then 3 else 2;

    estimatedValue := RoundHalf((BaseValue + travelBonus + diningBonus + shoppingBonus) * cardMultiplier);
    breakdown := [
      BreakdownItem("Travel Benefits", RoundHalf(travelBonus * cardMultiplier), Plane),
      BreakdownItem("Dining Rewards", RoundHalf(diningBonus * cardMultiplier), Utensils),
      BreakdownItem("Shopping Cashback", RoundHalf(shoppingBonus * cardMultiplier), ShoppingBag),
      BreakdownItem("Base Perks", RoundHalf(BaseValue * cardMultiplier), Shield)
    ];
  }

  /** The whole analysis, as the results panel computes it. */
  method CalculateBenefits(data: InputData) returns (r: BenefitResult)
    ensures r == BenefitsOf(data)
  {
    var confidence, factors := AdjustConfidence(data);
    var primaryBenefit;
    primaryBenefit, factors := DeterminePrimaryBenefit(data, factors);
    var estimatedValue, breakdown := EstimateValue(data);
    r := BenefitResult(Capped(confidence), factors, primaryBenefit, estimatedValue, breakdown);
  }

  // ---------------------------------------------------------------------------
  // Properties of the analysis
  // ---------------------------------------------------------------------------

  /** The cap of 95 never applies: the score stays between 65 and 88. */
  lemma CapNeverFires(d: InputData)
    ensures BenefitsOf(d).confidence == ProfileScore(d)
    ensures BaseConfidence <= BenefitsOf(d).confidence <= 88
  {
  }

  /** The factors are the completeness tags, then the chosen benefit's tag, if any. */
  lemma FactorsShape(d: InputData)
    ensures BenefitsOf(d).factors == ProfileFactors(d) + Tag(BenefitsOf(d).primaryBenefit)
    ensures |Tag(BenefitsOf(d).primaryBenefit)| == 0 <==> BenefitsOf(d).primaryBenefit == PurchaseProtection
    ensures |BenefitsOf(d).factors| <= 4
  {
    RecommendedByPriority(d);
  }

  /** A travel slider above 60 always yields Travel Insurance and the travel tag. */
  lemma TravelDominates(d: InputData)
    requires d.travel > 60
    ensures BenefitsOf(d).primaryBenefit == TravelInsurance
    ensures BenefitsOf(d).factors == ProfileFactors(d) + ["High Travel Score"]
  {
    RecommendedByPriority(d);
  }

  /** The location only affects the confidence and its factors. */
  lemma LocationOnlyAffectsConfidence(d: InputData, loc: string)
    ensures BenefitsOf(d.(location := loc)).primaryBenefit == BenefitsOf(d).primaryBenefit
    ensures BenefitsOf(d.(location := loc)).estimatedValue == BenefitsOf(d).estimatedValue
    ensures BenefitsOf(d.(location := loc)).breakdown == BenefitsOf(d).breakdown
  {
    assert forall b :: Qualifies(d.(location := loc), b) == Qualifies(d, b);
    assert FirstQualifying(d.(location := loc), Rules) == FirstQualifying(d, Rules);
  }

  /** Each breakdown line is exact (no rounding happens), so the lines add up to the estimate. */
  lemma BreakdownAddsUp(d: InputData)
    ensures var h := Multiplier(d.cardType);
      && 2 * BenefitsOf(d).estimatedValue == GrossValue(d) * h
      && 2 * BenefitsOf(d).breakdown[0].value == TravelRate * d.travel * h
      && 2 * BenefitsOf(d).breakdown[1].value == DiningRate * d.dining * h
      && 2 * BenefitsOf(d).breakdown[2].value == ShoppingRate * d.shopping * h
      && 2 * BenefitsOf(d).breakdown[3].value == BaseValue * h
    ensures var bd := BenefitsOf(d).breakdown;
      bd[0].value + bd[1].value + bd[2].value + bd[3].value == BenefitsOf(d).estimatedValue
  {
    var h := Multiplier(d.cardType);
    var t, n, s := 75 * d.travel * h, 40 * d.dining * h, 50 * d.shopping * h;
    assert TravelRate * d.travel * h == 2 * t;
    assert DiningRate * d.dining * h == 2 * n;
    assert ShoppingRate * d.shopping * h == 2 * s;
    assert BaseValue * h == 2 * (6000 * h);
    assert GrossValue(d) * h == 2 * (6000 * h + t + n + s);
    RoundHalfOfEven(t);
    RoundHalfOfEven(n);
    RoundHalfOfEven(s);
    RoundHalfOfEven(6000 * h);
    RoundHalfOfEven(6000 * h + t + n + s);
  }

  /** With the sliders in their 0..100 range the estimate lies between 12000 and 90000. */
  lemma EstimateBounds(d: InputData)
    requires 0 <= d.travel <= 100 && 0 <= d.dining <= 100 && 0 <= d.shopping <= 100
    ensures BaseValue <= BenefitsOf(d).estimatedValue <= 90000
  {
    BreakdownAddsUp(d);
    ScaledBounds(GrossValue(d), Multiplier(d.cardType));
  }

  lemma ScaledBounds(g: int, h: int)
    requires BaseValue <= g <= 45000 && 2 <= h <= 4
    ensures 2 * BaseValue <= g * h <= 180000
  {
    if h == 2 {
      assert g * h == g + g;
    } else if h == 3 {
      assert g * h == g + g + g;
    } else {
      assert g * h == g + g + g + g;
    }
  }

  /** Whatever the form's controls produce, the estimate lies between 12000 and 90000. */
  lemma FormEstimateBounds(d: InputData)
    requires Reachable(d)
    ensures BaseValue <= BenefitsOf(d).estimatedValue <= 90000
  {
    EstimateBounds(d);
  }

  /** The untouched form: confidence 65, no factors, Purchase Protection, 28500. */
  lemma DefaultFormResult()
    ensures var r := BenefitsOf(InputData("", "", "", "", 50, 50, 50, "english"));
      && r.confidence == 65 && r.factors == [] && r.primaryBenefit == PurchaseProtection
      && r.estimatedValue == 28500
  {
  }

  /** All sliders at 0 on an "infinite" card: 24000, all of it base perks. */
  lemma InfiniteCardAtZero(d: InputData)
    requires d.cardType == "infinite" && d.travel == 0 && d.dining == 0 && d.shopping == 0
    ensures BenefitsOf(d).estimatedValue == 24000
    ensures BenefitsOf(d).breakdown[0].value == 0 && BenefitsOf(d).breakdown[1].value == 0
    ensures BenefitsOf(d).breakdown[2].value == 0 && BenefitsOf(d).breakdown[3].value == 24000
  {
  }

  /** All sliders at 100 on a "signature" card: 45000 times 1.5. */
  lemma SignatureCardAtFull(d: InputData)
    requires d.cardType == "signature" && d.travel == 100 && d.dining == 100 && d.shopping == 100
    ensures BenefitsOf(d).estimatedValue == 67500
  {
  }

  /** The meter shows High as soon as any profile field is filled in, Medium otherwise, never Low. */
  lemma MeterLevelOfResult(d: InputData)
    ensures ConfidenceMeter.GetConfidenceLevel(BenefitsOf(d).confidence as real)
      == if d.cardType != "" || d.persona != "" || d.location != ""
         then ConfidenceMeter.HighLevel else ConfidenceMeter.MediumLevel
  {
  }
}
