/** The fraud-detection service's own scoring, used when its risk engine is not available:
    the additive rule-based score, the fallback fusion of the component scores (with a fixed
    default for every analysis service that is missing or fails) and the list of risk
    factors. Amounts and scores are reals. */
module FraudScoring {
  import opened Common

  // ---------------------------------------------------------------------------------------
  // Transaction context

  /** What the caller's user context says; each entry may be absent. */
  datatype UserContext = UserContext(
    userAgeDays: Option<int>,
    recentTransactions1h: Option<int>,
    isNewLocation: Option<bool>)

  function GetOr<T>(o: Option<T>, default: T): (r: T)
    ensures o.Some? ==> r == o.value
    ensures o.None? ==> r == default
  {
    if o.Some? then o.value else default
  }

  /** The context the scoring reads, with the defaults of a missing entry filled in. */
  datatype TransactionContext = TransactionContext(
    amount: real,
    userAgeDays: int,
    recentTransactions1h: int,
    isNewLocation: bool)

  const DefaultUserAgeDays := 365

  function ContextOf(amount: real, user: UserContext): (ctx: TransactionContext)
    ensures ctx.amount == amount
    ensures user.userAgeDays.None? ==> ctx.userAgeDays == DefaultUserAgeDays
    ensures user.recentTransactions1h.None? ==> ctx.recentTransactions1h == 0
    ensures user.isNewLocation.None? ==> !ctx.isNewLocation
    ensures user.userAgeDays.Some? ==> ctx.userAgeDays == user.userAgeDays.value
    ensures user.recentTransactions1h.Some? ==>
              ctx.recentTransactions1h == user.recentTransactions1h.value
    ensures user.isNewLocation.Some? ==> ctx.isNewLocation == user.isNewLocation.value
  {
    TransactionContext(amount, GetOr(user.userAgeDays, DefaultUserAgeDays),
                       GetOr(user.recentTransactions1h, 0), GetOr(user.isNewLocation, false))
  }

  // ---------------------------------------------------------------------------------------
  // Rule-based score

  /** The amount band: a large amount and a merely high one never both count. */
  function AmountPoints(amount: real): real {
    if amount > 10000.0 then 0.3 else if amount > 1000.0 then 0.1 else 0.0
  }

  /** A very small amount (a possible test of a stolen account). */
  function MicroAmountPoints(amount: real): real {
    if 0.0 < amount < 1.0 then 0.2 else 0.0
  }

  function VelocityPoints(recent: int): real {
    if recent > 10 then 0.4 else if recent > 5 then 0.2 else 0.0
  }

  function LocationPoints(isNew: bool): real {
    if isNew then 0.2 else 0.0
  }

  /** A young account moving a large amount. */
  function NewUserPoints(userAgeDays: int, amount: real): real {
    if userAgeDays < 7 && amount > 1000.0 then 0.3 else 0.0
  }

  /** The sum of the rule increments before the cap. */
  function RawRuleScore(ctx: TransactionContext): real {
    AmountPoints(ctx.amount) + MicroAmountPoints(ctx.amount) +
    VelocityPoints(ctx.recentTransactions1h) + LocationPoints(ctx.isNewLocation) +
    NewUserPoints(ctx.userAgeDays, ctx.amount)
  }

  /** `_calculate_rule_based_score`: the increments capped at 1. */
  function RuleScore(ctx: TransactionContext): (score: real)
    ensures 0.0 <= score <= 1.0
    ensures score <= RawRuleScore(ctx)
    ensures RawRuleScore(ctx) <= 1.0 ==> score == RawRuleScore(ctx)
    ensures RawRuleScore(ctx) > 1.0 ==> score == 1.0
  {
    var raw := RawRuleScore(ctx);
    if raw < 1.0 then raw else 1.0
  }

  /** Each band of each rule, as the score increments it contributes. */
  lemma RuleBands(ctx: TransactionContext)
    ensures AmountPoints(ctx.amount) == 0.3 <==> ctx.amount > 10000.0
    ensures AmountPoints(ctx.amount) == 0.1 <==> 1000.0 < ctx.amount <= 10000.0
    ensures MicroAmountPoints(ctx.amount) > 0.0 <==> 0.0 < ctx.amount < 1.0
    ensures AmountPoints(ctx.amount) > 0.0 ==> MicroAmountPoints(ctx.amount) == 0.0
    ensures VelocityPoints(ctx.recentTransactions1h) ==
              if ctx.recentTransactions1h > 10 then 0.4
              else if ctx.recentTransactions1h > 5 then 0.2 else 0.0
    ensures NewUserPoints(ctx.userAgeDays, ctx.amount) > 0.0 <==>
              ctx.userAgeDays < 7 && ctx.amount > 1000.0
  {
  }

  /** A context with nothing but an amount of 0 scores 0: the defaults (no recent
      transactions, a known location, a year-old account) add nothing. */
  lemma DefaultsScoreNothing()
    ensures RuleScore(ContextOf(0.0, UserContext(None, None, None))) == 0.0
  {
  }

  /** More transactions in the last hour, or a location that becomes new, never lower the
      rule score. */
  lemma RuleScoreMonotone(ctx: TransactionContext, recent: int, isNew: bool)
    requires ctx.recentTransactions1h <= recent
    requires ctx.isNewLocation ==> isNew
    ensures RuleScore(ctx) <=
            RuleScore(ctx.(recentTransactions1h := recent, isNewLocation := isNew))
  {
    var more := ctx.(recentTransactions1h := recent, isNewLocation := isNew);
    assert VelocityPoints(ctx.recentTransactions1h) <= VelocityPoints(recent);
    assert LocationPoints(ctx.isNewLocation) <= LocationPoints(isNew);
    assert RawRuleScore(ctx) <= RawRuleScore(more);
  }

  // ---------------------------------------------------------------------------------------
  // Component scores and the fallback fusion

  /** What asking one analysis service gave: no service configured, a failure, or a score. */
  datatype ServiceOutcome = Unavailable | Failed | Scored(score: real)

  const BehavioralDefault: real := 0.5
  const GraphDefault: real := 0.1
  const AnomalyDefault: real := 0.15

  /** A component's score: the service's own when it answered, its default otherwise. */
  function ComponentScore(outcome: ServiceOutcome, default: real): (r: real)
    ensures outcome.Scored? ==> r == outcome.score
    ensures !outcome.Scored? ==> r == default
  {
    match outcome
    case Scored(score) => score
    case _ => default
  }

  datatype ComponentScores = ComponentScores(
    behavioral: real,
    graph: real,
    anomaly: real,
    ruleBased: real)

  /** The component scores of `analyze_transaction`. */
  function Components(behavioral: ServiceOutcome, graph: ServiceOutcome,
                      anomaly: ServiceOutcome, ctx: TransactionContext)
    : (c: ComponentScores)
    ensures !behavioral.Scored? ==> c.behavioral == 0.5
    ensures !graph.Scored? ==> c.graph == 0.1
    ensures !anomaly.Scored? ==> c.anomaly == 0.15
    ensures behavioral.Scored? ==> c.behavioral == behavioral.score
    ensures graph.Scored? ==> c.graph == graph.score
    ensures anomaly.Scored? ==> c.anomaly == anomaly.score
    ensures c.ruleBased == RuleScore(ctx)
    ensures 0.0 <= c.ruleBased <= 1.0
  {
    ComponentScores(ComponentScore(behavioral, BehavioralDefault),
                    ComponentScore(graph, GraphDefault),
                    ComponentScore(anomaly, AnomalyDefault),
                    RuleScore(ctx))
  }

  const BehavioralWeight: real := 0.35
  const GraphWeight: real := 0.30
  const AnomalyWeight: real := 0.25
  const RuleWeight: real := 0.10

  /** The weighted average used without a risk engine. */
  function FallbackScore(c: ComponentScores): real {
    c.behavioral * BehavioralWeight + c.graph * GraphWeight + c.anomaly * AnomalyWeight +
    c.ruleBased * RuleWeight
  }

  predicate InUnitRange(x: real) {
    0.0 <= x <= 1.0
  }

  /** The weights sum to 1, so the fused score lies between the smallest and the largest
      component, and in [0, 1] when all components do. */
  lemma FallbackIsAverage(c: ComponentScores, lo: real, hi: real)
    requires lo <= c.behavioral <= hi && lo <= c.graph <= hi
    requires lo <= c.anomaly <= hi && lo <= c.ruleBased <= hi
    ensures BehavioralWeight + GraphWeight + AnomalyWeight + RuleWeight == 1.0
    ensures lo <= FallbackScore(c) <= hi
  {
  }

  lemma FallbackInUnitRange(behavioral: ServiceOutcome, graph: ServiceOutcome,
                            anomaly: ServiceOutcome, ctx: TransactionContext)
    requires behavioral.Scored? ==> InUnitRange(behavioral.score)
    requires graph.Scored? ==> InUnitRange(graph.score)
    requires anomaly.Scored? ==> InUnitRange(anomaly.score)
    ensures InUnitRange(FallbackScore(Components(behavioral, graph, anomaly, ctx)))
  {
    FallbackIsAverage(Components(behavioral, graph, anomaly, ctx), 0.0, 1.0);
  }

  /** With no analysis service at all, only the rules move the score, a tenth at a time:
      it lies between 0.2425 and 0.3425. */
  lemma FallbackWithoutServices(ctx: TransactionContext)
    ensures var s := FallbackScore(Components(Unavailable, Unavailable, Unavailable, ctx));
            s == 0.2425 + 0.1 * RuleScore(ctx) && 0.2425 <= s <= 0.3425
  {
  }

  // ---------------------------------------------------------------------------------------
  // Risk factors

  const UnusualBehavior := "unusual_behavior"
  const SuspiciousNetwork := "suspicious_network"
  const TransactionAnomaly := "transaction_anomaly"
  const RuleViolation := "rule_violation"
  const HighAmount := "high_amount"
  const MicroAmount := "micro_amount"
  const HighVelocity := "high_velocity"
  const NewLocation := "new_location"

  /** Every factor, in the order in which they are reported. */
  const FactorOrder: seq<string> := [UnusualBehavior, SuspiciousNetwork, TransactionAnomaly,
                                     RuleViolation, HighAmount, MicroAmount, HighVelocity,
                                     NewLocation]

  /** The entries of `all` whose flag is set, in their order. */
  function Select(all: seq<string>, flags: seq<bool>): (r: seq<string>)
    requires |all| == |flags|
    ensures |r| <= |all|
    ensures forall x :: x in r ==> x in all
  {
    if all == [] then []
    else (if flags[0] then [all[0]] else []) + Select(all[1..], flags[1..])
  }

  /** `r` is `s` with some entries removed. */
  ghost predicate SubsequenceOf(r: seq<string>, s: seq<string>)
    decreases |s|
  {
    if r == [] then true
    else if s == [] then false
    else (r[0] == s[0] && SubsequenceOf(r[1..], s[1..])) || SubsequenceOf(r, s[1..])
  }

  lemma {:induction false} SelectKeepsOrder(all: seq<string>, flags: seq<bool>)
    requires |all| == |flags|
    ensures SubsequenceOf(Select(all, flags), all)
    decreases |all|
  {
    if all != [] {
      var rest := Select(all[1..], flags[1..]);
      SelectKeepsOrder(all[1..], flags[1..]);
      if flags[0] {
        assert Select(all, flags) == [all[0]] + rest;
        assert ([all[0]] + rest)[1..] == rest;
      } else {
        assert Select(all, flags) == rest;
        if rest != [] {
          assert SubsequenceOf(rest, all[1..]);
        }
      }
    }
  }

  ghost predicate Distinct(s: seq<string>) {
    forall i, j :: 0 <= i < j < |s| ==> s[i] != s[j]
  }

  lemma {:induction false} SelectMembers(all: seq<string>, flags: seq<bool>, k: nat)
    requires |all| == |flags| && Distinct(all) && k < |all|
    ensures all[k] in Select(all, flags) <==> flags[k]
    decreases |all|
  {
    var rest := Select(all[1..], flags[1..]);
    if k == 0 {
      forall j | 0 <= j < |all[1..]|
        ensures all[1..][j] != all[0]
      {
        assert all[1..][j] == all[j + 1];
      }
    } else {
      assert Distinct(all[1..]) by {
        forall i, j | 0 <= i < j < |all[1..]|
          ensures all[1..][i] != all[1..][j]
        {
          assert all[1..][i] == all[i + 1] && all[1..][j] == all[j + 1];
        }
      }
      SelectMembers(all[1..], flags[1..], k - 1);
      assert all[1..][k - 1] == all[k];
    }
  }

  /** Which factors apply, in `FactorOrder`: a large amount is reported as high, and any other
      amount below 1 (zero included) as micro. */
  function FactorFlags(c: ComponentScores, ctx: TransactionContext): (flags: seq<bool>)
    ensures |flags| == |FactorOrder|
  {
    [c.behavioral > 0.7, c.graph > 0.6, c.anomaly > 0.8, c.ruleBased > 0.5,
     ctx.amount > 10000.0, !(ctx.amount > 10000.0) && ctx.amount < 1.0,
     ctx.recentTransactions1h > 10, ctx.isNewLocation]
  }

  /** `_extract_simple_risk_factors`. */
  function RiskFactors(c: ComponentScores, ctx: TransactionContext): seq<string> {
    Select(FactorOrder, FactorFlags(c, ctx))
  }

  /** Each factor is reported exactly when its threshold is passed, at most once, and in the
      fixed order; the amount factors exclude each other, and a zero amount counts as micro. */
  lemma RiskFactorsMeaning(c: ComponentScores, ctx: TransactionContext)
    ensures var r := RiskFactors(c, ctx);
            (UnusualBehavior in r <==> c.behavioral > 0.7) &&
            (SuspiciousNetwork in r <==> c.graph > 0.6) &&
            (TransactionAnomaly in r <==> c.anomaly > 0.8) &&
            (RuleViolation in r <==> c.ruleBased > 0.5) &&
            (HighAmount in r <==> ctx.amount > 10000.0) &&
            (MicroAmount in r <==> ctx.amount < 1.0) &&
            !(HighAmount in r && MicroAmount in r) &&
            (HighVelocity in r <==> ctx.recentTransactions1h > 10) &&
            (NewLocation in r <==> ctx.isNewLocation) &&
            SubsequenceOf(r, FactorOrder)
  {
    var flags := FactorFlags(c, ctx);
    assert Distinct(FactorOrder);
    SelectKeepsOrder(FactorOrder, flags);
    forall k | 0 <= k < |FactorOrder|
      ensures FactorOrder[k] in RiskFactors(c, ctx) <==> flags[k]
    {
      SelectMembers(FactorOrder, flags, k);
    }
    assert FactorOrder[0] == UnusualBehavior && FactorOrder[1] == SuspiciousNetwork;
    assert FactorOrder[2] == TransactionAnomaly && FactorOrder[3] == RuleViolation;
    assert FactorOrder[4] == HighAmount && FactorOrder[5] == MicroAmount;
    assert FactorOrder[6] == HighVelocity && FactorOrder[7] == NewLocation;
  }

  // ---------------------------------------------------------------------------------------
  // The fallback analysis

  datatype Analysis = Analysis(
    overallScore: real,
    components: ComponentScores,
    riskFactors: seq<string>)

  /** `analyze_transaction` without a risk engine: the components (with their defaults), the
      fused score and the factors of those components and the context. */
  function AnalyzeWithoutEngine(amount: real, user: UserContext, behavioral: ServiceOutcome,
                                graph: ServiceOutcome, anomaly: ServiceOutcome)
    : (a: Analysis)
    ensures a.components == Components(behavioral, graph, anomaly, ContextOf(amount, user))
    ensures a.components.ruleBased == RuleScore(ContextOf(amount, user))
    ensures a.overallScore == FallbackScore(a.components)
    ensures a.riskFactors == RiskFactors(a.components, ContextOf(amount, user))
  {
    var ctx := ContextOf(amount, user);
    var c := Components(behavioral, graph, anomaly, ctx);
    Analysis(FallbackScore(c), c, RiskFactors(c, ctx))
  }
}
