/** The reversibility service's stand-in for the machine-learning fraud detector: every
    score is derived from the 32-bit `hashCode()` of a UUID, which is taken as an input. */
module FraudDetection {
  import opened Common

  /** `getFraudConfidence`: the last decimal digit of the hash (under Java's remainder, which
      is negative or zero for a negative hash) picks one of three confidence levels. */
  function FraudConfidence(hash: Int32): (c: real)
    ensures c == 0.95 || c == 0.65 || c == 0.35
    ensures c == 0.95 <==> JavaRem(hash, 10) < 2
    ensures c == 0.65 <==> 2 <= JavaRem(hash, 10) < 5
  {
    if JavaRem(hash, 10) < 2 then 0.95
    else if JavaRem(hash, 10) < 5 then 0.65
    else 0.35
  }

  /** Because Java's remainder keeps the sign of the dividend, every negative hash lands in
      the highest bucket. */
  lemma NegativeHashIsHighConfidence(hash: Int32)
    requires hash < 0
    ensures FraudConfidence(hash) == 0.95
  {
  }

  function Min(a: real, b: real): real { if a <= b then a else b }
  function Max(a: real, b: real): real { if a >= b then a else b }

  /** `calculateFraudScore`: `|hash| % 100` as a fraction, clamped into [0.05, 0.95]. For
      `Integer.MIN_VALUE` the absolute value stays negative, and so does the remainder; the
      clamp still brings the score up to 0.05. */
  function FraudScore(hash: Int32): (s: real)
    ensures 0.05 <= s <= 0.95
    ensures hash != Int32Min ==>
              s == Min(0.95, Max(0.05, ((if hash < 0 then -hash else hash) % 100) as real / 100.0))
  {
    var raw := JavaRem(JavaAbs(hash), 100) as real / 100.0;
    Min(0.95, Max(0.05, raw))
  }

  /** The edge case the clamp exists for: `Math.abs(Integer.MIN_VALUE) % 100` is -48. */
  lemma MinValueScore()
    ensures JavaRem(JavaAbs(Int32Min), 100) == -48
    ensures FraudScore(Int32Min) == 0.05
  {
    assert JavaDiv(0x8000_0000, 100) == 21474836;
  }

  /** `generateRiskFactors`: four factors above 0.8, two above 0.5, one otherwise. */
  function RiskFactors(confidence: real): (factors: seq<string>)
    ensures confidence > 0.8 ==> |factors| == 4
    ensures 0.5 < confidence <= 0.8 ==> |factors| == 2
    ensures confidence <= 0.5 ==> factors == ["Normal transaction pattern"]
  {
    if confidence > 0.8 then
      ["Unusual transaction pattern", "Device fingerprint mismatch", "Geographic anomaly",
       "Rapid successive transactions"]
    else if confidence > 0.5 then
      ["Minor behavioral deviation", "Time-based anomaly"]
    else
      ["Normal transaction pattern"]
  }

  datatype FraudAnalysis = FraudAnalysis(
    caseId: Uuid,
    overallConfidence: real,
    behavioralScore: real,
    graphScore: real,
    anomalyScore: real,
    riskFactors: seq<string>)

  /** `getDetailedFraudAnalysis`: the component scores are fixed fractions of the overall
      confidence, so none of them exceeds it, and the factor list follows the confidence. */
  function DetailedFraudAnalysis(caseId: Uuid, hash: Int32): (a: FraudAnalysis)
    ensures a.caseId == caseId && a.overallConfidence == FraudConfidence(hash)
    ensures 0.0 < a.anomalyScore < a.behavioralScore < a.graphScore < a.overallConfidence
    ensures a.behavioralScore == 0.8 * a.overallConfidence
    ensures a.graphScore == 0.9 * a.overallConfidence
    ensures a.anomalyScore == 0.7 * a.overallConfidence
    ensures a.riskFactors == RiskFactors(a.overallConfidence)
  {
    var c := FraudConfidence(hash);
    FraudAnalysis(caseId, c, c * 0.8, c * 0.9, c * 0.7, RiskFactors(c))
  }

  /** Only the highest confidence bucket reports the four-factor list; the two lower buckets
      report two factors and one factor respectively. */
  lemma FactorCountByBucket(hash: Int32)
    ensures |RiskFactors(FraudConfidence(hash))| == 4 <==> JavaRem(hash, 10) < 2
    ensures |RiskFactors(FraudConfidence(hash))| == 2 <==> 2 <= JavaRem(hash, 10) < 5
    ensures |RiskFactors(FraudConfidence(hash))| == 1 <==> 5 <= JavaRem(hash, 10)
  {
  }
}
