/**
 * Result mapping (app.py, predict): the classifier's label and class
 * probabilities become the reported verdict: a label text, two confidences in
 * percent rounded to two decimals, and a risk tier read off the unrounded
 * fraud confidence.
 */
module Verdict {

  /** The classifier's label: 1 is fraudulent, 0 legitimate. */
  type Label = l: int | l == 0 || l == 1

  /** One row of `predict_proba`: index 0 is P(legitimate), index 1 is P(fraudulent). */
  datatype Proba = Proba(legitimate: real, fraudulent: real)

  /** The JSON body of a successful prediction. */
  datatype PredictionResult = PredictionResult(
    prediction: int,
    predictionText: string,
    confidenceLegitimate: real,
    confidenceFraudulent: real,
    riskLevel: string)

  /** The text of a label: "Fraudulent" exactly for 1, "Legitimate" for anything else. */
  function PredictionText(prediction: int): (text: string)
    ensures text == "Fraudulent" <==> prediction == 1
    ensures text == "Legitimate" <==> prediction != 1
  {
    if prediction == 1 then "Fraudulent" else "Legitimate"
  }

  /**
   * The risk tier of a fraud confidence in percent: strict thresholds, so
   * exactly 70 is Medium and exactly 30 is Low.
   */
  function RiskLevel(confidence: real): (level: string)
    ensures level == "High" <==> confidence > 70.0
    ensures level == "Medium" <==> 30.0 < confidence <= 70.0
    ensures level == "Low" <==> confidence <= 30.0
  {
    if confidence > 70.0 then "High" else if confidence > 30.0 then "Medium" else "Low"
  }

  /** The order of the tiers: Low below Medium below High. */
  function Tier(level: string): nat
  {
    if level == "High" then 2 else if level == "Medium" then 1 else 0
  }

  /** A higher fraud confidence never gives a lower tier. */
  lemma RiskLevelMonotone(c1: real, c2: real)
    requires c1 <= c2
    ensures Tier(RiskLevel(c1)) <= Tier(RiskLevel(c2))
  {
  }

  /** The boundary cases: 71 is High, 70 and 69.99 are Medium, 30 is Low. */
  lemma RiskLevelBoundaries()
    ensures RiskLevel(71.0) == "High"
    ensures RiskLevel(70.0) == "Medium"
    ensures RiskLevel(69.99) == "Medium"
    ensures RiskLevel(30.0) == "Low"
  {
  }

  /**
   * Python's rounding of a real to an integer: the nearest integer, and the even
   * one of the two when `y` lies exactly half-way.
   */
  function RoundHalfEven(y: real): (n: int)
    ensures n as real - 0.5 <= y <= n as real + 0.5
    ensures y - y.Floor as real != 0.5 ==> -0.5 < y - n as real < 0.5
    ensures y - y.Floor as real == 0.5 ==> n % 2 == 0
  {
    var f := y.Floor;
    var frac := y - f as real;
    if frac < 0.5 then f
    else if frac > 0.5 then f + 1
    else if f % 2 == 0 then f else f + 1
  }

  /** An integral value is its own rounding. */
  lemma RoundHalfEvenIntegral(k: int)
    ensures RoundHalfEven(k as real) == k
  {
    assert (k as real).Floor == k;
  }

  /**
   * `round(x, digits)`, given `scale`, ten to the `digits`: scaled up, the result
   * is the integer nearest to the scaled `x`, at most half a unit of the last
   * digit away.
   */
  function Round(x: real, scale: real): (r: real)
    requires scale >= 1.0
    ensures r * scale == RoundHalfEven(x * scale) as real
    ensures (r * scale).Floor as real == r * scale
    ensures -0.5 <= r * scale - x * scale <= 0.5
  {
    var n := RoundHalfEven(x * scale);
    assert (n as real / scale) * scale == n as real;
    assert (n as real).Floor == n;
    n as real / scale
  }

  /** A confidence with at most two decimals is reported as it is. */
  lemma RoundExact(k: int)
    ensures Round(k as real / 100.0, 100.0) == k as real / 100.0
  {
    assert (k as real / 100.0) * 100.0 == k as real;
    RoundHalfEvenIntegral(k);
  }

  /**
   * The verdict for a label and a probability row: the label and its text, both
   * confidences in percent to two decimals, and the tier of the unrounded fraud
   * confidence.
   */
  function MakeResult(prediction: Label, proba: Proba): (r: PredictionResult)
    ensures r.prediction == prediction
    ensures r.predictionText == PredictionText(prediction)
    ensures r.predictionText == "Fraudulent" <==> prediction == 1
    ensures r.predictionText == "Legitimate" <==> prediction == 0
    ensures (r.confidenceLegitimate * 100.0).Floor as real == r.confidenceLegitimate * 100.0
    ensures (r.confidenceFraudulent * 100.0).Floor as real == r.confidenceFraudulent * 100.0
    ensures -0.005 <= r.confidenceLegitimate - proba.legitimate * 100.0 <= 0.005
    ensures -0.005 <= r.confidenceFraudulent - proba.fraudulent * 100.0 <= 0.005
    ensures r.riskLevel == "High" <==> proba.fraudulent * 100.0 > 70.0
    ensures r.riskLevel == "Medium" <==> 30.0 < proba.fraudulent * 100.0 <= 70.0
    ensures r.riskLevel == "Low" <==> proba.fraudulent * 100.0 <= 30.0
  {
    var confidenceLegitimate := proba.legitimate * 100.0;
    var confidenceFraudulent := proba.fraudulent * 100.0;
    PredictionResult(
      prediction,
      PredictionText(prediction),
      Round(confidenceLegitimate, 100.0),
      Round(confidenceFraudulent, 100.0),
      RiskLevel(confidenceFraudulent))
  }

  /**
   * The tier reads the unrounded confidence: a fraud probability of 0.70004 is
   * reported as 70.0 percent, yet its tier is High, not the Medium of 70.0.
   */
  lemma RiskUsesUnroundedConfidence()
    ensures var r := MakeResult(1, Proba(0.29996, 0.70004));
            r.confidenceFraudulent == 70.0 && r.riskLevel == "High" && RiskLevel(r.confidenceFraudulent) == "Medium"
  {
    assert 0.70004 * 100.0 == 70.004;
    assert RoundHalfEven(7000.4) == 7000 by {
      assert (7000.4).Floor == 7000;
    }
  }

  /** When the two probabilities sum to one, the reported confidences sum to 100 within 0.01. */
  lemma ConfidencesSumToHundred(proba: Proba, prediction: Label)
    requires proba.legitimate + proba.fraudulent == 1.0
    ensures var r := MakeResult(prediction, proba);
            -0.01 <= r.confidenceLegitimate + r.confidenceFraudulent - 100.0 <= 0.01
  {
  }

  /** Label 0 with probabilities [0.85, 0.15]: Legitimate, 85.0 and 15.0 percent, tier Low. */
  lemma LegitimateResult()
    ensures MakeResult(0, Proba(0.85, 0.15)) == PredictionResult(0, "Legitimate", 85.0, 15.0, "Low")
  {
    assert 0.85 * 100.0 == 8500 as real / 100.0;
    assert 0.15 * 100.0 == 1500 as real / 100.0;
    RoundExact(8500);
    RoundExact(1500);
  }

  /** Label 1 with probabilities [0.1, 0.9]: Fraudulent, 10.0 and 90.0 percent, tier High. */
  lemma FraudulentResult()
    ensures MakeResult(1, Proba(0.1, 0.9)) == PredictionResult(1, "Fraudulent", 10.0, 90.0, "High")
  {
    assert 0.1 * 100.0 == 1000 as real / 100.0;
    assert 0.9 * 100.0 == 9000 as real / 100.0;
    RoundExact(1000);
    RoundExact(9000);
  }
}
