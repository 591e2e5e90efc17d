/** The backend's rule-based fraud score (`detect_fraud`) and the credit-score
    risk band of the `/api/credit-score` endpoint, over exact reals. */
module FraudRules {
  import opened Js
  import opened Services

  /** The transaction record `detect_fraud` reads, optional keys already
      resolved to the values `.get` would give. */
  datatype Transaction = Transaction(
    amount: real,
    frequency: int,
    newAccount: bool,
    amountVariance: real,
    timePattern: string,
    locationMismatch: bool,
    multipleAttempts: bool,
    velocity: real,
    deviceRisk: real)

  /** The record `check_fraud` hands over: only amount, frequency and
      new_account are given, every other key takes its `.get` default. */
  function EndpointTransaction(amount: real, frequency: int, newAccount: bool): Transaction
  {
    Transaction(amount, frequency, newAccount, 0.0, "normal", false, false, 0.0, 0.0)
  }

  /** `b * w` for a Python bool `b`: True counts as 1, False as 0. */
  function Times(b: bool, w: real): real
  {
    if b then w else 0.0
  }

  /** The nine suspicious-pattern conditions, in the order of the source list. */
  function Flags(t: Transaction): seq<bool>
  {
    [ t.amount > 10000.0,
      t.frequency > 5,
      t.newAccount,
      t.amountVariance > 5000.0,
      t.timePattern == "unusual",
      t.locationMismatch,
      t.multipleAttempts,
      t.velocity > 3.0,
      t.deviceRisk > 0.7 ]
  }

  /** What each pattern is worth when its condition holds. */
  const Weights: seq<real> := [1.5, 1.3, 1.2, 1.4, 1.2, 1.6, 1.5, 1.3, 1.4]

  /** `suspicious_patterns`: each condition (as 0 or 1) times its risk weight,
      where the first three weights are themselves chosen by a condition. A
      pattern is worth its weight when its condition holds and 0 otherwise:
      the 1.0 and 0.8 alternative weights never show, being multiplied by 0. */
  function Patterns(t: Transaction): (p: seq<real>)
    ensures |p| == 9
    ensures p[0] == (if t.amount > 10000.0 then 1.5 else 0.0)
    ensures p[1] == (if t.frequency > 5 then 1.3 else 0.0)
    ensures p[2] == (if t.newAccount then 1.2 else 0.0)
    ensures p[3] == (if t.amountVariance > 5000.0 then 1.4 else 0.0)
    ensures p[4] == (if t.timePattern == "unusual" then 1.2 else 0.0)
    ensures p[5] == (if t.locationMismatch then 1.6 else 0.0)
    ensures p[6] == (if t.multipleAttempts then 1.5 else 0.0)
    ensures p[7] == (if t.velocity > 3.0 then 1.3 else 0.0)
    ensures p[8] == (if t.deviceRisk > 0.7 then 1.4 else 0.0)
  {
    var amountWeight := if t.amount > 10000.0 then 1.5 else 1.0;
    var frequencyWeight := if t.frequency > 5 then 1.3 else 1.0;
    var accountWeight := if t.newAccount then 1.2 else 0.8;
    var p0 := Times(t.amount > 10000.0, amountWeight);
    var p1 := Times(t.frequency > 5, frequencyWeight);
    var p2 := Times(t.newAccount, accountWeight);
    var p3 := Times(t.amountVariance > 5000.0, 1.4);
    var p4 := Times(t.timePattern == "unusual", 1.2);
    var p5 := Times(t.locationMismatch, 1.6);
    var p6 := Times(t.multipleAttempts, 1.5);
    var p7 := Times(t.velocity > 3.0, 1.3);
    var p8 := Times(t.deviceRisk > 0.7, 1.4);
    [p0, p1, p2, p3, p4, p5, p6, p7, p8]
  }

  /** The same, for any index: a pattern is its weight from `Weights` when
      its condition from `Flags` holds, and 0 otherwise. */
  lemma PatternValue(t: Transaction, i: nat)
    requires i < 9
    ensures Patterns(t)[i] == if Flags(t)[i] then Weights[i] else 0.0
  {
    if i < 3 {
      assert i == 0 || i == 1 || i == 2;
    } else if i < 6 {
      assert i == 3 || i == 4 || i == 5;
    } else {
      assert i == 6 || i == 7 || i == 8;
    }
  }

  function Sum(xs: seq<real>): real
  {
    if xs == [] then 0.0 else xs[0] + Sum(xs[1..])
  }

  /** Peeling one term off a suffix. */
  lemma SumStep(p: seq<real>, k: nat)
    requires k < |p|
    ensures Sum(p[k..]) == p[k] + Sum(p[k + 1..])
  {
  }

  /** A sum of nine, written out. */
  lemma SumOfNine(p: seq<real>)
    requires |p| == 9
    ensures Sum(p) == p[0] + p[1] + p[2] + p[3] + p[4] + p[5] + p[6] + p[7] + p[8]
  {
    assert p[0..] == p;
    assert p[9..] == [];
    SumStep(p, 0); SumStep(p, 1); SumStep(p, 2); SumStep(p, 3); SumStep(p, 4);
    SumStep(p, 5); SumStep(p, 6); SumStep(p, 7); SumStep(p, 8);
  }

  /** Sums are monotone in every term. */
  lemma {:induction false} SumMonotone(p: seq<real>, q: seq<real>)
    requires |p| == |q|
    requires forall i :: 0 <= i < |p| ==> p[i] <= q[i]
    ensures Sum(p) <= Sum(q)
  {
    if p != [] {
      SumMonotone(p[1..], q[1..]);
    }
  }

  /** `risk_score`: the mean of the nine pattern values, times 100. */
  function RiskScore(t: Transaction): (score: real)
    ensures 0.0 <= score <= 1240.0 / 9.0
  {
    var p := Patterns(t);
    SumOfNine(p);
    assert 0.0 <= p[0] <= 1.5 && 0.0 <= p[1] <= 1.3 && 0.0 <= p[2] <= 1.2;
    assert 0.0 <= p[3] <= 1.4 && 0.0 <= p[4] <= 1.2 && 0.0 <= p[5] <= 1.6;
    assert 0.0 <= p[6] <= 1.5 && 0.0 <= p[7] <= 1.3 && 0.0 <= p[8] <= 1.4;
    Sum(p) / 9.0 * 100.0
  }

  /** `risk_level`: above 70 high, above 40 medium, otherwise low. */
  function RiskLevel(score: real): (level: string)
    ensures level == "high" <==> score > 70.0
    ensures level == "medium" <==> 40.0 < score <= 70.0
    ensures level == "low" <==> score <= 40.0
  {
    if score > 70.0 then "high" else if score > 40.0 then "medium" else "low"
  }

  /** `recommendation`: above 70 reject, above 40 review, otherwise approve. */
  function Recommendation(score: real): (advice: string)
    ensures advice == "reject" <==> score > 70.0
    ensures advice == "review" <==> 40.0 < score <= 70.0
    ensures advice == "approve" <==> score <= 40.0
  {
    if score > 70.0 then "reject" else if score > 40.0 then "review" else "approve"
  }

  /** `risk_factors`: the first seven pattern values under their names. */
  function RiskFactors(p: seq<real>): (factors: map<string, real>)
    requires |p| == 9
    ensures factors.Keys == FactorNames
    ensures factors["high_amount"] == p[0] && factors["high_frequency"] == p[1]
    ensures factors["new_account"] == p[2] && factors["amount_anomaly"] == p[3]
    ensures factors["timing_anomaly"] == p[4] && factors["location_risk"] == p[5]
    ensures factors["multiple_attempts"] == p[6]
  {
    map[
      "high_amount" := p[0],
      "high_frequency" := p[1],
      "new_account" := p[2],
      "amount_anomaly" := p[3],
      "timing_anomaly" := p[4],
      "location_risk" := p[5],
      "multiple_attempts" := p[6]]
  }

  const FactorNames: set<string> := {
    "high_amount", "high_frequency", "new_account", "amount_anomaly",
    "timing_anomaly", "location_risk", "multiple_attempts"}

  /** `detect_fraud`. */
  function DetectFraud(t: Transaction): (a: Assessment)
    ensures a.riskScore == RiskScore(t)
    ensures a.riskLevel == RiskLevel(a.riskScore) && a.recommendation == Recommendation(a.riskScore)
    ensures a.riskFactors.Keys == FactorNames
    ensures a.riskFactors["high_amount"] == (if t.amount > 10000.0 then 1.5 else 0.0)
    ensures a.riskFactors["high_frequency"] == (if t.frequency > 5 then 1.3 else 0.0)
    ensures a.riskFactors["new_account"] == (if t.newAccount then 1.2 else 0.0)
    ensures a.riskFactors["amount_anomaly"] == (if t.amountVariance > 5000.0 then 1.4 else 0.0)
    ensures a.riskFactors["timing_anomaly"] == (if t.timePattern == "unusual" then 1.2 else 0.0)
    ensures a.riskFactors["location_risk"] == (if t.locationMismatch then 1.6 else 0.0)
    ensures a.riskFactors["multiple_attempts"] == (if t.multipleAttempts then 1.5 else 0.0)
  {
    var p := Patterns(t);
    var score := RiskScore(t);
    Assessment(score, RiskLevel(score), RiskFactors(p), Recommendation(score))
  }

  /** Seven distinct names. */
  lemma FactorNamesCount()
    ensures |FactorNames| == 7
  {
    var names := ["high_amount", "high_frequency", "new_account", "amount_anomaly",
                  "timing_anomaly", "location_risk", "multiple_attempts"];
    assert FactorNames == {names[0]} + {names[1]} + {names[2]} + {names[3]} + {names[4]} + {names[5]} + {names[6]};
  }

  /** The reported factors are exactly seven; velocity and device risk count
      towards the score but are not reported, so the score is the reported
      values plus those two, over nine, times 100. */
  lemma ReportedFactors(t: Transaction)
    ensures |DetectFraud(t).riskFactors| == 7
    ensures var f := DetectFraud(t).riskFactors; var p := Patterns(t);
      DetectFraud(t).riskScore
        == (f["high_amount"] + f["high_frequency"] + f["new_account"] + f["amount_anomaly"]
            + f["timing_anomaly"] + f["location_risk"] + f["multiple_attempts"] + p[7] + p[8]) / 9.0 * 100.0
  {
    var p := Patterns(t);
    SumOfNine(p);
    FactorNamesCount();
    assert DetectFraud(t).riskFactors == RiskFactors(p);
    assert |RiskFactors(p)| == |RiskFactors(p).Keys|;
  }

  /** The level and the recommendation use the same two thresholds, so they
      always go together. */
  lemma LevelMatchesRecommendation(score: real)
    ensures RiskLevel(score) == "high" <==> Recommendation(score) == "reject"
    ensures RiskLevel(score) == "medium" <==> Recommendation(score) == "review"
    ensures RiskLevel(score) == "low" <==> Recommendation(score) == "approve"
  {
  }

  /** A condition turning true never lowers the score. */
  lemma RiskScoreMonotone(t: Transaction, u: Transaction)
    requires forall i :: 0 <= i < 9 && Flags(t)[i] ==> Flags(u)[i]
    ensures RiskScore(t) <= RiskScore(u)
  {
    forall i | 0 <= i < 9 ensures Patterns(t)[i] <= Patterns(u)[i] {
      PatternValue(t, i);
      PatternValue(u, i);
    }
    SumMonotone(Patterns(t), Patterns(u));
  }

  /** Through the endpoint only three conditions can hold, so the score is at
      most 400/9 (below 50), the level is never high, and the recommendation
      is review exactly when all three hold. */
  lemma EndpointRisk(amount: real, frequency: int, newAccount: bool)
    ensures var a := DetectFraud(EndpointTransaction(amount, frequency, newAccount));
      && a.riskScore <= 400.0 / 9.0 < 50.0
      && a.riskLevel != "high"
      && (a.recommendation == "review" <==> amount > 10000.0 && frequency > 5 && newAccount)
      && (a.recommendation == "approve" <==> !(amount > 10000.0 && frequency > 5 && newAccount))
  {
    var t := EndpointTransaction(amount, frequency, newAccount);
    SumOfNine(Patterns(t));
  }

  /** `risk_level` of the credit-score endpoint: above 650 low, above 550
      medium, otherwise high. */
  function CreditRiskLevel(score: int): (level: string)
    ensures level == "low" <==> score > 650
    ensures level == "medium" <==> 550 < score <= 650
    ensures level == "high" <==> score <= 550
  {
    if score > 650 then "low" else if score > 550 then "medium" else "high"
  }

  /** The body `/api/fraud-check` answers with, for an amount, frequency and
      new-account flag that `float`, `int` and the JSON decoder accepted. */
  function FraudCheckReply(amount: real, frequency: int, newAccount: bool): (r: Response<FraudBody>)
    ensures r.Reply? && r.ok && r.body.status == Some("success")
    ensures r.body.assessment == Some(DetectFraud(EndpointTransaction(amount, frequency, newAccount)))
  {
    Reply(true, FraudBody(Some("success"), Some(DetectFraud(EndpointTransaction(amount, frequency, newAccount))), None))
  }
}
