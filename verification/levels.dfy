/** The ordinal risk labels and the threshold tables that map a score to
    them. */
module Levels {

  datatype RiskLevel = Low | Moderate | High | VeryHigh | Extreme {
    /** Position on the severity scale. */
    function Rank(): nat {
      match this
      case Low => 0
      case Moderate => 1
      case High => 2
      case VeryHigh => 3
      case Extreme => 4
    }

    /** The label as the reports print it. */
    function Label(): string {
      match this
      case Low => "LOW"
      case Moderate => "MODERATE"
      case High => "HIGH"
      case VeryHigh => "VERY HIGH"
      case Extreme => "EXTREME"
    }
  }

  /** Distinct levels have distinct ranks and distinct printed labels. */
  lemma RankAndLabelInjective(a: RiskLevel, b: RiskLevel)
    requires a != b
    ensures a.Rank() != b.Rank()
    ensures a.Label() != b.Label()
  {
  }

  /** Labels of the mean-of-five-factors assessment (no EXTREME band). */
  function BasicLevel(score: real): (l: RiskLevel)
    ensures l == VeryHigh <==> score > 0.7
    ensures l == High <==> 0.5 < score <= 0.7
    ensures l == Moderate <==> 0.3 < score <= 0.5
    ensures l == Low <==> score <= 0.3
  {
    if score > 0.7 then VeryHigh
    else if score > 0.5 then High
    else if score > 0.3 then Moderate
    else Low
  }

  /** Labels of the seven-factor weighted assessment. */
  function IntegratedLevel(score: real): (l: RiskLevel)
    ensures l == Extreme <==> score > 0.8
    ensures l == VeryHigh <==> 0.6 < score <= 0.8
    ensures l == High <==> 0.4 < score <= 0.6
    ensures l == Moderate <==> 0.2 < score <= 0.4
    ensures l == Low <==> score <= 0.2
  {
    if score > 0.8 then Extreme
    else if score > 0.6 then VeryHigh
    else if score > 0.4 then High
    else if score > 0.2 then Moderate
    else Low
  }

  /** Severity of an accumulated-stress value on the simulator's grid. */
  function StressCategory(stress: real): (l: RiskLevel)
    ensures l == Extreme <==> stress > 100.0
    ensures l == VeryHigh <==> 75.0 < stress <= 100.0
    ensures l == High <==> 50.0 < stress <= 75.0
    ensures l == Moderate <==> 25.0 < stress <= 50.0
    ensures l == Low <==> stress <= 25.0
  {
    if stress > 100.0 then Extreme
    else if stress > 75.0 then VeryHigh
    else if stress > 50.0 then High
    else if stress > 25.0 then Moderate
    else Low
  }

  /** Confidence label: HIGH above 0.8, MODERATE above 0.6, LOW otherwise. */
  function ConfidenceLevel(score: real): (l: RiskLevel)
    ensures l == High <==> score > 0.8
    ensures l == Moderate <==> 0.6 < score <= 0.8
    ensures l == Low <==> score <= 0.6
  {
    if score > 0.8 then High
    else if score > 0.6 then Moderate
    else Low
  }

  /** A strictly higher score never receives a less severe label. */
  lemma BasicLevelMonotone(s1: real, s2: real)
    requires s1 <= s2
    ensures BasicLevel(s1).Rank() <= BasicLevel(s2).Rank()
  {
  }

  lemma IntegratedLevelMonotone(s1: real, s2: real)
    requires s1 <= s2
    ensures IntegratedLevel(s1).Rank() <= IntegratedLevel(s2).Rank()
  {
  }

  lemma StressCategoryMonotone(s1: real, s2: real)
    requires s1 <= s2
    ensures StressCategory(s1).Rank() <= StressCategory(s2).Rank()
  {
  }

  /** The action the integrated report attaches to each label. */
  function Recommendation(l: RiskLevel): string {
    match l
    case Extreme => "IMMEDIATE EVACUATION RECOMMENDED"
    case VeryHigh => "HIGH ALERT - PREPARE FOR EVACUATION"
    case High => "INCREASED MONITORING REQUIRED"
    case Moderate => "STANDARD PRECAUTIONS"
    case Low => "ROUTINE MONITORING"
  }

  /** The action for an overall score, read off the 0.8 / 0.6 / 0.4 / 0.2
      thresholds. */
  lemma RecommendationForScore(score: real)
    ensures Recommendation(IntegratedLevel(score)) == "IMMEDIATE EVACUATION RECOMMENDED" <==> score > 0.8
    ensures Recommendation(IntegratedLevel(score)) == "HIGH ALERT - PREPARE FOR EVACUATION" <==> 0.6 < score <= 0.8
    ensures Recommendation(IntegratedLevel(score)) == "INCREASED MONITORING REQUIRED" <==> 0.4 < score <= 0.6
    ensures Recommendation(IntegratedLevel(score)) == "STANDARD PRECAUTIONS" <==> 0.2 < score <= 0.4
    ensures Recommendation(IntegratedLevel(score)) == "ROUTINE MONITORING" <==> score <= 0.2
  {
  }

  /** Each label has its own recommendation, so the recommendation
      determines the label. */
  lemma RecommendationInjective(a: RiskLevel, b: RiskLevel)
    requires Recommendation(a) == Recommendation(b)
    ensures a == b
  {
  }
}
