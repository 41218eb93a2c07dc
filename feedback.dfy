/**
 * The feedback rules of the performance model: the key-wise difference of two
 * feature maps and the three threshold rules that turn a difference map into
 * feedback sentences.
 */
module Feedback {
  import opened Common

  /** Named audio features (`pitch`, `tempo`, `energy`, `brightness`, `mfcc_1` …). */
  type FeatureMap = map<string, real>

  /** Python's `KeyError`: `actual` lacks these keys of `expected`. */
  datatype CompareError = MissingFeatures(keys: set<string>)

  /**
   * `compare_performances`: for every key of `expected`, the actual value
   * minus the expected one; a `KeyError` when `actual` lacks a key of
   * `expected`. Keys only in `actual` are ignored.
   */
  function ComparePerformances(expected: FeatureMap, actual: FeatureMap): (r: Result<FeatureMap, CompareError>)
    ensures r.Ok? <==> expected.Keys <= actual.Keys
    ensures r.Ok? ==> r.value.Keys == expected.Keys &&
                      forall k :: k in expected ==> r.value[k] == actual[k] - expected[k]
    ensures r.Err? ==> r.error.keys != {} && r.error.keys == expected.Keys - actual.Keys
  {
    if expected.Keys <= actual.Keys then
      Ok(map k | k in expected :: actual[k] - expected[k])
    else
      var missing := expected.Keys - actual.Keys;
      assert missing != {} by {
        var k :| k in expected.Keys && k !in actual.Keys;
        assert k in missing;
      }
      Err(MissingFeatures(missing))
  }

  /** Swapping the two performances negates every difference. */
  lemma CompareAntisymmetric(a: FeatureMap, b: FeatureMap)
    requires a.Keys == b.Keys
    ensures ComparePerformances(a, b).Ok? && ComparePerformances(b, a).Ok?
    ensures forall k :: k in a ==> ComparePerformances(a, b).value[k] == -ComparePerformances(b, a).value[k]
  {
  }

  /**
   * One threshold rule: the key it reads, its strict threshold, and its
   * sentence for a positive and for a negative difference.
   */
  datatype Rule = Rule(key: string, threshold: real, above: string, below: string)

  /** The rules of `generate_feedback`, in the order it applies them. */
  const PitchRule := Rule("pitch", 1.0, PitchHigher, PitchLower)
  const TempoRule := Rule("tempo", 5.0, TempoFaster, TempoSlower)
  const EnergyRule := Rule("energy", 0.1, PlayingLouder, PlayingSofter)
  const Rules: seq<Rule> := [PitchRule, TempoRule, EnergyRule]

  /** The sentences `f"Your {subject} is {direction} than expected"` produces. */
  const PitchHigher := "Your pitch is higher than expected"
  const PitchLower := "Your pitch is lower than expected"
  const TempoFaster := "Your tempo is faster than expected"
  const TempoSlower := "Your tempo is slower than expected"
  const PlayingLouder := "Your playing is louder than expected"
  const PlayingSofter := "Your playing is softer than expected"

  /**
   * What one rule contributes for a difference `v`: nothing unless
   * `abs(v) > threshold`, then one sentence whose direction is `above`
   * exactly when `v > 0`.
   */
  function Fire(rule: Rule, v: real): (r: seq<string>)
    requires rule.threshold >= 0.0
    ensures |r| <= 1
    ensures |r| == 1 <==> Abs(v) > rule.threshold
    ensures |r| == 1 ==> r[0] == if v > 0.0 then rule.above else rule.below
  {
    if Abs(v) > rule.threshold then
      [if v > 0.0 then rule.above else rule.below]
    else []
  }

  predicate NonNegativeThresholds(rules: seq<Rule>) {
    forall i :: 0 <= i < |rules| ==> rules[i].threshold >= 0.0
  }

  /**
   * The specification of the rule list: apply the rules in order; reading a
   * missing key raises `KeyError` for the first such key, discarding what was
   * collected before it.
   */
  function ApplyRules(rules: seq<Rule>, d: FeatureMap): (r: Result<seq<string>, string>)
    requires NonNegativeThresholds(rules)
    decreases |rules|
    ensures r.Err? ==> r.error !in d && exists i :: 0 <= i < |rules| && rules[i].key == r.error
  {
    if rules == [] then Ok([])
    else if rules[0].key !in d then Err(rules[0].key)
    else match ApplyRules(rules[1..], d)
      case Err(k) => Err(k)
      case Ok(rest) => Ok(Fire(rules[0], d[rules[0].key]) + rest)
  }

  /** The rule list succeeds exactly when every key it reads is present, and then yields at most one sentence per rule. */
  lemma {:induction false} ApplyRulesOk(rules: seq<Rule>, d: FeatureMap)
    requires NonNegativeThresholds(rules)
    ensures ApplyRules(rules, d).Ok? <==> forall i :: 0 <= i < |rules| ==> rules[i].key in d
    ensures ApplyRules(rules, d).Ok? ==> |ApplyRules(rules, d).value| <= |rules|
    decreases |rules|
  {
    if rules != [] {
      ApplyRulesOk(rules[1..], d);
      assert forall i :: 1 <= i < |rules| ==> rules[i] == rules[1..][i - 1];
    }
  }

  /** The outcome depends only on the keys the rules read. */
  lemma {:induction false} ApplyRulesReadsOnlyRuleKeys(rules: seq<Rule>, d1: FeatureMap, d2: FeatureMap)
    requires NonNegativeThresholds(rules)
    requires forall i :: 0 <= i < |rules| ==>
               (rules[i].key in d1 <==> rules[i].key in d2) &&
               (rules[i].key in d1 ==> d1[rules[i].key] == d2[rules[i].key])
    ensures ApplyRules(rules, d1) == ApplyRules(rules, d2)
    decreases |rules|
  {
    if rules != [] {
      assert forall i :: 1 <= i < |rules| ==> rules[i] == rules[1..][i - 1];
      ApplyRulesReadsOnlyRuleKeys(rules[1..], d1, d2);
    }
  }

  /**
   * `generate_feedback`: successive conditional appends for pitch, tempo and
   * energy. Its result is that of the rule list.
   */
  method GenerateFeedback(differences: FeatureMap) returns (r: Result<seq<string>, string>)
    ensures r == ApplyRules(Rules, differences)
  {
    FeedbackShape(differences);
    var feedback: seq<string> := [];
    if "pitch" !in differences { return Err("pitch"); }
    if Abs(differences["pitch"]) > 1.0 {
      var sentence := if differences["pitch"] > 0.0 then PitchHigher else PitchLower;
      feedback := feedback + [sentence];
    }
    assert feedback == Fire(PitchRule, differences["pitch"]);
    if "tempo" !in differences { return Err("tempo"); }
    ghost var afterPitch := feedback;
    if Abs(differences["tempo"]) > 5.0 {
      var sentence := if differences["tempo"] > 0.0 then TempoFaster else TempoSlower;
      feedback := feedback + [sentence];
    }
    assert feedback == afterPitch + Fire(TempoRule, differences["tempo"]);
    if "energy" !in differences { return Err("energy"); }
    ghost var afterTempo := feedback;
    if Abs(differences["energy"]) > 0.1 {
      var sentence := if differences["energy"] > 0.0 then PlayingLouder else PlayingSofter;
      feedback := feedback + [sentence];
    }
    assert feedback == afterTempo + Fire(EnergyRule, differences["energy"]);
    r := Ok(feedback);
  }

  /** The feedback of a difference map, as `generate_feedback` computes it. */
  function Feedback(d: FeatureMap): (r: Result<seq<string>, string>)
    ensures r.Err? ==> r.error in ["pitch", "tempo", "energy"] && r.error !in d
  {
    ApplyRules(Rules, d)
  }

  /**
   * The feedback is the pitch sentence (if any), then the tempo sentence,
   * then the energy sentence; a `KeyError` names the first of `pitch`,
   * `tempo`, `energy` that is missing.
   */
  lemma FeedbackShape(d: FeatureMap)
    ensures "pitch" !in d ==> Feedback(d) == Err("pitch")
    ensures "pitch" in d && "tempo" !in d ==> Feedback(d) == Err("tempo")
    ensures "pitch" in d && "tempo" in d && "energy" !in d ==> Feedback(d) == Err("energy")
    ensures "pitch" in d && "tempo" in d && "energy" in d ==>
              Feedback(d) == Ok(Fire(PitchRule, d["pitch"]) + Fire(TempoRule, d["tempo"]) + Fire(EnergyRule, d["energy"]))
  {
    assert [EnergyRule][1..] == [];
    assert [TempoRule, EnergyRule][1..] == [EnergyRule];
    assert Rules[1..] == [TempoRule, EnergyRule];
    assert ApplyRules([], d) == Ok([]);
    if "pitch" !in d {
    } else if "tempo" !in d {
      assert ApplyRules([TempoRule, EnergyRule], d) == Err("tempo");
    } else if "energy" !in d {
      assert ApplyRules([EnergyRule], d) == Err("energy");
      assert ApplyRules([TempoRule, EnergyRule], d) == Err("energy");
    } else {
      var e := Fire(EnergyRule, d["energy"]);
      assert e + [] == e;
      assert ApplyRules([EnergyRule], d) == Ok(e);
      assert ApplyRules([TempoRule, EnergyRule], d) == Ok(Fire(TempoRule, d["tempo"]) + e);
      assert Fire(PitchRule, d["pitch"]) + (Fire(TempoRule, d["tempo"]) + e)
          == Fire(PitchRule, d["pitch"]) + Fire(TempoRule, d["tempo"]) + e;
    }
  }

  /**
   * The message of each rule: a pitch sentence appears exactly when
   * `|pitch| > 1` and says "higher" exactly when the difference is positive;
   * likewise tempo with 5 and energy with 0.1. At most three sentences.
   */
  lemma FeedbackMessages(d: FeatureMap)
    requires "pitch" in d && "tempo" in d && "energy" in d
    ensures Feedback(d).Ok? && |Feedback(d).value| <= 3
    ensures PitchHigher in Feedback(d).value <==> d["pitch"] > 1.0
    ensures PitchLower in Feedback(d).value <==> d["pitch"] < -1.0
    ensures TempoFaster in Feedback(d).value <==> d["tempo"] > 5.0
    ensures TempoSlower in Feedback(d).value <==> d["tempo"] < -5.0
    ensures PlayingLouder in Feedback(d).value <==> d["energy"] > 0.1
    ensures PlayingSofter in Feedback(d).value <==> d["energy"] < -0.1
  {
    FeedbackShape(d);
  }

  /** Feedback reads only `pitch`, `tempo` and `energy`. */
  lemma FeedbackReadsThreeKeys(d1: FeatureMap, d2: FeatureMap)
    requires forall k :: k in ["pitch", "tempo", "energy"] ==>
               (k in d1 <==> k in d2) && (k in d1 ==> d1[k] == d2[k])
    ensures Feedback(d1) == Feedback(d2)
  {
    ApplyRulesReadsOnlyRuleKeys(Rules, d1, d2);
  }

  /** Comparing a performance with itself gives zero differences and so no feedback. */
  lemma IdenticalPerformancesNoFeedback(f: FeatureMap)
    requires "pitch" in f && "tempo" in f && "energy" in f
    ensures ComparePerformances(f, f).Ok?
    ensures forall k :: k in f ==> ComparePerformances(f, f).value[k] == 0.0
    ensures Feedback(ComparePerformances(f, f).value) == Ok([])
  {
    var z := ComparePerformances(f, f).value;
    assert z["pitch"] == 0.0 && z["tempo"] == 0.0 && z["energy"] == 0.0;
    FeedbackShape(z);
    assert Fire(PitchRule, 0.0) == [] && Fire(TempoRule, 0.0) == [] && Fire(EnergyRule, 0.0) == [];
    assert Fire(PitchRule, 0.0) + Fire(TempoRule, 0.0) + Fire(EnergyRule, 0.0) == [];
  }
}
