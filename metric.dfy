/** Metric A (role-identification accuracy) and the combined per-case score. */
module Metric {
  import opened Text

  /** A ground-truth player counts as correctly identified when a role is predicted for them,
      that role is not the empty string, and both roles agree after `lower()` then `strip()`. */
  predicate Correct(predicted: map<string, string>, player: string, trueRole: string) {
    player in predicted && predicted[player] != "" && Normalize(predicted[player]) == Normalize(trueRole)
  }

  /** The ground-truth players whose role was predicted correctly. Only ground-truth keys are
      looked at. */
  function CorrectPlayers(predicted: map<string, string>, truth: map<string, string>): (r: set<string>)
    ensures r <= truth.Keys
    ensures forall p :: p in r <==> p in truth && Correct(predicted, p, truth[p])
    ensures forall p :: p in predicted && predicted[p] == "" ==> p !in r
  {
    set p | p in truth && Correct(predicted, p, truth[p])
  }

  /** Metric A: correct players over ground-truth players; 0 for an empty prediction and 0
      for an empty ground truth (no division by zero). Always within [0, 1]. */
  function MetricA(predicted: map<string, string>, truth: map<string, string>): (r: real)
    ensures 0.0 <= r <= 1.0
    ensures |predicted| == 0 ==> r == 0.0
    ensures |truth| == 0 ==> r == 0.0
  {
    if |predicted| == 0 then 0.0
    else
      var c := CorrectPlayers(predicted, truth);
      SubsetCard(c, truth.Keys);
      Ratio(|c|, |truth|)
  }

  /** `count / total if total > 0 else 0.0`. */
  function Ratio(count: nat, total: nat): (r: real)
    ensures count <= total ==> 0.0 <= r <= 1.0
    ensures r == 1.0 <==> 0 < total && count == total
    ensures count == 0 ==> r == 0.0
  {
    if total > 0 then count as real / total as real else 0.0
  }

  lemma SubsetCard<T>(a: set<T>, b: set<T>)
    requires a <= b
    ensures |a| <= |b|
    ensures |a| == |b| ==> a == b
  {
    assert b == a + (b - a);
    assert |b| == |a| + |b - a|;
    if |a| == |b| {
      assert |b - a| == 0;
    }
  }

  /** `calculate_metric_a`: one pass over the ground-truth players with a counter. */
  method CalculateMetricA(predicted: map<string, string>, truth: map<string, string>) returns (score: real)
    ensures score == MetricA(predicted, truth)
  {
    if |predicted| == 0 {
      return 0.0;
    }
    var correctCount := 0;
    var totalPlayers := |truth|;
    ghost var correct := CorrectPlayers(predicted, truth);
    var remaining := truth.Keys;
    while remaining != {}
      invariant remaining <= truth.Keys
      invariant correctCount == |correct - remaining|
      decreases remaining
    {
      var player :| player in remaining;
      var trueRole := truth[player];
      CountStep(correct, remaining, player);
      if player in predicted && predicted[player] != "" && Normalize(predicted[player]) == Normalize(trueRole) {
        correctCount := correctCount + 1;
      }
      remaining := remaining - {player};
    }
    assert correct - remaining == correct;
    score := if totalPlayers > 0 then correctCount as real / totalPlayers as real else 0.0;
    assert score == Ratio(correctCount, totalPlayers);
  }

  /** Visiting one more key grows the visited-and-correct set by that key exactly when the
      key is correct. */
  lemma CountStep<T>(correct: set<T>, remaining: set<T>, x: T)
    requires x in remaining
    ensures x in correct ==> |correct - (remaining - {x})| == |correct - remaining| + 1
    ensures x !in correct ==> |correct - (remaining - {x})| == |correct - remaining|
  {
    if x in correct {
      assert correct - (remaining - {x}) == (correct - remaining) + {x};
    } else {
      assert correct - (remaining - {x}) == correct - remaining;
    }
  }

  /** Predictions for players outside the ground truth never change Metric A. */
  lemma ExtraPredictionsIgnored(predicted: map<string, string>, extra: map<string, string>, truth: map<string, string>)
    requires extra.Keys !! truth.Keys
    ensures MetricA(predicted + extra, truth) == MetricA(predicted, truth)
  {
    var both := predicted + extra;
    SameVerdicts(predicted, extra, truth);
    if |predicted| == 0 {
      assert predicted == map[];
      assert CorrectPlayers(predicted, truth) == {};
    } else {
      assert predicted.Keys <= both.Keys;
      assert |both| != 0;
    }
  }

  /** On ground-truth players, a prediction padded with extra keys gives the same verdicts. */
  lemma SameVerdicts(predicted: map<string, string>, extra: map<string, string>, truth: map<string, string>)
    requires extra.Keys !! truth.Keys
    ensures CorrectPlayers(predicted + extra, truth) == CorrectPlayers(predicted, truth)
  {
    var both := predicted + extra;
    forall p | p in truth
      ensures p in both <==> p in predicted
      ensures p in predicted ==> both[p] == predicted[p]
    {
      assert p !in extra;
    }
  }

  /** Metric A is 1 exactly when the ground truth is non-empty and every ground-truth player
      is correctly identified. */
  lemma PerfectIffAllCorrect(predicted: map<string, string>, truth: map<string, string>)
    ensures MetricA(predicted, truth) == 1.0 <==>
      |truth| > 0 && forall p :: p in truth ==> Correct(predicted, p, truth[p])
  {
    var c := CorrectPlayers(predicted, truth);
    SubsetCard(c, truth.Keys);
    var allCorrect := forall p :: p in truth ==> Correct(predicted, p, truth[p]);
    assert allCorrect <==> c == truth.Keys;
    if |predicted| != 0 {
      assert MetricA(predicted, truth) == Ratio(|c|, |truth.Keys|);
    } else if |truth| != 0 {
      var p :| p in truth;
      assert !Correct(predicted, p, truth[p]);
    }
  }

  /** Metric B on the scale of Metric A: the judge's 0-5 grade divided by 5. */
  function NormalizedB(metricBRaw: real): (r: real)
    ensures 0.0 <= metricBRaw <= 5.0 ==> 0.0 <= r <= 1.0
    ensures r * 5.0 == metricBRaw
  {
    metricBRaw / 5.0
  }

  /** The final score weights Metric A and normalised Metric B equally. It stays in [0, 1]
      and reaches 1 only when both components are at their maximum. */
  function FinalScore(metricA: real, metricBNormalized: real): (r: real)
    ensures 0.0 <= metricA <= 1.0 && 0.0 <= metricBNormalized <= 1.0 ==> 0.0 <= r <= 1.0
    ensures 0.0 <= metricA <= 1.0 && 0.0 <= metricBNormalized <= 1.0 ==>
      (r == 1.0 <==> metricA == 1.0 && metricBNormalized == 1.0)
  {
    0.5 * metricA + 0.5 * metricBNormalized
  }

  /** A predicted role that is the true role up to letter case, padded with whitespace,
      counts as correct (for example "villager " against "Villager"). */
  lemma CaseAndPaddingIgnored(predicted: map<string, string>, player: string, trueRole: string,
                              pre: string, core: string, post: string)
    requires player in predicted && predicted[player] == pre + core + post && predicted[player] != ""
    requires AllSpace(pre) && AllSpace(post) && Lower(core) == Lower(trueRole)
    ensures Correct(predicted, player, trueRole)
  {
    NormalizeIgnoresCaseAndPadding(pre, core, post, trueRole);
  }

  /** Four ground-truth players, two predicted exactly and two not predicted: Metric A is 0.5. */
  lemma TwoOfFour(villager: string, mafia: string)
    requires villager != "" && mafia != ""
    ensures MetricA(map["Player 0" := villager, "Player 1" := mafia],
                    map["Player 0" := villager, "Player 1" := mafia, "Player 2" := villager, "Player 3" := villager]) == 0.5
  {
    var p0, p1, p2, p3 := "Player 0", "Player 1", "Player 2", "Player 3";
    assert p0[7] == '0' && p1[7] == '1' && p2[7] == '2' && p3[7] == '3';
    var predicted := map[p0 := villager, p1 := mafia];
    var truth := map[p0 := villager, p1 := mafia, p2 := villager, p3 := villager];
    assert truth[p0] == predicted[p0] && truth[p1] == predicted[p1];
    assert truth.Keys == {p0, p1, p2, p3};
    HalfCorrect(predicted, truth, p0, p1, p2, p3);
  }

  /** Two of four distinct ground-truth players predicted with exactly their role and the
      other two not predicted at all: Metric A is 0.5. */
  lemma HalfCorrect(predicted: map<string, string>, truth: map<string, string>, a: string, b: string, c: string, d: string)
    requires truth.Keys == {a, b, c, d}
    requires a != b && a != c && a != d && b != c && b != d && c != d
    requires a in predicted && predicted[a] == truth[a] != ""
    requires b in predicted && predicted[b] == truth[b] != ""
    requires c !in predicted && d !in predicted
    ensures MetricA(predicted, truth) == 0.5
  {
    var correct := CorrectPlayers(predicted, truth);
    CorrectPair(predicted, truth, a, b, c, d);
    PairOfFour(correct, truth.Keys, a, b, c, d);
    HalfRatio();
  }

  lemma CorrectPair(predicted: map<string, string>, truth: map<string, string>, a: string, b: string, c: string, d: string)
    requires truth.Keys == {a, b, c, d}
    requires a in predicted && predicted[a] == truth[a] != ""
    requires b in predicted && predicted[b] == truth[b] != ""
    requires c !in predicted && d !in predicted
    ensures CorrectPlayers(predicted, truth) == {a, b}
  {
    var correct := CorrectPlayers(predicted, truth);
    assert a in correct && b in correct && c !in correct && d !in correct;
    OnlyPair(correct, truth.Keys, a, b, c, d);
  }

  lemma OnlyPair<T>(s: set<T>, keys: set<T>, a: T, b: T, c: T, d: T)
    requires keys == {a, b, c, d} && s <= keys
    requires a in s && b in s && c !in s && d !in s
    ensures s == {a, b}
  {
  }

  lemma PairOfFour<T>(pair: set<T>, keys: set<T>, a: T, b: T, c: T, d: T)
    requires keys == {a, b, c, d} && pair == {a, b}
    requires a != b && a != c && a != d && b != c && b != d && c != d
    ensures |pair| == 2 && |keys| == 4
  {
  }

  lemma HalfRatio()
    ensures Ratio(2, 4) == 0.5
  {
  }

  /** A judge grade of 4 normalises to 0.8 and, with Metric A at 0.5, gives 0.65. */
  lemma CombinedExample()
    ensures NormalizedB(4.0) == 0.8
    ensures FinalScore(0.5, NormalizedB(4.0)) == 0.65
  {
  }
}
