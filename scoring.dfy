/** The constitution classifier of the `prakriti/assess` handler
    (index.tsx:240-269): per-dosha score totals, rounded percentages and the
    dominant dosha chosen by a left fold over the percentage entries. */
module Scoring {
  import opened Common
  import Knowledge

  /** One submitted answer as the server reads it: only its `dosha` and
      `score` fields matter. */
  datatype Answer = Answer(dosha: Option<string>, score: Option<nat>)

  /** `answer.score || 1`: a missing score and a score of 0 both count as 1. */
  function Weight(a: Answer): (w: nat)
    ensures w >= 1
    ensures a.score.Some? && a.score.value > 0 ==> w == a.score.value
    ensures a.score.None? || a.score == Some(0) ==> w == 1
  {
    match a.score
    case Some(s) => if s == 0 then 1 else s
    case None => 1
  }

  /** What one answer adds to the score of `name`. */
  function Contribution(a: Answer, name: string): nat {
    if a.dosha == Some(name) then Weight(a) else 0
  }

  /** The score of `name` over the answers, accumulated front to back. */
  function DoshaTotal(answers: seq<Answer>, name: string): nat {
    if answers == [] then 0
    else DoshaTotal(answers[..|answers| - 1], name) + Contribution(answers[|answers| - 1], name)
  }

  datatype Scores = Scores(vata: nat, pitta: nat, kapha: nat) {
    function Total(): nat { vata + pitta + kapha }
  }

  function ScoresOf(answers: seq<Answer>): Scores {
    Scores(DoshaTotal(answers, "vata"), DoshaTotal(answers, "pitta"), DoshaTotal(answers, "kapha"))
  }

  /** The `forEach` over the answers that accumulates `doshaScores`
      (index.tsx:243-249). */
  method Tally(answers: seq<Answer>) returns (scores: Scores)
    ensures scores == ScoresOf(answers)
  {
    var vata, pitta, kapha := 0, 0, 0;
    for i := 0 to |answers|
      invariant vata == DoshaTotal(answers[..i], "vata")
      invariant pitta == DoshaTotal(answers[..i], "pitta")
      invariant kapha == DoshaTotal(answers[..i], "kapha")
    {
      var answer := answers[i];
      assert answers[..i + 1][..i] == answers[..i];
      if answer.dosha == Some("vata") { vata := vata + Weight(answer); }
      if answer.dosha == Some("pitta") { pitta := pitta + Weight(answer); }
      if answer.dosha == Some("kapha") { kapha := kapha + Weight(answer); }
    }
    assert answers[..|answers|] == answers;
    scores := Scores(vata, pitta, kapha);
  }

  // ---------------------------------------------------------------------
  // The totals

  predicate Named(a: Answer) {
    a.dosha == Some("vata") || a.dosha == Some("pitta") || a.dosha == Some("kapha")
  }

  /** The weights of the answers that name one of the three doshas. */
  function NamedWeight(answers: seq<Answer>): nat {
    if answers == [] then 0
    else NamedWeight(answers[..|answers| - 1]) + (if Named(answers[|answers| - 1]) then Weight(answers[|answers| - 1]) else 0)
  }

  lemma OneAnswerTotal(a: Answer)
    ensures Contribution(a, "vata") + Contribution(a, "pitta") + Contribution(a, "kapha")
      == if Named(a) then Weight(a) else 0
  {
  }

  /** The grand total is the weight of every answer naming a dosha; answers
      naming anything else add nothing. */
  lemma {:induction false} TotalIsNamedWeight(answers: seq<Answer>)
    ensures ScoresOf(answers).Total() == NamedWeight(answers)
  {
    if answers != [] {
      TotalIsNamedWeight(answers[..|answers| - 1]);
      OneAnswerTotal(answers[|answers| - 1]);
    }
  }

  /** A missing or zero score still counts 1, so the named weight is at
      least 1 exactly when some answer names vata, pitta or kapha. */
  lemma {:induction false} NamedWeightPositive(answers: seq<Answer>)
    ensures NamedWeight(answers) >= 1 <==> exists i :: 0 <= i < |answers| && Named(answers[i])
  {
    if answers != [] {
      var init := answers[..|answers| - 1];
      NamedWeightPositive(init);
      assert forall i :: 0 <= i < |init| ==> init[i] == answers[i];
      if exists i :: 0 <= i < |answers| && Named(answers[i]) {
        var i :| 0 <= i < |answers| && Named(answers[i]);
        if i < |init| {
          assert Named(init[i]);
        }
      }
    }
  }

  /** The division in the percentages is defined exactly when some answer
      names a dosha. */
  lemma TotalPositiveIffNamed(answers: seq<Answer>)
    ensures ScoresOf(answers).Total() >= 1 <==> exists i :: 0 <= i < |answers| && Named(answers[i])
  {
    TotalIsNamedWeight(answers);
    NamedWeightPositive(answers);
  }

  // ---------------------------------------------------------------------
  // Percentages

  /** A percentage as JavaScript computes it: a number, or NaN for 0/0. */
  datatype Percent = Num(n: int) | NaN

  type Entry = (string, Percent)

  /** `Math.round((s / total) * 100)`: the integer nearest to 100*s/total,
      halves rounded up; NaN when the total is 0. */
  function RoundedShare(s: nat, total: nat): (p: Percent)
    requires s <= total
    ensures total == 0 <==> p.NaN?
    ensures total > 0 ==> 2 * total * p.n <= 200 * s + total < 2 * total * (p.n + 1)
    ensures total > 0 ==> 0 <= p.n <= 100
  {
    if total == 0 then NaN
    else
      RoundBounds(s, total);
      Num((200 * s + total) / (2 * total))
  }

  lemma RoundBounds(s: nat, t: nat)
    requires 0 < t && s <= t
    ensures var r := (200 * s + t) / (2 * t);
      2 * t * r <= 200 * s + t < 2 * t * (r + 1) && 0 <= r <= 100
  {
    var n := 200 * s + t;
    var d := 2 * t;
    var r := n / d;
    DivBracket(n, d);
    if r < -1 {
      MulStrict(d, 0, r + 1);
    }
    if r > 101 {
      MulStrict(d, r, 101);
    }
  }

  /** Euclidean division brackets its dividend. */
  lemma DivBracket(n: int, d: int)
    requires d > 0
    ensures d * (n / d) <= n < d * (n / d + 1)
  {
    var q := n / d;
    assert n == d * q + n % d;
    assert d * (q + 1) == d * q + d;
  }

  /** `Object.entries(percentages)`: vata, pitta, kapha in that order. */
  function Percentages(sc: Scores): (p: seq<Entry>)
    requires sc.vata <= sc.Total() && sc.pitta <= sc.Total() && sc.kapha <= sc.Total()
    ensures |p| == 3 && p[0].0 == "vata" && p[1].0 == "pitta" && p[2].0 == "kapha"
  {
    var t := sc.Total();
    [("vata", RoundedShare(sc.vata, t)), ("pitta", RoundedShare(sc.pitta, t)), ("kapha", RoundedShare(sc.kapha, t))]
  }

  lemma MulStrict(t: int, a: int, b: int)
    requires t > 0 && a > b
    ensures t * a > t * b
  {
    assert t * a - t * b == t * (a - b);
  }

  lemma MulCancel(t: int, a: int, b: int)
    requires t > 0
    ensures t * a <= t * b ==> a <= b
  {
    if a > b { MulStrict(t, a, b); }
  }

  /** Three shares of a total, each rounded to the nearest percent, add up
      to within one of 100. */
  lemma RoundedSharesSum(t: int, s1: int, s2: int, s3: int, r1: int, r2: int, r3: int)
    requires t > 0 && s1 + s2 + s3 == t
    requires 2 * t * r1 <= 200 * s1 + t < 2 * t * (r1 + 1)
    requires 2 * t * r2 <= 200 * s2 + t < 2 * t * (r2 + 1)
    requires 2 * t * r3 <= 200 * s3 + t < 2 * t * (r3 + 1)
    ensures 99 <= r1 + r2 + r3 <= 101
  {
    var sum := r1 + r2 + r3;
    assert t * (2 * sum) == 2 * t * r1 + 2 * t * r2 + 2 * t * r3;
    assert t * (2 * sum + 6) == 2 * t * (r1 + 1) + 2 * t * (r2 + 1) + 2 * t * (r3 + 1);
    assert 200 * s1 + 200 * s2 + 200 * s3 == t * 200;
    assert t * (2 * sum) <= t * 203;
    MulCancel(t, 2 * sum, 203);
    assert t * 203 < t * (2 * sum + 6);
    MulCancel(t, 2 * sum + 6, 203);
  }

  /** With a positive total each percentage lies in [0, 100] and, rounding
      three shares of 100, the three sum to 99, 100 or 101. */
  lemma PercentagesBounds(sc: Scores)
    requires sc.Total() > 0
    ensures var p := Percentages(sc);
      && p[0].1.Num? && p[1].1.Num? && p[2].1.Num?
      && 0 <= p[0].1.n <= 100 && 0 <= p[1].1.n <= 100 && 0 <= p[2].1.n <= 100
      && 99 <= p[0].1.n + p[1].1.n + p[2].1.n <= 101
  {
    var t := sc.Total();
    var p := Percentages(sc);
    RoundedSharesSum(t, sc.vata, sc.pitta, sc.kapha, p[0].1.n, p[1].1.n, p[2].1.n);
  }

  // ---------------------------------------------------------------------
  // The dominant dosha: entries.reduce((a, b) => a[1] > b[1] ? a : b)

  /** `>` on JavaScript numbers: false whenever either side is NaN. */
  predicate Greater(a: Percent, b: Percent) {
    a.Num? && b.Num? && a.n > b.n
  }

  function Reduce(entries: seq<Entry>): Entry
    requires |entries| > 0
  {
    if |entries| == 1 then entries[0]
    else
      var a := Reduce(entries[..|entries| - 1]);
      var b := entries[|entries| - 1];
      if Greater(a.1, b.1) then a else b
  }

  /** The position of the entry the fold returns. */
  ghost function ReduceIndex(entries: seq<Entry>): (k: nat)
    requires |entries| > 0
    ensures k < |entries| && Reduce(entries) == entries[k]
  {
    if |entries| == 1 then 0
    else
      var init := entries[..|entries| - 1];
      var k := ReduceIndex(init);
      assert init[k] == entries[k];
      if Greater(Reduce(init).1, entries[|entries| - 1].1) then k else |entries| - 1
  }

  /** Over numeric entries the fold returns a maximum, and the LAST
      maximum: the accumulator survives only a strictly smaller entry. */
  lemma {:induction false} ReduceIsLastMaximum(entries: seq<Entry>)
    requires |entries| > 0
    requires forall i :: 0 <= i < |entries| ==> entries[i].1.Num?
    ensures var k := ReduceIndex(entries);
      && (forall j :: 0 <= j < |entries| ==> entries[j].1.n <= entries[k].1.n)
      && (forall j :: k < j < |entries| ==> entries[j].1.n < entries[k].1.n)
  {
    if |entries| > 1 {
      var last := |entries| - 1;
      var init := entries[..last];
      assert forall j :: 0 <= j < |init| ==> init[j] == entries[j];
      ReduceIsLastMaximum(init);
      var k := ReduceIndex(init);
      if !Greater(entries[k].1, entries[last].1) {
        assert ReduceIndex(entries) == last;
        forall j | 0 <= j < |entries|
          ensures entries[j].1.n <= entries[last].1.n
        {
          if j < last { assert init[j].1.n <= init[k].1.n; }
        }
      }
    }
  }

  /** When every entry is NaN no comparison holds, so the fold returns the
      last entry. */
  lemma {:induction false} ReduceAllNaN(entries: seq<Entry>)
    requires |entries| > 0
    requires forall i :: 0 <= i < |entries| ==> entries[i].1.NaN?
    ensures Reduce(entries) == entries[|entries| - 1]
  {
    if |entries| > 1 {
      var init := entries[..|entries| - 1];
      assert forall i :: 0 <= i < |init| ==> init[i] == entries[i];
      ReduceAllNaN(init);
    }
  }

  function DominantDosha(sc: Scores): string
    requires sc.vata <= sc.Total() && sc.pitta <= sc.Total() && sc.kapha <= sc.Total()
  {
    Reduce(Percentages(sc)).0
  }

  /** The dominant dosha in full: kapha wins whenever it is at least as
      high as both others, pitta when it beats kapha strictly and is at
      least vata, and vata only when it is strictly above both. */
  lemma DominantTieBreak(sc: Scores)
    requires sc.Total() > 0
    ensures var p := Percentages(sc);
      var v, pi, k := p[0].1.n, p[1].1.n, p[2].1.n;
      && (DominantDosha(sc) == "kapha" <==> k >= v && k >= pi)
      && (DominantDosha(sc) == "pitta" <==> pi > k && pi >= v)
      && (DominantDosha(sc) == "vata" <==> v > pi && v > k)
  {
    PercentagesBounds(sc);
    var p := Percentages(sc);
    assert p[..2][..1] == [p[0]];
    assert p[..1] == [p[0]];
    assert Reduce(p[..2]) == if Greater(p[0].1, p[1].1) then p[0] else p[1];
  }

  /** The dominant dosha's percentage is at least every other. */
  lemma DominantIsMaximal(sc: Scores)
    requires sc.Total() > 0
    ensures var p := Percentages(sc);
      exists k :: 0 <= k < 3 && p[k].0 == DominantDosha(sc)
        && p[k].1.n >= p[0].1.n && p[k].1.n >= p[1].1.n && p[k].1.n >= p[2].1.n
  {
    PercentagesBounds(sc);
    var p := Percentages(sc);
    ReduceIsLastMaximum(p);
    var k := ReduceIndex(p);
    assert p[k].1.n >= p[0].1.n && p[k].1.n >= p[1].1.n && p[k].1.n >= p[2].1.n;
  }

  /** With no answer naming a dosha the total is 0, every percentage is
      NaN and the fold lands on kapha. The client's answers carry
      `questionId`, `selected` and `score` but no `dosha` field, so every
      assessment the client sends ends here. */
  lemma UnnamedAnswersGiveKapha(answers: seq<Answer>)
    requires forall i :: 0 <= i < |answers| ==> !Named(answers[i])
    ensures ScoresOf(answers).Total() == 0
    ensures var p := Percentages(ScoresOf(answers)); p[0].1.NaN? && p[1].1.NaN? && p[2].1.NaN?
    ensures DominantDosha(ScoresOf(answers)) == "kapha"
  {
    TotalPositiveIffNamed(answers);
    ZeroTotalGivesKapha(ScoresOf(answers));
  }

  lemma ZeroTotalGivesKapha(sc: Scores)
    requires sc.Total() == 0
    ensures var p := Percentages(sc); p[0].1.NaN? && p[1].1.NaN? && p[2].1.NaN?
    ensures DominantDosha(sc) == "kapha"
  {
    var p := Percentages(sc);
    forall i | 0 <= i < |p|
      ensures p[i].1.NaN?
    {
      assert i == 0 || i == 1 || i == 2;
    }
    ReduceAllNaN(p);
  }

  // ---------------------------------------------------------------------
  // The stored result

  datatype Assessment = Assessment(
    userId: string,
    dominantDosha: string,
    doshaPercentages: seq<Entry>,
    assessmentDate: int,
    recommendations: Knowledge.Recommendations)

  /** The stored assessment for already tallied scores, given the caller's
      id and the clock reading. */
  function AssessmentFrom(userId: string, sc: Scores, now: int): (a: Assessment)
    ensures a.dominantDosha in {"vata", "pitta", "kapha"}
    ensures a.recommendations == Knowledge.RecommendationsFor(a.dominantDosha)
    ensures a.doshaPercentages == Percentages(sc)
  {
    var dominant := DominantDosha(sc);
    var p := Percentages(sc);
    assert dominant in {"vata", "pitta", "kapha"} by {
      var k := ReduceIndex(p);
      assert k == 0 || k == 1 || k == 2;
    }
    Assessment(userId, dominant, p, now, Knowledge.RecommendationsFor(dominant))
  }

  /** POST /prakriti/assess's result for the submitted answers. */
  function AssessmentOf(userId: string, answers: seq<Answer>, now: int): (a: Assessment)
    ensures a.dominantDosha == DominantDosha(ScoresOf(answers))
    ensures a.dominantDosha in {"vata", "pitta", "kapha"}
    ensures a.recommendations == Knowledge.RecommendationsFor(a.dominantDosha)
    ensures a.doshaPercentages == Percentages(ScoresOf(answers))
  {
    AssessmentFrom(userId, ScoresOf(answers), now)
  }
}
