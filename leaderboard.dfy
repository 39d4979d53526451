/**
 * The leaderboard: every stored race record is given an overall score, and
 * the records are listed by that score, highest first.  Scores are exact
 * rationals; the binary floating point of the source is not modelled.
 */
module Leaderboard {

  /** A stored race result, as the statistics endpoint returns it. */
  datatype Record = Record(id: string, playerId: string, wpm: real, accuracy: real, errors: real, updatedAt: string)

  /** A record tagged with its overall score. */
  datatype Scored = Scored(record: Record, overallScore: real)

  /** `Math.max(0, 1 - errors * 0.05)`: five percent off per error. */
  function ErrorPenalty(errors: real): (r: real)
    ensures 0.0 <= r
    ensures errors >= 0.0 ==> r <= 1.0
    ensures errors >= 20.0 ==> r == 0.0
    ensures errors < 20.0 ==> r > 0.0
  {
    if 1.0 - errors * 0.05 > 0.0 then 1.0 - errors * 0.05 else 0.0
  }

  /** The anti-gaming clause: low accuracy or many errors cut the score to a
      tenth. */
  predicate Penalized(accuracy: real, errors: real)
  {
    accuracy < 50.0 || errors > 20.0
  }

  /** The score before rounding. */
  function RawScore(wpm: real, accuracy: real, errors: real): real
  {
    wpm * (accuracy / 100.0) * ErrorPenalty(errors) * (if Penalized(accuracy, errors) then 0.1 else 1.0)
  }

  /** `Math.round(x * 10) / 10`: the nearest multiple of 0.1, halves up. */
  function RoundToTenth(x: real): (r: real)
    ensures (r * 10.0).Floor as real == r * 10.0
    ensures r - 0.05 <= x < r + 0.05
  {
    (x * 10.0 + 0.5).Floor as real / 10.0
  }

  /** The overall score of a run. */
  function Score(wpm: real, accuracy: real, errors: real): real
  {
    RoundToTenth(RawScore(wpm, accuracy, errors))
  }

  /** `calculateOverallScore`, reassigning its running `baseScore` step by
      step. */
  method CalculateOverallScore(score: Record) returns (overall: real)
    ensures overall == Score(score.wpm, score.accuracy, score.errors)
  {
    var baseScore := score.wpm;
    baseScore := baseScore * (score.accuracy / 100.0);
    var errorPenalty := if 0.0 > 1.0 - score.errors * 0.05 then 0.0 else 1.0 - score.errors * 0.05;
    assert errorPenalty == ErrorPenalty(score.errors);
    baseScore := baseScore * errorPenalty;
    if score.accuracy < 50.0 || score.errors > 20.0 {
      baseScore := baseScore * 0.1;
    }
    assert baseScore == RawScore(score.wpm, score.accuracy, score.errors);
    overall := (baseScore * 10.0 + 0.5).Floor as real / 10.0;
  }

  lemma MulWithin(x: real, f: real)
    requires x >= 0.0 && 0.0 <= f <= 1.0
    ensures 0.0 <= x * f <= x
  {
  }

  lemma MulMono(x: real, y: real, f: real)
    requires x <= y && f >= 0.0
    ensures x * f <= y * f
  {
  }

  lemma MulMonoLeft(f: real, x: real, y: real)
    requires x <= y && f >= 0.0
    ensures f * x <= f * y
  {
  }

  /** Rounding to a tenth keeps order. */
  lemma RoundToTenthMono(x: real, y: real)
    requires x <= y
    ensures RoundToTenth(x) <= RoundToTenth(y)
  {
    assert (x * 10.0 + 0.5).Floor <= (y * 10.0 + 0.5).Floor;
  }

  /** Rounding a whole number to a tenth gives it back. */
  lemma RoundToTenthOfInteger(w: real)
    requires w == w.Floor as real
    ensures RoundToTenth(w) == w
  {
    var n := w.Floor;
    assert w * 10.0 + 0.5 == (10 * n) as real + 0.5;
    assert (w * 10.0 + 0.5).Floor == 10 * n;
  }

  /** In range, the raw score lies between 0 and the speed; penalised runs
      keep at most a tenth of it. */
  lemma RawScoreBounds(wpm: real, accuracy: real, errors: real)
    requires wpm >= 0.0 && 0.0 <= accuracy <= 100.0 && errors >= 0.0
    ensures 0.0 <= RawScore(wpm, accuracy, errors) <= wpm
    ensures Penalized(accuracy, errors) ==> RawScore(wpm, accuracy, errors) <= wpm * 0.1
  {
    var q := accuracy / 100.0;
    var p := ErrorPenalty(errors);
    var f := if Penalized(accuracy, errors) then 0.1 else 1.0;
    var a := wpm * q;
    var b := a * p;
    assert 0.0 <= a <= wpm by { MulWithin(wpm, q); }
    assert 0.0 <= b <= a by { MulWithin(a, p); }
    assert 0.0 <= b * f <= b by { MulWithin(b, f); }
    assert RawScore(wpm, accuracy, errors) == b * f;
    if Penalized(accuracy, errors) {
      MulMono(b, wpm, 0.1);
    }
  }

  /** The score is never negative, and never above a whole-number speed. */
  lemma ScoreBounds(wpm: real, accuracy: real, errors: real)
    requires wpm >= 0.0 && 0.0 <= accuracy <= 100.0 && errors >= 0.0
    ensures Score(wpm, accuracy, errors) >= 0.0
    ensures wpm == wpm.Floor as real ==> Score(wpm, accuracy, errors) <= wpm
  {
    RawScoreBounds(wpm, accuracy, errors);
    RoundToTenthMono(0.0, RawScore(wpm, accuracy, errors));
    assert RoundToTenth(0.0) == 0.0;
    if wpm == wpm.Floor as real {
      RoundToTenthMono(RawScore(wpm, accuracy, errors), wpm);
      RoundToTenthOfInteger(wpm);
    }
  }

  /** A perfect run scores its speed, rounded to a tenth. */
  lemma PerfectRunScoresSpeed(wpm: real)
    ensures Score(wpm, 100.0, 0.0) == RoundToTenth(wpm)
    ensures wpm == wpm.Floor as real ==> Score(wpm, 100.0, 0.0) == wpm
  {
    assert RawScore(wpm, 100.0, 0.0) == wpm;
    if wpm == wpm.Floor as real {
      RoundToTenthOfInteger(wpm);
    }
  }

  /** Twenty errors or more score nothing, whatever the speed. */
  lemma TwentyErrorsScoreZero(wpm: real, accuracy: real, errors: real)
    requires errors >= 20.0
    ensures Score(wpm, accuracy, errors) == 0.0
  {
    assert RawScore(wpm, accuracy, errors) == 0.0;
  }

  /** More speed never lowers the score. */
  lemma ScoreMonotoneInWpm(w1: real, w2: real, accuracy: real, errors: real)
    requires 0.0 <= w1 <= w2 && 0.0 <= accuracy && errors >= 0.0
    ensures Score(w1, accuracy, errors) <= Score(w2, accuracy, errors)
  {
    var k := (accuracy / 100.0) * ErrorPenalty(errors) * (if Penalized(accuracy, errors) then 0.1 else 1.0);
    assert RawScore(w1, accuracy, errors) == w1 * k;
    assert RawScore(w2, accuracy, errors) == w2 * k;
    MulMono(w1, w2, k);
    RoundToTenthMono(RawScore(w1, accuracy, errors), RawScore(w2, accuracy, errors));
  }

  /** More accuracy never lowers the score. */
  lemma ScoreMonotoneInAccuracy(wpm: real, a1: real, a2: real, errors: real)
    requires wpm >= 0.0 && 0.0 <= a1 <= a2 && errors >= 0.0
    ensures Score(wpm, a1, errors) <= Score(wpm, a2, errors)
  {
    var p := ErrorPenalty(errors);
    var f1 := if Penalized(a1, errors) then 0.1 else 1.0;
    var f2 := if Penalized(a2, errors) then 0.1 else 1.0;
    assert f1 <= f2;
    var x1 := wpm * (a1 / 100.0) * p;
    var x2 := wpm * (a2 / 100.0) * p;
    MulMonoLeft(wpm, a1 / 100.0, a2 / 100.0);
    assert wpm * (a1 / 100.0) <= wpm * (a2 / 100.0);
    MulMono(wpm * (a1 / 100.0), wpm * (a2 / 100.0), p);
    MulMonoLeft(wpm, 0.0, a1 / 100.0);
    MulMono(0.0, wpm * (a1 / 100.0), p);
    assert 0.0 <= x1 <= x2;
    MulMono(x1, x2, f1);
    MulMono(f1, f2, x2);
    assert RawScore(wpm, a1, errors) == x1 * f1;
    assert RawScore(wpm, a2, errors) == x2 * f2;
    RoundToTenthMono(RawScore(wpm, a1, errors), RawScore(wpm, a2, errors));
  }

  /** More errors never raise the score. */
  lemma ScoreAntitoneInErrors(wpm: real, accuracy: real, e1: real, e2: real)
    requires wpm >= 0.0 && accuracy >= 0.0 && 0.0 <= e1 <= e2
    ensures Score(wpm, accuracy, e2) <= Score(wpm, accuracy, e1)
  {
    var a := wpm * (accuracy / 100.0);
    assert a >= 0.0;
    var p1, p2 := ErrorPenalty(e1), ErrorPenalty(e2);
    assert p2 <= p1;
    var f1 := if Penalized(accuracy, e1) then 0.1 else 1.0;
    var f2 := if Penalized(accuracy, e2) then 0.1 else 1.0;
    assert f2 <= f1;
    var x1, x2 := a * p1, a * p2;
    MulMonoLeft(a, p2, p1);
    assert 0.0 <= x2 <= x1;
    MulMono(x2, x1, f2);
    MulMono(f2, f1, x1);
    assert RawScore(wpm, accuracy, e1) == x1 * f1;
    assert RawScore(wpm, accuracy, e2) == x2 * f2;
    RoundToTenthMono(RawScore(wpm, accuracy, e2), RawScore(wpm, accuracy, e1));
  }

  /** Worked values: an error-free run, five errors, low accuracy, and a
      run with too many errors. */
  lemma ScoreExamples()
    ensures Score(60.0, 100.0, 0.0) == 60.0
    ensures Score(60.0, 100.0, 5.0) == 45.0
    ensures Score(100.0, 40.0, 0.0) == 4.0
    ensures Score(50.0, 100.0, 25.0) == 0.0
  {
    assert RawScore(60.0, 100.0, 0.0) == 60.0;
    assert RawScore(60.0, 100.0, 5.0) == 45.0;
    assert RawScore(100.0, 40.0, 0.0) == 4.0;
    assert RawScore(50.0, 100.0, 25.0) == 0.0;
  }

  /** The `map` that tags each record with its score. */
  function ScoreAll(data: seq<Record>): (r: seq<Scored>)
    ensures |r| == |data|
    ensures forall i :: 0 <= i < |data| ==> r[i].record == data[i]
    ensures forall i :: 0 <= i < |r| ==> r[i].overallScore == Score(data[i].wpm, data[i].accuracy, data[i].errors)
  {
    seq(|data|, i requires 0 <= i < |data| => Scored(data[i], Score(data[i].wpm, data[i].accuracy, data[i].errors)))
  }

  /** Highest score first. */
  ghost predicate SortedDesc(s: seq<Scored>)
  {
    forall k, l :: 0 <= k < l < |s| ==> s[k].overallScore >= s[l].overallScore
  }

  method Swap(a: array<Scored>, i: int, j: int)
    requires 0 <= i < a.Length && 0 <= j < a.Length
    modifies a
    ensures a[i] == old(a[j]) && a[j] == old(a[i])
    ensures forall m :: 0 <= m < a.Length && m != i && m != j ==> a[m] == old(a[m])
    ensures multiset(a[..]) == multiset(old(a[..]))
  {
    a[i], a[j] := a[j], a[i];
  }

  /** The in-place `sort` by descending score. */
  method SortByScore(a: array<Scored>)
    modifies a
    ensures SortedDesc(a[..])
    ensures multiset(a[..]) == multiset(old(a[..]))
  {
    var i := 0;
    while i < a.Length
      invariant 0 <= i <= a.Length
      invariant SortedDesc(a[..i])
      invariant multiset(a[..]) == multiset(old(a[..]))
    {
      var j := i;
      while j > 0 && a[j - 1].overallScore < a[j].overallScore
        invariant 0 <= j <= i
        invariant forall k, l :: 0 <= k < l <= i && k != j && l != j ==> a[k].overallScore >= a[l].overallScore
        invariant forall l :: j < l <= i ==> a[j].overallScore > a[l].overallScore
        invariant multiset(a[..]) == multiset(old(a[..]))
      {
        Swap(a, j - 1, j);
        j := j - 1;
      }
      i := i + 1;
    }
  }

  /** What `fetchScores` shows: the fetched records, each with its own
      score, ranked highest first. */
  method RankRecords(data: seq<Record>) returns (ranked: seq<Scored>)
    ensures SortedDesc(ranked)
    ensures multiset(ranked) == multiset(ScoreAll(data))
    ensures forall x :: x in ranked ==> x.overallScore == Score(x.record.wpm, x.record.accuracy, x.record.errors)
  {
    var scored := ScoreAll(data);
    var a := new Scored[|scored|](i requires 0 <= i < |scored| => scored[i]);
    assert a[..] == scored;
    SortByScore(a);
    ranked := a[..];
    forall x | x in ranked
      ensures x.overallScore == Score(x.record.wpm, x.record.accuracy, x.record.errors)
    {
      assert x in multiset(scored);
    }
  }
}
