/**
 * Live race metrics of one typing session: error count, accuracy, words
 * typed and words per minute, as `calculateStats` computes them (the same
 * code appears in both typing components).  Numbers are exact: the
 * floating-point divisions of the source become rational arithmetic, and
 * JavaScript's `Math.round(x)` is `floor(x + 1/2)`.
 */
module RaceMetrics {
  import opened Optional

  /** The `TypingStats` record shown to the player and sent to the opponent. */
  datatype TypingStats = TypingStats(wpm: int, accuracy: int, errors: nat, totalTyped: nat)

  /** `Math.round(n / d)` for a positive denominator: the integer nearest to
      n/d, halves rounded up. */
  function RoundHalfUp(n: int, d: int): (r: int)
    requires d > 0
    ensures 2 * d * r <= 2 * n + d < 2 * d * (r + 1)
  {
    (2 * n + d) / (2 * d)
  }

  /** The same rounding, stated on the real number n/d. */
  lemma RoundHalfUpIsMathRound(n: int, d: int)
    requires d > 0
    ensures RoundHalfUp(n, d) == (n as real / d as real + 0.5).Floor
  {
    var r := RoundHalfUp(n, d);
    var nr, dr, rr := n as real, d as real, r as real;
    var x := nr / dr;
    assert x * dr == nr;
    assert (x + 0.5) * (2.0 * dr) == 2.0 * nr + dr;
    assert (2 * d * r) as real == rr * (2.0 * dr);
    assert (2 * d * (r + 1)) as real == (rr + 1.0) * (2.0 * dr);
    CancelFactor(rr, x + 0.5, 2.0 * dr);
    CancelFactorStrict(x + 0.5, rr + 1.0, 2.0 * dr);
  }

  lemma CancelFactor(a: real, b: real, c: real)
    requires c > 0.0 && a * c <= b * c
    ensures a <= b
  {
  }

  lemma CancelFactorStrict(a: real, b: real, c: real)
    requires c > 0.0 && a * c < b * c
    ensures a < b
  {
  }

  /** The reference reading of an error: typed character `i` differs from the
      sample, or lies past its end (the source then compares with `undefined`). */
  predicate Mismatch(sample: string, typed: string, i: nat)
    requires i < |typed|
  {
    i >= |sample| || typed[i] != sample[i]
  }

  /** The `reduce` over the typed characters, adding one per mismatch. */
  function ErrorCount(sample: string, typed: string): (r: nat)
    ensures r <= |typed|
  {
    if typed == [] then 0
    else
      var n := |typed| - 1;
      ErrorCount(sample, typed[..n]) + (if Mismatch(sample, typed, n) then 1 else 0)
  }

  /** The positions a player typed wrongly. */
  ghost function MismatchIndices(sample: string, typed: string): set<nat>
  {
    set i: nat | i < |typed| && Mismatch(sample, typed, i)
  }

  /** The error count is the number of positions typed wrongly. */
  lemma {:induction false} ErrorCountIsMismatchCount(sample: string, typed: string)
    ensures ErrorCount(sample, typed) == |MismatchIndices(sample, typed)|
  {
    if typed == [] {
      assert MismatchIndices(sample, typed) == {};
    } else {
      var n := |typed| - 1;
      var front := typed[..n];
      ErrorCountIsMismatchCount(sample, front);
      var s := MismatchIndices(sample, front);
      assert forall i: nat | i < n :: Mismatch(sample, typed, i) == Mismatch(sample, front, i);
      if Mismatch(sample, typed, n) {
        assert MismatchIndices(sample, typed) == s + {n};
        assert n !in s;
      } else {
        assert MismatchIndices(sample, typed) == s;
      }
    }
  }

  /** A correct prefix of the sample has no errors. */
  lemma {:induction false} PrefixHasNoErrors(sample: string, typed: string)
    requires typed <= sample
    ensures ErrorCount(sample, typed) == 0
  {
    if typed != [] {
      var n := |typed| - 1;
      PrefixHasNoErrors(sample, typed[..n]);
    }
  }

  /** Re-typing a character changes only its own contribution: the error count
      of `typed + [c]` adds one exactly when `c` is a mismatch at its place. */
  lemma AppendErrorCount(sample: string, typed: string, c: char)
    ensures ErrorCount(sample, typed + [c]) ==
            ErrorCount(sample, typed) + (if |typed| >= |sample| || c != sample[|typed|] then 1 else 0)
  {
    assert (typed + [c])[..|typed|] == typed;
  }

  /** The accuracy shown: `Math.round((p - e) / p * 100) || 100`.  A position
      of zero gives `NaN`, and a rounded value of zero is falsy, so both show
      as 100.  With `n = 200 (p - e) + p`, the rounded value is the integer
      `a` with `2 p a <= n < 2 p (a + 1)`, and it is zero exactly when
      `0 <= n < 2 p`. */
  function Accuracy(position: nat, errors: nat): (r: int)
    requires position == 0 ==> errors == 0
    ensures errors == 0 ==> r == 100
    ensures errors <= position ==> 1 <= r <= 100
    ensures var n := 200 * (position - errors) + position;
            position == 0 || 0 <= n < 2 * position ==> r == 100
    ensures var n := 200 * (position - errors) + position;
            position > 0 && !(0 <= n < 2 * position) ==>
              2 * position * r <= n < 2 * position * (r + 1)
  {
    if position == 0 then 100
    else
      var a := RoundHalfUp((position - errors) * 100, position);
      assert 2 * ((position - errors) * 100) == 200 * (position - errors);
      AccuracyRange(position, errors, a);
      RoundsToZero(position, 200 * (position - errors) + position, a);
      if a == 0 then 100 else a
  }

  lemma AccuracyRange(p: nat, e: nat, a: int)
    requires p > 0
    requires 2 * p * a <= 200 * (p - e) + p < 2 * p * (a + 1)
    ensures e <= p ==> 0 <= a <= 100
    ensures e == 0 ==> a == 100
  {
    assert 2 * p * (a + 1) == 2 * p * a + 2 * p;
    if e <= p {
      CancelPositive(2 * p, a, 101);
      CancelPositive(2 * p, -1, a);
    }
    if e == 0 {
      assert 2 * p * 99 < 2 * p * a;
      CancelPositive(2 * p, 99, a);
    }
  }

  /** A value rounded to the nearest integer is zero exactly when it lies in
      [-1/2, 1/2): stated for m/d on `n = 2 m + d`, with `d` positive. */
  lemma RoundsToZero(d: int, n: int, a: int)
    requires d > 0
    requires 2 * d * a <= n < 2 * d * (a + 1)
    ensures a == 0 <==> 0 <= n < 2 * d
  {
    if 0 <= n < 2 * d {
      assert 2 * d * (a + 1) == 2 * d * a + 2 * d;
      CancelPositive(2 * d, a, 1);
      CancelPositive(2 * d, -1, a);
    }
  }

  /** A positive factor can be cancelled from a strict inequality. */
  lemma CancelPositive(p: int, x: int, y: int)
    requires p > 0 && p * x < p * y
    ensures x < y
  {
    assert p * (y - x) == p * y - p * x;
  }

  /** A run whose accuracy rounds to zero (almost every character wrong) is
      shown as fully accurate. */
  lemma AllWrongShowsFullAccuracy(position: nat)
    requires position > 0
    ensures Accuracy(position, position) == 100
  {
  }

  /** A concrete case where the fallback fires although the player was wrong
      at all but one of 201 characters. */
  lemma NearlyAllWrongShowsFullAccuracy()
    ensures Accuracy(201, 200) == 100
  {
    assert RoundHalfUp(100, 201) == 0;
  }

  /** Words typed by the five-characters-per-word convention. */
  function WordsTyped(position: nat): (r: nat)
    ensures 10 * r <= 2 * position + 5 < 10 * (r + 1)
  {
    RoundHalfUp(position, 5)
  }

  /** Words per minute, `Math.round(words / minutes) || 0`, shown only while
      the elapsed time is positive.  The clock is in milliseconds. */
  function Wpm(position: nat, elapsedMillis: int): (r: nat)
    ensures elapsedMillis <= 0 ==> r == 0
    ensures elapsedMillis > 0 ==>
              2 * elapsedMillis * r <= 120000 * WordsTyped(position) + elapsedMillis
                                    < 2 * elapsedMillis * (r + 1)
  {
    if elapsedMillis > 0 then RoundHalfUp(WordsTyped(position) * 60000, elapsedMillis) else 0
  }

  /** `!startTime` in the source: no timestamp, or the falsy timestamp 0. */
  predicate Unstamped(startTime: Option<int>)
  {
    startTime.None? || startTime.value == 0
  }

  /** What a call of `calculateStats` does: either it only stamps the start
      time, or it recomputes the error count and the stats record. */
  datatype StatsStep = StampStart(at: int) | Recompute(errors: nat, stats: TypingStats)

  /** `calculateStats` on the state read by the key handler.  The caller
      passes the buffer and position of the render the key arrived in, so the
      result describes the text as it was before that key. */
  function CalculateStats(sample: string, typed: string, position: nat,
                          startTime: Option<int>, now: int): (r: StatsStep)
    requires position == |typed|
    ensures r.StampStart? <==> Unstamped(startTime)
    ensures r.StampStart? ==> r.at == now
    ensures r.Recompute? ==>
              && r.errors == r.stats.errors == |MismatchIndices(sample, typed)|
              && 1 <= r.stats.accuracy <= 100
              && (r.stats.errors == 0 ==> r.stats.accuracy == 100)
              && r.stats.totalTyped == position
              && (now <= startTime.value ==> r.stats.wpm == 0)
              && r.stats.wpm == Wpm(position, now - startTime.value)
              && r.stats.accuracy == Accuracy(position, r.errors)
  {
    if Unstamped(startTime) then StampStart(now)
    else
      var errors := ErrorCount(sample, typed);
      ErrorCountIsMismatchCount(sample, typed);
      Recompute(errors, TypingStats(Wpm(position, now - startTime.value),
                                    Accuracy(position, errors), errors, position))
  }
}
