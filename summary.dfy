/**
 The summary page: either "no valid data" when no score was recorded, or the
 average score rounded to one decimal, its concern level, and a breakdown row
 per score.
 */
module Summary {
  import opened Bands

  /** What the summary page shows for a list of scores. */
  datatype SummaryView =
    | NoData
    | Assessment(avgTenths: int, concern: Concern)

  /** One line of the per-score breakdown: 1-based sentence number, score, colour. */
  datatype Row = Row(position: nat, score: int, colour: string)

  function Sum(s: seq<int>): int
  {
    if s == [] then 0 else Sum(s[..|s| - 1]) + s[|s| - 1]
  }

  /**
   The integer nearest to num / den, with a tie going to the even neighbour
   (the rounding rule of Python's round).
   */
  function RoundHalfEven(num: int, den: int): (t: int)
    requires den > 0
    ensures 2 * (num - den * t) <= den && 2 * (den * t - num) <= den
    ensures 2 * (num - den * t) == den || 2 * (den * t - num) == den ==> t % 2 == 0
  {
    var q, r := num / den, num % den;
    assert num == den * q + r;
    if 2 * r < den then q
    else if 2 * r > den then q + 1
    else if q % 2 == 0 then q
    else q + 1
  }

  /** The mean of a non-empty list of scores, rounded to one decimal, in tenths of a percent. */
  function AverageTenths(scores: seq<int>): (t: int)
    requires scores != []
    ensures 2 * (10 * Sum(scores) - |scores| * t) <= |scores|
    ensures 2 * (|scores| * t - 10 * Sum(scores)) <= |scores|
  {
    RoundHalfEven(10 * Sum(scores), |scores|)
  }

  /** The summary page for the recorded scores. */
  function Summarize(scores: seq<int>): (v: SummaryView)
    ensures v.NoData? <==> scores == []
    ensures v.Assessment? ==> v.concern == ConcernBand(v.avgTenths)
    ensures v.Assessment? ==>
      2 * (10 * Sum(scores) - |scores| * v.avgTenths) <= |scores| &&
      2 * (|scores| * v.avgTenths - 10 * Sum(scores)) <= |scores|
    ensures v.Assessment? && AllWithin(scores, 0, 100) ==> 0 <= v.avgTenths <= 1000
  {
    if scores == [] then NoData
    else
      var avg := AverageTenths(scores);
      AveragePercent(scores);
      Assessment(avg, ConcernBand(avg))
  }

  ghost predicate AllWithin(scores: seq<int>, lo: int, hi: int)
  {
    forall i :: 0 <= i < |scores| ==> lo <= scores[i] <= hi
  }

  /** The sum of n scores in [lo, hi] lies between n * lo and n * hi. */
  lemma {:induction false} SumBounds(scores: seq<int>, lo: int, hi: int)
    requires AllWithin(scores, lo, hi)
    ensures |scores| * lo <= Sum(scores) <= |scores| * hi
  {
    if scores != [] {
      var n := |scores| - 1;
      assert AllWithin(scores[..n], lo, hi) by {
        forall i | 0 <= i < n ensures lo <= scores[..n][i] <= hi {
          assert scores[..n][i] == scores[i];
        }
      }
      SumBounds(scores[..n], lo, hi);
      assert (n + 1) * lo == n * lo + lo;
      assert (n + 1) * hi == n * hi + hi;
    }
  }

  lemma MulMonotone(k: int, a: int, b: int)
    requires k >= 0 && a <= b
    ensures k * a <= k * b
  {
  }

  /** A rounded quotient stays within any whole bounds the exact quotient lies in. */
  lemma RoundWithin(num: int, den: int, lo: int, hi: int)
    requires den > 0 && den * lo <= num <= den * hi
    ensures lo <= RoundHalfEven(num, den) <= hi
  {
    var t := RoundHalfEven(num, den);
    if t < lo {
      MulMonotone(den, t, lo - 1);
    }
    if t > hi {
      MulMonotone(den, hi + 1, t);
    }
  }

  /** The average of scores in [lo, hi] is itself in [lo, hi]. */
  lemma AverageWithin(scores: seq<int>, lo: int, hi: int)
    requires scores != [] && AllWithin(scores, lo, hi)
    ensures 10 * lo <= AverageTenths(scores) <= 10 * hi
  {
    var n := |scores|;
    SumBounds(scores, lo, hi);
    assert n * (10 * lo) == 10 * (n * lo);
    assert n * (10 * hi) == 10 * (n * hi);
    RoundWithin(10 * Sum(scores), n, 10 * lo, 10 * hi);
  }

  /** Percentages average to a percentage: scores in [0, 100] give an average in [0.0, 100.0]. */
  lemma AveragePercent(scores: seq<int>)
    requires scores != []
    ensures AllWithin(scores, 0, 100) ==> 0 <= AverageTenths(scores) <= 1000
  {
    if AllWithin(scores, 0, 100) {
      AverageWithin(scores, 0, 100);
    }
  }

  /** When every score is in the best band, the summary reports low concern. */
  lemma AllStrongMeansLowConcern(scores: seq<int>)
    requires scores != [] && AllWithin(scores, Strong, 100)
    ensures Summarize(scores) == Assessment(AverageTenths(scores), LowConcern)
  {
    AverageWithin(scores, Strong, 100);
  }

  /** When every score is below 70, the summary reports high concern. */
  lemma AllWeakMeansHighConcern(scores: seq<int>)
    requires scores != [] && AllWithin(scores, 0, Fair - 1)
    ensures Summarize(scores) == Assessment(AverageTenths(scores), HighConcern)
  {
    AverageWithin(scores, 0, Fair - 1);
  }

  /** Scores 90, 60 and 100 average 83.3, a moderate concern. */
  lemma ExampleModerate()
    ensures Summarize([90, 60, 100]) == Assessment(833, ModerateConcern)
  {
    assert Sum([90, 60, 100]) == 250 by {
      assert [90, 60, 100][..2] == [90, 60];
      assert [90, 60][..1] == [90];
      assert [90][..0] == [];
    }
  }

  /** Scores 95, 88 and 92 average 91.7, a low concern. */
  lemma ExampleLow()
    ensures Summarize([95, 88, 92]) == Assessment(917, LowConcern)
  {
    assert Sum([95, 88, 92]) == 275 by {
      assert [95, 88, 92][..2] == [95, 88];
      assert [95, 88][..1] == [95];
      assert [95][..0] == [];
    }
  }

  /** The breakdown row of the score at 0-based index i. */
  function BreakdownRow(i: nat, score: int): (r: Row)
    ensures r.position == i + 1 && r.score == score
    ensures r.colour == BandColour(FeedbackBand(score))
  {
    Row(i + 1, score, ScoreColour(score))
  }

  /** The per-score breakdown of the summary page, one row per score in order. */
  method Breakdown(scores: seq<int>) returns (rows: seq<Row>)
    ensures |rows| == |scores|
    ensures forall i :: 0 <= i < |scores| ==>
      rows[i].position == i + 1 && rows[i].score == scores[i] &&
      rows[i].colour == BandColour(FeedbackBand(scores[i]))
  {
    rows := [];
    var i := 0;
    while i < |scores|
      invariant 0 <= i <= |scores|
      invariant |rows| == i
      invariant forall k :: 0 <= k < i ==> rows[k] == BreakdownRow(k, scores[k])
    {
      rows := rows + [BreakdownRow(i, scores[i])];
      i := i + 1;
    }
  }
}
