/**
 The integer classification rules of the reading test: the feedback band shown
 after each scored attempt, the colour of each score in the summary's breakdown,
 and the level of concern reported for the average score.
 */
module Bands {

  /** Lower edge of the best band ("status-success", low concern). */
  const Strong: int := 85
  /** Lower edge of the middle band ("status-warning", moderate concern). */
  const Fair: int := 70

  /** The style class of the feedback box shown after a scored attempt. */
  datatype Band = StatusSuccess | StatusWarning | StatusError

  /** The evaluation shown on the summary page for the average score. */
  datatype Concern = HighConcern | ModerateConcern | LowConcern

  /** The three colours of the summary's per-score breakdown. */
  const Green: string := "#059669"
  const Amber: string := "#d97706"
  const Red: string := "#dc2626"

  /** Feedback band of one attempt's accuracy score (an if/elif/else chain). */
  function FeedbackBand(score: int): (b: Band)
    ensures b == StatusSuccess <==> score >= Strong
    ensures b == StatusError <==> score < Fair
  {
    if score >= Strong then StatusSuccess
    else if score >= Fair then StatusWarning
    else StatusError
  }

  /** Colour of one score in the summary's breakdown (a nested conditional expression). */
  function ScoreColour(score: int): (c: string)
    ensures c == BandColour(FeedbackBand(score))
  {
    if score >= Strong then Green else if score >= Fair then Amber else Red
  }

  /** The colour that goes with each feedback band. */
  function BandColour(b: Band): string
  {
    match b
    case StatusSuccess => Green
    case StatusWarning => Amber
    case StatusError => Red
  }

  /** Concern reported for the average, given in tenths of a percent (835 is 83.5%). */
  function ConcernBand(avgTenths: int): (c: Concern)
    ensures c == HighConcern <==> avgTenths < 10 * Fair
    ensures c == LowConcern <==> avgTenths >= 10 * Strong
  {
    if avgTenths < 10 * Fair then HighConcern
    else if avgTenths < 10 * Strong then ModerateConcern
    else LowConcern
  }

  /** Rank of a band, from the worst (0) to the best (2). */
  function BandRank(b: Band): (r: nat)
    ensures r <= 2
  {
    match b
    case StatusError => 0
    case StatusWarning => 1
    case StatusSuccess => 2
  }

  /** Rank of a concern level, from the most worrying (0) to the least (2). */
  function ConcernRank(c: Concern): (r: nat)
    ensures r <= 2
  {
    match c
    case HighConcern => 0
    case ModerateConcern => 1
    case LowConcern => 2
  }

  /**
   The warning band is exactly [70, 85). With the two outer intervals that
   FeedbackBand's own contract gives, the three bands partition the integers.
   */
  lemma FeedbackBandIntervals(score: int)
    ensures FeedbackBand(score) == StatusWarning <==> 70 <= score < 85
  {
  }

  /** A higher score never earns a worse band. */
  lemma FeedbackBandMonotone(s: int, t: int)
    requires s <= t
    ensures BandRank(FeedbackBand(s)) <= BandRank(FeedbackBand(t))
  {
  }

  /** The three colours are different, so the colour tells the band apart. */
  lemma BandColourInjective(b: Band, c: Band)
    ensures BandColour(b) == BandColour(c) <==> b == c
  {
  }

  /**
   Moderate concern is exactly an average in [70.0, 85.0). With the two outer
   intervals that ConcernBand's own contract gives, the levels partition the averages.
   */
  lemma ConcernBandIntervals(avgTenths: int)
    ensures ConcernBand(avgTenths) == ModerateConcern <==> 700 <= avgTenths < 850
  {
  }

  /** A higher average never reports more concern. */
  lemma ConcernBandMonotone(a: int, b: int)
    requires a <= b
    ensures ConcernRank(ConcernBand(a)) <= ConcernRank(ConcernBand(b))
  {
  }

  /** A whole-number average lands in the same band as a single score of that value. */
  lemma ConcernAgreesWithFeedback(score: int)
    ensures ConcernRank(ConcernBand(10 * score)) == BandRank(FeedbackBand(score))
  {
  }
}
