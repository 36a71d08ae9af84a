# Dyslexia reading aid: session controller

The reading aid is a three-page web form. The home page starts a test. The
test page asks the user to read three Hindi sentences aloud. Each recording is
transcribed and scored from 0 to 100 against its sentence. The summary page
reports the average score and a level of concern. This project models the
part of the page script that decides what happens:

- the session fields `page`, `chosen_lines`, `current_sentence_idx` and
  `all_scores`, as the class `Session.Controller`;
- the transitions on them: starting a test, restarting it, a recording attempt
  that is scored or fails, and the automatic switch to the summary page;
- the integer rules that classify a score, the colour of each score in the
  summary's breakdown, and the level of concern for the average.

It has three modules:

- `Bands` holds the thresholds 85 and 70 and the three classifications.
  The contracts and lemmas show that the feedback band and the concern level
  each split the integers into three intervals and are monotone. The
  breakdown colour's contract shows it uses the same thresholds as the
  per-attempt feedback.
- `Summary` holds the summary page. With no scores it shows "no data". With
  scores it shows the average, rounded to one decimal and kept in tenths of a
  percent (83.3% is 833), and its concern level. It also builds the per-score
  breakdown.
- `Session` holds the sentence bank, the sample of three sentences, the
  outcome of a recording attempt, and the controller. `Controller.Valid()` is
  the session invariant: `|allScores| == currentIdx <= 3`, every test or summary
  page has a sample of three distinct bank sentences, and the summary page
  means `currentIdx == 3`. Every transition preserves it, taking each script
  run as uninterrupted (see "## Left out"). `Run` drives a fresh
  session through any sequence of user actions. It proves that the summary page
  is only reached with exactly three scores, so the "no data" branch cannot be
  reached this way.

How the collaborators are represented:

- Microphone capture, Google speech recognition and the fuzzy string score
  are one value of `Session.Attempt`. It is either `Success(score)`, with the
  score in [0, 100], or one of the three failures `Timeout`, `Unintelligible`
  and `RequestError`.
- `random.sample` is a nondeterministic choice of three distinct bank
  positions. All that is promised about it is that the result is a sample:
  three different sentences from the bank.
- Each run of the page script is one `Controller.Step`. Its `Event` is the
  button pressed in that run. A button is only pressed on the page that shows
  it; any other event leaves the state unchanged. The page redraw after
  `st.rerun()` is the next `Step`, which reads the updated fields.

Two places where the code is easy to misread, and what the model does:

- The concern level is taken from the average after it is rounded to one
  decimal, as `avg_score < 70` and `avg_score < 85` do. So an exact mean of
  84.96 reports low concern.
- Restarting passes through `page = "home"` and then starts a new test in the
  same run. It ends in exactly the state that starting a test ends in.

## Model

| member | source | states |
|---|---|---|
| Bands.FeedbackBand | dyslexia_detection/streamlit_app.py:527-538 | success exactly when score >= 85, error exactly when score < 70, so warning exactly in between (partner: FeedbackBandIntervals) |
| Bands.FeedbackBandIntervals | dyslexia_detection/streamlit_app.py:527-538 | warning exactly for 70 <= score < 85; with FeedbackBand's outer intervals, the three bands partition the integers |
| Bands.FeedbackBandMonotone | dyslexia_detection/streamlit_app.py:527-538 | a higher score never gets a worse feedback band |
| Bands.ScoreColour | dyslexia_detection/streamlit_app.py:638 | the breakdown colour of a score is the colour of its feedback band, so the summary uses the same thresholds as the attempt feedback |
| Bands.BandColourInjective | dyslexia_detection/streamlit_app.py:638 | the three breakdown colours are distinct, so a colour identifies its band |
| Bands.ConcernBand | dyslexia_detection/streamlit_app.py:603-629 | high concern exactly when the average is below 70.0, low exactly from 85.0, so moderate exactly in between (partner: ConcernBandIntervals) |
| Bands.ConcernBandIntervals | dyslexia_detection/streamlit_app.py:603-629 | moderate concern exactly for an average from 70.0 up to but not including 85.0; with ConcernBand's outer intervals, the levels partition the averages |
| Bands.ConcernBandMonotone | dyslexia_detection/streamlit_app.py:603-629 | a higher average never reports more concern |
| Bands.ConcernAgreesWithFeedback | dyslexia_detection/streamlit_app.py:603-629 | a whole-number average gets the same rank as a single score of that value |
| Summary.RoundHalfEven | dyslexia_detection/streamlit_app.py:587 | the result is an integer nearest to num / den, and a tie goes to the even one |
| Summary.AverageTenths | dyslexia_detection/streamlit_app.py:587 | the mean of the scores, in tenths, is within half a tenth of the exact mean 10 * sum / n (partners: RoundHalfEven, AverageWithin) |
| Summary.Summarize | dyslexia_detection/streamlit_app.py:586-656 | "no data" exactly when there are no scores; otherwise the average is the mean rounded to the nearest tenth, the concern is its band, and scores in [0, 100] give an average in [0.0, 100.0] |
| Summary.SumBounds | dyslexia_detection/streamlit_app.py:587 | n scores in [lo, hi] sum to a value between n * lo and n * hi |
| Summary.RoundWithin | dyslexia_detection/streamlit_app.py:587 | rounding a quotient that lies in whole bounds stays within those bounds |
| Summary.AverageWithin | dyslexia_detection/streamlit_app.py:587 | the rounded mean of scores in [lo, hi] lies in [lo, hi] |
| Summary.AveragePercent | dyslexia_detection/streamlit_app.py:587 | scores in [0, 100] give an average in [0.0, 100.0] |
| Summary.AllStrongMeansLowConcern | dyslexia_detection/streamlit_app.py:603-629 | if every score is at least 85, the summary reports low concern |
| Summary.AllWeakMeansHighConcern | dyslexia_detection/streamlit_app.py:603-629 | if every score is below 70, the summary reports high concern |
| Summary.ExampleModerate | dyslexia_detection/streamlit_app.py:586-620 | scores 90, 60 and 100 average 83.3, which is moderate concern |
| Summary.ExampleLow | dyslexia_detection/streamlit_app.py:586-629 | scores 95, 88 and 92 average 91.7, which is low concern |
| Summary.BreakdownRow | dyslexia_detection/streamlit_app.py:637-646 | the row of the score at index i is numbered i + 1, carries the score, and has the colour of the score's feedback band |
| Summary.Breakdown | dyslexia_detection/streamlit_app.py:637-646 | one row per score, in order, numbered from 1, carrying the score and the colour of its feedback band |
| Session.BankDistinct | dyslexia_detection/streamlit_app.py:379-390 | the ten bank sentences are pairwise different |
| Session.SampleLines | dyslexia_detection/streamlit_app.py:406 | the draw is three pairwise-different sentences of the bank; with no precondition, this also shows the ten-sentence bank makes the draw possible |
| Session.NoticeOf | dyslexia_detection/streamlit_app.py:527-576 | a scored attempt shows its own score with that score's feedback band; the timeout, unintelligible and connection notices each appear exactly for their own failure; every attempt shows some notice |
| Session.Controller.constructor | dyslexia_detection/streamlit_app.py:395-402 | a new session is on the home page with no sentences, index 0 and no scores, and satisfies the invariant |
| Session.Controller.StartTest | dyslexia_detection/streamlit_app.py:405-409 | afterwards: test page, index 0, no scores, a fresh sample of three distinct bank sentences, and the invariant holds |
| Session.Controller.RestartTest | dyslexia_detection/streamlit_app.py:411-414 | ends in the same state as starting a test; the intermediate home page does not survive |
| Session.Controller.CurrentSentence | dyslexia_detection/streamlit_app.py:457-460 | on the test page with index below 3, the prompt is the chosen sentence at the index, and it is a bank sentence |
| Session.Controller.RecordAttempt | dyslexia_detection/streamlit_app.py:505-576 | a scored attempt appends its score at the end and adds 1 to the index; a timeout, an unintelligible recording or a request error changes nothing; the page and sample never change and the invariant is kept |
| Session.Controller.FinishTest | dyslexia_detection/streamlit_app.py:578-580 | the test page with index at least 3 switches to the summary page without touching sample or scores, and there are then exactly 3 scores |
| Session.Controller.SummaryView | dyslexia_detection/streamlit_app.py:583-587 | on the summary page there are exactly 3 scores, and the page shows their assessment, never "no data" |
| Session.Controller.Step | dyslexia_detection/streamlit_app.py:430-663 | one script run: home plus start starts a test; the test page records an attempt while sentences remain and otherwise switches to summary; summary plus restart restarts; any other action changes nothing; the invariant is kept |
| Session.Run | dyslexia_detection/streamlit_app.py:395-663 | for any sequence of user actions from a new session: at most 3 scores, none on the home page, and exactly 3 with an assessment on the summary page |
| Session.ThreeReadings | dyslexia_detection/streamlit_app.py:451-663 | start, then three scored readings with failed attempts in between, then one more run, gives the summary of exactly those three scores |

## Left out

- Page styling, HTML and the rendering calls (`st.markdown`, `st.title`, `st.columns`, the button widgets) are not modelled. They only display things.
- Microphone capture, ambient-noise calibration and the 10 s and 15 s listen limits are not modelled. They are hardware input, and only their outcome appears, as `Attempt`.
- Google speech recognition and `fuzz.token_sort_ratio` are not modelled. They are a network service and a library whose code is not part of this model. An attempt's score is an opaque integer in [0, 100].
- Which sentences `random.sample` picks is not modelled. Only the sample property is promised.
- The progress indicator's percentage and `int(avg_score)` for the progress bar are left out. They are float display values.
- `time.sleep(3)` and `st.rerun()` are left out. They pace the page and trigger the next script run, which is the next `Step`.
- Summary.RoundHalfEven: rounds the exact rational mean, half to even. Python rounds the binary double nearest to the mean. The two can differ only when the exact mean lies on a tie such as 70.15 that a double cannot represent. Three scores never produce a tie, because 10 * sum / 3 is never a half.
- Session.Controller.RecordAttempt: a scored attempt appends the score and advances the index as one step. In the code these are two statements with a display call between them. A script run stopped between them keeps the score without advancing the index. Each script run is modelled as uninterrupted, so that state, with one extra score, is not modelled.
- Session.Controller.Step, Session.Run: rely on the same uninterrupted-run assumption. `|allScores| == currentIdx` is not promised for a run cut short between the append and the increment.
- Bands: the message texts and icons shown with each band are not modelled. Only the band is.
