/**
 The session controller of the reading test: the session fields (page, chosen
 sentences, current sentence index, recorded scores) and the transitions that
 the home, test and summary pages make on them, one script run at a time.
 */
module Session {
  import opened Bands
  import opened Summary

  /** Number of sentences read in one test. */
  const LinesPerTest: nat := 3

  /** The fixed bank of Hindi reference sentences. */
  const Sentences: seq<string> := [
    "भारत एक विशाल देश है और इसकी संस्कृति विविधता से भरपूर है।",
    "गंगा नदी भारत की सबसे पवित्र नदियों में से एक मानी जाती है।",
    "ताजमहल प्रेम का अद्भुत प्रतीक है।",
    "हिमालय पर्वत श्रृंखला प्राकृतिक सौंदर्य का खजाना है।",
    "दिल्ली भारत की राजधानी और ऐतिहासिक धरोहरों का केंद्र है।",
    "सत्य और अहिंसा महात्मा गांधी के मुख्य सिद्धांत थे।",
    "भारत में विभिन्न भाषाएँ और परंपराएँ एकता में बंधी हैं।",
    "कड़ी मेहनत और दृढ़ निश्चय सफलता की कुंजी हैं।",
    "पेड़ हमें स्वच्छ हवा और छाया प्रदान करते हैं।",
    "पुस्तकें ज्ञान का सबसे बड़ा स्रोत होती हैं।"
  ]

  /** An accuracy score as the similarity scorer returns it. */
  type Score = s: int | 0 <= s <= 100

  datatype Page = HomePage | TestPage | SummaryPage

  /**
   How one recording attempt ends: the transcript is scored, or listening
   times out, or the speech is unintelligible, or the recognition service fails.
   */
  datatype Attempt = Success(score: Score) | Timeout | Unintelligible | RequestError

  /** The message a script run leaves in the result area of the test page. */
  datatype Notice =
    | NoNotice
    | Scored(score: Score, band: Band)
    | TimeoutNotice
    | UnclearNotice
    | ConnectionNotice

  /** The user's action during one script run; a button not shown on the page is never pressed. */
  datatype Event = Idle | StartPressed | RecordPressed(outcome: Attempt) | RestartPressed

  /** A draw of LinesPerTest different sentences of the bank. */
  ghost predicate IsSample(lines: seq<string>)
  {
    && |lines| == LinesPerTest
    && (forall i :: 0 <= i < |lines| ==> lines[i] in Sentences)
    && (forall i, j :: 0 <= i < j < |lines| ==> lines[i] != lines[j])
  }

  /** No sentence appears twice in the bank, so distinct positions give distinct sentences. */
  lemma BankDistinct()
    ensures forall i, j :: 0 <= i < j < |Sentences| ==> Sentences[i] != Sentences[j]
  {
  }

  /** Three different positions in the bank. */
  predicate DistinctPositions(i: int, j: int, k: int)
  {
    0 <= i < |Sentences| && 0 <= j < |Sentences| && 0 <= k < |Sentences| && i != j && j != k && i != k
  }

  /**
   A sample without replacement of LinesPerTest sentences from the bank. Which
   positions are drawn is left open: any three distinct positions will do.
   */
  method SampleLines() returns (lines: seq<string>)
    ensures IsSample(lines)
  {
    assert DistinctPositions(0, 1, 2);
    var i: int, j: int, k: int :| DistinctPositions(i, j, k);
    assert DistinctPositions(i, j, k);
    BankDistinct();
    lines := [Sentences[i], Sentences[j], Sentences[k]];
  }

  /** The outcome's notice, as the result area shows it. */
  function NoticeOf(outcome: Attempt): (n: Notice)
    ensures outcome.Success? ==> n == Scored(outcome.score, FeedbackBand(outcome.score))
    ensures n == TimeoutNotice <==> outcome == Timeout
    ensures n == UnclearNotice <==> outcome == Unintelligible
    ensures n == ConnectionNotice <==> outcome == RequestError
    ensures n != NoNotice
  {
    match outcome
    case Success(s) => Scored(s, FeedbackBand(s))
    case Timeout => TimeoutNotice
    case Unintelligible => UnclearNotice
    case RequestError => ConnectionNotice
  }

  class Controller {
    var page: Page
    var chosenLines: seq<string>
    var currentIdx: nat
    var allScores: seq<Score>

    /**
     The session invariant: one score per completed sentence, never more than
     LinesPerTest; a test or summary page always has its sample; the summary
     page is only shown once every sentence is scored.
     */
    ghost predicate Valid()
      reads this
    {
      && |allScores| == currentIdx <= LinesPerTest
      && (page == HomePage ==> chosenLines == [] && currentIdx == 0)
      && (page != HomePage ==> IsSample(chosenLines))
      && (page == SummaryPage ==> currentIdx == LinesPerTest)
    }

    /** The fields as a first script run initialises them. */
    constructor ()
      ensures Valid()
      ensures page == HomePage && chosenLines == [] && currentIdx == 0 && allScores == []
    {
      page := HomePage;
      allScores := [];
      chosenLines := [];
      currentIdx := 0;
    }

    /** Draws a fresh sample and enters the test page at its first sentence. */
    method StartTest()
      modifies this
      ensures Valid()
      ensures page == TestPage && currentIdx == 0 && allScores == [] && IsSample(chosenLines)
    {
      chosenLines := SampleLines();
      currentIdx := 0;
      allScores := [];
      page := TestPage;
    }

    /** Passes through the home page and starts a new test straight away. */
    method RestartTest()
      modifies this
      ensures Valid()
      ensures page == TestPage && currentIdx == 0 && allScores == [] && IsSample(chosenLines)
    {
      page := HomePage;
      StartTest();
    }

    /** The sentence the test page asks the user to read. */
    method CurrentSentence() returns (line: string)
      requires Valid() && page == TestPage && currentIdx < LinesPerTest
      ensures line == chosenLines[currentIdx] && line in Sentences
    {
      line := chosenLines[currentIdx];
    }

    /**
     One recording attempt on the current sentence. A scored attempt appends
     its score and moves to the next sentence; a failed one changes nothing.
     */
    method RecordAttempt(outcome: Attempt) returns (notice: Notice)
      requires Valid() && page == TestPage && currentIdx < LinesPerTest
      modifies this
      ensures Valid()
      ensures page == TestPage && chosenLines == old(chosenLines)
      ensures notice == NoticeOf(outcome)
      ensures outcome.Success? ==>
        allScores == old(allScores) + [outcome.score] && currentIdx == old(currentIdx) + 1
      ensures !outcome.Success? ==>
        allScores == old(allScores) && currentIdx == old(currentIdx)
    {
      match outcome {
        case Success(accuracy) =>
          allScores := allScores + [accuracy];
          notice := Scored(accuracy, FeedbackBand(accuracy));
          currentIdx := currentIdx + 1;
        case Timeout =>
          notice := TimeoutNotice;
        case Unintelligible =>
          notice := UnclearNotice;
        case RequestError =>
          notice := ConnectionNotice;
      }
    }

    /** The test page with every sentence done switches to the summary page. */
    method FinishTest()
      requires Valid() && page == TestPage && currentIdx >= LinesPerTest
      modifies this
      ensures Valid()
      ensures page == SummaryPage
      ensures chosenLines == old(chosenLines) && currentIdx == old(currentIdx) && allScores == old(allScores)
      ensures |allScores| == LinesPerTest
    {
      page := SummaryPage;
    }

    /** What the summary page shows: always an assessment of exactly LinesPerTest scores. */
    method SummaryView() returns (v: SummaryView)
      requires Valid() && page == SummaryPage
      ensures |allScores| == LinesPerTest
      ensures v.Assessment? && v == Summarize(allScores)
    {
      v := Summarize(allScores);
    }

    /** One run of the page script, dispatching on the page and the user's action. */
    method Step(event: Event) returns (notice: Notice)
      requires Valid()
      modifies this
      ensures Valid()
      ensures old(page) == HomePage ==>
        if event == StartPressed
        then page == TestPage && currentIdx == 0 && allScores == [] && IsSample(chosenLines)
        else page == old(page) && chosenLines == old(chosenLines) && allScores == old(allScores) &&
             currentIdx == old(currentIdx)
      ensures old(page) == TestPage && old(currentIdx) < LinesPerTest ==>
        page == TestPage && chosenLines == old(chosenLines) &&
        if event.RecordPressed? && event.outcome.Success?
        then allScores == old(allScores) + [event.outcome.score] && currentIdx == old(currentIdx) + 1
        else allScores == old(allScores) && currentIdx == old(currentIdx)
      ensures old(page) == TestPage && old(currentIdx) >= LinesPerTest ==>
        page == SummaryPage && chosenLines == old(chosenLines) && allScores == old(allScores) &&
        currentIdx == old(currentIdx)
      ensures old(page) == SummaryPage ==>
        if event == RestartPressed
        then page == TestPage && currentIdx == 0 && allScores == [] && IsSample(chosenLines)
        else page == old(page) && chosenLines == old(chosenLines) && allScores == old(allScores) &&
             currentIdx == old(currentIdx)
      ensures notice ==
        if old(page) == TestPage && old(currentIdx) < LinesPerTest && event.RecordPressed?
        then NoticeOf(event.outcome) else NoNotice
    {
      notice := NoNotice;
      match page {
        case HomePage =>
          if event == StartPressed {
            StartTest();
          }
        case TestPage =>
          if currentIdx < LinesPerTest {
            if event.RecordPressed? {
              notice := RecordAttempt(event.outcome);
            }
          } else {
            FinishTest();
          }
        case SummaryPage =>
          if event == RestartPressed {
            RestartTest();
          }
      }
    }
  }

  /**
   A whole session driven by any sequence of user actions from a fresh start:
   every state reached keeps the session invariant, so the summary page is
   only ever reached with exactly LinesPerTest scores and never shows "no data".
   */
  method Run(events: seq<Event>) returns (page: Page, scores: seq<Score>)
    ensures |scores| <= LinesPerTest
    ensures page == HomePage ==> scores == []
    ensures page == SummaryPage ==> |scores| == LinesPerTest && Summarize(scores).Assessment?
  {
    var c := new Controller();
    var i := 0;
    while i < |events|
      invariant 0 <= i <= |events|
      invariant c.Valid()
    {
      var _ := c.Step(events[i]);
      i := i + 1;
    }
    page, scores := c.page, c.allScores;
  }

  /** Three scored attempts, with failures in between, lead to the summary of those three scores. */
  method ThreeReadings(a: Score, b: Score, c: Score) returns (v: SummaryView)
    ensures v == Summarize([a, b, c]) && v.Assessment?
  {
    var ctl := new Controller();
    var notice := ctl.Step(StartPressed);
    notice := ctl.Step(RecordPressed(Success(a)));
    assert ctl.allScores == [a];
    notice := ctl.Step(RecordPressed(Timeout));
    assert notice == TimeoutNotice;
    notice := ctl.Step(RecordPressed(Success(b)));
    assert ctl.allScores == [a, b];
    notice := ctl.Step(RecordPressed(Unintelligible));
    notice := ctl.Step(RecordPressed(RequestError));
    assert notice == ConnectionNotice && ctl.currentIdx == 2;
    notice := ctl.Step(RecordPressed(Success(c)));
    assert ctl.allScores == [a, b, c];
    notice := ctl.Step(Idle);
    v := ctl.SummaryView();
  }
}
