/** The climate quiz: its five-question bank, the scoring of answers, the
    countdown, the mm:ss display, the score bands shown at the end, and the
    component state driven by selection, submission, the result callback,
    the clock and the restart button. */
module Quiz {

  datatype Option<T> = None | Some(value: T)

  /** A question as far as the logic sees it: how many options it offers,
      which one is right, and what it is worth. */
  datatype Question = Question(id: string, optionCount: nat, correctAnswer: nat, points: nat)

  const QuizSeconds: int := 300
  const NominalPoints: nat := 15   // the per-question points the percentage assumes

  function Questions(): (qs: seq<Question>)
    ensures |qs| == 5
    ensures forall i :: 0 <= i < |qs| ==> qs[i].correctAnswer < qs[i].optionCount == 4
  {
    [ Question("q1", 4, 1, 10),
      Question("q2", 4, 2, 10),
      Question("q3", 4, 1, 15),
      Question("q4", 4, 2, 10),
      Question("q5", 4, 1, 20) ]
  }

  /** The points of the first n questions of the bank. */
  function PointsOfFirst(n: nat): nat
    requires n <= |Questions()|
  {
    if n == 0 then 0 else PointsOfFirst(n - 1) + Questions()[n - 1].points
  }

  lemma BankIsWorth65()
    ensures PointsOfFirst(|Questions()|) == 65
  {
  }

  /** The points answer `a` earns on question i. */
  function Award(i: nat, a: int): (r: nat)
    requires i < |Questions()|
    ensures r <= Questions()[i].points
    ensures r > 0 <==> a == Questions()[i].correctAnswer
  {
    if a == Questions()[i].correctAnswer then Questions()[i].points else 0
  }

  /** The score of a list of answers, answer i given to question i. */
  function Scored(answers: seq<int>): (r: nat)
    requires |answers| <= |Questions()|
    ensures r <= PointsOfFirst(|answers|)
  {
    if answers == [] then 0
    else Scored(answers[..|answers| - 1]) + Award(|answers| - 1, answers[|answers| - 1])
  }

  /** Every answer earns at most its question's points, so the score of n
      answers is at most the points of the first n questions, and at most
      65 in all. */
  lemma {:induction false} ScoredBounds(answers: seq<int>)
    requires |answers| <= |Questions()|
    ensures Scored(answers) <= PointsOfFirst(|answers|) <= 65
  {
    if answers != [] {
      ScoredBounds(answers[..|answers| - 1]);
    }
    PointsGrow(|answers|);
  }

  lemma {:induction false} PointsGrow(n: nat)
    requires n <= |Questions()|
    ensures PointsOfFirst(n) <= PointsOfFirst(|Questions()|)
    decreases |Questions()| - n
  {
    if n < |Questions()| {
      PointsGrow(n + 1);
    } else {
      BankIsWorth65();
    }
  }

  /** All answers right earns every point. */
  lemma {:induction false} AllRightEarnsAll(answers: seq<int>)
    requires |answers| <= |Questions()|
    requires forall i :: 0 <= i < |answers| ==> answers[i] == Questions()[i].correctAnswer
    ensures Scored(answers) == PointsOfFirst(|answers|)
  {
    if answers != [] {
      AllRightEarnsAll(answers[..|answers| - 1]);
    }
  }

  // ------------------------------------------------------------- formatTime

  function DigitChar(d: nat): char
    requires d < 10
  {
    "0123456789"[d]
  }

  predicate IsDigit(c: char) { '0' <= c <= '9' }

  predicate AllDigits(s: string) { forall i :: 0 <= i < |s| ==> IsDigit(s[i]) }

  /** `n.toString()` for a non-negative integer. */
  function Decimal(n: nat): (s: string)
    ensures |s| >= 1 && AllDigits(s)
    ensures n < 10 ==> |s| == 1
    ensures n >= 10 ==> |s| >= 2
  {
    if n < 10 then [DigitChar(n)] else Decimal(n / 10) + [DigitChar(n % 10)]
  }

  /** The value of a string of decimal digits. */
  function DigitsValue(s: string): nat
    requires AllDigits(s)
  {
    if s == [] then 0 else DigitsValue(s[..|s| - 1]) * 10 + (s[|s| - 1] as int - '0' as int)
  }

  lemma {:induction false} DecimalValue(n: nat)
    ensures DigitsValue(Decimal(n)) == n
  {
    if n >= 10 {
      DecimalValue(n / 10);
      var s := Decimal(n);
      assert s[..|s| - 1] == Decimal(n / 10);
    }
  }

  /** `secs.toString().padStart(2, '0')` for secs below 60. */
  function Pad2(n: nat): (s: string)
    requires n < 60
    ensures |s| == 2 && AllDigits(s)
  {
    if n < 10 then "0" + Decimal(n) else Decimal(n)
  }

  lemma Pad2Value(n: nat)
    requires n < 60
    ensures DigitsValue(Pad2(n)) == n
  {
    DecimalValue(n);
    if n < 10 {
      var s := Pad2(n);
      assert s[..1] == "0";
    }
  }

  /** `formatTime`: minutes, a colon, and the seconds on two digits. */
  function FormatTime(seconds: nat): (t: string)
    ensures |t| >= 4 && t[|t| - 3] == ':' && AllDigits(t[|t| - 2..])
    ensures seconds < 600 ==> |t| == 4
  {
    var m := Decimal(seconds / 60);
    var p := Pad2(seconds % 60);
    var t := m + ":" + p;
    assert t[|t| - 2..] == p;
    t
  }

  /** Reads an `m:ss` display back to seconds. */
  function ParseTime(t: string): Option<nat> {
    if |t| >= 4 && t[|t| - 3] == ':' && AllDigits(t[..|t| - 3]) && AllDigits(t[|t| - 2..])
    then Some(DigitsValue(t[..|t| - 3]) * 60 + DigitsValue(t[|t| - 2..]))
    else None
  }

  /** The display always ends in a colon and two digits worth seconds mod 60,
      the part before the colon is worth seconds div 60, and reading the
      display back gives the seconds. */
  lemma FormatTimeRoundTrip(seconds: nat)
    ensures var t := FormatTime(seconds);
            && |t| >= 4 && t[|t| - 3] == ':'
            && AllDigits(t[|t| - 2..]) && DigitsValue(t[|t| - 2..]) == seconds % 60 < 60
            && AllDigits(t[..|t| - 3]) && DigitsValue(t[..|t| - 3]) == seconds / 60
            && ParseTime(t) == Some(seconds)
  {
    var m := Decimal(seconds / 60);
    var p := Pad2(seconds % 60);
    var t := FormatTime(seconds);
    assert t == m + ":" + p;
    assert t[..|t| - 3] == m;
    assert t[|t| - 2..] == p;
    DecimalValue(seconds / 60);
    Pad2Value(seconds % 60);
  }

  // ------------------------------------------------------------ score bands

  /** `score / (questions.length * 15) * 100`. */
  function ScorePercentage(score: int): real {
    score as real / (|Questions()| * NominalPoints) as real * 100.0
  }

  function ScoreColor(score: int): (c: string)
    ensures c == "text-green-400" || c == "text-yellow-400" || c == "text-red-400"
    ensures c == "text-green-400" <==> ScorePercentage(score) >= 80.0
    ensures c == "text-red-400" <==> ScorePercentage(score) < 60.0
  {
    var p := ScorePercentage(score);
    if p >= 80.0 then "text-green-400" else if p >= 60.0 then "text-yellow-400" else "text-red-400"
  }

  function ScoreMessage(score: int): (m: string)
    ensures m == "Excellent! \U{1F31F}" || m == "Good job! \U{1F44D}" || m == "Keep learning! \U{1F4DA}"
    ensures m == "Excellent! \U{1F31F}" <==> ScorePercentage(score) >= 80.0
    ensures m == "Keep learning! \U{1F4DA}" <==> ScorePercentage(score) < 60.0
  {
    var p := ScorePercentage(score);
    if p >= 80.0 then "Excellent! \U{1F31F}"
    else if p >= 60.0 then "Good job! \U{1F44D}"
    else "Keep learning! \U{1F4DA}"
  }

  datatype Band = Excellent | GoodJob | KeepLearning

  /** The bands in points: 60 and above, 45 to 59, below 45. */
  function BandOf(score: int): Band {
    if score >= 60 then Excellent else if score >= 45 then GoodJob else KeepLearning
  }

  /** Colour and message are chosen by the same band, and the band's
      thresholds on the percentage are 60 and 45 points. */
  lemma BandsAgree(score: int)
    ensures ScoreColor(score) == "text-green-400" <==> BandOf(score) == Excellent
    ensures ScoreColor(score) == "text-yellow-400" <==> BandOf(score) == GoodJob
    ensures ScoreColor(score) == "text-red-400" <==> BandOf(score) == KeepLearning
    ensures ScoreMessage(score) == "Excellent! \U{1F31F}" <==> BandOf(score) == Excellent
    ensures ScoreMessage(score) == "Good job! \U{1F44D}" <==> BandOf(score) == GoodJob
    ensures ScoreMessage(score) == "Keep learning! \U{1F4DA}" <==> BandOf(score) == KeepLearning
  {
  }

  /** The percentage divides by 75 while the bank is worth 65, so no score
      the bank can give shows 100%. */
  lemma FullMarksBelowHundred(answers: seq<int>)
    requires |answers| <= |Questions()|
    ensures ScorePercentage(Scored(answers)) < 100.0
  {
    ScoredBounds(answers);
  }

  // ------------------------------------------------------------- component

  /** A scheduled two-second result callback: the question index and the
      score it captured from the render in which the answer was submitted. */
  datatype PendingResult = PendingResult(asked: nat, scoreThen: int)

  class QuizModal {
    var currentQuestion: nat
    var selectedAnswer: Option<int>
    var showResult: bool
    var score: int
    var answers: seq<int>
    var timeLeft: int
    var isCompleted: bool
    /** The result callbacks still scheduled, oldest first (all have the
        same delay, so they fire in this order). */
    var pendingResults: seq<PendingResult>
    /** The score captured by the countdown's callback when the modal
        opened; the interval is not re-created while the modal stays open. */
    var scoreWhenOpened: int

    /** The question index lies in the bank; one answer is recorded per
        question passed, plus the one whose result is shown; the score is the
        score of those answers; the countdown lies in [0, 300]; and at most
        one result callback is pending, for the question on screen. */
    ghost predicate Valid()
      reads this
    {
      && currentQuestion < |Questions()|
      && |answers| == currentQuestion + (if showResult then 1 else 0)
      && score == Scored(answers)
      && 0 <= timeLeft <= QuizSeconds
      && (pendingResults == [] ||
          (|pendingResults| == 1 && pendingResults[0].asked == currentQuestion && showResult))
    }

    constructor ()
      ensures Valid()
      ensures currentQuestion == 0 && selectedAnswer == None && !showResult && score == 0
      ensures answers == [] && timeLeft == QuizSeconds && !isCompleted && pendingResults == []
      ensures scoreWhenOpened == 0
    {
      currentQuestion := 0;
      selectedAnswer := None;
      showResult := false;
      score := 0;
      answers := [];
      timeLeft := QuizSeconds;
      isCompleted := false;
      pendingResults := [];
      scoreWhenOpened := 0;
    }

    /** The modal opens again while the component stays mounted: the
        countdown interval is created anew and captures the score of this
        render. */
    method Reopen()
      modifies this`scoreWhenOpened
      ensures scoreWhenOpened == score
      ensures old(Valid()) ==> Valid()
    {
      scoreWhenOpened := score;
    }

    /** `handleAnswerSelect`: ignored while a result is shown. */
    method SelectAnswer(index: int)
      modifies this`selectedAnswer
      ensures selectedAnswer == if old(showResult) then old(selectedAnswer) else Some(index)
      ensures old(Valid()) ==> Valid()
    {
      if showResult {
        return;
      }
      selectedAnswer := Some(index);
    }

    /** `handleSubmitAnswer`, reachable only through the submit button,
        which is on screen while the quiz runs and no result is shown.
        Nothing happens without a selection; otherwise the selection is
        scored, recorded, its result shown, and the two-second callback
        scheduled with the current question and the score before this
        answer. */
    method SubmitAnswer()
      requires currentQuestion < |Questions()| && !showResult && !isCompleted
      modifies this`score, this`answers, this`showResult, this`pendingResults
      ensures old(selectedAnswer).None? ==>
        score == old(score) && answers == old(answers) && !showResult && pendingResults == old(pendingResults)
      ensures old(selectedAnswer).Some? ==>
        var a := old(selectedAnswer).value;
        var q := Questions()[currentQuestion];
        && score == old(score) + (if a == q.correctAnswer then q.points else 0)
        && answers == old(answers) + [a]
        && showResult
        && pendingResults == old(pendingResults) + [PendingResult(currentQuestion, old(score))]
      ensures old(Valid()) ==> Valid()
    {
      if selectedAnswer == None {
        return;
      }
      var a := selectedAnswer.value;
      var q := Questions()[currentQuestion];
      var isCorrect := a == q.correctAnswer;
      var newScore := if isCorrect then score + q.points else score;
      var newAnswers := answers + [a];
      assert newAnswers[..|newAnswers| - 1] == answers;
      pendingResults := pendingResults + [PendingResult(currentQuestion, score)];
      score := newScore;
      answers := newAnswers;
      showResult := true;
    }

    /** The oldest result callback fires. It tests the question it captured:
        before the last question it moves on with the selection cleared and
        the result hidden; at the last one it completes the quiz and reports
        the score it captured. */
    method ResultTimeout() returns (reported: Option<int>)
      requires pendingResults != []
      modifies this`currentQuestion, this`selectedAnswer, this`showResult, this`isCompleted, this`pendingResults
      ensures pendingResults == old(pendingResults)[1..]
      ensures old(pendingResults)[0].asked < |Questions()| - 1 ==>
        && currentQuestion == old(currentQuestion) + 1 && selectedAnswer == None && !showResult
        && isCompleted == old(isCompleted) && reported == None
      ensures old(pendingResults)[0].asked >= |Questions()| - 1 ==>
        && currentQuestion == old(currentQuestion) && selectedAnswer == old(selectedAnswer)
        && showResult == old(showResult) && isCompleted
        && reported == Some(old(pendingResults)[0].scoreThen)
      ensures old(Valid()) ==> Valid()
    {
      var fired := pendingResults[0];
      pendingResults := pendingResults[1..];
      if fired.asked < |Questions()| - 1 {
        currentQuestion := currentQuestion + 1;
        selectedAnswer := None;
        showResult := false;
        reported := None;
      } else {
        isCompleted := true;
        reported := Some(fired.scoreThen);
      }
    }

    /** The result callback with the completion reporting the score of all
        the answers given, the last one included. */
    method ResultTimeoutReportingFinalScore() returns (reported: Option<int>)
      requires pendingResults != []
      modifies this`currentQuestion, this`selectedAnswer, this`showResult, this`isCompleted, this`pendingResults
      ensures pendingResults == old(pendingResults)[1..]
      ensures old(pendingResults)[0].asked < |Questions()| - 1 ==>
        && currentQuestion == old(currentQuestion) + 1 && selectedAnswer == None && !showResult
        && isCompleted == old(isCompleted) && reported == None
      ensures old(pendingResults)[0].asked >= |Questions()| - 1 ==>
        && currentQuestion == old(currentQuestion) && selectedAnswer == old(selectedAnswer)
        && showResult == old(showResult) && isCompleted && reported == Some(score)
      ensures old(Valid()) ==> Valid()
      ensures old(Valid()) && isCompleted && !old(isCompleted) ==>
        |answers| == |Questions()| && reported == Some(Scored(answers))
    {
      var fired := pendingResults[0];
      pendingResults := pendingResults[1..];
      if fired.asked < |Questions()| - 1 {
        currentQuestion := currentQuestion + 1;
        selectedAnswer := None;
        showResult := false;
        reported := None;
      } else {
        isCompleted := true;
        reported := Some(score);
      }
    }

    /** One second of the countdown, which runs as long as the modal is
        open: at 1 or below it pins to 0, completes and reports the score
        captured when the modal opened (again on every later second),
        otherwise it drops by one. */
    method TickSecond() returns (reported: Option<int>)
      modifies this`timeLeft, this`isCompleted
      ensures old(timeLeft) <= 1 ==> timeLeft == 0 && isCompleted && reported == Some(scoreWhenOpened)
      ensures old(timeLeft) > 1 ==>
        timeLeft == old(timeLeft) - 1 && isCompleted == old(isCompleted) && reported == None
      ensures old(timeLeft) >= 0 ==> 0 <= timeLeft <= old(timeLeft)
      ensures old(Valid()) ==> Valid()
    {
      if timeLeft <= 1 {
        timeLeft := 0;
        isCompleted := true;
        reported := Some(scoreWhenOpened);
      } else {
        timeLeft := timeLeft - 1;
        reported := None;
      }
    }

    /** The countdown with the completion reported once: a second at 0
        after the quiz has completed reports nothing. */
    method TickSecondReportingOnce() returns (reported: Option<int>)
      modifies this`timeLeft, this`isCompleted
      ensures old(timeLeft) <= 1 ==> timeLeft == 0 && isCompleted
      ensures old(timeLeft) > 1 ==> timeLeft == old(timeLeft) - 1 && isCompleted == old(isCompleted)
      ensures reported.Some? <==> old(timeLeft) <= 1 && !old(isCompleted)
      ensures reported.Some? ==> reported.value == scoreWhenOpened
      ensures old(Valid()) ==> Valid()
    {
      reported := None;
      if timeLeft <= 1 {
        if !isCompleted {
          reported := Some(scoreWhenOpened);
        }
        timeLeft := 0;
        isCompleted := true;
      } else {
        timeLeft := timeLeft - 1;
      }
    }

    /** `handleRestart`, on the completion screen: every field back to its
        initial value. A result callback still scheduled is not cancelled. */
    method Restart()
      requires isCompleted
      modifies this`currentQuestion, this`selectedAnswer, this`showResult, this`score, this`answers,
               this`timeLeft, this`isCompleted
      ensures currentQuestion == 0 && selectedAnswer == None && !showResult && score == 0
      ensures answers == [] && timeLeft == QuizSeconds && !isCompleted
      ensures pendingResults == [] ==> Valid()
    {
      currentQuestion := 0;
      selectedAnswer := None;
      showResult := false;
      score := 0;
      answers := [];
      timeLeft := QuizSeconds;
      isCompleted := false;
    }

    /** The restart with the pending result callback cancelled as well: the
        quiz is back in its initial state and stays valid. */
    method RestartCancellingTimers()
      requires isCompleted
      modifies this`currentQuestion, this`selectedAnswer, this`showResult, this`score, this`answers,
               this`timeLeft, this`isCompleted, this`pendingResults
      ensures Valid()
      ensures currentQuestion == 0 && selectedAnswer == None && !showResult && score == 0
      ensures answers == [] && timeLeft == QuizSeconds && !isCompleted && pendingResults == []
    {
      Restart();
      pendingResults := [];
    }
  }

  /** In a valid quiz the score lies between 0 and the 65 points of the
      bank. */
  lemma ValidScoreBounds(quiz: QuizModal)
    requires quiz.Valid()
    ensures 0 <= quiz.score <= 65
  {
    ScoredBounds(quiz.answers);
  }

  /** The learner picks `a`, submits it, and the oldest pending result
      callback fires. */
  method AnswerThenFire(quiz: QuizModal, a: int) returns (reported: Option<int>)
    requires quiz.currentQuestion < |Questions()| && !quiz.showResult && !quiz.isCompleted
    modifies quiz
    ensures quiz.timeLeft == old(quiz.timeLeft)
    ensures quiz.score == old(quiz.score) + Award(old(quiz.currentQuestion), a)
    ensures var fired := old(quiz.pendingResults) + [PendingResult(old(quiz.currentQuestion), old(quiz.score))];
      && quiz.pendingResults == fired[1..]
      && (fired[0].asked < |Questions()| - 1 ==>
           quiz.currentQuestion == old(quiz.currentQuestion) + 1 && !quiz.showResult && !quiz.isCompleted)
      && (fired[0].asked >= |Questions()| - 1 ==> quiz.isCompleted && reported == Some(fired[0].scoreThen))
  {
    quiz.SelectAnswer(a);
    quiz.SubmitAnswer();
    reported := quiz.ResultTimeout();
  }

  /** The clock runs out while the third question's result is shown; the
      learner restarts and answers on. The callback left over from before
      the restart shifts every later advance by one, and the last one moves
      past the fifth question while the quiz is still running. */
  method RestartDuringResultOverrunsBank() returns (quiz: QuizModal)
    ensures quiz.currentQuestion == |Questions()| && !quiz.isCompleted && !quiz.showResult
  {
    quiz := new QuizModal();
    var r := AnswerThenFire(quiz, 1);
    r := AnswerThenFire(quiz, 2);
    quiz.SelectAnswer(1);
    quiz.SubmitAnswer();
    assert quiz.currentQuestion == 2 && quiz.showResult && |quiz.pendingResults| == 1;
    while !quiz.isCompleted
      invariant quiz.currentQuestion == 2 && quiz.showResult
      invariant |quiz.pendingResults| == 1 && quiz.pendingResults[0].asked == 2
      invariant !quiz.isCompleted ==> quiz.timeLeft > 0
      decreases if quiz.isCompleted then 0 else quiz.timeLeft
    {
      r := quiz.TickSecond();
    }
    quiz.Restart();
    r := AnswerThenFire(quiz, 1);
    assert quiz.currentQuestion == 1 && |quiz.pendingResults| == 1 && quiz.pendingResults[0].asked == 0;
    r := AnswerThenFire(quiz, 2);
    assert quiz.currentQuestion == 2 && |quiz.pendingResults| == 1 && quiz.pendingResults[0].asked == 1;
    r := AnswerThenFire(quiz, 1);
    assert quiz.currentQuestion == 3 && |quiz.pendingResults| == 1 && quiz.pendingResults[0].asked == 2;
    r := AnswerThenFire(quiz, 2);
    assert quiz.currentQuestion == 4 && |quiz.pendingResults| == 1 && quiz.pendingResults[0].asked == 3;
    r := AnswerThenFire(quiz, 1);
  }

  /** Five right answers: the results screen shows 65 points, but the
      completion reports 45, the score captured before the last answer. */
  method AllRightReportsWithoutLastAnswer() returns (quiz: QuizModal, reported: Option<int>)
    ensures quiz.isCompleted && quiz.score == 65 && reported == Some(45)
  {
    quiz := new QuizModal();
    reported := AnswerThenFire(quiz, 1);
    reported := AnswerThenFire(quiz, 2);
    reported := AnswerThenFire(quiz, 1);
    reported := AnswerThenFire(quiz, 2);
    assert quiz.currentQuestion == 4 && quiz.score == 45 && quiz.pendingResults == [];
    reported := AnswerThenFire(quiz, 1);
  }

  /** The first question answered right, the modal reopened so that the
      countdown captures that score, and the clock run down to 0. */
  method ExpireAfterFirstAnswer() returns (quiz: QuizModal)
    ensures fresh(quiz) && quiz.Valid() && quiz.timeLeft == 0 && quiz.isCompleted
    ensures quiz.scoreWhenOpened == quiz.score == Questions()[0].points
  {
    quiz := new QuizModal();
    quiz.SelectAnswer(Questions()[0].correctAnswer);
    quiz.SubmitAnswer();
    var r := quiz.ResultTimeout();
    quiz.Reopen();
    while !quiz.isCompleted
      invariant quiz.Valid() && quiz.scoreWhenOpened == quiz.score == Questions()[0].points
      invariant !quiz.isCompleted ==> quiz.timeLeft > 0
      invariant quiz.isCompleted ==> quiz.timeLeft == 0
      decreases if quiz.isCompleted then 0 else quiz.timeLeft
    {
      r := quiz.TickSecond();
    }
  }

  /** Once the clock is at 0 the interval keeps firing: two more seconds
      report the same non-zero score twice more. */
  method ExpiredClockReportsEverySecond() returns (quiz: QuizModal, first: Option<int>, second: Option<int>)
    ensures first == second == Some(Questions()[0].points) && Questions()[0].points > 0
  {
    quiz := ExpireAfterFirstAnswer();
    first := quiz.TickSecond();
    second := quiz.TickSecond();
  }

  /** With the completion reported once, the seconds after it report
      nothing. */
  method ExpiredClockReportsOnce() returns (quiz: QuizModal, first: Option<int>, second: Option<int>)
    ensures first == None && second == None
  {
    quiz := ExpireAfterFirstAnswer();
    first := quiz.TickSecondReportingOnce();
    second := quiz.TickSecondReportingOnce();
  }
}
