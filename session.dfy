/** The MathTests object: a quiz session of a fixed number of exercises at
    one difficulty, scored answer by answer, with a running total of correct
    answers over all finished sessions. */
module Session {
  import opened Problems
  import opened Generator

  /** What submitMathAnswer returns; nextProblem is present only while the
      session goes on. */
  datatype SubmitResult = SubmitResult(
    isCorrect: bool,
    userAnswer: int,
    correctAnswer: int,
    exerciseCount: int,
    correctAnswers: int,
    totalExercises: int,
    isSessionComplete: bool,
    nextProblem: Option<Problem>)

  /** What finishMathSession returns. totalExercises is None while no session
      was ever started (the source's `undefined`); accuracy is None where the
      source divides by an undefined or zero target. */
  datatype SessionSummary = SessionSummary(
    totalExercises: Option<int>,
    correctAnswers: int,
    accuracy: Option<real>,
    problemsSolved: int)

  /** What getSessionStats returns. */
  datatype SessionStats = SessionStats(
    sessionActive: bool,
    exerciseCount: int,
    correctAnswers: int,
    problemsSolved: int,
    selectedDifficulty: int)

  /** The statistics of a newly constructed object. */
  const FreshStats := SessionStats(false, 0, 0, 0, 1)

  lemma PercentBounds(correct: int, total: int)
    requires total != 0
    ensures 0 <= correct <= total ==> 0.0 <= correct as real / total as real * 100.0 <= 100.0
    ensures correct == total ==> correct as real / total as real * 100.0 == 100.0
  {
    if 0 <= correct <= total {
      var q := correct as real / total as real;
      assert q * total as real == correct as real;
    }
  }

  /** The percentage of correct answers, (correct / total) * 100. */
  function Accuracy(correct: int, total: Option<int>): (a: Option<real>)
    ensures a.Some? <==> total.Some? && total.value != 0
    ensures a.Some? && 0 <= correct <= total.value ==> 0.0 <= a.value <= 100.0
    ensures a.Some? && correct == total.value ==> a.value == 100.0
    ensures a.Some? && correct == 0 ==> a.value == 0.0
  {
    if total.None? || total.value == 0 then None
    else
      PercentBounds(correct, total.value);
      Some(correct as real / total.value as real * 100.0)
  }

  function Sum(s: seq<int>): int
  {
    if s == [] then 0 else Sum(s[..|s| - 1]) + s[|s| - 1]
  }

  lemma SumAppend(s: seq<int>, x: int)
    ensures Sum(s + [x]) == Sum(s) + x
  {
    assert (s + [x])[..|s|] == s;
  }

  /** Appending a non-negative count keeps every count non-negative. */
  lemma AppendNonNegative(s: seq<int>, x: int)
    requires forall i :: 0 <= i < |s| ==> s[i] >= 0
    requires x >= 0
    ensures forall i :: 0 <= i < |s + [x]| ==> (s + [x])[i] >= 0
  {
    forall i | 0 <= i < |s + [x]| ensures (s + [x])[i] >= 0 {
      if i < |s| { assert (s + [x])[i] == s[i]; }
    }
  }

  class MathTests {
    var currentProblem: Option<Problem>
    var exerciseCount: int
    var correctAnswers: int
    var sessionActive: bool
    var problemsSolved: int
    var selectedDifficulty: int
    /** Not set by the constructor nor by reset: None until the first session
        starts. */
    var exercisesPerSession: Option<int>
    /** The correct-answer counts folded into problemsSolved, one per finish
        since construction or the last reset. */
    ghost var finished: seq<int>

    ghost predicate Valid()
      reads this
    {
      && 0 <= correctAnswers <= exerciseCount
      && problemsSolved == Sum(finished)
      && (forall i :: 0 <= i < |finished| ==> finished[i] >= 0)
      && (currentProblem.Some? ==> exercisesPerSession.Some?)
      && (sessionActive ==> currentProblem.Some?)
    }

    /** A session in progress that submitting answers keeps within bounds:
        fewer answers so far than the target, a problem awaiting its answer. */
    ghost predicate InSession()
      reads this
    {
      && sessionActive
      && currentProblem.Some?
      && exercisesPerSession.Some?
      && 0 <= exerciseCount < exercisesPerSession.value
    }

    /** The six fields the constructor and reset set. */
    ghost predicate Initial()
      reads this
    {
      && currentProblem == None
      && exerciseCount == 0
      && correctAnswers == 0
      && !sessionActive
      && problemsSolved == 0
      && selectedDifficulty == 1
    }

    constructor ()
      ensures Valid() && Initial() && exercisesPerSession == None && finished == []
      ensures GetSessionStats() == FreshStats
    {
      currentProblem := None;
      exerciseCount := 0;
      correctAnswers := 0;
      sessionActive := false;
      problemsSolved := 0;
      selectedDifficulty := 1;
      exercisesPerSession := None;
      finished := [];
    }

    /** startMathExercise: a new session at the raw (not normalized)
        difficulty; the previous session's progress is discarded, the
        running total is kept. */
    method StartMathExercise(difficulty: int, rolls: seq<real>, exercises: int := 3) returns (p: Problem)
      requires Valid() && RollsFit(difficulty, rolls)
      modifies this
      ensures Valid()
      ensures sessionActive && exerciseCount == 0 && correctAnswers == 0
      ensures selectedDifficulty == difficulty && exercisesPerSession == Some(exercises)
      ensures p == GenerateMathProblem(difficulty, rolls) && currentProblem == Some(p)
      ensures problemsSolved == old(problemsSolved) && finished == old(finished)
      ensures exercises >= 1 <==> InSession()
    {
      sessionActive := true;
      exerciseCount := 0;
      correctAnswers := 0;
      selectedDifficulty := difficulty;
      exercisesPerSession := Some(exercises);
      p := GenerateMathProblem(difficulty, rolls);
      currentProblem := Some(p);
    }

    /** submitMathAnswer: scores the answer against the current problem and
        either moves on to a new problem at the selected difficulty or, once
        the target is reached, finishes the session. `rolls` are the draws
        the next problem would use. */
    method SubmitMathAnswer(userAnswer: int, rolls: seq<real>) returns (result: SubmitResult)
      requires Valid() && currentProblem.Some? && RollsFit(selectedDifficulty, rolls)
      modifies this
      ensures Valid()
      ensures result.isCorrect <==> userAnswer == old(currentProblem.value.answer)
      ensures result.userAnswer == userAnswer && result.correctAnswer == old(currentProblem.value.answer)
      ensures exerciseCount == old(exerciseCount) + 1
      ensures correctAnswers == old(correctAnswers) + (if result.isCorrect then 1 else 0)
      ensures result.exerciseCount == exerciseCount && result.correctAnswers == correctAnswers
      ensures exercisesPerSession == old(exercisesPerSession) && selectedDifficulty == old(selectedDifficulty)
      ensures result.totalExercises == exercisesPerSession.value
      ensures result.isSessionComplete <==> exerciseCount >= exercisesPerSession.value
      ensures !result.isSessionComplete ==>
                && currentProblem == Some(GenerateMathProblem(selectedDifficulty, rolls))
                && result.nextProblem == currentProblem
                && sessionActive == old(sessionActive)
                && problemsSolved == old(problemsSolved)
                && finished == old(finished)
      ensures result.isSessionComplete ==>
                && currentProblem == old(currentProblem)
                && result.nextProblem == None
                && !sessionActive
                && problemsSolved == old(problemsSolved) + correctAnswers
                && finished == old(finished) + [correctAnswers]
      ensures old(InSession()) ==> (InSession() <==> !result.isSessionComplete)
      ensures old(InSession()) && result.isSessionComplete ==> exerciseCount == exercisesPerSession.value
    {
      var correctAnswer := currentProblem.value.answer;
      var isCorrect := userAnswer == correctAnswer;
      if isCorrect {
        correctAnswers := correctAnswers + 1;
      }
      exerciseCount := exerciseCount + 1;
      var total := exercisesPerSession.value;
      result := SubmitResult(isCorrect, userAnswer, correctAnswer, exerciseCount, correctAnswers,
                             total, exerciseCount >= total, None);
      if !result.isSessionComplete {
        var next := GenerateMathProblem(selectedDifficulty, rolls);
        currentProblem := Some(next);
        result := result.(nextProblem := Some(next));
      } else {
        var _ := FinishMathSession();
      }
    }

    /** finishMathSession: ends the session and folds its correct answers
        into the running total. */
    method FinishMathSession() returns (summary: SessionSummary)
      requires Valid()
      modifies this
      ensures Valid()
      ensures !sessionActive
      ensures problemsSolved == old(problemsSolved) + correctAnswers
      ensures finished == old(finished) + [correctAnswers]
      ensures currentProblem == old(currentProblem) && exerciseCount == old(exerciseCount)
      ensures correctAnswers == old(correctAnswers) && selectedDifficulty == old(selectedDifficulty)
      ensures exercisesPerSession == old(exercisesPerSession)
      ensures summary == SessionSummary(exercisesPerSession, correctAnswers,
                                        Accuracy(correctAnswers, exercisesPerSession), problemsSolved)
    {
      SumAppend(finished, correctAnswers);
      AppendNonNegative(finished, correctAnswers);
      sessionActive := false;
      problemsSolved := problemsSolved + correctAnswers;
      finished := finished + [correctAnswers];
      summary := SessionSummary(exercisesPerSession, correctAnswers,
                                Accuracy(correctAnswers, exercisesPerSession), problemsSolved);
    }

    /** reset: back to the constructor's state, running total included. */
    method Reset()
      modifies this
      ensures Valid() && Initial() && finished == []
      ensures exercisesPerSession == old(exercisesPerSession)
      ensures GetSessionStats() == FreshStats
    {
      currentProblem := None;
      exerciseCount := 0;
      correctAnswers := 0;
      sessionActive := false;
      problemsSolved := 0;
      selectedDifficulty := 1;
      finished := [];
    }

    /** getSessionStats: a snapshot of the counters. */
    function GetSessionStats(): (s: SessionStats)
      reads this
    {
      SessionStats(sessionActive, exerciseCount, correctAnswers, problemsSolved, selectedDifficulty)
    }

    /** setDifficulty: takes a difficulty in [1, 5] and silently ignores any
        other. */
    method SetDifficulty(difficulty: int)
      requires Valid()
      modifies this
      ensures Valid()
      ensures selectedDifficulty == if 1 <= difficulty <= 5 then difficulty else old(selectedDifficulty)
      ensures currentProblem == old(currentProblem) && exerciseCount == old(exerciseCount)
      ensures correctAnswers == old(correctAnswers) && sessionActive == old(sessionActive)
      ensures problemsSolved == old(problemsSolved) && exercisesPerSession == old(exercisesPerSession)
      ensures finished == old(finished)
    {
      if difficulty >= 1 && difficulty <= 5 {
        selectedDifficulty := difficulty;
      }
    }
  }

  /** The statistics always satisfy 0 <= correctAnswers <= exerciseCount and
      the running total is the sum of the finished sessions' correct answers. */
  lemma StatsAreConsistent(m: MathTests)
    requires m.Valid()
    ensures 0 <= m.GetSessionStats().correctAnswers <= m.GetSessionStats().exerciseCount
    ensures m.GetSessionStats().problemsSolved == Sum(m.finished) >= 0
  {
    SumNonNegative(m.finished);
  }

  lemma {:induction false} SumNonNegative(s: seq<int>)
    requires forall i :: 0 <= i < |s| ==> s[i] >= 0
    ensures Sum(s) >= 0
  {
    if s != [] {
      SumNonNegative(s[..|s| - 1]);
    }
  }

  /** A session of two exercises at tier 1, answered right then wrong: the
      second answer completes the session with one correct answer. Calling
      finishMathSession once more folds that answer in a second time. */
  method TwoExerciseSession(first: seq<real>, second: seq<real>, third: seq<real>)
    requires RollsFit(1, first) && RollsFit(1, second) && RollsFit(1, third)
  {
    var m := new MathTests();
    var p1 := m.StartMathExercise(1, first, 2);
    var r1 := m.SubmitMathAnswer(p1.answer, second);
    assert r1.isCorrect && r1.exerciseCount == 1 && !r1.isSessionComplete;
    assert m.selectedDifficulty == 1 && m.currentProblem == r1.nextProblem;
    var p2 := r1.nextProblem.value;
    var r2 := m.SubmitMathAnswer(p2.answer + 1, third);
    assert !r2.isCorrect && r2.exerciseCount == 2 && r2.correctAnswers == 1 && r2.isSessionComplete;
    assert !m.sessionActive && m.problemsSolved == 1;
    var summary := m.FinishMathSession();
    assert Accuracy(1, Some(2)) == Some(50.0);
    assert summary.accuracy == Some(50.0) && summary.problemsSolved == 2;
  }
}
