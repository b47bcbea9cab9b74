/**
 * The participant's timed exam (the "join and play" page). A participant
 * joins with a name and a numeric quiz ID, answers one question at a time
 * against a per-question countdown, and the score is tallied locally and
 * posted to the server; the session is marked submitted only when the server
 * accepts the result.
 *
 * Server replies are parameters: the fetched question list of a join is an
 * Option (None for every failed fetch), and the outcome of posting a result
 * is a boolean. The one-second interval timer is the discrete event Tick.
 */
module Play {
  import opened Options
  import opened Quiz

  /** The countdown budget of every question, in seconds. */
  const SecondsPerQuestion: int := 30

  /** The result record posted to the server. */
  datatype Submission = Submission(quizId: int, participantName: string, score: nat, outOf: nat)

  class TimedSession {
    // join form
    var participantName: string
    var quizId: Option<int>      // None while the quiz ID field is empty
    // session
    var quiz: Option<seq<Question>>
    var answers: Answers
    var submitted: bool
    var score: nat
    var current: nat
    var timeLeft: int

    /**
     * Before a quiz is loaded the session is in its initial state. Once one
     * is loaded: it has questions, the current index lies inside the list,
     * the countdown lies in [0, 30], only questions already reached carry an
     * answer, and the score is the tally of the frozen answers once
     * submitted (0 before).
     */
    ghost predicate Valid()
      reads this
    {
      match quiz
      case None =>
        current == 0 && answers == map[] && !submitted && score == 0 && timeLeft == SecondsPerQuestion
      case Some(qs) =>
        && 0 < |qs|
        && current < |qs|
        && 0 <= timeLeft <= SecondsPerQuestion
        && (forall i :: i in answers ==> i <= current)
        && participantName != "" && quizId.Some?
        && score == (if submitted then Score(qs, answers, SlotName) else 0)
    }

    /** A freshly loaded page: empty form, no quiz. */
    constructor ()
      ensures Valid()
      ensures quiz == None && participantName == "" && quizId == None
    {
      participantName, quizId := "", None;
      quiz, answers, submitted, score := None, map[], false, 0;
      current, timeLeft := 0, SecondsPerQuestion;
    }

    /** Typing into the join form, which is shown only while no quiz is loaded. */
    method EditJoinForm(name: string, id: Option<int>)
      requires Valid() && quiz == None
      modifies this`participantName, this`quizId
      ensures Valid()
      ensures participantName == name && quizId == id
    {
      participantName, quizId := name, id;
    }

    /**
     * handleJoinQuiz: refuses an empty name or quiz ID, a failed fetch and a
     * quiz without questions, leaving everything as it was; otherwise loads
     * the questions and restarts the countdown.
     */
    method Join(fetched: Option<seq<Question>>) returns (joined: bool)
      requires Valid() && quiz == None
      modifies this`quiz, this`timeLeft
      ensures Valid()
      ensures joined <==> participantName != "" && quizId.Some? && fetched.Some? && |fetched.value| > 0
      ensures joined ==> quiz == fetched && timeLeft == SecondsPerQuestion
      ensures !joined ==> quiz == None && timeLeft == old(timeLeft)
    {
      if participantName == "" || quizId == None {
        return false;
      }
      match fetched
      case None =>
        return false;
      case Some(qs) =>
        if |qs| == 0 {
          return false;
        }
        quiz := Some(qs);
        timeLeft := SecondsPerQuestion;
        return true;
    }

    /**
     * handleSelectOption: before submission records the chosen text for that
     * question and leaves every other entry alone; after it does nothing.
     * Options are clickable only on the question on screen, which before
     * submission is the current one.
     */
    method Select(idx: nat, optionText: string)
      requires Valid() && quiz.Some? && idx < |quiz.value|
      requires submitted || idx == current
      modifies this`answers
      ensures Valid()
      ensures old(submitted) ==> answers == old(answers)
      ensures !old(submitted) ==> answers == old(answers)[idx := optionText]
    {
      if submitted {
        return;
      }
      answers := answers[idx := optionText];
    }

    /**
     * handleSubmitExam: tallies the answers against the option each question's
     * correctOpt names and builds the result record; only when the server
     * accepts it are the score and the submitted flag set.
     */
    method SubmitExam(accepted: bool) returns (posted: Submission)
      requires Valid() && quiz.Some?
      modifies this`score, this`submitted
      ensures Valid()
      ensures posted == Submission(quizId.value, participantName, Score(quiz.value, answers, SlotName), |quiz.value|)
      ensures posted.score <= posted.outOf
      ensures accepted ==> submitted && score == Score(quiz.value, answers, SlotName)
      ensures !accepted ==> submitted == old(submitted) && score == old(score)
    {
      var currentScore := TallyScore(quiz.value, answers, SlotName);
      posted := Submission(quizId.value, participantName, currentScore, |quiz.value|);
      if accepted {
        score := currentScore;
        submitted := true;
      }
    }

    /**
     * handleNextQuestion: on the last question submits; otherwise moves to the
     * next question and restarts the countdown. Its button and the timer
     * reach it only before submission.
     */
    method Advance(accepted: bool) returns (posted: Option<Submission>)
      requires Valid() && quiz.Some? && !submitted
      modifies this`current, this`timeLeft, this`score, this`submitted
      ensures Valid()
      ensures old(current) == |quiz.value| - 1 ==>
        && current == old(current) && timeLeft == old(timeLeft)
        && posted == Some(Submission(quizId.value, participantName, Score(quiz.value, answers, SlotName), |quiz.value|))
        && submitted == accepted
        && score == (if accepted then Score(quiz.value, answers, SlotName) else old(score))
      ensures old(current) < |quiz.value| - 1 ==>
        && current == old(current) + 1 && timeLeft == SecondsPerQuestion
        && posted == None && submitted == old(submitted) && score == old(score)
    {
      if current == |quiz.value| - 1 {
        var sub := SubmitExam(accepted);
        posted := Some(sub);
      } else {
        current := current + 1;
        timeLeft := SecondsPerQuestion;
        posted := None;
      }
    }

    /**
     * One firing of the timer effect: nothing without a quiz or after
     * submission; at zero seconds left it advances as the Next button would;
     * otherwise it counts down one second.
     */
    method Tick(accepted: bool) returns (posted: Option<Submission>)
      requires Valid()
      modifies this`current, this`timeLeft, this`score, this`submitted
      ensures Valid()
      ensures quiz == None || old(submitted) ==> unchanged(this) && posted == None
      ensures quiz.Some? && !old(submitted) && old(timeLeft) > 0 ==>
        && timeLeft == old(timeLeft) - 1 && current == old(current)
        && !submitted && score == old(score) && posted == None
      ensures quiz.Some? && !old(submitted) && old(timeLeft) == 0 && old(current) < |quiz.value| - 1 ==>
        && current == old(current) + 1 && timeLeft == SecondsPerQuestion
        && !submitted && score == old(score) && posted == None
      ensures quiz.Some? && !old(submitted) && old(timeLeft) == 0 && old(current) == |quiz.value| - 1 ==>
        && current == old(current) && timeLeft == 0
        && posted == Some(Submission(quizId.value, participantName, Score(quiz.value, answers, SlotName), |quiz.value|))
        && submitted == accepted
        && score == (if accepted then Score(quiz.value, answers, SlotName) else old(score))
    {
      if quiz == None || submitted {
        return None;
      }
      if timeLeft == 0 {
        posted := Advance(accepted);
      } else {
        timeLeft := timeLeft - 1;
        posted := None;
      }
    }

    /** Whether question i is rendered. */
    predicate IsShown(i: nat)
      reads this
    {
      submitted || i == current
    }

    /**
     * The questions on screen: only the current one while the exam runs,
     * all of them once it is submitted.
     */
    function ShownQuestions(): (shown: set<nat>)
      reads this
      requires Valid() && quiz.Some?
      ensures !submitted ==> shown == {current}
      ensures submitted ==> forall i: nat :: i in shown <==> i < |quiz.value|
    {
      set i: nat | i < |quiz.value| && IsShown(i)
    }

    /** The status class of the option in `slot` of question idx. */
    function OptionStatus(idx: nat, slot: string): (m: Mark)
      reads this
      requires Valid() && quiz.Some? && idx < |quiz.value| && slot in Slots
      ensures submitted ==> (m == Correct <==> Field(quiz.value[idx], slot) == CorrectValue(quiz.value[idx], SlotName))
      ensures submitted ==> (m == Wrong <==> AnswerAt(answers, idx) == Field(quiz.value[idx], slot) && Field(quiz.value[idx], slot) != CorrectValue(quiz.value[idx], SlotName))
      ensures submitted ==> m != Selected
      ensures !submitted ==> (m == Selected <==> AnswerAt(answers, idx) == Field(quiz.value[idx], slot))
      ensures !submitted ==> m == Plain || m == Selected
    {
      SlotOptionMark(quiz.value, answers, submitted, idx, slot)
    }
  }
}

/** Two runs of the timed exam on a one-question quiz, driven through the session's methods. */
module PlayScenarios {
  import opened Options
  import opened Quiz
  import opened Play

  function OneQuestion(): seq<Question> {
    [Question(1, "Pick B", "A", "B", "C", "D", "opt2")]
  }

  /** Answering B and pressing "Submit Final Exam" scores 1 out of 1. */
  method AnsweredAndSubmitted() {
    var s := new TimedSession();
    s.EditJoinForm("Ada", Some(7));
    var joined := s.Join(Some(OneQuestion()));
    assert joined && s.current == 0 && s.timeLeft == 30;
    s.Select(0, "B");
    var posted := s.Advance(true);
    assert s.answers == map[0 := "B"];
    assert Score(OneQuestion(), s.answers, SlotName) == 1;
    assert s.submitted && s.score == 1;
    assert posted == Some(Submission(7, "Ada", 1, 1));
  }

  /** Letting the countdown run out without answering scores 0 out of 1. */
  method TimedOut() {
    var s := new TimedSession();
    s.EditJoinForm("Ada", Some(7));
    var joined := s.Join(Some(OneQuestion()));
    var n := 0;
    while n < 30
      invariant 0 <= n <= 30
      invariant s.Valid() && s.quiz == Some(OneQuestion())
      invariant s.timeLeft == 30 - n && !s.submitted && s.answers == map[]
      invariant s.participantName == "Ada" && s.quizId == Some(7)
    {
      var _ := s.Tick(true);
      n := n + 1;
    }
    var posted := s.Tick(true);
    assert Score(OneQuestion(), map[], SlotName) == 0;
    assert s.submitted && s.score == 0;
    assert posted == Some(Submission(7, "Ada", 0, 1));
  }
}
