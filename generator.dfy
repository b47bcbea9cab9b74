/**
 * The AI generator page's untimed exam. A topic is sent to the generation
 * service, the returned questions are shown all at once, the user picks
 * answers, and a submission is accepted only when every question has one.
 * Here `correctOpt` holds the correct answer's text itself. "New Exam" drops
 * the question list and shows the topic form again.
 *
 * The generation request's reply is a parameter: Some(questions) on success,
 * None for every failure.
 */
module Generator {
  import opened Options
  import opened Quiz

  /** Every question of the list has an entry in the answer map. */
  predicate AllAnswered(qs: seq<Question>, answers: Answers) {
    forall i :: 0 <= i < |qs| ==> i in answers
  }

  /** The number of answered questions, `Object.keys(userAnswers).length`. */
  function AnsweredCount(answers: Answers): nat {
    |answers.Keys|
  }

  /**
   * A set of indices below n has at most n elements, and exactly n precisely
   * when it holds every index below n.
   */
  lemma {:induction false} IndicesBelow(keys: set<nat>, n: nat)
    requires forall k :: k in keys ==> k < n
    ensures |keys| <= n
    ensures |keys| == n <==> forall i :: 0 <= i < n ==> i in keys
  {
    if n == 0 {
      assert keys == {};
    } else {
      var rest := keys - {n - 1};
      IndicesBelow(rest, n - 1);
      if n - 1 in keys {
        assert keys == rest + {n - 1};
        assert |keys| == |rest| + 1;
        if forall i :: 0 <= i < n - 1 ==> i in rest {
          assert forall i :: 0 <= i < n ==> i in keys;
        }
      } else {
        assert keys == rest;
      }
    }
  }

  /**
   * When every key of the answer map is a question index, the page's count
   * check (at least as many answers as questions) holds exactly when every
   * question is answered.
   */
  lemma CountCheckMeansAllAnswered(qs: seq<Question>, answers: Answers)
    requires forall i :: i in answers ==> i < |qs|
    ensures AnsweredCount(answers) >= |qs| <==> AllAnswered(qs, answers)
  {
    IndicesBelow(answers.Keys, |qs|);
  }

  class UntimedSession {
    var topic: string
    var quiz: Option<seq<Question>>
    var answers: Answers
    var submitted: bool
    var score: nat

    /**
     * While a quiz is shown, every answer belongs to one of its questions,
     * and once it is submitted every question is answered and the score is
     * the literal-text tally of the frozen answers.
     */
    ghost predicate Valid()
      reads this
    {
      match quiz
      case None => true
      case Some(qs) =>
        && (forall i :: i in answers ==> i < |qs|)
        && (submitted ==> AllAnswered(qs, answers) && score == Score(qs, answers, LiteralText))
    }

    /** A freshly loaded page. */
    constructor ()
      ensures Valid()
      ensures topic == "" && quiz == None && answers == map[] && !submitted && score == 0
    {
      topic, quiz, answers, submitted, score := "", None, map[], false, 0;
    }

    /** Typing into the topic field, which is shown only while no quiz is. */
    method EditTopic(text: string)
      requires Valid() && quiz == None
      modifies this`topic
      ensures Valid() && topic == text
    {
      topic := text;
    }

    /**
     * handleGenerate: with an empty topic nothing happens; otherwise the
     * submitted flag and the answers are cleared before the request, and the
     * reply, if any, becomes the quiz. The score is left as it was.
     */
    method Generate(fetched: Option<seq<Question>>) returns (started: bool)
      requires Valid() && quiz == None
      modifies this`quiz, this`answers, this`submitted
      ensures Valid()
      ensures topic == "" ==> unchanged(this) && !started
      ensures topic != "" ==> !submitted && answers == map[] && quiz == fetched
      ensures started <==> topic != "" && fetched.Some?
    {
      if topic == "" {
        return false;
      }
      submitted := false;
      answers := map[];
      if fetched.Some? {
        quiz := fetched;
        started := true;
      } else {
        started := false;
      }
    }

    /**
     * handleSelectOption: after submission nothing changes; before it only
     * the entry of that question is overwritten.
     */
    method Select(idx: nat, optionText: string)
      requires Valid() && quiz.Some? && idx < |quiz.value|
      modifies this`answers
      ensures Valid()
      ensures old(submitted) ==> answers == old(answers)
      ensures !old(submitted) ==> answers == old(answers)[idx := optionText]
    {
      if submitted {
        return;
      }
      answers := answers[idx := optionText];
    }

    /**
     * handleSubmitExam: refused, with nothing changed, while fewer answers
     * than questions are recorded; otherwise the literal-text tally becomes
     * the score and the exam is submitted. The button is shown only before
     * submission.
     */
    method Submit() returns (accepted: bool)
      requires Valid() && quiz.Some? && !submitted
      modifies this`score, this`submitted
      ensures Valid()
      ensures accepted <==> AllAnswered(quiz.value, answers)
      ensures !accepted ==> unchanged(this)
      ensures accepted ==> submitted && score == Score(quiz.value, answers, LiteralText)
    {
      var answeredCount := AnsweredCount(answers);
      CountCheckMeansAllAnswered(quiz.value, answers);
      if answeredCount < |quiz.value| {
        return false;
      }
      var currentScore := TallyScore(quiz.value, answers, LiteralText);
      score := currentScore;
      submitted := true;
      accepted := true;
    }

    /**
     * The "New Exam" button, shown only after submission: drops the quiz.
     * The answers, flag and score stay until the next generation clears them.
     */
    method NewExam()
      requires Valid() && quiz.Some? && submitted
      modifies this`quiz
      ensures Valid() && quiz == None
    {
      quiz := None;
    }

    /** The status class of option text `opt` of question idx. */
    function OptionStatus(idx: nat, opt: string): (m: Mark)
      reads this
      requires Valid() && quiz.Some? && idx < |quiz.value|
      ensures submitted ==> (m == Correct <==> opt == quiz.value[idx].correctOpt)
      ensures submitted ==> (m == Wrong <==> AnswerAt(answers, idx) == Str(opt) && opt != quiz.value[idx].correctOpt)
      ensures submitted ==> m != Selected
      ensures !submitted ==> (m == Selected <==> AnswerAt(answers, idx) == Str(opt))
      ensures !submitted ==> m == Plain || m == Selected
    {
      TextOptionMark(quiz.value, answers, submitted, idx, opt)
    }
  }
}

/** A run of the untimed exam: refused while incomplete, scored, then reset. */
module GeneratorScenarios {
  import opened Options
  import opened Quiz
  import opened Generator

  function TwoQuestions(): seq<Question> {
    [Question(1, "2 + 2", "3", "4", "5", "6", "4"),
     Question(2, "Capital of France", "Rome", "Paris", "Oslo", "Bern", "Paris")]
  }

  method AnswerBothThenStartOver() {
    var s := new UntimedSession();
    s.EditTopic("Basics");
    var started := s.Generate(Some(TwoQuestions()));
    s.Select(0, "4");
    var accepted := s.Submit();
    assert !AllAnswered(TwoQuestions(), s.answers) by { assert 1 !in s.answers; }
    assert !accepted && !s.submitted;
    s.Select(1, "Paris");
    accepted := s.Submit();
    assert AllAnswered(TwoQuestions(), s.answers);
    assert accepted && s.submitted;
    assert IsCorrectAt(TwoQuestions(), s.answers, LiteralText, 0);
    assert IsCorrectAt(TwoQuestions(), s.answers, LiteralText, 1);
    TallyExtremes(TwoQuestions(), s.answers, LiteralText, 2);
    assert s.score == 2;
    s.Select(1, "Rome");
    assert s.answers == map[0 := "4", 1 := "Paris"];
    s.NewExam();
    assert s.quiz == None;
  }
}
