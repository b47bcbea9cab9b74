/** The usual optional-value wrapper. */
module Options {
  datatype Option<+T> = None | Some(value: T)
}

/**
 * Question records and the scoring rule shared by the timed play page and the
 * AI generator page. Both pages keep an answer map from question index to the
 * text of the chosen option, and both count, in a loop, the questions whose
 * recorded answer is strictly equal (`===`) to the question's correct answer.
 * They differ in how `correctOpt` is read: the play page treats it as the
 * name of an option slot (`"opt2"`), the generator as the literal answer text.
 */
module Quiz {
  import opened Options

  /** A question as the server sends it. */
  datatype Question = Question(
    qno: int,
    question: string,
    opt1: string, opt2: string, opt3: string, opt4: string,
    correctOpt: string)

  /**
   * The JavaScript values that the strict equality in the scoring loop and in
   * the option marks compares: a missing property or map entry is `undefined`,
   * `qno` is a number, every other field is a string.
   */
  datatype JsValue = Undefined | Str(s: string) | Num(n: int)

  /** Question index to the text of the chosen option; no key means unanswered. */
  type Answers = map<nat, string>

  /** How a question's `correctOpt` names its correct answer. */
  datatype Convention =
    | SlotName     // the name of an option field, e.g. "opt2" (play page)
    | LiteralText  // the correct answer's text itself (generator page)

  /** The four option slots, in display order. */
  const Slots: seq<string> := ["opt1", "opt2", "opt3", "opt4"]

  /** Property lookup `q[key]` on a question record. */
  function Field(q: Question, key: string): JsValue {
    if key == "qno" then Num(q.qno)
    else if key == "question" then Str(q.question)
    else if key == "opt1" then Str(q.opt1)
    else if key == "opt2" then Str(q.opt2)
    else if key == "opt3" then Str(q.opt3)
    else if key == "opt4" then Str(q.opt4)
    else if key == "correctOpt" then Str(q.correctOpt)
    else Undefined
  }

  /** The value a recorded answer must equal for the question to score. */
  function CorrectValue(q: Question, conv: Convention): JsValue {
    match conv
    case SlotName => Field(q, q.correctOpt)
    case LiteralText => Str(q.correctOpt)
  }

  /** `userAnswers[i]`. */
  function AnswerAt(answers: Answers, i: nat): JsValue {
    if i in answers then Str(answers[i]) else Undefined
  }

  predicate IsCorrectAt(qs: seq<Question>, answers: Answers, conv: Convention, i: nat)
    requires i < |qs|
  {
    AnswerAt(answers, i) == CorrectValue(qs[i], conv)
  }

  /**
   * The scoring loop after its first n rounds: how many of the questions
   * 0 .. n-1 hold a correct answer.
   */
  function Tally(qs: seq<Question>, answers: Answers, conv: Convention, n: nat): (r: nat)
    requires n <= |qs|
    ensures r <= n
  {
    if n == 0 then 0
    else Tally(qs, answers, conv, n - 1) + (if IsCorrectAt(qs, answers, conv, n - 1) then 1 else 0)
  }

  /** A full tally means every question is right; a zero tally means none is. */
  lemma {:induction false} TallyExtremes(qs: seq<Question>, answers: Answers, conv: Convention, n: nat)
    requires n <= |qs|
    ensures Tally(qs, answers, conv, n) == n <==> forall i :: 0 <= i < n ==> IsCorrectAt(qs, answers, conv, i)
    ensures Tally(qs, answers, conv, n) == 0 <==> forall i :: 0 <= i < n ==> !IsCorrectAt(qs, answers, conv, i)
  {
    if n > 0 {
      TallyExtremes(qs, answers, conv, n - 1);
    }
  }

  /** The final score of a question list under an answer map. */
  function Score(qs: seq<Question>, answers: Answers, conv: Convention): nat {
    Tally(qs, answers, conv, |qs|)
  }

  /** The indices below n whose answer is correct. */
  ghost function CorrectIndices(qs: seq<Question>, answers: Answers, conv: Convention, n: nat): set<nat>
    requires n <= |qs|
  {
    set i: nat | i < n && IsCorrectAt(qs, answers, conv, i)
  }

  /** Raising the bound by one adds index n - 1 exactly when it is correct. */
  lemma CorrectIndicesStep(qs: seq<Question>, answers: Answers, conv: Convention, n: nat)
    requires 0 < n <= |qs|
    ensures CorrectIndices(qs, answers, conv, n)
      == CorrectIndices(qs, answers, conv, n - 1) + (if IsCorrectAt(qs, answers, conv, n - 1) then {n - 1} else {})
  {
    var before := CorrectIndices(qs, answers, conv, n - 1);
    var added: set<nat> := if IsCorrectAt(qs, answers, conv, n - 1) then {n - 1} else {};
    forall i: nat | i in CorrectIndices(qs, answers, conv, n) ensures i in before + added {
      if i < n - 1 { assert i in before; }
    }
  }

  /** Adding an index not yet in a set grows it by exactly one. */
  lemma CardinalityStep(before: set<nat>, k: nat, hit: bool)
    requires k !in before
    ensures |before + (if hit then {k} else {})| == |before| + (if hit then 1 else 0)
  {
  }

  /** The tally is the number of correctly answered indices. */
  lemma {:induction false} TallyCountsCorrectIndices(qs: seq<Question>, answers: Answers, conv: Convention, n: nat)
    requires n <= |qs|
    ensures Tally(qs, answers, conv, n) == |CorrectIndices(qs, answers, conv, n)|
  {
    if n == 0 {
      assert CorrectIndices(qs, answers, conv, 0) == {};
    } else {
      TallyCountsCorrectIndices(qs, answers, conv, n - 1);
      CorrectIndicesStep(qs, answers, conv, n);
      var hit := IsCorrectAt(qs, answers, conv, n - 1);
      var before := CorrectIndices(qs, answers, conv, n - 1);
      assert n - 1 !in before;
      CardinalityStep(before, n - 1, hit);
    }
  }

  /**
   * An unanswered question scores exactly when its correct value is
   * `undefined` too. Under the literal convention that never happens; under
   * the slot convention it happens exactly when `correctOpt` names no field.
   */
  lemma UnansweredScoresOnlyAgainstUndefined(qs: seq<Question>, answers: Answers, conv: Convention, i: nat)
    requires i < |qs| && i !in answers
    ensures IsCorrectAt(qs, answers, conv, i) <==> CorrectValue(qs[i], conv) == Undefined
    ensures conv == LiteralText ==> !IsCorrectAt(qs, answers, conv, i)
    ensures conv == SlotName && qs[i].correctOpt in Slots ==> !IsCorrectAt(qs, answers, conv, i)
  {
  }

  /** The scoring loop of both pages: walks the questions once, counting matches. */
  method TallyScore(qs: seq<Question>, answers: Answers, conv: Convention) returns (score: nat)
    ensures score == Score(qs, answers, conv)
    ensures score <= |qs|
  {
    score := 0;
    var idx := 0;
    while idx < |qs|
      invariant idx <= |qs|
      invariant score == Tally(qs, answers, conv, idx)
    {
      if AnswerAt(answers, idx) == CorrectValue(qs[idx], conv) {
        score := score + 1;
      }
      idx := idx + 1;
    }
  }

  /** The status class an option is drawn with. */
  datatype Mark = Plain | Selected | Correct | Wrong

  /**
   * The status-class rule both pages use: after submission the correct option
   * is marked correct and a selected wrong one wrong; before it only the
   * selected option is marked.
   */
  function OptionMark(submitted: bool, isSelected: bool, isCorrect: bool): (m: Mark)
    ensures submitted ==> (m == Correct <==> isCorrect)
    ensures submitted ==> (m == Wrong <==> isSelected && !isCorrect)
    ensures submitted ==> m != Selected
    ensures !submitted ==> (m == Selected <==> isSelected) && m != Correct && m != Wrong
  {
    if submitted then
      if isCorrect then Correct
      else if isSelected && !isCorrect then Wrong
      else Plain
    else if isSelected then Selected
    else Plain
  }

  /** Mark of the option in `slot` of question i on the play page. */
  function SlotOptionMark(qs: seq<Question>, answers: Answers, submitted: bool, i: nat, slot: string): (m: Mark)
    requires i < |qs| && slot in Slots
    ensures submitted ==> (m == Correct <==> Field(qs[i], slot) == Field(qs[i], qs[i].correctOpt))
    ensures submitted ==> (m == Wrong <==> AnswerAt(answers, i) == Field(qs[i], slot) && Field(qs[i], slot) != Field(qs[i], qs[i].correctOpt))
    ensures submitted ==> m != Selected
    ensures submitted && m == Wrong ==> !IsCorrectAt(qs, answers, SlotName, i)
    ensures !submitted ==> (m == Selected <==> AnswerAt(answers, i) == Field(qs[i], slot))
    ensures !submitted ==> m == Plain || m == Selected
  {
    var optValue := Field(qs[i], slot);
    OptionMark(submitted, AnswerAt(answers, i) == optValue, optValue == Field(qs[i], qs[i].correctOpt))
  }

  /** Mark of option text `opt` of question i on the generator page. */
  function TextOptionMark(qs: seq<Question>, answers: Answers, submitted: bool, i: nat, opt: string): (m: Mark)
    requires i < |qs|
    ensures submitted ==> (m == Correct <==> opt == qs[i].correctOpt)
    ensures submitted ==> (m == Wrong <==> AnswerAt(answers, i) == Str(opt) && opt != qs[i].correctOpt)
    ensures submitted ==> m != Selected
    ensures submitted && m == Wrong ==> !IsCorrectAt(qs, answers, LiteralText, i)
    ensures !submitted ==> (m == Selected <==> AnswerAt(answers, i) == Str(opt))
    ensures !submitted ==> m == Plain || m == Selected
  {
    OptionMark(submitted, AnswerAt(answers, i) == Str(opt), opt == qs[i].correctOpt)
  }
}
