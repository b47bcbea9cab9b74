/**
 * The instructor dashboard: the list of one's quizzes (toggle active status,
 * delete), the question editor of one quiz, and the results panel.
 *
 * Server replies are parameters: a fetched body is an Option (None when the
 * request failed), and the outcome of a status switch or a delete is a
 * boolean. The confirmation dialog before a delete is a boolean too.
 */
module Dashboard {
  import opened Options

  // ---------------------------------------------------------------------
  // Question editing
  // ---------------------------------------------------------------------

  /**
   * A question in the editor. Questions loaded from the server are expected
   * to arrive without isLocalOnly, which reads as false; questions added in
   * the editor have it true.
   */
  datatype EditQuestion = EditQuestion(
    qno: int,
    question: string,
    opt1: string, opt2: string, opt3: string, opt4: string,
    correctOpt: string,
    quizId: int,
    isLocalOnly: bool)

  /** The fields the editor's inputs change. */
  datatype Field = QuestionText | Opt1 | Opt2 | Opt3 | Opt4 | CorrectOpt

  function Get(q: EditQuestion, f: Field): string {
    match f
    case QuestionText => q.question
    case Opt1 => q.opt1
    case Opt2 => q.opt2
    case Opt3 => q.opt3
    case Opt4 => q.opt4
    case CorrectOpt => q.correctOpt
  }

  /** `{ ...q, [field]: value }`: one field replaced, everything else kept. */
  function WithField(q: EditQuestion, f: Field, value: string): (r: EditQuestion)
    ensures Get(r, f) == value
    ensures forall g :: g != f ==> Get(r, g) == Get(q, g)
    ensures r.qno == q.qno && r.quizId == q.quizId && r.isLocalOnly == q.isLocalOnly
  {
    match f
    case QuestionText => q.(question := value)
    case Opt1 => q.(opt1 := value)
    case Opt2 => q.(opt2 := value)
    case Opt3 => q.(opt3 := value)
    case Opt4 => q.(opt4 := value)
    case CorrectOpt => q.(correctOpt := value)
  }

  /** `Math.max(...qs.map(q => q.qno))` for a non-empty list. */
  function MaxQno(qs: seq<EditQuestion>): (m: int)
    requires |qs| > 0
    ensures forall i :: 0 <= i < |qs| ==> qs[i].qno <= m
    ensures exists i :: 0 <= i < |qs| && qs[i].qno == m
  {
    if |qs| == 1 then qs[0].qno
    else
      var rest := MaxQno(qs[1..]);
      assert forall i :: 1 <= i < |qs| ==> qs[i] == qs[1..][i - 1];
      if qs[0].qno >= rest then qs[0].qno else rest
  }

  /**
   * The number a new question gets: one more than the largest number in the
   * list, or 1 for an empty list. It exceeds every number in the list.
   */
  function NextQno(qs: seq<EditQuestion>): (n: int)
    ensures forall i :: 0 <= i < |qs| ==> qs[i].qno < n
    ensures |qs| == 0 ==> n == 1
    ensures |qs| > 0 ==> exists i :: 0 <= i < |qs| && qs[i].qno == n - 1
  {
    if |qs| > 0 then MaxQno(qs) + 1 else 1
  }

  /** The blank question "Add Question" appends. */
  function BlankQuestion(qno: int, quizId: int): EditQuestion {
    EditQuestion(qno, "", "", "", "", "", "opt1", quizId, true)
  }

  /** `qs.filter((_, i) => i !== index)`: the list without position index. */
  function RemoveAt<T>(qs: seq<T>, index: nat): (r: seq<T>)
    requires index < |qs|
    ensures |r| == |qs| - 1
    ensures forall j :: 0 <= j < index ==> r[j] == qs[j]
    ensures forall j :: index <= j < |r| ==> r[j] == qs[j + 1]
  {
    qs[..index] + qs[index + 1..]
  }

  /** The quiz settings shown above the questions. */
  datatype QuizInfo = QuizInfo(quizId: int, quizTitle: string, duration: string, status: string, createdBy: string)

  /** The body of the edit-preview request. */
  datatype LoadedQuiz = LoadedQuiz(info: QuizInfo, questions: seq<EditQuestion>)

  /** The quiz settings as sent on save, with the status as a boolean. */
  datatype SavedQuiz = SavedQuiz(quizId: int, quizTitle: string, duration: string, status: bool, createdBy: string)

  /** The body of the save request. */
  datatype SavePayload = SavePayload(quiz: SavedQuiz, questions: seq<EditQuestion>, questionNos: seq<int>)

  /** `toLowerCase` on the ASCII letters. */
  function LowerChar(c: char): char {
    if 'A' <= c <= 'Z' then (c as int + 32) as char else c
  }

  function ToLower(s: string): (r: string)
    ensures |r| == |s|
    ensures forall i :: 0 <= i < |s| ==> r[i] == LowerChar(s[i])
  {
    if s == [] then [] else [LowerChar(s[0])] + ToLower(s[1..])
  }

  /** `String(status).toLowerCase() === "true"`. */
  predicate StatusFlag(status: string) {
    ToLower(status) == "true"
  }

  /**
   * The status string reads as true exactly when it is the word "true" in
   * any mix of upper and lower case.
   */
  lemma StatusFlagIsCaseInsensitiveTrue(status: string)
    ensures StatusFlag(status) <==>
      && |status| == 4
      && status[0] in "tT" && status[1] in "rR" && status[2] in "uU" && status[3] in "eE"
  {
  }

  /** A question as sent on save: local-only questions go with number 0. */
  function SavedQuestion(q: EditQuestion, quizId: int): EditQuestion {
    q.(qno := if q.isLocalOnly then 0 else q.qno, quizId := quizId)
  }

  /** The save request built from the editor's state. */
  function BuildPayload(info: QuizInfo, quizId: int, qs: seq<EditQuestion>, deleted: seq<int>): (p: SavePayload)
    ensures p.quiz.quizId == quizId && p.quiz.status == StatusFlag(info.status)
    ensures p.quiz.quizTitle == info.quizTitle && p.quiz.duration == info.duration && p.quiz.createdBy == info.createdBy
    ensures |p.questions| == |qs|
    ensures forall i :: 0 <= i < |qs| ==>
      && p.questions[i].qno == (if qs[i].isLocalOnly then 0 else qs[i].qno)
      && p.questions[i].quizId == quizId
      && p.questions[i].isLocalOnly == qs[i].isLocalOnly
      && forall f :: Get(p.questions[i], f) == Get(qs[i], f)
    ensures p.questionNos == deleted
  {
    SavePayload(
      SavedQuiz(quizId, info.quizTitle, info.duration, StatusFlag(info.status), info.createdBy),
      seq(|qs|, i requires 0 <= i < |qs| => SavedQuestion(qs[i], quizId)),
      deleted)
  }

  /** The state of the question editor of one quiz. */
  class QuizEditor {
    const quizId: int
    var info: Option<QuizInfo>
    var questions: seq<EditQuestion>
    var originalQnos: set<int>
    var deletedQnos: seq<int>

    /**
     * Every number recorded for deletion, and every number of a question
     * that came from the server, is one the server sent on load.
     */
    ghost predicate Valid()
      reads this
    {
      && (forall i :: 0 <= i < |deletedQnos| ==> deletedQnos[i] in originalQnos)
      && (forall i :: 0 <= i < |questions| && !questions[i].isLocalOnly ==> questions[i].qno in originalQnos)
    }

    constructor (id: int)
      ensures Valid()
      ensures quizId == id && info == None && questions == [] && originalQnos == {} && deletedQnos == []
    {
      quizId, info, questions, originalQnos, deletedQnos := id, None, [], {}, [];
    }

    /**
     * The load effect: on a successful fetch takes the questions as loaded,
     * remembers their numbers and forgets earlier deletions; on a failed
     * fetch nothing changes.
     */
    method Load(response: Option<LoadedQuiz>)
      requires Valid()
      modifies this`info, this`questions, this`originalQnos, this`deletedQnos
      ensures Valid()
      ensures response == None ==> unchanged(this)
      ensures response.Some? ==>
        && info == Some(response.value.info)
        && questions == response.value.questions
        && (forall n :: n in originalQnos <==> exists i :: 0 <= i < |questions| && questions[i].qno == n)
        && deletedQnos == []
    {
      match response
      case None =>
      case Some(data) =>
        info := Some(data.info);
        questions := data.questions;
        originalQnos := set i | 0 <= i < |data.questions| :: data.questions[i].qno;
        deletedQnos := [];
    }

    /** handleQuestionChange: one field of one question changes. */
    method ChangeQuestion(index: nat, f: Field, value: string)
      requires Valid() && index < |questions|
      modifies this`questions
      ensures Valid()
      ensures |questions| == |old(questions)|
      ensures questions[index] == WithField(old(questions)[index], f, value)
      ensures forall j :: 0 <= j < |questions| && j != index ==> questions[j] == old(questions)[j]
    {
      questions := questions[index := WithField(questions[index], f, value)];
    }

    /**
     * addNewQuestion: appends one blank, local-only question numbered above
     * every question in the list.
     */
    method AddQuestion()
      requires Valid()
      modifies this`questions
      ensures Valid()
      ensures questions == old(questions) + [BlankQuestion(NextQno(old(questions)), quizId)]
      ensures forall i :: 0 <= i < |old(questions)| ==> old(questions)[i].qno < questions[|questions| - 1].qno
    {
      questions := questions + [BlankQuestion(NextQno(questions), quizId)];
    }

    /**
     * handleDeleteQuestion, called with the number and position of a
     * question: unless the user cancels, removes that position and, when the
     * question came from the server and its number was loaded, records the
     * number for deletion on save.
     */
    method DeleteQuestion(qno: int, index: nat, confirmed: bool)
      requires Valid() && index < |questions|
      modifies this`questions, this`deletedQnos
      ensures Valid()
      ensures !confirmed ==> unchanged(this)
      ensures confirmed ==> questions == RemoveAt(old(questions), index)
      ensures confirmed && !old(questions)[index].isLocalOnly && qno in originalQnos ==>
        deletedQnos == old(deletedQnos) + [qno]
      ensures !(confirmed && !old(questions)[index].isLocalOnly && qno in originalQnos) ==>
        deletedQnos == old(deletedQnos)
    {
      if !confirmed {
        return;
      }
      if !questions[index].isLocalOnly && qno in originalQnos {
        deletedQnos := deletedQnos + [qno];
      }
      questions := RemoveAt(questions, index);
    }

    /**
     * handleSave's request body. While the settings are null the handler fails
     * reading their status and sends nothing. Every question number sent is
     * 0 or one the server gave, and so is every number listed for deletion.
     */
    method SaveRequest() returns (p: Option<SavePayload>)
      requires Valid()
      ensures p.Some? <==> info.Some?
      ensures p.Some? ==> p.value == BuildPayload(info.value, quizId, questions, deletedQnos)
      ensures p.Some? ==> forall i :: 0 <= i < |p.value.questions| ==>
        p.value.questions[i].qno == 0 || p.value.questions[i].qno in originalQnos
      ensures p.Some? ==> forall i :: 0 <= i < |p.value.questionNos| ==> p.value.questionNos[i] in originalQnos
    {
      match info
      case None =>
        p := None;
      case Some(settings) =>
        p := Some(BuildPayload(settings, quizId, questions, deletedQnos));
    }
  }

  // ---------------------------------------------------------------------
  // Quiz list
  // ---------------------------------------------------------------------

  /** A quiz card. `status` is the string form of what the server sent. */
  datatype QuizSummary = QuizSummary(quizId: int, quizTitle: string, duration: string, status: string)

  /** A card shows "Active" when its status reads "true". */
  predicate IsActive(q: QuizSummary) {
    q.status == "true"
  }

  function ToggledStatus(status: string): string {
    if status == "true" then "false" else "true"
  }

  /**
   * The list after a successful status switch: each quiz with the id has its
   * status flipped between "true" and "false", every other quiz is kept.
   */
  function ToggleQuiz(qs: seq<QuizSummary>, id: int): (r: seq<QuizSummary>)
    ensures |r| == |qs|
    ensures forall i :: 0 <= i < |qs| && qs[i].quizId == id ==>
      && r[i] == qs[i].(status := r[i].status)
      && (IsActive(r[i]) <==> !IsActive(qs[i]))
      && (r[i].status == "true" || r[i].status == "false")
    ensures forall i :: 0 <= i < |qs| && qs[i].quizId != id ==> r[i] == qs[i]
  {
    seq(|qs|, i requires 0 <= i < |qs| =>
      if qs[i].quizId == id then qs[i].(status := ToggledStatus(qs[i].status)) else qs[i])
  }

  /** Switching twice restores a list whose statuses are all "true" or "false". */
  lemma ToggleTwice(qs: seq<QuizSummary>, id: int)
    requires forall i :: 0 <= i < |qs| ==> qs[i].status == "true" || qs[i].status == "false"
    ensures ToggleQuiz(ToggleQuiz(qs, id), id) == qs
  {
  }

  /** `qs.filter(q => q.quizId !== id)`. */
  function RemoveQuiz(qs: seq<QuizSummary>, id: int): (r: seq<QuizSummary>)
    ensures |r| <= |qs|
    ensures forall q :: q in r <==> q in qs && q.quizId != id
  {
    if qs == [] then []
    else (if qs[0].quizId == id then [] else [qs[0]]) + RemoveQuiz(qs[1..], id)
  }

  /** Removal works piecewise, so the kept quizzes stay in their order. */
  lemma {:induction false} RemoveQuizConcat(a: seq<QuizSummary>, b: seq<QuizSummary>, id: int)
    ensures RemoveQuiz(a + b, id) == RemoveQuiz(a, id) + RemoveQuiz(b, id)
  {
    if a != [] {
      assert (a + b)[1..] == a[1..] + b;
      RemoveQuizConcat(a[1..], b, id);
    } else {
      assert a + b == b;
    }
  }

  /** The number of quizzes with the id. */
  function CountId(qs: seq<QuizSummary>, id: int): nat {
    if qs == [] then 0 else (if qs[0].quizId == id then 1 else 0) + CountId(qs[1..], id)
  }

  /** Exactly the quizzes with the id are removed. */
  lemma {:induction false} RemoveQuizLength(qs: seq<QuizSummary>, id: int)
    ensures |RemoveQuiz(qs, id)| == |qs| - CountId(qs, id)
  {
    if qs != [] {
      RemoveQuizLength(qs[1..], id);
    }
  }

  /** The dashboard's list of the user's quizzes. */
  class QuizList {
    var quizzes: seq<QuizSummary>

    constructor ()
      ensures quizzes == []
    {
      quizzes := [];
    }

    /** fetchUserQuizzes: a successful reply replaces the list. */
    method Reload(response: Option<seq<QuizSummary>>)
      modifies this
      ensures quizzes == if response.Some? then response.value else old(quizzes)
    {
      if response.Some? {
        quizzes := response.value;
      }
    }

    /** handleToggleStatus: the list changes only when the server switched. */
    method ToggleStatus(id: int, ok: bool)
      modifies this
      ensures quizzes == if ok then ToggleQuiz(old(quizzes), id) else old(quizzes)
    {
      if ok {
        quizzes := ToggleQuiz(quizzes, id);
      }
    }

    /**
     * handleDeleteQuiz: nothing is sent when the user cancels, and the list
     * changes only when the server deleted.
     */
    method DeleteQuiz(id: int, confirmed: bool, ok: bool)
      modifies this
      ensures quizzes == if confirmed && ok then RemoveQuiz(old(quizzes), id) else old(quizzes)
    {
      if !confirmed {
        return;
      }
      if ok {
        quizzes := RemoveQuiz(quizzes, id);
      }
    }
  }

  // ---------------------------------------------------------------------
  // Results panel
  // ---------------------------------------------------------------------

  /** One participant's recorded result. */
  datatype ResultRow = ResultRow(name: string, score: int, outOf: int)

  /** The results endpoint answers with a list or with a single record. */
  datatype ResultsResponse = ResultList(rows: seq<ResultRow>) | SingleResult(row: ResultRow)

  /** `Array.isArray(data) ? data : [data]`. */
  function NormalizeResults(data: ResultsResponse): (rows: seq<ResultRow>)
    ensures data.ResultList? ==> rows == data.rows
    ensures data.SingleResult? ==> rows == [data.row]
    ensures forall r :: r in rows <==> (if data.ResultList? then r in data.rows else r == data.row)
  {
    match data
    case ResultList(rs) => rs
    case SingleResult(row) => [row]
  }

  /** Normalizing an already normalized list changes nothing. */
  lemma NormalizeIdempotent(data: ResultsResponse)
    ensures NormalizeResults(ResultList(NormalizeResults(data))) == NormalizeResults(data)
  {
  }

  /** The results panel of one quiz. */
  class ResultsPanel {
    var results: seq<ResultRow>

    constructor ()
      ensures results == []
    {
      results := [];
    }

    /** The fetch effect: a successful reply replaces the (empty) list. */
    method Receive(response: Option<ResultsResponse>)
      modifies this
      ensures results == if response.Some? then NormalizeResults(response.value) else old(results)
    {
      if response.Some? {
        results := NormalizeResults(response.value);
      }
    }
  }
}
