/**
 * The quiz builder: quiz details plus a question list that grows one question
 * at a time, never past the declared number of questions, from a composition
 * buffer of four options; and the count check and integer coercion done when
 * the quiz is submitted.
 */
module CreateQuiz {
  import opened JsValues
  import opened QuizModel
  import R = Requests

  /** `quizData`: the quiz being built. Numeric details start as numbers and become text once edited. */
  datatype Draft = Draft(
    title: string,
    duration: Input,
    numberOfQuestions: Input,
    reward: Input,
    maxParticipants: Input,
    questions: seq<Question>)

  const InitialDraft := Draft("", Number(0), Number(0), Number(0), Number(0), [])

  /** The inputs `handleQuizDataChange` serves. */
  const DetailNames: seq<string> := ["title", "duration", "numberOfQuestions", "reward", "maxParticipants"]

  /** `questions.length < numberOfQuestions`: the guard of `addQuestion`. */
  predicate HasRoom(d: Draft)
  {
    Below(|d.questions|, d.numberOfQuestions)
  }

  /** `questions.length >= numberOfQuestions`: the Add Question button is disabled. */
  predicate AddDisabled(d: Draft)
  {
    AtLeast(|d.questions|, d.numberOfQuestions)
  }

  /**
   * The button is disabled exactly when `addQuestion` would do nothing; a
   * target that is not a number leaves it enabled while pressing it does nothing.
   */
  lemma AddDisabledIffNoRoom(d: Draft)
    ensures NumberOf(d.numberOfQuestions).Some? ==> (AddDisabled(d) <==> !HasRoom(d))
    ensures NumberOf(d.numberOfQuestions).None? ==> !AddDisabled(d) && !HasRoom(d)
  {
  }

  /** One `addQuestion` with `buffer` in the composition fields: the draft and buffer after it. */
  function AddStep(d: Draft, buffer: Question): (Draft, Question)
  {
    if HasRoom(d) then (d.(questions := d.questions + [buffer]), EmptyQuestion) else (d, buffer)
  }

  /** The draft after Add Question was pressed once with each of `buffers` in the composition fields. */
  function AddAll(d: Draft, buffers: seq<Question>): Draft
    decreases |buffers|
  {
    if buffers == [] then d else AddAll(AddStep(d, buffers[0]).0, buffers[1..])
  }

  /** How many of `available` presses append, against the target `target` for a list of `have` questions. */
  function Appended(have: nat, target: Option<int>, available: nat): (m: nat)
    ensures m <= available
    ensures target.Some? && have <= target.value ==> have + m <= target.value
    ensures target.Some? && have + available <= target.value ==> m == available
  {
    if target.None? || target.value <= have then 0
    else if target.value - have < available then target.value - have
    else available
  }

  /**
   * Presses of Add Question append the buffers in order until the list
   * reaches the target, and nothing after that; no other detail changes.
   */
  lemma {:induction false} AddAllFillsToTarget(d: Draft, buffers: seq<Question>)
    ensures AddAll(d, buffers).(questions := d.questions) == d
    ensures AddAll(d, buffers).questions
         == d.questions + buffers[..Appended(|d.questions|, NumberOf(d.numberOfQuestions), |buffers|)]
    decreases |buffers|
  {
    var target := NumberOf(d.numberOfQuestions);
    if buffers != [] {
      var next := AddStep(d, buffers[0]).0;
      AddAllFillsToTarget(next, buffers[1..]);
      if HasRoom(d) {
        assert buffers[..1] + buffers[1..][..Appended(|next.questions|, target, |buffers| - 1)]
            == buffers[..Appended(|d.questions|, target, |buffers|)];
      }
    }
  }

  /** Through Add Question alone the list never grows past the declared number of questions. */
  lemma AddAllStaysWithinTarget(d: Draft, buffers: seq<Question>)
    requires NumberOf(d.numberOfQuestions).Some?
    requires |d.questions| <= NumberOf(d.numberOfQuestions).value
    ensures |AddAll(d, buffers).questions| <= NumberOf(d.numberOfQuestions).value
  {
    AddAllFillsToTarget(d, buffers);
  }

  /** The body of the create request: the draft with its numeric details passed through `parseInt`. */
  datatype QuizPayload = QuizPayload(
    title: string,
    duration: Option<int>,
    numberOfQuestions: Option<int>,
    reward: Option<int>,
    maxParticipants: Option<int>,
    questions: seq<Question>)

  const CreateFailed := "Failed to create quiz"

  /** What submitting does: alert that `expected` questions are needed, or send the create request. */
  datatype Submission = CountMismatch(expected: Input) | Create(payload: QuizPayload)

  /**
   * `handleSubmit`: the create request is sent only when the number of
   * questions is exactly `parseInt(numberOfQuestions)`; the four numeric
   * details are coerced with `parseInt` and title and questions go as they are.
   */
  function Submit(d: Draft): (r: Submission)
    ensures r.Create? <==> ParseIntOf(d.numberOfQuestions) == Some(|d.questions|)
    ensures r.CountMismatch? ==> r.expected == d.numberOfQuestions
    ensures r.Create? ==> r.payload.title == d.title && r.payload.questions == d.questions
    ensures r.Create? ==> r.payload.numberOfQuestions == Some(|d.questions|)
    ensures r.Create? ==>
              (r.payload.duration == ParseIntOf(d.duration)
               && r.payload.reward == ParseIntOf(d.reward)
               && r.payload.maxParticipants == ParseIntOf(d.maxParticipants))
  {
    if ParseIntOf(d.numberOfQuestions) != Some(|d.questions|) then
      CountMismatch(d.numberOfQuestions)
    else
      Create(QuizPayload(
        d.title,
        ParseIntOf(d.duration),
        ParseIntOf(d.numberOfQuestions),
        ParseIntOf(d.reward),
        ParseIntOf(d.maxParticipants),
        d.questions))
  }

  /**
   * With a target typed as a numeral `n`, a draft started below it can be
   * submitted exactly when Add Question was pressed at least as often as
   * questions were missing, and it then carries the first buffers in order.
   */
  lemma FilledDraftSubmits(d: Draft, buffers: seq<Question>, n: nat)
    requires d.numberOfQuestions.Text? && !IsBlank(d.numberOfQuestions.s)
    requires NumberOf(d.numberOfQuestions) == Some(n)
    requires |d.questions| <= n
    ensures Submit(AddAll(d, buffers)).Create? <==> |d.questions| + |buffers| >= n
    ensures |d.questions| + |buffers| >= n ==>
              Submit(AddAll(d, buffers)).payload.questions == d.questions + buffers[..n - |d.questions|]
  {
    ParseIntAgreesWithNumber(d.numberOfQuestions.s);
    FilledAfterPresses(d, buffers, n);
    SubmitWhenCounted(AddAll(d, buffers), n);
  }

  /** After the presses the target is unchanged and the list holds `n` questions exactly when enough presses were made. */
  lemma FilledAfterPresses(d: Draft, buffers: seq<Question>, n: nat)
    requires NumberOf(d.numberOfQuestions) == Some(n) && |d.questions| <= n
    ensures AddAll(d, buffers).numberOfQuestions == d.numberOfQuestions
    ensures |AddAll(d, buffers).questions| == n <==> |d.questions| + |buffers| >= n
    ensures |d.questions| + |buffers| >= n ==>
              AddAll(d, buffers).questions == d.questions + buffers[..n - |d.questions|]
  {
    var m := Appended(|d.questions|, Some(n), |buffers|);
    AddAllFillsToTarget(d, buffers);
    FilledCount(d.questions, buffers, m, n);
  }

  /** With a target that `parseInt` reads as `n`, a draft is submitted exactly when it holds `n` questions. */
  lemma SubmitWhenCounted(d: Draft, n: nat)
    requires ParseIntOf(d.numberOfQuestions) == Some(n)
    ensures Submit(d).Create? <==> |d.questions| == n
    ensures |d.questions| == n ==> Submit(d).payload.questions == d.questions
  {
  }

  lemma FilledCount(have: seq<Question>, buffers: seq<Question>, m: nat, n: nat)
    requires |have| <= n && m == Appended(|have|, Some(n), |buffers|)
    ensures |have + buffers[..m]| == n <==> |have| + |buffers| >= n
    ensures |have| + |buffers| >= n ==> m == n - |have|
  {
  }

  /**
   * A target left blank reads as 0 for Add Question (so the button is disabled
   * from the start) but as NaN for submit: such a draft can never be submitted.
   */
  lemma BlankTargetNeverSubmits(d: Draft)
    requires d.numberOfQuestions.Text? && IsBlank(d.numberOfQuestions.s)
    ensures AddDisabled(d) && !HasRoom(d)
    ensures Submit(d).CountMismatch?
  {
    BlankIsZeroButNaN(d.numberOfQuestions.s);
  }

  /** The builder component's state. */
  class QuizBuilder {
    var quizData: Draft
    var currentQuestion: Question

    /** The composition buffer always has four options. */
    ghost predicate Valid()
      reads this
    {
      |currentQuestion.options| == 4
    }

    constructor ()
      ensures Valid()
      ensures quizData == InitialDraft && currentQuestion == EmptyQuestion
    {
      quizData := InitialDraft;
      currentQuestion := EmptyQuestion;
    }

    /** `handleQuizDataChange`: the detail input `name` now holds the text `value`. */
    method HandleQuizDataChange(name: string, value: string)
      requires name in DetailNames
      modifies this
      ensures currentQuestion == old(currentQuestion)
      ensures name == "title" ==> quizData == old(quizData).(title := value)
      ensures name == "duration" ==> quizData == old(quizData).(duration := Text(value))
      ensures name == "numberOfQuestions" ==> quizData == old(quizData).(numberOfQuestions := Text(value))
      ensures name == "reward" ==> quizData == old(quizData).(reward := Text(value))
      ensures name == "maxParticipants" ==> quizData == old(quizData).(maxParticipants := Text(value))
    {
      if name == "title" {
        quizData := quizData.(title := value);
      } else if name == "duration" {
        quizData := quizData.(duration := Text(value));
      } else if name == "numberOfQuestions" {
        quizData := quizData.(numberOfQuestions := Text(value));
      } else if name == "reward" {
        quizData := quizData.(reward := Text(value));
      } else {
        quizData := quizData.(maxParticipants := Text(value));
      }
    }

    /** `handleQuestionChange`: the question text, or the correct answer as typed into its number input. */
    method HandleQuestionChange(name: string, value: string)
      requires name == "question" || name == "correctAnswer"
      requires Valid()
      modifies this
      ensures Valid()
      ensures quizData == old(quizData)
      ensures name == "question" ==> currentQuestion == old(currentQuestion).(question := value)
      ensures name == "correctAnswer" ==> currentQuestion == old(currentQuestion).(correctAnswer := Text(value))
    {
      if name == "question" {
        currentQuestion := currentQuestion.(question := value);
      } else {
        currentQuestion := currentQuestion.(correctAnswer := Text(value));
      }
    }

    /** `handleOptionChange`: only option `index` changes; the buffer keeps its four options. */
    method HandleOptionChange(index: nat, value: string)
      requires Valid() && index < 4
      modifies this
      ensures Valid()
      ensures quizData == old(quizData)
      ensures currentQuestion.question == old(currentQuestion.question)
      ensures currentQuestion.correctAnswer == old(currentQuestion.correctAnswer)
      ensures currentQuestion.options[index] == value
      ensures forall i :: 0 <= i < 4 && i != index ==> currentQuestion.options[i] == old(currentQuestion.options[i])
    {
      var newOptions := currentQuestion.options[index := value];
      currentQuestion := currentQuestion.(options := newOptions);
    }

    /**
     * `addQuestion`: with room left, the buffer goes at the end of the list,
     * unvalidated, and the buffer is reset; otherwise nothing changes.
     */
    method AddQuestion()
      requires Valid()
      modifies this
      ensures Valid()
      ensures (quizData, currentQuestion) == AddStep(old(quizData), old(currentQuestion))
      ensures old(HasRoom(quizData)) ==>
                quizData == old(quizData).(questions := old(quizData.questions) + [old(currentQuestion)])
                && currentQuestion == EmptyQuestion
      ensures !old(HasRoom(quizData)) ==> quizData == old(quizData) && currentQuestion == old(currentQuestion)
    {
      if HasRoom(quizData) {
        quizData := quizData.(questions := quizData.questions + [currentQuestion]);
        currentQuestion := EmptyQuestion;
      }
    }

    /**
     * `handleSubmit` with the create request's reply: the request goes out only
     * when the count matches; a reply carrying data moves to `/quiz`, the quiz list, and
     * a failure is alerted with the server's message or a fixed one.
     */
    method HandleSubmit(reply: R.Reply<bool>) returns (sent: Option<QuizPayload>, toQuizList: bool, failure: Option<string>)
      ensures sent.Some? <==> Submit(quizData).Create?
      ensures sent.Some? ==> sent.value == Submit(quizData).payload
      ensures toQuizList <==> sent.Some? && reply.Ok? && reply.body
      ensures failure.Some? <==> sent.Some? && reply.Failed?
      ensures failure.Some? ==> failure.value == OrElse(reply.message, CreateFailed)
    {
      sent, toQuizList, failure := None, false, None;
      var submission := Submit(quizData);
      if submission.CountMismatch? {
        return;
      }
      sent := Some(submission.payload);
      if reply.Failed? {
        failure := Some(OrElse(reply.message, CreateFailed));
      } else {
        toQuizList := reply.body;
      }
    }
  }
}
