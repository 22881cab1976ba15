/**
 * The quiz editor: a loaded quiz, a composition buffer and an optional index
 * of the question being edited. Saving validates the buffer, then appends or
 * updates at that index; every successful mutation replaces the local quiz
 * with the one the server answers with, or with a fresh fetch.
 */
module EditQuiz {
  import opened JsValues
  import opened QuizModel
  import opened Requests

  /** `quizData`: the quiz as last loaded or answered by the server, with local edits of its details. */
  datatype Quiz = Quiz(
    title: string,
    duration: Input,
    numberOfQuestions: Input,
    reward: Input,
    maxParticipants: Input,
    questions: seq<Question>,
    status: string)

  const InitialQuiz := Quiz("", Number(0), Number(0), Number(0), Number(0), [], "active")

  /** The inputs `handleQuizDataChange` serves in the editor. */
  const DetailNames: seq<string> := ["title", "duration", "reward", "maxParticipants", "status"]

  const FetchErrorMessage := "Failed to fetch quiz data. Please try again."

  // ---------------------------------------------------------------------------
  // Validation before any request

  /** Why the buffer is refused before any request is sent. */
  datatype QuestionError = EmptyQuestionText | EmptyOption

  /** `options.some(option => !option.trim())`. */
  function SomeBlank(options: seq<string>): (r: bool)
    ensures r <==> exists i :: 0 <= i < |options| && IsBlank(options[i])
  {
    if options == [] then false
    else
      assert forall i :: 1 <= i < |options| ==> options[i] == options[1..][i - 1];
      IsBlank(options[0]) || SomeBlank(options[1..])
  }

  /** The two checks `saveQuestion` makes first: question text, then every option, each non-blank once trimmed. */
  function CheckQuestion(q: Question): (r: Option<QuestionError>)
    ensures r == Some(EmptyQuestionText) <==> IsBlank(q.question)
    ensures r == Some(EmptyOption) <==>
              !IsBlank(q.question) && exists i :: 0 <= i < |q.options| && IsBlank(q.options[i])
    ensures r == None <==>
              !IsBlank(q.question) && forall i :: 0 <= i < |q.options| ==> !IsBlank(q.options[i])
  {
    if IsBlank(q.question) then Some(EmptyQuestionText)
    else if SomeBlank(q.options) then Some(EmptyOption)
    else None
  }

  /**
   * The buffer just after a reset cannot be saved, and neither can one whose
   * text is only whitespace, whatever its options.
   */
  lemma ResetBufferIsRefused(q: Question)
    requires Trim(q.question) == ""
    ensures CheckQuestion(q) == Some(EmptyQuestionText)
    ensures CheckQuestion(EmptyQuestion) == Some(EmptyQuestionText)
  {
    BlankIffTrimEmpty(q.question);
  }

  // ---------------------------------------------------------------------------
  // Requests

  /** `questionData`: the buffer with its correct answer passed through `parseInt`. */
  datatype QuestionBody = QuestionBody(question: string, options: seq<string>, correctAnswer: Option<int>)

  function BodyOf(q: Question): QuestionBody
  {
    QuestionBody(q.question, q.options, ParseIntOf(q.correctAnswer))
  }

  /** The metadata-only body of `updateQuizDetails`. */
  datatype Details = Details(title: string, duration: Option<int>, reward: Option<int>, maxParticipants: Option<int>)

  datatype Request =
    | UpdateQuestion(index: nat, body: QuestionBody)
    | AppendQuestion(body: QuestionBody)
    | RemoveQuestion(index: nat)
    | UpdateDetails(details: Details)
    | UpdateStatus(status: string)

  /** The body `updateQuizDetails` sends: the title and three details through `parseInt`. */
  function DetailsOf(q: Quiz): (p: Details)
    ensures p.title == q.title
    ensures p.duration == ParseIntOf(q.duration) && p.reward == ParseIntOf(q.reward)
    ensures p.maxParticipants == ParseIntOf(q.maxParticipants)
  {
    Details(q.title, ParseIntOf(q.duration), ParseIntOf(q.reward), ParseIntOf(q.maxParticipants))
  }

  /** The details request never carries the questions, the target count or the status. */
  lemma DetailsIgnoreQuestions(q: Quiz, questions: seq<Question>, target: Input, status: string)
    ensures DetailsOf(q.(questions := questions, numberOfQuestions := target, status := status)) == DetailsOf(q)
  {
  }

  /** What a fetch of the quiz gives: the quiz, or a failure that may be a 404. */
  datatype FetchReply = Fetched(quiz: Quiz) | FetchFailed(notFound: bool)

  /** The editor component's state. */
  class QuizEditor {
    var quizData: Quiz
    var currentQuestion: Question
    var editingQuestionIndex: Option<nat>
    var loading: bool
    var error: Option<string>

    /** Mounting: without an id the editor shows an error at once; with one it waits for the fetch. */
    constructor (hasId: bool)
      ensures quizData == InitialQuiz && currentQuestion == EmptyQuestion && editingQuestionIndex == None
      ensures hasId ==> loading && error == None
      ensures !hasId ==> !loading && error == Some("Quiz ID is missing")
    {
      quizData := InitialQuiz;
      currentQuestion := EmptyQuestion;
      editingQuestionIndex := None;
      if hasId {
        loading, error := true, None;
      } else {
        loading, error := false, Some("Quiz ID is missing");
      }
    }

    /**
     * `fetchQuizData`: a fetched quiz replaces the local one; a failure keeps
     * it, shows the error, and leaves for `/quiz`, the quiz list, on a 404.
     */
    method FetchQuizData(reply: FetchReply) returns (backToList: bool)
      modifies this
      ensures !loading
      ensures currentQuestion == old(currentQuestion) && editingQuestionIndex == old(editingQuestionIndex)
      ensures reply.Fetched? ==> quizData == reply.quiz && error == None && !backToList
      ensures reply.FetchFailed? ==>
                quizData == old(quizData) && error == Some(FetchErrorMessage) && backToList == reply.notFound
    {
      loading, error := true, None;
      if reply.Fetched? {
        quizData := reply.quiz;
        backToList := false;
      } else {
        error := Some(FetchErrorMessage);
        backToList := reply.notFound;
      }
      loading := false;
    }

    /** `handleQuizDataChange`: the detail input `name` now holds `value`. */
    method HandleQuizDataChange(name: string, value: string)
      requires name in DetailNames
      modifies this
      ensures currentQuestion == old(currentQuestion) && editingQuestionIndex == old(editingQuestionIndex)
      ensures name == "title" ==> quizData == old(quizData).(title := value)
      ensures name == "duration" ==> quizData == old(quizData).(duration := Input.Text(value))
      ensures name == "reward" ==> quizData == old(quizData).(reward := Input.Text(value))
      ensures name == "maxParticipants" ==> quizData == old(quizData).(maxParticipants := Input.Text(value))
      ensures name == "status" ==> quizData == old(quizData).(status := value)
    {
      if name == "title" {
        quizData := quizData.(title := value);
      } else if name == "duration" {
        quizData := quizData.(duration := Input.Text(value));
      } else if name == "reward" {
        quizData := quizData.(reward := Input.Text(value));
      } else if name == "maxParticipants" {
        quizData := quizData.(maxParticipants := Input.Text(value));
      } else {
        quizData := quizData.(status := value);
      }
    }

    /** `handleQuestionChange` on the question text input. */
    method HandleQuestionChange(value: string)
      modifies this
      ensures quizData == old(quizData) && editingQuestionIndex == old(editingQuestionIndex)
      ensures currentQuestion == old(currentQuestion).(question := value)
    {
      currentQuestion := currentQuestion.(question := value);
    }

    /** The Correct radio button of option `index`. */
    method SelectCorrectAnswer(index: nat)
      modifies this
      ensures quizData == old(quizData) && editingQuestionIndex == old(editingQuestionIndex)
      ensures currentQuestion == old(currentQuestion).(correctAnswer := Number(index))
    {
      currentQuestion := currentQuestion.(correctAnswer := Number(index));
    }

    /** `handleOptionChange`: only option `index` of the buffer changes. */
    method HandleOptionChange(index: nat, value: string)
      requires index < |currentQuestion.options|
      modifies this
      ensures quizData == old(quizData) && editingQuestionIndex == old(editingQuestionIndex)
      ensures currentQuestion == old(currentQuestion).(options := old(currentQuestion.options)[index := value])
    {
      currentQuestion := currentQuestion.(options := currentQuestion.options[index := value]);
    }

    /** `startEditingQuestion`: question `index` is copied into the buffer and marked as the one being edited. */
    method StartEditingQuestion(index: nat)
      requires index < |quizData.questions|
      modifies this
      ensures quizData == old(quizData)
      ensures currentQuestion == quizData.questions[index]
      ensures editingQuestionIndex == Some(index)
    {
      var question := quizData.questions[index];
      currentQuestion := Question(question.question, question.options, question.correctAnswer);
      editingQuestionIndex := Some(index);
    }

    /**
     * `saveQuestion`: a blank question text or option sends nothing and
     * changes nothing. Otherwise the buffer goes out as an update at the
     * edited index, or as an append when no question is being edited; an
     * answer carrying a quiz replaces the local quiz wholesale, resets the
     * buffer and clears the index, and any other outcome changes nothing.
     */
    method SaveQuestion(reply: Reply<Option<Quiz>>) returns (sent: Option<Request>)
      modifies this
      ensures loading == old(loading) && error == old(error)
      ensures CheckQuestion(old(currentQuestion)).Some? ==> sent == None
      ensures CheckQuestion(old(currentQuestion)).None? && old(editingQuestionIndex).Some? ==>
                sent == Some(UpdateQuestion(old(editingQuestionIndex).value, BodyOf(old(currentQuestion))))
      ensures CheckQuestion(old(currentQuestion)).None? && old(editingQuestionIndex).None? ==>
                sent == Some(AppendQuestion(BodyOf(old(currentQuestion))))
      ensures sent.Some? && reply.Ok? && reply.body.Some? ==>
                quizData == reply.body.value && currentQuestion == EmptyQuestion && editingQuestionIndex == None
      ensures !(sent.Some? && reply.Ok? && reply.body.Some?) ==>
                quizData == old(quizData) && currentQuestion == old(currentQuestion)
                && editingQuestionIndex == old(editingQuestionIndex)
    {
      var check := CheckQuestion(currentQuestion);
      if check.Some? {
        return None;
      }
      var body := BodyOf(currentQuestion);
      if editingQuestionIndex.Some? {
        sent := Some(UpdateQuestion(editingQuestionIndex.value, body));
      } else {
        sent := Some(AppendQuestion(body));
      }
      if reply.Ok? && reply.body.Some? {
        quizData := reply.body.value;
        currentQuestion := EmptyQuestion;
        editingQuestionIndex := None;
      }
    }

    /**
     * `deleteQuestion`: asks the server to delete question `index`; on success
     * the quiz is fetched again rather than spliced locally, on failure nothing changes.
     */
    method DeleteQuestion(index: nat, deleted: bool, refetch: FetchReply) returns (sent: Request, backToList: bool)
      modifies this
      ensures sent == RemoveQuestion(index)
      ensures currentQuestion == old(currentQuestion) && editingQuestionIndex == old(editingQuestionIndex)
      ensures deleted && refetch.Fetched? ==> quizData == refetch.quiz && error == None && !loading && !backToList
      ensures deleted && refetch.FetchFailed? ==>
                quizData == old(quizData) && error == Some(FetchErrorMessage) && backToList == refetch.notFound
      ensures !deleted ==>
                quizData == old(quizData) && error == old(error) && loading == old(loading) && !backToList
    {
      sent := RemoveQuestion(index);
      backToList := false;
      if deleted {
        backToList := FetchQuizData(refetch);
      }
    }

    /** `updateQuizDetails`: sends the metadata only, then leaves for `/quiz` on success. */
    method UpdateQuizDetails(ok: bool) returns (sent: Request, backToList: bool)
      ensures sent == UpdateDetails(DetailsOf(quizData))
      ensures backToList == ok
    {
      sent := UpdateDetails(DetailsOf(quizData));
      backToList := ok;
    }

    /**
     * `updateQuizStatus`: asks for the other status (`inactive` when `active`,
     * `active` otherwise); on success the quiz is fetched again.
     */
    method UpdateQuizStatus(ok: bool, refetch: FetchReply) returns (sent: Request, backToList: bool)
      modifies this
      ensures sent == UpdateStatus(NextStatus(old(quizData.status)))
      ensures currentQuestion == old(currentQuestion) && editingQuestionIndex == old(editingQuestionIndex)
      ensures ok && refetch.Fetched? ==> quizData == refetch.quiz && error == None && !backToList
      ensures ok && refetch.FetchFailed? ==>
                quizData == old(quizData) && error == Some(FetchErrorMessage) && backToList == refetch.notFound
      ensures !ok ==> quizData == old(quizData) && error == old(error) && loading == old(loading) && !backToList
    {
      sent := UpdateStatus(NextStatus(quizData.status));
      backToList := false;
      if ok {
        backToList := FetchQuizData(refetch);
      }
    }
  }
}
