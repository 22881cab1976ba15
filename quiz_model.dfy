/**
 * The quiz entities shared by the quiz builder, the quiz editor and the quiz
 * list: a multiple-choice question and the status toggle.
 */
module QuizModel {
  import opened JsValues

  /**
   * A question as component state holds it: its text, its options and the
   * index of the correct option (a number, or the text a number input gave).
   */
  datatype Question = Question(question: string, options: seq<string>, correctAnswer: Input)

  /** The composition buffer's reset value: empty text, four empty options, answer 0. */
  const EmptyQuestion := Question("", ["", "", "", ""], Number(0))

  /** The status a toggle asks the server for. */
  function NextStatus(status: string): (r: string)
    ensures r == "inactive" <==> status == "active"
    ensures r == "active" <==> status != "active"
  {
    if status == "active" then "inactive" else "active"
  }

  /** Toggling twice gives back `active` and `inactive`; any other status ends up `inactive`. */
  lemma ToggleTwice(status: string)
    ensures status == "active" || status == "inactive" ==> NextStatus(NextStatus(status)) == status
    ensures status != "active" ==> NextStatus(NextStatus(status)) == "inactive"
  {
  }
}
