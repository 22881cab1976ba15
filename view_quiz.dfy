/**
 * The quiz list: quizzes fetched from the server, narrowed by a
 * case-insensitive title search, with per-row status toggling and deletion.
 */
module ViewQuiz {
  import opened JsValues
  import opened Lists
  import opened QuizModel
  import opened Requests

  /** The part of a listed quiz the list screen acts on. */
  datatype QuizSummary = QuizSummary(id: string, title: string, status: string)

  /** A quiz row is shown when its title contains the term, ignoring case. */
  predicate Shown(q: QuizSummary, term: string)
  {
    Matches(q.title, term)
  }

  function Matcher(term: string): QuizSummary -> bool
  {
    q => Shown(q, term)
  }

  /**
   * `filteredQuizzes`: the quizzes whose title matches the term, in server
   * order; nothing at all when the state does not hold an array.
   */
  function FilteredQuizzes(quizzes: JsArray<QuizSummary>, term: string): (r: seq<QuizSummary>)
    ensures quizzes.NotArray? ==> r == []
    ensures quizzes.Array? ==> SubseqOf(r, quizzes.items)
    ensures quizzes.Array? ==> forall q :: q in r <==> q in quizzes.items && Shown(q, term)
    ensures quizzes.Array? ==>
              forall q :: multiset(r)[q] == if Shown(q, term) then multiset(quizzes.items)[q] else 0
  {
    match quizzes
    case NotArray => []
    case Array(items) =>
      FilterIsSubseq(items, Matcher(term));
      FilterCounts(items, Matcher(term));
      Filter(items, Matcher(term))
  }

  /** With an empty search box every quiz is listed, in server order. */
  lemma EmptyTermShowsAll(quizzes: seq<QuizSummary>)
    ensures FilteredQuizzes(Array(quizzes), "") == quizzes
  {
    FilterKeepsAll(quizzes, Matcher(""));
  }

  /** The search box ignores case: a term and its lower-case form list the same rows. */
  lemma SearchIgnoresCase(quizzes: JsArray<QuizSummary>, term: string)
    ensures FilteredQuizzes(quizzes, term) == FilteredQuizzes(quizzes, ToLower(term))
  {
    if quizzes.Array? {
      forall q | q in quizzes.items
        ensures Matcher(term)(q) == Matcher(ToLower(term))(q)
      {
        MatchesIgnoresTermCase(q.title, term);
      }
      FilterSameTest(quizzes.items, Matcher(term), Matcher(ToLower(term)));
    }
  }

  /** Typing more characters only removes rows. */
  lemma LongerTermListsFewer(quizzes: JsArray<QuizSummary>, term: string, more: string)
    ensures forall q :: q in FilteredQuizzes(quizzes, term + more) ==> q in FilteredQuizzes(quizzes, term)
  {
    forall q | q in FilteredQuizzes(quizzes, term + more)
      ensures q in FilteredQuizzes(quizzes, term)
    {
      MatchesNarrows(q.title, term, more);
    }
  }

  /** What the list screen asks of the server. */
  datatype Request = SetStatus(quizId: string, status: string) | Delete(quizId: string)

  /** What the list fetch gives: `data.quizzes`, absent, or a failure. */
  datatype ListReply = Listed(quizzes: Option<JsArray<QuizSummary>>) | ListFailed

  /** The list state a fetch leaves: `data.quizzes || []`, or empty on failure. */
  function AfterFetch(reply: ListReply): (r: JsArray<QuizSummary>)
    ensures reply.ListFailed? ==> r == Array([])
    ensures reply.Listed? && reply.quizzes.None? ==> r == Array([])
    ensures reply.Listed? && reply.quizzes.Some? ==> r == reply.quizzes.value
  {
    match reply
    case ListFailed => Array([])
    case Listed(quizzes) => if quizzes.Some? then quizzes.value else Array([])
  }

  /** The list screen's state. */
  class QuizList {
    var quizzes: JsArray<QuizSummary>
    var searchTerm: string

    constructor ()
      ensures quizzes == Array([]) && searchTerm == ""
    {
      quizzes := Array([]);
      searchTerm := "";
    }

    /** `fetchQuizzes`. */
    method FetchQuizzes(reply: ListReply)
      modifies this
      ensures quizzes == AfterFetch(reply) && searchTerm == old(searchTerm)
    {
      quizzes := AfterFetch(reply);
    }

    method SetSearchTerm(term: string)
      modifies this
      ensures searchTerm == term && quizzes == old(quizzes)
    {
      searchTerm := term;
    }

    /**
     * `handleStatusChange`: asks for the other status of the row (`inactive`
     * when `active`, `active` otherwise) and fetches the list again on success.
     */
    method HandleStatusChange(quizId: string, currentStatus: string, ok: bool, refetch: ListReply)
      returns (sent: Request)
      modifies this
      ensures sent == SetStatus(quizId, NextStatus(currentStatus))
      ensures searchTerm == old(searchTerm)
      ensures ok ==> quizzes == AfterFetch(refetch)
      ensures !ok ==> quizzes == old(quizzes)
    {
      sent := SetStatus(quizId, NextStatus(currentStatus));
      if ok {
        FetchQuizzes(refetch);
      }
    }

    /** Delete after confirmation: nothing is sent without it; the list is fetched again on success. */
    method HandleDelete(quizId: string, confirmed: bool, ok: bool, refetch: ListReply)
      returns (sent: Option<Request>)
      modifies this
      ensures sent == (if confirmed then Some(Delete(quizId)) else None)
      ensures searchTerm == old(searchTerm)
      ensures confirmed && ok ==> quizzes == AfterFetch(refetch)
      ensures !(confirmed && ok) ==> quizzes == old(quizzes)
    {
      if !confirmed {
        return None;
      }
      sent := Some(Delete(quizId));
      if ok {
        FetchQuizzes(refetch);
      }
    }
  }
}
