/**
 * The quiz results screen: every result the server holds, narrowed by a
 * case-insensitive search on the user id or on the quiz title when there is one.
 */
module QuizManagement {
  import opened JsValues
  import opened Lists

  /** A quiz result: the user, and the title of the populated quiz when the quiz and its title exist. */
  datatype QuizResult = QuizResult(user: string, quizTitle: Option<string>)

  /** A title that is present and not empty (`result.quizId?.title`, truthy). */
  predicate HasTitle(r: QuizResult)
  {
    r.quizTitle.Some? && r.quizTitle.value != ""
  }

  /** A result is kept when its user matches, or it has a title and the title matches. */
  predicate Kept(r: QuizResult, term: string)
  {
    Matches(r.user, term) || (HasTitle(r) && Matches(r.quizTitle.value, term))
  }

  function Keeper(term: string): QuizResult -> bool
  {
    r => Kept(r, term)
  }

  /** `filteredResults`: the kept results in server order. */
  function FilteredResults(results: seq<QuizResult>, term: string): (r: seq<QuizResult>)
    ensures SubseqOf(r, results)
    ensures forall x :: x in r <==> x in results && Kept(x, term)
    ensures forall x :: multiset(r)[x] == if Kept(x, term) then multiset(results)[x] else 0
  {
    FilterIsSubseq(results, Keeper(term));
    FilterCounts(results, Keeper(term));
    Filter(results, Keeper(term))
  }

  /** With an empty search box every result is listed. */
  lemma EmptyTermKeepsAll(results: seq<QuizResult>)
    ensures FilteredResults(results, "") == results
  {
    FilterKeepsAll(results, Keeper(""));
  }

  /** A result whose quiz is missing, or has no title, can be found by its user alone. */
  lemma UntitledFoundByUserOnly(results: seq<QuizResult>, term: string, r: QuizResult)
    requires r in results && !HasTitle(r)
    ensures r in FilteredResults(results, term) <==> Matches(r.user, term)
  {
  }

  /** Typing more characters only removes results. */
  lemma LongerTermKeepsFewer(results: seq<QuizResult>, term: string, more: string)
    ensures forall x :: x in FilteredResults(results, term + more) ==> x in FilteredResults(results, term)
  {
    forall x | x in FilteredResults(results, term + more)
      ensures x in FilteredResults(results, term)
    {
      MatchesNarrows(x.user, term, more);
      if HasTitle(x) {
        MatchesNarrows(x.quizTitle.value, term, more);
      }
    }
  }

  /** What the results fetch gives: the body (absent when null), or a failure. */
  datatype ResultsReply = Loaded(body: Option<seq<QuizResult>>) | LoadFailed

  const LoadErrorMessage := "Failed to load quiz results. Please try again later."

  /** The results screen's state. */
  class ResultsPage {
    var results: seq<QuizResult>
    var loading: bool
    var error: Option<string>
    var searchTerm: string

    constructor ()
      ensures results == [] && loading && error == None && searchTerm == ""
    {
      results, loading, error, searchTerm := [], true, None, "";
    }

    /** `fetchResults`: the loaded results (`data || []`), or the error; loading ends either way. */
    method FetchResults(reply: ResultsReply)
      modifies this
      ensures !loading && searchTerm == old(searchTerm)
      ensures reply.Loaded? ==> results == OrEmpty(reply.body) && error == old(error)
      ensures reply.LoadFailed? ==> results == old(results) && error == Some(LoadErrorMessage)
    {
      if reply.Loaded? {
        results := OrEmpty(reply.body);
      } else {
        error := Some(LoadErrorMessage);
      }
      loading := false;
    }

    method SetSearchTerm(term: string)
      modifies this
      ensures searchTerm == term
      ensures results == old(results) && loading == old(loading) && error == old(error)
    {
      searchTerm := term;
    }
  }

  function OrEmpty(body: Option<seq<QuizResult>>): seq<QuizResult>
  {
    if body.Some? then body.value else []
  }
}
