/** The saved-queries list of `src/components/QueriesTab.tsx`: a case-insensitive
    search over a query's prompt and generated SQL, then the loading, empty or list
    rendering. */
module QueriesTab {
  import opened Strings
  import opened Seqs
  import opened Records

  const NoQueriesTitle := "No queries found"
  const NoQueriesHint := "You haven't saved any queries yet"

  /** The search test: the lower-cased term occurs in the lower-cased prompt or SQL.
      The empty term matches every query; a term longer than both texts matches none. */
  predicate QueryMatches(term: string, q: Query)
    ensures term == "" ==> QueryMatches(term, q)
    ensures QueryMatches(term, q) ==> |term| <= |q.prompt| || |term| <= |q.sqlResult|
  {
    ContainsIgnoringCase(q.prompt, term) || ContainsIgnoringCase(q.sqlResult, term)
  }

  function QueryMatcher(term: string): Query -> bool {
    q => QueryMatches(term, q)
  }

  /** `filteredQueries`: an empty term keeps the list; any other term keeps exactly the
      matching queries, in their original order. */
  function FilterQueries(queries: seq<Query>, term: string): (r: seq<Query>)
    ensures term == "" ==> r == queries
    ensures IsSubsequence(r, queries)
    ensures forall q :: q in r <==> q in queries && QueryMatches(term, q)
  {
    if term == "" then
      EmptyTermMatchesAll(queries);
      FilterIsSubsequence(queries, QueryMatcher(""));
      queries
    else
      FilterIsSubsequence(queries, QueryMatcher(term));
      Filter(queries, QueryMatcher(term))
  }

  /** The empty term occurs in every text, so the guard on an empty term only skips a
      filter that would keep everything anyway. */
  lemma EmptyTermMatchesAll(queries: seq<Query>)
    ensures forall q :: q in queries ==> QueryMatches("", q)
    ensures Filter(queries, QueryMatcher("")) == queries
  {
    forall q | q in queries ensures QueryMatches("", q) {
      ContainsEmpty(ToLower(q.prompt));
    }
    FilterKeepsAll(queries, QueryMatcher(""));
  }

  /** Searching the result again with the same term changes nothing. */
  lemma FilterQueriesIdempotent(queries: seq<Query>, term: string)
    ensures FilterQueries(FilterQueries(queries, term), term) == FilterQueries(queries, term)
  {
    if term != "" {
      FilterIdempotent(queries, QueryMatcher(term));
    }
  }

  /** The letter case of the term does not matter. */
  lemma FilterQueriesIgnoresTermCase(queries: seq<Query>, term: string)
    ensures FilterQueries(queries, ToUpper(term)) == FilterQueries(queries, term)
  {
    LowerOfUpper(term);
    if term != "" {
      FilterCongruent(queries, QueryMatcher(ToUpper(term)), QueryMatcher(term));
    }
  }

  /** The rendering: the spinner first, then the empty state, then the cards. */
  function QueriesView(queries: seq<Query>, loading: bool, term: string): (v: ListView<Query>)
    ensures loading <==> v.Spinner?
    ensures v.Cards? ==> v.items != [] && v.items == FilterQueries(queries, term)
    ensures v.EmptyState? ==> v.title == NoQueriesTitle
  {
    var filtered := FilterQueries(queries, term);
    if loading then Spinner
    else if |filtered| == 0 then EmptyState(NoQueriesTitle, if term != "" then RetrySearchHint else NoQueriesHint)
    else Cards(filtered)
  }

  /** Once loaded, the empty state appears exactly when no query matches; it asks for a
      different term when one was given and reports an empty history otherwise. */
  lemma EmptyStateMeaning(queries: seq<Query>, term: string)
    ensures QueriesView(queries, false, term).EmptyState?
        <==> forall q :: q in queries ==> !QueryMatches(term, q)
    ensures QueriesView(queries, false, term).EmptyState? ==>
              QueriesView(queries, false, term).hint == (if term == "" then NoQueriesHint else RetrySearchHint)
    ensures term == "" ==> (QueriesView(queries, false, term).EmptyState? <==> queries == [])
  {
    var filtered := FilterQueries(queries, term);
    if filtered != [] {
      assert filtered[0] in filtered;
    }
    if term == "" && queries != [] {
      EmptyTermMatchesAll(queries);
      assert queries[0] in queries;
    }
  }
}
