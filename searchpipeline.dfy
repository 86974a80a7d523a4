/** `performSearch`: the queries of one request run against the search provider
    strictly one after another, a progress event written before each, the first
    `MAX_SEARCH_RESULTS` filtered results of each kept, and the aggregate formatted
    into the augmented question. */
module SearchPipeline {
  import opened Outcomes
  import opened SearchLogic
  import opened Messages

  /** The search provider as this model sees it: the raw response it returns for a
      query text (before the Qwant filter), or a failure. */
  type SearchProvider = string -> Outcome<SearchResponse>

  /** `results.slice(0, MAX_SEARCH_RESULTS)` */
  function Top(rs: seq<SearchResult>): (r: seq<SearchResult>)
    ensures |r| <= MaxSearchResults
    ensures |r| <= |rs| && r == rs[..|r|]
    ensures |r| == MaxSearchResults || r == rs
  {
    if |rs| <= MaxSearchResults then rs else rs[..MaxSearchResults]
  }

  /** The queries `performSearch` runs: the whole text in `search` mode, the trimmed
      comma-separated pieces in `deepsearch` mode. The handler derives its own
      queries the same way before joining them (`Server.GeneratedQueries`). */
  function QueriesFor(command: string, text: string): (queries: seq<string>)
    ensures |queries| >= 1
  {
    if command == "search" then [text] else SplitQueries(text)
  }

  /** The progress event written before the search for `queries[i]`. */
  function ProgressEvent(queries: seq<string>, i: nat): (e: Event)
    requires i < |queries|
    ensures e.SearchStatus? && e.messageIndex.None? && e.status.queries == [queries[i]]
  {
    SearchStatus(CreateSearchMessage([queries[i]], false, |queries|, i + 1), None)
  }

  /** The progress events written before the first `n` searches. */
  function ProgressEvents(queries: seq<string>, n: nat): (events: seq<Event>)
    requires n <= |queries|
    ensures |events| == n
  {
    seq(n, i requires 0 <= i < n => ProgressEvent(queries, i))
  }

  /** The state of a run after some queries: how many searches were issued and the
      aggregate so far, or the failure that stopped the run. */
  datatype Run = Run(issued: nat, gathered: Outcome<seq<SearchResult>>)

  /** Running the first `n` queries in order; the first failure stops the run. */
  function RunQueries(queries: seq<string>, search: SearchProvider, n: nat): (run: Run)
    requires n <= |queries|
    ensures run.issued <= n
  {
    if n == 0 then Run(0, Ok([]))
    else
      var prev := RunQueries(queries, search, n - 1);
      if prev.gathered.Failed? then prev
      else match search(queries[n - 1])
        case Failed(status) => Run(n, Failed(status))
        case Ok(response) => Run(n, Ok(prev.gathered.value + Top(DropQwantOnly(response.results))))
  }

  /** A run that has failed stays as it was whatever comes after. */
  lemma {:induction false} RunStopsAtFailure(queries: seq<string>, search: SearchProvider, n: nat, m: nat)
    requires n <= m <= |queries|
    requires RunQueries(queries, search, n).gathered.Failed?
    ensures RunQueries(queries, search, m) == RunQueries(queries, search, n)
  {
    if m > n {
      RunStopsAtFailure(queries, search, n, m - 1);
    }
  }

  /** A successful run issued every search and gathered at most three results per
      query; a failed run issued searches up to and including the first failing one
      and no further. */
  lemma {:induction false} RunOutcome(queries: seq<string>, search: SearchProvider, n: nat)
    requires n <= |queries|
    ensures var run := RunQueries(queries, search, n);
      run.issued <= n
      && (run.gathered.Ok? ==>
            run.issued == n
            && |run.gathered.value| <= MaxSearchResults * n
            && forall k :: 0 <= k < n ==> search(queries[k]).Ok?)
      && (run.gathered.Failed? ==>
            1 <= run.issued
            && search(queries[run.issued - 1]).Failed?
            && run.gathered.status == search(queries[run.issued - 1]).status
            && forall k :: 0 <= k < run.issued - 1 ==> search(queries[k]).Ok?)
  {
    if n > 0 {
      RunOutcome(queries, search, n - 1);
    }
  }

  /** The `for` loop of `performSearch`: each query in turn gets its progress event,
      then its search; the first `MAX_SEARCH_RESULTS` filtered results of each are
      appended to the aggregate. A failed search ends the loop. */
  method SearchEach(queries: seq<string>, search: SearchProvider)
    returns (events: seq<Event>, searched: seq<string>, allResults: Outcome<seq<SearchResult>>)
    ensures var run := RunQueries(queries, search, |queries|);
      events == ProgressEvents(queries, run.issued)
      && searched == queries[..run.issued]
      && allResults == run.gathered
  {
    var gathered: seq<SearchResult> := [];
    var totalQueries := |queries|;
    events, searched := [], [];
    var i := 0;
    while i < |queries|
      invariant 0 <= i <= |queries|
      invariant RunQueries(queries, search, i) == Run(i, Ok(gathered))
      invariant events == ProgressEvents(queries, i) && searched == queries[..i]
    {
      var currentQuery := queries[i];
      var currentProgress := i + 1;
      events := events + [SearchStatus(CreateSearchMessage([currentQuery], false, totalQueries, currentProgress), None)];
      assert events == ProgressEvents(queries, i + 1);
      assert queries[..i + 1] == queries[..i] + [currentQuery];
      searched := searched + [currentQuery];
      var fetched := search(currentQuery);
      if fetched.Failed? {
        allResults := Failed(fetched.status);
        RunStopsAtFailure(queries, search, i + 1, |queries|);
        return;
      }
      var searchResult, skipped := SearchQuery(fetched.value);
      gathered := gathered + Top(searchResult.results);
      i := i + 1;
    }
    assert queries[..i] == queries;
    allResults := Ok(gathered);
  }

  /** `performSearch(command, queryAI, commandContent, res)` with the query text of
      `queryAI` as `text`: the progress events it writes, the queries it sends to the
      search provider, and the augmented question or the failure that aborted it. */
  method PerformSearch(command: string, text: string, question: string, search: SearchProvider)
    returns (events: seq<Event>, searched: seq<string>, augmented: Outcome<string>)
    requires command == "search" || command == "deepsearch"
    ensures var queries := QueriesFor(command, text);
      var run := RunQueries(queries, search, |queries|);
      events == ProgressEvents(queries, run.issued)
      && searched == queries[..run.issued]
      && augmented == match run.gathered
                      case Ok(results) => Ok(FormatSearchResults(results, question))
                      case Failed(status) => Failed(status)
  {
    if command == "search" {
      var finalQuery := text;
      events := [SearchStatus(CreateSearchMessage([finalQuery], false, 1, 1), None)];
      assert events == ProgressEvents([finalQuery], 1);
      searched := [finalQuery];
      assert searched == [finalQuery][..1];
      var fetched := search(finalQuery);
      if fetched.Failed? {
        augmented := Failed(fetched.status);
        return;
      }
      var searchResult, skipped := SearchQuery(fetched.value);
      augmented := Ok(FormatSearchResults(Top(searchResult.results), question));
      assert RunQueries([finalQuery], search, 0) == Run(0, Ok([]));
      assert [] + Top(searchResult.results) == Top(searchResult.results);
    } else {
      var queries := SplitQueries(text);
      var allResults;
      events, searched, allResults := SearchEach(queries, search);
      augmented := match allResults
                   case Ok(results) => Ok(FormatSearchResults(results, question))
                   case Failed(status) => Failed(status);
    }
  }
}
