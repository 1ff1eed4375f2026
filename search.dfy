/** The search slice: the last query, its result set over users, suppliers and API configs, the
    per-category counts and the status surface; plus the submit rule of the search form. */
module Search {
  import opened JsValues
  import opened Thunks
  import Text
  import Users
  import Suppliers

  /** The three result lists; an API config has the shape of a supplier record. */
  datatype Results = Results(users: seq<Users.User>, suppliers: seq<Suppliers.Supplier>, apiConfigs: seq<Suppliers.Supplier>)

  const NoResults := Results([], [], [])

  /** The body of `GET /search/?q=`: a success flag, an optional message, and the result set. */
  datatype SearchResponse = SearchResponse(
    success: bool, message: Option<string>, query: string, results: Results, counts: map<string, int>)

  const SearchFailed := "Search failed"

  /** performSearch: a body whose success flag is falsy is rejected like a failed call, with the
      body's message if truthy and "Search failed" otherwise; only a successful body is fulfilled. */
  function SettleSearch(resp: Response<SearchResponse>): (p: Phase<SearchResponse>)
    ensures !p.Pending?
    ensures p.Fulfilled? <==> resp.Ok? && resp.body.success
    ensures p.Fulfilled? ==> p.payload == resp.body
    ensures resp.Ok? && !resp.body.success ==> p.reason == RejectReason(resp.body.message, SearchFailed)
    ensures resp.Failed? ==> p.reason == RejectReason(resp.message, SearchFailed)
  {
    match resp
    case Ok(body) => if !body.success then Rejected(RejectReason(body.message, SearchFailed)) else Fulfilled(body)
    case Failed(message) => Settle(resp, SearchFailed)
  }

  datatype SearchState = SearchState(
    query: string,
    loading: bool,
    error: Option<string>,
    results: Results,
    counts: map<string, int>)

  function Initial(): SearchState {
    SearchState("", false, None, NoResults, map[])
  }

  datatype Action = ClearSearch | PerformSearch(Phase<SearchResponse>)

  /** The reducer as a function of the old state. */
  function Next(s: SearchState, a: Action): SearchState {
    match a
    case ClearSearch => s.(query := "", results := NoResults, counts := map[], error := None)
    case PerformSearch(Pending) => s.(loading := true, error := None)
    case PerformSearch(Fulfilled(r)) => s.(loading := false, query := r.query, results := r.results, counts := r.counts)
    case PerformSearch(Rejected(m)) => s.(loading := false, error := Some(m))
  }

  class SearchSlice {
    var query: string
    var loading: bool
    var error: Option<string>
    var results: Results
    var counts: map<string, int>

    function State(): SearchState
      reads this
    {
      SearchState(query, loading, error, results, counts)
    }

    constructor ()
      ensures State() == Initial()
    {
      query := "";
      loading := false;
      error := None;
      results := NoResults;
      counts := map[];
    }

    method Dispatch(a: Action)
      modifies this
      ensures State() == Next(old(State()), a)
    {
      match a
      case ClearSearch =>
        query := "";
        results := NoResults;
        counts := map[];
        error := None;
      case PerformSearch(Pending) =>
        loading := true;
        error := None;
      case PerformSearch(Fulfilled(r)) =>
        loading := false;
        query := r.query;
        results := r.results;
        counts := r.counts;
      case PerformSearch(Rejected(m)) =>
        loading := false;
        error := Some(m);
    }
  }

  /** pending starts loading and clears the error, leaving the last results in place. */
  lemma PendingKeepsResults(s: SearchState)
    ensures var t := Next(s, PerformSearch(Pending));
      t.loading && t.error == None && t.results == s.results && t.counts == s.counts && t.query == s.query
  {
  }

  /** fulfilled replaces query, results and counts together from one response and ends loading;
      the state afterwards does not depend on what was cached before, apart from the error. */
  lemma FulfilledReplacesTogether(s: SearchState, s': SearchState, r: SearchResponse)
    requires s.error == s'.error
    ensures var t := Next(s, PerformSearch(Fulfilled(r)));
      t.query == r.query && t.results == r.results && t.counts == r.counts && !t.loading && t.error == s.error
    ensures Next(s, PerformSearch(Fulfilled(r))) == Next(s', PerformSearch(Fulfilled(r)))
  {
  }

  /** rejected ends loading and records the reason, never touching query, results or counts; a body
      with a falsy success flag therefore leaves the last results on screen. */
  lemma RejectedKeepsResults(s: SearchState, m: string, body: SearchResponse)
    requires !body.success
    ensures Next(s, PerformSearch(Rejected(m))) == s.(loading := false, error := Some(m))
    ensures Next(s, PerformSearch(SettleSearch(Ok(body)))) ==
            s.(loading := false, error := Some(Or(body.message, SearchFailed)))
  {
  }

  /** clearSearch empties query, results, counts and error, leaves loading, and is idempotent. */
  lemma ClearSearchResets(s: SearchState)
    ensures var t := Next(s, ClearSearch);
      && t.query == "" && t.results == Results([], [], []) && t.counts == map[] && t.error == None
      && t.loading == s.loading
      && Next(t, ClearSearch) == t
    ensures !s.loading ==> Next(s, ClearSearch) == Initial()
  {
  }

  /** What submitting the search form dispatches. */
  datatype Intent = StartSearch(query: string) | Clear

  /** Search.jsx handleSubmit: a query that trims to nothing clears the search instead of calling the
      server; any other query is searched as typed, not trimmed. */
  function SubmitIntent(query: string): (i: Intent)
    ensures i == Clear <==> Text.AllWhitespace(query)
    ensures i.StartSearch? ==> i.query == query
  {
    if Text.Trim(query) != "" then StartSearch(query) else Clear
  }

  /** The reducer actions a submit leads to: a blank query only clears, a non-blank one starts a request. */
  function SubmitActions(query: string): (acts: seq<Action>)
    ensures |acts| == 1
    ensures Text.AllWhitespace(query) <==> acts == [ClearSearch]
    ensures !Text.AllWhitespace(query) <==> acts == [PerformSearch(Pending)]
  {
    match SubmitIntent(query)
    case Clear => [ClearSearch]
    case StartSearch(_) => [PerformSearch(Pending)]
  }
}
