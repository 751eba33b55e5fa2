/** The search tool with a per-instance quota: it counts its calls, creates
    its search client lazily, truncates what the service returns and warns on
    the last call it allows. */
module LimitedSearch {
  import opened Wrappers
  import opened Text

  /** A search client built for a requested number of results (opaque). */
  datatype SearchClient = SearchClient(nResults: int, id: nat)

  /** What the client returns: a string, or another object, given by its `str()`. */
  datatype RawResult = TextResult(text: string) | ObjectResult(printed: string)

  /** Builds a client for `n_results`, or fails with the exception's message. */
  type Connect = int -> Result<SearchClient, string>

  /** Runs one query, or fails with the exception's message. */
  type Search = (SearchClient, string) -> Result<RawResult, string>

  const LimitWarning: string := "\n\n⚠️ SEARCH LIMIT REACHED: No more searches allowed. Work with this information."

  function LimitMessage(count: int, maxSearches: int): string {
    "Search limit reached. Used " + IntToString(count) + "/" + IntToString(maxSearches)
      + " searches. Please work with existing information."
  }

  function InitFailureMessage(error: string): string {
    "❌ Search tool initialization failed: " + error
  }

  function SearchFailureMessage(error: string): string {
    "❌ Search failed: " + error
  }

  function ResultsMessage(count: int, maxResults: int, body: string): string {
    "🔍 Search Results (#" + IntToString(count) + ", limited to " + IntToString(maxResults) + " results):\n\n" + body
  }

  /** The three settings, fixed at construction. */
  datatype Limits = Limits(maxResults: int, maxLength: int, maxSearches: int)

  /** The counter and the lazily built client. */
  datatype State = State(count: int, client: Option<SearchClient>)

  /** The result of one call: the new state, the text returned, and whether the
      search service was called. */
  datatype Turn = Turn(state: State, output: string, searched: bool)

  function RawText(raw: RawResult): string {
    match raw
    case TextResult(t) => t
    case ObjectResult(p) => p
  }

  /** The text of a successful search, cut to `max_length * max_results`
      characters, with the warning when the counter has reached the quota. */
  function ResultBody(raw: RawResult, limits: Limits, count: int): string {
    PyPrefix(RawText(raw), limits.maxLength * limits.maxResults)
      + (if count >= limits.maxSearches then LimitWarning else "")
  }

  /** One call of the tool. */
  function Step(limits: Limits, st: State, query: string, connect: Connect, search: Search): (t: Turn)
    ensures t.state.count == if st.count >= limits.maxSearches then st.count else st.count + 1
    ensures t.searched ==> t.state.client.Some?
  {
    if st.count >= limits.maxSearches then
      Turn(st, LimitMessage(st.count, limits.maxSearches), false)
    else
      var count := st.count + 1;
      var client := if st.client.Some? then Ok(st.client.value) else connect(limits.maxResults);
      match client
      case Err(e) => Turn(State(count, None), InitFailureMessage(e), false)
      case Ok(c) =>
        var output := match search(c, query)
                      case Err(e) => SearchFailureMessage(e)
                      case Ok(raw) => ResultsMessage(count, limits.maxResults, ResultBody(raw, limits, count));
        Turn(State(count, Some(c)), output, true)
  }

  /** At the quota nothing changes and the service is not called. Below it
      the counter goes up by one whatever happens next; a missing client is
      built (and stays missing if that fails); the warning is added exactly
      when this is the last allowed call. */
  lemma StepSpec(limits: Limits, st: State, query: string, connect: Connect, search: Search)
    ensures var t := Step(limits, st, query, connect, search);
      && (st.count >= limits.maxSearches ==> t == Turn(st, LimitMessage(st.count, limits.maxSearches), false))
      && (st.count < limits.maxSearches ==> t.state.count == st.count + 1)
      && (st.client.Some? ==> t.state.client == st.client)
      && (st.client.None? && st.count < limits.maxSearches ==>
            t.state.client == (match connect(limits.maxResults) case Ok(c) => Some(c) case Err(_) => None))
      && (st.count < limits.maxSearches && t.state.client.None? ==>
            !t.searched && t.output == InitFailureMessage(connect(limits.maxResults).error))
      && (t.searched <==> st.count < limits.maxSearches && t.state.client.Some?)
      && (t.searched ==>
            t.output == match search(t.state.client.value, query)
                        case Err(e) => SearchFailureMessage(e)
                        case Ok(raw) => ResultsMessage(st.count + 1, limits.maxResults,
                                          PyPrefix(RawText(raw), limits.maxLength * limits.maxResults)
                                          + (if st.count + 1 == limits.maxSearches then LimitWarning else "")))
  {
  }

  /** The client cannot be built: the call is counted but nothing is searched. */
  lemma StepConnectFails(limits: Limits, st: State, query: string, connect: Connect, search: Search)
    requires st.count < limits.maxSearches && st.client.None? && connect(limits.maxResults).Err?
    ensures Step(limits, st, query, connect, search)
            == Turn(State(st.count + 1, None), InitFailureMessage(connect(limits.maxResults).error), false)
  {
  }

  /** The client exists (or was just built) and the search itself fails. */
  lemma StepSearchFails(limits: Limits, st: State, c: SearchClient, query: string, connect: Connect, search: Search)
    requires st.count < limits.maxSearches
    requires st.client == Some(c) || (st.client.None? && connect(limits.maxResults) == Ok(c))
    requires search(c, query).Err?
    ensures Step(limits, st, query, connect, search)
            == Turn(State(st.count + 1, Some(c)), SearchFailureMessage(search(c, query).error), true)
  {
  }

  /** The client exists (or was just built) and the search returns a result. */
  lemma StepSearchSucceeds(limits: Limits, st: State, c: SearchClient, query: string, connect: Connect, search: Search)
    requires st.count < limits.maxSearches
    requires st.client == Some(c) || (st.client.None? && connect(limits.maxResults) == Ok(c))
    requires search(c, query).Ok?
    ensures Step(limits, st, query, connect, search)
            == Turn(State(st.count + 1, Some(c)),
                    ResultsMessage(st.count + 1, limits.maxResults, ResultBody(search(c, query).value, limits, st.count + 1)),
                    true)
  {
  }

  /** Successive calls with the same services: the final state and every output. */
  function RunAll(limits: Limits, st: State, queries: seq<string>, connect: Connect, search: Search): (r: (State, seq<string>))
    ensures |r.1| == |queries|
    decreases |queries|
  {
    if queries == [] then (st, [])
    else
      var t := Step(limits, st, queries[0], connect, search);
      var (final, outputs) := RunAll(limits, t.state, queries[1..], connect, search);
      (final, [t.output] + outputs)
  }

  /** Over any run the counter stays within the quota: it ends at the quota or
      one step per call above its start, whichever is smaller, and once the
      quota is reached every further call returns the limit message. */
  lemma {:induction false} RunAllCounts(limits: Limits, st: State, queries: seq<string>, connect: Connect, search: Search)
    requires 0 <= st.count <= Max(limits.maxSearches, 0)
    ensures var (final, outputs) := RunAll(limits, st, queries, connect, search);
      && |outputs| == |queries|
      && final.count == Min(st.count + |queries|, Max(limits.maxSearches, 0))
      && forall k :: 0 <= k < |queries| && st.count + k >= limits.maxSearches ==>
           outputs[k] == LimitMessage(Max(limits.maxSearches, 0), limits.maxSearches)
    decreases |queries|
  {
    if queries != [] {
      var t := Step(limits, st, queries[0], connect, search);
      RunAllCounts(limits, t.state, queries[1..], connect, search);
      var (final, outputs) := RunAll(limits, t.state, queries[1..], connect, search);
      assert RunAll(limits, st, queries, connect, search) == (final, [t.output] + outputs);
      if st.count >= limits.maxSearches {
        assert st.count == Max(limits.maxSearches, 0);
      }
      forall k | 0 < k < |queries| && st.count + k >= limits.maxSearches
        ensures ([t.output] + outputs)[k] == LimitMessage(Max(limits.maxSearches, 0), limits.maxSearches)
      {
        assert outputs[k - 1] == LimitMessage(Max(limits.maxSearches, 0), limits.maxSearches);
      }
    }
  }

  /** With the default quota of two, the third call is refused with the
      message for "Used 2/2". */
  lemma ThirdCallRefused(q1: string, q2: string, q3: string, connect: Connect, search: Search)
    ensures var outputs := RunAll(Limits(3, 400, 2), State(0, None), [q1, q2, q3], connect, search).1;
            |outputs| == 3
            && outputs[2] == LimitMessage(2, 2)
  {
    RunAllCounts(Limits(3, 400, 2), State(0, None), [q1, q2, q3], connect, search);
  }

  class LimitedSearchTool {
    const maxResults: int
    const maxLength: int
    const maxSearches: int
    var searchCount: int
    var searchTool: Option<SearchClient>
    /** The queries handed to the search service so far. */
    ghost var queriesSent: seq<string>
    /** How many clients were built so far. */
    ghost var connections: nat

    /** The counter stays within the quota (and never goes negative), and at
        most one client is ever built: it is the one kept. */
    ghost predicate Valid()
      reads this
    {
      && 0 <= searchCount <= Max(maxSearches, 0)
      && |queriesSent| <= searchCount
      && connections == (if searchTool.Some? then 1 else 0)
    }

    function Settings(): Limits
      reads this
    {
      Limits(maxResults, maxLength, maxSearches)
    }

    constructor (maxResults: int := 3, maxLength: int := 400, maxSearches: int := 2)
      ensures Valid()
      ensures this.maxResults == maxResults && this.maxLength == maxLength && this.maxSearches == maxSearches
      ensures searchCount == 0 && searchTool == None && queriesSent == []
    {
      this.maxResults := maxResults;
      this.maxLength := maxLength;
      this.maxSearches := maxSearches;
      searchCount := 0;
      searchTool := None;
      queriesSent := [];
      connections := 0;
    }

    /** `_run`: one call, as `Step` describes it; the service sees the query
        exactly when `Step` says it is searched. */
    method Run(query: string, connect: Connect, search: Search) returns (out: string)
      requires Valid()
      modifies this
      ensures Valid()
      ensures var t := Step(Settings(), State(old(searchCount), old(searchTool)), query, connect, search);
              State(searchCount, searchTool) == t.state && out == t.output
              && queriesSent == old(queriesSent) + (if t.searched then [query] else [])
    {
      ghost var limits := Settings();
      ghost var before := State(searchCount, searchTool);
      if searchCount >= maxSearches {
        return LimitMessage(searchCount, maxSearches);
      }
      searchCount := searchCount + 1;
      if searchTool.None? {
        var made := connect(maxResults);
        if made.Err? {
          StepConnectFails(limits, before, query, connect, search);
          return InitFailureMessage(made.error);
        }
        searchTool := Some(made.value);
        connections := connections + 1;
      }
      var raw := search(searchTool.value, query);
      queriesSent := queriesSent + [query];
      if raw.Err? {
        StepSearchFails(limits, before, searchTool.value, query, connect, search);
        return SearchFailureMessage(raw.error);
      }
      var limited := PyPrefix(RawText(raw.value), maxLength * maxResults);
      if searchCount >= maxSearches {
        limited := limited + LimitWarning;
      }
      assert limited == ResultBody(raw.value, limits, searchCount);
      out := ResultsMessage(searchCount, maxResults, limited);
      StepSearchSucceeds(limits, before, searchTool.value, query, connect, search);
    }
  }
}
