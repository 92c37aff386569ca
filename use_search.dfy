/** The `useSearch` hook: the search state with its debounce slot and its
    current request. Timers and promises become explicit events: the
    debounce timer firing, and a request's promise delivering a response
    or a thrown value. Each request gets a token (its generation number);
    aborting a request's controller puts its token in `aborted`. */
module UseSearch {
  import opened Wrappers
  import opened SearchTypes
  import SearchApi

  /** The hook's default `minQueryLength`. */
  const DefaultMinQueryLength: int := 1

  /** The message shown when the thrown value is not an `Error`. */
  const FallbackError: string := "Произошла ошибка при поиске"

  /** A value thrown into the `catch` of `performSearch`: an `Error` with
      its message, or anything else. */
  datatype Thrown = ErrorValue(message: string) | OtherValue

  /** How an awaited request ends. */
  datatype Delivery = Fulfilled(response: SearchResponse) | Failed(thrown: Thrown)

  /** Everything the hook keeps between renders: the state object, the
      input value, the current request's token (`currentRequestRef`), the
      tokens whose controllers were aborted, the query of every request
      issued so far (token `t` searched `queries[t]`), and the pending
      debounce timer with the query it will search (`debounceTimeoutRef`). */
  datatype Hook = Hook(
    minQueryLength: int,
    state: SearchState,
    inputValue: string,
    current: Option<nat>,
    aborted: set<nat>,
    queries: seq<string>,
    timer: Option<string>)

  /** The initial state: empty query and results, not loading, no error. */
  function Init(minQueryLength: int): (h: Hook)
    ensures h.state == SearchState("", [], false, None, 0) && h.inputValue == ""
    ensures h.current.None? && h.queries == [] && h.aborted == {} && h.timer.None?
  {
    Hook(minQueryLength, SearchState("", [], false, None, 0), "", None, {}, [], None)
  }

  /** The bookkeeping every reachable state keeps: the current token is the
      last one issued, every older token is aborted, and only issued tokens
      are aborted. Besides, the state is never loading and failed at once:
      a search starts with no error and every path that sets an error ends
      loading. */
  predicate Valid(h: Hook)
  {
    && !(h.state.loading && h.state.error.Some?)
    && (h.current.None? <==> h.queries == [])
    && (h.current.Some? ==> h.current.value == |h.queries| - 1)
    && (forall t | t in h.aborted :: t < |h.queries|)
    && (forall t: nat | t < |h.queries| - 1 :: t in h.aborted)
  }

  /** `setQuery(q)`: records `q` as input value and query, drops any
      pending timer, and either resets the results (a query shorter than
      `minQueryLength`, counted untrimmed) or schedules a search of `q`.
      Neither branch aborts the request in flight. */
  function SetQuery(h: Hook, q: string): (r: Hook)
    ensures r.inputValue == q && r.state.query == q
    ensures r.timer == if |q| < h.minQueryLength then None else Some(q)
    ensures |q| < h.minQueryLength ==>
      r.state.results == [] && r.state.total == 0 && !r.state.loading && r.state.error.None?
    ensures |q| >= h.minQueryLength ==> r.state == h.state.(query := q)
    ensures r.current == h.current && r.aborted == h.aborted && r.queries == h.queries
    ensures r.minQueryLength == h.minQueryLength
  {
    var h1 := h.(inputValue := q, state := h.state.(query := q), timer := None);
    if |q| < h.minQueryLength then
      h1.(state := h1.state.(results := [], total := 0, loading := false, error := None))
    else
      h1.(timer := Some(q))
  }

  /** With the default `minQueryLength`, every query but "" schedules a
      search, even one made only of spaces; only "" resets the results. */
  lemma DefaultSearchesNonEmpty(h: Hook, q: string)
    requires h.minQueryLength == DefaultMinQueryLength
    ensures SetQuery(h, q).timer.Some? <==> q != ""
    ensures q == "" ==> SetQuery(h, q).state.results == [] && SetQuery(h, q).state.total == 0
  {
  }

  /** Committing the same query twice leaves the hook as committing it once. */
  lemma SetQueryIdempotent(h: Hook, q: string)
    ensures SetQuery(SetQuery(h, q), q) == SetQuery(h, q)
  {
  }

  /** Clearing the query to "" leaves the request in flight running. Its
      late response still becomes the results, and the next long-enough
      query keeps them, not loading and with no error, until its own timer
      fires. */
  lemma StaleResultsResurface(first: string, next: string, response: SearchResponse)
    requires first != "" && next != ""
    ensures var h1 := FireTimer(SetQuery(Init(DefaultMinQueryLength), first));
      var h2 := Deliver(SetQuery(h1, ""), 0, Fulfilled(response));
      var h3 := SetQuery(h2, next);
      && h2.state.query == "" && h2.state.results == response.results
      && h3.state.query == next && h3.state.results == response.results
      && h3.state.total == response.total && !h3.state.loading && h3.state.error.None?
      && h3.timer == Some(next)
  {
  }

  /** `performSearch(q)`, up to the `await`: aborts the current request,
      issues a fresh token as current, and marks the state loading with no
      error. */
  function PerformSearch(h: Hook, q: string): (r: Hook)
    ensures r.queries == h.queries + [q] && r.current == Some(|h.queries|)
    ensures r.aborted == h.aborted + (if h.current.Some? then {h.current.value} else {})
    ensures r.state == h.state.(loading := true, error := None)
    ensures r.inputValue == h.inputValue && r.timer == h.timer
    ensures r.minQueryLength == h.minQueryLength
  {
    var aborted := if h.current.Some? then h.aborted + {h.current.value} else h.aborted;
    h.(aborted := aborted, current := Some(|h.queries|), queries := h.queries + [q],
       state := h.state.(loading := true, error := None))
  }

  /** The debounce timer fires and searches the query it was set with. */
  function FireTimer(h: Hook): (r: Hook)
    ensures r.timer.None?
    ensures h.timer.Some? ==> r == PerformSearch(h, h.timer.value).(timer := None)
    ensures h.timer.None? ==> r == h
  {
    match h.timer
    case None => h
    case Some(q) => PerformSearch(h.(timer := None), q)
  }

  /** The message a non-abort failure leaves in `error`. */
  function ErrorText(e: Thrown): (m: string)
    ensures e.ErrorValue? ==> m == e.message
    ensures e.OtherValue? ==> m == FallbackError
  {
    match e
    case ErrorValue(message) => message
    case OtherValue => FallbackError
  }

  /** The request with token `token` finishes. A response is applied only
      when that token was not aborted, and then replaces results and total,
      clears loading and error. An `Error` with message "Request aborted"
      changes nothing; any other failure clears loading, sets the error and
      keeps results and total. Nothing but `state` ever changes. */
  function Deliver(h: Hook, token: nat, d: Delivery): (r: Hook)
    ensures r == h.(state := r.state)
    ensures r.state.query == h.state.query
    ensures d.Fulfilled? ==>
      r.state == if token in h.aborted then h.state
                 else h.state.(results := d.response.results, total := d.response.total,
                               loading := false, error := None)
    ensures d.Failed? && d.thrown == ErrorValue(SearchApi.AbortMessage) ==> r == h
    ensures d.Failed? && d.thrown != ErrorValue(SearchApi.AbortMessage) ==>
      r.state == h.state.(loading := false, error := Some(ErrorText(d.thrown)))
  {
    match d
    case Fulfilled(response) =>
      if token in h.aborted then h
      else h.(state := h.state.(results := response.results, total := response.total,
                                loading := false, error := None))
    case Failed(thrown) =>
      if thrown.ErrorValue? && thrown.message == SearchApi.AbortMessage then h
      else h.(state := h.state.(loading := false, error := Some(ErrorText(thrown))))
  }

  /** `updateInputValue(v)`: only the input value changes. */
  function UpdateInputValue(h: Hook, v: string): (r: Hook)
    ensures r == h.(inputValue := v)
  {
    h.(inputValue := v)
  }

  /** `clearResults()`: empties results, total, query, error and the input
      value; `loading`, the current request and the pending timer stay. */
  function ClearResults(h: Hook): (r: Hook)
    ensures r.state == SearchState("", [], h.state.loading, None, 0) && r.inputValue == ""
    ensures r.current == h.current && r.aborted == h.aborted && r.queries == h.queries
    ensures r.timer == h.timer && r.minQueryLength == h.minQueryLength
  {
    h.(state := h.state.(results := [], total := 0, query := "", error := None), inputValue := "")
  }

  /** The unmount cleanup: aborts the current request and drops the
      pending timer. */
  function Unmount(h: Hook): (r: Hook)
    ensures r.timer.None? && r.state == h.state && r.inputValue == h.inputValue
    ensures r.aborted == h.aborted + (if h.current.Some? then {h.current.value} else {})
    ensures r.current == h.current && r.queries == h.queries && r.minQueryLength == h.minQueryLength
  {
    var aborted := if h.current.Some? then h.aborted + {h.current.value} else h.aborted;
    h.(aborted := aborted, timer := None)
  }

  // ---------------------------------------------------------------------
  // Traces of events

  /** Everything that can happen to the hook, one event at a time. */
  datatype HookEvent =
    | QuerySet(q: string)
    | TimerFired
    | Delivered(token: nat, d: Delivery)
    | InputUpdated(v: string)
    | ResultsCleared
    | Unmounted

  function Apply(h: Hook, e: HookEvent): Hook
  {
    match e
    case QuerySet(q) => SetQuery(h, q)
    case TimerFired => FireTimer(h)
    case Delivered(token, d) => Deliver(h, token, d)
    case InputUpdated(v) => UpdateInputValue(h, v)
    case ResultsCleared => ClearResults(h)
    case Unmounted => Unmount(h)
  }

  function RunHook(h: Hook, events: seq<HookEvent>): Hook
    decreases |events|
  {
    if events == [] then h else RunHook(Apply(h, events[0]), events[1..])
  }

  /** Every operation keeps the token bookkeeping. */
  lemma ApplyValid(h: Hook, e: HookEvent)
    requires Valid(h)
    ensures Valid(Apply(h, e))
  {
    match e
    case TimerFired =>
      if h.timer.Some? {
        var r := Apply(h, e);
        assert r == PerformSearch(h, h.timer.value).(timer := None);
        forall t: nat | t < |r.queries| - 1
          ensures t in r.aborted
        {
          if t < |h.queries| - 1 {
            assert t in h.aborted;
          } else {
            assert h.current == Some(t);
          }
        }
      }
    case Unmounted =>
    case _ =>
  }

  lemma {:induction false} RunValid(h: Hook, events: seq<HookEvent>)
    requires Valid(h)
    ensures Valid(RunHook(h, events))
    decreases |events|
  {
    if events != [] {
      ApplyValid(h, events[0]);
      RunValid(Apply(h, events[0]), events[1..]);
    }
  }

  /** Last issued wins: in every state the hook can reach, a response to
      any request but the latest leaves the whole hook unchanged, and so
      does the rejection of an aborted request. */
  lemma LastIssuedWins(minQueryLength: int, events: seq<HookEvent>, token: nat, response: SearchResponse)
    requires var h := RunHook(Init(minQueryLength), events); token + 1 < |h.queries|
    ensures var h := RunHook(Init(minQueryLength), events);
      Deliver(h, token, Fulfilled(response)) == h
      && Deliver(h, token, Failed(ErrorValue(SearchApi.AbortMessage))) == h
  {
    RunValid(Init(minQueryLength), events);
  }

  /** After unmounting, no timer is pending and no request the hook issued
      can change its state with a response. */
  lemma UnmountSilences(h: Hook, token: nat, response: SearchResponse)
    requires Valid(h) && token < |h.queries|
    ensures Unmount(h).timer.None?
    ensures Deliver(Unmount(h), token, Fulfilled(response)) == Unmount(h)
  {
    if token + 1 < |h.queries| {
      assert token in h.aborted;
    } else {
      assert h.current == Some(token);
    }
  }

  /** The current request's response, when it was not aborted, becomes the
      displayed results. */
  lemma CurrentApplied(h: Hook, response: SearchResponse)
    requires Valid(h) && h.current.Some? && h.current.value !in h.aborted
    ensures var r := Deliver(h, h.current.value, Fulfilled(response)).state;
      r.results == response.results && r.total == response.total && !r.loading && r.error.None?
  {
  }

  /** A run of `setQuery` calls. */
  function QueriesSet(qs: seq<string>): (events: seq<HookEvent>)
    ensures |events| == |qs|
    ensures forall i | 0 <= i < |qs| :: events[i] == QuerySet(qs[i])
  {
    if qs == [] then [] else [QuerySet(qs[0])] + QueriesSet(qs[1..])
  }

  /** Debounce: after a burst of `setQuery` calls at most one timer is
      pending, and it holds the last query of the burst, provided that one
      is long enough. */
  lemma {:induction false} BurstTimer(h: Hook, qs: seq<string>)
    requires qs != []
    ensures var r := RunHook(h, QueriesSet(qs)); var last := qs[|qs| - 1];
      r.timer == (if |last| < h.minQueryLength then None else Some(last))
      && r.queries == h.queries && r.current == h.current && r.aborted == h.aborted
      && r.minQueryLength == h.minQueryLength
    decreases |qs|
  {
    var events := QueriesSet(qs);
    assert events[1..] == QueriesSet(qs[1..]);
    if |qs| > 1 {
      BurstTimer(SetQuery(h, qs[0]), qs[1..]);
    }
  }

  /** So, when the timer then fires, exactly the last query of the burst is
      searched, and only if it is long enough. */
  lemma BurstSearchesLast(h: Hook, qs: seq<string>)
    requires qs != []
    ensures var r := FireTimer(RunHook(h, QueriesSet(qs))); var last := qs[|qs| - 1];
      r.queries == h.queries + (if |last| < h.minQueryLength then [] else [last])
      && r.timer.None?
  {
    BurstTimer(h, qs);
  }

  // ---------------------------------------------------------------------
  // What `searchApi` delivers

  /** How a settled `searchApi` call reaches the hook's `await`. */
  function FromOutcome(o: SearchApi.Outcome): (d: Delivery)
    ensures o.Resolved? ==> d == Fulfilled(o.response)
    ensures o.Rejected? ==> d == Failed(ErrorValue(o.message))
  {
    match o
    case Resolved(response) => Fulfilled(response)
    case Rejected(message) => Failed(ErrorValue(message))
  }

  /** Every settled `searchApi` call either resolves or rejects with the
      abort message. */
  lemma ApiRejectsOnlyOnAbort(query: string, signal: SearchApi.SignalState, events: seq<SearchApi.CallEvent>)
    requires SearchApi.Run(SearchApi.Start(query, signal), events).outcome.Some?
    ensures var o := SearchApi.Run(SearchApi.Start(query, signal), events).outcome.value;
      o.Rejected? ==> o.message == SearchApi.AbortMessage
  {
    match signal
    case Live => SearchApi.LiveOutcome(query, events);
    case NoSignal => SearchApi.NoSignalOutcome(query, events);
    case AlreadyAborted => SearchApi.PreAbortedOutcome(query, events);
  }

  /** Whatever a `searchApi` call for an aborted token delivers, the hook
      stays as it was. */
  lemma AbortedCallInert(h: Hook, token: nat, signal: SearchApi.SignalState, events: seq<SearchApi.CallEvent>)
    requires token < |h.queries| && token in h.aborted
    requires SearchApi.Run(SearchApi.Start(h.queries[token], signal), events).outcome.Some?
    ensures Deliver(h, token, FromOutcome(SearchApi.Run(SearchApi.Start(h.queries[token], signal), events).outcome.value)) == h
  {
    ApiRejectsOnlyOnAbort(h.queries[token], signal, events);
  }

  /** When the current request's call resolves and its token was not
      aborted, the hook shows exactly the filtered records of the query
      that request searched, with their count. */
  lemma CurrentCallShowsFilter(h: Hook, signal: SearchApi.SignalState, events: seq<SearchApi.CallEvent>)
    requires Valid(h) && h.current.Some? && h.current.value !in h.aborted
    requires var o := SearchApi.Run(SearchApi.Start(h.queries[h.current.value], signal), events).outcome;
      o.Some? && o.value.Resolved?
    ensures var q := h.queries[h.current.value];
      var o := SearchApi.Run(SearchApi.Start(q, signal), events).outcome.value;
      var s := Deliver(h, h.current.value, FromOutcome(o)).state;
      s.results == SearchApi.FilterResults(q) && s.total == |s.results| && !s.loading && s.error.None?
  {
    var q := h.queries[h.current.value];
    SearchApi.ResolvedResponse(q, signal, events);
  }
}

/** The hook as an object: its state and refs are fields that its
    callbacks update, each as the corresponding transition of `UseSearch`. */
module UseSearchHook {
  import opened Wrappers
  import opened SearchTypes
  import SearchApi
  import UseSearch

  /** The hook's state and refs as fields that its callbacks update. */
  class SearchHook {
    const minQueryLength: int
    var state: SearchState
    var inputValue: string
    var current: Option<nat>
    var aborted: set<nat>
    var queries: seq<string>
    var timer: Option<string>

    function Model(): UseSearch.Hook
      reads this
    {
      UseSearch.Hook(minQueryLength, state, inputValue, current, aborted, queries, timer)
    }

    constructor(minQueryLength: int)
      ensures Model() == UseSearch.Init(minQueryLength) && UseSearch.Valid(Model())
    {
      this.minQueryLength := minQueryLength;
      state := SearchState("", [], false, None, 0);
      inputValue := "";
      current := None;
      aborted := {};
      queries := [];
      timer := None;
    }

    method SetQuery(q: string)
      requires UseSearch.Valid(Model())
      modifies this
      ensures Model() == UseSearch.SetQuery(old(Model()), q) && UseSearch.Valid(Model())
    {
      inputValue := q;
      state := state.(query := q);
      timer := None;
      if |q| < minQueryLength {
        state := state.(results := [], total := 0, loading := false, error := None);
        return;
      }
      timer := Some(q);
    }

    /** The debounce timer fires: `performSearch` with its query. */
    method FireTimer()
      requires UseSearch.Valid(Model())
      modifies this
      ensures Model() == UseSearch.FireTimer(old(Model())) && UseSearch.Valid(Model())
    {
      UseSearch.ApplyValid(Model(), UseSearch.TimerFired);
      if timer.Some? {
        var q := timer.value;
        timer := None;
        if current.Some? {
          aborted := aborted + {current.value};
        }
        current := Some(|queries|);
        queries := queries + [q];
        state := state.(loading := true, error := None);
      }
    }

    /** The awaited request `token` settles with `d`. */
    method Deliver(token: nat, d: UseSearch.Delivery)
      requires UseSearch.Valid(Model())
      modifies this
      ensures Model() == UseSearch.Deliver(old(Model()), token, d) && UseSearch.Valid(Model())
    {
      match d
      case Fulfilled(response) =>
        if token in aborted {
          return;
        }
        state := state.(results := response.results, total := response.total, loading := false, error := None);
      case Failed(thrown) =>
        if thrown.ErrorValue? && thrown.message == SearchApi.AbortMessage {
          return;
        }
        state := state.(loading := false, error := Some(UseSearch.ErrorText(thrown)));
    }

    method UpdateInputValue(v: string)
      requires UseSearch.Valid(Model())
      modifies this
      ensures Model() == UseSearch.UpdateInputValue(old(Model()), v) && UseSearch.Valid(Model())
    {
      inputValue := v;
    }

    method ClearResults()
      requires UseSearch.Valid(Model())
      modifies this
      ensures Model() == UseSearch.ClearResults(old(Model())) && UseSearch.Valid(Model())
    {
      state := state.(results := [], total := 0, query := "", error := None);
      inputValue := "";
    }

    method Unmount()
      requires UseSearch.Valid(Model())
      modifies this
      ensures Model() == UseSearch.Unmount(old(Model())) && UseSearch.Valid(Model())
    {
      if current.Some? {
        aborted := aborted + {current.value};
      }
      timer := None;
    }
  }
}
