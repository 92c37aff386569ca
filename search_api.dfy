/** The mock search service (app/src/api/searchApi.ts): ten hard-coded
    posts, the case-insensitive substring filter over them, and the settling
    of one call, where the delay timer and the abort signal race. */
module SearchApi {
  import opened Wrappers
  import opened Text
  import opened SearchTypes

  // ---------------------------------------------------------------------
  // The hard-coded records. Each text is written as a concatenation of
  // short pieces, cut at spaces.

  const Title1 :=
    "React - A JavaScript library for "
    + "building user interfaces"
  const Body1 :=
    "React makes it painless to create "
    + "interactive UIs. Design simple views "
    + "for each state in your application, "
    + "and React will efficiently update and "
    + "render just the right components when "
    + "your data changes."
  const Title2 :=
    "TypeScript - JavaScript with syntax "
    + "for types"
  const Body2 :=
    "TypeScript is a strongly typed "
    + "programming language that builds on "
    + "JavaScript, giving you better tooling "
    + "at any scale."
  const Title3 :=
    "Vite - Next Generation Frontend "
    + "Tooling"
  const Body3 :=
    "Vite is a build tool that aims to "
    + "provide a faster and leaner "
    + "development experience for modern web "
    + "projects."
  const Title4 :=
    "Tailwind CSS - A utility-first CSS "
    + "framework"
  const Body4 :=
    "Tailwind CSS is a utility-first CSS "
    + "framework packed with classes that "
    + "can be composed to build any design, "
    + "directly in your markup."
  const Title5 :=
    "JavaScript - The Programming Language "
    + "of the Web"
  const Body5 :=
    "JavaScript is a lightweight, "
    + "interpreted, or just-in-time compiled "
    + "programming language with first-class "
    + "functions."
  const Title6 :=
    "HTML - HyperText Markup Language"
  const Body6 :=
    "HTML is the standard markup language "
    + "for documents designed to be "
    + "displayed in a web browser."
  const Title7 :=
    "CSS - Cascading Style Sheets"
  const Body7 :=
    "CSS is a style sheet language used "
    + "for describing the presentation of a "
    + "document written in HTML or XML."
  const Title8 :=
    "Node.js - JavaScript runtime built on "
    + "Chrome V8"
  const Body8 :=
    "Node.js is a JavaScript runtime built "
    + "on Chrome V8 JavaScript engine. "
    + "Node.js uses an event-driven, "
    + "non-blocking I/O model."
  const Title9 :=
    "npm - Node Package Manager"
  const Body9 :=
    "npm is the package manager for "
    + "JavaScript and the world largest "
    + "software registry."
  const Title10 :=
    "Git - Distributed version control "
    + "system"
  const Body10 :=
    "Git is a distributed version control "
    + "system for tracking changes in source "
    + "code during software development."

  const MockData: seq<SearchResult> := [
    SearchResult(1, Title1, Body1, 1),
    SearchResult(2, Title2, Body2, 2),
    SearchResult(3, Title3, Body3, 3),
    SearchResult(4, Title4, Body4, 4),
    SearchResult(5, Title5, Body5, 5),
    SearchResult(6, Title6, Body6, 6),
    SearchResult(7, Title7, Body7, 7),
    SearchResult(8, Title8, Body8, 8),
    SearchResult(9, Title9, Body9, 9),
    SearchResult(10, Title10, Body10, 10)
  ]

  /** The records are listed by increasing id. */
  lemma MockDataIds()
    ensures IdsIncrease(MockData)
  {
  }

  // ---------------------------------------------------------------------
  // filterResults

  /** The filter's condition on one record, for an already lower-cased query. */
  predicate Matches(item: SearchResult, lq: string)
    ensures lq == [] ==> Matches(item, lq)
  {
    Contains(Lower(item.title), lq) || Contains(Lower(item.body), lq)
  }

  /** `r` is `s` with some elements left out and the rest kept in order. */
  predicate IsSubsequence(r: seq<SearchResult>, s: seq<SearchResult>)
    decreases |s|
  {
    if r == [] then true
    else if s == [] then false
    else (r[0] == s[0] && IsSubsequence(r[1..], s[1..])) || IsSubsequence(r, s[1..])
  }

  /** Record ids strictly increase along `s`. */
  predicate IdsIncrease(s: seq<SearchResult>)
  {
    forall i, j | 0 <= i < j < |s| :: s[i].id < s[j].id
  }

  /** The ids of `s`, in order. */
  function Ids(s: seq<SearchResult>): seq<int>
  {
    seq(|s|, i requires 0 <= i < |s| => s[i].id)
  }

  /** `items.filter(...)` with the condition `Matches(_, lq)`. What it
      keeps is stated by the lemmas below. */
  function FilterRecords(items: seq<SearchResult>, lq: string): (r: seq<SearchResult>)
    ensures |r| <= |items|
    ensures lq == [] ==> r == items
    decreases |items|
  {
    if items == [] then []
    else (if Matches(items[0], lq) then [items[0]] else []) + FilterRecords(items[1..], lq)
  }

  /** One step of the filter, when the first record matches. */
  lemma FilterHit(items: seq<SearchResult>, lq: string)
    requires |items| > 0 && Matches(items[0], lq)
    ensures FilterRecords(items, lq) == [items[0]] + FilterRecords(items[1..], lq)
  {
  }

  /** One step of the filter, when the first record does not match. */
  lemma FilterMiss(items: seq<SearchResult>, lq: string)
    requires |items| > 0 && !Matches(items[0], lq)
    ensures FilterRecords(items, lq) == FilterRecords(items[1..], lq)
  {
  }

  /** The filter keeps exactly the matching records: every record it
      returns matches, and every matching record is returned. */
  lemma {:induction false} FilterMembers(items: seq<SearchResult>, lq: string)
    ensures forall x :: x in FilterRecords(items, lq) <==> x in items && Matches(x, lq)
    decreases |items|
  {
    if items != [] {
      FilterMembers(items[1..], lq);
      assert items == [items[0]] + items[1..];
    }
  }

  /** The filter keeps the records in their original order. */
  lemma {:induction false} FilterSubsequence(items: seq<SearchResult>, lq: string)
    ensures IsSubsequence(FilterRecords(items, lq), items)
    decreases |items|
  {
    if items != [] {
      var tail := FilterRecords(items[1..], lq);
      FilterSubsequence(items[1..], lq);
      if Matches(items[0], lq) {
        var r := [items[0]] + tail;
        FilterHit(items, lq);
        assert r[0] == items[0] && r[1..] == tail;
      } else {
        FilterMiss(items, lq);
        assert tail != [] ==> IsSubsequence(tail, items[1..]);
      }
    }
  }

  /** Ids that increase along the input increase along the output. */
  lemma {:induction false} FilterIdsIncrease(items: seq<SearchResult>, lq: string)
    requires IdsIncrease(items)
    ensures IdsIncrease(FilterRecords(items, lq))
    decreases |items|
  {
    if items != [] {
      var tail := FilterRecords(items[1..], lq);
      FilterIdsIncrease(items[1..], lq);
      if Matches(items[0], lq) {
        FilterMembers(items[1..], lq);
        FilterHit(items, lq);
        var r := [items[0]] + tail;
        forall j | 0 <= j < |tail|
          ensures items[0].id < tail[j].id
        {
          assert tail[j] in tail;
          var k :| 0 <= k < |items[1..]| && items[1..][k] == tail[j];
          assert items[k + 1] == tail[j];
        }
        assert forall i | 0 < i < |r| :: r[i] == tail[i - 1];
      } else {
        FilterMiss(items, lq);
      }
    }
  }

  /** The filter returns nothing exactly when no record matches. */
  lemma FilterNone(items: seq<SearchResult>, lq: string)
    ensures FilterRecords(items, lq) == [] <==> forall k | 0 <= k < |items| :: !Matches(items[k], lq)
  {
    FilterMembers(items, lq);
    var r := FilterRecords(items, lq);
    if r != [] {
      assert r[0] in r;
    }
  }

  /** `filterResults(query)`: nothing for a blank query; otherwise the
      records whose lower-cased title or body contains the lower-cased
      (untrimmed) query, in the order of the data. */
  function FilterResults(query: string): (r: seq<SearchResult>)
    ensures Trim(query) == [] ==> r == []
  {
    if Trim(query) == [] then [] else FilterRecords(MockData, Lower(query))
  }

  /** Soundness and completeness of `filterResults`: a record is returned
      exactly when the query is not blank and the record's lower-cased
      title or body contains the lower-cased query. */
  lemma FilterResultsMembers(query: string)
    ensures forall x :: x in FilterResults(query) <==>
      Trim(query) != [] && x in MockData && Matches(x, Lower(query))
  {
    FilterMembers(MockData, Lower(query));
  }

  /** `filterResults` returns a subsequence of the data, so its ids
      strictly increase. */
  lemma FilterResultsOrder(query: string)
    ensures IsSubsequence(FilterResults(query), MockData)
    ensures IdsIncrease(FilterResults(query))
  {
    MockDataIds();
    FilterSubsequence(MockData, Lower(query));
    FilterIdsIncrease(MockData, Lower(query));
  }

  /** The filter does not depend on the case of the query. */
  lemma FilterCaseInsensitive(query: string)
    ensures FilterResults(Lower(query)) == FilterResults(query)
  {
    LowerIdempotent(query);
    TrimLowerBlank(query);
  }

  // ---------------------------------------------------------------------
  // searchApi: one call, settled by whichever of its two events comes first

  /** The message of the error the call rejects with when aborted. */
  const AbortMessage: string := "Request aborted"

  /** What a resolved call delivers: the filtered records, their count and
      the query as given. */
  function ResponseFor(query: string): (r: SearchResponse)
    ensures r.results == FilterResults(query) && r.total == |r.results| && r.query == query
  {
    var results := FilterResults(query);
    SearchResponse(results, |results|, query)
  }

  /** How a promise settles: resolved with a response, or rejected with an
      error message. */
  datatype Outcome = Resolved(response: SearchResponse) | Rejected(message: string)

  /** The optional `signal` argument: absent, live, or already aborted when
      the call is made. */
  datatype SignalState = NoSignal | Live | AlreadyAborted

  /** The two events that can settle a call: the delay timer fires
      (`Complete`), or the signal's abort event is dispatched (`Abort`). */
  datatype CallEvent = Complete | Abort

  /** A call in progress: whether it was given a signal, whether that signal
      is aborted, whether the delay timer is still scheduled, and how the
      promise has settled so far (`None` while pending). */
  datatype Call = Call(query: string, hasSignal: bool, aborted: bool, timerPending: bool, outcome: Option<Outcome>)

  /** The call just after `searchApi(query, signal)` returns its promise: the
      timer is scheduled and nothing is settled. */
  function Start(query: string, signal: SignalState): (c: Call)
    ensures c.query == query && c.timerPending && c.outcome.None?
    ensures c.hasSignal <==> signal != NoSignal
    ensures c.aborted <==> signal == AlreadyAborted
  {
    Call(query, signal != NoSignal, signal == AlreadyAborted, true, None)
  }

  /** Settling a promise has effect only the first time. */
  function Settle(outcome: Option<Outcome>, o: Outcome): (r: Option<Outcome>)
    ensures r.Some?
    ensures outcome.Some? ==> r == outcome
    ensures outcome.None? ==> r == Some(o)
  {
    if outcome.None? then Some(o) else outcome
  }

  /** One event. The abort listener clears the timer and rejects; it runs
      only when a signal exists and is aborted now for the first time. The
      timer callback rejects if the signal is aborted by then, and
      otherwise resolves with the filtered records. */
  function Step(c: Call, e: CallEvent): (r: Call)
    ensures r.query == c.query && r.hasSignal == c.hasSignal
    ensures c.outcome.Some? ==> r.outcome == c.outcome
    ensures c.aborted ==> r.aborted
    ensures r.aborted && !c.aborted ==> c.hasSignal && e == Abort
    ensures !c.timerPending ==> !r.timerPending
    ensures c.outcome.None? && r.outcome.Some? ==>
      && !r.timerPending
      && r.outcome.value == if r.aborted then Rejected(AbortMessage) else Resolved(ResponseFor(c.query))
  {
    match e
    case Abort =>
      if !c.hasSignal || c.aborted then c
      else c.(aborted := true, timerPending := false, outcome := Settle(c.outcome, Rejected(AbortMessage)))
    case Complete =>
      if !c.timerPending then c
      else c.(timerPending := false,
              outcome := Settle(c.outcome, if c.aborted then Rejected(AbortMessage) else Resolved(ResponseFor(c.query))))
  }

  /** A sequence of events, in the order they happen. */
  function Run(c: Call, events: seq<CallEvent>): Call
    decreases |events|
  {
    if events == [] then c else Run(Step(c, events[0]), events[1..])
  }

  /** The index of the first `e` in `events`, or `|events|` when there is none. */
  function FirstIndex(events: seq<CallEvent>, e: CallEvent): (k: nat)
    ensures k <= |events|
    ensures forall j :: 0 <= j < k ==> events[j] != e
    ensures k < |events| ==> events[k] == e
    decreases |events|
  {
    if events == [] then 0
    else if events[0] == e then 0
    else 1 + FirstIndex(events[1..], e)
  }

  /** Once settled, a call's outcome never changes. */
  lemma {:induction false} SettledStays(c: Call, events: seq<CallEvent>)
    requires c.outcome.Some?
    ensures Run(c, events).outcome == c.outcome
    decreases |events|
  {
    if events != [] {
      SettledStays(Step(c, events[0]), events[1..]);
    }
  }

  /** A pending call whose abort listener can no longer run settles when,
      and only when, the timer fires. */
  lemma {:induction false} InertRun(c: Call, events: seq<CallEvent>)
    requires c.outcome.None? && c.timerPending && (!c.hasSignal || c.aborted)
    ensures Run(c, events).outcome ==
      if FirstIndex(events, Complete) >= |events| then None
      else if c.aborted then Some(Rejected(AbortMessage))
      else Some(Resolved(ResponseFor(c.query)))
    decreases |events|
  {
    if events != [] {
      if events[0] == Complete {
        SettledStays(Step(c, Complete), events[1..]);
      } else {
        assert Step(c, events[0]) == c;
        InertRun(c, events[1..]);
      }
    }
  }

  /** A pending call with a live signal is settled by whichever event
      comes first. */
  lemma {:induction false} LiveRun(c: Call, events: seq<CallEvent>)
    requires c.outcome.None? && c.timerPending && c.hasSignal && !c.aborted
    ensures var t, a := FirstIndex(events, Complete), FirstIndex(events, Abort);
      Run(c, events).outcome ==
        if a < t then Some(Rejected(AbortMessage))
        else if t < a then Some(Resolved(ResponseFor(c.query)))
        else None
    decreases |events|
  {
    if events != [] {
      SettledStays(Step(c, events[0]), events[1..]);
    }
  }

  /** How `searchApi(query, signal)` settles, for every order of its
      events. With a live signal, an abort that comes before the timer
      rejects with "Request aborted" (and the call never resolves), and a
      timer that comes first resolves with the response for `query`. */
  lemma LiveOutcome(query: string, events: seq<CallEvent>)
    ensures var t, a := FirstIndex(events, Complete), FirstIndex(events, Abort);
      Run(Start(query, Live), events).outcome ==
        if a < t then Some(Rejected(AbortMessage))
        else if t < a then Some(Resolved(ResponseFor(query)))
        else None
  {
    LiveRun(Start(query, Live), events);
  }

  /** Without a signal nothing can abort the call: it resolves when the
      timer fires. */
  lemma NoSignalOutcome(query: string, events: seq<CallEvent>)
    ensures Run(Start(query, NoSignal), events).outcome ==
      if FirstIndex(events, Complete) < |events| then Some(Resolved(ResponseFor(query))) else None
  {
    InertRun(Start(query, NoSignal), events);
  }

  /** With a signal aborted before the call, the listener never runs and
      the timer callback rejects: such a call never resolves. */
  lemma PreAbortedOutcome(query: string, events: seq<CallEvent>)
    ensures Run(Start(query, AlreadyAborted), events).outcome ==
      if FirstIndex(events, Complete) < |events| then Some(Rejected(AbortMessage)) else None
  {
    InertRun(Start(query, AlreadyAborted), events);
  }

  /** A resolved call carries exactly the filtered records, their count and
      the query it was given. */
  lemma ResolvedResponse(query: string, signal: SignalState, events: seq<CallEvent>)
    requires Run(Start(query, signal), events).outcome.Some?
    requires Run(Start(query, signal), events).outcome.value.Resolved?
    ensures var r := Run(Start(query, signal), events).outcome.value.response;
      r.results == FilterResults(query) && r.total == |r.results| && r.query == query
  {
    match signal
    case Live => LiveOutcome(query, events);
    case NoSignal => NoSignalOutcome(query, events);
    case AlreadyAborted => PreAbortedOutcome(query, events);
  }

  /** One `searchApi` call as an object whose fields the two callbacks
      update. */
  class SearchCall {
    const query: string
    const hasSignal: bool
    var aborted: bool
    var timerPending: bool
    var outcome: Option<Outcome>

    function State(): Call
      reads this
    {
      Call(query, hasSignal, aborted, timerPending, outcome)
    }

    /** `searchApi(query, signal)`: schedules the timer and, with a signal,
        registers the abort listener. */
    constructor(query: string, signal: SignalState)
      ensures State() == Start(query, signal)
    {
      this.query := query;
      hasSignal := signal != NoSignal;
      aborted := signal == AlreadyAborted;
      timerPending := true;
      outcome := None;
    }

    /** The signal is aborted: the listener clears the timer and rejects. */
    method Abort()
      modifies this
      ensures State() == Step(old(State()), CallEvent.Abort)
    {
      if hasSignal && !aborted {
        aborted := true;
        timerPending := false;
        if outcome.None? {
          outcome := Some(Rejected(AbortMessage));
        }
      }
    }

    /** The delay elapses: reject if aborted meanwhile, otherwise resolve. */
    method Complete()
      modifies this
      ensures State() == Step(old(State()), CallEvent.Complete)
    {
      if timerPending {
        timerPending := false;
        if outcome.None? {
          if aborted {
            outcome := Some(Rejected(AbortMessage));
          } else {
            outcome := Some(Resolved(ResponseFor(query)));
          }
        }
      }
    }
  }
}
