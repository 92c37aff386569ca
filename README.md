# Search page: a Dafny model

This project models the behaviour of a small client-side search page. The
page is written in TypeScript with React. It fetches results from a mock
search service and keeps the query in the page URL. The model covers five
parts:

- **The mock search service**:
  - the ten hard-coded posts;
  - `filterResults`, a case-insensitive substring filter;
  - the settling of one `searchApi` call, where a delay timer races an
    abort signal.
- **The `useSearch` hook**:
  - the search state `{query, results, loading, error, total}`;
  - the input value;
  - the debounce timer slot;
  - the current request.
- **The `useUrlQuery` hook**: one query parameter kept in step with a
  string value.
- **The `SearchInput` component**:
  - the debounce of `onSearch`;
  - the clear handler;
  - the visibility rules.
- **The `SearchResults` component**:
  - which of its five views it renders;
  - the count label;
  - how a card title is cut at `" - "`;
  - the blank-query guard of `highlightText`.

Timers, promises and abort signals become explicit events applied one at
a time. For each event, the trace lemmas state what holds whatever the
order.

Modules, following the source files, plus helpers:

- `Text`: ASCII lower-casing, ECMAScript `trim`, `includes`, `split` and
  `join`, and decimal rendering.
- `SearchTypes`: the record and state shapes.
- `SearchApi`: the data, the filter and the call-settling model. It
  includes the `SearchCall` class. A call carries no token: the token
  that links a call to the hook's generation lives only on the hook side.
- `MockDataFacts`: what the filter returns for `"java"` and `"zzz"`.
- `UseSearch`: the hook's transitions as functions on a `Hook` value.
  `UseSearchHook` holds the `SearchHook` class that performs them on its
  fields.
- `UseUrlQuery`: the URL binder, with its `UrlQuery` class.
- `SearchInput`: the input's transitions and visibility predicates.
  `SearchInputComponent` holds the `SearchInputBox` class.
- `SearchResults`: the view selection.

The hook model gives each request a token, its generation number. The
hook keeps the query each token searched and the set of tokens whose
controllers were aborted. The invariant `UseSearch.Valid` says four
things:

- the current token is the latest one;
- every older token is aborted;
- only issued tokens are aborted;
- the state is never loading and in error at once.

Every transition keeps it. Because of it, a response to a superseded
request never changes the hook (`LastIssuedWins`).

Some behaviours of the code are easy to overlook. The model keeps each
one as written:

- **Short queries.** `setQuery` compares the untrimmed `query.length`
  with `minQueryLength` (`app/src/hooks/useSearch.ts:92`). For a too-short
  query it leaves the in-flight request running. Its response can
  therefore still arrive and replace `results` and `total` in the state.
  With the default `minQueryLength` of 1 the only short query is "".
  `SearchResults` renders nothing for it, so the stale results are hidden
  only while the query stays "". The next long-enough query keeps them,
  not loading and with no error. So until that query's timer fires they
  are listed under the new query (`StaleResultsResurface`).
- **`clearResults`.** It aborts nothing (`app/src/hooks/useSearch.ts:126-135`).
- **`searchApi`.** It checks the signal only when the delay timer fires,
  plus through its abort listener. It never checks before starting the
  delay (`app/src/api/searchApi.ts:85-89, 98-103`).
- **Late failures.** The `catch` of `performSearch` does not check
  whether its request was aborted. A non-abort failure of a superseded
  request would therefore still set `error`. `searchApi` never produces
  such a failure, which `ApiRejectsOnlyOnAbort` states. This means that
  `AbortedCallInert` holds for every call the page makes.
- **Clearing in `SearchInput`.** `handleClear` does not cancel the input's
  own debounce timer (`app/src/components/SearchInput.tsx:40-45`). A
  change made just before a clear is still searched after the immediate
  `onSearch("")`, overriding the clear (`ClearKeepsPendingSearch`).

## Model

| member | source | states |
|---|---|---|
| SearchApi.FilterResults | app/src/api/searchApi.ts:70-71 | a query that is empty or all whitespace gives no records |
| SearchApi.Matches | app/src/api/searchApi.ts:74-75 | a record matches when its lower-cased title or body contains the lowered query; the empty query matches every record |
| SearchApi.FilterRecords | app/src/api/searchApi.ts:73-76 | what `mockData.filter` keeps: never more records than it was given, and all of them for an empty lowered query |
| SearchApi.FilterMembers | app/src/api/searchApi.ts:73-76 | the filter keeps a record exactly when it is in the input and its lower-cased title or body contains the query |
| SearchApi.FilterResultsMembers | app/src/api/searchApi.ts:70-77 | soundness and completeness: a record is returned iff the query is not blank, the record is in the data and its lower-cased title or body contains the lower-cased, untrimmed query |
| SearchApi.FilterSubsequence | app/src/api/searchApi.ts:73 | the filter returns an order-preserving subsequence of its input |
| SearchApi.FilterIdsIncrease | app/src/api/searchApi.ts:73 | strictly increasing ids stay strictly increasing after filtering |
| SearchApi.FilterNone | app/src/api/searchApi.ts:73-76 | the filter returns nothing exactly when no record matches |
| SearchApi.MockDataIds | app/src/api/searchApi.ts:3-64 | the hard-coded records are listed by strictly increasing id |
| SearchApi.FilterResultsOrder | app/src/api/searchApi.ts:3-77 | `filterResults` returns a subsequence of the data whose ids strictly increase |
| SearchApi.FilterCaseInsensitive | app/src/api/searchApi.ts:71-72 | `filterResults(lower(q)) == filterResults(q)` |
| MockDataFacts.JavaMatches | app/src/api/searchApi.ts:4-63 | records 1, 2, 5, 8 and 9 contain "java" in some letter case |
| MockDataFacts.JavaMisses | app/src/api/searchApi.ts:4-63 | records 3, 4, 6, 7 and 10 do not |
| MockDataFacts.ZzzMisses | app/src/api/searchApi.ts:4-63 | no record contains "zzz" in any letter case |
| MockDataFacts.FilterJava | app/src/api/searchApi.ts:3-77 | `filterResults("java")` is records 1, 2, 5, 8, 9 in that order, ids `[1, 2, 5, 8, 9]` |
| MockDataFacts.FilterZzz | app/src/api/searchApi.ts:3-77 | `filterResults("zzz")` is empty |
| SearchApi.ResponseFor | app/src/api/searchApi.ts:91-96 | the resolved value: `filterResults(query)`, its length as total, and the query unchanged |
| SearchApi.Start | app/src/api/searchApi.ts:82-98 | a fresh call: timer scheduled, nothing settled, a signal iff one was passed, aborted iff that signal already was |
| SearchApi.Settle | app/src/api/searchApi.ts:84-104 | a promise settles once: the first `resolve` or `reject` decides, later ones are ignored |
| SearchApi.Step | app/src/api/searchApi.ts:85-103 | one event: a settled outcome never changes, an abort is permanent and only happens through a signal's `Abort`, a cleared timer stays cleared, and the first settlement clears the timer and rejects with "Request aborted" if the signal is aborted, else resolves with the filtered response |
| SearchApi.FirstIndex | app/src/api/searchApi.ts:85-103 | the position of the first event of a kind, or the event count when there is none, with no earlier event of that kind |
| SearchApi.SettledStays | app/src/api/searchApi.ts:84-104 | once the promise has settled, later events never change its outcome |
| SearchApi.LiveRun | app/src/api/searchApi.ts:85-103 | with a live signal, whichever of abort and timer comes first settles the call: abort rejects with "Request aborted", the timer resolves with the filtered response |
| SearchApi.InertRun | app/src/api/searchApi.ts:85-97 | without a listener that can still run, the call settles exactly when the timer fires: rejected if aborted, else resolved |
| SearchApi.LiveOutcome | app/src/api/searchApi.ts:82-105 | the settled outcome of a fresh call with a live signal, for every order of events |
| SearchApi.NoSignalOutcome | app/src/api/searchApi.ts:82-97 | without a signal the call resolves with the response when the timer fires, and is otherwise pending |
| SearchApi.PreAbortedOutcome | app/src/api/searchApi.ts:85-103 | with a signal aborted before the call, the call rejects with "Request aborted" when the timer fires and never resolves |
| SearchApi.ResolvedResponse | app/src/api/searchApi.ts:91-96 | a resolved response holds `filterResults(query)` as its results, their number as total, and the query unchanged |
| SearchApi.SearchCall.constructor | app/src/api/searchApi.ts:82-98 | a new call has its timer scheduled and is unsettled; it has a signal iff one was passed |
| SearchApi.SearchCall.Abort | app/src/api/searchApi.ts:98-103 | the abort listener: on the first abort of a signal, clears the timer and rejects (first settlement wins) |
| SearchApi.SearchCall.Complete | app/src/api/searchApi.ts:85-97 | the timer callback: rejects if the signal is aborted by then, else resolves with the filtered response |
| UseSearch.Init | app/src/hooks/useSearch.ts:21-33 | the initial state: empty query and results, not loading, no error, total 0, empty input, no request, no timer |
| UseSearch.SetQuery | app/src/hooks/useSearch.ts:82-107 | sets input value and query to exactly `q`, drops the pending timer; below `minQueryLength` (untrimmed length) resets results, total, loading and error and schedules nothing, otherwise schedules a search of `q`; never touches the current request |
| UseSearch.DefaultSearchesNonEmpty | app/src/hooks/useSearch.ts:19-106 | with the default `minQueryLength` of 1, every query but "" schedules a search, even an all-whitespace one; "" resets the results |
| UseSearch.SetQueryIdempotent | app/src/hooks/useSearch.ts:82-107 | committing the same query twice leaves the hook exactly as committing it once |
| UseSearch.StaleResultsResurface | app/src/hooks/useSearch.ts:36-107 | after `setQuery("")` the request in flight still runs; its late response becomes the results, and the next non-empty query keeps them, not loading and with no error, while its own timer is pending |
| UseSearch.PerformSearch | app/src/hooks/useSearch.ts:36-45 | aborts the current token, issues a fresh token as current for `q`, sets loading and clears the error |
| UseSearch.FireTimer | app/src/hooks/useSearch.ts:104-106 | a fired timer runs `performSearch` with the query it was set with and leaves no timer pending |
| UseSearch.ErrorText | app/src/hooks/useSearch.ts:71 | an `Error`'s message, or the fallback message for any other thrown value |
| UseSearch.Deliver | app/src/hooks/useSearch.ts:47-73 | a response is applied only if its token is not aborted (results, total, loading false, error null); an "Request aborted" error changes nothing; another failure sets loading false and the error and keeps results; only the state object ever changes |
| UseSearch.UpdateInputValue | app/src/hooks/useSearch.ts:77-79 | only the input value changes |
| UseSearch.ClearResults | app/src/hooks/useSearch.ts:126-135 | resets results, total, query, error and input value; loading, the request and the timer stay |
| UseSearch.Unmount | app/src/hooks/useSearch.ts:110-119 | aborts the current token and drops the pending timer; the input value, state, tokens and `minQueryLength` stay |
| UseSearch.ApplyValid | app/src/hooks/useSearch.ts:36-135 | every transition keeps the invariant: current is latest, older tokens aborted, never loading and in error at once |
| UseSearch.RunValid | app/src/hooks/useSearch.ts:36-135 | any sequence of events keeps the invariant, so no reachable state is loading and in error at once |
| UseSearch.LastIssuedWins | app/src/hooks/useSearch.ts:38-66 | in every reachable state, a response or abort rejection for any request but the latest leaves the hook unchanged |
| UseSearch.UnmountSilences | app/src/hooks/useSearch.ts:110-119 | after unmount no timer is pending and no issued request's response changes state |
| UseSearch.CurrentApplied | app/src/hooks/useSearch.ts:51-61 | the unaborted current request's response becomes the results and total, with loading false and no error |
| UseSearch.BurstTimer | app/src/hooks/useSearch.ts:86-106 | after a burst of `setQuery` calls at most one timer is pending: the last query's, if it is long enough; no request is issued or aborted |
| UseSearch.BurstSearchesLast | app/src/hooks/useSearch.ts:86-106 | when the timer then fires, only the last query of the burst is searched |
| UseSearch.FromOutcome | app/src/hooks/useSearch.ts:47-62 | a resolved call reaches the `await` as its response, a rejected one as a thrown `Error` with its message |
| UseSearch.ApiRejectsOnlyOnAbort | app/src/api/searchApi.ts:85-103 | every rejection of `searchApi` carries the message "Request aborted" |
| UseSearch.AbortedCallInert | app/src/hooks/useSearch.ts:51-66 | whatever `searchApi` delivers for an aborted token, the hook is unchanged |
| UseSearch.CurrentCallShowsFilter | app/src/hooks/useSearch.ts:48-61 | a resolved call for the unaborted current token shows exactly `filterResults` of that token's query, with its count |
| UseSearchHook.SearchHook.constructor | app/src/hooks/useSearch.ts:18-33 | the hook object starts in the initial state, satisfying the invariant |
| UseSearchHook.SearchHook.SetQuery | app/src/hooks/useSearch.ts:82-107 | performs `UseSearch.SetQuery` on the fields and keeps the invariant |
| UseSearchHook.SearchHook.FireTimer | app/src/hooks/useSearch.ts:36-106 | performs `UseSearch.FireTimer` on the fields and keeps the invariant |
| UseSearchHook.SearchHook.Deliver | app/src/hooks/useSearch.ts:47-73 | performs `UseSearch.Deliver` on the fields and keeps the invariant |
| UseSearchHook.SearchHook.UpdateInputValue | app/src/hooks/useSearch.ts:77-79 | performs `UseSearch.UpdateInputValue` and keeps the invariant |
| UseSearchHook.SearchHook.ClearResults | app/src/hooks/useSearch.ts:126-135 | performs `UseSearch.ClearResults` and keeps the invariant |
| UseSearchHook.SearchHook.Unmount | app/src/hooks/useSearch.ts:110-119 | performs `UseSearch.Unmount` and keeps the invariant |
| UseUrlQuery.ReadParam | app/src/hooks/useUrlQuery.ts:4-7 | the parameter's value, or "" when the key is absent |
| UseUrlQuery.UpdateUrl | app/src/hooks/useUrlQuery.ts:9-20 | a value not blank after trimming is stored untrimmed under the key, a blank one removes the key; every other parameter is kept |
| UseUrlQuery.ReadBack | app/src/hooks/useUrlQuery.ts:12-16 | reading the key after an update gives the written value, or "" for a blank one |
| UseUrlQuery.UpdateIdempotent | app/src/hooks/useUrlQuery.ts:9-25 | writing the same value twice gives the same URL as writing it once |
| UseUrlQuery.UpdateForgetsOldValue | app/src/hooks/useUrlQuery.ts:12-16 | the result of an update does not depend on the key's previous value |
| UseUrlQuery.UrlQuery.constructor | app/src/hooks/useUrlQuery.ts:4-7 | the initial value is the URL's value for the key, or "" |
| UseUrlQuery.UrlQuery.SetQueryValue | app/src/hooks/useUrlQuery.ts:22-25 | the value becomes the argument exactly and the URL is updated by `UpdateUrl` |
| UseUrlQuery.UrlQuery.PopState | app/src/hooks/useUrlQuery.ts:29-33 | after navigation the value is re-read from the new URL; the handler writes nothing to the URL |
| SearchInput.HandleChange | app/src/components/SearchInput.tsx:25-38 | reports the new value through `onChange` at once; the pending timer is replaced by one for the new value when `onSearch` is given, else none is left |
| SearchInput.HandleClear | app/src/components/SearchInput.tsx:40-45 | calls `onChange("")` and then, if given, `onSearch("")`; the pending timer is kept |
| SearchInput.FireTimer | app/src/components/SearchInput.tsx:34-36 | a pending timer calls `onSearch` with its value and is gone |
| SearchInput.Unmount | app/src/components/SearchInput.tsx:47-53 | the cleanup drops the pending timer and nothing else |
| SearchInput.TypedReports | app/src/components/SearchInput.tsx:25-38 | a burst of changes reports each value in order and leaves only the timer for the last value |
| SearchInput.BurstSearchesLast | app/src/components/SearchInput.tsx:29-37 | when the timer then fires, `onSearch` is called once, with the last value |
| SearchInput.ClearKeepsPendingSearch | app/src/components/SearchInput.tsx:33-45 | a change, a clear, then the timer: `onSearch("")` is followed by `onSearch` of the text from before the clear |
| SearchInput.ShowClearButton | app/src/components/SearchInput.tsx:69 | the clear button is rendered for a non-empty value while not loading |
| SearchInput.ShowSpacer | app/src/components/SearchInput.tsx:73 | the spacer is rendered for an empty value |
| SearchInput.Disabled | app/src/components/SearchInput.tsx:64 | the input is disabled while loading |
| SearchInput.ButtonOrSpacer | app/src/components/SearchInput.tsx:64-75 | the clear button (value non-empty and not loading) and the spacer (value empty) are never both shown, one of them is while not loading, and a disabled input shows no button |
| SearchInputComponent.SearchInputBox.constructor | app/src/components/SearchInput.tsx:23 | no timer is pending and no callback has been made |
| SearchInputComponent.SearchInputBox.HandleChange | app/src/components/SearchInput.tsx:25-38 | performs `SearchInput.HandleChange` on the fields |
| SearchInputComponent.SearchInputBox.HandleClear | app/src/components/SearchInput.tsx:40-45 | performs `SearchInput.HandleClear` on the fields |
| SearchInputComponent.SearchInputBox.FireTimer | app/src/components/SearchInput.tsx:34-36 | performs `SearchInput.FireTimer` on the fields |
| SearchInputComponent.SearchInputBox.Unmount | app/src/components/SearchInput.tsx:47-53 | performs `SearchInput.Unmount` on the fields |
| SearchResults.Highlight | app/src/components/SearchResults.tsx:24-25 | a blank query returns the text unchanged; any other query goes through the highlighting pattern |
| SearchResults.CountLabel | app/src/components/SearchResults.tsx:85-89 | a label is shown exactly when the total is positive |
| SearchResults.CountLabelReadsTotal | app/src/components/SearchResults.tsx:87 | "1 результат" exactly for a total of one; every other label is the decimal digits of the total followed by " результатов" |
| SearchResults.TitleHead | app/src/components/SearchResults.tsx:110 | the whole title when it has no " - " or starts with one, else the text before the first " - " |
| SearchResults.TitleTail | app/src/components/SearchResults.tsx:111-114 | present exactly when the title contains " - ", and then the text after its first occurrence |
| SearchResults.TitleWithoutSeparator | app/src/components/SearchResults.tsx:110-111 | a title without " - " shows whole as head, with no tail |
| SearchResults.TitleRoundTrip | app/src/components/SearchResults.tsx:110-115 | for a title containing " - " but not starting with it, head + " - " + tail is the title, and the head holds no separator |
| SearchResults.TitleOpensWithSeparator | app/src/components/SearchResults.tsx:110-111 | a title that starts with " - " has an empty first piece, so the head is the whole title, and a tail is shown |
| SearchResults.CardFor | app/src/components/SearchResults.tsx:98-142 | a card is keyed by the result's id, shows its id and user id, the title head and the body, and a tail exactly when the title contains " - ", holding `TitleTail`; for a blank query every part is plain text, otherwise every part is marked with the query |
| SearchResults.Cards | app/src/components/SearchResults.tsx:98-100 | one card per result, in the order of the results |
| SearchResults.HasError | app/src/components/SearchResults.tsx:39 | the JavaScript truth of the `error` prop: present and not "" |
| SearchResults.SelectView | app/src/components/SearchResults.tsx:39-77 | exactly one view, by priority: a truthy error (an empty string is none), then loading, then a blank query (nothing), then no results, then the list with total, count label, query and exactly `Cards(results, query)`, one card per result keyed by id |
| SearchResults.ListHighlights | app/src/components/SearchResults.tsx:60-131 | the list view only appears for a non-blank query, so every card text goes through the highlighting pattern |
| Text.Trim | app/src/api/searchApi.ts:71 | `trim()` is empty exactly for an all-whitespace string |
| Text.TrimLowerBlank | app/src/api/searchApi.ts:71-72 | lower-casing does not change whether a string is blank |
| Text.Lower | app/src/api/searchApi.ts:72-75 | `toLowerCase` over ASCII: same length, no capital letter left, every other character kept |
| Text.LowerIdempotent | app/src/api/searchApi.ts:72-75 | lower-casing twice is lower-casing once |
| Text.Contains | app/src/api/searchApi.ts:74-75 | `includes`: the query occurs at some position; "" occurs in every string, and a query longer than the text never does |
| Text.Split | app/src/components/SearchResults.tsx:110-114 | `split` with a non-empty separator gives at least one piece |
| Text.Join | app/src/components/SearchResults.tsx:114 | `join` of no pieces is "", and the joined text opens with the first piece |
| Text.JoinSplit | app/src/components/SearchResults.tsx:114 | joining the pieces of a split with the same separator gives back the string |
| Text.SplitRejoin | app/src/components/SearchResults.tsx:110-114 | when the separator occurs, first piece + separator + the rest rejoined is the string |
| Text.SplitHead | app/src/components/SearchResults.tsx:110 | the first piece holds no separator and is empty exactly when the string starts with it |
| Text.SplitTail | app/src/components/SearchResults.tsx:114 | the pieces after the first, joined again, are the text after the first occurrence of the separator |
| Text.NatToString | app/src/components/SearchResults.tsx:87 | `${total}`: a non-empty string of decimal digits, with a leading zero only for 0 |
| Text.DecimalRoundTrip | app/src/components/SearchResults.tsx:87 | the decimal digits produced for a number read back as that number |

## Left out

- The random delay of `searchApi` (`Math.random() * 1000 + 500`) is floating point. Any order of the timer and abort events stands in for it.
- The browser machinery is not modelled: `setTimeout`, `clearTimeout`, `AbortController`, `EventTarget`, promises and the event loop. Each timer or promise is an explicit event on a sequential object. The `debounceMs` values, including the hook's default of 300, matter only through the order of events and are not modelled.
- React re-rendering is not modelled. Each `setState(prev => …)` is applied at once, in call order.
- The hooks' `useCallback` identities and effect dependency lists are not modelled. `useUrlQuery` is modelled for a key that never changes.
- `toLowerCase` is modelled for ASCII only. Every hard-coded record is ASCII, but a query with non-ASCII capitals is lowered differently by JavaScript.
- `trim` uses the ECMAScript whitespace set, written out.
- UseSearch.SetQuery: compares the number of characters with `minQueryLength`. JavaScript's `length` counts UTF-16 code units, which differ for characters outside the Basic Multilingual Plane.
- URL parsing and percent-encoding are not modelled, and neither are `window.location`, `history.replaceState` or `popstate` dispatch. The parameters are a map, so a key that appears with several values, where `get` returns the first, is not modelled.
- The body of `highlightText`, which cuts the text with a case-insensitive global regular expression, is not modelled. `SearchResults.Highlighted.Marked` stands for its result.
- Markup and class strings are not modelled: the heading "Найдено", the "По запросу" line, the link, the animation delay and all CSS classes. The list view keeps the values they show: the total, the query and the cards.
- `app/src/components/SearchPage.tsx` is not part of this model. Its initialisation flags depend on React's effect order. `app/src/components/ClearButton.tsx` and `app/vite.config.ts` are markup and build configuration, and are not part of this model either.
- `app/src/types/search.ts` holds type declarations only. They become the datatypes of `SearchTypes`, with nothing to prove. TypeScript `number` becomes `int` for ids and `nat` for counts.
