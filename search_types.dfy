/** The record and state shapes of the search page (app/src/types/search.ts). */
module SearchTypes {
  import opened Wrappers

  /** One hard-coded post: `{id, title, body, userId}`. */
  datatype SearchResult = SearchResult(id: int, title: string, body: string, userId: int)

  /** What the search service resolves with: `{results, total, query}`.
      `total` is a count (`results.length`), hence a `nat`. */
  datatype SearchResponse = SearchResponse(results: seq<SearchResult>, total: nat, query: string)

  /** The hook's state: `error` is `string | null`. */
  datatype SearchState = SearchState(
    query: string,
    results: seq<SearchResult>,
    loading: bool,
    error: Option<string>,
    total: nat)
}
