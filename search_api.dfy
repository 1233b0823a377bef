/** `searchMulti`: the multi-type search response with people filtered out. The request
    itself (URL building, `fetch`, `res.json()`) is not modelled; the parsed body is the
    input. */
module SearchApi {
  import opened JsValue
  import opened JsArray
  import opened Media

  /** `SearchResponse`: the body with `results` replaced by its movie/tv entries. */
  datatype SearchResponse = SearchResponse(
    results: seq<Item>,
    totalResults: int,
    totalPages: int,
    page: int)

  /** `{ ...data, results: (data.results ?? []).filter(movie or tv) }`. */
  function SearchMulti(data: ListPage): (r: SearchResponse)
    ensures forall i :: 0 <= i < |r.results| ==> IsScreenMedia(r.results[i])
    ensures data.results.None? ==> r.results == []
    ensures r.totalResults == data.totalResults && r.totalPages == data.totalPages && r.page == data.page
  {
    SearchResponse(KeepScreenMedia(Results(data)), data.totalResults, data.totalPages, data.page)
  }

  /** The returned results are the upstream results with exactly the non-movie/tv entries
      removed, in upstream order; filtering them again changes nothing. */
  lemma SearchMultiResults(data: ListPage)
    ensures IsSubsequence(SearchMulti(data).results, Results(data))
    ensures forall x :: multiset(SearchMulti(data).results)[x] ==
                        if IsScreenMedia(x) then multiset(Results(data))[x] else 0
    ensures KeepScreenMedia(SearchMulti(data).results) == SearchMulti(data).results
  {
    KeepScreenMediaSpec(Results(data));
  }
}
