/** The web-search client: the provider's JSON response, once fetched, has its
    `results` filtered so that results attributed only to the Qwant engine are
    dropped and counted. The fetch itself is the caller's input. */
module SearchLogic {

  datatype SearchResult = SearchResult(url: string, title: string, content: string, engines: seq<string>)

  /** A parsed response: its `results` array and every other field, kept as
      name/value text pairs. */
  datatype SearchResponse = SearchResponse(results: seq<SearchResult>, otherFields: map<string, string>)

  /** `result.engines.length === 1 && result.engines[0] === 'qwant'` */
  predicate QwantOnly(r: SearchResult)
  {
    |r.engines| == 1 && r.engines[0] == "qwant"
  }

  /** The filter callback applied to a results array. */
  function DropQwantOnly(rs: seq<SearchResult>): (kept: seq<SearchResult>)
    ensures |kept| <= |rs|
    ensures forall i :: 0 <= i < |kept| ==> !QwantOnly(kept[i])
    ensures forall r :: r in kept ==> r in rs
  {
    if |rs| == 0 then []
    else DropQwantOnly(rs[..|rs| - 1]) + (if QwantOnly(rs[|rs| - 1]) then [] else [rs[|rs| - 1]])
  }

  /** A result survives the filter exactly when it is in the input and is not Qwant-only. */
  lemma {:induction false} KeptExactly(rs: seq<SearchResult>, r: SearchResult)
    ensures r in DropQwantOnly(rs) <==> r in rs && !QwantOnly(r)
  {
    if |rs| > 0 {
      var init := rs[..|rs| - 1];
      KeptExactly(init, r);
      assert rs == init + [rs[|rs| - 1]];
    }
  }

  function CountQwantOnly(rs: seq<SearchResult>): nat
  {
    if |rs| == 0 then 0
    else CountQwantOnly(rs[..|rs| - 1]) + (if QwantOnly(rs[|rs| - 1]) then 1 else 0)
  }

  /** Every result that is not Qwant-only is kept, in the original relative order:
      the kept list is the input with the Qwant-only results taken out. */
  lemma {:induction false} KeepsOthersInOrder(a: seq<SearchResult>, b: seq<SearchResult>)
    ensures DropQwantOnly(a + b) == DropQwantOnly(a) + DropQwantOnly(b)
  {
    if |b| > 0 {
      KeepsOthersInOrder(a, b[..|b| - 1]);
      assert (a + b)[..|a + b| - 1] == a + b[..|b| - 1];
    } else {
      assert a + b == a;
    }
  }

  lemma {:induction false} NoQwantOnlyKeptWhole(rs: seq<SearchResult>)
    requires forall i :: 0 <= i < |rs| ==> !QwantOnly(rs[i])
    ensures DropQwantOnly(rs) == rs
  {
    if |rs| > 0 {
      NoQwantOnlyKeptWhole(rs[..|rs| - 1]);
      assert rs == rs[..|rs| - 1] + [rs[|rs| - 1]];
    }
  }

  /** Filtering the filtered list removes nothing. */
  lemma DropQwantOnlyIdempotent(rs: seq<SearchResult>)
    ensures DropQwantOnly(DropQwantOnly(rs)) == DropQwantOnly(rs)
  {
    NoQwantOnlyKeptWhole(DropQwantOnly(rs));
  }

  /** The number of dropped results is the input length minus the output length. */
  lemma {:induction false} CountIsDifference(rs: seq<SearchResult>)
    ensures CountQwantOnly(rs) == |rs| - |DropQwantOnly(rs)|
  {
    if |rs| > 0 {
      CountIsDifference(rs[..|rs| - 1]);
    }
  }

  /** The body of `searchQuery` once the response is fetched: the filter with its
      `skippedCount` counter, and the response returned with only `results` replaced. */
  method SearchQuery(fetched: SearchResponse) returns (filtered: SearchResponse, skippedCount: nat)
    ensures filtered.results == DropQwantOnly(fetched.results)
    ensures filtered.otherFields == fetched.otherFields
    ensures skippedCount == CountQwantOnly(fetched.results)
    ensures skippedCount == |fetched.results| - |filtered.results|
  {
    var rs := fetched.results;
    var kept: seq<SearchResult> := [];
    skippedCount := 0;
    var i := 0;
    while i < |rs|
      invariant 0 <= i <= |rs|
      invariant kept == DropQwantOnly(rs[..i])
      invariant skippedCount == CountQwantOnly(rs[..i]) == i - |kept|
    {
      assert rs[..i + 1][..i] == rs[..i];
      if |rs[i].engines| == 1 && rs[i].engines[0] == "qwant" {
        skippedCount := skippedCount + 1;
      } else {
        kept := kept + [rs[i]];
      }
      i := i + 1;
    }
    assert rs[..i] == rs;
    CountIsDifference(rs);
    filtered := fetched.(results := kept);
  }
}
