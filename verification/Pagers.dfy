/** The two paging loops (src/bptl/work_units/zgw/utils.py: get_paginated_results;
    src/bptl/work_units/zgw/objects/services.py: _search_meta_objects with search_objects;
    src/bptl/core/utils.py: fetch_next_url_pagination). */
module Pagers {
  import opened Sequences
  import opened Wrappers

  /** One response: its results and the page number in its `next` url. */
  datatype Page = Page(results: seq<int>, next: Option<nat>)

  /** What the server answers to a request with or without a page parameter. */
  type Server = Option<nat> -> Page

  /** The pages that following `next` from a first request leads through. */
  ghost predicate Chain(server: Server, from: Option<nat>, pages: seq<Page>)
    decreases |pages|
  {
    && |pages| > 0 && pages[0] == server(from)
    && (if |pages| == 1 then pages[0].next.None?
        else pages[0].next.Some? && Chain(server, pages[0].next, pages[1..]))
  }

  function ResultsOf(pages: seq<Page>): seq<int>
  {
    FlatMap(pages, (page: Page) => page.results)
  }

  /** The results of some pages and then others are those of the first followed by those of the others; one
      page has its own results, and no page has none. */
  lemma ResultsConcatenate(p: seq<Page>, q: seq<Page>)
    ensures ResultsOf(p + q) == ResultsOf(p) + ResultsOf(q)
    ensures ResultsOf([]) == [] && (|p| == 1 ==> ResultsOf(p) == p[0].results)
  {
    FlatMapConcatenates(p, q, (page: Page) => page.results);
    if |p| == 1 {
      assert p == [p[0]];
      FlatMapOfOne(p[0], (page: Page) => page.results);
    }
  }

  /** So element j of page i comes right behind all elements of the earlier pages. */
  lemma ResultAt(pages: seq<Page>, i: nat, j: nat)
    requires i < |pages| && j < |pages[i].results|
    ensures |ResultsOf(pages[..i])| + j < |ResultsOf(pages)|
    ensures ResultsOf(pages)[|ResultsOf(pages[..i])| + j] == pages[i].results[j]
  {
    FlatMapAt(pages, (page: Page) => page.results, i, j);
  }

  /** A server leads from one request along one chain only. */
  lemma {:induction false} ChainIsUnique(server: Server, from: Option<nat>, p: seq<Page>, q: seq<Page>)
    requires Chain(server, from, p) && Chain(server, from, q)
    ensures p == q
    decreases |p|
  {
    if |p| == 1 || |q| == 1 {
    } else {
      ChainIsUnique(server, p[0].next, p[1..], q[1..]);
    }
    assert p == [p[0]] + p[1..] && q == [q[0]] + q[1..];
  }

  lemma {:induction false} ChainAt(server: Server, from: Option<nat>, pages: seq<Page>, i: nat)
    requires Chain(server, from, pages) && i < |pages|
    ensures i + 1 == |pages| <==> pages[i].next.None?
    ensures i + 1 < |pages| ==> pages[i].next.Some? && server(pages[i].next) == pages[i + 1]
    decreases |pages|
  {
    if i == 0 {
    } else {
      ChainAt(server, pages[0].next, pages[1..], i - 1);
    }
  }

  lemma {:induction false} ChainSuffix(server: Server, from: Option<nat>, pages: seq<Page>, i: nat)
    requires Chain(server, from, pages) && 0 < i < |pages|
    ensures Chain(server, pages[i - 1].next, pages[i..])
    decreases |pages|
  {
    if i == 1 {
    } else {
      ChainSuffix(server, pages[0].next, pages[1..], i - 1);
      assert pages[1..][i - 1..] == pages[i..];
    }
  }

  // ----- get_paginated_results -----

  /** The caller's dictionary of query parameters, which the pager writes to. */
  class QueryParams {
    var page: Option<nat>

    constructor (page: Option<nat>)
      ensures this.page == page
    {
      this.page := page;
    }
  }

  /** `minimum` counts only if it is given and not zero. */
  predicate Enough(n: nat, minimum: Option<int>)
  {
    minimum.Some? && minimum.value != 0 && n >= minimum.value
  }

  function FirstEnough(pages: seq<Page>, minimum: Option<int>, from: nat): (n: nat)
    requires 1 <= from <= |pages|
    ensures from <= n <= |pages|
    ensures n < |pages| ==> Enough(|ResultsOf(pages[..n])|, minimum)
    ensures forall k | from <= k < n :: !Enough(|ResultsOf(pages[..k])|, minimum)
    decreases |pages| - from
  {
    if from == |pages| || Enough(|ResultsOf(pages[..from])|, minimum) then from
    else FirstEnough(pages, minimum, from + 1)
  }

  /** How many pages are read: up to the first point with enough results, but always one. */
  function PagesRead(pages: seq<Page>, minimum: Option<int>): (n: nat)
    requires pages != []
    ensures 1 <= n <= |pages|
    ensures n < |pages| ==> Enough(|ResultsOf(pages[..n])|, minimum)
    ensures forall k | 1 <= k < n :: !Enough(|ResultsOf(pages[..k])|, minimum)
  {
    FirstEnough(pages, minimum, 1)
  }

  /** On every finite chain the loop ends with the results of the first pages, in order: all of them
      without a minimum, otherwise as few as reach it.  The page of the last request is left behind
      in the caller's dictionary. */
  method GetPaginatedResults(server: Server, params: QueryParams, minimum: Option<int>, ghost pages: seq<Page>)
    returns (results: seq<int>)
    requires Chain(server, params.page, pages)
    modifies params
    ensures results == ResultsOf(pages[..PagesRead(pages, minimum)])
    ensures params.page == if PagesRead(pages, minimum) == 1 then old(params.page)
                           else pages[PagesRead(pages, minimum) - 2].next
  {
    var response := server(params.page);
    results := [] + response.results;
    ghost var read := 1;
    assert pages[..1] == [pages[0]] && ResultsOf(pages[..0]) == [];
    if Enough(|results|, minimum) {
      return results;
    }
    ChainAt(server, params.page, pages, 0);
    while response.next.Some?
      invariant 1 <= read <= |pages| && response == pages[read - 1]
      invariant response.next.None? <==> read == |pages|
      invariant results == ResultsOf(pages[..read])
      invariant forall k | 1 <= k <= read :: !Enough(|ResultsOf(pages[..k])|, minimum)
      invariant params.page == if read == 1 then old(params.page) else pages[read - 2].next
      decreases |pages| - read
    {
      ChainAt(server, old(params.page), pages, read - 1);
      ChainAt(server, old(params.page), pages, read);
      params.page := response.next;
      response := server(params.page);
      assert pages[..read + 1][..read] == pages[..read];
      results := results + response.results;
      read := read + 1;
      if Enough(|results|, minimum) {
        assert PagesRead(pages, minimum) == read;
        return results;
      }
    }
    assert PagesRead(pages, minimum) == read;
  }

  // ----- _search_meta_objects -----

  datatype Outcome = NotConfigured | Found(results: seq<int>)

  /** fetch_next_url_pagination, on a copy of the parameters. */
  function NextParams(response: Page): Option<nat>
  {
    response.next
  }

  method SearchMetaObjects(configured: bool, filtered: bool, server: Server, ghost pages: seq<Page>)
    returns (outcome: Outcome)
    requires Chain(server, None, pages)
    ensures outcome == if !configured then NotConfigured
                       else if !filtered then Found([])
                       else Found(ResultsOf(pages))
  {
    if !configured {
      return NotConfigured;
    }
    if !filtered {
      return Found([]);
    }
    var page: Option<nat> := None;
    var getMore := true;
    var objects: seq<int> := [];
    ghost var read := 0;
    while getMore
      invariant 0 <= read <= |pages| && (getMore <==> read < |pages|)
      invariant objects == ResultsOf(pages[..read])
      invariant getMore ==> server(page) == pages[read]
      decreases |pages| - read
    {
      ChainAt(server, None, pages, read);
      var response := server(page);
      page := NextParams(response);
      assert pages[..read + 1][..read] == pages[..read];
      objects := objects + response.results;
      read := read + 1;
      getMore := page.Some?;
    }
    assert pages[..read] == pages;
    return Found(objects);
  }

  // ----- together -----

  /** Without a minimum, and with a dictionary that names no page, both pagers return the
      concatenation of all pages. */
  lemma NoMinimumReadsAll(pages: seq<Page>, minimum: Option<int>)
    requires pages != [] && (minimum.None? || minimum.value == 0)
    ensures PagesRead(pages, minimum) == |pages| && pages[..PagesRead(pages, minimum)] == pages
  {
  }

  method PagersAgree(server: Server, ghost pages: seq<Page>) returns (first: seq<int>, second: Outcome)
    requires Chain(server, None, pages)
    ensures second == Found(first) && first == ResultsOf(pages)
  {
    var params := new QueryParams(None);
    first := GetPaginatedResults(server, params, None, pages);
    second := SearchMetaObjects(true, true, server, pages);
    NoMinimumReadsAll(pages, None);
  }

  /** With a minimum the number of pages is least: any shorter non-empty prefix of the pages has too
      few results, and the prefix that is returned has enough unless it is everything. */
  lemma MinimumReadsFewest(pages: seq<Page>, minimum: int, k: nat)
    requires pages != [] && minimum != 0
    requires 1 <= k <= |pages| && (k == |pages| || |ResultsOf(pages[..k])| >= minimum)
    ensures PagesRead(pages, Some(minimum)) <= k
    ensures PagesRead(pages, Some(minimum)) == |pages|
            || |ResultsOf(pages[..PagesRead(pages, Some(minimum))])| >= minimum
  {
  }

  /** The dictionary is the caller's: used a second time it starts where the first use stopped, so
      only the last page comes back. */
  method SecondUseOfParams(server: Server, params: QueryParams, ghost pages: seq<Page>)
    returns (first: seq<int>, second: seq<int>)
    requires Chain(server, params.page, pages)
    modifies params
    ensures first == ResultsOf(pages) && second == pages[|pages| - 1].results
  {
    NoMinimumReadsAll(pages, None);
    first := GetPaginatedResults(server, params, None, pages);
    ghost var last := [pages[|pages| - 1]];
    ChainAt(server, old(params.page), pages, |pages| - 1);
    if |pages| > 1 {
      ChainSuffix(server, old(params.page), pages, |pages| - 1);
      assert pages[|pages| - 1..] == last;
    } else {
      assert pages == last;
    }
    NoMinimumReadsAll(last, None);
    second := GetPaginatedResults(server, params, None, last);
    ResultsConcatenate(last, []);
  }
}
