/** The start-up loader of the bank directory: pages 1, 2, ... are requested
    in turn and appended to one list until a page comes back empty or page
    `LastPage` has been loaded. The directory service is a page source
    handed in as a parameter. */
module Directory {
  import opened Search

  datatype Option<T> = None | Some(value: T)

  /** The decoded body of one page request: `None` stands for a falsy body
      (`null`), `Some(banks)` for an array of banks. */
  type Page = Option<seq<Bank>>

  /** What the directory service answers for each page number. */
  type PageSource = nat -> Page

  /** The loop bound of the loader: page 24 is the last page requested. */
  const LastPage: nat := 24

  /** The test `data && data.length > 0`. */
  predicate HasData(page: Page)
  {
    page.Some? && |page.value| > 0
  }

  /** The banks a page contributes; only pages with data are ever appended. */
  function Data(page: Page): seq<Bank>
  {
    if page.Some? then page.value else []
  }

  /** Pages 1 to `n` of the source, concatenated in page order. */
  ghost function Pages(source: PageSource, n: nat): seq<Bank>
  {
    if n == 0 then [] else Pages(source, n - 1) + Data(source(n))
  }

  /** The number of consecutive pages with data from page `from` on,
      stopping at `LastPage`. */
  ghost function RunLength(source: PageSource, from: nat): nat
    decreases LastPage + 1 - from
  {
    if from > LastPage || !HasData(source(from)) then 0 else 1 + RunLength(source, from + 1)
  }

  /** How many pages the loader appends. */
  ghost function LoadedCount(source: PageSource): nat
  {
    RunLength(source, 1)
  }

  /** The list the loader publishes. */
  ghost function LoadedBanks(source: PageSource): seq<Bank>
  {
    Pages(source, LoadedCount(source))
  }

  /** The page numbers 1 to `n`, in increasing order. */
  function PageNumbers(n: nat): (r: seq<nat>)
    ensures |r| == n
    ensures forall i :: 0 <= i < n ==> r[i] == i + 1
  {
    if n == 0 then [] else PageNumbers(n - 1) + [n]
  }

  /** The pages the loader requests: every appended page, and the empty page
      that stopped it unless the bound stopped it first. */
  ghost function RequestedPages(source: PageSource): seq<nat>
  {
    var k := LoadedCount(source);
    PageNumbers(if k < LastPage then k + 1 else LastPage)
  }

  /** If the pages `from` to `stop - 1` all have data and `stop` is past
      the bound or has none, the run from `from` ends at `stop`. */
  lemma {:induction false} RunLengthUpTo(source: PageSource, from: nat, stop: nat)
    requires from <= stop <= LastPage + 1
    requires forall p :: from <= p < stop ==> HasData(source(p))
    requires stop <= LastPage ==> !HasData(source(stop))
    ensures RunLength(source, from) == stop - from
    decreases stop - from
  {
    if from < stop {
      RunLengthUpTo(source, from + 1, stop);
    }
  }

  /** The run from `from` stays within the bound, every page in it has data,
      and the page right after it, if within the bound, has none. */
  lemma {:induction false} RunLengthFacts(source: PageSource, from: nat)
    requires 1 <= from <= LastPage + 1
    ensures from + RunLength(source, from) <= LastPage + 1
    ensures forall p :: from <= p < from + RunLength(source, from) ==> HasData(source(p))
    ensures from + RunLength(source, from) <= LastPage ==>
      !HasData(source(from + RunLength(source, from)))
    decreases LastPage + 1 - from
  {
    if from <= LastPage && HasData(source(from)) {
      RunLengthFacts(source, from + 1);
    }
  }

  /** The number of appended pages is the number of consecutive pages with
      data from page 1 on, capped at `LastPage`, and nothing else. */
  lemma LoadedCountSpec(source: PageSource, k: nat)
    ensures k == LoadedCount(source) <==>
      k <= LastPage &&
      (forall p :: 1 <= p <= k ==> HasData(source(p))) &&
      (k < LastPage ==> !HasData(source(k + 1)))
  {
    RunLengthFacts(source, 1);
    if k <= LastPage && (forall p :: 1 <= p <= k ==> HasData(source(p))) &&
       (k < LastPage ==> !HasData(source(k + 1))) {
      RunLengthUpTo(source, 1, k + 1);
    }
  }

  /** The first `n` pages are a prefix of the first `m` pages. */
  lemma {:induction false} PagesPrefix(source: PageSource, n: nat, m: nat)
    requires n <= m
    ensures Pages(source, n) <= Pages(source, m)
    decreases m
  {
    if n < m {
      PagesPrefix(source, n, m - 1);
    }
  }

  /** Page `p` sits inside the concatenation right after pages 1 to `p - 1`. */
  lemma {:induction false} PagesAt(source: PageSource, p: nat, n: nat)
    requires 1 <= p <= n
    ensures |Pages(source, p - 1)| + |Data(source(p))| <= |Pages(source, n)|
    ensures Pages(source, n)[|Pages(source, p - 1)|..|Pages(source, p - 1)| + |Data(source(p))|]
      == Data(source(p))
  {
    PagesPrefix(source, p, n);
    var before := Pages(source, p - 1);
    assert Pages(source, p) == before + Data(source(p));
    assert Pages(source, n)[..|Pages(source, p)|] == Pages(source, p);
  }

  /** An empty (or falsy) first page publishes an empty list after one request. */
  lemma EmptyFirstPage(source: PageSource)
    requires !HasData(source(1))
    ensures LoadedBanks(source) == [] && RequestedPages(source) == [1]
  {
  }

  /** Pages with data, then an empty page: those pages in order, with one
      request more than there are pages. */
  lemma StopsAtEmptyPage(source: PageSource, k: nat)
    requires k < LastPage
    requires forall p :: 1 <= p <= k ==> HasData(source(p))
    requires !HasData(source(k + 1))
    ensures LoadedBanks(source) == Pages(source, k)
    ensures RequestedPages(source) == PageNumbers(k + 1)
  {
    LoadedCountSpec(source, k);
  }

  /** When every page up to the bound has data, exactly `LastPage` pages are
      requested and appended, whatever later pages hold. */
  lemma StopsAtLastPage(source: PageSource)
    requires forall p :: 1 <= p <= LastPage ==> HasData(source(p))
    ensures LoadedBanks(source) == Pages(source, LastPage)
    ensures RequestedPages(source) == PageNumbers(LastPage)
  {
    LoadedCountSpec(source, LastPage);
  }

  /** `fetchAllBanks` without the final state update: the loop over the
      pages. Returns the accumulated banks and the page numbers requested,
      in request order. */
  method FetchAllBanks(source: PageSource) returns (fetchedBanks: seq<Bank>, requested: seq<nat>)
    ensures fetchedBanks == LoadedBanks(source)
    ensures requested == RequestedPages(source)
    ensures |requested| <= LastPage
  {
    fetchedBanks := [];
    requested := [];
    var currentPage: nat := 1;
    while currentPage <= LastPage
      invariant 1 <= currentPage <= LastPage + 1
      invariant forall p :: 1 <= p < currentPage ==> HasData(source(p))
      invariant fetchedBanks == Pages(source, currentPage - 1)
      invariant requested == PageNumbers(currentPage - 1)
      decreases LastPage + 1 - currentPage
    {
      var data := source(currentPage);
      requested := requested + [currentPage];
      if data.Some? && |data.value| > 0 {
        fetchedBanks := fetchedBanks + data.value;
        currentPage := currentPage + 1;
      } else {
        break;
      }
    }
    RunLengthUpTo(source, 1, currentPage);
  }
}
