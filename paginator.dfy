/** The offset/limit pagination loop shared by every list endpoint: fetch pages
    of PAGE_SIZE at offsets 0, PAGE_SIZE, 2 * PAGE_SIZE, ..., append each page's
    items, and stop as soon as the items gathered reach the total count reported
    by the page just fetched. Any failed page aborts the whole listing. */
module Paginator {
  import opened Wrappers
  import opened Models
  import opened Transport

  const PAGE_SIZE: nat := 25

  /** The window one fetch asks for. */
  datatype PageRequest = PageRequest(offset: nat, limit: nat)

  /** A page source: the controller's answer for a given offset and limit. */
  type Fetcher<T> = (nat, nat) -> Result<Envelope<T>, Error>

  /** How a listing ends. `OutOfFuel` is the model's own: the loop in the
      client has no bound, and the model gives up after `maxFetches` fetches. */
  datatype Listing<T> = Done(items: seq<T>) | Failed(error: Error) | OutOfFuel

  /** The k-th page, counting from 0. */
  function PageAt<T>(fetch: Fetcher<T>, k: nat): Result<Envelope<T>, Error> {
    fetch(PAGE_SIZE * k, PAGE_SIZE)
  }

  function ItemsAt<T>(fetch: Fetcher<T>, k: nat): seq<T> {
    match PageAt(fetch, k)
    case Success(page) => page.data
    case Failure(_) => []
  }

  /** The items of the first n pages, concatenated in fetch order. */
  function Collected<T>(fetch: Fetcher<T>, n: nat): seq<T>
    decreases n
  {
    if n == 0 then [] else Collected(fetch, n - 1) + ItemsAt(fetch, n - 1)
  }

  /** After the k-th page the items gathered reach that page's total count. */
  predicate Stops<T>(fetch: Fetcher<T>, k: nat) {
    PageAt(fetch, k).Success? && |Collected(fetch, k + 1)| >= PageAt(fetch, k).value.totalCount
  }

  /** The k-th page arrived and its total count is not yet reached. */
  predicate Continues<T>(fetch: Fetcher<T>, k: nat) {
    PageAt(fetch, k).Success? && |Collected(fetch, k + 1)| < PageAt(fetch, k).value.totalCount
  }

  /** A listing of `fetch` that issued n fetches ended with r: every page but the
      last asked for more, and the last one decided the outcome. */
  ghost predicate Paginated<T>(fetch: Fetcher<T>, maxFetches: nat, n: nat, r: Listing<T>) {
    && 1 <= n <= maxFetches
    && (forall k :: 0 <= k < n - 1 ==> Continues(fetch, k))
    && match r
       case Done(items) => Stops(fetch, n - 1) && items == Collected(fetch, n)
       case Failed(e) => PageAt(fetch, n - 1) == Failure(e)
       case OutOfFuel => n == maxFetches && Continues(fetch, n - 1)
  }

  /** The loop itself. `pages` records the window of every fetch, in order. */
  method Paginate<T>(fetch: Fetcher<T>, maxFetches: nat) returns (r: Listing<T>, pages: seq<PageRequest>)
    requires maxFetches > 0
    ensures |pages| >= 1
    ensures forall k :: 0 <= k < |pages| ==> pages[k] == PageRequest(PAGE_SIZE * k, PAGE_SIZE)
    ensures forall k :: 0 <= k < |pages| - 1 ==> pages[k + 1].offset == pages[k].offset + pages[k].limit
    ensures Paginated(fetch, maxFetches, |pages|, r)
  {
    var gathered: seq<T> := [];
    var offset: nat := 0;
    var limit: nat := PAGE_SIZE;
    pages := [];
    while |pages| < maxFetches
      invariant |pages| <= maxFetches
      invariant offset == PAGE_SIZE * |pages| && limit == PAGE_SIZE
      invariant forall k :: 0 <= k < |pages| ==> pages[k] == PageRequest(PAGE_SIZE * k, PAGE_SIZE)
      invariant forall k :: 0 <= k < |pages| ==> Continues(fetch, k)
      invariant gathered == Collected(fetch, |pages|)
      decreases maxFetches - |pages|
    {
      pages := pages + [PageRequest(offset, limit)];
      var page := fetch(offset, limit);
      if page.Failure? {
        return Failed(page.error), pages;
      }
      gathered := gathered + page.value.data;
      if |gathered| >= page.value.totalCount {
        return Done(gathered), pages;
      }
      offset := offset + limit;
    }
    r := OutOfFuel;
  }

  /** A run is determined by its page source and fuel: two runs of the same
      listing make the same number of fetches and end the same way. */
  lemma PaginatedUnique<T>(fetch: Fetcher<T>, maxFetches: nat, n: nat, r: Listing<T>, n': nat, r': Listing<T>)
    requires Paginated(fetch, maxFetches, n, r)
    requires Paginated(fetch, maxFetches, n', r')
    ensures n == n' && r == r'
  {
    assert n < n' ==> Continues(fetch, n - 1);
    assert n' < n ==> Continues(fetch, n' - 1);
  }

  /** A run that finished by itself (done or failed) is the run any larger fuel
      bound gives: the bound matters only for a listing that never finishes. */
  lemma FuelSuffices<T>(fetch: Fetcher<T>, maxFetches: nat, n: nat, r: Listing<T>, moreFetches: nat, n': nat, r': Listing<T>)
    requires Paginated(fetch, maxFetches, n, r) && !r.OutOfFuel?
    requires moreFetches >= n
    requires Paginated(fetch, moreFetches, n', r')
    ensures n' == n && r' == r
  {
    assert Paginated(fetch, moreFetches, n, r);
    PaginatedUnique(fetch, moreFetches, n, r, n', r');
  }

  /** The items gathered by the first k pages are a prefix of those gathered by
      any later point. */
  lemma {:induction false} CollectedPrefix<T>(fetch: Fetcher<T>, k: nat, n: nat)
    requires k <= n
    ensures Collected(fetch, k) <= Collected(fetch, n)
    decreases n - k
  {
    if k < n {
      CollectedPrefix(fetch, k, n - 1);
    }
  }

  /** Page k's items sit, unchanged and in order, right after those of the pages
      before it. */
  lemma PageInPlace<T>(fetch: Fetcher<T>, k: nat, n: nat)
    requires k < n
    ensures |Collected(fetch, k + 1)| <= |Collected(fetch, n)|
    ensures Collected(fetch, n)[|Collected(fetch, k)|..|Collected(fetch, k + 1)|] == ItemsAt(fetch, k)
  {
    CollectedPrefix(fetch, k + 1, n);
    var all := Collected(fetch, n);
    var before := Collected(fetch, k);
    var upTo := Collected(fetch, k + 1);
    assert upTo == before + ItemsAt(fetch, k);
    assert all[..|upTo|] == upTo;
    assert all[|before|..|upTo|] == upTo[|before|..];
  }

  /** When the first page reports a total of zero or less, the listing makes that
      one fetch and returns exactly its items. */
  lemma NonPositiveTotalFetchesOnce<T>(fetch: Fetcher<T>, maxFetches: nat, n: nat, r: Listing<T>)
    requires Paginated(fetch, maxFetches, n, r)
    requires PageAt(fetch, 0).Success? && PageAt(fetch, 0).value.totalCount <= 0
    ensures n == 1 && r == Done(PageAt(fetch, 0).value.data)
  {
    assert n > 1 ==> Continues(fetch, 0);
    assert Collected(fetch, 1) == [] + ItemsAt(fetch, 0);
  }

  /** A page that fails aborts the listing with that page's error, however many
      pages arrived before it; nothing gathered so far is returned. */
  lemma AbortsOnFailedPage<T>(fetch: Fetcher<T>, maxFetches: nat, n: nat, r: Listing<T>, k: nat)
    requires Paginated(fetch, maxFetches, n, r)
    requires k < maxFetches
    requires forall j :: 0 <= j < k ==> Continues(fetch, j)
    requires PageAt(fetch, k).Failure?
    ensures n == k + 1 && r == Failed(PageAt(fetch, k).error)
  {
    assert n - 1 < k ==> Continues(fetch, n - 1);
    assert n - 1 > k ==> Continues(fetch, k);
  }

  function Min(a: nat, b: nat): nat {
    if a <= b then a else b
  }

  /** The items a controller holding `data` returns for one window. */
  function Slice<T>(data: seq<T>, offset: nat, limit: nat): (s: seq<T>)
    ensures |s| <= limit
    ensures offset <= |data| ==> s == data[offset..Min(offset + limit, |data|)]
    ensures offset >= |data| ==> s == []
  {
    data[Min(offset, |data|)..Min(offset + limit, |data|)]
  }

  /** A well-behaved controller: it holds a fixed sequence and answers every
      window with that part of it and the sequence's length as total count. */
  function WindowServer<T>(data: seq<T>): Fetcher<T> {
    (offset: nat, limit: nat) =>
      Success(Envelope(offset, limit, |Slice(data, offset, limit)|, |data|, Slice(data, offset, limit)))
  }

  /** Against a well-behaved controller the first n pages hold exactly the
      first 25 * n items, with no gap and no repetition. */
  lemma {:induction false} WindowServerCollects<T>(data: seq<T>, n: nat)
    ensures Collected(WindowServer(data), n) == data[..Min(PAGE_SIZE * n, |data|)]
    decreases n
  {
    if n > 0 {
      WindowServerCollects(data, n - 1);
      var lo := Min(PAGE_SIZE * (n - 1), |data|);
      var hi := Min(PAGE_SIZE * n, |data|);
      assert ItemsAt(WindowServer(data), n - 1) == data[lo..hi];
      assert data[..lo] + data[lo..hi] == data[..hi];
    }
  }

  /** Fetches needed for a total of t items: ceil(t / 25), and one for an empty total. */
  function FetchesFor(total: nat): nat {
    if total == 0 then 1 else (total + PAGE_SIZE - 1) / PAGE_SIZE
  }

  lemma FetchesForBounds(total: nat)
    ensures FetchesFor(total) >= 1
    ensures PAGE_SIZE * FetchesFor(total) >= total
    ensures FetchesFor(total) > 1 ==> PAGE_SIZE * (FetchesFor(total) - 1) < total
  {
  }

  /** Page k of a well-behaved controller ends the listing exactly when 25 * (k + 1)
      windows cover the whole sequence. */
  lemma WindowServerStops<T>(data: seq<T>, k: nat)
    ensures Stops(WindowServer(data), k) <==> PAGE_SIZE * (k + 1) >= |data|
    ensures Continues(WindowServer(data), k) <==> PAGE_SIZE * (k + 1) < |data|
  {
    WindowServerCollects(data, k + 1);
  }

  /** Against a well-behaved controller holding T items, a listing given enough
      fuel returns exactly those items, in order, after ceil(T / 25) fetches
      (one when T is 0). */
  lemma WindowServerListing<T>(data: seq<T>, maxFetches: nat, n: nat, r: Listing<T>)
    requires maxFetches >= FetchesFor(|data|)
    requires Paginated(WindowServer(data), maxFetches, n, r)
    ensures n == FetchesFor(|data|) && r == Done(data)
  {
    var fetch := WindowServer(data);
    var need := FetchesFor(|data|);
    FetchesForBounds(|data|);
    WindowServerStops(data, n - 1);
    var last: nat := need - 1;
    WindowServerStops(data, last);
    assert n > need ==> Continues(fetch, last);
    assert PageAt(fetch, n - 1).Success?;
    WindowServerCollects(data, n);
  }

  /** The example of 60 items: three fetches, at offsets 0, 25 and 50. */
  lemma SixtyItems<T>(data: seq<T>, r: Listing<T>, pages: seq<PageRequest>)
    requires |data| == 60
    requires forall k :: 0 <= k < |pages| ==> pages[k] == PageRequest(PAGE_SIZE * k, PAGE_SIZE)
    requires Paginated(WindowServer(data), 3, |pages|, r)
    ensures pages == [PageRequest(0, 25), PageRequest(25, 25), PageRequest(50, 25)]
    ensures r == Done(data)
  {
    assert FetchesFor(60) == 3;
    WindowServerListing(data, 3, |pages|, r);
  }

  /** A controller that keeps answering with empty pages and a positive total
      never lets the listing finish: only the fuel bound ends it. */
  lemma EmptyPagesNeverFinish<T>(fetch: Fetcher<T>, maxFetches: nat, n: nat, r: Listing<T>)
    requires forall k: nat :: PageAt(fetch, k).Success? && PageAt(fetch, k).value.data == [] && PageAt(fetch, k).value.totalCount > 0
    requires Paginated(fetch, maxFetches, n, r)
    ensures r == OutOfFuel && n == maxFetches
  {
    EmptyPagesCollectNothing(fetch, n);
    assert Continues(fetch, n - 1);
  }

  lemma {:induction false} EmptyPagesCollectNothing<T>(fetch: Fetcher<T>, n: nat)
    requires forall k: nat :: PageAt(fetch, k).Success? && PageAt(fetch, k).value.data == []
    ensures Collected(fetch, n) == []
    decreases n
  {
    if n > 0 {
      EmptyPagesCollectNothing(fetch, n - 1);
      assert ItemsAt(fetch, n - 1) == [];
    }
  }
}
