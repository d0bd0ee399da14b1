/**
 * The product feed's pagination: the screen's `products`, `skip`,
 * `hasMore` and `refreshing` state, `loadProducts`, the initial-load
 * effect, `handleLoadMore` and `handleRefresh`. Each fetch is one atomic
 * step whose outcome is a parameter.
 */
module FeedScreen {
  import opened Common
  import opened ProductsApi

  /** The page size of every request. */
  const Limit: nat := 10

  /** A product as the feed holds it; the floating-point price, discount and rating are not modelled. */
  datatype Product = Product(
    id: int, title: string, description: string, stock: int, brand: string,
    category: string, thumbnail: string, images: seq<string>)

  /** The server's answer to `/products?limit=..&skip=..`. */
  datatype ProductsResponse = ProductsResponse(products: seq<Product>, total: int, skip: int, limit: int)

  /** How a `fetchProducts(...).unwrap()` ends: a response, or a thrown error. */
  datatype FetchResult = Fetched(response: ProductsResponse) | FetchFailed

  /** One call of `fetchProducts`, with the `refreshing` flag shown while it is in flight. */
  datatype Request = Request(args: ProductsArgs, duringRefresh: bool)

  /**
   * The screen's state; `requests` lists, oldest first, every fetch the
   * screen has issued, and stands for the network.
   */
  datatype FeedState = FeedState(
    products: seq<Product>, skip: nat, hasMore: bool, refreshing: bool, requests: seq<Request>)

  /** The four `useState` initial values, before any fetch. */
  function InitialState(): (s: FeedState)
    ensures s.products == [] && s.skip == 0 && s.hasMore && !s.refreshing && s.requests == []
  {
    FeedState([], 0, true, false, [])
  }

  /**
   * `loadProducts(skipValue, append)`: issues one request for `Limit` items
   * at `skipValue`. On success the page is appended to, or replaces, the
   * list, `skip` moves one page past `skipValue`, and `hasMore` says whether
   * the server reports items beyond it. A failed fetch changes nothing but
   * the request log (the error it logs to the console is not modelled).
   */
  function Load(st: FeedState, skipValue: nat, append: bool, result: FetchResult): (r: FeedState)
    ensures r.refreshing == st.refreshing
    ensures r.requests == st.requests + [Request(ProductsArgs(Limit, skipValue), st.refreshing)]
    ensures result.FetchFailed? ==> r.products == st.products && r.skip == st.skip && r.hasMore == st.hasMore
    ensures result.Fetched? ==> r.skip == skipValue + Limit
    ensures result.Fetched? ==> (r.hasMore <==> skipValue + Limit < result.response.total)
    ensures result.Fetched? && append ==>
      && |r.products| == |st.products| + |result.response.products|
      && r.products[..|st.products|] == st.products
      && r.products[|st.products|..] == result.response.products
    ensures result.Fetched? && !append ==> r.products == result.response.products
  {
    var requests := st.requests + [Request(ProductsArgs(Limit, skipValue), st.refreshing)];
    match result
    case FetchFailed => st.(requests := requests)
    case Fetched(response) =>
      var products := if append then st.products + response.products else response.products;
      st.(products := products, skip := skipValue + Limit, hasMore := skipValue + Limit < response.total, requests := requests)
  }

  /** The mount effect: the first load, at offset 0, replacing the (empty) list. */
  function Mounted(result: FetchResult): (r: FeedState)
    ensures r.requests == [Request(ProductsArgs(Limit, 0), false)] && !r.refreshing
    ensures result.Fetched? ==> r.products == result.response.products && r.skip == Limit
    ensures result.FetchFailed? ==> r.products == [] && r.skip == 0 && r.hasMore
  {
    Load(InitialState(), 0, false, result)
  }

  /** `handleLoadMore`'s guard. */
  predicate LoadMoreFires(st: FeedState, isFetching: bool)
  {
    !isFetching && st.hasMore
  }

  /**
   * `handleLoadMore`: while a fetch is in flight or after the last page it
   * does nothing at all; otherwise it loads the page at the current `skip`
   * and appends it.
   */
  function LoadMore(st: FeedState, isFetching: bool, result: FetchResult): (r: FeedState)
    ensures (isFetching || !st.hasMore) ==> r == st
    ensures !isFetching && st.hasMore ==> r == Load(st, st.skip, true, result)
    ensures |r.requests| == |st.requests| + (if LoadMoreFires(st, isFetching) then 1 else 0)
  {
    if LoadMoreFires(st, isFetching) then Load(st, st.skip, true, result) else st
  }

  /**
   * `handleRefresh`: the list is reloaded from offset 0 and replaced, never
   * appended to; `refreshing` is on while the request is in flight and off
   * afterwards, whether or not the fetch succeeded.
   */
  function Refresh(st: FeedState, result: FetchResult): (r: FeedState)
    ensures !r.refreshing
    ensures r.requests == st.requests + [Request(ProductsArgs(Limit, 0), true)]
    ensures result.Fetched? ==> r.products == result.response.products && r.skip == Limit
    ensures result.Fetched? ==> (r.hasMore <==> Limit < result.response.total)
    ensures result.FetchFailed? ==> r.products == st.products && r.skip == st.skip && r.hasMore == st.hasMore
  {
    Load(st.(refreshing := true), 0, false, result).(refreshing := false)
  }

  /** What the user can do once the feed has mounted. */
  datatype Event =
    | EndReached(isFetching: bool, result: FetchResult)
    | PulledToRefresh(result: FetchResult)

  function Step(st: FeedState, e: Event): FeedState
  {
    match e
    case EndReached(isFetching, result) => LoadMore(st, isFetching, result)
    case PulledToRefresh(result) => Refresh(st, result)
  }

  /** The state reached from `st` by applying `events`, in order. */
  function Run(st: FeedState, events: seq<Event>): FeedState
    decreases |events|
  {
    if events == [] then st else Run(Step(st, events[0]), events[1..])
  }

  /**
   * The invariant of every state the screen can reach between events:
   * `skip` is a whole number of pages, no refresh is in progress, and every
   * request issued asked for one page at a whole-page offset.
   */
  ghost predicate Settled(st: FeedState)
  {
    && st.skip % Limit == 0
    && !st.refreshing
    && forall i :: 0 <= i < |st.requests| ==> st.requests[i].args.limit == Limit && st.requests[i].args.skip % Limit == 0
  }

  lemma StepKeepsSettled(st: FeedState, e: Event)
    requires Settled(st)
    ensures Settled(Step(st, e))
  {
    var r := Step(st, e);
    assert r.requests[..|st.requests|] == st.requests;
  }

  /** Whatever happens after mounting, the screen stays settled between events. */
  lemma {:induction false} RunKeepsSettled(initial: FetchResult, events: seq<Event>)
    ensures Settled(Run(Mounted(initial), events))
  {
    RunFromSettled(Mounted(initial), events);
  }

  lemma {:induction false} RunFromSettled(st: FeedState, events: seq<Event>)
    requires Settled(st)
    ensures Settled(Run(st, events))
    decreases |events|
  {
    if events != [] {
      StepKeepsSettled(st, events[0]);
      RunFromSettled(Step(st, events[0]), events[1..]);
    }
  }

  /** A load-more attempt while a fetch is in flight issues no request and changes nothing. */
  lemma {:induction false} InFlightEndReachedIgnored(st: FeedState, events: seq<Event>)
    requires forall i :: 0 <= i < |events| ==> events[i].EndReached? && events[i].isFetching
    ensures Run(st, events) == st
    decreases |events|
  {
    if events != [] {
      InFlightEndReachedIgnored(st, events[1..]);
    }
  }

  /** A server that pages honestly through a fixed `catalog`. */
  function Serve(catalog: seq<Product>, args: ProductsArgs): ProductsResponse
  {
    var lo := Min(args.skip, |catalog|);
    var hi := Min(args.skip + args.limit, |catalog|);
    ProductsResponse(catalog[lo..hi], |catalog|, args.skip, args.limit)
  }

  /** Mount, then `n` end-of-list triggers with no fetch in flight, against the honest server. */
  function Scroll(catalog: seq<Product>, n: nat): FeedState
  {
    if n == 0 then Mounted(Fetched(Serve(catalog, ProductsArgs(Limit, 0))))
    else
      var st := Scroll(catalog, n - 1);
      LoadMore(st, false, Fetched(Serve(catalog, ProductsArgs(Limit, st.skip))))
  }

  /** The requests of a session that has loaded the pages before `skip`, one per page, in order. */
  function PageRequests(pages: nat): (rs: seq<Request>)
    ensures |rs| == pages
    ensures forall i :: 0 <= i < pages ==> rs[i] == Request(ProductsArgs(Limit, i * Limit), false)
  {
    if pages == 0 then [] else PageRequests(pages - 1) + [Request(ProductsArgs(Limit, (pages - 1) * Limit), false)]
  }

  /**
   * After mounting and `n` load-more triggers the feed holds exactly the
   * first `min(skip, total)` products of the catalog, in order; `skip` is a
   * whole number of pages and moved one page per fetch; `hasMore` is false
   * exactly when `skip` reached the total, and then `skip` is the first
   * page boundary at or past it; one request was issued per page.
   */
  lemma {:induction false} ScrollShape(catalog: seq<Product>, n: nat)
    ensures var st := Scroll(catalog, n);
      && st.skip % Limit == 0 && Limit <= st.skip <= (n + 1) * Limit
      && (st.hasMore <==> st.skip < |catalog|)
      && (st.hasMore ==> st.skip == (n + 1) * Limit)
      && (st.skip == Limit || st.skip - Limit < |catalog|)
      && st.products == catalog[..Min(st.skip, |catalog|)]
      && st.requests == PageRequests(st.skip / Limit)
      && !st.refreshing
  {
    if n == 0 {
      var st := Scroll(catalog, 0);
      assert st.requests == PageRequests(1);
    } else {
      ScrollShape(catalog, n - 1);
      var prev := Scroll(catalog, n - 1);
      if prev.hasMore {
        var page := Serve(catalog, ProductsArgs(Limit, prev.skip)).products;
        var st := Scroll(catalog, n);
        assert st.products == prev.products + page;
        assert catalog[..Min(st.skip, |catalog|)] == catalog[..prev.skip] + page;
        assert st.requests == PageRequests(st.skip / Limit);
      }
    }
  }

  /** No product is listed twice while the catalog's ids are distinct. */
  ghost predicate DistinctIds(ps: seq<Product>)
  {
    forall i, j :: 0 <= i < j < |ps| ==> ps[i].id != ps[j].id
  }

  lemma ScrollHasNoDuplicates(catalog: seq<Product>, n: nat)
    requires DistinctIds(catalog)
    ensures DistinctIds(Scroll(catalog, n).products)
  {
    ScrollShape(catalog, n);
  }

  /**
   * With 25 products: three fetches at skips 0, 10 and 20 leave `skip` at
   * 10, 20, 30 with 10, 20, 25 products and `hasMore` true, true, false;
   * the next trigger changes nothing.
   */
  lemma WorkedExample(catalog: seq<Product>)
    requires |catalog| == 25
    ensures Scroll(catalog, 0).skip == 10 && Scroll(catalog, 0).hasMore && |Scroll(catalog, 0).products| == 10
    ensures Scroll(catalog, 1).skip == 20 && Scroll(catalog, 1).hasMore && |Scroll(catalog, 1).products| == 20
    ensures Scroll(catalog, 2).skip == 30 && !Scroll(catalog, 2).hasMore && |Scroll(catalog, 2).products| == 25
    ensures Scroll(catalog, 3) == Scroll(catalog, 2)
    ensures |Scroll(catalog, 2).requests| == 3
  {
    ScrollShape(catalog, 0);
    ScrollShape(catalog, 1);
    ScrollShape(catalog, 2);
  }

  /**
   * A successful refresh discards every page loaded before it: the feed is
   * left as a fresh mount would leave it, whatever came before.
   */
  lemma RefreshRestartsFeed(st: FeedState, catalog: seq<Product>)
    ensures var r := Refresh(st, Fetched(Serve(catalog, ProductsArgs(Limit, 0))));
      var m := Scroll(catalog, 0);
      r.products == m.products && r.products == catalog[..Min(Limit, |catalog|)]
      && r.skip == m.skip && r.hasMore == m.hasMore && !r.refreshing
  {
  }

  /** The screen's state cells, updated by their setters. */
  class Feed {
    var products: seq<Product>
    var skip: nat
    var hasMore: bool
    var refreshing: bool
    var requests: seq<Request>

    function State(): FeedState
      reads this
    {
      FeedState(products, skip, hasMore, refreshing, requests)
    }

    ghost predicate Valid()
      reads this
    {
      Settled(State())
    }

    constructor ()
      ensures Valid()
      ensures State() == InitialState()
    {
      products, skip, hasMore, refreshing, requests := [], 0, true, false, [];
    }

    /** `loadProducts`: the fetch's outcome is `result`. */
    method LoadProducts(skipValue: nat, append: bool, result: FetchResult)
      modifies this
      ensures State() == Load(old(State()), skipValue, append, result)
    {
      requests := requests + [Request(ProductsArgs(Limit, skipValue), refreshing)];
      match result {
        case FetchFailed =>
        case Fetched(response) =>
          if append {
            products := products + response.products;
          } else {
            products := response.products;
          }
          skip := skipValue + Limit;
          hasMore := skipValue + Limit < response.total;
      }
    }

    /** The mount effect. */
    method InitialLoad(result: FetchResult)
      requires Valid()
      modifies this
      ensures Valid()
      ensures State() == Load(old(State()), 0, false, result)
    {
      LoadProducts(0, false, result);
      assert State().requests[..|old(State()).requests|] == old(State()).requests;
    }

    /** `handleLoadMore`; `fired` says whether a load was issued. */
    method HandleLoadMore(isFetching: bool, result: FetchResult) returns (fired: bool)
      requires Valid()
      modifies this
      ensures Valid()
      ensures fired == LoadMoreFires(old(State()), isFetching)
      ensures State() == LoadMore(old(State()), isFetching, result)
    {
      fired := !isFetching && hasMore;
      if fired {
        LoadProducts(skip, true, result);
      }
      StepKeepsSettled(old(State()), EndReached(isFetching, result));
    }

    /** `handleRefresh`. */
    method HandleRefresh(result: FetchResult)
      requires Valid()
      modifies this
      ensures Valid()
      ensures State() == Refresh(old(State()), result)
    {
      refreshing := true;
      LoadProducts(0, false, result);
      refreshing := false;
      StepKeepsSettled(old(State()), PulledToRefresh(result));
    }
  }
}
