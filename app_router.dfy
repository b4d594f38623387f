/** The `App` router (App.tsx:368-377) and what it makes of the URLs the
    checkout returns to and the results page rewrites. */
module AppRouter {
  import opened Common
  import UrlSearch
  import Dom
  import StripeService

  datatype Page = LandingPage | ResultsPage

  /** `?page=results` selects the results page; anything else the landing page. */
  function Route(search: string): (page: Page)
    ensures page == ResultsPage <==> UrlSearch.Get(search, "page") == Some("results")
    ensures search == "" ==> page == LandingPage
  {
    UrlSearch.GetEmpty("page");
    if UrlSearch.Get(search, "page") == Some("results") then ResultsPage else LandingPage
  }

  /** The query the results page leaves in the address after starting (App.tsx:223). */
  const ResultsQuery: string := "?page=results"

  lemma SuccessQueryParams()
    ensures UrlSearch.Get(StripeService.SuccessQuery, "page") == Some("results")
    ensures UrlSearch.Get(StripeService.SuccessQuery, "payment") == Some("success")
  {
    var pairs := [("page", "results"), ("payment", "success")];
    assert StripeService.SuccessQuery == UrlSearch.Query(pairs);
    UrlSearch.GetQuery(pairs, "page");
    UrlSearch.GetQuery(pairs, "payment");
  }

  lemma CancelQueryParams()
    ensures UrlSearch.Get(StripeService.CancelQuery, "page") == None
    ensures UrlSearch.Get(StripeService.CancelQuery, "payment") == Some("cancelled")
  {
    var pairs := [("payment", "cancelled")];
    assert StripeService.CancelQuery == UrlSearch.Query(pairs);
    UrlSearch.GetQuery(pairs, "page");
    UrlSearch.GetQuery(pairs, "payment");
  }

  /** After the success branch the address still opens the results page but
      no longer carries a payment marker. */
  lemma ResultsQueryParams()
    ensures Route(ResultsQuery) == ResultsPage
    ensures UrlSearch.Get(ResultsQuery, "payment") == None
  {
    var pairs := [("page", "results")];
    assert ResultsQuery == UrlSearch.Query(pairs);
    UrlSearch.GetQuery(pairs, "page");
    UrlSearch.GetQuery(pairs, "payment");
  }

  /** The search part of `origin + query` is `query`. */
  lemma SearchAfterOrigin(origin: string, query: string)
    requires '?' !in origin && |query| > 0 && query[0] == '?'
    ensures Dom.SearchOf(origin + query) == query
  {
    FirstIndexAfter(origin, '?', query[1..]);
    assert origin + query == origin + ['?'] + query[1..];
    assert (origin + query)[|origin|..] == query;
  }

  /** The checkout's success URL opens the results page with marker
      `success`; its cancel URL opens the landing page with marker `cancelled`. */
  lemma ReturnUrlsRoute(origin: string)
    requires '?' !in origin
    ensures var s := Dom.SearchOf(StripeService.Request(origin).successUrl);
      Route(s) == ResultsPage && UrlSearch.Get(s, "payment") == Some("success")
    ensures var s := Dom.SearchOf(StripeService.Request(origin).cancelUrl);
      Route(s) == LandingPage && UrlSearch.Get(s, "payment") == Some("cancelled")
  {
    SearchAfterOrigin(origin, StripeService.SuccessQuery);
    SearchAfterOrigin(origin, StripeService.CancelQuery);
    SuccessQueryParams();
    CancelQueryParams();
  }
}
