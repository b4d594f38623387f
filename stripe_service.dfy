/** services/stripeService.ts: the configuration guard, the fixed checkout
    request and the return URLs of `redirectToCheckout`. `loadStripe` and
    `stripe.redirectToCheckout` are external; their answers are parameters. */
module StripeService {
  import opened Common

  const KeyNotConfiguredMessage: string :=
    "Stripe publishable key is not configured. Please set VITE_STRIPE_PUBLISHABLE_KEY in your .env.local file"
  const LoadFailedMessage: string := "Stripe.js failed to load."
  const PlaceholderMarker: string := "REPLACE_ME"

  /** The query strings appended to the origin for the two return legs. */
  const SuccessQuery: string := "?page=results&payment=success"
  const CancelQuery: string := "?payment=cancelled"

  datatype ProductData = ProductData(name: string, description: string)
  datatype PriceData = PriceData(currency: string, productData: ProductData, unitAmount: int)
  datatype LineItem = LineItem(priceData: PriceData, quantity: int)
  datatype CheckoutRequest = CheckoutRequest(lineItems: seq<LineItem>, mode: string, successUrl: string, cancelUrl: string)

  /** How `await loadStripe(key)` settles. */
  datatype LoadResult = StripeLoaded | StripeNull | LoadRejected(thrown: Thrown)

  /** How `await stripe.redirectToCheckout(...)` settles: the provider takes
      the page over, or resolves with `result.error`, or rejects. */
  datatype RedirectResult = Redirecting | ResultError(message: string) | RedirectRejected(thrown: Thrown)

  /** How the call to `redirectToCheckout` itself ends. */
  datatype Outcome = Returned | Threw(thrown: Thrown)

  /** Everything one call does: the key `loadStripe` is called with, the
      request sent to the provider, the alerts shown, and how it ends. */
  datatype CheckoutCall = CheckoutCall(loadedWith: Option<string>, request: Option<CheckoutRequest>,
                                       alerts: seq<string>, outcome: Outcome)

  /** The guard of stripeService.ts:14, negated: a key is present, non-empty
      and not the placeholder. */
  predicate KeyConfigured(key: Option<string>)
  {
    key.Some? && key.value != "" && !Includes(key.value, PlaceholderMarker)
  }

  /** The one request the service ever sends (stripeService.ts:26-46). */
  function Request(origin: string): CheckoutRequest
  {
    CheckoutRequest(
      [LineItem(PriceData("usd", ProductData("Past Yous Generation", "AI-powered image generation for 6 decades."), 200), 1)],
      "payment",
      origin + SuccessQuery,
      origin + CancelQuery)
  }

  /** What the customer pays, in cents. */
  function TotalCents(items: seq<LineItem>): int
  {
    if items == [] then 0 else items[0].priceData.unitAmount * items[0].quantity + TotalCents(items[1..])
  }

  /** One line item of quantity 1 at 200 cents in US dollars, paid once. */
  lemma RequestChargesTwoDollars(origin: string)
    ensures var r := Request(origin);
      && |r.lineItems| == 1 && r.lineItems[0].quantity == 1
      && r.lineItems[0].priceData.unitAmount == 200 && r.lineItems[0].priceData.currency == "usd"
      && r.mode == "payment" && TotalCents(r.lineItems) == 200
  {
  }

  /** `redirectToCheckout()` with the configured key `key`, on a page whose
      origin is `origin`, when `loadStripe` would settle as `load` and the
      provider as `redirect`. */
  function RedirectToCheckout(key: Option<string>, origin: string, load: LoadResult, redirect: RedirectResult): (c: CheckoutCall)
    ensures c.loadedWith.Some? <==> KeyConfigured(key)
    ensures c.loadedWith.Some? ==> c.loadedWith == key
    ensures c.request.Some? <==> KeyConfigured(key) && load == StripeLoaded
    ensures c.request.Some? ==> c.request.value == Request(origin)
    ensures c.outcome == Returned <==> KeyConfigured(key) && load == StripeLoaded && !redirect.RedirectRejected?
    ensures !KeyConfigured(key) ==>
      c.outcome == Threw(ErrorObject(KeyNotConfiguredMessage)) && c.alerts == [KeyNotConfiguredMessage]
    ensures KeyConfigured(key) && load == StripeNull ==> c.outcome == Threw(ErrorObject(LoadFailedMessage))
    ensures KeyConfigured(key) ==> c.alerts == if c.request.Some? && redirect.ResultError? then [redirect.message] else []
  {
    if !KeyConfigured(key) then
      CheckoutCall(None, None, [KeyNotConfiguredMessage], Threw(ErrorObject(KeyNotConfiguredMessage)))
    else
      match load
      case LoadRejected(e) => CheckoutCall(key, None, [], Threw(e))
      case StripeNull => CheckoutCall(key, None, [], Threw(ErrorObject(LoadFailedMessage)))
      case StripeLoaded =>
        var request := Request(origin);
        match redirect
        case Redirecting => CheckoutCall(key, Some(request), [], Returned)
        case ResultError(m) => CheckoutCall(key, Some(request), [m], Returned)
        case RedirectRejected(e) => CheckoutCall(key, Some(request), [], Threw(e))
  }

  /** A key carrying the placeholder anywhere is refused before `loadStripe`. */
  lemma PlaceholderKeyRefused(prefix: string, suffix: string, origin: string, load: LoadResult, redirect: RedirectResult)
    ensures var c := RedirectToCheckout(Some(prefix + PlaceholderMarker + suffix), origin, load, redirect);
      c.loadedWith.None? && c.request.None? && c.outcome == Threw(ErrorObject(KeyNotConfiguredMessage))
  {
    var key := prefix + PlaceholderMarker + suffix;
    assert OccursAt(key, PlaceholderMarker, |prefix|) by {
      assert key[|prefix|..|prefix| + |PlaceholderMarker|] == PlaceholderMarker;
    }
    IncludesIffOccurs(key, PlaceholderMarker);
  }
}
