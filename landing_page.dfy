/** The `LandingPage` component (App.tsx:94-140): the photo upload that rides
    out the checkout redirect in `sessionStorage`, the cancelled-return
    effect that restores it, and the pay button. */
module LandingPage {
  import opened Common
  import opened Dom
  import UrlSearch
  import StripeService
  import AppRouter
  import Reconciler

  datatype AppState = Idle | ImageUploaded

  /** What `handleImageUpload` gets to see (App.tsx:113-122): no file chosen,
      a read the reader completed with its data URL, or a read that failed,
      after which `reader.result` is `null`. */
  datatype FileRead = NoFile | Loaded(dataUrl: string) | ReadFailed

  /** The string `sessionStorage.setItem` keeps for the value `null`. */
  const NullText: string := "null"

  const ConnectFailedMessage: string := "Could not connect to payment. Please try again."

  /** The photo the mount effect restores (App.tsx:100-110): the stored one,
      when the address carries `payment=cancelled` and the storage a photo. */
  function CancelledReturn(env: Env): (restored: Option<string>)
    ensures restored.Some? <==>
      UrlSearch.Get(env.location.search, "payment") == Some("cancelled") && Truthy(StoredImage(env.session))
    ensures restored.Some? ==> restored == StoredImage(env.session) && restored.value != ""
  {
    if UrlSearch.Get(env.location.search, "payment") == Some("cancelled") then StoredImage(env.session) else None
  }

  /** One click on the pay button: the call of `redirectToCheckout`, if it
      was made, every alert shown, and the `isPaying` flag afterwards. */
  datatype PaymentClick = PaymentClick(call: Option<StripeService.CheckoutCall>, alerts: seq<string>, isPaying: bool)

  /** `handlePaymentClick` (App.tsx:126-136) with the photo state
      `uploaded`, the flag `wasPaying`, and the service's inputs. */
  function Pay(uploaded: Option<string>, wasPaying: bool, key: Option<string>, origin: string,
               load: StripeService.LoadResult, redirect: StripeService.RedirectResult): (p: PaymentClick)
    ensures p.call.Some? <==> Truthy(uploaded)
    ensures p.call.None? ==> p.alerts == [] && p.isPaying == wasPaying
    ensures p.call.Some? ==> p.call.value == StripeService.RedirectToCheckout(key, origin, load, redirect)
    ensures p.call.Some? ==> (p.isPaying <==> p.call.value.outcome == StripeService.Returned)
    ensures p.call.Some? ==>
      p.alerts == p.call.value.alerts + if p.isPaying then [] else [ConnectFailedMessage]
  {
    if !Truthy(uploaded) then PaymentClick(None, [], wasPaying)
    else
      var c := StripeService.RedirectToCheckout(key, origin, load, redirect);
      match c.outcome
      case Returned => PaymentClick(Some(c), c.alerts, true)
      case Threw(_) => PaymentClick(Some(c), c.alerts + [ConnectFailedMessage], false)
  }

  /** Without a configured key a click shows the service's alert and then
      the page's own, and the button is enabled again. */
  lemma UnconfiguredKeyAlertsTwice(uploaded: string, wasPaying: bool, key: Option<string>, origin: string,
                                   load: StripeService.LoadResult, redirect: StripeService.RedirectResult)
    requires uploaded != "" && !StripeService.KeyConfigured(key)
    ensures var p := Pay(Some(uploaded), wasPaying, key, origin, load, redirect);
      && p.alerts == [StripeService.KeyNotConfiguredMessage, ConnectFailedMessage]
      && !p.isPaying && p.call.value.request.None?
  {
  }

  /** When the provider resolves with `result.error`, its message is shown
      but nothing is thrown, so the button stays disabled. */
  lemma ResultErrorKeepsPaying(uploaded: string, wasPaying: bool, key: Option<string>, origin: string, message: string)
    requires uploaded != "" && StripeService.KeyConfigured(key)
    ensures var p := Pay(Some(uploaded), wasPaying, key, origin, StripeService.StripeLoaded, StripeService.ResultError(message));
      && p.alerts == [message] && p.isPaying
      && p.call.value.request == Some(StripeService.Request(origin))
  {
  }

  /** The browser one leg of the checkout returns to: the photo stored by the
      upload, and the root path of the origin with the leg's query. */
  function ReturnedTo(url: string, session: map<string, string>, photo: string): Env
  {
    Env(Location("/", SearchOf(url)), session[UploadedImageKey := photo], None)
  }

  /** Uploading a photo and cancelling the checkout brings the same photo
      back: the cancel URL opens the landing page with marker `cancelled`. */
  lemma CancelRestoresUpload(origin: string, session: map<string, string>, photo: string)
    requires '?' !in origin && photo != ""
    ensures var env := ReturnedTo(StripeService.Request(origin).cancelUrl, session, photo);
      AppRouter.Route(env.location.search) == AppRouter.LandingPage && CancelledReturn(env) == Some(photo)
  {
    AppRouter.ReturnUrlsRoute(origin);
  }

  /** Uploading a photo and paying opens the results page, whose effect starts
      generation with that same photo. */
  lemma PaymentStartsWithUpload(origin: string, session: map<string, string>, photo: string)
    requires '?' !in origin && photo != ""
    ensures var env := ReturnedTo(StripeService.Request(origin).successUrl, session, photo);
      && AppRouter.Route(env.location.search) == AppRouter.ResultsPage
      && Reconciler.Effect(env, false).generation == Some(photo)
  {
    AppRouter.ReturnUrlsRoute(origin);
  }

  class LandingPage {
    const window: Window
    var uploadedImage: Option<string>
    var isPaying: bool
    var appState: AppState
    /** Every call of `redirectToCheckout`, in call order. */
    var checkoutCalls: seq<StripeService.CheckoutCall>

    constructor (window: Window)
      ensures this.window == window
      ensures uploadedImage == None && !isPaying && appState == Idle && checkoutCalls == []
    {
      this.window := window;
      uploadedImage := None;
      isPaying := false;
      appState := Idle;
      checkoutCalls := [];
    }

    /** The mount effect (App.tsx:100-110): on a cancelled return the stored
        photo, if any, is shown again and the query is dropped from the
        address; any other address is left alone. */
    method RunCancelledEffect()
      requires window.Valid()
      modifies this`uploadedImage, this`appState, window`pathname, window`search
      ensures window.Valid()
      ensures var restored := CancelledReturn(old(window.State()));
        && (restored.Some? ==> uploadedImage == restored && appState == ImageUploaded)
        && (restored.None? ==> uploadedImage == old(uploadedImage) && appState == old(appState))
      ensures UrlSearch.Get(old(window.search), "payment") == Some("cancelled") ==>
        window.pathname == old(window.pathname) && window.search == ""
      ensures UrlSearch.Get(old(window.search), "payment") != Some("cancelled") ==>
        window.pathname == old(window.pathname) && window.search == old(window.search)
    {
      if UrlSearch.Get(window.search, "payment") == Some("cancelled") {
        var storedImage := window.GetItem(UploadedImageKey);
        if Truthy(storedImage) {
          uploadedImage := storedImage;
          appState := ImageUploaded;
        }
        ResolvePathAndQuery(window.pathname, "");
        assert window.pathname + "" == window.pathname;
        window.ReplaceState(window.pathname);
      }
    }

    /** `handleImageUpload` (App.tsx:112-124) once the file reader has
        finished with `read`. A failed read still runs `onloadend`: the photo
        state becomes `null` and the storage keeps the string "null". */
    method HandleImageUpload(read: FileRead)
      modifies this`uploadedImage, this`appState, window`session
      ensures read.Loaded? ==>
        && uploadedImage == Some(read.dataUrl) && appState == ImageUploaded
        && window.session == old(window.session)[UploadedImageKey := read.dataUrl]
      ensures read.ReadFailed? ==>
        && uploadedImage == None && appState == ImageUploaded
        && window.session == old(window.session)[UploadedImageKey := NullText]
      ensures read.NoFile? ==>
        uploadedImage == old(uploadedImage) && appState == old(appState) && window.session == old(window.session)
    {
      match read
      case NoFile =>
      case Loaded(dataUrl) =>
        uploadedImage := Some(dataUrl);
        appState := ImageUploaded;
        window.SetItem(UploadedImageKey, dataUrl);
      case ReadFailed =>
        uploadedImage := None;
        appState := ImageUploaded;
        window.SetItem(UploadedImageKey, NullText);
    }

    /** `handlePaymentClick` (App.tsx:126-136) with the service's inputs. */
    method HandlePaymentClick(key: Option<string>, load: StripeService.LoadResult, redirect: StripeService.RedirectResult)
      modifies this`isPaying, this`checkoutCalls, window`alerts
      ensures var p := Pay(old(uploadedImage), old(isPaying), key, window.origin, load, redirect);
        && isPaying == p.isPaying && checkoutCalls == old(checkoutCalls) + OptionToSeq(p.call)
        && window.alerts == old(window.alerts) + p.alerts
    {
      if !Truthy(uploadedImage) {
        return;
      }
      isPaying := true;
      var c := StripeService.RedirectToCheckout(key, window.origin, load, redirect);
      checkoutCalls := checkoutCalls + [c];
      window.alerts := window.alerts + c.alerts;
      if c.outcome.Threw? {
        window.Alert(ConnectFailedMessage);
        isPaying := false;
      }
    }
  }
}
