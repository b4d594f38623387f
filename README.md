# Past Yous: a verified model of the payment and generation flow

Past Yous is a browser app. The user uploads a photo and pays through a
hosted checkout. The photo is then reimagined in six decades, from the
1950s to the 2000s, by an external image generator. The results can be saved
one by one or as a composed album.

This project models the orchestration in `App.tsx` and
`services/stripeService.ts`, and proves properties of that model:

- **The landing page** (`LandingPage`). The upload is kept in `sessionStorage`
  under `uploadedImage`. The mount effect restores it after a cancelled
  checkout. The pay button calls `redirectToCheckout`.
- **The checkout service** (`StripeService`). It covers the key guard, the one
  fixed line item, the two return URLs, and when the call throws or returns.
- **The router and URL parsing** (`AppRouter`, `UrlSearch`). They map the
  return URLs to the page and payment marker they carry.
- **The results page** (`ResultsPage`). It is a class holding the component's
  state hooks, the browser window (`Dom.Window`) and the state of one
  `startGeneration` run:
  - the shared `decadesQueue`;
  - the two async workers, each at its loop head, waiting on one decade, or
    returned;
  - every call made to the generator.

  Each worker step is its own method. The methods `Advance`, `Complete` and
  `Settle` let the scheduler pick any waiting worker at each step.
- **The payment-return effect**, as a pure decision table (`Reconciler`). It is
  modelled both as written and with the guard its re-run needs. The
  page-load lifecycle that React runs it in is modelled as well.
- **The export rules** and the pure record rules (`Downloads`, `Gallery`,
  `JsObject`). These are `allDone`, the album's filter/reduce and the file
  names. A JavaScript object is modelled as an ordered list of entries;
  `{...o, [k]: v}` is `JsObject.Put`.

The external calls are parameters:
- `generateDecadeImage` is an `oracle: string -> Settlement`, or one
  `Settlement` per completion;
- `createAlbumPage` is a `Settlement`;
- `loadStripe` is a `LoadResult`;
- `stripe.redirectToCheckout` is a `RedirectResult`;
- the file reader's outcome is a `FileRead`: no file, a data URL, or a failed read.

`alert`, link clicks and `location.href` assignments are recorded in the
window's `alerts`, `downloads` and `navigation` fields.

Some behaviour of the program worth knowing:

- The photo lives only in `sessionStorage`, under `uploadedImage`.
- The generic error message "An unknown error occurred." is used only when
  a non-`Error` value is thrown. An `Error` with an empty message keeps its
  empty message (`Gallery.RecordOf`).
- A `result.error` from the provider is alerted but not thrown. The pay
  button therefore stays disabled (`LandingPage.ResultErrorKeepsPaying`).
- A single download needs a `done` record with a non-empty URL.
- The success branch rewrites the address to `pathname?page=results`.
- A failed file read still runs `onloadend`. The photo state becomes
  `null` and `sessionStorage` keeps the string `"null"`.

## Model

| member | source | states |
|---|---|---|
| UrlSearch.GetQuery | App.tsx:214-215 | `URLSearchParams.get` reads back the first value of a parameter from a query written as `?n=v&...` |
| UrlSearch.GetEmpty | App.tsx:228 | an empty query carries no parameter, so `get` returns null |
| JsObject.Put | App.tsx:256 | `{...prev, [decade]: r}` keeps an existing key in place or appends a new one; it maps `decade` to `r` and leaves every other key's value unchanged |
| Gallery.DecadesWellFormed | App.tsx:13 | the six decade labels are distinct and non-empty |
| Gallery.RecordOf | App.tsx:253-259 | a settled call gives `done` with the URL on success; on failure it gives `error` with the `Error`'s message, or "An unknown error occurred." for any other thrown value; it is never `pending` |
| Gallery.PromptIdentifiesDecade | App.tsx:254 | different decades get different prompt texts |
| Gallery.DownloadNameIdentifiesDecade | App.tsx:285 | different decades get different `past-yous-<decade>.jpg` names |
| Gallery.AllDoneIff | App.tsx:319 | `allDone` holds exactly when some decade has a record and no record is `pending` |
| Gallery.AlbumData | App.tsx:295-297 | the filter/reduce maps each decade to its URL exactly when its record is `done` with a non-empty URL; it is empty exactly when no record qualifies |
| Gallery.BuildInitialImages | App.tsx:245-246 | `initialImages` has exactly the six decades, in order, all `pending` |
| Dom.StoredImage | App.tsx:218-219 | a stored photo counts as present exactly when it is non-empty |
| Dom.Resolve | App.tsx:223 | `replaceState` splits its URL at the first `?` into a path without `?` and a search part |
| Dom.ResolvePathAndQuery | App.tsx:223 | replacing the address with `pathname + query` yields that path and query |
| StripeService.RedirectToCheckout | services/stripeService.ts:13-54 | `loadStripe` is called exactly when the key is present, non-empty and free of `REPLACE_ME`. A request is sent exactly when Stripe also loads, and it is the fixed request. An unconfigured key alerts and throws its message. A null Stripe throws `Stripe.js failed to load.`. `result.error` is alerted, not thrown. The call returns normally exactly when the redirect call does not reject |
| StripeService.PlaceholderKeyRefused | services/stripeService.ts:14-18 | a key containing `REPLACE_ME` anywhere throws before `loadStripe` and sends no request |
| StripeService.RequestChargesTwoDollars | services/stripeService.ts:26-43 | the request has one line item, quantity 1, 200 cents in `usd`, mode `payment`, total 200 |
| AppRouter.Route | App.tsx:368-377 | the results page exactly when `page` reads back as `results`; an address with no query opens the landing page |
| AppRouter.SuccessQueryParams | services/stripeService.ts:44 | the success query carries `page=results` and `payment=success` |
| AppRouter.CancelQueryParams | services/stripeService.ts:45 | the cancel query carries `payment=cancelled` and no `page` |
| AppRouter.ResultsQueryParams | App.tsx:223 | the rewritten address `?page=results` still routes to the results page and carries no `payment` marker |
| AppRouter.SearchAfterOrigin | services/stripeService.ts:44-45 | the search part of `origin + query` is `query` |
| AppRouter.ReturnUrlsRoute | services/stripeService.ts:44-45 | the success URL routes to the results page with marker `success`; the cancel URL routes to the landing page with marker `cancelled`, through the router at App.tsx:368-377 |
| Reconciler.EffectAsWritten | App.tsx:213-240 | the effect's decision table. Generation starts exactly when a photo is stored and either the marker is `success` before any start, or the marker is missing or empty. On a start it is called with the stored photo, removes the photo and nothing else from storage, and sets the flag; the success path also rewrites the address to `pathname?page=results`. Without a start, it navigates to `/` exactly in those two branches and leaves storage, flag and address unchanged; any other marker changes nothing |
| Reconciler.Mount | App.tsx:241 | React runs the effect on mount, and once more exactly when that run set `isGenerationStarted`. A page load calls `startGeneration` exactly when the mount run does, with the same photo, and ends started exactly when that run started |
| Reconciler.NoPhotoNoStart | App.tsx:219 | without a stored photo, no number of runs starts generation |
| Reconciler.IdleStaysIdle | App.tsx:217-240 | a run that starts nothing leaves the marker and storage as they were, so later runs start nothing either |
| Reconciler.AtMostOneStart | App.tsx:217-241 | however many times the effect runs, `startGeneration` is called at most once |
| Reconciler.StartedIsQuiet | App.tsx:217 | with the guard, runs after a start change nothing |
| Reconciler.RerunAsWritten | App.tsx:228-233 | as written, the re-run after a start finds no marker and no photo, so it navigates to `/` without starting again |
| Reconciler.MountAsWrittenLeavesPage | App.tsx:220-241 | as written, a page load that starts generation calls it once with the stored photo and then leaves the page for `/` |
| Reconciler.MountKeepsPage | App.tsx:217-241 | with the guard, the same page load calls generation once, stays on the page, removes the photo and keeps `?page=results` after a paid return |
| Reconciler.GuardedNeverLeavesAfterStart | App.tsx:217-241 | with the guard, no number of further runs after a start navigates away |
| GenerationPool.CallsIdentifiedByPrompt | App.tsx:254-255 | two calls that send the same photo and prompt are for the same decade |
| GenerationPool.RequestedNonEmpty | App.tsx:267 | when every label is non-empty, `if (decade)` lets every dequeued label through |
| GenerationPool.CallsForRequested | App.tsx:266-267 | dequeuing a non-empty label adds exactly its call at the end |
| GenerationPool.Running | App.tsx:264-271 | the count of workers that have not returned is zero exactly when all have returned |
| GenerationPool.RunningUpdate | App.tsx:264-269 | changing one worker's state changes the count by that worker alone |
| GenerationPool.InFlight | App.tsx:264-267 | a decade is in flight exactly when some worker waits on its call; there are no more in flight than workers |
| GenerationPool.InFlightBound | App.tsx:249 | with `concurrencyLimit` workers, at most 2 calls are in flight, each for a different decade |
| GenerationPool.StartInv | App.tsx:245-250 | all records pending, the whole queue, no calls and two workers at their loop heads satisfy the pool invariant |
| GenerationPool.DequeueCall | App.tsx:266-267 | shifting a non-empty label sends the worker to wait on it and appends its call, keeping the invariant |
| GenerationPool.DequeueSkip | App.tsx:266-267 | shifting an empty label skips it, keeping the invariant |
| GenerationPool.ExitStep | App.tsx:265 | a worker that finds the queue empty returns, keeping the invariant |
| GenerationPool.CompleteStep | App.tsx:253-260 | writing a settled record for the awaited decade and sending its worker back to the loop head keeps the invariant |
| GenerationPool.CompleteRecorded | App.tsx:256-259 | every settled record equals the record of its decade's call outcome |
| GenerationPool.Finished | App.tsx:271 | once all workers have returned, every label was dequeued, one call was made per non-empty label in queue order, and no record is pending |
| GenerationPool.FinishedDecades | App.tsx:264-272 | over `DECADES`, the calls are one per decade in `DECADES` order, each record is its call's outcome, and `allDone` holds |
| Downloads.Individual | App.tsx:280-290 | a decade is saved exactly when its record is `done` with a non-empty URL, under `past-yous-<decade>.jpg` |
| Downloads.IndividualMatchesAlbum | App.tsx:282 | a decade can be saved alone exactly when the album would include it, with the same URL |
| Downloads.IndividualNamesDecade | App.tsx:285 | two saved files with the same name are the same decade's |
| Downloads.Album | App.tsx:292-317 | `createAlbumPage` is called exactly when some record is `done` with a URL, and then with exactly those decades and URLs. Without any, one "No images" alert. A composer failure gives one error alert. A success gives one `past-yous-album.jpg` download. There is always exactly one alert or one download |
| ResultsPage.ResultsPage.constructor | App.tsx:206-209 | the hooks start with no records, `isLoading` true, nothing downloading, generation not started |
| ResultsPage.ResultsPage.Advance | App.tsx:264-272 | one worker runs to its next `await` or its return. It skips empty labels, waits on the first non-empty one and records that call; with an empty queue it returns. It clears `isLoading` once every worker has returned, strictly decreasing queue length plus running workers |
| ResultsPage.ResultsPage.Shift | App.tsx:266-267 | `decadesQueue.shift()`; a non-empty label sends the worker to wait on it and appends its call |
| ResultsPage.ResultsPage.StartGeneration | App.tsx:243-270 | every decade pending, then the two workers request the first two decades in order, one each; loading |
| ResultsPage.ResultsPage.LaunchWorkers | App.tsx:264-269 | each of the two workers runs to its first `await`: exactly the calls for `1950s` and `1960s`, in that order |
| ResultsPage.ResultsPage.Record | App.tsx:253-260 | the settled call's record replaces only its own decade's record, and the worker returns to its loop head |
| ResultsPage.ResultsPage.Complete | App.tsx:253-269 | a settlement writes its decade's record, leaving all other records unchanged, and the worker goes on to the next decade or returns |
| ResultsPage.ResultsPage.Settle | App.tsx:243-273 | in any scheduling order, until `Promise.all` resolves: afterwards every decade was requested exactly once in `DECADES` order, every record is its call's outcome, `allDone` holds and `isLoading` is false |
| ResultsPage.ResultsPage.RunPaymentEffectAsWritten | App.tsx:213-240 | one run of the effect changes the window, the flag and the generation state exactly as `Reconciler.EffectAsWritten` says |
| ResultsPage.ResultsPage.RunPaymentEffect | App.tsx:213-240 | the same for the guarded `Reconciler.Effect` |
| ResultsPage.ResultsPage.MountAsWritten | App.tsx:213-241 | a page load as written (one run, and a second when the first set the flag) ends as `Reconciler.Mount(false, ...)` says |
| ResultsPage.ResultsPage.Mount | App.tsx:213-241 | the guarded page load ends as `Reconciler.Mount(true, ...)` says |
| ResultsPage.ResultsPage.StartOver | App.tsx:275-278 | the stored photo is removed and the page is left for `/` |
| ResultsPage.ResultsPage.DownloadIndividualImage | App.tsx:280-290 | saves exactly what `Downloads.Individual` says, and nothing else |
| ResultsPage.ResultsPage.DownloadAlbum | App.tsx:292-317 | the composer calls, alerts and downloads are exactly `Downloads.Album`'s; `isDownloading` is false afterwards on every path |
| LandingPage.CancelledReturn | App.tsx:100-110 | the photo is restored exactly when the marker is `cancelled` and a non-empty photo is stored |
| LandingPage.Pay | App.tsx:126-136 | without a photo nothing happens. Otherwise `redirectToCheckout` is called once; the button stays disabled exactly when the call returns; the page adds its own alert exactly when the call throws |
| LandingPage.UnconfiguredKeyAlertsTwice | App.tsx:129-135 | with no configured key, one click alerts the service's message and then the page's, and re-enables the button |
| LandingPage.ResultErrorKeepsPaying | services/stripeService.ts:48-53 | a `result.error` alerts its message once and leaves the button disabled |
| LandingPage.CancelRestoresUpload | App.tsx:100-124 | an uploaded photo returned to by the cancel URL is on the landing page and is restored unchanged |
| LandingPage.PaymentStartsWithUpload | App.tsx:213-223 | an uploaded photo returned to by the success URL is on the results page and starts generation with that same photo |
| LandingPage.LandingPage.constructor | App.tsx:95-97 | no photo, not paying, idle |
| LandingPage.LandingPage.RunCancelledEffect | App.tsx:100-110 | on `payment=cancelled` the address is cut to its path, and the stored photo, if any, is shown with `appState` image-uploaded; any other address changes nothing |
| LandingPage.LandingPage.HandleImageUpload | App.tsx:112-124 | a read data URL goes into React state and into `sessionStorage` under `uploadedImage`. A failed read sets the photo to null, the page to image-uploaded, and stores the string `"null"`. With no file, nothing changes |
| LandingPage.LandingPage.HandlePaymentClick | App.tsx:126-136 | the click's call, alerts and `isPaying` are exactly `LandingPage.Pay`'s |

## Left out

- Rendering, layout, animation and `useMediaQuery` (App.tsx:52-64, 142-201, 321-363), and the components, scripts and build configuration. None of them holds orchestration logic.
- `generateDecadeImage`, `createAlbumPage`, `loadStripe` and `stripe.redirectToCheckout` are not part of this model. Their answers are parameters.
- The provider's page takeover after a successful `redirectToCheckout` is not modelled. The call is taken to return.
- Real async timing. Interleaving is the scheduler's choice of waiting worker in `Settle`. Each `setState` is applied at once, not batched into a later render.
- The `FileReader` round trip in `handleImageUpload`. Its outcome is a parameter.
- Percent-decoding and `+` in `URLSearchParams`. The app's own queries contain neither.
- `sessionStorage` quota errors. A `setItem` always succeeds.
- `handleChangeImageClick`, which only clicks the hidden file input, and `console` logging.
- The intermediate `isDownloading = true` while the album is composed. Only the final `false` is stated.
- `ResultsPage.ResultsPage.JustStarted`: states the records and the first two calls after a start, but not which worker waits on which decade.
- `GenerationPool.DequeueSkip`: the empty-label branch is proved for any labels but cannot occur with `DECADES`, whose labels are non-empty.
- `GenerationPool.GenerationCall`: records a call by its decade rather than its prompt text. The prompt is `Gallery.Prompt(decade)`, and `GenerationPool.CallsIdentifiedByPrompt` shows that nothing is lost.
- Outstanding generation calls after "Start Over" are not modelled, because the page is left.

## Findings

| source | as written | input that shows it | evidently intended | confidence | as-written member | corrected member |
|---|---|---|---|---|---|---|
| App.tsx:228-241 | The effect depends on `[isGenerationStarted]`, so it runs again after `setIsGenerationStarted(true)`. By then the success branch has removed the photo (App.tsx:222) and rewritten the address to `?page=results` (App.tsx:223). The re-run therefore takes the unguarded `!paymentStatus` branch and sets `window.location.href = '/'`. | a load of `/?page=results&payment=success` with `uploadedImage` stored | generation starts once and the page stays on the results view | not executed | Reconciler.MountAsWrittenLeavesPage | Reconciler.MountKeepsPage |
