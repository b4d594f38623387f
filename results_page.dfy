/** The `ResultsPage` component (App.tsx:204-366) as an object: its state
    hooks, the closure state of its one `startGeneration` call with the two
    workers of the pool, and the browser window it acts on. The generation
    and album services are external; their calls are recorded and their
    answers are parameters. */
module ResultsPage {
  import opened Common
  import opened JsObject
  import opened Gallery
  import opened GenerationPool
  import opened Dom
  import Reconciler
  import Downloads
  import UrlSearch
  import AppRouter

  class ResultsPage {
    const window: Window
    var generatedImages: Images
    var isLoading: bool
    var isDownloading: bool
    var isGenerationStarted: bool
    /** The photo `startGeneration` was called with. */
    var imageDataUrl: string
    /** `decadesQueue`, which both workers shift. */
    var decadesQueue: seq<string>
    /** The workers of the pool; empty until `startGeneration` runs. */
    var workers: seq<WorkerState>
    /** Every call of `generateDecadeImage`, in call order. */
    var generationCalls: seq<GenerationCall>
    /** The `imageData` of every call of `createAlbumPage`, in call order. */
    var albumCalls: seq<Entries<string>>
    /** The labels shifted off the queue so far. */
    ghost var dequeued: seq<string>

    ghost predicate PoolValid()
      reads this
    {
      if workers == [] then generatedImages == [] && generationCalls == []
      else Inv(Decades, imageDataUrl, generatedImages, decadesQueue, dequeued, workers, generationCalls)
    }

    /** Between two events no worker is between loop iterations. */
    ghost predicate Quiescent()
      reads this
    {
      forall w :: 0 <= w < |workers| ==> !workers[w].AtLoopHead?
    }

    /** `isLoading` is cleared exactly when `Promise.all(workers)` resolves. */
    ghost predicate LoadingTracks()
      reads this
    {
      workers != [] ==> (isLoading <==> !AllExited(workers))
    }

    ghost predicate Valid()
      reads this, window
    {
      && window.Valid() && PoolValid() && Quiescent() && LoadingTracks()
      && (isGenerationStarted <==> workers != [])
      && (isGenerationStarted ==> StoredImage(window.session).None?)
    }

    /** What `startGeneration(image)` leaves behind when it suspends: every
        decade pending and the first two decades requested, one per worker. */
    ghost predicate JustStarted(image: string)
      reads this
    {
      && imageDataUrl == image && isLoading
      && Keys(generatedImages) == Decades && (forall e :: e in generatedImages ==> e.1 == Pending)
      && generationCalls == CallsFor(image, Decades[..2])
    }

    constructor (window: Window)
      requires window.Valid()
      ensures Valid() && this.window == window
      ensures generatedImages == [] && isLoading && !isDownloading && !isGenerationStarted
      ensures generationCalls == [] && albumCalls == []
    {
      this.window := window;
      generatedImages := [];
      isLoading := true;
      isDownloading := false;
      isGenerationStarted := false;
      imageDataUrl := "";
      decadesQueue := [];
      workers := [];
      generationCalls := [];
      albumCalls := [];
      dequeued := [];
    }

    /** One worker of the pool runs from its loop head to its next `await`
        or its return (App.tsx:264-269); when it is the last to return,
        `Promise.all` resolves and `isLoading` is cleared (App.tsx:271-272). */
    method Advance(w: nat)
      requires PoolValid() && LoadingTracks() && w < |workers| && workers[w].AtLoopHead?
      modifies this`decadesQueue, this`workers, this`generationCalls, this`dequeued, this`isLoading
      ensures PoolValid() && LoadingTracks()
      ensures workers == old(workers)[w := workers[w]] && !workers[w].AtLoopHead?
      ensures |decadesQueue| + Running(workers) < old(|decadesQueue| + Running(workers))
      ensures old(decadesQueue) != [] && old(decadesQueue)[0] != "" ==>
        && workers[w] == Awaiting(old(decadesQueue)[0]) && decadesQueue == old(decadesQueue)[1..]
        && generationCalls == old(generationCalls) + [GenerationCall(imageDataUrl, old(decadesQueue)[0])]
      ensures old(decadesQueue) == [] ==>
        workers[w] == Exited && decadesQueue == [] && generationCalls == old(generationCalls)
    {
      ghost var queue0 := decadesQueue;
      assert isLoading by {
        assert !workers[w].Exited?;
      }
      while workers[w].AtLoopHead?
        invariant isLoading
        invariant Inv(Decades, imageDataUrl, generatedImages, decadesQueue, dequeued, workers, generationCalls)
        invariant w < |workers| && workers == old(workers)[w := workers[w]]
        invariant |decadesQueue| <= |queue0|
        invariant workers[w].Awaiting? ==> |decadesQueue| < |queue0|
        invariant queue0 != [] && queue0[0] != "" ==>
          || (workers[w].AtLoopHead? && decadesQueue == queue0 && generationCalls == old(generationCalls))
          || (&& workers[w] == Awaiting(queue0[0]) && decadesQueue == queue0[1..]
              && generationCalls == old(generationCalls) + [GenerationCall(imageDataUrl, queue0[0])])
        invariant queue0 == [] ==>
          decadesQueue == [] && !workers[w].Awaiting? && generationCalls == old(generationCalls)
        decreases |decadesQueue| + (if workers[w].AtLoopHead? then 1 else 0)
      {
        if decadesQueue == [] {
          ExitStep(Decades, imageDataUrl, generatedImages, decadesQueue, dequeued, workers, generationCalls, w);
          workers := workers[w := Exited];
        } else {
          Shift(w);
        }
      }
      if AllExited(workers) {
        isLoading := false;
      }
      assert workers == old(workers)[w := workers[w]];
      RunningUpdate(old(workers), w, workers[w]);
    }

    /** One iteration of a worker's loop: `decadesQueue.shift()` and, for a
        non-empty label, `processDecade` up to its `await` (App.tsx:266-267). */
    method Shift(w: nat)
      requires PoolValid() && w < |workers| && workers[w].AtLoopHead? && decadesQueue != []
      modifies this`decadesQueue, this`workers, this`generationCalls, this`dequeued
      ensures PoolValid()
      ensures decadesQueue == old(decadesQueue)[1..]
      ensures old(decadesQueue)[0] != "" ==>
        && workers == old(workers)[w := Awaiting(old(decadesQueue)[0])]
        && generationCalls == old(generationCalls) + [GenerationCall(imageDataUrl, old(decadesQueue)[0])]
      ensures old(decadesQueue)[0] == "" ==> workers == old(workers) && generationCalls == old(generationCalls)
    {
      var decade := decadesQueue[0];
      ShiftDecades(imageDataUrl, generatedImages, decadesQueue, dequeued, workers, generationCalls, w);
      decadesQueue := decadesQueue[1..];
      dequeued := dequeued + [decade];
      if decade != "" {
        generationCalls := generationCalls + [GenerationCall(imageDataUrl, decade)];
        workers := workers[w := Awaiting(decade)];
      }
    }

    /** `startGeneration(image)` up to its `await Promise.all` (App.tsx:243-270):
        every decade is set pending, then each worker in turn dequeues a
        decade and calls the generator for it. */
    method StartGeneration(image: string)
      requires PoolValid() && workers == []
      modifies this`isLoading, this`generatedImages, this`imageDataUrl, this`decadesQueue,
               this`workers, this`generationCalls, this`dequeued
      ensures PoolValid() && Quiescent() && LoadingTracks()
      ensures JustStarted(image)
    {
      isLoading := true;
      var initialImages := BuildInitialImages();
      generatedImages := initialImages;
      imageDataUrl := image;
      decadesQueue := Decades;
      dequeued := [];
      generationCalls := [];
      workers := [AtLoopHead, AtLoopHead];
      StartDecades(image, initialImages);
      LaunchWorkers();
    }

    /** `Array(concurrencyLimit).fill(null).map(async () => ...)`: each
        worker runs until its first `await` (App.tsx:264-269). */
    method LaunchWorkers()
      requires PoolValid() && isLoading && workers == [AtLoopHead, AtLoopHead]
      requires decadesQueue == Decades && generationCalls == []
      modifies this`decadesQueue, this`workers, this`generationCalls, this`dequeued, this`isLoading
      ensures PoolValid() && Quiescent() && LoadingTracks() && isLoading
      ensures generationCalls == CallsFor(imageDataUrl, Decades[..2])
    {
      FirstTwoDecades(imageDataUrl);
      assert !workers[0].Exited?;
      Advance(0);
      assert generationCalls == [GenerationCall(imageDataUrl, Decades[0])];
      Advance(1);
    }

    /** The generation call worker `w` waits on settles as `outcome`:
        `processDecade` writes the decade's record (App.tsx:253-260) and the
        worker goes on with its loop. */
    method Complete(w: nat, outcome: Settlement)
      requires PoolValid() && Quiescent() && LoadingTracks()
      requires w < |workers| && workers[w].Awaiting?
      modifies this`generatedImages, this`decadesQueue, this`workers, this`generationCalls, this`dequeued, this`isLoading
      ensures PoolValid() && Quiescent() && LoadingTracks()
      ensures generatedImages == Put(old(generatedImages), old(workers[w].decade), RecordOf(outcome))
      ensures |decadesQueue| + Running(workers) < old(|decadesQueue| + Running(workers))
      ensures workers == old(workers)[w := workers[w]]
      ensures old(decadesQueue) != [] && old(decadesQueue)[0] != "" ==>
        && workers[w] == Awaiting(old(decadesQueue)[0])
        && generationCalls == old(generationCalls) + [GenerationCall(imageDataUrl, old(decadesQueue)[0])]
      ensures old(decadesQueue) == [] ==> workers[w] == Exited && generationCalls == old(generationCalls)
    {
      ghost var measure := |decadesQueue| + Running(workers);
      Record(w, outcome);
      assert |decadesQueue| + Running(workers) == measure;
      Advance(w);
    }

    /** `processDecade` after its `await`: the decade's record is written
        (App.tsx:253-260) and the worker is back at its loop head. */
    method Record(w: nat, outcome: Settlement)
      requires PoolValid() && LoadingTracks()
      requires w < |workers| && workers[w].Awaiting?
      modifies this`generatedImages, this`workers
      ensures PoolValid() && LoadingTracks()
      ensures generatedImages == Put(old(generatedImages), old(workers[w].decade), RecordOf(outcome))
      ensures workers == old(workers)[w := AtLoopHead]
      ensures Running(workers) == Running(old(workers))
    {
      var decade := workers[w].decade;
      assert isLoading by {
        assert !workers[w].Exited?;
      }
      CompleteDecades(imageDataUrl, generatedImages, decadesQueue, dequeued, workers, generationCalls, w, RecordOf(outcome));
      RunningUpdate(workers, w, AtLoopHead);
      generatedImages := Put(generatedImages, decade, RecordOf(outcome));
      workers := workers[w := AtLoopHead];
      assert !workers[w].Exited?;
    }

    /** Every outstanding generation call settles, as `oracle` says for its
        decade and in whatever order the scheduler picks, until
        `Promise.all` resolves: the gallery is then complete, every decade
        was requested once and in order, and each record is its call's
        outcome. */
    method Settle(oracle: string -> Settlement)
      requires PoolValid() && Quiescent() && LoadingTracks() && workers != []
      requires Recorded(Decades, generatedImages, oracle)
      modifies this`generatedImages, this`decadesQueue, this`workers, this`generationCalls, this`dequeued, this`isLoading
      ensures PoolValid() && Quiescent() && LoadingTracks()
      ensures AllExited(workers) && !isLoading && workers != []
      ensures decadesQueue == [] && dequeued == Decades
      ensures generationCalls == CallsFor(imageDataUrl, Decades)
      ensures forall i :: 0 <= i < |Decades| ==> Get(generatedImages, Decades[i]) == Some(RecordOf(oracle(Decades[i])))
      ensures AllDone(generatedImages)
    {
      while exists w :: 0 <= w < |workers| && workers[w].Awaiting?
        invariant PoolValid() && Quiescent() && LoadingTracks() && workers != []
        invariant Recorded(Decades, generatedImages, oracle)
        decreases |decadesQueue| + Running(workers)
      {
        var w :| 0 <= w < |workers| && workers[w].Awaiting?;
        var decade := workers[w].decade;
        CompleteRecorded(Decades, generatedImages, oracle, decade);
        Complete(w, oracle(decade));
      }
      FinishedDecades(imageDataUrl, generatedImages, decadesQueue, dequeued, workers, generationCalls, oracle);
    }

    /** One run of the payment-return effect exactly as written
        (App.tsx:213-240). */
    method RunPaymentEffectAsWritten()
      requires Valid()
      modifies this`isGenerationStarted, this`isLoading, this`generatedImages, this`imageDataUrl,
               this`decadesQueue, this`workers, this`generationCalls, this`dequeued,
               window`session, window`pathname, window`search, window`navigation
      ensures Valid()
      ensures var r := Reconciler.EffectAsWritten(old(window.State()), old(isGenerationStarted));
        && window.State() == r.env && isGenerationStarted == r.started
        && (r.generation.Some? ==> JustStarted(r.generation.value))
        && (r.generation.None? ==>
              && generatedImages == old(generatedImages) && workers == old(workers)
              && generationCalls == old(generationCalls) && isLoading == old(isLoading)
              && imageDataUrl == old(imageDataUrl) && decadesQueue == old(decadesQueue))
    {
      var paymentStatus := UrlSearch.Get(window.search, "payment");
      if paymentStatus == Some("success") && !isGenerationStarted {
        var storedImage := window.GetItem(UploadedImageKey);
        if Truthy(storedImage) {
          isGenerationStarted := true;
          StartGeneration(storedImage.value);
          window.RemoveItem(UploadedImageKey);
          window.ReplaceState(window.pathname + AppRouter.ResultsQuery);
        } else {
          window.AssignHref("/");
        }
      } else if !Truthy(paymentStatus) {
        var storedImage := window.GetItem(UploadedImageKey);
        if !Truthy(storedImage) {
          window.AssignHref("/");
        } else {
          isGenerationStarted := true;
          StartGeneration(storedImage.value);
          window.RemoveItem(UploadedImageKey);
        }
      }
    }

    /** The effect with the guard it needs: once generation has started, a
        run changes nothing. */
    method RunPaymentEffect()
      requires Valid()
      modifies this`isGenerationStarted, this`isLoading, this`generatedImages, this`imageDataUrl,
               this`decadesQueue, this`workers, this`generationCalls, this`dequeued,
               window`session, window`pathname, window`search, window`navigation
      ensures Valid()
      ensures var r := Reconciler.Effect(old(window.State()), old(isGenerationStarted));
        && window.State() == r.env && isGenerationStarted == r.started
        && (r.generation.Some? ==> JustStarted(r.generation.value))
        && (r.generation.None? ==>
              && generatedImages == old(generatedImages) && workers == old(workers)
              && generationCalls == old(generationCalls) && isLoading == old(isLoading)
              && imageDataUrl == old(imageDataUrl) && decadesQueue == old(decadesQueue))
    {
      if !isGenerationStarted {
        RunPaymentEffectAsWritten();
      }
    }

    /** A page load as written: React runs the effect on mount and, when that
        run set `isGenerationStarted`, once more (App.tsx:241). */
    method MountAsWritten()
      requires Valid() && !isGenerationStarted
      modifies this`isGenerationStarted, this`isLoading, this`generatedImages, this`imageDataUrl,
               this`decadesQueue, this`workers, this`generationCalls, this`dequeued,
               window`session, window`pathname, window`search, window`navigation
      ensures Valid()
      ensures var l := Reconciler.Mount(false, old(window.State()));
        && window.State() == l.env && isGenerationStarted == l.started
        && (l.generations != [] ==> JustStarted(l.generations[0]))
        && (l.generations == [] ==> generationCalls == old(generationCalls))
    {
      ghost var env := window.State();
      RunPaymentEffectAsWritten();
      if isGenerationStarted {
        RunPaymentEffectAsWritten();
        Reconciler.TwoRuns(false, env);
      } else {
        Reconciler.OneRun(false, env, false);
      }
    }

    /** The same page load with the guarded effect. */
    method Mount()
      requires Valid() && !isGenerationStarted
      modifies this`isGenerationStarted, this`isLoading, this`generatedImages, this`imageDataUrl,
               this`decadesQueue, this`workers, this`generationCalls, this`dequeued,
               window`session, window`pathname, window`search, window`navigation
      ensures Valid()
      ensures var l := Reconciler.Mount(true, old(window.State()));
        && window.State() == l.env && isGenerationStarted == l.started
        && (l.generations != [] ==> JustStarted(l.generations[0]))
        && (l.generations == [] ==> generationCalls == old(generationCalls))
    {
      ghost var env := window.State();
      RunPaymentEffect();
      if isGenerationStarted {
        RunPaymentEffect();
        Reconciler.TwoRuns(true, env);
      } else {
        Reconciler.OneRun(true, env, false);
      }
    }

    /** `handleReset` (App.tsx:275-278): the photo is dropped from the
        storage and the page is left for `/`. */
    method StartOver()
      modifies window`session, window`navigation
      ensures window.session == old(window.session) - {UploadedImageKey}
      ensures StoredImage(window.session).None?
      ensures window.navigation == Some("/")
    {
      window.RemoveItem(UploadedImageKey);
      window.AssignHref("/");
    }

    /** `handleDownloadIndividualImage(decade)` (App.tsx:280-290). */
    method DownloadIndividualImage(decade: string)
      modifies window`downloads
      ensures window.downloads == old(window.downloads) + OptionToSeq(Downloads.Individual(generatedImages, decade))
    {
      var image := Get(generatedImages, decade);
      if image.Some? && image.value.Done? && image.value.url != "" {
        window.ClickDownloadLink(image.value.url, DownloadName(decade));
      }
    }

    /** `handleDownloadAlbum` (App.tsx:292-316) when `createAlbumPage` would
        settle as `composer`. */
    method DownloadAlbum(composer: Settlement)
      requires Valid()
      modifies this`isDownloading, this`albumCalls, window`alerts, window`downloads
      ensures !isDownloading
      ensures var e := Downloads.Album(generatedImages, composer);
        && albumCalls == old(albumCalls) + OptionToSeq(e.composed)
        && window.alerts == old(window.alerts) + e.alerts
        && window.downloads == old(window.downloads) + e.downloads
    {
      DecadesWellFormed();
      isDownloading := true;
      var imageData := AlbumData(generatedImages);
      if |imageData| == 0 {
        window.Alert(NoImagesMessage);
      } else {
        albumCalls := albumCalls + [imageData];
        match composer
        case Resolved(albumDataUrl) =>
          window.ClickDownloadLink(albumDataUrl, AlbumFileName);
        case Rejected(_) =>
          window.Alert(AlbumErrorMessage);
      }
      isDownloading := false;
    }
  }
}
