/** The per-decade records of the results page (`generatedImages`) and the
    pure rules App.tsx derives from them. */
module Gallery {
  import opened Common
  import opened JsObject

  /** `DECADES` (App.tsx:13), in queue order. */
  const Decades: seq<string> := ["1950s", "1960s", "1970s", "1980s", "1990s", "2000s"]

  /** `concurrencyLimit` (App.tsx:249). */
  const ConcurrencyLimit: nat := 2

  /** `GeneratedImage`, one variant per `status`: `done` carries `url`,
      `error` carries `error`. */
  datatype ImageRecord = Pending | Done(url: string) | Failed(error: string)

  type Images = Entries<ImageRecord>

  const AlbumFileName: string := "past-yous-album.jpg"
  const NoImagesMessage: string := "No images were generated successfully. Cannot create an album."
  const AlbumErrorMessage: string := "Sorry, there was an error creating your album. Please try again."

  lemma DecadesWellFormed()
    ensures Distinct(Decades)
    ensures forall i :: 0 <= i < |Decades| ==> Decades[i] != ""
  {
  }

  /** The record a finished generation call leaves behind (App.tsx:256, 258-259). */
  function RecordOf(outcome: Settlement): (r: ImageRecord)
    ensures !r.Pending?
    ensures r.Done? <==> outcome.Resolved?
    ensures r.Done? ==> r.url == outcome.value
    ensures r.Failed? && outcome.thrown.ErrorObject? ==> r.error == outcome.thrown.message
    ensures r.Failed? && outcome.thrown.NonError? ==> r.error == UnknownErrorMessage
  {
    match outcome
    case Resolved(url) => Done(url)
    case Rejected(e) => Failed(MessageOf(e))
  }

  const PromptHead: string := "Reimagine the person in this photo in the style of the "
  const PromptTail: string :=
    ". This includes clothing, hairstyle, photo quality, and the overall aesthetic of that decade. The output must be a photorealistic image showing the person clearly."

  /** The text sent with the photo for one decade (App.tsx:254). */
  function Prompt(decade: string): string
  {
    PromptHead + decade + PromptTail
  }

  /** The file name of one decade's download (App.tsx:285). */
  function DownloadName(decade: string): string
  {
    "past-yous-" + decade + ".jpg"
  }

  /** Text of the form `p + x + s` determines `x`. */
  lemma Infix(p: string, x: string, y: string, s: string)
    requires p + x + s == p + y + s
    ensures x == y
  {
    assert |x| == |y|;
    assert x == (p + x + s)[|p|..|p| + |x|];
    assert y == (p + y + s)[|p|..|p| + |y|];
  }

  /** Different decades are asked for with different prompts. */
  lemma PromptIdentifiesDecade(a: string, b: string)
    requires Prompt(a) == Prompt(b)
    ensures a == b
  {
    Infix(PromptHead, a, b, PromptTail);
  }

  /** Different decades are saved under different file names. */
  lemma DownloadNameIdentifiesDecade(a: string, b: string)
    requires DownloadName(a) == DownloadName(b)
    ensures a == b
  {
    Infix("past-yous-", a, b, ".jpg");
  }

  /** `allDone` (App.tsx:319): no record is pending, and there is a record. */
  predicate AllDone(images: Images)
  {
    (forall i :: 0 <= i < |images| ==> !images[i].1.Pending?) && |Keys(images)| > 0
  }

  /** Read through the keys: `allDone` holds exactly when some decade has a
      record and no decade's record is pending. */
  lemma AllDoneIff(images: Images)
    requires Distinct(Keys(images))
    ensures AllDone(images) <==>
      (exists k :: Get(images, k).Some?) && (forall k :: Get(images, k) != Some(Pending))
  {
    KeysLength(images);
    if AllDone(images) {
      GetAt(images, 0);
      forall k ensures Get(images, k) != Some(Pending) {
        if Get(images, k).Some? {
          GetFound(images, k);
        }
      }
    } else if |images| > 0 {
      var i :| 0 <= i < |images| && images[i].1.Pending?;
      GetAt(images, i);
    } else {
      forall k ensures Get(images, k).None? { }
    }
  }

  /** A record the album export keeps: `status === 'done' && image.url`. */
  predicate HasUrl(r: ImageRecord)
  {
    r.Done? && r.url != ""
  }

  function UrlOf(r: ImageRecord): string
  {
    if r.Done? then r.url else ""
  }

  /** What the album receives for decade `k`, if anything. */
  function AlbumUrl(images: Images, k: string): Option<string>
  {
    var r := Get(images, k);
    if r.Some? && HasUrl(r.value) then Some(r.value.url) else None
  }

  /** `Object.entries(images).filter(([, image]) => image.status === 'done' && image.url)`. */
  function FilterDone(images: Images): (kept: Images)
    ensures forall e :: e in kept ==> e in images && HasUrl(e.1)
  {
    if images == [] then []
    else (if HasUrl(images[0].1) then [images[0]] else []) + FilterDone(images[1..])
  }

  /** `.reduce((acc, [decade, image]) => ({ ...acc, [decade]: image.url }), acc)`. */
  function ReduceUrls(kept: Images, acc: Entries<string>): Entries<string>
    requires forall e :: e in kept ==> e.1.Done?
  {
    if kept == [] then acc
    else ReduceUrls(kept[1..], Put(acc, kept[0].0, kept[0].1.url))
  }

  /** `imageData` of the album export (App.tsx:295-297): exactly the decades
      whose record is done with a URL, each with that URL; it is empty exactly
      when no record qualifies. */
  function AlbumData(images: Images): (data: Entries<string>)
    requires Distinct(Keys(images))
    ensures forall k :: Get(data, k) == AlbumUrl(images, k)
    ensures |data| == 0 <==> forall i :: 0 <= i < |images| ==> !HasUrl(images[i].1)
  {
    AlbumDataFacts(images);
    ReduceUrls(FilterDone(images), [])
  }

  lemma AlbumDataFacts(images: Images)
    requires Distinct(Keys(images))
    ensures var data := ReduceUrls(FilterDone(images), []);
      && (forall k :: Get(data, k) == AlbumUrl(images, k))
      && (|data| == 0 <==> forall i :: 0 <= i < |images| ==> !HasUrl(images[i].1))
  {
    FilterKeys(images);
    ReduceGet(FilterDone(images), []);
    var data := ReduceUrls(FilterDone(images), []);
    forall k ensures Get(data, k) == AlbumUrl(images, k) {
      FilterGet(images, k);
    }
    if |data| == 0 {
      forall i | 0 <= i < |images| ensures !HasUrl(images[i].1) {
        GetAt(images, i);
        assert AlbumUrl(images, images[i].0) == Get(data, images[i].0);
      }
    } else {
      assert Get(data, data[0].0).Some?;
      var v := Get(images, data[0].0).value;
      GetFound(images, data[0].0);
      var i :| 0 <= i < |images| && images[i] == (data[0].0, v);
      assert HasUrl(images[i].1);
    }
  }

  /** Filtering keeps a subsequence of the keys, so distinct keys stay distinct. */
  lemma {:induction false} FilterKeys(images: Images)
    requires Distinct(Keys(images))
    ensures Distinct(Keys(FilterDone(images)))
    ensures forall k :: k in Keys(FilterDone(images)) ==> k in Keys(images)
  {
    if images != [] {
      DistinctCons(images[0].0, Keys(images[1..]));
      FilterKeys(images[1..]);
      var rest := FilterDone(images[1..]);
      if HasUrl(images[0].1) {
        assert FilterDone(images) == [images[0]] + rest;
        DistinctCons(images[0].0, Keys(rest));
      } else {
        assert FilterDone(images) == rest;
      }
    }
  }

  /** The filter keeps a decade's record exactly when it is done with a URL. */
  lemma {:induction false} FilterGet(images: Images, k: string)
    requires Distinct(Keys(images))
    ensures Get(FilterDone(images), k) == if Get(images, k).Some? && HasUrl(Get(images, k).value) then Get(images, k) else None
  {
    if images != [] {
      DistinctCons(images[0].0, Keys(images[1..]));
      FilterGet(images[1..], k);
      FilterKeys(images[1..]);
      var rest := FilterDone(images[1..]);
      if images[0].0 == k {
        GetSomeIffKey(images[1..], k);
        GetSomeIffKey(rest, k);
      }
      if HasUrl(images[0].1) {
        assert FilterDone(images) == [images[0]] + rest;
      } else {
        assert FilterDone(images) == rest;
      }
    }
  }

  /** Folding the kept records into `acc` adds each one's URL under its key. */
  lemma {:induction false} ReduceGet(kept: Images, acc: Entries<string>)
    requires forall e :: e in kept ==> e.1.Done?
    requires Distinct(Keys(kept))
    ensures forall k :: Get(ReduceUrls(kept, acc), k) ==
                       if Get(kept, k).Some? then Some(UrlOf(Get(kept, k).value)) else Get(acc, k)
  {
    if kept != [] {
      DistinctCons(kept[0].0, Keys(kept[1..]));
      GetSomeIffKey(kept[1..], kept[0].0);
      ReduceGet(kept[1..], Put(acc, kept[0].0, kept[0].1.url));
    }
  }

  /** `initialImages` (App.tsx:245-246): the `forEach` gives every decade a
      pending record, in `DECADES` order and with nothing else. */
  method BuildInitialImages() returns (images: Images)
    ensures Keys(images) == Decades
    ensures forall e :: e in images ==> e.1 == Pending
  {
    DecadesWellFormed();
    images := [];
    for i := 0 to |Decades|
      invariant Keys(images) == Decades[..i]
      invariant forall e :: e in images ==> e.1 == Pending
    {
      assert Decades[i] !in Decades[..i];
      images := Put(images, Decades[i], Pending);
      assert Decades[..i + 1] == Decades[..i] + [Decades[i]];
    }
  }
}
