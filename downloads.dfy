/** What the two download handlers of the results page save or report
    (App.tsx:280-316), as functions of the gallery and, for the album, of how
    the external `createAlbumPage` settles. */
module Downloads {
  import opened Common
  import opened JsObject
  import opened Gallery
  import opened Dom

  /** `handleDownloadIndividualImage(decade)`: the decade's image, under its
      own file name, when its record is done with a non-empty URL. */
  function Individual(images: Images, decade: string): (d: Option<Download>)
    ensures d.Some? <==> Get(images, decade).Some? && HasUrl(Get(images, decade).value)
    ensures d.Some? ==> d.value.filename == DownloadName(decade) && d.value.href != ""
  {
    var image := Get(images, decade);
    if image.Some? && image.value.Done? && image.value.url != "" then
      Some(Download(image.value.url, DownloadName(decade)))
    else None
  }

  /** A decade can be saved on its own exactly when the album would include
      it, and both use the same URL. */
  lemma IndividualMatchesAlbum(images: Images, decade: string)
    requires Distinct(Keys(images))
    ensures Individual(images, decade).Some? <==> Get(AlbumData(images), decade).Some?
    ensures Individual(images, decade).Some? ==>
      Get(AlbumData(images), decade) == Some(Individual(images, decade).value.href)
  {
    assert Get(AlbumData(images), decade) == AlbumUrl(images, decade);
  }

  /** Two saved images with the same file name are the same decade's. */
  lemma IndividualNamesDecade(images: Images, a: string, b: string)
    requires Individual(images, a).Some? && Individual(images, b).Some?
    requires Individual(images, a).value.filename == Individual(images, b).value.filename
    ensures a == b
  {
    DownloadNameIdentifiesDecade(a, b);
  }

  /** One click on the album button: the `imageData` handed to
      `createAlbumPage` if it was called, the alerts shown and the files
      saved. */
  datatype AlbumExport = AlbumExport(composed: Option<Entries<string>>, alerts: seq<string>, downloads: seq<Download>)

  /** `handleDownloadAlbum` when `createAlbumPage` would settle as `composer`:
      without a successful image it only alerts; otherwise it hands over
      exactly the successful images and either saves the album or alerts
      the failure. Exactly one alert or one file results. */
  function Album(images: Images, composer: Settlement): (e: AlbumExport)
    requires Distinct(Keys(images))
    ensures e.composed.Some? <==> exists i :: 0 <= i < |images| && HasUrl(images[i].1)
    ensures e.composed.Some? ==> forall k :: Get(e.composed.value, k) == AlbumUrl(images, k)
    ensures |e.alerts| + |e.downloads| == 1
    ensures e.composed.None? ==> e.alerts == [NoImagesMessage]
    ensures e.composed.Some? && composer.Rejected? ==> e.alerts == [AlbumErrorMessage]
    ensures e.downloads != [] <==> e.composed.Some? && composer.Resolved?
    ensures e.downloads != [] ==> e.downloads == [Download(composer.value, AlbumFileName)]
  {
    var imageData := AlbumData(images);
    if |imageData| == 0 then AlbumExport(None, [NoImagesMessage], [])
    else
      match composer
      case Resolved(albumDataUrl) => AlbumExport(Some(imageData), [], [Download(albumDataUrl, AlbumFileName)])
      case Rejected(_) => AlbumExport(Some(imageData), [AlbumErrorMessage], [])
  }
}
