/** The ambient browser state App.tsx reads and writes: the address bar,
    `sessionStorage`, `location.href` assignments, alerts and link clicks. */
module Dom {
  import opened Common

  /** The key under which the uploaded photo rides out the payment redirect. */
  const UploadedImageKey: string := "uploadedImage"

  datatype Location = Location(pathname: string, search: string)

  /** The part of the browser's state the payment effects act on. */
  datatype Env = Env(location: Location, session: map<string, string>, navigation: Option<string>)

  /** A file saved by clicking an `<a download>` link. */
  datatype Download = Download(href: string, filename: string)

  /** `sessionStorage.getItem(key)` as `if (storedImage)` sees it: a missing
      item and an empty string both count as no photo. */
  function StoredImage(session: map<string, string>): (image: Option<string>)
    ensures image.Some? <==> UploadedImageKey in session && session[UploadedImageKey] != ""
    ensures image.Some? ==> image.value == session[UploadedImageKey]
    ensures Truthy(image) <==> image.Some?
  {
    if UploadedImageKey in session && session[UploadedImageKey] != "" then Some(session[UploadedImageKey]) else None
  }

  /** The search part of a URL: from its first `?` on, or "" without one. */
  function SearchOf(url: string): (search: string)
    ensures search == "" || search[0] == '?'
    ensures exists i :: 0 <= i <= |url| && url[i..] == search && '?' !in url[..i]
  {
    var i := FirstIndex(url, '?');
    assert '?' !in url[..i];
    url[i..]
  }

  /** The location `history.replaceState(null, '', url)` leaves for a
      same-origin URL written as path and query. */
  function Resolve(url: string): (loc: Location)
    ensures loc.pathname + loc.search == url
    ensures '?' !in loc.pathname
    ensures loc.search == SearchOf(url)
  {
    var i := FirstIndex(url, '?');
    assert url[..i] + url[i..] == url;
    Location(url[..i], url[i..])
  }

  /** A path without `?` followed by a query resolves back to that path and query. */
  lemma ResolvePathAndQuery(pathname: string, search: string)
    requires '?' !in pathname
    requires search == "" || search[0] == '?'
    ensures Resolve(pathname + search) == Location(pathname, search)
  {
    if search == "" {
      assert pathname + search == pathname;
    } else {
      FirstIndexAfter(pathname, '?', search[1..]);
      assert pathname + search == pathname + ['?'] + search[1..];
    }
  }

  class Window {
    /** `window.location.origin`, which never contains a `?`. */
    const origin: string
    var pathname: string
    var search: string
    /** `sessionStorage` */
    var session: map<string, string>
    /** The last URL assigned to `window.location.href`, if any. */
    var navigation: Option<string>
    var alerts: seq<string>
    var downloads: seq<Download>

    ghost predicate Valid()
      reads this
    {
      '?' !in pathname && '?' !in origin
    }

    function State(): Env
      reads this
    {
      Env(Location(pathname, search), session, navigation)
    }

    constructor (origin: string, pathname: string, search: string, session: map<string, string>)
      requires '?' !in origin && '?' !in pathname
      ensures Valid()
      ensures this.origin == origin && this.pathname == pathname && this.search == search
      ensures this.session == session && navigation == None && alerts == [] && downloads == []
    {
      this.origin := origin;
      this.pathname := pathname;
      this.search := search;
      this.session := session;
      navigation := None;
      alerts := [];
      downloads := [];
    }

    function GetItem(key: string): (item: Option<string>)
      reads this
      ensures item.Some? <==> key in session
      ensures item.Some? ==> item.value == session[key]
    {
      if key in session then Some(session[key]) else None
    }

    method SetItem(key: string, value: string)
      modifies this`session
      ensures session == old(session)[key := value]
    {
      session := session[key := value];
    }

    /** `removeItem`; removing a missing key changes nothing. */
    method RemoveItem(key: string)
      modifies this`session
      ensures session == old(session) - {key}
      ensures key !in session
    {
      session := session - {key};
    }

    method ReplaceState(url: string)
      modifies this`pathname, this`search
      ensures Location(pathname, search) == Resolve(url)
    {
      var loc := Resolve(url);
      pathname, search := loc.pathname, loc.search;
    }

    /** `window.location.href = url`: the page is left for `url`. */
    method AssignHref(url: string)
      modifies this`navigation
      ensures navigation == Some(url)
    {
      navigation := Some(url);
    }

    method Alert(message: string)
      modifies this`alerts
      ensures alerts == old(alerts) + [message]
    {
      alerts := alerts + [message];
    }

    /** Creating, clicking and removing an `<a href download>` link. */
    method ClickDownloadLink(href: string, filename: string)
      modifies this`downloads
      ensures downloads == old(downloads) + [Download(href, filename)]
    {
      downloads := downloads + [Download(href, filename)];
    }
  }
}
