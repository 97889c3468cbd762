/**
 * `fetchContents` (index.js, lines 81-96): GET the address the request
 * names; when the final address after redirects is not on gleam.io, read the
 * first embedded gleam.io campaign link out of the page and GET that page
 * instead. The HTTP client is the abstract function `get`; what it says of
 * one address it says every time.
 */
module Fetch {
  import opened Wrappers
  import opened Text
  import opened Errors
  import opened Markup

  /** What `axios.get` resolves with: the body, the path of the request that answered, and the final url. */
  datatype HttpResponse = HttpResponse(data: string, requestPath: string, responseUrl: string)

  /** `{ data, url }`: the campaign page and the identifier the record is filed under. */
  datatype Page = Page(id: string, data: string)

  type Get = string -> Result<HttpResponse, string>

  const GleamOrigin: string := "https://gleam.io"

  /** `responseUrl.startsWith('https://gleam.io')` */
  predicate OnGleam(r: HttpResponse) {
    ExactAt(r.responseUrl, 0, GleamOrigin)
  }

  /** The address of the second GET. */
  function CampaignUrl(id: string): string {
    GleamOrigin + "/" + id
  }

  /** The outcome of `fetchContents` when a rejected GET or a missing link fails the request. */
  function Resolve(url: string, get: Get): Result<Page, Failure> {
    match get(url)
    case Failure(m) => Failure(FetchFailed(m))
    case Success(first) =>
      if OnGleam(first) then Success(Page(first.requestPath, first.data))
      else
        match Exec(GleamLink, first.data)
        case None => Failure(NoCampaignLink)
        case Some(id) =>
          match get(CampaignUrl(id))
          case Failure(m) => Failure(FetchFailed(m))
          case Success(second) => Success(Page(id, second.data))
  }

  /** `fetchContents`, step by step: `url` and `data` are reassigned when the first page is not on gleam.io. */
  method FetchContents(url: string, get: Get) returns (r: Result<Page, Failure>)
    ensures r == Resolve(url, get)
  {
    var first := get(url);
    if first.Failure? {
      return Failure(FetchFailed(first.error));
    }
    var data := first.value.data;
    var id := first.value.requestPath;
    if !OnGleam(first.value) {
      var link := Exec(GleamLink, data);
      if link.None? {
        return Failure(NoCampaignLink);
      }
      id := link.value;
      var second := get(CampaignUrl(id));
      if second.Failure? {
        return Failure(FetchFailed(second.error));
      }
      data := second.value.data;
    }
    return Success(Page(id, data));
  }

  /**
   * `fetchContents` as written. Its promise is built around an `async`
   * executor: a GET that rejects, or an `exec` that finds no link and is
   * then indexed, throws inside that executor, and the promise returned to
   * the handler never settles. `None` is that promise.
   */
  function ResolveAsWritten(url: string, get: Get): Option<Page> {
    match get(url)
    case Failure(_) => None
    case Success(first) =>
      if OnGleam(first) then Some(Page(first.requestPath, first.data))
      else
        match Exec(GleamLink, first.data)
        case None => None
        case Some(id) =>
          match get(CampaignUrl(id))
          case Failure(_) => None
          case Success(second) => Some(Page(id, second.data))
  }

  /** As written, every failure of `fetchContents` leaves its promise pending; its successes are the intended ones. */
  lemma AsWrittenHangsOnFailure(url: string, get: Get)
    ensures Resolve(url, get).Success? ==> ResolveAsWritten(url, get) == Some(Resolve(url, get).value)
    ensures Resolve(url, get).Failure? ==> ResolveAsWritten(url, get).None?
  {
  }

  /** A page on gleam.io is kept as fetched and filed under its request path; nothing else is fetched. */
  lemma DirectPage(url: string, get: Get)
    requires get(url).Success? && OnGleam(get(url).value)
    ensures Resolve(url, get) == Success(Page(get(url).value.requestPath, get(url).value.data))
  {
  }

  /**
   * A page elsewhere is replaced by the campaign page its first gleam.io
   * link names, filed under that link's `<group>/<slug>`, which never
   * starts with a '/'; a failed second GET fails the request, and so does a
   * page without such a link.
   */
  lemma {:induction false} RedirectPage(url: string, get: Get)
    requires get(url).Success? && !OnGleam(get(url).value)
    ensures Exec(GleamLink, get(url).value.data).None? ==> Resolve(url, get) == Failure(NoCampaignLink)
    ensures Exec(GleamLink, get(url).value.data).Some? ==>
              var id := Exec(GleamLink, get(url).value.data).value;
              Resolve(url, get) ==
                match get(CampaignUrl(id))
                case Success(second) => Success(Page(id, second.data))
                case Failure(m) => Failure(FetchFailed(m))
    ensures Resolve(url, get).Success? ==>
              var id := Exec(GleamLink, get(url).value.data).value;
              Resolve(url, get).value.id == id &&
              get(CampaignUrl(id)).Success? &&
              Resolve(url, get).value.data == get(CampaignUrl(id)).value.data &&
              |id| > 2 && id[0] != '/'
  {
    var first := get(url).value;
    var link := Exec(GleamLink, first.data);
    if link.Some? {
      ExecIsLeftmost(GleamLink, first.data);
      var i :| 0 <= i <= |first.data| && CaptureAt(GleamLink, first.data, i) == link;
      LinkCaptureShape(first.data, i);
    }
  }

  /** The redirect scenario: an intermediate page linking to gleam.io/abc/my-slug. */
  lemma {:induction false} RedirectScenario(url: string, get: Get, group: string, slug: string, rest: string)
    requires |group| > 0 && forall k :: 0 <= k < |group| ==> IsAlnum(group[k])
    requires |slug| > 0 && forall k :: 0 <= k < |slug| ==> IsSlugChar(slug[k])
    requires get(url).Success? && !OnGleam(get(url).value)
    requires get(url).value.data == LinkOpening + (group + "/" + slug + "\"" + rest)
    requires get(CampaignUrl(group + "/" + slug)).Success?
    ensures Resolve(url, get) ==
              Success(Page(group + "/" + slug, get(GleamOrigin + "/" + (group + "/" + slug)).value.data))
  {
    LinkAtStartFound(group, slug, rest);
  }

  /** The host test is a plain prefix test: a look-alike host passes it. */
  lemma LookAlikeHostCounts(r: HttpResponse)
    requires r.responseUrl == "https://gleam.io.example.com/x"
    ensures OnGleam(r)
  {
    assert r.responseUrl[..|GleamOrigin|] == GleamOrigin;
  }
}
