/** The page proxy of app/api/proxy/route.ts: it fetches the page at the `url` query
    parameter, strips frame-blocking markers from the HTML, adds a `<base>` element so that
    relative links resolve against the original site, and serves the result as framable HTML. */
module ProxyRoute {
  import opened Common
  import opened Url

  const UrlRequired := "URL parameter is required"
  const FetchFailedPrefix := "Failed to fetch: "
  const ProxyFailed := "Failed to proxy request"
  const HeadTag := "<head>"
  const BaseMarker := "<base"

  /** What the upstream `fetch` gave: it threw, or it answered with a status and a body. */
  datatype Upstream = FetchThrew | Fetched(ok: bool, status: int, statusText: string, html: string)

  datatype Response =
    | Page(body: string, headers: seq<(string, string)>)
    | Failure(status: int, error: string)

  const PageHeaders := [("Content-Type", "text/html"), ("X-Frame-Options", "ALLOWALL")]

  /** The element inserted right after `<head>`. */
  function BaseElement(base: string): string
  {
    HeadTag + BaseMarker + " href=\"" + base + "\">"
  }

  /** A document already holding `<base` is kept; otherwise the first `<head>` gains a base
      element (and a document without `<head>` is kept too). */
  function InsertBase(html: string, base: string): string
  {
    if Contains(html, BaseMarker) then html else ReplaceFirst(html, HeadTag, BaseElement(base))
  }

  /** The document is left alone exactly in the two cases the route does not touch it, and
      otherwise only its first `<head>` is rewritten. */
  lemma InsertBaseSpec(html: string, base: string)
    ensures Contains(html, BaseMarker) ==> InsertBase(html, base) == html
    ensures !Contains(html, HeadTag) ==> InsertBase(html, base) == html
    ensures !Contains(html, BaseMarker) && Contains(html, HeadTag) ==>
              exists i :: OccursAt(html, HeadTag, i) && (forall j :: 0 <= j < i ==> !OccursAt(html, HeadTag, j))
                          && InsertBase(html, base) == html[..i] + BaseElement(base) + html[i + |HeadTag|..]
  {
    ReplaceFirstSpec(html, HeadTag, BaseElement(base));
  }

  /** Rewriting a `<head>` puts a base element into the document. */
  lemma InsertBaseAddsMarker(html: string, base: string)
    requires !Contains(html, BaseMarker) && Contains(html, HeadTag)
    ensures Contains(InsertBase(html, base), BaseMarker)
  {
    var i := IndexOf(html, HeadTag).value;
    var tail := " href=\"" + base + "\">" + html[i + |HeadTag|..];
    var r := html[..i] + BaseElement(base) + html[i + |HeadTag|..];
    assert r == (html[..i] + HeadTag) + BaseMarker + tail;
    ContainsMiddle(html[..i] + HeadTag, BaseMarker, tail);
  }

  /** Proxying a proxied page changes nothing more: the insertion is idempotent. */
  lemma InsertBaseIdempotent(html: string, base: string)
    ensures InsertBase(InsertBase(html, base), base) == InsertBase(html, base)
  {
    if !Contains(html, BaseMarker) && Contains(html, HeadTag) {
      InsertBaseAddsMarker(html, base);
    }
  }

  /** `GET /api/proxy?url=…`. `fetched` is the upstream answer, `strip` the four regular
      expression replacements that remove X-Frame-Options and Content-Security-Policy
      markers, and `parse` the URL parser giving the base address. */
  function Get(url: Option<string>, fetched: Upstream, strip: string -> string, parse: Parser): (resp: Response)
    ensures !Truthy(url) ==> resp == Failure(400, UrlRequired)
    ensures Truthy(url) && fetched.FetchThrew? ==> resp == Failure(500, ProxyFailed)
    ensures Truthy(url) && fetched.Fetched? && !fetched.ok ==>
              resp == Failure(fetched.status, FetchFailedPrefix + fetched.statusText)
    ensures Truthy(url) && fetched.Fetched? && fetched.ok && parse(url.value).None? ==> resp == Failure(500, ProxyFailed)
    ensures resp.Page? <==> Truthy(url) && fetched.Fetched? && fetched.ok && parse(url.value).Some?
    ensures resp.Page? ==> resp.headers == PageHeaders
                           && resp.body == InsertBase(strip(fetched.html), parse(url.value).value.origin + parse(url.value).value.pathname)
  {
    if !Truthy(url) then Failure(400, UrlRequired)
    else match fetched
      case FetchThrew => Failure(500, ProxyFailed)
      case Fetched(ok, status, statusText, html) =>
        if !ok then Failure(status, FetchFailedPrefix + statusText)
        else
          var modified := strip(html);
          match parse(url.value)
          case None => Failure(500, ProxyFailed)
          case Some(baseUrl) => Page(InsertBase(modified, baseUrl.origin + baseUrl.pathname), PageHeaders)
  }

  /** A served page always carries a base element or is a document without `<head>`: the
      rewrite never leaves a `<head>` page unanchored. */
  lemma ServedPageAnchored(url: Option<string>, fetched: Upstream, strip: string -> string, parse: Parser)
    requires Get(url, fetched, strip, parse).Page?
    ensures var body := Get(url, fetched, strip, parse).body;
            Contains(body, BaseMarker) || !Contains(body, HeadTag)
  {
    var html := strip(fetched.html);
    var u := parse(url.value).value;
    if !Contains(html, BaseMarker) && Contains(html, HeadTag) {
      InsertBaseAddsMarker(html, u.origin + u.pathname);
    }
  }
}
