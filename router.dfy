/** The `/html`, `/screenshot` and `/pdf` routes: URL normalisation, the domain
    check before any rendering, the PDF download name and the response headers. */
module Router {
  import opened Wrappers
  import opened JsString
  import opened WebUrl
  import opened Engine
  import opened DomainValidator
  import opened Renderer
  import opened Http

  // ---------------------------------------------------------------------------
  // The url transform of the query schema

  /** `https://` is put in front unless the URL starts with `http://` or
      `https://`, compared case-sensitively. */
  function NormalizeUrl(url: string): (r: string)
    ensures HasHttpScheme(r)
    ensures HasHttpScheme(url) ==> r == url
    ensures !HasHttpScheme(url) ==> r == "https://" + url
  {
    if HasHttpScheme(url) then url
    else
      assert ("https://" + url)[..8] == "https://";
      "https://" + url
  }

  lemma NormalizeUrlIdempotent(url: string)
    ensures NormalizeUrl(NormalizeUrl(url)) == NormalizeUrl(url)
  {
  }

  /** The router's scheme test is case-sensitive where the domain validator's is
      not: an upper-case `HTTP://` URL gets a second scheme from the router, and
      the validator then takes the result as it is. */
  lemma UpperCaseSchemeIsPrefixedAgain(url: string)
    requires StartsWith(url, "HTTP://")
    ensures NormalizeUrl(url) == "https://" + url
    ensures WithDefaultScheme(url) == url
    ensures WithDefaultScheme(NormalizeUrl(url)) == "https://" + url
  {
    assert url[0] == 'H';
    LowerAppend(url[..7], url[7..]);
    assert url == url[..7] + url[7..];
    assert Lower(url[..7]) == "http://";
    assert Lower(url)[..7] == "http://";
  }

  // ---------------------------------------------------------------------------
  // getPDFFilename

  /** `pathname.split('/').pop() || ''` */
  function LastSegment(pathname: string): string {
    var pieces := Split(pathname, "/");
    pieces[|pieces| - 1]
  }

  /** The name cut at its last dot, unless that dot is the first character. */
  function CutExtension(name: string): string {
    var dot := LastIndexOf(name, '.');
    if dot > 0 then name[..dot] else name
  }

  /** `.pdf` appended unless the name already ends with it, in any case. */
  function WithPdfExtension(name: string): string {
    if EndsWith(Lower(name), ".pdf") then name else name + ".pdf"
  }

  /** The download name `getPDFFilename` derives from a parsed URL. */
  function PdfFilenameOf(u: Url): (r: string)
    ensures EndsWith(Lower(r), ".pdf")
  {
    var name := if u.pathname != "/" then CutExtension(LastSegment(u.pathname)) else u.hostname;
    PdfExtensionPresent(name);
    WithPdfExtension(name)
  }

  /** `getPDFFilename(url)`: `None` where `new URL(url)` throws. */
  function GetPdfFilename(url: string, parse: UrlParser): (r: Option<string>)
    ensures r.None? <==> parse(url).None?
    ensures r.Some? ==> EndsWith(Lower(r.value), ".pdf")
  {
    match parse(url)
    case None => None
    case Some(u) => Some(PdfFilenameOf(u))
  }

  lemma PdfExtensionPresent(name: string)
    ensures EndsWith(Lower(WithPdfExtension(name)), ".pdf")
  {
    if !EndsWith(Lower(name), ".pdf") {
      var l := Lower(name + ".pdf");
      assert l == Lower(name) + ".pdf" by {
        LowerAppend(name, ".pdf");
        LowerOfLowercase(".pdf");
      }
      assert l[|l| - 4..] == ".pdf";
    }
  }

  /** An existing `.pdf` ending, in any case, is kept as it is. */
  /** The extension step only ever appends, at most the four characters of
      `.pdf`; it keeps a name exactly when the name already ends in `.pdf`, and
      applying it twice is applying it once. */
  lemma WithPdfExtensionKeeps(name: string)
    ensures name <= WithPdfExtension(name) && |WithPdfExtension(name)| <= |name| + 4
    ensures WithPdfExtension(name) == name <==> EndsWith(Lower(name), ".pdf")
    ensures WithPdfExtension(WithPdfExtension(name)) == WithPdfExtension(name)
  {
    PdfExtensionPresent(name);
  }

  /** For the root path the name is the hostname, for any other path it is
      the text after the last `/`, cut at its last dot when that dot is not the
      first character; then `.pdf` is added unless present. */
  lemma PdfFilenameFromPath(u: Url)
    ensures var segment := u.pathname[LastIndexOf(u.pathname, '/') + 1..];
      var dot := LastIndexOf(segment, '.');
      PdfFilenameOf(u) == WithPdfExtension(
        if u.pathname == "/" then u.hostname
        else if dot > 0 then segment[..dot] else segment)
  {
    if u.pathname != "/" {
      LastPieceAfterLastSlash(u.pathname, '/');
      assert LastSegment(u.pathname) == u.pathname[LastIndexOf(u.pathname, '/') + 1..];
    }
  }

  /** A path that ends with `/` gives the name `.pdf`. */
  lemma TrailingSlashGivesBarePdf(u: Url)
    requires u.pathname != "/" && u.pathname != [] && u.pathname[|u.pathname| - 1] == '/'
    ensures PdfFilenameOf(u) == ".pdf"
  {
    var p := u.pathname;
    PdfFilenameFromPath(u);
    assert LastIndexOf(p, '/') == |p| - 1;
    assert p[|p|..] == "";
    assert LastIndexOf("", '.') == -1;
    assert Lower("") == "";
    assert !EndsWith("", ".pdf");
  }

  /** The last segment is what follows the last `/`. */
  lemma SegmentAfter(pathname: string, i: nat)
    requires i < |pathname| && pathname[i] == '/'
    requires forall j :: i < j < |pathname| ==> pathname[j] != '/'
    ensures LastSegment(pathname) == pathname[i + 1..]
  {
    LastPieceAfterLastSlash(pathname, '/');
    LastIndexOfUnique(pathname, '/', i);
  }

  /** A name shorter than `.pdf` gets `.pdf` appended. */
  lemma ShortNameExtended(name: string)
    requires |name| < 4
    ensures WithPdfExtension(name) == name + ".pdf"
  {
  }

  /** The text after the last `/` of `/docs/q1.html`. */
  lemma HtmlPathSegment(pathname: string)
    requires pathname == "/docs/q1.html"
    ensures LastSegment(pathname) == "q1.html"
  {
    SegmentAfter(pathname, 5);
    assert pathname[6..] == "q1.html";
  }

  /** `q1.html` cut at its dot. */
  lemma HtmlNameCut(name: string)
    requires name == "q1.html"
    ensures CutExtension(name) == "q1"
  {
    LastIndexOfUnique(name, '.', 2);
    assert name[..2] == "q1";
  }

  /** `/docs/q1.html` gives `q1.pdf`. */
  lemma HtmlPageExample(hostname: string, pathname: string)
    requires pathname == "/docs/q1.html"
    ensures PdfFilenameOf(Url(hostname, pathname)) == "q1.pdf"
  {
    assert CutExtension(LastSegment(pathname)) == "q1" by {
      HtmlPathSegment(pathname);
      HtmlNameCut("q1.html");
    }
    assert WithPdfExtension("q1") == "q1.pdf" by {
      ShortNameExtended("q1");
    }
    assert pathname != "/";
  }

  /** The text after the last `/` of `/.env`, which has no extension to cut. */
  lemma DotFileSteps(pathname: string)
    requires pathname == "/.env"
    ensures LastSegment(pathname) == ".env"
    ensures CutExtension(".env") == ".env"
  {
    SegmentAfter(pathname, 0);
    assert pathname[1..] == ".env";
    LastIndexOfUnique(".env", '.', 0);
  }

  /** `.env` does not end with `.pdf`, in any case. */
  lemma DotFileExtended(name: string)
    requires name == ".env"
    ensures WithPdfExtension(name) == ".env.pdf"
  {
    LowerOfLowercase(name);
    assert name[1] != ".pdf"[1];
  }

  /** A dot-file name such as `/.env` is not cut: it gives `.env.pdf`. */
  lemma DotFileExample(hostname: string, pathname: string)
    requires pathname == "/.env"
    ensures PdfFilenameOf(Url(hostname, pathname)) == ".env.pdf"
  {
    assert CutExtension(LastSegment(pathname)) == ".env" by {
      DotFileSteps(pathname);
    }
    assert WithPdfExtension(".env") == ".env.pdf" by {
      DotFileExtended(".env");
    }
    assert pathname != "/";
  }

  /** `example.com` does not end with `.pdf`, in any case. */
  lemma HostnameExtended(hostname: string)
    requires hostname == "example.com"
    ensures WithPdfExtension(hostname) == "example.com.pdf"
  {
    LowerOfLowercase(hostname);
    assert hostname[8] != ".pdf"[1];
  }

  /** The root of `example.com` gives `example.com.pdf`. */
  lemma RootExample(hostname: string)
    requires hostname == "example.com"
    ensures PdfFilenameOf(Url(hostname, "/")) == "example.com.pdf"
  {
    HostnameExtended(hostname);
  }

  // ---------------------------------------------------------------------------
  // Response header defaults

  /** `image/<type>`, with `png` when no type is given. */
  function ScreenshotContentType(imageType: Option<string>): string {
    "image/" + (if Given(imageType) then imageType.value else "png")
  }

  /** The content disposition type, `attachment` when none is given. */
  function DispositionType(requested: Option<string>): string {
    if Given(requested) then requested.value else "attachment"
  }

  /** The download name: the requested file name, or one derived from the URL. */
  function DownloadName(filename: Option<string>, url: string, parse: UrlParser): Option<string> {
    if Given(filename) then filename else GetPdfFilename(url, parse)
  }

  /** The screenshot type is always an `image/` type, `image/png` exactly when
      none or `png` is requested; the disposition type is `attachment` exactly
      when none or `attachment` is requested, and is never empty. */
  lemma HeaderDefaults(imageType: Option<string>, requested: Option<string>)
    ensures "image/" <= ScreenshotContentType(imageType)
    ensures ScreenshotContentType(imageType) == "image/png" <==> !Given(imageType) || imageType.value == "png"
    ensures DispositionType(requested) == "attachment" <==> !Given(requested) || requested.value == "attachment"
    ensures DispositionType(requested) != ""
  {
    var ct := ScreenshotContentType(imageType);
    if Given(imageType) {
      assert ct[6..] == imageType.value;
    }
  }

  /** A derived download name always ends with `.pdf`; a requested one is used as given. */
  lemma DownloadNameShape(filename: Option<string>, url: string, parse: UrlParser)
    ensures Given(filename) ==> DownloadName(filename, url, parse) == filename
    ensures !Given(filename) && DownloadName(filename, url, parse).Some? ==>
      EndsWith(Lower(DownloadName(filename, url, parse).value), ".pdf")
    ensures !Given(filename) ==> (DownloadName(filename, url, parse).None? <==> parse(url).None?)
  {
  }

  // ---------------------------------------------------------------------------
  // The render routes

  /** A render request's query, already typed by the query schemas. */
  datatype Query = Query(
    url: string,
    page: PageOptions,
    viewport: Viewport,
    screenshot: ScreenshotOptions,
    pdf: PdfOptions,
    filename: Option<string>,
    contentDispositionType: Option<string>)

  /** Why a route passes the request on to the error handler. */
  datatype RouteError =
    | Rejected(domainError: DomainError)
    | RendererMissing
    | RenderFailed(engineError: EngineError)
    | InvalidUrl

  /** The browser a route may drive: that of the published renderer, if any. */
  function RendererBrowsers(slot: RendererSlot): set<Browser>
    reads slot
  {
    if slot.renderer.Some? then {slot.renderer.value.browser} else {}
  }

  /** A response left exactly as it was. */
  twostate predicate Untouched(res: Response)
    reads res
  {
    && res.status == old(res.status) && res.headers == old(res.headers)
    && res.body == old(res.body) && res.sent == old(res.sent)
  }

  /** The response headers the routes set. */
  predicate IsRouteHeader(name: string) {
    name == "Content-Type" || name == "Content-Length" || name == "Content-Disposition"
  }

  /** Every header other than those the routes set is kept. */
  predicate PreservesOtherHeaders(before: map<string, HeaderValue>, after: map<string, HeaderValue>) {
    forall name :: name in before && !IsRouteHeader(name) ==> name in after && after[name] == before[name]
  }

  /** The common front of the three routes: the URL is normalised and checked
      against the allow-list before the renderer is looked up. */
  function Admit(query: Query, allowedDomainsEnv: Option<string>, parse: UrlParser, slot: RendererSlot): Result<Renderer, RouteError>
    reads slot
  {
    match ValidateUrlDomain(allowedDomainsEnv, NormalizeUrl(query.url), parse)
    case Fail(e) => Failure(Rejected(e))
    case Pass => if slot.renderer.Some? then Success(slot.renderer.value) else Failure(RendererMissing)
  }

  /** A rejected URL never reaches the renderer, and a missing renderer is
      reported only for an allowed URL. */
  lemma AdmitChecksDomainFirst(query: Query, allowedDomainsEnv: Option<string>, parse: UrlParser, slot: RendererSlot)
    ensures var url := NormalizeUrl(query.url);
      && (Admit(query, allowedDomainsEnv, parse, slot).Success? <==>
            IsUrlAllowed(allowedDomainsEnv, url, parse) && slot.renderer.Some?)
      && (!IsUrlAllowed(allowedDomainsEnv, url, parse) ==>
            Admit(query, allowedDomainsEnv, parse, slot).Failure? &&
            Admit(query, allowedDomainsEnv, parse, slot).error.Rejected?)
  {
  }

  /** `GET /html` */
  method HtmlRoute(query: Query, allowedDomainsEnv: Option<string>, parse: UrlParser, slot: RendererSlot, res: Response)
    returns (err: Option<RouteError>)
    modifies res, RendererBrowsers(slot)
    ensures !old(res.sent) ==> (err.None? <==> res.sent)
    ensures PreservesOtherHeaders(old(res.headers), res.headers)
    ensures var admitted := Admit(query, allowedDomainsEnv, parse, slot);
      var url := NormalizeUrl(query.url);
      && (admitted.Failure? ==> err == Some(admitted.error) && Untouched(res) && unchanged(RendererBrowsers(slot)))
      && (admitted.Success? ==> HtmlResponded(admitted.value, url, query.page, res, err))
  {
    var url := NormalizeUrl(query.url);
    var check := ValidateUrlDomain(allowedDomainsEnv, url, parse);
    if check.Fail? {
      return Some(Rejected(check.error));
    }
    if slot.renderer.None? {
      return Some(RendererMissing);
    }
    err := RespondHtml(slot.renderer.value, url, query.page, res);
  }

  /** What the HTML route leaves behind once its URL is admitted: the page
      rendered and closed, and the document sent with status 200 unless the
      render failed, in which case the response is untouched. */
  twostate predicate HtmlResponded(renderer: Renderer, url: string, page: PageOptions, res: Response, new err: Option<RouteError>)
    reads renderer.browser, renderer.browser.pages, res
  {
    && renderer.Rendered(old(renderer.browser.pages), HtmlPlan(url, page))
    && match HtmlOutcome(renderer.browser, url, page)
       case Failure(e) => err == Some(RenderFailed(e)) && Untouched(res)
       case Success(html) =>
         && err == None && res.status == 200 && res.body == TextBody(html) && res.sent
         && res.headers == old(res.headers)
  }

  /** The HTML route after the URL is admitted. */
  method RespondHtml(renderer: Renderer, url: string, page: PageOptions, res: Response) returns (err: Option<RouteError>)
    modifies res, renderer.browser
    ensures !old(res.sent) ==> (err.None? <==> res.sent)
    ensures PreservesOtherHeaders(old(res.headers), res.headers)
    ensures HtmlResponded(renderer, url, page, res, err)
  {
    var html := renderer.Html(url, page);
    if html.Failure? {
      return Some(RenderFailed(html.error));
    }
    res.SetStatus(200);
    res.Send(TextBody(html.value));
    return None;
  }

  /** `GET /screenshot` */
  method ScreenshotRoute(query: Query, allowedDomainsEnv: Option<string>, parse: UrlParser, imaging: Imaging,
                         slot: RendererSlot, res: Response)
    returns (err: Option<RouteError>)
    modifies res, RendererBrowsers(slot)
    ensures !old(res.sent) ==> (err.None? <==> res.sent)
    ensures PreservesOtherHeaders(old(res.headers), res.headers)
    ensures var admitted := Admit(query, allowedDomainsEnv, parse, slot);
      var url := NormalizeUrl(query.url);
      && (admitted.Failure? ==> err == Some(admitted.error) && Untouched(res) && unchanged(RendererBrowsers(slot)))
      && (admitted.Success? ==> ScreenshotResponded(admitted.value, url, query, imaging, res, err))
  {
    var url := NormalizeUrl(query.url);
    var check := ValidateUrlDomain(allowedDomainsEnv, url, parse);
    if check.Fail? {
      return Some(Rejected(check.error));
    }
    if slot.renderer.None? {
      return Some(RendererMissing);
    }
    err := RespondScreenshot(slot.renderer.value, url, query, imaging, res);
  }

  /** What the screenshot route leaves behind once its URL is admitted: the page
      rendered and closed, and the image sent with its content type and length
      unless the render failed, in which case the response is untouched. */
  twostate predicate ScreenshotResponded(renderer: Renderer, url: string, query: Query, imaging: Imaging,
                                         res: Response, new err: Option<RouteError>)
    reads renderer.browser, renderer.browser.pages, res
  {
    && renderer.Rendered(old(renderer.browser.pages), ScreenshotPlan(url, query.page, query.viewport, query.screenshot))
    && match ScreenshotOutcome(renderer.browser, url, query.page, query.viewport, query.screenshot, imaging)
       case Failure(e) => err == Some(RenderFailed(e)) && Untouched(res)
       case Success(shot) =>
         && err == None && res.status == old(res.status) && res.body == Bytes(shot.buffer) && res.sent
         && res.headers == old(res.headers)["Content-Type" := Text(ScreenshotContentType(shot.imageType))]
                                          ["Content-Length" := Length(|shot.buffer|)]
  }

  /** The screenshot route after the URL is admitted. */
  method RespondScreenshot(renderer: Renderer, url: string, query: Query, imaging: Imaging, res: Response)
    returns (err: Option<RouteError>)
    modifies res, renderer.browser
    ensures !old(res.sent) ==> (err.None? <==> res.sent)
    ensures PreservesOtherHeaders(old(res.headers), res.headers)
    ensures ScreenshotResponded(renderer, url, query, imaging, res, err)
  {
    var shot := renderer.Screenshot(url, query.page, query.viewport, query.screenshot, imaging);
    if shot.Failure? {
      return Some(RenderFailed(shot.error));
    }
    res.SetHeader("Content-Type", Text(ScreenshotContentType(shot.value.imageType)));
    res.SetHeader("Content-Length", Length(|shot.value.buffer|));
    res.Send(Bytes(shot.value.buffer));
    return None;
  }

  /** `GET /pdf` */
  method PdfRoute(query: Query, allowedDomainsEnv: Option<string>, parse: UrlParser, slot: RendererSlot, res: Response)
    returns (err: Option<RouteError>)
    modifies res, RendererBrowsers(slot)
    ensures !old(res.sent) ==> (err.None? <==> res.sent)
    ensures PreservesOtherHeaders(old(res.headers), res.headers)
    ensures var admitted := Admit(query, allowedDomainsEnv, parse, slot);
      var url := NormalizeUrl(query.url);
      && (admitted.Failure? ==> err == Some(admitted.error) && Untouched(res) && unchanged(RendererBrowsers(slot)))
      && (admitted.Success? ==> PdfResponded(admitted.value, url, query, parse, res, err))
  {
    var url := NormalizeUrl(query.url);
    var check := ValidateUrlDomain(allowedDomainsEnv, url, parse);
    if check.Fail? {
      return Some(Rejected(check.error));
    }
    if slot.renderer.None? {
      return Some(RendererMissing);
    }
    err := RespondPdf(slot.renderer.value, url, query, parse, res);
  }

  /** What the PDF route leaves behind once its URL is admitted: the page
      rendered and closed, and the document sent as a named download unless
      the render failed or no file name can be derived, in which case the
      response is untouched. */
  twostate predicate PdfResponded(renderer: Renderer, url: string, query: Query, parse: UrlParser,
                                  res: Response, new err: Option<RouteError>)
    reads renderer.browser, renderer.browser.pages, res
  {
    && renderer.Rendered(old(renderer.browser.pages), PdfPlan(url, query.page, query.pdf))
    && match PdfOutcome(renderer.browser, url, query.page, query.pdf)
       case Failure(e) => err == Some(RenderFailed(e)) && Untouched(res)
       case Success(pdf) =>
         match DownloadName(query.filename, url, parse)
         case None => err == Some(InvalidUrl) && Untouched(res)
         case Some(name) =>
           && err == None && res.status == old(res.status) && res.body == Bytes(pdf) && res.sent
           && res.headers == old(res.headers)["Content-Type" := Text("application/pdf")]
                                            ["Content-Length" := Length(|pdf|)]
                                            ["Content-Disposition" := Disposition(DispositionType(query.contentDispositionType), name)]
  }

  /** Setting the three headers of a PDF response keeps every other header. */
  lemma PdfHeadersKeepOthers(before: map<string, HeaderValue>, contentType: HeaderValue, length: HeaderValue,
                             disposition: HeaderValue)
    ensures PreservesOtherHeaders(before, before["Content-Type" := contentType]["Content-Length" := length]
                                              ["Content-Disposition" := disposition])
  {
    var after := before["Content-Type" := contentType]["Content-Length" := length]["Content-Disposition" := disposition];
    forall name | name in before && !IsRouteHeader(name)
      ensures name in after && after[name] == before[name]
    {
    }
  }

  /** The PDF route after the URL is admitted. */
  method RespondPdf(renderer: Renderer, url: string, query: Query, parse: UrlParser, res: Response)
    returns (err: Option<RouteError>)
    modifies res, renderer.browser
    ensures !old(res.sent) ==> (err.None? <==> res.sent)
    ensures PreservesOtherHeaders(old(res.headers), res.headers)
    ensures PdfResponded(renderer, url, query, parse, res, err)
  {
    ghost var before := res.headers;
    var pdf := renderer.Pdf(url, query.page, query.pdf);
    if pdf.Failure? {
      return Some(RenderFailed(pdf.error));
    }
    var name := DownloadName(query.filename, url, parse);
    if name.None? {
      return Some(InvalidUrl);
    }
    res.SetHeader("Content-Type", Text("application/pdf"));
    res.SetHeader("Content-Length", Length(|pdf.value|));
    res.SetHeader("Content-Disposition", Disposition(DispositionType(query.contentDispositionType), name.value));
    res.Send(Bytes(pdf.value));
    PdfHeadersKeepOthers(before, Text("application/pdf"), Length(|pdf.value|),
      Disposition(DispositionType(query.contentDispositionType), name.value));
    return None;
  }
}
