/** The browser engine as the renderer sees it: a browser that opens pages, and
    pages whose every call is recorded and may fail. What the engine does inside
    a call (loading, scripting, capture, encoding) is not modelled: the outcome of
    each call is part of the engine's given behaviour. */
module Engine {
  import opened Wrappers

  newtype byte = x: int | 0 <= x < 256

  datatype Credentials = Credentials(username: string, password: string)

  /** The options left for `page.goto` once credentials, media type and headers
      are taken out of the page options. */
  datatype NavigationOptions = NavigationOptions(timeout: Option<int>, waitUntil: Option<string>)

  /** The validated page options: `headers` is the JSON text of the extra headers. */
  datatype PageOptions = PageOptions(
    headers: Option<string>,
    emulateMediaType: Option<string>,
    credentials: Option<Credentials>,
    navigation: NavigationOptions)

  datatype Viewport = Viewport(
    width: int,
    height: int,
    deviceScaleFactor: Option<real>,
    isMobile: Option<bool>,
    hasTouch: Option<bool>,
    isLandscape: Option<bool>)

  /** Capture fields other than type, quality and the animation wait (clip,
      full page, background, ...), passed through to the engine untouched. */
  datatype CaptureFields = CaptureFields(fields: map<string, string>)

  datatype ScreenshotOptions = ScreenshotOptions(
    imageType: Option<string>,
    quality: Option<int>,
    rest: CaptureFields,
    animationTimeout: int)

  /** What `page.screenshot` receives: the screenshot options without the
      animation wait. */
  datatype CaptureOptions = CaptureOptions(imageType: Option<string>, quality: Option<int>, rest: CaptureFields)

  /** The PDF layout options, passed through to the engine untouched. */
  datatype PdfOptions = PdfOptions(fields: map<string, string>)

  /** Every call the renderer makes on a page. */
  datatype PageCall =
    | SetExtraHttpHeaders(headers: string)
    | EmulateMediaType(mediaType: string)
    | Authenticate(credentials: Credentials)
    | SetCacheEnabled(enabled: bool)
    | Goto(url: string, options: NavigationOptions)
    | Content
    | Pdf(pdfOptions: PdfOptions)
    | SetViewport(viewport: Viewport)
    | WaitForAnimations(screenshotOptions: ScreenshotOptions, timeout: int)
    | Screenshot(captureOptions: CaptureOptions)
    | Close

  datatype EngineError =
    | NewPageFailed
    | CallFailed(call: PageCall)
    | ImageFailed
    | LaunchFailed

  /** How the pages of a browser behave: which calls fail, and what the
      successful captures return. */
  datatype PageBehaviour = PageBehaviour(
    fails: PageCall -> bool,
    document: string,
    pdfOf: PdfOptions -> seq<byte>,
    captureOf: CaptureOptions -> seq<byte>)

  /** A browsing context. `calls` is every call issued on it, in order. */
  class Page {
    const behaviour: PageBehaviour
    var closed: bool
    var calls: seq<PageCall>

    constructor (behaviour: PageBehaviour)
      ensures this.behaviour == behaviour && !closed && calls == []
    {
      this.behaviour := behaviour;
      closed := false;
      calls := [];
    }

    /** A configuration or navigation call: succeeds unless the engine fails it. */
    method Call(c: PageCall) returns (ok: bool)
      modifies this
      ensures calls == old(calls) + [c] && closed == old(closed)
      ensures ok == !behaviour.fails(c)
    {
      calls := calls + [c];
      ok := !behaviour.fails(c);
    }

    /** `page.content()` */
    method Content() returns (r: Result<string, EngineError>)
      modifies this
      ensures calls == old(calls) + [PageCall.Content] && closed == old(closed)
      ensures r == if behaviour.fails(PageCall.Content) then Failure(CallFailed(PageCall.Content)) else Success(behaviour.document)
    {
      var ok := Call(PageCall.Content);
      r := if ok then Success(behaviour.document) else Failure(CallFailed(PageCall.Content));
    }

    /** `page.pdf(options)` */
    method Pdf(options: PdfOptions) returns (r: Result<seq<byte>, EngineError>)
      modifies this
      ensures calls == old(calls) + [PageCall.Pdf(options)] && closed == old(closed)
      ensures r == if behaviour.fails(PageCall.Pdf(options)) then Failure(CallFailed(PageCall.Pdf(options)))
                   else Success(behaviour.pdfOf(options))
    {
      var ok := Call(PageCall.Pdf(options));
      r := if ok then Success(behaviour.pdfOf(options)) else Failure(CallFailed(PageCall.Pdf(options)));
    }

    /** `page.screenshot(options)` */
    method Screenshot(options: CaptureOptions) returns (r: Result<seq<byte>, EngineError>)
      modifies this
      ensures calls == old(calls) + [PageCall.Screenshot(options)] && closed == old(closed)
      ensures r == if behaviour.fails(PageCall.Screenshot(options)) then Failure(CallFailed(PageCall.Screenshot(options)))
                   else Success(behaviour.captureOf(options))
    {
      var ok := Call(PageCall.Screenshot(options));
      r := if ok then Success(behaviour.captureOf(options)) else Failure(CallFailed(PageCall.Screenshot(options)));
    }

    /** `page.close()`: the page is closed afterwards unless the engine fails the call. */
    method Close() returns (ok: bool)
      modifies this
      ensures calls == old(calls) + [PageCall.Close]
      ensures ok == !behaviour.fails(PageCall.Close)
      ensures closed == (old(closed) || ok)
    {
      calls := calls + [PageCall.Close];
      ok := !behaviour.fails(PageCall.Close);
      closed := closed || ok;
    }
  }

  /** The launched browser process. `pages` is every page it has opened. */
  class Browser {
    const launchArgs: seq<string>
    const headless: string
    const ignoreHttpsErrors: bool
    const newPageFails: bool
    const pageBehaviour: PageBehaviour
    var pages: seq<Page>
    var closed: bool

    constructor (launchArgs: seq<string>, headless: string, ignoreHttpsErrors: bool,
                 newPageFails: bool, pageBehaviour: PageBehaviour)
      ensures this.launchArgs == launchArgs && this.headless == headless
      ensures this.ignoreHttpsErrors == ignoreHttpsErrors
      ensures this.newPageFails == newPageFails && this.pageBehaviour == pageBehaviour
      ensures pages == [] && !closed
    {
      this.launchArgs := launchArgs;
      this.headless := headless;
      this.ignoreHttpsErrors := ignoreHttpsErrors;
      this.newPageFails := newPageFails;
      this.pageBehaviour := pageBehaviour;
      pages := [];
      closed := false;
    }

    /** `browser.newPage()` */
    method NewPage() returns (r: Result<Page, EngineError>)
      modifies this
      ensures closed == old(closed)
      ensures newPageFails ==> r == Failure(NewPageFailed) && pages == old(pages)
      ensures !newPageFails ==>
        && r.Success? && fresh(r.value)
        && pages == old(pages) + [r.value]
        && r.value.behaviour == pageBehaviour && !r.value.closed && r.value.calls == []
    {
      if newPageFails {
        return Failure(NewPageFailed);
      }
      var page := new Page(pageBehaviour);
      pages := pages + [page];
      return Success(page);
    }

    /** `browser.close()` */
    method Close()
      modifies this
      ensures closed && pages == old(pages)
    {
      closed := true;
    }
  }
}
