/** The renderer: one page per request, configured, navigated, captured and
    always closed; plus the option derivations of each capture and the launch of
    the shared browser. */
module Renderer {
  import opened Wrappers
  import opened Engine

  // ---------------------------------------------------------------------------
  // The calls each render issues, in order, when none of them fails

  predicate Given(s: Option<string>) { s.Some? && s.value != "" }

  function HeaderStep(headers: Option<string>): seq<PageCall> {
    if Given(headers) then [SetExtraHttpHeaders(headers.value)] else []
  }

  function MediaStep(mediaType: Option<string>): seq<PageCall> {
    if Given(mediaType) then [EmulateMediaType(mediaType.value)] else []
  }

  function AuthStep(credentials: Option<Credentials>): seq<PageCall> {
    if credentials.Some? then [Authenticate(credentials.value)] else []
  }

  /** What `createPage` asks of a fresh page. */
  function ConfigurePlan(url: string, options: PageOptions): seq<PageCall> {
    HeaderStep(options.headers) + MediaStep(options.emulateMediaType) + AuthStep(options.credentials)
    + [SetCacheEnabled(false), Goto(url, options.navigation)]
  }

  /** The position of a configuration call in the order `createPage` issues them. */
  function StepRank(c: PageCall): int {
    match c
    case SetExtraHttpHeaders(_) => 0
    case EmulateMediaType(_) => 1
    case Authenticate(_) => 2
    case SetCacheEnabled(_) => 3
    case Goto(_, _) => 4
    case _ => 5
  }

  /** `createPage` applies headers, then media type, then credentials, each only
      when given and at most once, then disables the cache, and navigates last. */
  lemma ConfigurePlanOrder(url: string, options: PageOptions)
    ensures var plan := ConfigurePlan(url, options);
      && (forall i, j :: 0 <= i < j < |plan| ==> StepRank(plan[i]) < StepRank(plan[j]))
      && |plan| >= 2
      && plan[|plan| - 2] == SetCacheEnabled(false)
      && plan[|plan| - 1] == Goto(url, options.navigation)
      && (forall h :: SetExtraHttpHeaders(h) in plan <==> options.headers == Some(h) && h != "")
      && (forall m :: EmulateMediaType(m) in plan <==> options.emulateMediaType == Some(m) && m != "")
      && (forall c :: Authenticate(c) in plan <==> options.credentials == Some(c))
  {
    ConfigurePlanRanks(url, options);
    HeadersInPlan(url, options);
    MediaInPlan(url, options);
    AuthInPlan(url, options);
  }

  lemma ConfigurePlanRanks(url: string, options: PageOptions)
    ensures var plan := ConfigurePlan(url, options);
      && (forall i, j :: 0 <= i < j < |plan| ==> StepRank(plan[i]) < StepRank(plan[j]))
      && |plan| >= 2
      && plan[|plan| - 2] == SetCacheEnabled(false)
      && plan[|plan| - 1] == Goto(url, options.navigation)
  {
    var a := HeaderStep(options.headers);
    var b := MediaStep(options.emulateMediaType);
    var c := AuthStep(options.credentials);
    var plan := ConfigurePlan(url, options);
    assert plan == a + b + c + [SetCacheEnabled(false), Goto(url, options.navigation)];
    forall i | 0 <= i < |plan|
      ensures StepRank(plan[i]) == if i < |a| then 0 else if i < |a| + |b| then 1
        else if i < |a| + |b| + |c| then 2 else if i == |plan| - 2 then 3 else 4
    {
    }
  }

  lemma HeadersInPlan(url: string, options: PageOptions)
    ensures forall h :: SetExtraHttpHeaders(h) in ConfigurePlan(url, options) <==> options.headers == Some(h) && h != ""
  {
    var a := HeaderStep(options.headers);
    var rest := MediaStep(options.emulateMediaType) + AuthStep(options.credentials)
      + [SetCacheEnabled(false), Goto(url, options.navigation)];
    assert ConfigurePlan(url, options) == a + rest;
    assert forall i :: 0 <= i < |rest| ==> !rest[i].SetExtraHttpHeaders?;
  }

  lemma MediaInPlan(url: string, options: PageOptions)
    ensures forall m :: EmulateMediaType(m) in ConfigurePlan(url, options) <==> options.emulateMediaType == Some(m) && m != ""
  {
    var a := HeaderStep(options.headers);
    var b := MediaStep(options.emulateMediaType);
    var rest := AuthStep(options.credentials) + [SetCacheEnabled(false), Goto(url, options.navigation)];
    assert ConfigurePlan(url, options) == a + b + rest;
    assert forall i :: 0 <= i < |a| ==> !a[i].EmulateMediaType?;
    assert forall i :: 0 <= i < |rest| ==> !rest[i].EmulateMediaType?;
  }

  lemma AuthInPlan(url: string, options: PageOptions)
    ensures forall c :: Authenticate(c) in ConfigurePlan(url, options) <==> options.credentials == Some(c)
  {
    var front := HeaderStep(options.headers) + MediaStep(options.emulateMediaType);
    var c := AuthStep(options.credentials);
    var rest := [SetCacheEnabled(false), Goto(url, options.navigation)];
    assert ConfigurePlan(url, options) == front + c + rest;
    assert forall i :: 0 <= i < |front| ==> !front[i].Authenticate?;
    assert forall i :: 0 <= i < |rest| ==> !rest[i].Authenticate?;
  }

  // ---------------------------------------------------------------------------
  // Running a sequence of calls that may fail

  /** The first call of `plan` the engine fails, if any. */
  function FirstFailure(plan: seq<PageCall>, fails: PageCall -> bool): (r: Option<PageCall>)
    ensures r.None? <==> forall i :: 0 <= i < |plan| ==> !fails(plan[i])
    ensures r.Some? ==> r.value in plan && fails(r.value)
    decreases |plan|
  {
    if plan == [] then None
    else if fails(plan[0]) then Some(plan[0])
    else FirstFailure(plan[1..], fails)
  }

  /** The calls actually issued when `plan` runs until its first failure: a
      prefix of the plan whose only failing call, if any, is its last. */
  function Run(plan: seq<PageCall>, fails: PageCall -> bool): (r: seq<PageCall>)
    ensures |r| <= |plan| && r == plan[..|r|]
    ensures FirstFailure(plan, fails).None? ==> r == plan
    ensures FirstFailure(plan, fails).Some? ==>
      r != [] && r[|r| - 1] == FirstFailure(plan, fails).value
    ensures forall i :: 0 <= i < |r| - 1 ==> !fails(r[i])
    decreases |plan|
  {
    if plan == [] then []
    else if fails(plan[0]) then [plan[0]]
    else [plan[0]] + Run(plan[1..], fails)
  }

  /** Running a concatenation runs the second part only if the first went through. */
  lemma RunAppend(a: seq<PageCall>, b: seq<PageCall>, fails: PageCall -> bool)
    ensures FirstFailure(a + b, fails) == if FirstFailure(a, fails).Some? then FirstFailure(a, fails) else FirstFailure(b, fails)
    ensures Run(a + b, fails) == if FirstFailure(a, fails).Some? then Run(a, fails) else a + Run(b, fails)
  {
    FirstFailureAppend(a, b, fails);
    RunOfAppend(a, b, fails);
  }

  /** The first failure of a concatenation is the first part's, if it has one. */
  lemma {:induction false} FirstFailureAppend(a: seq<PageCall>, b: seq<PageCall>, fails: PageCall -> bool)
    ensures FirstFailure(a + b, fails) == if FirstFailure(a, fails).Some? then FirstFailure(a, fails) else FirstFailure(b, fails)
    decreases |a|
  {
    if a == [] {
      assert a + b == b;
    } else if !fails(a[0]) {
      assert (a + b)[1..] == a[1..] + b;
      FirstFailureAppend(a[1..], b, fails);
    } else {
      assert (a + b)[0] == a[0];
    }
  }

  /** The calls issued on a concatenation: the second part's only if the first went through. */
  lemma {:induction false} RunOfAppend(a: seq<PageCall>, b: seq<PageCall>, fails: PageCall -> bool)
    ensures Run(a + b, fails) == if FirstFailure(a, fails).Some? then Run(a, fails) else a + Run(b, fails)
    decreases |a|
  {
    if a == [] {
      assert a + b == b;
    } else if !fails(a[0]) {
      var t := a[1..];
      assert (a + b)[0] == a[0] && (a + b)[1..] == t + b;
      assert Run(a + b, fails) == [a[0]] + Run(t + b, fails);
      assert Run(a, fails) == [a[0]] + Run(t, fails);
      assert FirstFailure(a, fails) == FirstFailure(t, fails);
      RunOfAppend(t, b, fails);
      if FirstFailure(t, fails).None? {
        assert a == [a[0]] + t;
        assert [a[0]] + (t + Run(b, fails)) == a + Run(b, fails);
      }
    } else {
      assert (a + b)[0] == a[0];
    }
  }

  /** A run that failed at `c` after the calls in `done` all went through. */
  lemma RunFailsAt(done: seq<PageCall>, c: PageCall, rest: seq<PageCall>, fails: PageCall -> bool)
    requires forall i :: 0 <= i < |done| ==> !fails(done[i])
    requires fails(c)
    ensures FirstFailure(done + [c] + rest, fails) == Some(c)
    ensures Run(done + [c] + rest, fails) == done + [c]
  {
    var tail := [c] + rest;
    assert done + [c] + rest == done + tail;
    assert FirstFailure(done, fails).None?;
    assert FirstFailure(tail, fails) == Some(c) && Run(tail, fails) == [c] by {
      FailingHead(c, rest, fails);
    }
    RunAppend(done, tail, fails);
  }

  /** A run whose first call fails stops there. */
  lemma FailingHead(c: PageCall, rest: seq<PageCall>, fails: PageCall -> bool)
    requires fails(c)
    ensures FirstFailure([c] + rest, fails) == Some(c)
    ensures Run([c] + rest, fails) == [c]
  {
    assert ([c] + rest)[0] == c;
  }

  /** A run that failed at index `k` after the calls before it all went through. */
  lemma RunFailsAtIndex(plan: seq<PageCall>, k: nat, fails: PageCall -> bool)
    requires k < |plan| && AllPass(plan[..k], fails) && fails(plan[k])
    ensures FirstFailure(plan, fails) == Some(plan[k])
    ensures Run(plan, fails) == plan[..k + 1]
  {
    var done := plan[..k];
    AroundIndex(plan, k);
    assert plan[..k + 1] == done + [plan[k]];
    assert forall i :: 0 <= i < |done| ==> !fails(done[i]);
    RunFailsAt(done, plan[k], plan[k + 1..], fails);
  }

  /** A sequence is what comes before index `k`, the element there, and what follows. */
  lemma AroundIndex<T>(s: seq<T>, k: nat)
    requires k < |s|
    ensures s == s[..k] + [s[k]] + s[k + 1..]
  {
    var t := s[..k] + [s[k]] + s[k + 1..];
    assert |t| == |s|;
    forall i | 0 <= i < |s| ensures t[i] == s[i] {
      if i < k {
        assert t[i] == s[..k][i];
      } else if k < i {
        assert t[i] == s[k + 1..][i - k - 1];
      }
    }
  }

  /** Where each part of the configuration plan stands. */
  lemma ConfigurePlanSlices(url: string, options: PageOptions)
    ensures var plan := ConfigurePlan(url, options);
      var h := HeaderStep(options.headers);
      var m := MediaStep(options.emulateMediaType);
      var a := AuthStep(options.credentials);
      var n := |h| + |m| + |a|;
      && |plan| == n + 2
      && plan[0..|h|] == h
      && plan[|h|..|h| + |m|] == m
      && plan[|h| + |m|..n] == a
      && plan[n] == SetCacheEnabled(false)
      && plan[n + 1] == Goto(url, options.navigation)
  {
    var plan := ConfigurePlan(url, options);
    var h := HeaderStep(options.headers);
    var m := MediaStep(options.emulateMediaType);
    var a := AuthStep(options.credentials);
    var t := [SetCacheEnabled(false), Goto(url, options.navigation)];
    assert plan == h + m + a + t;
    SliceOfAppend(h, m + a + t);
    assert plan == h + (m + a + t);
    assert plan[|h|..] == m + a + t;
    SliceOfAppend(m, a + t);
    assert plan[|h|..][..|m|] == m;
    assert plan[|h|..|h| + |m|] == m;
    assert plan[|h| + |m|..] == a + t;
    assert plan[|h| + |m|..|h| + |m| + |a|] == plan[|h| + |m|..][..|a|];
  }

  /** The two halves of a concatenation. */
  lemma SliceOfAppend<T>(x: seq<T>, y: seq<T>)
    ensures (x + y)[..|x|] == x && (x + y)[|x|..] == y
  {
  }

  /** The renderer's trace on a page: a close as its last call and nowhere else. */
  predicate ClosedOnceAtEnd(calls: seq<PageCall>) {
    && calls != []
    && calls[|calls| - 1] == Close
    && forall i :: 0 <= i < |calls| - 1 ==> calls[i] != Close
  }

  /** Whatever fails, running a plan that does not close and then closing closes once. */
  lemma RunThenCloseClosesOnce(plan: seq<PageCall>, fails: PageCall -> bool)
    requires Close !in plan
    ensures ClosedOnceAtEnd(Run(plan, fails) + [Close])
  {
    var r := Run(plan, fails);
    forall i | 0 <= i < |r| ensures r[i] != Close {
      assert r[i] == plan[i];
    }
  }

  /** Every configuration plan leaves closing to the caller. */
  lemma ConfigurePlanNeverCloses(url: string, options: PageOptions)
    ensures Close !in ConfigurePlan(url, options)
  {
    var plan := ConfigurePlan(url, options);
    forall i | 0 <= i < |plan| ensures plan[i] != Close {
      ConfigurePlanOrder(url, options);
      assert StepRank(plan[i]) <= 4 by {
        if i < |plan| - 1 {
          assert StepRank(plan[i]) < StepRank(plan[|plan| - 1]);
        }
      }
    }
  }

  // ---------------------------------------------------------------------------
  // The three renders

  function HtmlPlan(url: string, options: PageOptions): seq<PageCall> {
    ConfigurePlan(url, options) + [PageCall.Content]
  }

  /** A PDF is rendered with the requested media type, or `print` when none is. */
  function PdfMediaType(mediaType: Option<string>): string {
    if Given(mediaType) then mediaType.value else "print"
  }

  function PdfPageOptions(options: PageOptions): PageOptions {
    options.(emulateMediaType := Some(PdfMediaType(options.emulateMediaType)))
  }

  function PdfPlan(url: string, options: PageOptions, pdfOptions: PdfOptions): seq<PageCall> {
    ConfigurePlan(url, PdfPageOptions(options)) + [PageCall.Pdf(pdfOptions)]
  }

  /** What `page.screenshot` receives: the animation wait is taken out, and the
      quality is dropped for `png`. */
  function CaptureOptionsOf(shot: ScreenshotOptions): CaptureOptions {
    CaptureOptions(shot.imageType, if shot.imageType == Some("png") then None else shot.quality, shot.rest)
  }

  function AnimationStep(shot: ScreenshotOptions): seq<PageCall> {
    if shot.animationTimeout > 0 then [WaitForAnimations(shot, shot.animationTimeout)] else []
  }

  /** What the screenshot render asks of a configured page. */
  function CapturePlan(viewport: Viewport, shot: ScreenshotOptions): seq<PageCall> {
    [SetViewport(viewport)] + AnimationStep(shot) + [PageCall.Screenshot(CaptureOptionsOf(shot))]
  }

  function ScreenshotPlan(url: string, options: PageOptions, viewport: Viewport, shot: ScreenshotOptions): seq<PageCall> {
    ConfigurePlan(url, options) + CapturePlan(viewport, shot)
  }

  /** How far the capture part of a screenshot gets. */
  lemma CaptureRun(viewport: Viewport, shot: ScreenshotOptions, fails: PageCall -> bool)
    ensures var plan := CapturePlan(viewport, shot);
      var v := SetViewport(viewport);
      var w := WaitForAnimations(shot, shot.animationTimeout);
      var s := PageCall.Screenshot(CaptureOptionsOf(shot));
      if fails(v) then Run(plan, fails) == [v] && FirstFailure(plan, fails) == Some(v)
      else if shot.animationTimeout > 0 && fails(w) then Run(plan, fails) == [v, w] && FirstFailure(plan, fails) == Some(w)
      else Run(plan, fails) == plan && FirstFailure(plan, fails) == if fails(s) then Some(s) else None
  {
    var plan := CapturePlan(viewport, shot);
    var anim := AnimationStep(shot);
    var last := [PageCall.Screenshot(CaptureOptionsOf(shot))];
    assert plan == [SetViewport(viewport)] + (anim + last);
    RunAppend([SetViewport(viewport)], anim + last, fails);
    RunAppend(anim, last, fails);
  }

  /** No render plan closes the page: the renderer's `finally` does. */
  lemma RenderPlansNeverClose(url: string, options: PageOptions, pdfOptions: PdfOptions,
                              viewport: Viewport, shot: ScreenshotOptions)
    ensures Close !in HtmlPlan(url, options)
    ensures Close !in PdfPlan(url, options, pdfOptions)
    ensures Close !in ScreenshotPlan(url, options, viewport, shot)
  {
    ConfigurePlanNeverCloses(url, options);
    ConfigurePlanNeverCloses(url, PdfPageOptions(options));
  }

  /** A PDF render always emulates exactly one media type before navigating:
      the requested one when given, `print` otherwise. */
  lemma PdfPlanEmulatesMedia(url: string, options: PageOptions, pdfOptions: PdfOptions)
    ensures var plan := PdfPlan(url, options, pdfOptions);
      forall m :: EmulateMediaType(m) in plan <==>
        if Given(options.emulateMediaType) then m == options.emulateMediaType.value else m == "print"
  {
    var o := PdfPageOptions(options);
    ConfigurePlanOrder(url, o);
    assert PdfMediaType(options.emulateMediaType) != "";
    var plan := PdfPlan(url, options, pdfOptions);
    forall m ensures EmulateMediaType(m) in plan <==> EmulateMediaType(m) in ConfigurePlan(url, o) {
    }
  }

  /** The capture keeps type and the other fields, loses the animation wait, and
      carries a quality exactly when one was requested and the type is not `png`. */
  lemma CaptureOptionsQuality(shot: ScreenshotOptions)
    ensures CaptureOptionsOf(shot).imageType == shot.imageType
    ensures CaptureOptionsOf(shot).rest == shot.rest
    ensures CaptureOptionsOf(shot).quality.Some? <==> shot.quality.Some? && shot.imageType != Some("png")
    ensures CaptureOptionsOf(shot).quality.Some? ==> CaptureOptionsOf(shot).quality == shot.quality
  {
  }

  /** The animation wait is issued, with the screenshot's own timeout, exactly
      when that timeout is positive, after the viewport and before the capture. */
  lemma ScreenshotPlanOrder(url: string, options: PageOptions, viewport: Viewport, shot: ScreenshotOptions)
    ensures var plan := ScreenshotPlan(url, options, viewport, shot);
      var n := |ConfigurePlan(url, options)|;
      && plan[..n] == ConfigurePlan(url, options)
      && plan[n] == SetViewport(viewport)
      && plan[|plan| - 1] == PageCall.Screenshot(CaptureOptionsOf(shot))
      && (shot.animationTimeout > 0 <==> |plan| == n + 3)
      && (shot.animationTimeout > 0 ==> plan[n + 1] == WaitForAnimations(shot, shot.animationTimeout))
  {
  }

  // ---------------------------------------------------------------------------
  // Downscaling the captured image

  datatype ImageSize = ImageSize(width: Option<int>, height: Option<int>)

  /** The image library as the renderer uses it: reading a size and resizing,
      either of which may fail. */
  datatype Imaging = Imaging(
    metadata: seq<byte> -> Option<ImageSize>,
    resize: (seq<byte>, int, int) -> Option<seq<byte>>)

  /** The viewport's device scale factor, with a missing or zero factor read as 1. */
  function ScaleFactor(viewport: Viewport): real {
    if viewport.deviceScaleFactor.Some? && viewport.deviceScaleFactor.value != 0.0
    then viewport.deviceScaleFactor.value else 1.0
  }

  /** `Math.round`: halves round up. */
  function Round(x: real): int {
    (x + 0.5).Floor
  }

  lemma RoundIsNearest(x: real)
    ensures x - 0.5 < Round(x) as real <= x + 0.5
    ensures x == x.Floor as real ==> Round(x) == x.Floor
  {
  }

  /** The size to scale a capture down to: both sides divided by the scale
      factor and rounded, when the image reports a non-zero width and height. */
  function DownscaleTarget(size: ImageSize, scale: real): Option<(int, int)>
    requires scale > 1.0
  {
    if size.width.Some? && size.width.value != 0 && size.height.Some? && size.height.value != 0
    then Some((Round(size.width.value as real / scale), Round(size.height.value as real / scale)))
    else None
  }

  /** A downscale never enlarges a side and never makes it negative; each side
      is within one half of its exact quotient (a side may round to 0). */
  lemma DownscaleShrinks(width: int, height: int, scale: real)
    requires width > 0 && height > 0 && scale > 1.0
    ensures var t := DownscaleTarget(ImageSize(Some(width), Some(height)), scale);
      && t.Some?
      && 0 <= t.value.0 <= width && 0 <= t.value.1 <= height
      && width as real / scale - 0.5 < t.value.0 as real <= width as real / scale + 0.5
      && height as real / scale - 0.5 < t.value.1 as real <= height as real / scale + 0.5
  {
    var w := width as real / scale;
    var h := height as real / scale;
    assert 0.0 < w < width as real by {
      assert w * scale == width as real;
    }
    assert 0.0 < h < height as real by {
      assert h * scale == height as real;
    }
    RoundIsNearest(w);
    RoundIsNearest(h);
  }

  /** A capture of 800 by 600 at scale factor 2 is returned at 400 by 300. */
  lemma DownscaleExample()
    ensures DownscaleTarget(ImageSize(Some(800), Some(600)), 2.0) == Some((400, 300))
  {
    assert 800 as real / 2.0 == 400.0;
    assert 600 as real / 2.0 == 300.0;
  }

  /** The buffer the screenshot render returns for a capture. */
  function PostProcess(buffer: seq<byte>, scale: real, imaging: Imaging): Result<seq<byte>, EngineError> {
    if scale <= 1.0 then Success(buffer)
    else match imaging.metadata(buffer)
      case None => Failure(ImageFailed)
      case Some(size) =>
        match DownscaleTarget(size, scale)
        case None => Success(buffer)
        case Some((w, h)) =>
          match imaging.resize(buffer, w, h)
          case None => Failure(ImageFailed)
          case Some(resized) => Success(resized)
  }

  /** Without a scale factor above 1 the capture is returned as is, whatever the
      image library would do; with one, the buffer is replaced only by a resize
      to the downscale target. */
  lemma PostProcessKeepsOrResizes(buffer: seq<byte>, scale: real, imaging: Imaging)
    ensures scale <= 1.0 ==> PostProcess(buffer, scale, imaging) == Success(buffer)
    ensures scale > 1.0 && PostProcess(buffer, scale, imaging).Success? ==>
      var size := imaging.metadata(buffer).value;
      match DownscaleTarget(size, scale)
      case None => PostProcess(buffer, scale, imaging) == Success(buffer)
      case Some((w, h)) => Some(PostProcess(buffer, scale, imaging).value) == imaging.resize(buffer, w, h)
  {
  }

  datatype Shot = Shot(imageType: Option<string>, buffer: seq<byte>)

  // ---------------------------------------------------------------------------
  // What a render returns

  /** The result of a render that opens a page and runs `plan` on it, returning
      `value` when every call goes through. */
  function RenderOutcome<T>(browser: Browser, plan: seq<PageCall>, value: T): Result<T, EngineError> {
    if browser.newPageFails then Failure(NewPageFailed)
    else match FirstFailure(plan, browser.pageBehaviour.fails)
      case Some(c) => Failure(CallFailed(c))
      case None => Success(value)
  }

  function HtmlOutcome(browser: Browser, url: string, options: PageOptions): Result<string, EngineError> {
    RenderOutcome(browser, HtmlPlan(url, options), browser.pageBehaviour.document)
  }

  function PdfOutcome(browser: Browser, url: string, options: PageOptions, pdfOptions: PdfOptions): Result<seq<byte>, EngineError> {
    RenderOutcome(browser, PdfPlan(url, options, pdfOptions), browser.pageBehaviour.pdfOf(pdfOptions))
  }

  /** The result of the capture part of a screenshot on a configured page. */
  function CaptureOutcome(behaviour: PageBehaviour, viewport: Viewport, shot: ScreenshotOptions,
                          imaging: Imaging): Result<Shot, EngineError> {
    var capture := CaptureOptionsOf(shot);
    match FirstFailure(CapturePlan(viewport, shot), behaviour.fails)
    case Some(c) => Failure(CallFailed(c))
    case None =>
      match PostProcess(behaviour.captureOf(capture), ScaleFactor(viewport), imaging)
      case Failure(e) => Failure(e)
      case Success(finalBuffer) => Success(Shot(capture.imageType, finalBuffer))
  }

  function ScreenshotOutcome(browser: Browser, url: string, options: PageOptions, viewport: Viewport,
                             shot: ScreenshotOptions, imaging: Imaging): Result<Shot, EngineError> {
    if browser.newPageFails then Failure(NewPageFailed)
    else match FirstFailure(ConfigurePlan(url, options), browser.pageBehaviour.fails)
      case Some(c) => Failure(CallFailed(c))
      case None => CaptureOutcome(browser.pageBehaviour, viewport, shot, imaging)
  }

  /** The screenshot render fails exactly where a run of its whole plan first
      fails; when none fails it returns the post-processed capture. */
  lemma ScreenshotOutcomeIsOutcome(browser: Browser, url: string, options: PageOptions, viewport: Viewport,
                                   shot: ScreenshotOptions, imaging: Imaging)
    ensures var capture := CaptureOptionsOf(shot);
      var plain := RenderOutcome(browser, ScreenshotPlan(url, options, viewport, shot), browser.pageBehaviour.captureOf(capture));
      ScreenshotOutcome(browser, url, options, viewport, shot, imaging) ==
        match plain
        case Failure(e) => Failure(e)
        case Success(buffer) =>
          match PostProcess(buffer, ScaleFactor(viewport), imaging)
          case Failure(e) => Failure(e)
          case Success(finalBuffer) => Success(Shot(capture.imageType, finalBuffer))
  {
    RunAppend(ConfigurePlan(url, options), CapturePlan(viewport, shot), browser.pageBehaviour.fails);
  }

  /** A render whose plan ends with one call after the configuration. */
  lemma LastCallOutcome<T>(browser: Browser, config: seq<PageCall>, last: PageCall, value: T)
    ensures RenderOutcome(browser, config + [last], value) ==
      if browser.newPageFails then Failure(NewPageFailed)
      else if FirstFailure(config, browser.pageBehaviour.fails).Some? then Failure(CallFailed(FirstFailure(config, browser.pageBehaviour.fails).value))
      else if browser.pageBehaviour.fails(last) then Failure(CallFailed(last))
      else Success(value)
  {
    RunAppend(config, [last], browser.pageBehaviour.fails);
  }

  /** A render succeeds exactly when the browser opens a page and the engine
      fails none of the plan's calls; otherwise it reports the first failure. */
  lemma OutcomeReportsFirstFailure<T>(browser: Browser, plan: seq<PageCall>, value: T)
    ensures RenderOutcome(browser, plan, value).Success? <==>
      !browser.newPageFails && forall i :: 0 <= i < |plan| ==> !browser.pageBehaviour.fails(plan[i])
    ensures RenderOutcome(browser, plan, value).Success? ==> RenderOutcome(browser, plan, value).value == value
    ensures !browser.newPageFails && RenderOutcome(browser, plan, value).Failure? ==>
      exists i :: 0 <= i < |plan| && RenderOutcome(browser, plan, value).error == CallFailed(plan[i])
        && browser.pageBehaviour.fails(plan[i])
        && forall j :: 0 <= j < i ==> !browser.pageBehaviour.fails(plan[j])
  {
    var fails := browser.pageBehaviour.fails;
    if !browser.newPageFails && FirstFailure(plan, fails).Some? {
      var r := Run(plan, fails);
      var i := |r| - 1;
      assert plan[i] == r[i];
    }
  }

  // ---------------------------------------------------------------------------
  // The renderer

  predicate AllPass(calls: seq<PageCall>, fails: PageCall -> bool) {
    forall i :: 0 <= i < |calls| ==> !fails(calls[i])
  }

  /** A page that ran `plan`: every call went through and the page is still open,
      or the run stopped at the first failing call and the page was then closed. */
  ghost predicate PageRan(page: Page, plan: seq<PageCall>, failed: Option<PageCall>)
    reads page
  {
    && failed == FirstFailure(plan, page.behaviour.fails)
    && if failed.None? then page.calls == plan && !page.closed
       else
         && page.calls == Run(plan, page.behaviour.fails) + [PageCall.Close]
         && page.closed == !page.behaviour.fails(PageCall.Close)
  }

  class Renderer {
    const browser: Browser

    constructor (browser: Browser)
      ensures this.browser == browser
    {
      this.browser := browser;
    }

    /** After a page was opened on a browser holding `before`: the page the
        render opened ran `plan` up to its first failure and was then closed. */
    ghost predicate Rendered(before: seq<Page>, plan: seq<PageCall>)
      reads browser, browser.pages
    {
      if browser.newPageFails then browser.pages == before
      else
        && |browser.pages| == |before| + 1
        && browser.pages[..|before|] == before
        && var page := browser.pages[|before|];
        && page.behaviour == browser.pageBehaviour
        && page.calls == Run(plan, page.behaviour.fails) + [PageCall.Close]
        && page.closed == !page.behaviour.fails(PageCall.Close)
    }

    /** What `createPage` leaves behind: a configured open page when every call
        went through, otherwise a page closed after the failing call. */
    ghost predicate Opened(before: seq<Page>, plan: seq<PageCall>, r: Result<Page, EngineError>)
      reads browser, browser.pages
    {
      if browser.newPageFails then r == Failure(NewPageFailed) && browser.pages == before
      else
        && |browser.pages| == |before| + 1
        && browser.pages[..|before|] == before
        && var page := browser.pages[|before|];
        && page.behaviour == browser.pageBehaviour
        && var failed := FirstFailure(plan, page.behaviour.fails);
        && PageRan(page, plan, failed)
        && r == if failed.None? then Success(page) else Failure(CallFailed(failed.value))
    }

    /** `closePage`: closes a page that is not closed yet; a failing close is
        ignored, and a page already closed is left exactly as it is. */
    method ClosePage(page: Option<Page>)
      modifies if page.Some? then {page.value} else {}
      ensures page.Some? && !old(page.value.closed) ==>
        && page.value.calls == old(page.value.calls) + [PageCall.Close]
        && page.value.closed == !page.value.behaviour.fails(PageCall.Close)
      ensures page.Some? && old(page.value.closed) ==> unchanged(page.value)
    {
      if page.Some? && !page.value.closed {
        var ignored := page.value.Close();
      }
    }

    /** Configuration call `k` of `plan` on a page whose earlier calls all went
        through; on failure the page is closed, as `createPage`'s handler does. */
    method Step(page: Page, c: PageCall, ghost plan: seq<PageCall>, ghost k: nat) returns (ok: bool)
      requires k < |plan| && plan[k] == c
      requires page.calls == plan[..k] && !page.closed && AllPass(plan[..k], page.behaviour.fails)
      modifies page
      ensures ok == !page.behaviour.fails(c)
      ensures ok ==> page.calls == plan[..k + 1] && !page.closed && AllPass(plan[..k + 1], page.behaviour.fails)
      ensures !ok ==> PageRan(page, plan, Some(c))
      ensures ok && k + 1 == |plan| ==> PageRan(page, plan, None)
    {
      assert plan[..k + 1] == plan[..k] + [c];
      ok := page.Call(c);
      if !ok {
        RunFailsAtIndex(plan, k, page.behaviour.fails);
        ClosePage(Some(page));
      } else {
        assert forall i :: 0 <= i < k ==> plan[..k + 1][i] == plan[..k][i];
        if k + 1 == |plan| {
          assert plan[..k + 1] == plan;
        }
      }
    }

    /** A configuration call issued only when its option is set: `step` is that
        call, or empty when the option is not set. */
    method OptionalStep(page: Page, step: seq<PageCall>, ghost plan: seq<PageCall>, ghost k: nat) returns (ok: bool)
      requires |step| <= 1 && k + |step| <= |plan| && plan[k..k + |step|] == step
      requires page.calls == plan[..k] && !page.closed && AllPass(plan[..k], page.behaviour.fails)
      modifies page
      ensures ok ==> page.calls == plan[..k + |step|] && !page.closed && AllPass(plan[..k + |step|], page.behaviour.fails)
      ensures !ok ==> step != [] && PageRan(page, plan, Some(step[0]))
    {
      if step == [] {
        return true;
      }
      assert plan[k] == plan[k..k + |step|][0];
      ok := Step(page, step[0], plan, k);
    }

    /** The configuration calls of `createPage` issued one after the other on a
        fresh page, stopping at the first that fails, for any `plan` made of
        the optional headers, media type and credentials calls followed by the
        cache and navigation calls. */
    method IssueConfiguration(page: Page, headers: seq<PageCall>, media: seq<PageCall>, auth: seq<PageCall>,
                              cache: PageCall, goto: PageCall, ghost plan: seq<PageCall>)
      returns (failed: Option<PageCall>)
      requires |headers| <= 1 && |media| <= 1 && |auth| <= 1
      requires |plan| == |headers| + |media| + |auth| + 2
      requires plan[0..|headers|] == headers
      requires plan[|headers|..|headers| + |media|] == media
      requires plan[|headers| + |media|..|headers| + |media| + |auth|] == auth
      requires plan[|headers| + |media| + |auth|] == cache
      requires plan[|headers| + |media| + |auth| + 1] == goto
      requires page.calls == [] && !page.closed
      modifies page
      ensures PageRan(page, plan, failed)
    {
      ghost var n := |headers| + |media| + |auth|;
      assert plan[..0] == [];
      var ok := OptionalStep(page, headers, plan, 0);
      if !ok {
        return Some(headers[0]);
      }
      ok := OptionalStep(page, media, plan, |headers|);
      if !ok {
        return Some(media[0]);
      }
      ok := OptionalStep(page, auth, plan, |headers| + |media|);
      if !ok {
        return Some(auth[0]);
      }
      ok := Step(page, cache, plan, n);
      if !ok {
        return Some(cache);
      }
      ok := Step(page, goto, plan, n + 1);
      if !ok {
        return Some(goto);
      }
      return None;
    }

    /** The configuration part of `createPage` on a fresh page: headers, media
        type and credentials when given, then the cache switched off and the
        navigation. */
    method ConfigurePage(page: Page, url: string, options: PageOptions) returns (failed: Option<PageCall>)
      requires page.calls == [] && !page.closed
      modifies page
      ensures PageRan(page, ConfigurePlan(url, options), failed)
    {
      ConfigurePlanSlices(url, options);
      failed := IssueConfiguration(page, HeaderStep(options.headers), MediaStep(options.emulateMediaType),
        AuthStep(options.credentials), SetCacheEnabled(false), Goto(url, options.navigation),
        ConfigurePlan(url, options));
    }

    method CreatePage(url: string, options: PageOptions) returns (r: Result<Page, EngineError>)
      modifies browser
      ensures browser.closed == old(browser.closed)
      ensures Opened(old(browser.pages), ConfigurePlan(url, options), r)
      ensures !browser.newPageFails ==> fresh(browser.pages[|old(browser.pages)|])
      ensures r.Success? ==> fresh(r.value) && r.value == browser.pages[|old(browser.pages)|]
    {
      var newPage := browser.NewPage();
      if newPage.Failure? {
        return Failure(newPage.error);
      }
      var page := newPage.value;
      var failed := ConfigurePage(page, url, options);
      if failed.Some? {
        return Failure(CallFailed(failed.value));
      }
      return Success(page);
    }
  
    /** The `finally` of every render: `closePage` on the page the render
        holds, which is none when `createPage` failed, having closed its page
        itself; otherwise the page ran `config` and then `rest` from the start. */
    method Finish(ghost before: seq<Page>, page: Option<Page>, ghost config: seq<PageCall>, ghost rest: seq<PageCall>)
      requires browser.newPageFails ==> browser.pages == before && page.None?
      requires !browser.newPageFails ==>
        && |browser.pages| == |before| + 1
        && browser.pages[..|before|] == before
        && browser.pages[|before|].behaviour == browser.pageBehaviour
      requires !browser.newPageFails && page.None? ==>
        var failed := FirstFailure(config, browser.pageBehaviour.fails);
        failed.Some? && PageRan(browser.pages[|before|], config, failed)
      requires page.Some? ==>
        && !browser.newPageFails
        && page.value == browser.pages[|before|]
        && AllPass(config, browser.pageBehaviour.fails)
        && page.value.calls == config + Run(rest, browser.pageBehaviour.fails)
        && !page.value.closed
      modifies if page.Some? then {page.value} else {}
      ensures Rendered(before, config + rest)
    {
      ghost var fails := browser.pageBehaviour.fails;
      RunAppend(config, rest, fails);
      if page.Some? {
        assert FirstFailure(config, fails).None?;
        assert Run(config + rest, fails) == page.value.calls;
        ClosePage(page);
      } else if !browser.newPageFails {
        assert Run(config + rest, fails) == Run(config, fails);
      }
    }

    /** `html`: the page's document, the page closed in every case. */
    method Html(url: string, options: PageOptions) returns (r: Result<string, EngineError>)
      modifies browser
      ensures browser.closed == old(browser.closed)
      ensures r == HtmlOutcome(browser, url, options)
      ensures Rendered(old(browser.pages), HtmlPlan(url, options))
    {
      ghost var config := ConfigurePlan(url, options);
      assert HtmlPlan(url, options) == config + [PageCall.Content];
      var page: Option<Page> := None;
      var created := CreatePage(url, options);
      LastCallOutcome(browser, config, PageCall.Content, browser.pageBehaviour.document);
      if created.Success? {
        page := Some(created.value);
        r := created.value.Content();
      } else {
        r := Failure(created.error);
      }
      Finish(old(browser.pages), page, config, [PageCall.Content]);
    }

    /** `pdf`: the page rendered with a print media type unless another is given. */
    method Pdf(url: string, options: PageOptions, pdfOptions: PdfOptions) returns (r: Result<seq<byte>, EngineError>)
      modifies browser
      ensures browser.closed == old(browser.closed)
      ensures r == PdfOutcome(browser, url, options, pdfOptions)
      ensures Rendered(old(browser.pages), PdfPlan(url, options, pdfOptions))
    {
      var pdfPageOptions := PdfPageOptions(options);
      ghost var config := ConfigurePlan(url, pdfPageOptions);
      assert PdfPlan(url, options, pdfOptions) == config + [PageCall.Pdf(pdfOptions)];
      var page: Option<Page> := None;
      var created := CreatePage(url, pdfPageOptions);
      LastCallOutcome(browser, config, PageCall.Pdf(pdfOptions), browser.pageBehaviour.pdfOf(pdfOptions));
      if created.Success? {
        page := Some(created.value);
        r := created.value.Pdf(pdfOptions);
      } else {
        r := Failure(created.error);
      }
      Finish(old(browser.pages), page, config, [PageCall.Pdf(pdfOptions)]);
    }

    /** The capture part of `screenshot` on a configured page. */
    method Capture(page: Page, viewport: Viewport, shot: ScreenshotOptions, imaging: Imaging) returns (r: Result<Shot, EngineError>)
      modifies page
      ensures page.calls == old(page.calls) + Run(CapturePlan(viewport, shot), page.behaviour.fails)
      ensures page.closed == old(page.closed)
      ensures r == CaptureOutcome(page.behaviour, viewport, shot, imaging)
    {
      var capture := CaptureOptionsOf(shot);
      CaptureRun(viewport, shot, page.behaviour.fails);
      var ok := page.Call(SetViewport(viewport));
      if !ok {
        return Failure(CallFailed(SetViewport(viewport)));
      }
      if shot.animationTimeout > 0 {
        ok := page.Call(WaitForAnimations(shot, shot.animationTimeout));
        if !ok {
          return Failure(CallFailed(WaitForAnimations(shot, shot.animationTimeout)));
        }
      }
      var captured := page.Screenshot(capture);
      if captured.Failure? {
        return Failure(captured.error);
      }
      var finalBuffer := Downscale(captured.value, ScaleFactor(viewport), imaging);
      if finalBuffer.Failure? {
        return Failure(finalBuffer.error);
      }
      return Success(Shot(capture.imageType, finalBuffer.value));
    }

    /** Scaling a capture down by the device scale factor when that is above 1. */
    method Downscale(buffer: seq<byte>, scale: real, imaging: Imaging) returns (r: Result<seq<byte>, EngineError>)
      ensures r == PostProcess(buffer, scale, imaging)
    {
      var finalBuffer := buffer;
      if scale > 1.0 {
        var metadata := imaging.metadata(buffer);
        if metadata.None? {
          return Failure(ImageFailed);
        }
        if metadata.value.width.Some? && metadata.value.width.value != 0
           && metadata.value.height.Some? && metadata.value.height.value != 0 {
          var newWidth := Round(metadata.value.width.value as real / scale);
          var newHeight := Round(metadata.value.height.value as real / scale);
          var resized := imaging.resize(buffer, newWidth, newHeight);
          if resized.None? {
            return Failure(ImageFailed);
          }
          finalBuffer := resized.value;
        }
      }
      return Success(finalBuffer);
    }

    /** `screenshot`: viewport, optional animation wait, capture, and a downscale
        by the device scale factor; the page closed in every case. */
    method Screenshot(url: string, options: PageOptions, viewport: Viewport, shot: ScreenshotOptions,
                      imaging: Imaging) returns (r: Result<Shot, EngineError>)
      modifies browser
      ensures browser.closed == old(browser.closed)
      ensures r == ScreenshotOutcome(browser, url, options, viewport, shot, imaging)
      ensures Rendered(old(browser.pages), ScreenshotPlan(url, options, viewport, shot))
    {
      ghost var config := ConfigurePlan(url, options);
      ghost var rest := CapturePlan(viewport, shot);
      assert ScreenshotPlan(url, options, viewport, shot) == config + rest;
      var page: Option<Page> := None;
      var created := CreatePage(url, options);
      ghost var outcome := ScreenshotOutcome(browser, url, options, viewport, shot, imaging);
      if created.Success? {
        assert outcome == CaptureOutcome(browser.pageBehaviour, viewport, shot, imaging);
        page := Some(created.value);
        r := Capture(created.value, viewport, shot, imaging);
      } else {
        assert outcome == Failure(created.error);
        r := Failure(created.error);
      }
      Finish(old(browser.pages), page, config, rest);
    }

    /** `close`: shuts the browser down. */
    method Close()
      modifies browser
      ensures browser.closed && browser.pages == old(browser.pages)
    {
      browser.Close();
    }
  }

  /** Every render leaves behind at most one new page, on which the engine saw
      the render's calls up to the first failure and then exactly one close. */
  lemma RenderedClosesOnce(r: Renderer, before: seq<Page>, plan: seq<PageCall>)
    requires r.Rendered(before, plan) && Close !in plan
    ensures !r.browser.newPageFails ==> ClosedOnceAtEnd(r.browser.pages[|before|].calls)
    ensures r.browser.newPageFails ==> r.browser.pages == before
  {
    if !r.browser.newPageFails {
      RunThenCloseClosesOnce(plan, r.browser.pageBehaviour.fails);
    }
  }

  // ---------------------------------------------------------------------------
  // Launching the browser

  /** The `args` field of the launch options as the launcher finds it. */
  datatype ArgsField = Absent | NotAnArray | Args(values: seq<string>)

  /** The flags added to every launch: no sandbox, no shared-memory
      partition, and no disk cache. */
  const HardeningFlags: seq<string> :=
    ["--no-sandbox", "--disable-dev-shm-usage", "--disk-cache-size=0", "--aggressive-cache-discard"]

  /** The argument list the browser is launched with. */
  function AugmentedArgs(args: ArgsField): seq<string> {
    (if args.Args? then args.values else []) + HardeningFlags
  }

  /** A caller's array of arguments is kept in order, anything else is dropped,
      and the four hardening flags follow, in order. */
  lemma AugmentedArgsShape(args: ArgsField)
    ensures var a := AugmentedArgs(args);
      && |a| >= 4
      && a[|a| - 4..] == HardeningFlags
      && (args.Args? ==> a[..|a| - 4] == args.values)
      && (!args.Args? ==> a == HardeningFlags)
      && (forall f :: f in HardeningFlags ==> f in a)
  {
    var a := AugmentedArgs(args);
    forall f | f in HardeningFlags ensures f in a {
      var k :| 0 <= k < 4 && HardeningFlags[k] == f;
      assert a[|a| - 4 + k] == f;
    }
  }

  /** The launch options object, which `create` updates in place. */
  class LaunchOptions {
    var args: ArgsField
    var ignoreHttpsErrors: bool

    constructor (args: ArgsField, ignoreHttpsErrors: bool)
      ensures this.args == args && this.ignoreHttpsErrors == ignoreHttpsErrors
    {
      this.args := args;
      this.ignoreHttpsErrors := ignoreHttpsErrors;
    }

    method Push(flag: string)
      requires args.Args?
      modifies this
      ensures args == Args(old(args.values) + [flag])
      ensures ignoreHttpsErrors == old(ignoreHttpsErrors)
    {
      args := Args(args.values + [flag]);
    }
  }

  /** How the engine answers a launch: whether it fails, and how the browser
      it starts behaves. */
  datatype Launcher = Launcher(fails: bool, newPageFails: bool, pageBehaviour: PageBehaviour)

  /** The module-level renderer the routes use, unset until a launch succeeds. */
  class RendererSlot {
    var renderer: Option<Renderer>

    constructor ()
      ensures renderer == None
    {
      renderer := None;
    }
  }

  ghost predicate LaunchedWith(browser: Browser, options: LaunchOptions, launcher: Launcher)
    reads browser, options
  {
    && options.args.Args?
    && browser.launchArgs == options.args.values
    && browser.headless == "shell"
    && browser.ignoreHttpsErrors == options.ignoreHttpsErrors
    && browser.newPageFails == launcher.newPageFails
    && browser.pageBehaviour == launcher.pageBehaviour
    && browser.pages == [] && !browser.closed
  }

  /** `create`: adds the hardening flags to the options, launches a headless
      shell with them and publishes the renderer. */
  method Create(options: LaunchOptions, launcher: Launcher, slot: RendererSlot) returns (r: Result<Renderer, EngineError>)
    modifies options, slot
    ensures options.args == Args(AugmentedArgs(old(options.args)))
    ensures options.ignoreHttpsErrors == old(options.ignoreHttpsErrors)
    ensures launcher.fails ==> r == Failure(LaunchFailed) && slot.renderer == old(slot.renderer)
    ensures !launcher.fails ==>
      && r.Success? && fresh(r.value) && fresh(r.value.browser)
      && slot.renderer == Some(r.value)
      && LaunchedWith(r.value.browser, options, launcher)
  {
    if !options.args.Args? {
      options.args := Args([]);
    }
    options.Push("--no-sandbox");
    options.Push("--disable-dev-shm-usage");
    options.Push("--disk-cache-size=0");
    options.Push("--aggressive-cache-discard");
    if launcher.fails {
      return Failure(LaunchFailed);
    }
    var browser := new Browser(options.args.values, "shell", options.ignoreHttpsErrors,
                               launcher.newPageFails, launcher.pageBehaviour);
    var renderer := new Renderer(browser);
    slot.renderer := Some(renderer);
    return Success(renderer);
  }
}
