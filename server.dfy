/** The service entry point: the CORS middleware in front of every route, the
    dispatch to the render routes with the not-found and error fallbacks, and
    the launch options read from the environment. */
module Server {
  import opened Wrappers
  import opened Seqs
  import opened JsString
  import opened WebUrl
  import opened Engine
  import opened Renderer
  import opened Http
  import opened Router

  // ---------------------------------------------------------------------------
  // CORS

  const AllowedMethods := "GET,POST,PUT,PATCH,DELETE,OPTIONS"

  /** The request headers a preflight is allowed when it names none, listed
      with `, ` between them. */
  const DefaultAllowHeaderNames: seq<string> := ["Content-Type", "Authorization", "Accept", "Origin", "Referer",
                                                 "User-Agent", "Cache-Control", "Pragma", "X-Requested-With"]

  const DefaultAllowHeaders := Join(DefaultAllowHeaderNames, ", ")

  /** The requested headers are echoed; an absent or empty request gets the default list. */
  function AllowHeaders(requested: Option<string>): string {
    if Given(requested) then requested.value else DefaultAllowHeaders
  }

  const AllowOriginName := "Access-Control-Allow-Origin"
  const AllowMethodsName := "Access-Control-Allow-Methods"
  const AllowHeadersName := "Access-Control-Allow-Headers"
  const ExposeHeadersName := "Access-Control-Expose-Headers"
  const MaxAgeName := "Access-Control-Max-Age"

  /** The headers the middleware puts on every response. */
  function CorsHeaders(requested: Option<string>): map<string, HeaderValue> {
    map[
      AllowOriginName := Text("*"),
      AllowMethodsName := Text(AllowedMethods),
      AllowHeadersName := Text(AllowHeaders(requested)),
      ExposeHeadersName := Text("Content-Disposition"),
      MaxAgeName := Text("86400")]
  }

  /** The five CORS header names are pairwise different. */
  lemma CorsNamesDistinct()
    ensures AllowOriginName != AllowMethodsName && AllowOriginName != AllowHeadersName
    ensures AllowOriginName != ExposeHeadersName && AllowOriginName != MaxAgeName
    ensures AllowMethodsName != AllowHeadersName && AllowMethodsName != ExposeHeadersName
    ensures AllowMethodsName != MaxAgeName && AllowHeadersName != ExposeHeadersName
    ensures AllowHeadersName != MaxAgeName && ExposeHeadersName != MaxAgeName
  {
    assert |AllowOriginName| == 27 && |AllowMethodsName| == 28 && |AllowHeadersName| == 28;
    assert |ExposeHeadersName| == 29 && |MaxAgeName| == 22;
    assert AllowMethodsName[21] != AllowHeadersName[21];
  }

  /** Merging a five-entry map display is writing its entries one after the other. */
  lemma MergeAsUpdates<K, V>(m: map<K, V>, k1: K, v1: V, k2: K, v2: V, k3: K, v3: V, k4: K, v4: V, k5: K, v5: V)
    ensures m + map[k1 := v1, k2 := v2, k3 := v3, k4 := v4, k5 := v5] == m[k1 := v1][k2 := v2][k3 := v3][k4 := v4][k5 := v5]
  {
  }

  /** The middleware's five header writes, in order, amount to merging `CorsHeaders`. */
  lemma CorsHeadersAsUpdates(m: map<string, HeaderValue>, requested: Option<string>)
    ensures m + CorsHeaders(requested) ==
      m[AllowOriginName := Text("*")]
       [AllowMethodsName := Text(AllowedMethods)]
       [AllowHeadersName := Text(AllowHeaders(requested))]
       [ExposeHeadersName := Text("Content-Disposition")]
       [MaxAgeName := Text("86400")]
  {
    MergeAsUpdates(m, AllowOriginName, Text("*"), AllowMethodsName, Text(AllowedMethods),
      AllowHeadersName, Text(AllowHeaders(requested)), ExposeHeadersName, Text("Content-Disposition"),
      MaxAgeName, Text("86400"));
  }

  /** Any origin, the six methods, the echoed or default request headers, the
      disposition header exposed, and a preflight cache of one day; nothing else. */
  lemma CorsHeadersContent(requested: Option<string>)
    ensures var h := CorsHeaders(requested);
      && h.Keys == {AllowOriginName, AllowMethodsName, AllowHeadersName,
                    ExposeHeadersName, MaxAgeName}
      && h[AllowOriginName] == Text("*")
      && h[AllowMethodsName] == Text("GET,POST,PUT,PATCH,DELETE,OPTIONS")
      && h[ExposeHeadersName] == Text("Content-Disposition")
      && h[MaxAgeName] == Text("86400")
      && (Given(requested) ==> h[AllowHeadersName] == Text(requested.value))
      && (!Given(requested) ==> h[AllowHeadersName] == Text(DefaultAllowHeaders))
  {
    CorsNamesDistinct();
    DisplayLookups(AllowOriginName, Text("*"), AllowMethodsName, Text(AllowedMethods),
      AllowHeadersName, Text(AllowHeaders(requested)), ExposeHeadersName, Text("Content-Disposition"),
      MaxAgeName, Text("86400"));
  }

  /** A five-entry map display with different keys: its keys, and what each maps to. */
  lemma DisplayLookups<K, V>(k1: K, v1: V, k2: K, v2: V, k3: K, v3: V, k4: K, v4: V, k5: K, v5: V)
    requires k1 != k2 && k1 != k3 && k1 != k4 && k1 != k5 && k2 != k3
    requires k2 != k4 && k2 != k5 && k3 != k4 && k3 != k5 && k4 != k5
    ensures var m := map[k1 := v1, k2 := v2, k3 := v3, k4 := v4, k5 := v5];
      && m.Keys == {k1, k2, k3, k4, k5}
      && m[k1] == v1 && m[k2] == v2 && m[k3] == v3 && m[k4] == v4 && m[k5] == v5
  {
  }

  /** Each part of a join occurs in it. */
  lemma {:induction false} JoinContainsPart(parts: seq<string>, sep: string, k: nat)
    requires k < |parts|
    ensures Contains(Join(parts, sep), parts[k])
    decreases |parts|
  {
    var s := Join(parts, sep);
    if k == 0 {
      if |parts| > 1 {
        assert s == parts[0] + (sep + Join(parts[1..], sep));
      }
      assert s[0..|parts[0]|] == parts[0];
      assert OccursAt(s, parts[0], 0);
    } else {
      var tail := Join(parts[1..], sep);
      JoinContainsPart(parts[1..], sep, k - 1);
      var j :| 0 <= j <= |tail| && OccursAt(tail, parts[k], j);
      var offset := |parts[0]| + |sep|;
      assert s == (parts[0] + sep) + tail;
      assert s[offset + j..offset + j + |parts[k]|] == tail[j..j + |parts[k]|];
      assert OccursAt(s, parts[k], offset + j);
    }
  }

  /** The default list admits `Content-Type` and `Authorization`, and every
      other name it lists. */
  lemma DefaultAllowsCommonHeaders()
    ensures Contains(DefaultAllowHeaders, "Content-Type")
    ensures Contains(DefaultAllowHeaders, "Authorization")
    ensures forall k :: 0 <= k < |DefaultAllowHeaderNames| ==> Contains(DefaultAllowHeaders, DefaultAllowHeaderNames[k])
  {
    forall k | 0 <= k < |DefaultAllowHeaderNames|
      ensures Contains(DefaultAllowHeaders, DefaultAllowHeaderNames[k])
    {
      JoinContainsPart(DefaultAllowHeaderNames, ", ", k);
    }
    assert DefaultAllowHeaderNames[0] == "Content-Type";
    assert DefaultAllowHeaderNames[1] == "Authorization";
  }

  /** Which render route Express selects for a request path, if any. */
  datatype Endpoint = HtmlEndpoint | ScreenshotEndpoint | PdfEndpoint | Unrouted

  /** A request: method, routed endpoint, the `Access-Control-Request-Headers`
      value, and the typed query. */
  datatype Request = Request(httpMethod: string, endpoint: Endpoint, requestHeaders: Option<string>, query: Query)

  /** The CORS middleware: sets its headers, then answers a preflight itself
      with 204 and an empty body, and passes every other request on. */
  method Cors(req: Request, res: Response) returns (next: bool)
    modifies res
    ensures res.headers == old(res.headers) + CorsHeaders(req.requestHeaders)
    ensures next <==> req.httpMethod != "OPTIONS"
    ensures next ==> res.status == old(res.status) && res.body == old(res.body) && res.sent == old(res.sent)
    ensures !next ==> res.status == 204 && res.body == NoBody && res.sent
  {
    res.SetHeader(AllowOriginName, Text("*"));
    res.SetHeader(AllowMethodsName, Text(AllowedMethods));
    res.SetHeader(AllowHeadersName, Text(AllowHeaders(req.requestHeaders)));
    res.SetHeader(ExposeHeadersName, Text("Content-Disposition"));
    res.SetHeader(MaxAgeName, Text("86400"));
    CorsHeadersAsUpdates(old(res.headers), req.requestHeaders);
    if req.httpMethod == "OPTIONS" {
      res.SetStatus(204);
      res.Send(NoBody);
      return false;
    }
    return true;
  }

  // ---------------------------------------------------------------------------
  // Dispatch

  const NotFoundMessage := "Not found."
  const ErrorMessage := "Oops, An expected error seems to have occurred."

  /** `router.get` handles GET, and HEAD with it. */
  predicate Routed(req: Request) {
    (req.httpMethod == "GET" || req.httpMethod == "HEAD") && req.endpoint != Unrouted
  }

  /** The CORS header names are not among those the routes set. */
  predicate KeepsCorsHeaders(headers: map<string, HeaderValue>, requested: Option<string>) {
    forall name :: name in CorsHeaders(requested) ==> name in headers && headers[name] == CorsHeaders(requested)[name]
  }

  lemma CorsHeadersAreNotRouteHeaders(requested: Option<string>)
    ensures forall name :: name in CorsHeaders(requested) ==> !IsRouteHeader(name)
  {
  }

  /** One request through the middleware, the routes and the fallbacks. */
  method HandleRequest(req: Request, allowedDomainsEnv: Option<string>, parse: UrlParser, imaging: Imaging,
                       slot: RendererSlot, res: Response)
    returns (err: Option<RouteError>)
    requires !res.sent
    modifies res, RendererBrowsers(slot)
    ensures res.sent
    ensures KeepsCorsHeaders(res.headers, req.requestHeaders)
    ensures req.httpMethod == "OPTIONS" ==>
      res.status == 204 && res.body == NoBody && err == None && unchanged(RendererBrowsers(slot))
    ensures req.httpMethod != "OPTIONS" && !Routed(req) ==>
      res.status == 404 && res.body == TextBody(NotFoundMessage) && err == None && unchanged(RendererBrowsers(slot))
    ensures err.Some? ==> Routed(req) && res.status == 500 && res.body == TextBody(ErrorMessage)
  {
    var next := Cors(req, res);
    assert KeepsCorsHeaders(res.headers, req.requestHeaders);
    if !next {
      return None;
    }
    if !Routed(req) {
      res.SetStatus(404);
      res.Send(TextBody(NotFoundMessage));
      return None;
    }
    err := Dispatch(req, allowedDomainsEnv, parse, imaging, slot, res);
    if err.Some? {
      res.SetStatus(500);
      res.Send(TextBody(ErrorMessage));
    }
  }

  /** The render route a routed request reaches: it answers the request, or
      passes an error on with the response untouched. */
  method Dispatch(req: Request, allowedDomainsEnv: Option<string>, parse: UrlParser, imaging: Imaging,
                  slot: RendererSlot, res: Response)
    returns (err: Option<RouteError>)
    requires Routed(req) && !res.sent
    requires KeepsCorsHeaders(res.headers, req.requestHeaders)
    modifies res, RendererBrowsers(slot)
    ensures KeepsCorsHeaders(res.headers, req.requestHeaders)
    ensures err.None? <==> res.sent
  {
    CorsHeadersAreNotRouteHeaders(req.requestHeaders);
    match req.endpoint
    case HtmlEndpoint =>
      err := HtmlRoute(req.query, allowedDomainsEnv, parse, slot, res);
    case ScreenshotEndpoint =>
      err := ScreenshotRoute(req.query, allowedDomainsEnv, parse, imaging, slot, res);
    case PdfEndpoint =>
      err := PdfRoute(req.query, allowedDomainsEnv, parse, slot, res);
  }

  // ---------------------------------------------------------------------------
  // Launch options from the environment

  function WithDashes(piece: string): string { "--" + piece }

  predicate NonEmptyPiece(piece: string) { piece != "" }

  /** `PUPPETEER_ARGS`: split on `--`, empty pieces dropped, `--` put back in front. */
  function ParsePuppeteerArgs(env: Option<string>): seq<string> {
    if env.None? then [] else Map(WithDashes, Filter(NonEmptyPiece, Split(env.value, "--")))
  }

  /** `!!IGNORE_HTTPS_ERRORS`: set and non-empty. */
  predicate IgnoreHttpsErrors(env: Option<string>) { Given(env) }

  /** Unset gives no arguments; otherwise every argument is `--` and a non-empty
      piece free of `--`, the pieces in the order of the value. */
  lemma PuppeteerArgsShape(env: Option<string>)
    ensures env.None? ==> ParsePuppeteerArgs(env) == []
    ensures env.Some? ==>
      var args := ParsePuppeteerArgs(env);
      var pieces := Filter(NonEmptyPiece, Split(env.value, "--"));
      && |args| == |pieces|
      && IsSubsequence(pieces, Split(env.value, "--"))
      && forall i :: 0 <= i < |args| ==>
           && |args[i]| > 2 && args[i][..2] == "--" && args[i][2..] == pieces[i]
           && !Contains(args[i][2..], "--")
  {
    if env.Some? {
      var raw := Split(env.value, "--");
      SplitPiecesFree(env.value, "--");
      var pieces := Filter(NonEmptyPiece, raw);
      var args := ParsePuppeteerArgs(env);
      forall i | 0 <= i < |args|
        ensures |args[i]| > 2 && args[i][..2] == "--" && args[i][2..] == pieces[i] && !Contains(args[i][2..], "--")
      {
        assert args[i] == "--" + pieces[i];
        assert pieces[i] in raw;
      }
    }
  }

  /** An argument the split gives back unchanged: non-empty, without `--`, and
      not ending in `-` (which would run into the next separator). */
  predicate CleanArgument(arg: string) {
    arg != "" && !Contains(arg, "--") && arg[|arg| - 1] != '-'
  }

  /** The separator follows a separator-free piece that does not end in `-`:
      its first occurrence is right after the piece. */
  lemma IndexOfAfterPiece(a: string, b: string)
    requires !Contains(a, "--") && (a == [] || a[|a| - 1] != '-')
    requires StartsWith(b, "--")
    ensures IndexOf(a + b, "--") == Some(|a|)
  {
    var s := a + b;
    assert s[|a|..|a| + 2] == b[..2];
    assert OccursAt(s, "--", |a|);
    forall j | 0 <= j < |a| ensures !OccursAt(s, "--", j) {
      if j + 2 <= |a| {
        assert s[j..j + 2] == a[j..j + 2];
        assert !OccursAt(a, "--", j);
      } else {
        assert s[j] == a[|a| - 1];
      }
    }
  }

  lemma {:induction false} SplitJoinArgs(args: seq<string>)
    requires args != []
    requires forall k :: 0 <= k < |args| ==> CleanArgument(args[k])
    ensures Split(Join(args, "--"), "--") == args
    decreases |args|
  {
    var a := args[0];
    if |args| == 1 {
      assert Join(args, "--") == a;
      SplitSingleArg(a);
    } else {
      var rest := args[1..];
      JoinArgsStep(args);
      CleanRest(args);
      SplitJoinArgs(rest);
      HeadTail(args);
    }
  }

  /** A clean argument alone splits into itself. */
  lemma SplitSingleArg(a: string)
    requires CleanArgument(a)
    ensures Split(a, "--") == [a]
  {
  }

  lemma CleanRest(args: seq<string>)
    requires args != []
    requires forall k :: 0 <= k < |args| ==> CleanArgument(args[k])
    ensures forall k :: 0 <= k < |args[1..]| ==> CleanArgument(args[1..][k])
  {
    var rest := args[1..];
    forall k | 0 <= k < |rest| ensures CleanArgument(rest[k]) {
      assert rest[k] == args[k + 1];
    }
  }

  /** Splitting a join of several arguments gives back the first, then the rest's split. */
  lemma JoinArgsStep(args: seq<string>)
    requires |args| > 1 && CleanArgument(args[0])
    ensures Split(Join(args, "--"), "--") == [args[0]] + Split(Join(args[1..], "--"), "--")
  {
    assert args == [args[0]] + args[1..];
    JoinCons(args[0], args[1..], "--");
    assert args[0] + "--" + Join(args[1..], "--") == args[0] + ("--" + Join(args[1..], "--"));
    SplitAfterFirst(args[0], Join(args[1..], "--"));
  }

  /** Splitting `a--j` for a clean `a` gives `a`, then the split of `j`. */
  lemma SplitAfterFirst(a: string, j: string)
    requires CleanArgument(a)
    ensures Split(a + ("--" + j), "--") == [a] + Split(j, "--")
  {
    var s := a + ("--" + j);
    IndexOfAfterPiece(a, "--" + j);
    SplitAt(s, "--", |a|);
    assert s[..|a|] == a;
    assert s[|a| + 2..] == j;
  }

  /** Arguments written out as `--a--b...` come back as they were written. */
  lemma {:induction false} PuppeteerArgsRoundTrip(args: seq<string>)
    requires args != []
    requires forall k :: 0 <= k < |args| ==> CleanArgument(args[k])
    ensures ParsePuppeteerArgs(Some("--" + Join(args, "--"))) == Map(WithDashes, args)
  {
    var j := Join(args, "--");
    var s := "--" + j;
    assert OccursAt(s, "--", 0);
    assert IndexOf(s, "--") == Some(0);
    assert s[2..] == j;
    SplitJoinArgs(args);
    assert Split(s, "--") == [""] + args;
    assert ([""] + args)[1..] == args;
    FilterKeepsAll(NonEmptyPiece, args);
  }

  /** The launch options of the service, and the renderer launched with them. */
  method Boot(puppeteerArgsEnv: Option<string>, ignoreHttpsErrorsEnv: Option<string>, launcher: Launcher,
              slot: RendererSlot) returns (r: Result<Renderer, EngineError>)
    modifies slot
    ensures launcher.fails ==> r == Failure(LaunchFailed) && slot.renderer == old(slot.renderer)
    ensures !launcher.fails ==>
      && r.Success? && fresh(r.value) && slot.renderer == Some(r.value)
      && r.value.browser.launchArgs == ParsePuppeteerArgs(puppeteerArgsEnv) + HardeningFlags
      && r.value.browser.ignoreHttpsErrors == IgnoreHttpsErrors(ignoreHttpsErrorsEnv)
      && r.value.browser.headless == "shell"
      && r.value.browser.pages == []
  {
    var options := new LaunchOptions(Args(ParsePuppeteerArgs(puppeteerArgsEnv)), IgnoreHttpsErrors(ignoreHttpsErrorsEnv));
    r := Create(options, launcher, slot);
  }
}
