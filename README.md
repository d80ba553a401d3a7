# puppeteer-renderer, modelled in Dafny

puppeteer-renderer is a small HTTP service in front of a headless browser.
It serves three endpoints:

- `GET /html` returns the rendered document of a page;
- `GET /screenshot` returns a captured image of a page;
- `GET /pdf` returns a PDF print of a page.

This project models the service's own logic in four parts and proves what
it promises:

- **Domain allow-list** (`domain_validator.dfy`, module `DomainValidator`).
  - `ALLOWED_DOMAINS` is parsed into glob patterns.
  - A URL is reduced to its lower-cased hostname.
  - Each pattern is compiled to tokens: `*` matches any run, and every other character is a literal.
  - The tokens are matched anchored and case-insensitively. The matcher is proved equal to a declarative glob semantics.
  - `isUrlAllowed` is a predicate; `validateUrlDomain` returns an `Outcome`.
- **Router** (`router.ts`, modelled in `router.dfy`, module `Router`).
  - The query's `https://` prefixing.
  - `getPDFFilename`.
  - The response header defaults.
  - The three route handlers. Each is a method over a `Response` object (`http.dfy`). Each checks the domain before it reaches the renderer.
- **Renderer** (`renderer.dfy`, module `Renderer`).
  - The `Renderer` class drives pages of a browser (`engine.dfy`, module `Engine`).
  - The page is a class with a `closed` flag and a trace `calls` of every engine call issued on it.
  - Every engine call may fail, as decided by the page's `behaviour`.
  - `createPage` configures the page in a fixed order. It closes the page on the first failure.
  - `html`, `pdf` and `screenshot` close the page in their `finally`.
  - Each render method is proved against a plan: the sequence of calls it issues. Its result is the outcome of running that plan up to the first failure.
  - `create` augments the launch arguments in place and publishes the renderer in a slot, which models the module-level variable.
- **Entry point** (`server.dfy`, module `Server`).
  - The CORS middleware, with its OPTIONS short-circuit.
  - The 404 and 500 fallbacks.
  - The parsing of `PUPPETEER_ARGS` and `IGNORE_HTTPS_ERRORS` into the launch options.

Supporting modules:

- `wrappers.dfy`: `Option`, `Result` and `Outcome`.
- `seqs.dfy`: `filter` and `map`.
- `jsstring.dfy`: the JavaScript string built-ins the code uses, with their ECMAScript edge cases: `trim`, `split`, `indexOf`, `lastIndexOf` and ASCII `toLowerCase`.
- `url.dfy`: the parsed-URL record and the two scheme tests.

Where the service reads the environment, the model takes the variable as an `Option<string>` parameter. `new URL(...)` is a parameter `parse: string -> Option<Url>`, and every property holds for every parser. The image library is a parameter `Imaging`.

Three behaviours of the code are modelled as written:

- A screenshot's `quality` is dropped only for type `png` (`lib/renderer.ts:67`). For any other type, `webp` included, the requested quality is passed on to the engine. `Renderer.CaptureOptionsQuality` states this.
- The comment at `index.ts:72` shows `host-rules=MAP localhost yourproxy` without its trailing space. The code keeps the space, since it splits only on `--`. `Server.PuppeteerArgsRoundTrip` states the code's behaviour.
- The router's scheme test (`router.ts:13`) is case-sensitive. The validator's (`lib/domain-validator.ts:47`) is case-insensitive. So `HTTP://x` is prefixed again by the router (`Router.UpperCaseSchemeIsPrefixedAgain`).

## Model

Source paths are relative to the repository root.

| member | source | states |
|---|---|---|
| JsString.Trim | packages/puppeteer-renderer/src/lib/domain-validator.ts:10 | `trim()` gives a contiguous slice of the input with no trimmable character at either end, and every character cut away before or after it is trimmable |
| JsString.TrimIdempotent | packages/puppeteer-renderer/src/lib/domain-validator.ts:18 | trimming a trimmed pattern changes nothing |
| JsString.Split | packages/puppeteer-renderer/src/lib/domain-validator.ts:17 | `split` always gives at least one piece |
| JsString.SplitPiecesFree | packages/puppeteer-renderer/src/lib/domain-validator.ts:17 | no piece of a split contains the separator |
| JsString.JoinSplit | packages/puppeteer-renderer/src/lib/domain-validator.ts:17 | joining the pieces of a split with the separator gives back the string |
| JsString.SplitJoin | packages/puppeteer-renderer/src/lib/domain-validator.ts:17 | splitting a join of separator-free parts on that one-character separator gives back the parts |
| JsString.Lower | packages/puppeteer-renderer/src/lib/domain-validator.ts:52 | `toLowerCase` keeps the length and lower-cases each ASCII capital, leaving every other character |
| JsString.LowerIdempotent | packages/puppeteer-renderer/src/lib/domain-validator.ts:52 | lower-casing twice is lower-casing once |
| JsString.IndexOf | packages/puppeteer-renderer/src/index.ts:75 | the first occurrence of the separator, or `None` exactly when there is none |
| JsString.LastIndexOf | packages/puppeteer-renderer/src/router.ts:114 | the last index holding the character, or -1 when no index does |
| JsString.LastPieceAfterLastSlash | packages/puppeteer-renderer/src/router.ts:111 | the last piece of a split on a character is the text after its last occurrence |
| Seqs.Filter | packages/puppeteer-renderer/src/lib/domain-validator.ts:19 | keeps exactly the kept elements, as a subsequence in the original order, each kept value as many times as it occurs |
| Seqs.Map | packages/puppeteer-renderer/src/lib/domain-validator.ts:18 | same length, each element transformed in place |
| DomainValidator.GetAllowedDomains | packages/puppeteer-renderer/src/lib/domain-validator.ts:9-20 | no list (allow all) exactly when the variable is unset or trims to empty |
| DomainValidator.AllowedDomainsWellFormed | packages/puppeteer-renderer/src/lib/domain-validator.ts:16-19 | every pattern is non-empty, trimmed and comma-free; the patterns are the non-empty trimmed pieces, in their comma order, a repeated piece kept each time it occurs |
| DomainValidator.AllowedDomainsRoundTrip | packages/puppeteer-renderer/src/lib/domain-validator.ts:16-19 | a comma-joined list of clean patterns parses back to the same list |
| DomainValidator.NoPatternsConfigured | packages/puppeteer-renderer/src/lib/domain-validator.ts:9-19 | a variable made only of blank pieces gives no list or an empty one |
| DomainValidator.BlankPiecesGiveNoPatterns | packages/puppeteer-renderer/src/lib/domain-validator.ts:16-19 | blank comma pieces are all filtered out |
| DomainValidator.CompilePattern | packages/puppeteer-renderer/src/lib/domain-validator.ts:31-33 | one token per pattern character: `*` becomes a run, every other character (regex specials included) a literal |
| DomainValidator.MatchTokensIsGlob | packages/puppeteer-renderer/src/lib/domain-validator.ts:31-36 | the recursive matcher holds exactly when the hostname splits into pieces each denoted by its token: a literal is one character equal up to case, and a run is any string without a line terminator |
| DomainValidator.LiteralPatternMatchesExactly | packages/puppeteer-renderer/src/lib/domain-validator.ts:35 | a `*`-free pattern matches exactly the hostname equal to it up to case |
| DomainValidator.WildcardPrefixMatches | packages/puppeteer-renderer/src/lib/domain-validator.ts:31-36 | `*q` matches exactly the hostnames ending in `q` up to case whose remaining prefix has no line terminator |
| DomainValidator.SubdomainExample | packages/puppeteer-renderer/src/lib/domain-validator.ts:31-36 | `*.example.com` matches `a.example.com` |
| DomainValidator.NestedSubdomainExample | packages/puppeteer-renderer/src/lib/domain-validator.ts:31-36 | `*.example.com` matches `a.b.example.com` |
| DomainValidator.BareDomainExample | packages/puppeteer-renderer/src/lib/domain-validator.ts:31-36 | `*.example.com` does not match `example.com` |
| DomainValidator.ExactNameExample | packages/puppeteer-renderer/src/lib/domain-validator.ts:35 | `example.com` matches `EXAMPLE.com` |
| DomainValidator.ForeignDomainExample | packages/puppeteer-renderer/src/lib/domain-validator.ts:63-79 | with ALLOWED_DOMAINS set to `*.mycompany.com`, a URL whose hostname is `evil.com` is not allowed |
| DomainValidator.MatchIgnoresDomainCase | packages/puppeteer-renderer/src/lib/domain-validator.ts:35 | the match is unchanged when the hostname is lower-cased |
| DomainValidator.MatchIgnoresPatternCase | packages/puppeteer-renderer/src/lib/domain-validator.ts:35 | the match is unchanged when the pattern is lower-cased |
| DomainValidator.LowerPatternTokens | packages/puppeteer-renderer/src/lib/domain-validator.ts:31-33 | compiling a lower-cased pattern lower-cases each token |
| DomainValidator.MatchLowerTokens | packages/puppeteer-renderer/src/lib/domain-validator.ts:35 | lower-casing the tokens does not change what they match |
| DomainValidator.WithDefaultScheme | packages/puppeteer-renderer/src/lib/domain-validator.ts:47-49 | the result has an `http(s)://` scheme up to case. A URL that has one is kept; any other gets `https://` in front |
| DomainValidator.ExtractHostname | packages/puppeteer-renderer/src/lib/domain-validator.ts:44-56 | no hostname exactly when the prefixed URL does not parse; otherwise the parsed hostname, lower-cased |
| DomainValidator.AllowAllWithoutPatterns | packages/puppeteer-renderer/src/lib/domain-validator.ts:63-69 | with the variable unset or only blank pieces, every URL is allowed |
| DomainValidator.UrlAllowedIff | packages/puppeteer-renderer/src/lib/domain-validator.ts:63-80 | with patterns configured, a URL is allowed exactly when its prefixed form parses to a non-empty hostname and some pattern's glob denotes the lower-cased hostname |
| DomainValidator.SinglePatternAllowList | packages/puppeteer-renderer/src/lib/domain-validator.ts:63-79 | with ALLOWED_DOMAINS holding one clean pattern, a URL with a hostname is allowed exactly when that pattern matches the hostname |
| DomainValidator.ValidateUrlDomain | packages/puppeteer-renderer/src/lib/domain-validator.ts:87-93 | passes exactly when the URL is allowed. Otherwise it fails with the fixed message followed by the `, `-joined configured patterns |
| Router.NormalizeUrl | packages/puppeteer-renderer/src/router.ts:12-18 | the result starts with `http://` or `https://` (case-sensitive). Such a URL is kept; any other gets `https://` in front |
| Router.NormalizeUrlIdempotent | packages/puppeteer-renderer/src/router.ts:12-18 | normalising twice is normalising once |
| Router.UpperCaseSchemeIsPrefixedAgain | packages/puppeteer-renderer/src/router.ts:13-15 | an `HTTP://` URL is prefixed by the router, although the validator takes it as it is |
| Router.PdfFilenameOf | packages/puppeteer-renderer/src/router.ts:107-125 | the derived name ends with `.pdf` up to case |
| Router.GetPdfFilename | packages/puppeteer-renderer/src/router.ts:104-126 | no name exactly when the URL does not parse; a name ends with `.pdf` up to case |
| Router.PdfExtensionPresent | packages/puppeteer-renderer/src/router.ts:121-123 | after the extension step the name ends with `.pdf` up to case |
| Router.WithPdfExtensionKeeps | packages/puppeteer-renderer/src/router.ts:121-123 | the step only appends, at most four characters; it keeps the name exactly when the name already ends in `.pdf` (any case), and applying it twice is applying it once |
| Router.PdfFilenameFromPath | packages/puppeteer-renderer/src/router.ts:107-118 | the name comes from the hostname for `/`. For any other path it is the text after the last `/`, cut at its last dot only when that dot's index is above 0 |
| Router.TrailingSlashGivesBarePdf | packages/puppeteer-renderer/src/router.ts:111-123 | a path ending in `/` gives the name `.pdf` |
| Router.HtmlPageExample | packages/puppeteer-renderer/src/router.ts:109-123 | `/docs/q1.html` gives `q1.pdf` |
| Router.DotFileExample | packages/puppeteer-renderer/src/router.ts:114-117 | `/.env` keeps its leading dot and gives `.env.pdf` |
| Router.RootExample | packages/puppeteer-renderer/src/router.ts:107-123 | the root of `example.com` gives `example.com.pdf` |
| Router.HeaderDefaults | packages/puppeteer-renderer/src/router.ts:66-95 | the screenshot type always starts with `image/`, and is `image/png` exactly when no type or `png` is requested; the disposition type is never empty, and is `attachment` exactly when none or `attachment` is requested |
| Router.DownloadNameShape | packages/puppeteer-renderer/src/router.ts:94 | a requested file name is used as given. Otherwise the name is derived from the URL: it ends in `.pdf`, and it is missing exactly when the URL does not parse |
| Router.AdmitChecksDomainFirst | packages/puppeteer-renderer/src/router.ts:37-42 | a request reaches the renderer exactly when its URL is allowed and a renderer exists. A rejected URL is reported as rejected whether or not a renderer exists |
| Router.HtmlRoute | packages/puppeteer-renderer/src/router.ts:35-47 | a rejected URL or a missing renderer is returned as an error, with the response and every browser untouched, and the domain check comes first. Otherwise the page ran the route's plan and got one close; a render failure is returned with the response untouched. A success sends the document with status 200 and sets no header of the service's own. An error is returned exactly when nothing is sent, and other headers are kept |
| Router.ScreenshotRoute | packages/puppeteer-renderer/src/router.ts:49-73 | a rejected URL or a missing renderer is returned as an error, with the response and every browser untouched, and the domain check comes first. Otherwise the page ran the route's plan and got one close; a render failure is returned with the response untouched. A success sends the final image with `Content-Type` `image/<type>` (`png` by default) and `Content-Length` its length, leaving the status as it was. An error is returned exactly when nothing is sent |
| Router.PdfRoute | packages/puppeteer-renderer/src/router.ts:75-102 | a rejected URL or a missing renderer is returned as an error, with the response and every browser untouched, and the domain check comes first. Otherwise the page ran the route's plan and got one close; a render failure is returned with the response untouched. A URL the filename step cannot parse is an error. A success sends the PDF with `application/pdf`, its length, and a disposition of the requested type (`attachment` by default) and the requested or derived name. An error is returned exactly when nothing is sent |
| Router.RespondHtml | packages/puppeteer-renderer/src/router.ts:42-46 | once admitted, the new page ran the HTML plan and got one close. A render failure is passed on with the response untouched; a success sends the document with status 200 and sets no header of the service's own |
| Router.RespondScreenshot | packages/puppeteer-renderer/src/router.ts:58-72 | once admitted, the new page ran the screenshot plan and got one close. A render failure is passed on with the response untouched; a success sets `Content-Type` and `Content-Length`, and no other header of the service's own, and sends the final image |
| Router.RespondPdf | packages/puppeteer-renderer/src/router.ts:88-101 | once admitted, the new page ran the PDF plan and got one close. A render failure or an unparsable URL for the file name is passed on with the response untouched; a success sets the three PDF headers, and no other header of the service's own, and sends the PDF |
| Engine.Page.Call | packages/puppeteer-renderer/src/lib/renderer.ts:109-114 | a configuration call is recorded and succeeds unless the engine fails it |
| Engine.Page.Content | packages/puppeteer-renderer/src/lib/renderer.ts:23 | records the call; the document, or the call's failure |
| Engine.Page.Pdf | packages/puppeteer-renderer/src/lib/renderer.ts:39 | records the call; the PDF of the options, or the call's failure |
| Engine.Page.Screenshot | packages/puppeteer-renderer/src/lib/renderer.ts:65-68 | records the call; the capture of the options, or the call's failure |
| Engine.Page.Close | packages/puppeteer-renderer/src/lib/renderer.ts:127 | records the call; the page is closed afterwards unless the close fails |
| Engine.Browser.NewPage | packages/puppeteer-renderer/src/lib/renderer.ts:101 | a fresh page with no calls on it, appended to the browser's pages, or a failure leaving the pages as they were |
| Engine.Browser.Close | packages/puppeteer-renderer/src/lib/renderer.ts:135 | the browser is closed and its pages are kept |
| Renderer.ConfigurePlanOrder | packages/puppeteer-renderer/src/lib/renderer.ts:107-114 | headers, then media type, then credentials, each issued exactly when provided (non-empty for the strings); then the cache is disabled; then navigation |
| Renderer.FirstFailure | packages/puppeteer-renderer/src/lib/renderer.ts:109-114 | none exactly when every call of the plan passes; otherwise a failing call of the plan |
| Renderer.Run | packages/puppeteer-renderer/src/lib/renderer.ts:109-114 | the calls issued when every `await` throws on failure: a prefix of the plan, ending at the first failure, after calls that all passed |
| Renderer.RunAppend | packages/puppeteer-renderer/src/lib/renderer.ts:55-65 | running two plans in sequence runs the second only when the first went through |
| Renderer.RunThenCloseClosesOnce | packages/puppeteer-renderer/src/lib/renderer.ts:117-120 | running a plan without a close and then closing leaves one close, at the end of the trace |
| Renderer.ConfigurePlanNeverCloses | packages/puppeteer-renderer/src/lib/renderer.ts:107-115 | configuration never closes the page |
| Renderer.CaptureRun | packages/puppeteer-renderer/src/lib/renderer.ts:57-65 | the viewport, then the animation wait if the timeout is above 0, then the capture; each step issued only if the previous one passed |
| Renderer.RenderPlansNeverClose | packages/puppeteer-renderer/src/lib/renderer.ts:18-95 | no render plan closes the page itself |
| Renderer.PdfPlanEmulatesMedia | packages/puppeteer-renderer/src/lib/renderer.ts:34-37 | a PDF render emulates the requested media type if one is given, else `print`, and no other media type |
| Renderer.CaptureOptionsQuality | packages/puppeteer-renderer/src/lib/renderer.ts:59-68 | the capture keeps type and other fields and drops the animation timeout. Quality is kept exactly when it is given and the type is not `png` |
| Renderer.ScreenshotPlanOrder | packages/puppeteer-renderer/src/lib/renderer.ts:55-68 | configuration, viewport, then the animation wait with the screenshot's own timeout (exactly when it is above 0), then the capture |
| Renderer.RoundIsNearest | packages/puppeteer-renderer/src/lib/renderer.ts:77-78 | `Math.round` is within one half of its argument, and keeps integers |
| Renderer.DownscaleShrinks | packages/puppeteer-renderer/src/lib/renderer.ts:74-85 | with both sides known and a scale above 1, each side becomes its division by the scale, rounded; it never grows and never goes negative |
| Renderer.DownscaleExample | packages/puppeteer-renderer/src/lib/renderer.ts:77-78 | 800 by 600 at scale 2 becomes 400 by 300 |
| Renderer.PostProcessKeepsOrResizes | packages/puppeteer-renderer/src/lib/renderer.ts:71-86 | a scale of at most 1 returns the capture unchanged. Above 1, a capture with a missing side is unchanged and any other is resized to the target |
| Renderer.ScreenshotOutcomeIsOutcome | packages/puppeteer-renderer/src/lib/renderer.ts:46-95 | a screenshot fails exactly where its whole plan first fails; otherwise it returns the type and the post-processed capture |
| Renderer.OutcomeReportsFirstFailure | packages/puppeteer-renderer/src/lib/renderer.ts:18-44 | a render succeeds exactly when the page opens and no call of its plan fails; otherwise it reports the first failing call |
| Renderer.Renderer.constructor | packages/puppeteer-renderer/src/lib/renderer.ts:14-16 | the renderer holds the browser |
| Renderer.Renderer.ClosePage | packages/puppeteer-renderer/src/lib/renderer.ts:124-132 | an open page gets one close call, and a failing close is swallowed; a closed page is left unchanged |
| Renderer.Renderer.ConfigurePage | packages/puppeteer-renderer/src/lib/renderer.ts:107-120 | the page ran the configuration plan up to its first failure. If a call failed, it was closed after that call; otherwise it is open |
| Renderer.Renderer.CreatePage | packages/puppeteer-renderer/src/lib/renderer.ts:97-122 | one fresh page, configured and open on success. On a failure it is closed after the failing call, whose failure is returned |
| Renderer.Renderer.Html | packages/puppeteer-renderer/src/lib/renderer.ts:18-28 | the document or the first failure. The new page ran the plan up to its first failure and then got exactly one close |
| Renderer.Renderer.Pdf | packages/puppeteer-renderer/src/lib/renderer.ts:30-44 | the PDF or the first failure, rendered with the derived media type. The page got exactly one close |
| Renderer.Renderer.Capture | packages/puppeteer-renderer/src/lib/renderer.ts:57-91 | the capture calls up to the first failure, and their outcome |
| Renderer.Renderer.Downscale | packages/puppeteer-renderer/src/lib/renderer.ts:70-86 | the post-processed buffer, or the image library's failure |
| Renderer.Renderer.Screenshot | packages/puppeteer-renderer/src/lib/renderer.ts:46-95 | the type and final buffer, or the first failure. The page got exactly one close |
| Renderer.Renderer.Close | packages/puppeteer-renderer/src/lib/renderer.ts:134-136 | the browser is closed |
| Renderer.RenderedClosesOnce | packages/puppeteer-renderer/src/lib/renderer.ts:92-94 | after any render, the page it opened has one close, as its last call. When no page opened, the browser's pages are unchanged |
| Renderer.AugmentedArgsShape | packages/puppeteer-renderer/src/lib/renderer.ts:143-152 | the caller's array is kept in order, and anything else becomes empty. The four flags follow, in order |
| Renderer.LaunchOptions.constructor | packages/puppeteer-renderer/src/lib/renderer.ts:141 | the options hold the given fields |
| Renderer.LaunchOptions.Push | packages/puppeteer-renderer/src/lib/renderer.ts:147 | appends one flag to the array |
| Renderer.RendererSlot.constructor | packages/puppeteer-renderer/src/lib/renderer.ts:139 | the module starts with no renderer |
| Renderer.Create | packages/puppeteer-renderer/src/lib/renderer.ts:141-164 | the options' `args` become the augmented list, and `ignoreHTTPSErrors` is untouched. A failed launch returns the failure and leaves the slot as it was. Otherwise a fresh renderer is published in the slot, its browser launched headless `shell` with those options |
| Http.Response.constructor | packages/puppeteer-renderer/src/index.ts:15 | a response starts at status 200 with nothing set or sent |
| Http.Response.SetHeader | packages/puppeteer-renderer/src/index.ts:17 | sets one header and nothing else |
| Http.Response.SetStatus | packages/puppeteer-renderer/src/index.ts:33 | sets the status and nothing else |
| Http.Response.Send | packages/puppeteer-renderer/src/index.ts:33 | sets the body and marks the response sent, keeping the status and the headers the service set (the headers Express adds itself are left out) |
| Server.CorsHeadersContent | packages/puppeteer-renderer/src/index.ts:17-29 | exactly five headers: any origin, the six methods, the echoed or default request headers, `Content-Disposition` exposed and a max age of `86400` |
| Server.JoinContainsPart | packages/puppeteer-renderer/src/index.ts:24 | every name of the default list occurs in its `, `-joined text |
| Server.DefaultAllowsCommonHeaders | packages/puppeteer-renderer/test/cors-test.js:186-193 | the default list includes `Content-Type` and `Authorization`, and every other listed name |
| Server.Cors | packages/puppeteer-renderer/src/index.ts:15-36 | the CORS headers are added to those already set. OPTIONS ends with 204, an empty body and no next; any other method goes on with status and body untouched |
| Server.CorsHeadersAreNotRouteHeaders | packages/puppeteer-renderer/src/index.ts:17-29 | no CORS header is one the routes set |
| Server.HandleRequest | packages/puppeteer-renderer/src/index.ts:15-62 | the response is always sent, and keeps the CORS headers. OPTIONS gives 204 with an empty body and touches no browser. A request no route takes gives 404 `Not found.`. A route's error gives 500 with the fixed message |
| Server.Dispatch | packages/puppeteer-renderer/src/index.ts:39 | a routed request is answered by its route or passes an error on, unsent; the CORS headers are kept |
| Server.PuppeteerArgsShape | packages/puppeteer-renderer/src/index.ts:73-80 | unset gives none. Otherwise each argument is `--` and a non-empty piece free of `--`, one per non-empty piece, in order |
| Server.PuppeteerArgsRoundTrip | packages/puppeteer-renderer/src/index.ts:70-80 | for clean arguments, `--` followed by their `--`-join gives back those arguments, each with `--` in front. Trailing spaces are kept |
| Server.Boot | packages/puppeteer-renderer/src/index.ts:65-81 | on success the browser is launched: headless `shell`, the parsed arguments followed by the four flags, and `ignoreHTTPSErrors` exactly when the variable is set and non-empty. A failed launch leaves no renderer |

## Left out

- Puppeteer itself is not modelled: `launch`, `newPage`, `goto`, `content`, `pdf`, `screenshot`, `setViewport`, `authenticate`, `emulateMediaType`, `setCacheEnabled` and `close`. These are foreign and run out of process. Each becomes a recorded call whose failure is an input, and the returned document, PDF or capture is a function of the options.
- `Renderer.Renderer.Html`, `Renderer.Renderer.Pdf` and `Renderer.Renderer.Screenshot`: the page ends closed only when the engine's `close` succeeds. A failing close is swallowed at `lib/renderer.ts:129-131`, and the page then stays open. What is proved in every outcome is that exactly one effective close call is issued.
- `page.on('error', ...)` (`lib/renderer.ts:103-105`) throws from an event callback. This is asynchronous and cannot be expressed in a sequential model.
- `JSON.parse(headers)` failing (`lib/renderer.ts:109`) is not told apart from the engine rejecting the extra headers. Both fail the `SetExtraHttpHeaders` call.
- `waitForAnimations` (`lib/wait-for-animations`) is not part of this model. It is one engine call that may fail.
- `sharp` metadata and Lanczos resizing are foreign image code and are the `Imaging` parameter. Only the branch and the target size are modelled.
- `Math.round(width / scaleFactor)` is computed on exact reals as `floor(x + 0.5)`. JavaScript floating point is not modelled.
- The yup schemas (`lib/validate-schema`) are not part of this model. Queries arrive already typed, and the router's url transform is applied to a present string URL. The behaviour of `required()` on a missing URL is not modelled.
- WHATWG URL parsing is the `parse` parameter, not modelled.
- `toLowerCase` and the regex `i` flag are modelled on ASCII only. Unicode case mapping is not modelled. Since `extractHostname` lower-cases a hostname the WHATWG parser has already normalised, this matters only for unusual parser output.
- `content-disposition` encoding of the file name and its validation of the type are not modelled. The header holds the type and the name as a pair.
- Express is not modelled: its path matching is the request's `Endpoint`, and HEAD's body suppression is left out. So are the headers `res.send` adds by itself (`Content-Type` for a string body, `Content-Length`, `ETag`) and its 304 answer to a fresh conditional GET; the route and response contracts speak only of the headers and status the service sets. The query-string parser (`index.ts:12`), the `x-powered-by` switch (`index.ts:11`), the `/` index page (`index.ts:42-50`), the `/ui` route with `ENABLE_UI` and `fs.readFileSync` (`router.ts:20-33`), `app.listen`, `SIGINT` handling and all console logging are left out. They are I/O outside the service's logic.
- `Server.HandleRequest` states the fallbacks and the CORS headers. The response of a route is stated by that route's own contract, so it is not repeated here.
- Concurrency between requests is not modelled: each request runs alone against the shared renderer.
- `process.env` reads are parameters: `ALLOWED_DOMAINS`, `PUPPETEER_ARGS` and `IGNORE_HTTPS_ERRORS`.
