/** The domain allow-list: which target URLs the service agrees to fetch,
    from the comma-separated glob patterns in ALLOWED_DOMAINS. */
module DomainValidator {
  import opened Wrappers
  import opened Seqs
  import opened JsString
  import opened WebUrl

  /** The error `validateUrlDomain` throws. */
  datatype DomainError = DomainRejected(message: string)

  const RejectionPrefix := "Domain not allowed. URL domain must match one of the allowed patterns: "

  // ---------------------------------------------------------------------------
  // getAllowedDomains

  function TrimPiece(s: string): string { Trim(s) }
  predicate NonEmpty(s: string) { |s| > 0 }

  /** The allow-list read from ALLOWED_DOMAINS (`None` when the variable is
      unset): `None` means "allow every domain". */
  function GetAllowedDomains(allowedDomainsEnv: Option<string>): (r: Option<seq<string>>)
    ensures r.None? <==> allowedDomainsEnv.None? || Trim(allowedDomainsEnv.value) == ""
  {
    if allowedDomainsEnv.None? then None
    else
      var trimmed := Trim(allowedDomainsEnv.value);
      if trimmed == "" then None
      else Some(Filter(NonEmpty, Map(TrimPiece, Split(trimmed, ","))))
  }

  /** Every configured pattern is non-empty, trimmed and free of commas; the
      patterns are the non-blank comma-separated pieces, trimmed, in their order,
      and none of them is dropped. */
  lemma AllowedDomainsWellFormed(env: string)
    requires Trim(env) != ""
    ensures var ps := GetAllowedDomains(Some(env)).value;
      var pieces := Map(TrimPiece, Split(Trim(env), ","));
      && (forall k :: 0 <= k < |ps| ==> ps[k] != "" && Trim(ps[k]) == ps[k] && ',' !in ps[k])
      && IsSubsequence(ps, pieces)
      && (forall p :: p in pieces && p != "" ==> p in ps)
      && (forall p :: multiset(ps)[p] == if p != "" then multiset(pieces)[p] else 0)
  {
    var raw := Split(Trim(env), ",");
    var pieces := Map(TrimPiece, raw);
    assert GetAllowedDomains(Some(env)) == Some(Filter(NonEmpty, pieces));
    SplitPiecesFree(Trim(env), ",");
    TrimmedPiecesClean(raw);
    KeptPiecesClean(pieces);
  }

  /** Keeping the non-empty ones among trimmed, comma-free pieces. */
  lemma KeptPiecesClean(pieces: seq<string>)
    requires forall m :: 0 <= m < |pieces| ==> Trim(pieces[m]) == pieces[m] && ',' !in pieces[m]
    ensures var ps := Filter(NonEmpty, pieces);
      && (forall k :: 0 <= k < |ps| ==> ps[k] != "" && Trim(ps[k]) == ps[k] && ',' !in ps[k])
      && IsSubsequence(ps, pieces)
      && (forall p :: p in pieces && p != "" ==> p in ps)
  {
    var ps := Filter(NonEmpty, pieces);
    forall k | 0 <= k < |ps|
      ensures ps[k] != "" && Trim(ps[k]) == ps[k] && ',' !in ps[k]
    {
      assert NonEmpty(ps[k]) && ps[k] in pieces;
    }
    forall p | p in pieces && p != "" ensures p in ps {
      assert NonEmpty(p);
    }
  }

  /** Trimming comma-free pieces gives trimmed, comma-free pieces. */
  lemma TrimmedPiecesClean(raw: seq<string>)
    requires forall m :: 0 <= m < |raw| ==> !Contains(raw[m], ",")
    ensures var pieces := Map(TrimPiece, raw);
      forall m :: 0 <= m < |pieces| ==> Trim(pieces[m]) == pieces[m] && ',' !in pieces[m]
  {
    var pieces := Map(TrimPiece, raw);
    forall m | 0 <= m < |pieces|
      ensures Trim(pieces[m]) == pieces[m] && ',' !in pieces[m]
    {
      TrimIdempotent(raw[m]);
      CharFreeTrim(raw[m], ',');
    }
  }

  /** A trimmed piece of a comma-free string is comma-free. */
  lemma CharFreeTrim(s: string, c: char)
    requires !Contains(s, [c])
    ensures c !in Trim(s)
  {
    if c in Trim(s) {
      var k :| 0 <= k <= |s| - |Trim(s)| && Trim(s) == s[k..k + |Trim(s)|];
      assert c in s;
      var j :| 0 <= j < |s| && s[j] == c;
      OccursSingle(s, c, j);
    }
  }

  /** A pattern that survives being written into ALLOWED_DOMAINS unchanged: non-empty,
      comma-free, and neither end trimmable. */
  predicate CleanPattern(p: string) {
    p != "" && ',' !in p && !IsTrimmable(p[0]) && !IsTrimmable(p[|p| - 1])
  }

  /** Writing a list of clean patterns into ALLOWED_DOMAINS, comma-separated,
      reads the same list back. */
  lemma AllowedDomainsRoundTrip(patterns: seq<string>)
    requires patterns != []
    requires forall k :: 0 <= k < |patterns| ==> CleanPattern(patterns[k])
    ensures GetAllowedDomains(Some(Join(patterns, ","))) == Some(patterns)
  {
    var env := Join(patterns, ",");
    CleanJoinTrimmed(patterns);
    CleanJoinSplits(patterns);
    CleanPiecesKept(patterns);
    ReadBack(env, patterns);
  }

  lemma ReadBack(env: string, patterns: seq<string>)
    requires Trim(env) == env && env != []
    requires Split(env, ",") == patterns
    requires Filter(NonEmpty, Map(TrimPiece, patterns)) == patterns
    ensures GetAllowedDomains(Some(env)) == Some(patterns)
  {
  }

  lemma CleanJoinTrimmed(patterns: seq<string>)
    requires patterns != []
    requires forall k :: 0 <= k < |patterns| ==> CleanPattern(patterns[k])
    ensures Join(patterns, ",") != [] && Trim(Join(patterns, ",")) == Join(patterns, ",")
  {
    var s := Join(patterns, ",");
    forall k | 0 <= k < |patterns| ensures patterns[k] != "" {
      assert CleanPattern(patterns[k]);
    }
    JoinEnds(patterns, ',');
    assert CleanPattern(patterns[0]) && CleanPattern(patterns[|patterns| - 1]);
    assert s != [] && !IsTrimmable(s[0]) && !IsTrimmable(s[|s| - 1]);
    TrimFixed(s);
  }

  lemma CleanJoinSplits(patterns: seq<string>)
    requires patterns != []
    requires forall k :: 0 <= k < |patterns| ==> CleanPattern(patterns[k])
    ensures Split(Join(patterns, ","), ",") == patterns
  {
    forall k | 0 <= k < |patterns| ensures ',' !in patterns[k] {
      assert CleanPattern(patterns[k]);
    }
    SplitJoin(patterns, ',');
  }

  lemma CleanPiecesKept(patterns: seq<string>)
    requires forall k :: 0 <= k < |patterns| ==> CleanPattern(patterns[k])
    ensures Filter(NonEmpty, Map(TrimPiece, patterns)) == patterns
  {
    forall k | 0 <= k < |patterns| ensures TrimPiece(patterns[k]) == patterns[k] && NonEmpty(patterns[k]) {
      assert CleanPattern(patterns[k]);
      TrimFixed(patterns[k]);
    }
    assert Map(TrimPiece, patterns) == patterns;
    FilterKeepsAll(NonEmpty, patterns);
  }

  /** A join of non-empty pieces starts with the first piece's first character and
      ends with the last piece's last character. */
  lemma {:induction false} JoinEnds(parts: seq<string>, c: char)
    requires parts != []
    requires forall k :: 0 <= k < |parts| ==> parts[k] != ""
    ensures var s := Join(parts, [c]);
      s != [] && s[0] == parts[0][0] && s[|s| - 1] == parts[|parts| - 1][|parts[|parts| - 1]| - 1]
    decreases |parts|
  {
    if |parts| > 1 {
      JoinEnds(parts[1..], c);
      assert parts[1..][|parts| - 2] == parts[|parts| - 1];
    }
  }

  // ---------------------------------------------------------------------------
  // matchDomainPattern

  /** One element of the regular expression built from a pattern: an escaped
      literal character, or `.*` from a `*`. */
  datatype GlobToken = Literal(c: char) | AnyRun

  /** The escaping and `*` replacement of the pattern: every `*` becomes `.*`,
      every other character (regular-expression specials included, being escaped)
      stands for itself. */
  function CompilePattern(pattern: string): (r: seq<GlobToken>)
    ensures |r| == |pattern|
    ensures forall i :: 0 <= i < |pattern| ==> r[i] == (if pattern[i] == '*' then AnyRun else Literal(pattern[i]))
    decreases |pattern|
  {
    if pattern == [] then []
    else [if pattern[0] == '*' then AnyRun else Literal(pattern[0])] + CompilePattern(pattern[1..])
  }

  /** Two characters are equal under the `i` flag. */
  predicate SameIgnoringCase(a: char, b: char) {
    LowerChar(a) == LowerChar(b)
  }

  /** `^regex$` tested against `s` with the `i` flag: anchored at both ends, literal
      characters compared ignoring case, `.*` consuming any run of characters other
      than line terminators. */
  predicate MatchTokens(p: seq<GlobToken>, s: string)
    decreases |p|, |s|
  {
    if p == [] then s == []
    else match p[0]
      case Literal(c) => s != [] && SameIgnoringCase(s[0], c) && MatchTokens(p[1..], s[1..])
      case AnyRun =>
        MatchTokens(p[1..], s) || (s != [] && !IsLineTerminator(s[0]) && MatchTokens(p, s[1..]))
  }

  /** `matchDomainPattern(domain, pattern)` */
  predicate MatchDomainPattern(domain: string, pattern: string) {
    MatchTokens(CompilePattern(pattern), domain)
  }

  /** What one token stands for, as a set of strings: a literal stands for the
      one-character strings equal to it ignoring case, `.*` for every run free of
      line terminators. */
  ghost predicate TokenDenotes(t: GlobToken, w: string) {
    match t
    case Literal(c) => |w| == 1 && SameIgnoringCase(w[0], c)
    case AnyRun => forall i :: 0 <= i < |w| ==> !IsLineTerminator(w[i])
  }

  /** The reference meaning of a token sequence: `s` splits into consecutive
      pieces, one per token, each standing for its token. */
  ghost predicate GlobDenotes(p: seq<GlobToken>, s: string)
    decreases |p|
  {
    if p == [] then s == []
    else exists k :: 0 <= k <= |s| && TokenDenotes(p[0], s[..k]) && GlobDenotes(p[1..], s[k..])
  }

  /** The matcher decides exactly the reference meaning of the pattern. */
  lemma {:induction false} MatchTokensIsGlob(p: seq<GlobToken>, s: string)
    ensures MatchTokens(p, s) <==> GlobDenotes(p, s)
    decreases |p|, |s|
  {
    if p != [] {
      match p[0]
      case Literal(c) =>
        if s != [] {
          MatchTokensIsGlob(p[1..], s[1..]);
          LiteralStep(p, s, c);
        }
      case AnyRun =>
        MatchTokensIsGlob(p[1..], s);
        if s != [] {
          MatchTokensIsGlob(p, s[1..]);
        }
        AnyRunSound(p, s);
        AnyRunComplete(p, s);
    }
  }

  /** A literal token consumes exactly one character. */
  lemma LiteralStep(p: seq<GlobToken>, s: string, c: char)
    requires p != [] && p[0] == Literal(c) && s != []
    requires MatchTokens(p[1..], s[1..]) <==> GlobDenotes(p[1..], s[1..])
    ensures MatchTokens(p, s) <==> GlobDenotes(p, s)
  {
    if GlobDenotes(p, s) {
      var k :| 0 <= k <= |s| && TokenDenotes(p[0], s[..k]) && GlobDenotes(p[1..], s[k..]);
      assert k == 1;
    }
    assert TokenDenotes(p[0], s[..1]) <==> SameIgnoringCase(s[0], c);
  }

  /** What `.*` matches, it stands for. */
  lemma AnyRunSound(p: seq<GlobToken>, s: string)
    requires p != [] && p[0] == AnyRun
    requires MatchTokens(p[1..], s) ==> GlobDenotes(p[1..], s)
    requires s != [] ==> MatchTokens(p, s[1..]) ==> GlobDenotes(p, s[1..])
    ensures MatchTokens(p, s) ==> GlobDenotes(p, s)
  {
    if MatchTokens(p, s) {
      if MatchTokens(p[1..], s) {
        assert TokenDenotes(p[0], s[..0]) && s[0..] == s;
      } else {
        var t := s[1..];
        assert GlobDenotes(p, t);
        var k' :| 0 <= k' <= |t| && TokenDenotes(p[0], t[..k']) && GlobDenotes(p[1..], t[k'..]);
        AnyRunExtends(s, k');
      }
    }
  }

  /** A run free of line terminators, preceded by one more such character. */
  lemma AnyRunExtends(s: string, k: nat)
    requires s != [] && k < |s| && !IsLineTerminator(s[0]) && TokenDenotes(AnyRun, s[1..][..k])
    ensures TokenDenotes(AnyRun, s[..k + 1]) && s[k + 1..] == s[1..][k..]
  {
    var w, t := s[..k + 1], s[1..][..k];
    forall i | 0 <= i < |w| ensures !IsLineTerminator(w[i]) {
      if i > 0 {
        assert w[i] == t[i - 1];
      }
    }
  }

  /** What `.*` stands for, it matches. */
  lemma AnyRunComplete(p: seq<GlobToken>, s: string)
    requires p != [] && p[0] == AnyRun
    requires GlobDenotes(p[1..], s) ==> MatchTokens(p[1..], s)
    requires s != [] ==> GlobDenotes(p, s[1..]) ==> MatchTokens(p, s[1..])
    ensures GlobDenotes(p, s) ==> MatchTokens(p, s)
  {
    if GlobDenotes(p, s) {
      var k :| 0 <= k <= |s| && TokenDenotes(p[0], s[..k]) && GlobDenotes(p[1..], s[k..]);
      if k == 0 {
        assert s[0..] == s;
      } else {
        AnyRunShrinks(s, k);
        assert GlobDenotes(p, s[1..]);
      }
    }
  }

  /** A run free of line terminators, without its first character. */
  lemma AnyRunShrinks(s: string, k: nat)
    requires 0 < k <= |s| && TokenDenotes(AnyRun, s[..k])
    ensures !IsLineTerminator(s[0]) && TokenDenotes(AnyRun, s[1..][..k - 1]) && s[1..][k - 1..] == s[k..]
  {
    assert s[0] == s[..k][0];
    var w, t := s[1..][..k - 1], s[..k];
    forall i | 0 <= i < |w| ensures !IsLineTerminator(w[i]) {
      assert w[i] == t[i + 1];
    }
  }

  lemma CompileStar(q: string)
    ensures CompilePattern("*" + q) == [AnyRun] + CompilePattern(q)
  {
    assert ("*" + q)[1..] == q;
  }

  /** A pattern without `*` matches exactly the hostnames equal to it ignoring case. */
  lemma {:induction false} LiteralPatternMatchesExactly(domain: string, pattern: string)
    requires '*' !in pattern
    ensures MatchDomainPattern(domain, pattern) <==> Lower(domain) == Lower(pattern)
    decreases |pattern|
  {
    if pattern == [] {
    } else if domain == [] {
    } else {
      assert pattern[1..] == pattern[1..] && '*' !in pattern[1..] by {
        forall i | 0 <= i < |pattern[1..]| ensures pattern[1..][i] != '*' {
          assert pattern[1..][i] == pattern[i + 1];
        }
      }
      LiteralPatternMatchesExactly(domain[1..], pattern[1..]);
      assert Lower(domain) == [LowerChar(domain[0])] + Lower(domain[1..]);
      assert Lower(pattern) == [LowerChar(pattern[0])] + Lower(pattern[1..]);
    }
  }

  /** `domain` ends with `q` ignoring case, and what comes before that end has
      no line terminator. */
  predicate EndsLikeWithFreeFront(domain: string, q: string) {
    && |q| <= |domain|
    && Lower(domain[|domain| - |q|..]) == Lower(q)
    && forall i :: 0 <= i < |domain| - |q| ==> !IsLineTerminator(domain[i])
  }

  /** A leading `*` followed by a `*`-free suffix: the hostname must end with the
      suffix, ignoring case, and what comes before it may be any run free of line
      terminators (empty included). So `*.example.com` matches `a.example.com` and
      `a.b.example.com` and not `example.com`. */
  lemma {:induction false} WildcardPrefixMatches(domain: string, q: string)
    requires '*' !in q
    ensures MatchDomainPattern(domain, "*" + q) <==> EndsLikeWithFreeFront(domain, q)
    decreases |domain|
  {
    if domain != [] {
      WildcardPrefixMatches(domain[1..], q);
      WildcardStep(domain, q);
    } else {
      WildcardOnEmpty(q);
    }
  }

  lemma WildcardOnEmpty(q: string)
    requires '*' !in q
    ensures MatchDomainPattern([], "*" + q) <==> EndsLikeWithFreeFront([], q)
  {
    CompileStar(q);
    LiteralPatternMatchesExactly([], q);
  }

  /** One step of `.*`: it matches nothing more, or one more of the front characters. */
  lemma WildcardStep(domain: string, q: string)
    requires '*' !in q && domain != []
    requires MatchDomainPattern(domain[1..], "*" + q) <==> EndsLikeWithFreeFront(domain[1..], q)
    ensures MatchDomainPattern(domain, "*" + q) <==> EndsLikeWithFreeFront(domain, q)
  {
    CompileStar(q);
    var p := CompilePattern("*" + q);
    assert p[1..] == CompilePattern(q);
    LiteralPatternMatchesExactly(domain, q);
    if |q| < |domain| {
      assert domain[1..][|domain[1..]| - |q|..] == domain[|domain| - |q|..];
    }
    if |q| == |domain| {
      assert domain[0..] == domain;
    }
  }

  /** Lower-casing leaves a string without upper-case ASCII letters alone. */
  lemma LowerOfLowercase(s: string)
    requires forall i :: 0 <= i < |s| ==> !('A' <= s[i] <= 'Z')
    ensures Lower(s) == s
  {
  }

  /** Examples: `*.example.com` (a `*` followed by `suffix`)
      matches a subdomain at any depth and not the bare domain. */
  lemma SubdomainExample(suffix: string, host: string)
    requires suffix == ".example.com" && host == "a.example.com"
    ensures MatchDomainPattern(host, "*" + suffix)
  {
    assert host[1..] == suffix && host[0] == 'a';
    EndsWithAfterFreeFront(host, suffix, 1);
  }

  lemma NestedSubdomainExample(suffix: string, host: string)
    requires suffix == ".example.com" && host == "a.b.example.com"
    ensures MatchDomainPattern(host, "*" + suffix)
  {
    assert host[3..] == suffix && host[0] == 'a' && host[1] == '.' && host[2] == 'b';
    EndsWithAfterFreeFront(host, suffix, 3);
  }

  /** A hostname made of a front free of line terminators and then `q` itself. */
  lemma EndsWithAfterFreeFront(host: string, q: string, k: nat)
    requires '*' !in q && k <= |host| && host[k..] == q
    requires forall i :: 0 <= i < k ==> !IsLineTerminator(host[i])
    ensures MatchDomainPattern(host, "*" + q)
  {
    WildcardPrefixMatches(host, q);
  }

  lemma BareDomainExample(suffix: string, host: string)
    requires suffix == ".example.com" && host == "example.com"
    ensures !MatchDomainPattern(host, "*" + suffix)
  {
    WildcardPrefixMatches(host, suffix);
  }

  /** A name without `*` matches the same name in other case. */
  lemma ExactNameExample(pattern: string, host: string)
    requires pattern == "example.com" && host == "EXAMPLE.com"
    ensures MatchDomainPattern(host, pattern)
  {
    assert Lower(host) == Lower(pattern) by {
      SameLowering(host, pattern);
    }
    LiteralPatternMatchesExactly(host, pattern);
  }

  lemma SameLowering(host: string, pattern: string)
    requires pattern == "example.com" && host == "EXAMPLE.com"
    ensures Lower(host) == Lower(pattern)
  {
    forall i | 0 <= i < |host| ensures LowerChar(host[i]) == LowerChar(pattern[i]) {
      if i < 7 {
        assert host[i] as int == pattern[i] as int - 32;
      }
    }
  }

  /** With ALLOWED_DOMAINS set to `*.mycompany.com`, a URL whose hostname is
      `evil.com` is not allowed. */
  lemma ForeignDomainExample(env: string, url: string, parse: UrlParser)
    requires env == "*.mycompany.com"
    requires ExtractHostname(url, parse) == Some("evil.com")
    ensures !IsUrlAllowed(Some(env), url, parse)
  {
    var suffix := ".mycompany.com";
    assert env == "*" + suffix;
    assert CleanPattern(env);
    WildcardPrefixMatches("evil.com", suffix);
    SinglePatternAllowList(env, url, parse, "evil.com");
  }

  /** A single clean pattern allows exactly the hostnames it matches. */
  lemma SinglePatternAllowList(pattern: string, url: string, parse: UrlParser, hostname: string)
    requires CleanPattern(pattern)
    requires ExtractHostname(url, parse) == Some(hostname) && hostname != ""
    ensures IsUrlAllowed(Some(pattern), url, parse) <==> MatchDomainPattern(hostname, pattern)
  {
    SinglePatternReadBack(pattern);
    AllowedByList(Some(pattern), [pattern], url, parse, hostname);
    SomeOfOne(hostname, pattern);
  }

  lemma SomeOfOne(hostname: string, pattern: string)
    ensures MatchesSomePattern(hostname, [pattern]) <==> MatchDomainPattern(hostname, pattern)
  {
    var one := [pattern];
    assert one[0] == pattern;
  }

  lemma SinglePatternReadBack(pattern: string)
    requires CleanPattern(pattern)
    ensures GetAllowedDomains(Some(pattern)) == Some([pattern])
  {
    assert Join([pattern], ",") == pattern;
    AllowedDomainsRoundTrip([pattern]);
  }

  lemma AllowedByList(env: Option<string>, patterns: seq<string>, url: string, parse: UrlParser, hostname: string)
    requires GetAllowedDomains(env) == Some(patterns) && patterns != []
    requires ExtractHostname(url, parse) == Some(hostname) && hostname != ""
    ensures IsUrlAllowed(env, url, parse) <==> MatchesSomePattern(hostname, patterns)
  {
  }

  /** Matching ignores the case of the hostname. */
  lemma {:induction false} MatchIgnoresDomainCase(p: seq<GlobToken>, s: string)
    ensures MatchTokens(p, s) <==> MatchTokens(p, Lower(s))
    decreases |p|, |s|
  {
    if p != [] && s != [] {
      assert Lower(s)[1..] == Lower(s[1..]);
      assert IsLineTerminator(Lower(s)[0]) <==> IsLineTerminator(s[0]);
      assert SameIgnoringCase(Lower(s)[0], s[0]);
      match p[0]
      case Literal(c) =>
        MatchIgnoresDomainCase(p[1..], s[1..]);
      case AnyRun =>
        MatchIgnoresDomainCase(p[1..], s);
        MatchIgnoresDomainCase(p, s[1..]);
    }
  }

  /** Matching ignores the case of the pattern. */
  lemma {:induction false} MatchIgnoresPatternCase(domain: string, pattern: string)
    ensures MatchDomainPattern(domain, pattern) <==> MatchDomainPattern(domain, Lower(pattern))
    decreases |pattern|, |domain|
  {
    LowerPatternTokens(pattern);
    MatchLowerTokens(CompilePattern(pattern), domain);
  }

  function LowerToken(t: GlobToken): GlobToken {
    match t
    case Literal(c) => Literal(LowerChar(c))
    case AnyRun => AnyRun
  }

  lemma {:induction false} LowerPatternTokens(pattern: string)
    ensures CompilePattern(Lower(pattern)) == Map(LowerToken, CompilePattern(pattern))
    decreases |pattern|
  {
    if pattern != [] {
      LowerPatternTokens(pattern[1..]);
      assert Lower(pattern)[1..] == Lower(pattern[1..]);
    }
  }

  lemma {:induction false} MatchLowerTokens(p: seq<GlobToken>, s: string)
    ensures MatchTokens(p, s) <==> MatchTokens(Map(LowerToken, p), s)
    decreases |p|, |s|
  {
    if p != [] {
      assert Map(LowerToken, p)[1..] == Map(LowerToken, p[1..]);
      match p[0]
      case Literal(c) =>
        if s != [] {
          MatchLowerTokens(p[1..], s[1..]);
        }
      case AnyRun =>
        MatchLowerTokens(p[1..], s);
        if s != [] {
          MatchLowerTokens(p, s[1..]);
        }
    }
  }

  // ---------------------------------------------------------------------------
  // extractHostname, isUrlAllowed, validateUrlDomain

  /** The URL the validator hands to the parser: `https://` is put in front
      exactly when the URL does not already start with `http://` or `https://` in
      any case. */
  function WithDefaultScheme(url: string): (r: string)
    ensures HasHttpSchemeIgnoringCase(r)
    ensures HasHttpSchemeIgnoringCase(url) ==> r == url
    ensures !HasHttpSchemeIgnoringCase(url) ==> r == "https://" + url
  {
    if HasHttpSchemeIgnoringCase(url) then url
    else
      LowerAppend("https://", url);
      assert Lower("https://") == "https://";
      assert Lower("https://" + url)[..8] == "https://";
      "https://" + url
  }

  /** `extractHostname(url)`: the lower-cased hostname, `None` when parsing throws. */
  function ExtractHostname(url: string, parse: UrlParser): (r: Option<string>)
    ensures r.None? <==> parse(WithDefaultScheme(url)).None?
    ensures r.Some? ==> r.value == Lower(parse(WithDefaultScheme(url)).value.hostname)
    ensures r.Some? ==> Lower(r.value) == r.value
  {
    match parse(WithDefaultScheme(url))
    case None => None
    case Some(u) =>
      LowerIdempotent(u.hostname);
      Some(Lower(u.hostname))
  }

  /** `isUrlAllowed(url)` with ALLOWED_DOMAINS given as `allowedDomainsEnv`. */
  predicate IsUrlAllowed(allowedDomainsEnv: Option<string>, url: string, parse: UrlParser) {
    var domains := GetAllowedDomains(allowedDomainsEnv);
    if domains.None? || domains.value == [] then true
    else match ExtractHostname(url, parse)
      case None => false
      case Some(hostname) =>
        hostname != "" && MatchesSomePattern(hostname, domains.value)
  }

  /** `patterns.some(p => matchDomainPattern(hostname, p))` */
  predicate MatchesSomePattern(hostname: string, patterns: seq<string>) {
    exists i :: 0 <= i < |patterns| && MatchDomainPattern(hostname, patterns[i])
  }

  /** ALLOWED_DOMAINS unset, blank, or holding only blank comma-separated pieces
      allows every URL. */
  lemma AllowAllWithoutPatterns(allowedDomainsEnv: Option<string>, url: string, parse: UrlParser)
    requires allowedDomainsEnv.Some? ==> OnlyBlankPieces(allowedDomainsEnv.value)
    ensures IsUrlAllowed(allowedDomainsEnv, url, parse)
  {
    NoPatternsConfigured(allowedDomainsEnv);
  }

  /** Every comma-separated piece of the trimmed value is blank. */
  predicate OnlyBlankPieces(env: string) {
    var pieces := Split(Trim(env), ",");
    forall k :: 0 <= k < |pieces| ==> Trim(pieces[k]) == ""
  }

  lemma NoPatternsConfigured(allowedDomainsEnv: Option<string>)
    requires allowedDomainsEnv.Some? ==> OnlyBlankPieces(allowedDomainsEnv.value)
    ensures GetAllowedDomains(allowedDomainsEnv) in {None, Some([])}
  {
    if allowedDomainsEnv.Some? && Trim(allowedDomainsEnv.value) != "" {
      BlankPiecesGiveNoPatterns(allowedDomainsEnv.value);
    }
  }

  lemma BlankPiecesGiveNoPatterns(env: string)
    requires OnlyBlankPieces(env)
    ensures Filter(NonEmpty, Map(TrimPiece, Split(Trim(env), ","))) == []
  {
    var raw := Split(Trim(env), ",");
    var pieces := Map(TrimPiece, raw);
    forall k | 0 <= k < |pieces| ensures !NonEmpty(pieces[k]) {
      assert pieces[k] == Trim(raw[k]);
    }
    FilterKeepsNone(NonEmpty, pieces);
  }

  /** With at least one pattern configured, a URL is allowed exactly when the
      parser accepts it (after the default scheme is put in front), its hostname
      is non-empty, and that lower-cased hostname is in the meaning of at least one
      pattern. */
  lemma UrlAllowedIff(allowedDomainsEnv: Option<string>, url: string, parse: UrlParser)
    requires GetAllowedDomains(allowedDomainsEnv).Some? && GetAllowedDomains(allowedDomainsEnv).value != []
    ensures var patterns := GetAllowedDomains(allowedDomainsEnv).value;
      var parsed := parse(WithDefaultScheme(url));
      IsUrlAllowed(allowedDomainsEnv, url, parse) <==>
        && parsed.Some?
        && parsed.value.hostname != ""
        && exists i :: 0 <= i < |patterns| && GlobDenotes(CompilePattern(patterns[i]), Lower(parsed.value.hostname))
  {
    var patterns := GetAllowedDomains(allowedDomainsEnv).value;
    var parsed := parse(WithDefaultScheme(url));
    if parsed.Some? {
      var h := Lower(parsed.value.hostname);
      assert ExtractHostname(url, parse) == Some(h);
      assert h != "" <==> parsed.value.hostname != "";
      assert IsUrlAllowed(allowedDomainsEnv, url, parse) <==> h != "" && MatchesSomePattern(h, patterns);
      AnyPatternIsGlob(patterns, h);
    } else {
      assert ExtractHostname(url, parse).None?;
    }
  }

  /** Some pattern matches `h` exactly when `h` is in the meaning of some pattern. */
  lemma AnyPatternIsGlob(patterns: seq<string>, h: string)
    ensures MatchesSomePattern(h, patterns) <==>
      (exists i :: 0 <= i < |patterns| && GlobDenotes(CompilePattern(patterns[i]), h))
  {
    forall i | 0 <= i < |patterns|
      ensures MatchDomainPattern(h, patterns[i]) <==> GlobDenotes(CompilePattern(patterns[i]), h)
    {
      MatchTokensIsGlob(CompilePattern(patterns[i]), h);
    }
  }

  /** `validateUrlDomain(url)`: fails exactly when the URL is not allowed, with a
      message that names every configured pattern, and has no other effect. */
  function ValidateUrlDomain(allowedDomainsEnv: Option<string>, url: string, parse: UrlParser): (r: Outcome<DomainError>)
    ensures r.Pass? <==> IsUrlAllowed(allowedDomainsEnv, url, parse)
    ensures r.Fail? ==>
      && GetAllowedDomains(allowedDomainsEnv).Some?
      && GetAllowedDomains(allowedDomainsEnv).value != []
      && r.error == DomainRejected(RejectionPrefix + Join(GetAllowedDomains(allowedDomainsEnv).value, ", "))
  {
    if IsUrlAllowed(allowedDomainsEnv, url, parse) then Pass
    else
      var domains := GetAllowedDomains(allowedDomainsEnv);
      Fail(DomainRejected(RejectionPrefix + Join(domains.value, ", ")))
  }
}
