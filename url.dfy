/** The part of a parsed URL (WHATWG `new URL(...)`) that the core reads. */
module WebUrl {
  import opened Wrappers
  import opened JsString

  datatype Url = Url(hostname: string, pathname: string)

  /** `new URL(s)`: `None` where the constructor throws. URL parsing itself is
      not modelled; every property below holds for every parser. */
  type UrlParser = string -> Option<Url>

  /** `/^https?:\/\//.test(url)`: the prefix test of the router, case-sensitive. */
  predicate HasHttpScheme(url: string) {
    StartsWith(url, "http://") || StartsWith(url, "https://")
  }

  /** `/^https?:\/\//i.test(url)`: the prefix test of the domain validator,
      case-insensitive. Only ASCII letters take part in the comparison, as in a
      non-Unicode regular expression, so lower-casing ASCII is exact here. */
  predicate HasHttpSchemeIgnoringCase(url: string) {
    HasHttpScheme(Lower(url))
  }
}
