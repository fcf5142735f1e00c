/**
 * The part of Go's `net/url` the reconcilers touch. Parsing and rendering
 * belong to the library and are inputs here (a `UrlLibrary`); the model
 * keeps only that parsing may fail and that a parsed URL has a scheme that
 * the processor may fill in.
 */
module Urls {

  /** A parsed URL: its scheme and, opaquely, everything else. */
  datatype Url = Url(scheme: string, rest: string)

  /** Outcome of `url.Parse`; its error text is never used by the callers. */
  datatype ParseResult = ParseError | Parsed(url: Url)

  /** The `url.Parse` and `URL.String` functions of the library. */
  datatype UrlLibrary = UrlLibrary(parse: string -> ParseResult, render: Url -> string)

  const DefaultScheme: string := "https"

  /** The URL to request: an empty scheme becomes `https`, anything else is kept. */
  function WithDefaultScheme(u: Url): (r: Url)
    ensures r.scheme != "" && r.rest == u.rest
    ensures u.scheme != "" ==> r == u
    ensures u.scheme == "" ==> r == u.(scheme := DefaultScheme)
  {
    if u.scheme == "" then u.(scheme := DefaultScheme) else u
  }
}
