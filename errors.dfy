/**
 * The error values of xq (xq.go:25-32) and the errors it passes through from
 * the operating system and the network.  Go compares errors with `errors.Is`;
 * here each sentinel is a constructor, and an error made with
 * `fmt.Errorf("%w: %s", Sentinel, detail)` keeps its detail as a field.
 */
module Errors {
  import opened Wrappers

  datatype Error =
    | UnsupportedURL(url: string)   // ErrUnsupportedURL wrapping the source string
    | NoInput                       // ErrNoInput
    | MissingFile                   // ErrMissingFile
    | MissingXpath                  // ErrMissingXpath
    | XMLParse(detail: string)      // ErrXMLParse wrapping the parser's message
    | XMLQuery(detail: string)      // ErrXMLQuery wrapping the query engine's message
    | Os(cause: string)             // an os.Stat / os.Open error, returned as is
    | Net(cause: string)            // an http.Get error, returned as is

  /** The text of the sentinel that `errors.Is` finds in `e`, if `e` wraps one. */
  function SentinelText(e: Error): Option<string>
  {
    match e
    case UnsupportedURL(_) => Some("unsupported url")
    case NoInput => Some("no input")
    case MissingFile => Some("missing file argument")
    case MissingXpath => Some("missing xpath expression argument")
    case XMLParse(_) => Some("xmlparse error")
    case XMLQuery(_) => Some("xmlquery error")
    case Os(_) => None
    case Net(_) => None
  }

  /** The text a wrapping error adds after its sentinel, if it wraps one. */
  function WrappedDetail(e: Error): Option<string>
  {
    match e
    case UnsupportedURL(url) => Some(url)
    case XMLParse(detail) => Some(detail)
    case XMLQuery(detail) => Some(detail)
    case _ => None
  }

  /**
   * What `err.Error()` prints.  An error made with `fmt.Errorf("%w: %s", ...)`
   * prints its sentinel, a colon and a space, then the wrapped text, so the
   * parser's or the query engine's diagnostic ends the message; a bare
   * sentinel prints its own text; an OS or network error prints its cause.
   */
  function Message(e: Error): (m: string)
    ensures SentinelText(e).Some? ==> SentinelText(e).value <= m
    ensures SentinelText(e).Some? && WrappedDetail(e).Some? ==>
              m == SentinelText(e).value + ": " + WrappedDetail(e).value
    ensures SentinelText(e).Some? && WrappedDetail(e).None? ==> m == SentinelText(e).value
    ensures WrappedDetail(e).Some? ==>
              |WrappedDetail(e).value| <= |m| && m[|m| - |WrappedDetail(e).value|..] == WrappedDetail(e).value
    ensures e.Os? || e.Net? ==> m == e.cause
  {
    match e
    case UnsupportedURL(url) => "unsupported url: " + url
    case XMLParse(detail) => "xmlparse error: " + detail
    case XMLQuery(detail) => "xmlquery error: " + detail
    case Os(cause) => cause
    case Net(cause) => cause
    case NoInput => "no input"
    case MissingFile => "missing file argument"
    case MissingXpath => "missing xpath expression argument"
  }
}
