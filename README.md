# xq core, modelled in Dafny

xq is a command-line tool that evaluates an XPath expression against an XML
document and prints every matched node to standard output, one line per match.
This project models the three decision procedures in `xq.go`:

- **argument resolution** (`parseArguments`). It merges the `--file`/`-f` and
  `--xpath`/`-x` aliases. It decides whether the document comes from standard
  input, and it reports a missing file or a missing expression.
  Module `Arguments`, file `arguments.dfy`.
- **source resolution** (`getReader`). It classifies the source string as a
  `file` URI, an `http(s)` URI, an unsupported URI or a plain path, and it
  opens or fetches the result. Module `Source`, file `source.dfy`.
- **result emission** (`query`). It parses the document, runs the query and
  prints one line per match. The reader is closed once on every path, and
  library errors are wrapped in `ErrXMLParse` or `ErrXMLQuery`. Module
  `Output`, file `output.dfy`.

The error values of `xq.go` are in module `Errors` (`errors.dfy`). Option and
Result are in module `Wrappers` (`wrappers.dfy`).

The foreign calls are inputs to the model:
- the terminal test on standard input is the boolean `charDevice`;
- the result of `url.ParseRequestURI` is a `Uri` value;
- the outcomes of `os.Stat`, `os.Open` and `http.Get` are the fields of an `Env`;
- the xmlquery functions `Parse`, `QueryAll`, `InnerText` and `OutputXML` are
  the fields of an `XmlLib`.

`parseArguments` and `query` update their state step by step, so they are
methods. `query` works on a `Reader` object that counts `Close` calls and a
`Stdout` object that holds the printed lines; its loop is proved against
`Emit`, a function that gives the printed lines or the error. `getReader`
only computes a value, so it is a pair of functions. `Classify` picks the
branch in the source's order, and `GetReader` runs that branch.

Behaviour of `xq.go` worth noting:
- An empty source is not turned into `-`. With a terminal on standard input
  it is the error `ErrMissingFile`. With piped input the file aliases are
  ignored and `file` stays empty.
- `getReader` has no `-` case. `-` is handled in `parseArguments`, which
  sets `stdin`.
- The HTTP status code is not checked. Any response body counts as success.
- File-system and network errors are returned as they are, not wrapped. A
  `file` URI is checked with `os.Stat` before `os.Open`; a plain path is not.
- Argument resolution has two errors, `ErrMissingFile` and `ErrMissingXpath`.
- With piped input `parseArguments` returns `stdin` true. The argument table
  test (xq_test.go:76-78) lists `false` for that row, but it never compares
  `stdin`: xq_test.go:107 compares `xpath` a second time.

## Model

| member | source | states |
|---|---|---|
| `Arguments.ParseArguments` | xq.go:85-113 | Piped input gives `stdin` true and `file` empty. With a terminal, `--file` wins over `-f` and either alone is taken unchanged. `ErrMissingFile` is returned exactly when both file aliases are empty, before the expression is read, with `xpath` empty. A resolved file `-` sets `stdin`. `--xpath` wins over `-x`. An empty expression is `ErrMissingXpath`, otherwise there is no error. On success there is an expression and either stdin or a non-empty file. |
| `Source.Classify` | xq.go:34-68 | A `file` URI goes to stat-then-open of host ++ path. `http`/`https` goes to a GET of the whole string. Any other non-empty scheme is `ErrUnsupportedURL` wrapping the string. With no scheme (or a failed parse) a non-empty string is opened unchanged, and an empty one is `ErrNoInput`. |
| `Source.GetReader` | xq.go:34-68 | For a `file` URI a stat error is returned unwrapped, and open is not attempted. Then an open error is returned unwrapped, and otherwise the file host ++ path is opened. For http(s) the GET error is returned unwrapped, and otherwise the body is returned with no status check. A plain path is opened without a stat. A file stream always comes from one of those two paths. |
| `Source.RejectionNeedsNoIo` | xq.go:48-67 | `getReader` rejects exactly an unsupported scheme or an empty string with no scheme, and such a rejection does not depend on the file system or the network. |
| `Source.NoInputOnlyForEmpty` | xq.go:56-67 | `ErrNoInput` is returned if and only if the string is empty and names no scheme. |
| `Source.UnsupportedNeverOpened` | xq.go:56-58 | An unsupported scheme fails with `ErrUnsupportedURL` wrapping the original string (message `unsupported url: <string>`), never through the plain-path branch. |
| `Source.SourceTable` | xq_test.go:27-35 | The source table cases: the empty string is `ErrNoInput`; `file://./note.xml`, `file://./doesnotexist.xml`, an absolute `file:///…` URI and `file://doesnotexist.xml` stat and open host ++ path; `ftp://` is unsupported; relative and absolute paths are opened unchanged. |
| `Source.SourceTableNotExist` | xq_test.go:30-32 | For the two missing-file URIs, the stat error (`os.ErrNotExist`) is what `getReader` returns, unwrapped. |
| `Errors.Message` | xq.go:25-32 | A sentinel alone prints its text (`no input`, `missing file argument`, `missing xpath expression argument`). A wrapping error (`unsupported url`, `xmlparse error`, `xmlquery error`, built at xq.go:57, 119, 123) prints its sentinel, `": "`, then the wrapped source string or library diagnostic, which therefore ends the message. An OS or network error prints its cause unchanged. |
| `Output.LinesLength` | xq.go:125-134 | The loop prints exactly as many lines as there are matches. |
| `Output.LinesAt` | xq.go:125-134 | The k-th printed line is the rendering of the k-th match. |
| `Output.LinesSnoc` | xq.go:125-134 | Handling one more match appends exactly that match's line, after the lines already printed. |
| `Output.OneLinePerMatch` | xq.go:125-134 | After a successful parse and query, the output has one line per match, in match order. An attribute match prints its inner text. Any other node prints `OutputXML(parent != nil)`. |
| `Output.ErrorsAreWrapped` | xq.go:117-124 | `query` fails if and only if parsing or querying fails. A parse failure is `ErrXMLParse` wrapping the parser message, and no query is run. A query failure is `ErrXMLQuery` wrapping the engine message. |
| `Output.RootAndElementSelection` | xq.go:126-133 | A node without a parent (the document root, selected by `/`) is printed with `OutputXML(false)`. A non-attribute node with a parent (the root element, selected by name or by the wildcard) is printed with `OutputXML(true)`. An attribute is printed as its inner text. |
| `Output.Query` | xq.go:115-135 | The reader is closed exactly once on every path. On a parse or query error that error is returned and nothing is printed. On success no error is returned and the printed lines are those of `Emit`, appended to the existing output in match order. |

## Left out

- Flag declaration, `-h`/`-v` handling, `printVersion`, `printUsage`, the build-time globals and the process wiring in `main` (xq.go:15-23, 70-83, 138-180, and `main.go`): these only print to stderr, call `os.Exit`, or pass values between the modelled functions.
- `Arguments.ParseArguments`: the character-device test on standard input is a boolean input. The case where `s.Stat()` fails and the Go code would call `Mode()` on a nil result is not modelled.
- `url.ParseRequestURI` is not modelled. The model takes its result as an input, with no link assumed between the string and its parse.
- `os.Stat`, `os.Open` and `http.Get` are not modelled. They are outcomes in an `Env`, and the bytes read from a file or a response body are not modelled. The HTTP request has no timeout, and that is not modelled either.
- `Output.RootAndElementSelection`: that `OutputXML(false)` on the document root prints the XML declaration and `OutputXML(true)` on the root element does not (xq_test.go:150-152) is xmlquery's behaviour. The model proves only which flag `query` passes.
- xmlquery (`Parse`, `QueryAll`, `InnerText`, `OutputXML`) is not modelled. XML parsing, XPath evaluation and the text of the serialised XML are library behaviour and not part of this model. A node is reduced to its identity, its kind and whether it has a parent.
- `Output.Query`: standard output is a list of printed strings. If a string itself contains newline characters, the model still counts it as one line. The error `Close` returns is ignored, as in the source.
