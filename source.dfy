/**
 * Source resolution (`getReader`, xq.go:34-68).  The Go function is one
 * nested conditional; here it is split as the code reads: `Classify` picks
 * the branch from the string and the result of `url.ParseRequestURI`, and
 * `GetReader` performs that branch's file-system or network calls.  Both of
 * those foreign calls are inputs: the parsed URI is a `Uri`, the calls'
 * outcomes are the fields of an `Env`.
 */
module Source {
  import opened Wrappers
  import opened Errors

  /** What `url.ParseRequestURI(file)` returned: an error, or the parts xq reads. */
  datatype Uri = ParseErr | Parsed(scheme: string, host: string, path: string)

  /** The branch of `getReader` that a source string takes. */
  datatype Action =
    | StatThenOpen(path: string)   // a `file` URI: os.Stat, then os.Open
    | Open(path: string)           // a plain path: os.Open only
    | Get(url: string)             // an `http` or `https` URI: http.Get
    | Reject(err: Error)           // no I/O at all

  /** What `getReader` hands back on success: an open file or a response body. */
  datatype Stream = LocalFile(path: string) | ResponseBody(url: string)

  /**
   * The outcome of each foreign call, by argument: `None` for success,
   * `Some(message)` for the error it returns.
   */
  datatype Env = Env(stat: string -> Option<string>,
                     open: string -> Option<string>,
                     get: string -> Option<string>)

  /** The URI parsed and named a scheme (a plain absolute path parses with none). */
  predicate HasScheme(uri: Uri)
  {
    uri.Parsed? && uri.scheme != ""
  }

  predicate IsWebScheme(scheme: string)
  {
    scheme == "http" || scheme == "https"
  }

  /** Branch selection, in the source's order: file, http(s), other scheme, plain path, nothing. */
  function Classify(file: string, uri: Uri): (a: Action)
    ensures HasScheme(uri) && uri.scheme == "file" ==> a == StatThenOpen(uri.host + uri.path)
    ensures HasScheme(uri) && IsWebScheme(uri.scheme) ==> a == Get(file)
    ensures HasScheme(uri) && uri.scheme != "file" && !IsWebScheme(uri.scheme) ==>
              a == Reject(UnsupportedURL(file))
    ensures !HasScheme(uri) && file != "" ==> a == Open(file)
    ensures !HasScheme(uri) && file == "" ==> a == Reject(NoInput)
  {
    if uri.Parsed? && uri.scheme == "file" then
      StatThenOpen(uri.host + uri.path)
    else if uri.Parsed? && IsWebScheme(uri.scheme) then
      Get(file)
    else if uri.Parsed? && uri.scheme != "" then
      Reject(UnsupportedURL(file))
    else if file != "" then
      Open(file)
    else
      Reject(NoInput)
  }

  /** `getReader(file)`: the chosen branch, run against the outcomes in `env`. */
  function GetReader(file: string, uri: Uri, env: Env): (r: Result<Stream, Error>)
    // a `file` URI: stat, then open, the path host ++ path; errors come back unwrapped
    ensures HasScheme(uri) && uri.scheme == "file" ==>
              var p := uri.host + uri.path;
              r == if env.stat(p).Some? then Failure(Os(env.stat(p).value))
                   else if env.open(p).Some? then Failure(Os(env.open(p).value))
                   else Success(LocalFile(p))
    // http(s): the GET of the whole string; no status code is checked
    ensures HasScheme(uri) && IsWebScheme(uri.scheme) ==>
              r == if env.get(file).Some? then Failure(Net(env.get(file).value))
                   else Success(ResponseBody(file))
    // a plain path is opened unchanged, without a stat
    ensures !HasScheme(uri) && file != "" ==>
              r == if env.open(file).Some? then Failure(Os(env.open(file).value))
                   else Success(LocalFile(file))
    // a stream opened from the file system is one of the two paths above
    ensures r.Success? && r.value.LocalFile? ==>
              (HasScheme(uri) && uri.scheme == "file" && r.value.path == uri.host + uri.path)
              || (!HasScheme(uri) && r.value.path == file)
  {
    match Classify(file, uri)
    case StatThenOpen(path) =>
      if env.stat(path).Some? then Failure(Os(env.stat(path).value))
      else if env.open(path).Some? then Failure(Os(env.open(path).value))
      else Success(LocalFile(path))
    case Open(path) =>
      if env.open(path).Some? then Failure(Os(env.open(path).value))
      else Success(LocalFile(path))
    case Get(url) =>
      if env.get(url).Some? then Failure(Net(env.get(url).value))
      else Success(ResponseBody(url))
    case Reject(err) => Failure(err)
  }

  /**
   * The two errors of `getReader` itself are decided before any I/O: an
   * unsupported scheme or an empty string fails the same way whatever the
   * file system and the network would do, and these are its only own errors.
   */
  lemma RejectionNeedsNoIo(file: string, uri: Uri, env1: Env, env2: Env)
    ensures Classify(file, uri).Reject? <==>
              (HasScheme(uri) && uri.scheme != "file" && !IsWebScheme(uri.scheme))
              || (!HasScheme(uri) && file == "")
    ensures Classify(file, uri).Reject? ==> GetReader(file, uri, env1) == GetReader(file, uri, env2)
  {
  }

  /** `getReader` reports `ErrNoInput` exactly for the empty string with no scheme. */
  lemma NoInputOnlyForEmpty(file: string, uri: Uri, env: Env)
    ensures GetReader(file, uri, env) == Failure(NoInput) <==> file == "" && !HasScheme(uri)
  {
  }

  /** An unsupported scheme never reaches the plain-path branch, whatever the string. */
  lemma UnsupportedNeverOpened(file: string, uri: Uri, env: Env)
    requires HasScheme(uri) && uri.scheme != "file" && !IsWebScheme(uri.scheme)
    ensures GetReader(file, uri, env) == Failure(UnsupportedURL(file))
    ensures Message(GetReader(file, uri, env).error) == "unsupported url: " + file
  {
  }

  /**
   * Rows of the source table test, with the URI parse the Go library gives
   * for each string: `file://./note.xml` has host "." and path "/note.xml",
   * `file://doesnotexist.xml` has the whole name as host and an empty path,
   * `file:///work/note.xml` has an empty host, and a relative path does not
   * parse as a request URI.
   */
  lemma SourceTable(env: Env)
    ensures GetReader("", ParseErr, env) == Failure(NoInput)
    ensures Classify("file://./note.xml", Parsed("file", ".", "/note.xml")) == StatThenOpen("./note.xml")
    ensures Classify("file://./doesnotexist.xml", Parsed("file", ".", "/doesnotexist.xml")) == StatThenOpen("./doesnotexist.xml")
    ensures Classify("file:///work/note.xml", Parsed("file", "", "/work/note.xml")) == StatThenOpen("/work/note.xml")
    ensures Classify("file://doesnotexist.xml", Parsed("file", "doesnotexist.xml", "")) == StatThenOpen("doesnotexist.xml")
    ensures GetReader("ftp://", Parsed("ftp", "", ""), env) == Failure(UnsupportedURL("ftp://"))
    ensures Classify("./note.xml", ParseErr) == Open("./note.xml")
    ensures Classify("/abs/note.xml", Parsed("", "", "/abs/note.xml")) == Open("/abs/note.xml")
  {
  }

  /**
   * The rows expecting `os.ErrNotExist`: when the stat of a missing file
   * fails, that error is what `getReader` returns, unwrapped.
   */
  lemma SourceTableNotExist(env: Env, notExist: string)
    requires env.stat("./doesnotexist.xml") == Some(notExist)
    requires env.stat("doesnotexist.xml") == Some(notExist)
    ensures GetReader("file://./doesnotexist.xml", Parsed("file", ".", "/doesnotexist.xml"), env) == Failure(Os(notExist))
    ensures GetReader("file://doesnotexist.xml", Parsed("file", "doesnotexist.xml", ""), env) == Failure(Os(notExist))
  {
    assert "." + "/doesnotexist.xml" == "./doesnotexist.xml";
    assert "doesnotexist.xml" + "" == "doesnotexist.xml";
  }
}
