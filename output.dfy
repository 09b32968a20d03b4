/**
 * Parsing, querying and printing the matches (`query`, xq.go:115-135).
 * The xmlquery library is an input: an `XmlLib` holds its `Parse`,
 * `QueryAll`, `InnerText` and `OutputXML` as functions the model does not
 * look inside.  The reader is an object that records how often it was
 * closed; standard output is an object holding the lines printed so far.
 */
module Output {
  import opened Wrappers
  import opened Errors

  newtype Byte = b: int | 0 <= b < 0x100

  /** xmlquery's node kinds. */
  datatype NodeType =
    | DocumentNode | DeclarationNode | ElementNode | TextNode
    | CharDataNode | CommentNode | AttributeNode | NotationNode

  /** A node as `query` sees it: an identity, its kind and its parent, if any. */
  datatype Node = Node(id: nat, kind: NodeType, parent: Option<nat>)

  /** The library calls `query` makes; an `Err` carries the library's message. */
  datatype XmlLib = XmlLib(parse: seq<Byte> -> Result<Node, string>,
                           queryAll: (Node, string) -> Result<seq<Node>, string>,
                           innerText: Node -> string,
                           outputXML: (Node, bool) -> string)

  /** An `io.ReadCloser` over fixed contents that counts calls to `Close`. */
  class Reader {
    const data: seq<Byte>
    var closeCount: nat

    constructor (data: seq<Byte>)
      ensures this.data == data && closeCount == 0
    {
      this.data := data;
      closeCount := 0;
    }

    method Close()
      modifies this
      ensures closeCount == old(closeCount) + 1
    {
      closeCount := closeCount + 1;
    }
  }

  /** Standard output, as the lines printed to it so far. */
  class Stdout {
    var lines: seq<string>

    constructor ()
      ensures lines == []
    {
      lines := [];
    }

    /** `fmt.Printf("%s\n", s)`. */
    method WriteLine(s: string)
      modifies this
      ensures lines == old(lines) + [s]
    {
      lines := lines + [s];
    }
  }

  /**
   * The line printed for one match: an attribute prints its text alone;
   * any other node prints its XML, with the `self` flag of `OutputXML` set
   * exactly when the node has a parent, so that only the parentless
   * document root is printed with its declaration.
   */
  function Line(lib: XmlLib, n: Node): string
  {
    if n.kind == AttributeNode then lib.innerText(n) else lib.outputXML(n, n.parent.Some?)
  }

  /** The lines printed for a match list, in match order. */
  function Lines(lib: XmlLib, matches: seq<Node>): seq<string>
    decreases |matches|
  {
    if matches == [] then [] else [Line(lib, matches[0])] + Lines(lib, matches[1..])
  }

  /** What `query` prints, or the error it returns, given the reader's contents. */
  function Emit(data: seq<Byte>, xpath: string, lib: XmlLib): Result<seq<string>, Error>
  {
    match lib.parse(data)
    case Failure(msg) => Failure(XMLParse(msg))
    case Success(doc) =>
      match lib.queryAll(doc, xpath)
      case Failure(msg) => Failure(XMLQuery(msg))
      case Success(matches) => Success(Lines(lib, matches))
  }

  lemma {:induction false} LinesLength(lib: XmlLib, matches: seq<Node>)
    ensures |Lines(lib, matches)| == |matches|
    decreases |matches|
  {
    if matches != [] {
      LinesLength(lib, matches[1..]);
    }
  }

  /** The k-th line printed is the rendering of the k-th match. */
  lemma {:induction false} LinesAt(lib: XmlLib, matches: seq<Node>, k: nat)
    requires k < |matches|
    ensures |Lines(lib, matches)| == |matches|
    ensures Lines(lib, matches)[k] == Line(lib, matches[k])
    decreases |matches|
  {
    LinesLength(lib, matches);
    if k > 0 {
      LinesAt(lib, matches[1..], k - 1);
    }
  }

  /** Printing one more match appends exactly its line. */
  lemma {:induction false} LinesSnoc(lib: XmlLib, matches: seq<Node>, n: Node)
    ensures Lines(lib, matches + [n]) == Lines(lib, matches) + [Line(lib, n)]
    decreases |matches|
  {
    if matches == [] {
      assert matches + [n] == [n];
    } else {
      assert (matches + [n])[1..] == matches[1..] + [n];
      LinesSnoc(lib, matches[1..], n);
    }
  }

  /**
   * On success there is one line per match, in match order: an attribute's
   * text, or the node's XML with the declaration only for the document root.
   */
  lemma OneLinePerMatch(data: seq<Byte>, xpath: string, lib: XmlLib)
    requires lib.parse(data).Success?
    requires lib.queryAll(lib.parse(data).value, xpath).Success?
    ensures var matches := lib.queryAll(lib.parse(data).value, xpath).value;
            && Emit(data, xpath, lib).Success?
            && |Emit(data, xpath, lib).value| == |matches|
            && forall k :: 0 <= k < |matches| ==>
                 Emit(data, xpath, lib).value[k] ==
                   if matches[k].kind == AttributeNode then lib.innerText(matches[k])
                   else lib.outputXML(matches[k], matches[k].parent.Some?)
  {
    var matches := lib.queryAll(lib.parse(data).value, xpath).value;
    LinesLength(lib, matches);
    forall k | 0 <= k < |matches|
      ensures Lines(lib, matches)[k] == Line(lib, matches[k])
    {
      LinesAt(lib, matches, k);
    }
  }

  /**
   * The only errors are the two wrapped library errors, a parse error comes
   * first, and the query runs on the parsed document.
   */
  lemma ErrorsAreWrapped(data: seq<Byte>, xpath: string, lib: XmlLib)
    ensures Emit(data, xpath, lib).Failure? <==>
              lib.parse(data).Failure? || lib.queryAll(lib.parse(data).value, xpath).Failure?
    ensures lib.parse(data).Failure? ==>
              Emit(data, xpath, lib) == Failure(XMLParse(lib.parse(data).error))
    ensures lib.parse(data).Success? && lib.queryAll(lib.parse(data).value, xpath).Failure? ==>
              Emit(data, xpath, lib) == Failure(XMLQuery(lib.queryAll(lib.parse(data).value, xpath).error))
  {
  }

  /**
   * The `self` flag `query` hands to `OutputXML`: false for a node without a
   * parent (the document root, selected by `/`), true for a node with one
   * (the root element, selected by name or by the wildcard step); an
   * attribute is not passed to `OutputXML` at all.  What `OutputXML` prints
   * for each flag belongs to xmlquery.
   */
  lemma RootAndElementSelection(lib: XmlLib, root: Node, elem: Node, attr: Node)
    requires root.parent.None? && root.kind != AttributeNode
    requires elem.parent.Some? && elem.kind != AttributeNode
    requires attr.kind == AttributeNode
    ensures Lines(lib, [root]) == [lib.outputXML(root, false)]
    ensures Lines(lib, [elem]) == [lib.outputXML(elem, true)]
    ensures Lines(lib, [attr]) == [lib.innerText(attr)]
  {
  }

  /**
   * `query`: the deferred `Close` runs once on every path; a parse or query
   * error prints nothing; otherwise one line per match is appended in order.
   */
  method Query(reader: Reader, xpath: string, lib: XmlLib, out: Stdout) returns (err: Option<Error>)
    modifies reader, out
    ensures reader.closeCount == old(reader.closeCount) + 1
    ensures Emit(reader.data, xpath, lib).Failure? ==>
              err == Some(Emit(reader.data, xpath, lib).error) && out.lines == old(out.lines)
    ensures Emit(reader.data, xpath, lib).Success? ==>
              err == None && out.lines == old(out.lines) + Emit(reader.data, xpath, lib).value
  {
    var doc := lib.parse(reader.data);
    if doc.Failure? {
      reader.Close();
      return Some(XMLParse(doc.error));
    }
    var list := lib.queryAll(doc.value, xpath);
    if list.Failure? {
      reader.Close();
      return Some(XMLQuery(list.error));
    }
    var matches := list.value;
    var i := 0;
    while i < |matches|
      invariant 0 <= i <= |matches|
      invariant reader.closeCount == old(reader.closeCount)
      invariant out.lines == old(out.lines) + Lines(lib, matches[..i])
    {
      var elem := matches[i];
      if elem.kind == AttributeNode {
        out.WriteLine(lib.innerText(elem));
      } else {
        var isRoot := elem.parent.Some?;
        out.WriteLine(lib.outputXML(elem, isRoot));
      }
      LinesSnoc(lib, matches[..i], elem);
      assert matches[..i + 1] == matches[..i] + [elem];
      i := i + 1;
    }
    assert matches[..i] == matches;
    reader.Close();
    err := None;
  }
}
