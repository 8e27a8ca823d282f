/**
 * The code block extractor: top-level functions and all classes from a Python
 * syntax tree, or header-delimited blocks found line by line for other files.
 */
module BlockExtraction {
  import opened Wrappers
  import opened Text

  /** One extracted block; `startLine` and `endLine` are 1-based line numbers. */
  datatype Block = Block(kind: string, name: string, startLine: nat, endLine: Option<nat>, code: string)

  datatype Extraction = Success(filePath: string, blocks: seq<Block>) | Error(message: string)

  // ---------------------------------------------------------------------
  // _extract_blocks_using_regex

  /** A header pattern: the captured name when the line matches. */
  type Pattern = string -> Option<string>

  /** The three header patterns, for classes, functions and `###` sections. */
  datatype Patterns = Patterns(classHeader: Pattern, functionHeader: Pattern, sectionHeader: Pattern)

  /** The kind and name of a header line, trying class before function before section. */
  function Classify(line: string, p: Patterns): (r: Option<(string, string)>)
    ensures r.Some? <==> p.classHeader(line).Some? || p.functionHeader(line).Some? || p.sectionHeader(line).Some?
    ensures r.Some? && r.value.0 == "class" <==> p.classHeader(line).Some?
    ensures r.Some? && r.value.0 == "function" <==> p.classHeader(line).None? && p.functionHeader(line).Some?
  {
    if p.classHeader(line).Some? then Some(("class", p.classHeader(line).value))
    else if p.functionHeader(line).Some? then Some(("function", p.functionHeader(line).value))
    else if p.sectionHeader(line).Some? then Some(("section", p.sectionHeader(line).value))
    else None
  }

  predicate IsHeader(line: string, p: Patterns) {
    Classify(line, p).Some?
  }

  /** The indices, in increasing order, of the header lines among the first `n`. */
  function HeadersBelow(lines: seq<string>, p: Patterns, n: nat): (hs: seq<nat>)
    requires n <= |lines|
    ensures forall j :: 0 <= j < |hs| ==> hs[j] < n && IsHeader(lines[hs[j]], p)
    ensures forall j, k :: 0 <= j < k < |hs| ==> hs[j] < hs[k]
    ensures hs == [] <==> forall i :: 0 <= i < n ==> !IsHeader(lines[i], p)
    decreases n
  {
    if n == 0 then []
    else
      var prev := HeadersBelow(lines, p, n - 1);
      if IsHeader(lines[n - 1], p) then prev + [n - 1] else prev
  }

  /** Every header line is among the headers: one block is made per header line. */
  lemma {:induction false} HeadersComplete(lines: seq<string>, p: Patterns, n: nat, i: nat)
    requires i < n <= |lines| && IsHeader(lines[i], p)
    ensures i in HeadersBelow(lines, p, n)
    decreases n
  {
    if i < n - 1 {
      HeadersComplete(lines, p, n - 1, i);
    } else {
      assert HeadersBelow(lines, p, n)[|HeadersBelow(lines, p, n)| - 1] == i;
    }
  }

  function Headers(lines: seq<string>, p: Patterns): seq<nat> {
    HeadersBelow(lines, p, |lines|)
  }

  /** The block opened by header line `h` and closed before line `next`. */
  function BlockAt(lines: seq<string>, p: Patterns, h: nat, next: nat, last: bool): Block
    requires h < next <= |lines| && IsHeader(lines[h], p)
  {
    var c := Classify(lines[h], p).value;
    Block(c.0, c.1, h + 1, if last then Some(|lines|) else None, SpanCode(lines, h, next))
  }

  /** `"\n".join(lines[a:b])`, walking the line indices. */
  function SpanCode(lines: seq<string>, a: nat, b: nat): string
    requires a <= b <= |lines|
    decreases b - a
  {
    if a == b then "" else if a + 1 == b then lines[a] else lines[a] + "\n" + SpanCode(lines, a + 1, b)
  }

  lemma {:induction false} SpanCodeJoins(lines: seq<string>, a: nat, b: nat)
    requires a <= b <= |lines|
    ensures SpanCode(lines, a, b) == Join(lines[a..b], '\n')
    decreases b - a
  {
    if a + 1 < b {
      SpanCodeJoins(lines, a + 1, b);
      assert lines[a..b][1..] == lines[a + 1..b];
    }
  }

  /** Where the block of the `j`-th header ends: at the next header, or at the end of the text. */
  function NextStart(lines: seq<string>, hs: seq<nat>, j: nat): nat
    requires j < |hs|
  {
    if j + 1 < |hs| then hs[j + 1] else |lines|
  }

  /** The blocks the regex extractor produces: one for each header line. */
  function RegexBlocks(lines: seq<string>, p: Patterns): (r: seq<Block>)
    ensures |r| == |Headers(lines, p)|
  {
    var hs := Headers(lines, p);
    seq(|hs|, j requires 0 <= j < |hs| => BlockAt(lines, p, hs[j], NextStart(lines, hs, j), j + 1 == |hs|))
  }

  /** The regex block of the `j`-th header line. */
  lemma RegexBlockAt(lines: seq<string>, p: Patterns, j: nat)
    requires j < |Headers(lines, p)|
    ensures var hs := Headers(lines, p); var b := RegexBlocks(lines, p)[j];
      b.startLine == hs[j] + 1 && hs[j] < |lines| && IsHeader(lines[hs[j]], p) &&
      b.kind == Classify(lines[hs[j]], p).value.0 && b.name == Classify(lines[hs[j]], p).value.1 &&
      b.code == Join(lines[hs[j]..NextStart(lines, hs, j)], '\n') &&
      b.endLine == (if j + 1 == |hs| then Some(|lines|) else None)
  {
    SpanCodeJoins(lines, Headers(lines, p)[j], NextStart(lines, Headers(lines, p), j));
  }

  /** Blocks come in increasing line order, each opening on a header line of its own kind. */
  lemma RegexBlocksOrdered(lines: seq<string>, p: Patterns)
    ensures var r := RegexBlocks(lines, p);
      forall j, k :: 0 <= j < k < |r| ==> r[j].startLine < r[k].startLine
  {
    var r := RegexBlocks(lines, p);
    var hs := Headers(lines, p);
    forall j, k | 0 <= j < k < |r| ensures r[j].startLine < r[k].startLine {
      RegexBlockAt(lines, p, j);
      RegexBlockAt(lines, p, k);
    }
  }

  /** A text without header lines gives no blocks, and one with a header line gives some. */
  lemma RegexBlocksEmpty(lines: seq<string>, p: Patterns)
    ensures (forall i :: 0 <= i < |lines| ==> !IsHeader(lines[i], p)) <==> RegexBlocks(lines, p) == []
  {
  }

  /** The lines of consecutive blocks, one span per header. */
  function Spans(lines: seq<string>, hs: seq<nat>): seq<seq<string>>
    requires forall j :: 0 <= j < |hs| ==> hs[j] < |lines|
    requires forall j, k :: 0 <= j < k < |hs| ==> hs[j] < hs[k]
  {
    if hs == [] then []
    else [lines[hs[0]..NextStart(lines, hs, 0)]] + Spans(lines, hs[1..])
  }

  function Concat(ss: seq<seq<string>>): seq<string> {
    if ss == [] then [] else ss[0] + Concat(ss[1..])
  }

  /** The spans cover the text from the first header to the end, without gap or overlap. */
  lemma {:induction false} SpansCover(lines: seq<string>, hs: seq<nat>)
    requires hs != []
    requires forall j :: 0 <= j < |hs| ==> hs[j] < |lines|
    requires forall j, k :: 0 <= j < k < |hs| ==> hs[j] < hs[k]
    ensures Concat(Spans(lines, hs)) == lines[hs[0]..]
    ensures |Spans(lines, hs)| == |hs|
    ensures forall j :: 0 <= j < |hs| ==> Spans(lines, hs)[j] == lines[hs[j]..NextStart(lines, hs, j)]
    decreases |hs|
  {
    if |hs| == 1 {
      assert Spans(lines, hs[1..]) == [];
    } else {
      var rest := hs[1..];
      SpansCover(lines, rest);
      assert lines[hs[0]..hs[1]] + lines[hs[1]..] == lines[hs[0]..];
      forall j | 0 < j < |hs| ensures Spans(lines, hs)[j] == lines[hs[j]..NextStart(lines, hs, j)] {
        assert Spans(lines, hs)[j] == Spans(lines, rest)[j - 1];
        assert NextStart(lines, hs, j) == NextStart(lines, rest, j - 1);
      }
    }
  }

  /** The block a header line opens, before its code is known. */
  function OpenBlock(lines: seq<string>, p: Patterns, h: nat): Block
    requires h < |lines| && IsHeader(lines[h], p)
  {
    var c := Classify(lines[h], p).value;
    Block(c.0, c.1, h + 1, None, "")
  }

  /** The invariant of the line loop after the first `i` lines. */
  predicate Scanned(lines: seq<string>, p: Patterns, i: nat, hs: seq<nat>, blocks: seq<Block>, current: Option<Block>)
    requires i <= |lines|
  {
    hs == HeadersBelow(lines, p, i) &&
    |blocks| == (if hs == [] then 0 else |hs| - 1) &&
    (forall j :: 0 <= j < |blocks| ==> blocks[j] == BlockAt(lines, p, hs[j], hs[j + 1], false)) &&
    current == (if hs == [] then None else Some(OpenBlock(lines, p, hs[|hs| - 1])))
  }

  /** One pass of the line loop: a header line closes the open block and opens its own. */
  method ScanLine(lines: seq<string>, p: Patterns, i: nat, ghost hs: seq<nat>, blocks: seq<Block>, current: Option<Block>)
    returns (ghost hs': seq<nat>, blocks': seq<Block>, current': Option<Block>)
    requires i < |lines| && Scanned(lines, p, i, hs, blocks, current)
    ensures Scanned(lines, p, i + 1, hs', blocks', current')
  {
    hs', blocks', current' := hs, blocks, current;
    var header := Classify(lines[i], p);
    if header.Some? {
      hs' := hs + [i];
      current' := Some(Block(header.value.0, header.value.1, i + 1, None, ""));
      assert current' == Some(OpenBlock(lines, p, i));
      if current.Some? {
        var start := current.value.startLine;
        blocks' := blocks + [current.value.(code := SpanCode(lines, start - 1, i))];
        assert blocks' == blocks + [BlockAt(lines, p, hs[|hs| - 1], i, false)];
        ScanNextHeader(lines, p, i, hs, blocks);
      } else {
        ScanFirstHeader(lines, p, i, hs, blocks);
      }
    } else {
      ScanPlain(lines, p, i, hs, blocks, current);
    }
  }

  lemma ScanPlain(lines: seq<string>, p: Patterns, i: nat, hs: seq<nat>, blocks: seq<Block>, current: Option<Block>)
    requires i < |lines| && Scanned(lines, p, i, hs, blocks, current) && !IsHeader(lines[i], p)
    ensures Scanned(lines, p, i + 1, hs, blocks, current)
  {
    assert HeadersBelow(lines, p, i + 1) == hs;
  }

  /** The first header line opens the first block. */
  lemma ScanFirstHeader(lines: seq<string>, p: Patterns, i: nat, hs: seq<nat>, blocks: seq<Block>)
    requires i < |lines| && Scanned(lines, p, i, hs, blocks, None) && IsHeader(lines[i], p)
    ensures Scanned(lines, p, i + 1, hs + [i], blocks, Some(OpenBlock(lines, p, i)))
  {
    assert HeadersBelow(lines, p, i + 1) == hs + [i];
  }

  /** A later header line closes the open block, with the lines up to it as its code. */
  lemma ScanNextHeader(lines: seq<string>, p: Patterns, i: nat, hs: seq<nat>, blocks: seq<Block>)
    requires i < |lines| && hs != [] && IsHeader(lines[i], p) && hs == HeadersBelow(lines, p, i)
    requires Scanned(lines, p, i, hs, blocks, Some(OpenBlock(lines, p, hs[|hs| - 1])))
    ensures hs[|hs| - 1] < i
    ensures Scanned(lines, p, i + 1, hs + [i], blocks + [BlockAt(lines, p, hs[|hs| - 1], i, false)], Some(OpenBlock(lines, p, i)))
  {
    assert HeadersBelow(lines, p, i + 1) == hs + [i];
    ExtendBlocks(lines, p, hs, blocks, i);
  }

  /** Closing the open block at header line `i` keeps the closed blocks paired with consecutive headers. */
  lemma ExtendBlocks(lines: seq<string>, p: Patterns, hs: seq<nat>, blocks: seq<Block>, i: nat)
    requires hs != [] && |blocks| == |hs| - 1 && i < |lines|
    requires forall j :: 0 <= j < |hs| ==> hs[j] < i && IsHeader(lines[hs[j]], p)
    requires forall j :: 0 <= j < |blocks| ==> hs[j] < hs[j + 1]
    requires forall j :: 0 <= j < |blocks| ==> blocks[j] == BlockAt(lines, p, hs[j], hs[j + 1], false)
    ensures var hs', blocks' := hs + [i], blocks + [BlockAt(lines, p, hs[|hs| - 1], i, false)];
      forall j :: 0 <= j < |blocks'| ==> blocks'[j] == BlockAt(lines, p, hs'[j], hs'[j + 1], false)
  {
    var hs', blocks' := hs + [i], blocks + [BlockAt(lines, p, hs[|hs| - 1], i, false)];
    forall j | 0 <= j < |blocks'|
      ensures blocks'[j] == BlockAt(lines, p, hs'[j], hs'[j + 1], false)
    {
      if j < |blocks| {
        assert hs'[j] == hs[j] && hs'[j + 1] == hs[j + 1];
      }
    }
  }

  /** `_extract_blocks_using_regex`: the line loop keeps the open block and closes it at the next header. */
  method ExtractBlocksUsingRegex(code: string, filePath: string, p: Patterns) returns (r: Extraction)
    ensures r == Success(filePath, RegexBlocks(Split(code, '\n'), p))
  {
    var lines := Split(code, '\n');
    var blocks: seq<Block> := [];
    var current: Option<Block> := None;
    ghost var hs: seq<nat> := [];
    var i := 0;
    while i < |lines|
      invariant 0 <= i <= |lines|
      invariant Scanned(lines, p, i, hs, blocks, current)
    {
      hs, blocks, current := ScanLine(lines, p, i, hs, blocks, current);
      i := i + 1;
    }
    blocks := CloseLast(lines, p, hs, blocks, current);
    return Success(filePath, blocks);
  }

  /** After the loop: the open block runs to the end of the text and records the end line. */
  method CloseLast(lines: seq<string>, p: Patterns, ghost hs: seq<nat>, blocks: seq<Block>, current: Option<Block>)
    returns (all: seq<Block>)
    requires Scanned(lines, p, |lines|, hs, blocks, current)
    ensures all == RegexBlocks(lines, p)
  {
    all := blocks;
    if current.Some? {
      var start := current.value.startLine;
      all := blocks + [current.value.(code := SpanCode(lines, start - 1, |lines|), endLine := Some(|lines|))];
    }
    RegexBlocksAre(lines, p, all);
  }

  lemma RegexBlocksAre(lines: seq<string>, p: Patterns, blocks: seq<Block>)
    requires |blocks| == |Headers(lines, p)|
    requires forall j :: 0 <= j < |blocks| - 1 ==>
      blocks[j] == BlockAt(lines, p, Headers(lines, p)[j], Headers(lines, p)[j + 1], false)
    requires blocks != [] ==>
      blocks[|blocks| - 1] == BlockAt(lines, p, Headers(lines, p)[|blocks| - 1], |lines|, true)
    ensures blocks == RegexBlocks(lines, p)
  {
    var hs := Headers(lines, p);
    var r := RegexBlocks(lines, p);
    forall j | 0 <= j < |blocks| ensures blocks[j] == r[j] {
      RegexBlockAt(lines, p, j);
    }
  }

  // ---------------------------------------------------------------------
  // _find_node_end

  type LineNo = n: nat | n >= 1 witness 1

  datatype NodeKind = ClassDef | FunctionDef | OtherNode

  /** A syntax-tree node as `ast.walk` yields it; `topLevel` says whether it is in the module body. */
  datatype Node = Node(kind: NodeKind, name: string, lineno: LineNo, endLineno: Option<nat>, topLevel: bool)

  function Indent(line: string): nat {
    |line| - |LStrip(line)|
  }

  /** A non-blank line indented no deeper than `indent` closes the block. */
  predicate Closes(line: string, indent: nat) {
    LStrip(line) != [] && Indent(line) <= indent
  }

  /** The first closing line from `i` on, or the number of lines. */
  function ScanEnd(lines: seq<string>, indent: nat, i: nat): (r: nat)
    requires i <= |lines|
    ensures i <= r <= |lines|
    ensures forall k :: i <= k < r ==> !Closes(lines[k], indent)
    ensures r < |lines| ==> Closes(lines[r], indent)
    decreases |lines| - i
  {
    if i == |lines| then |lines|
    else if Closes(lines[i], indent) then i
    else ScanEnd(lines, indent, i + 1)
  }

  /**
   * The last line of a node: its `end_lineno` when known, else the index of the first
   * later line that closes it; a line number beyond the text raises `IndexError`.
   */
  function NodeEnd(node: Node, lines: seq<string>): (r: Result<nat>)
    ensures node.endLineno.Some? ==> r == Ok(node.endLineno.value)
    ensures r.Raise? <==> node.endLineno.None? && node.lineno > |lines|
    ensures node.endLineno.None? && r.Ok? ==> node.lineno <= r.value <= |lines|
  {
    if node.endLineno.Some? then Ok(node.endLineno.value)
    else if node.lineno > |lines| then Raise("list index out of range")
    else Ok(EndAfterHeader(lines, node.lineno))
  }

  /** The scan from the line after the header at line number `n`, against the header's indentation. */
  function EndAfterHeader(lines: seq<string>, n: nat): nat
    requires 1 <= n <= |lines|
  {
    ScanEnd(lines, Indent(lines[n - 1]), n)
  }

  /**
   * Without `end_lineno`, the end is the smallest index from the header's number on whose
   * line closes the block, or the number of lines; it lies between the two.
   */
  lemma NodeEndIsSmallest(node: Node, lines: seq<string>)
    requires node.endLineno.None? && node.lineno <= |lines|
    ensures var e := NodeEnd(node, lines).value; var indent := Indent(lines[node.lineno - 1]);
      node.lineno <= e <= |lines| &&
      (forall k :: node.lineno <= k < e ==> !Closes(lines[k], indent)) &&
      (e < |lines| ==> Closes(lines[e], indent))
  {
  }

  /** The scan ends at the first closing line. */
  lemma {:induction false} ScanEndIsFirst(lines: seq<string>, indent: nat, i: nat, e: nat)
    requires i <= e <= |lines|
    requires forall k :: i <= k < e ==> !Closes(lines[k], indent)
    requires e < |lines| ==> Closes(lines[e], indent)
    ensures ScanEnd(lines, indent, i) == e
    decreases e - i
  {
    if i < e {
      ScanEndIsFirst(lines, indent, i + 1, e);
    }
  }

  /** The test in the loop of `_find_node_end`: a non-blank line no deeper than the header. */
  method LineCloses(line: string, indent: nat) returns (b: bool)
    ensures b == Closes(line, indent)
  {
    b := false;
    if LStrip(line) != [] {
      var currentIndent := Indent(line);
      if currentIndent <= indent {
        b := true;
      }
    }
  }

  /** `_find_node_end`: the indentation scan. */
  method FindNodeEnd(node: Node, lines: seq<string>) returns (r: Result<nat>)
    ensures r == NodeEnd(node, lines)
  {
    if node.endLineno.Some? {
      r := Ok(node.endLineno.value);
    } else if node.lineno > |lines| {
      r := Raise("list index out of range");
    } else {
      var start := node.lineno;
      var e := ScanFrom(lines, start);
      r := Ok(e);
    }
  }

  /** The loop of `_find_node_end` over the lines after the header. */
  method ScanFrom(lines: seq<string>, start: LineNo) returns (e: nat)
    requires start <= |lines|
    ensures e == EndAfterHeader(lines, start)
  {
    var indent := Indent(lines[start - 1]);
    var i := start;
    while i < |lines|
      invariant start <= i <= |lines|
      invariant forall k :: start <= k < i ==> !Closes(lines[k], indent)
    {
      var closes := LineCloses(lines[i], indent);
      if closes && i > start - 1 {
        ScanEndIsFirst(lines, indent, start, i);
        return i;
      }
      i := i + 1;
    }
    ScanEndIsFirst(lines, indent, start, |lines|);
    return |lines|;
  }

  // ---------------------------------------------------------------------
  // _extract_blocks_using_ast

  /** Python's clamping slice `lines[a:b]` for non-negative bounds. */
  function Slice(lines: seq<string>, a: nat, b: nat): (r: seq<string>)
    ensures |r| <= |lines|
  {
    var lo := if a < |lines| then a else |lines|;
    var hi := if b < |lines| then b else |lines|;
    if hi <= lo then [] else lines[lo..hi]
  }

  predicate Extracted(node: Node)
    ensures Extracted(node) ==> node.kind != OtherNode
    ensures node.kind == FunctionDef ==> (Extracted(node) <==> node.topLevel)
  {
    node.kind == ClassDef || (node.kind == FunctionDef && node.topLevel)
  }

  function NodeBlock(node: Node, lines: seq<string>, e: nat): Block
    requires Extracted(node)
  {
    Block(if node.kind == ClassDef then "class" else "function", node.name, node.lineno, Some(e),
          Join(Slice(lines, node.lineno - 1, e), '\n'))
  }

  /** The AST blocks in walk order: every class and every top-level function. */
  function AstBlocks(nodes: seq<Node>, lines: seq<string>): (r: Result<seq<Block>>)
    ensures r.Ok? ==> |r.value| <= |nodes|
    decreases |nodes|
  {
    if nodes == [] then Ok([])
    else match AstBlocks(nodes[..|nodes| - 1], lines)
      case Raise(e) => Raise(e)
      case Ok(bs) =>
        var n := nodes[|nodes| - 1];
        if !Extracted(n) then Ok(bs)
        else match NodeEnd(n, lines)
          case Raise(e) => Raise(e)
          case Ok(e) => Ok(bs + [NodeBlock(n, lines, e)])
  }

  /** Methods and nested functions never become blocks; classes at any depth do. */
  lemma {:induction false} AstBlocksKinds(nodes: seq<Node>, lines: seq<string>)
    requires AstBlocks(nodes, lines).Ok?
    ensures forall b :: b in AstBlocks(nodes, lines).value ==>
      exists n :: n in nodes && Extracted(n) && b.name == n.name && b.startLine == n.lineno &&
        (b.kind == "class" <==> n.kind == ClassDef)
    ensures (forall n :: n in nodes ==> !Extracted(n)) ==> AstBlocks(nodes, lines) == Ok([])
    decreases |nodes|
  {
    if nodes != [] {
      var init := nodes[..|nodes| - 1];
      AstBlocksKinds(init, lines);
      forall n | n in init ensures n in nodes { }
    }
  }

  /** A parser: the nodes of `ast.walk(ast.parse(code))`, or the `SyntaxError` message. */
  type Parser = string -> Result<seq<Node>>

  function AstExtraction(code: string, filePath: string, parse: Parser): Extraction {
    match parse(code)
    case Raise(e) => Error(e)
    case Ok(nodes) =>
      match AstBlocks(nodes, Split(code, '\n'))
      case Raise(e) => Error(e)
      case Ok(bs) => Success(filePath, bs)
  }

  /** `_extract_blocks_using_ast`: any exception, the syntax error included, becomes an error result. */
  method ExtractBlocksUsingAst(code: string, filePath: string, parse: Parser) returns (r: Extraction)
    ensures r == AstExtraction(code, filePath, parse)
  {
    var parsed := parse(code);
    if parsed.Raise? {
      return Error(parsed.error);
    }
    var nodes := parsed.value;
    var lines := Split(code, '\n');
    var blocks: seq<Block> := [];
    var i := 0;
    while i < |nodes|
      invariant 0 <= i <= |nodes|
      invariant AstBlocks(nodes[..i], lines) == Ok(blocks)
    {
      assert nodes[..i + 1][..i] == nodes[..i];
      var node := nodes[i];
      if Extracted(node) {
        var e := FindNodeEnd(node, lines);
        if e.Raise? {
          AstRaiseSticks(nodes, lines, i + 1);
          return Error(e.error);
        }
        blocks := blocks + [NodeBlock(node, lines, e.value)];
      }
      i := i + 1;
    }
    assert nodes[..i] == nodes;
    return Success(filePath, blocks);
  }

  lemma {:induction false} AstRaiseSticks(nodes: seq<Node>, lines: seq<string>, n: nat)
    requires 0 < n <= |nodes| && AstBlocks(nodes[..n], lines).Raise?
    ensures AstBlocks(nodes, lines) == AstBlocks(nodes[..n], lines)
    decreases |nodes| - n
  {
    if n < |nodes| {
      assert nodes[..n + 1][..n] == nodes[..n];
      AstRaiseSticks(nodes, lines, n + 1);
    } else {
      assert nodes[..n] == nodes;
    }
  }

  // ---------------------------------------------------------------------
  // extract_blocks_from_code

  /** The choice as written: `.py` files go to the AST extractor, whose own handler already turns a syntax error into an error result. */
  function ExtractionAsWritten(code: string, filePath: string, parse: Parser, p: Patterns): (r: Extraction)
    ensures !EndsWith(filePath, ".py") ==> r == Success(filePath, RegexBlocks(Split(code, '\n'), p))
    ensures EndsWith(filePath, ".py") && parse(code).Raise? ==> r == Error(parse(code).error)
    ensures EndsWith(filePath, ".py") && parse(code).Ok? ==> r == AstExtraction(code, filePath, parse)
  {
    if EndsWith(filePath, ".py") then AstExtraction(code, filePath, parse)
    else Success(filePath, RegexBlocks(Split(code, '\n'), p))
  }

  /** `extract_blocks_from_code`. */
  method ExtractBlocksFromCode(code: string, filePath: string, parse: Parser, p: Patterns) returns (r: Extraction)
    ensures r == ExtractionAsWritten(code, filePath, parse, p)
  {
    if EndsWith(filePath, ".py") {
      r := ExtractBlocksUsingAst(code, filePath, parse);
    } else {
      r := ExtractBlocksUsingRegex(code, filePath, p);
    }
  }

  /** As written, a Python file that does not parse yields an error, never the regex fallback. */
  lemma SyntaxErrorNotRecovered(code: string, filePath: string, parse: Parser, p: Patterns)
    requires EndsWith(filePath, ".py") && parse(code).Raise?
    ensures ExtractionAsWritten(code, filePath, parse, p) == Error(parse(code).error)
  {
  }

  /** The intended choice: a syntax error in a Python file falls back to the regex extractor. */
  function IntendedExtraction(code: string, filePath: string, parse: Parser, p: Patterns): (r: Extraction)
    ensures EndsWith(filePath, ".py") && parse(code).Raise? ==> r == Success(filePath, RegexBlocks(Split(code, '\n'), p))
    ensures !EndsWith(filePath, ".py") ==> r == Success(filePath, RegexBlocks(Split(code, '\n'), p))
    ensures EndsWith(filePath, ".py") && parse(code).Ok? ==> r == AstExtraction(code, filePath, parse)
  {
    if EndsWith(filePath, ".py") && parse(code).Ok? then AstExtraction(code, filePath, parse)
    else Success(filePath, RegexBlocks(Split(code, '\n'), p))
  }

  /** The two agree except on Python files that do not parse, where only the intended one recovers. */
  lemma ExtractionDiffersOnlyOnSyntaxError(code: string, filePath: string, parse: Parser, p: Patterns)
    ensures ExtractionAsWritten(code, filePath, parse, p) != IntendedExtraction(code, filePath, parse, p) <==>
      EndsWith(filePath, ".py") && parse(code).Raise?
  {
  }
}
