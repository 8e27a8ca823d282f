/**
 * The code generator: an indentation counter and the text of classes, methods
 * and functions laid out one level deeper than the current indentation.
 */
module Generation {
  import opened Wrappers
  import Text

  function Repeat(s: string, n: nat): string {
    if n == 0 then "" else Repeat(s, n - 1) + s
  }

  /** Each line followed by a newline. */
  function Unlines(lines: seq<string>): (r: string)
    ensures |lines| > 0 ==> |r| > 0 && r[|r| - 1] == '\n'
  {
    if lines == [] then "" else Unlines(lines[..|lines| - 1]) + lines[|lines| - 1] + "\n"
  }

  lemma {:induction false} UnlinesAppend(a: seq<string>, b: seq<string>)
    ensures Unlines(a + b) == Unlines(a) + Unlines(b)
    decreases |b|
  {
    if b == [] {
      assert a + b == a;
    } else {
      var b' := b[..|b| - 1];
      var x := b[|b| - 1];
      assert (a + b)[..|a + b| - 1] == a + b';
      assert (a + b)[|a + b| - 1] == x;
      UnlinesAppend(a, b');
      calc {
        Unlines(a + b);
        Unlines(a + b') + x + "\n";
        Unlines(a) + Unlines(b') + x + "\n";
        Unlines(a) + (Unlines(b') + x + "\n");
      }
    }
  }

  function JoinWith(parts: seq<string>, sep: string): string {
    if |parts| == 0 then "" else if |parts| == 1 then parts[0] else parts[0] + sep + JoinWith(parts[1..], sep)
  }

  function Prefixed(indentation: string, body: seq<string>): (r: seq<string>)
    ensures |r| == |body| && forall k :: 0 <= k < |body| ==> r[k] == indentation + body[k]
  {
    seq(|body|, k requires 0 <= k < |body| => indentation + body[k])
  }

  /** A parameter as declared, `name: type`, in the caller's order. */
  datatype Param = Param(name: string, typ: string)

  function ParamText(ps: seq<Param>): string {
    JoinWith(seq(|ps|, k requires 0 <= k < |ps| => ps[k].name + ": " + ps[k].typ), ", ")
  }

  /** A method specification; an absent key is `None` (or empty) and takes the source's default. */
  datatype MethodSpec = MethodSpec(name: string, parameters: seq<Param>, returnType: Option<string>,
                                   body: Option<seq<string>>, docstring: string)

  function DocLines(indentation: string, docstring: string): (r: seq<string>)
    ensures |r| == (if docstring == "" then 0 else 1)
  {
    if docstring == "" then [] else [indentation + "\"\"\"" + docstring + "\"\"\""]
  }

  /**
   * The text of a method at indentation `ind`: a blank line, the header, then the docstring and
   * the body one level deeper; a missing body is a single `pass`.
   */
  function MethodText(indentString: string, level: nat, m: MethodSpec): (r: string)
    ensures Text.StartsWith(r, "\n" + Repeat(indentString, level) + "def " + m.name + "(self")
    ensures r[|r| - 1] == '\n'
  {
    var outer := Repeat(indentString, level);
    var inner := Repeat(indentString, level + 1);
    var params := if m.parameters == [] then "" else ", " + ParamText(m.parameters);
    "\n" + outer + "def " + m.name + "(self" + params + ") -> " + m.returnType.GetOr("None") + ":\n" +
    Unlines(DocLines(inner, m.docstring) + Prefixed(inner, m.body.GetOr(["pass"])))
  }

  function FunctionText(indentString: string, level: nat, name: string, parameters: seq<Param>,
                        returnType: string, body: seq<string>, docstring: string): (r: string)
    ensures Text.StartsWith(r, Repeat(indentString, level) + "def " + name + "(")
    ensures r[|r| - 1] == '\n'
  {
    var inner := Repeat(indentString, level + 1);
    Repeat(indentString, level) + "def " + name + "(" + ParamText(parameters) + ") -> " + returnType + ":\n" +
    Unlines(DocLines(inner, docstring) + Prefixed(inner, body))
  }

  /** The generated `__init__`: one parameter and one assignment per attribute, then a blank line. */
  function InitText(indentString: string, level: nat, attributes: seq<Param>): (r: string)
    ensures Text.StartsWith(r, Repeat(indentString, level) + "def __init__(self")
    ensures Text.EndsWith(r, "\n\n")
  {
    var sig := seq(|attributes|, k requires 0 <= k < |attributes| => ", " + attributes[k].name + ": " + attributes[k].typ);
    var assigns := seq(|attributes|, k requires 0 <= k < |attributes| =>
      "self." + attributes[k].name + " = " + attributes[k].name);
    Repeat(indentString, level) + "def __init__(self" + Concat(sig) + ") -> None:\n" +
    Unlines(Prefixed(Repeat(indentString, level + 1), assigns)) + "\n"
  }

  function Concat(parts: seq<string>): string {
    if parts == [] then "" else Concat(parts[..|parts| - 1]) + parts[|parts| - 1]
  }

  function MethodsText(indentString: string, level: nat, methods: seq<MethodSpec>): string {
    Concat(seq(|methods|, k requires 0 <= k < |methods| => MethodText(indentString, level, methods[k])))
  }

  /** The class body: the docstring, then `pass` when there is nothing else, else `__init__` and the methods. */
  function ClassBody(indentString: string, level: nat, attributes: seq<Param>, methods: seq<MethodSpec>,
                     docstring: string): string
  {
    Unlines(DocLines(Repeat(indentString, level), docstring)) +
    if attributes == [] && methods == [] then Repeat(indentString, level) + "pass\n"
    else (if attributes == [] then "" else InitText(indentString, level, attributes)) +
         MethodsText(indentString, level, methods)
  }

  function ClassText(indentString: string, level: nat, name: string, attributes: seq<Param>,
                     methods: seq<MethodSpec>, bases: seq<string>, docstring: string): (r: string)
    ensures Text.StartsWith(r, Repeat(indentString, level) + "class " + name)
  {
    Repeat(indentString, level) + "class " + name + (if bases == [] then "" else "(" + JoinWith(bases, ", ") + ")") +
    ":\n" + ClassBody(indentString, level + 1, attributes, methods, docstring)
  }

  class CodeGenerator {
    var indentLevel: nat
    const indentString: string

    constructor (indentString: string)
      ensures this.indentLevel == 0 && this.indentString == indentString
    {
      this.indentLevel := 0;
      this.indentString := indentString;
    }

    method Indent()
      modifies this
      ensures indentLevel == old(indentLevel) + 1
      ensures GetIndentation() == old(GetIndentation()) + indentString
    {
      indentLevel := indentLevel + 1;
    }

    /** Never goes below zero. */
    method Dedent()
      modifies this
      ensures indentLevel == if old(indentLevel) > 0 then old(indentLevel) - 1 else 0
      ensures old(indentLevel) > 0 ==> old(GetIndentation()) == GetIndentation() + indentString
    {
      if indentLevel > 0 {
        indentLevel := indentLevel - 1;
      }
    }

    function GetIndentation(): string
      reads this
    {
      Repeat(indentString, indentLevel)
    }

    /** The body lines one level deeper, as the `for line in body` loop appends them. */
    method EmitLines(lines: seq<string>) returns (code: string)
      ensures code == Unlines(Prefixed(Repeat(indentString, indentLevel), lines))
    {
      code := "";
      var i := 0;
      while i < |lines|
        invariant 0 <= i <= |lines|
        invariant code == Unlines(Prefixed(Repeat(indentString, indentLevel), lines[..i]))
      {
        assert Prefixed(Repeat(indentString, indentLevel), lines[..i + 1])[..i]
          == Prefixed(Repeat(indentString, indentLevel), lines[..i]);
        code := code + GetIndentation() + lines[i] + "\n";
        i := i + 1;
      }
      assert lines[..i] == lines;
    }

    method GenerateMethod(m: MethodSpec) returns (code: string)
      modifies this
      ensures indentLevel == old(indentLevel)
      ensures code == MethodText(indentString, indentLevel, m)
    {
      var returnType := m.returnType.GetOr("None");
      var body := m.body.GetOr(["pass"]);
      ghost var params := if m.parameters == [] then "" else ", " + ParamText(m.parameters);
      ghost var header := "\n" + GetIndentation() + "def " + m.name + "(self" + params + ") -> " + returnType + ":\n";
      code := "\n" + GetIndentation() + "def " + m.name + "(self";
      if m.parameters != [] {
        code := code + ", " + ParamText(m.parameters);
      }
      code := code + ") -> " + returnType + ":\n";
      assert code == header;
      Indent();
      var doc := Unlines(DocLines(GetIndentation(), m.docstring));
      var lines := EmitLines(body);
      UnlinesAppend(DocLines(GetIndentation(), m.docstring), Prefixed(GetIndentation(), body));
      code := code + (doc + lines);
      Dedent();
    }

    method GenerateFunction(name: string, parameters: seq<Param>, returnType: string, body: seq<string>,
                            docstring: string) returns (code: string)
      modifies this
      ensures indentLevel == old(indentLevel)
      ensures code == FunctionText(indentString, indentLevel, name, parameters, returnType, body, docstring)
    {
      code := GetIndentation() + "def " + name + "(";
      code := code + ParamText(parameters) + ") -> " + returnType + ":\n";
      Indent();
      var doc := Unlines(DocLines(GetIndentation(), docstring));
      var lines := EmitLines(body);
      UnlinesAppend(DocLines(GetIndentation(), docstring), Prefixed(GetIndentation(), body));
      code := code + doc + lines;
      Dedent();
    }

    method GenerateClass(name: string, attributes: seq<Param>, methods: seq<MethodSpec>, bases: seq<string>,
                         docstring: string) returns (code: string)
      modifies this
      ensures indentLevel == old(indentLevel)
      ensures code == ClassText(indentString, indentLevel, name, attributes, methods, bases, docstring)
    {
      ghost var header := GetIndentation() + "class " + name +
        (if bases == [] then "" else "(" + JoinWith(bases, ", ") + ")") + ":\n";
      code := GetIndentation() + "class " + name;
      if bases != [] {
        code := code + "(" + JoinWith(bases, ", ") + ")";
      }
      code := code + ":\n";
      assert code == header;
      Indent();
      var body := GenerateClassBody(attributes, methods, docstring);
      code := code + body;
      Dedent();
    }

    method GenerateClassBody(attributes: seq<Param>, methods: seq<MethodSpec>, docstring: string)
      returns (body: string)
      modifies this
      ensures indentLevel == old(indentLevel)
      ensures body == ClassBody(indentString, indentLevel, attributes, methods, docstring)
    {
      body := Unlines(DocLines(GetIndentation(), docstring));
      if attributes == [] && methods == [] {
        body := body + GetIndentation() + "pass\n";
      } else {
        var init := "";
        if attributes != [] {
          init := GenerateInit(attributes);
        }
        var ms := GenerateMethods(methods);
        body := body + (init + ms);
      }
    }

    /** The `__init__` of a class with attributes, with its two loops over them. */
    method GenerateInit(attributes: seq<Param>) returns (code: string)
      modifies this
      ensures indentLevel == old(indentLevel)
      ensures code == InitText(indentString, indentLevel, attributes)
    {
      var sig := seq(|attributes|, k requires 0 <= k < |attributes| => ", " + attributes[k].name + ": " + attributes[k].typ);
      var assigns := seq(|attributes|, k requires 0 <= k < |attributes| =>
        "self." + attributes[k].name + " = " + attributes[k].name);
      code := GetIndentation() + "def __init__(self";
      var params := "";
      var i := 0;
      while i < |attributes|
        invariant 0 <= i <= |attributes|
        invariant params == Concat(sig[..i])
      {
        assert sig[..i + 1][..i] == sig[..i];
        params := params + ", " + attributes[i].name + ": " + attributes[i].typ;
        i := i + 1;
      }
      assert sig[..i] == sig;
      code := code + params + ") -> None:\n";
      Indent();
      var lines := EmitLines(assigns);
      Dedent();
      code := code + lines + "\n";
    }

    method GenerateMethods(methods: seq<MethodSpec>) returns (code: string)
      modifies this
      ensures indentLevel == old(indentLevel)
      ensures code == MethodsText(indentString, indentLevel, methods)
    {
      var level := indentLevel;
      ghost var texts := seq(|methods|, k requires 0 <= k < |methods| => MethodText(indentString, level, methods[k]));
      code := "";
      var i := 0;
      while i < |methods|
        invariant 0 <= i <= |methods|
        invariant indentLevel == old(indentLevel)
        invariant code == Concat(texts[..i])
      {
        assert texts[..i + 1][..i] == texts[..i];
        var m := GenerateMethod(methods[i]);
        code := code + m;
        i := i + 1;
      }
      assert texts[..i] == texts;
    }
  }

  /** Indentation composes: `n + m` levels are `n` levels followed by `m` levels. */
  lemma {:induction false} RepeatAdd(s: string, n: nat, m: nat)
    ensures Repeat(s, n + m) == Repeat(s, n) + Repeat(s, m)
    decreases m
  {
    if m > 0 {
      RepeatAdd(s, n, m - 1);
    }
  }

  lemma {:induction false} RepeatNoNewline(s: string, n: nat)
    requires '\n' !in s
    ensures '\n' !in Repeat(s, n)
    decreases n
  {
    if n > 0 {
      RepeatNoNewline(s, n - 1);
    }
  }

  lemma {:induction false} ConcatHead(ts: seq<string>)
    requires ts != [] && ts[0] != []
    ensures |Concat(ts)| >= |ts[0]| && Concat(ts)[0] == ts[0][0]
    decreases |ts|
  {
    if |ts| > 1 {
      ConcatHead(ts[..|ts| - 1]);
    } else {
      assert Concat(ts) == Concat([]) + ts[0];
    }
  }

  /** A method's text starts on a fresh line. */
  lemma MethodsTextStartsNewline(indentString: string, level: nat, methods: seq<MethodSpec>)
    requires methods != []
    ensures |MethodsText(indentString, level, methods)| > 0 && MethodsText(indentString, level, methods)[0] == '\n'
  {
    var texts := seq(|methods|, k requires 0 <= k < |methods| => MethodText(indentString, level, methods[k]));
    assert texts[0] == MethodText(indentString, level, methods[0]);
    assert texts[0][0] == '\n';
    ConcatHead(texts);
  }

  /** `__init__` or a method, whatever follows, never reads as the `pass` line. */
  lemma MembersAreNotPass(indentString: string, level: nat, attributes: seq<Param>, methods: seq<MethodSpec>)
    requires '\n' !in indentString && !(attributes == [] && methods == [])
    ensures (if attributes == [] then "" else InitText(indentString, level, attributes)) +
      MethodsText(indentString, level, methods) != Repeat(indentString, level) + "pass\n"
  {
    var ind := Repeat(indentString, level);
    var pass := ind + "pass\n";
    var init := if attributes == [] then "" else InitText(indentString, level, attributes);
    var rest := init + MethodsText(indentString, level, methods);
    if attributes != [] {
      assert rest[|ind|] == 'd';
      assert pass[|ind|] == 'p';
    } else {
      MethodsTextStartsNewline(indentString, level, methods);
      RepeatNoNewline(indentString, level);
      assert rest[0] == '\n';
      if |ind| > 0 { assert pass[0] == ind[0]; } else { assert pass[0] == 'p'; }
    }
  }

  /**
   * A class gets its `pass` line (right after its docstring) exactly when it has neither
   * attributes nor methods, for an indentation string without newlines.
   */
  lemma ClassPassIff(indentString: string, level: nat, attributes: seq<Param>, methods: seq<MethodSpec>,
                     docstring: string)
    requires '\n' !in indentString
    ensures ClassBody(indentString, level, attributes, methods, docstring) ==
      Unlines(DocLines(Repeat(indentString, level), docstring)) + Repeat(indentString, level) + "pass\n"
      <==> attributes == [] && methods == []
  {
    var doc := Unlines(DocLines(Repeat(indentString, level), docstring));
    var pass := Repeat(indentString, level) + "pass\n";
    if !(attributes == [] && methods == []) {
      var rest := (if attributes == [] then "" else InitText(indentString, level, attributes)) +
        MethodsText(indentString, level, methods);
      assert ClassBody(indentString, level, attributes, methods, docstring) == doc + rest;
      MembersAreNotPass(indentString, level, attributes, methods);
      assert (doc + rest)[|doc|..] == rest;
      assert (doc + pass)[|doc|..] == pass;
    }
  }
}
