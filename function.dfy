/** The `Function` node (src/function.ts): a function declaration that renders itself to
    text from an `IFunction` record, reports its children's slot names, and sorts by name. */
module FunctionNode {
  import opened Renderer

  // ---------------------------------------------------------------------------------
  // The string built-ins `render` applies to each child's text.
  // ---------------------------------------------------------------------------------

  /** The characters `String.prototype.trim` strips: ECMAScript WhiteSpace (tab, vertical
      tab, form feed, the space separators and the byte order mark) and LineTerminator. */
  predicate IsTrimmable(c: char)
  {
    c == '\t' || c == '\n' || c == '\U{000B}' || c == '\U{000C}' || c == '\r' || c == ' '
    || c == '\U{00A0}' || c == '\U{1680}' || ('\U{2000}' <= c <= '\U{200A}')
    || c == '\U{2028}' || c == '\U{2029}' || c == '\U{202F}' || c == '\U{205F}'
    || c == '\U{3000}' || c == '\U{FEFF}'
  }

  /** `s` without its leading trimmable characters. */
  function TrimStart(s: string): (r: string)
    ensures |r| <= |s| && r == s[|s| - |r|..]
    ensures r == [] || !IsTrimmable(r[0])
    ensures forall i :: 0 <= i < |s| - |r| ==> IsTrimmable(s[i])
  {
    if s != [] && IsTrimmable(s[0]) then TrimStart(s[1..]) else s
  }

  /** `s` without its trailing trimmable characters. */
  function TrimEnd(s: string): (r: string)
    ensures |r| <= |s| && r == s[..|r|]
    ensures r == [] || !IsTrimmable(r[|r| - 1])
    ensures forall i :: |r| <= i < |s| ==> IsTrimmable(s[i])
  {
    if s != [] && IsTrimmable(s[|s| - 1]) then TrimEnd(s[..|s| - 1]) else s
  }

  /** `s.trim()`: neither end of the result is trimmable. */
  function Trim(s: string): (r: string)
    ensures |r| <= |s|
    ensures r == [] || (!IsTrimmable(r[0]) && !IsTrimmable(r[|r| - 1]))
  {
    TrimEnd(TrimStart(s))
  }

  /** `s.replace("\n", "\n  ")`: a string pattern replaces its first occurrence only, so
      only the first line break of `s` gains an indent. */
  function IndentFirstBreak(s: string): (r: string)
    ensures '\n' !in s ==> r == s
    ensures '\n' in s ==> |r| == |s| + 2
  {
    if s == [] then []
    else if s[0] == '\n' then "\n  " + s[1..]
    else [s[0]] + IndentFirstBreak(s[1..])
  }

  /** Whatever follows the first line break is left as it is: a third line of a child's
      text is not indented. */
  lemma {:induction false} OnlyFirstBreakIndented(a: string, b: string)
    requires '\n' !in a
    ensures IndentFirstBreak(a + "\n" + b) == a + "\n  " + b
  {
    if a == [] {
      assert a + "\n" + b == "\n" + b;
    } else {
      assert (a + "\n" + b)[1..] == a[1..] + "\n" + b;
      OnlyFirstBreakIndented(a[1..], b);
      assert [a[0]] + (a[1..] + "\n  " + b) == a + "\n  " + b;
    }
  }

  // ---------------------------------------------------------------------------------
  // The text `render` produces.
  // ---------------------------------------------------------------------------------

  /** The opening: a line break, the optional `export ` and `async ` keywords, then the
      name and the open parenthesis. */
  function Header(p: FunctionProps): string
  {
    "\n" + (if p.exported then "export " else "") + (if p.async then "async " else "")
    + ("function " + p.name + "(\n")
  }

  /** One parameter line. */
  function InputLine(input: (string, string)): string
  {
    "  " + input.0 + ": " + input.1 + ",\n"
  }

  /** The parameter lines of `inputs`, in order. */
  function InputLines(inputs: seq<(string, string)>): string
  {
    if inputs == [] then "" else InputLine(inputs[0]) + InputLines(inputs[1..])
  }

  /** The line that closes the parameter list and opens the body. */
  function Signature(p: FunctionProps): string
  {
    "): " + p.output + " {\n"
  }

  /** The body line of a child whose own render is `text`. */
  function ChildLine(text: string): string
  {
    "  " + IndentFirstBreak(Trim(text)) + "\n"
  }

  /** The body lines of `content`, in order; `childText` is what each child renders to
      in the render context. */
  function ChildLines(content: seq<Renderable>, childText: Renderable -> string): string
  {
    if content == [] then "" else ChildLine(childText(content[0])) + ChildLines(content[1..], childText)
  }

  /** The whole text of a Function node. */
  function FunctionText(p: FunctionProps, childText: Renderable -> string): string
  {
    Header(p) + InputLines(p.inputs) + Signature(p) + ChildLines(p.content, childText) + "}\n"
  }

  lemma {:induction false} InputLinesAppend(inputs: seq<(string, string)>, more: seq<(string, string)>)
    ensures InputLines(inputs + more) == InputLines(inputs) + InputLines(more)
  {
    if inputs == [] {
      assert inputs + more == more;
    } else {
      assert (inputs + more)[1..] == inputs[1..] + more;
      InputLinesAppend(inputs[1..], more);
    }
  }

  lemma {:induction false} ChildLinesAppend(content: seq<Renderable>, more: seq<Renderable>, childText: Renderable -> string)
    ensures ChildLines(content + more, childText) == ChildLines(content, childText) + ChildLines(more, childText)
  {
    if content == [] {
      assert content + more == more;
    } else {
      assert (content + more)[1..] == content[1..] + more;
      ChildLinesAppend(content[1..], more, childText);
    }
  }

  lemma InputLinesExtend(inputs: seq<(string, string)>, i: nat)
    requires i < |inputs|
    ensures InputLines(inputs[..i + 1]) == InputLines(inputs[..i]) + InputLine(inputs[i])
  {
    assert inputs[..i + 1] == inputs[..i] + [inputs[i]];
    InputLinesAppend(inputs[..i], [inputs[i]]);
  }

  lemma ChildLinesExtend(content: seq<Renderable>, childText: Renderable -> string, j: nat)
    requires j < |content|
    ensures ChildLines(content[..j + 1], childText) == ChildLines(content[..j], childText) + ChildLine(childText(content[j]))
  {
    assert content[..j + 1] == content[..j] + [content[j]];
    ChildLinesAppend(content[..j], [content[j]], childText);
  }

  /** The text `render` has built once it has written the first `i` inputs. */
  function ThroughInputs(p: FunctionProps, i: nat): string
    requires i <= |p.inputs|
  {
    Header(p) + InputLines(p.inputs[..i])
  }

  /** The text `render` has built once it has written the first `j` children. */
  function ThroughChildren(p: FunctionProps, childText: Renderable -> string, j: nat): string
    requires j <= |p.content|
  {
    Header(p) + InputLines(p.inputs) + Signature(p) + ChildLines(p.content[..j], childText)
  }

  lemma ThroughInputsStep(p: FunctionProps, i: nat)
    requires i < |p.inputs|
    ensures ThroughInputs(p, i + 1) == ThroughInputs(p, i) + ("  " + p.inputs[i].0 + ": " + p.inputs[i].1 + ",\n")
  {
    InputLinesExtend(p.inputs, i);
  }

  lemma ThroughChildrenStart(p: FunctionProps, childText: Renderable -> string)
    ensures ThroughChildren(p, childText, 0) == ThroughInputs(p, |p.inputs|) + ("): " + p.output + " {\n")
  {
    assert p.inputs[..|p.inputs|] == p.inputs;
    assert p.content[..0] == [];
  }

  lemma ThroughChildrenStep(p: FunctionProps, childText: Renderable -> string, j: nat)
    requires j < |p.content|
    ensures ThroughChildren(p, childText, j + 1)
         == ThroughChildren(p, childText, j) + ("  " + IndentFirstBreak(Trim(childText(p.content[j]))) + "\n")
  {
    ChildLinesExtend(p.content, childText, j);
    AppendAssoc(Header(p) + InputLines(p.inputs) + Signature(p), ChildLines(p.content[..j], childText),
      ChildLine(childText(p.content[j])));
  }

  lemma AppendAssoc(a: string, b: string, c: string)
    ensures a + (b + c) == a + b + c
  {
  }

  lemma ThroughChildrenEnd(p: FunctionProps, childText: Renderable -> string)
    ensures FunctionText(p, childText) == ThroughChildren(p, childText, |p.content|) + "}\n"
  {
    assert p.content[..|p.content|] == p.content;
  }

  /** `render`: grows the text piece by piece, one line per input key and one per child. */
  method Render(p: FunctionProps, childText: Renderable -> string) returns (text: string)
    ensures text == FunctionText(p, childText)
  {
    text := "\n";
    if p.exported {
      text := text + "export ";
    }
    if p.async {
      text := text + "async ";
    }
    text := text + ("function " + p.name + "(\n");
    assert p.inputs[..0] == [];
    for i := 0 to |p.inputs|
      invariant text == ThroughInputs(p, i)
    {
      ThroughInputsStep(p, i);
      text := text + ("  " + p.inputs[i].0 + ": " + p.inputs[i].1 + ",\n");
    }
    ThroughChildrenStart(p, childText);
    text := text + ("): " + p.output + " {\n");
    for j := 0 to |p.content|
      invariant text == ThroughChildren(p, childText, j)
    {
      var line := IndentFirstBreak(Trim(childText(p.content[j])));
      ThroughChildrenStep(p, childText, j);
      text := text + ("  " + line + "\n");
    }
    ThroughChildrenEnd(p, childText);
    text := text + "}\n";
  }

  // ---------------------------------------------------------------------------------
  // What the rendered text looks like.
  // ---------------------------------------------------------------------------------

  /** The text opens with a line break and closes with `}` and a line break. */
  lemma TextFraming(p: FunctionProps, childText: Renderable -> string)
    ensures var t := FunctionText(p, childText);
      |t| >= 20 && t[0] == '\n' && t[|t| - 2..] == "}\n"
  {
    var t := FunctionText(p, childText);
    var front := Header(p) + InputLines(p.inputs) + Signature(p) + ChildLines(p.content, childText);
    assert t == front + "}\n";
    assert t[0] == Header(p)[0];
  }

  /** `export ` follows the opening line break exactly when the function is exported. */
  lemma ExportIff(p: FunctionProps, childText: Renderable -> string)
    ensures var t := FunctionText(p, childText);
      |t| >= 8 && (t[1..8] == "export " <==> p.exported)
  {
    var t := FunctionText(p, childText);
    var h := Header(p);
    assert t[..|h|] == h;
    assert t[1..8] == h[1..8];
    if !p.exported {
      assert h[1] == (if p.async then 'a' else 'f');
    }
  }

  /** `async ` follows the optional `export ` exactly when the function is async. */
  lemma AsyncIff(p: FunctionProps, childText: Renderable -> string)
    ensures var t := FunctionText(p, childText);
      var k := if p.exported then 8 else 1;
      |t| >= k + 6 && (t[k..k + 6] == "async " <==> p.async)
  {
    var t := FunctionText(p, childText);
    var h := Header(p);
    var k := if p.exported then 8 else 1;
    assert t[..|h|] == h;
    assert t[k..k + 6] == h[k..k + 6];
    if !p.async {
      assert h[k] == 'f';
    }
  }

  /** After the optional keywords comes `function <name>(` and a line break: the order is
      export, async, function, and the name is the node's sort key. */
  lemma DeclarationAt(p: FunctionProps, childText: Renderable -> string)
    ensures var t := FunctionText(p, childText);
      var k := 1 + (if p.exported then 7 else 0) + (if p.async then 6 else 0);
      var decl := "function " + SortKey(p) + "(\n";
      k + |decl| == |Header(p)| <= |t| && t[k..k + |decl|] == decl
  {
    var t := FunctionText(p, childText);
    var h := Header(p);
    assert t[..|h|] == h;
  }

  lemma {:induction false} InputLinesSplit(inputs: seq<(string, string)>, i: nat)
    requires i < |inputs|
    ensures InputLines(inputs) == InputLines(inputs[..i]) + InputLine(inputs[i]) + InputLines(inputs[i + 1..])
  {
    assert inputs == inputs[..i + 1] + inputs[i + 1..];
    InputLinesAppend(inputs[..i + 1], inputs[i + 1..]);
    InputLinesExtend(inputs, i);
  }

  /** Input `i` renders as `  <key>: <type>,` on its own line, right after the header and
      the lines of the inputs before it. */
  lemma InputLineAt(p: FunctionProps, childText: Renderable -> string, i: nat)
    requires i < |p.inputs|
    ensures var t := FunctionText(p, childText);
      var at := |Header(p)| + |InputLines(p.inputs[..i])|;
      var line := "  " + p.inputs[i].0 + ": " + p.inputs[i].1 + ",\n";
      at + |line| <= |t| && t[at..at + |line|] == line
  {
    InputLinesSplit(p.inputs, i);
    var header := Header(p);
    var prior := InputLines(p.inputs[..i]);
    var line := InputLine(p.inputs[i]);
    var rest := InputLines(p.inputs[i + 1..]);
    var tail := Signature(p) + ChildLines(p.content, childText) + "}\n";
    AppendAssoc(header + (prior + line + rest) + Signature(p), ChildLines(p.content, childText), "}\n");
    AppendAssoc(header + (prior + line + rest), Signature(p), ChildLines(p.content, childText) + "}\n");
    assert FunctionText(p, childText) == header + (prior + line + rest) + tail;
    AppendAssoc(header, prior + line, rest);
    AppendAssoc(header, prior, line);
    AppendAssoc(header + prior + line, rest, tail);
    SliceMiddle(header + prior, line, rest + tail);
  }

  /** The parameter lines are followed directly by `): <output> {` and a line break. */
  lemma SignatureAt(p: FunctionProps, childText: Renderable -> string)
    ensures var t := FunctionText(p, childText);
      var at := |Header(p)| + |InputLines(p.inputs)|;
      var sig := "): " + p.output + " {\n";
      at + |sig| <= |t| && t[at..at + |sig|] == sig
  {
    var before := Header(p) + InputLines(p.inputs);
    var after := ChildLines(p.content, childText) + "}\n";
    assert FunctionText(p, childText) == before + Signature(p) + after;
  }

  lemma {:induction false} ChildLinesSplit(content: seq<Renderable>, childText: Renderable -> string, i: nat)
    requires i < |content|
    ensures ChildLines(content, childText)
         == ChildLines(content[..i], childText) + ChildLine(childText(content[i])) + ChildLines(content[i + 1..], childText)
  {
    assert content == content[..i + 1] + content[i + 1..];
    ChildLinesAppend(content[..i + 1], content[i + 1..], childText);
    ChildLinesExtend(content, childText, i);
  }

  /** Child `i` renders as two spaces, its trimmed text with the first line break indented,
      and a line break, right after the signature and the lines of the children before it. */
  lemma ChildLineAt(p: FunctionProps, childText: Renderable -> string, i: nat)
    requires i < |p.content|
    ensures var t := FunctionText(p, childText);
      var at := |Header(p)| + |InputLines(p.inputs)| + |Signature(p)| + |ChildLines(p.content[..i], childText)|;
      var line := "  " + IndentFirstBreak(Trim(childText(p.content[i]))) + "\n";
      at + |line| <= |t| && t[at..at + |line|] == line
  {
    ChildLinesSplit(p.content, childText, i);
    var opening := Header(p) + InputLines(p.inputs) + Signature(p);
    var prior := ChildLines(p.content[..i], childText);
    var line := ChildLine(childText(p.content[i]));
    var rest := ChildLines(p.content[i + 1..], childText);
    assert FunctionText(p, childText) == opening + (prior + line + rest) + "}\n";
    AppendAssoc(opening, prior + line, rest);
    AppendAssoc(opening, prior, line);
    AppendAssoc(opening + prior + line, rest, "}\n");
    SliceMiddle(opening + prior, line, rest + "}\n");
  }

  lemma SliceMiddle(a: string, b: string, c: string)
    ensures (a + b + c)[|a|..|a| + |b|] == b
  {
  }

  /** The number of occurrences of `c` in `s`. */
  function Count(s: string, c: char): nat
  {
    if s == [] then 0 else (if s[0] == c then 1 else 0) + Count(s[1..], c)
  }

  lemma {:induction false} CountAppend(a: string, b: string, c: char)
    ensures Count(a + b, c) == Count(a, c) + Count(b, c)
  {
    if a == [] {
      assert a + b == b;
    } else {
      assert (a + b)[1..] == a[1..] + b;
      CountAppend(a[1..], b, c);
    }
  }

  lemma {:induction false} CountAbsent(s: string, c: char)
    requires c !in s
    ensures Count(s, c) == 0
  {
    if s != [] {
      CountAbsent(s[1..], c);
    }
  }

  /** When no key or type holds a line break, the inputs take exactly one line each. */
  lemma {:induction false} OneLinePerInput(inputs: seq<(string, string)>)
    requires forall i :: 0 <= i < |inputs| ==> '\n' !in inputs[i].0 && '\n' !in inputs[i].1
    ensures Count(InputLines(inputs), '\n') == |inputs|
  {
    if inputs != [] {
      var x := inputs[0];
      CountAbsent(x.0, '\n');
      CountAbsent(x.1, '\n');
      CountAppend("  " + x.0 + ": " + x.1, ",\n", '\n');
      CountAppend("  " + x.0 + ": ", x.1, '\n');
      CountAppend("  " + x.0, ": ", '\n');
      CountAppend("  ", x.0, '\n');
      CountAppend(InputLine(x), InputLines(inputs[1..]), '\n');
      OneLinePerInput(inputs[1..]);
    }
  }

  // ---------------------------------------------------------------------------------
  // bespokes() and sortKey().
  // ---------------------------------------------------------------------------------

  /** The slot-name lists of the children, in content order (the `map` step). */
  function ChildBespokes(content: seq<Renderable>): (lists: seq<seq<string>>)
    ensures |lists| == |content|
    ensures forall i :: 0 <= i < |content| ==> lists[i] == content[i].Bespokes()
  {
    seq(|content|, i requires 0 <= i < |content| => content[i].Bespokes())
  }

  /** `[].concat(...lists)`: the lists joined left to right. */
  function ConcatAll(lists: seq<seq<string>>): seq<string>
  {
    if lists == [] then [] else ConcatAll(lists[..|lists| - 1]) + lists[|lists| - 1]
  }

  /** A Function reports exactly the concatenation of its children's slot names in
      content order. */
  lemma {:induction false} BespokesAreChildrenConcatenated(p: FunctionProps)
    ensures Function(p).Bespokes() == ConcatAll(ChildBespokes(p.content))
  {
    FlattenIsConcatAll(p.content);
  }

  lemma {:induction false} FlattenIsConcatAll(content: seq<Renderable>)
    ensures Flatten(content) == ConcatAll(ChildBespokes(content))
  {
    if content != [] {
      var n := |content| - 1;
      assert content == content[..n] + [content[n]];
      FlattenAppend(content[..n], [content[n]]);
      assert Flatten([content[n]]) == content[n].Bespokes();
      FlattenIsConcatAll(content[..n]);
      assert ChildBespokes(content)[..n] == ChildBespokes(content[..n]);
    }
  }

  /** A Function adds no names of its own: a name is reported exactly when some child
      reports it. */
  lemma {:induction false} BespokeFromSomeChild(p: FunctionProps, name: string)
    ensures name in Function(p).Bespokes()
        <==> exists i :: 0 <= i < |p.content| && name in p.content[i].Bespokes()
  {
    FlattenMembership(p.content, name);
  }

  lemma {:induction false} FlattenMembership(content: seq<Renderable>, name: string)
    ensures name in Flatten(content)
        <==> exists i :: 0 <= i < |content| && name in content[i].Bespokes()
  {
    if content != [] {
      FlattenMembership(content[1..], name);
      if name in Flatten(content[1..]) {
        var i :| 0 <= i < |content[1..]| && name in content[1..][i].Bespokes();
        assert content[i + 1] == content[1..][i];
      }
      if exists i :: 0 <= i < |content| && name in content[i].Bespokes() {
        var i :| 0 <= i < |content| && name in content[i].Bespokes();
        if i > 0 {
          assert content[1..][i - 1] == content[i];
        }
      }
    }
  }

  /** `sortKey()`: the function's name, whatever its flags, inputs and content. */
  function SortKey(p: FunctionProps): (key: string)
    ensures key == p.name
  {
    p.name
  }
}
