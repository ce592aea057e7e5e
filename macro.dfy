/** The scaffold generators (src/macro.ts): the statement nodes `JestCall` and
    `ReactConstructorCall`, which write into a caller's Builder, and the generators `Jest`
    and `React`, which assemble a module's content from their arguments. */
module Macro {
  import opened Renderer

  // ---------------------------------------------------------------------------------
  // JestCall
  // ---------------------------------------------------------------------------------

  /** The lines a JestCall writes when the builder stands at depth `d`: the call opens at
      `d`, the optional quoted test name and the callback header at `d + 1`, the slot at
      `d + 2`, and the callback and call close again at `d + 1` and `d`. The slot is named
      after the test if there is one, else after the function. */
  function JestCallLines(call: JestCallProps, d: nat): seq<Line>
  {
    [Text(d, call.functionName + "(")]
    + (if call.testName.Some? then [Text(d + 1, "\"" + call.testName.value + "\",")] else [])
    + [Text(d + 1, "async (): Promise<void> => {"),
       Slot(d + 2, if call.testName.Some? then call.testName.value else call.functionName),
       Text(d + 1, "},"),
       Text(d, ");")]
  }

  /** `JestCall.render`: two indents, two unindents, one slot. */
  method RenderJestCall(call: JestCallProps, b: Builder)
    modifies b
    ensures b.lines == old(b.lines) + JestCallLines(call, old(b.depth))
    ensures b.depth == old(b.depth)
  {
    b.AddThenNewline(call.functionName + "(");
    b.Indent();
    if call.testName.Some? {
      b.AddThenNewline("\"" + call.testName.value + "\",");
    }
    b.AddThenNewline("async (): Promise<void> => {");
    b.Indent();
    if call.testName.Some? {
      RunSlot(call.testName.value, b);
    } else {
      RunSlot(call.functionName, b);
    }
    b.Unindent();
    b.AddThenNewline("},");
    b.Unindent();
    b.AddThenNewline(");");
  }

  /** `identifiers()` of the statement nodes: the same names `bespokes()` reports — one
      for a JestCall, none for a ReactConstructorCall. */
  function Identifiers(node: Renderable): (names: seq<string>)
    requires node.JestCall? || node.ReactConstructorCall?
    ensures names == node.Bespokes()
    ensures node.JestCall? ==> |names| == 1
    ensures node.ReactConstructorCall? ==> names == []
  {
    match node
    case JestCall(c) => if c.testName.Some? then [c.testName.value] else [c.functionName]
    case ReactConstructorCall => []
  }

  /** A JestCall reports one name: the test name when there is one, else the function
      name. */
  lemma JestCallReportsOneName(call: JestCallProps)
    ensures JestCall(call).Bespokes()
         == [if call.testName.Some? then call.testName.value else call.functionName]
  {
  }

  /** The one slot a JestCall writes is the one name it reports. */
  lemma JestCallSlotAgrees(call: JestCallProps, d: nat)
    ensures SlotNames(JestCallLines(call, d)) == JestCall(call).Bespokes()
  {
    var lines := JestCallLines(call, d);
    var opening := [Text(d, call.functionName + "(")]
      + (if call.testName.Some? then [Text(d + 1, "\"" + call.testName.value + "\",")] else []);
    var name := if call.testName.Some? then call.testName.value else call.functionName;
    var closing := [Text(d + 1, "async (): Promise<void> => {"), Slot(d + 2, name), Text(d + 1, "},"), Text(d, ");")];
    assert lines == opening + closing;
    SlotNamesAppend(opening, closing);
    SlotNamesAppend([Text(d, call.functionName + "(")],
      if call.testName.Some? then [Text(d + 1, "\"" + call.testName.value + "\",")] else []);
    assert SlotNames(opening) == [] by {
      SlotNamesOne(Text(d, call.functionName + "("));
      if call.testName.Some? {
        SlotNamesOne(Text(d + 1, "\"" + call.testName.value + "\","));
      }
    }
    assert SlotNames(closing) == [name] by {
      var a, s, c, e := closing[0], closing[1], closing[2], closing[3];
      assert closing == [a] + ([s] + ([c] + [e]));
      SlotNamesAppend([a], [s] + ([c] + [e]));
      SlotNamesAppend([s], [c] + [e]);
      SlotNamesAppend([c], [e]);
      SlotNamesOne(a);
      SlotNamesOne(s);
      SlotNamesOne(c);
      SlotNamesOne(e);
    }
  }

  /** The text lines a JestCall writes, in order, and where its slot sits: the call's
      first and last lines at the caller's depth, everything between deeper, and the slot
      right after the callback header, two levels in. */
  lemma JestCallLayout(call: JestCallProps, d: nat)
    ensures var lines := JestCallLines(call, d);
      var k := if call.testName.Some? then 3 else 2;
      |lines| == k + 3
      && lines[0] == Text(d, call.functionName + "(")
      && (call.testName.Some? ==> lines[1] == Text(d + 1, "\"" + call.testName.value + "\","))
      && lines[k - 1] == Text(d + 1, "async (): Promise<void> => {")
      && lines[k].Slot? && lines[k].depth == d + 2
      && lines[k + 1] == Text(d + 1, "},")
      && lines[k + 2] == Text(d, ");")
      && (forall i :: 0 < i < |lines| - 1 ==> lines[i].depth > d)
      && (forall i :: 0 <= i < |lines| && i != k ==> lines[i].Text?)
  {
  }

  // ---------------------------------------------------------------------------------
  // ReactConstructorCall
  // ---------------------------------------------------------------------------------

  /** The lines a ReactConstructorCall writes at depth `d`: the super call, the opening of
      the state literal, a slot named `state` one level in, and the closing brace. */
  function ReactConstructorCallLines(d: nat): seq<Line>
  {
    [Text(d, "super(props);"), Text(d, "this.state = {"), Slot(d + 1, "state"), Text(d, "};")]
  }

  /** `ReactConstructorCall.render`: one indent, one unindent, one slot. */
  method RenderReactConstructorCall(b: Builder)
    modifies b
    ensures b.lines == old(b.lines) + ReactConstructorCallLines(old(b.depth))
    ensures b.depth == old(b.depth)
  {
    b.AddThenNewline("super(props);");
    b.AddThenNewline("this.state = {");
    b.Indent();
    RunSlot("state", b);
    b.Unindent();
    b.AddThenNewline("};");
  }

  /** A ReactConstructorCall writes a `state` slot but reports no names, so the slot is
      invisible to anything that walks `bespokes()`. */
  lemma ReactConstructorCallSlotUnreported(d: nat)
    ensures SlotNames(ReactConstructorCallLines(d)) == ["state"]
    ensures ReactConstructorCall.Bespokes() == []
  {
    var lines := ReactConstructorCallLines(d);
    var a, b, s, e := lines[0], lines[1], lines[2], lines[3];
    assert lines == [a] + ([b] + ([s] + [e]));
    SlotNamesAppend([a], [b] + ([s] + [e]));
    SlotNamesAppend([b], [s] + [e]);
    SlotNamesAppend([s], [e]);
    SlotNamesOne(a);
    SlotNamesOne(b);
    SlotNamesOne(s);
    SlotNamesOne(e);
  }

  // ---------------------------------------------------------------------------------
  // Jest
  // ---------------------------------------------------------------------------------

  /** One `test(...)` call per test name, in order (the `map` over `tests`). */
  function TestCalls(tests: seq<string>): (calls: seq<Renderable>)
    ensures |calls| == |tests|
    ensures forall i :: 0 <= i < |tests| ==> calls[i] == JestCall(JestCallProps("test", Some(tests[i])))
  {
    seq(|tests|, i requires 0 <= i < |tests| => JestCall(JestCallProps("test", Some(tests[i]))))
  }

  /** `Jest(destination, tests)`: the imports slot, the four lifecycle hooks and then one
      test call per name, in the order given. */
  function Jest(destination: string, tests: seq<string>): (m: Module)
    ensures m.destination == destination
    ensures |m.content| == 5 + |tests|
    ensures m.content[0] == Bespoke("imports")
    ensures m.content[1] == JestCall(JestCallProps("beforeAll", None))
    ensures m.content[2] == JestCall(JestCallProps("afterAll", None))
    ensures m.content[3] == JestCall(JestCallProps("beforeEach", None))
    ensures m.content[4] == JestCall(JestCallProps("afterEach", None))
    ensures forall i :: 0 <= i < |tests| ==> m.content[5 + i] == JestCall(JestCallProps("test", Some(tests[i])))
  {
    var bespokeImport := Bespoke("imports");
    var beforeAll := JestCall(JestCallProps("beforeAll", None));
    var afterAll := JestCall(JestCallProps("afterAll", None));
    var beforeEach := JestCall(JestCallProps("beforeEach", None));
    var afterEach := JestCall(JestCallProps("afterEach", None));
    Module(destination, [bespokeImport, beforeAll, afterAll, beforeEach, afterEach] + TestCalls(tests))
  }

  lemma {:induction false} TestCallsReportTests(tests: seq<string>)
    ensures Flatten(TestCalls(tests)) == tests
  {
    if tests != [] {
      assert TestCalls(tests) == [TestCalls(tests)[0]] + TestCalls(tests[1..]);
      FlattenAppend([TestCalls(tests)[0]], TestCalls(tests[1..]));
      TestCallsReportTests(tests[1..]);
    }
  }

  /** The slot names of a Jest scaffold are the fixed five followed by the test names, in
      order; duplicates among them are not rejected here. */
  lemma JestBespokes(destination: string, tests: seq<string>)
    ensures Flatten(Jest(destination, tests).content)
         == ["imports", "beforeAll", "afterAll", "beforeEach", "afterEach"] + tests
  {
    var fixed := [Bespoke("imports"), JestCall(JestCallProps("beforeAll", None)), JestCall(JestCallProps("afterAll", None)),
                  JestCall(JestCallProps("beforeEach", None)), JestCall(JestCallProps("afterEach", None))];
    assert Jest(destination, tests).content == fixed + TestCalls(tests);
    FlattenAppend(fixed, TestCalls(tests));
    HooksReport();
    TestCallsReportTests(tests);
  }

  lemma HooksReport()
    ensures Flatten([Bespoke("imports"), JestCall(JestCallProps("beforeAll", None)), JestCall(JestCallProps("afterAll", None)),
                     JestCall(JestCallProps("beforeEach", None)), JestCall(JestCallProps("afterEach", None))])
         == ["imports", "beforeAll", "afterAll", "beforeEach", "afterEach"]
  {
    var a, b, c, d, e := Bespoke("imports"), JestCall(JestCallProps("beforeAll", None)), JestCall(JestCallProps("afterAll", None)),
                         JestCall(JestCallProps("beforeEach", None)), JestCall(JestCallProps("afterEach", None));
    assert [a, b, c, d, e] == [a] + ([b] + ([c] + ([d] + [e])));
    FlattenCons(a, [b] + ([c] + ([d] + [e])));
    FlattenCons(b, [c] + ([d] + [e]));
    FlattenCons(c, [d] + [e]);
    FlattenCons(d, [e]);
    FlattenOne(e);
  }

  // ---------------------------------------------------------------------------------
  // React
  // ---------------------------------------------------------------------------------

  /** The interface names `React` derives from the component name. */
  function PropsName(reactName: string): string
  {
    "I" + reactName + "Props"
  }

  function StateName(reactName: string): string
  {
    "I" + reactName + "State"
  }

  /** The `render` method every React class gets, holding a `render` slot. */
  const RenderMethod: Renderable := Method("render", [], Anonymous("JSX.Element"), [Bespoke("render")])

  /** `React(destination, reactName, props?, state?)`. Without props the component is a
      single exported function with a `render` slot (state is then ignored). With props
      it is a props interface `I<Name>Props`, with state also a state interface
      `I<Name>State`, and a class extending `React.Component<I<Name>Props>` or
      `React.Component<I<Name>Props, I<Name>State>`; only with state does the class begin
      with a constructor. */
  method React(destination: string, reactName: string, props: Option<seq<TypeRef>>, state: Option<seq<TypeRef>>)
    returns (m: Module)
    ensures m.destination == destination
    ensures |m.content| >= 3
    ensures m.content[0] == Import("react", "React") && m.content[1] == Bespoke("imports")
    ensures props.None? ==>
      |m.content| == 3
      && m.content[2] == SyncExportedFunction(reactName, [], Anonymous("JSX.Element"), [Bespoke("render")])
    ensures props.Some? ==>
      |m.content| == (if state.Some? then 5 else 4)
      && m.content[2] == Interface(PropsName(reactName), props.value)
      && (state.Some? ==> m.content[3] == Interface(StateName(reactName), state.value))
    ensures props.Some? ==>
      var cls := m.content[|m.content| - 1];
      cls.Class? && cls.cname == reactName
      && cls.superclass == "React.Component<" + PropsName(reactName)
                           + (if state.Some? then ", " + StateName(reactName) + ">" else ">")
      && cls.members == (if state.Some? then [Constructor([Argument("props", PropsName(reactName))], [ReactConstructorCall])] else [])
                        + [RenderMethod, Bespoke("implementation")]
    ensures Flatten(m.content)
         == if props.None? then ["imports", "render"] else ["imports", "render", "implementation"]
  {
    var reactImport := Import("react", "React");
    var bespokeImport := Bespoke("imports");
    var reactClass: seq<Renderable>;
    if props.None? {
      reactClass := [SyncExportedFunction(reactName, [], Anonymous("JSX.Element"), [Bespoke("render")])];
      FunctionBranchBespokes(reactClass[0]);
    } else {
      var propsName := PropsName(reactName);
      var reactExtends := "React.Component<" + propsName;
      reactClass := [Interface(propsName, props.value)];
      var ctor: seq<Renderable> := [];
      if state.Some? {
        var stateName := StateName(reactName);
        reactExtends := reactExtends + (", " + stateName + ">");
        reactClass := reactClass + [Interface(stateName, state.value)];
        ctor := [Constructor([Argument("props", propsName)], [ReactConstructorCall])];
      } else {
        reactExtends := reactExtends + ">";
      }
      var cls := Class(reactName, reactExtends, ctor + [RenderMethod, Bespoke("implementation")]);
      ClassMembersBespokes(ctor);
      InterfacesBespokes(reactClass, cls);
      reactClass := reactClass + [cls];
      assert reactClass[|reactClass| - 1] == cls;
    }
    m := Module(destination, [reactImport, bespokeImport] + reactClass);
    assert m.content[2..] == reactClass;
    ReactHeadBespokes(reactClass);
  }

  /** The react import reports nothing and the imports slot reports itself. */
  lemma ReactHeadBespokes(reactClass: seq<Renderable>)
    ensures Flatten([Import("react", "React"), Bespoke("imports")] + reactClass) == ["imports"] + Flatten(reactClass)
  {
    var head := Import("react", "React");
    assert [head, Bespoke("imports")] + reactClass == [head] + ([Bespoke("imports")] + reactClass);
    FlattenCons(head, [Bespoke("imports")] + reactClass);
    FlattenCons(Bespoke("imports"), reactClass);
  }

  /** Without props the module's one declaration reports its `render` slot. */
  lemma FunctionBranchBespokes(f: Renderable)
    requires f.SyncExportedFunction? && f.body == [Bespoke("render")]
    ensures Flatten([f]) == ["render"]
  {
    FlattenOne(f);
    FlattenOne(Bespoke("render"));
  }

  /** The class members report `render` and `implementation`; the optional constructor,
      whose body is a ReactConstructorCall, reports nothing. */
  lemma ClassMembersBespokes(ctor: seq<Renderable>)
    requires ctor == [] || (|ctor| == 1 && ctor[0].Constructor? && ctor[0].ctorBody == [ReactConstructorCall])
    ensures Flatten(ctor + [RenderMethod, Bespoke("implementation")]) == ["render", "implementation"]
  {
    var tail := [RenderMethod, Bespoke("implementation")];
    FlattenAppend(ctor, tail);
    if ctor != [] {
      FlattenOne(ctor[0]);
      FlattenOne(ReactConstructorCall);
    }
    assert tail == [RenderMethod] + [Bespoke("implementation")];
    FlattenCons(RenderMethod, [Bespoke("implementation")]);
    FlattenOne(Bespoke("implementation"));
    FlattenOne(Bespoke("render"));
  }

  /** The interfaces in front of the class report nothing, so the props branch reports
      exactly what the class reports. */
  lemma InterfacesBespokes(interfaces: seq<Renderable>, cls: Renderable)
    requires forall i :: 0 <= i < |interfaces| ==> interfaces[i].Interface?
    ensures Flatten(interfaces + [cls]) == cls.Bespokes()
  {
    FlattenAppend(interfaces, [cls]);
    FlattenOne(cls);
    InterfacesReportNothing(interfaces);
  }

  lemma {:induction false} InterfacesReportNothing(interfaces: seq<Renderable>)
    requires forall i :: 0 <= i < |interfaces| ==> interfaces[i].Interface?
    ensures Flatten(interfaces) == []
  {
    if interfaces != [] {
      InterfacesReportNothing(interfaces[1..]);
    }
  }
}
