/** The rendering engine the node kinds sit on, reduced to what the node kinds rely on:
    the tagged union of node kinds with its `bespokes()` walk, and the indentation-aware
    Builder that statement-like nodes append to. The engine's own files are not part of
    this model; this module stands in for them. */
module Renderer {

  datatype Option<+T> = None | Some(value: T)

  /** A type reference as the generators pass it to the opaque node kinds
      (`Type.Anonymous`, `Type.Argument`, `Type.Optional`, `Type.Required`). */
  datatype TypeRef =
    | Anonymous(typ: string)
    | Argument(name: string, typ: string)
    | Optional(name: string, typ: string)
    | Required(name: string, typ: string)

  /** The record a `Function` node is built from (`IFunction`). The source's `inputs`
      object is an ordered sequence of (key, type) pairs, in key-iteration order. */
  datatype FunctionProps = FunctionProps(
    async: bool,
    content: seq<Renderable>,
    exported: bool,
    inputs: seq<(string, string)>,
    name: string,
    output: string)

  /** The record a `JestCall` node is built from (`IJestCall`); `testName` is optional. */
  datatype JestCallProps = JestCallProps(functionName: string, testName: Option<string>)

  /** Every node kind the modelled files create or consume. `Bespoke`, `Function`,
      `JestCall` and `ReactConstructorCall` are modelled; the others are opaque tagged
      constructors that only record the arguments the generators pass them. */
  datatype Renderable =
    | Bespoke(name: string)
    | Function(props: FunctionProps)
    | JestCall(call: JestCallProps)
    | ReactConstructorCall
      // Opaque: `Function.newSyncExported` from another revision of the Function node.
    | SyncExportedFunction(fname: string, inTypes: seq<TypeRef>, outType: TypeRef, body: seq<Renderable>)
      // Opaque: `Import.new`, `Interface.newExported`, `Class.newConcreteExported`,
      // `Method.Instance.Public.newConstructor` and `Method.Instance.Public.newSync`.
    | Import(source: string, withAllAs: string)
    | Interface(iname: string, types: seq<TypeRef>)
    | Class(cname: string, superclass: string, members: seq<Renderable>)
    | Constructor(ctorInTypes: seq<TypeRef>, ctorBody: seq<Renderable>)
    | Method(mname: string, mInTypes: seq<TypeRef>, mOutType: TypeRef, mBody: seq<Renderable>)
  {
    /** The ordered slot names a node reports. A Bespoke reports its own name; a Function
        the concatenation of its children's; a JestCall the test name if present, else the
        function name; a ReactConstructorCall nothing. For the opaque kinds this is an
        assumption: Import and Interface report nothing (an Interface's types are not
        walked), and the other containers report the walk of their children. */
    function Bespokes(): seq<string>
    {
      match this
      case Bespoke(name) => [name]
      case Function(p) => Flatten(p.content)
      case JestCall(c) => if c.testName.Some? then [c.testName.value] else [c.functionName]
      case ReactConstructorCall => []
      case SyncExportedFunction(_, _, _, body) => Flatten(body)
      case Import(_, _) => []
      case Interface(_, _) => []
      case Class(_, _, members) => Flatten(members)
      case Constructor(_, body) => Flatten(body)
      case Method(_, _, _, body) => Flatten(body)
    }
  }

  /** The slot names of a sequence of nodes, in order. */
  function Flatten(nodes: seq<Renderable>): seq<string>
  {
    if nodes == [] then [] else nodes[0].Bespokes() + Flatten(nodes[1..])
  }

  lemma {:induction false} FlattenAppend(a: seq<Renderable>, b: seq<Renderable>)
    ensures Flatten(a + b) == Flatten(a) + Flatten(b)
  {
    if a == [] {
      assert a + b == b;
    } else {
      assert (a + b)[1..] == a[1..] + b;
      FlattenAppend(a[1..], b);
    }
  }

  lemma FlattenOne(node: Renderable)
    ensures Flatten([node]) == node.Bespokes()
  {
    assert [node][1..] == [];
  }

  lemma FlattenCons(node: Renderable, rest: seq<Renderable>)
    ensures Flatten([node] + rest) == node.Bespokes() + Flatten(rest)
  {
    assert ([node] + rest)[1..] == rest;
  }

  /** A generated artifact: a destination and its ordered top-level declarations. */
  datatype Module = Module(destination: string, content: seq<Renderable>)

  /** One emitted line: plain text at an indent depth, or a bespoke slot (the marker pair
      and preserved body the Bespoke leaf writes) at an indent depth. */
  datatype Line = Text(depth: nat, text: string) | Slot(depth: nat, name: string)

  /** The names of the slots among emitted lines, in order. */
  function SlotNames(lines: seq<Line>): (names: seq<string>)
    ensures |names| <= |lines|
  {
    if lines == [] then []
    else (if lines[0].Slot? then [lines[0].name] else []) + SlotNames(lines[1..])
  }

  lemma {:induction false} SlotNamesAppend(a: seq<Line>, b: seq<Line>)
    ensures SlotNames(a + b) == SlotNames(a) + SlotNames(b)
  {
    if a == [] {
      assert a + b == b;
    } else {
      assert (a + b)[1..] == a[1..] + b;
      SlotNamesAppend(a[1..], b);
    }
  }

  lemma SlotNamesOne(line: Line)
    ensures SlotNames([line]) == if line.Slot? then [line.name] else []
  {
    assert [line][1..] == [];
  }

  /** The mutable text sink of one render pass: the lines emitted so far and the current
      indent depth. */
  class Builder {
    var lines: seq<Line>
    var depth: nat

    constructor ()
      ensures lines == [] && depth == 0
    {
      lines := [];
      depth := 0;
    }

    /** Emits `text` as a line at the current depth. */
    method AddThenNewline(text: string)
      modifies this
      ensures lines == old(lines) + [Text(old(depth), text)]
      ensures depth == old(depth)
    {
      lines := lines + [Text(depth, text)];
    }

    method Indent()
      modifies this
      ensures depth == old(depth) + 1
      ensures lines == old(lines)
    {
      depth := depth + 1;
    }

    /** Leaving a block that was never entered is a programming error. */
    method Unindent()
      requires depth > 0
      modifies this
      ensures depth == old(depth) - 1
      ensures lines == old(lines)
    {
      depth := depth - 1;
    }
  }

  /** `Bespoke.new({name}).run(context, builder)`: emits the slot for `name` at the
      builder's current depth and leaves the depth alone. */
  method RunSlot(name: string, b: Builder)
    modifies b
    ensures b.lines == old(b.lines) + [Slot(old(b.depth), name)]
    ensures b.depth == old(b.depth)
  {
    b.lines := b.lines + [Slot(b.depth, name)];
  }
}
