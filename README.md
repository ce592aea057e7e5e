# typescriptase node kinds and scaffold generators, in Dafny

typescriptase generates TypeScript source files from a tree of node descriptions
(`Renderable`s). Its `Bespoke` leaf marks a named slot whose body a human writes and which
survives regeneration. This project models two files that sit on top of the rendering engine:

- `src/function.ts`, the `Function` node. It serialises a function declaration to text
  (`render`), reports its children's slot names (`bespokes`) and sorts by its name
  (`sortKey`).
- `src/macro.ts`, the scaffold generators:
  - the statement nodes `JestCall` and `ReactConstructorCall`, which write lines and one
    slot into a caller-owned `Builder`;
  - `Jest`, which assembles a test-suite module;
  - `React`, which assembles a component module whose shape depends on whether props
    and state are given.

The engine itself is not part of this model. `renderer.dfy` stands in for it:

- `Renderable` is one tagged union over every node kind these files create or consume.
  Its `Bespokes()` is the dispatch of `bespokes()`.
- `Builder` is a class holding the emitted lines and the indent depth. `AddThenNewline`,
  `Indent` and `Unindent` change only those two fields. `Unindent` below depth 0 is a
  programming error, so it is a precondition.
- An emitted line is either text at a depth or a slot at a depth. `RunSlot` stands for
  `Bespoke.new({name}).run(context, builder)` and appends one slot at the current depth.

Files:

- `renderer.dfy` (module `Renderer`): the engine stand-in described above.
- `function.dfy` (module `FunctionNode`): `src/function.ts`.
- `macro.dfy` (module `Macro`): `src/macro.ts`.

`Function.render` is imperative: a method grows the text line by line, with one loop over
the inputs and one over the children. It is proved equal to `FunctionText`, a declarative
description of the whole text. The lemmas then read that text: the framing, where
`export ` and `async ` appear, each parameter line and each child line. The child lines
keep a quirk of the source. `String.replace` with a string pattern replaces only the first
match, so only the first line break of a child's trimmed text gets indented
(`OnlyFirstBreakIndented`).

`JestCall.render` and `ReactConstructorCall.render` are methods on a `Builder`. Each states
the exact lines appended and that the depth is restored. Lemmas relate those lines to
`bespokes()`. A JestCall's single slot is the single name it reports. A
ReactConstructorCall writes a slot named `state` but reports no names; the model records
this as written.

## Model

| member | source | states |
|---|---|---|
| `FunctionNode.Render` | src/function.ts:31-57 | the text built step by step is exactly `FunctionText`: the header, one line per input, the signature line, one line per child, then `}` and a line break |
| `FunctionNode.TextFraming` | src/function.ts:32-56 | the rendered text starts with a line break and ends with `}` followed by a line break |
| `FunctionNode.ExportIff` | src/function.ts:33-35 | `export ` follows the opening line break if and only if the function is exported |
| `FunctionNode.AsyncIff` | src/function.ts:36-38 | `async ` follows the optional `export ` if and only if the function is async |
| `FunctionNode.DeclarationAt` | src/function.ts:32-39 | after the optional keywords comes `function <sortKey>(` and a line break, which ends the header; so export precedes async, which precedes the declaration |
| `FunctionNode.InputLineAt` | src/function.ts:40-42 | input i appears as `  <key>: <type>,` plus a line break, right after the header and the lines of inputs 0..i-1 |
| `FunctionNode.OneLinePerInput` | src/function.ts:40-42 | when no key or type holds a line break, the parameter block holds exactly one line break per input |
| `FunctionNode.SignatureAt` | src/function.ts:43 | the parameter lines are followed directly by `): <output> {` and a line break |
| `FunctionNode.ChildLineAt` | src/function.ts:44-53 | child i appears as two spaces, its trimmed render with the first line break indented, and a line break, right after the signature and the lines of children 0..i-1 |
| `FunctionNode.TrimStart` | src/function.ts:49 | the result is a suffix of the input, does not start with JavaScript whitespace, and everything removed is whitespace |
| `FunctionNode.TrimEnd` | src/function.ts:49 | the result is a prefix of the input, does not end with JavaScript whitespace, and everything removed is whitespace |
| `FunctionNode.Trim` | src/function.ts:49 | the trimmed text is no longer than the input and neither of its ends is JavaScript whitespace |
| `FunctionNode.IndentFirstBreak` | src/function.ts:50 | text without a line break is unchanged; otherwise exactly two characters are added |
| `FunctionNode.OnlyFirstBreakIndented` | src/function.ts:50 | for `a + "\n" + b` with no break in `a`, the result is `a + "\n  " + b`: later breaks in `b` are not indented |
| `Renderer.Renderable.Bespokes` | src/function.ts:24-29 | the dispatch of `bespokes()` over the node kinds, with `Flatten` as the walk of a child list. It also models `JestCall.bespokes` (src/macro.ts lines 29-35) and `ReactConstructorCall.bespokes` (src/macro.ts lines 113-115). It has no contract of its own: its behaviour is stated by `BespokesAreChildrenConcatenated` and `BespokeFromSomeChild` (Function), `JestCallReportsOneName` (JestCall) and `ReactConstructorCallSlotUnreported` (ReactConstructorCall) |
| `FunctionNode.ChildBespokes` | src/function.ts:25-26 | the mapped list has one entry per child, and entry i is child i's `bespokes()` |
| `FunctionNode.BespokesAreChildrenConcatenated` | src/function.ts:24-29 | a Function's `bespokes()` equals the left-to-right concatenation of its children's lists |
| `FunctionNode.BespokeFromSomeChild` | src/function.ts:24-29 | a name is reported by a Function if and only if some child reports it, so the node adds no names of its own |
| `FunctionNode.SortKey` | src/function.ts:59-61 | the sort key is the function's name, whatever its flags, inputs and content |
| `Renderer.RunSlot` | src/macro.ts:55-63 | running a Bespoke appends one slot with that name at the current depth and leaves the depth unchanged |
| `Macro.RenderJestCall` | src/macro.ts:45-69 | appends exactly `JestCallLines` for the builder's starting depth and restores that depth: two indents balanced by two unindents |
| `Macro.JestCallLayout` | src/macro.ts:46-68 | the lines in order: `<functionName>(`, the quoted test name only if one is given, the async callback header, the slot two levels in, `},`, `);`; the first and last are at the caller's depth, all between are deeper, and only the slot is not text |
| `Macro.JestCallSlotAgrees` | src/macro.ts:29-63 | the slot names among the lines written equal the node's `bespokes()`, so the one slot is the name it reports |
| `Macro.JestCallReportsOneName` | src/macro.ts:29-35 | `bespokes()` is the singleton test name when given, else the singleton function name |
| `Macro.Identifiers` | src/macro.ts:37-43 | `identifiers()` equals `bespokes()`: one name for a JestCall, none for a ReactConstructorCall |
| `Macro.RenderReactConstructorCall` | src/macro.ts:121-132 | appends the super call, the opening of the state literal, a `state` slot one level in and the closing brace; the depth is restored |
| `Macro.ReactConstructorCallSlotUnreported` | src/macro.ts:113-128 | the lines written hold the one slot `state`, while `bespokes()` is empty |
| `Macro.TestCalls` | src/macro.ts:94-99 | one `test` call per test name, with that name, in the given order |
| `Macro.Jest` | src/macro.ts:75-105 | content has 5 + the number of tests entries: the imports slot, beforeAll, afterAll, beforeEach, afterEach, then the test calls in order; the destination is passed through |
| `Macro.JestBespokes` | src/macro.ts:79-104 | the module's slot names are imports, beforeAll, afterAll, beforeEach, afterEach and then the test names, in order; duplicates are not rejected |
| `Macro.React` | src/macro.ts:138-234 | content is the react import and the imports slot, then: without props, one exported function with a render slot; with props, `I<Name>Props` and, with state, `I<Name>State`, then a class extending `React.Component<I<Name>Props>` or `React.Component<I<Name>Props, I<Name>State>` that starts with a constructor only when state is given; the reported slot names are imports and render, plus implementation when props are given |
| `Macro.ReactHeadBespokes` | src/macro.ts:144-150 | the react import reports nothing and the imports slot reports `imports`, ahead of whatever the rest of the module reports |
| `Macro.FunctionBranchBespokes` | src/macro.ts:152-166 | without props, the one exported function reports exactly `render` |
| `Macro.ClassMembersBespokes` | src/macro.ts:187-223 | the class members report `render` and `implementation`, and the optional constructor, whose body is a ReactConstructorCall, reports nothing |
| `Macro.InterfacesBespokes` | src/macro.ts:170-227 | in the props branch the interfaces report nothing, so the branch reports exactly what the class reports; like `InterfacesReportNothing`, this rests on the assumption that Interface nodes report no slot names |
| `Macro.InterfacesReportNothing` | src/macro.ts:171-186 | a run of interfaces reports no slot names; this rests on the modelling assumption that an Interface node reports none and does not walk its types (see "Left out") |
| `Macro.HooksReport` | src/macro.ts:79-93 | the imports slot and the four hooks report imports, beforeAll, afterAll, beforeEach, afterEach, in that order |
| `Macro.TestCallsReportTests` | src/macro.ts:94-99 | the test calls report exactly the test names, in order |

## Left out

- The rendering engine (`./builder`, `./bespoke`, `./renderer`, `./module`) is not part of
  this model. Emitted lines keep their depth instead of concrete indentation text, and a
  slot stands for the marker pair and preserved body the Bespoke leaf writes.
- Module writing, reading the previous file, marker extraction and the pipeline are left
  out. They live in the engine and perform file I/O.
- The render context (`IContext`) is left out. `Function.render` takes the children's
  rendered text as a parameter `childText`, standing for `content.render(context)`. The
  statement nodes ignore the context.
- `Class`, `Interface`, `Method`, `Import` and the `Function.newSyncExported` variant are
  opaque tagged constructors. They record only the arguments the generators pass, and
  their rendering is not modelled. Their sources are not part of this model, so their
  `bespokes()` is an assumption:
  - Interface and Import nodes and type references report no slot names. An Interface's
    `types` are not walked. `Type` is not a node kind here at all: a `TypeRef` is a plain
    value with no `Bespokes()`.
  - `Class`, the constructor and instance methods, and the sync exported function report
    the walk of their children, as `Function` does.
  The slot-name results for React (`React`, `InterfacesBespokes`,
  `InterfacesReportNothing`) rest on these assumptions.
- The `Function` node's `inputs` object is an ordered sequence of (key, type) pairs in
  key-iteration order. JavaScript's rule that integer-like keys come first is not
  modelled. Key uniqueness is not required either: a JavaScript object cannot hold a key
  twice, but the sequence may repeat one, so the model's domain is wider than the
  source's. The proved properties hold for every sequence.
- The empty `verify` hooks of `JestCall` and `ReactConstructorCall` are left out, as are
  the static `new` factories, which only wrap the constructor.
- The uniqueness of slot names in a Jest module is not asserted. The source does not check
  for a test named `imports` or for repeated test names.
- `Module.new` is represented by its two fields. Any sorting of a module's declarations
  by sort key happens in the engine and is not modelled.
- FunctionNode.IndentFirstBreak: its own contract states only the unchanged and
  length cases. The exact result is stated by `OnlyFirstBreakIndented`.
- FunctionNode.Trim: its own contract states only the ends of the result. The exact
  removal of leading and trailing whitespace is stated by `TrimStart` and `TrimEnd`.
