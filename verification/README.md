# Bookkeeping state of the tinyusdz USDA parser

tinyusdz's USDA (USD ASCII) reader is the class `AsciiParser`, a
recursive-descent parser that reports what it builds through registered
callbacks. Its header defines the parser's bookkeeping inline, and the
grammar relies on it:

- two independent LIFO stacks of diagnostics, one for errors and one for
  warnings. Each entry holds a message and the cursor (row, column) at the
  moment it was pushed. The pop is guarded, so popping an empty stack does
  nothing. A speculative production uses the pop to cancel a diagnostic it
  reported before it was abandoned;
- the stack of prim names that are currently open (`_path_stack`), and its
  query `PathStackDepth`;
- the three load flags (read through `subLayers`, `references` or `payload`)
  and the derived query `IsToplevel`;
- the callback registry: two keyed tables of prim construction and
  post-construction callbacks, and two single callback slots;
- `VariableDef`, the description of a recognised metadatum, with its
  constructor defaults and its default validator.

The model has five modules:

- `Lifo` gives the abstract value of a `std::stack`: a sequence whose top is
  its last element. It states the push and guarded-pop laws, including the
  cancellation of any number of pushes by as many pops.
- `Registry` gives `table[key] = fun` on a `std::map` and its
  last-write-wins laws.
- `VariableDefs` models `VariableDef`, its two constructors and the
  invocation of its post-parse handler.
- `AsciiParserCore` holds the class `AsciiParser`. Its methods update the
  stacks and the callback slots and tables in place. The stack methods are
  specified by the `Lifo` function they implement. The two keyed-table
  registrations are specified by `Registry.Register`. The two single-slot
  registrations state the new slot value. Only the constructor sets the
  load flags; no modelled method changes them. The datatypes `LoadState` and
  `Kind` document the header's enums, and no modelled operation uses them.
- `Expected` models `nonstd::expected`.

Callbacks and custom validators are foreign code, so they are opaque ids.
A `std::function` can be empty, and the model keeps that state as `Unset`
or `EmptyHandler`. `VariableDef() = default` leaves the post-parse handler
empty, so invoking that handler throws `std::bad_function_call`. The model
shows this as the `BadFunctionCall` outcome.

`PathStackDepth` is declared `bool` and returns the stack size, so the size
is converted to `bool`. The query therefore says whether any prim is open,
not how deep the nesting is. `SizeToBool` spells out that conversion.

## Model

| member | source | states |
|---|---|---|
| `Lifo.Push` | tinyusdz/src/ascii-parser.hh:138 | a push adds exactly one element; the new element is the top and everything below it is kept unchanged |
| `Lifo.Pop` | tinyusdz/src/ascii-parser.hh:142-146 | the guarded pop removes exactly the most recent element of a non-empty stack; popping an empty stack is a no-op |
| `Lifo.PushAll` | tinyusdz/src/ascii-parser.hh:133-139 | pushing several diagnostics one after another appends them in order, with the last one on top |
| `Lifo.PopN` | tinyusdz/src/ascii-parser.hh:141-146 | n guarded pops remove the n most recent elements, or empty the stack when it holds fewer |
| `Lifo.PopAfterPush` | tinyusdz/src/ascii-parser.hh:133-146 | a pop right after a push gives back the stack as it was before the push ("cancel recent parsing error") |
| `Lifo.CancelPushes` | tinyusdz/src/ascii-parser.hh:133-146 | any number of pushes followed by as many pops restores the stack |
| `Lifo.PopNKeepsBottom` | tinyusdz/src/ascii-parser.hh:141-146 | pops never change the entries below the ones they remove |
| `Registry.Register` | tinyusdz/src/ascii-parser.hh:274 | after `m[k] = v`, key k maps to v, the key set gains at most k, and every other key keeps its entry |
| `Registry.LastRegistrationWins` | tinyusdz/src/ascii-parser.hh:272-275 | a second registration for the same prim type overwrites the first |
| `Registry.DistinctRegistrationsCommute` | tinyusdz/src/ascii-parser.hh:284-287 | registrations for different prim types do not interfere, in either order |
| `VariableDefs.DefaultPostParseHandler` | tinyusdz/src/ascii-parser.hh:174-177 | the default validator returns success with the value true for every input string |
| `VariableDefs.TwoArgumentDefinitionDefaults` | tinyusdz/src/ascii-parser.hh:187-189 | a definition built from only a type and a name keeps that type and name, rejects the array form (`allow_array_type` is false), and its validator accepts every text |
| `VariableDefs.NewVariableDef` | tinyusdz/src/ascii-parser.hh:187-189 | the constructor `VariableDef(t, n, a = false, ph = DefaultPostParseHandler)`; its defaults are stated by `TwoArgumentDefinitionDefaults` |
| `VariableDefs.EmptyVariableDef` | tinyusdz/src/ascii-parser.hh:185 | `VariableDef() = default`; its empty type, name and handler are stated by `EmptyDefinitionHasNoHandler` |
| `VariableDefs.EmptyDefinitionHasNoHandler` | tinyusdz/src/ascii-parser.hh:181-185 | a default-constructed definition has an empty type and name, `allow_array_type` false and an empty handler, so invoking that handler fails |
| `AsciiParserCore.AsciiParser.constructor` | tinyusdz/src/ascii-parser.hh:793-833 | the member initialisers give empty stacks, cursor (0, 0), no load flag set, empty callback slots and empty tables |
| `AsciiParserCore.AsciiParser.PushError` | tinyusdz/src/ascii-parser.hh:133-139 | appends one entry holding the message and the current cursor's row and column; the warning stack, path stack and cursor are unchanged |
| `AsciiParserCore.AsciiParser.PopError` | tinyusdz/src/ascii-parser.hh:142-146 | removes exactly the most recent error, and changes nothing on an empty stack; warnings and path are unchanged |
| `AsciiParserCore.AsciiParser.PushWarn` | tinyusdz/src/ascii-parser.hh:148-154 | the same as `PushError`, but on the warning stack only; the error stack is unchanged |
| `AsciiParserCore.AsciiParser.PopWarn` | tinyusdz/src/ascii-parser.hh:157-161 | the same as `PopError`, but on the warning stack only; the error stack is unchanged |
| `AsciiParserCore.AsciiParser.IsToplevel` | tinyusdz/src/ascii-parser.hh:601-613 | true exactly when none of the referenced, sub-layered and payloaded flags is set; this covers the three accessors `IsReferenced`, `IsSubLayered` and `IsPayloaded`, which return those flags |
| `AsciiParserCore.AsciiParser.PathStackDepth` | tinyusdz/src/ascii-parser.hh:769 | true exactly when the path stack is non-empty |
| `AsciiParserCore.AsciiParser.PushPath` | tinyusdz/src/ascii-parser.hh:770 | pushes the prim name, after which `PathStackDepth` is true; the diagnostic stacks are unchanged |
| `AsciiParserCore.AsciiParser.PopPath` | tinyusdz/src/ascii-parser.hh:771-775 | the guarded pop of the innermost prim name, a no-op on an empty stack; the diagnostic stacks are unchanged |
| `AsciiParserCore.AsciiParser.RegisterPrimIdxAssignFunction` | tinyusdz/src/ascii-parser.hh:221-223 | replaces the prim-index assignment callback slot |
| `AsciiParserCore.AsciiParser.RegisterStageMetaProcessFunction` | tinyusdz/src/ascii-parser.hh:234-236 | replaces the stage-metadata callback slot |
| `AsciiParserCore.AsciiParser.RegisterPrimConstructFunction` | tinyusdz/src/ascii-parser.hh:272-275 | the construction table yields the new callback for the prim type, and every other prim type keeps its entry |
| `AsciiParserCore.AsciiParser.RegisterPostPrimConstructFunction` | tinyusdz/src/ascii-parser.hh:284-287 | the same, for the post-construction table |
| `AsciiParserCore.CancelRecentError` | tinyusdz/src/ascii-parser.hh:133-146 | on the object, `PushError(m)` followed by `PopError()` leaves the error stack as it was; it may change nothing else, so warnings, path, cursor, flags and callbacks are untouched |
| `AsciiParserCore.CancelRecentWarning` | tinyusdz/src/ascii-parser.hh:148-161 | the same round trip for `PushWarn`/`PopWarn`; only the warning stack may change, so errors, path, cursor, flags and callbacks are untouched |
| `AsciiParserCore.EnterAndLeavePrim` | tinyusdz/src/ascii-parser.hh:770-775 | `PushPath(p)` followed by `PopPath()` restores the path stack; only the path stack may change |

## Left out

- The grammar routines are only declared in `ascii-parser.hh`, and their definitions are not part of this model. These include the `ReadBasicType` overloads, `ParseMatrix`, the tuple and array parsers, `SepBy1BasicType`/`SepBy1TupleType`, `ParseDict`, the time-sample and variant parsers, `ParseBlock`, `ParseMagicHeader`, `LexFloat`, `MaybeString` and `ParseAssetIdentifier`. The declarations give no behaviour to state.
- `GetError`, `GetWarning`, `PushParserState`, `PopParserState` and `parse_stack`: these are also only declared.
- The constructors `AsciiParser()` and `AsciiParser(StreamReader *)`, and `Setup()`: only their declarations exist. The model's constructor gives just the in-class member initialisers, and the supported type and metadata tables that `Setup()` fills are not modelled.
- The stream primitives (`LookChar1`, `Char1`, `Rewind`, `SeekTo`, `CurrLoc`, `Eof`) and `StreamReader`: these are input plumbing over a class that is not part of this model.
- How the cursor advances: the stream code moves `_curr_cursor`, and that code is not shown. The field is public in the model, so a caller can set it.
- How the load flags are set: no code in the header writes `_sub_layered`, `_referenced` or `_payloaded` after their initialisers, and the code that sets them is not part of this model. `LoadState` is kept as a plain datatype that documents the header.
- `IsUSDA`, `SetBaseDir` and `SetStream`: these are file access and stream wiring.
- `_version` and the half, float and double value kinds: these are floating-point numerics.
- The bodies of the registered callbacks and of custom post-parse handlers: these are foreign `std::function`s and appear only as opaque ids.
- `StageMetas`, `PrimMetas`, `VariantContent`, `Identifier` and the value types from `prim-types.hh` and `tinyusdz.hh`: the inline core only passes them along, so they are not modelled.
- The `#if 0` blocks and the unused `PathIdentifier`: these are dead code.
