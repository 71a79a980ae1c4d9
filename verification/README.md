# Vaca core in Dafny

Vaca is a small Lisp-like language run by a tree-walking interpreter. Its repository keeps
several drafts of the same core side by side. This project models that shared core and proves
what each draft's code promises:

- **Symbols.** `Symbols` covers the newest draft's local and namespaced symbols. Such a symbol
  is mutable exactly when its name ends in `'`. `FlatSymbols` covers the older draft, where a
  symbol is its text and a namespace is the part before the first `/`.
- **Scope-stack symbol tables.** Each table is a class whose methods update the scope stack in
  place, proved against a function on the stack.
  - `TrackTables` is the build step's presence table.
  - `StackTables` is the linear runner's value table, where a mutable symbol is visible only in
    the innermost scope.
  - `ParentTables` is the parent-linked runtime table.
  - `FlatTables` holds the three flat tables of the older drafts.
  - `ExternalTables` and `LibTables` are the keyed tables of libraries.
- **The build step's symbol validator.** `SymbolValidation` walks the form tree, opening and
  closing scopes, and gathers failures into `Top`, `Stream` and `MultiStream` errors
  (`RunErrors`, `BuildErrors`). `ValidationExamples` states the validator's outcome on the
  programs of its own test suite.
- **The newest evaluator.** This is the linear runner over build forms:
  - `LinearEval` holds the functions that specify it, including closure realisation,
    argument binding and partial application;
  - `LinearRunner` holds the methods that run it on a `SymbolTableStack`;
  - `LinearProperties` holds what is proved about it;
  - `Callables` holds the function and macro records.
- **The earlier evaluator.** This is the tree-walking `Form::eval` with pending calls and
  `strict_eval`. It is modelled together with the standard library's natives: `if`,
  `assert`, the comparisons, `&`, or, `nth`, `map`, `reduce`, `scan`, `concat`, `prepend`,
  `append` and the pipe macro.
  - `ClassicEval` holds the specifying functions.
  - `ClassicRunner` holds the methods over a mutable table.
  - `ClassicProperties` holds the lemmas.
  - `ClassicForms`, `ClassicValues` and `ClassicNatives` hold forms, values and native
    operators.
  - `ClassicLibrary` holds the registration of the library by `create_table`.
- **Result conversions.** `ExecResults` covers them.

Evaluation is written as state-passing functions. Each takes a fuel bound, a stack of scopes
and a form, and returns the outcome with the new stack. The outcome is one of:

- a value;
- an error stack;
- a `Panic`, for a Rust `unwrap` on nothing, `unreachable!`, `todo!` or `panic!`;
- `OutOfFuel`.

Every method that changes a table is proved to return what the function gives, and to leave
the table the function gives. The function's properties are then proved as lemmas.

## Model

| member | source | states |
|---|---|---|
| Symbols.ToText | vaca-core/src2/symbol.rs:55-61 | the text of a symbol ends with its name; an external symbol's text starts with its namespace and a `/` |
| Symbols.IsMutable | vaca-core/src2/symbol.rs:26-30 | a symbol is mutable exactly when its name ends with `'`, whatever its namespace |
| Symbols.Export | vaca-core/src2/symbol.rs:18-23 | exporting gives an external symbol with the new namespace and the same name, local or not, so mutability is kept |
| Symbols.FromText | vaca-core/src2/symbol.rs:33-53 | a non-empty text becomes external exactly when it starts with a letter and holds a `/`; the namespace is then the slash-free part before the first `/`; otherwise the whole text is the local name |
| Symbols.ToTextFromText | vaca-core/src2/symbol.rs:33-61 | parsing a text and displaying the symbol gives the text back |
| Symbols.MutableFromText | vaca-core/src2/symbol.rs:26-53 | a parsed symbol is mutable exactly when its text ends with `'` |
| Symbols.FromTextToText | vaca-core/src2/symbol.rs:33-61 | displaying a canonical symbol and parsing the text gives the symbol back |
| FlatSymbols.AddNamespace | vaca-core/src/symbol.rs:9-11 | the new text is the namespace, a `/`, then the old text |
| FlatSymbols.SplitNamespace | vaca-core/src/symbol.rs:14-19 | the namespace is slash-free and namespace, `/`, symbol rebuild the text; without a `/` the symbol part is empty |
| FlatSymbols.SplitAddNamespace | vaca-core/src/symbol.rs:9-19 | splitting a symbol just given a slash-free namespace recovers the namespace and the symbol |
| FlatSymbols.AddSplitNamespace | vaca-core/src/symbol.rs:9-19 | adding back the namespace split off a symbol with a `/` rebuilds it |
| FlatSymbols.ToText | vaca-core/src/symbol.rs:34-38 | the text rebuilds the symbol; a text with a `/` is the namespace, a `/` and the rest |
| Floats.FloatCmp | vaca-core/src/value.rs:107 | comparing floats gives no order exactly when one side is NaN, and equality exactly when both are the same number |
| Floats.FromInt | vaca-core/src/value.rs:106-108 | an integer widened to a float is the same number |
| Floats.FloatText | vaca-core/src/value.rs:87 | a float's text is never empty |
| Forms.FromLiteral | vacavm/src/runner/linear.rs:31-41 | each literal kind gives the value of the same kind holding the same payload |
| ExecResults.Unwrap | vaca-core/src2/value/result.rs:14-19 | success continues with its value, failure breaks with its message |
| ExecResults.Into | vaca-core/src2/value/result.rs:22-29 | success maps to success and failure to failure |
| ExecResults.From | vaca-core/src2/value/result.rs:31-38 | success maps to success and failure to failure |
| ExecResults.IntoFrom | vaca-core/src2/value/result.rs:22-38 | converting a plain result to an execution result and back is the identity |
| ExecResults.FromInto | vaca-core/src2/value/result.rs:22-38 | converting an execution result to a plain result and back is the identity |
| ExecResults.UnwrapAgreesWithInto | vaca-core/src2/value/result.rs:14-29 | the control-flow signal carries the same value or message as the plain result |
| Scopes.FindFirst | vacavm/src/runner/linear/table.rs:40 | the value found is the binding of the first scope that has the key; none exactly when no scope has it |
| Scopes.FindLast | vaca-core/src/table.rs:40 | the value found is the binding of the last scope that has the key; none exactly when no scope has it |
| Scopes.FindFirstAt | vacavm/src/runner/linear/table.rs:40 | when scope `i` is the first to hold the key, the search finds its binding |
| Scopes.FindLastAt | vaca-core/src/table.rs:40 | when scope `i` is the last to hold the key, the search finds its binding |
| RunErrors.Rethrow | vaca-core/src/run/error.rs:45-84 | a failure passed on under another value type keeps its kind and its error or reason |
| RunErrors.FromString | vaca-core/src/run/error.rs:37-41 | a plain message becomes a top error without a source |
| RunErrors.Display | vaca-core/src/run/error.rs:45-84 | a top error reads `Caused by: ` then its source on its own line and `Due to ` and the message, or the message alone; a stream with a note ends with `Note: ` and the note; a multi-stream starts with its origin line and ends with the closing words |
| RunErrors.IntoResult | vaca-core/src/run/error.rs:26-34 | no error gives the value; one error is reported as it is; several are gathered, in order, into a multi-stream caused by `program` |
| RunErrors.IntoResultNotInjective | vaca-core/src/run/error.rs:26-34 | one multi-stream caused by `program` and the list of errors it holds give the same result |
| RunErrors.LinesSplit | vaca-core/src/run/error.rs:73-75 | the listing of gathered errors is the listing of any prefix followed by that of the rest |
| RunErrors.ListedAt | vaca-core/src/run/error.rs:73-75 | the line of the `k`-th error sits between the lines of the errors before it and after it |
| RunErrors.TopDisplay | vaca-core/src/run/error.rs:48-56 | a top error's text starts with `Caused by: ` and ends with its message; with a source, the source comes first on its own line |
| RunErrors.MultiStreamListsEach | vaca-core/src/run/error.rs:71-81 | a multi-stream shows its origin, every gathered error on its own line in order, its note, then the closing line |
| BuildErrors.LinesSplit | vaca-core/src/build/error.rs:38-48 | the listing of gathered errors is the listing of any prefix followed by that of the rest |
| BuildErrors.ListedAt | vaca-core/src/build/error.rs:38-48 | the line of the `k`-th error sits between the lines of the errors before it and after it |
| BuildErrors.Display | vaca-core/src/build/error.rs:23-48 | a top error reads `Caused at: `, its source, a line break, `Due to ` and the message; a stream without a note ends with `Caused at: ` and its place; a multi-stream starts with its origin line and ends with the closing words |
| BuildErrors.MultiStreamListsEach | vaca-core/src/build/error.rs:38-48 | a multi-stream shows its origin, every gathered error on its own line in order, its note, then the closing line |
| BuildErrors.TopDisplay | vaca-core/src/build/error.rs:26-29 | a top error shows `Caused at: `, its source on its own line, then `Due to ` and its message |
| BuildErrors.StreamDisplay | vaca-core/src/build/error.rs:30-37 | a stream starts with the wrapped error's text on its own line and ends with its note |
| Callables.NewFunction | vaca-core/src/run/value/function.rs:14-21 | a new function misses all its parameters and holds no arguments |
| Callables.PartialFunction | vaca-core/src/run/value/function.rs:27-33 | partial application lowers the arity by the number of arguments and appends them to the held ones, keeping the parameter count invariant |
| Callables.PartialFunctionTwice | vaca-core/src/run/value/function.rs:27-33 | applying arguments in two steps is applying them all at once |
| Callables.SpanFromArgs | vaca-core/src/run/value/function.rs:35-37 | the text of the parameters separated by single spaces: empty without parameters, the one name alone, otherwise the names plus one space between each two |
| Callables.JoinLength | vaca-core/src/run/value/function.rs:35-37 | a joined text is as long as its items plus one separator between each two |
| Callables.NewMacro | vaca-core/src/run/value/macros.rs:14-21 | a new macro misses all its parameters and holds no forms |
| Callables.PartialMacro | vaca-core/src/run/value/macros.rs:27-33 | partial application lowers the arity by the number of forms and appends them, keeping the parameter count invariant |
| Callables.PartialMacroTwice | vaca-core/src/run/value/macros.rs:27-33 | applying forms in two steps is applying them all at once |
| StackTables.PushScope | vacavm/src/runner/linear/table.rs:25-27 | a new empty scope becomes the innermost one in front of the old stack |
| StackTables.PopScope | vacavm/src/runner/linear/table.rs:29-31 | the innermost scope goes; an empty stack stays empty |
| StackTables.LookupIn | vacavm/src/runner/linear/table.rs:33-45 | a mutable symbol is found only in the innermost scope (no scope at all panics); an immutable one is found exactly when some scope holds it; each miss has its own error |
| StackTables.IsActionIn | vacavm/src/runner/linear/table.rs:47-56 | a mutable symbol is always an action; an immutable one succeeds exactly when some scope holds it, and its miss reports an undefined "mutable" symbol |
| StackTables.BindIn | vacavm/src/runner/linear/table.rs:58-71 | binding panics without a scope, succeeds exactly for a mutable symbol or one the innermost scope lacks, then changes only the innermost scope, and a mutable entry is always an action; a refusal leaves the stack unchanged |
| StackTables.BindThenLookup | vacavm/src/runner/linear/table.rs:33-71 | a symbol just bound is looked up to its new value |
| StackTables.MutableRebind | vacavm/src/runner/linear/table.rs:58-61 | a mutable symbol can be bound again, and the new value wins |
| StackTables.NoImmutableRebind | vacavm/src/runner/linear/table.rs:63-64 | an immutable symbol bound in the innermost scope cannot be bound there again, and the refusal changes nothing |
| StackTables.InnermostWins | vacavm/src/runner/linear/table.rs:40-43 | an immutable symbol reads its innermost binding |
| StackTables.NewScopeVisibility | vacavm/src/runner/linear/table.rs:33-45 | in a new scope no mutable symbol is visible, while immutable lookups are unchanged |
| StackTables.MutableIsAction | vacavm/src/runner/linear/table.rs:58-61 | a mutable entry is an action whatever flag it was bound with |
| StackTables.BindKeepsOthers | vacavm/src/runner/linear/table.rs:58-71 | binding a symbol does not change any other symbol's lookup |
| StackTables.SymbolTableStack.constructor | vacavm/src/runner/linear/table.rs:21-23 | a new table has no scope |
| StackTables.SymbolTableStack.CreateScope | vacavm/src/runner/linear/table.rs:25-27 | the stack becomes `PushScope` of the old one |
| StackTables.SymbolTableStack.DropScope | vacavm/src/runner/linear/table.rs:29-31 | the stack becomes `PopScope` of the old one |
| StackTables.SymbolTableStack.Lookup | vacavm/src/runner/linear/table.rs:33-45 | the result is `LookupIn` of the stack |
| StackTables.SymbolTableStack.IsAction | vacavm/src/runner/linear/table.rs:47-56 | the result is `IsActionIn` of the stack |
| StackTables.SymbolTableStack.Assign | vacavm/src/runner/linear/table.rs:58-71 | result and new stack are `BindIn` of the old stack |
| TrackTables.Pushed | pasto/src/build/table.rs:19-21 | a new empty scope becomes the innermost one in front of the old ones |
| TrackTables.Popped | pasto/src/build/table.rs:24-26 | the innermost scope goes; an empty table stays empty |
| TrackTables.IsAssignedIn | pasto/src/build/table.rs:32-42 | a symbol in the innermost scope is assigned; a mutable symbol is assigned only there; an immutable one is assigned exactly when some scope holds it; an empty table assigns nothing |
| TrackTables.CanAssignIn | pasto/src/build/table.rs:48-58 | a mutable symbol can always be assigned; an immutable one only when the innermost scope lacks it; in a table of one scope an immutable symbol can be assigned exactly when it is not assigned yet |
| TrackTables.AssignIn | pasto/src/build/table.rs:48-68 | an assignment passes exactly when it is allowed (always for a mutable symbol, otherwise when the innermost scope lacks it) and then adds the symbol to the innermost scope only; a refusal reports a reassignment and changes nothing |
| TrackTables.ValidateIn | pasto/src/build/table.rs:32-42 | validation passes exactly when the symbol is visible (a mutable one in the innermost scope, an immutable one in any scope) |
| TrackTables.AssignThenValidate | pasto/src/build/table.rs:32-82 | a symbol just assigned validates |
| TrackTables.NoImmutableRebind | pasto/src/build/table.rs:48-68 | an immutable symbol cannot be assigned twice in one scope, and the refusal changes nothing |
| TrackTables.ImmutableVisibleInside | pasto/src/build/table.rs:32-58 | an immutable symbol stays visible in a new inner scope and may be shadowed there |
| TrackTables.MutableHiddenInside | pasto/src/build/table.rs:32-42 | a mutable symbol is not visible from a new inner scope |
| TrackTables.AssignKeepsVisibility | pasto/src/build/table.rs:32-68 | assigning never hides a visible symbol |
| TrackTables.CreateDropRestores | pasto/src/build/table.rs:19-26 | creating and then dropping a scope gives the table back |
| TrackTables.TrackTable.constructor | pasto/src/build/table.rs:14-16 | a new table has no scope |
| TrackTables.TrackTable.CreateScope | pasto/src/build/table.rs:19-21 | the scopes become `Pushed` of the old ones |
| TrackTables.TrackTable.DropScope | pasto/src/build/table.rs:24-26 | the scopes become `Popped` of the old ones |
| TrackTables.TrackTable.Assign | pasto/src/build/table.rs:61-68 | result and new scopes are `AssignIn` of the old ones |
| TrackTables.TrackTable.Validate | pasto/src/build/table.rs:72-82 | passes exactly when the symbol is visible, as `ValidateIn` says, and the table is unchanged |
| ParentTables.SymbolTable.LookupValue | vaca-core/src/run/table.rs:37-57 | a mutable symbol is looked for in the table's own mutables only; an immutable one in its scope, then in its parent's lookup, failing at the root |
| ParentTables.SymbolTable.constructor | vaca-core/src/run/table.rs:17-35 | `Root` gives a table with no parent and no bindings; `FromParent` an empty table sharing the given parent |
| ParentTables.SymbolTable.Lookup | vaca-core/src/run/table.rs:37-57 | the result is `LookupValue`, climbing the parent chain one table at a time |
| ParentTables.SymbolTable.Assign | vaca-core/src/run/table.rs:59-72 | a mutable symbol is (re)bound in the table's mutables; an immutable one is bound in its scope unless already there, which is refused without change; parents are never touched |
| ParentTables.LookupAlongChain | vaca-core/src/run/table.rs:37-57 | an immutable lookup equals a search of the chain's scopes from this table to the root, nearest first, failing only when no table of the chain has the symbol |
| ParentTables.ChildShadowsParent | vaca-core/src/run/table.rs:44-45 | a child's own binding hides any binding of its parents |
| ParentTables.FreshChildLookup | vaca-core/src/run/table.rs:27-57 | a fresh child looks immutable symbols up as its parent does, but finds no mutable symbol, whatever the parent holds |
| ParentTables.AssignThenLookup | vaca-core/src/run/table.rs:37-72 | after assigning, lookup gives the value; a second assignment of a mutable symbol replaces it, of an immutable one is refused and the first value stays |
| ExternalTables.ExportIn | vaca-core/src/run/external.rs:20-30 | exporting is refused, without change, exactly when the name is already exported; otherwise the name is bound to the value |
| ExternalTables.GetIn | vaca-core/src/run/external.rs:33-36 | `get` finds a value exactly for an exported name, and it is that name's value |
| ExternalTables.ExportAll | vaca-core/src/run/external.rs:20-30 | a run of exports never removes or changes a name already exported |
| ExternalTables.ExternalTable.constructor | vaca-core/src/run/external.rs:13-15 | a new table exports nothing |
| ExternalTables.ExternalTable.ExportSymbol | vaca-core/src/run/external.rs:20-30 | result and new contents are `ExportIn` of the old contents |
| ExternalTables.ExternalTable.Get | vaca-core/src/run/external.rs:33-36 | the result is `GetIn` of the contents |
| ExternalTables.NewTableEmpty | vaca-core/src/run/external.rs:13-15 | no name is found in a new table |
| ExternalTables.ExportThenGet | vaca-core/src/run/external.rs:20-36 | exporting an unused name succeeds, `get` then returns its value, and other names are unaffected |
| ExternalTables.ExportTwice | vaca-core/src/run/external.rs:23-24 | a second export of a name is refused and the first value stays |
| ExternalTables.FirstExportWins | vaca-core/src/run/external.rs:20-30 | after a run of exports, a name holds the value of its first export |
| LibTables.FromEntries | vaca-core/src/run/library/table.rs:18-25 | the table holds exactly the symbols of the entries |
| LibTables.LibTable.constructor | vaca-core/src/run/library/table.rs:18-25 | the assignments are the entries inserted in order |
| LibTables.LibTable.Lookup | vaca-core/src/run/library/table.rs:30-32 | an exported symbol gives its value; any other symbol panics with the source's message |
| LibTables.LastEntryWins | vaca-core/src/run/library/table.rs:20-22 | a symbol's value is that of its last entry |
| LibTables.DuplicateEntry | vaca-core/src/run/library/table.rs:20-22 | of two entries for one symbol, the second is kept |
| FlatTables.PushFrame | vaca-core/src/table.rs:23-25 | a new empty scope goes after the old ones, which stay |
| FlatTables.PopFrame | vaca-core/src/table.rs:29-31 | the last scope goes; an empty stack stays empty |
| FlatTables.RegisterIn | vaca-core/src/table.rs:34-36 | registering panics without a scope; otherwise it rebinds the symbol in the innermost scope, replacing any binding there, and changes nothing else |
| FlatTables.LookupLast | vaca-core/src/table.rs:39-45 | the lookup succeeds exactly when some scope binds the symbol, with the binding of the innermost such scope; a miss reports the undefined symbol |
| FlatTables.RfindIn | src/runtime/data/symbol_table.rs:37-43 | the same search with the runtime draft's message |
| FlatTables.LookupTop | vaca-vm/src/table.rs:39-44 | the virtual machine's lookup panics without a scope and otherwise consults the innermost scope only |
| FlatTables.RegisterThenLookup | vaca-core/src/table.rs:34-45 | in each of the three tables, a symbol just registered is looked up to its value |
| FlatTables.RegisterOverwrites | vaca-core/src/table.rs:34-36 | registering twice is registering the second value; no rebinding is refused |
| FlatTables.InnermostLookup | vaca-core/src/table.rs:39-45 | the innermost binding wins, in both the core and the runtime table |
| FlatTables.ScopeDropRestores | vaca-core/src/table.rs:23-45 | a scope opened, written and dropped leaves the table, and every lookup, as before |
| FlatTables.NewScopeHidesOuter | vaca-vm/src/table.rs:23-44 | in a new scope the virtual machine's lookup finds nothing, whatever the outer scopes hold |
| FlatTables.DedupAdjacent | src/runtime/data/symbol_table.rs:51 | collapsing adjacent repeats keeps the same symbols and the first one, never grows, and leaves no two equal neighbours |
| FlatTables.DedupKeepsApart | src/runtime/data/symbol_table.rs:46-51 | repeats that are not adjacent both stay in the runtime draft's listing |
| FlatTables.ListOne | vaca-core/src/table.rs:51-58 | listing a further symbol of a scope that no inner scope binds keeps every listed value equal to its lookup |
| FlatTables.CoreTable.constructor | vaca-core/src/table.rs:16-20 | a new table has no scope |
| FlatTables.CoreTable.CreateScope | vaca-core/src/table.rs:23-25 | the stack becomes `PushFrame` of the old one |
| FlatTables.CoreTable.DropScope | vaca-core/src/table.rs:29-31 | the stack becomes `PopFrame` of the old one |
| FlatTables.CoreTable.Register | vaca-core/src/table.rs:34-36 | result and new stack are `RegisterIn` of the old stack |
| FlatTables.CoreTable.Lookup | vaca-core/src/table.rs:39-45 | the result is `LookupLast` of the stack |
| FlatTables.CoreTable.Env | vaca-core/src/table.rs:47-62 | every bound symbol is listed exactly once, with the value its lookup gives |
| FlatTables.RuntimeTable.constructor | src/runtime/data/symbol_table.rs:19-23 | a new table has no scope |
| FlatTables.RuntimeTable.CreateScope | src/runtime/data/symbol_table.rs:25-27 | the stack becomes `PushFrame` of the old one |
| FlatTables.RuntimeTable.DropScope | src/runtime/data/symbol_table.rs:29-31 | the stack becomes `PopFrame` of the old one |
| FlatTables.RuntimeTable.Insert | src/runtime/data/symbol_table.rs:33-35 | result and new stack are `RegisterIn` of the old stack |
| FlatTables.RuntimeTable.Lookup | src/runtime/data/symbol_table.rs:37-43 | the result is `RfindIn` of the stack |
| FlatTables.RuntimeTable.Env | src/runtime/data/symbol_table.rs:45-55 | every bound symbol is listed, each with the value its lookup gives, and no two neighbours are equal |
| FlatTables.VmTable.constructor | vaca-vm/src/table.rs:16-20 | a new table has no scope |
| FlatTables.VmTable.CreateScope | vaca-vm/src/table.rs:23-25 | the stack becomes `PushFrame` of the old one |
| FlatTables.VmTable.DropScope | vaca-vm/src/table.rs:29-31 | the stack becomes `PopFrame` of the old one |
| FlatTables.VmTable.Register | vaca-vm/src/table.rs:34-36 | result and new stack are `RegisterIn` of the old stack |
| FlatTables.VmTable.Lookup | vaca-vm/src/table.rs:39-44 | the result is `LookupTop` of the stack |
| SymbolValidation.Aggregate | pasto/src/build/symbol_validation.rs:53-65 | the failures of a list of forms: none passes, one is wrapped in a stream at the list's span, several in a multi-stream there |
| SymbolValidation.CombinePair | pasto/src/build/symbol_validation.rs:78-83 | a pair passes exactly when its symbol and its value both pass; when both fail they are gathered in a multi-stream |
| SymbolValidation.CheckForm | pasto/src/build/symbol_validation.rs:32-43 | a symbol validates against the table; scopes, arrays and callable literals leave the table as it was; no form ever hides a visible symbol |
| SymbolValidation.CheckEach | pasto/src/build/symbol_validation.rs:48-51 | every form is checked in order with one table, gathering at most one failure per form; no forms give no failure and leave the table as it was |
| SymbolValidation.CheckEachAppend | pasto/src/build/symbol_validation.rs:48-51 | the failures of two lists of forms checked one after the other are those of the first list followed by those of the second, checked from the table the first left |
| SymbolValidation.CheckEachOne | pasto/src/build/symbol_validation.rs:48-51 | one form adds its own error to the failures when it fails and nothing when it passes |
| SymbolValidation.CheckForms | pasto/src/build/symbol_validation.rs:46-69 | a list of forms is checked in a new scope that is dropped afterwards, giving the table back; its outcome is the failures of the forms, checked in order, gathered at the list's span: none passes, one is a stream, several a multi-stream |
| SymbolValidation.CheckBinding | pasto/src/build/symbol_validation.rs:74-83 | the pair's symbol is assigned in the innermost scope and stays there; its value is checked in the table the assignment left; the pair passes exactly when both steps pass, a single failing step gives its own error, and two failures are gathered at the value's span with no note |
| SymbolValidation.CheckPairs | pasto/src/build/symbol_validation.rs:73-85 | after the pairs, the innermost scope holds every symbol of the list; no pairs give no failure and leave the table as it was |
| SymbolValidation.CheckAssignments | pasto/src/build/symbol_validation.rs:72-100 | an assignment list adds its symbols to the current scope, where they stay visible, without opening a new one; its outcome is the failed pairs gathered at the list's span |
| SymbolValidation.CheckPairsStep | pasto/src/build/symbol_validation.rs:73-85 | the first pair is checked first and the rest from the table it left, adding the first pair's error ahead of the rest's |
| SymbolValidation.CheckPairsAppend | pasto/src/build/symbol_validation.rs:73-85 | the failures of two lists of pairs checked one after the other are those of the first list followed by those of the second, checked from the table the first left |
| SymbolValidation.AssignAll | pasto/src/build/symbol_validation.rs:109 | the innermost scope holds exactly what it held plus the parameters; outer scopes are unchanged |
| SymbolValidation.CheckCallableBody | pasto/src/build/symbol_validation.rs:103-132 | a function or macro body is checked in a new scope holding its parameters and the table comes back unchanged; the literal passes exactly when its body does, and otherwise fails with the body's error wrapped at the literal's span with the body note |
| SymbolValidation.CheckCall | pasto/src/build/symbol_validation.rs:135-148 | the table after a call is the one its callable's check leaves; a call passes exactly when its callable and its argument list pass; only the callable failing gives the callable's error, only the arguments failing gives theirs, and both failing gathers the two at the call's span with the call note |
| SymbolValidation.LiteralPasses | pasto/src/build/symbol_validation.rs:41 | literals and captured values pass and leave the table unchanged |
| SymbolValidation.CallOutcome | pasto/src/build/symbol_validation.rs:135-148 | in terms of the argument forms' own failures: a call passes exactly when its callable passes in the current scope and no argument fails in a new scope; only the callable failing gives its error; only arguments failing gives their failures gathered at the call's span; both failing gathers the two with the call note |
| SymbolValidation.CheckArray | pasto/src/build/symbol_validation.rs:151-158 | an array's items are checked in a new scope and the table comes back unchanged; the array passes exactly when no item fails, and otherwise fails with the items' failures gathered at its span and wrapped once more with the array note |
| SymbolValidation.StlNameIsLocal | pasto/src/build.rs:42-45 | every standard library name parses to an immutable local symbol |
| SymbolValidation.ProgramTrack | pasto/src/build.rs:17-19 | the table a program is checked in has one scope |
| SymbolValidation.StlNamesVisible | pasto/src/build.rs:41-46 | every standard library name is visible to a program |
| SymbolValidation.CheckProgram | pasto/src/build/symbol_validation.rs:9-29 | a program passes exactly when none of its top-level forms fails, all checked with one shared table; a single failure is reported as it is; several are gathered, in order, into a multi-stream with an empty origin and the note that the program uses undefined symbols |
| SymbolValidation.CheckBuild | pasto/src/build.rs:14-34 | building succeeds exactly when validation passes, and then yields the program's forms; a single failure is reported as validation reports it; several are gathered, in order, into a multi-stream caused by `program` with no note |
| SymbolValidation.ValidateForm | pasto/src/build/symbol_validation.rs:32-43 | result and new table are `CheckForm` of the old table |
| SymbolValidation.ValidateForms | pasto/src/build/symbol_validation.rs:46-69 | result and new table are `CheckForms` of the old table |
| SymbolValidation.ValidatePair | pasto/src/build/symbol_validation.rs:74-83 | result and new table are `CheckBinding` of the old table |
| SymbolValidation.ValidateAssignmentList | pasto/src/build/symbol_validation.rs:72-100 | result and new table are `CheckAssignments` of the old table |
| SymbolValidation.AssignParameters | pasto/src/build/symbol_validation.rs:109 | the new table is `AssignAll` of the old one |
| SymbolValidation.ValidateFunction | pasto/src/build/symbol_validation.rs:103-116 | result and new table are `CheckCallableBody` of the old table |
| SymbolValidation.ValidateMacro | pasto/src/build/symbol_validation.rs:119-132 | result and new table are `CheckCallableBody` of the old table |
| SymbolValidation.ValidateCall | pasto/src/build/symbol_validation.rs:135-148 | result and new table are `CheckCall` of the old table |
| SymbolValidation.ValidateArray | pasto/src/build/symbol_validation.rs:151-158 | result and new table are `CheckArray` of the old table |
| SymbolValidation.PopulateTrack | pasto/src/build.rs:41-46 | the one scope ends up holding the standard library names |
| SymbolValidation.NewProgramTrack | pasto/src/build.rs:17-19 | a fresh table holding the standard library names in one scope |
| SymbolValidation.ValidateEach | pasto/src/build/symbol_validation.rs:15-19 | the failures and the new table are `CheckEach` of the old table |
| SymbolValidation.ValidateProgram | pasto/src/build/symbol_validation.rs:9-29 | the result is `CheckProgram` of the forms |
| SymbolValidation.BuildProgram | pasto/src/build.rs:14-34 | the result is `CheckBuild` of the forms |
| ValidationExamples.LetPasses | pasto/src/build/symbol_validation.rs:72-100 | binding a fresh immutable name to a literal passes and adds the name to the innermost scope |
| ValidationExamples.SelfReferencePasses | pasto/src/build/symbol_validation.rs:74-76 | `#(a a)` with a fresh immutable `a` passes and assigns `a`, although `a` alone fails where it is not visible: the symbol is assigned before its value is checked |
| ValidationExamples.SymPasses | pasto/src/build/symbol_validation.rs:34 | a visible name passes and leaves the table unchanged |
| ValidationExamples.ApplyPasses | pasto/src/build/symbol_validation.rs:135-148 | a call of a visible name whose arguments pass in a new scope passes and leaves the table unchanged |
| ValidationExamples.SumProgramPassesIn | pasto/tests/symbol_validation.rs:17-25 | the test suite's valid program passes in any table where `println` and `+` are visible and `a`, `b` are fresh |
| ValidationExamples.ProgramTrackFacts | pasto/src/build.rs:41-46 | the program table makes `println` and `+` visible and holds neither `a`, `b` nor `a'` |
| ValidationExamples.SumProgramPasses | pasto/tests/symbol_validation.rs:17-25 | the valid program passes validation and builds to itself |
| ValidationExamples.RebindProgramFailsIn | pasto/tests/symbol_validation.rs:27-37 | binding `a` a second time in the same scope is reported |
| ValidationExamples.RebindProgramFails | pasto/tests/symbol_validation.rs:27-37 | the rebinding program fails validation |
| ValidationExamples.SymFails | pasto/src/build/table.rs:72-82 | a name that is not visible fails and leaves the table unchanged |
| ValidationExamples.EachOne | pasto/src/build/symbol_validation.rs:15-19 | a single form contributes one failure exactly when it fails |
| ValidationExamples.ApplyFails | pasto/src/build/symbol_validation.rs:135-148 | a call whose arguments fail in the new scope fails, and the table is unchanged |
| ValidationExamples.ScopeFails | pasto/src/build/symbol_validation.rs:46-69 | a scope fails when one of its forms fails inside it |
| ValidationExamples.MutableProgramFailsTwiceIn | pasto/tests/symbol_validation.rs:39-51 | the mutable program has two failures: `a'` used inside the inner scope, and `a'` passed to `println` in its own scope, since call arguments are checked in a new scope |
| ValidationExamples.MutableProgramFailsTwice | pasto/tests/symbol_validation.rs:39-51 | the mutable program fails validation with a multi-stream gathering both failures |
| LinearEval.Resolve | vacavm/src/runner/linear.rs:95-98 | a symbol resolves exactly when its lookup succeeds, to the value found |
| LinearEval.Realize | vacavm/src/runner/linear.rs:92-125 | a symbol leaf whose lookup succeeds becomes a capture of its value, any other symbol stays, literals and captures are unchanged, and spans are kept |
| LinearEval.RealizeEach | vacavm/src/runner/linear.rs:92-125 | every form of a list is realised, keeping the count |
| LinearEval.RealizeBinding | vacavm/src/runner/linear.rs:92-125 | a pair keeps its target symbol |
| LinearEval.RealizePairs | vacavm/src/runner/linear.rs:92-125 | every pair is realised, keeping the count |
| LinearEval.EvalFunctionLit | vacavm/src/runner/linear.rs:77-82 | a function literal gives a function over its parameters and its realised body, leaving the table as it was; it panics exactly when there is no scope and the body names a mutable symbol |
| LinearEval.EvalMacroLit | vacavm/src/runner/linear.rs:85-90 | a macro literal gives a macro over its parameters and its realised body, with the same panic condition |
| LinearEval.Eval | vacavm/src/runner/linear.rs:10-22 | a successful form leaves the outer scopes as they were, and a successful scope form leaves the whole table as it was |
| LinearEval.EvalArray | vacavm/src/runner/linear.rs:24-28 | a successful array gives one value per form and leaves the outer scopes as they were |
| LinearEval.EvalBinding | vacavm/src/runner/linear.rs:44-53 | a successful pair leaves the outer scopes as they were |
| LinearEval.EvalPairs | vacavm/src/runner/linear.rs:44-53 | the pairs never stop at an error: at most one error per pair is collected, and with none the outer scopes are kept |
| LinearEval.EvalScope | vacavm/src/runner/linear.rs:56-74 | an empty scope gives Nil; a successful scope leaves the table exactly as before |
| LinearEval.EvalBody | vacavm/src/runner/linear.rs:58-73 | a successful body ends with its scope dropped |
| LinearEval.EvalCall | vacavm/src/runner/linear.rs:128-168 | a successful call keeps the outer scopes; calling with arguments a form that cannot give a callable is the not-functional error at the callable's span |
| LinearEval.ApplyCallee | vacavm/src/runner/linear.rs:146-167 | applying the callee value keeps the outer scopes when it succeeds |
| LinearEval.BindParams | vacavm/src/runner/linear/execute.rs:19 | binding the parameters changes the innermost scope only |
| LinearEval.EvalExecute | vacavm/src/runner/linear/execute.rs:7-27 | more arguments than the arity is an error; fewer gives the partial function; a successful full call leaves the table as before |
| LinearProperties.RealizeSameShape | vacavm/src/runner/linear.rs:92-125 | realisation keeps the tree, changing symbol leaves into captures at most |
| LinearProperties.RealizeEachSameShape | vacavm/src/runner/linear.rs:92-125 | the same for a list of forms |
| LinearProperties.RealizePairsSameShape | vacavm/src/runner/linear.rs:92-125 | the same for assignment pairs |
| LinearProperties.RealizeBindingSameShape | vacavm/src/runner/linear.rs:92-125 | the same for one pair |
| LinearProperties.RealizeIdempotent | vacavm/src/runner/linear.rs:92-125 | realising twice against one table is realising once |
| LinearProperties.RealizeEachIdempotent | vacavm/src/runner/linear.rs:92-125 | the same for a list of forms |
| LinearProperties.RealizePairsIdempotent | vacavm/src/runner/linear.rs:92-125 | the same for assignment pairs |
| LinearProperties.RealizeBindingIdempotent | vacavm/src/runner/linear.rs:92-125 | the same for one pair |
| LinearProperties.ParameterCapturedFromOuterScope | vacavm/src/runner/linear.rs:92-98 | `(fn [p] p)` called with `w` where `p` is already bound to `v` gives `v`: the literal captures its own parameter |
| LinearProperties.CallOfLiteral | vacavm/src/runner/linear.rs:128-159 | calling a function literal applies the function the literal gives |
| LinearProperties.CapturingLiteral | vacavm/src/runner/linear.rs:77-98 | `(fn [p] p)` run where `p` is bound to `v` is the function whose body is the captured `v` |
| LinearProperties.SingleCapturedArgument | vacavm/src/runner/linear.rs:24-28 | one captured argument runs to its value |
| LinearProperties.CapturedBodyRun | vacavm/src/runner/linear/execute.rs:7-27 | a function whose body is a captured `v` gives `v` whatever its argument |
| LinearProperties.EvalArrayAppend | vacavm/src/runner/linear.rs:24-28 | running `a + b` runs `a`, then `b` from the table `a` left; values keep their order and the first failure stops the rest |
| LinearProperties.EvalPairsAppend | vacavm/src/runner/linear.rs:44-53 | running the pairs `a + b` runs all of `a` then all of `b`, also after errors, reporting both lists of errors in order |
| LinearProperties.AssignmentListResult | vacavm/src/runner/linear.rs:44-53 | an assignment list gives Nil exactly when no pair failed; one error is reported as it is, several in a multi-stream |
| LinearProperties.ScopeErrorLeavesScopeOpen | vacavm/src/runner/linear.rs:56-74 | a scope whose first form fails while more follow returns the failure with its scope still open |
| LinearProperties.UndefinedInNewScope | vacavm/src/runner/linear/table.rs:40-43 | a symbol bound nowhere stays undefined in a new scope |
| LinearProperties.ScopeForm | vacavm/src/runner/linear.rs:10-22 | a scope form runs its forms as `run_scope` does |
| LinearProperties.BodyStopsAtFailure | vacavm/src/runner/linear.rs:62-66 | a failing form that is not the last ends the body with its failure |
| LinearProperties.BodyContinues | vacavm/src/runner/linear.rs:60-68 | a successful form that is not the last hands the rest of the body the table it left |
| LinearProperties.BodyLast | vacavm/src/runner/linear.rs:60-73 | the last form's result, success or failure, is the body's, and the scope is dropped |
| LinearProperties.NonCallableValue | vacavm/src/runner/linear.rs:162-166 | a value that is neither function nor macro is the result of a call without arguments and an error with arguments, which are never run |
| LinearProperties.MacroCallPanics | vacavm/src/runner/linear/execute.rs:29-31 | calling a macro reaches the unfinished macro execution and panics |
| LinearProperties.CallableFailureWrapped | vacavm/src/runner/linear.rs:133-145 | a failing callable part is wrapped at its span with the callable note, and the arguments are not run |
| LinearProperties.PartialArgumentsIgnored | vacavm/src/runner/linear/execute.rs:16-19 | after `(fn [x y] x)` is applied to `a`, applying the result to `b` gives `b`: the held arguments are not bound |
| LinearProperties.FailedBodyLeavesScopeOpen | vacavm/src/runner/linear/execute.rs:22-24 | a body that fails leaving a scope open makes the call leave one open too |
| LinearRunner.RunForm | vacavm/src/runner/linear.rs:10-22 | result and new table are those `Eval` gives |
| LinearRunner.RunArray | vacavm/src/runner/linear.rs:24-28 | result and new table are those `EvalArray` gives |
| LinearRunner.RunBinding | vacavm/src/runner/linear.rs:46-49 | result and new table are those `EvalBinding` gives |
| LinearRunner.RunAssignmentList | vacavm/src/runner/linear.rs:44-53 | result and new table are those `Eval` gives for the list |
| LinearRunner.RunScope | vacavm/src/runner/linear.rs:56-74 | result and new table are those `EvalScope` gives |
| LinearRunner.RunCall | vacavm/src/runner/linear.rs:128-168 | result and new table are those `EvalCall` gives |
| LinearRunner.RunCallee | vacavm/src/runner/linear.rs:146-167 | result and new table are those `ApplyCallee` gives |
| LinearRunner.ExecuteFunction | vacavm/src/runner/linear/execute.rs:7-27 | result and new table are those `EvalExecute` gives |
| ClassicForms.LiteralText | vaca-core/src/form.rs:251-263 | each literal is written as in a program: `nil`, the truth value, the number, the character between single quotes, the text between double quotes, the symbol's text |
| ClassicForms.FormText | vaca-core/src/form.rs:186-249 | the text of each kind of form in the source's layout: `#( ` then the pairs then `)`; `{` and a line break, the tab-indented lines, `}` and a line break; `<( ` or `[( `, the parameters, `-> ` when there are any, the body and ` )`; `( `, the callable, a space, the arguments and `)`; `[ `, the items and `]`; a literal as its own text |
| ClassicForms.SpacedText | vaca-core/src/form.rs:186-249 | no forms give no text; one form gives its text and a space |
| ClassicForms.LinesText | vaca-core/src/form.rs:186-249 | no forms give no text; one form gives a tab, its text and a line break |
| ClassicForms.PairsText | vaca-core/src/form.rs:186-249 | no pairs give no text; one pair gives its symbol, its form and a space after each |
| ClassicForms.ParamsText | vaca-core/src/form.rs:186-249 | no parameters give no text; one parameter gives its name and a space |
| ClassicForms.SpacedTextAppend | vaca-core/src/form.rs:186-249 | the text of two lists of forms joined is their two texts joined, so the writing loop adds each form's text and a space in turn |
| ClassicForms.LinesTextAppend | vaca-core/src/form.rs:186-249 | the lines of two lists of forms joined are their lines joined, one tab-indented line per form in turn |
| ClassicForms.PairsTextAppend | vaca-core/src/form.rs:186-249 | the text of two lists of pairs joined is their texts joined, one pair after another |
| ClassicForms.ParamsTextAppend | vaca-core/src/form.rs:186-249 | the text of two parameter lists joined is their texts joined, one parameter after another |
| ClassicForms.Replace | vaca-core/src/form.rs:131-167 | substitution keeps every form's kind and size, the targets of an assignment list and the parameters of a literal; a literal that binds the symbol keeps its body; the symbol itself becomes the replacement |
| ClassicForms.ReplaceAll | vaca-core/src/form.rs:131-167 | substitution in a list keeps its length |
| ClassicForms.ReplacePairs | vaca-core/src/form.rs:131-167 | substitution in pairs keeps their count and targets |
| ClassicForms.ReplacePair | vaca-core/src/form.rs:131-167 | substitution in a pair keeps its target |
| ClassicForms.ReplaceNotFree | vaca-core/src/form.rs:131-167 | replacing a symbol that is not free leaves the form unchanged |
| ClassicForms.ReplaceAllNotFree | vaca-core/src/form.rs:131-167 | the same for a list of forms |
| ClassicForms.ReplacePairsNotFree | vaca-core/src/form.rs:131-167 | the same for assignment pairs |
| ClassicForms.ReplacePairNotFree | vaca-core/src/form.rs:131-167 | the same for one pair |
| ClassicForms.ReplaceRemovesFree | vaca-core/src/form.rs:131-167 | when the replacement has no free occurrence of the symbol, none is left: every free occurrence was reached |
| ClassicForms.ReplaceAllRemovesFree | vaca-core/src/form.rs:131-167 | the same for a list of forms |
| ClassicForms.ReplacePairsRemoveFree | vaca-core/src/form.rs:131-167 | the same for assignment pairs |
| ClassicForms.ReplacePairRemovesFree | vaca-core/src/form.rs:131-167 | the same for one pair |
| ClassicValues.ValueText | vaca-core/src/value.rs:79-99 | a value has a text exactly when it holds no pending call; texts, numbers, functions and macros are written as the source writes them, arrays between `[ ` and `]` |
| ClassicValues.ItemsText | vaca-core/src/value.rs:88-92 | the items have a text exactly when none holds a pending call |
| ClassicValues.Shown | vaca-core/src/value.rs:96 | formatting a value gives its text, or panics exactly when it holds a pending call |
| ClassicValues.ToArray | vaca-core/src/value.rs:55-60 | an array gives its items; any other value panics with a message naming it |
| ClassicValues.AsBoolean | vaca-core/src/value.rs:62-76 | the truth of each kind of value as the source decides it; a pending call panics |
| ClassicValues.IsLazy | vaca-core/src/value.rs:46-52 | a value is lazy exactly when testing its truth panics, and a lazy value holds a pending call |
| ClassicValues.ValueEq | vaca-core/src/value.rs:116-138 | two arrays are equal exactly when they have the same length and every pair of items in the same place is equal; an array equals no other kind; functions, macros and pending calls equal nothing |
| ClassicValues.ItemsEq | vaca-core/src/value.rs:125-131 | two item lists of one length are equal exactly when the items in each place are equal |
| ClassicValues.TextCmp | vaca-core/src/value.rs:110 | two texts compare equal exactly when they are the same |
| ClassicValues.ValueCmp | vaca-core/src/value.rs:102-114 | an ordering exists only between numbers, two characters or two texts, and always exists for two integers, two characters or two texts |
| ClassicValues.ValueEqSymmetric | vaca-core/src/value.rs:116-138 | equality is symmetric |
| ClassicValues.ItemsEqSymmetric | vaca-core/src/value.rs:128-134 | item-wise equality is symmetric |
| ClassicValues.ValueEqReflexive | vaca-core/src/value.rs:116-138 | a value equals itself exactly when it holds no function, macro or pending call |
| ClassicValues.ItemsEqReflexive | vaca-core/src/value.rs:128-134 | items equal themselves exactly when all are plain |
| ClassicValues.TextCmpReverse | vaca-core/src/value.rs:110 | swapping two texts reverses their order |
| ClassicValues.ValueCmpReverse | vaca-core/src/value.rs:102-114 | swapping the operands reverses the ordering and keeps it undefined when it is |
| ClassicValues.ValueCmpEqual | vaca-core/src/value.rs:102-138 | values the ordering finds equal are equal |
| ClassicValues.LiteralValue | vaca-core/src/form.rs:171-183 | each non-symbol literal gives the value of the same kind holding the same payload |
| ClassicValues.NewFunction | vaca-core/src/value/function.rs:18-26 | a function with a body misses all its parameters and holds no arguments |
| ClassicValues.NativeFunction | vaca-core/src/value/function.rs:28-36 | a native function misses all its parameters, holds no arguments and has no body |
| ClassicValues.PartialFunction | vaca-core/src/value/function.rs:67-73 | partial application lowers the arity by the number of arguments and appends them, keeping the parameter count invariant |
| ClassicValues.PartialFunctionTwice | vaca-core/src/value/function.rs:67-73 | supplying arguments in two steps is supplying them at once |
| ClassicValues.DefinedMacro | vaca-core/src/form.rs:68-73 | a defined macro's arity is its parameter count |
| ClassicNatives.Compare | vaca-stl/src/logic.rs:44-62 | a comparison succeeds exactly on comparable operands, giving the truth of the relation; a function operand is refused first, `a` before `b`, with the source's message |
| ClassicNatives.Holds | vaca-stl/src/logic.rs:44-62 | the ordering relations are false whenever no ordering is defined; with a function, macro or pending call on the left only the inequality holds; `<=` and `>=` hold exactly when an ordering exists and is not the opposite strict one |
| ClassicNatives.Comparable | vaca-stl/src/logic.rs:44-62 | every pair with an ordering is comparable; functions, macros and pending calls never are; truth values, arrays and nil compare but have no ordering |
| ClassicNatives.BoolOp | vaca-stl/src/logic.rs:88-98 | the `&` and or natives succeed exactly on two truth values, giving their conjunction or disjunction |
| ClassicNatives.RaiseIndex | vaca-stl/src/array.rs:15-38 | raising a negative index by the length lands inside the array |
| ClassicNatives.WrapIndex | vaca-stl/src/array.rs:15-38 | the position `nth` reads is always inside the array |
| ClassicNatives.RaiseIndexResidue | vaca-stl/src/array.rs:15-38 | raising by the length gives the index modulo the length |
| ClassicNatives.WrapIndexIsResidue | vaca-stl/src/array.rs:15-38 | both branches of the wrapping give the index modulo the length, negative indices included |
| ClassicNatives.NthOf | vaca-stl/src/array.rs:15-38 | `nth` succeeds exactly for an integer index; an empty array gives nil, any other the item at the index modulo the length |
| ClassicNatives.NotAFunction | vaca-stl/src/array.rs:67-124 | a non-function `f` for `map`, `reduce` or `scan` is an error without a source |
| ClassicNatives.EqNeqComplementary | vaca-stl/src/logic.rs:64-70 | `==` and `!=` give opposite answers on every pair they accept |
| ClassicNatives.TruthValuesUnordered | vaca-stl/src/logic.rs:44-86 | two equal truth values are `==` but neither `<=` nor `>=` |
| ClassicNatives.IntegerRelations | vaca-stl/src/logic.rs:44-86 | on integers every relation is the usual one |
| ClassicNatives.NthFromEnd | vaca-stl/src/array.rs:15-38 | a negative index `-k` within the length reads the `k`-th item from the end |
| ClassicEval.WrapErr | vaca-core/src/form.rs:87 | an error, and only an error, comes out wrapped in a `Stream` naming the form's text and note; any other outcome passes unchanged |
| ClassicEval.Arg | vaca-core/src/macros.rs:11-15 | a native's `lookup!(…).unwrap()` yields the innermost binding of the name when there is one, and panics exactly when the name is unbound |
| ClassicEval.BindAll | vaca-core/src/value/function.rs:49-54 | binding the parameters touches only the innermost scope; the depth and every outer scope are kept |
| ClassicEval.TooManyArguments | vaca-core/src2/value/function.rs:45-49 | the too-many-arguments error is a top-level error that names the body's text exactly when the function has a body |
| ClassicEval.Eval | vaca-core/src/form.rs:31-129 | evaluating a form may only change the innermost scope, and a code block leaves the table exactly as it found it |
| ClassicEval.EvalPairs | vaca-core/src/form.rs:33-40 | an assignment list only registers into the innermost scope (its order and its stop at the first failure are the lemmas `EvalPairsAppend` and `PairFailureStops`) |
| ClassicEval.EvalPair | vaca-core/src/form.rs:35-38 | one assignment only registers into the innermost scope |
| ClassicEval.EvalBlock | vaca-core/src/form.rs:45-60 | the forms of a block only change the scope the block opened |
| ClassicEval.EvalItems | vaca-core/src/form.rs:111-126 | an array's items keep the outer scopes, and on success there is one value per item |
| ClassicEval.EvalArrayForm | vaca-core/src/form.rs:111-126 | an array form succeeds exactly when its items do, with an array of their values, one per item form; an item's error is wrapped in a stream at the array form's text with the item note |
| ClassicEval.EvalCall | vaca-core/src/form.rs:75-108 | a call keeps the depth and every outer scope of the table |
| ClassicEval.Apply | vaca-core/src/form.rs:80-106 | applying the callable's value keeps the depth and every outer scope |
| ClassicEval.ExecFunction | vaca-core/src2/value/function.rs:44-70 | too many arguments is that error and too few give the partial function, both without touching the table; a completed call drops the scope it opened, leaving the table exactly as before |
| ClassicEval.ExecMacro | vaca-core/src/form.rs:90-97 | a native macro keeps the depth and every outer scope |
| ClassicEval.CallExec | vaca-core/src/form/call.rs:14-36 | running a pending call keeps the depth and every outer scope (the callee, function and macro cases are the lemmas `PendingCalleeFailure`, `PendingFunctionGetsValues` and `PendingMacroGetsForms`) |
| ClassicEval.ApplyPending | vaca-core/src/form/call.rs:15-35 | applying a pending call's callable keeps the depth and every outer scope (its cases are stated by the `Pending…` lemmas) |
| ClassicEval.StrictEval | vaca-core/src/value.rs:37-43 | a successful result is never a pending call, and a value that is not one is returned as it is with the table untouched |
| ClassicEval.If | vaca-stl/src/logic.rs:18-31 | anything but three forms is the arity error with the table untouched; otherwise only the innermost scope may change |
| ClassicEval.Assert | vaca-stl/src/logic.rs:34-42 | the only value `assert` ever succeeds with is true (stopping at a false form and going on past a true one are `AssertStops` and `AssertContinues`) |
| ClassicEval.Pipe | vaca-stl/src/utils.rs:10-36 | the pipe macro without any form is the "Piping must have an initial value" error |
| ClassicEval.PipeAll | vaca-stl/src/utils.rs:21-34 | with no target left the running value is the result, with the table untouched |
| ClassicEval.PipeInto | vaca-stl/src/utils.rs:22-30 | one piping step keeps the depth and every outer scope |
| ClassicEval.RunNative | vaca-core/src/value/function.rs:56-60 | a native function's code never changes the table it runs in |
| ClassicEval.Relate | vaca-stl/src/logic.rs:44-86 | once `a` and `b` are bound, the relation natives give exactly the comparison of the two values |
| ClassicEval.Logic | vaca-stl/src/logic.rs:88-106 | once `a` and `b` are bound, the `&` and or natives give exactly the boolean operation on the two values |
| ClassicEval.ArrayArg | vaca-stl/src/array.rs:17 | an argument read as an array succeeds exactly when it is bound to an array, giving its items, and panics otherwise |
| ClassicEval.Nth | vaca-stl/src/array.rs:15-38 | with the index and the array bound, `nth` gives the item the index selects, a negative index counting from the end |
| ClassicEval.Prepend | vaca-stl/src/array.rs:40-47 | the library's `prepend` gives the array with the item added at the end |
| ClassicEval.Append | vaca-stl/src/array.rs:49-56 | the library's `append` gives the array with the value of `f` at the front, and panics whenever `f` is unbound |
| ClassicEval.Concat | vaca-stl/src/array.rs:58-65 | `concat` gives the items of `init` followed by those of `end` |
| ClassicEval.Map | vaca-stl/src/array.rs:67-83 | `map` never changes the caller's table; an unbound `f` panics; a non-function `f` gives the not-a-function error; otherwise the outcome is that of applying `f` to every item, an array of the results on success and the failure unchanged |
| ClassicEval.MapAll | vaca-stl/src/array.rs:74-81 | on success there is one result per item, and the table is unchanged |
| ClassicEval.Reduce | vaca-stl/src/array.rs:85-103 | `reduce` never changes the caller's table; an unbound `f` panics; a non-function `f` gives the not-a-function error; otherwise the outcome is the left fold of `f` from `init` over the items |
| ClassicEval.ReduceAll | vaca-stl/src/array.rs:93-101 | folding over no item gives the initial value, and the table is unchanged |
| ClassicEval.Scan | vaca-stl/src/array.rs:105-124 | `scan` never changes the caller's table; an unbound `f` panics; a non-function `f` gives the not-a-function error; otherwise the outcome is the running values of the fold as an array, the failure unchanged |
| ClassicEval.ScanAll | vaca-stl/src/array.rs:113-122 | on success there is one running value per item, and the table is unchanged |
| ClassicProperties.LiteralEval | vaca-core/src/form.rs:171-183 | a constant literal is its own value and leaves the table alone; a symbol is its innermost binding, and an unbound one is an undefined-symbol error wrapped in a `Stream` naming the literal |
| ClassicProperties.Targets | vaca-core/src/form.rs:33-40 | the symbols of an assignment list, one per pair, in order |
| ClassicProperties.ConstantValues | vaca-core/src/form.rs:33-40 | the values of an assignment list of constants, one per pair, in order |
| ClassicProperties.ConstantAssignments | vaca-core/src/form.rs:33-40 | an assignment list of constants succeeds and registers every symbol in the innermost scope in order, exactly as a call binds its parameters |
| ClassicProperties.EvalPairsAppend | vaca-core/src/form.rs:33-40 | the pairs of two lists joined are those of the first list, then, only when all of them succeeded, those of the second from the table the first left |
| ClassicProperties.PairFailureStops | vaca-core/src/form.rs:33-40 | the first pair that fails ends the list with its own outcome, and no later pair is evaluated |
| ClassicProperties.AssignmentListResult | vaca-core/src/form.rs:33-40 | an assignment list is nil exactly when every pair succeeded; an error is the failing pair's error, unchanged |
| ClassicProperties.ConstantsOf | vaca-core/src/form.rs:111-126 | the values of constant forms, one per form, in order |
| ClassicProperties.ConstantArray | vaca-core/src/form.rs:111-126 | an array of constants evaluates to the array of their values, in order, leaving the table alone |
| ClassicProperties.ItemsAfterFailure | vaca-core/src/form.rs:112-120 | the items after a failing one are still evaluated and their assignments reach the table, while the array reports the first error |
| ClassicProperties.BlockAfterFailure | vaca-core/src/form.rs:48-51 | the forms of a block after a failing one are still evaluated, and the block reports the first failure |
| ClassicProperties.BlockOfOne | vaca-core/src/form.rs:45-60 | a block of one form that does not halt gives that form's result, evaluated in a new scope, and the scope is dropped afterwards |
| ClassicProperties.BlockContinues | vaca-core/src/form.rs:45-60 | a successful form that is not the last hands the rest of the block the table it left, and the block's result is the rest's |
| ClassicProperties.EmptyBlock | vaca-core/src/form.rs:51 | an empty block is nil and leaves the table as it was |
| ClassicProperties.CallApplies | vaca-core/src/form.rs:75-80 | a call whose callable evaluates to a value applies that value, in the table the callable left |
| ClassicProperties.NonCallableCall | vaca-core/src/form.rs:98-105 | a callable that is neither a function nor a macro is itself the result when there are no arguments; with arguments it is a `Top` error naming the call, and no argument is evaluated |
| ClassicProperties.MacroGetsForms | vaca-core/src/form.rs:90-97 | a macro receives the argument forms unevaluated and in order, and its error is wrapped in a `Stream` naming the call |
| ClassicProperties.FunctionGetsValues | vaca-core/src/form.rs:81-89 | a function receives the values of the arguments, evaluated as one array, and its error is wrapped in a `Stream` naming the call |
| ClassicProperties.CallableFailure | vaca-core/src/form.rs:79 | a failing callable is reported as a `Stream` naming the call, with the callable note |
| ClassicProperties.LazyCalleeIgnoresArguments | vaca-core/src/form/call.rs:33 | a pending call whose callable is itself a pending call runs that one, whatever its own arguments |
| ClassicProperties.PendingCalleeFailure | vaca-core/src/form/call.rs:15 | a pending call whose callable fails is reported as a `Stream` with no place and the callee note |
| ClassicProperties.PendingFunctionGetsValues | vaca-core/src/form/call.rs:16-24 | a pending call to a function evaluates the arguments as one array; an argument failure is a `Stream` at the callable's text with the argument note; otherwise the function runs on the values and its error is wrapped at the callable's text |
| ClassicProperties.PendingMacroGetsForms | vaca-core/src/form/call.rs:25-31 | a pending call to a macro hands it the argument forms unevaluated and in order, and its error is wrapped at the callable's text |
| ClassicProperties.CallExecUnreachable | vaca-core/src/form/call.rs:34 | a pending call whose callable is no function, macro or pending call reaches the unreachable panic |
| ClassicProperties.BindAllBinds | vaca-core/src/value/function.rs:49-54 | with distinct parameters, parameter `i` is bound to value `i` in the innermost scope |
| ClassicProperties.BindAllKeeps | vaca-core/src/value/function.rs:54 | binding parameters keeps the binding of every symbol that is not one of them |
| ClassicProperties.FullCall | vaca-core/src/value/function.rs:49-64 | a full call of a function with a body runs the body in a new scope that binds the parameters to the earlier arguments followed by the new ones, and drops that scope afterwards |
| ClassicProperties.FullCallParameter | vaca-core/src/value/function.rs:49-54 | inside a full call, parameter `i` reads the `i`-th of the earlier arguments followed by the new ones |
| ClassicProperties.NativeCall | vaca-core/src/value/function.rs:56-62 | a full call of a function without a body runs its native code in the new scope and drops the scope afterwards |
| ClassicProperties.CurriedCall | vaca-core/src/value/function.rs:42-73 | supplying the arguments over two calls is the same as supplying them in one: the first call gives the partial function and leaves the table alone |
| ClassicProperties.IfOneBranch | vaca-stl/src/logic.rs:18-31 | `if` evaluates its condition and then exactly the branch the condition's truth selects, never the other |
| ClassicProperties.AssertStops | vaca-stl/src/logic.rs:34-42 | a false form stops `assert` with the "Assertion failed" error naming that form, and no later form is evaluated |
| ClassicProperties.AssertContinues | vaca-stl/src/logic.rs:34-42 | a true form lets `assert` go on with the rest of the forms from the table that form left |
| ClassicProperties.AssertNothing | vaca-stl/src/logic.rs:34-42 | `assert` of no form is true and leaves the table alone |
| ClassicProperties.PipeOne | vaca-stl/src/utils.rs:11-21 | the pipe macro of a single form is that form's value |
| ClassicProperties.PipeStep | vaca-stl/src/utils.rs:21-33 | the pipe macro sends the running value through the first target function before the rest, left to right |
| ClassicProperties.PipeNonFunction | vaca-stl/src/utils.rs:31 | a pipe target that is not a function ends the pipe with a `Top` error |
| ClassicProperties.MapAllElements | vaca-stl/src/array.rs:67-83 | each result of `map` is `f` applied to the item at the same position alone |
| ClassicProperties.ReduceSplit | vaca-stl/src/array.rs:85-103 | `reduce` is a left fold: one more item continues from the value of the prefix |
| ClassicProperties.ScanIsRunningReduce | vaca-stl/src/array.rs:105-124 | each value `scan` keeps is what `reduce` gives over the items up to and including that position |
| ClassicProperties.ScanLastIsReduce | vaca-stl/src/array.rs:85-124 | the last value of `scan` is the value of `reduce` |
| ClassicProperties.PrependAppendSwapped | vaca-stl/src/array.rs:40-56 | `prepend` puts the item at the end of the array, and `append` ignores its item, reads the unbound `f` and panics |
| ClassicRunner.ArgOf | vaca-core/src/macros.rs:11-15 | the lookup a native does on the mutable table gives the binding `ClassicEval.Arg` specifies |
| ClassicRunner.EvalForm | vaca-core/src/form.rs:31-129 | evaluating a form on the mutable table gives the result and the new table `ClassicEval.Eval` specifies |
| ClassicRunner.RunPairs | vaca-core/src/form.rs:33-40 | the loop over an assignment list gives the outcome and registrations of `ClassicEval.EvalPairs` |
| ClassicRunner.RunPair | vaca-core/src/form.rs:35-36 | one assignment gives the outcome and registration of `ClassicEval.EvalPair` |
| ClassicRunner.RunBlock | vaca-core/src/form.rs:48-51 | the loop over a block's forms gives the first error or last value, and the table, of `ClassicEval.EvalBlock` |
| ClassicRunner.RunArray | vaca-core/src/form.rs:111-126 | the loop over an array's items gives the array or the wrapped first error, and the table, of `ClassicEval.EvalArrayForm` |
| ClassicRunner.RunCall | vaca-core/src/form.rs:75-108 | a call on the mutable table gives the result and table of `ClassicEval.EvalCall` |
| ClassicRunner.RunApply | vaca-core/src/form.rs:80-106 | applying the callable's value gives the result and table of `ClassicEval.Apply` |
| ClassicRunner.ExecFunction | vaca-core/src2/value/function.rs:44-70 | a function call that creates, fills and drops a scope on the mutable table gives the result and table of `ClassicEval.ExecFunction` |
| ClassicRunner.BindParams | vaca-core/src/value/function.rs:54 | registering the parameters one by one leaves the table `ClassicEval.BindAll` describes |
| ClassicRunner.ExecMacro | vaca-core/src/form.rs:90-97 | running a native macro gives the result and table of `ClassicEval.ExecMacro` |
| ClassicRunner.CallExec | vaca-core/src/form/call.rs:14-36 | running a pending call gives the result and table of `ClassicEval.CallExec` |
| ClassicRunner.ApplyPending | vaca-core/src/form/call.rs:15-35 | applying a pending call's callable gives the result and table of `ClassicEval.ApplyPending` |
| ClassicRunner.StrictEval | vaca-core/src/value.rs:37-43 | the loop that runs pending calls until none is left gives the result and table of `ClassicEval.StrictEval` |
| ClassicRunner.If | vaca-stl/src/logic.rs:18-31 | `if` on the mutable table gives the result and table of `ClassicEval.If` |
| ClassicRunner.Assert | vaca-stl/src/logic.rs:34-42 | the loop of `assert` gives the result and table of `ClassicEval.Assert` |
| ClassicRunner.Pipe | vaca-stl/src/utils.rs:10-36 | the fold of the pipe macro gives the result and table of `ClassicEval.Pipe` |
| ClassicRunner.RunNative | vaca-core/src/value/function.rs:56-60 | a native's code on the mutable table gives the result and table of `ClassicEval.RunNative` |
| ClassicRunner.Relate | vaca-stl/src/logic.rs:44-86 | a comparison native gives the result of `ClassicEval.Relate` and changes nothing |
| ClassicRunner.Logic | vaca-stl/src/logic.rs:88-106 | the `&` and or natives give the result of `ClassicEval.Logic` and change nothing |
| ClassicRunner.ArrayOf | vaca-stl/src/array.rs:17 | an argument read as an array gives the result of `ClassicEval.ArrayArg` |
| ClassicRunner.Nth | vaca-stl/src/array.rs:15-38 | the loop of `nth` that raises a negative index by the length gives the result of `ClassicEval.Nth` |
| ClassicRunner.Prepend | vaca-stl/src/array.rs:40-47 | `prepend` gives the result of `ClassicEval.Prepend` |
| ClassicRunner.Append | vaca-stl/src/array.rs:49-56 | `append` gives the result of `ClassicEval.Append` |
| ClassicRunner.Concat | vaca-stl/src/array.rs:58-65 | `concat` gives the result of `ClassicEval.Concat` |
| ClassicRunner.Map | vaca-stl/src/array.rs:67-83 | `map` gives the result and table of `ClassicEval.Map` |
| ClassicRunner.MapItems | vaca-stl/src/array.rs:74-81 | the loop that replaces each item in place by `f` of it gives what `ClassicEval.MapAll` specifies |
| ClassicRunner.Reduce | vaca-stl/src/array.rs:85-103 | the loop of `reduce` gives the result and table of `ClassicEval.Reduce` |
| ClassicRunner.Scan | vaca-stl/src/array.rs:105-124 | `scan` gives the result and table of `ClassicEval.Scan` |
| ClassicRunner.ScanItems | vaca-stl/src/array.rs:113-122 | the loop that replaces each item in place by the running value gives what `ClassicEval.ScanAll` specifies |
| ClassicLibrary.Names | vaca-core/src/macros.rs:30-34 | the parameter symbols of a native, one per name, in order |
| ClassicLibrary.NativeEntry | vaca-core/src/macros.rs:30-34 | `function!` gives a native function over the named parameters, none supplied yet and with no body, registered under its name |
| ClassicLibrary.MacroEntry | vaca-stl/src/logic.rs:6-7 | a library macro is registered under its name as a native macro |
| ClassicLibrary.LogicEntries | vaca-stl/src/logic.rs:5-16 | ten entries under distinct names: the `if` and `assert` macros, then eight native functions over `a` and `b` |
| ClassicLibrary.ArrayEntries | vaca-stl/src/array.rs:5-13 | seven native functions under distinct names, none with arguments supplied and each over at least two parameters; `map`, `reduce` and `scan` take `f` first, and all but `concat` take `array` last |
| ClassicLibrary.UtilsEntries | vaca-stl/src/utils.rs:5-8 | exactly one entry: the pipe macro, a native macro with no parameter count |
| ClassicLibrary.RegisterAll | vaca-core/src/macros.rs:19-26 | registering entries in turn keeps the depth of the table and every outer scope |
| ClassicLibrary.RegisterAllAppend | vaca-stl/src/lib.rs:9-15 | loading one library after another is loading all their entries in order |
| ClassicLibrary.RegisterAllKeeps | vaca-core/src/macros.rs:19-26 | a symbol no entry names keeps its binding, or its absence, in the innermost scope |
| ClassicLibrary.RegisterAllLast | vaca-core/src/macros.rs:19-26 | the last entry naming a symbol decides its binding |
| ClassicLibrary.LibraryTable | vaca-stl/src/lib.rs:9-21 | the table `create_table` builds has exactly one scope |
| ClassicLibrary.Load | vaca-stl/src/array.rs:5-13 | the loop of `register!` calls of a library's `load` leaves the table that registering its entries in order describes |
| ClassicLibrary.CreateTable | vaca-stl/src/lib.rs:17-21 | `create_table` gives a new table holding one scope with the logic and array libraries loaded |
| ClassicLibrary.PipeNotLoaded | vaca-stl/src/lib.rs:9-15 | the pipe macro is defined only by the utils library, which `create_table` does not load, so looking it up in that table fails |
| ClassicLibrary.EntriesLoaded | vaca-stl/src/logic.rs:5-16 | every name the logic and array libraries register is bound, in the table `create_table` builds, to its native |
| ClassicLibrary.FNotLoaded | vaca-stl/src/lib.rs:9-21 | nothing named `f` is bound in the table `create_table` builds |
| ClassicLibrary.BindItemArray | vaca-core/src/value/function.rs:52-54 | calling a native over `item` and `array` opens one scope binding just those two |
| ClassicLibrary.AppendReadsF | vaca-stl/src/array.rs:49-56 | `append` called from a table that binds nothing named `f` panics, whatever item and array it is given |
| ClassicLibrary.LoadedAppendPanics | vaca-stl/src/array.rs:49-56 | from the table `create_table` builds, every call of `append` panics |
| ClassicLibrary.PrependNativeRun | vaca-stl/src/array.rs:40-47 | `prepend`'s code, with `item` and `array` bound, gives the array with the item at its end and changes nothing |
| ClassicLibrary.PrependAddsLast | vaca-stl/src/array.rs:40-47 | a call of the library's `prepend` gives the array with the item added at its end, and leaves the table as it was |

## Left out

- **Termination.** Every evaluator takes a `fuel` bound and gives `OutOfFuel` when it runs out.
  The source has no such bound, so a program that never terminates is not modelled.
- **Floating point.** A float is an exact real or NaN. Rounding, infinities and the sign of
  zero are not modelled. Numeric natives such as `+` and `pi` belong to the math library,
  which is not modelled; the same holds for the console library `io`. Neither library binds
  `f` or the pipe macro's name, so `ClassicLibrary.FNotLoaded` and
  `ClassicLibrary.PipeNotLoaded` also hold for the full library.
- Floats.FromInt: the widening is exact; the rounding of integers beyond 2^53 is not modelled.
- Floats.FloatText: states only that the text is not empty. Rust's float formatting is not
  modelled.
- ClassicEval.EvalPairs: its own contract states only the table frame. Its order and its stop
  at the first failure are stated by `ClassicProperties.EvalPairsAppend`, `PairFailureStops` and
  `AssignmentListResult`.
- ClassicEval.CallExec: its own contract states only the table frame. Its cases are stated by
  `ClassicProperties.PendingCalleeFailure`, `PendingFunctionGetsValues`,
  `PendingMacroGetsForms`, `LazyCalleeIgnoresArguments` and `CallExecUnreachable`.
- ClassicEval.ApplyPending: its own contract states only the table frame; the same lemmas state
  its cases through `CallExec`.
- ClassicEval.Assert: its own contract states the frame and that success is true. Stopping at a
  false form and going on past a true one are `ClassicProperties.AssertStops` and
  `AssertContinues`.
- ClassicEval.EvalBlock: its own contract states only the table frame. Going on past a
  successful form, going on past a failing one and reporting it, and a block of one form are
  `ClassicProperties.BlockContinues`, `BlockAfterFailure` and `BlockOfOne`.
- LinearEval.EvalBody: its own contract states only the dropped scope on success. Going on
  past a successful form, stopping at a failing one, and the last form's result are
  `LinearProperties.BodyContinues`, `BodyStopsAtFailure` and `BodyLast`.
- LinearEval.EvalScope: its own contract states the empty scope and the table on success; its
  forms run through `EvalBody`, whose steps the same lemmas state.
- **Integer widths.** `i64` and `usize` are unbounded integers, so overflow is not modelled.
- Callables.PartialFunction, Callables.PartialMacro and ClassicValues.PartialFunction: these
  require no more arguments than the arity. The source subtracts on `usize` and would
  underflow, but every caller checks the count first.
- **Empty tables.** `FlatTables.RegisterIn` models the panic of registering into a table with
  no scope. The following members require an open scope instead, because each runs only
  right after a scope is created:
  - ClassicEval.BindAll;
  - ClassicRunner.BindParams;
  - LinearEval.BindParams;
  - ClassicLibrary.RegisterAll;
  - ClassicLibrary.Load.
- TrackTables.AssignIn and TrackTables.TrackTable.Assign: these require an open scope when
  the symbol is mutable, where the source panics at pasto/src/build/table.rs:63.
- SymbolValidation.CheckForm and the other `Check…` and `Validate…` members of the validator
  require an open scope. The build step always starts them from its one program scope, and
  validating from a table without one is not modelled.
- FlatTables.CoreTable.Env and FlatTables.RuntimeTable.Env: list each binding's value rather
  than its display text, so the panic of displaying a pending call is not modelled.
- Symbols.FromText: requires non-empty text. The source panics when it unwraps the first
  character of empty text.
- `is_alphabetic` is modelled as the ASCII letters.
- **References.** `ValueRef` pointers, `Rc`/`Weak` liveness and `Weak::upgrade` are not
  modelled; values are copied.
- **Concurrency.** The `RwLock` error path of the parent-linked table
  (vaca-core/src/run/table.rs:47-51) only arises under concurrency and is not modelled.
- **Externals.** The `externals` map of `SymbolTableStack` is not modelled, so external
  symbols are not resolved through it.
- **Macro execution.** The linear runner's `execute_macro` is an unfinished `todo!()` and is
  modelled as a panic. The earlier draft's execution of a defined macro is not part of this
  model: vaca-core/src/value/macros.rs holds only the native macro type. A defined macro
  called there is modelled as a panic.
- The single `Form::Assingment`, which only panics, is not a form of the model.
- Native macros of the library are given arity 0, as `utils::load` gives the pipe macro. The
  earlier draft's `Value::Macro` holds the bare native code.
- Errors that natives return as text become `Top` errors without a source, as `From<String>`
  converts them.
- vaca-core/src/build/symbol.rs is not part of this model. The symbol of
  vaca-core/src2/symbol.rs, which has the same mutability rule, stands in for it.
- A form's span is modelled by its display text.
- The `env` methods take each scope's keys in an arbitrary order, as hash-map iteration does.
  Their contracts hold for every order, and the order of the listing is not stated.
- Parsing, the command line, the REPL, binary (de)serialisation and the `Rc`/`Weak`
  owner-based drafts are outside the core and are not modelled.

## Where the drafts disagree

The model follows the code as written. The places below are where drafts, or a draft and its
own tests, do not agree. Each is stated by the lemma named in the text.

- **Partial arguments.** The linear runner binds the parameters to the new arguments only and
  ignores the stored partial arguments (`LinearProperties.PartialArgumentsIgnored`,
  vacavm/src/runner/linear/execute.rs:19). The earlier draft binds the partial arguments
  followed by the new ones (`ClassicProperties.FullCallParameter`,
  `ClassicProperties.CurriedCall`).
- **Captured parameters.** Closure realisation captures every symbol that resolves, the
  literal's own parameters included. A parameter that is also bound outside is therefore
  frozen to the outer value (`LinearProperties.ParameterCapturedFromOuterScope`).
- **Scopes left open.**
  - `run_scope` leaves its scope open when a form before the last fails
    (`LinearProperties.ScopeErrorLeavesScopeOpen`).
  - A failing function body does the same inside `execute_function`
    (`LinearProperties.FailedBodyLeavesScopeOpen`).
- **Item evaluation after a failure.** The earlier draft evaluates the items of an array and
  the forms of a block even after one of them fails, so their assignments still happen
  (`ClassicProperties.ItemsAfterFailure`, `ClassicProperties.BlockAfterFailure`). The linear
  runner stops at the first failure.
- **Pending calls.** `Form::eval` has no case for a pending call as callee; `Call::exec` has
  one.
- **Error types.** The earlier draft's vaca-core/src/value/function.rs returns text errors,
  while its callers expect error stacks. The model takes the error-stack version of the same
  function from vaca-core/src2/value/function.rs (`ClassicEval.TooManyArguments`).
- **`prepend` and `append`.**
  - `prepend` puts the item at the end of the array (`ClassicLibrary.PrependAddsLast`).
  - `append` never reads its `item` parameter. It puts the value bound to `f` at the front, so
    it panics unless something else binds `f`. Nothing does in the table `create_table`
    builds (`ClassicProperties.PrependAppendSwapped`, `ClassicLibrary.LoadedAppendPanics`).
- **Comparisons on truth values.** Equal truth values are not related by `<=` or `>=`, because
  their comparison has no order (`ClassicNatives.TruthValuesUnordered`).
- **The pipe macro is never loaded.** It is registered only by vaca-stl/src/utils.rs, which the
  library's `load` neither declares nor calls (`ClassicLibrary.PipeNotLoaded`).
- **The validator's test.** The validator checks a call's arguments in a new scope, where a
  mutable symbol is not visible. The test at pasto/tests/symbol_validation.rs:40-51 marks
  only the read of `a'` inside the block as invalid. Yet the top-level `(println a')` fails
  too, so the program fails twice (`ValidationExamples.MutableProgramFailsTwice`,
  `SymbolValidation.CallOutcome`).
- **Fresh child tables.** A fresh child of the parent-linked table does not see its parent's
  mutable symbols (`ParentTables.FreshChildLookup`). Only immutable lookups agree with the
  parent's.
- **Duplicates in `env`.** The runtime table's `env` removes only adjacent duplicates, so a
  symbol bound in two scopes is listed twice whenever another key comes between them (`FlatTables.DedupKeepsApart`).
- **Error aggregation.** `into_result` is not injective. Several errors, and one `MultiStream`
  caused by `program` that gathers them, give the same result
  (`RunErrors.IntoResultNotInjective`).
