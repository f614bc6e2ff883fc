# nginx-jsconf core, modelled in Dafny

nginx-jsconf turns a JSON- or YAML-shaped configuration tree into nginx
configuration text. Its core has six parts, and this project models them as
pure functions over an immutable tree:

- **Directive-type classifier**: decides whether each entry is a nullary
  directive, a simple directive, a block without parameter or a block with
  parameter, or rejects it with an input error.
- **Context-name resolver**: maps a short context name to its ancestor path.
- **Helpers**: `arrify`, `groupBy`, `splitAt`, `trimSuffix`, and the
  input-error message with its `ellipsis`.
- **Traversal**: a depth-first walk that calls visitor hooks.
- **Transform**: ordered, filtered rewrite rules, run in pre-order or
  post-order.
- **Serializer**: `stringify`, a visitor that writes indented nginx lines.

Files, one module each:

| file | module | models |
|---|---|---|
| `wrappers.dfy` | `Wrappers` | `Option` and `Result` |
| `tree.dfy` | `Tree` | the configuration tree; a context is an ordered sequence of key/value pairs |
| `utils.dfy` | `Utils` | `src/utils.ts`, plus the JavaScript string built-ins the engines use (`slice`, `endsWith`, `join`, `split`, `repeat`, `trim`, `String(n)`) |
| `errors.dfy` | `Errors` | `src/errors.ts` and the host errors the engines can raise |
| `context_name.dfy` | `ContextName` | `src/contextName.ts` and how a context argument becomes a root path |
| `directive_types.dfy` | `DirectiveTypes` | `src/directiveTypes.ts` |
| `traverse.dfy`, `traverse_props.dfy` | `Traverse`, `TraverseProps` | `src/traverse.ts`: the walk as an event trace, and its properties |
| `transform.dfy`, `transform_props.dfy` | `Transform`, `TransformProps` | `src/transform.ts` and its properties |
| `stringify.dfy`, `stringify_props.dfy` | `Stringify`, `StringifyProps` | `src/stringify.ts` and its reference printer |

Modelling choices:

- **Hooks, `SKIP` and transformers** are pure function values. A visitor is
  a pair of decision functions: does `visitBlock` skip, and does
  `enterContext` skip, for these arguments. A transformer's `if` and
  `transform` are functions of the value and of the names the source passes
  them. Returning `undefined` is `None`.
- **The walk** returns the sequence of hook calls it makes, plus the error
  that stopped it, if any. `stringify` is a left fold over that trace, with
  the line buffer and the indentation level as its state. A thrown error ends
  the fold, so the first error in execution order wins.
- **Recursion depth.** A pre-order block transformer may return a larger
  context than it was given, so nothing but the host's call stack bounds
  `transform`'s recursion. The model makes that bound a parameter,
  `depthLimit`: the number of nested contexts the walk may enter. Going
  deeper gives the `RangeError` the host raises when its stack runs out.
- **Partners.** Each engine has one:
  - The serializer is proved equal, on every input, errors included, to a
    direct recursive printer (`StringifyProps.StringifyIsPretty`).
  - Transformer selection is proved equal to a declaration-order reference
    selection (`TransformProps.EachTransformerDeclared`).
  - The rebuilt bodies of `transform` are proved equal to a
    keep/replace/delete reference rule (`TransformProps.EntriesRebuilt`).
  - `groupBy` is proved equal to a reference grouping
    (`Utils.GroupByContents`).
  - The walk is proved to respect a scoping discipline: every hook receives
    the innermost open context (`TraverseProps.TraverseWellNested`).
  - A block visit that completes is proved to be the `visitBlock` call,
    then each instance in list or key order, opened with its position or
    its key (`TraverseProps.PositionalInstancesEntered`,
    `TraverseProps.KeyedInstancesEntered`).

Behaviour worth noting:

- An empty array classifies as a block without parameter, not as a simple
  directive, because `every` holds vacuously on an empty array
  (src/directiveTypes.ts:37).
- `transform` always returns a block without parameter as a new array, so a
  single object comes back as a one-element array (src/transform.ts:151-157).
- `events` is one of the `ContextName` values (src/contextName.ts:2), but
  `contextNameToPath('events')` is `['unknown']`.
- `stringify` writes exactly one blank line before each group of
  simple-directive values and before each block header
  (src/stringify.ts:72, 78 and 86). It writes none before a nullary directive
  or before raw (`__raw`) lines (src/stringify.ts:64-70).

## Model

| member | source | states |
|---|---|---|
| Utils.Arrify | src/utils.ts:2-7 | `null` gives no element, an array gives its own elements, and any other value gives a one-element list holding it |
| Utils.GroupByContents | src/utils.ts:10-24 | every group of `groupBy` equals the reference group: the elements that produced the key, in list order, once per occurrence of the key among their keys |
| Utils.GroupByKeys | src/utils.ts:10-24 | a key is in the map exactly when some element produced it |
| Utils.GroupSkipsKeyless | src/utils.ts:15-21 | an element whose key list is empty belongs to no group: removing it changes no group |
| Utils.GroupMembersHaveKey | src/utils.ts:15-21 | every member of a group produced that group's key |
| Utils.GroupAppend | src/utils.ts:14-23 | grouping a concatenation is the concatenation of the groupings, so the reduction preserves list order |
| Utils.RelativeIndex | src/utils.ts:42 | the `slice` index rule: a negative index counts from the end; an index past the end reads as the length, and one before the start as zero |
| Utils.SplitAt | src/utils.ts:41-43 | the two parts concatenate to the input; at index -1 on a non-empty list the second part is exactly the last element; an in-range index gives a first part of that length |
| Utils.TrimSuffixAsWritten | src/utils.ts:55-57 | as written: a string that does not end with the suffix is returned unchanged; a non-empty suffix is removed; an empty suffix gives the empty string |
| Utils.TrimSuffixEmptyCounterexample | src/utils.ts:56 | `trimSuffix("server", "")` is `""` as written but `"server"` as intended |
| Utils.TrimSuffix | src/utils.ts:55-57 | corrected: the result plus the suffix is the input when the input ends with the suffix, and otherwise the input is returned unchanged |
| Utils.TrimSuffixAgrees | src/utils.ts:55-57 | the written and the corrected definitions agree on every non-empty suffix |
| Utils.SplitOn | src/stringify.ts:68 | `split('\n')` gives at least one piece, no piece holds the separator, and joining the pieces with the separator gives the input back |
| Utils.SplitJoinRoundTrip | src/stringify.ts:68 | splitting a join of separator-free pieces gives the pieces back |
| Utils.Trim | src/stringify.ts:115 | `trim()` removes only whitespace, only at the two ends, and as much of it as there is; text without whitespace is unchanged |
| Utils.RepeatSpaces | src/stringify.ts:46 | `' '.repeat(n)` is exactly `n` spaces |
| Errors.Ellipsis | src/errors.ts:19-24 | text no longer than the limit is unchanged; longer text becomes its first `maxLength` code points plus `...`, exactly `maxLength + 3` long; the result always starts with the first `min(length, maxLength)` code points and is never longer than `maxLength + 3` |
| Errors.Error.Message | src/errors.ts:14 | the input-error text is the message, `": "`, then the serialised value: unchanged when it has at most 42 code points, and otherwise its first 42 followed by `...` |
| ContextName.ContextNameToPath | src/contextName.ts:12-27 | a known name maps to a path of one to three names, from `main` down to the name itself; every other string, `events` included, maps to `['unknown']`; no path is empty |
| ContextName.ContextNameExamples | src/contextName.ts:13-26 | the exact path of each short name, `events` and `unknown` included |
| ContextName.SplitRoot | src/traverse.ts:141-142 | the parent path and the root name together give the context path back |
| DirectiveTypes.Classify | src/directiveTypes.ts:32-56 | `null`, and only `null`, is nullary; each verdict guarantees the shape its engine relies on; the error is raised exactly for mixed arrays and for objects holding neither only objects nor only scalars, with the `Invalid value in <path>` message; a lone scalar is simple |
| DirectiveTypes.NullIsNullary | src/directiveTypes.ts:33-35 | `null` is nullary whatever the path, even one in the parameterless set or under a `{}` name |
| DirectiveTypes.ArraysAtParameterlessPaths | src/directiveTypes.ts:36-38 | the empty array is a block without parameter, and so is any array at a path in the set |
| DirectiveTypes.ParameterlessTestFirst | src/directiveTypes.ts:43-45 | at a path in the set or under a `{}` name, an object is one parameterless block, whatever it holds |
| DirectiveTypes.EmptyObjectIsBlockWithParam | src/directiveTypes.ts:46-47 | `{}` elsewhere is a block with parameter that has no instances |
| DirectiveTypes.ParameterlessMonotone | src/directiveTypes.ts:29-30 | adding paths to the parameterless set never changes a parameterless verdict |
| DirectiveTypes.BuiltinRootsAreParameterless | src/directiveTypes.ts:16-24 | `main/http`, `main/mail`, `main/stream` and `main/http/server` are in the built-in set, and `main/unknown/server` is not |
| Traverse.Normalize | src/traverse.ts:88 | a map is passed as it is, an array as its elements, and a lone scalar as a one-element list |
| TraverseProps.TraverseWellNested | src/traverse.ts:64-145 | replayed against a stack of open contexts, every hook gets the innermost open context as its context argument, and `leaveContext` closes the context it names; a walk that completes closes every context it opened |
| TraverseProps.NullVisitsSimple | src/traverse.ts:82-85 | `null` is one `visitSimple` call without values, with the parent context |
| TraverseProps.ScalarVisitsSimple | src/traverse.ts:86-91 | a lone scalar is one `visitSimple` call with a one-element list |
| TraverseProps.ScalarMapVisitsSimple | src/traverse.ts:86-91 | a map of scalars is passed to `visitSimple` as it is |
| TraverseProps.SkippedBlockEntersNothing | src/traverse.ts:96-110 | when `visitBlock` answers `SKIP` for the block's own instances, no instance is entered and the block call is the only event |
| TraverseProps.SkippedContextIsLeaf | src/traverse.ts:127-129 | when `enterContext` answers `SKIP`, neither the children nor `leaveContext` are visited |
| TraverseProps.IndexedInOrder | src/traverse.ts:97-99 | the instances of a block without parameter are visited one after another in list order, the `i`-th with position `i`, and the first error ends the walk |
| TraverseProps.KeyedInOrder | src/traverse.ts:107-109 | the instances of a block with parameter are visited in key order, each with its key as `param` |
| TraverseProps.EntriesInOrder | src/traverse.ts:132-137 | the directives of a body are visited in key order |
| TraverseProps.SequencedCompletes | src/traverse.ts:97-99 | a run of visits that completes completed each visit, and its events are theirs in order |
| TraverseProps.PositionalInstancesEntered | src/traverse.ts:93-102 | a block without parameter that is not skipped and completes gives the `visitBlock` call, then each instance's events in list order; the `i`-th instance starts with `enterContext(name, i, ...)` |
| TraverseProps.KeyedInstancesEntered | src/traverse.ts:103-111 | a block with parameter that is not skipped and completes gives the `visitBlock` call, then each instance's events in key order; each instance starts with `enterContext(name, key, ...)` |
| TraverseProps.ContextBrackets | src/traverse.ts:127-138 | an entered context that completes is `enterContext`, then its children's events, then one `leaveContext` for the same instance |
| Transform.BucketKeys | src/transform.ts:106-108 | a transformer's bucket keys are `+` (block) or `-` (simple) followed by each of its names; no name counts as the empty name |
| Transform.Buckets | src/transform.ts:106-108 | every transformer sits only in buckets named by its own keys |
| Transform.SelectIn | src/transform.ts:116-120 | the selection is a subsequence of the bucket, so it keeps declaration order; a transformer is in it exactly when it is in the bucket and its context list admits the context |
| Transform.EachTransformer | src/transform.ts:110-127 | every yielded transformer admits the context and is of the kind asked for |
| TransformProps.EachTransformerDeclared | src/transform.ts:110-127 | `eachTransformer` is the reference selection: the transformers naming the directive in declaration order, then the unnamed ones in declaration order, each filtered by context |
| TransformProps.EachTransformerMembers | src/transform.ts:106-127 | a transformer runs on a directive exactly when it is declared, of the right kind, admits the context, and either names the directive or has no name |
| TransformProps.DeclaredMembers | src/transform.ts:106-108 | the reference selection holds exactly the declared transformers of the right kind that list the name |
| TransformProps.UnnamedTwiceForEmptyName | src/transform.ts:116-126 | a directive named with the empty string meets an unnamed transformer twice |
| Transform.RunSimple | src/transform.ts:138-146 | when every `if` rejects the directive's value, that value comes back unchanged, whatever the guards say of other values |
| TransformProps.RunSimpleAppend | src/transform.ts:138-146 | running a chain in two parts runs the second part on the first part's result; after a removal nothing else runs |
| TransformProps.RunSimpleGuarded | src/transform.ts:139-141 | a transformer whose `if` rejects the value passes it on unchanged |
| Transform.RunBlock | src/transform.ts:195-205 | a phase with no transformer of its order leaves the context unchanged |
| TransformProps.RunBlockAppend | src/transform.ts:195-205 | running a block chain in two parts composes, and a removal ends it |
| TransformProps.RunBlockPhase | src/transform.ts:230-240 | a phase runs exactly the transformers of its own order, in chain order |
| TransformProps.OfOrder | src/transform.ts:197 | the transformers of one order form a subsequence of the chain |
| Transform.Visit | src/transform.ts:129-182 | a block without parameter always comes back as an array; a block with parameter comes back as an object |
| Transform.VisitIndexed | src/transform.ts:148-157 | no more instances come back than went in, and all of them are objects |
| Transform.VisitKeyed | src/transform.ts:159-180 | the surviving keys are a subsequence of the original keys, in order, and every surviving value is an object |
| Transform.VisitContext | src/transform.ts:190-192 | a falsy instance is dropped without visiting anything |
| Transform.VisitEntries | src/transform.ts:209-228 | the keys of the result are a subsequence of the original keys, in order |
| TransformProps.EntriesRebuilt | src/transform.ts:209-228 | the new body follows the reference rule: a removed child is deleted, and any other child takes its new value at its old position |
| TransformProps.EntriesUnchanged | src/transform.ts:215-218 | children that all come back unchanged leave the body equal to the input |
| TransformProps.KeyedRebuilt | src/transform.ts:163-179 | instances of a block with parameter are visited with their key as `param`; removed keys are deleted and the others replaced in place |
| TransformProps.IndexedSurvivors | src/transform.ts:149-157 | instances of a block without parameter are visited with their original position as `param`; the result is the survivors in their original order |
| TransformProps.PreRemovalSkipsChildren | src/transform.ts:195-205 | a pre-order removal ends the visit of an instance before its children |
| TransformProps.TransformKeepsCanonical | src/transform.ts:244-247 | with no transformers, a canonical configuration comes back unchanged |
| TransformProps.TransformIdempotent | src/transform.ts:95-248 | with no transformers, the output of `transform` is canonical, so a second pass returns it unchanged |
| TransformProps.SingleBlockBecomesArray | src/transform.ts:148-157 | with no transformers, `{server: {...}}` under `http` becomes `{server: [{...}]}` |
| Stringify.IndentUnit | src/stringify.ts:44-47 | the unit is a tab when unset, `n` spaces for a number, and the string itself otherwise |
| Stringify.Writeln | src/stringify.ts:58-60 | an empty line gets no indentation; a non-empty line gets `level` copies of the unit, and fails when the level is negative |
| Stringify.DefaultStringifyValue | src/stringify.ts:107-119 | `null` gives the empty string, booleans give `on`/`off`, strings and numbers give their trimmed text, and anything else is a `TypeError` |
| Stringify.JsString | src/stringify.ts:68 | `String(value)` of a string is the string, of `null` is `null`, of a boolean is `true`/`false` |
| Stringify.RawLines | src/stringify.ts:68 | no line holds a newline, there are at least as many lines as values, and the lines of one value joined with newlines give back its `String()` text |
| Stringify.RawLinesAppend | src/stringify.ts:68 | the lines of several values are each value's lines, in value order |
| Stringify.Header | src/stringify.ts:87-90 | a block without parameter's header is the name with `{}` trimmed, then ` {`; a block with parameter's header is the untrimmed name, the stringified key and ` {`, or the stringifier's error |
| Stringify.Step | src/stringify.ts:84-99 | entering a context raises the level by one, leaving lowers it by one, and other calls keep it |
| Stringify.ResolverOf | src/stringify.ts:49-51 | a supplied resolver wins over `blocksWithoutParam`, which defaults to the built-in set |
| Stringify.EnvOf | src/stringify.ts:44-53 | the indentation unit is as configured, and the default value stringifier is used when none is supplied |
| StringifyProps.StringifyIsPretty | src/stringify.ts:39-105 | `stringify` equals the reference printer on every input, errors included: the top-level body at depth zero; a block as a blank line, its header, its body one level deeper and a closing brace at the header's level; lines joined with newlines |
| StringifyProps.StepSimple | src/stringify.ts:63-83 | one `visitSimple` call writes `name;` for no value; for `__raw`, each raw line at the current indentation, with no blank line first; and otherwise a blank line, then one line per value or per entry |
| StringifyProps.ContextPrints | src/stringify.ts:84-99 | a nested context writes a blank line, its header, its body one level deeper, then `}` at the header's level |
| StringifyProps.WriteItemsAt | src/stringify.ts:73-75 | each value is written as `name v;` at the current depth, in order, and the first stringifier error stops the output |
| StringifyProps.ScalarDirective | src/stringify.ts:71-76 | a scalar directive prints as a blank line, then `name v;` at its depth |
| StringifyProps.KeyedBlock | src/stringify.ts:84-99 | a one-instance block with parameter prints as a blank line, `name key {`, its body, then `}` |
| StringifyProps.LocationExample | src/stringify.ts:39-105 | `{location: {<uri>: {proxy_pass: <url>}}}` under `http`, with no whitespace in either text, prints as `""`, `location <uri> {`, `""`, tab `proxy_pass <url>;`, `}` |

## Left out

- `src/cli.ts`, `rollup.config.mjs` and `src/index.ts` are not part of this model. They hold argument parsing, file and stream I/O, YAML/JSON parsing, bundling, and type declarations only.
- `streamToString` (src/utils.ts:46-52) is not modelled, because it is asynchronous stream I/O.
- `isPlainObj` and `isString` become datatype constructor tests. The host's `Object.prototype.toString` tag check is not modelled.
- `JSON.stringify` in the input-error message is a parameter of `Errors.Error.Message`, because it is host serialisation.
- The visitor and transformer `state` is not modelled. Hooks and transformers are pure functions, so neither mutation of `state` nor mutation of callback arguments is represented. For the same reason, the resolver's `state` argument is dropped.
- Entries whose value is `undefined` cannot occur in the tree, because JSON and YAML input never holds `undefined`. So the source's skipping of such entries (src/traverse.ts:122-124, 134; src/transform.ts:212-214) has nothing to act on. A removal in `transform` deletes the key instead of storing `undefined`.
- JavaScript enumerates integer-like keys first. The model keeps a context as an ordered sequence of pairs and uses that order as it is.
- Numbers are integers, and `bigint` values count as numbers. Floating-point formatting by `String()` is not modelled.
- Reference identity (`===`) and copy-on-write are not modelled. They only decide which objects are fresh, and the model builds results by value. "The same map is returned when nothing changed" therefore appears as equality (`TransformProps.EntriesUnchanged`). The input is never written to, because every value is immutable.
- Transform.Transform: the recursion is bounded by the `depthLimit` parameter, which stands for the host's call stack. Its exact size is not modelled: a run that exceeds `depthLimit` ends in `RangeError("Maximum call stack size exceeded")`. `TransformProps.TransformKeepsCanonical` and `TransformProps.SingleBlockBecomesArray` require a limit at least the size of the tree.
- TransformProps.TransformIdempotent: the second pass is given a depth limit equal to the size of the output, not the limit of the first pass.
- A block instance that is not an object can only come from a caller-supplied resolver, or from an array holding any non-object element at a path in the parameterless set (every array there is a block without parameter). The model gives such an instance an `UnsupportedInstance` error. The source behaves differently. For a string, number, boolean or array instance it completes: `enterContext` is called, and the instance's characters or elements are visited as directives numbered by position. For a `null` instance it throws a `TypeError` from `Object.keys`. `transform` first drops a falsy instance, as the source does. In the same way, a block with parameter whose value is not an object (only possible with a caller-supplied resolver) fails with `UnsupportedInstance` before the `visitBlock` call, while the source calls `visitBlock` first. These host-dependent outcomes are not modelled.
- The `context` argument of `traverse`, `transform` and `stringify` is required. The source's default, `'main'` for `traverse` and `transform`, is not modelled.
- Errors.Ellipsis: lengths count code points, while `length` and `slice` count UTF-16 code units. So text holding characters outside the Basic Multilingual Plane is cut at a different place, and the source can cut a surrogate pair in half. The same holds for `Errors.Error.Message`.
- An empty explicit context path has an `undefined` root name in the source. The model uses the empty string.
- The end-to-end fixture of tests/transform.test.mjs:31-89 is not reproduced. Its transformers are test callbacks, and the properties they exercise are stated generally: selection by name and context (`TransformProps.EachTransformerMembers`), chain order (`TransformProps.RunSimpleAppend`) and rebuilding (`TransformProps.EntriesRebuilt`).
- Stringify.IndentUnit: the `indentation` count is a natural number. A negative or fractional count, which `repeat` rejects or truncates, is not modelled.
- Stringify.JsString: `String()` of a number or an array is defined, not stated, in the contract.
- Stringify.Writeln: a negative level gives a `RangeError`, as `repeat` does, but the message text is not checked against the host's wording.
- TraverseProps.ContextBrackets: "`leaveContext` runs once" is stated for the instance's own bracket. That the children's events hold no other `leaveContext` for it follows from `TraverseProps.TraverseWellNested`, not from this lemma.
- Traverse.Visit: the functions of the walk carry no contract of their own. Their behaviour is stated by the `TraverseProps` lemmas and, through the serializer, by `StringifyProps.StringifyIsPretty`.
- Brace balance in `stringify` is stated through the reference printer (`StringifyProps.StringifyIsPretty`), which writes every `{` line together with its `}` line, not through a count of braces.

## Findings

| source | as written | input that shows it | evidently intended | confidence | as-written member | corrected member |
|---|---|---|---|---|---|---|
| src/utils.ts:55-57 | `str.slice(0, -suffix.length)` with an empty suffix is `str.slice(0, -0)`, the empty string | `trimSuffix("server", "")` gives `""` (`Utils.TrimSuffixEmptyCounterexample`) | an empty suffix leaves the string unchanged: `"server"` | not executed; the only caller passes `'{}'`, so no output is affected | Utils.TrimSuffixAsWritten | Utils.TrimSuffix |
