# Antares query-builder core in Dafny

This project models `AntaresCore`, the abstract base class of the Antares database client.
Every engine adapter (MySQL, PostgreSQL, SQLite) extends it. It holds one mutable query state
`_query` with twelve fields, and its fluent mutators (`schema`, `select`, `from`, `into`, `delete`,
`where`, `groupBy`, `orderBy`, `limit`, `offset`, `update`, `insert`) change that state and
return the builder. The adapter renders the state to SQL with `getSQL`, and `run` renders, resets
the state to `_queryDefaults` and then executes the text with `raw`. The class also has a
standalone clause reducer `_reducer` and 27 administrative methods that the base class leaves as
throwing stubs.

Files and modules:

- `wrappers.dfy` (`Wrappers`): `Option` and `Result`.
- `js_values.dfy` (`JsValues`): the untyped JavaScript values that mutators accept, as a
  `Value` datatype, and the string conversion `${v}` that the reducer applies to them.
- `reducer.dfy` (`Reducer`): `_reducer`. `Reduced` is the reference function. `Reduce` and
  `PushClauses` have the source's switch and its `for...in`/`push` loop, and are proved equal to it.
- `query_state.dfy` (`QueryState`): the `Query` record, a field-by-field view of it (`Field`,
  `Get`), the defaults, one mutator call as a `Call` value, and its effect `Step`. `ApplyAll`
  gives the effect of a chain of calls, and the lemmas say what such a chain leaves in every field.
- `query_builder.dfy` (`QueryBuilder`): the class `AntaresCore`. Its field `query` is updated in
  place by one method per mutator, and each method's postcondition is `query == Step(old(query), …)`.
  The members adapters are meant to override (`getSQL`, `raw` and the administrative methods) are function fields of
  a `Dialect` value that the builder holds. `BaseDialect` holds the base class's stubs, which always throw.

A thrown `Error` is a `Failure` result. The adapter's members receive the builder's query state
as it is when they are called. `Run`'s contract therefore shows that `raw` already sees the reset
state, in whatever way an adapter renders or executes.

JavaScript objects are given by their enumerable properties in `for...in` enumeration order, as a
sequence of key/value pairs. A `null` limit or offset is `None`.

Two facts about the code shape the model:
- No mutator calls `_reducer`: `where`, `groupBy`, `orderBy` and `update` append their arguments
  verbatim (src/main/libs/AntaresCore.ts:105-136). `_reducer` is a standalone helper.
- `run` does not call `_logger` (src/main/libs/AntaresCore.ts:153-157).

## Model

| member | source | states |
|---|---|---|
| `JsValues.NatText` | src/main/libs/AntaresCore.ts:67 | the decimal text interpolated for a number is non-empty, all digits, and has no leading zero |
| `JsValues.NatTextRoundTrip` | src/main/libs/AntaresCore.ts:67 | reading that decimal text back gives the number |
| `Reducer.ObjectClauses` | src/main/libs/AntaresCore.ts:65-69 | the object branch yields one fragment per enumerated property, in order; fragment i is `"<key_i> <value_i>"` |
| `Reducer.PushClauses` | src/main/libs/AntaresCore.ts:65-69 | the `for...in`/`push` loop builds exactly those fragments |
| `Reducer.Reduce` | src/main/libs/AntaresCore.ts:54-72 | the reducer's switch on `typeof` returns what the reference `Reduced` defines, for every shape of argument |
| `Reducer.KeepsAccumulator` | src/main/libs/AntaresCore.ts:57-63 | a number or string is appended, and an array is appended flattened one level; the accumulator stays as an unchanged prefix, followed by the new items in order |
| `Reducer.DiscardsAccumulator` | src/main/libs/AntaresCore.ts:61-69 | a non-array object replaces the accumulator with its clause fragments, ignoring what was accumulated; `null` yields the empty list |
| `Reducer.UndefinedExactly` | src/main/libs/AntaresCore.ts:55-71 | the reducer returns `undefined` exactly when `typeof` matches no case (booleans, `undefined`) |
| `Reducer.FlattensOneLevel` | src/main/libs/AntaresCore.ts:58-63 | folding `1` then `[2, 3]` gives `[1, 2, 3]`; an array nested inside an array stays nested |
| `Reducer.ObjectReplaces` | src/main/libs/AntaresCore.ts:64-69 | `{a: '> 1'}` after an earlier fragment leaves only `['a > 1']` |
| `QueryState.Defaults` | src/main/libs/AntaresCore.ts:36-49 | every field of `_queryDefaults` is unset: empty string, empty list, `null` or `false` |
| `QueryState.FieldsDetermineQuery` | src/main/libs/AntaresCore.ts:36-49 | the twelve fields make up the whole state: states that agree on every field are equal |
| `QueryState.Step` | src/main/libs/AntaresCore.ts:78-142 | a mutator call leaves every field outside the ones it touches unchanged |
| `QueryState.Written` | src/main/libs/AntaresCore.ts:78-130 | a call writes a value into a field exactly when the field is a scalar field it touches |
| `QueryState.StepExtends` | src/main/libs/AntaresCore.ts:83-142 | a mutator never drops an accumulated entry: the old list is a prefix of the new one |
| `QueryState.StepWrites` | src/main/libs/AntaresCore.ts:78-130 | `schema`, `from`, `into`, `limit` and `offset` overwrite their field; `delete(t)` sets `delete = true` and `from = t` |
| `QueryState.StepAppends` | src/main/libs/AntaresCore.ts:105-136 | `where`, `groupBy`, `orderBy` and `update` append their arguments verbatim, after the old list |
| `QueryState.FromIntoAgree` | src/main/libs/AntaresCore.ts:88-96 | `from(t)` and `into(t)` have identical effects on every state |
| `QueryState.ApplyAllConcat` | src/main/libs/AntaresCore.ts:78-142 | chaining two sequences of fluent calls has the effect of their concatenation |
| `QueryState.ApplyAllSnoc` | src/main/libs/AntaresCore.ts:78-142 | a chain is its prefix followed by one more mutator step |
| `QueryState.ChainFrame` | src/main/libs/AntaresCore.ts:78-142 | after any chain, every field that none of its calls touches is unchanged |
| `QueryState.NoCallTouchesJoin` | src/main/libs/AntaresCore.ts:78-142 | no mutator touches `join` |
| `QueryState.ChainKeepsJoin` | src/main/libs/AntaresCore.ts:45 | `join` keeps its value through every chain of mutator calls; only the defaults set it |
| `QueryState.ChainSelect` | src/main/libs/AntaresCore.ts:83-86 | after a chain, `select` is the old columns followed by all selected columns, in call order |
| `QueryState.ChainClauses` | src/main/libs/AntaresCore.ts:105-136 | after a chain, each clause list is its old clauses followed by the arguments of its mutator's calls, in order |
| `QueryState.ChainInsert` | src/main/libs/AntaresCore.ts:139-142 | after a chain, `insert` is the old rows followed by the rows of every `insert(arr)`, in order |
| `QueryState.ChainLastWrite` | src/main/libs/AntaresCore.ts:78-130 | after a chain, each scalar field holds the value of the last call that wrote it, or its old value if no call did |
| `QueryState.ChainState` | src/main/libs/AntaresCore.ts:78-142 | the whole state after any chain is `ChainResult`: each list field is its old list followed by the chain's arguments for it in call order, each scalar field holds its last written value, and `join` is unchanged |
| `QueryBuilder.BaseDialect` | src/main/libs/AntaresCore.ts:144-267 | the base `getSQL`, `raw` and every administrative method fail on every state, with a not-implemented error naming the method, whose message is the source's exact text |
| `QueryBuilder.AntaresCore.constructor` | src/main/libs/AntaresCore.ts:29-51 | a new builder's state equals `_queryDefaults`, which equals `Defaults()` |
| `QueryBuilder.AntaresCore.ResetQuery` | src/main/libs/AntaresCore.ts:74-76 | resetting makes the query state equal to the defaults again; the defaults themselves are unchanged |
| `QueryBuilder.AntaresCore.Schema` | src/main/libs/AntaresCore.ts:78-81 | the new state is one `schema` step from the old one; returns the same builder |
| `QueryBuilder.AntaresCore.Select` | src/main/libs/AntaresCore.ts:83-86 | the new state is one `select` step from the old one; returns the same builder |
| `QueryBuilder.AntaresCore.From` | src/main/libs/AntaresCore.ts:88-91 | the new state is one `from` step from the old one; returns the same builder |
| `QueryBuilder.AntaresCore.Into` | src/main/libs/AntaresCore.ts:93-96 | the new state is one `into` step from the old one; returns the same builder |
| `QueryBuilder.AntaresCore.Delete` | src/main/libs/AntaresCore.ts:98-102 | sets the flag, then calls `from`; the new state is one `delete` step from the old one |
| `QueryBuilder.AntaresCore.Where` | src/main/libs/AntaresCore.ts:105-108 | the new state is one `where` step from the old one; returns the same builder |
| `QueryBuilder.AntaresCore.GroupBy` | src/main/libs/AntaresCore.ts:111-114 | the new state is one `groupBy` step from the old one; returns the same builder |
| `QueryBuilder.AntaresCore.OrderBy` | src/main/libs/AntaresCore.ts:117-120 | the new state is one `orderBy` step from the old one; returns the same builder |
| `QueryBuilder.AntaresCore.Limit` | src/main/libs/AntaresCore.ts:122-125 | the new state is one `limit` step from the old one; returns the same builder |
| `QueryBuilder.AntaresCore.Offset` | src/main/libs/AntaresCore.ts:127-130 | the new state is one `offset` step from the old one; returns the same builder |
| `QueryBuilder.AntaresCore.Update` | src/main/libs/AntaresCore.ts:133-136 | the new state is one `update` step from the old one; returns the same builder |
| `QueryBuilder.AntaresCore.Insert` | src/main/libs/AntaresCore.ts:139-142 | the new state is one `insert` step from the old one; returns the same builder |
| `QueryBuilder.AntaresCore.Apply` | src/main/libs/AntaresCore.ts:78-142 | calling any one mutator moves the state by exactly one `Step` and returns the same builder |
| `QueryBuilder.AntaresCore.Chain` | src/main/libs/AntaresCore.ts:78-142 | a fluent chain of mutator calls leaves the state `ApplyAll(old state, calls)`, which the `Chain…` lemmas describe field by field |
| `QueryBuilder.AntaresCore.GetSQL` | src/main/libs/AntaresCore.ts:144-146 | the result is the adapter's rendering of the current state; the state is untouched |
| `QueryBuilder.AntaresCore.Raw` | src/main/libs/AntaresCore.ts:149-151 | the result is the adapter's execution of the text, seeing the current state; the state is untouched |
| `QueryBuilder.AntaresCore.Admin` | src/main/libs/AntaresCore.ts:161-267 | an administrative method returns what the adapter defines for it; the state is untouched |
| `QueryBuilder.AntaresCore.Run` | src/main/libs/AntaresCore.ts:153-157 | renders the state as it was before the call. If rendering fails, the failure is returned, the state is not reset and `raw` is not called. Otherwise the state is reset to the defaults and the result is `raw` of exactly the rendered text and the given args, run on the reset state |

`AntaresCore.Chain` connects the class to the chain lemmas: after a fluent chain the state is
`ApplyAll` of the calls, `ChainState` equates it with the record `ChainResult`, and that is what `run` renders.
Together with `BaseDialect`, `Run`'s contract says that on the base class `run` fails with the
`getSQL` error and leaves the state as it was.

## Left out

- `queryLogger` and the stored `_logger` (src/main/libs/AntaresCore.ts:6-14, 34): they are
  output-only side effects (IPC to the desktop window, console). No code shown calls the logger.
- `_client`, `_cUid`, `_params` and `_poolSize`, which the constructor stores
  (src/main/libs/AntaresCore.ts:30-33), and the optional field `_ssh` (src/main/libs/AntaresCore.ts:24),
  which nothing shown assigns: connection plumbing that nothing shown reads.
- The asynchronous nature of `raw`: it is a synchronous call that returns a `Result`. A rejected
  promise and a thrown error are both a `Failure`. Concurrency between executions belongs to the
  transport.
- Adapter overrides of the mutators or `run`: an adapter can override any non-private method, but
  only `getSQL`, `raw` and the administrative methods are overridable in the model. `_resetQuery`
  is private (src/main/libs/AntaresCore.ts:74), and `run` calls it directly.
- Side effects of adapter code: an adapter's `getSQL`, `raw` or administrative method is a
  function of the state. An override that itself mutates the builder is not covered.
- Concrete SQL rendering: no adapter is part of this model, so `getSQL` stays abstract.
- The administrative methods' result types: every result is a `Value`.
- JavaScript numbers are integers. Fractions, `NaN`, `-0` and the exponent notation that
  `String()` uses from 1e21 on are not covered.
- Values whose `typeof` is `function`, `symbol` or `bigint` are not in `Value`. The reducer
  returns `undefined` for each of them, as it does for booleans.
- Custom `toString` methods and inherited enumerable properties of objects: an object is exactly
  the property sequence given for it.
- Aliasing: `Object.assign` makes a shallow copy, so `_query`'s lists start out shared with
  `_queryDefaults`. Every list mutator rebinds its field to a fresh array and never changes the
  shared one, so value semantics gives the same observable states. The model does not represent
  the arrays as heap objects. The mutators also keep the caller's own objects by reference:
  `insert` stores the row objects, and `where`, `groupBy`, `orderBy` and `update` store array and
  object arguments (src/main/libs/AntaresCore.ts:106-140). A caller that mutates such an argument
  after the call changes `_query` in the source, but not in the model.
- src/renderer/composables/useResultTables.ts is not part of this model: it is UI code made of
  reactive references, IPC calls and notifications.
