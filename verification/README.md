# better-mobx store core, modelled in Dafny

better-mobx is a thin policy layer over MobX that turns a plain definition
record (data fields plus methods) into a *store*. This project models the
four pieces of logic the repository itself implements and proves what they
promise:

- **Setter synthesis** (`addValueSettersWhereNoExist`). For every own key
  whose value is not a function, a setter named `set` + the key with its first
  character upper-cased is added in place, unless a key of that name already
  exists. For a getter-only accessor, the setter always throws an error that
  names the field. Otherwise it assigns the field. Module `AddSetters`
  (`add_setters.dfy`).
- **Store construction and dispatch** (`createStore`). Setter synthesis runs
  first. Every key whose own descriptor has a defined `value` is annotated
  `observable`. Every function field, the synthesized setters included, is
  replaced by a dispatcher. The dispatcher calls the field's memoized form
  directly while a derivation is being computed, and inside `runInAction`
  otherwise. Module `CreateStore` (`create_store.dfy`).
- **MobX, as abstract state.** The state is the `_isComputingDerivation` flag,
  the depth of open transactions, and one dependent reaction with its
  notification count. The batching rule is an assumption about MobX, not
  code of this repository: a value-changing write notifies the reaction at
  once outside any transaction, and inside one only marks it stale until the
  outermost transaction closes. Writes that leave a value as it was are not
  counted as writes. Module `MobxEngine` (`mobx_engine.dfy`).
- **The `console.warn` filter.** A call is dropped exactly when some argument
  is a string containing one of two fixed MobX warning texts. Otherwise it is
  forwarded unchanged. Module `ConsoleOverrides` (`console_overrides.dfy`).
- **The reaction wrapper** (`createReaction`). This is a one-slot state
  machine: each tracked run stores what `def` returns (or a no-op) in the
  `andThen` slot, and the effect calls the slot. Module `CreateReaction`
  (`create_reaction.dfy`).

Values follow `src/types.ts` (`Values`, `values.dfy`). A value is JSON data,
a function, or `undefined`. Functions are tokens: opaque caller functions,
plus the closures the library creates (the two synthesized setters, the
dispatcher and the no-op). An object is its own keys in `Object.keys` order
plus a map from key to descriptor (data or accessor). Code the core calls but
cannot see becomes a parameter:

- what a getter returns;
- what a field's memoized form does (how many value-changing observable
  writes it makes, and whether it returns or throws);
- what `def` returns on each run.

Two facts about the code that are easy to misread:

- The callback `def` returns is not a cleanup. Only the reaction's effect
  calls it, and `fireImmediately` fires the effect right after the first
  tracked run. The disposer only forwards to MobX's `dispose`.
  `CreateReaction.RegistrationRunsDefOnce` and `CreateReaction.Reaction.Dispose`
  state this.
- `createStore` skips every key whose own `value` is `undefined`, accessors
  included (`CreateStore.AnnotatedKeys`).

## Model

| member | source | states |
|---|---|---|
| `AddSetters.Upper` | src/addSetters.ts:7 | upper-cases an ASCII lower-case letter (code point minus 32) and leaves every other character unchanged |
| `AddSetters.SetterName` | src/addSetters.ts:6-8 | the setter name is "set", then the key's first character upper-cased, then the rest of the key unchanged; its length is the key's plus 3 |
| `AddSetters.SetterNameCollision` | src/addSetters.ts:6-8 | two keys get the same setter name if and only if they have the same length and differ at most in the case of their first character |
| `AddSetters.HasGetterButNoSetter` | src/addSetters.ts:9-13 | holds only for an own accessor with a `get` function, which is what reading the key returns; assigning to such a key always throws; an own accessor with neither `get` nor `set` reads as `undefined` |
| `AddSetters.GetterOnlyMessage` | src/addSetters.ts:31-33 | the getter-only error message begins `property "` and names the field right after it |
| `AddSetters.SynthesizedSetter` | src/addSetters.ts:29-39 | the setter made for key `k` is about `k`, and it is the throwing kind exactly when `k` has a getter but no setter |
| `AddSetters.Step` | src/addSetters.ts:19-40 | one run of the callback changes the object exactly when the key's value is not a function and its setter name is not yet a key |
| `AddSetters.FoldKeeps` | src/addSetters.ts:19-40 | running the callback over any keys never changes a descriptor already there, keeps the existing keys first and in order, and adds at most one key per visited key |
| `AddSetters.WithSetters` | src/addSetters.ts:16-40 | the whole pass keeps every existing descriptor and the existing keys first and in order, and at most doubles the number of keys |
| `AddSetters.FirstClaimantIsEarliest` | src/addSetters.ts:19-28 | the first key of the visited keys that claims a setter name is the earliest non-function key with that setter name; there is none exactly when no visited key claims it |
| `AddSetters.EarliestIsFirstClaimant` | src/addSetters.ts:19-28 | a non-function key with no earlier key claiming its setter name is the first claimant of that name |
| `AddSetters.FoldFacts` | src/addSetters.ts:19-40 | running the callback over original keys never changes an existing descriptor; a new key appears exactly when some visited key claims it, and it holds that first key's synthesized setter; original keys stay first and in order; well-formedness is kept |
| `AddSetters.FoldDomain` | src/addSetters.ts:19-39 | over keys of the original object, a new key appears exactly when some visited key claims it as its setter name, and it holds the setter of the first such key |
| `AddSetters.FoldWellFormed` | src/addSetters.ts:28-39 | adding setters keeps every key listed once and exactly the keys that have descriptors |
| `AddSetters.NoOverwrite` | src/addSetters.ts:23-27 | after synthesis every pre-existing key, of any type, holds its original descriptor, and the original keys lead in their original order |
| `AddSetters.WithSettersKeys` | src/addSetters.ts:19-39 | the key set after synthesis is the original keys plus the setter name of every original key whose value is not a function |
| `AddSetters.SynthesizedEntry` | src/addSetters.ts:19-39 | a key absent before synthesis exists afterwards if and only if some non-function key claims it; it then holds the setter of the earliest such key |
| `AddSetters.FunctionFieldGetsNoSetter` | src/addSetters.ts:20-22 | no synthesized entry is a setter for a field whose value is a function |
| `AddSetters.WinnerGetsSetter` | src/addSetters.ts:28-39 | the earliest claimant of an absent setter name gets its synthesized setter under that name |
| `AddSetters.Assign` | src/addSetters.ts:37 | `obj[key] = v` throws exactly for an accessor without `set`; otherwise the key reads `v` (unless it is an accessor, whose own setter runs), a missing key is appended to the keys and existing keys keep their order, and every other key is unchanged |
| `AddSetters.CallSetter` | src/addSetters.ts:30-38 | an assigning setter for a data field or a missing key always succeeds, and the field then reads `v`; a call throws only for the getter-only setter or for an accessor without `set`; every other field is unchanged |
| `AddSetters.RepeatedSetterCalls` | src/addSetters.ts:36-38 | an assigning setter called twice on a data field or missing key succeeds both times; the field then reads the second value and the keys are as the first call left them |
| `AddSetters.SetterRoundTrip` | src/addSetters.ts:35-38 | for a plain data field that wins its setter name, the synthesized setter called with `v` succeeds; the field then reads `v`; the keys and every other field are unchanged |
| `AddSetters.GetterOnlySetterThrows` | src/addSetters.ts:29-34 | for a getter-only field that wins its setter name, the synthesized setter always throws, and the message names the field |
| `AddSetters.CustomSetterKept` | src/observable.test.ts:75-95 | a definition `{a, setA()}` is unchanged by synthesis: `setA` is not replaced and no `setSetA` is added |
| `AddSetters.FirstKeyWinsCollision` | src/addSetters.ts:23-28 | for keys `a` then `A`, the only key added is `setA`, and it assigns `a` |
| `AddSetters.StoreObject.AddValueSettersWhereNoExist` | src/addSetters.ts:15-50 | mutates the object in place into the synthesis result over the keys present when iteration starts, and returns that same object |
| `AddSetters.StoreObject.Put` | src/addSetters.ts:37 | the in-place assignment `obj[key] = v`: on success the new state is that of `Assign`; when it throws, nothing changes |
| `AddSetters.StoreObject.Invoke` | src/addSetters.ts:30-38 | calling a synthesized setter in place: it assigns the field, or throws the getter-only error with the object unchanged |
| `MobxEngine.AfterWrite` | src/observable.test.ts:200-202 | a write keeps the transaction depth and the derivation flag, and leaves nothing pending once no transaction is open |
| `MobxEngine.AfterWrites` | src/observable.test.ts:200-202 | any number of writes keeps the depth and the derivation flag, and keeps the state settled |
| `MobxEngine.UnbatchedWrites` | src/observable.test.ts:200-202 | outside any transaction, `n` writes notify the dependent reaction `n` times |
| `MobxEngine.WritesInBatch` | src/observable.test.ts:192-197 | inside a transaction, writes notify nobody and only mark the reaction stale |
| `MobxEngine.BatchedWrites` | src/observable.test.ts:192-197 | any number of writes inside one outermost transaction notify the reaction once, or not at all when there are none |
| `MobxEngine.Engine.Write` | src/observable.test.ts:200-202 | one write changes the engine state as `AfterWrite` says and leaves the trace alone |
| `MobxEngine.Engine.Materialize` | typescript-library-boilerplate/src/createStore.ts:28-34 | calling the memoized form returns its outcome, records one materialization, and makes its writes |
| `MobxEngine.Engine.RunInAction` | typescript-library-boilerplate/src/createStore.ts:25-31 | the transaction opens, the memoized form runs once, and the transaction closes whether the call returns or throws; the outcome is passed through |
| `CreateStore.OwnValue` | typescript-library-boilerplate/src/createStore.ts:17-18 | an accessor has no own `value`; a defined own `value` belongs to a data property and is what reading the key returns |
| `CreateStore.Annotations` | typescript-library-boilerplate/src/createStore.ts:16-22 | a key is annotated if and only if it is a data property whose value is not `undefined` |
| `CreateStore.Wrapped` | typescript-library-boilerplate/src/createStore.ts:23-39 | keys and their order are kept; every non-function field is unchanged; every function left is a dispatcher |
| `CreateStore.StoreFields` | typescript-library-boilerplate/src/createStore.ts:13-39 | the store has the keys produced by setter synthesis; non-function fields are unchanged; each function field holds a dispatcher around its original function; each synthesized setter is wrapped in a dispatcher |
| `CreateStore.AnnotatedKeys` | typescript-library-boilerplate/src/createStore.ts:17-22 | the annotated keys are exactly the definition's keys whose own `value` is defined, plus every synthesized setter |
| `CreateStore.OnlyDispatchersRemain` | typescript-library-boilerplate/src/createStore.ts:23-39 | every function value left in the store is a dispatcher |
| `CreateStore.MakeObservable` | typescript-library-boilerplate/src/createStore.ts:42-45 | instruments exactly the annotated keys, in place, and returns the same object |
| `CreateStore.AnnotateStep` | typescript-library-boilerplate/src/createStore.ts:16-40 | visiting one more key adds it to the annotations exactly when its own value is defined, and wraps it exactly when that value is a function |
| `CreateStore.AnnotateAndWrap` | typescript-library-boilerplate/src/createStore.ts:16-40 | the loop builds the annotation map of every key with a defined own `value`, and replaces every function field by its dispatcher in place |
| `CreateStore.CreateStore` | typescript-library-boilerplate/src/createStore.ts:12-47 | returns the object it was given; setters are synthesized, function fields wrapped, and the annotated keys made observable, in that order |
| `CreateStore.ModeFor` | typescript-library-boilerplate/src/createStore.ts:33-37 | the dispatcher goes through `runInAction` exactly when no derivation is being computed |
| `CreateStore.AfterDispatch` | typescript-library-boilerplate/src/createStore.ts:25-38 | a dispatcher call keeps the transaction depth and the derivation flag, and in action mode notifies the reaction at most once, however many writes it makes |
| `CreateStore.DispatchRestoresDepth` | typescript-library-boilerplate/src/createStore.ts:25-38 | after a dispatcher call, in either mode, the transaction depth and the derivation flag are as before, and nothing is left pending |
| `CreateStore.ActionDispatchNotifiesOnce` | typescript-library-boilerplate/src/createStore.ts:25-36 | called outside any transaction and derivation, a dispatcher's writes notify the dependent reaction at most once |
| `CreateStore.NestedDispatchDefers` | typescript-library-boilerplate/src/createStore.ts:25-36 | called inside an open transaction, a dispatcher notifies nobody and only marks the reaction stale |
| `CreateStore.ThreeWritesInOneAction` | src/observable.test.ts:118-124 | three setter calls made inside one store action notify the reaction once; three plain writes outside an action notify it three times |
| `CreateStore.Dispatch` | typescript-library-boilerplate/src/createStore.ts:32-38 | while a derivation is being computed, the memoized form is called directly and no transaction is opened; otherwise it runs inside exactly one `runInAction`; either way its result or exception is returned unchanged and the depth is restored |
| `ConsoleOverrides.Includes` | src/consoleOverrides.ts:12 | `s.includes(sub)` holds exactly when `sub` occurs in `s` at some position |
| `ConsoleOverrides.TriggersNoop` | src/consoleOverrides.ts:10-12 | only a string argument can trigger dropping |
| `ConsoleOverrides.Suppressed` | src/consoleOverrides.ts:9-17 | a dropped call has at least one argument, and one of them is a string |
| `ConsoleOverrides.Warn` | src/consoleOverrides.ts:8-19 | the call is dropped if and only if some argument is a string containing one of the two fixed texts; otherwise the original is called once, with the identical arguments in the same order |
| `ConsoleOverrides.NonStringsNeverSuppress` | src/consoleOverrides.ts:10 | a call whose arguments are all non-strings (including a call with none) is never dropped |
| `ConsoleOverrides.SuppressionIsPerArgument` | src/consoleOverrides.ts:9-17 | a call is dropped if and only if some part of its arguments would be dropped on its own |
| `ConsoleOverrides.EachTextSuppresses` | src/consoleOverrides.ts:1-4 | any string embedding either fixed text drops the call |
| `CreateReaction.Initial` | src/createReaction.ts:4 | the slot starts as what a run of `def` returning nothing stores (the no-op); nothing has run or been called, and the reaction is live |
| `CreateReaction.SlotValue` | src/createReaction.ts:7 | a returned function is stored as is; the slot holds the no-op exactly when `def` returned nothing or the no-op |
| `CreateReaction.Apply` | src/createReaction.ts:6-9 | a disposed reaction never changes; one event counts at most one run of `def`, calls at most one callback and only the one already in the slot, and changes the slot only by a tracked run |
| `CreateReaction.RunFacts` | src/createReaction.ts:4-9 | from the start, the slot holds what the latest tracked run stored (the no-op before any); `def` has run once per tracked run; the reaction is disposed exactly when a disposal came |
| `CreateReaction.EffectCallsLatest` | src/createReaction.ts:9 | the effect calls the callback stored by the most recent tracked run, and nothing else |
| `CreateReaction.RegistrationRunsDefOnce` | src/createReaction.ts:5-11 | registration with `fireImmediately` runs `def` once and then calls the callback it returned |
| `CreateReaction.NothingAfterDisposal` | src/createReaction.ts:13 | once disposed, no further event runs `def` or any callback |
| `CreateReaction.Reaction.constructor` | src/createReaction.ts:3-11 | the slot starts as the no-op, then one tracked run and one firing of the effect happen |
| `CreateReaction.Reaction.Track` | src/createReaction.ts:6-8 | a tracked run overwrites the slot with what `def` returned (or the no-op), counts one call of `def`, and yields `undefined` |
| `CreateReaction.Reaction.Effect` | src/createReaction.ts:9 | the effect calls the callback in the slot |
| `CreateReaction.Reaction.Dispose` | src/createReaction.ts:13 | the disposer forwards to the engine's `dispose` and calls no stored callback |

## Left out

- `AddSetters.Upper`: upper-cases ASCII letters only. Unicode case mapping
  (which can change length, as `ß` does) and `slice` splitting a surrogate
  pair are not modelled. So the setter-name length `|key| + 3` holds in the
  model but not for every JavaScript string.
- The `in` test for an existing setter is modelled as own-key membership.
  No inherited `Object.prototype` member starts with `set`.
- Symbol keys, non-enumerable properties, non-writable data properties and
  the ordering rule for integer-like keys are not modelled. `Object.keys` is
  insertion order.
- What a getter returns is a parameter. An accessor's own `set` function is
  caller code: assigning through it leaves the descriptors unchanged, and
  its effect is not modelled.
- `AddSetters.ReadOnlyMessage`: the text of the `TypeError` that strict-mode
  assignment to an accessor without `set` raises is engine-specific; the
  model uses a stand-in that names the key.
- `CreateStore.MakeObservable`: records only which keys are annotated. How
  MobX instruments reads and writes is not modelled.
- `MobxEngine.Engine.Materialize`: the memoized form's caching, eviction and
  dependency tracking (`computedFn`) are folded into the `behaviour`
  parameter. Writes made while a derivation is computed are treated like
  any other writes.
- The MobX batching rule is an assumption about MobX, stated for a single
  dependent reaction. Notification order among several reactions is not
  modelled. `MobxEngine.AfterWrite` and `MobxEngine.Effect` count only
  writes that change a value; a write of an equal value notifies nobody in
  MobX and is simply not counted here.
- `CreateReaction.Registration` and `CreateReaction.Reaction.constructor`
  describe registration outside any batch. Inside an action, or while
  reactions are running, MobX delays the first tracked run and effect until
  the batch ends; that delay is not modelled.
- The reaction engine's scheduling is not modelled. After registration it
  delivers events, and the model does not say when MobX fires the effect
  again. Exceptions thrown by `def` or by callbacks are not modelled.
- The global reassignment of `console.warn` and the console output itself
  are left out. `Warn` returns the arguments it would forward.
- JavaScript numbers are modelled as integers. Floating point is not used by
  the core.
- src/createMaterialization.ts, src/createView.ts, src/derived.ts,
  src/mobxConfiguration.ts, src/index.ts, the React demo files and the build
  configuration are not part of this model. They are re-exports, UI or
  configuration.
