# eth-gas-reporter core, modelled in Dafny

`index.js` of eth-gas-reporter defines `Gas`, a Mocha reporter. It ties each
test to a window of Ethereum blocks so that the gas of the transactions mined
there can be charged to that test. At run end it writes one JSON report of the
sanitized test results. This project models two parts of that file and proves
properties of them:

- **The event correlator** (`correlator.dfy`, module `Correlator`). The
  `runner.on(...)` handlers form a pure function `Step(cfg, state, event,
  block)`. The state holds the four append-only buffers `tests`, `pending`,
  `failures` and `passes`. It also holds the block-window fields
  `beforeStartBlock` and `itStartBlock` of the watcher, the
  `runner.testResults` slot, and the reports written to standard output.
  Counters record the calls into collaborators that are not visible here:
  `sync.blockNumber`, `watch.data.initialize` and
  `watch.data.resetAddressCache`. The block number that `sync.blockNumber()`
  would return is passed to each step as an argument. `Run` folds `Step` over
  a sequence of `Tick`s, each an event paired with that block number.
- **The result sanitizer** (`sanitizer.dfy`, module `Sanitizer`). It covers
  `errorJSON`, `cleanCycles` and `clean`. Objects live in a finite heap
  (`JsValues.Heap`): a sequence of nodes indexed by object identity. A node
  holds its own properties (key, value, enumerable flag), whether it is an
  `instanceof Error`, and the string that `"" + obj` yields for it.
  `cleanCycles` is the depth-first walk `Walk`/`WalkProps`. Its cache is a
  list shared by the whole traversal. The walk terminates because each
  expansion pushes an identity that is not yet in the cache, and that shrinks
  the set of unvisited heap identities.
  Shared references that are not cycles ("diamonds") are also replaced by
  their string form. This is the behaviour of the code, and the model keeps
  it.

`js_values.dfy` (module `JsValues`) holds the value model: primitives,
references, heaps, truthiness, and the output `Tree`. The output `Tree` is a
finite, acyclic datatype. `text.dfy` (module `Text`) holds
`String.prototype.includes`.

Two facts about the block window shape what the model proves:

- `Step` sets `itStartBlock` only on a hook end whose title contains
  "before each", and only when no provider is configured (index.js:82).
- `index.js` never clears `itStartBlock`; it is assigned only at index.js:83.
  So "the window floor `itStartBlock` lies strictly above the test's start
  block `beforeStartBlock`" is proved only within one test
  (`Correlator.WindowOpensWithinTest`). `Correlator.StaleWindowCarriesOver`
  shows that it fails across tests.

## Model

| member | source | states |
|---|---|---|
| Correlator.Step | index.js:62-112 | Each event appends its test to its own buffer and leaves the other three unchanged: TestEnd feeds `tests`, TestPending feeds `pending`, TestPass feeds `passes`, TestFail feeds `failures`. TestBegin sets `beforeStartBlock` to the queried block only when no provider is configured, and always resets the address cache once. A hook end sets `itStartBlock` to block + 1 exactly when its title contains "before each" and no provider is set. Otherwise `itStartBlock` is unchanged. One query is made for each block field that is set, and none otherwise. RunBegin initializes the watcher data once. RunEnd sets `testResults` and writes exactly that report once. The report's four lists are the four buffers mapped through `clean`, in the same order. No other event writes. |
| Correlator.CleanAll | index.js:100-103 | `buffer.map(clean)`: same length, and element i is `clean` of element i of the buffer. |
| Correlator.RunBuffers | index.js:66-93 | Over any event sequence, each buffer ends as its initial contents followed by the tests of exactly the events that feed it, in event order. |
| Correlator.RunQueries | index.js:74-85 | A run makes one block-number query per TestBegin and per "before each" hook end when no provider is configured. With a provider it makes none, and neither block field ever changes. |
| Correlator.RunWrites | index.js:95-112 | Each RunEnd writes one report and earlier reports are never altered. The number written is the number of RunEnd events. |
| Correlator.RunEndReports | index.js:95-109 | A run whose only RunEnd is its last event writes exactly one report, also stored as `testResults`. It carries the host's stats and gas report. Each of its four lists is `clean` applied to the tests that fed that buffer, in event order. |
| Correlator.WindowFollowsTestStart | index.js:74-85 | The two-event case. Without a provider, a test start at block b1 immediately followed by a "before each" hook end at block b2 gives `beforeStartBlock = b1` and `itStartBlock = b2 + 1`, from two queries. When b2 >= b1, `itStartBlock > beforeStartBlock`. |
| Correlator.WindowOpensWithinTest | index.js:74-85 | Without a provider, take a test start at b1 followed by any hook ends of the same test. Suppose there is no further test start, no block number is below b1, and at least one hook is a "before each" hook. Then `beforeStartBlock = b1` and `itStartBlock > beforeStartBlock`. Other hooks do not disturb either field. |
| Correlator.StaleWindowCarriesOver | index.js:74-85 | A test start at b1, a "before each" hook end at b2, then a second test start at b3 with no hook. This leaves `itStartBlock = b2 + 1` from the first test while `beforeStartBlock = b3`. When b3 > b2, the floor is no longer above the start block. |
| Correlator.Start | index.js:40-44 | The reporter starts with four empty buffers. No block field is set, none of `sync.blockNumber`, `watch.data.initialize` or `watch.data.resetAddressCache` has been called, `testResults` is unset and nothing has been written. |
| Correlator.Assemble | index.js:98-105 | The run-end `obj` carries the host's `stats` and gas report. Each of its four lists is the matching buffer mapped through `clean`, with the same length and order. |
| Correlator.OnePassingTest | index.js:62-112 | The event sequence run-begin, test-begin, "before each" hook end, test-pass, test-end, run-end writes one report. Its `tests` and `passes` are both `[clean(t)]` and its `pending` and `failures` are empty. |
| Correlator.PassingTestQueries | index.js:74-85 | The same run makes two block-number queries without a provider and none with one. |
| Text.IncludesSpec | index.js:82 | `title.includes(sub)` holds exactly when `sub` occurs at some position of `title`. This is the contract of the scanning function `Text.Includes`, which `Step` calls on the hook title. |
| Sanitizer.CopyOwnProps | index.js:173-175 | The copy has the same keys in the same order and the same values. Every copied property is enumerable. Every lookup gives the same answer as on the original. Its serialized keys are the error's own keys whose value is not `undefined`, enumerable or not. |
| Sanitizer.ErrorJSON | index.js:171-177 | `errorJSON(err)` is a plain (non-Error) object. Its key list equals the error's own property names, non-enumerable ones included. Each value is copied unchanged. |
| Sanitizer.Walk | index.js:150-160 | The cache only grows by appending identities of heap objects, and it never repeats an identity. The output has exactly one object per identity newly pushed, so each object is expanded at most once. A primitive passes through unchanged. An object already in the cache becomes its string coercion, whether or not the repeat is a cycle. Any other object is pushed first and then expanded into exactly its serialized keys. |
| Sanitizer.WalkProps | index.js:149-161 | Over the properties of one object, the output keys are exactly the enumerable, non-`undefined` keys in order. The cache grows without repeats, by one identity per expanded object. |
| Sanitizer.CleanCycles | index.js:147-162 | `cleanCycles` throws (`None`) exactly when its argument is `undefined`. Otherwise it returns a finite tree with at most as many objects as the heap has. A primitive comes back unchanged. An object comes back as an object with exactly its serialized keys. |
| Sanitizer.RootSelfReferenceCut | index.js:147-156 | The replacer is called on the root first, so the root is in the cache before any of its properties is visited. A serialized property of the root that refers back to the root is written as the root's string form at depth one, at the output position given by the number of properties written before it. |
| Sanitizer.WalkCopiesUnshared | index.js:150-160 | If the plain structural copy of a value meets no identity twice, counting those already in the cache, the walk returns exactly that copy. It then pushes exactly the identities the copy expands, in visiting order. |
| Sanitizer.WalkPropsCopiesUnshared | index.js:149-161 | The same statement for the property list of one object. |
| Sanitizer.CleanCyclesCopiesUnshared | index.js:147-162 | A value from which no object identity is reachable twice is copied structurally unchanged by `cleanCycles`. |
| Sanitizer.SiblingRepeatReplaced | index.js:152-156 | When two serialized properties of one property list, at any positions i < j, refer to the same object, property j is written as that object's string form, with or without a cycle. Its output position is the number of properties written before it. |
| Sanitizer.CachedRefCut | index.js:152-156 | Once an object is in the cache, walking any property list writes every serialized property that refers to it as the object's string form. It lands at the output position given by the number of properties written before it. |
| Sanitizer.DiamondIsFlattened | index.js:147-162 | `cleanCycles({a: o, b: o})` with `o = {}` gives `{a: {}, b: "[object Object]"}`. |
| Sanitizer.ErrorToClean | index.js:124-127 | The value that `clean` hands to `cleanCycles` is never `undefined`, so `clean` never takes the `JSON.parse` error path for the values modelled. A truthy function or `Symbol` `err` would reach that path in the source, and those values are left out. |
| Sanitizer.Clean | index.js:123-138 | `clean(test)` copies `title`, `fullTitle()`, `file`, `duration`, `currentRetry()` and `speed` from the handle. A falsy `err` becomes the sanitized empty object `{}`. A truthy non-Error `err` is `cleanCycles(err)`. An `Error` is flattened first: its sanitized form is `cleanCycles` of the `errorJSON` copy, allocated as a fresh object. So it has exactly the error's own defined keys, `message` and `stack` included, and their values pass through that walk. |
| Sanitizer.ErrorPrimitivesKept | index.js:123-136 | An `Error` whose own values are all primitives is cleaned to exactly its own (key, value) pairs whose value is not `undefined`, in order, enumerable or not. So `message` and `stack` come through with their values. |
| Sanitizer.SelfCausedErrorIsCut | index.js:123-161 | Take the error `SelfCaused`: non-enumerable `message` and `stack`, then an enumerable `cause === err` as its only object-valued property. `clean` keeps `message`, `stack` and `cause`. The original error is expanded once, under `cause`, and its own `cause` becomes the error's string form. |

The output record `TestRecord` has exactly the seven fields `title`,
`fullTitle`, `file`, `duration`, `currentRetry`, `speed` and `err`. This holds
by construction of the datatype.

## Left out

- Mocha plumbing is not modelled: `Base.call`, the `mochaStats` fallback, `self.stats` (index.js:32-38) and `self.epilogue()` (index.js:111). `self.stats` is an opaque value carried by the RunEnd event.
- The internals of `Config`, `TransactionWatcher` and `GasTable` are not visible. `watch.data.initialize` and `watch.data.resetAddressCache` are recorded only as call counts. The result of `table.saveCodeChecksData(watch.data)` is an opaque value carried by the RunEnd event.
- `sync.blockNumber()` is a blocking RPC call. Its result is the `block` argument of each step. A failing query, which the source lets propagate as an exception, is not modelled.
- `utils.setGasAndPriceRates(config)` (index.js:57-58) is a cloud fetch that nothing awaits. It does not affect any state modelled here.
- The `options.attachments.recordTransaction` binding (index.js:53-55) is plugin wiring and is not modelled.
- Several edge cases of `JSON.stringify`/`JSON.parse` are not modelled:
  - `toJSON`;
  - function and symbol values;
  - BigInt values, on which `JSON.stringify` throws a `TypeError` (a second way for `cleanCycles` to throw);
  - `NaN` and `Infinity`, and non-integer numbers (numbers are integers here);
  - arrays: index keys, `undefined` written as `null`, and `join` as string coercion;
  - the enumeration order of integer-like keys.

  The model does keep two rules: non-enumerable properties are skipped, and `undefined`-valued properties are dropped.
- The final `JSON.stringify(obj, null, 2)` of the report and the `process.stdout.write` call are not modelled. Writing is modelled as appending the report to `written`. As a result, `undefined` record fields are not dropped there. A report that fails to serialize is not modelled.
- String coercion `"" + obj` is the node's `repr` field, as the heap supplies it. It is not derived from prototypes, and a coercion that throws (for `Object.create(null)`, or a throwing `toString`) is not modelled.
- `test.fullTitle()` and `test.currentRetry()` are values stored on the handle. They are not computed from the suite tree.
- Test handles are recorded in the buffers as values, together with the heap their `err` lives in. The source stores references and reads them at run end. The model therefore assumes a handle does not change after the events that carry it.
- The lifecycle ordering (run-begin first, one outcome per test, run-end last) is the host's promise. `index.js` does not enforce it, so `Step` handles every event in every state. A test appearing in at most one of `pending`, `failures` and `passes` is likewise Mocha's guarantee and is not proved here.
- Correlator.WindowOpensWithinTest: proves that the window floor `itStartBlock` lies strictly above the test's start block `beforeStartBlock` only within one test whose block numbers do not fall below its start. It is not proved for a whole run, because that claim is false of `index.js`: `Correlator.StaleWindowCarriesOver` shows a second test without a "before each" hook keeping the first test's floor. Whether `TransactionWatcher` compensates is not visible here.
- Text.Includes: its own contract is stated by `Text.IncludesSpec` rather than on the function, so it has no row of its own.
