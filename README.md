# vue-axios notification and request-wrapper model

A Dafny model of a small layer over an HTTP client (musasutisna/vue-axios):

- the **notification store** (`stores/message.js`): three maps, `loading`, `success` and
  `warning`, from an identifier to a display record, and the three toggles that overwrite one
  entry of one map, including the text assembly from a scalar or from an array of `{ msg }`
  objects;
- **default-configuration handling**: `combineWithDefaultConfig` (a shallow, right-biased
  union ignoring non-object arguments) and, in the composable wrapper, `updateDefaultConfig`
  and `renewDefaultConfig`;
- **outcome-to-notification dispatch** of `apiGET/POST/PUT/DELETE` in both wrappers
  (`composables/axios.js` reports successes and warnings, `stores/axios.js` warnings only).

Files: `wrappers.dfy` (Option), `js.dfy` (the JavaScript values that reach a notification,
truthiness, template-literal rendering), `message.dfy` (module `Message`: records, options,
the text functions and their lemmas, the loop `AssembleText`, class `Store`), `config.dfy`
(module `Config`), `http.dfy` (module `Http`: outcomes, requests, the specification
function `AfterCall` and its lemmas), `composable_axios.dfy` and `store_axios.dfy` (one class
`Client` each).

Modelling choices:

- The HTTP client is an `Outcome` parameter: `Success(response)` or
  `Failure(errResponse, errMessage)`. Each verb method returns the `Request` it hands to the
  client, so the configuration that reaches the client is part of the contract: only `Get`
  carries `Combine(defaultConfig, config)`; `Post`, `Put` and `Delete` pass `config` through.
- A toggle option left out is `Undefined`; destructuring defaults apply exactly then. Hence a
  success body without `message` is shown as `<p>null</p>`: `text: undefined` takes the default
  `null`, which the template literal renders as `"null"`. The model reproduces this.
- A loading toggle always uses the scalar form, so an array `text` is rendered as JavaScript
  does, `[object Object]` per element joined by commas (`Js.ObjectsJoined`).
- An array is truthy even when empty, so an empty server message array wins over
  `err.message` and yields an empty warning text (`Http.WarningOfEmptyList`).
- The shared store (a singleton in the source) is passed to each client's constructor.
- The store wrapper's default configuration is a `const` field: nothing in that file changes it.
- Configuration values and request bodies are type parameters `V` and `B`; a `null` or
  non-object configuration is `None`.
- The verbs' default arguments are explicit: an omitted `config` or `data` (default `null`)
  is passed as `None`, an omitted `showMsg`/`showErr` (default `true`) as `true`.

## Model

| member | source | states |
|---|---|---|
| Js.ObjectsJoined | stores/message.js:25 | `${array}` of n objects has length 16n-1 (0 when empty); every sixteenth character is a comma and the others spell `[object Object]`, which fixes the text completely |
| Message.JoinedAppend | stores/message.js:55-57 | assembling the text of `a + b` is the text of `a` followed by the text of `b` (what lets the loop accumulate) |
| Message.JoinedIsDecoratedKept | stores/message.js:52-59 | the assembled text is the in-order concatenation of `prefix + msg + suffix` over elements whose `msg` is truthy |
| Message.SkipsSilent | stores/message.js:56 | an element without a truthy `msg` contributes nothing, not even the decoration |
| Message.BracketExample | stores/message.js:52-59 | `[{msg:'a'},{},{msg:'b'}]` with `[` and `]` gives `[a][b]` |
| Message.AssembleText | stores/message.js:53-57 | the `for...of` loop yields exactly the assembled text of the array |
| Message.OmittedDefaults | stores/message.js:37-44 | with no options, loading gives `{display:true, icon:null, text:'null'}` without `close`, success/warning give `{display:true, close:null, icon:null, text:'null'}` |
| Message.LoadingRecordShape | stores/message.js:16-28 | a loading record keeps the given `display` and `icon`, has no `close`, and holds `prefix + text + suffix` with `null` for a missing text |
| Message.ToastTextOfList | stores/message.js:52-59 | for an array `text` the stored text is the decorated truthy messages; an empty array gives `''` |
| Message.ToastTextOfScalar | stores/message.js:60-62 | for a scalar `text` the stored text is `prefix + text + suffix`, with `null` for a missing text |
| Message.OverwriteScenario | stores/message.js:45-50 | a second success toggle of `/a` with no options leaves nothing of the first record: `success['/a']` is the default record, and the other maps are unchanged |
| Message.Store.constructor | stores/message.js:5-7 | the three maps start empty |
| Message.Store.ToggleLoading | stores/message.js:16-28 | `loading[id]` becomes the loading record of the options, replacing any earlier one; every other entry and the other maps are unchanged |
| Message.Store.ToggleSuccess | stores/message.js:37-63 | `success[id]` becomes the toast record of the options (written with `text: null`, then its text), replacing any earlier one; nothing else changes |
| Message.Store.ToggleWarning | stores/message.js:72-98 | `warning[id]` becomes the same record `ToggleSuccess` would store, written to `warning`; nothing else changes |
| Config.Combine | composables/axios.js:14-26 | the merge has every key of `config` with its value, every other key of the defaults with the default value, and no other key; `None` contributes nothing |
| Config.CombineWithoutConfig | composables/axios.js:15-23 | without a per-call config the result is a copy of the defaults; with neither it is empty |
| Config.CombineWithoutDefaults | stores/axios.js:15-22 | absent defaults contribute nothing: the result equals the per-call config |
| Config.CombineCumulative | composables/axios.js:34-43 | overlaying `a` then `b` equals overlaying `a` overlaid by `b`: later keys win, earlier unnamed keys survive |
| Config.CumulativeExamples | composables/axios.js:34-43 | `{a:1}` then `{b:2}` gives `{a:1,b:2}`; `{a:1}` then `{a:2}` gives `{a:2}` |
| Http.ResultOf | composables/axios.js:84-101 | for the messages this model can express, a call returns `false` exactly when the client rejected, and the response itself otherwise; nothing is re-thrown |
| Http.ServerMessage | composables/axios.js:93 | the warning text is the server `message` when it is truthy, otherwise `err.message` |
| Http.AfterCall | composables/axios.js:72-98 | loading never changes; a reported success overwrites only `success[url]`, a reported warning only `warning[url]`; otherwise the store is unchanged |
| Http.OnlyUrlChanges | composables/axios.js:72-98 | no identifier other than `url` changes in any map |
| Http.OneMapOnly | composables/axios.js:72-98 | a success never writes a warning and a failure never writes a success record |
| Http.WarningOnlyIgnoresSuccess | stores/axios.js:39-41 | in the warning-only wrapper a success leaves the store unchanged, whatever `showErr` is |
| Http.NoResponseNoWarning | composables/axios.js:87-98 | a rejection without `err.response` writes nothing |
| Http.SuccessRecordOfString | composables/axios.js:72-82 | a success with message `m` stores `{display:true, close:true, icon:'success', text:'<p>m</p>'}` at `url` |
| Http.SuccessWithoutMessage | composables/axios.js:73-81 | a body without `message` is shown as `<p>null</p>` |
| Http.SuccessRecordOfList | composables/axios.js:78 | a message array is shown as one `<p>…</p>` per element with a truthy `msg` |
| Http.WarningRecordOfServerMessage | composables/axios.js:88-96 | a failure with non-empty server message `m` stores `{display:true, close:true, icon:'error', text:'<p>m</p>'}` at `url` |
| Http.WarningFallsBack | composables/axios.js:93 | with no data or a falsy server message, the warning shows `<p>` + `err.message` + `</p>` |
| Http.WarningOfEmptyList | composables/axios.js:93 | an empty server message array is truthy, so the warning text is empty |
| ComposableAxios.Client.constructor | composables/axios.js:4-5 | the client holds the shared store and the given default configuration |
| ComposableAxios.Client.UpdateDefaultConfig | composables/axios.js:34-43 | the default becomes the old default (empty if none) overlaid by `config` |
| ComposableAxios.Client.RenewDefaultConfig | composables/axios.js:52-54 | the default is replaced wholesale |
| ComposableAxios.Client.Settle | composables/axios.js:69-99 | returns the response or `false` and leaves the store as `AfterCall` with success reporting says |
| ComposableAxios.Client.Get | composables/axios.js:64-102 | requests GET with the merged configuration; result and store as `Settle` |
| ComposableAxios.Client.Post | composables/axios.js:113-149 | requests POST with the body and the per-call configuration untouched; result and store as `Settle` |
| ComposableAxios.Client.Put | composables/axios.js:160-196 | requests PUT with the body and the per-call configuration untouched; result and store as `Settle` |
| ComposableAxios.Client.Delete | composables/axios.js:206-242 | requests DELETE with the per-call configuration untouched; result and store as `Settle` |
| ComposableAxios.DefaultConfigScenario | composables/axios.js:34-67 | `{a:1}` then `{b:2}` leave the default `{a:1,b:2}` (`afterUpdates`), renewing with `{x:9}` leaves only `x`, GET then receives `{x:9}` while POST receives its own (absent) config |
| StoreAxios.Client.constructor | stores/axios.js:3-4 | the client holds the shared store and a default configuration value that no operation of the wrapper reassigns |
| StoreAxios.Client.Settle | stores/axios.js:39-56 | returns the response or `false`; a success leaves the store unchanged; a failure with a response and `showErr` writes the warning |
| StoreAxios.Client.Get | stores/axios.js:34-59 | requests GET with the merged configuration; result and store as `Settle` |
| StoreAxios.Client.Post | stores/axios.js:69-92 | requests POST with the body and the per-call configuration untouched; result and store as `Settle` |
| StoreAxios.Client.Put | stores/axios.js:102-125 | requests PUT with the body and the per-call configuration untouched; result and store as `Settle` |
| StoreAxios.Client.Delete | stores/axios.js:135-158 | requests DELETE with the per-call configuration untouched; result and store as `Settle` |

## Left out

- `axios.create(initialConfig)` and the real `get/post/put/delete` calls are network I/O: the client is the `Outcome` parameter, and `initialConfig` is not modelled.
- `async`/`await` and promise settlement: each call is one sequential step, so interleaved calls are not modelled.
- Vue `ref` reactivity and the Pinia `defineStore` singleton: the store is a class instance shared by passing it to the clients.
- Numbers, and plain (non-array) objects as `text`: a `for...of` over a plain object throws in the source, and the value types here cannot express either. Nor can an object or array as a `msg` value: `{msg: ['a', 'b']}` is truthy and renders as `a,b` without throwing, which the model does not cover.
- Http.ResultOf: does not promise the source's behaviour for messages that make a toggle throw (a plain object as `message`, or an array with a `null` element), because such messages cannot be expressed here. In the source, (a) when the client resolves with such a `data.message`, `toToggleSuccess` has already written its record with `text: null` and then throws inside `apiGET`'s `try`, so the call returns `false` although the request succeeded, no warning is written (the thrown TypeError has no `response`), and `success[url]` keeps `text: null`; (b) when the client rejects with such a `response.data.message`, `toToggleWarning` has already written its record with `text: null`, so `warning[url]` keeps `text: null`, and then throws inside the `catch` block, so the call's promise rejects and the error does reach the caller.
- `null` elements in a message array (`msg.msg` throws on them) cannot be expressed: an element is always an object, a missing `msg` being `Undefined`.
- Spreading a non-object default (a string set through `renewDefaultConfig`, spread into indexed keys): configurations are restricted to an optional map.
- Response data is either falsy (`NoData`) or an object; a truthy primitive `data` behaves like an object without `message` and is not distinguished.
- The response object carries only its `data`; other fields pass through untouched in the source and are not modelled.
- Configurations are values, not shared objects. The source holds the object passed to `useAxios`, to `renewDefaultConfig` or to the store wrapper's factory by reference, and spreads it again on every GET. A caller's later change to that object therefore reaches the next GET in the source, but not in the model, which keeps the map as it was when passed. `updateDefaultConfig` builds a fresh object and so ends that sharing in the source too.
