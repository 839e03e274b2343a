# duktape-node: a Dafny model of the callback registry, the VM run pipeline and the two entry points

duktape-node embeds the Duktape JavaScript engine in Node.js. A Node caller
hands it a script, the name of a global function, one string parameter and,
optionally, an API object whose functions the script may call. It gets back
the function's result as a string. `runSync` returns it directly. `run`
delivers it later to a completion callback, as `(hasError, returnValue)`.

This project models the sequential logic under the Node/V8/libuv glue:

- `registry.dfy` (module `Registry`) is the process-wide callback cache of
  `src/callbackcache.cpp`. It maps each engine heap (`duk_context*`) to a table
  from callback name to string-to-string closure.
  - A heap is a class `Context`, and its object identity plays the part of the
    pointer.
  - The cache is a class `CallbackCache`. Its methods reassign its `table`
    field as the C++ mutates its `std::map`.
  - Each method is specified by a pure function on tables (`Registered`,
    `Unregistered`, `Added`, `Invoke`). The lemmas relate those functions:
    idempotence, first registration wins, lookups after updates, and other
    contexts staying untouched.
- `vm.dfy` (module `Vm`) is `DuktapeVM` from `src/duktapevm.cpp`.
  - Constructing a VM registers a fresh heap in the cache. `Destroy` (the
    destructor) unregisters it and only then destroys it.
  - `RegisterCallback` installs a trampoline global and stores the closure in
    the cache.
  - `Run` is the eval → call → serialise pipeline with its single error exit,
    written as a labelled block that each failing step breaks out of.
  - The Duktape engine is an oracle, `Engine`. Each protected call reports what
    `duk_safe_call` reports: a return code, and the value on top of the stack,
    which is the error object on failure.
  - `RunSpec` is the function `Run` is proved against. `Serialise` is the
    type-directed table.
- `hostargs.dfy` (module `HostArgs`) holds the JavaScript arguments, reduced to
  their kinds and, for functions, their string-to-string behaviour. It also
  holds the API loop shared by both entry points (`InstallApi`). The loop
  checks each entry in property order, keeps its function, registers it, and
  stops at the first bad entry.
- `run_sync.dfy` (module `SyncEntry`) is `runSync` from `src/run_sync.cpp`:
  argument checks, the API loop, the run, and the mapping of the result to a
  return or a thrown `Error`. `RunSync` is proved to match `RunSyncSpec` and to
  leave the cache as it found it.
- `run_async.dfy` (module `AsyncEntry`) is `run`, `onWork` and `onWorkDone`
  from `src/run_async.cpp`.
  - `WorkRequest` is the request class.
  - `EventLoop` is the part of libuv's loop that `run` uses: the set of queued
    requests and the sequence of completion deliveries.
  - `RunToCompletion` is built on the corrected `Run` (see "## Findings"). It
    strings one accepted call through `OnWork` and `OnWorkDone`. It proves
    that the callback receives exactly the one delivery `RunDelivery`
    predicts, and that the cache ends unchanged. With `run` as written, a
    call with a bad API entry leaves its context in the cache instead.
  - `SyncAndAsyncAgree` proves that both entry points report the same result,
    for an engine and API functions that answer as functions of their inputs.

The engine's behaviour is a parameter throughout: `eval(script, host)`,
`call(script, name, parameter, host)` and `encode(value)`. Here `host` is
what the script sees of the registered callbacks. In the model, each host
global maps to the closure the cache would run for it, wrapped in its
trampoline (`HostView`, `Trampolines`).

Strings cross between the engine and the host as C strings: through
`c_str()`, `duk_to_string` and `String::Utf8Value`, each of which ends at the
first NUL character. `Vm.CStr` is that cut. The model applies it where the
source does:
- the three strings `run` passes to the engine;
- the trampoline's callback name, argument and answer;
- every result and error text;
- API keys;
- the async request's strings and its delivered text.

A text without NUL passes through unchanged.

## Model

| member | source | states |
|---|---|---|
| `Registry.Context.constructor` | src/duktapevm.cpp:48-49 | a newly created heap is live |
| `Registry.AddFirst` | src/callbackcache.cpp:37-41 | the name is added only if absent; an existing binding and every other binding are kept |
| `Registry.Registered` | src/callbackcache.cpp:18-21 | a new context gets an empty table; a known one keeps its table; no other context changes |
| `Registry.Unregistered` | src/callbackcache.cpp:23-30 | exactly that context is removed; every other context keeps its table |
| `Registry.Added` | src/callbackcache.cpp:32-43 | an unknown context leaves the cache unchanged; a known one gets the first-wins addition; other contexts are untouched |
| `Registry.Dispatch` | src/callbackcache.cpp:45-57 | the closure stored for (context, name), or one that yields "" for every parameter |
| `Registry.Invoke` | src/callbackcache.cpp:45-57 | a known context and name give closure(parameter); otherwise "" |
| `Registry.CallbackCache.constructor` | src/callbackcache.cpp:8-11 | the cache starts empty |
| `Registry.CallbackCache.RegisterContext` | src/callbackcache.cpp:18-21 | the new table is `Registered(old table, ctx)` |
| `Registry.CallbackCache.UnregisterContext` | src/callbackcache.cpp:23-30 | the new table is `Unregistered(old table, ctx)` |
| `Registry.CallbackCache.AddCallback` | src/callbackcache.cpp:32-43 | the new table is `Added(old table, ctx, name, cb)` |
| `Registry.CallbackCache.DoCallback` | src/callbackcache.cpp:45-57 | the result is the stored closure applied to the parameter, or "" when the context or name is missing |
| `Registry.RegisterIdempotent` | src/callbackcache.cpp:18-21 | registering a context twice is the same as registering it once |
| `Registry.InvokeAfterUnregister` | src/callbackcache.cpp:23-57 | after unregistering a context, every call through it yields "" |
| `Registry.InvokeAfterAdd` | src/callbackcache.cpp:32-57 | after registering a context and adding a name, a call runs the first closure stored under that name |
| `Registry.AddFirstWins` | src/callbackcache.cpp:37-41 | a second addition under the same name leaves the cache as it was |
| `Registry.InvokeOtherName` | src/callbackcache.cpp:32-57 | adding under one name does not change calls under any other name |
| `Registry.OtherContextsUntouched` | src/callbackcache.cpp:18-57 | register, unregister and add on one context do not change a call through another context |
| `Registry.AddedAfterSet` | src/callbackcache.cpp:32-43 | adding to a context whose table is known updates just that table |
| `Registry.UnregisterAfterSet` | src/callbackcache.cpp:23-30 | unregistering a context that was new to the cache gives back the cache from before it was registered |
| `Vm.ToText` | src/duktapevm.cpp:17-18 | `duk_to_string`: a string is itself; booleans, null and undefined give their keywords; numbers, objects, functions and other values give the text the engine carries for them |
| `Vm.CStr` | src/duktapevm.cpp:87 | a string read through a C string holds no NUL, and a text without NUL comes through unchanged, so reading it twice changes nothing |
| `Vm.CStrCutsAtFirstNul` | src/duktapevm.cpp:87 | the C string is a prefix of the text, and a text that holds a NUL is cut exactly at its first NUL |
| `Vm.ErrorResult` | src/duktapevm.cpp:107-111 | the error exit: a non-zero errorCode equal to the engine's return code, and the error object's text cut at its first NUL (whole when it has none) |
| `Vm.Serialise` | src/duktapevm.cpp:82-102 | boolean, number and string give their text with code 0; a non-null, non-function object gives its JSON text, or the encoder's code and error text when encoding fails; anything else gives "" with code 0; the code is non-zero exactly when encoding failed; the value never holds a NUL |
| `Vm.RunSpec` | src/duktapevm.cpp:60-112 | the engine gets the script, name and parameter as C strings; eval failure gives the eval error; call failure gives the call error; the code is non-zero exactly when eval, call or JSON encoding failed; the value never holds a NUL |
| `Vm.RunSpecOnCStrings` | src/run_sync.cpp:75-79 | handing `run` texts already read as C strings gives the same result as handing it the texts themselves |
| `Vm.Trampoline` | src/duktapevm.cpp:17-21 | definition: the closure receives its argument cut at the first NUL, and its answer is cut the same way (what this means for dispatch is proved by `Vm.CallbackHandler` and `Vm.HostView`) |
| `Vm.HostView` | src/duktapevm.cpp:114-127 | the script sees exactly the installed globals; each forwards its argument, as a C string, through the cache under its own name, and answers with a C string |
| `Vm.Trampolines` | src/duktapevm.cpp:114-127 | with the entries' names as globals, the script sees exactly those names, each a trampoline over its own closure |
| `Vm.TrampolinesPassCStrings` | src/duktapevm.cpp:17-21 | a closure asked with NUL-free text that answers NUL-free text is seen by the script unchanged |
| `Vm.CallbackHandler` | src/duktapevm.cpp:11-24 | the trampoline returns a string without NUL: the stored closure applied to the argument's string coercion, both cut at their first NUL, or "" when nothing is stored under the cut name |
| `Vm.DuktapeVM.constructor` | src/duktapevm.cpp:48-52 | a fresh live heap that was not yet in the cache is registered with an empty table; no globals |
| `Vm.DuktapeVM.Destroy` | src/duktapevm.cpp:54-58 | the context is unregistered and the heap is no longer live |
| `Vm.DuktapeVM.RegisterCallback` | src/duktapevm.cpp:114-127 | the name, cut at its first NUL, becomes a global; the cache gets the first-wins addition of the whole name for this VM's context |
| `Vm.DuktapeVM.Run` | src/duktapevm.cpp:60-112 | the result equals `RunSpec` over what the script sees of the host |
| `Vm.EvalFailureSkipsCall` | src/duktapevm.cpp:67-71 | when eval fails, the result depends on neither the call nor the encoder, and carries eval's code |
| `Vm.CallFailureSkipsSerialise` | src/duktapevm.cpp:73-79 | when the call fails, the result does not depend on the encoder |
| `Vm.EchoRoundTrip` | src/duktapevm.cpp:84-88 | a function that returns its string parameter gives `Result(0, parameter)` cut at the parameter's first NUL, and exactly `Result(0, parameter)` when the parameter has no NUL |
| `Vm.NulCutsResult` | src/duktapevm.cpp:84-88 | a string result "a\0b" is returned as "a" |
| `Vm.SuccessKeepsDefaultCode` | src/duktapevm.h:9-14 | when eval, call and any JSON encoding succeed, the error code is the 0 a new `Result` starts with |
| `Vm.RegisteredNameDispatches` | src/duktapevm.cpp:114-127 | a registered name without NUL is a global that calls the stored closure on the argument's text; registering the name again keeps the first closure |
| `Vm.NulNameUnreachable` | src/duktapevm.cpp:120-126 | a name holding a NUL is installed as a global cut at the NUL but stored in the cache whole, so in a context holding nothing under the cut name, calling that global yields "" |
| `HostArgs.Arg` | src/run_sync.cpp:53 | definition: an argument past the end reads as undefined |
| `HostArgs.ApiProps` | src/run_sync.cpp:53-56 | definition: an object argument gives its properties; anything else gives no entries |
| `HostArgs.ValidEntry` | src/run_sync.cpp:63 | definition: an entry passes exactly when its key is a string and its value a function (what the loop does with it is proved by `HostArgs.InstallApi`) |
| `HostArgs.FirstInvalid` | src/run_sync.cpp:58-67 | the index of the first entry without a string key and a function value: every entry before it is valid, and it equals the length exactly when all entries are valid |
| `HostArgs.ApiTable` | src/run_sync.cpp:58-72 | the callback table built by registering the entries in order, keyed by exactly their names, each read as a C string |
| `HostArgs.ValuesOf` | src/run_async.cpp:247-252 | the API functions a request keeps, in property order |
| `HostArgs.ApiTableFirstWins` | src/run_sync.cpp:58-72 | an entry whose name no earlier entry uses is the closure the script reaches under that name |
| `HostArgs.HostOfApi` | src/duktapevm.cpp:114-127 | in a heap whose globals are the API's names, the script sees exactly the trampolines over the API table |
| `HostArgs.InstallApi` | src/run_sync.cpp:53-73 | succeeds exactly when every entry is valid; the cache and globals hold the entries before the first bad one, in order, first name winning; the kept functions are those entries' values |
| `SyncEntry.CheckArgs` | src/run_sync.cpp:39-49 | fewer than 3 arguments throws TypeError "Wrong number of arguments"; a non-string among the first three throws TypeError "Wrong arguments"; otherwise the checks pass |
| `SyncEntry.ReportResult` | src/run_sync.cpp:81-87 | definition: a non-zero code throws Error with the run's text; otherwise the text is returned unchanged (proved of runSync by `SyncEntry.ThrowsIffRunFails`) |
| `SyncEntry.RunSyncSpec` | src/run_sync.cpp:37-88 | runSync's outcome: the argument checks' TypeError when they fail, and only then; "Error in API-definition" for a bad API entry; otherwise never undefined |
| `SyncEntry.RunSync` | src/run_sync.cpp:37-88 | the outcome equals `RunSyncSpec`, and the cache is left exactly as it was found on every exit |
| `SyncEntry.RunInNewVm` | src/run_sync.cpp:51-88 | a VM that lives for the call gives `RunSyncSpec`, and its destruction leaves the cache as it was |
| `SyncEntry.RunInVm` | src/run_sync.cpp:51-87 | the API loop and the run inside one VM, on the three strings read as C strings, give `RunSyncSpec`; only this VM's context entry changes |
| `SyncEntry.RejectedBeforeRun` | src/run_sync.cpp:39-49 | a call rejected by the checks does not depend on the engine, and it is the only kind of call that throws a TypeError |
| `SyncEntry.BadApiSkipsScript` | src/run_sync.cpp:63-67 | a bad API entry throws "Error in API-definition" whatever the engine does, so the script is never evaluated |
| `SyncEntry.ThrowsIffRunFails` | src/run_sync.cpp:79-87 | with accepted arguments, runSync throws exactly when the run's code is non-zero, carrying the run's text, and otherwise returns the text |
| `SyncEntry.NonStringNameRejected` | test/basic.js:60-70 | `runSync(true, "", "")` throws TypeError "Wrong arguments" |
| `SyncEntry.ApiCallbackReachesScript` | test/api.js:12-26 | with the API `{exclamate: p => p + "!"}`, a script that returns `exclamate('hello')` yields "hello!" |
| `SyncEntry.ExampleTable` | test/api.js:19-21 | the example API is valid and registers the one closure under "exclamate" |
| `SyncEntry.ExampleRun` | test/api.js:12-24 | run against the example API's trampolines, the example script's function returns "hello!" with code 0 |
| `AsyncEntry.WorkRequest.constructor` | src/run_async.cpp:25-33 | a new request holds its arguments, no error, an empty return value, no kept functions, and a fresh VM registered in the cache |
| `AsyncEntry.EventLoop.QueueWork` | src/run_async.cpp:259-262 | the request is added to the pending work; nothing is delivered |
| `AsyncEntry.CheckArgs` | src/run_async.cpp:208-218 | fewer than 5 arguments throws TypeError "Wrong number of arguments"; a non-string among the first three, or a non-function fifth argument, throws TypeError "Wrong arguments" |
| `AsyncEntry.RunOutcome` | src/run_async.cpp:205-265 | run throws TypeError exactly when the checks fail; it throws "Error in API-definition" exactly when the checks pass and the API is bad; otherwise it returns undefined |
| `AsyncEntry.RunDelivery` | src/run_async.cpp:170-199 | definition: the completion callback receives `hasError = (errorCode != 0)` and the text of the run over the API's trampolines (that the event loop delivers exactly this is proved by `AsyncEntry.RunToCompletion`) |
| `AsyncEntry.RunAsWritten` | src/run_async.cpp:205-265 | as written: the outcome is `RunOutcome`; on an API error nothing is queued, yet the request's context stays in the cache with the entries before the bad one |
| `AsyncEntry.Run` | src/run_async.cpp:205-265 | corrected: the outcome is `RunOutcome`; a rejected call leaves the cache and the queue unchanged; an accepted call queues one fresh request holding its three strings as C strings, no error, an empty return value, and its API registered in its VM |
| `AsyncEntry.NewRequest` | src/run_async.cpp:220-257 | a new request holding the three strings as C strings, whose VM holds the API entries before the first bad one; succeeds exactly when the API is valid |
| `AsyncEntry.PrepareApi` | src/run_async.cpp:230-257 | the API loop: kept functions, cache and globals hold the entries before the first bad one; a non-object API leaves them empty |
| `AsyncEntry.OnWork` | src/run_async.cpp:170-178 | `hasError` is whether the run's code is non-zero, and `returnValue` is the run's text |
| `AsyncEntry.OnWorkDone` | src/run_async.cpp:180-199 | one delivery of `(callback, hasError, returnValue)`, the text read as a C string, is appended; the request leaves the pending set; its context is unregistered and its heap destroyed |
| `AsyncEntry.RunToCompletion` | src/run_async.cpp:170-265 | corrected: built on the corrected `Run`; an accepted call ends with exactly one delivery, equal to `RunDelivery`; any call leaves the cache and the pending set as they were |
| `AsyncEntry.RejectedBeforeWork` | src/run_async.cpp:208-218 | a call the checks reject throws TypeError with the right message |
| `AsyncEntry.FourArgumentFormRejected` | src/run_async.cpp:208-218 | the four-argument form throws "Wrong number of arguments"; a non-function fifth argument throws "Wrong arguments" |
| `AsyncEntry.SyncAndAsyncAgree` | src/run_async.cpp:175-177 | for accepted arguments, runSync on the first four throws exactly when the async delivery has `hasError`, with the same text, and otherwise returns that text |
| `AsyncEntry.ApiCallbackDelivered` | test/api.js:28-44 | with the API `{exclamate: p => p + "!"}`, the async run is accepted and delivers `(false, "hello!")` |
| `AsyncEntry.LeakWitness` | src/run_async.cpp:241-245 | as written, a call with a bad API entry throws and queues nothing, but the cache grows from 0 to 1 contexts |
| `AsyncEntry.NoLeakWitness` | src/run_async.cpp:241-245 | the corrected run leaves the cache empty for the same call |

## Left out

- The cross-thread bridge of the async entry point is not modelled: `APICallbackSignaling`, the worker-side `CallbackHelper`, `callV8FunctionOnMainThread` and `cleanupUvAsync` (src/run_async.cpp:84-168). It is mutex, condition-variable and `uv_async` code. An API function is modelled by the string-to-string behaviour it shows when called with one string and its result converted to a string, which is what either helper hands the cache.
- The Duktape internals are not modelled: `duk_eval`, `duk_call`, `duk_json_encode`, `duk_to_string` on numbers and objects, and the value stack. They are the `Engine` oracle, and values carry the text the engine gives them.
- V8/NAN marshalling, `Persistent` handle disposal, `HandleScope`, `TryCatch` and `FatalException` (an exception thrown by the completion callback) are host-runtime calls. A request keeps its API functions as `apiCallbackFunctions`, but disposing of them is not modelled.
- Thread safety of the shared cache is not modelled. The model is sequential: a queued request is run by `OnWork` and completed by `OnWorkDone`, with nothing interleaved between them in `RunToCompletion`.
- The log lines in the cache's constructor and destructor are not modelled.
- `src/duktapejs.cpp` (an older variant of both entry points), `src/nan_addon.h` and `src/duktape_node_main.cpp` are not part of this model.
- Script-visible engine state is not carried from one protected call to the next: the oracle sees the script and the host on each call. This matters only for the order of effects inside the engine.
- A Duktape coroutine would pass the trampoline its own context pointer rather than the heap's. The model takes the trampoline to receive the VM's own context.
- The header `src/callbackcache.h` declares `doCallbackToV8` and a member `m_callbackCache`. The model follows the definitions in `src/callbackcache.cpp` (`doCallback` over one process-wide map).
- The tests at test/api.js:46-95 expect object arguments to reach API functions as JSON text. The trampoline coerces its argument with `duk_to_string` (src/duktapevm.cpp:18), and the model follows the trampoline.
- The four-argument async calls in test/basic.js:17-28 and 96-154 do not match the five-argument check of src/run_async.cpp:208-218. The model follows the code; `AsyncEntry.FourArgumentFormRejected` states what the code does with them.
- The argument `ToString()` conversions at src/run_async.cpp:220-222 are identities on the strings the checks admit, so they are not modelled. The `String::Utf8Value` reads that follow them are modelled as `Vm.CStr`.
- `Vm.DuktapeVM.RegisterCallback`: registration is assumed to succeed for every name. In the source, `duk_put_prop_string` at src/duktapevm.cpp:123 writes the name onto the global object outside any protected call. Under Duktape's strict-mode rules, that write throws for the non-writable globals `NaN`, `Infinity` and `undefined`. With no catch point, the error would reach the fatal handler and abort the process. So an API entry under one of those names aborts in the source, but the model registers it like any other name.
- API functions and the engine are taken to be deterministic, non-throwing and free of side effects: each answers as a function of its inputs. Three source behaviours fall outside that. First, an API function that throws: `Call` at src/run_sync.cpp:22 then returns an empty handle, and `std::string(*retString)` at :24-26 is built from a null pointer, which is undefined behaviour rather than a string. Second, an API function that keeps state between calls, such as a counter. Third, a script whose result varies from run to run (`Math.random`, `Date`). The agreement stated by `AsyncEntry.SyncAndAsyncAgree` holds only under this assumption.
- Text encodings are not modelled. The cut at a C-string boundary is taken character by character (`Vm.CStr`): V8's `Utf8Value` encoding of lone surrogates and Duktape's internal string encoding are not modelled, and characters are taken as they come.
- Object contents are not modelled. An object value carries only an identity `id` and the text the engine gives it, which is enough for an `Engine` to JSON-encode two objects differently.

## Findings

| source | as written | input that shows it | evidently intended | confidence | as-written member | corrected member |
|---|---|---|---|---|---|---|
| src/run_async.cpp:241-245 | the "Error in API-definition" exit returns without deleting the `WorkRequest` allocated at :225, so its VM is never destroyed and its context stays in the callback cache (with the entries registered before the bad one) | `run("test", "", "", {exclamate: 1}, function () {})` | free the request on that exit, so that a rejected call leaves the cache as it found it, as `runSync` does through its stack-allocated VM | not executed | `AsyncEntry.LeakWitness` | `AsyncEntry.Run` |
