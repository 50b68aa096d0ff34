# Loader adapters for AeroGear pipes, modelled in Dafny

The AeroGear Android library wraps a data pipe (read, filtered read, save,
remove) in Android Loaders so that results arrive on the main thread and
loaders are tied to an Activity or Fragment.  Three adapter classes do this:
`ActivityLoaderAdapter`, `FragmentLoaderAdapter` and
`SupportFragmentLoaderAdapter`, which inherits from `AbstractLoaderAdapter`.
This project models what those adapters decide and keep track of:

- **Loader ids.** Each call turns the pipe name, its argument and its callback
  into an `int` id with `Objects.hashCode`. The model writes out Java's
  recurrence `h := 31 * h + e` with 32-bit wrap-around (`JavaInt`) and
  `String.hashCode` for the pipe name and the id to remove.
- **Requests.** Each call builds a `Bundle` (METHOD, CALLBACK, FILTER / ITEM /
  REMOVE_ID). `onCreateLoader` switches on METHOD to build a loader
  (`Requests`).
- **Registry and reset.** A `Multimap<String, Integer>` is injected with
  `setLoaderIds` and may be shared by several adapters. `onCreateLoader`
  adds `(name, id)` to it. `reset()` resets every id under the adapter's
  name and then removes the name's entries (`LoaderRegistry`, with the
  classes `LoaderIds` and `LoaderManager`).
- **Callback validation.** `verifyCallback` is a decision table over the
  callback's class and whether the adapter's scope is present
  (`PipelineTypes.VerifyCallback`).
- **Delivery.** `onLoadFinished` refuses loaders that are not pipe loaders and
  otherwise posts one `CallbackHandler`. Its `run()` calls exactly one of
  `onFailure`/`onSuccess`. For a callback of the adapter's scope-aware class
  it sets the scope first and clears it to null afterwards (`CallbackHandler`).

The three adapter classes repeat the same logic. They differ only in the
scope they hold (an Activity or a Fragment) and in the callback class that
scope is bound into. So one class, `LoaderAdapters.LoaderAdapter`, models all
three, and a `Flavour` value selects the adapter. Its methods change the
registry, the loader table and the queue of posted handlers. Each method is
proved against a pure function of the old state: `Dispatch`, `StartLoader`,
`ResetState` or `CreateLoader`. The lemmas next to those functions state
what the adapters promise.

Ids are not assumed to be collision-free. `PipeNamesCanCollide` shows two
pipe names whose ids always coincide. `ResetDestroysSharedId` shows the
consequence: resetting one pipe can destroy a loader that another pipe still
lists.

The model follows the code where a reader might expect stronger guarantees:

- The save id hashes the item itself, not its serialised body.
- The id is registered before the callback is checked, so a rejected call
  leaves its id in the registry.
- Unbinding the scope is not in a `finally`.
- Nothing stops a delivery after `reset`.
- One id can be listed under two names when ids collide.
- Before `setLoaderIds`, a call whose id already has a live loader (another
  adapter may share the LoaderManager) succeeds untouched; any other call, and
  every `reset`, throws a NullPointerException.
- `read(cb)` and `read(null, cb)` get different ids for the same request,
  except for pipe names whose hash `h` makes `930h + 28830` a multiple of
  2^32 (for example h = -31).
- The id hashes the argument but not the method: `read(null, cb)` and
  `remove(null, cb)` share an id, so a `remove(null, cb)` made while that
  read's loader is live reuses the ReadLoader and removes nothing.

## Model

| member | source | states |
|---|---|---|
| `JavaInt.Wrap32` | src/org/jboss/aerogear/android/impl/pipeline/loader/AbstractLoaderAdapter.java:63 | Java `int` arithmetic: the result is an `int` congruent to the exact value modulo 2^32 |
| `JavaInt.Wrap32Congruent` | src/org/jboss/aerogear/android/impl/pipeline/loader/AbstractLoaderAdapter.java:63 | two values truncate to the same `int` exactly when they agree modulo 2^32 |
| `JavaInt.HashFoldIsWrappedPolynomial` | src/org/jboss/aerogear/android/impl/pipeline/loader/AbstractLoaderAdapter.java:63 | the step-by-step wrapped hash recurrence equals the exact polynomial in 31 truncated once |
| `JavaInt.HashFoldLastInjective` | src/org/jboss/aerogear/android/impl/pipeline/loader/AbstractLoaderAdapter.java:63 | with the other elements fixed, the hash determines the last element, in both directions |
| `JavaInt.Wrap32ScaleInjective` | src/org/jboss/aerogear/android/impl/pipeline/loader/AbstractLoaderAdapter.java:78 | a term `31a` of a wrapped sum determines `a`: adding `31a` and `31b` to the same value truncates to the same `int` iff `a == b` |
| `JavaInt.ObjectsHashCode` | src/org/jboss/aerogear/android/impl/pipeline/loader/AbstractLoaderAdapter.java:63 | `Objects.hashCode(o1, ..., on)` over the elements' hash codes is the polynomial in 31 seeded with 1, wrapped once to an `int` |
| `JavaInt.StringHashCode` | src/org/jboss/aerogear/android/impl/pipeline/loader/AbstractLoaderAdapter.java:63 | `String.hashCode` is the polynomial in 31 of the character codes seeded with 0, wrapped once to an `int` |
| `JavaInt.ObjectsHashCodeOfTwo` | src/org/jboss/aerogear/android/impl/pipeline/loader/AbstractLoaderAdapter.java:63 | `Objects.hashCode(a, b)` is `961 + 31a + b` wrapped to an `int` |
| `JavaInt.ObjectsHashCodeOfThree` | src/org/jboss/aerogear/android/impl/pipeline/loader/AbstractLoaderAdapter.java:78 | `Objects.hashCode(a, b, c)` is `29791 + 961a + 31b + c` wrapped to an `int` |
| `JavaInt.StringHashCodeCollides` | src/org/jboss/aerogear/android/impl/pipeline/loader/AbstractLoaderAdapter.java:63 | the pipe names "Aa" and "BB" have the same `String.hashCode` (2112) |
| `PipelineTypes.VerifyCallback` | src/org/jboss/aerogear/android/impl/pipeline/loader/SupportFragmentLoaderAdapter.java:47-58 | a callback is accepted iff it is not one of the two support-library classes and, when it is the adapter's scope-aware class, the scope is present; every refusal is an IllegalStateException |
| `PipelineTypes.ActivityVerifyCallbackTable` | src/org/jboss/aerogear/android/impl/pipeline/loader/ActivityLoaderAdapter.java:264-274 | Activity adapter: each refusal with its message; accepted exactly for plain, Fragment callbacks and Activity callbacks with an activity |
| `PipelineTypes.FragmentVerifyCallbackTable` | src/org/jboss/aerogear/android/impl/pipeline/loader/FragmentLoaderAdapter.java:270-280 | Fragment adapter: each refusal with its message; accepted exactly for plain, Activity callbacks and Fragment callbacks with a fragment |
| `PipelineTypes.SupportFragmentVerifyCallbackTable` | src/org/jboss/aerogear/android/impl/pipeline/loader/SupportFragmentLoaderAdapter.java:46-58 | the support adapter's table equals the Fragment adapter's: it refuses a Fragment callback without a fragment and always refuses the two support-library classes |
| `CallbackHandler.RunTrace` | src/org/jboss/aerogear/android/impl/pipeline/loader/ActivityLoaderAdapter.java:236-260 | the calls `run()` makes: set scope, handler, clear scope for the scope-aware class, the handler alone otherwise; its meaning is stated by the three lemmas below |
| `CallbackHandler.RunCallsExactlyOneHandler` | src/org/jboss/aerogear/android/impl/pipeline/loader/ActivityLoaderAdapter.java:236-260 | `run()` makes exactly one handler call: `onFailure(exception)` when the loader has an exception, otherwise `onSuccess(data)` |
| `CallbackHandler.RunBindsScopeAroundHandler` | src/org/jboss/aerogear/android/impl/pipeline/loader/ActivityLoaderAdapter.java:240-254 | for the handler's scope-aware callback class, the handler runs with the adapter's scope set and the field is null afterwards, on both paths; other callbacks run with their field untouched |
| `CallbackHandler.RunLeavesForeignScopedCallbackUnbound` | src/org/jboss/aerogear/android/impl/pipeline/loader/FragmentLoaderAdapter.java:251-263 | a callback that is not the handler's scope-aware class is called directly: no set or clear call at all |
| `CallbackHandler.Run` | src/org/jboss/aerogear/android/impl/pipeline/loader/FragmentLoaderAdapter.java:241-266 | the calls the callback receives are exactly the handler's trace, and its scope field ends as that trace leaves it |
| `Requests.CreateLoader` | src/org/jboss/aerogear/android/impl/pipeline/loader/AbstractLoaderAdapter.java:150-175 | creation fails iff `verifyCallback` refuses, or a SAVE bundle has no body (`new String(null)`) or a body the parser rejects; otherwise the loader keeps the bundle's callback and its class follows METHOD |
| `Requests.MakeBundle` | src/org/jboss/aerogear/android/impl/pipeline/loader/AbstractLoaderAdapter.java:64-104 | the bundles built at lines 64-67, 79-82, 89-94 and 101-104: READ with null FILTER for `read(cb)`, READ with the filter, SAVE with `getBody(item)` (possibly null, not the item), REMOVE with the id under REMOVE_ID; its meaning is stated by `CreateLoaderOfOperation` and `UnfilteredReadsDifferOnlyInId` |
| `Requests.UnfilteredReadsDifferOnlyInId` | src/org/jboss/aerogear/android/impl/pipeline/loader/AbstractLoaderAdapter.java:61-84 | `read(cb)` and `read(null, cb)` build the same bundle and ask for the same loader, but get different ids except for pipe names whose hash `h` makes `930h + 28830` a multiple of 2^32 |
| `Requests.CreateLoaderOfOperation` | src/org/jboss/aerogear/android/impl/pipeline/loader/FragmentLoaderAdapter.java:163-192 | on a bundle built by a call, `onCreateLoader` throws what `verifyCallback` throws or yields exactly the requested loader: ReadLoader with the filter, RemoveLoader with the id or "-1", SaveLoader with the parsed body, or the save's null-body or parser failure |
| `Requests.OperationId` | src/org/jboss/aerogear/android/impl/pipeline/loader/AbstractLoaderAdapter.java:63-100 | ids: `Objects.hashCode(name, cb)` for `read(cb)`, `Objects.hashCode(name, arg, cb)` for the filter, item or id to remove (0 for null), as explicit wrapped polynomials |
| `Requests.OperationIdSeparatesCallbacks` | src/org/jboss/aerogear/android/impl/pipeline/loader/AbstractLoaderAdapter.java:86-88 | the same call from two callbacks gets the same id iff the callbacks' hash codes are equal |
| `Requests.OperationIdSeparatesArguments` | src/org/jboss/aerogear/android/impl/pipeline/loader/AbstractLoaderAdapter.java:78-100 | for the same pipe and callback, two calls other than `read(cb)` get the same id iff their arguments' hash codes are equal, whatever the method |
| `Requests.PipeNamesCanCollide` | src/org/jboss/aerogear/android/impl/pipeline/loader/AbstractLoaderAdapter.java:100 | pipes named "Aa" and "BB" give every call the same id |
| `LoaderRegistry.AddId` | src/org/jboss/aerogear/android/impl/pipeline/loader/AbstractLoaderAdapter.java:149 | `put(name, id)` appends the id under the name and leaves every other name's ids unchanged |
| `LoaderRegistry.ForgetName` | src/org/jboss/aerogear/android/impl/pipeline/loader/AbstractLoaderAdapter.java:139 | `removeAll(name)` leaves nothing under the name and every other name unchanged |
| `LoaderRegistry.StartLoader` | src/org/jboss/aerogear/android/impl/pipeline/loader/SupportFragmentLoaderAdapter.java:25-28 | `initLoader`: a live loader is reused, otherwise `onCreateLoader` registers the id and installs its loader or throws; stated by `StartLoaderRegistersBeforeVerifying` |
| `LoaderRegistry.StartWithoutRegistry` | src/org/jboss/aerogear/android/impl/pipeline/loader/AbstractLoaderAdapter.java:149 | `initLoader` before `setLoaderIds`: a live loader is reused, otherwise `put` throws a NullPointerException and nothing changes |
| `LoaderRegistry.Dispatch` | src/org/jboss/aerogear/android/impl/pipeline/loader/AbstractLoaderAdapter.java:61-106 | a dispatching call: its id and bundle handed to `initLoader`; stated by `DispatchOutcome` |
| `LoaderRegistry.ResetState` | src/org/jboss/aerogear/android/impl/pipeline/loader/AbstractLoaderAdapter.java:134-140 | `reset()` on the registry and loader table; stated by `ResetForgetsOnlyItsName`, `ResetIsIdempotent` and `ResetDestroysSharedId` |
| `LoaderRegistry.StartLoaderRegistersBeforeVerifying` | src/org/jboss/aerogear/android/impl/pipeline/loader/AbstractLoaderAdapter.java:148-152 | when no loader is live for the id, the id is registered under the name whether or not the callback is refused; a refusal installs no loader and rethrows the exception |
| `LoaderRegistry.DispatchOutcome` | src/org/jboss/aerogear/android/impl/pipeline/loader/AbstractLoaderAdapter.java:61-106 | a call whose id has a live loader changes nothing; otherwise it registers the id and then installs the requested loader or installs nothing and throws `verifyCallback`'s exception, or for a save the null-body or parser failure |
| `LoaderRegistry.NullRemoveReusesNullFilterRead` | src/org/jboss/aerogear/android/impl/pipeline/loader/AbstractLoaderAdapter.java:77-106 | after `read(null, cb)` succeeds, `remove(null, cb)` has the same id, finds the read's loader live (the ReadLoader when the read created it) and changes nothing |
| `LoaderRegistry.ResetForgetsOnlyItsName` | src/org/jboss/aerogear/android/impl/pipeline/loader/ActivityLoaderAdapter.java:207-216 | after reset nothing is listed under the name, other names keep their ids, and exactly the live loaders whose ids were listed are destroyed |
| `LoaderRegistry.ResetIsIdempotent` | src/org/jboss/aerogear/android/impl/pipeline/loader/FragmentLoaderAdapter.java:213-222 | a second reset changes neither the registry nor the loaders |
| `LoaderRegistry.ResetDestroysSharedId` | src/org/jboss/aerogear/android/impl/pipeline/loader/AbstractLoaderAdapter.java:134-140 | an id listed under two names is destroyed by resetting one name while the other still lists it |
| `LoaderRegistry.LoaderIds.Put` | src/org/jboss/aerogear/android/impl/pipeline/loader/AbstractLoaderAdapter.java:149 | the multimap afterwards is `AddId` of the old one |
| `LoaderRegistry.LoaderIds.RemoveAll` | src/org/jboss/aerogear/android/impl/pipeline/loader/AbstractLoaderAdapter.java:139 | the multimap afterwards is `ForgetName` of the old one |
| `LoaderRegistry.LoaderManager.ResetLoader` | src/org/jboss/aerogear/android/impl/pipeline/loader/SupportFragmentLoaderAdapter.java:30-36 | a live loader for the id is destroyed; for a missing id nothing changes |
| `LoaderAdapters.LoaderAdapter.SetLoaderIds` | src/org/jboss/aerogear/android/impl/pipeline/loader/AbstractLoaderAdapter.java:142-145 | the adapter uses the injected multimap from then on |
| `LoaderAdapters.LoaderAdapter.Read` | src/org/jboss/aerogear/android/impl/pipeline/loader/AbstractLoaderAdapter.java:61-69 | new registry, loaders and outcome are `Dispatch` of `read(cb)`; before `setLoaderIds` only a call without a live loader throws, changing nothing |
| `LoaderAdapters.LoaderAdapter.ReadFiltered` | src/org/jboss/aerogear/android/impl/pipeline/loader/AbstractLoaderAdapter.java:76-84 | new state and outcome are `Dispatch` of `read(filter, cb)` |
| `LoaderAdapters.LoaderAdapter.ReadWithFilter` | src/org/jboss/aerogear/android/impl/pipeline/loader/AbstractLoaderAdapter.java:71-74 | same state change and outcome as `read(filter, cb)` |
| `LoaderAdapters.LoaderAdapter.Save` | src/org/jboss/aerogear/android/impl/pipeline/loader/AbstractLoaderAdapter.java:86-96 | new state and outcome are `Dispatch` of `save(item, cb)`: id from the item, ITEM holds `getBody(item)` |
| `LoaderAdapters.LoaderAdapter.Remove` | src/org/jboss/aerogear/android/impl/pipeline/loader/AbstractLoaderAdapter.java:98-106 | new state and outcome are `Dispatch` of `remove(id, cb)` |
| `LoaderAdapters.LoaderAdapter.InitLoader` | src/org/jboss/aerogear/android/impl/pipeline/loader/SupportFragmentLoaderAdapter.java:25-28 | id and bundle go to the manager unchanged: a live loader is reused, otherwise `onCreateLoader` runs (`StartLoader`, or `StartWithoutRegistry` before `setLoaderIds`) |
| `LoaderAdapters.LoaderAdapter.OnCreateLoader` | src/org/jboss/aerogear/android/impl/pipeline/loader/AbstractLoaderAdapter.java:147-176 | registers `(name, id)` unconditionally (a NullPointerException before `setLoaderIds`), then returns `CreateLoader` of the bundle |
| `LoaderAdapters.LoaderAdapter.Reset` | src/org/jboss/aerogear/android/impl/pipeline/loader/AbstractLoaderAdapter.java:134-140 | the loop resets each listed id, then `removeAll`: the new state is `ResetState` of the old; before `setLoaderIds` it throws a NullPointerException and changes nothing |
| `LoaderAdapters.LoaderAdapter.OnLoadFinished` | src/org/jboss/aerogear/android/impl/pipeline/loader/FragmentLoaderAdapter.java:194-205 | a non-pipe loader raises IllegalStateException and posts nothing; a pipe loader posts exactly one handler with its callback, exception, the adapter's scope and the data |

## Left out

- Threading: `Handler`/`Looper` and `handler.post` are modelled as appending to the `posted` queue. `CallbackHandler.Run` is the main thread running one posted entry. There is no concurrency.
- LoaderManager internals are reduced to a table of live loaders: `initLoader` reuse, `getLoader` and `destroyLoader`. Two things are assumptions about Android, not code of this repository. First, `initLoader` calls `onCreateLoader` only when no loader with that id exists. Second, an exception thrown there installs nothing. Starting a loader and redelivering cached data are not modelled.
- The loaders themselves (ReadLoader, SaveLoader, RemoveLoader, AbstractPipeLoader) are not part of this model. A finished loader is its callback plus an optional exception, read once when the handler is posted. The source's handler reads them again when it runs.
- `RequestBuilder.getBody`, `ResponseParser.handleResponse` (with `new String(json)`) and Gson are the two functions of `Requests.Pipe`. `getBody` may give null and the parser may throw; both are modelled. No round trip between them is claimed.
- `hashCode()` of callbacks, filters and items is an `Int32` field with no further meaning. `String.hashCode` is computed over Dafny characters. These equal Java's UTF-16 units only for characters of the Basic Multilingual Plane.
- Null callbacks, pipe names and items are not modelled. A null filter or null id to remove is modelled: it hashes to 0, and `getString(REMOVE_ID, "-1")` then gives "-1".
- The multimap is taken to have list semantics (ArrayListMultimap): `put` appends even an id that is already listed. Its implementation is injected and not part of this model.
- `onLoaderReset` only logs (Activity and Fragment adapters) or does nothing (support adapter), so it has no member. `Log` calls, `getType`, `getUrl`, `getHandler`, `getGson`, `getKlass`, `getRequestBuilder` and `getResponseParser` are plain delegations and are left out.
- `CallbackHandler.Run`: a handler that throws is not modelled. In the source the scope would then stay set, because clearing it is not in a `finally`. Nothing prevents a delivery after `reset` either.
- The `onLoadFinished` of the support adapter (`SupportFragmentLoaderAdapter.java:60-72`) refers to `data`, `TAG` and `CallbackHandler`, which that class does not define. The model gives it the intended behaviour: post one Fragment-style delivery of the loader's result.
- The constructors of all three adapters dereference their activity or fragment. So the "no Activity/Fragment" branch of `verifyCallback` cannot be reached as the code is written. The model keeps the scope optional so that the branch is covered.
- `LoaderManagerOperations` is only the shape of `LoaderRegistry.LoaderManager`. Its `getLoaderManager` accessor has no member.
