# cancellation-context in Dafny

A model of `CancellationContext` (index.js), a registry for cooperative
cancellation of asynchronous computations. `cancellable(fn)` creates a
promise together with its resolver. The promise is the cancellation signal
and the resolver is the terminator. The signal is handed to the caller's
factory `fn`. The handle `fn` returns is stored in a `Map` as handle →
terminator, and the entry is deleted once the handle fulfils. `cancel(handle)`
calls one stored terminator and `cancelAll()` calls all of them.

The model is a functional state machine:

- `Token` (token.dfy) holds the one-shot signals. Tokens are numbered in
  order of creation. Calling a resolver settles its promise the first time and
  does nothing after that.
- `Cancellation` (context.dfy) holds the registry. The state is
  `CancellationContext(cancellers, signals)`, where `cancellers` maps handle
  ids to token ids. There is one pure function per method of the class. The
  method `CancelAllForEach` calls the terminators one at a time, the way
  `forEach` does.
- `Lifecycle` (lifecycle.dfy) holds the lemmas that relate the operations to
  each other.
- `Trace` (trace.dfy) holds runs: sequences of operations and settlement
  events, with the lemmas that hold over whole runs.

Handles are compared by identity in the source (a `Map` key), so a handle is
an id. The factory is a total function from the token it is handed to what it
does: it either returns a handle or throws. A returned handle is "thenable"
when `context.then(...)` on it attaches the fulfilment reaction and returns
normally. When that call throws, because `then` is missing, is not callable,
or throws itself, `cancellable` throws after the handle was registered. The fulfilment or rejection of a handle is an event of its own.

Where a reader might expect different behaviour, the model follows the code:

- `cancel` of a handle that is not registered throws, where a silent no-op
  might be expected. The map lookup yields `undefined` and the code calls it.
- Only fulfilment removes an entry, where removal on any settlement might be
  expected. A handle that rejects stays registered.
- Terminators are called with no argument, so every signal settles to
  `undefined`. There is no cancellation reason, no TTL or deadline timer, and
  no error object.

## Model

| member | source | states |
|---|---|---|
| Token.Mint | index.js:36-37 | a new token gets an id no earlier token has; its signal is pending and no existing signal changes |
| Token.Resolve | index.js:37 | calling a resolver settles its pending signal to the given value; a settled signal and every other signal are left unchanged |
| Token.ResolveAll | index.js:24 | calling the resolvers of a set of tokens settles exactly their pending signals and leaves all others unchanged |
| Token.ResolveOneShot | index.js:37 | a second call of a resolver, with any value, has no effect: the first call wins |
| Token.ResolveAllStep | index.js:24 | calling one more resolver after a batch is the same as calling it within the batch, so the order of calls does not matter |
| Token.ResolveAllIdempotent | index.js:24 | calling the same set of resolvers twice is the same as once |
| Cancellation.New | index.js:15-17 | a new context has an empty registry, no tokens, and satisfies the registry invariant |
| Cancellation.SetContext | index.js:27-29 | after the call the handle maps to the given terminator, every other entry is unchanged, and no signal changes |
| Cancellation.DeleteContext | index.js:31-33 | after the call the handle is absent, every other entry is unchanged, no signal changes, and deleting an absent handle does nothing |
| Cancellation.OnFulfilled | index.js:40 | when a handle fulfils, its entry is removed; no other entry and no signal changes |
| Cancellation.Cancellable | index.js:35-42 | mints one fresh pending signal and leaves existing signals as they were; if the factory throws, nothing is registered and the error propagates; otherwise the returned handle maps to the token the factory was handed, other entries are unchanged, and the handle itself is returned exactly when `context.then(...)` attaches the reaction and returns normally (else that call throws after registration and the entry stays) |
| Cancellation.Cancel | index.js:19-21 | fails (throws) exactly when the handle is unregistered, and then changes nothing; otherwise it settles that handle's signal to `undefined` if it was pending; it leaves the registry, every settled signal and every other signal unchanged |
| Cancellation.CancelAll | index.js:23-25 | every registered handle's signal is settled, pending ones to `undefined`; settled signals and signals of unregistered tokens are unchanged; the registry is unchanged |
| Cancellation.CancelAllForEach | index.js:24 | calling the registered terminators one at a time, in any order, gives exactly the result of `CancelAll` |
| Lifecycle.CancellablePreservesValid | index.js:35-42 | launching keeps the registry well formed: every terminator has a token, no two handles share one, every settled signal holds `undefined` |
| Lifecycle.CancelPreservesValid | index.js:19-21 | `cancel` keeps the registry well formed |
| Lifecycle.CancelAllPreservesValid | index.js:23-25 | `cancelAll` keeps the registry well formed |
| Lifecycle.OnFulfilledPreservesValid | index.js:40 | removal on fulfilment keeps the registry well formed |
| Lifecycle.SetThenDelete | index.js:27-33 | `deleteContext` after `setContext` of the same handle is `deleteContext` alone, and setting an entry to its own terminator changes nothing |
| Lifecycle.LaunchThenCancel | index.js:19-21 | cancelling a freshly launched handle settles exactly the signal its factory was handed, to `undefined`, and changes nothing else |
| Lifecycle.CancelAfterFulfilment | index.js:40 | once a handle has fulfilled, `cancel` of it throws and changes nothing |
| Lifecycle.FulfilmentOrphansSignal | index.js:37-40 | fulfilment leaves the handle's signal as it was, and no registered handle reaches that signal any more |
| Lifecycle.CancelOneShot | index.js:19-21 | a second `cancel` of the same handle has no further effect |
| Lifecycle.CancelAllOneShot | index.js:23-25 | a second `cancelAll` has no further effect |
| Lifecycle.CancelAfterCancelAll | index.js:19-25 | `cancel` of a registered handle after `cancelAll` succeeds and changes nothing |
| Lifecycle.CancelAllAfterCancel | index.js:19-25 | `cancel` followed by `cancelAll` ends in the same state as `cancelAll` alone |
| Lifecycle.CancelIsolated | index.js:19-21 | `cancel` of one handle leaves the signal of every other registered handle unchanged |
| Lifecycle.LaunchAfterCancelAll | index.js:23-25 | a handle launched after `cancelAll` is registered with a pending signal, so the earlier `cancelAll` does not affect it |
| Trace.StepPreservesValid | index.js:19-40 | every operation and settlement event keeps the registry well formed |
| Trace.RunPreservesValid | index.js:19-40 | every state reachable from a well-formed context is well formed |
| Trace.FromNewValid | index.js:15-17 | every state reachable from a new context is well formed; in particular every settled signal holds `undefined` |
| Trace.StepKeepsSettled | index.js:37 | no operation or event changes a settled signal |
| Trace.SettledStaysSettled | index.js:37 | over any run, a settled signal keeps its value |
| Trace.StepSettlesOnlyFired | index.js:20-24 | an event that settles a signal is a `cancel` or `cancelAll` that called that signal's terminator |
| Trace.SettlesOnlyWhenFired | index.js:20-40 | a signal settles during a run only if some `cancel` or `cancelAll` in the run called its terminator; launching and fulfilment never settle one |
| Trace.StaysRegistered | index.js:35-40 | a registered handle keeps its entry and terminator through any run in which it neither fulfils nor is returned by a later launch |
| Trace.CancelLaterSettlesLaunched | index.js:19-21 | after a launch and any such run, `cancel` of the handle succeeds and leaves the signal its factory was handed settled to `undefined` |
| Trace.RejectedStaysRegistered | index.js:40 | a handle that rejects stays registered with its terminator and can still be cancelled |
| Trace.FulfilledIsRemoved | index.js:40 | a handle that fulfils is removed, and cancelling it afterwards throws |

## Left out

- Promise and microtask scheduling. Fulfilment and rejection of a handle are
  events between operations, and the reaction of `then` runs as part of the
  fulfilment event.
- What the factory's computation does with its signal. Whether a cancelled
  handle rejects is up to the caller's code, so it is an input event.
- A factory that itself calls into the same context while it runs. The
  factory is a pure function of the token it is handed.
- An outside call of `setContext` with an arbitrary terminator is not a run
  event; `Cancellation.SetContext` models the method itself. An outside
  `deleteContext(h)` changes the state exactly as the event `Fulfilled(h)`
  does, so runs already cover it.
- A stored terminator that is not a resolver. The model's terminators are
  always token resolvers.
- Direct use of the public `cancellers` Map (index.js:16). Callers can
  `set`, `delete` or `clear` entries, or call a stored resolver with a value,
  without going through any method. The run lemmas (`Trace.FromNewValid`,
  `Trace.SettlesOnlyWhenFired`, `Trace.StaysRegistered` and the others in
  module Trace) assume the registry is reached only through the methods of
  `CancellationContext`.
- A `then` that calls its callback synchronously, so that the entry is
  deleted before `cancellable` returns. It is modelled as `Launch`
  immediately followed by `Fulfilled(h)`; `Cancellation.Cancellable` itself
  describes the state before the reaction runs.
- The unhandled rejection caused when a registered handle rejects. The
  promise derived by `then` at index.js:40 has no rejection handler, so it
  rejects unhandled. Since Node 15 that ends the process by default, unless
  an `unhandledRejection` listener is installed. The state that
  `Trace.RejectedStaysRegistered` describes lasts only when such a listener
  exists.
- The commented-out `delay` helper in index.js, which is dead code.
- test/index.spec.js, examples/manual.js, examples/readme-example.js and
  examples/simple-ttl.js. They use an API that index.js does not define
  (`PerishableTimeout`, `TimeoutError`, `Cancellable`, `perishable`, `delay`,
  `cancel` on the handle, a callable factory).
- examples/simple.js and examples/async-generator.js. They call only the
  defined methods, but they are timer and console demos. Their factories read
  a `cancelled` promise, while index.js:38 hands the factory `{ onCancel }`.
