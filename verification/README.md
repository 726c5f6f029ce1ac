# Mediator pipeline model

A Dafny model of the dispatcher ("mediator") of Datapoint CQRS. The dispatcher is the
single entry point for three message kinds:

- **commands** change state and produce no result;
- **queries** read state and produce a typed result;
- **notifications** are broadcast to zero or more handlers.

Every dispatch runs through one middleware pipeline. The order of that pipeline is fixed
when the dispatcher is constructed.

The model follows `Mediator.cs`:

- **Construction.** `Mediator.New` rejects a missing service provider with
  `ArgumentNull("serviceProvider")`. Otherwise it stores the provider's middlewares in
  reverse order.
- **Dispatch.** `Mediator.RunAsync`, `Mediator.QueryAsync` and `Mediator.BroadcastAsync` each
  resolve their handler(s) once and build a terminal continuation. They then fold the stored
  middlewares over it (`Pipeline.Fold`, the `foreach` loop; `Pipeline.Build` is the same loop
  written as a method). Finally they invoke the result on the original message with the
  caller's cancellation token.
- **Main result.** `Pipeline.FoldReversedIsNest` proves that this left fold over the reversed
  sequence equals the right-nested composition `ms[0](ms[1](… ms[n-1](terminal)))`. It is an
  equality of the composed functions, not only of their results. So middlewares run
  outermost-first in registration order and unwind in reverse.

Modules:

- `Wrappers`: `Option` for a lookup that may return null, and `Result`.
- `Pipeline`: links, continuations, `Wrap`, `Nest` (the reference right-nested
  composition), `Fold` and `Build` (the dispatcher's loop), and lemmas about them. This module
  does not depend on the message kind.
- `Outcomes`: a task modelled as an `Outcome`. It holds the trace of recorded events and a
  `Status`, which is `Completed(value)` or `Faulted(faults)`. The module also has the
  `Task.WhenAll` join.
- `Services`: handler and middleware shapes (`IMiddleware` has one operation per kind, and
  each `next` takes the same message type). It also has the read-only provider lookup: maps
  keyed by a `TypeTag` naming the generic type argument chosen at the call site, independent
  of the message value. Queries are keyed by the
  (query type, result type) pair.
- `Mediator`: the dispatcher itself.
- `Instrumented`: middlewares and handlers that record what they see. Some trace around
  `next`, some reject, some answer from a cache, some retry. `Instrumented.AroundsTrace` gives
  the trace of a traced pipeline.
- `DispatchProperties`: end-to-end properties of a constructed dispatcher for each message
  kind.

The C# generic methods are polymorphic in the message type. The model fixes one type per
kind as a type parameter: `C`, `Q` with result `V`, `N`, and the token `T`.

The dispatch functions promise the right-nested pipeline only for a dispatcher that satisfies
`Mediator.Valid`. `Valid` says the stored middlewares are the provider's, reversed. Every
dispatcher that `Mediator.New` returns satisfies it.

## Where the code and its doc comments disagree

The model follows the code in each case.

- **Missing command or query handler.** The doc comments of `RunAsync` and `QueryAsync`
  (`Mediator.cs:80-82`, `Mediator.cs:109-111`, `IMediator.cs:37`, `IMediator.cs:52`) say a
  `NotImplementedException` is thrown when no matching handler is available. The code throws
  nothing at resolution. `GetCommandHandler` and `GetQueryHandler` return null (`None`), and
  the failure (`NullReference`) happens only if the terminal continuation is actually invoked.
  A middleware that never calls `next` therefore hides the missing handler (see
  `DispatchProperties.RunRejected` and `DispatchProperties.QueryFromCache`).
- **Null query results.** `where TQueryResult : class` (`Mediator.cs:86`) admits a null
  result, and the code does not check for one. The model does not either: a query completes
  with whatever value its handler or a middleware produced.

## Model

| member | source | states |
|---|---|---|
| `Mediator.New` | src/dotnet/src/Datapoint.Cqrs.Mediator/Mediator.cs:26-33 | For a provider whose answers are non-null, fails exactly when the provider is missing, with `ArgumentNull("serviceProvider")`. Otherwise it keeps the provider, and stored middleware `i` is the provider's middleware `n-1-i`. |
| `Pipeline.FoldReversedIsNest` | src/dotnet/src/Datapoint.Cqrs.Mediator/Mediator.cs:30-32 | Folding the reversed sequence over a terminal builds the same continuation as right-nested composition in the original order. |
| `Pipeline.FoldNestsReversed` | src/dotnet/src/Datapoint.Cqrs.Mediator/Mediator.cs:63-67 | `Pipeline.Fold` is the `foreach` over the stored middlewares; the same loop is repeated for queries (lines 93-97) and commands (lines 121-125). Folding any stored sequence over a continuation equals the right-nested composition of that sequence reversed. |
| `Pipeline.Build` | src/dotnet/src/Datapoint.Cqrs.Mediator/Mediator.cs:121-125 | The loop that wraps each stored middleware around the continuation built so far returns the right-nested composition of the stored sequence reversed. |
| `Pipeline.NestAppend` | src/dotnet/src/Datapoint.Cqrs.Mediator/Mediator.cs:93-97 | Each link's `next` is the composition of all later links around the terminal: composing `a + b` equals composing `a` around the composition of `b`. |
| `Pipeline.Reverse` | src/dotnet/src/Datapoint.Cqrs.Mediator/Mediator.cs:32 | Element `i` of the reversed sequence is element `n-1-i` of the original, and the length is kept. |
| `Pipeline.ForwardsDeliverRewritten` | src/dotnet/src/Datapoint.Cqrs.Mediator/Mediator.cs:118-124 | When each link forwards a rewritten message, the terminal receives the message as rewritten by every link in registration order. |
| `Pipeline.PassThroughsAreTransparent` | src/dotnet/src/Datapoint.Cqrs.Mediator/Mediator.cs:90-99 | When every link passes the message through, the pipeline returns exactly what the terminal returns for the original message. |
| `Outcomes.WhenAll` | src/dotnet/src/Datapoint.Cqrs.Mediator/Mediator.cs:60 | The join completes iff every task completed. Otherwise it faults with the faults of all faulted tasks in order. Its trace is the tasks' traces in order. |
| `Outcomes.FaultsOfSingleFailure` | src/dotnet/src/Datapoint.Cqrs.Mediator/Mediator.cs:60 | With exactly one faulted task, the joined faults are exactly that task's faults. |
| `Outcomes.FaultsKeepsEvery` | src/dotnet/src/Datapoint.Cqrs.Mediator/Mediator.cs:60 | No fault of any faulted task is dropped from the join. |
| `Outcomes.AllCompleted` | src/dotnet/src/Datapoint.Cqrs.Mediator/Mediator.cs:60 | The join's completion test holds iff every task completed. |
| `Mediator.InvokeAll` | src/dotnet/src/Datapoint.Cqrs.Mediator/Mediator.cs:55-58 | Starts one task per resolved handler, in resolved order, each with the received notification and the dispatch's token. |
| `Mediator.RunAsync` | src/dotnet/src/Datapoint.Cqrs.Mediator/Mediator.cs:113-128 | On a constructed dispatcher, the command outcome is the right-nested pipeline in provider order. Its terminal calls the handler resolved once, with the caller's token. |
| `Mediator.QueryAsync` | src/dotnet/src/Datapoint.Cqrs.Mediator/Mediator.cs:84-100 | Like `RunAsync`, with the handler resolved for the exact (query type, result type) pair. The result comes back out through every middleware. |
| `Mediator.BroadcastAsync` | src/dotnet/src/Datapoint.Cqrs.Mediator/Mediator.cs:48-70 | On a constructed dispatcher, the outcome is the right-nested pipeline in provider order around the fan-out terminal. |
| `Instrumented.AroundsTrace` | src/dotnet/src/Datapoint.Cqrs.Mediator/Mediator.cs:121-127 | When the first links `m0..mk` of a pipeline trace around `next`, the trace is `m0` entry … `mk` entry, then the trace of the rest of the pipeline, then `mk` exit … `m0` exit. The rest's status is returned unchanged. |
| `Instrumented.RecordersJoin` | src/dotnet/src/Datapoint.Cqrs.Mediator/Mediator.cs:53-61 | The fan-out over recording handlers invokes each exactly once, in resolved order, and completes. |
| `DispatchProperties.RunOrder` | src/dotnet/src/Datapoint.Cqrs.Mediator/Mediator.cs:116-127 | Middlewares `[m0..mk]` produce `m0.before … mk.before, handler, mk.after … m0.after` and the command completes. Every event sees the original command and the caller's token. |
| `DispatchProperties.RunWithoutHandler` | src/dotnet/src/Datapoint.Cqrs.Mediator/Mediator.cs:116-119 | A missing handler raises nothing at resolution. All middlewares run, and the null-reference fault comes from reaching the terminal. |
| `DispatchProperties.RunRejected` | src/dotnet/src/Datapoint.Cqrs.Mediator/Mediator.cs:121-127 | A middleware that never calls `next` stops the pipeline: whatever follows it and whatever handlers are registered, the later middlewares and the handler never run. The traced middlewares before it enter and leave around the rejection, no handler event appears, and its fault is the result. |
| `DispatchProperties.RunRetried` | src/dotnet/src/Datapoint.Cqrs.Mediator.Abstractions/IMiddleware.cs:24 | A middleware may call `next` several times: a retrying middleware runs a failing handler twice on the same command. |
| `DispatchProperties.RunDeliversRewritten` | src/dotnet/src/Datapoint.Cqrs.Mediator/Mediator.cs:118-124 | The handler receives the command passed on by the innermost link (every rewrite applied in order), with the caller's token. |
| `DispatchProperties.RunWithoutMiddlewares` | src/dotnet/src/Datapoint.Cqrs.Mediator/Mediator.cs:116-119 | Pins down the handler lookup (`Services.GetCommandHandler`) and the terminal (`Mediator.CommandTerminal`): with no middlewares, `RunAsync` is exactly the registered `handler(command, token)`, and the null-reference fault when the command type has no registration. |
| `DispatchProperties.QueryOrder` | src/dotnet/src/Datapoint.Cqrs.Mediator/Mediator.cs:88-99 | Same ordering as for commands, and the query completes with the handler's value. |
| `DispatchProperties.QueryWithoutHandler` | src/dotnet/src/Datapoint.Cqrs.Mediator/Mediator.cs:88-91 | A missing query handler faults with a null reference only once the terminal is reached, after every middleware ran. |
| `DispatchProperties.QueryFromCache` | src/dotnet/src/Datapoint.Cqrs.Mediator/Mediator.cs:93-99 | The result is whatever the outermost links return. A caching middleware after traced ones answers without the handler, even a missing one, and its value comes back out through the traced middlewares. |
| `DispatchProperties.QueryPassThrough` | src/dotnet/src/Datapoint.Cqrs.Mediator/Mediator.cs:88-99 | Pins down the lookup by the exact (query type, result type) pair (`Services.GetQueryHandler`) and the terminal (`Mediator.QueryTerminal`): if every middleware passes queries through (including when there are none), `QueryAsync` returns `handler(query, token)`, and the null-reference fault when the pair has no registration. |
| `DispatchProperties.BroadcastJoins` | src/dotnet/src/Datapoint.Cqrs.Mediator/Mediator.cs:51-69 | Traced middlewares wrap the fan-out terminal (`Mediator.NotificationTerminal`): the trace is their entries, then the `WhenAll` join of one task per resolved handler (each started with the received notification and the caller's token), then their exits, and the status is the join's, which `Outcomes.WhenAll` characterises. |
| `DispatchProperties.BroadcastOrder` | src/dotnet/src/Datapoint.Cqrs.Mediator/Mediator.cs:51-61 | With recording handlers, the handlers registered for the notification type (`Services.GetNotificationHandlers`) each run exactly once, in registration order, with the notification, between the middlewares' entries and exits, and the broadcast completes. |
| `DispatchProperties.BroadcastWithoutHandlers` | src/dotnet/src/Datapoint.Cqrs.Mediator/Mediator.cs:51-60 | With no handlers (no registration for the notification type, or an empty one), the fan-out completes at once without error, and the middlewares enter and leave around it. |
| `DispatchProperties.BroadcastSingleFailure` | src/dotnet/src/Datapoint.Cqrs.Mediator/Mediator.cs:60 | When exactly one resolved handler fails, the broadcast faults with exactly that handler's faults. |

## Left out

- Asynchrony and scheduling. A `Task` is modelled as its final `Outcome`, so suspension and
  awaiting are not represented.
- Cancellation semantics. The token is an opaque value threaded through every link and
  handler.
- Concurrency of the notification fan-out. Handler tasks are modelled as started in resolved
  order, and their traces appear in that order. Interleaving of their asynchronous parts is
  not modelled.
- Exceptions. A synchronous exception and a faulted task are both a `Faulted` outcome. In
  particular, a notification handler that throws synchronously inside the `foreach` at
  `Mediator.cs:57-58` would stop later handlers from starting. The model treats that failure
  as a faulted task, and the later handlers still run.
- The dependency-injection plumbing (`ServiceCollectionExtensions`, `MediatorOptions`,
  `MicrosoftMediatorServiceProvider`). The `MediatorServiceProvider` forwarding is modelled
  only as the lookup functions in `Services`. The container's registration order is an input
  sequence.
- The `ServiceProvider` property is the `serviceProvider` field of the dispatcher value.
- Message base types and their `Guid` identifiers. Identity is never used for routing.
- C# generic dispatch over arbitrary message types. Each kind has one type parameter, and
  the generic type argument of a call (the static type the caller names, which may be a base
  type of the message's runtime type) is a separate `TypeTag` argument.
- `Mediator.New`: the provider's answers are modelled as total, non-null values. The source
  also throws at construction when `GetMiddlewares()` throws or returns null (LINQ `Reverse`
  rejects a null source), and it stores a null middleware element that faults only when a
  dispatch reaches it. A `ServiceProvider` value cannot express these cases, so the contract's
  "fails only on a missing provider" holds for the modelled providers only.
