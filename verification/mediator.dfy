/** The dispatcher: a single entry point for commands, queries and
    notifications that runs each through the same middleware pipeline.

    Construction snapshots the provider's middlewares in reverse order. Every
    dispatch resolves its handler(s) once, builds a terminal continuation that
    invokes them, folds the stored middlewares over it (each wrapping the
    continuation built so far as its `next`) and invokes the result on the
    original message with the caller's cancellation token. */
module Mediator {
  import opened Wrappers
  import opened Outcomes
  import opened Pipeline
  import opened Services

  /** A dispatcher: its service provider and the middlewares as stored, in
      reverse of the provider's order. */
  datatype Mediator<!C, !Q, !V, !N, !T> = Mediator(
    serviceProvider: ServiceProvider<C, Q, V, N, T>,
    middlewares: seq<Middleware<C, Q, V, N, T>>)

  /** The argument the constructor rejected. */
  datatype ConstructionError = ArgumentNull(paramName: string)

  /** What every constructed dispatcher satisfies: the stored middlewares are
      the provider's middlewares reversed. */
  ghost predicate Valid<C, Q, V, N, T>(mediator: Mediator<C, Q, V, N, T>)
  {
    mediator.middlewares == Reverse(mediator.serviceProvider.middlewares)
  }

  /** The constructor. A missing (null) provider is rejected; otherwise the
      provider is kept and its middleware sequence is stored reversed. */
  function New<C, Q, V, N, T>(serviceProvider: Option<ServiceProvider<C, Q, V, N, T>>): (r: Result<Mediator<C, Q, V, N, T>, ConstructionError>)
    ensures serviceProvider.None? <==> r.Failure?
    ensures r.Failure? ==> r.error == ArgumentNull("serviceProvider")
    ensures r.Success? ==> r.value.serviceProvider == serviceProvider.value && Valid(r.value)
    ensures r.Success? ==>
      var registered := serviceProvider.value.middlewares;
      && |r.value.middlewares| == |registered|
      && forall i :: 0 <= i < |registered| ==> r.value.middlewares[i] == registered[|registered| - 1 - i]
  {
    match serviceProvider
    case None => Failure(ArgumentNull("serviceProvider"))
    case Some(provider) => Success(Mediator(provider, Reverse(provider.middlewares)))
  }

  // ---------------------------------------------------------------------------
  // The per-kind view of the middlewares

  function CommandOf<C, Q, V, N, T>(m: Middleware<C, Q, V, N, T>): Link<C, Completion<C, T>, T>
  {
    m.command
  }

  function QueryOf<C, Q, V, N, T>(m: Middleware<C, Q, V, N, T>): Link<Q, Outcome<Q, T, V>, T>
  {
    m.query
  }

  function NotificationOf<C, Q, V, N, T>(m: Middleware<C, Q, V, N, T>): Link<N, Completion<N, T>, T>
  {
    m.notification
  }

  /** The command operation of each middleware, in the same order. */
  function CommandLinks<C, Q, V, N, T>(ms: seq<Middleware<C, Q, V, N, T>>): seq<Link<C, Completion<C, T>, T>>
  {
    Project(ms, CommandOf)
  }

  /** The query operation of each middleware, in the same order. */
  function QueryLinks<C, Q, V, N, T>(ms: seq<Middleware<C, Q, V, N, T>>): seq<Link<Q, Outcome<Q, T, V>, T>>
  {
    Project(ms, QueryOf)
  }

  /** The notification operation of each middleware, in the same order. */
  function NotificationLinks<C, Q, V, N, T>(ms: seq<Middleware<C, Q, V, N, T>>): seq<Link<N, Completion<N, T>, T>>
  {
    Project(ms, NotificationOf)
  }

  // ---------------------------------------------------------------------------
  // Terminal continuations

  /** Invokes the resolved command handler with the dispatch's token. A missing
      handler faults with a null reference, and only when this is reached. */
  function CommandTerminal<C, T>(handler: Option<CommandHandler<C, T>>, token: T): C -> Completion<C, T>
  {
    (c: C) => if handler.Some? then handler.value(c, token) else Fail(NullReference)
  }

  /** Invokes the resolved query handler with the dispatch's token. A missing
      handler faults with a null reference, and only when this is reached. */
  function QueryTerminal<Q, T, V>(handler: Option<QueryHandler<Q, T, V>>, token: T): Q -> Outcome<Q, T, V>
  {
    (q: Q) => if handler.Some? then handler.value(q, token) else Fail(NullReference)
  }

  /** Starts every handler once, in resolved order, with the message and the
      dispatch's token, collecting their tasks. */
  function InvokeAll<N, T>(handlers: seq<NotificationHandler<N, T>>, n: N, token: T): (tasks: seq<Completion<N, T>>)
    ensures |tasks| == |handlers|
    ensures forall i :: 0 <= i < |handlers| ==> tasks[i] == handlers[i](n, token)
    decreases |handlers|
  {
    if |handlers| == 0 then [] else [handlers[0](n, token)] + InvokeAll(handlers[1..], n, token)
  }

  /** Invokes every resolved notification handler and joins their tasks. */
  function NotificationTerminal<N, T>(handlers: seq<NotificationHandler<N, T>>, token: T): N -> Completion<N, T>
  {
    (n: N) => WhenAll(InvokeAll(handlers, n, token))
  }

  // ---------------------------------------------------------------------------
  // Reference pipelines: right-nested composition in the provider's order

  function CommandPipeline<C, Q, V, N, T>(provider: ServiceProvider<C, Q, V, N, T>, commandType: TypeTag, token: T): C -> Completion<C, T>
  {
    Nest(CommandLinks(provider.middlewares), CommandTerminal(GetCommandHandler(provider, commandType), token), token)
  }

  function QueryPipeline<C, Q, V, N, T>(provider: ServiceProvider<C, Q, V, N, T>, queryType: TypeTag, resultType: TypeTag, token: T): Q -> Outcome<Q, T, V>
  {
    Nest(QueryLinks(provider.middlewares), QueryTerminal(GetQueryHandler(provider, queryType, resultType), token), token)
  }

  function NotificationPipeline<C, Q, V, N, T>(provider: ServiceProvider<C, Q, V, N, T>, notificationType: TypeTag, token: T): N -> Completion<N, T>
  {
    Nest(NotificationLinks(provider.middlewares), NotificationTerminal(GetNotificationHandlers(provider, notificationType), token), token)
  }

  // ---------------------------------------------------------------------------
  // Dispatch

  /** `RunAsync`: resolve the handler once, fold the stored middlewares over the
      terminal, run the result on the command. On a constructed dispatcher this
      is the right-nested pipeline in the provider's order. */
  function RunAsync<C, Q, V, N, T>(mediator: Mediator<C, Q, V, N, T>, commandType: TypeTag, command: C, token: T): (r: Completion<C, T>)
    ensures Valid(mediator) ==> r == CommandPipeline(mediator.serviceProvider, commandType, token)(command)
  {
    var handler := GetCommandHandler(mediator.serviceProvider, commandType);
    var terminal := CommandTerminal(handler, token);
    ProjectReverse(mediator.serviceProvider.middlewares, CommandOf);
    FoldReversedIsNest(CommandLinks(mediator.serviceProvider.middlewares), terminal, token);
    Fold(CommandLinks(mediator.middlewares), terminal, token)(command)
  }

  /** `QueryAsync`: as `RunAsync`, with a handler resolved for the exact
      (query type, result type) pair and the result threaded back out. */
  function QueryAsync<C, Q, V, N, T>(mediator: Mediator<C, Q, V, N, T>, queryType: TypeTag, resultType: TypeTag, query: Q, token: T): (r: Outcome<Q, T, V>)
    ensures Valid(mediator) ==> r == QueryPipeline(mediator.serviceProvider, queryType, resultType, token)(query)
  {
    var handler := GetQueryHandler(mediator.serviceProvider, queryType, resultType);
    var terminal := QueryTerminal(handler, token);
    ProjectReverse(mediator.serviceProvider.middlewares, QueryOf);
    FoldReversedIsNest(QueryLinks(mediator.serviceProvider.middlewares), terminal, token);
    Fold(QueryLinks(mediator.middlewares), terminal, token)(query)
  }

  /** `BroadcastAsync`: resolve every handler once, fold the stored middlewares
      over the fan-out terminal, run the result on the notification. */
  function BroadcastAsync<C, Q, V, N, T>(mediator: Mediator<C, Q, V, N, T>, notificationType: TypeTag, notification: N, token: T): (r: Completion<N, T>)
    ensures Valid(mediator) ==> r == NotificationPipeline(mediator.serviceProvider, notificationType, token)(notification)
  {
    var handlers := GetNotificationHandlers(mediator.serviceProvider, notificationType);
    var terminal := NotificationTerminal(handlers, token);
    ProjectReverse(mediator.serviceProvider.middlewares, NotificationOf);
    FoldReversedIsNest(NotificationLinks(mediator.serviceProvider.middlewares), terminal, token);
    Fold(NotificationLinks(mediator.middlewares), terminal, token)(notification)
  }
}
