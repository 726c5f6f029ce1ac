/** The shapes the dispatcher consumes from its service provider: handlers,
    middlewares and the read-only lookup contract.

    The source resolves services by CLR generic type. The model fixes one
    message type per kind as a type parameter (`C` commands, `Q` queries with
    result type `V`, `N` notifications, `T` the cancellation token) and keys
    each registration by a `TypeTag` naming the generic type argument chosen
    at the call site. That argument is the static type the caller names, not
    the runtime type of the message: a derived command passed as its base
    type resolves the base type's handler. */
module Services {
  import opened Wrappers
  import opened Outcomes
  import opened Pipeline

  /** The name of a generic type argument (a message or result type) as the
      call site states it, independent of the message value. */
  type TypeTag = string

  /** `ICommandHandler<TCommand>.HandleCommandAsync(command, token)`. */
  type CommandHandler<!C, !T> = (C, T) -> Completion<C, T>

  /** `IQueryHandler<TQuery, TQueryResult>.HandleQueryAsync(query, token)`. */
  type QueryHandler<!Q, !T, !V> = (Q, T) -> Outcome<Q, T, V>

  /** `INotificationHandler<TNotification>.HandleNotificationAsync(notification, token)`. */
  type NotificationHandler<!N, !T> = (N, T) -> Completion<N, T>

  /** An `IMiddleware`: one operation per message kind, each receiving the
      message, the continuation for that kind and the cancellation token. A
      query operation returns the same result type as its continuation. */
  datatype Middleware<!C, !Q, !V, !N, !T> = Middleware(
    command: Link<C, Completion<C, T>, T>,
    query: Link<Q, Outcome<Q, T, V>, T>,
    notification: Link<N, Completion<N, T>, T>)

  /** An `IMediatorServiceProvider` as the registrations it answers from.
      `middlewares` is in the order the container returns them. */
  datatype ServiceProvider<!C, !Q, !V, !N, !T> = ServiceProvider(
    middlewares: seq<Middleware<C, Q, V, N, T>>,
    commandHandlers: map<TypeTag, CommandHandler<C, T>>,
    queryHandlers: map<(TypeTag, TypeTag), QueryHandler<Q, T, V>>,
    notificationHandlers: map<TypeTag, seq<NotificationHandler<N, T>>>)

  /** `GetCommandHandler<TCommand>()`: the registered handler, or null. */
  function GetCommandHandler<C, Q, V, N, T>(provider: ServiceProvider<C, Q, V, N, T>, commandType: TypeTag): Option<CommandHandler<C, T>>
  {
    if commandType in provider.commandHandlers then Some(provider.commandHandlers[commandType]) else None
  }

  /** `GetQueryHandler<TQuery, TQueryResult>()`: the handler registered for
      the exact (query type, result type) pair, or null. */
  function GetQueryHandler<C, Q, V, N, T>(provider: ServiceProvider<C, Q, V, N, T>, queryType: TypeTag, resultType: TypeTag): Option<QueryHandler<Q, T, V>>
  {
    if (queryType, resultType) in provider.queryHandlers then Some(provider.queryHandlers[(queryType, resultType)]) else None
  }

  /** `GetServices<INotificationHandler<TNotification>>()`: every registered
      handler in registration order; no registration yields an empty sequence. */
  function GetNotificationHandlers<C, Q, V, N, T>(provider: ServiceProvider<C, Q, V, N, T>, notificationType: TypeTag): seq<NotificationHandler<N, T>>
  {
    if notificationType in provider.notificationHandlers then provider.notificationHandlers[notificationType] else []
  }
}
