/** End-to-end properties of the dispatcher: what a constructed mediator does
    with instrumented middlewares and handlers, for each message kind. */
module DispatchProperties {
  import opened Wrappers
  import opened Outcomes
  import opened Pipeline
  import opened Services
  import opened Mediator
  import opened Instrumented

  // ---------------------------------------------------------------------------
  // Per-kind views of traced middlewares

  lemma {:induction false} CommandLinksOfTraced<C, Q, V, N, T>(ms: seq<Middleware<C, Q, V, N, T>>, ids: seq<nat>)
    requires TracedPrefix(ms, ids)
    ensures AroundsPrefix(CommandLinks(ms), ids)
    decreases |ids|
  {
    if |ids| > 0 {
      CommandLinksOfTraced(ms[1..], ids[1..]);
      assert CommandLinks(ms)[1..] == CommandLinks(ms[1..]);
    }
  }

  lemma {:induction false} QueryLinksOfTraced<C, Q, V, N, T>(ms: seq<Middleware<C, Q, V, N, T>>, ids: seq<nat>)
    requires TracedPrefix(ms, ids)
    ensures AroundsPrefix(QueryLinks(ms), ids)
    decreases |ids|
  {
    if |ids| > 0 {
      QueryLinksOfTraced(ms[1..], ids[1..]);
      assert QueryLinks(ms)[1..] == QueryLinks(ms[1..]);
    }
  }

  lemma {:induction false} NotificationLinksOfTraced<C, Q, V, N, T>(ms: seq<Middleware<C, Q, V, N, T>>, ids: seq<nat>)
    requires TracedPrefix(ms, ids)
    ensures AroundsPrefix(NotificationLinks(ms), ids)
    decreases |ids|
  {
    if |ids| > 0 {
      NotificationLinksOfTraced(ms[1..], ids[1..]);
      assert NotificationLinks(ms)[1..] == NotificationLinks(ms[1..]);
    }
  }

  // ---------------------------------------------------------------------------
  // Commands

  /** With traced middlewares `ids` and a recording handler, `RunAsync` enters
      the middlewares in registration order, runs the handler once on the
      original command, leaves them in reverse and completes; every event sees
      the command and the caller's token. */
  lemma {:induction false} RunOrder<C, Q, V, N, T>(provider: ServiceProvider<C, Q, V, N, T>, ids: seq<nat>, commandType: TypeTag, handler: nat, command: C, token: T)
    requires |provider.middlewares| == |ids| && TracedPrefix(provider.middlewares, ids)
    requires commandType in provider.commandHandlers
    requires provider.commandHandlers[commandType] == Recorder(handler, ())
    ensures New(Some(provider)).Success?
    ensures var r := RunAsync(New(Some(provider)).value, commandType, command, token);
      && r.trace == Entries(ids, command, token) + [Handled(handler, command, token)] + Exits(ids, command, token)
      && r.status == Completed(())
      && forall e :: e in r.trace ==> e.message == command && e.token == token
  {
    var links := CommandLinks(provider.middlewares);
    CommandLinksOfTraced(provider.middlewares, ids);
    AroundsTrace(links, ids, CommandTerminal(GetCommandHandler(provider, commandType), token), token, command);
    assert links[|ids|..] == [];
    EntriesExitsCarry(ids, command, token);
  }

  /** A missing command handler is not an error at resolution: every
      middleware still runs, and the dispatch faults with a null reference
      only because the terminal is reached. */
  lemma {:induction false} RunWithoutHandler<C, Q, V, N, T>(provider: ServiceProvider<C, Q, V, N, T>, ids: seq<nat>, commandType: TypeTag, command: C, token: T)
    requires |provider.middlewares| == |ids| && TracedPrefix(provider.middlewares, ids)
    requires commandType !in provider.commandHandlers
    ensures New(Some(provider)).Success?
    ensures RunAsync(New(Some(provider)).value, commandType, command, token)
         == Outcome(Entries(ids, command, token) + Exits(ids, command, token), Faulted([NullReference]))
  {
    var links := CommandLinks(provider.middlewares);
    var terminal := CommandTerminal(GetCommandHandler(provider, commandType), token);
    assert terminal(command) == Fail(NullReference);
    CommandLinksOfTraced(provider.middlewares, ids);
    AroundsTrace(links, ids, terminal, token, command);
    assert links[|ids|..] == [];
    assert Entries(ids, command, token) + [] + Exits(ids, command, token) == Entries(ids, command, token) + Exits(ids, command, token);
  }

  /** A middleware that never calls `next` keeps the handler from running:
      whatever handlers are registered (none at all included) and whatever
      middlewares follow it, the outer middlewares enter and leave around the
      rejection, the later ones never run, and the dispatch faults with the
      rejection's fault only. */
  lemma {:induction false} RunRejected<C, Q, V, N, T>(provider: ServiceProvider<C, Q, V, N, T>, ids: seq<nat>, rejecter: nat, fault: Fault, commandType: TypeTag, command: C, token: T)
    requires TracedPrefix(provider.middlewares, ids) && |ids| < |provider.middlewares|
    requires provider.middlewares[|ids|] == Rejecting(rejecter, fault)
    ensures New(Some(provider)).Success?
    ensures var r := RunAsync(New(Some(provider)).value, commandType, command, token);
      && r == Outcome(Entries(ids, command, token) + [ShortCircuited(rejecter, command, token)] + Exits(ids, command, token), Faulted([fault]))
      && forall e :: e in r.trace ==> !e.Handled?
  {
    var links := CommandLinks(provider.middlewares);
    var terminal := CommandTerminal(GetCommandHandler(provider, commandType), token);
    var rest := Nest(links[|ids|..], terminal, token)(command);
    assert rest == Outcome([ShortCircuited(rejecter, command, token)], Faulted([fault])) by {
      NestFirst(links[|ids|..], terminal, token, command);
      assert links[|ids|..][0] == Reject(rejecter, fault);
    }
    CommandLinksOfTraced(provider.middlewares, ids);
    AroundsTrace(links, ids, terminal, token, command);
    UnhandledAround(ids, [ShortCircuited(rejecter, command, token)], command, token);
  }

  /** A middleware may call `next` more than once: a retrying middleware
      around a failing handler runs the handler twice on the same command and
      reports the second attempt's fault. */
  lemma {:induction false} RunRetried<C, Q, V, N, T>(provider: ServiceProvider<C, Q, V, N, T>, id: nat, commandType: TypeTag, handler: nat, code: int, command: C, token: T)
    requires provider.middlewares == [Retrying(id)]
    requires commandType in provider.commandHandlers
    requires provider.commandHandlers[commandType] == Thrower(handler, code)
    ensures New(Some(provider)).Success?
    ensures RunAsync(New(Some(provider)).value, commandType, command, token)
         == Outcome([Entered(id, command, token), Handled(handler, command, token), Handled(handler, command, token), Left(id, command, token)],
                    Faulted([Raised(code)]))
  {
    var terminal := CommandTerminal(GetCommandHandler(provider, commandType), token);
    assert CommandLinks(provider.middlewares) == [Retry(id)];
    assert Nest([Retry<C, T, ()>(id)], terminal, token)(command) == Retry(id)(command, terminal, token);
  }

  /** Each middleware passes its own (possibly rewritten) command to `next`:
      the handler receives the command as rewritten by every middleware in
      registration order, not necessarily the original. */
  lemma {:induction false} RunDeliversRewritten<C, Q, V, N, T>(provider: ServiceProvider<C, Q, V, N, T>, rewrites: seq<C -> C>, commandType: TypeTag, command: C, token: T)
    requires |provider.middlewares| == |rewrites|
    requires forall i :: 0 <= i < |rewrites| ==> provider.middlewares[i].command == Forward(rewrites[i])
    requires commandType in provider.commandHandlers
    ensures New(Some(provider)).Success?
    ensures RunAsync(New(Some(provider)).value, commandType, command, token)
         == provider.commandHandlers[commandType](Rewritten(rewrites, command), token)
  {
    var links := CommandLinks(provider.middlewares);
    forall i | 0 <= i < |rewrites| ensures links[i] == Forward(rewrites[i]) {}
    ForwardsDeliverRewritten(links, rewrites, CommandTerminal(GetCommandHandler(provider, commandType), token), token, command);
  }

  /** With no middlewares the pipeline is exactly the terminal call. */
  lemma {:induction false} RunWithoutMiddlewares<C, Q, V, N, T>(provider: ServiceProvider<C, Q, V, N, T>, commandType: TypeTag, command: C, token: T)
    requires provider.middlewares == []
    ensures New(Some(provider)).Success?
    ensures var r := RunAsync(New(Some(provider)).value, commandType, command, token);
      && (commandType in provider.commandHandlers ==> r == provider.commandHandlers[commandType](command, token))
      && (commandType !in provider.commandHandlers ==> r == Fail(NullReference))
  {
    assert CommandLinks(provider.middlewares) == [];
  }

  // ---------------------------------------------------------------------------
  // Queries

  /** With traced middlewares and a recording handler, `QueryAsync` runs the
      middlewares in registration order around one handler call and returns
      the handler's result unchanged. */
  lemma {:induction false} QueryOrder<C, Q, V, N, T>(provider: ServiceProvider<C, Q, V, N, T>, ids: seq<nat>, queryType: TypeTag, resultType: TypeTag, handler: nat, value: V, query: Q, token: T)
    requires |provider.middlewares| == |ids| && TracedPrefix(provider.middlewares, ids)
    requires (queryType, resultType) in provider.queryHandlers
    requires provider.queryHandlers[(queryType, resultType)] == Recorder(handler, value)
    ensures New(Some(provider)).Success?
    ensures var r := QueryAsync(New(Some(provider)).value, queryType, resultType, query, token);
      && r.trace == Entries(ids, query, token) + [Handled(handler, query, token)] + Exits(ids, query, token)
      && r.status == Completed(value)
      && forall e :: e in r.trace ==> e.message == query && e.token == token
  {
    var links := QueryLinks(provider.middlewares);
    QueryLinksOfTraced(provider.middlewares, ids);
    AroundsTrace(links, ids, QueryTerminal(GetQueryHandler(provider, queryType, resultType), token), token, query);
    assert links[|ids|..] == [];
    EntriesExitsCarry(ids, query, token);
  }

  /** A missing query handler faults with a null reference once the terminal
      is reached, after every middleware ran. */
  lemma {:induction false} QueryWithoutHandler<C, Q, V, N, T>(provider: ServiceProvider<C, Q, V, N, T>, ids: seq<nat>, queryType: TypeTag, resultType: TypeTag, query: Q, token: T)
    requires |provider.middlewares| == |ids| && TracedPrefix(provider.middlewares, ids)
    requires (queryType, resultType) !in provider.queryHandlers
    ensures New(Some(provider)).Success?
    ensures QueryAsync(New(Some(provider)).value, queryType, resultType, query, token)
         == Outcome(Entries(ids, query, token) + Exits(ids, query, token), Faulted([NullReference]))
  {
    var links := QueryLinks(provider.middlewares);
    var terminal := QueryTerminal(GetQueryHandler(provider, queryType, resultType), token);
    assert terminal(query) == Fail(NullReference);
    QueryLinksOfTraced(provider.middlewares, ids);
    AroundsTrace(links, ids, terminal, token, query);
    assert links[|ids|..] == [];
    assert Entries(ids, query, token) + [] + Exits(ids, query, token) == Entries(ids, query, token) + Exits(ids, query, token);
  }

  /** The result is whatever the outermost links return: a caching middleware
      answers without calling `next`, so the handler never runs (a missing one
      is never noticed) and the cached value comes back out. */
  lemma {:induction false} QueryFromCache<C, Q, V, N, T>(provider: ServiceProvider<C, Q, V, N, T>, ids: seq<nat>, cache: nat, value: V, queryType: TypeTag, resultType: TypeTag, query: Q, token: T)
    requires TracedPrefix(provider.middlewares, ids) && |ids| < |provider.middlewares|
    requires provider.middlewares[|ids|] == Caching(cache, value)
    ensures New(Some(provider)).Success?
    ensures var r := QueryAsync(New(Some(provider)).value, queryType, resultType, query, token);
      && r == Outcome(Entries(ids, query, token) + [ShortCircuited(cache, query, token)] + Exits(ids, query, token), Completed(value))
      && forall e :: e in r.trace ==> !e.Handled?
  {
    var links := QueryLinks(provider.middlewares);
    var terminal := QueryTerminal(GetQueryHandler(provider, queryType, resultType), token);
    var rest := Nest(links[|ids|..], terminal, token)(query);
    assert rest == Outcome([ShortCircuited(cache, query, token)], Completed(value)) by {
      NestFirst(links[|ids|..], terminal, token, query);
      assert links[|ids|..][0] == Cache(cache, value);
    }
    QueryLinksOfTraced(provider.middlewares, ids);
    AroundsTrace(links, ids, terminal, token, query);
    UnhandledAround(ids, [ShortCircuited(cache, query, token)], query, token);
  }

  /** When every middleware passes queries through unchanged (in particular
      when there are none), `QueryAsync` returns exactly the handler's result
      for the original query. */
  lemma {:induction false} QueryPassThrough<C, Q, V, N, T>(provider: ServiceProvider<C, Q, V, N, T>, queryType: TypeTag, resultType: TypeTag, query: Q, token: T)
    requires forall i :: 0 <= i < |provider.middlewares| ==> provider.middlewares[i].query == PassThrough()
    ensures New(Some(provider)).Success?
    ensures var r := QueryAsync(New(Some(provider)).value, queryType, resultType, query, token);
      && ((queryType, resultType) in provider.queryHandlers ==> r == provider.queryHandlers[(queryType, resultType)](query, token))
      && ((queryType, resultType) !in provider.queryHandlers ==> r == Fail(NullReference))
  {
    var links := QueryLinks(provider.middlewares);
    forall i | 0 <= i < |links| ensures links[i] == PassThrough() {}
    PassThroughsAreTransparent(links, QueryTerminal(GetQueryHandler(provider, queryType, resultType), token), token, query);
  }

  // ---------------------------------------------------------------------------
  // Notifications

  /** With traced middlewares, `BroadcastAsync` runs them in registration
      order around the fan-out: its trace is the middlewares' entries, then the
      join of one task per resolved handler, then their exits, and its status
      is the join's (complete only if every handler completed, otherwise every
      handler's faults, by `WhenAll`). */
  lemma {:induction false} BroadcastJoins<C, Q, V, N, T>(provider: ServiceProvider<C, Q, V, N, T>, ids: seq<nat>, notificationType: TypeTag, notification: N, token: T)
    requires |provider.middlewares| == |ids| && TracedPrefix(provider.middlewares, ids)
    ensures New(Some(provider)).Success?
    ensures var join := WhenAll(InvokeAll(GetNotificationHandlers(provider, notificationType), notification, token));
      BroadcastAsync(New(Some(provider)).value, notificationType, notification, token)
      == Outcome(Entries(ids, notification, token) + join.trace + Exits(ids, notification, token), join.status)
  {
    var links := NotificationLinks(provider.middlewares);
    var handlers := GetNotificationHandlers(provider, notificationType);
    NotificationLinksOfTraced(provider.middlewares, ids);
    AroundsTrace(links, ids, NotificationTerminal(handlers, token), token, notification);
    assert links[|ids|..] == [];
  }

  /** With recording handlers, the fan-out's trace shows each handler exactly
      once, in resolved order, between the middlewares' entry and exit. */
  lemma {:induction false} BroadcastOrder<C, Q, V, N, T>(provider: ServiceProvider<C, Q, V, N, T>, ids: seq<nat>, notificationType: TypeTag, recorders: seq<nat>, notification: N, token: T)
    requires |provider.middlewares| == |ids| && TracedPrefix(provider.middlewares, ids)
    requires notificationType in provider.notificationHandlers
    requires Recorders(provider.notificationHandlers[notificationType], recorders)
    ensures New(Some(provider)).Success?
    ensures BroadcastAsync(New(Some(provider)).value, notificationType, notification, token)
         == Outcome(Entries(ids, notification, token) + Handlings(recorders, notification, token) + Exits(ids, notification, token), Completed(()))
  {
    var links := NotificationLinks(provider.middlewares);
    var resolved := GetNotificationHandlers(provider, notificationType);
    NotificationLinksOfTraced(provider.middlewares, ids);
    AroundsTrace(links, ids, NotificationTerminal(resolved, token), token, notification);
    assert links[|ids|..] == [];
    RecordersJoin(resolved, recorders, notification, token);
  }

  /** No handlers for a notification (none registered, or an empty
      registration) is not an error: the fan-out completes at once and the
      middlewares enter and leave around it. */
  lemma {:induction false} BroadcastWithoutHandlers<C, Q, V, N, T>(provider: ServiceProvider<C, Q, V, N, T>, ids: seq<nat>, notificationType: TypeTag, notification: N, token: T)
    requires |provider.middlewares| == |ids| && TracedPrefix(provider.middlewares, ids)
    requires GetNotificationHandlers(provider, notificationType) == []
    ensures New(Some(provider)).Success?
    ensures BroadcastAsync(New(Some(provider)).value, notificationType, notification, token)
         == Outcome(Entries(ids, notification, token) + Exits(ids, notification, token), Completed(()))
  {
    var links := NotificationLinks(provider.middlewares);
    var terminal := NotificationTerminal(GetNotificationHandlers(provider, notificationType), token);
    assert InvokeAll<N, T>([], notification, token) == [];
    assert terminal(notification) == WhenAll<N, T, ()>([]) == Outcome([], Completed(()));
    NotificationLinksOfTraced(provider.middlewares, ids);
    AroundsTrace(links, ids, terminal, token, notification);
    assert links[|ids|..] == [];
    assert Entries(ids, notification, token) + [] + Exits(ids, notification, token) == Entries(ids, notification, token) + Exits(ids, notification, token);
  }

  /** When exactly one handler fails, the broadcast faults with exactly that
      handler's faults: the others' successes neither hide nor add to them. */
  lemma {:induction false} BroadcastSingleFailure<C, Q, V, N, T>(provider: ServiceProvider<C, Q, V, N, T>, ids: seq<nat>, notificationType: TypeTag, k: nat, notification: N, token: T)
    requires |provider.middlewares| == |ids| && TracedPrefix(provider.middlewares, ids)
    requires k < |GetNotificationHandlers(provider, notificationType)|
    requires GetNotificationHandlers(provider, notificationType)[k](notification, token).status.Faulted?
    requires forall i :: 0 <= i < |GetNotificationHandlers(provider, notificationType)| && i != k ==>
      GetNotificationHandlers(provider, notificationType)[i](notification, token).status.Completed?
    ensures New(Some(provider)).Success?
    ensures BroadcastAsync(New(Some(provider)).value, notificationType, notification, token).status
         == Faulted(GetNotificationHandlers(provider, notificationType)[k](notification, token).status.faults)
  {
    var handlers := GetNotificationHandlers(provider, notificationType);
    BroadcastJoins(provider, ids, notificationType, notification, token);
    FaultsOfSingleFailure(InvokeAll(handlers, notification, token), k);
  }
}
