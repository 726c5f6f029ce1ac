/** Instrumented middlewares and handlers that record what they observe, and
    the traces a pipeline of them produces. They make the order in which the
    pipeline runs its links observable. */
module Instrumented {
  import opened Outcomes
  import opened Pipeline
  import opened Services
  import opened Mediator

  // ---------------------------------------------------------------------------
  // Links

  /** Records `Entered`, calls `next` once with the same message, records
      `Left`, and returns the continuation's status unchanged. */
  function Around<M, T, V>(id: nat): Link<M, Outcome<M, T, V>, T>
  {
    (m: M, next: M -> Outcome<M, T, V>, token: T) =>
      var inner := next(m);
      Outcome([Entered(id, m, token)] + inner.trace + [Left(id, m, token)], inner.status)
  }

  /** Rejects the message early: never calls `next` and faults. */
  function Reject<M, T, V>(id: nat, fault: Fault): Link<M, Outcome<M, T, V>, T>
  {
    (m: M, next: M -> Outcome<M, T, V>, token: T) =>
      Outcome([ShortCircuited(id, m, token)], Faulted([fault]))
  }

  /** Answers from a cache: never calls `next` and completes with `value`. */
  function Cache<M, T, V>(id: nat, value: V): Link<M, Outcome<M, T, V>, T>
  {
    (m: M, next: M -> Outcome<M, T, V>, token: T) =>
      Outcome([ShortCircuited(id, m, token)], Completed(value))
  }

  /** Calls `next`; if that faults, calls it a second time and returns the
      second attempt's status. */
  function Retry<M, T, V>(id: nat): Link<M, Outcome<M, T, V>, T>
  {
    (m: M, next: M -> Outcome<M, T, V>, token: T) =>
      var first := next(m);
      if first.status.Completed? then
        Outcome([Entered(id, m, token)] + first.trace + [Left(id, m, token)], first.status)
      else
        var second := next(m);
        Outcome([Entered(id, m, token)] + first.trace + second.trace + [Left(id, m, token)], second.status)
  }

  /** The first `|ids|` links are `Around` links for `ids`, in order. */
  ghost predicate AroundsPrefix<M, T, V>(links: seq<Link<M, Outcome<M, T, V>, T>>, ids: seq<nat>)
    decreases |ids|
  {
    |ids| <= |links| && (|ids| > 0 ==> links[0] == Around(ids[0]) && AroundsPrefix(links[1..], ids[1..]))
  }

  // ---------------------------------------------------------------------------
  // Middlewares (the same behaviour for every message kind)

  function Traced<C, Q, V, N, T>(id: nat): Middleware<C, Q, V, N, T>
  {
    Middleware(Around(id), Around(id), Around(id))
  }

  function Rejecting<C, Q, V, N, T>(id: nat, fault: Fault): Middleware<C, Q, V, N, T>
  {
    Middleware(Reject(id, fault), Reject(id, fault), Reject(id, fault))
  }

  /** Traces commands and notifications; answers queries from its cache. */
  function Caching<C, Q, V, N, T>(id: nat, value: V): Middleware<C, Q, V, N, T>
  {
    Middleware(Around(id), Cache(id, value), Around(id))
  }

  function Retrying<C, Q, V, N, T>(id: nat): Middleware<C, Q, V, N, T>
  {
    Middleware(Retry(id), Retry(id), Retry(id))
  }

  /** The first `|ids|` middlewares are `Traced` middlewares for `ids`, in order. */
  ghost predicate TracedPrefix<C, Q, V, N, T>(ms: seq<Middleware<C, Q, V, N, T>>, ids: seq<nat>)
    decreases |ids|
  {
    |ids| <= |ms| && (|ids| > 0 ==> ms[0] == Traced(ids[0]) && TracedPrefix(ms[1..], ids[1..]))
  }

  // ---------------------------------------------------------------------------
  // Handlers

  /** A handler that records its invocation and completes with `value`. */
  function Recorder<M, T, V>(id: nat, value: V): (M, T) -> Outcome<M, T, V>
  {
    (m: M, token: T) => Outcome([Handled(id, m, token)], Completed(value))
  }

  /** A handler that records its invocation and faults. */
  function Thrower<M, T, V>(id: nat, code: int): (M, T) -> Outcome<M, T, V>
  {
    (m: M, token: T) => Outcome([Handled(id, m, token)], Faulted([Raised(code)]))
  }

  /** The handlers are completing recorders for `ids`, in order. */
  ghost predicate Recorders<N, T>(hs: seq<NotificationHandler<N, T>>, ids: seq<nat>)
    decreases |ids|
  {
    |hs| == |ids| && (|ids| > 0 ==> hs[0] == Recorder(ids[0], ()) && Recorders(hs[1..], ids[1..]))
  }

  // ---------------------------------------------------------------------------
  // Expected traces

  /** The `Entered` events of `ids`, outermost first. */
  function Entries<M, T>(ids: seq<nat>, m: M, token: T): (es: seq<Event<M, T>>)
    ensures |es| == |ids|
    ensures forall i :: 0 <= i < |ids| ==> es[i] == Entered(ids[i], m, token)
    decreases |ids|
  {
    if |ids| == 0 then [] else [Entered(ids[0], m, token)] + Entries(ids[1..], m, token)
  }

  /** The `Left` events of `ids`, innermost first: the reverse of entry. */
  function Exits<M, T>(ids: seq<nat>, m: M, token: T): (es: seq<Event<M, T>>)
    ensures |es| == |ids|
    ensures forall i :: 0 <= i < |ids| ==> es[i] == Left(ids[|ids| - 1 - i], m, token)
    decreases |ids|
  {
    if |ids| == 0 then [] else Exits(ids[1..], m, token) + [Left(ids[0], m, token)]
  }

  /** The `Handled` events of `ids`, in order. */
  function Handlings<M, T>(ids: seq<nat>, m: M, token: T): (es: seq<Event<M, T>>)
    ensures |es| == |ids|
    ensures forall i :: 0 <= i < |ids| ==> es[i] == Handled(ids[i], m, token)
    decreases |ids|
  {
    if |ids| == 0 then [] else [Handled(ids[0], m, token)] + Handlings(ids[1..], m, token)
  }

  // ---------------------------------------------------------------------------
  // Traces of instrumented pipelines

  /** Wrapping `ids[0]`'s entry and exit around a middle part traced for
      `ids[1..]` gives the trace for `ids`. */
  lemma {:induction false} EntriesExitsCons<M, T>(ids: seq<nat>, m: M, token: T, middle: seq<Event<M, T>>)
    requires |ids| > 0
    ensures [Entered(ids[0], m, token)] + (Entries(ids[1..], m, token) + middle + Exits(ids[1..], m, token)) + [Left(ids[0], m, token)]
         == Entries(ids, m, token) + middle + Exits(ids, m, token)
  {
    var first, last := [Entered(ids[0], m, token)], [Left(ids[0], m, token)];
    var entries, exits := Entries(ids[1..], m, token), Exits(ids[1..], m, token);
    assert Entries(ids, m, token) == first + entries;
    assert Exits(ids, m, token) == exits + last;
    Regroup(first, entries, middle, exits, last);
  }

  lemma Regroup<X>(a: seq<X>, b: seq<X>, c: seq<X>, d: seq<X>, e: seq<X>)
    ensures a + (b + c + d) + e == (a + b) + c + (d + e)
  {
  }

  /** One `Around` link wraps its entry and exit around whatever its
      continuation records, and returns the continuation's status. */
  lemma AroundStep<M, T, V>(id: nat, next: M -> Outcome<M, T, V>, token: T, m: M)
    ensures Around(id)(m, next, token)
         == Outcome([Entered(id, m, token)] + next(m).trace + [Left(id, m, token)], next(m).status)
  {
  }

  /** A pipeline whose first links are `Around` links for `ids` enters them
      outermost-first, then runs the rest of the pipeline, then leaves them in
      reverse; the status of the rest comes back out unchanged. When the
      traced links are all the links, the rest is the terminal itself. */
  lemma {:induction false} AroundsTrace<M, T, V>(links: seq<Link<M, Outcome<M, T, V>, T>>, ids: seq<nat>, terminal: M -> Outcome<M, T, V>, token: T, m: M)
    requires AroundsPrefix(links, ids)
    ensures var rest := Nest(links[|ids|..], terminal, token)(m);
      Nest(links, terminal, token)(m)
      == Outcome(Entries(ids, m, token) + rest.trace + Exits(ids, m, token), rest.status)
    decreases |ids|
  {
    if |ids| > 0 {
      var rest := Nest(links[|ids|..], terminal, token)(m);
      var inner := Nest(links[1..], terminal, token);
      DropDrop(links, |ids|);
      assert AroundsPrefix(links[1..], ids[1..]);
      AroundsTrace(links[1..], ids[1..], terminal, token, m);
      AroundStep(ids[0], inner, token, m);
      EntriesExitsCons(ids, m, token, rest.trace);
    }
  }

  /** Every event of the entry and exit traces carries the message and the
      token of the dispatch. */
  lemma EntriesExitsCarry<M, T>(ids: seq<nat>, m: M, token: T)
    ensures forall e :: e in Entries(ids, m, token) ==> e.message == m && e.token == token
    ensures forall e :: e in Exits(ids, m, token) ==> e.message == m && e.token == token
    ensures forall e :: e in Entries(ids, m, token) ==> e.Entered?
    ensures forall e :: e in Exits(ids, m, token) ==> e.Left?
  {
  }

  /** The entries and exits of traced middlewares are never handler events,
      so the only handler events of a traced dispatch are the middle's. */
  lemma UnhandledAround<M, T>(ids: seq<nat>, middle: seq<Event<M, T>>, m: M, token: T)
    requires forall e :: e in middle ==> !e.Handled?
    ensures forall e :: e in Entries(ids, m, token) + middle + Exits(ids, m, token) ==> !e.Handled?
  {
    EntriesExitsCarry(ids, m, token);
  }

  /** Starting a sequence of recording notification handlers invokes each
      exactly once, in order, and the join completes. */
  lemma {:induction false} RecordersJoin<N, T>(handlers: seq<NotificationHandler<N, T>>, ids: seq<nat>, n: N, token: T)
    requires Recorders(handlers, ids)
    ensures WhenAll(InvokeAll(handlers, n, token)) == Outcome(Handlings(ids, n, token), Completed(()))
    decreases |ids|
  {
    if |ids| > 0 {
      RecordersJoin(handlers[1..], ids[1..], n, token);
      var tasks := InvokeAll(handlers, n, token);
      assert tasks[1..] == InvokeAll(handlers[1..], n, token);
      assert Traces(tasks) == [Handled(ids[0], n, token)] + Traces(tasks[1..]);
    }
  }
}
