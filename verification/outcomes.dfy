/** What a pipeline run produces: the completion (or result) of the returned `Task` and
    the observable trace of middleware and handler activity that led to it.

    A `Task` of the dispatcher is modelled as an `Outcome`: its final status and
    the ordered events the instrumented middlewares and handlers recorded. */
module Outcomes {

  /** A failure carried by a faulted task. */
  datatype Fault =
    | NullReference     // a method was invoked on a missing (null) handler
    | Raised(code: int) // a failure raised by a handler or middleware

  /** An observation made by an instrumented middleware or handler, together
      with the message it received and the cancellation token it was given. */
  datatype Event<M, T> =
    | Entered(middleware: nat, message: M, token: T)        // before calling next
    | Left(middleware: nat, message: M, token: T)           // after next returned
    | ShortCircuited(middleware: nat, message: M, token: T) // returned without calling next
    | Handled(handler: nat, message: M, token: T)           // a handler ran

  /** The final state of a task: completed with a value, or faulted. */
  datatype Status<V> = Completed(value: V) | Faulted(faults: seq<Fault>)

  datatype Outcome<M, T, V> = Outcome(trace: seq<Event<M, T>>, status: Status<V>)

  /** The outcome of a task that produces no value (commands, notifications). */
  type Completion<M, T> = Outcome<M, T, ()>

  /** A task that faulted without recording anything. */
  function Fail<M, T, V>(fault: Fault): Outcome<M, T, V>
  {
    Outcome([], Faulted([fault]))
  }

  /** True when every task completed. */
  predicate AllCompleted<M, T, V>(outs: seq<Outcome<M, T, V>>)
    ensures AllCompleted(outs) <==> forall i :: 0 <= i < |outs| ==> outs[i].status.Completed?
    decreases |outs|
  {
    |outs| == 0 || (outs[0].status.Completed? && AllCompleted(outs[1..]))
  }

  /** The traces of the given outcomes, one after the other. */
  function Traces<M, T, V>(outs: seq<Outcome<M, T, V>>): seq<Event<M, T>>
    decreases |outs|
  {
    if |outs| == 0 then [] else outs[0].trace + Traces(outs[1..])
  }

  /** The faults of every faulted task, in task order. */
  function Faults<M, T, V>(outs: seq<Outcome<M, T, V>>): seq<Fault>
    decreases |outs|
  {
    if |outs| == 0 then []
    else (if outs[0].status.Faulted? then outs[0].status.faults else []) + Faults(outs[1..])
  }

  /** `Task.WhenAll`: the joined task completes only when every task has
      completed; otherwise it faults with the faults of every faulted task,
      none dropped. */
  function WhenAll<M, T, V>(outs: seq<Outcome<M, T, V>>): (r: Completion<M, T>)
    ensures r.trace == Traces(outs)
    ensures r.status.Completed? <==> forall i :: 0 <= i < |outs| ==> outs[i].status.Completed?
    ensures r.status.Faulted? ==> r.status.faults == Faults(outs)
  {
    Outcome(Traces(outs), if AllCompleted(outs) then Completed(()) else Faulted(Faults(outs)))
  }

  /** With exactly one faulted task, the join's faults are exactly that task's
      faults. */
  lemma {:induction false} FaultsOfSingleFailure<M, T, V>(outs: seq<Outcome<M, T, V>>, k: nat)
    requires k < |outs| && outs[k].status.Faulted?
    requires forall i :: 0 <= i < |outs| && i != k ==> outs[i].status.Completed?
    ensures Faults(outs) == outs[k].status.faults
    decreases |outs|
  {
    if k == 0 {
      NoFaultsWhenAllCompleted(outs[1..]);
    } else {
      FaultsOfSingleFailure(outs[1..], k - 1);
    }
  }

  /** Completed tasks contribute no faults. */
  lemma {:induction false} NoFaultsWhenAllCompleted<M, T, V>(outs: seq<Outcome<M, T, V>>)
    requires forall i :: 0 <= i < |outs| ==> outs[i].status.Completed?
    ensures Faults(outs) == []
    decreases |outs|
  {
    if |outs| > 0 {
      NoFaultsWhenAllCompleted(outs[1..]);
    }
  }

  /** Every fault of every faulted task appears in the join's faults. */
  lemma {:induction false} FaultsKeepsEvery<M, T, V>(outs: seq<Outcome<M, T, V>>, k: nat, f: Fault)
    requires k < |outs| && outs[k].status.Faulted? && f in outs[k].status.faults
    ensures f in Faults(outs)
    decreases |outs|
  {
    if k > 0 {
      FaultsKeepsEvery(outs[1..], k - 1, f);
    }
  }
}
