/** Composition of a middleware pipeline around a terminal continuation,
    independent of the message kind.

    A continuation `M -> R` is "the rest of the pipeline": calling it with a
    message runs every later middleware and finally the terminal handler call.
    A link is one middleware's operation for one message kind: it receives the
    message, the continuation it may call zero, one or several times, and the
    cancellation token. */
module Pipeline {

  /** One middleware operation: `(message, next, cancellationToken) -> outcome`. */
  type Link<!M, !R, !T> = (M, M -> R, T) -> R

  /** The continuation that runs `link` with `next` as its own continuation and
      the dispatch's cancellation token. */
  function Wrap<M, R, T>(link: Link<M, R, T>, next: M -> R, token: T): M -> R
  {
    (m: M) => link(m, next, token)
  }

  /** The sequence in reverse order. */
  function Reverse<X>(s: seq<X>): (r: seq<X>)
    ensures |r| == |s|
    ensures forall i :: 0 <= i < |s| ==> r[i] == s[|s| - 1 - i]
  {
    if |s| == 0 then [] else [s[|s| - 1]] + Reverse(s[..|s| - 1])
  }

  /** `select` applied to each element, in the same order. */
  function Project<X, Y>(xs: seq<X>, select: X -> Y): (ys: seq<Y>)
    ensures |ys| == |xs|
    ensures forall i :: 0 <= i < |xs| ==> ys[i] == select(xs[i])
  {
    seq(|xs|, i requires 0 <= i < |xs| => select(xs[i]))
  }

  /** Projecting commutes with reversing. */
  lemma ProjectReverse<X, Y>(xs: seq<X>, select: X -> Y)
    ensures Project(Reverse(xs), select) == Reverse(Project(xs, select))
  {
  }

  /** The reference meaning of a pipeline: right-nested composition in
      registration order, `links[0](links[1](... links[n-1](terminal)))`, so
      `links[0]` is the outermost link. */
  function Nest<M, R, T>(links: seq<Link<M, R, T>>, terminal: M -> R, token: T): M -> R
    decreases |links|
  {
    if |links| == 0 then terminal
    else Wrap(links[0], Nest(links[1..], terminal, token), token)
  }

  /** The dispatcher's loop as a left fold: walk the stored links in storage
      order, each wrapping the continuation built so far. */
  function Fold<M, R, T>(stored: seq<Link<M, R, T>>, next: M -> R, token: T): M -> R
    decreases |stored|
  {
    if |stored| == 0 then next
    else Fold(stored[1..], Wrap(stored[0], next, token), token)
  }

  /** The dispatcher's `foreach` loop over the stored (reversed) middlewares. */
  method Build<M, R, T>(stored: seq<Link<M, R, T>>, terminal: M -> R, token: T)
    returns (next: M -> R)
    ensures next == Nest(Reverse(stored), terminal, token)
  {
    next := terminal;
    var i := 0;
    while i < |stored|
      invariant 0 <= i <= |stored|
      invariant next == Nest(Reverse(stored[..i]), terminal, token)
    {
      assert stored[..i + 1][..i] == stored[..i];
      ghost var inner := Reverse(stored[..i]);
      assert Reverse(stored[..i + 1]) == [stored[i]] + inner;
      assert ([stored[i]] + inner)[1..] == inner;
      next := Wrap(stored[i], next, token);
      i := i + 1;
    }
    assert stored[..i] == stored;
  }

  lemma {:induction false} ReverseFront<X>(s: seq<X>)
    requires |s| > 0
    ensures Reverse(s) == Reverse(s[1..]) + [s[0]]
    decreases |s|
  {
    if |s| > 1 {
      var last := s[|s| - 1];
      assert s[1..][..|s| - 2] == s[..|s| - 1][1..];
      ReverseFront(s[..|s| - 1]);
      assert Reverse(s[1..]) == [last] + Reverse(s[..|s| - 1][1..]);
    }
  }

  /** Dropping the first element, then `k - 1` more, drops `k`. */
  lemma DropDrop<X>(s: seq<X>, k: nat)
    requires 1 <= k <= |s|
    ensures s[1..][k - 1..] == s[k..]
  {
  }

  /** Reversing twice gives back the original order. */
  lemma ReverseReverse<X>(s: seq<X>)
    ensures Reverse(Reverse(s)) == s
  {
  }

  /** A link's `next` is the composition of every later link around the
      terminal, and it runs with the dispatch's token. */
  lemma NestFirst<M, R, T>(links: seq<Link<M, R, T>>, terminal: M -> R, token: T, m: M)
    requires |links| > 0
    ensures Nest(links, terminal, token)(m) == links[0](m, Nest(links[1..], terminal, token), token)
  {
  }

  /** Splitting a pipeline: the links of `a` see, as their innermost
      continuation, the whole composition of `b` around the terminal. */
  lemma {:induction false} NestAppend<M, R, T>(a: seq<Link<M, R, T>>, b: seq<Link<M, R, T>>, terminal: M -> R, token: T)
    ensures Nest(a + b, terminal, token) == Nest(a, Nest(b, terminal, token), token)
    decreases |a|
  {
    if |a| == 0 {
      assert a + b == b;
    } else {
      assert (a + b)[1..] == a[1..] + b;
      NestAppend(a[1..], b, terminal, token);
    }
  }

  /** The left fold over any sequence equals right-nested composition of that
      sequence reversed. */
  lemma {:induction false} FoldNestsReversed<M, R, T>(stored: seq<Link<M, R, T>>, next: M -> R, token: T)
    ensures Fold(stored, next, token) == Nest(Reverse(stored), next, token)
    decreases |stored|
  {
    if |stored| > 0 {
      var inner := Wrap(stored[0], next, token);
      FoldNestsReversed(stored[1..], inner, token);
      ReverseFront(stored);
      NestAppend(Reverse(stored[1..]), [stored[0]], next, token);
      assert [stored[0]][1..] == [];
    }
  }

  /** The dispatcher's claim: folding the reversed registration order over the
      terminal builds exactly the right-nested composition in registration
      order, so middlewares run outermost-first and unwind in reverse. */
  lemma FoldReversedIsNest<M, R, T>(links: seq<Link<M, R, T>>, terminal: M -> R, token: T)
    ensures Fold(Reverse(links), terminal, token) == Nest(links, terminal, token)
  {
    FoldNestsReversed(Reverse(links), terminal, token);
    ReverseReverse(links);
  }

  /** A link that forwards a (possibly rewritten) message to its continuation
      and returns whatever the continuation returns. */
  function Forward<M, R, T>(rewrite: M -> M): Link<M, R, T>
  {
    (m: M, next: M -> R, token: T) => next(rewrite(m))
  }

  /** A link that passes the message through unchanged. */
  function PassThrough<M, R, T>(): Link<M, R, T>
  {
    (m: M, next: M -> R, token: T) => next(m)
  }

  /** The message after the rewrites, applied first to last. */
  function Rewritten<M>(rewrites: seq<M -> M>, m: M): M
    decreases |rewrites|
  {
    if |rewrites| == 0 then m else Rewritten(rewrites[1..], rewrites[0](m))
  }

  /** The message that reaches the terminal is the one handed on by the
      innermost link: when link `i` forwards `rewrites[i]` of its message,
      the terminal receives every rewrite applied in registration order, and
      the pipeline's result is the terminal's result on that message. */
  lemma {:induction false} ForwardsDeliverRewritten<M, R, T>(links: seq<Link<M, R, T>>, rewrites: seq<M -> M>, terminal: M -> R, token: T, m: M)
    requires |links| == |rewrites|
    requires forall i :: 0 <= i < |links| ==> links[i] == Forward(rewrites[i])
    ensures Nest(links, terminal, token)(m) == terminal(Rewritten(rewrites, m))
    decreases |links|
  {
    if |links| > 0 {
      ForwardsDeliverRewritten(links[1..], rewrites[1..], terminal, token, rewrites[0](m));
    }
  }

  /** When every link passes through unchanged, the pipeline returns exactly
      what the terminal returns for the original message. */
  lemma {:induction false} PassThroughsAreTransparent<M, R, T>(links: seq<Link<M, R, T>>, terminal: M -> R, token: T, m: M)
    requires forall i :: 0 <= i < |links| ==> links[i] == PassThrough()
    ensures Nest(links, terminal, token)(m) == terminal(m)
    decreases |links|
  {
    if |links| > 0 {
      PassThroughsAreTransparent(links[1..], terminal, token, m);
    }
  }
}
