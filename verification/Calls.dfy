/** Traces of calls to a cloud API, in which every call has to be allowed by those before it. */
module Calls {
  /** What is left of a trace when the caller dies after k calls. */
  function Upto<E>(t: seq<E>, k: nat): seq<E> {
    if k <= |t| then t[..k] else t
  }

  ghost predicate AllAllowed<E(!new)>(allowed: (seq<E>, E) -> bool, t: seq<E>) {
    forall i :: 0 <= i < |t| ==> allowed(t[..i], t[i])
  }

  lemma AllowedAppend<E(!new)>(allowed: (seq<E>, E) -> bool, t: seq<E>, e: E)
    requires AllAllowed(allowed, t) && allowed(t, e)
    ensures AllAllowed(allowed, t + [e])
  {
    forall i | 0 <= i < |t| + 1 ensures allowed((t + [e])[..i], (t + [e])[i]) {
      assert (t + [e])[..i] == if i < |t| then t[..i] else t;
    }
  }

  /** Calls that are allowed at any time. */
  lemma {:induction false} AllowedAnyTime<E(!new)>(allowed: (seq<E>, E) -> bool, t: seq<E>, more: seq<E>)
    requires AllAllowed(allowed, t) && forall e, past :: e in more ==> allowed(past, e)
    ensures AllAllowed(allowed, t + more)
    decreases |more|
  {
    if more == [] {
      assert t + more == t;
    } else {
      assert more[0] in more;
      AllowedAppend(allowed, t, more[0]);
      AllowedAnyTime(allowed, t + [more[0]], more[1..]);
      assert t + more == t + [more[0]] + more[1..];
    }
  }

  lemma AllowedUpto<E(!new)>(allowed: (seq<E>, E) -> bool, t: seq<E>, more: seq<E>, k: nat)
    requires AllAllowed(allowed, t + more)
    ensures AllAllowed(allowed, t + Upto(more, k))
  {
    var cut := t + Upto(more, k);
    assert cut == (t + more)[..|cut|];
    forall i | 0 <= i < |cut| ensures allowed(cut[..i], cut[i]) {
      assert cut[..i] == (t + more)[..i];
    }
  }
}

/** Runs of a machine, one step for each attempt. */
module Runs {
  function RunFrom<W, A>(step: (W, A) -> W, start: W, attempts: seq<A>): W {
    if attempts == [] then start
    else step(RunFrom(step, start, attempts[..|attempts| - 1]), attempts[|attempts| - 1])
  }

  lemma RunOfOneMore<W, A>(step: (W, A) -> W, start: W, attempts: seq<A>, last: A)
    ensures RunFrom(step, start, attempts + [last]) == step(RunFrom(step, start, attempts), last)
  {
    assert (attempts + [last])[..|attempts|] == attempts;
  }

  /** What the start has and every step keeps holds after every run. */
  lemma {:induction false} RunKeeps<W(!new), A(!new)>(step: (W, A) -> W, start: W, inv: W -> bool, attempts: seq<A>)
    requires inv(start) && forall w, a :: inv(w) ==> inv(step(w, a))
    ensures inv(RunFrom(step, start, attempts))
  {
    if attempts != [] {
      RunKeeps(step, start, inv, attempts[..|attempts| - 1]);
    }
  }

  /** Two machines whose steps keep them related end up related. */
  lemma {:induction false} RunsSimulate<V(!new), W(!new), A(!new)>(
    stepV: (V, A) -> V, v: V, stepW: (W, A) -> W, w: W, related: (V, W) -> bool, attempts: seq<A>)
    requires related(v, w) && forall x, y, a :: related(x, y) ==> related(stepV(x, a), stepW(y, a))
    ensures related(RunFrom(stepV, v, attempts), RunFrom(stepW, w, attempts))
  {
    if attempts != [] {
      RunsSimulate(stepV, v, stepW, w, related, attempts[..|attempts| - 1]);
    }
  }
}
