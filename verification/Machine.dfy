/** Runs of a state machine given by a partial step function.

    A component whose goroutines interleave is written as a state, a set of events and a function
    `step` that says which events are enabled and what they do.  A run is a sequence of events;
    a property of every run is proved from its preservation by one step.
*/
module Machine {
  datatype Option<+T> = None | Some(value: T)

  /** The state after the events `es`, taken in order from `s`; `None` when one of them is not enabled. */
  function Exec<S, E>(step: (S, E) -> Option<S>, s: S, es: seq<E>): Option<S> {
    if es == [] then Some(s)
    else match Exec(step, s, es[..|es| - 1])
      case None => None
      case Some(t) => step(t, es[|es| - 1])
  }

  lemma {:induction false} Invariant<S(!new), E(!new)>(step: (S, E) -> Option<S>, inv: S -> bool, s: S, es: seq<E>)
    requires inv(s)
    requires forall t, e {:trigger step(t, e)} :: inv(t) && step(t, e).Some? ==> inv(step(t, e).value)
    ensures Exec(step, s, es).Some? ==> inv(Exec(step, s, es).value)
  {
    if es != [] {
      Invariant(step, inv, s, es[..|es| - 1]);
    }
  }

  lemma ExecAppend<S, E>(step: (S, E) -> Option<S>, s: S, es: seq<E>, e: E)
    ensures Exec(step, s, es + [e]) ==
      match Exec(step, s, es) { case None => None case Some(t) => step(t, e) }
  {
    assert (es + [e])[..|es|] == es;
  }

  lemma {:induction false} ExecConcat<S, E>(step: (S, E) -> Option<S>, s: S, es: seq<E>, t: S, fs: seq<E>)
    requires Exec(step, s, es) == Some(t)
    ensures Exec(step, s, es + fs) == Exec(step, t, fs)
  {
    if fs == [] {
      assert es + fs == es;
    } else {
      ExecConcat(step, s, es, t, fs[..|fs| - 1]);
      assert (es + fs)[..|es + fs| - 1] == es + fs[..|fs| - 1];
    }
  }

  /** The rest of a run leads from where its beginning led to where it leads. */
  lemma ExecSegment<S, E>(step: (S, E) -> Option<S>, s0: S, es0: seq<E>, s: S, es: seq<E>)
    requires Exec(step, s0, es0) == Some(s) && es0 <= es
    ensures Exec(step, s, es[|es0|..]) == Exec(step, s0, es)
  {
    var rest := es[|es0|..];
    ExecConcat(step, s0, es0, s, rest);
    PrefixAndRest(es0, es);
  }

  lemma PrefixAndRest<E>(es0: seq<E>, es: seq<E>)
    requires es0 <= es
    ensures es0 + es[|es0|..] == es
  {}

  /** Extends a run that reaches `t` by one enabled event. */
  lemma Extend<S, E>(step: (S, E) -> Option<S>, s: S, es: seq<E>, t: S, e: E) returns (fs: seq<E>, u: S)
    requires Exec(step, s, es) == Some(t) && step(t, e).Some?
    ensures fs == es + [e] && Some(u) == step(t, e) && Exec(step, s, fs) == Some(u)
  {
    fs, u := es + [e], step(t, e).value;
    ExecAppend(step, s, es, e);
  }

  /** No step of the run is of the kind `bad`, seen from the state it is taken in. */
  ghost predicate Never<S, E>(step: (S, E) -> Option<S>, bad: (S, E) -> bool, s: S, es: seq<E>) {
    es == [] ||
    var before := es[..|es| - 1];
    && Never(step, bad, s, before)
    && (Exec(step, s, before).Some? ==> !bad(Exec(step, s, before).value, es[|es| - 1]))
  }

  /** Every state of the run satisfies `good`. */
  ghost predicate Always<S, E>(step: (S, E) -> Option<S>, good: S -> bool, s: S, es: seq<E>) {
    && (Exec(step, s, es).Some? ==> good(Exec(step, s, es).value))
    && (es != [] ==> Always(step, good, s, es[..|es| - 1]))
  }

  /** If from a good state exactly the bad steps lead to a state that is not good, a run stays good throughout exactly
      when it has no bad step. */
  lemma {:induction false} GoodUntilBad<S(!new), E(!new)>(step: (S, E) -> Option<S>, inv: S -> bool, good: S -> bool,
                                                         bad: (S, E) -> bool, s: S, es: seq<E>)
    requires inv(s) && good(s) && Exec(step, s, es).Some?
    requires forall t, e {:trigger step(t, e)} :: inv(t) && step(t, e).Some? ==> inv(step(t, e).value)
    requires forall t, e {:trigger step(t, e)} ::
      inv(t) && good(t) && step(t, e).Some? ==> (good(step(t, e).value) <==> !bad(t, e))
    ensures Always(step, good, s, es) <==> Never(step, bad, s, es)
  {
    if es != [] {
      GoodUntilBad(step, inv, good, bad, s, es[..|es| - 1]);
      Invariant(step, inv, s, es[..|es| - 1]);
    }
  }

  /** If moreover a state that is not good never becomes good again, the last state alone tells. */
  lemma {:induction false} GoodAtEnd<S(!new), E(!new)>(step: (S, E) -> Option<S>, inv: S -> bool, good: S -> bool,
                                                      bad: (S, E) -> bool, s: S, es: seq<E>)
    requires inv(s) && good(s) && Exec(step, s, es).Some?
    requires forall t, e {:trigger step(t, e)} :: inv(t) && step(t, e).Some? ==> inv(step(t, e).value)
    requires forall t, e {:trigger step(t, e)} ::
      inv(t) && step(t, e).Some? ==> (good(step(t, e).value) <==> good(t) && !bad(t, e))
    ensures good(Exec(step, s, es).value) <==> Never(step, bad, s, es)
  {
    if es != [] {
      GoodAtEnd(step, inv, good, bad, s, es[..|es| - 1]);
      Invariant(step, inv, s, es[..|es| - 1]);
    }
  }

  /** A run through good states has no bad step, if none is bad from a good state. */
  lemma {:induction false} GoodPreventsBad<S(!new), E(!new)>(step: (S, E) -> Option<S>, good: S -> bool,
                                                           bad: (S, E) -> bool, s: S, es: seq<E>)
    requires forall t, e {:trigger bad(t, e)} :: good(t) ==> !bad(t, e)
    ensures Always(step, good, s, es) ==> Never(step, bad, s, es)
  {
    if es != [] {
      GoodPreventsBad(step, good, bad, s, es[..|es| - 1]);
    }
  }

  /** A run without steps of either of two kinds. */
  lemma {:induction false} NeverEither<S(!new), E(!new)>(step: (S, E) -> Option<S>, a: (S, E) -> bool, b: (S, E) -> bool,
                                                       either: (S, E) -> bool, s: S, es: seq<E>)
    requires forall t, e {:trigger either(t, e)} :: either(t, e) <==> a(t, e) || b(t, e)
    ensures Never(step, either, s, es) <==> Never(step, a, s, es) && Never(step, b, s, es)
  {
    if es != [] {
      NeverEither(step, a, b, either, s, es[..|es| - 1]);
    }
  }
}
