/**
 Paths through a step relation, for exhibiting executions.
 */
module Paths {

  ghost predicate IsPath<S, E>(next: (S, E, S) -> bool, trace: seq<S>, events: seq<E>) {
    && |trace| == |events| + 1
    && (forall k :: 0 <= k < |events| ==> next(trace[k], events[k], trace[k + 1]))
  }

  ghost predicate Reaches<S(!new), E(!new)>(next: (S, E, S) -> bool, s: S, t: S) {
    exists trace: seq<S>, events: seq<E> ::
      IsPath(next, trace, events) && trace[0] == s && trace[|events|] == t
  }

  lemma Stays<S(!new), E(!new)>(next: (S, E, S) -> bool, s: S)
    ensures Reaches(next, s, s)
  {
    assert IsPath(next, [s], []);
  }

  lemma Connect<S, E>(next: (S, E, S) -> bool, a: seq<S>, x: seq<E>, b: seq<S>, y: seq<E>)
    requires IsPath(next, a, x) && IsPath(next, b, y) && a[|x|] == b[0]
    ensures IsPath(next, a + b[1..], x + y)
    ensures forall k :: 0 <= k <= |x| ==> (a + b[1..])[k] == a[k]
    ensures (a + b[1..])[|x + y|] == b[|y|]
  {
    var trace, events := a + b[1..], x + y;
    forall k | 0 <= k < |events| ensures next(trace[k], events[k], trace[k + 1]) {
      if k >= |x| {
        assert trace[k] == b[k - |x|] && trace[k + 1] == b[k - |x| + 1];
      }
    }
  }

  lemma Follow<S(!new), E(!new)>(next: (S, E, S) -> bool, s: S, t: S, u: S)
    requires Reaches(next, s, t) && Reaches(next, t, u)
    ensures Reaches(next, s, u)
  {
    var a, x :| IsPath(next, a, x) && a[0] == s && a[|x|] == t;
    var b, y :| IsPath(next, b, y) && b[0] == t && b[|y|] == u;
    Connect(next, a, x, b, y);
  }

  lemma Take<S(!new), E(!new)>(next: (S, E, S) -> bool, s: S, e: E, t: S)
    requires next(s, e, t)
    ensures Reaches(next, s, t)
  {
    var trace, events := [s, t], [e];
    assert IsPath(next, trace, events);
    assert trace[0] == s && trace[|events|] == t;
  }
}
