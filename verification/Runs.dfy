/** Schedules of events, and the induction principle every protocol of this project uses. */
module Runs {

  datatype Option<+T> = None | Some(value: T) {
    function GetOr(default: T): T {
      if Some? then value else default
    }
  }

  function Nth<T>(s: seq<T>, k: nat): Option<T> {
    if k < |s| then Some(s[k]) else None
  }

  /** The state that a schedule of events leads to. */
  function Run<S, E>(apply: (S, E) -> S, s: S, schedule: seq<E>): S
    decreases |schedule|
  {
    if schedule == [] then s else Run(apply, apply(s, schedule[0]), schedule[1..])
  }

  /** What every event keeps, every schedule keeps. */
  lemma {:induction false} RunKeeps<S(!new), E(!new)>(apply: (S, E) -> S, inv: S -> bool, s: S, schedule: seq<E>)
    requires inv(s)
    requires forall t, e {:trigger apply(t, e)} :: inv(t) ==> inv(apply(t, e))
    ensures inv(Run(apply, s, schedule))
    decreases |schedule|
  {
    if schedule != [] {
      RunKeeps(apply, inv, apply(s, schedule[0]), schedule[1..]);
    }
  }

  /** A reflexive and transitive relation that every event respects relates both ends of every schedule. */
  lemma {:induction false} RunRelates<S(!new),
      E(!new)>(apply: (S, E) -> S, inv: S -> bool, rel: (S, S) -> bool, s: S, schedule: seq<E>)
    requires inv(s)
    requires forall t, e {:trigger apply(t, e)} :: inv(t) ==> inv(apply(t, e)) && rel(t, apply(t, e))
    requires forall t :: rel(t, t)
    requires forall t, u, v :: rel(t, u) && rel(u, v) ==> rel(t, v)
    ensures rel(s, Run(apply, s, schedule))
    decreases |schedule|
  {
    if schedule != [] {
      RunRelates(apply, inv, rel, apply(s, schedule[0]), schedule[1..]);
    }
  }

  /** Running one schedule after another. */
  lemma {:induction false} RunAppends<S, E>(apply: (S, E) -> S, s: S, a: seq<E>, b: seq<E>)
    ensures Run(apply, s, a + b) == Run(apply, Run(apply, s, a), b)
    decreases |a|
  {
    if a == [] {
      assert a + b == b;
    } else {
      assert (a + b)[1..] == a[1..] + b;
      RunAppends(apply, apply(s, a[0]), a[1..], b);
    }
  }

  ghost predicate Reaches<S, E(!new)>(apply: (S, E) -> S, s: S, t: S) {
    exists schedule: seq<E> :: Run(apply, s, schedule) == t
  }

  lemma Here<S, E(!new)>(apply: (S, E) -> S, s: S)
    ensures Reaches(apply, s, s)
  {
    assert Run(apply, s, []) == s;
  }

  /** One event further along a schedule. */
  lemma Onward<S, E(!new)>(apply: (S, E) -> S, s: S, t: S, e: E) returns (u: S)
    requires Reaches(apply, s, t)
    ensures u == apply(t, e) && Reaches(apply, s, u)
  {
    var schedule :| Run(apply, s, schedule) == t;
    RunAppends(apply, s, schedule, [e]);
    u := apply(t, e);
    assert Run(apply, t, [e]) == u;
  }
}
