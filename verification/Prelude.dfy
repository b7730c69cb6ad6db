/** Shared value types and small facts about finite collections. */
module Prelude {
  datatype Option<+T> = None | Some(value: T)

  lemma SomeMember<T>(s: set<T>) returns (x: T)
    requires s != {}
    ensures x in s
  {
    x :| x in s;
  }

  /** A subset is no larger than the set it is taken from. */
  lemma SubsetSize<T>(a: set<T>, b: set<T>)
    requires a <= b
    ensures |a| <= |b|
    ensures a != b ==> |a| < |b|
  {
    assert b == a + (b - a);
    assert a * (b - a) == {};
    if a != b {
      var x :| x in b - a;
    }
  }

  /** Every element that passes is taken once, in order, and no other. */
  ghost predicate Picks<T, U>(all: seq<T>, picked: seq<U>, keep: T -> bool, f: T -> U, at: seq<nat>) {
    && |at| == |picked|
    && (forall i, j | 0 <= i < j < |at| :: at[i] < at[j])
    && (forall i | 0 <= i < |at| :: at[i] < |all| && picked[i] == f(all[at[i]]))
    && forall p: nat | p < |all| :: keep(all[p]) <==> p in at
  }

  lemma OneMorePicked<T, U>(init: seq<T>, last: T, picked: seq<U>, keep: T -> bool, f: T -> U, at: seq<nat>)
    requires Picks(init, picked, keep, f, at)
    ensures if keep(last) then Picks(init + [last], picked + [f(last)], keep, f, at + [|init|])
            else Picks(init + [last], picked, keep, f, at)
  {
    assert forall p | p in at :: p < |init|;
  }
}
