/** Sequences in which each element is a step from the one before. */
module Chains {
  ghost predicate Linked<S>(next: (S, S) -> bool, xs: seq<S>)
  {
    forall i, j | 0 <= i < j < |xs| && j == i + 1 :: next(xs[i], xs[j])
  }

  lemma LinkedAt<S>(next: (S, S) -> bool, xs: seq<S>, i: nat)
    requires Linked(next, xs) && i + 1 < |xs|
    ensures next(xs[i], xs[i + 1])
  {
  }

  lemma LinkedAppend<S>(next: (S, S) -> bool, xs: seq<S>, x: S)
    requires Linked(next, xs) && (xs == [] || next(xs[|xs| - 1], x))
    ensures Linked(next, xs + [x])
  {
    var all := xs + [x];
    forall i, j | 0 <= i < j < |all| && j == i + 1 ensures next(all[i], all[j]) {
      assert j < |xs| ==> next(xs[i], xs[j]);
    }
  }

  lemma LinkedTail<S>(next: (S, S) -> bool, xs: seq<S>)
    requires Linked(next, xs) && xs != []
    ensures Linked(next, xs[1..])
  {
    var tail := xs[1..];
    forall i, j | 0 <= i < j < |tail| && j == i + 1 ensures next(tail[i], tail[j]) {
      assert next(xs[i + 1], xs[j + 1]);
    }
  }

  /** Two chains that share an end and a start make one. */
  lemma LinkedJoin<S>(next: (S, S) -> bool, xs: seq<S>, ys: seq<S>)
    requires Linked(next, xs) && Linked(next, ys) && xs != [] && ys != [] && xs[|xs| - 1] == ys[0]
    ensures var all := xs + ys[1..];
            Linked(next, all) && all[0] == xs[0] && all[|all| - 1] == ys[|ys| - 1]
  {
    var all := xs + ys[1..];
    forall i, j | 0 <= i < j < |all| && j == i + 1 ensures next(all[i], all[j]) {
      if j < |xs| {
        assert next(xs[i], xs[j]);
      } else {
        var k := j - |xs| + 1;
        assert all[i] == ys[k - 1] && all[j] == ys[k];
        assert next(ys[k - 1], ys[k]);
      }
    }
  }
}
