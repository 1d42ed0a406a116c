/** Small value-level vocabulary shared by the other modules. */
module Basics {

  type TaskId = nat

  datatype Option<+T> = None | Some(value: T)

  /** The newest `n` elements of a history that is kept oldest first. */
  function Newest<T>(s: seq<T>, n: nat): (r: seq<T>)
    ensures |r| == if |s| <= n then |s| else n
  {
    if |s| <= n then s else s[|s| - n..]
  }

  lemma SubsetCard<T>(a: set<T>, b: set<T>)
    requires a <= b
    ensures |a| <= |b|
  {
    assert b == a + (b - a);
  }

  function Elements<T(==)>(s: seq<T>): set<T> {
    set x | x in s
  }

  predicate Distinct<T(==)>(s: seq<T>) {
    forall i, j :: 0 <= i < j < |s| ==> s[i] != s[j]
  }

  lemma ElementsSnoc<T>(s: seq<T>, i: nat)
    requires i < |s|
    ensures Elements(s[..i + 1]) == Elements(s[..i]) + {s[i]}
  {
    assert s[..i + 1] == s[..i] + [s[i]];
  }

  lemma ElementsCons<T>(x: T, s: seq<T>)
    ensures Elements([x] + s) == {x} + Elements(s)
    ensures x !in Elements(s) && Distinct(s) ==> Distinct([x] + s)
  {
    var r := [x] + s;
    forall y | y in {x} + Elements(s) ensures y in Elements(r) {
      if y == x { assert r[0] == y; } else {
        var i :| 0 <= i < |s| && s[i] == y;
        assert r[i + 1] == y;
      }
    }
    if x !in Elements(s) && Distinct(s) {
      forall i, j | 0 <= i < j < |r| ensures r[i] != r[j] {
        assert r[j] == s[j - 1] && r[j] in Elements(s);
        if i > 0 { assert r[i] == s[i - 1]; }
      }
    }
  }

  /** A duplicate-free sequence has as many elements as the set it lists. */
  lemma {:induction false} DistinctCard<T>(s: seq<T>)
    requires Distinct(s)
    ensures |Elements(s)| == |s|
  {
    if s == [] {
    } else {
      var front := s[..|s| - 1];
      DistinctCard(front);
      ElementsSnoc(s, |s| - 1);
      assert s[..|s| - 1 + 1] == s;
      assert s[|s| - 1] !in Elements(front);
    }
  }
}
