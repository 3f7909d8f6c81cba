/** Definitions shared by the models. */
module Prelude {

  datatype Option<+T> = None | Some(value: T)

  function Min(a: int, b: int): int {
    if a <= b then a else b
  }

  function Max(a: int, b: int): int {
    if a >= b then a else b
  }

  lemma SubsetSize<T>(a: set<T>, b: set<T>)
    requires a <= b
    ensures |a| <= |b|
  {
    assert b == a + (b - a);
  }

  /** A list of positions, each once and in order. */
  ghost predicate Rising(picks: seq<nat>) {
    forall i, j :: 0 <= i < j < |picks| ==> picks[i] < picks[j]
  }

  lemma RisingMore(picks: seq<nat>, n: nat)
    requires Rising(picks) && forall i: nat :: i in picks ==> i < n
    ensures Rising(picks + [n])
    ensures forall i: nat :: i in picks + [n] <==> i in picks || i == n
  {
    assert forall k :: 0 <= k < |picks| ==> picks[k] in picks;
  }

  /** Its members fix it. */
  lemma {:induction false} RisingOnce(a: seq<nat>, b: seq<nat>)
    requires Rising(a) && Rising(b) && forall i: nat :: i in a <==> i in b
    ensures a == b
    decreases |a|
  {
    assert b == [] || b[0] in b;
    if a != [] {
      var x := a[|a| - 1];
      assert x in a && x in b && b[|b| - 1] in b && b[|b| - 1] in a;
      assert x == b[|b| - 1];
      var a', b' := a[..|a| - 1], b[..|b| - 1];
      forall i: nat ensures i in a' <==> i in b' {
        assert i in a' <==> i in a && i != x;
        assert i in b' <==> i in b && i != x;
      }
      RisingOnce(a', b');
    }
  }
}
