/** A Python dict with string keys: a map that remembers insertion order. */
module OrderedDict {

  datatype Dict<V> = Dict(order: seq<string>, of: map<string, V>)

  ghost predicate Valid<V>(d: Dict<V>) {
    && (forall i, j :: 0 <= i < j < |d.order| ==> d.order[i] != d.order[j])
    && (forall k :: k in d.order <==> k in d.of)
  }

  function Empty<V>(): Dict<V> {
    Dict([], map[])
  }

  /** Assigning keeps an existing key's place and appends a new one. */
  function Put<V>(d: Dict<V>, k: string, v: V): Dict<V> {
    Dict(if k in d.of then d.order else d.order + [k], d.of[k := v])
  }

  function Without(order: seq<string>, k: string): seq<string> {
    if order == [] then []
    else (if order[0] == k then [] else [order[0]]) + Without(order[1..], k)
  }

  /** `d.pop(k, None)`. */
  function Drop<V>(d: Dict<V>, k: string): Dict<V> {
    Dict(Without(d.order, k), d.of - {k})
  }

  lemma {:induction false} WithoutTells(order: seq<string>, k: string)
    ensures var r := Without(order, k);
            && |r| <= |order|
            && (forall x :: x in r <==> x in order && x != k)
            && (k in order ==> |r| < |order|)
            && ((forall i, j :: 0 <= i < j < |order| ==> order[i] != order[j]) ==>
                  forall i, j :: 0 <= i < j < |r| ==> r[i] != r[j])
    decreases |order|
  {
    if order != [] {
      var tail := order[1..];
      WithoutTells(tail, k);
      if forall i, j :: 0 <= i < j < |order| ==> order[i] != order[j] {
        assert forall i, j :: 0 <= i < j < |tail| ==> tail[i] == order[i + 1] && tail[j] == order[j + 1];
        assert order[0] !in tail;
      }
    }
  }

  lemma PutValid<V>(d: Dict<V>, k: string, v: V)
    requires Valid(d)
    ensures Valid(Put(d, k, v))
  {
  }

  lemma DropValid<V>(d: Dict<V>, k: string)
    requires Valid(d)
    ensures Valid(Drop(d, k))
  {
    WithoutTells(d.order, k);
  }

  lemma OneKeyLess<V>(m: map<string, V>, k: string)
    requires k in m
    ensures |m| == |m - {k}| + 1
  {
    assert m.Keys == (m - {k}).Keys + {k};
    assert |m.Keys| == |m| && |(m - {k}).Keys| == |m - {k}|;
  }

  lemma {:induction false} SizeIsOrder<V>(d: Dict<V>)
    requires Valid(d)
    ensures |d.order| == |d.of|
    decreases |d.order|
  {
    if d.order == [] {
      assert d.of.Keys == {};
    } else {
      var n := |d.order| - 1;
      var k := d.order[n];
      var rest := Dict(d.order[..n], d.of - {k});
      assert d.order == d.order[..n] + [k];
      assert Valid(rest);
      SizeIsOrder(rest);
      OneKeyLess(d.of, k);
    }
  }
}
