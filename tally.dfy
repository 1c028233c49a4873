/**
 * The accumulator-object idiom of `reduce((acc, x) => { acc[k] += w; return acc }, {})`
 * followed by `Object.entries`: a dictionary from key to running total,
 * with its keys in the order they were first met.
 */
module Tally {
  import opened Wrappers

  /** No key appears twice. */
  predicate Distinct(keys: seq<string>)
  {
    forall i, j :: 0 <= i < j < |keys| ==> keys[i] != keys[j]
  }

  /**
   * One visit: an element whose key is `None` is skipped, otherwise its
   * weight is added to the total of its key, a key met for the first time
   * starting from 0 and joining the end of the key order.
   */
  function Step<T>(keys: seq<string>, acc: map<string, real>, x: T, key: T -> Option<string>, weight: T -> real)
    : (r: (seq<string>, map<string, real>))
    requires Distinct(keys) && forall k :: k in acc <==> k in keys
    ensures Distinct(r.0) && forall k :: k in r.1 <==> k in r.0
    ensures forall k :: k in r.1 <==> k in acc || key(x) == Some(k)
  {
    if key(x).None? then (keys, acc)
    else
      var k := key(x).value;
      if k in acc then (keys, acc[k := acc[k] + weight(x)])
      else (keys + [k], acc[k := weight(x)])
  }

  /** The accumulator after visiting `xs` from left to right. */
  function TallyOf<T>(xs: seq<T>, key: T -> Option<string>, weight: T -> real): (r: (seq<string>, map<string, real>))
    ensures Distinct(r.0) && forall k :: k in r.1 <==> k in r.0
    ensures forall k :: k in r.1 <==> exists i :: 0 <= i < |xs| && key(xs[i]) == Some(k)
    decreases |xs|
  {
    if xs == [] then ([], map[])
    else
      var prefix := xs[..|xs| - 1];
      var r := TallyOf(prefix, key, weight);
      assert forall i :: 0 <= i < |prefix| ==> prefix[i] == xs[i];
      Step(r.0, r.1, xs[|xs| - 1], key, weight)
  }

  /** The total weight of the elements with key `k`. */
  function Keyed<T>(xs: seq<T>, key: T -> Option<string>, weight: T -> real, k: string): real
    decreases |xs|
  {
    if xs == [] then 0.0
    else Keyed(xs[..|xs| - 1], key, weight, k) + (if key(xs[|xs| - 1]) == Some(k) then weight(xs[|xs| - 1]) else 0.0)
  }

  /** The total weight of the elements that have a key at all. */
  function KeyedTotal<T>(xs: seq<T>, key: T -> Option<string>, weight: T -> real): real
    decreases |xs|
  {
    if xs == [] then 0.0
    else KeyedTotal(xs[..|xs| - 1], key, weight) + (if key(xs[|xs| - 1]).Some? then weight(xs[|xs| - 1]) else 0.0)
  }

  /** The totals of the listed keys, added up. */
  function SumOver(keys: seq<string>, acc: map<string, real>): real
    requires forall i :: 0 <= i < |keys| ==> keys[i] in acc
    decreases |keys|
  {
    if keys == [] then 0.0 else SumOver(keys[..|keys| - 1], acc) + acc[keys[|keys| - 1]]
  }

  /** `Object.entries`: each key with its total, in key order. */
  function Entries(keys: seq<string>, acc: map<string, real>): (es: seq<(string, real)>)
    requires forall i :: 0 <= i < |keys| ==> keys[i] in acc
    ensures |es| == |keys|
    ensures forall i :: 0 <= i < |es| ==> es[i] == (keys[i], acc[keys[i]])
  {
    seq(|keys|, i requires 0 <= i < |keys| => (keys[i], acc[keys[i]]))
  }

  /** Each key's total is the weight of the elements carrying it. */
  lemma {:induction false} TallyPerKey<T>(xs: seq<T>, key: T -> Option<string>, weight: T -> real, k: string)
    requires k in TallyOf(xs, key, weight).1
    ensures TallyOf(xs, key, weight).1[k] == Keyed(xs, key, weight, k)
    decreases |xs|
  {
    var prefix := xs[..|xs| - 1];
    var x := xs[|xs| - 1];
    var acc := TallyOf(prefix, key, weight).1;
    if k in acc {
      TallyPerKey(prefix, key, weight, k);
    } else {
      assert key(x) == Some(k);
      KeyedAbsent(prefix, key, weight, k);
    }
  }

  /** A key no element carries has total weight 0. */
  lemma {:induction false} KeyedAbsent<T>(xs: seq<T>, key: T -> Option<string>, weight: T -> real, k: string)
    requires k !in TallyOf(xs, key, weight).1
    ensures Keyed(xs, key, weight, k) == 0.0
    decreases |xs|
  {
    if xs != [] {
      var prefix := xs[..|xs| - 1];
      assert forall i :: 0 <= i < |prefix| ==> prefix[i] == xs[i];
      KeyedAbsent(prefix, key, weight, k);
    }
  }

  /** The totals add up to the weight of all elements that have a key. */
  lemma {:induction false} TallySum<T>(xs: seq<T>, key: T -> Option<string>, weight: T -> real)
    ensures SumOver(TallyOf(xs, key, weight).0, TallyOf(xs, key, weight).1) == KeyedTotal(xs, key, weight)
    decreases |xs|
  {
    if xs != [] {
      var prefix := xs[..|xs| - 1];
      TallySum(prefix, key, weight);
      var r := TallyOf(prefix, key, weight);
      StepSum(r.0, r.1, xs[|xs| - 1], key, weight);
    }
  }

  /** One visit adds the element's weight to the sum when it has a key. */
  lemma StepSum<T>(keys: seq<string>, acc: map<string, real>, x: T, key: T -> Option<string>, weight: T -> real)
    requires Distinct(keys) && forall k :: k in acc <==> k in keys
    ensures var r := Step(keys, acc, x, key, weight);
      SumOver(r.0, r.1) == SumOver(keys, acc) + if key(x).Some? then weight(x) else 0.0
  {
    if key(x).Some? {
      var k := key(x).value;
      if k in acc {
        SumOverBump(keys, acc, k, acc[k] + weight(x));
      } else {
        SumOverFresh(keys, acc, k, weight(x));
        var keys' := keys + [k];
        assert keys'[..|keys'| - 1] == keys;
      }
    }
  }

  /** Setting a key that is not listed leaves the sum over the listed keys alone. */
  lemma {:induction false} SumOverFresh(keys: seq<string>, acc: map<string, real>, k: string, v: real)
    requires forall i :: 0 <= i < |keys| ==> keys[i] in acc && keys[i] != k
    ensures SumOver(keys, acc[k := v]) == SumOver(keys, acc)
    decreases |keys|
  {
    if keys != [] {
      SumOverFresh(keys[..|keys| - 1], acc, k, v);
    }
  }

  /** Changing the total of a key listed once changes the sum by the difference. */
  lemma {:induction false} SumOverBump(keys: seq<string>, acc: map<string, real>, k: string, v: real)
    requires forall i :: 0 <= i < |keys| ==> keys[i] in acc
    requires Distinct(keys) && k in keys
    ensures SumOver(keys, acc[k := v]) == SumOver(keys, acc) - acc[k] + v
    decreases |keys|
  {
    var init := keys[..|keys| - 1];
    var last := keys[|keys| - 1];
    assert forall i :: 0 <= i < |init| ==> init[i] == keys[i];
    if last == k {
      SumOverFresh(init, acc, k, v);
    } else {
      assert k in init by {
        var i :| 0 <= i < |keys| && keys[i] == k;
        assert init[i] == k;
      }
      SumOverBump(init, acc, k, v);
    }
  }

  /** The loop that fills the accumulator, one element at a time. */
  method Accumulate<T>(xs: seq<T>, key: T -> Option<string>, weight: T -> real)
    returns (keys: seq<string>, acc: map<string, real>)
    ensures keys == TallyOf(xs, key, weight).0 && acc == TallyOf(xs, key, weight).1
  {
    keys, acc := [], map[];
    for i := 0 to |xs|
      invariant (keys, acc) == TallyOf(xs[..i], key, weight)
    {
      var x := xs[i];
      assert xs[..i + 1][..i] == xs[..i];
      match key(x)
      case None =>
      case Some(k) =>
        if k in acc {
          acc := acc[k := acc[k] + weight(x)];
        } else {
          acc := acc[k := weight(x)];
          keys := keys + [k];
        }
      assert (keys, acc) == Step(TallyOf(xs[..i], key, weight).0, TallyOf(xs[..i], key, weight).1, x, key, weight);
    }
    assert xs[..|xs|] == xs;
  }
}
