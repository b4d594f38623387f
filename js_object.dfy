/** A plain JavaScript object used as a record (`Record<string, V>`): its own
    properties in insertion order, which is the order `Object.entries` and
    `Object.keys` report for non-numeric keys. */
module JsObject {
  import opened Common

  type Entries<V> = seq<(string, V)>

  /** `Object.keys(o)`. */
  function Keys<V>(o: Entries<V>): seq<string>
  {
    if o == [] then [] else [o[0].0] + Keys(o[1..])
  }

  /** `o[k]`, with `None` for `undefined`. */
  function Get<V>(o: Entries<V>, k: string): Option<V>
  {
    if o == [] then None
    else if o[0].0 == k then Some(o[0].1)
    else Get(o[1..], k)
  }

  /** `{...o, [k]: v}`: the property keeps its place when `k` is already a
      key and is appended otherwise; every other property is unchanged. */
  function Put<V>(o: Entries<V>, k: string, v: V): (r: Entries<V>)
    ensures Keys(r) == if k in Keys(o) then Keys(o) else Keys(o) + [k]
    ensures forall k' :: Get(r, k') == if k' == k then Some(v) else Get(o, k')
    ensures forall e :: e in r ==> e == (k, v) || e in o
  {
    if o == [] then [(k, v)]
    else if o[0].0 == k then [(k, v)] + o[1..]
    else [o[0]] + Put(o[1..], k, v)
  }

  /** `Object.keys` lists one key per property, in order. */
  lemma {:induction false} KeysAt<V>(o: Entries<V>, i: nat)
    requires i < |o|
    ensures |Keys(o)| == |o| && Keys(o)[i] == o[i].0
  {
    if i > 0 {
      KeysAt(o[1..], i - 1);
    } else if |o| > 1 {
      KeysAt(o[1..], 0);
    }
  }

  lemma {:induction false} KeysLength<V>(o: Entries<V>)
    ensures |Keys(o)| == |o|
  {
    if o != [] {
      KeysLength(o[1..]);
    }
  }

  /** With distinct keys, looking up the key of any property finds that property. */
  lemma {:induction false} GetAt<V>(o: Entries<V>, i: nat)
    requires i < |o| && Distinct(Keys(o))
    ensures Get(o, o[i].0) == Some(o[i].1)
  {
    if i > 0 {
      KeysAt(o, 0);
      KeysAt(o, i);
      assert Keys(o)[0] != Keys(o)[i];
      assert Keys(o[1..]) == Keys(o)[1..];
      GetAt(o[1..], i - 1);
    }
  }

  /** A value `Get` finds comes from one of the properties. */
  lemma {:induction false} GetFound<V>(o: Entries<V>, k: string)
    requires Get(o, k).Some?
    ensures exists i :: 0 <= i < |o| && o[i] == (k, Get(o, k).value)
  {
    if o[0].0 != k {
      GetFound(o[1..], k);
      var i :| 0 <= i < |o[1..]| && o[1..][i] == (k, Get(o, k).value);
      assert o[i + 1] == o[1..][i];
    } else {
      assert o[0] == (k, Get(o, k).value);
    }
  }

  /** A key is present exactly when `Get` finds a value for it. */
  lemma {:induction false} GetSomeIffKey<V>(o: Entries<V>, k: string)
    ensures Get(o, k).Some? <==> k in Keys(o)
  {
    if o != [] {
      GetSomeIffKey(o[1..], k);
    }
  }
}
