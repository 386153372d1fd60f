/**
  A JavaScript plain object's own properties: string keys, each at most
  once, in enumeration order. `Get` reads own property `key` only (members
  inherited from `Object.prototype` are added where the source can reach
  them); `Set` is `obj[key] = value` — an existing key keeps its position,
  a new key is appended at the end.
*/
module OrderedMaps {
  import opened JsValues

  predicate DistinctKeys<V>(m: seq<(string, V)>) {
    forall i, j :: 0 <= i < j < |m| ==> m[i].0 != m[j].0
  }

  type OrderedMap<V> = m: seq<(string, V)> | DistinctKeys(m) witness []

  function Keys<V>(m: seq<(string, V)>): (ks: seq<string>)
    ensures |ks| == |m|
    ensures forall i :: 0 <= i < |m| ==> ks[i] == m[i].0
  {
    seq(|m|, i requires 0 <= i < |m| => m[i].0)
  }

  predicate HasKey<V>(m: seq<(string, V)>, k: string) {
    exists i :: 0 <= i < |m| && m[i].0 == k
  }

  /** Position of key `k`, if it is present. */
  function IndexOf<V>(m: seq<(string, V)>, k: string): (r: Option<nat>)
    ensures r.None? <==> !HasKey(m, k)
    ensures r.Some? ==> r.value < |m| && m[r.value].0 == k
  {
    if |m| == 0 then None
    else if m[0].0 == k then Some(0)
    else
      match IndexOf(m[1..], k)
      case None => None
      case Some(i) => Some(i + 1)
  }

  /** Own property `k`: the value stored under `k`, or `None` (`undefined`) when there is none. */
  function Get<V>(m: OrderedMap<V>, k: string): (r: Option<V>)
    ensures r.None? <==> !HasKey(m, k)
    ensures r.Some? ==> exists i :: 0 <= i < |m| && m[i] == (k, r.value)
  {
    match IndexOf(m, k)
    case None => None
    case Some(i) => Some(m[i].1)
  }

  lemma GetAt<V>(m: OrderedMap<V>, i: nat)
    requires i < |m|
    ensures Get(m, m[i].0) == Some(m[i].1)
  {
    var r := Get(m, m[i].0);
    var j :| 0 <= j < |m| && m[j] == (m[i].0, r.value);
    assert j == i;
  }

  /** `obj[k] = v`. */
  function Set<V>(m: OrderedMap<V>, k: string, v: V): (r: OrderedMap<V>)
    ensures HasKey(m, k) ==> Keys(r) == Keys(m)
    ensures !HasKey(m, k) ==> Keys(r) == Keys(m) + [k]
  {
    if HasKey(m, k) then
      var i :| 0 <= i < |m| && m[i].0 == k;
      var r := m[i := (k, v)];
      assert Keys(r) == Keys(m);
      r
    else
      var r := m + [(k, v)];
      assert Keys(r) == Keys(m) + [k];
      r
  }

  /** After `obj[k] = v`, `obj[k]` is `v` and every other key reads as before. */
  lemma SetGet<V>(m: OrderedMap<V>, k: string, v: V, k': string)
    ensures Get(Set(m, k, v), k') == if k' == k then Some(v) else Get(m, k')
  {
    var r := Set(m, k, v);
    var g := Get(r, k');
    if k' == k {
      assert HasKey(r, k) by {
        assert Keys(r)[if HasKey(m, k) then (var i :| 0 <= i < |m| && m[i].0 == k; i) else |m|] == k;
      }
      var j :| 0 <= j < |r| && r[j].0 == k;
      GetAt(r, j);
      if HasKey(m, k) {
        var i :| 0 <= i < |m| && m[i].0 == k;
        assert r[i].0 == k;
        assert i == j;
      } else {
        assert r[|m|].0 == k;
        assert j == |m|;
      }
    } else {
      if g.Some? {
        var j :| 0 <= j < |r| && r[j] == (k', g.value);
        assert j < |m| && m[j] == r[j];
        GetAt(m, j);
      } else {
        forall j | 0 <= j < |m| ensures m[j].0 != k' {
          assert Keys(r)[j] == Keys(m)[j];
        }
      }
    }
  }
}
