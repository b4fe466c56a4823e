/** A Python `dict` with string keys as the MCP server's stores use it:
    lookup, assignment (a new key goes last, an existing key keeps its place),
    `len`, and iteration in insertion order. */
module OrderedMaps {

  /** A key with its value, as `dict.items()` yields them. */
  datatype Entry<V> = Entry(id: string, value: V)

  predicate Distinct(s: seq<string>)
  {
    forall i, j :: 0 <= i < j < |s| ==> s[i] != s[j]
  }

  /** `keys` is the insertion order, `values` the mapping. */
  datatype OrderedMap<V> = OrderedMap(keys: seq<string>, values: map<string, V>)
  {
    /** Every key is listed once, and exactly the mapped keys are listed. */
    ghost predicate Valid()
    {
      Distinct(keys) && forall k :: k in values <==> k in keys
    }

    /** `d[k] = v`. */
    function Put(k: string, v: V): (m: OrderedMap<V>)
      ensures m.values == values[k := v]
      ensures k in values ==> m.keys == keys
      ensures k !in values ==> m.keys == keys + [k]
    {
      OrderedMap(if k in values then keys else keys + [k], values[k := v])
    }

    /** `len(d)`. */
    function Count(): nat
    {
      |keys|
    }

    /** `list(d.items())`. */
    function Entries(): (es: seq<Entry<V>>)
      requires Valid()
      ensures |es| == |keys|
      ensures forall i :: 0 <= i < |es| ==> es[i].id == keys[i] && es[i].value == values[keys[i]]
    {
      seq(|keys|, i requires 0 <= i < |keys| => Entry(keys[i], values[keys[i]]))
    }
  }

  function Empty<V>(): (m: OrderedMap<V>)
    ensures m.Valid() && m.Count() == 0 && m.values == map[]
  {
    OrderedMap([], map[])
  }

  /** Assignment keeps the store well formed. */
  lemma PutValid<V>(m: OrderedMap<V>, k: string, v: V)
    requires m.Valid()
    ensures m.Put(k, v).Valid()
  {
    var p := m.Put(k, v);
    if k !in m.values {
      forall i, j | 0 <= i < j < |p.keys| ensures p.keys[i] != p.keys[j] {
        if j == |m.keys| {
          assert p.keys[i] == m.keys[i];
        }
      }
    }
  }

  /** The distinct elements of a sequence are as many as its length. */
  lemma {:induction false} DistinctCardinality(s: seq<string>)
    requires Distinct(s)
    ensures |set k | k in s| == |s|
    decreases |s|
  {
    if s != [] {
      var n := |s| - 1;
      var front := s[..n];
      assert Distinct(front) by {
        forall i, j | 0 <= i < j < |front| ensures front[i] != front[j] {
          assert front[i] == s[i] && front[j] == s[j];
        }
      }
      DistinctCardinality(front);
      assert (set k | k in s) == (set k | k in front) + {s[n]} by {
        assert s == front + [s[n]];
      }
      assert s[n] !in front;
    }
  }

  /** `len(d)` is the number of mapped keys. */
  lemma CountIsSize<V>(m: OrderedMap<V>)
    requires m.Valid()
    ensures m.Count() == |m.values.Keys|
  {
    assert m.values.Keys == set k | k in m.keys;
    DistinctCardinality(m.keys);
  }

  /** Assigning a new key adds exactly one entry; assigning an existing key
      replaces its value and keeps the size. */
  lemma PutCount<V>(m: OrderedMap<V>, k: string, v: V)
    ensures m.Put(k, v).Count() == if k in m.values then m.Count() else m.Count() + 1
  {
  }
}
