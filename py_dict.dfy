/**
 * Python `dict[str, V]`, which remembers insertion order: the keys in the order
 * they were first inserted, and the mapping itself. Assigning to a key that is
 * already present keeps its position; assigning to a new key appends it.
 */
module PyDict {
  import opened Wrappers

  datatype RawDict<V> = RawDict(order: seq<string>, entries: map<string, V>) {
    ghost predicate Valid() {
      (forall i, j :: 0 <= i < j < |order| ==> order[i] != order[j]) &&
      (forall k :: k in entries <==> k in order)
    }
  }

  type Dict<V> = d: RawDict<V> | d.Valid() witness RawDict([], map[])

  /** `{}` */
  function Empty<V>(): (d: Dict<V>)
    ensures Keys(d) == []
  {
    RawDict([], map[])
  }

  /** `list(d.keys())`: the keys in insertion order. */
  function Keys<V>(d: Dict<V>): (ks: seq<string>)
    ensures forall k :: k in ks <==> Get(d, k).Some?
  {
    d.order
  }

  /** `d.get(k)`: the value stored under `k`, if any. */
  function Get<V>(d: Dict<V>, k: string): Option<V> {
    if k in d.entries then Some(d.entries[k]) else None
  }

  /** `d[k] = v`: overwrite in place when `k` is present, append it otherwise. */
  function Assign<V>(d: Dict<V>, k: string, v: V): (r: Dict<V>)
    ensures Keys(r) == if Get(d, k).Some? then Keys(d) else Keys(d) + [k]
    ensures Get(r, k) == Some(v)
    ensures forall j :: j != k ==> Get(r, j) == Get(d, j)
  {
    var order := if k in d.entries then d.order else d.order + [k];
    RawDict(order, d.entries[k := v])
  }

  /** `b` without its first-inserted entry (the part of `b` still to be merged). */
  function DropFirst<V>(b: Dict<V>): (r: Dict<V>)
    requires b.order != []
    ensures |r.order| < |b.order|
    ensures forall k :: Get(r, k) == if k == b.order[0] then None else Get(b, k)
  {
    var k := b.order[0];
    var r := RawDict(b.order[1..], b.entries - {k});
    assert r.Valid() by {
      forall j ensures j in r.entries <==> j in r.order {
        assert j in b.order <==> j == k || j in b.order[1..];
      }
    }
    r
  }

  /** `{**a, **b}`: start from a copy of `a` and assign every entry of `b` in `b`'s order. */
  function Merge<V>(a: Dict<V>, b: Dict<V>): (r: Dict<V>)
    ensures forall k :: Get(r, k).Some? <==> Get(a, k).Some? || Get(b, k).Some?
    decreases |b.order|
  {
    if b.order == [] then a
    else
      var k0 := b.order[0];
      var a' := Assign(a, k0, b.entries[k0]);
      var b' := DropFirst(b);
      assert forall k :: Get(a', k).Some? || Get(b', k).Some? <==> Get(a, k).Some? || Get(b, k).Some? by {
        forall k ensures Get(a', k).Some? || Get(b', k).Some? <==> Get(a, k).Some? || Get(b, k).Some? {
          if k == k0 { assert Get(b, k).Some?; }
        }
      }
      Merge(a', b')
  }

  /** A lookup in `{**a, **b}` finds `b`'s entry when there is one, and `a`'s otherwise. */
  lemma {:induction false} MergeGet<V>(a: Dict<V>, b: Dict<V>, k: string)
    ensures Get(Merge(a, b), k) == if Get(b, k).Some? then Get(b, k) else Get(a, k)
    decreases |b.order|
  {
    if b.order != [] {
      MergeGet(Assign(a, b.order[0], b.entries[b.order[0]]), DropFirst(b), k);
      assert Merge(a, b) == Merge(Assign(a, b.order[0], b.entries[b.order[0]]), DropFirst(b));
    }
  }
}
