/** The Python values that flow through the extraction pipeline, and the
    semantics of Python's insertion-ordered `dict` on association lists.

    A dict is a sequence of (key, value) pairs in insertion order.
    `d[k] = v` is `Put`: it replaces the value of an existing key in place,
    or appends a new key at the end. `d.update(o)` is `Update`: `Put` of
    every pair of `o`, left to right. A dict comprehension is `FromPairs`. */
module Values {

  datatype Option<+T> = None | Some(value: T)

  datatype Result<+T, +E> = Ok(value: T) | Err(error: E)

  /** A dict key: a string, or any other hashable value (only its identity matters). */
  datatype Key = StrKey(name: string) | OtherKey(id: int)

  /** Python's list, tuple and set: all iterable in a definite order here. */
  datatype CollKind = ListKind | TupleKind | SetKind

  /** A real `dict` (or subclass), or some other `collections.abc.Mapping`. */
  datatype MapKind = PlainDict | OtherMapping

  /** Every value the normaliser can be handed.
      - Null, Bool, Int, Float, Str: the JSON primitives.
      - Date: a `date`/`datetime`, carrying its ISO-8601 text.
      - Coll: a list, tuple or set, elements in iteration order.
      - Mapping: a mapping, pairs in iteration order.
      - Prediction: a DSPy prediction, its `_store` in order.
      - Object: any other object. `dictMethod` and `toDictMethod` are the
        results of its `.dict()` and `.to_dict()` methods, `None` when the
        method is missing or raises. An object with neither is opaque. */
  datatype Value =
    | Null
    | Bool(b: bool)
    | Int(i: int)
    | Float(f: real)
    | Str(s: string)
    | Date(iso: string)
    | Coll(kind: CollKind, elems: seq<Value>)
    | Mapping(mkind: MapKind, entries: seq<(Key, Value)>)
    | Prediction(store: seq<(string, Value)>)
    | Object(tag: int, dictMethod: Option<Value>, toDictMethod: Option<Value>)

  type Entries = seq<(Key, Value)>

  function OptMap(o: Option<Value>, f: Value -> Value): Option<Value> {
    match o
    case Some(x) => Some(f(x))
    case None => None
  }

  predicate IsPrimitive(v: Value) {
    v.Null? || v.Bool? || v.Int? || v.Float? || v.Str?
  }

  /** A plain `dict` holding `es`. */
  function Dict(es: Entries): Value {
    Mapping(PlainDict, es)
  }

  predicate StartsWith(s: string, prefix: string) {
    |prefix| <= |s| && s[..|prefix|] == prefix
  }

  function KeySet(es: Entries): set<Key> {
    set i | 0 <= i < |es| :: es[i].0
  }

  /** No key occurs twice: what every real Python dict satisfies. */
  predicate DistinctKeys(es: Entries) {
    forall i, j :: 0 <= i < j < |es| ==> es[i].0 != es[j].0
  }

  /** `d.get(k)`: the value paired with the first occurrence of `k`. */
  function Lookup(es: Entries, k: Key): (r: Option<Value>)
    ensures r.None? <==> k !in KeySet(es)
    ensures r.Some? ==> (k, r.value) in es
  {
    if es == [] then None
    else if es[0].0 == k then Some(es[0].1)
    else
      var r := Lookup(es[1..], k);
      assert KeySet(es) == {es[0].0} + KeySet(es[1..]) by {
        forall x | x in KeySet(es) ensures x in {es[0].0} + KeySet(es[1..]) {
          var i :| 0 <= i < |es| && es[i].0 == x;
          if i > 0 { assert es[1..][i - 1].0 == x; }
        }
        forall x | x in KeySet(es[1..]) ensures x in KeySet(es) {
          var i :| 0 <= i < |es[1..]| && es[1..][i].0 == x;
          assert es[i + 1].0 == x;
        }
      }
      r
  }

  lemma KeySetCons(p: (Key, Value), es: Entries)
    ensures KeySet([p] + es) == {p.0} + KeySet(es)
  {
    var s := [p] + es;
    forall x | x in KeySet(s) ensures x in {p.0} + KeySet(es) {
      var i :| 0 <= i < |s| && s[i].0 == x;
      if i > 0 { assert es[i - 1].0 == x; }
    }
    forall x | x in KeySet(es) ensures x in KeySet(s) {
      var i :| 0 <= i < |es| && es[i].0 == x;
      assert s[i + 1].0 == x;
    }
    assert s[0].0 == p.0;
  }

  lemma KeySetSnoc(es: Entries, p: (Key, Value))
    ensures KeySet(es + [p]) == KeySet(es) + {p.0}
  {
    var s := es + [p];
    forall x | x in KeySet(s) ensures x in KeySet(es) + {p.0} {
      var i :| 0 <= i < |s| && s[i].0 == x;
      if i < |es| { assert es[i].0 == x; }
    }
    forall x | x in KeySet(es) ensures x in KeySet(s) {
      var i :| 0 <= i < |es| && es[i].0 == x;
      assert s[i].0 == x;
    }
    assert s[|es|].0 == p.0;
  }

  /** `d[k] = v`: the key gets the value, every other key keeps its value,
      an existing key keeps its position and a new key goes to the end. */
  function Put(es: Entries, k: Key, v: Value): (r: Entries)
    ensures KeySet(r) == KeySet(es) + {k}
    ensures Lookup(r, k) == Some(v)
    ensures forall k' :: k' != k ==> Lookup(r, k') == Lookup(es, k')
    ensures k !in KeySet(es) ==> r == es + [(k, v)]
    ensures k in KeySet(es) ==> |r| == |es|
  {
    if es == [] then
      assert [(k, v)][0].0 == k;
      [(k, v)]
    else if es[0].0 == k then
      KeySetCons(es[0], es[1..]);
      KeySetCons((k, v), es[1..]);
      assert es == [es[0]] + es[1..];
      [(k, v)] + es[1..]
    else
      var rest := Put(es[1..], k, v);
      KeySetCons(es[0], es[1..]);
      KeySetCons(es[0], rest);
      assert es == [es[0]] + es[1..];
      [es[0]] + rest
  }

  /** `Put` keeps every existing key where it was, keeps a real dict a real
      dict, and introduces no pair but the one it stores. */
  lemma PutShape(es: Entries, k: Key, v: Value)
    ensures |es| <= |Put(es, k, v)|
    ensures forall i :: 0 <= i < |es| ==> Put(es, k, v)[i].0 == es[i].0
    ensures DistinctKeys(es) ==> DistinctKeys(Put(es, k, v))
    ensures forall p | p in Put(es, k, v) :: p in es || p == (k, v)
  {
    PutPositions(es, k, v);
    PutPairs(es, k, v);
    if DistinctKeys(es) {
      PutDistinct(es, k, v);
    }
  }

  lemma {:induction false} PutPositions(es: Entries, k: Key, v: Value)
    ensures |es| <= |Put(es, k, v)|
    ensures forall i :: 0 <= i < |es| ==> Put(es, k, v)[i].0 == es[i].0
  {
    if es != [] && es[0].0 != k {
      PutPositions(es[1..], k, v);
      var rest := Put(es[1..], k, v);
      assert Put(es, k, v) == [es[0]] + rest;
      forall i | 0 < i < |es| ensures Put(es, k, v)[i].0 == es[i].0 {
        assert Put(es, k, v)[i] == rest[i - 1];
        assert es[1..][i - 1] == es[i];
      }
    }
  }

  lemma {:induction false} PutPairs(es: Entries, k: Key, v: Value)
    ensures forall p | p in Put(es, k, v) :: p in es || p == (k, v)
  {
    if es != [] && es[0].0 != k {
      PutPairs(es[1..], k, v);
      assert Put(es, k, v) == [es[0]] + Put(es[1..], k, v);
      assert forall p | p in es[1..] :: p in es;
    } else if es != [] {
      assert Put(es, k, v) == [(k, v)] + es[1..];
      assert forall p | p in es[1..] :: p in es;
    }
  }

  lemma {:induction false} PutDistinct(es: Entries, k: Key, v: Value)
    requires DistinctKeys(es)
    ensures DistinctKeys(Put(es, k, v))
  {
    if es != [] && es[0].0 != k {
      assert DistinctKeys(es[1..]);
      PutDistinct(es[1..], k, v);
      var rest := Put(es[1..], k, v);
      assert Put(es, k, v) == [es[0]] + rest;
      assert es[0].0 !in KeySet(es[1..]) by {
        forall j | 0 <= j < |es[1..]| ensures es[1..][j].0 != es[0].0 {
          assert es[j + 1].0 != es[0].0;
        }
      }
      forall j | 0 <= j < |rest| ensures rest[j].0 != es[0].0 {
        assert rest[j].0 in KeySet(rest);
      }
    } else if es != [] {
      assert Put(es, k, v) == [(k, v)] + es[1..];
      forall j | 1 <= j < |es| ensures es[j].0 != k {
        assert es[j].0 != es[0].0;
      }
    }
  }

  /** `d.update(other)`: `Put` of each pair of `other`, in order. */
  function Update(es: Entries, other: Entries): (r: Entries)
    ensures KeySet(r) == KeySet(es) + KeySet(other)
    ensures |es| <= |r| && forall i :: 0 <= i < |es| ==> r[i].0 == es[i].0
    ensures DistinctKeys(es) ==> DistinctKeys(r)
    ensures forall p | p in r :: p in es || p in other
    decreases |other|
  {
    if other == [] then es
    else
      var n := |other| - 1;
      assert other == other[..n] + [other[n]];
      KeySetSnoc(other[..n], other[n]);
      PutShape(Update(es, other[..n]), other[n].0, other[n].1);
      Put(Update(es, other[..n]), other[n].0, other[n].1)
  }

  /** A dict built from pairs in order, as a dict comprehension or `dict(pairs)` does. */
  function FromPairs(ps: Entries): (r: Entries)
    ensures KeySet(r) == KeySet(ps)
    ensures DistinctKeys(r)
    ensures forall p | p in r :: p in ps
  {
    Update([], ps)
  }

  /** Adding one more pair to a comprehension is one more `d[k] = v`. */
  lemma FromPairsSnoc(ps: Entries, p: (Key, Value))
    ensures FromPairs(ps + [p]) == Put(FromPairs(ps), p.0, p.1)
  {
    assert (ps + [p])[..|ps|] == ps;
  }

  /** On a real dict, each key's entry is what `Lookup` finds. */
  lemma {:induction false} LookupDistinct(es: Entries, i: nat)
    requires DistinctKeys(es) && i < |es|
    ensures Lookup(es, es[i].0) == Some(es[i].1)
  {
    if i > 0 {
      assert DistinctKeys(es[1..]);
      LookupDistinct(es[1..], i - 1);
    }
  }

  lemma LookupSnoc(es: Entries, p: (Key, Value), k: Key)
    ensures Lookup(es + [p], k) ==
      if k in KeySet(es) then Lookup(es, k) else if k == p.0 then Some(p.1) else None
    decreases |es|
  {
    KeySetSnoc(es, p);
    if es != [] {
      assert (es + [p])[1..] == es[1..] + [p];
      KeySetCons(es[0], es[1..]);
      assert es == [es[0]] + es[1..];
      if es[0].0 != k { LookupSnoc(es[1..], p, k); }
    }
  }

  /** Last write wins: after `d.update(other)`, a key of `other` holds
      `other`'s value and any other key keeps the value it had. */
  lemma {:induction false} UpdateLookup(es: Entries, other: Entries, k: Key)
    requires DistinctKeys(other)
    ensures Lookup(Update(es, other), k) ==
      if k in KeySet(other) then Lookup(other, k) else Lookup(es, k)
    decreases |other|
  {
    if other != [] {
      var n := |other| - 1;
      var init := other[..n];
      assert other == init + [other[n]];
      assert DistinctKeys(init);
      KeySetSnoc(init, other[n]);
      UpdateLookup(es, init, k);
      LookupSnoc(init, other[n], k);
      if k == other[n].0 {
        forall j | 0 <= j < |init| ensures init[j].0 != k {
          assert other[j].0 != other[n].0;
        }
      }
    }
  }

  /** Updating with fresh, distinct keys just appends them: in particular
      a dict built from the pairs of a real dict is that dict. */
  lemma {:induction false} UpdateFresh(es: Entries, ps: Entries)
    requires DistinctKeys(es + ps)
    ensures Update(es, ps) == es + ps
    decreases |ps|
  {
    if ps != [] {
      var n := |ps| - 1;
      var init, p := ps[..n], ps[n];
      var front := es + init;
      assert es + ps == front + [p];
      DistinctSnoc(front, p);
      UpdateFresh(es, init);
      assert Update(es, ps) == Put(Update(es, init), p.0, p.1);
    }
  }

  /** Dropping the last pair of a real dict leaves a real dict without its key. */
  lemma DistinctSnoc(front: Entries, p: (Key, Value))
    requires DistinctKeys(front + [p])
    ensures DistinctKeys(front) && p.0 !in KeySet(front)
  {
    var es := front + [p];
    forall j | 0 <= j < |front| ensures front[j].0 != p.0 {
      assert es[j].0 != es[|front|].0;
    }
    forall i, j | 0 <= i < j < |front| ensures front[i].0 != front[j].0 {
      assert es[i].0 != es[j].0;
    }
  }

  lemma FromPairsOfDict(ps: Entries)
    requires DistinctKeys(ps)
    ensures FromPairs(ps) == ps
  {
    assert [] + ps == ps;
    UpdateFresh([], ps);
  }

  /** The pairs of `es` that `keep` accepts, in order, each value mapped by
      `f`: the shape of every filtering comprehension over a dict. */
  function FilterMap(es: Entries, keep: (Key, Value) -> bool, f: Value -> Value): (r: Entries)
    ensures |r| <= |es|
  {
    if es == [] then []
    else
      var n := |es| - 1;
      FilterMap(es[..n], keep, f) + (if keep(es[n].0, es[n].1) then [(es[n].0, f(es[n].1))] else [])
  }

  /** Filtering a real dict gives a real dict in which a key is present
      exactly when it was present and accepted, with its value mapped. */
  lemma {:induction false} FilterMapLookup(es: Entries, keep: (Key, Value) -> bool, f: Value -> Value, k: Key)
    requires DistinctKeys(es)
    ensures DistinctKeys(FilterMap(es, keep, f))
    ensures KeySet(FilterMap(es, keep, f)) <= KeySet(es)
    ensures Lookup(FilterMap(es, keep, f), k) ==
      match Lookup(es, k)
      case Some(x) => if keep(k, x) then Some(f(x)) else None
      case None => None
    decreases |es|
  {
    if es != [] {
      var n := |es| - 1;
      var init := es[..n];
      assert es == init + [es[n]];
      assert DistinctKeys(init);
      FilterMapLookup(init, keep, f, k);
      var fi := FilterMap(init, keep, f);
      KeySetSnoc(init, es[n]);
      LookupSnoc(init, es[n], k);
      forall j | 0 <= j < |init| ensures init[j].0 != es[n].0 {
        assert es[j].0 != es[n].0;
      }
      if keep(es[n].0, es[n].1) {
        var p := (es[n].0, f(es[n].1));
        assert FilterMap(es, keep, f) == fi + [p];
        KeySetSnoc(fi, p);
        LookupSnoc(fi, p, k);
        assert DistinctKeys(fi + [p]) by {
          forall a, b | 0 <= a < b < |fi + [p]| ensures (fi + [p])[a].0 != (fi + [p])[b].0 {
            if b == |fi| {
              assert fi[a].0 in KeySet(fi);
            }
          }
        }
      } else {
        assert FilterMap(es, keep, f) == fi;
      }
    }
  }

  /** A dict comprehension over a real dict, filtered by `keep` and mapped
      by `f`: the same as the filtered pairs themselves, looked up key by key. */
  lemma FilteredDict(es: Entries, keep: (Key, Value) -> bool, f: Value -> Value, k: Key)
    requires DistinctKeys(es)
    ensures DistinctKeys(FromPairs(FilterMap(es, keep, f)))
    ensures Lookup(FromPairs(FilterMap(es, keep, f)), k) ==
      match Lookup(es, k)
      case Some(x) => if keep(k, x) then Some(f(x)) else None
      case None => None
  {
    FilterMapLookup(es, keep, f, k);
    FromPairsOfDict(FilterMap(es, keep, f));
  }

  /** A dict literal with three distinct keys. */
  lemma ThreeFields(k0: Key, k1: Key, k2: Key, v0: Value, v1: Value, v2: Value)
    requires k0 != k1 && k0 != k2 && k1 != k2
    ensures var es := [(k0, v0), (k1, v1), (k2, v2)];
      DistinctKeys(es) && KeySet(es) == {k0, k1, k2} &&
      Lookup(es, k0) == Some(v0) && Lookup(es, k1) == Some(v1) && Lookup(es, k2) == Some(v2) &&
      forall k | k !in {k0, k1, k2} :: Lookup(es, k) == None
  {
    var es := [(k0, v0), (k1, v1), (k2, v2)];
    assert es[1..] == [(k1, v1), (k2, v2)];
    assert es[1..][1..] == [(k2, v2)];
    assert KeySet(es) == {k0, k1, k2} by {
      assert es[0].0 == k0 && es[1].0 == k1 && es[2].0 == k2;
    }
  }

  /** A dict literal with four distinct keys. */
  lemma FourFields(k0: Key, k1: Key, k2: Key, k3: Key, v0: Value, v1: Value, v2: Value, v3: Value)
    requires k0 != k1 && k0 != k2 && k0 != k3 && k1 != k2 && k1 != k3 && k2 != k3
    ensures var es := [(k0, v0), (k1, v1), (k2, v2), (k3, v3)];
      DistinctKeys(es) && KeySet(es) == {k0, k1, k2, k3} &&
      Lookup(es, k0) == Some(v0) && Lookup(es, k1) == Some(v1) &&
      Lookup(es, k2) == Some(v2) && Lookup(es, k3) == Some(v3)
  {
    var es := [(k0, v0), (k1, v1), (k2, v2), (k3, v3)];
    assert es[1..] == [(k1, v1), (k2, v2), (k3, v3)];
    assert es[1..][1..] == [(k2, v2), (k3, v3)];
    assert es[1..][1..][1..] == [(k3, v3)];
    assert KeySet(es) == {k0, k1, k2, k3} by {
      assert es[0].0 == k0 && es[1].0 == k1 && es[2].0 == k2 && es[3].0 == k3;
    }
  }

  /** Every pair `FilterMap` emits is a pair of `es` it accepted, mapped. */
  lemma {:induction false} FilterMapFrom(es: Entries, keep: (Key, Value) -> bool, f: Value -> Value, p: (Key, Value))
    requires p in FilterMap(es, keep, f)
    ensures exists q | q in es :: keep(q.0, q.1) && p == (q.0, f(q.1))
    decreases |es|
  {
    var n := |es| - 1;
    assert es == es[..n] + [es[n]];
    if p in FilterMap(es[..n], keep, f) {
      FilterMapFrom(es[..n], keep, f, p);
    } else {
      assert es[n] in es;
    }
  }
}
