/** The result normaliser: turns whatever an extractor returned (a DSPy
    prediction, dicts, lists, objects with export methods) into plain data.

    Two variants exist. `ToPlain` is the inner `to_plain` of
    `dump_prediction_plain`, and `DumpPredictionPlain` wraps its result so
    that the answer is always a dict. `Dump` (computed by the method
    `DumpPrediction`) is `dump_prediction`, which filters keys by an
    explicit exclusion list, a private-key flag and a veto predicate. */
module PredictionDump {
  import opened Values

  /** The `_store` keys `to_plain` drops from a prediction: usage metadata,
      raw inputs and raw completions. */
  predicate IsBookkeeping(k: string) {
    StartsWith(k, "_lm_usage") || StartsWith(k, "_inputs") || StartsWith(k, "_completions")
  }

  /** A string key with the internal-marker prefix `_`. */
  predicate IsPrivate(k: Key) {
    k.StrKey? && StartsWith(k.name, "_")
  }

  /** A prediction's store as dict pairs. */
  function StoreEntries(store: seq<(string, Value)>): (es: Entries)
    ensures |es| == |store|
    ensures forall i | 0 <= i < |store| :: es[i] == (StrKey(store[i].0), store[i].1)
  {
    seq(|store|, i requires 0 <= i < |store| => (StrKey(store[i].0), store[i].1))
  }

  // ---------------------------------------------------------------------
  // to_plain
  // ---------------------------------------------------------------------

  /** The inner `to_plain`, branch by branch in the source's order:
      primitives unchanged; a prediction to a dict over its store without
      the bookkeeping keys; a mapping to a dict without private keys; a
      list, tuple or set to a list; an object through `.dict()`, else
      `.to_dict()`; anything else unchanged. */
  function ToPlain(v: Value): Value
    decreases v
  {
    match v
    case Null => v
    case Bool(_) => v
    case Int(_) => v
    case Float(_) => v
    case Str(_) => v
    case Prediction(store) => Dict(FromPairs(PlainStore(store)))
    case Mapping(_, es) => Dict(FromPairs(PlainEntries(es)))
    case Coll(_, xs) => Coll(ListKind, PlainList(xs))
    case Object(_, dictMethod, toDictMethod) =>
      if dictMethod.Some? then ToPlain(dictMethod.value)
      else if toDictMethod.Some? then ToPlain(toDictMethod.value)
      else v
    case Date(_) => v
  }

  /** The comprehension over a prediction's store. */
  function PlainStore(store: seq<(string, Value)>): Entries
    decreases store
  {
    if store == [] then []
    else
      var n := |store| - 1;
      assert store[n] in store;
      assert store[n].1 < store[n];
      PlainStore(store[..n]) +
        (if IsBookkeeping(store[n].0) then [] else [(StrKey(store[n].0), ToPlain(store[n].1))])
  }

  /** The comprehension over a mapping's items. */
  function PlainEntries(es: Entries): Entries
    decreases es
  {
    if es == [] then []
    else
      var n := |es| - 1;
      assert es[n] in es;
      assert es[n].1 < es[n];
      PlainEntries(es[..n]) + (if IsPrivate(es[n].0) then [] else [(es[n].0, ToPlain(es[n].1))])
  }

  /** The comprehension over a list, tuple or set. */
  function PlainList(xs: seq<Value>): (ys: seq<Value>)
    ensures |ys| == |xs|
    decreases xs
  {
    if xs == [] then []
    else
      var n := |xs| - 1;
      PlainList(xs[..n]) + [ToPlain(xs[n])]
  }

  /** `to_plain`'s filter for a prediction's store. */
  const KeepNonBookkeeping: (Key, Value) -> bool := (k: Key, x: Value) => !(k.StrKey? && IsBookkeeping(k.name))

  /** `to_plain`'s filter for a mapping. */
  const KeepPublic: (Key, Value) -> bool := (k: Key, x: Value) => !IsPrivate(k)

  lemma {:induction false} PlainStoreIsFilterMap(store: seq<(string, Value)>)
    ensures PlainStore(store) == FilterMap(StoreEntries(store), KeepNonBookkeeping, ToPlain)
    decreases |store|
  {
    if store != [] {
      var n := |store| - 1;
      PlainStoreIsFilterMap(store[..n]);
      assert StoreEntries(store)[..n] == StoreEntries(store[..n]);
    }
  }

  lemma {:induction false} PlainEntriesIsFilterMap(es: Entries)
    ensures PlainEntries(es) == FilterMap(es, KeepPublic, ToPlain)
    decreases |es|
  {
    if es != [] {
      PlainEntriesIsFilterMap(es[..|es| - 1]);
    }
  }

  lemma {:induction false} PlainListAt(xs: seq<Value>)
    ensures forall i | 0 <= i < |xs| :: PlainList(xs)[i] == ToPlain(xs[i])
    decreases |xs|
  {
    if xs != [] {
      PlainListAt(xs[..|xs| - 1]);
    }
  }

  /** None, booleans, numbers and strings come back unchanged from both
      normalisers, whatever options `dump_prediction` is given. */
  lemma PrimitivesUnchanged(v: Value, o: DumpOptions)
    requires IsPrimitive(v)
    ensures ToPlain(v) == v
    ensures Dump(v, o) == v
  {
  }

  /** A prediction becomes a dict over its store, in store order, without
      exactly the keys that start with `_lm_usage`, `_inputs` or
      `_completions`; every other key, `_`-prefixed or not, survives with its
      value normalised. */
  lemma ToPlainPrediction(store: seq<(string, Value)>, k: Key)
    requires DistinctKeys(StoreEntries(store))
    ensures ToPlain(Prediction(store)).Mapping? && ToPlain(Prediction(store)).mkind == PlainDict
    ensures ToPlain(Prediction(store)).entries == FilterMap(StoreEntries(store), KeepNonBookkeeping, ToPlain)
    ensures Lookup(ToPlain(Prediction(store)).entries, k) ==
      if k.StrKey? && IsBookkeeping(k.name) then None else OptMap(Lookup(StoreEntries(store), k), ToPlain)
  {
    var es := StoreEntries(store);
    PlainStoreIsFilterMap(store);
    FilterMapLookup(es, KeepNonBookkeeping, ToPlain, k);
    FromPairsOfDict(FilterMap(es, KeepNonBookkeeping, ToPlain));
  }

  /** A mapping becomes a dict without the string keys starting with `_`;
      every other key, non-string keys included, keeps its normalised value. */
  lemma ToPlainMapping(mkind: MapKind, es: Entries, k: Key)
    requires DistinctKeys(es)
    ensures ToPlain(Mapping(mkind, es)).Mapping? && ToPlain(Mapping(mkind, es)).mkind == PlainDict
    ensures ToPlain(Mapping(mkind, es)).entries == FilterMap(es, KeepPublic, ToPlain)
    ensures Lookup(ToPlain(Mapping(mkind, es)).entries, k) ==
      if IsPrivate(k) then None else OptMap(Lookup(es, k), ToPlain)
  {
    PlainEntriesIsFilterMap(es);
    FilterMapLookup(es, KeepPublic, ToPlain, k);
    FromPairsOfDict(FilterMap(es, KeepPublic, ToPlain));
  }

  /** A list, tuple or set becomes a list of the same length, each element
      normalised, in iteration order. */
  lemma ToPlainCollection(kind: CollKind, xs: seq<Value>)
    ensures ToPlain(Coll(kind, xs)).Coll? && ToPlain(Coll(kind, xs)).kind == ListKind
    ensures |ToPlain(Coll(kind, xs)).elems| == |xs|
    ensures forall i | 0 <= i < |xs| :: ToPlain(Coll(kind, xs)).elems[i] == ToPlain(xs[i])
  {
    PlainListAt(xs);
  }

  /** What `to_plain` can return: no prediction, tuple, set or non-dict
      mapping is left, every dict is a real dict, and the only leftovers
      are dates and objects without a working export method. */
  predicate IsNormal(v: Value)
    decreases v
  {
    match v
    case Coll(kind, xs) => kind == ListKind && forall x | x in xs :: IsNormal(x)
    case Mapping(mkind, es) =>
      mkind == PlainDict && DistinctKeys(es) && forall p | p in es :: IsNormal(p.1)
    case Prediction(_) => false
    case Object(_, dictMethod, toDictMethod) => dictMethod.None? && toDictMethod.None?
    case _ => true
  }

  /** A normal value whose dicts, at every depth, have no `_`-prefixed string key. */
  predicate IsPlainData(v: Value)
    decreases v
  {
    match v
    case Coll(kind, xs) => kind == ListKind && forall x | x in xs :: IsPlainData(x)
    case Mapping(mkind, es) =>
      mkind == PlainDict && DistinctKeys(es) && forall p | p in es :: !IsPrivate(p.0) && IsPlainData(p.1)
    case Prediction(_) => false
    case Object(_, dictMethod, toDictMethod) => dictMethod.None? && toDictMethod.None?
    case _ => true
  }

  /** No prediction anywhere inside, export results included. */
  predicate PredictionFree(v: Value)
    decreases v
  {
    match v
    case Coll(_, xs) => forall x | x in xs :: PredictionFree(x)
    case Mapping(_, es) => forall p | p in es :: PredictionFree(p.1)
    case Prediction(_) => false
    case Object(_, dictMethod, toDictMethod) =>
      (dictMethod.Some? ==> PredictionFree(dictMethod.value)) &&
      (toDictMethod.Some? ==> PredictionFree(toDictMethod.value))
    case _ => true
  }

  /** `to_plain` always reaches its normal form, and without predictions
      inside the input it also removes every `_`-prefixed key. */
  lemma {:induction false} ToPlainShape(v: Value)
    ensures IsNormal(ToPlain(v))
    ensures PredictionFree(v) ==> IsPlainData(ToPlain(v))
    decreases v
  {
    match v
    case Prediction(store) =>
      PlainStoreShape(store);
    case Mapping(_, es) =>
      PlainEntriesShape(es);
    case Coll(_, xs) =>
      PlainListShape(xs);
    case Object(_, dictMethod, toDictMethod) =>
      if dictMethod.Some? {
        ToPlainShape(dictMethod.value);
      } else if toDictMethod.Some? {
        ToPlainShape(toDictMethod.value);
      }
    case _ =>
  }

  lemma {:induction false} PlainStoreShape(store: seq<(string, Value)>)
    ensures forall p | p in PlainStore(store) :: IsNormal(p.1)
    decreases store
  {
    if store != [] {
      var n := |store| - 1;
      assert store[n] in store;
      assert store[n].1 < store[n];
      PlainStoreShape(store[..n]);
      ToPlainShape(store[n].1);
    }
  }

  lemma {:induction false} PlainEntriesShape(es: Entries)
    ensures forall p | p in PlainEntries(es) :: !IsPrivate(p.0) && IsNormal(p.1)
    ensures (forall q | q in es :: PredictionFree(q.1)) ==>
      forall p | p in PlainEntries(es) :: IsPlainData(p.1)
    decreases es
  {
    if es != [] {
      var n := |es| - 1;
      var init, last := es[..n], es[n];
      assert last in es;
      assert last.1 < last;
      PlainEntriesShape(init);
      ToPlainShape(last.1);
      var tail := if IsPrivate(last.0) then [] else [(last.0, ToPlain(last.1))];
      assert PlainEntries(es) == PlainEntries(init) + tail;
      if forall q | q in es :: PredictionFree(q.1) {
        assert forall q | q in init :: q in es;
      }
    }
  }

  lemma {:induction false} PlainListShape(xs: seq<Value>)
    ensures forall y | y in PlainList(xs) :: IsNormal(y)
    ensures (forall x | x in xs :: PredictionFree(x)) ==> forall y | y in PlainList(xs) :: IsPlainData(y)
    decreases xs
  {
    if xs != [] {
      var n := |xs| - 1;
      assert xs[n] in xs;
      assert forall x | x in xs[..n] :: x in xs;
      PlainListShape(xs[..n]);
      ToPlainShape(xs[n]);
    }
  }

  /** Plain data is a fixed point of `to_plain`. */
  lemma {:induction false} PlainDataFixpoint(v: Value)
    requires IsPlainData(v)
    ensures ToPlain(v) == v
    decreases v
  {
    match v
    case Mapping(_, es) =>
      PlainEntriesFixpoint(es);
      FromPairsOfDict(es);
    case Coll(_, xs) =>
      PlainListFixpoint(xs);
    case _ =>
  }

  lemma {:induction false} PlainEntriesFixpoint(es: Entries)
    requires forall p | p in es :: !IsPrivate(p.0) && IsPlainData(p.1)
    ensures PlainEntries(es) == es
    decreases es
  {
    if es != [] {
      var n := |es| - 1;
      assert es[n] in es;
      assert es[n].1 < es[n];
      assert forall q | q in es[..n] :: q in es;
      PlainEntriesFixpoint(es[..n]);
      PlainDataFixpoint(es[n].1);
      assert es == es[..n] + [es[n]];
    }
  }

  lemma {:induction false} PlainListFixpoint(xs: seq<Value>)
    requires forall x | x in xs :: IsPlainData(x)
    ensures PlainList(xs) == xs
    decreases xs
  {
    if xs != [] {
      var n := |xs| - 1;
      assert xs[n] in xs;
      assert forall x | x in xs[..n] :: x in xs;
      PlainListFixpoint(xs[..n]);
      PlainDataFixpoint(xs[n]);
      assert xs == xs[..n] + [xs[n]];
    }
  }

  /** Normalising twice is normalising once, for any input without a
      prediction inside: primitives, dicts, lists, tuples, sets, dates and
      objects whose export results are such values. */
  lemma ToPlainIdempotent(v: Value)
    requires PredictionFree(v)
    ensures ToPlain(ToPlain(v)) == ToPlain(v)
  {
    ToPlainShape(v);
    PlainDataFixpoint(ToPlain(v));
  }

  /** Predictions are where idempotence stops: the prediction branch only
      drops bookkeeping keys, so a key such as `_note` survives the first
      pass and is dropped by the second, which sees a plain dict. */
  lemma PredictionKeepsOtherPrivateKeys(name: string, x: Value)
    requires StartsWith(name, "_") && !IsBookkeeping(name) && IsPlainData(x)
    ensures ToPlain(Prediction([(name, x)])) == Dict([(StrKey(name), x)])
    ensures ToPlain(ToPlain(Prediction([(name, x)]))) == Dict([])
  {
    PlainDataFixpoint(x);
    PrivateKeyPassesOnce(name, x);
  }

  lemma PrivateKeyPassesOnce(name: string, x: Value)
    requires StartsWith(name, "_") && !IsBookkeeping(name) && ToPlain(x) == x
    ensures ToPlain(Prediction([(name, x)])) == Dict([(StrKey(name), x)])
    ensures ToPlain(Dict([(StrKey(name), x)])) == Dict([])
  {
    var e := (StrKey(name), x);
    SingleStorePasses(name, x);
    FromPairsSingle(e);
    assert ToPlain(Prediction([(name, x)])) == Dict(FromPairs([e]));
    SinglePrivateDropped(e);
    assert FromPairs([]) == [];
    assert ToPlain(Dict([e])) == Dict(FromPairs([]));
  }

  lemma SingleStorePasses(name: string, x: Value)
    requires ToPlain(x) == x && !IsBookkeeping(name)
    ensures PlainStore([(name, x)]) == [(StrKey(name), x)]
  {
    var store := [(name, x)];
    assert store[..0] == [];
  }

  lemma SinglePrivateDropped(e: (Key, Value))
    requires IsPrivate(e.0)
    ensures PlainEntries([e]) == []
  {
    assert [e][..0] == [];
  }

  lemma FromPairsSingle(e: (Key, Value))
    ensures FromPairs([e]) == [e]
  {
    FromPairsSnoc([], e);
    assert [] + [e] == [e];
  }

  /** `dump_prediction_plain`: the normalised value if it is a dict, and
      otherwise that value wrapped as `{"value": ...}`, so that the answer is
      always a real dict. */
  function DumpPredictionPlain(pred: Value): (r: Value)
    ensures r.Mapping? && r.mkind == PlainDict && DistinctKeys(r.entries)
    ensures ToPlain(pred).Mapping? ==> r == ToPlain(pred)
    ensures !ToPlain(pred).Mapping? ==> r.entries == [(StrKey("value"), ToPlain(pred))]
  {
    var result := ToPlain(pred);
    ToPlainShape(pred);
    if result.Mapping? && result.mkind == PlainDict then result
    else Dict([(StrKey("value"), result)])
  }

  // ---------------------------------------------------------------------
  // dump_prediction
  // ---------------------------------------------------------------------

  /** The keyword arguments of `dump_prediction`. */
  datatype DumpOptions = DumpOptions(
    excludePrivate: bool,
    excludeKeys: seq<string>,
    customPredicate: Option<(string, Value) -> bool>)

  /** The defaults: private keys and the three bookkeeping keys excluded, no veto. */
  const DefaultOptions := DumpOptions(true, ["_lm_usage", "_inputs", "_completions"], None)

  /** The key-only part of the field filter. */
  predicate KeepKey(o: DumpOptions, k: string) {
    k !in o.excludeKeys && !(o.excludePrivate && StartsWith(k, "_"))
  }

  /** Whether a string-keyed field survives: not listed, not private when
      private keys are excluded, and not vetoed by the custom predicate. */
  predicate KeepField(o: DumpOptions, k: string, x: Value) {
    KeepKey(o, k) && (o.customPredicate.None? || o.customPredicate.value(k, x))
  }

  /** The field filter as applied to dict pairs; keys that are not strings
      are never filtered. */
  function KeepDumped(o: DumpOptions): (Key, Value) -> bool {
    (k: Key, x: Value) => k.OtherKey? || KeepField(o, k.name, x)
  }

  function DumpWith(o: DumpOptions): Value -> Value {
    (x: Value) => Dump(x, o)
  }

  /** `_to_json_safe` for the values modelled here: a date becomes its ISO
      text, everything else is returned as it is. */
  function ToJsonSafe(v: Value): (r: Value)
    ensures !r.Date?
    ensures !v.Date? ==> r == v
  {
    if v.Date? then Str(v.iso) else v
  }

  /** `_to_json_safe` is a fixed point after one application: what it
      returns contains no date at the top, so a second call changes nothing. */
  lemma ToJsonSafeIdempotent(v: Value)
    ensures ToJsonSafe(ToJsonSafe(v)) == ToJsonSafe(v)
  {
  }

  /** A date or datetime leaves `dump_prediction` as its ISO text but
      `to_plain` as it is; any other value `_to_json_safe` is given here
      comes back unchanged. */
  lemma DatesBecomeIsoText(iso: string, o: DumpOptions)
    ensures Dump(Date(iso), o) == Str(iso)
    ensures ToPlain(Date(iso)) == Date(iso)
    ensures forall v: Value :: !v.Date? ==> ToJsonSafe(v) == v
  {
  }

  /** The two normalisers try the export methods in opposite orders: for an
      object with both, `to_plain` follows `.dict()` and `dump_prediction`
      follows `.to_dict()`. */
  lemma ExportMethodOrder(tag: int, viaDict: Value, viaToDict: Value, o: DumpOptions)
    ensures ToPlain(Object(tag, Some(viaDict), Some(viaToDict))) == ToPlain(viaDict)
    ensures Dump(Object(tag, Some(viaDict), Some(viaToDict)), o) == Dump(viaToDict, o)
  {
  }

  /** `dump_prediction`, branch by branch in the source's order: primitives
      unchanged; a prediction to a dict over its filtered store; a dict to
      a dict over its filtered items; a list, tuple or set to a list; an
      object through `.to_dict()`, else `.dict()`; anything else through
      `_to_json_safe`. */
  function Dump(v: Value, o: DumpOptions): Value
    decreases v
  {
    match v
    case Null => v
    case Bool(_) => v
    case Int(_) => v
    case Float(_) => v
    case Str(_) => v
    case Prediction(store) => Dict(FromPairs(DumpStore(store, o)))
    case Mapping(mkind, es) =>
      if mkind == PlainDict then Dict(FromPairs(DumpEntries(es, o))) else ToJsonSafe(v)
    case Coll(_, xs) => Coll(ListKind, DumpList(xs, o))
    case Object(_, dictMethod, toDictMethod) =>
      if toDictMethod.Some? then Dump(toDictMethod.value, o)
      else if dictMethod.Some? then Dump(dictMethod.value, o)
      else ToJsonSafe(v)
    case Date(_) => ToJsonSafe(v)
  }

  /** The kept fields of a prediction's store, dumped, in store order. */
  function DumpStore(store: seq<(string, Value)>, o: DumpOptions): Entries
    decreases store
  {
    if store == [] then []
    else
      var n := |store| - 1;
      assert store[n] in store;
      assert store[n].1 < store[n];
      DumpStore(store[..n], o) +
        (if KeepField(o, store[n].0, store[n].1) then [(StrKey(store[n].0), Dump(store[n].1, o))] else [])
  }

  /** The kept items of a dict, dumped, in order. */
  function DumpEntries(es: Entries, o: DumpOptions): Entries
    decreases es
  {
    if es == [] then []
    else
      var n := |es| - 1;
      assert es[n] in es;
      assert es[n].1 < es[n];
      DumpEntries(es[..n], o) +
        (if KeepDumped(o)(es[n].0, es[n].1) then [(es[n].0, Dump(es[n].1, o))] else [])
  }

  /** The elements of a list, tuple or set, dumped, in order. */
  function DumpList(xs: seq<Value>, o: DumpOptions): (ys: seq<Value>)
    ensures |ys| == |xs|
    decreases xs
  {
    if xs == [] then []
    else
      var n := |xs| - 1;
      DumpList(xs[..n], o) + [Dump(xs[n], o)]
  }

  lemma {:induction false} DumpStoreIsFilterMap(store: seq<(string, Value)>, o: DumpOptions)
    ensures DumpStore(store, o) == FilterMap(StoreEntries(store), KeepDumped(o), DumpWith(o))
    decreases |store|
  {
    if store != [] {
      var n := |store| - 1;
      DumpStoreIsFilterMap(store[..n], o);
      assert StoreEntries(store)[..n] == StoreEntries(store[..n]);
    }
  }

  lemma {:induction false} DumpEntriesIsFilterMap(es: Entries, o: DumpOptions)
    ensures DumpEntries(es, o) == FilterMap(es, KeepDumped(o), DumpWith(o))
    decreases |es|
  {
    if es != [] {
      DumpEntriesIsFilterMap(es[..|es| - 1], o);
    }
  }

  lemma {:induction false} DumpListAt(xs: seq<Value>, o: DumpOptions)
    ensures forall i | 0 <= i < |xs| :: DumpList(xs, o)[i] == Dump(xs[i], o)
    decreases |xs|
  {
    if xs != [] {
      DumpListAt(xs[..|xs| - 1], o);
    }
  }

  /** A prediction dumps to a dict over its store, in store order, holding
      exactly the fields the options keep, each dumped in turn. */
  lemma DumpPredictionFields(store: seq<(string, Value)>, o: DumpOptions, k: Key)
    requires DistinctKeys(StoreEntries(store))
    ensures Dump(Prediction(store), o).Mapping? && Dump(Prediction(store), o).mkind == PlainDict
    ensures Dump(Prediction(store), o).entries == FilterMap(StoreEntries(store), KeepDumped(o), DumpWith(o))
    ensures DistinctKeys(Dump(Prediction(store), o).entries)
    ensures Lookup(Dump(Prediction(store), o).entries, k) ==
      match Lookup(StoreEntries(store), k)
      case None => None
      case Some(x) => if KeepField(o, k.name, x) then Some(Dump(x, o)) else None
  {
    var es := StoreEntries(store);
    DumpStoreIsFilterMap(store, o);
    FilterMapLookup(es, KeepDumped(o), DumpWith(o), k);
    FromPairsOfDict(FilterMap(es, KeepDumped(o), DumpWith(o)));
    StoreKeysAreStrings(store, k);
  }

  lemma StoreKeysAreStrings(store: seq<(string, Value)>, k: Key)
    ensures k in KeySet(StoreEntries(store)) ==> k.StrKey?
  {
    var es := StoreEntries(store);
    if k in KeySet(es) {
      var i :| 0 <= i < |es| && es[i].0 == k;
    }
  }

  /** A dict dumps to a dict over its items, in order: a key that is not a
      string is always kept, a listed key is dropped whether or not private
      keys are excluded, and every kept value is dumped in turn. */
  lemma DumpMappingFields(es: Entries, o: DumpOptions, k: Key)
    requires DistinctKeys(es)
    ensures Dump(Dict(es), o).Mapping? && Dump(Dict(es), o).mkind == PlainDict
    ensures Dump(Dict(es), o).entries == FilterMap(es, KeepDumped(o), DumpWith(o))
    ensures DistinctKeys(Dump(Dict(es), o).entries)
    ensures Lookup(Dump(Dict(es), o).entries, k) ==
      match Lookup(es, k)
      case None => None
      case Some(x) => if k.OtherKey? || KeepField(o, k.name, x) then Some(Dump(x, o)) else None
    ensures k.OtherKey? ==> Lookup(Dump(Dict(es), o).entries, k) == OptMap(Lookup(es, k), DumpWith(o))
    ensures k.StrKey? && k.name in o.excludeKeys ==> k !in KeySet(Dump(Dict(es), o).entries)
  {
    DumpEntriesIsFilterMap(es, o);
    FilterMapLookup(es, KeepDumped(o), DumpWith(o), k);
    FromPairsOfDict(FilterMap(es, KeepDumped(o), DumpWith(o)));
  }

  /** A list, tuple or set dumps to a list of the same length, element by element. */
  lemma DumpCollection(kind: CollKind, xs: seq<Value>, o: DumpOptions)
    ensures Dump(Coll(kind, xs), o).Coll? && Dump(Coll(kind, xs), o).kind == ListKind
    ensures |Dump(Coll(kind, xs), o).elems| == |xs|
    ensures forall i | 0 <= i < |xs| :: Dump(Coll(kind, xs), o).elems[i] == Dump(xs[i], o)
  {
    DumpListAt(xs, o);
  }

  /** What `dump_prediction` returns under options `o`: lists, real dicts
      whose string keys all pass the key filter, primitives and objects
      without an export method. A mapping that is not a real dict is passed
      through unchanged together with everything inside it; outside such
      mappings no prediction, tuple, set or date is left. */
  predicate IsDumped(v: Value, o: DumpOptions)
    decreases v
  {
    match v
    case Coll(kind, xs) => kind == ListKind && forall x | x in xs :: IsDumped(x, o)
    case Mapping(mkind, es) =>
      mkind == PlainDict ==>
        DistinctKeys(es) && forall p | p in es :: (p.0.OtherKey? || KeepKey(o, p.0.name)) && IsDumped(p.1, o)
    case Prediction(_) => false
    case Object(_, dictMethod, toDictMethod) => dictMethod.None? && toDictMethod.None?
    case Date(_) => false
    case _ => true
  }

  lemma {:induction false} DumpShape(v: Value, o: DumpOptions)
    ensures IsDumped(Dump(v, o), o)
    decreases v
  {
    match v
    case Prediction(store) =>
      DumpStoreShape(store, o);
    case Mapping(mkind, es) =>
      if mkind == PlainDict {
        DumpEntriesShape(es, o);
      }
    case Coll(_, xs) =>
      DumpListShape(xs, o);
    case Object(_, dictMethod, toDictMethod) =>
      if toDictMethod.Some? {
        DumpShape(toDictMethod.value, o);
      } else if dictMethod.Some? {
        DumpShape(dictMethod.value, o);
      }
    case _ =>
  }

  lemma {:induction false} DumpStoreShape(store: seq<(string, Value)>, o: DumpOptions)
    ensures forall p | p in DumpStore(store, o) :: p.0.StrKey? && KeepKey(o, p.0.name) && IsDumped(p.1, o)
    decreases store
  {
    if store != [] {
      var n := |store| - 1;
      assert store[n] in store;
      assert store[n].1 < store[n];
      DumpStoreShape(store[..n], o);
      DumpShape(store[n].1, o);
    }
  }

  lemma {:induction false} DumpEntriesShape(es: Entries, o: DumpOptions)
    ensures forall p | p in DumpEntries(es, o) :: (p.0.OtherKey? || KeepKey(o, p.0.name)) && IsDumped(p.1, o)
    decreases es
  {
    if es != [] {
      var n := |es| - 1;
      assert es[n] in es;
      assert es[n].1 < es[n];
      DumpEntriesShape(es[..n], o);
      DumpShape(es[n].1, o);
    }
  }

  lemma {:induction false} DumpListShape(xs: seq<Value>, o: DumpOptions)
    ensures forall y | y in DumpList(xs, o) :: IsDumped(y, o)
    decreases xs
  {
    if xs != [] {
      var n := |xs| - 1;
      assert xs[n] in xs;
      DumpListShape(xs[..n], o);
      DumpShape(xs[n], o);
    }
  }

  /** Without a veto predicate, dumped data is a fixed point of `dump_prediction`. */
  lemma {:induction false} DumpFixpoint(v: Value, o: DumpOptions)
    requires o.customPredicate.None? && IsDumped(v, o)
    ensures Dump(v, o) == v
    decreases v
  {
    match v
    case Mapping(mkind, es) =>
      if mkind == PlainDict {
        DumpEntriesFixpoint(es, o);
        FromPairsOfDict(es);
      }
    case Coll(_, xs) =>
      DumpListFixpoint(xs, o);
    case _ =>
  }

  lemma {:induction false} DumpEntriesFixpoint(es: Entries, o: DumpOptions)
    requires o.customPredicate.None?
    requires forall p | p in es :: (p.0.OtherKey? || KeepKey(o, p.0.name)) && IsDumped(p.1, o)
    ensures DumpEntries(es, o) == es
    decreases es
  {
    if es != [] {
      var n := |es| - 1;
      var init, last := es[..n], es[n];
      assert last in es;
      assert last.1 < last;
      DumpedEntriesSplit(es, o);
      DumpEntriesFixpoint(init, o);
      DumpFixpoint(last.1, o);
      DumpEntriesKeepsLast(init, last, o);
      assert es == init + [last];
    }
  }

  lemma DumpedEntriesSplit(es: Entries, o: DumpOptions)
    requires es != []
    requires forall p | p in es :: (p.0.OtherKey? || KeepKey(o, p.0.name)) && IsDumped(p.1, o)
    ensures forall p | p in es[..|es| - 1] :: (p.0.OtherKey? || KeepKey(o, p.0.name)) && IsDumped(p.1, o)
    ensures var last := es[|es| - 1]; (last.0.OtherKey? || KeepKey(o, last.0.name)) && IsDumped(last.1, o)
  {
    assert es[|es| - 1] in es;
    assert forall q | q in es[..|es| - 1] :: q in es;
  }

  lemma DumpEntriesKeepsLast(init: Entries, last: (Key, Value), o: DumpOptions)
    requires o.customPredicate.None? && (last.0.OtherKey? || KeepKey(o, last.0.name))
    requires DumpEntries(init, o) == init && Dump(last.1, o) == last.1
    ensures DumpEntries(init + [last], o) == init + [last]
  {
    assert (init + [last])[..|init|] == init;
  }

  lemma {:induction false} DumpListFixpoint(xs: seq<Value>, o: DumpOptions)
    requires o.customPredicate.None?
    requires forall x | x in xs :: IsDumped(x, o)
    ensures DumpList(xs, o) == xs
    decreases xs
  {
    if xs != [] {
      var n := |xs| - 1;
      var init, last := xs[..n], xs[n];
      assert last in xs;
      DumpedListSplit(xs, o);
      DumpListFixpoint(init, o);
      DumpFixpoint(last, o);
      assert xs == init + [last];
      assert DumpList(xs, o) == DumpList(init, o) + [Dump(last, o)];
    }
  }

  lemma DumpedListSplit(xs: seq<Value>, o: DumpOptions)
    requires xs != [] && forall x | x in xs :: IsDumped(x, o)
    ensures forall x | x in xs[..|xs| - 1] :: IsDumped(x, o)
    ensures IsDumped(xs[|xs| - 1], o)
  {
    assert xs[|xs| - 1] in xs;
    assert forall x | x in xs[..|xs| - 1] :: x in xs;
  }

  /** Without a veto predicate, dumping twice is dumping once, whatever the
      input (predictions included, unlike `to_plain`). */
  lemma DumpIdempotent(v: Value, o: DumpOptions)
    requires o.customPredicate.None?
    ensures Dump(Dump(v, o), o) == Dump(v, o)
  {
    DumpShape(v, o);
    DumpFixpoint(Dump(v, o), o);
  }

  /** Data that is already JSON-shaped: primitives, dicts and collections of such. */
  predicate IsJsonShaped(v: Value)
    decreases v
  {
    match v
    case Coll(_, xs) => forall x | x in xs :: IsJsonShaped(x)
    case Mapping(mkind, es) => mkind == PlainDict && forall p | p in es :: IsJsonShaped(p.1)
    case Prediction(_) => false
    case Object(_, _, _) => false
    case Date(_) => false
    case _ => true
  }

  /** On JSON-shaped data the two normalisers agree when `dump_prediction`
      runs with its defaults: both drop exactly the `_`-prefixed string keys. */
  lemma {:induction false} DumpAgreesWithToPlain(v: Value)
    requires IsJsonShaped(v)
    ensures Dump(v, DefaultOptions) == ToPlain(v)
    decreases v
  {
    match v
    case Mapping(_, es) =>
      EntriesAgree(es);
    case Coll(_, xs) =>
      ListsAgree(xs);
    case _ =>
  }

  lemma DefaultKeepIsPublic(k: Key, x: Value)
    ensures KeepDumped(DefaultOptions)(k, x) == KeepPublic(k, x)
  {
    if k.StrKey? && k.name in DefaultOptions.excludeKeys {
      assert k.name[..1] == "_";
    }
  }

  lemma {:induction false} EntriesAgree(es: Entries)
    requires forall p | p in es :: IsJsonShaped(p.1)
    ensures DumpEntries(es, DefaultOptions) == PlainEntries(es)
    decreases es
  {
    if es != [] {
      var n := |es| - 1;
      assert es[n] in es;
      assert es[n].1 < es[n];
      assert forall q | q in es[..n] :: q in es;
      EntriesAgree(es[..n]);
      DumpAgreesWithToPlain(es[n].1);
      DefaultKeepIsPublic(es[n].0, es[n].1);
    }
  }

  lemma {:induction false} ListsAgree(xs: seq<Value>)
    requires forall x | x in xs :: IsJsonShaped(x)
    ensures DumpList(xs, DefaultOptions) == PlainList(xs)
    decreases xs
  {
    if xs != [] {
      var n := |xs| - 1;
      assert xs[n] in xs;
      assert forall x | x in xs[..n] :: x in xs;
      ListsAgree(xs[..n]);
      DumpAgreesWithToPlain(xs[n]);
    }
  }

  /** `dump_prediction` as the source runs it: recursion on the value, with
      the loops over a prediction's store and a dict's items in
      `DumpStoreLoop` and `DumpEntriesLoop`. */
  method DumpPrediction(v: Value, o: DumpOptions) returns (r: Value)
    ensures r == Dump(v, o)
    decreases v, 1
  {
    match v {
      case Null => r := v;
      case Bool(_) => r := v;
      case Int(_) => r := v;
      case Float(_) => r := v;
      case Str(_) => r := v;
      case Prediction(store) =>
        var out := DumpStoreLoop(store, o);
        r := Dict(out);
      case Mapping(mkind, es) =>
        if mkind == PlainDict {
          var out := DumpEntriesLoop(es, o);
          r := Dict(out);
        } else {
          r := ToJsonSafe(v);
        }
      case Coll(_, xs) =>
        var out := DumpListLoop(xs, o);
        r := Coll(ListKind, out);
      case Object(_, dictMethod, toDictMethod) =>
        if toDictMethod.Some? {
          r := DumpPrediction(toDictMethod.value, o);
        } else if dictMethod.Some? {
          r := DumpPrediction(dictMethod.value, o);
        } else {
          r := ToJsonSafe(v);
        }
      case Date(_) => r := ToJsonSafe(v);
    }
  }

  /** The prediction branch's loop: `out[k] = dump(v)` for each kept field. */
  method DumpStoreLoop(store: seq<(string, Value)>, o: DumpOptions) returns (out: Entries)
    ensures out == FromPairs(DumpStore(store, o))
    decreases store, 0
  {
    out := [];
    var i := 0;
    while i < |store|
      invariant 0 <= i <= |store|
      invariant out == FromPairs(DumpStore(store[..i], o))
    {
      var k := store[i].0;
      var x := store[i].1;
      DumpStoreStep(store, i, o);
      assert store[i] in store;
      assert x < store[i];
      if KeepField(o, k, x) {
        var d := DumpPrediction(x, o);
        FromPairsSnoc(DumpStore(store[..i], o), (StrKey(k), d));
        out := Put(out, StrKey(k), d);
      } else {
        assert DumpStore(store[..i + 1], o) == DumpStore(store[..i], o);
      }
      i := i + 1;
    }
    assert store[..i] == store;
  }

  lemma DumpStoreStep(store: seq<(string, Value)>, i: nat, o: DumpOptions)
    requires i < |store|
    ensures DumpStore(store[..i + 1], o) == DumpStore(store[..i], o) +
      (if KeepField(o, store[i].0, store[i].1) then [(StrKey(store[i].0), Dump(store[i].1, o))] else [])
  {
    assert store[..i + 1][..i] == store[..i];
  }

  lemma DumpEntriesStep(es: Entries, i: nat, o: DumpOptions)
    requires i < |es|
    ensures DumpEntries(es[..i + 1], o) == DumpEntries(es[..i], o) +
      (if es[i].0.OtherKey? || KeepField(o, es[i].0.name, es[i].1) then [(es[i].0, Dump(es[i].1, o))] else [])
  {
    assert es[..i + 1][..i] == es[..i];
  }

  /** The dict branch's loop: `out[k] = dump(v)` for each kept item. */
  method DumpEntriesLoop(es: Entries, o: DumpOptions) returns (out: Entries)
    ensures out == FromPairs(DumpEntries(es, o))
    decreases es, 0
  {
    out := [];
    var i := 0;
    while i < |es|
      invariant 0 <= i <= |es|
      invariant out == FromPairs(DumpEntries(es[..i], o))
    {
      var k := es[i].0;
      var x := es[i].1;
      DumpEntriesStep(es, i, o);
      assert es[i] in es;
      assert x < es[i];
      if k.OtherKey? || KeepField(o, k.name, x) {
        var d := DumpPrediction(x, o);
        FromPairsSnoc(DumpEntries(es[..i], o), (k, d));
        out := Put(out, k, d);
      } else {
        assert DumpEntries(es[..i + 1], o) == DumpEntries(es[..i], o);
      }
      i := i + 1;
    }
    assert es[..i] == es;
  }

  /** The collection branch's list comprehension. */
  method DumpListLoop(xs: seq<Value>, o: DumpOptions) returns (out: seq<Value>)
    ensures out == DumpList(xs, o)
    decreases xs, 0
  {
    out := [];
    var i := 0;
    while i < |xs|
      invariant 0 <= i <= |xs|
      invariant out == DumpList(xs[..i], o)
    {
      assert xs[..i + 1][..i] == xs[..i];
      assert xs[i] in xs;
      var d := DumpPrediction(xs[i], o);
      out := out + [d];
      i := i + 1;
    }
    assert xs[..i] == xs;
  }

  // ---------------------------------------------------------------------
  // dump_many_predictions
  // ---------------------------------------------------------------------

  /** The mapping `dump_many_predictions` builds with a key function: for
      each prediction in order, `mapping[key] = dumped` when the key
      function gives a key for it and its position. */
  function KeyedDumps(preds: seq<Value>, keyFn: (Value, nat) -> Option<string>, o: DumpOptions): Entries
    decreases |preds|
  {
    if preds == [] then []
    else
      var n := |preds| - 1;
      var rest := KeyedDumps(preds[..n], keyFn, o);
      match keyFn(preds[n], n)
      case None => rest
      case Some(k) => Put(rest, StrKey(k), Dump(preds[n], o))
  }

  /** The keys the key function gives, over all positions. */
  function GivenKeys(preds: seq<Value>, keyFn: (Value, nat) -> Option<string>): set<Key> {
    set i | 0 <= i < |preds| && keyFn(preds[i], i).Some? :: StrKey(keyFn(preds[i], i).value)
  }

  /** The keyed mapping is a real dict whose keys are exactly the keys the
      key function gave. */
  lemma {:induction false} KeyedDumpsKeys(preds: seq<Value>, keyFn: (Value, nat) -> Option<string>, o: DumpOptions)
    ensures DistinctKeys(KeyedDumps(preds, keyFn, o))
    ensures KeySet(KeyedDumps(preds, keyFn, o)) == GivenKeys(preds, keyFn)
    decreases |preds|
  {
    if preds != [] {
      var n := |preds| - 1;
      KeyedDumpsKeys(preds[..n], keyFn, o);
      GivenKeysSnoc(preds, keyFn);
      var rest := KeyedDumps(preds[..n], keyFn, o);
      match keyFn(preds[n], n)
      case None =>
      case Some(k) => PutShape(rest, StrKey(k), Dump(preds[n], o));
    }
  }

  lemma GivenKeysSnoc(preds: seq<Value>, keyFn: (Value, nat) -> Option<string>)
    requires preds != []
    ensures var n := |preds| - 1;
      GivenKeys(preds, keyFn) == GivenKeys(preds[..n], keyFn) +
        (if keyFn(preds[n], n).Some? then {StrKey(keyFn(preds[n], n).value)} else {})
  {
    var n := |preds| - 1;
    assert forall i | 0 <= i < n :: preds[..n][i] == preds[i];
  }

  /** When two predictions get the same key, the later one wins: the key
      maps to the dump of the last prediction that was given it. */
  lemma {:induction false} KeyedDumpsLastWins(preds: seq<Value>, keyFn: (Value, nat) -> Option<string>, o: DumpOptions, i: nat, k: string)
    requires i < |preds| && keyFn(preds[i], i) == Some(k)
    requires forall j | i < j < |preds| :: keyFn(preds[j], j) != Some(k)
    ensures Lookup(KeyedDumps(preds, keyFn, o), StrKey(k)) == Some(Dump(preds[i], o))
    decreases |preds|
  {
    var n := |preds| - 1;
    if i < n {
      forall j | i < j < n ensures keyFn(preds[..n][j], j) != Some(k) {
        assert preds[..n][j] == preds[j];
      }
      assert preds[..n][i] == preds[i];
      KeyedDumpsLastWins(preds[..n], keyFn, o, i, k);
    }
  }

  /** The value `dump_many_predictions` hands to `json.dumps` when its input
      is gone over once: the list of dumps, or with a key function the keyed
      mapping. */
  function DumpManyResult(preds: seq<Value>, keyFn: Option<(Value, nat) -> Option<string>>, o: DumpOptions): Value {
    if keyFn.Some? then Dict(KeyedDumps(preds, keyFn.value, o))
    else Coll(ListKind, seq(|preds|, i requires 0 <= i < |preds| => Dump(preds[i], o)))
  }

  /** `dump_many_predictions` up to the JSON text, reading its input once. */
  method DumpManyPredictions(preds: seq<Value>, keyFn: Option<(Value, nat) -> Option<string>>, o: DumpOptions)
    returns (r: Value)
    ensures r == DumpManyResult(preds, keyFn, o)
    ensures keyFn.None? ==>
      r.Coll? && r.kind == ListKind && |r.elems| == |preds| &&
      forall i | 0 <= i < |preds| :: r.elems[i] == Dump(preds[i], o)
    ensures keyFn.Some? ==> r == Dict(KeyedDumps(preds, keyFn.value, o))
  {
    var dumped: seq<Value> := [];
    var i := 0;
    while i < |preds|
      invariant 0 <= i <= |preds|
      invariant |dumped| == i && forall j | 0 <= j < i :: dumped[j] == Dump(preds[j], o)
    {
      var d := DumpPrediction(preds[i], o);
      dumped := dumped + [d];
      i := i + 1;
    }
    if keyFn.Some? {
      var mapping: Entries := [];
      i := 0;
      while i < |preds|
        invariant 0 <= i <= |preds|
        invariant mapping == KeyedDumps(preds[..i], keyFn.value, o)
      {
        assert preds[..i + 1][..i] == preds[..i];
        var k := keyFn.value(preds[i], i);
        if k.Some? {
          mapping := Put(mapping, StrKey(k.value), dumped[i]);
        }
        i := i + 1;
      }
      assert preds[..i] == preds;
      r := Dict(mapping);
    } else {
      r := Coll(ListKind, dumped);
    }
  }

  /** How the predictions reach `dump_many_predictions`: a list can be
      iterated again, a one-shot iterator (a generator, say) is exhausted
      after the first pass. */
  datatype PredSource = Listed(items: seq<Value>) | OneShot(items: seq<Value>)

  /** `dump_many_predictions` as written: the list comprehension is a first
      pass over the input, and the keyed branch zips a second pass over it
      with the dumps, which is empty for a one-shot iterator. */
  function DumpManyAsWritten(src: PredSource, keyFn: Option<(Value, nat) -> Option<string>>, o: DumpOptions): Value {
    var secondPass := if src.Listed? then src.items else [];
    if keyFn.Some? then Dict(KeyedDumps(secondPass, keyFn.value, o))
    else DumpManyResult(src.items, keyFn, o)
  }

  /** On a list, the code as written gives the intended result. */
  lemma AsWrittenAgreesOnLists(items: seq<Value>, keyFn: Option<(Value, nat) -> Option<string>>, o: DumpOptions)
    ensures DumpManyAsWritten(Listed(items), keyFn, o) == DumpManyResult(items, keyFn, o)
  {
  }

  /** On a one-shot iterator with a key function, the code as written
      returns an empty mapping even when the key function keys a
      prediction, whereas reading the input once keeps that key. */
  lemma OneShotKeyedDumpIsEmpty(items: seq<Value>, keyFn: (Value, nat) -> Option<string>, o: DumpOptions)
    requires |items| > 0 && keyFn(items[0], 0).Some?
    ensures DumpManyAsWritten(OneShot(items), Some(keyFn), o) == Dict([])
    ensures StrKey(keyFn(items[0], 0).value) in KeySet(DumpManyResult(items, Some(keyFn), o).entries)
  {
    KeyedDumpsKeys(items, keyFn, o);
    assert StrKey(keyFn(items[0], 0).value) in GivenKeys(items, keyFn);
  }
}
