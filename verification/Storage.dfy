/**
  The shared key-value storage: one flat map of strings, seen through prefixed and typed
  views. Operations through different prefixes act on independent maps.
 */
module Storage {
  import opened Wrappers

  function Lookup<K(==), V>(data: map<K, V>, key: K): Option<V> {
    if key in data then Some(data[key]) else None
  }

  /** keys and values list every entry of data once. */
  ghost predicate Enumerates<K, V>(data: map<K, V>, keys: seq<K>, values: seq<V>) {
    && |keys| == |values|
    && (forall k | k in data :: k in keys)
    && (forall i | 0 <= i < |keys| :: keys[i] in data && data[keys[i]] == values[i])
    && (forall i, j | 0 <= i < j < |keys| :: keys[i] != keys[j])
  }

  // ------------------------------------------------- the AtomicStorage contract

  datatype StoreOp<K, V> =
    | PutOp(key: K, value: V)
    | PutIfAbsentOp(key: K, value: V)
    | CompareAndSwapOp(key: K, prev: V, next: V)
    | DeleteOp(key: K)

  /** Whether a conditional write takes place. */
  predicate Succeeds<K(==), V(==)>(data: map<K, V>, op: StoreOp<K, V>) {
    match op
    case PutOp(_, _) => true
    case PutIfAbsentOp(key, _) => key !in data
    case CompareAndSwapOp(key, prev, _) => Lookup(data, key) == Some(prev)
    case DeleteOp(_) => true
  }

  function Apply<K(==), V(==)>(data: map<K, V>, op: StoreOp<K, V>): map<K, V> {
    if !Succeeds(data, op) then data
    else match op
      case PutOp(key, value) => data[key := value]
      case PutIfAbsentOp(key, value) => data[key := value]
      case CompareAndSwapOp(key, _, next) => data[key := next]
      case DeleteOp(key) => data - {key}
  }

  // ------------------------------------------------------------------- views

  ghost predicate IsView(view: map<string, string>, data: map<string, string>, prefix: string) {
    && (forall k {:trigger k in view} :: k in view <==> prefix + k in data)
    && (forall k {:trigger view[k]} | k in view :: view[k] == data[prefix + k])
  }

  lemma ViewExists(data: map<string, string>, prefix: string)
    ensures exists view :: IsView(view, data, prefix)
  {
    var view := map k | k in (set f | f in data && prefix <= f :: f[|prefix|..]) && prefix + k in data :: data[prefix + k];
    forall k | prefix + k in data ensures k in view {
      assert (prefix + k)[|prefix|..] == k;
    }
    assert IsView(view, data, prefix);
  }

  /** The entries under a key prefix, by the rest of the key. */
  ghost function View(data: map<string, string>, prefix: string): map<string, string> {
    ViewExists(data, prefix);
    var view :| IsView(view, data, prefix);
    view
  }

  lemma ViewAt(data: map<string, string>, prefix: string, k: string)
    ensures k in View(data, prefix) <==> prefix + k in data
    ensures k in View(data, prefix) ==> View(data, prefix)[k] == data[prefix + k]
  {}

  function Under(prefix: string, op: StoreOp<string, string>): StoreOp<string, string> {
    match op
    case PutOp(key, value) => PutOp(prefix + key, value)
    case PutIfAbsentOp(key, value) => PutIfAbsentOp(prefix + key, value)
    case CompareAndSwapOp(key, prev, next) => CompareAndSwapOp(prefix + key, prev, next)
    case DeleteOp(key) => DeleteOp(prefix + key)
  }

  /** Neither prefix extends the other, so no key has both. */
  predicate Apart(p: string, q: string) {
    !(p <= q) && !(q <= p)
  }

  lemma PrefixesCompare(p: string, q: string, f: string)
    ensures p <= f && q <= f ==> p <= q || q <= p
  {}

  lemma ApartKeys(p: string, q: string, k: string, l: string)
    requires Apart(p, q)
    ensures p + k != q + l
  {
    PrefixesCompare(p, q, p + k);
  }

  /** An operation through a prefix acts on that view as it would on a map of its own. */
  lemma OwnView(data: map<string, string>, p: string, op: StoreOp<string, string>)
    ensures Succeeds(data, Under(p, op)) <==> Succeeds(View(data, p), op)
    ensures View(Apply(data, Under(p, op)), p) == Apply(View(data, p), op)
  {
    var data' := Apply(data, Under(p, op));
    ViewAt(data, p, op.key);
    forall k ensures Lookup(View(data', p), k) == Lookup(Apply(View(data, p), op), k) {
      ViewAt(data, p, k);
      ViewAt(data', p, k);
      assert k != op.key ==> p + k != p + op.key by {
        assert (p + k)[|p|..] == k && (p + op.key)[|p|..] == op.key;
      }
    }
    SameLookups(View(data', p), Apply(View(data, p), op));
  }

  /** It does not touch a view under a prefix apart from it. */
  lemma OtherView(data: map<string, string>, p: string, q: string, op: StoreOp<string, string>)
    requires Apart(p, q)
    ensures View(Apply(data, Under(q, op)), p) == View(data, p)
  {
    var data' := Apply(data, Under(q, op));
    forall k ensures Lookup(View(data', p), k) == Lookup(View(data, p), k) {
      ViewAt(data, p, k);
      ViewAt(data', p, k);
      ApartKeys(p, q, k, op.key);
    }
    SameLookups(View(data', p), View(data, p));
  }

  lemma SameLookups<K, V>(a: map<K, V>, b: map<K, V>)
    requires forall k :: Lookup(a, k) == Lookup(b, k)
    ensures a == b
  {
    assert forall k :: k in a <==> k in b by {
      forall k ensures k in a <==> k in b {
        assert Lookup(a, k) == Lookup(b, k);
      }
    }
    forall k | k in a ensures a[k] == b[k] {
      assert Lookup(a, k) == Lookup(b, k);
    }
  }

  /** The flat storage after a sequence of operations, each through some prefix. */
  function ApplyAll(data: map<string, string>, ops: seq<(string, StoreOp<string, string>)>): map<string, string> {
    if ops == [] then data
    else
      var last := ops[|ops| - 1];
      Apply(ApplyAll(data, ops[..|ops| - 1]), Under(last.0, last.1))
  }

  /** A map of its own after the operations through one prefix. */
  function ApplyThrough(m: map<string, string>, p: string, ops: seq<(string, StoreOp<string, string>)>): map<string, string> {
    if ops == [] then m
    else
      var last := ops[|ops| - 1];
      var m' := ApplyThrough(m, p, ops[..|ops| - 1]);
      if last.0 == p then Apply(m', last.1) else m'
  }

  /**
    Namespace refinement: whatever operations run through pairwise apart prefixes, and in
    whatever order, each view is what its own operations alone make of a separate map.
   */
  lemma {:induction false} ViewsAreSeparateMaps(data: map<string, string>, p: string, ops: seq<(string, StoreOp<string, string>)>)
    requires forall i | 0 <= i < |ops| :: ops[i].0 == p || Apart(p, ops[i].0)
    ensures View(ApplyAll(data, ops), p) == ApplyThrough(View(data, p), p, ops)
  {
    if ops != [] {
      var init, last := ops[..|ops| - 1], ops[|ops| - 1];
      assert forall i | 0 <= i < |init| :: init[i] == ops[i];
      ViewsAreSeparateMaps(data, p, init);
      if last.0 == p {
        OwnView(ApplyAll(data, init), p, last.1);
      } else {
        OtherView(ApplyAll(data, init), p, last.0, last.1);
      }
    }
  }

  const CHANNEL_PREFIX := "/payment-channel/storage"
  const PAYMENT_PREFIX := "/payment/storage"
  const LOCK_PREFIX := "/payment-channel/lock"

  /** The three namespaces of the daemon are pairwise apart. */
  lemma NamespacesApart()
    ensures Apart(CHANNEL_PREFIX + "/", PAYMENT_PREFIX + "/")
    ensures Apart(CHANNEL_PREFIX + "/", LOCK_PREFIX + "/")
    ensures Apart(PAYMENT_PREFIX + "/", LOCK_PREFIX + "/")
  {
    var c, p, l := CHANNEL_PREFIX + "/", PAYMENT_PREFIX + "/", LOCK_PREFIX + "/";
    assert c[8] == '-' && p[8] == '/' && l[8] == '-';
    assert c[17] == 's' && l[17] == 'l';
  }

  // ----------------------------------------------------------- memory storage

  /** The in-memory storage; its mutex makes every method one atomic step. */
  class MemoryStorage {
    var data: map<string, string>

    constructor ()
      ensures data == map[]
    {
      data := map[];
    }

    method Put(key: string, value: string)
      modifies this
      ensures data == Apply(old(data), PutOp(key, value))
    {
      data := data[key := value];
    }

    method Get(key: string) returns (value: string, ok: bool)
      ensures ok <==> key in data
      ensures value == if ok then data[key] else ""
    {
      ok := key in data;
      value := if ok then data[key] else "";
    }

    /** The values whose keys have the prefix, each once, in the order of the map iteration. */
    method GetByKeyPrefix(prefix: string) returns (values: seq<string>, ghost keys: seq<string>)
      ensures Enumerates(View(data, prefix), keys, values)
    {
      values, keys := [], [];
      var rest := data.Keys;
      while rest != {}
        invariant rest <= data.Keys
        invariant |keys| == |values|
        invariant forall k | prefix + k in data :: prefix + k in rest || k in keys
        invariant forall i | 0 <= i < |keys| :: prefix + keys[i] in data && data[prefix + keys[i]] == values[i]
        invariant forall i | 0 <= i < |keys| :: prefix + keys[i] !in rest
        invariant forall i, j | 0 <= i < j < |keys| :: keys[i] != keys[j]
        decreases |rest|
      {
        var key :| key in rest;
        rest := rest - {key};
        if prefix <= key {
          assert key == prefix + key[|prefix|..];
          values := values + [data[key]];
          keys := keys + [key[|prefix|..]];
        }
      }
      forall k ensures k in View(data, prefix) <==> prefix + k in data
               ensures k in View(data, prefix) ==> View(data, prefix)[k] == data[prefix + k] {
        ViewAt(data, prefix, k);
      }
    }

    method PutIfAbsent(key: string, value: string) returns (ok: bool)
      modifies this
      ensures ok <==> Succeeds(old(data), PutIfAbsentOp(key, value))
      ensures data == Apply(old(data), PutIfAbsentOp(key, value))
    {
      var current, present := Get(key);
      if present {
        return false;
      }
      Put(key, value);
      return true;
    }

    method CompareAndSwap(key: string, prevValue: string, newValue: string) returns (ok: bool)
      modifies this
      ensures ok <==> Succeeds(old(data), CompareAndSwapOp(key, prevValue, newValue))
      ensures data == Apply(old(data), CompareAndSwapOp(key, prevValue, newValue))
    {
      var current, present := Get(key);
      if !present || current != prevValue {
        return false;
      }
      Put(key, newValue);
      return true;
    }

    method Delete(key: string)
      modifies this
      ensures data == Apply(old(data), DeleteOp(key))
    {
      data := data - {key};
    }

    method Clear()
      modifies this
      ensures data == map[]
    {
      data := map[];
    }
  }

  // ------------------------------------------------------------- typed storage

  /** How one namespace turns its keys and values into strings and values back. */
  datatype Codec<!K, !V> = Codec(keyOf: K -> string, encode: V -> string, decode: string -> Option<V>)

  /** Distinct keys have distinct forms and a value read back is the value written. */
  ghost predicate Faithful<K(!new), V(!new)>(codec: Codec<K, V>) {
    && (forall k, l :: codec.keyOf(k) == codec.keyOf(l) ==> k == l)
    && (forall v :: codec.decode(codec.encode(v)) == Some(v))
  }

  /** The strings of a view stand for the typed map m. */
  ghost predicate Represents<K(!new), V>(view: map<string, string>, codec: Codec<K, V>, m: map<K, V>) {
    && (forall k :: k in m <==> codec.keyOf(k) in view)
    && (forall k | k in m :: view[codec.keyOf(k)] == codec.encode(m[k]))
    && (forall f | f in view :: exists k :: k in m && codec.keyOf(k) == f)
  }

  function Encoded<K, V>(codec: Codec<K, V>, op: StoreOp<K, V>): StoreOp<string, string> {
    match op
    case PutOp(key, value) => PutOp(codec.keyOf(key), codec.encode(value))
    case PutIfAbsentOp(key, value) => PutIfAbsentOp(codec.keyOf(key), codec.encode(value))
    case CompareAndSwapOp(key, prev, next) => CompareAndSwapOp(codec.keyOf(key), codec.encode(prev), codec.encode(next))
    case DeleteOp(key) => DeleteOp(codec.keyOf(key))
  }

  /** A typed operation, done on the strings, is the operation on the typed map. */
  lemma TypedOperation<K(!new), V(!new)>(view: map<string, string>, codec: Codec<K, V>, m: map<K, V>, op: StoreOp<K, V>)
    requires Faithful(codec) && Represents(view, codec, m)
    ensures Succeeds(view, Encoded(codec, op)) <==> Succeeds(m, op)
    ensures Represents(Apply(view, Encoded(codec, op)), codec, Apply(m, op))
  {
    if op.CompareAndSwapOp? && op.key in m {
      assert codec.decode(codec.encode(m[op.key])) == Some(m[op.key]);
      assert codec.decode(codec.encode(op.prev)) == Some(op.prev);
    }
    var view', m' := Apply(view, Encoded(codec, op)), Apply(m, op);
    forall f | f in view' ensures exists k :: k in m' && codec.keyOf(k) == f {
      if f == codec.keyOf(op.key) {
        assert op.key in m';
      } else {
        var k :| k in m && codec.keyOf(k) == f;
        assert k in m';
      }
    }
  }

  /** The typed keys behind a list of the strings of a view. */
  lemma TypedKeys<K(!new), V(!new)>(view: map<string, string>, codec: Codec<K, V>, m: map<K, V>, strings: seq<string>, values: seq<string>)
    returns (keys: seq<K>, decoded: seq<Option<V>>)
    requires Faithful(codec) && Represents(view, codec, m) && Enumerates(view, strings, values)
    ensures |keys| == |decoded| == |values|
    ensures forall i | 0 <= i < |keys| :: keys[i] in m && codec.decode(values[i]) == decoded[i] == Some(m[keys[i]])
    ensures forall k | k in m :: k in keys
    ensures forall i, j | 0 <= i < j < |keys| :: keys[i] != keys[j]
  {
    keys, decoded := [], [];
    for i := 0 to |strings|
      invariant |keys| == |decoded| == i
      invariant forall j | 0 <= j < i :: keys[j] in m && codec.keyOf(keys[j]) == strings[j] && decoded[j] == Some(m[keys[j]])
    {
      assert strings[i] in view;
      var k :| k in m && codec.keyOf(k) == strings[i];
      keys, decoded := keys + [k], decoded + [Some(m[k])];
    }
    forall k | k in m ensures k in keys {
      assert codec.keyOf(k) in view;
      var i :| 0 <= i < |strings| && strings[i] == codec.keyOf(k);
      assert codec.keyOf(keys[i]) == codec.keyOf(k);
    }
  }

  /** Adds a prefix and a slash to every key. */
  class PrefixedAtomicStorage {
    const delegate: MemoryStorage
    const keyPrefix: string

    constructor (delegate: MemoryStorage, keyPrefix: string)
      ensures this.delegate == delegate && this.keyPrefix == keyPrefix
    {
      this.delegate, this.keyPrefix := delegate, keyPrefix;
    }

    function Space(): string {
      keyPrefix + "/"
    }

    ghost function Contents(): map<string, string>
      reads delegate
    {
      View(delegate.data, Space())
    }

    method Get(key: string) returns (value: string, ok: bool)
      ensures ok <==> key in Contents()
      ensures ok ==> value == Contents()[key]
    {
      ViewAt(delegate.data, Space(), key);
      value, ok := delegate.Get(Space() + key);
    }

    method GetByKeyPrefix(prefix: string) returns (values: seq<string>, ghost keys: seq<string>)
      ensures Enumerates(View(delegate.data, Space() + prefix), keys, values)
    {
      values, keys := delegate.GetByKeyPrefix(Space() + prefix);
    }

    method Put(key: string, value: string)
      modifies delegate
      ensures Contents() == Apply(old(Contents()), PutOp(key, value))
      ensures delegate.data == Apply(old(delegate.data), Under(Space(), PutOp(key, value)))
    {
      OwnView(delegate.data, Space(), PutOp(key, value));
      delegate.Put(Space() + key, value);
    }

    method PutIfAbsent(key: string, value: string) returns (ok: bool)
      modifies delegate
      ensures ok <==> Succeeds(old(Contents()), PutIfAbsentOp(key, value))
      ensures Contents() == Apply(old(Contents()), PutIfAbsentOp(key, value))
      ensures delegate.data == Apply(old(delegate.data), Under(Space(), PutIfAbsentOp(key, value)))
    {
      OwnView(delegate.data, Space(), PutIfAbsentOp(key, value));
      ok := delegate.PutIfAbsent(Space() + key, value);
    }

    method CompareAndSwap(key: string, prevValue: string, newValue: string) returns (ok: bool)
      modifies delegate
      ensures ok <==> Succeeds(old(Contents()), CompareAndSwapOp(key, prevValue, newValue))
      ensures Contents() == Apply(old(Contents()), CompareAndSwapOp(key, prevValue, newValue))
      ensures delegate.data == Apply(old(delegate.data), Under(Space(), CompareAndSwapOp(key, prevValue, newValue)))
    {
      OwnView(delegate.data, Space(), CompareAndSwapOp(key, prevValue, newValue));
      ok := delegate.CompareAndSwap(Space() + key, prevValue, newValue);
    }

    method Delete(key: string)
      modifies delegate
      ensures Contents() == Apply(old(Contents()), DeleteOp(key))
      ensures delegate.data == Apply(old(delegate.data), Under(Space(), DeleteOp(key)))
    {
      OwnView(delegate.data, Space(), DeleteOp(key));
      delegate.Delete(Space() + key);
    }
  }

  /**
    Serialises keys and values. contents is the typed map the strings stand for; writes
    through storages apart from this one leave it as it is (OtherView).
   */
  class TypedAtomicStorage<K(!new), V(!new)> {
    const atomicStorage: PrefixedAtomicStorage
    const codec: Codec<K, V>
    ghost var contents: map<K, V>

    constructor (atomicStorage: PrefixedAtomicStorage, codec: Codec<K, V>)
      requires Faithful(codec) && atomicStorage.Contents() == map[]
      ensures Valid() && contents == map[] && this.atomicStorage == atomicStorage && this.codec == codec
    {
      this.atomicStorage, this.codec, contents := atomicStorage, codec, map[];
    }

    ghost predicate Valid()
      reads this, atomicStorage.delegate
    {
      Faithful(codec) && Represents(atomicStorage.Contents(), codec, contents)
    }

    /** The storage below has changed by this operation, serialised and under the prefix, and by nothing else. */
    twostate predicate Wrote(op: StoreOp<K, V>)
      reads atomicStorage.delegate
    {
      atomicStorage.delegate.data == Apply(old(atomicStorage.delegate.data), Under(atomicStorage.Space(), Encoded(codec, op)))
    }

    method Get(key: K) returns (value: Option<V>, err: bool)
      requires Valid()
      ensures !err && value == if key in contents then Some(contents[key]) else None
    {
      var valueString, ok := atomicStorage.Get(codec.keyOf(key));
      if !ok {
        return None, false;
      }
      value := codec.decode(valueString);
      err := value.None?;
    }

    /** Every value of this namespace once, and nothing from another one. */
    method GetAll() returns (values: seq<V>, err: bool, ghost keys: seq<K>)
      requires Valid()
      ensures !err && Enumerates(contents, keys, values)
    {
      var stringValues;
      ghost var stringKeys;
      stringValues, stringKeys := atomicStorage.GetByKeyPrefix("");
      assert atomicStorage.Space() + "" == atomicStorage.Space();
      ghost var decoded;
      keys, decoded := TypedKeys(atomicStorage.Contents(), codec, contents, stringKeys, stringValues);
      values, err := DecodeAll(stringValues, decoded);
    }

    method DecodeAll(stringValues: seq<string>, ghost decoded: seq<Option<V>>) returns (values: seq<V>, err: bool)
      requires |decoded| == |stringValues|
      requires forall i | 0 <= i < |decoded| :: codec.decode(stringValues[i]) == decoded[i]
      ensures err <==> None in decoded
      ensures !err ==> |values| == |decoded| && forall i | 0 <= i < |values| :: decoded[i] == Some(values[i])
    {
      values, err := [], false;
      for i := 0 to |stringValues|
        invariant |values| == i
        invariant forall j | 0 <= j < i :: decoded[j] == Some(values[j])
      {
        var value := codec.decode(stringValues[i]);
        if value.None? {
          assert decoded[i] == None;
          return [], true;
        }
        values := values + [value.value];
      }
    }

    method Put(key: K, value: V)
      requires Valid()
      modifies this`contents, atomicStorage.delegate
      ensures Valid() && contents == Apply(old(contents), PutOp(key, value))
      ensures Wrote(PutOp(key, value))
    {
      TypedOperation(atomicStorage.Contents(), codec, contents, PutOp(key, value));
      atomicStorage.Put(codec.keyOf(key), codec.encode(value));
      contents := contents[key := value];
    }

    method PutIfAbsent(key: K, value: V) returns (ok: bool)
      requires Valid()
      modifies this`contents, atomicStorage.delegate
      ensures Valid() && contents == Apply(old(contents), PutIfAbsentOp(key, value))
      ensures Wrote(PutIfAbsentOp(key, value))
      ensures ok <==> key !in old(contents)
    {
      TypedOperation(atomicStorage.Contents(), codec, contents, PutIfAbsentOp(key, value));
      contents := Apply(contents, PutIfAbsentOp(key, value));
      ok := atomicStorage.PutIfAbsent(codec.keyOf(key), codec.encode(value));
    }

    method CompareAndSwap(key: K, prevValue: V, newValue: V) returns (ok: bool)
      requires Valid()
      modifies this`contents, atomicStorage.delegate
      ensures Valid() && contents == Apply(old(contents), CompareAndSwapOp(key, prevValue, newValue))
      ensures Wrote(CompareAndSwapOp(key, prevValue, newValue))
      ensures ok <==> Lookup(old(contents), key) == Some(prevValue)
    {
      TypedOperation(atomicStorage.Contents(), codec, contents, CompareAndSwapOp(key, prevValue, newValue));
      contents := Apply(contents, CompareAndSwapOp(key, prevValue, newValue));
      ok := atomicStorage.CompareAndSwap(codec.keyOf(key), codec.encode(prevValue), codec.encode(newValue));
    }

    method Delete(key: K)
      requires Valid()
      modifies this`contents, atomicStorage.delegate
      ensures Valid() && contents == Apply(old(contents), DeleteOp(key))
      ensures Wrote(DeleteOp(key))
    {
      TypedOperation(atomicStorage.Contents(), codec, contents, DeleteOp(key));
      atomicStorage.Delete(codec.keyOf(key));
      contents := contents - {key};
    }
  }
}
