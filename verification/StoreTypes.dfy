/** Keys, values, errors and iterators shared by the two stores (internal/store/store.go). */
module StoreTypes {
  import opened Common

  type Key = string
  type Value = seq<byte>

  datatype Error =
    | ValueUnset(requestedValue: Key)
    | NoTransaction                       // the transaction is no longer ongoing
    | OutOfRange(idx: nat, length: nat)
    | Backend                             // the etcd client failed

  type StoreResult<+T> = Result<T, Error>

  predicate HasPrefix(key: Key, prefix: Key) { prefix <= key }

  /** The value of a key, or the error for an unset one. */
  function Lookup(m: map<Key, Value>, key: Key): StoreResult<Value> {
    if key in m then Ok(m[key]) else Err(ValueUnset(key))
  }

  /** A fresh byte buffer with the given content. */
  method NewBuffer(v: Value) returns (a: array<byte>)
    ensures fresh(a) && a[..] == v
  {
    a := new byte[|v|](i requires 0 <= i < |v| => v[i]);
  }

  /** StdIterator and EtcdIterator: a cursor over a list of keys fixed at creation. */
  class KeyIterator {
    var idx: nat
    const keys: seq<Key>

    ghost predicate Valid()
      reads this
    {
      idx <= |keys|
    }

    ghost function Remaining(): seq<Key>
      reads this
      requires Valid()
    {
      keys[idx..]
    }

    constructor (keys: seq<Key>)
      ensures Valid() && this.keys == keys && Remaining() == keys
    {
      this.idx, this.keys := 0, keys;
    }

    method HasNext() returns (more: bool)
      requires Valid()
      ensures more <==> Remaining() != []
    {
      more := idx < |keys|;
    }

    method GetNext() returns (r: StoreResult<Key>)
      requires Valid()
      modifies this`idx
      ensures Valid()
      ensures old(Remaining()) == [] ==> r == Err(OutOfRange(|keys|, |keys|)) && Remaining() == []
      ensures old(Remaining()) != [] ==> r == Ok(old(Remaining())[0]) && Remaining() == old(Remaining())[1..]
                                           && idx == old(idx) + 1
    {
      if idx >= |keys| {
        return Err(OutOfRange(idx, |keys|));
      }
      r := Ok(keys[idx]);
      idx := idx + 1;
    }

    /** The loop every caller writes: it terminates and yields the remaining keys in order. */
    method Drain() returns (out: seq<Key>)
      requires Valid()
      modifies this`idx
      ensures out == old(Remaining())
      ensures Valid() && Remaining() == []
    {
      out := [];
      ghost var start := idx;
      var more := HasNext();
      while more
        invariant start <= idx <= |keys| && out == keys[start..idx]
        invariant more <==> idx < |keys|
        decreases |keys| - idx
      {
        ghost var i := idx;
        var r := GetNext();
        SliceSnoc(keys, start, i);
        out := out + [r.value];
        more := HasNext();
      }
    }
  }

  lemma SliceSnoc<T>(s: seq<T>, start: nat, i: nat)
    requires start <= i < |s|
    ensures s[start..i + 1] == s[start..i] + [s[i]] && s[i..][0] == s[i]
  {}

  function WithPrefix(keys: set<Key>, prefix: Key): set<Key> {
    set k | k in keys && HasPrefix(k, prefix)
  }

  lemma OneMoreKey(keys: set<Key>, k: Key, prefix: Key)
    requires k !in keys
    ensures multiset(WithPrefix(keys + {k}, prefix))
            == multiset(WithPrefix(keys, prefix)) + if HasPrefix(k, prefix) then multiset{k} else multiset{}
  {
    assert WithPrefix(keys + {k}, prefix) == WithPrefix(keys, prefix) + if HasPrefix(k, prefix) then {k} else {};
  }

  /** The given keys that have the prefix, in whatever order Go's map iteration produces. */
  method CollectKeys(candidates: set<Key>, prefix: Key) returns (keys: seq<Key>)
    ensures multiset(keys) == multiset(WithPrefix(candidates, prefix))
  {
    keys := [];
    var todo := candidates;
    ghost var seen: set<Key> := {};
    while todo != {}
      invariant todo + seen == candidates && todo !! seen
      invariant multiset(keys) == multiset(WithPrefix(seen, prefix))
      decreases |todo|
    {
      var k :| k in todo;
      OneMoreKey(seen, k, prefix);
      if HasPrefix(k, prefix) {
        keys := keys + [k];
      }
      todo, seen := todo - {k}, seen + {k};
    }
    assert seen == candidates;
  }
}
