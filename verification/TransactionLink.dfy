/** The two transaction classes driven side by side by one caller, slice by slice: what they do and answer is
    what OverlayRefinement says of its states, event by event. */
module TransactionLink {
  import opened Common
  import opened StoreTypes
  import Std = StdStore
  import Etcd = EtcdStore
  import R = OverlayRefinement

  /** The caller's slices, in the order of the model's heap. */
  ghost predicate HeapLinked(heap: seq<Value>, slices: seq<array<byte>>)
    reads slices
  {
    && |slices| == |heap|
    && (forall i :: 0 <= i < |slices| ==> slices[i][..] == heap[i])
    && (forall i, j :: 0 <= i < j < |slices| ==> slices[i] != slices[j])
  }

  /** The in-memory transaction's map, the etcd transaction's two buffers and the store are those of s. */
  predicate TxLinked(entries: map<Key, Value>, inserts: map<Key, array<byte>>, deletes: set<Key>, region: map<Key, Value>,
                     s: R.State, slices: seq<array<byte>>)
  {
    && R.Sound(s) && |slices| == |s.heap|
    && entries == s.copy && deletes == s.del && region == s.base
    && inserts.Keys == s.ins.Keys && (forall k :: k in s.ins ==> inserts[k] == slices[s.ins[k]])
  }

  ghost predicate Linked(std: Std.Transaction, etcd: Etcd.Transaction, s: R.State, slices: seq<array<byte>>)
    reads std, std.data, etcd, etcd.store.client, slices
  {
    && HeapLinked(s.heap, slices) && etcd.ongoing
    && TxLinked(std.data.entries, etcd.dataInsert, etcd.dataDelete, Etcd.Region(etcd.store.client.kv), s, slices)
  }

  lemma BuffersLinked(std: Std.Transaction, etcd: Etcd.Transaction, s: R.State, slices: seq<array<byte>>)
    requires Linked(std, etcd, s, slices)
    ensures etcd.Buffer() == R.Now(s)
  {
    assert etcd.Buffer().ins.Keys == R.Now(s).ins.Keys;
    assert forall k :: k in s.ins ==> etcd.Buffer().ins[k] == R.Now(s).ins[k];
  }

  lemma PutLinked(entries: map<Key, Value>, inserts: map<Key, array<byte>>, deletes: set<Key>, region: map<Key, Value>,
                  s: R.State, slices: seq<array<byte>>, k: Key, a: nat)
    requires TxLinked(entries, inserts, deletes, region, s, slices) && a < |slices|
    ensures TxLinked(Std.StdStep(entries, Std.TxPut(k, s.heap[a])), inserts[k := slices[a]], deletes, region,
                     R.Apply(s, R.Put(k, a)), slices)
  {
    R.StepSound(s, R.Put(k, a));
  }

  lemma DeleteLinked(entries: map<Key, Value>, inserts: map<Key, array<byte>>, deletes: set<Key>, region: map<Key, Value>,
                     s: R.State, slices: seq<array<byte>>, k: Key)
    requires TxLinked(entries, inserts, deletes, region, s, slices)
    ensures TxLinked(Std.StdStep(entries, Std.TxDelete(k)), inserts - {k}, deletes + {k}, region,
                     R.Apply(s, R.Delete(k)), slices)
  {
    R.StepSound(s, R.Delete(k));
  }

  /** More slices, and nothing else. */
  lemma SlicesLinked(entries: map<Key, Value>, inserts: map<Key, array<byte>>, deletes: set<Key>, region: map<Key, Value>,
                     s: R.State, s': R.State, slices: seq<array<byte>>, more: seq<array<byte>>)
    requires TxLinked(entries, inserts, deletes, region, s, slices)
    requires s' == s.(heap := s'.heap) && |s'.heap| == |slices| + |more|
    ensures TxLinked(entries, inserts, deletes, region, s', slices + more)
  {}

  method Make(std: Std.Transaction, etcd: Etcd.Transaction, ghost s: R.State, slices: seq<array<byte>>, bytes: Value)
    returns (slices': seq<array<byte>>)
    requires Linked(std, etcd, s, slices)
    ensures Linked(std, etcd, R.Apply(s, R.Make(bytes)), slices')
    ensures forall i :: 0 <= i < |slices'| ==> slices'[i] in slices || fresh(slices'[i])
  {
    var buffer := NewBuffer(bytes);
    slices' := slices + [buffer];
    SlicesLinked(std.data.entries, etcd.dataInsert, etcd.dataDelete, Etcd.Region(etcd.store.client.kv),
                 s, R.Apply(s, R.Make(bytes)), slices, [buffer]);
  }

  method Overwrite(std: Std.Transaction, etcd: Etcd.Transaction, ghost s: R.State, slices: seq<array<byte>>,
                   a: nat, bytes: Value)
    requires Linked(std, etcd, s, slices) && a < |slices| && |bytes| == slices[a].Length
    modifies slices[a]
    ensures Linked(std, etcd, R.Apply(s, R.Overwrite(a, bytes)), slices)
  {
    var buffer := slices[a];
    forall i | 0 <= i < buffer.Length { buffer[i] := bytes[i]; }
    assert buffer[..] == bytes;
    forall i | 0 <= i < |slices| && i != a ensures slices[i][..] == s.heap[i] {
      assert slices[i] != slices[a];
    }
    SlicesLinked(std.data.entries, etcd.dataInsert, etcd.dataDelete, Etcd.Region(etcd.store.client.kv),
                 s, R.Apply(s, R.Overwrite(a, bytes)), slices, []);
    assert slices + [] == slices;
  }

  method Put(std: Std.Transaction, etcd: Etcd.Transaction, ghost s: R.State, slices: seq<array<byte>>, key: Key, a: nat)
    requires Linked(std, etcd, s, slices) && a < |slices|
    modifies std.data, etcd`dataInsert
    ensures Linked(std, etcd, R.Apply(s, R.Put(key, a)), slices)
  {
    ghost var region := Etcd.Region(etcd.store.client.kv);
    PutLinked(std.data.entries, etcd.dataInsert, etcd.dataDelete, region, s, slices, key, a);
    std.Put(key, slices[a]);
    var put := etcd.Put(key, slices[a]);
  }

  method Delete(std: Std.Transaction, etcd: Etcd.Transaction, ghost s: R.State, slices: seq<array<byte>>, key: Key)
    requires Linked(std, etcd, s, slices)
    modifies std.data, etcd`dataInsert, etcd`dataDelete
    ensures Linked(std, etcd, R.Apply(s, R.Delete(key)), slices)
  {
    ghost var entries, inserts, deletes := std.data.entries, etcd.dataInsert, etcd.dataDelete;
    ghost var s' := R.Apply(s, R.Delete(key));
    DeleteLinked(entries, inserts, deletes, s.base, s, slices, key);
    DeleteBoth(std, etcd, key);
    assert HeapLinked(s'.heap, slices);
    assert TxLinked(std.data.entries, etcd.dataInsert, etcd.dataDelete, s.base, s', slices);
    assert Etcd.Region(etcd.store.client.kv) == s.base;
  }

  method DeleteBoth(std: Std.Transaction, etcd: Etcd.Transaction, key: Key)
    requires etcd.ongoing
    modifies std.data, etcd`dataInsert, etcd`dataDelete
    ensures std.data.entries == Std.StdStep(old(std.data.entries), Std.TxDelete(key))
    ensures etcd.dataInsert == old(etcd.dataInsert) - {key} && etcd.dataDelete == old(etcd.dataDelete) + {key}
  {
    std.Delete(key);
    var deleted := etcd.Delete(key);
  }

  /** Both transactions look the key up: the in-memory one answers with a fresh slice, the etcd one with a
      fresh slice unless it has the key buffered. */
  method Get(std: Std.Transaction, etcd: Etcd.Transaction, ghost s: R.State, slices: seq<array<byte>>, key: Key)
    returns (slices': seq<array<byte>>, pairs: seq<R.Pair>)
    requires Linked(std, etcd, s, slices)
    ensures Linked(std, etcd, R.Apply(s, R.Get(key)), slices')
    ensures pairs == R.Answers(s, R.Get(key))
    ensures forall i :: 0 <= i < |slices'| ==> slices'[i] in slices || fresh(slices'[i])
  {
    BuffersLinked(std, etcd, s, slices);
    var copied, fromStd := GetStd(std, key);
    var fetched, fromEtcd := GetEtcd(etcd, key);
    pairs := [R.Pair(Std.Got(fromStd), Std.Got(fromEtcd))];
    slices' := slices + (copied + fetched);
    GetHeapLinked(s, key, slices, copied, fetched);
    SlicesLinked(std.data.entries, etcd.dataInsert, etcd.dataDelete, Etcd.Region(etcd.store.client.kv),
                 s, R.Apply(s, R.Get(key)), slices, copied + fetched);
  }

  method GetStd(std: Std.Transaction, key: Key) returns (slices: seq<array<byte>>, r: StoreResult<Value>)
    ensures fresh(slices) && r == Lookup(std.data.entries, key)
    ensures if r.Ok? then |slices| == 1 && slices[0][..] == r.value else slices == []
  {
    var got := std.Get(key);
    if got.Ok? {
      return [got.value], Ok(got.value[..]);
    }
    return [], Err(got.error);
  }

  /** The slice is new unless it is the one buffered. */
  method GetEtcd(etcd: Etcd.Transaction, key: Key) returns (slices: seq<array<byte>>, r: StoreResult<Value>)
    requires etcd.ongoing
    ensures fresh(slices) && r == R.EtcdGet(Etcd.Region(etcd.store.client.kv), etcd.Buffer(), key)
    ensures if key !in etcd.dataInsert && r.Ok? then |slices| == 1 && slices[0][..] == r.value else slices == []
  {
    var got := etcd.Get(key, true);
    if got.Err? {
      return [], Err(got.error);
    }
    r := Ok(got.value[..]);
    slices := if key in etcd.dataInsert then [] else [got.value];
  }

  lemma GetHeapLinked(s: R.State, key: Key, slices: seq<array<byte>>, copied: seq<array<byte>>, fetched: seq<array<byte>>)
    requires R.Sound(s) && HeapLinked(s.heap, slices)
    requires if key in s.copy then |copied| == 1 && copied[0][..] == s.copy[key] else copied == []
    requires if key !in s.ins && key !in s.del && key in s.base
             then |fetched| == 1 && fetched[0][..] == s.base[key] else fetched == []
    requires forall x, y :: x in slices && y in copied + fetched ==> x != y
    requires forall x, y :: x in copied && y in fetched ==> x != y
    ensures HeapLinked(R.Apply(s, R.Get(key)).heap, slices + (copied + fetched))
    ensures |R.Apply(s, R.Get(key)).heap| == |slices| + |copied + fetched|
  {
    var heap', slices' := R.Apply(s, R.Get(key)).heap, slices + (copied + fetched);
    forall i | 0 <= i < |slices'| ensures slices'[i][..] == heap'[i] {
      if i >= |slices| {
        assert slices'[i] == (copied + fetched)[i - |slices|];
      }
    }
    forall i, j | 0 <= i < j < |slices'| ensures slices'[i] != slices'[j] {
      if i < |slices| <= j {
        assert slices[i] in slices && (copied + fetched)[j - |slices|] in copied + fetched;
      } else if |slices| <= i {
        assert i == |slices| && j == |slices| + 1 && copied[0] in copied && fetched[0] in fetched;
      }
    }
  }

  method List(std: Std.Transaction, etcd: Etcd.Transaction, ghost s: R.State, slices: seq<array<byte>>, prefix: Key)
    returns (pairs: seq<R.Pair>)
    requires Linked(std, etcd, s, slices)
    ensures pairs == R.Answers(s, R.List(prefix))
  {
    BuffersLinked(std, etcd, s, slices);
    var fromStd := ListStd(std, prefix);
    var fromEtcd := ListEtcd(etcd, prefix);
    pairs := [R.Pair(Std.Listed(fromStd), Std.Listed(fromEtcd))];
  }

  method ListStd(std: Std.Transaction, prefix: Key) returns (keys: multiset<Key>)
    ensures keys == multiset(WithPrefix(std.data.entries.Keys, prefix))
  {
    var it := std.Iterator(prefix);
    keys := multiset(it.keys);
    assert Std.StdAnswer(std.data.entries, Std.TxList(prefix))[0] == Std.Listed(keys);
  }

  method ListEtcd(etcd: Etcd.Transaction, prefix: Key) returns (keys: multiset<Key>)
    ensures keys == Etcd.ListedKeys(Etcd.Region(etcd.store.client.kv), etcd.Buffer(), prefix)
  {
    var r := etcd.Iterator(prefix, true);
    keys := multiset(r.value.keys);
  }

  lemma DirectLinked(entries: map<Key, Value>, inserts: map<Key, array<byte>>, deletes: set<Key>, s: R.State,
                     slices: seq<array<byte>>, e: R.Event)
    requires TxLinked(entries, inserts, deletes, s.base, s, slices) && (e.DirectPut? || e.DirectDelete?)
    ensures TxLinked(entries, inserts, deletes, R.Apply(s, e).base, R.Apply(s, e), slices)
  {
    R.StepSound(s, e);
  }

  method DirectWrite(std: Std.Transaction, etcd: Etcd.Transaction, ghost s: R.State, slices: seq<array<byte>>, e: R.Event)
    requires Linked(std, etcd, s, slices) && (e.DirectPut? || e.DirectDelete?)
    modifies etcd.store.client`kv
    ensures Linked(std, etcd, R.Apply(s, e), slices)
  {
    DirectLinked(std.data.entries, etcd.dataInsert, etcd.dataDelete, s, slices, e);
    if e.DirectPut? {
      WriteStored(etcd.store, e.key, e.value);
    } else {
      var deleted := etcd.store.Delete(e.key, true);
    }
    assert HeapLinked(R.Apply(s, e).heap, slices);
    assert Etcd.Region(etcd.store.client.kv) == R.Apply(s, e).base;
  }

  method WriteStored(store: Etcd.Store, key: Key, value: Value)
    modifies store.client`kv
    ensures Etcd.Region(store.client.kv) == Etcd.Region(old(store.client.kv))[key := value]
  {
    var buffer := NewBuffer(value);
    var put := store.Put(key, buffer, true);
  }

  /** One event: the two transactions, their caller and the store move from the objects of s to those of the
      next state, and give the answers of the model. An overwritten slice keeps its length. */
  method Drive(std: Std.Transaction, etcd: Etcd.Transaction, ghost s: R.State, slices: seq<array<byte>>, e: R.Event)
    returns (slices': seq<array<byte>>, pairs: seq<R.Pair>)
    requires Linked(std, etcd, s, slices) && R.Enabled(s, e)
    requires e.Overwrite? ==> |e.bytes| == slices[e.slice].Length
    modifies std.data, etcd`dataInsert, etcd`dataDelete, etcd.store.client`kv, slices
    ensures Linked(std, etcd, R.Apply(s, e), slices') && pairs == R.Answers(s, e)
    ensures forall i :: 0 <= i < |slices'| ==> slices'[i] in slices || fresh(slices'[i])
  {
    slices', pairs := slices, [];
    match e
    case Make(bytes) => slices' := Make(std, etcd, s, slices, bytes);
    case Overwrite(a, bytes) => Overwrite(std, etcd, s, slices, a, bytes);
    case Put(key, a) => Put(std, etcd, s, slices, key, a);
    case Get(key) => slices', pairs := Get(std, etcd, s, slices, key);
    case Delete(key) => Delete(std, etcd, s, slices, key);
    case List(prefix) => pairs := List(std, etcd, s, slices, prefix);
    case DirectPut(_, _) => DirectWrite(std, etcd, s, slices, e);
    case DirectDelete(_) => DirectWrite(std, etcd, s, slices, e);
  }

  /** A slice is overwritten by as many bytes as it has. */
  predicate KeepsLengths(s: R.State, events: seq<R.Event>)
    requires R.Legal(s, events)
    decreases events
  {
    events == [] ||
    ((events[0].Overwrite? ==> |events[0].bytes| == |s.heap[events[0].slice]|)
     && KeepsLengths(R.Apply(s, events[0]), events[1..]))
  }

  lemma LengthKept(std: Std.Transaction, etcd: Etcd.Transaction, s: R.State, slices: seq<array<byte>>, e: R.Event)
    requires Linked(std, etcd, s, slices) && R.Enabled(s, e) && (e.Overwrite? ==> |e.bytes| == |s.heap[e.slice]|)
    ensures e.Overwrite? ==> |e.bytes| == slices[e.slice].Length
  {
    if e.Overwrite? {
      assert slices[e.slice][..] == s.heap[e.slice];
    }
  }

  /** A whole schedule: the objects end where the model ends, having given its answers. */
  method DriveAll(std: Std.Transaction, etcd: Etcd.Transaction, ghost s: R.State, slices: seq<array<byte>>,
                  events: seq<R.Event>)
    returns (slices': seq<array<byte>>, pairs: seq<R.Pair>)
    requires Linked(std, etcd, s, slices) && R.Legal(s, events) && KeepsLengths(s, events)
    modifies std.data, etcd`dataInsert, etcd`dataDelete, etcd.store.client`kv, slices
    ensures Linked(std, etcd, R.Final(s, events), slices') && pairs == R.AllAnswers(s, events)
    decreases events
  {
    if events == [] {
      return slices, [];
    }
    LengthKept(std, etcd, s, slices, events[0]);
    var held, first := Drive(std, etcd, s, slices, events[0]);
    var rest: seq<R.Pair>;
    slices', rest := DriveAll(std, etcd, R.Apply(s, events[0]), held, events[1..]);
    pairs := first + rest;
  }
}
