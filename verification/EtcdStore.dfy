/** The etcd-backed store (internal/store/etcdstore.go). The cluster is one key-value map with an
    atomic batch operation and a lock; `up` says whether the call a method makes to it succeeds. A
    transaction buffers its writes: an insert map, which keeps the caller's byte slices themselves,
    and a set of deleted keys, over the live map. */
module EtcdStore {
  import opened Common
  import opened StoreTypes

  const ETCD_PREFIX: Key := "delegatioRegion"

  datatype Op = OpPut(key: Key, value: Value) | OpDelete(key: Key)

  function ApplyOp(kv: map<Key, Value>, op: Op): map<Key, Value> {
    match op
    case OpPut(k, v) => kv[k := v]
    case OpDelete(k) => kv - {k}
  }

  function ApplyOps(kv: map<Key, Value>, ops: seq<Op>): map<Key, Value>
    decreases ops
  {
    if ops == [] then kv else ApplyOps(ApplyOp(kv, ops[0]), ops[1..])
  }

  /** The keys stored in the store's region of the cluster, with the region's prefix trimmed. */
  function StoredKeys(kv: map<Key, Value>): (keys: set<Key>)
    ensures forall k :: k in keys <==> ETCD_PREFIX + k in kv
  {
    var keys := set f | f in kv && HasPrefix(f, ETCD_PREFIX) :: f[|ETCD_PREFIX|..];
    assert forall k: Key :: HasPrefix(ETCD_PREFIX + k, ETCD_PREFIX) && (ETCD_PREFIX + k)[|ETCD_PREFIX|..] == k;
    assert forall f :: f in kv && HasPrefix(f, ETCD_PREFIX) ==> ETCD_PREFIX + f[|ETCD_PREFIX|..] == f;
    keys
  }

  /** The part of the cluster the store owns, with its prefix removed. */
  ghost function Region(kv: map<Key, Value>): map<Key, Value> {
    map k | k in StoredKeys(kv) :: kv[ETCD_PREFIX + k]
  }

  lemma RegionAt(kv: map<Key, Value>, k: Key)
    ensures k in Region(kv) <==> ETCD_PREFIX + k in kv
    ensures k in Region(kv) ==> Region(kv)[k] == kv[ETCD_PREFIX + k]
  {}

  /** Equality of regions, key by key. */
  lemma RegionIs(kv: map<Key, Value>, m: map<Key, Value>)
    requires forall k :: (k in m <==> ETCD_PREFIX + k in kv) && (k in m ==> m[k] == kv[ETCD_PREFIX + k])
    ensures Region(kv) == m
  {
    forall k: Key ensures (k in Region(kv) <==> k in m) && (k in m ==> Region(kv)[k] == m[k]) {
      RegionAt(kv, k);
      assert k in m <==> ETCD_PREFIX + k in kv;
    }
  }

  /** The same keys and values outside the store's region. */
  ghost predicate SameOutside(kv: map<Key, Value>, kv': map<Key, Value>) {
    forall f :: !HasPrefix(f, ETCD_PREFIX) ==> (f in kv <==> f in kv') && (f in kv && f in kv' ==> kv[f] == kv'[f])
  }

  // ---------------------------------------------------------------------------
  // Buffered writes
  // ---------------------------------------------------------------------------

  datatype Buffered = Buffered(ins: map<Key, Value>, del: set<Key>)

  /** What a transaction sees: the base without the deleted keys, overlaid by the inserts. */
  function Overlay(base: map<Key, Value>, b: Buffered): map<Key, Value> {
    (base - b.del) + b.ins
  }

  function BufferPut(b: Buffered, k: Key, v: Value): Buffered {
    Buffered(b.ins[k := v], b.del)
  }

  function BufferDelete(b: Buffered, k: Key): Buffered {
    Buffered(b.ins - {k}, b.del + {k})
  }

  /** The keys a commit will write. */
  function Touched(b: Buffered): set<Key> { b.ins.Keys + b.del }

  predicate DistinctKeys(ops: seq<Op>) {
    forall i, j :: 0 <= i < j < |ops| ==> ops[i].key != ops[j].key
  }

  predicate WantedOp(b: Buffered, op: Op) {
    && HasPrefix(op.key, ETCD_PREFIX)
    && var k := op.key[|ETCD_PREFIX|..];
       match op
       case OpPut(_, v) => k in b.ins && b.ins[k] == v
       case OpDelete(_) => k in b.del && k !in b.ins
  }

  /** `ops` lists, in some order and without repeating a key, a put for every buffered insert and a
      delete for every buffered delete that was not overwritten. */
  ghost predicate IsBatch(b: Buffered, ops: seq<Op>) {
    && DistinctKeys(ops)
    && (forall i :: 0 <= i < |ops| ==> WantedOp(b, ops[i]))
    && (forall k :: k in b.ins ==> OpPut(ETCD_PREFIX + k, b.ins[k]) in ops)
    && (forall k :: k in b.del && k !in b.ins ==> OpDelete(ETCD_PREFIX + k) in ops)
  }

  /** The puts, and the deletes, of a batch in the order the keys were visited. */
  function Puts(ins: map<Key, Value>, order: seq<Key>): (ops: seq<Op>)
    requires forall i :: 0 <= i < |order| ==> order[i] in ins
  {
    seq(|order|, i requires 0 <= i < |order| => OpPut(ETCD_PREFIX + order[i], ins[order[i]]))
  }

  function Deletes(order: seq<Key>): (ops: seq<Op>) {
    seq(|order|, i requires 0 <= i < |order| => OpDelete(ETCD_PREFIX + order[i]))
  }

  ghost predicate Lists(order: seq<Key>, keys: set<Key>) {
    && (forall k :: k in order <==> k in keys)
    && (forall i, j :: 0 <= i < j < |order| ==> order[i] != order[j])
  }

  /** Ranging over a Go map: its keys once each, in some order. */
  method Enumerate(keys: set<Key>) returns (order: seq<Key>)
    ensures Lists(order, keys)
  {
    order := [];
    var todo := keys;
    while todo != {}
      invariant todo <= keys
      invariant forall k :: k in order <==> k in keys && k !in todo
      invariant forall i, j :: 0 <= i < j < |order| ==> order[i] != order[j]
      decreases |todo|
    {
      var k :| k in todo;
      order, todo := order + [k], todo - {k};
    }
  }

  /** `kept` are the keys of `order` outside `without`, once each. */
  ghost predicate Kept(order: seq<Key>, without: set<Key>, kept: seq<Key>) {
    && (forall k :: k in kept <==> k in order && k !in without)
    && (forall i, j :: 0 <= i < j < |kept| ==> kept[i] != kept[j])
  }

  lemma KeptOneMore(order: seq<Key>, without: set<Key>, kept: seq<Key>, i: nat)
    requires i < |order| && Kept(order[..i], without, kept)
    requires forall j, k :: 0 <= j < k < |order| ==> order[j] != order[k]
    ensures Kept(order[..i + 1], without, if order[i] in without then kept else kept + [order[i]])
  {
    assert order[..i + 1] == order[..i] + [order[i]];
    assert order[i] !in order[..i];
  }

  lemma KeptAll(order: seq<Key>, keys: set<Key>, without: set<Key>, kept: seq<Key>)
    requires Lists(order, keys) && Kept(order, without, kept)
    ensures Lists(kept, keys - without)
  {}

  lemma DeletesSnoc(order: seq<Key>, k: Key)
    ensures Deletes(order + [k]) == Deletes(order) + [OpDelete(ETCD_PREFIX + k)]
  {}

  /** Whatever the orders, the puts followed by the deletes of keys that are not inserted are a batch. */
  lemma OrdersMakeBatch(b: Buffered, puts: seq<Key>, deletes: seq<Key>)
    requires Lists(puts, b.ins.Keys) && Lists(deletes, b.del - b.ins.Keys)
    ensures IsBatch(b, Puts(b.ins, puts) + Deletes(deletes))
  {
    var ps, ds := Puts(b.ins, puts), Deletes(deletes);
    var ops := ps + ds;
    forall i | 0 <= i < |ops| ensures WantedOp(b, ops[i]) && ops[i].key[|ETCD_PREFIX|..] == KeyAt(puts, deletes, i) {
      WantedAt(b, puts, deletes, i);
    }
    forall i, j | 0 <= i < j < |ops| ensures ops[i].key != ops[j].key {
      assert ops[i].key[|ETCD_PREFIX|..] == KeyAt(puts, deletes, i);
      assert ops[j].key[|ETCD_PREFIX|..] == KeyAt(puts, deletes, j);
      KeysDiffer(b, puts, deletes, i, j);
    }
    forall k | k in b.ins ensures OpPut(ETCD_PREFIX + k, b.ins[k]) in ops {
      assert k in puts;
      var i :| 0 <= i < |puts| && puts[i] == k;
      assert ops[i] == OpPut(ETCD_PREFIX + k, b.ins[k]);
    }
    forall k | k in b.del && k !in b.ins ensures OpDelete(ETCD_PREFIX + k) in ops {
      assert k in b.del - b.ins.Keys && k in deletes;
      var i :| 0 <= i < |deletes| && deletes[i] == k;
      assert ops[|ps| + i] == OpDelete(ETCD_PREFIX + k);
    }
  }

  function KeyAt(puts: seq<Key>, deletes: seq<Key>, i: nat): Key
    requires i < |puts| + |deletes|
  {
    if i < |puts| then puts[i] else deletes[i - |puts|]
  }

  lemma WantedAt(b: Buffered, puts: seq<Key>, deletes: seq<Key>, i: nat)
    requires Lists(puts, b.ins.Keys) && Lists(deletes, b.del - b.ins.Keys) && i < |puts| + |deletes|
    ensures var op := (Puts(b.ins, puts) + Deletes(deletes))[i];
            WantedOp(b, op) && op.key[|ETCD_PREFIX|..] == KeyAt(puts, deletes, i)
  {
    var k := KeyAt(puts, deletes, i);
    assert (ETCD_PREFIX + k)[|ETCD_PREFIX|..] == k;
    if i < |puts| {
      assert k in puts;
    } else {
      assert k in deletes;
    }
  }

  lemma KeysDiffer(b: Buffered, puts: seq<Key>, deletes: seq<Key>, i: nat, j: nat)
    requires Lists(puts, b.ins.Keys) && Lists(deletes, b.del - b.ins.Keys) && i < j < |puts| + |deletes|
    ensures KeyAt(puts, deletes, i) != KeyAt(puts, deletes, j)
  {
    if i < |puts| <= j {
      assert puts[i] in puts && deletes[j - |puts|] in deletes;
    }
  }

  /** The value left at one key by a list of operations that mentions it at most once. */
  lemma {:induction false} ApplyOpsAt(kv: map<Key, Value>, ops: seq<Op>, f: Key)
    requires DistinctKeys(ops)
    decreases ops
    ensures var kv' := ApplyOps(kv, ops);
            && (forall i :: 0 <= i < |ops| && ops[i].key == f ==>
                  match ops[i] case OpPut(_, v) => f in kv' && kv'[f] == v case OpDelete(_) => f !in kv')
            && ((forall i :: 0 <= i < |ops| ==> ops[i].key != f) ==>
                  (f in kv' <==> f in kv) && (f in kv ==> kv'[f] == kv[f]))
  {
    if ops != [] {
      ApplyOpsAt(ApplyOp(kv, ops[0]), ops[1..], f);
      var kv' := ApplyOps(kv, ops);
      forall i | 0 <= i < |ops| && ops[i].key == f
        ensures match ops[i] case OpPut(_, v) => f in kv' && kv'[f] == v case OpDelete(_) => f !in kv'
      {
        if i > 0 {
          assert ops[1..][i - 1] == ops[i];
        } else {
          assert forall j :: 0 <= j < |ops[1..]| ==> ops[1..][j] == ops[j + 1];
        }
      }
      if forall i :: 0 <= i < |ops| ==> ops[i].key != f {
        assert forall j :: 0 <= j < |ops[1..]| ==> ops[1..][j] == ops[j + 1];
      }
    }
  }

  lemma BatchAt(kv: map<Key, Value>, b: Buffered, ops: seq<Op>, k: Key)
    requires IsBatch(b, ops)
    ensures var f, kv', seen := ETCD_PREFIX + k, ApplyOps(kv, ops), Overlay(Region(kv), b);
            (k in seen <==> f in kv') && (k in seen ==> seen[k] == kv'[f])
  {
    var f := ETCD_PREFIX + k;
    assert f[|ETCD_PREFIX|..] == k;
    ApplyOpsAt(kv, ops, f);
    RegionAt(kv, k);
    if k in b.ins {
      var op := OpPut(f, b.ins[k]);
      assert op in ops;
    } else if k in b.del {
      var op := OpDelete(f);
      assert op in ops;
    } else {
      forall i | 0 <= i < |ops| ensures ops[i].key != f {
        assert WantedOp(b, ops[i]);
      }
    }
  }

  /** A commit batch, applied in any order, leaves the base without the deletes overlaid by the
      inserts, and changes nothing outside the store's region. */
  lemma BatchGivesOverlay(kv: map<Key, Value>, b: Buffered, ops: seq<Op>)
    requires IsBatch(b, ops)
    ensures Region(ApplyOps(kv, ops)) == Overlay(Region(kv), b)
    ensures SameOutside(kv, ApplyOps(kv, ops))
  {
    forall k: Key
      ensures (k in Overlay(Region(kv), b) <==> ETCD_PREFIX + k in ApplyOps(kv, ops))
              && (k in Overlay(Region(kv), b) ==> Overlay(Region(kv), b)[k] == ApplyOps(kv, ops)[ETCD_PREFIX + k])
    {
      BatchAt(kv, b, ops, k);
    }
    RegionIs(ApplyOps(kv, ops), Overlay(Region(kv), b));
    forall f | !HasPrefix(f, ETCD_PREFIX)
      ensures f in kv <==> f in ApplyOps(kv, ops)
      ensures f in kv ==> kv[f] == ApplyOps(kv, ops)[f]
    {
      forall i | 0 <= i < |ops| ensures ops[i].key != f {
        assert WantedOp(b, ops[i]);
      }
      ApplyOpsAt(kv, ops, f);
    }
  }

  /** Two batches for the same buffered writes leave the same cluster, however Go orders its maps. */
  lemma BatchOrderIrrelevant(kv: map<Key, Value>, b: Buffered, ops: seq<Op>, ops': seq<Op>)
    requires IsBatch(b, ops) && IsBatch(b, ops')
    ensures ApplyOps(kv, ops) == ApplyOps(kv, ops')
  {
    BatchGivesOverlay(kv, b, ops);
    BatchGivesOverlay(kv, b, ops');
    var kv1, kv2 := ApplyOps(kv, ops), ApplyOps(kv, ops');
    forall f: Key ensures (f in kv1 <==> f in kv2) && (f in kv1 && f in kv2 ==> kv1[f] == kv2[f]) {
      AgreeAt(kv, kv1, kv2, f);
    }
  }

  lemma AgreeAt(kv: map<Key, Value>, kv1: map<Key, Value>, kv2: map<Key, Value>, f: Key)
    requires Region(kv1) == Region(kv2) && SameOutside(kv, kv1) && SameOutside(kv, kv2)
    ensures (f in kv1 <==> f in kv2) && (f in kv1 && f in kv2 ==> kv1[f] == kv2[f])
  {
    if HasPrefix(f, ETCD_PREFIX) {
      var k := f[|ETCD_PREFIX|..];
      assert f == ETCD_PREFIX + k;
      RegionAt(kv1, k);
      RegionAt(kv2, k);
    }
  }

  /** A reordering of a batch is a batch. */
  lemma PermutedBatch(b: Buffered, ops: seq<Op>, ops': seq<Op>)
    requires IsBatch(b, ops) && multiset(ops) == multiset(ops')
    ensures IsBatch(b, ops')
  {
    forall op ensures op in ops <==> op in ops' {
      assert op in ops <==> op in multiset(ops);
      assert op in ops' <==> op in multiset(ops');
    }
    forall i | 0 <= i < |ops'| ensures WantedOp(b, ops'[i]) {
      assert ops'[i] in ops;
    }
    forall i, j | 0 <= i < j < |ops'| ensures ops'[i].key != ops'[j].key {
      if ops'[i].key == ops'[j].key {
        assert ops'[i] in ops && ops'[j] in ops;
        assert ops'[i] == ops'[j];
        OccursTwice(ops', i, j);
        DistinctOccurOnce(ops, ops'[i]);
      }
    }
  }

  lemma OccursTwice<T>(s: seq<T>, i: nat, j: nat)
    requires i < j < |s| && s[i] == s[j]
    ensures multiset(s)[s[i]] >= 2
  {
    assert s == s[..i] + [s[i]] + s[i + 1..j] + [s[j]] + s[j + 1..];
  }

  lemma {:induction false} DistinctOccurOnce(ops: seq<Op>, op: Op)
    requires DistinctKeys(ops)
    ensures multiset(ops)[op] <= 1
  {
    if ops != [] {
      assert ops == [ops[0]] + ops[1..];
      DistinctOccurOnce(ops[1..], op);
      forall i | 0 <= i < |ops[1..]| ensures ops[1..][i] != ops[0] {
        assert ops[1..][i] == ops[i + 1];
      }
    }
  }

  // ---------------------------------------------------------------------------
  // The cluster and the store
  // ---------------------------------------------------------------------------

  class Cluster {
    var kv: map<Key, Value>
    var lockHeld: bool

    constructor ()
      ensures kv == map[] && !lockHeld
    {
      kv, lockHeld := map[], false;
    }
  }

  class Store {
    const client: Cluster

    constructor (client: Cluster)
      ensures this.client == client
    {
      this.client := client;
    }

    method Get(request: Key, up: bool) returns (r: StoreResult<array<byte>>)
      ensures !up ==> r == Err(Backend)
      ensures up && request in Region(client.kv) ==>
                r.Ok? && fresh(r.value) && r.value[..] == Region(client.kv)[request]
      ensures up && request !in Region(client.kv) ==> r == Err(ValueUnset(request))
    {
      RegionAt(client.kv, request);
      if !up { return Err(Backend); }
      var f := ETCD_PREFIX + request;
      if f !in client.kv { return Err(ValueUnset(request)); }
      var buffer := NewBuffer(client.kv[f]);
      return Ok(buffer);
    }

    /** Takes no lock: it goes through even while a transaction is open. */
    method Put(request: Key, requestData: array<byte>, up: bool) returns (r: StoreResult<()>)
      modifies client`kv
      ensures r.Ok? <==> up
      ensures Region(client.kv) == if up then old(Region(client.kv))[request := requestData[..]]
                                   else old(Region(client.kv))
      ensures SameOutside(old(client.kv), client.kv)
    {
      if !up { return Err(Backend); }
      DirectWrite(client.kv, OpPut(ETCD_PREFIX + request, requestData[..]), request);
      client.kv := client.kv[ETCD_PREFIX + request := requestData[..]];
      return Ok(());
    }

    method Delete(key: Key, up: bool) returns (r: StoreResult<()>)
      modifies client`kv
      ensures r.Ok? <==> up
      ensures Region(client.kv) == if up then old(Region(client.kv)) - {key} else old(Region(client.kv))
      ensures SameOutside(old(client.kv), client.kv)
    {
      if !up { return Err(Backend); }
      DirectWrite(client.kv, OpDelete(ETCD_PREFIX + key), key);
      client.kv := client.kv - {ETCD_PREFIX + key};
      return Ok(());
    }

    /** Reads the response before it looks at the error: a failed request aborts the program. */
    method Iterator(prefix: Key, up: bool) returns (r: Fate<KeyIterator>)
      ensures r.Aborted? <==> !up
      ensures r.Returned? ==> fresh(r.value) && r.value.Valid() && r.value.Remaining() == r.value.keys
      ensures r.Returned? ==> multiset(r.value.keys) == multiset(WithPrefix(Region(client.kv).Keys, prefix))
    {
      if !up { return Aborted; }
      var keys := CollectKeys(StoredKeys(client.kv), prefix);
      var it := new KeyIterator(keys);
      return Returned(it);
    }

    /** The cluster applies a whole batch at once. */
    method Send(ops: seq<Op>, ghost b: Buffered)
      requires IsBatch(b, ops)
      modifies client`kv
      ensures Region(client.kv) == Overlay(old(Region(client.kv)), b)
      ensures SameOutside(old(client.kv), client.kv)
    {
      BatchGivesOverlay(client.kv, b, ops);
      client.kv := ApplyOps(client.kv, ops);
    }

    method BeginTransaction(up: bool) returns (r: StoreResult<Transaction>)
      requires !client.lockHeld
      modifies client`lockHeld
      ensures r.Ok? <==> up
      ensures client.lockHeld <==> up
      ensures r.Ok? ==> fresh(r.value) && r.value.store == this && r.value.ongoing
                        && r.value.Buffer() == Buffered(map[], {})
    {
      if !up { return Err(Backend); }
      client.lockHeld := true;
      var tx := new Transaction(this);
      return Ok(tx);
    }
  }

  lemma DirectWrite(kv: map<Key, Value>, op: Op, k: Key)
    requires op.key == ETCD_PREFIX + k
    ensures Region(ApplyOp(kv, op)) == ApplyOp(Region(kv), if op.OpPut? then OpPut(k, op.value) else OpDelete(k))
    ensures SameOutside(kv, ApplyOp(kv, op))
  {
    var m := ApplyOp(Region(kv), if op.OpPut? then OpPut(k, op.value) else OpDelete(k));
    forall j: Key
      ensures (j in m <==> ETCD_PREFIX + j in ApplyOp(kv, op)) && (j in m ==> m[j] == ApplyOp(kv, op)[ETCD_PREFIX + j])
    {
      RegionAt(kv, j);
      if ETCD_PREFIX + j == op.key {
        assert (ETCD_PREFIX + j)[|ETCD_PREFIX|..] == j && (ETCD_PREFIX + k)[|ETCD_PREFIX|..] == k;
      }
    }
    RegionIs(ApplyOp(kv, op), m);
    assert HasPrefix(op.key, ETCD_PREFIX);
  }

  // ---------------------------------------------------------------------------
  // Transactions
  // ---------------------------------------------------------------------------

  class Transaction {
    const store: Store
    var dataInsert: map<Key, array<byte>>
    var dataDelete: set<Key>
    var ongoing: bool

    constructor (store: Store)
      ensures this.store == store && ongoing && dataInsert == map[] && dataDelete == {}
    {
      this.store := store;
      dataInsert, dataDelete, ongoing := map[], {}, true;
    }

    /** The buffered writes, by value. */
    ghost function Buffer(): Buffered
      reads this, dataInsert.Values
    {
      Buffered(map k | k in dataInsert :: dataInsert[k][..], dataDelete)
    }

    /** What the transaction sees now. */
    ghost function Visible(): map<Key, Value>
      reads this, dataInsert.Values, store.client
    {
      Overlay(Region(store.client.kv), Buffer())
    }

    /** A key buffered by this transaction is answered with the very slice that was put. */
    method Get(request: Key, up: bool) returns (r: StoreResult<array<byte>>)
      ensures !ongoing ==> r == Err(NoTransaction)
      ensures ongoing && request in dataInsert ==> r == Ok(dataInsert[request])
      ensures request !in dataInsert && r.Ok? ==> fresh(r.value)
      ensures ongoing && request !in dataInsert && request !in dataDelete && !up ==> r == Err(Backend)
      ensures ongoing && (request in Touched(Buffer()) || up) && request in Visible() ==>
                r.Ok? && r.value[..] == Visible()[request]
      ensures ongoing && (request in Touched(Buffer()) || up) && request !in Visible() ==>
                r == Err(ValueUnset(request))
    {
      if !ongoing { return Err(NoTransaction); }
      if request in dataInsert { return Ok(dataInsert[request]); }
      if request in dataDelete { return Err(ValueUnset(request)); }
      r := store.Get(request, up);
    }

    /** Keeps the caller's slice: no copy is made. */
    method Put(request: Key, requestData: array<byte>) returns (r: StoreResult<()>)
      modifies this`dataInsert
      ensures r.Ok? <==> ongoing
      ensures ongoing ==> dataInsert == old(dataInsert)[request := requestData]
      ensures Buffer() == if ongoing then BufferPut(old(Buffer()), request, requestData[..]) else old(Buffer())
    {
      if !ongoing { return Err(NoTransaction); }
      dataInsert := dataInsert[request := requestData];
      return Ok(());
    }

    method Delete(key: Key) returns (r: StoreResult<()>)
      modifies this`dataInsert, this`dataDelete
      ensures r.Ok? <==> ongoing
      ensures ongoing ==> dataInsert == old(dataInsert) - {key} && dataDelete == old(dataDelete) + {key}
      ensures Buffer() == if ongoing then BufferDelete(old(Buffer()), key) else old(Buffer())
    {
      if !ongoing { return Err(NoTransaction); }
      dataInsert := dataInsert - {key};
      dataDelete := dataDelete + {key};
      return Ok(());
    }

    /** Stored keys that are not deleted, then the buffered inserts; a key in both is listed twice. */
    method Iterator(prefix: Key, up: bool) returns (r: StoreResult<KeyIterator>)
      ensures r.Ok? <==> up
      ensures r.Ok? ==> fresh(r.value) && r.value.Valid() && r.value.Remaining() == r.value.keys
      ensures r.Ok? ==> multiset(r.value.keys) == ListedKeys(Region(store.client.kv), Buffer(), prefix)
    {
      if !up { return Err(Backend); }
      var kept := CollectKeys(StoredKeys(store.client.kv) - dataDelete, prefix);
      var inserted := CollectKeys(dataInsert.Keys, prefix);
      var it := new KeyIterator(kept + inserted);
      return Ok(it);
    }

    /** The batch Commit sends: the two loops over the buffered maps. */
    method BuildOps() returns (ops: seq<Op>)
      ensures IsBatch(Buffer(), ops)
    {
      ghost var puts: seq<Key>, deletes: seq<Key>;
      ops, puts := PutOps();
      ops, deletes := DeleteOps(ops);
      OrdersMakeBatch(Buffer(), puts, deletes);
    }

    method PutOps() returns (ops: seq<Op>, ghost puts: seq<Key>)
      ensures Lists(puts, dataInsert.Keys) && ops == Puts(Buffer().ins, puts)
    {
      var order := Enumerate(dataInsert.Keys);
      ops, puts := [], order;
      for i := 0 to |order|
        invariant |ops| == i
        invariant forall j :: 0 <= j < i ==>
                    order[j] in dataInsert && ops[j] == OpPut(ETCD_PREFIX + order[j], dataInsert[order[j]][..])
      {
        assert order[i] in order;
        ops := ops + [OpPut(ETCD_PREFIX + order[i], dataInsert[order[i]][..])];
      }
    }

    method DeleteOps(puts: seq<Op>) returns (ops: seq<Op>, ghost deletes: seq<Key>)
      ensures Lists(deletes, dataDelete - dataInsert.Keys) && ops == puts + Deletes(deletes)
    {
      var order := Enumerate(dataDelete);
      ops, deletes := puts, [];
      for i := 0 to |order|
        invariant ops == puts + Deletes(deletes)
        invariant Kept(order[..i], dataInsert.Keys, deletes)
      {
        KeptOneMore(order, dataInsert.Keys, deletes, i);
        if order[i] !in dataInsert {
          DeletesSnoc(deletes, order[i]);
          ops, deletes := ops + [OpDelete(ETCD_PREFIX + order[i])], deletes + [order[i]];
        }
      }
      assert order[..|order|] == order;
      KeptAll(order, dataDelete, dataInsert.Keys, deletes);
    }

    /** Builds the batch and sends it. */
    method Flush(up: bool) returns (r: StoreResult<()>)
      modifies store.client`kv
      ensures r == if up then Ok(()) else Err(Backend)
      ensures !up ==> store.client.kv == old(store.client.kv)
      ensures up ==> Region(store.client.kv) == old(Visible()) && SameOutside(old(store.client.kv), store.client.kv)
    {
      var ops := BuildOps();
      if !up { return Err(Backend); }
      store.Send(ops, Buffer());
      return Ok(());
    }

    /** A failed batch keeps the lock and the buffered writes; a successful one leaves the visible state
        in the cluster and releases the lock. */
    method Commit(up: bool) returns (r: StoreResult<()>)
      requires ongoing ==> store.client.lockHeld
      modifies this`ongoing, store.client
      ensures !old(ongoing) ==> r == Err(NoTransaction)
      ensures old(ongoing) && !up ==> r == Err(Backend)
      ensures r.Err? ==> ongoing == old(ongoing) && store.client.kv == old(store.client.kv)
                         && store.client.lockHeld == old(store.client.lockHeld)
      ensures old(ongoing) && up ==> r == Ok(()) && !ongoing && !store.client.lockHeld
      ensures r.Ok? ==> Region(store.client.kv) == old(Visible())
      ensures r.Ok? ==> SameOutside(old(store.client.kv), store.client.kv)
    {
      if !ongoing { return Err(NoTransaction); }
      r := Flush(up);
      if r.Err? { return; }
      store.client.lockHeld := false;
      ongoing := false;
      return Ok(());
    }

    /** Releases the lock once; after a commit or another rollback it does nothing. */
    method Rollback()
      requires ongoing ==> store.client.lockHeld
      modifies this`ongoing, store.client`lockHeld
      ensures !ongoing
      ensures store.client.lockHeld == (if old(ongoing) then false else old(store.client.lockHeld))
    {
      if ongoing {
        store.client.lockHeld := false;
      }
      ongoing := false;
    }
  }

  // ---------------------------------------------------------------------------
  // Iterators
  // ---------------------------------------------------------------------------

  /** The multiset of keys a transaction iterator lists. */
  function ListedKeys(base: map<Key, Value>, b: Buffered, prefix: Key): multiset<Key> {
    multiset(WithPrefix(base.Keys - b.del, prefix)) + multiset(WithPrefix(b.ins.Keys, prefix))
  }

  /** A transaction iterator lists exactly the visible keys with the prefix. A key occurs twice exactly
      when it is stored, not in the delete set, and also in the insert map; otherwise at most once. */
  lemma ListedExactlyVisible(base: map<Key, Value>, b: Buffered, prefix: Key, k: Key)
    ensures var n := ListedKeys(base, b, prefix)[k];
            && (n > 0 <==> k in Overlay(base, b) && HasPrefix(k, prefix))
            && (n == 2 <==> k in base && k !in b.del && k in b.ins && HasPrefix(k, prefix))
            && n <= 2
  {
    assert multiset(WithPrefix(base.Keys - b.del, prefix))[k]
        == if k in WithPrefix(base.Keys - b.del, prefix) then 1 else 0;
    assert multiset(WithPrefix(b.ins.Keys, prefix))[k] == if k in WithPrefix(b.ins.Keys, prefix) then 1 else 0;
  }

  // ---------------------------------------------------------------------------
  // Buffers
  // ---------------------------------------------------------------------------

  /** Unlike the in-memory store, a transaction keeps the slices it is given and hands them out again. For
      any transaction and any slice the caller writes over: what the transaction sees, and so what Get
      returns and Commit writes, changes exactly when the slice is one it has buffered and the bytes are
      new; and then every key buffered with that slice changes. Arrays never overlap here: writing through
      a slice that shares part of its memory with a buffered one is a write to the buffered one. */
  method BufferedByReference(tx: Transaction, buffer: array<byte>, content: seq<byte>)
    requires |content| == buffer.Length
    modifies buffer
    ensures buffer[..] == content && tx.dataInsert == old(tx.dataInsert) && tx.dataDelete == old(tx.dataDelete)
    ensures tx.Visible() == old(tx.Visible()) <==> buffer !in tx.dataInsert.Values || content == old(buffer[..])
    ensures forall k :: k in tx.dataInsert ==>
              tx.Visible()[k] == if tx.dataInsert[k] == buffer then content else old(tx.dataInsert[k][..])
    ensures forall k :: k !in tx.dataInsert ==> Lookup(tx.Visible(), k) == Lookup(old(tx.Visible()), k)
  {
    ghost var base, b := Region(tx.store.client.kv), tx.Buffer();
    forall i | 0 <= i < buffer.Length { buffer[i] := content[i]; }
    assert buffer[..] == content;
    ghost var b' := tx.Buffer();
    forall k | k in tx.dataInsert
      ensures b'.ins[k] == if tx.dataInsert[k] == buffer then content else b.ins[k]
    {
      if tx.dataInsert[k] != buffer {
        assert tx.dataInsert[k][..] == old(tx.dataInsert[k][..]);
      }
    }
    assert Region(tx.store.client.kv) == base;
    OverlaysDiffer(base, b, b');
  }

  /** With the same keys deleted, two buffers show the same map exactly when they insert the same. */
  lemma OverlaysDiffer(base: map<Key, Value>, b: Buffered, b': Buffered)
    requires b.del == b'.del && b.ins.Keys == b'.ins.Keys
    ensures Overlay(base, b) == Overlay(base, b') <==> forall k :: k in b.ins ==> b.ins[k] == b'.ins[k]
    ensures forall k :: k in b'.ins ==> k in Overlay(base, b') && Overlay(base, b')[k] == b'.ins[k]
    ensures forall k :: k !in b.ins ==> Lookup(Overlay(base, b), k) == Lookup(Overlay(base, b'), k)
  {
    forall k | k in b.ins ensures k in Overlay(base, b) && Overlay(base, b)[k] == b.ins[k] {}
  }
}
