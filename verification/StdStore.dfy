/** The in-memory store (internal/store/stdstore.go). Go maps are heap objects, so the store and its
    transactions hold references to them; the two mutexes are flags that must be free to be locked and
    held to be unlocked (Go aborts the program otherwise). */
module StdStore {
  import opened Common
  import opened StoreTypes

  // ---------------------------------------------------------------------------
  // A transaction on values: what each operation does to its private map
  // ---------------------------------------------------------------------------

  datatype TxOp = TxGet(key: Key) | TxPut(key: Key, value: Value) | TxDelete(key: Key) | TxList(prefix: Key)

  // Go lists the keys of a map in no particular order.
  datatype Answer = Got(result: StoreResult<Value>) | Listed(keys: multiset<Key>)

  /** The final state of a run and the answers it gave. */
  datatype Outcome<S> = Outcome(state: S, answers: seq<Answer>)

  function StdStep(m: map<Key, Value>, op: TxOp): map<Key, Value> {
    match op
    case TxPut(k, v) => m[k := v]
    case TxDelete(k) => m - {k}
    case _ => m
  }

  function StdAnswer(m: map<Key, Value>, op: TxOp): seq<Answer> {
    match op
    case TxGet(k) => [Got(Lookup(m, k))]
    case TxList(p) => [Listed(multiset(WithPrefix(m.Keys, p)))]
    case _ => []
  }

  function StdRun(m: map<Key, Value>, ops: seq<TxOp>): Outcome<map<Key, Value>>
    decreases ops
  {
    if ops == [] then Outcome(m, [])
    else
      var rest := StdRun(StdStep(m, ops[0]), ops[1..]);
      Outcome(rest.state, StdAnswer(m, ops[0]) + rest.answers)
  }

  /** One operation more. */
  lemma {:induction false} StdRunSnoc(m: map<Key, Value>, ops: seq<TxOp>, op: TxOp)
    ensures var r := StdRun(m, ops);
            StdRun(m, ops + [op]) == Outcome(StdStep(r.state, op), r.answers + StdAnswer(r.state, op))
    decreases ops
  {
    if ops == [] {
      assert ops + [op] == [op] && [op][1..] == [];
      assert StdAnswer(m, op) + [] == [] + StdAnswer(m, op);
    } else {
      var m', rest := StdStep(m, ops[0]), ops[1..];
      assert (ops + [op])[0] == ops[0] && (ops + [op])[1..] == rest + [op];
      StdRunSnoc(m', rest, op);
      var r := StdRun(m', rest);
      ConcatAssociative(StdAnswer(m, ops[0]), r.answers, StdAnswer(r.state, op));
    }
  }

  // ---------------------------------------------------------------------------
  // The store
  // ---------------------------------------------------------------------------

  class GoMap {
    var entries: map<Key, Value>

    constructor ()
      ensures entries == map[]
    {
      entries := map[];
    }

    /** The copy loop, in whatever order Go visits the entries. */
    method AddAll(other: GoMap)
      requires other != this
      modifies this
      ensures entries == old(entries) + other.entries
    {
      var todo := other.entries.Keys;
      while todo != {}
        invariant todo <= other.entries.Keys
        invariant entries == old(entries) + (other.entries - todo)
        decreases |todo|
      {
        var k :| k in todo;
        entries := entries[k := other.entries[k]];
        todo := todo - {k};
      }
      assert other.entries - {} == other.entries;
    }
  }

  class Store {
    var data: GoMap
    var mutHeld: bool
    var txmutHeld: bool
    // For specification: the transactions begun on this store, the one txmut is held for, and the one
    // that committed last.
    ghost var begun: set<Transaction>
    ghost var owner: Transaction?
    ghost var publisher: Transaction?

    /** Holds in every state that transactions can bring about, even when they are finished more than
        once: each has a map of its own, and the store's map is that of the last one that committed. */
    ghost predicate Valid()
      reads this, begun
    {
      && (txmutHeld <==> owner != null)
      && (owner != null ==> owner in begun && owner.store == this)
      && (publisher != null ==> publisher in begun && publisher.store == null)
      && (forall t :: t in begun ==> (t.store == null || t.store == this) && (t.data == data <==> t == publisher))
      && (forall t, u :: t in begun && u in begun && t != u ==> t.data != u.data)
    }

    constructor ()
      ensures data.entries == map[] && fresh(data) && !mutHeld && !txmutHeld
      ensures Valid() && begun == {}
    {
      data := new GoMap();
      mutHeld, txmutHeld := false, false;
      begun, owner, publisher := {}, null, null;
    }

    method LockMut()
      requires !mutHeld
      modifies this`mutHeld
      ensures mutHeld
    { mutHeld := true; }

    method UnlockMut()
      requires mutHeld
      modifies this`mutHeld
      ensures !mutHeld
    { mutHeld := false; }

    method LockTx(ghost tx: Transaction)
      requires !txmutHeld
      modifies this`txmutHeld, this`owner
      ensures txmutHeld && owner == tx
    { txmutHeld, owner := true, tx; }

    method UnlockTx()
      requires txmutHeld
      modifies this`txmutHeld, this`owner
      ensures !txmutHeld && owner == null
    { txmutHeld, owner := false, null; }

    /** Returns a fresh copy: writing to it later cannot change the store. */
    method Get(request: Key) returns (r: StoreResult<array<byte>>)
      requires !mutHeld
      modifies this`mutHeld
      ensures !mutHeld
      ensures r.Ok? <==> request in data.entries
      ensures r.Ok? ==> fresh(r.value) && r.value[..] == data.entries[request]
      ensures r.Err? ==> r.error == ValueUnset(request)
    {
      LockMut();
      var ok := request in data.entries;
      var value: Value := [];
      if ok { value := data.entries[request]; }
      UnlockMut();
      if ok {
        var buffer := NewBuffer(value);
        return Ok(buffer);
      }
      return Err(ValueUnset(request));
    }

    /** Begin, write, commit, then the deferred rollback: both locks are free again, which they could
        not be if either had been released twice or not at all. */
    method Put(request: Key, requestData: array<byte>) returns (r: StoreResult<()>)
      requires Valid() && !mutHeld && !txmutHeld
      modifies this
      ensures r == Ok(()) && Valid() && !mutHeld && !txmutHeld && fresh(begun - old(begun))
      ensures fresh(data) && data.entries == old(data.entries)[request := requestData[..]]
      ensures old(data).entries == old(data.entries)
    {
      var tx := BeginTransaction();
      tx.Put(request, requestData);
      tx.Commit();
      tx.Rollback();
      return Ok(());
    }

    method Delete(key: Key) returns (r: StoreResult<()>)
      requires Valid() && !mutHeld && !txmutHeld
      modifies this
      ensures r == Ok(()) && Valid() && !mutHeld && !txmutHeld && fresh(begun - old(begun))
      ensures fresh(data) && data.entries == old(data.entries) - {key}
      ensures old(data).entries == old(data.entries)
    {
      var tx := BeginTransaction();
      tx.Delete(key);
      tx.Commit();
      tx.Rollback();
      return Ok(());
    }

    method Iterator(prefix: Key) returns (it: KeyIterator)
      requires !mutHeld
      modifies this`mutHeld
      ensures !mutHeld && fresh(it) && it.Valid() && it.Remaining() == it.keys
      ensures multiset(it.keys) == multiset(WithPrefix(data.entries.Keys, prefix))
    {
      LockMut();
      var keys := CollectKeys(data.entries.Keys, prefix);
      UnlockMut();
      it := new KeyIterator(keys);
    }

    method BeginTransaction() returns (tx: Transaction)
      requires Valid() && !mutHeld && !txmutHeld
      modifies this`mutHeld, this`txmutHeld, this`owner, this`begun
      ensures Valid() && !mutHeld && txmutHeld
      ensures fresh(tx) && fresh(tx.data) && tx.Live() && tx.store == this
      ensures begun == old(begun) + {tx}
      ensures tx.data.entries == data.entries
    {
      tx := new Transaction(this);
      LockTx(tx);
      LockMut();
      tx.data.AddAll(data);
      assert map[] + data.entries == data.entries;
      UnlockMut();
      begun := begun + {tx};
    }

    method CommitData(d: GoMap, ghost tx: Transaction)
      requires !mutHeld && txmutHeld
      modifies this
      ensures data == d && !mutHeld && !txmutHeld
      ensures owner == null && publisher == tx && begun == old(begun)
    {
      LockMut();
      data, publisher := d, tx;
      UnlockMut();
      UnlockTx();
    }
  }

  class Transaction {
    var store: Store?
    var data: GoMap

    /** Open: the transaction lock is held for this transaction. One that has been rolled back is never
        live again, whoever takes the lock next. */
    ghost predicate Live()
      reads this, store
    {
      store != null && store.owner == this
    }

    constructor (store: Store)
      ensures this.store == store && fresh(data) && data.entries == map[]
    {
      this.store := store;
      data := new GoMap();
    }

    method Get(request: Key) returns (r: StoreResult<array<byte>>)
      ensures r.Ok? <==> request in data.entries
      ensures r.Ok? ==> fresh(r.value) && r.value[..] == data.entries[request]
      ensures r.Err? ==> r.error == ValueUnset(request)
    {
      if request in data.entries {
        var buffer := NewBuffer(data.entries[request]);
        return Ok(buffer);
      }
      return Err(ValueUnset(request));
    }

    /** Stores a copy of the caller's bytes. */
    method Put(request: Key, requestData: array<byte>)
      modifies data
      ensures data.entries == StdStep(old(data.entries), TxPut(request, requestData[..]))
    {
      data.entries := data.entries[request := requestData[..]];
    }

    method Delete(key: Key)
      modifies data
      ensures data.entries == StdStep(old(data.entries), TxDelete(key))
    {
      data.entries := data.entries - {key};
    }

    method Iterator(prefix: Key) returns (it: KeyIterator)
      ensures fresh(it) && it.Valid() && it.Remaining() == it.keys
      ensures StdAnswer(data.entries, TxList(prefix)) == [Listed(multiset(it.keys))]
    {
      var keys := CollectKeys(data.entries.Keys, prefix);
      it := new KeyIterator(keys);
    }

    /** Publishes the transaction's map itself, not a copy, and releases the lock it holds. */
    method Commit()
      requires Live() && store.Valid() && !store.mutHeld
      modifies this, store
      ensures store == null && data == old(data)
      ensures old(store).Valid() && old(store).publisher == this && old(store).begun == old(store.begun)
      ensures old(store).data == data && !old(store).txmutHeld && !old(store).mutHeld
    {
      var r := CommitByAnyone();
    }

    /** Commit in the hands of a caller that may not hold the lock: it aborts the program if the
        transaction has committed before or nobody holds the lock. Otherwise a transaction already rolled
        back still publishes its map, and the lock it releases is that of whoever holds it. */
    method CommitByAnyone() returns (r: Fate<()>)
      requires store != null ==> store.Valid() && this in store.begun && !store.mutHeld
      modifies this, store
      ensures r.Aborted? <==> old(store) == null || old(!store.txmutHeld)
      ensures r.Returned? ==> store == null && data == old(data) && old(store).Valid()
      ensures r.Returned? ==> old(store).publisher == this && old(store).begun == old(store.begun)
      ensures r.Returned? ==> old(store).data == data && old(store).owner == null && !old(store).mutHeld
      ensures r.Returned? && old(!Live()) ==> old(store.owner) != null && !old(store.owner).Live()
    {
      if store == null || !store.txmutHeld { return Aborted; }
      store.CommitData(data, this);
      store := null;
      return Returned(());
    }

    /** Releases the lock of a live transaction; does nothing after a commit. */
    method Rollback()
      requires store != null ==> Live() && store.Valid()
      modifies store
      ensures store == old(store) && data == old(data)
      ensures store != null ==> store.Valid() && !store.txmutHeld && store.begun == old(store.begun)
      ensures store != null ==> store.mutHeld == old(store.mutHeld) && store.data == old(store.data)
                                && store.publisher == old(store.publisher)
    {
      var r := RollbackByAnyone();
    }

    /** Rollback in the hands of a caller that may not hold the lock: it aborts the program if the
        transaction has not committed and nobody holds the lock. */
    method RollbackByAnyone() returns (r: Fate<()>)
      requires store != null ==> store.Valid()
      modifies store
      ensures r.Aborted? <==> store != null && old(!store.txmutHeld)
      ensures store == old(store) && data == old(data)
      ensures store != null ==> store.Valid() && store.owner == null && store.begun == old(store.begun)
      ensures store != null ==> store.mutHeld == old(store.mutHeld) && store.data == old(store.data)
                                && store.publisher == old(store.publisher)
    {
      if store != null {
        if !store.txmutHeld { return Aborted; }
        store.UnlockTx();
      }
      return Returned(());
    }
  }

  // ---------------------------------------------------------------------------
  // Transactions used after they are finished
  // ---------------------------------------------------------------------------

  /** A put through any transaction of the store, open or finished, reaches the store with no lock held
      exactly when that transaction is the last one that committed; it then goes unnoticed only if the
      key already held those bytes. */
  method PutEscapesIff(s: Store, tx: Transaction, key: Key, bytes: array<byte>)
    requires s.Valid() && tx in s.begun
    modifies tx.data
    ensures s.Valid() && tx.data.entries == old(tx.data.entries)[key := bytes[..]]
    ensures tx.data == s.data <==> tx == s.publisher
    ensures s.data.entries == if tx == s.publisher then old(s.data.entries)[key := bytes[..]] else old(s.data.entries)
    ensures s.data.entries == old(s.data.entries) <==>
              tx != s.publisher || Lookup(old(s.data.entries), key) == Ok(bytes[..])
  {
    tx.Put(key, bytes);
  }

  /** A rollback through any transaction of the store, at any moment. It does nothing if the transaction
      has committed, and aborts the program if it has not and nobody holds the lock. It frees a lock the
      transaction does not own exactly when it has not committed and the owner is another transaction, and
      that owner is then no longer live. The store's content never changes. */
  method RollbackStealsIff(s: Store, tx: Transaction) returns (r: Fate<()>)
    requires s.Valid() && tx in s.begun
    modifies s
    ensures s.Valid() && s.data == old(s.data) && s.publisher == old(s.publisher) && s.mutHeld == old(s.mutHeld)
    ensures s.begun == old(s.begun)
    ensures r.Aborted? <==> tx.store != null && old(s.owner) == null
    ensures s.owner == if tx.store == null then old(s.owner) else null
    ensures old(s.owner) != null && old(s.owner) != tx ==>
              (!old(s.owner).Live() && !s.txmutHeld <==> tx.store != null)
  {
    r := tx.RollbackByAnyone();
  }

  /** Such a transaction exists: rolled back once, and overtaken by the next. */
  method StaleTransactionArises(s: Store) returns (stale: Transaction, successor: Transaction)
    requires s.Valid() && !s.mutHeld && !s.txmutHeld
    modifies s
    ensures s.Valid() && !s.mutHeld && s.data == old(s.data)
    ensures fresh(stale) && fresh(successor) && stale in s.begun && successor in s.begun
    ensures stale.store == s && !stale.Live() && successor.Live() && s.owner == successor
  {
    stale := s.BeginTransaction();
    stale.Rollback();
    successor := s.BeginTransaction();
  }

  // ---------------------------------------------------------------------------
  // Buffers
  // ---------------------------------------------------------------------------

  /** The caller writes over any number of its buffers. */
  method OverwriteAll(contents: map<array<byte>, seq<byte>>)
    requires forall a :: a in contents ==> |contents[a]| == a.Length
    modifies contents.Keys
    ensures forall a :: a in contents ==> a[..] == contents[a]
  {
    var todo := contents.Keys;
    while todo != {}
      invariant todo <= contents.Keys
      invariant forall a :: a in contents && a !in todo ==> a[..] == contents[a]
      decreases |todo|
    {
      var a :| a in todo;
      forall i | 0 <= i < a.Length { a[i] := contents[a][i]; }
      todo := todo - {a};
    }
  }

  /** The store keeps and hands out copies. From any state: after a put, whatever buffers the caller
      then overwrites with whatever bytes (the one it put, those any Get returned, any others), the store
      holds the bytes as they were put, and every key reads accordingly. */
  method StoreByValue(s: Store, key: Key, bytes: array<byte>, contents: map<array<byte>, seq<byte>>, probe: Key)
    returns (r: StoreResult<array<byte>>)
    requires s.Valid() && !s.mutHeld && !s.txmutHeld
    requires forall a :: a in contents ==> |contents[a]| == a.Length
    modifies s, contents.Keys
    ensures forall a :: a in contents ==> a[..] == contents[a]
    ensures s.data.entries == old(s.data.entries)[key := old(bytes[..])]
    ensures (if r.Ok? then Ok(r.value[..]) else Err(r.error)) == Lookup(s.data.entries, probe)
    ensures r.Ok? ==> fresh(r.value)
  {
    var put := s.Put(key, bytes);
    OverwriteAll(contents);
    r := s.Get(probe);
  }
}
