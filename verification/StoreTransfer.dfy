/** Moving the in-memory store's content into etcd (internal/store/stdstore.go:106-117). */
module StoreTransfer {
  import opened Common
  import opened StoreTypes
  import Std = StdStore
  import Etcd = EtcdStore

  ghost function Entries(m: map<Key, Value>, keys: set<Key>): map<Key, Value> {
    map k | k in keys && k in m :: m[k]
  }

  lemma OneMoreEntry(before: map<Key, Value>, m: map<Key, Value>, keys: set<Key>, k: Key)
    requires k in m
    ensures (before + Entries(m, keys))[k := m[k]] == before + Entries(m, keys + {k})
  {}

  /** The cluster after the entries of `moved` have been put into kv0. */
  ghost predicate Moved(kv0: map<Key, Value>, kv: map<Key, Value>, m: map<Key, Value>, moved: set<Key>) {
    Etcd.Region(kv) == Etcd.Region(kv0) + Entries(m, moved) && Etcd.SameOutside(kv0, kv)
  }

  lemma NothingMoved(kv0: map<Key, Value>, m: map<Key, Value>)
    ensures Moved(kv0, kv0, m, {})
  {
    assert Etcd.Region(kv0) + Entries(m, {}) == Etcd.Region(kv0);
  }

  method MoveEntry(target: Etcd.Store, ghost kv0: map<Key, Value>, m: map<Key, Value>, ghost moved: set<Key>,
                   k: Key, up: bool) returns (r: StoreResult<()>)
    requires k in m && Moved(kv0, target.client.kv, m, moved)
    modifies target.client`kv
    ensures r.Ok? <==> up
    ensures Moved(kv0, target.client.kv, m, if up then moved + {k} else moved)
  {
    var bytes := NewBuffer(m[k]);
    r := target.Put(k, bytes, up);
    OneMoreEntry(Etcd.Region(kv0), m, moved, k);
  }

  /** The loop over the entries, in map order; the target accepts the first `accepts` puts and fails the
      next. */
  method MoveAll(source: map<Key, Value>, target: Etcd.Store, accepts: nat) returns (r: StoreResult<()>, ghost moved: set<Key>)
    modifies target.client`kv
    ensures r.Ok? <==> accepts >= |source|
    ensures Moved(old(target.client.kv), target.client.kv, source, moved) && moved <= source.Keys
    ensures if r.Ok? then moved == source.Keys else |moved| == accepts
  {
    ghost var kv0 := target.client.kv;
    NothingMoved(kv0, source);
    var todo := source.Keys;
    moved := {};
    var puts := 0;
    while todo != {}
      invariant moved <= source.Keys && todo == source.Keys - moved
      invariant |moved| == puts <= accepts
      invariant Moved(kv0, target.client.kv, source, moved)
      decreases |todo|
    {
      var k :| k in todo;
      r := MoveEntry(target, kv0, source, moved, k, puts < accepts);
      if r.Err? {
        ChosenAreFewer(source.Keys, moved, k);
        return;
      }
      todo, moved, puts := todo - {k}, moved + {k}, puts + 1;
    }
    r := Ok(());
  }

  /** Puts every entry of s into the target: on success the target's region is what it was, overlaid by s,
      and nothing outside it has changed; on failure some entries have been moved and s stays locked. */
  method Transfer(s: Std.Store, target: Etcd.Store, accepts: nat) returns (r: StoreResult<()>, ghost moved: set<Key>)
    requires !s.mutHeld
    modifies s`mutHeld, target.client`kv
    ensures r.Ok? <==> accepts >= |s.data.entries|
    ensures s.mutHeld <==> r.Err?
    ensures Moved(old(target.client.kv), target.client.kv, s.data.entries, moved) && moved <= s.data.entries.Keys
    ensures if r.Ok? then moved == s.data.entries.Keys else |moved| == accepts
    ensures r.Ok? ==> Etcd.Region(target.client.kv) == old(Etcd.Region(target.client.kv)) + s.data.entries
                      && Etcd.SameOutside(old(target.client.kv), target.client.kv)
  {
    s.LockMut();
    r, moved := MoveAll(s.data.entries, target, accepts);
    if r.Err? { return; }
    EveryEntry(s.data.entries);
    s.UnlockMut();
  }

  // One round of the loop over the entries.
  method PutEntry(target: Std.Store, ghost before: map<Key, Value>, m: map<Key, Value>, ghost moved: set<Key>, k: Key)
    requires k in m && target.data.entries == before + Entries(m, moved)
    requires target.Valid() && !target.mutHeld && !target.txmutHeld
    modifies target
    ensures target.Valid() && !target.mutHeld && !target.txmutHeld && fresh(target.begun - old(target.begun))
    ensures target.data.entries == before + Entries(m, moved + {k})
  {
    var bytes := NewBuffer(m[k]);
    var r := target.Put(k, bytes);
    OneMoreEntry(before, m, moved, k);
  }

  method PutEntries(target: Std.Store, m: map<Key, Value>)
    requires target.Valid() && !target.mutHeld && !target.txmutHeld
    modifies target
    ensures target.Valid() && !target.mutHeld && !target.txmutHeld && fresh(target.begun - old(target.begun))
    ensures target.data.entries == old(target.data.entries) + m
  {
    ghost var before := target.data.entries;
    var todo := m.Keys;
    ghost var moved := {};
    assert before + Entries(m, {}) == before;
    while todo != {}
      invariant moved <= m.Keys && todo == m.Keys - moved
      invariant target.Valid() && !target.mutHeld && !target.txmutHeld && fresh(target.begun - old(target.begun))
      invariant target.data.entries == before + Entries(m, moved)
      decreases |todo|
    {
      var k :| k in todo;
      PutEntry(target, before, m, moved, k);
      todo, moved := todo - {k}, moved + {k};
    }
    assert moved == m.Keys;
    EveryEntry(m);
  }

  /** The same into another in-memory store, whose puts never fail. */
  method TransferInMemory(s: Std.Store, target: Std.Store) returns (r: StoreResult<()>)
    requires s != target && !s.mutHeld && target.Valid() && !target.mutHeld && !target.txmutHeld
    modifies s`mutHeld, target
    ensures r == Ok(()) && !s.mutHeld && target.Valid() && !target.mutHeld && !target.txmutHeld
    ensures target.data.entries == old(target.data.entries) + s.data.entries
    ensures s.data.entries == old(s.data.entries)
  {
    s.LockMut();
    PutEntries(target, s.data.entries);
    s.UnlockMut();
    r := Ok(());
  }

  lemma EveryEntry(m: map<Key, Value>)
    ensures Entries(m, m.Keys) == m
  {}

  lemma ChosenAreFewer(all: set<Key>, some: set<Key>, k: Key)
    requires some <= all && k in all && k !in some
    ensures |some| < |all|
  {
    SubsetSize(some + {k}, all);
  }

  lemma {:induction false} SubsetSize(a: set<Key>, b: set<Key>)
    requires a <= b
    ensures |a| <= |b|
  {
    if a != {} {
      var x :| x in a;
      SubsetSize(a - {x}, b - {x});
    }
  }
}
