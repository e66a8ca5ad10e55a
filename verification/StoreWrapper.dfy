/** Typed access to the store (internal/storewrapper/storewrapper.go): challenges, public keys, uuids and
    the server's private key share one key-value store, each kind under its own key prefix. */
module StoreWrapper {
  import opened Common
  import opened StoreTypes
  import Std = StdStore

  const CHALLENGE_PREFIX: Key := "challenge-"
  const PUBLIC_KEY_PREFIX: Key := "publickey-"
  const UUID_PREFIX: Key := "uuid-"
  const PRIVATE_KEY: Key := "privkey-ssh"

  // JSON as a pair of functions; decoding may fail.
  datatype Codec<!T> = Codec(encode: T -> Value, decode: Value -> Option<T>)

  ghost predicate RoundTrips<T(!new)>(c: Codec<T>) {
    forall t: T :: c.decode(c.encode(t)) == Some(t)
  }

  datatype Failure = StoreFailure(error: Error) | BadJson

  type WrapperResult<+T> = Result<T, Failure>

  // What a store key is for.
  datatype Slot = Challenge(name: string) | PublicKey(name: string) | Uuid(name: string) | PrivateKey

  function KeyOf(s: Slot): Key {
    match s
    case Challenge(n) => CHALLENGE_PREFIX + n
    case PublicKey(n) => PUBLIC_KEY_PREFIX + n
    case Uuid(n) => UUID_PREFIX + n
    case PrivateKey => PRIVATE_KEY
  }

  lemma FirstTwo(s: Slot)
    ensures |KeyOf(s)| >= 2
    ensures KeyOf(s)[..2] ==
            match s case Challenge(_) => "ch" case PublicKey(_) => "pu" case Uuid(_) => "uu" case PrivateKey => "pr"
  {
    match s
    case Challenge(n) => assert KeyOf(s)[0] == CHALLENGE_PREFIX[0] && KeyOf(s)[1] == CHALLENGE_PREFIX[1];
    case PublicKey(n) => assert KeyOf(s)[0] == PUBLIC_KEY_PREFIX[0] && KeyOf(s)[1] == PUBLIC_KEY_PREFIX[1];
    case Uuid(n) => assert KeyOf(s)[0] == UUID_PREFIX[0] && KeyOf(s)[1] == UUID_PREFIX[1];
    case PrivateKey => assert KeyOf(s)[0] == PRIVATE_KEY[0] && KeyOf(s)[1] == PRIVATE_KEY[1];
  }

  /** The key spaces are pairwise disjoint and each is injective in the name, whatever the names. */
  lemma KeySpacesDisjoint(s: Slot, s': Slot)
    ensures KeyOf(s) == KeyOf(s') <==> s == s'
  {
    FirstTwo(s);
    FirstTwo(s');
    if KeyOf(s) == KeyOf(s') {
      assert KeyOf(s)[..2] == KeyOf(s')[..2];
      if !s.PrivateKey? {
        var p := match s case Challenge(_) => CHALLENGE_PREFIX case PublicKey(_) => PUBLIC_KEY_PREFIX case _ => UUID_PREFIX;
        assert KeyOf(s) == p + s.name && KeyOf(s') == p + s'.name;
        assert s.name == KeyOf(s)[|p|..] == KeyOf(s')[|p|..] == s'.name;
      }
    }
  }

  /** An iterator over one prefix meets keys of that kind only. */
  lemma PrefixSelects(s: Slot)
    ensures HasPrefix(KeyOf(s), CHALLENGE_PREFIX) <==> s.Challenge?
    ensures HasPrefix(KeyOf(s), PUBLIC_KEY_PREFIX) <==> s.PublicKey?
    ensures HasPrefix(KeyOf(s), UUID_PREFIX) <==> s.Uuid?
  {
    FirstTwo(s);
    PrefixFixesStart(KeyOf(s), CHALLENGE_PREFIX);
    PrefixFixesStart(KeyOf(s), PUBLIC_KEY_PREFIX);
    PrefixFixesStart(KeyOf(s), UUID_PREFIX);
    assert CHALLENGE_PREFIX[..2] == "ch" && PUBLIC_KEY_PREFIX[..2] == "pu" && UUID_PREFIX[..2] == "uu";
  }

  lemma PrefixFixesStart(key: Key, prefix: Key)
    requires |prefix| >= 2
    ensures HasPrefix(key, prefix) ==> |key| >= 2 && key[..2] == prefix[..2]
  {
    if HasPrefix(key, prefix) {
      assert key[0] == prefix[0] && key[1] == prefix[1];
    }
  }

  /** The names stored under a prefix. */
  function Names(m: map<Key, Value>, prefix: Key): (names: set<string>)
    ensures forall n :: n in names <==> prefix + n in m
  {
    var names := set k | k in m && HasPrefix(k, prefix) :: k[|prefix|..];
    assert forall n: string :: HasPrefix(prefix + n, prefix) && (prefix + n)[|prefix|..] == n;
    assert forall k :: k in m && HasPrefix(k, prefix) ==> prefix + k[|prefix|..] == k;
    names
  }

  ghost predicate AllDecode<T>(m: map<Key, Value>, prefix: Key, c: Codec<T>) {
    forall n :: n in Names(m, prefix) ==> c.decode(m[prefix + n]).Some?
  }

  /** The records stored under a prefix, by name. */
  ghost function Records<T>(m: map<Key, Value>, prefix: Key, c: Codec<T>): map<string, T>
    requires AllDecode(m, prefix, c)
  {
    map n | n in Names(m, prefix) :: c.decode(m[prefix + n]).value
  }

  class Wrapper {
    const store: Std.Store

    /** The store is sound and neither of its locks is held. */
    ghost predicate Free()
      reads store, store.begun
    {
      store.Valid() && !store.mutHeld && !store.txmutHeld
    }

    constructor (store: Std.Store)
      ensures this.store == store
    {
      this.store := store;
    }

    method PutSlot(slot: Slot, v: Value)
      requires Free()
      modifies store
      ensures Free() && fresh(store.data) && fresh(store.begun - old(store.begun))
      ensures store.data.entries == old(store.data.entries)[KeyOf(slot) := v]
    {
      var buffer := NewBuffer(v);
      var r := store.Put(KeyOf(slot), buffer);
    }

    method PutChallengeData<T>(name: string, target: T, c: Codec<T>)
      requires Free()
      modifies store
      ensures Free() && fresh(store.data) && fresh(store.begun - old(store.begun))
      ensures store.data.entries == old(store.data.entries)[KeyOf(Challenge(name)) := c.encode(target)]
    { PutSlot(Challenge(name), c.encode(target)); }

    method PutDataIdxByPubKey<T>(pubkey: string, target: T, c: Codec<T>)
      requires Free()
      modifies store
      ensures Free() && fresh(store.data) && fresh(store.begun - old(store.begun))
      ensures store.data.entries == old(store.data.entries)[KeyOf(PublicKey(pubkey)) := c.encode(target)]
    { PutSlot(PublicKey(pubkey), c.encode(target)); }

    method PutDataIdxByUuid<T>(uuid: string, target: T, c: Codec<T>)
      requires Free()
      modifies store
      ensures Free() && fresh(store.data) && fresh(store.begun - old(store.begun))
      ensures store.data.entries == old(store.data.entries)[KeyOf(Uuid(uuid)) := c.encode(target)]
    { PutSlot(Uuid(uuid), c.encode(target)); }

    method PutPrivKey(privkey: Value)
      requires Free()
      modifies store
      ensures Free() && fresh(store.data) && fresh(store.begun - old(store.begun))
      ensures store.data.entries == old(store.data.entries)[KeyOf(PrivateKey) := privkey]
    { PutSlot(PrivateKey, privkey); }

    /** Reading one record back: the store's unset error, a decoding failure, or the record. */
    method GetRecord<T>(key: Key, c: Codec<T>) returns (r: WrapperResult<T>)
      requires Free()
      modifies store`mutHeld
      ensures Free()
      ensures r.Ok? <==> key in store.data.entries && c.decode(store.data.entries[key]).Some?
      ensures r.Ok? ==> c.decode(store.data.entries[key]) == Some(r.value)
      ensures r.Err? ==> r.error == if key in store.data.entries then BadJson else StoreFailure(ValueUnset(key))
    {
      var got := store.Get(key);
      if got.Err? { return Err(StoreFailure(got.error)); }
      var decoded := c.decode(got.value[..]);
      if decoded.None? { return Err(BadJson); }
      return Ok(decoded.value);
    }

    method PublicKeyExists(publicKey: string) returns (r: WrapperResult<bool>)
      requires Free()
      modifies store`mutHeld
      ensures Free() && r == Ok(publicKey in Names(store.data.entries, PUBLIC_KEY_PREFIX))
    {
      var got := store.Get(KeyOf(PublicKey(publicKey)));
      return Ok(got.Ok?);
    }

    method UuidExists(uuid: string) returns (r: WrapperResult<bool>)
      requires Free()
      modifies store`mutHeld
      ensures Free() && r == Ok(uuid in Names(store.data.entries, UUID_PREFIX))
    {
      var got := store.Get(KeyOf(Uuid(uuid)));
      return Ok(got.Ok?);
    }

    /** The comparison with a fresh error value never matches, so a missing challenge is reported as an
        error instead of false. */
    method ChallengeExists(name: string) returns (r: WrapperResult<bool>)
      requires Free()
      modifies store`mutHeld
      ensures Free()
      ensures r == if name in Names(store.data.entries, CHALLENGE_PREFIX) then Ok(true)
                   else Err(StoreFailure(ValueUnset(KeyOf(Challenge(name)))))
    {
      var got := store.Get(KeyOf(Challenge(name)));
      if got.Err? { return Err(StoreFailure(got.error)); }
      return Ok(true);
    }

    /** The body of the loop: the iterator's next key, trimmed, its record read and added. */
    method Visit<T>(it: KeyIterator, found: map<string, T>, prefix: Key, c: Codec<T>)
      returns (r: WrapperResult<map<string, T>>)
      requires Free() && it.Valid() && it.idx < |it.keys|
      requires UnderPrefix(store.data.entries, prefix, it.keys[it.idx])
      modifies store`mutHeld, it`idx
      ensures Free() && it.Valid() && it.idx == old(it.idx) + 1
      ensures r.Ok? <==> Decodes(store.data.entries, prefix, c, it.keys[old(it.idx)])
      ensures r.Ok? ==> r.value == Add(store.data.entries, prefix, c, found, it.keys[old(it.idx)])
      ensures r.Err? ==> r.error == BadJson
    {
      var next := it.GetNext();
      var name := next.value[|prefix|..];
      assert prefix + name == next.value;
      var record := GetRecord(prefix + name, c);
      if record.Err? { return Err(record.error); }
      return Ok(found[name := record.value]);
    }

    /** GetAllChallenges and GetAllPublicKeys: iterate over the prefix, trim it, read each record. On a
        store nobody else writes to, the result is exactly the stored records; it fails exactly when one
        of them does not decode. */
    method GetAll<T>(prefix: Key, c: Codec<T>) returns (r: WrapperResult<map<string, T>>)
      requires Free()
      modifies store`mutHeld
      ensures Free()
      ensures r.Ok? <==> AllDecode(store.data.entries, prefix, c)
      ensures r.Ok? ==> r.value == Records(store.data.entries, prefix, c)
      ensures r.Err? ==> r.error == BadJson
    {
      var it := store.Iterator(prefix);
      IteratedKeys(store.data.entries, prefix, it.keys);
      r := Collect(it, prefix, c);
      if r.Ok? {
        GatheredAll(store.data.entries, prefix, c, it.keys);
      } else {
        SomeDoesNotDecode(store.data.entries, prefix, c, it.keys);
      }
    }

    /** The loop, over any list of keys under the prefix. */
    method Collect<T>(it: KeyIterator, prefix: Key, c: Codec<T>) returns (r: WrapperResult<map<string, T>>)
      requires Free() && it.Valid() && it.idx == 0
      requires forall k :: k in it.keys ==> UnderPrefix(store.data.entries, prefix, k)
      modifies store`mutHeld, it`idx
      ensures Free()
      ensures r.Ok? <==> forall k :: k in it.keys ==> Decodes(store.data.entries, prefix, c, k)
      ensures r.Ok? ==> r.value == Gather(store.data.entries, prefix, c, it.keys)
      ensures r.Err? ==> r.error == BadJson
    {
      r := Ok(map[]);
      var more := it.HasNext();
      while more
        invariant Free() && it.Valid() && r.Ok?
        invariant more <==> it.idx < |it.keys|
        invariant forall j :: 0 <= j < it.idx ==> Decodes(store.data.entries, prefix, c, it.keys[j])
        invariant r.value == Gather(store.data.entries, prefix, c, it.keys[..it.idx])
        decreases |it.keys| - it.idx
      {
        ghost var i := it.idx;
        assert it.keys[..i + 1][..i] == it.keys[..i] && it.keys[i] in it.keys;
        r := Visit(it, r.value, prefix, c);
        if r.Err? { return; }
        more := it.HasNext();
      }
      assert it.keys[..it.idx] == it.keys;
    }

    method GetAllKeys() returns (keys: seq<Key>)
      requires Free()
      modifies store`mutHeld
      ensures Free() && multiset(keys) == multiset(store.data.entries.Keys)
    {
      var it := store.Iterator("");
      EveryKeyHasEmptyPrefix(store.data.entries.Keys);
      keys := it.Drain();
    }
  }

  lemma EveryKeyHasEmptyPrefix(keys: set<Key>)
    ensures WithPrefix(keys, "") == keys
  {}

  predicate UnderPrefix(m: map<Key, Value>, prefix: Key, key: Key) { key in m && HasPrefix(key, prefix) }

  predicate Decodes<T>(m: map<Key, Value>, prefix: Key, c: Codec<T>, key: Key) {
    UnderPrefix(m, prefix, key) && c.decode(m[key]).Some?
  }

  function Add<T>(m: map<Key, Value>, prefix: Key, c: Codec<T>, found: map<string, T>, key: Key): map<string, T> {
    if Decodes(m, prefix, c, key) then found[key[|prefix|..] := c.decode(m[key]).value] else found
  }

  /** The records of the given keys, added one after another. */
  function Gather<T>(m: map<Key, Value>, prefix: Key, c: Codec<T>, keys: seq<Key>): map<string, T> {
    if keys == [] then map[]
    else Add(m, prefix, c, Gather(m, prefix, c, keys[..|keys| - 1]), keys[|keys| - 1])
  }

  lemma {:induction false} GatherAt<T>(m: map<Key, Value>, prefix: Key, c: Codec<T>, keys: seq<Key>, n: string)
    requires forall k :: k in keys ==> Decodes(m, prefix, c, k)
    ensures n in Gather(m, prefix, c, keys) <==> prefix + n in keys
    ensures prefix + n in keys ==> Decodes(m, prefix, c, prefix + n)
                                   && Gather(m, prefix, c, keys)[n] == c.decode(m[prefix + n]).value
  {
    if keys != [] {
      var front, last := keys[..|keys| - 1], keys[|keys| - 1];
      assert keys == front + [last] && last in keys;
      assert Decodes(m, prefix, c, last) && forall k :: k in front ==> k in keys;
      GatherAt(m, prefix, c, front, n);
      assert last == prefix + last[|prefix|..];
      assert prefix + n == last <==> n == last[|prefix|..] by {
        assert (prefix + n)[|prefix|..] == n;
      }
    }
  }

  /** The iterator lists exactly the keys under the prefix. */
  lemma IteratedKey(m: map<Key, Value>, prefix: Key, keys: seq<Key>, k: Key)
    requires multiset(keys) == multiset(WithPrefix(m.Keys, prefix))
    ensures k in keys <==> UnderPrefix(m, prefix, k)
  {
    assert k in keys <==> k in multiset(keys);
    assert k in multiset(WithPrefix(m.Keys, prefix)) <==> k in WithPrefix(m.Keys, prefix);
  }

  lemma IteratedKeys(m: map<Key, Value>, prefix: Key, keys: seq<Key>)
    requires multiset(keys) == multiset(WithPrefix(m.Keys, prefix))
    ensures forall k :: k in keys <==> UnderPrefix(m, prefix, k)
  {
    forall k ensures k in keys <==> UnderPrefix(m, prefix, k) {
      IteratedKey(m, prefix, keys, k);
    }
  }

  lemma GatheredAll<T>(m: map<Key, Value>, prefix: Key, c: Codec<T>, keys: seq<Key>)
    requires multiset(keys) == multiset(WithPrefix(m.Keys, prefix))
    requires forall k :: k in keys ==> Decodes(m, prefix, c, k)
    ensures AllDecode(m, prefix, c) && Gather(m, prefix, c, keys) == Records(m, prefix, c)
  {
    forall n: string
      ensures n in Names(m, prefix) <==> n in Gather(m, prefix, c, keys)
      ensures n in Names(m, prefix) ==> c.decode(m[prefix + n]) == Some(Gather(m, prefix, c, keys)[n])
    {
      IteratedKey(m, prefix, keys, prefix + n);
      GatherAt(m, prefix, c, keys, n);
      assert HasPrefix(prefix + n, prefix);
    }
  }

  lemma SomeDoesNotDecode<T>(m: map<Key, Value>, prefix: Key, c: Codec<T>, keys: seq<Key>)
    requires multiset(keys) == multiset(WithPrefix(m.Keys, prefix))
    requires !forall k :: k in keys ==> Decodes(m, prefix, c, k)
    ensures !AllDecode(m, prefix, c)
  {
    var k :| k in keys && !Decodes(m, prefix, c, k);
    IteratedKey(m, prefix, keys, k);
    assert prefix + k[|prefix|..] == k && k[|prefix|..] in Names(m, prefix);
  }

  // ---------------------------------------------------------------------------
  // What was last written is what is read
  // ---------------------------------------------------------------------------

  datatype Write<C, U> =
    | WriteChallenge(name: string, challenge: C)
    | WritePublicKey(name: string, user: U)
    | WriteUuid(name: string, user: U)
    | WritePrivateKey(bytes: Value)

  function SlotOf<C, U>(w: Write<C, U>): Slot {
    match w
    case WriteChallenge(n, _) => Challenge(n)
    case WritePublicKey(n, _) => PublicKey(n)
    case WriteUuid(n, _) => Uuid(n)
    case WritePrivateKey(_) => PrivateKey
  }

  function Bytes<C, U>(w: Write<C, U>, cc: Codec<C>, cu: Codec<U>): Value {
    match w
    case WriteChallenge(_, x) => cc.encode(x)
    case WritePublicKey(_, u) => cu.encode(u)
    case WriteUuid(_, u) => cu.encode(u)
    case WritePrivateKey(b) => b
  }

  /** The store after a sequence of wrapper puts. */
  function Written<C, U>(ws: seq<Write<C, U>>, cc: Codec<C>, cu: Codec<U>): map<Key, Value> {
    if ws == [] then map[]
    else
      var w := ws[|ws| - 1];
      Written(ws[..|ws| - 1], cc, cu)[KeyOf(SlotOf(w)) := Bytes(w, cc, cu)]
  }

  // The three indices, each built from its own writes only.
  datatype Indices<C, U> = Indices(challenges: map<string, C>, publicKeys: map<string, U>, uuids: map<string, U>)

  function LastWritten<C, U>(ws: seq<Write<C, U>>): Indices<C, U> {
    if ws == [] then Indices(map[], map[], map[])
    else
      var i, w := LastWritten(ws[..|ws| - 1]), ws[|ws| - 1];
      match w
      case WriteChallenge(n, x) => i.(challenges := i.challenges[n := x])
      case WritePublicKey(n, u) => i.(publicKeys := i.publicKeys[n := u])
      case WriteUuid(n, u) => i.(uuids := i.uuids[n := u])
      case WritePrivateKey(_) => i
  }

  /** The bytes under a prefix are the encodings of the given records. */
  ghost predicate Holds<T>(m: map<Key, Value>, prefix: Key, c: Codec<T>, records: map<string, T>) {
    forall n: string :: (prefix + n in m <==> n in records) && (n in records ==> m[prefix + n] == c.encode(records[n]))
  }

  lemma HoldsAfterPut<T>(m: map<Key, Value>, prefix: Key, c: Codec<T>, records: map<string, T>, name: string, t: T)
    requires Holds(m, prefix, c, records)
    ensures Holds(m[prefix + name := c.encode(t)], prefix, c, records[name := t])
  {
    var m', records' := m[prefix + name := c.encode(t)], records[name := t];
    forall n: string
      ensures (prefix + n in m' <==> n in records') && (n in records' ==> m'[prefix + n] == c.encode(records'[n]))
    {
      assert (prefix + n)[|prefix|..] == n && (prefix + name)[|prefix|..] == name;
      assert prefix + n in m <==> n in records;
    }
  }

  lemma HoldsAfterOther<T>(m: map<Key, Value>, prefix: Key, c: Codec<T>, records: map<string, T>, key: Key, v: Value)
    requires Holds(m, prefix, c, records) && !HasPrefix(key, prefix)
    ensures Holds(m[key := v], prefix, c, records)
  {
    forall n: string
      ensures (prefix + n in m[key := v] <==> n in records)
              && (n in records ==> m[key := v][prefix + n] == c.encode(records[n]))
    {
      assert HasPrefix(prefix + n, prefix);
      assert prefix + n in m <==> n in records;
    }
  }

  lemma {:induction false} WrittenHolds<C, U>(ws: seq<Write<C, U>>, cc: Codec<C>, cu: Codec<U>)
    ensures var m, i := Written(ws, cc, cu), LastWritten(ws);
            && Holds(m, CHALLENGE_PREFIX, cc, i.challenges)
            && Holds(m, PUBLIC_KEY_PREFIX, cu, i.publicKeys)
            && Holds(m, UUID_PREFIX, cu, i.uuids)
  {
    if ws != [] {
      var front, w := ws[..|ws| - 1], ws[|ws| - 1];
      WrittenHolds(front, cc, cu);
      var m, i := Written(front, cc, cu), LastWritten(front);
      var key, v := KeyOf(SlotOf(w)), Bytes(w, cc, cu);
      PrefixSelects(SlotOf(w));
      if w.WriteChallenge? {
        HoldsAfterPut(m, CHALLENGE_PREFIX, cc, i.challenges, w.name, w.challenge);
      } else {
        HoldsAfterOther(m, CHALLENGE_PREFIX, cc, i.challenges, key, v);
      }
      if w.WritePublicKey? {
        HoldsAfterPut(m, PUBLIC_KEY_PREFIX, cu, i.publicKeys, w.name, w.user);
      } else {
        HoldsAfterOther(m, PUBLIC_KEY_PREFIX, cu, i.publicKeys, key, v);
      }
      if w.WriteUuid? {
        HoldsAfterPut(m, UUID_PREFIX, cu, i.uuids, w.name, w.user);
      } else {
        HoldsAfterOther(m, UUID_PREFIX, cu, i.uuids, key, v);
      }
    }
  }

  lemma HeldRecords<T(!new)>(m: map<Key, Value>, prefix: Key, c: Codec<T>, records: map<string, T>)
    requires RoundTrips(c) && Holds(m, prefix, c, records)
    ensures AllDecode(m, prefix, c) && Records(m, prefix, c) == records && Names(m, prefix) == records.Keys
  {
    forall n ensures n in Names(m, prefix) <==> n in records {
      assert prefix + n in m <==> n in records;
    }
    forall n | n in Names(m, prefix) ensures c.decode(m[prefix + n]) == Some(records[n]) {
      assert m[prefix + n] == c.encode(records[n]);
    }
  }

  /** Performing the puts through the wrapper on an empty store leaves the store with exactly those bytes. */
  method PutAll<C, U>(w: Wrapper, ws: seq<Write<C, U>>, cc: Codec<C>, cu: Codec<U>)
    requires w.Free() && w.store.data.entries == map[]
    modifies w.store
    ensures w.Free() && w.store.data.entries == Written(ws, cc, cu)
  {
    for i := 0 to |ws|
      invariant w.Free() && w.store.data.entries == Written(ws[..i], cc, cu)
      invariant fresh(w.store.begun - old(w.store.begun))
    {
      assert ws[..i + 1][..i] == ws[..i];
      match ws[i]
      case WriteChallenge(n, x) => w.PutChallengeData(n, x, cc);
      case WritePublicKey(n, u) => w.PutDataIdxByPubKey(n, u, cu);
      case WriteUuid(n, u) => w.PutDataIdxByUuid(n, u, cu);
      case WritePrivateKey(b) => w.PutPrivKey(b);
    }
    assert ws[..|ws|] == ws;
  }

  /** For any sequence of puts of any kinds and names, what GetAll reads back under each prefix is
      exactly the map from names to the record last written for that name and kind. */
  lemma GetAllReadsLastWritten<C(!new), U(!new)>(ws: seq<Write<C, U>>, cc: Codec<C>, cu: Codec<U>)
    requires RoundTrips(cc) && RoundTrips(cu)
    ensures var m, i := Written(ws, cc, cu), LastWritten(ws);
            && AllDecode(m, CHALLENGE_PREFIX, cc) && Records(m, CHALLENGE_PREFIX, cc) == i.challenges
            && AllDecode(m, PUBLIC_KEY_PREFIX, cu) && Records(m, PUBLIC_KEY_PREFIX, cu) == i.publicKeys
            && AllDecode(m, UUID_PREFIX, cu) && Records(m, UUID_PREFIX, cu) == i.uuids
            && Names(m, PUBLIC_KEY_PREFIX) == i.publicKeys.Keys && Names(m, UUID_PREFIX) == i.uuids.Keys
  {
    WrittenHolds(ws, cc, cu);
    var m, i := Written(ws, cc, cu), LastWritten(ws);
    HeldRecords(m, CHALLENGE_PREFIX, cc, i.challenges);
    HeldRecords(m, PUBLIC_KEY_PREFIX, cu, i.publicKeys);
    HeldRecords(m, UUID_PREFIX, cu, i.uuids);
  }

  /** The private key survives every write of another kind. */
  lemma {:induction false} PrivateKeyKept<C, U>(ws: seq<Write<C, U>>, cc: Codec<C>, cu: Codec<U>, bytes: Value, n: nat)
    requires n < |ws| && ws[n] == WritePrivateKey(bytes)
    requires forall j :: n < j < |ws| ==> !ws[j].WritePrivateKey?
    ensures PRIVATE_KEY in Written(ws, cc, cu) && Written(ws, cc, cu)[PRIVATE_KEY] == bytes
  {
    var front, w := ws[..|ws| - 1], ws[|ws| - 1];
    if n < |ws| - 1 {
      PrivateKeyKept(front, cc, cu, bytes, n);
      KeySpacesDisjoint(SlotOf(w), PrivateKey);
    }
  }
}
