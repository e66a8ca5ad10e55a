/** The overlay transaction of the etcd store against the snapshot transaction of the in-memory store. One
    caller holds a transaction of each kind, begun on the same content, and issues every operation to both
    while it writes over its slices as it likes and anyone writes directly to the etcd store. When do the
    two give the same answers, and when do they commit the same map? */
module OverlayRefinement {
  import opened Common
  import opened StoreTypes
  import opened StdStore
  import opened EtcdStore

  // A slice is an address in the caller's heap. The slices the caller holds are those it made and those
  // Get returned to it. Overlapping slices are overwritten by one event each.
  datatype Event =
    | Make(bytes: Value)
    | Overwrite(slice: nat, bytes: Value)
    | Put(key: Key, slice: nat)
    | Get(key: Key)
    | Delete(key: Key)
    | List(prefix: Key)
    | DirectPut(key: Key, value: Value)    // by anyone: needs no lock
    | DirectDelete(key: Key)

  /** `copy` is the in-memory transaction's map; `base` the etcd store, `ins` and `del` the etcd
      transaction's buffers. For specification, `put` has the bytes each buffered slice held when put. */
  datatype State = State(heap: seq<Value>, copy: map<Key, Value>, base: map<Key, Value>,
                         ins: map<Key, nat>, del: set<Key>, put: map<Key, Value>)

  function Begin(heap: seq<Value>, content: map<Key, Value>): State {
    State(heap, content, content, map[], {}, map[])
  }

  predicate Sound(s: State) {
    s.put.Keys == s.ins.Keys && forall k :: k in s.ins ==> s.ins[k] < |s.heap|
  }

  /** The etcd transaction's buffered writes as they are now, and as they were put. */
  function Now(s: State): Buffered
    requires Sound(s)
  {
    Buffered(map k | k in s.ins :: s.heap[s.ins[k]], s.del)
  }

  function AtPut(s: State): Buffered { Buffered(s.put, s.del) }

  /** The caller can only use slices it holds. */
  predicate Enabled(s: State, e: Event) {
    (e.Overwrite? || e.Put?) ==> e.slice < |s.heap|
  }

  /** What Get hands out besides an answer: the in-memory transaction a fresh slice; the etcd one a fresh
      slice if it asks the store, and the buffered slice itself, no new one, if it has the key. */
  function NewSlices(s: State, k: Key): seq<Value> {
    (if k in s.copy then [s.copy[k]] else [])
    + (if k !in s.ins && k !in s.del && k in s.base then [s.base[k]] else [])
  }

  function Apply(s: State, e: Event): State
    requires Enabled(s, e)
  {
    match e
    case Make(b) => s.(heap := s.heap + [b])
    case Overwrite(a, b) => s.(heap := s.heap[a := b])
    case Put(k, a) => s.(copy := StdStep(s.copy, TxPut(k, s.heap[a])), ins := s.ins[k := a], put := s.put[k := s.heap[a]])
    case Get(k) => s.(heap := s.heap + NewSlices(s, k))
    case Delete(k) =>
      s.(copy := StdStep(s.copy, TxDelete(k)), ins := s.ins - {k}, del := s.del + {k}, put := s.put - {k})
    case List(_) => s
    case DirectPut(k, v) => s.(base := s.base[k := v])
    case DirectDelete(k) => s.(base := s.base - {k})
  }

  function EtcdGet(base: map<Key, Value>, b: Buffered, k: Key): StoreResult<Value> {
    if k in b.ins then Ok(b.ins[k]) else if k in b.del then Err(ValueUnset(k)) else Lookup(base, k)
  }

  datatype Pair = Pair(std: Answer, etcd: Answer)

  function Answers(s: State, e: Event): seq<Pair>
    requires Sound(s)
  {
    match e
    case Get(k) => [Pair(Got(Lookup(s.copy, k)), Got(EtcdGet(s.base, Now(s), k)))]
    case List(p) => [Pair(Listed(multiset(WithPrefix(s.copy.Keys, p))), Listed(ListedKeys(s.base, Now(s), p)))]
    case _ => []
  }

  lemma StepSound(s: State, e: Event)
    requires Sound(s) && Enabled(s, e)
    ensures Sound(Apply(s, e))
  {}

  predicate Legal(s: State, events: seq<Event>)
    decreases events
  {
    events == [] || (Enabled(s, events[0]) && Legal(Apply(s, events[0]), events[1..]))
  }

  function Final(s: State, events: seq<Event>): (s': State)
    requires Sound(s) && Legal(s, events)
    ensures Sound(s')
    decreases events
  {
    if events == [] then s else Final(Apply(s, events[0]), events[1..])
  }

  function AllAnswers(s: State, events: seq<Event>): seq<Pair>
    requires Sound(s) && Legal(s, events)
    decreases events
  {
    if events == [] then [] else Answers(s, events[0]) + AllAnswers(Apply(s, events[0]), events[1..])
  }

  predicate Agree(pairs: seq<Pair>) { forall i :: 0 <= i < |pairs| ==> pairs[i].std == pairs[i].etcd }

  // ---------------------------------------------------------------------------
  // The in-memory transaction works by value
  // ---------------------------------------------------------------------------

  /** The operation an event is for the transactions, with the bytes its slice holds at that moment. */
  function OpOf(s: State, e: Event): seq<TxOp>
    requires Enabled(s, e)
  {
    match e
    case Put(k, a) => [TxPut(k, s.heap[a])]
    case Get(k) => [TxGet(k)]
    case Delete(k) => [TxDelete(k)]
    case List(p) => [TxList(p)]
    case _ => []
  }

  function Ops(s: State, events: seq<Event>): seq<TxOp>
    requires Legal(s, events)
    decreases events
  {
    if events == [] then [] else OpOf(s, events[0]) + Ops(Apply(s, events[0]), events[1..])
  }

  function StdAnswers(pairs: seq<Pair>): (answers: seq<Answer>)
    ensures |answers| == |pairs| && forall i :: 0 <= i < |pairs| ==> answers[i] == pairs[i].std
  {
    seq(|pairs|, i requires 0 <= i < |pairs| => pairs[i].std)
  }

  lemma StepByValue(s: State, e: Event)
    requires Sound(s) && Enabled(s, e)
    ensures StdRun(s.copy, OpOf(s, e)) == Outcome(Apply(s, e).copy, StdAnswers(Answers(s, e)))
  {
    var ops := OpOf(s, e);
    if ops != [] {
      assert ops[1..] == [];
    }
  }

  lemma StdAnswersConcat(xs: seq<Pair>, ys: seq<Pair>)
    ensures StdAnswers(xs + ys) == StdAnswers(xs) + StdAnswers(ys)
  {}

  lemma RunOneFirst(m: map<Key, Value>, first: seq<TxOp>, rest: seq<TxOp>)
    requires |first| <= 1
    ensures var one := StdRun(m, first);
            StdRun(m, first + rest) == Outcome(StdRun(one.state, rest).state, one.answers + StdRun(one.state, rest).answers)
  {
    if first == [] {
      assert first + rest == rest;
      assert [] + StdRun(m, rest).answers == StdRun(m, rest).answers;
    } else {
      assert (first + rest)[1..] == rest && first[1..] == [];
      assert StdAnswer(m, first[0]) + [] == StdAnswer(m, first[0]);
    }
  }

  /** For every schedule: the in-memory transaction answers and ends as if run alone on the bytes as they
      were put. Neither overwritten slices nor direct writes to the other store reach it. */
  lemma {:induction false} StdWorksByValue(s: State, events: seq<Event>)
    requires Sound(s) && Legal(s, events)
    ensures StdRun(s.copy, Ops(s, events)) == Outcome(Final(s, events).copy, StdAnswers(AllAnswers(s, events)))
    decreases events
  {
    if events == [] {
      assert StdAnswers([]) == [];
    } else {
      var s', rest := Apply(s, events[0]), events[1..];
      StdWorksByValue(s', rest);
      StepByValue(s, events[0]);
      RunOneFirst(s.copy, OpOf(s, events[0]), Ops(s', rest));
      StdAnswersConcat(Answers(s, events[0]), AllAnswers(s', rest));
    }
  }

  // ---------------------------------------------------------------------------
  // When the answers agree
  // ---------------------------------------------------------------------------

  /** What the caller can check before a Get or List: nothing it is about to look at has been disturbed.
      For Get: the slice buffered for the key holds the bytes it was put with; or the key is not written by
      the transaction, and the store has it as it was at the beginning. For List: no listed key was put over
      a stored one without a delete (the etcd iterator would list it twice), and no key the transaction has
      not written has come or gone. */
  ghost predicate Undisturbed(begin: map<Key, Value>, s: State, e: Event)
    requires Sound(s)
  {
    match e
    case Get(k) =>
      if k in s.ins then s.heap[s.ins[k]] == s.put[k] else k in s.del || Lookup(s.base, k) == Lookup(begin, k)
    case List(p) => ListingStands(begin, s.base, AtPut(s), p)
    case _ => true
  }

  ghost predicate AllUndisturbed(begin: map<Key, Value>, s: State, events: seq<Event>)
    requires Sound(s) && Legal(s, events)
    decreases events
  {
    events == [] || (Undisturbed(begin, s, events[0]) && AllUndisturbed(begin, Apply(s, events[0]), events[1..]))
  }

  /** The in-memory map is what the etcd transaction would see on the content at the beginning, had its
      slices been copied when put. */
  predicate InStep(begin: map<Key, Value>, s: State) { Sound(s) && s.copy == Overlay(begin, AtPut(s)) }

  lemma OverlayCommutes(base: map<Key, Value>, b: Buffered, k: Key, v: Value)
    ensures Overlay(base, BufferPut(b, k, v)) == Overlay(base, b)[k := v]
    ensures Overlay(base, BufferDelete(b, k)) == Overlay(base, b) - {k}
  {}

  lemma StepInStep(begin: map<Key, Value>, s: State, e: Event)
    requires InStep(begin, s) && Enabled(s, e)
    ensures InStep(begin, Apply(s, e))
  {
    StepSound(s, e);
    match e
    case Put(k, a) =>
      OverlayCommutes(begin, AtPut(s), k, s.heap[a]);
      assert AtPut(Apply(s, e)) == BufferPut(AtPut(s), k, s.heap[a]);
    case Delete(k) =>
      OverlayCommutes(begin, AtPut(s), k, []);
      assert AtPut(Apply(s, e)) == BufferDelete(AtPut(s), k);
    case _ =>
      assert AtPut(Apply(s, e)) == AtPut(s) && Apply(s, e).copy == s.copy;
  }

  lemma GetsAgreeIff(begin: map<Key, Value>, s: State, k: Key)
    requires InStep(begin, s)
    ensures Lookup(s.copy, k) == EtcdGet(s.base, Now(s), k) <==> Undisturbed(begin, s, Get(k))
  {}

  /** No key with the prefix was put over a stored one without a delete, and none the transaction has not
      written is stored on one side only. */
  ghost predicate ListingStands(m: map<Key, Value>, base: map<Key, Value>, b: Buffered, p: Key) {
    forall k :: HasPrefix(k, p) ==>
      if k in b.ins then k !in base || k in b.del else k in b.del || (k in base <==> k in m)
  }

  /** A listing by the etcd transaction over `base` is that of the snapshot transaction on `m`, each key as
      often, exactly when it stands. */
  lemma ListingStandsIff(m: map<Key, Value>, base: map<Key, Value>, b: Buffered, p: Key)
    ensures multiset(WithPrefix(Overlay(m, b).Keys, p)) == ListedKeys(base, b, p) <==> ListingStands(m, base, b, p)
  {
    var std, etcd := multiset(WithPrefix(Overlay(m, b).Keys, p)), ListedKeys(base, b, p);
    forall k: Key
      ensures std[k] == etcd[k] <==>
              (HasPrefix(k, p) ==>
                if k in b.ins then k !in base || k in b.del else k in b.del || (k in base <==> k in m))
    {
      ListCounts(m, base, b, p, k);
    }
    if ListingStands(m, base, b, p) {
      assert forall k :: std[k] == etcd[k];
      assert std == etcd;
    }
  }

  lemma ListCounts(m: map<Key, Value>, base: map<Key, Value>, b: Buffered, p: Key, k: Key)
    ensures multiset(WithPrefix(Overlay(m, b).Keys, p))[k]
            == if HasPrefix(k, p) && (k in b.ins || (k in m && k !in b.del)) then 1 else 0
    ensures ListedKeys(base, b, p)[k]
            == (if HasPrefix(k, p) && k in base && k !in b.del then 1 else 0)
               + (if HasPrefix(k, p) && k in b.ins then 1 else 0)
  {
    assert k in WithPrefix(Overlay(m, b).Keys, p) <==> HasPrefix(k, p) && (k in b.ins || (k in m && k !in b.del));
    assert k in WithPrefix(base.Keys - b.del, p) <==> HasPrefix(k, p) && k in base && k !in b.del;
    assert k in WithPrefix(b.ins.Keys, p) <==> HasPrefix(k, p) && k in b.ins;
  }

  lemma ListsAgreeIff(begin: map<Key, Value>, s: State, p: Key)
    requires InStep(begin, s)
    ensures multiset(WithPrefix(s.copy.Keys, p)) == ListedKeys(s.base, Now(s), p) <==> Undisturbed(begin, s, List(p))
  {
    assert Now(s).ins.Keys == AtPut(s).ins.Keys;
    ListingStandsIff(begin, s.base, AtPut(s), p);
  }

  lemma AnswersAgreeIff(begin: map<Key, Value>, s: State, e: Event)
    requires InStep(begin, s)
    ensures Agree(Answers(s, e)) <==> Undisturbed(begin, s, e)
  {
    match e
    case Get(k) =>
      GetsAgreeIff(begin, s, k);
      assert Agree(Answers(s, e)) <==> Answers(s, e)[0].std == Answers(s, e)[0].etcd;
    case List(p) =>
      ListsAgreeIff(begin, s, p);
      assert Agree(Answers(s, e)) <==> Answers(s, e)[0].std == Answers(s, e)[0].etcd;
    case _ =>
  }

  lemma AgreeConcat(xs: seq<Pair>, ys: seq<Pair>)
    ensures Agree(xs + ys) <==> Agree(xs) && Agree(ys)
  {
    assert forall i :: 0 <= i < |xs| ==> (xs + ys)[i] == xs[i];
    assert forall i :: 0 <= i < |ys| ==> (xs + ys)[|xs| + i] == ys[i];
  }

  /** For every schedule: all answers agree exactly when no Get or List meets a disturbance, that is, an
      overwritten slice, a direct write, or a stored key put again. */
  lemma {:induction false} RunsAgreeIff(begin: map<Key, Value>, s: State, events: seq<Event>)
    requires InStep(begin, s) && Legal(s, events)
    ensures Agree(AllAnswers(s, events)) <==> AllUndisturbed(begin, s, events)
    ensures InStep(begin, Final(s, events))
    decreases events
  {
    if events != [] {
      var s', rest := Apply(s, events[0]), events[1..];
      StepInStep(begin, s, events[0]);
      AnswersAgreeIff(begin, s, events[0]);
      RunsAgreeIff(begin, s', rest);
      AgreeConcat(Answers(s, events[0]), AllAnswers(s', rest));
    }
  }

  lemma BeginInStep(heap: seq<Value>, content: map<Key, Value>)
    ensures InStep(content, Begin(heap, content))
  {}

  /** The same from the beginning of the transactions, whatever slices the caller starts out with. */
  lemma AnswersAgreeIffUndisturbed(heap: seq<Value>, content: map<Key, Value>, events: seq<Event>)
    requires Legal(Begin(heap, content), events)
    ensures Agree(AllAnswers(Begin(heap, content), events)) <==> AllUndisturbed(content, Begin(heap, content), events)
  {
    BeginInStep(heap, content);
    RunsAgreeIff(content, Begin(heap, content), events);
  }

  // ---------------------------------------------------------------------------
  // When the commits agree
  // ---------------------------------------------------------------------------

  predicate SlicesIntact(s: State)
    requires Sound(s)
  {
    forall k :: k in s.ins ==> s.heap[s.ins[k]] == s.put[k]
  }

  ghost predicate RestIntact(begin: map<Key, Value>, s: State) {
    forall k :: k !in s.ins && k !in s.del ==> Lookup(s.base, k) == Lookup(begin, k)
  }

  lemma OverlaysAgreeIff(begin: map<Key, Value>, s: State)
    requires Sound(s)
    ensures Overlay(s.base, Now(s)) == Overlay(begin, AtPut(s)) <==> SlicesIntact(s) && RestIntact(begin, s)
  {
    var etcd, std := Overlay(s.base, Now(s)), Overlay(begin, AtPut(s));
    forall k: Key
      ensures Lookup(etcd, k) == Lookup(std, k) <==>
              (k in s.ins ==> s.heap[s.ins[k]] == s.put[k])
              && (k !in s.ins && k !in s.del ==> Lookup(s.base, k) == Lookup(begin, k))
    {}
    if SlicesIntact(s) && RestIntact(begin, s) {
      forall k: Key ensures (k in etcd <==> k in std) && (k in etcd && k in std ==> etcd[k] == std[k]) {
        assert Lookup(etcd, k) == Lookup(std, k);
      }
    }
  }

  lemma StateCommitsAgree(begin: map<Key, Value>, s: State, kv: map<Key, Value>, batch: seq<Op>)
    requires InStep(begin, s) && Region(kv) == s.base && IsBatch(Now(s), batch)
    ensures Region(ApplyOps(kv, batch)) == s.copy <==> SlicesIntact(s) && RestIntact(begin, s)
  {
    BatchGivesOverlay(kv, Now(s), batch);
    OverlaysAgreeIff(begin, s);
  }

  /** For every schedule, and whatever order the commit batch is listed in: the two commits leave the same
      map exactly when every buffered slice holds the bytes it was put with and every key the transaction
      did not write is still as it was at the beginning. */
  lemma CommitsAgreeIff(heap: seq<Value>, content: map<Key, Value>, events: seq<Event>, s: State,
                        kv: map<Key, Value>, batch: seq<Op>)
    requires Legal(Begin(heap, content), events) && s == Final(Begin(heap, content), events)
    requires Region(kv) == s.base && IsBatch(Now(s), batch)
    ensures Region(ApplyOps(kv, batch)) == s.copy <==> SlicesIntact(s) && RestIntact(content, s)
  {
    BeginInStep(heap, content);
    RunsAgreeIff(content, Begin(heap, content), events);
    StateCommitsAgree(content, s, kv, batch);
  }

  // ---------------------------------------------------------------------------
  // The careful caller
  // ---------------------------------------------------------------------------

  /** Nobody writes directly to the store, and no slice is changed while it is buffered. */
  predicate Careful(s: State, events: seq<Event>)
    requires Sound(s) && Legal(s, events)
    decreases events
  {
    events == [] ||
    var e := events[0];
    && !e.DirectPut? && !e.DirectDelete?
    && (e.Overwrite? ==> e.slice !in s.ins.Values || e.bytes == s.heap[e.slice])
    && Careful(Apply(s, e), events[1..])
  }

  /** Gets agree, and the same keys are listed. */
  ghost predicate SameView(p: Pair) {
    match p.std
    case Got(_) => p.etcd == p.std
    case Listed(keys) => p.etcd.Listed? && forall k :: k in p.etcd.keys <==> k in keys
  }

  lemma SameKeysListed(m: map<Key, Value>, b: Buffered, p: Key)
    ensures forall k :: k in ListedKeys(m, b, p) <==> k in multiset(WithPrefix(Overlay(m, b).Keys, p))
  {
    forall k: Key ensures k in ListedKeys(m, b, p) <==> k in multiset(WithPrefix(Overlay(m, b).Keys, p)) {
      ListCounts(m, m, b, p, k);
    }
  }

  lemma CarefulAnswer(begin: map<Key, Value>, s: State, e: Event)
    requires InStep(begin, s) && s.base == begin && SlicesIntact(s) && Enabled(s, e)
    ensures forall i :: 0 <= i < |Answers(s, e)| ==> SameView(Answers(s, e)[i])
  {
    match e
    case Get(k) => GetsAgreeIff(begin, s, k);
    case List(p) =>
      assert Now(s) == AtPut(s);
      SameKeysListed(begin, AtPut(s), p);
    case _ =>
  }

  lemma CarefulStep(begin: map<Key, Value>, s: State, e: Event)
    requires Sound(s) && s.base == begin && SlicesIntact(s) && Enabled(s, e)
    requires !e.DirectPut? && !e.DirectDelete?
    requires e.Overwrite? ==> e.slice !in s.ins.Values || e.bytes == s.heap[e.slice]
    ensures Apply(s, e).base == begin && SlicesIntact(Apply(s, e))
  {}

  lemma {:induction false} CarefulRun(begin: map<Key, Value>, s: State, events: seq<Event>)
    requires InStep(begin, s) && s.base == begin && SlicesIntact(s) && Legal(s, events) && Careful(s, events)
    ensures Final(s, events).base == begin && SlicesIntact(Final(s, events))
    ensures forall i :: 0 <= i < |AllAnswers(s, events)| ==> SameView(AllAnswers(s, events)[i])
    decreases events
  {
    if events != [] {
      CarefulStep(begin, s, events[0]);
      CarefulAnswer(begin, s, events[0]);
      StepInStep(begin, s, events[0]);
      CarefulRun(begin, Apply(s, events[0]), events[1..]);
    }
  }

  /** With a careful caller the overlay refines the snapshot: for every content and every sequence of
      operations, the same values and unset errors, the same keys listed, and, whatever order the commit
      batch is listed in, the same map committed. */
  lemma EtcdRefinesStd(heap: seq<Value>, kv: map<Key, Value>, events: seq<Event>, s: State, batch: seq<Op>)
    requires var s0 := Begin(heap, Region(kv));
             Legal(s0, events) && Careful(s0, events) && s == Final(s0, events) && IsBatch(Now(s), batch)
    ensures var pairs := AllAnswers(Begin(heap, Region(kv)), events);
            forall i :: 0 <= i < |pairs| ==> SameView(pairs[i])
    ensures Region(ApplyOps(kv, batch)) == s.copy
  {
    BeginInStep(heap, Region(kv));
    CarefulRun(Region(kv), Begin(heap, Region(kv)), events);
    CommitsAgreeIff(heap, Region(kv), events, s, kv, batch);
  }

  // ---------------------------------------------------------------------------
  // Runs where they differ
  // ---------------------------------------------------------------------------

  /** A direct write is seen by the etcd transaction and survives its commit. */
  lemma DirectWriteIsSeen(k: Key, v: Value)
    ensures var s, events := Begin([], map[]), [DirectPut(k, v), Get(k)];
            && Legal(s, events)
            && AllAnswers(s, events) == [Pair(Got(Err(ValueUnset(k))), Got(Ok(v)))]
            && Final(s, events).copy == map[]
            && Overlay(Final(s, events).base, Now(Final(s, events))) == map[k := v]
  {
    var s, events := Begin([], map[]), [DirectPut(k, v), Get(k)];
    var s1 := Apply(s, DirectPut(k, v));
    var s2 := Apply(s1, Get(k));
    LastEvent(s1, Get(k));
    FirstEvent(s, DirectPut(k, v), [Get(k)]);
  }

  /** Writing over a slice after putting it changes what the etcd transaction answers and commits. Slice 0
      is also the one the first Get returns. */
  lemma OverwriteIsSeen(k: Key, v: Value, w: Value)
    requires v != w
    ensures var s, events := Begin([v], map[]), [Put(k, 0), Get(k), Overwrite(0, w), Get(k)];
            && Legal(s, events)
            && AllAnswers(s, events) == [Pair(Got(Ok(v)), Got(Ok(v))), Pair(Got(Ok(v)), Got(Ok(w)))]
            && Final(s, events).copy == map[k := v]
            && Overlay(Final(s, events).base, Now(Final(s, events))) == map[k := w]
  {
    var s := Begin([v], map[]);
    var s1 := Apply(s, Put(k, 0));
    var s' := GetThenOverwrite(k, v, w, s1);
    FirstEvent(s, Put(k, 0), [Get(k), Overwrite(0, w), Get(k)]);
  }

  lemma GetThenOverwrite(k: Key, v: Value, w: Value, s: State) returns (s': State)
    requires s == State([v], map[k := v], map[], map[k := 0], {}, map[k := v])
    ensures var events := [Get(k), Overwrite(0, w), Get(k)];
            && Legal(s, events) && s' == Final(s, events)
            && AllAnswers(s, events) == [Pair(Got(Ok(v)), Got(Ok(v))), Pair(Got(Ok(v)), Got(Ok(w)))]
    ensures s'.copy == map[k := v] && Overlay(s'.base, Now(s')) == map[k := w]
  {
    var s1 := Apply(s, Get(k));
    s' := OverwriteThenGet(k, v, w, s1);
    FirstEvent(s, Get(k), [Overwrite(0, w), Get(k)]);
  }

  lemma OverwriteThenGet(k: Key, v: Value, w: Value, s: State) returns (s': State)
    requires s == State([v, v], map[k := v], map[], map[k := 0], {}, map[k := v])
    ensures var events := [Overwrite(0, w), Get(k)];
            Legal(s, events) && s' == Final(s, events) && AllAnswers(s, events) == [Pair(Got(Ok(v)), Got(Ok(w)))]
    ensures s'.copy == map[k := v] && Overlay(s'.base, Now(s')) == map[k := w]
  {
    var s1 := Apply(s, Overwrite(0, w));
    s' := Apply(s1, Get(k));
    LastEvent(s1, Get(k));
    FirstEvent(s, Overwrite(0, w), [Get(k)]);
  }

  lemma FirstEvent(s: State, e: Event, events: seq<Event>)
    requires Sound(s) && Enabled(s, e) && Legal(Apply(s, e), events)
    ensures Legal(s, [e] + events) && Final(s, [e] + events) == Final(Apply(s, e), events)
    ensures AllAnswers(s, [e] + events) == Answers(s, e) + AllAnswers(Apply(s, e), events)
  {
    assert ([e] + events)[1..] == events;
  }

  lemma LastEvent(s: State, e: Event)
    requires Sound(s) && Enabled(s, e)
    ensures Legal(s, [e]) && Final(s, [e]) == Apply(s, e) && AllAnswers(s, [e]) == Answers(s, e)
  {
    assert [e] + [] == [e];
    FirstEvent(s, e, []);
  }
}
