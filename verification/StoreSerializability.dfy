/** Any number of clients using the in-memory store at once (internal/store/stdstore.go:30-169), one lock
    operation, map access or loop iteration at a time. Go maps live at addresses in a heap, so that a
    committed transaction's map and the store's map can be the same one. */
module StoreSerializability {
  import opened Common
  import opened StoreTypes
  import opened StdStore

  /** Where a client is. `mine` is the address of its transaction's map; ops and answers record what it
      has done in the transaction so far. */
  datatype Pc =
    | Idle
    // BeginTransaction: txmut.Lock, mut.Lock, the copy loop, mut.Unlock
    | WantTx(mine: nat)
    | WantCopy(mine: nat)
    | Copying(mine: nat, todo: set<Key>)
    // an open transaction; its own iterator runs over a map nobody else writes, so it is one operation
    | InTx(mine: nat, ops: seq<TxOp>, answers: seq<Answer>)
    // commit: mut.Lock, the assignment, mut.Unlock, txmut.Unlock
    | WantSwap(mine: nat, ops: seq<TxOp>, answers: seq<Answer>)
    | Swapping(mine: nat, ops: seq<TxOp>, answers: seq<Answer>)
    | Swapped
    | Finishing
    // direct Get
    | WantRead(key: Key)
    | Reading(key: Key)
    // direct Iterator: the loop over the map
    | WantList(prefix: Key)
    | Listing(prefix: Key, todo: set<Key>, keys: seq<Key>)
    // mut.Unlock after a direct access
    | Leaving

  datatype Record = Record(ops: seq<TxOp>, answers: seq<Answer>, at: nat)

  // A direct access and the number of commits before it.
  datatype Seen =
    | SeenValue(key: Key, result: StoreResult<Value>, at: nat)
    | SeenKeys(prefix: Key, keys: seq<Key>, at: nat)

  datatype State = State(
    heap: seq<map<Key, Value>>,
    data: nat,                    // s.data
    mut: Option<nat>, txmut: Option<nat>,
    clients: seq<Pc>,
    committed: seq<Record>, aborted: seq<Record>, seen: seq<Seen>)

  datatype Step =
    | Begin | LockTx | LockMut | CopyKey(key: Key) | CopyDone
    | Do(op: TxOp) | CommitStart | Swap | UnlockMut | UnlockTx | Rollback
    | StartGet(k: Key) | Read | StartList(p: Key) | Visit(v: Key) | ListDone

  function Init(n: nat): State {
    State([map[]], 0, None, None, seq(n, _ => Idle), [], [], [])
  }

  predicate Enabled(s: State, t: nat, step: Step) {
    t < |s.clients| && var pc := s.clients[t];
    match step
    case Begin => pc.Idle?
    case LockTx => pc.WantTx? && s.txmut.None?
    case LockMut => (pc.WantCopy? || pc.WantSwap? || pc.WantRead? || pc.WantList?) && s.mut.None?
    case CopyKey(k) => pc.Copying? && k in pc.todo && s.data < |s.heap| && k in s.heap[s.data] && pc.mine < |s.heap|
    case CopyDone => pc.Copying? && pc.todo == {}
    case Do(_) => pc.InTx? && pc.mine < |s.heap|
    case CommitStart => pc.InTx?
    case Swap => pc.Swapping?
    case UnlockMut => pc.Swapped? || pc.Leaving?
    case UnlockTx => pc.Finishing?
    case Rollback => pc.InTx?
    case StartGet(_) => pc.Idle?
    case Read => pc.Reading? && s.data < |s.heap|
    case StartList(_) => pc.Idle?
    case Visit(k) => pc.Listing? && k in pc.todo
    case ListDone => pc.Listing? && pc.todo == {}
  }

  function Move(s: State, t: nat, pc: Pc): State
    requires t < |s.clients|
  {
    s.(clients := s.clients[t := pc])
  }

  function Locked(s: State, pc: Pc): Pc {
    match pc
    case WantCopy(a) => Copying(a, if s.data < |s.heap| then s.heap[s.data].Keys else {})
    case WantSwap(a, ops, rs) => Swapping(a, ops, rs)
    case WantRead(k) => Reading(k)
    case WantList(p) => Listing(p, if s.data < |s.heap| then s.heap[s.data].Keys else {}, [])
    case _ => pc
  }

  function Apply(s: State, t: nat, step: Step): State
    requires Enabled(s, t, step)
  {
    var pc := s.clients[t];
    match step
    case Begin => Move(s.(heap := s.heap + [map[]]), t, WantTx(|s.heap|))
    case LockTx => Move(s.(txmut := Some(t)), t, WantCopy(pc.mine))
    case LockMut => Move(s.(mut := Some(t)), t, Locked(s, pc))
    case CopyKey(k) =>
      Move(s.(heap := s.heap[pc.mine := s.heap[pc.mine][k := s.heap[s.data][k]]]), t,
           Copying(pc.mine, pc.todo - {k}))
    case CopyDone => Move(s.(mut := None), t, InTx(pc.mine, [], []))
    case Do(op) =>
      Move(s.(heap := s.heap[pc.mine := StdStep(s.heap[pc.mine], op)]), t,
           InTx(pc.mine, pc.ops + [op], pc.answers + StdAnswer(s.heap[pc.mine], op)))
    case CommitStart => Move(s, t, WantSwap(pc.mine, pc.ops, pc.answers))
    case Swap =>
      Move(s.(data := pc.mine, committed := s.committed + [Record(pc.ops, pc.answers, |s.committed|)]), t, Swapped)
    case UnlockMut => Move(s.(mut := None), t, if pc.Swapped? then Finishing else Idle)
    case UnlockTx => Move(s.(txmut := None), t, Idle)
    case Rollback =>
      Move(s.(txmut := None, aborted := s.aborted + [Record(pc.ops, pc.answers, |s.committed|)]), t, Idle)
    case StartGet(k) => Move(s, t, WantRead(k))
    case Read =>
      Move(s.(seen := s.seen + [SeenValue(pc.key, Lookup(s.heap[s.data], pc.key), |s.committed|)]), t, Leaving)
    case StartList(p) => Move(s, t, WantList(p))
    case Visit(k) =>
      Move(s, t, Listing(pc.prefix, pc.todo - {k}, if HasPrefix(k, pc.prefix) then pc.keys + [k] else pc.keys))
    case ListDone => Move(s.(seen := s.seen + [SeenKeys(pc.prefix, pc.keys, |s.committed|)]), t, Leaving)
  }

  // ---------------------------------------------------------------------------
  // The serial specification
  // ---------------------------------------------------------------------------

  /** The map after running the recorded transactions one after another from an empty store. */
  function Serial(records: seq<Record>): map<Key, Value> {
    if records == [] then map[]
    else StdRun(Serial(records[..|records| - 1]), records[|records| - 1].ops).state
  }

  /** The record shows what its transaction would have read running alone after the first `at` commits. */
  predicate Explained(r: Record, records: seq<Record>) {
    r.at <= |records| && r.answers == StdRun(Serial(records[..r.at]), r.ops).answers
  }

  ghost predicate SeenExplained(o: Seen, records: seq<Record>) {
    && o.at <= |records|
    && match o
       case SeenValue(k, r, at) => r == Lookup(Serial(records[..at]), k)
       case SeenKeys(p, keys, at) => multiset(keys) == multiset(WithPrefix(Serial(records[..at]).Keys, p))
  }

  // ---------------------------------------------------------------------------
  // Invariant
  // ---------------------------------------------------------------------------

  predicate HoldsTx(pc: Pc) {
    pc.WantCopy? || pc.Copying? || pc.InTx? || pc.WantSwap? || pc.Swapping? || pc.Swapped? || pc.Finishing?
  }

  predicate HoldsMut(pc: Pc) {
    pc.Copying? || pc.Swapping? || pc.Swapped? || pc.Reading? || pc.Listing? || pc.Leaving?
  }

  predicate HasMap(pc: Pc) {
    pc.WantTx? || pc.WantCopy? || pc.Copying? || pc.InTx? || pc.WantSwap? || pc.Swapping?
  }

  predicate TxLockOk(s: State) {
    && (forall t :: 0 <= t < |s.clients| ==> (HoldsTx(s.clients[t]) <==> s.txmut == Some(t)))
    && (s.txmut.Some? ==> s.txmut.value < |s.clients|)
  }

  predicate MutLockOk(s: State) {
    && (forall t :: 0 <= t < |s.clients| ==> (HoldsMut(s.clients[t]) <==> s.mut == Some(t)))
    && (s.mut.Some? ==> s.mut.value < |s.clients|)
  }

  predicate LocksOk(s: State) { TxLockOk(s) && MutLockOk(s) }

  /** Maps being written are private: no other client and not the store refers to them. */
  predicate MapsOk(s: State) { MapsAllocated(s) && MapsDistinct(s) }

  predicate MapsAllocated(s: State) {
    && s.data < |s.heap|
    && (forall t :: 0 <= t < |s.clients| && HasMap(s.clients[t]) ==> s.clients[t].mine < |s.heap|)
  }

  predicate MapsDistinct(s: State) {
    && (forall t :: 0 <= t < |s.clients| && HasMap(s.clients[t]) ==> s.clients[t].mine != s.data)
    && (forall t, u :: 0 <= t < u < |s.clients| && HasMap(s.clients[t]) && HasMap(s.clients[u]) ==>
          s.clients[t].mine != s.clients[u].mine)
  }

  /** What a client's private data means relative to the store's current map. */
  ghost predicate ClientOk(now: map<Key, Value>, mine: map<Key, Value>, pc: Pc) {
    match pc
    case WantTx(_) => mine == map[]
    case WantCopy(_) => mine == map[]
    case Copying(_, todo) => todo <= now.Keys && mine == map k | k in now && k !in todo :: now[k]
    case InTx(_, ops, rs) => StdRun(now, ops) == Outcome(mine, rs)
    case WantSwap(_, ops, rs) => StdRun(now, ops) == Outcome(mine, rs)
    case Swapping(_, ops, rs) => StdRun(now, ops) == Outcome(mine, rs)
    case Listing(p, todo, keys) => todo <= now.Keys && multiset(keys) == multiset(WithPrefix(now.Keys - todo, p))
    case _ => true
  }

  function MapOf(s: State, pc: Pc): map<Key, Value> {
    if HasMap(pc) && pc.mine < |s.heap| then s.heap[pc.mine] else map[]
  }

  ghost predicate ClientsOk(s: State)
    requires s.data < |s.heap|
  {
    forall t :: 0 <= t < |s.clients| ==> ClientOk(s.heap[s.data], MapOf(s, s.clients[t]), s.clients[t])
  }

  ghost predicate HistoryOk(s: State)
    requires s.data < |s.heap|
  {
    && s.heap[s.data] == Serial(s.committed)
    && (forall i :: 0 <= i < |s.committed| ==> s.committed[i].at == i && Explained(s.committed[i], s.committed))
    && (forall i :: 0 <= i < |s.aborted| ==> Explained(s.aborted[i], s.committed))
    && (forall i :: 0 <= i < |s.seen| ==> SeenExplained(s.seen[i], s.committed))
    && (forall i, j :: 0 <= i < j < |s.seen| ==> s.seen[i].at <= s.seen[j].at)
  }

  ghost predicate Inv(s: State) {
    LocksOk(s) && MapsOk(s) && ClientsOk(s) && HistoryOk(s)
  }

  lemma InvInit(n: nat)
    ensures Inv(Init(n))
  {}

  lemma StepLocks(s: State, t: nat, step: Step)
    requires LocksOk(s) && Enabled(s, t, step)
    ensures LocksOk(Apply(s, t, step))
  {
    StepTxLock(s, t, step);
    StepMutLock(s, t, step);
  }

  lemma StepTxLock(s: State, t: nat, step: Step)
    requires TxLockOk(s) && Enabled(s, t, step)
    ensures TxLockOk(Apply(s, t, step))
  {}

  lemma StepMutLock(s: State, t: nat, step: Step)
    requires MutLockOk(s) && Enabled(s, t, step)
    ensures MutLockOk(Apply(s, t, step))
  {}

  lemma StepMaps(s: State, t: nat, step: Step)
    requires MapsOk(s) && Enabled(s, t, step)
    ensures MapsOk(Apply(s, t, step))
  {
    StepAllocated(s, t, step);
    StepDistinct(s, t, step);
  }

  lemma StepAllocated(s: State, t: nat, step: Step)
    requires MapsAllocated(s) && Enabled(s, t, step)
    ensures MapsAllocated(Apply(s, t, step))
  {}

  lemma StepDistinct(s: State, t: nat, step: Step)
    requires MapsAllocated(s) && MapsDistinct(s) && Enabled(s, t, step)
    ensures MapsDistinct(Apply(s, t, step))
  {}

  /** A client that does not move keeps its meaning, unless the store's map is replaced. */
  lemma OthersKeep(s: State, t: nat, step: Step)
    requires Inv(s) && Enabled(s, t, step) && !step.Swap?
    ensures var s' := Apply(s, t, step);
            && s'.data == s.data < |s'.heap| && s'.heap[s'.data] == s.heap[s.data]
            && forall u :: 0 <= u < |s.clients| && u != t ==>
                 s'.clients[u] == s.clients[u] && MapOf(s', s.clients[u]) == MapOf(s, s.clients[u])
  {}

  // What each kind of step does to the moving client's private data, without the rest of the state.

  lemma StartsListing(now: map<Key, Value>, prefix: Key)
    ensures ClientOk(now, map[], Listing(prefix, now.Keys, []))
  {
    assert WithPrefix(now.Keys - now.Keys, prefix) == {};
  }

  lemma CopiesKey(now: map<Key, Value>, mine: map<Key, Value>, a: nat, todo: set<Key>, k: Key)
    requires ClientOk(now, mine, Copying(a, todo)) && k in todo
    ensures ClientOk(now, mine[k := now[k]], Copying(a, todo - {k}))
  {}

  lemma OpensTransaction(now: map<Key, Value>, mine: map<Key, Value>, a: nat)
    requires ClientOk(now, mine, Copying(a, {}))
    ensures ClientOk(now, mine, InTx(a, [], []))
  {
    assert mine == now;
  }

  lemma Performs(now: map<Key, Value>, mine: map<Key, Value>, a: nat, ops: seq<TxOp>, rs: seq<Answer>, op: TxOp)
    requires ClientOk(now, mine, InTx(a, ops, rs))
    ensures ClientOk(now, StdStep(mine, op), InTx(a, ops + [op], rs + StdAnswer(mine, op)))
  {
    StdRunSnoc(now, ops, op);
  }

  lemma VisitsKey(now: map<Key, Value>, prefix: Key, todo: set<Key>, keys: seq<Key>, k: Key)
    requires ClientOk(now, map[], Listing(prefix, todo, keys)) && k in todo
    ensures ClientOk(now, map[], Listing(prefix, todo - {k}, if HasPrefix(k, prefix) then keys + [k] else keys))
  {
    OneMoreKey(now.Keys - todo, k, prefix);
    assert now.Keys - (todo - {k}) == (now.Keys - todo) + {k};
  }

  lemma MoverOk(s: State, t: nat, step: Step)
    requires Inv(s) && Enabled(s, t, step) && !step.Swap?
    ensures var s' := Apply(s, t, step);
            s.data < |s'.heap| && ClientOk(s.heap[s.data], MapOf(s', s'.clients[t]), s'.clients[t])
  {
    var s', pc, now := Apply(s, t, step), s.clients[t], s.heap[s.data];
    assert ClientOk(now, MapOf(s, pc), pc);
    match step
    case LockMut => if pc.WantList? { StartsListing(now, pc.prefix); }
    case CopyKey(k) => CopiesKey(now, MapOf(s, pc), pc.mine, pc.todo, k);
    case CopyDone => OpensTransaction(now, MapOf(s, pc), pc.mine);
    case Do(op) => Performs(now, MapOf(s, pc), pc.mine, pc.ops, pc.answers, op);
    case Visit(k) => VisitsKey(now, pc.prefix, pc.todo, pc.keys, k);
    case _ =>
  }

  lemma HistoryGrows(r: Record, records: seq<Record>, x: Record)
    requires Explained(r, records)
    ensures Explained(r, records + [x])
  {
    assert (records + [x])[..r.at] == records[..r.at];
  }

  lemma SeenGrows(o: Seen, records: seq<Record>, x: Record)
    requires SeenExplained(o, records)
    ensures SeenExplained(o, records + [x])
  {
    assert (records + [x])[..o.at] == records[..o.at];
  }

  lemma InvQuiet(s: State, t: nat, step: Step)
    requires Inv(s) && Enabled(s, t, step) && !step.Swap?
    ensures Inv(Apply(s, t, step))
  {
    StepLocks(s, t, step);
    StepMaps(s, t, step);
    OthersKeep(s, t, step);
    MoverOk(s, t, step);
    QuietHistory(s, t, step);
  }

  lemma QuietHistory(s: State, t: nat, step: Step)
    requires Inv(s) && Enabled(s, t, step) && !step.Swap?
    requires Apply(s, t, step).data == s.data < |Apply(s, t, step).heap|
    requires Apply(s, t, step).heap[s.data] == s.heap[s.data]
    ensures HistoryOk(Apply(s, t, step))
  {
    var s', pc := Apply(s, t, step), s.clients[t];
    assert ClientOk(s.heap[s.data], MapOf(s, pc), pc);
    if step.Rollback? {
      AbortedHistory(s, s', pc.ops, pc.answers);
    } else if step.Read? {
      SeenHistory(s, s', SeenValue(pc.key, Lookup(s.heap[s.data], pc.key), |s.committed|));
    } else if step.ListDone? {
      assert s.heap[s.data].Keys - {} == s.heap[s.data].Keys;
      SeenHistory(s, s', SeenKeys(pc.prefix, pc.keys, |s.committed|));
    } else {
      SameHistory(s, s');
    }
  }

  // The store's map and the committed transactions are the same in both states.
  predicate SameStore(s: State, s': State) {
    s.data < |s.heap| && s'.data < |s'.heap| && s'.heap[s'.data] == s.heap[s.data] && s'.committed == s.committed
  }

  lemma SameHistory(s: State, s': State)
    requires SameStore(s, s') && HistoryOk(s) && s'.aborted == s.aborted && s'.seen == s.seen
    ensures HistoryOk(s')
  {}

  lemma AbortedHistory(s: State, s': State, ops: seq<TxOp>, rs: seq<Answer>)
    requires SameStore(s, s') && HistoryOk(s) && StdRun(s.heap[s.data], ops).answers == rs
    requires s'.aborted == s.aborted + [Record(ops, rs, |s.committed|)] && s'.seen == s.seen
    ensures HistoryOk(s')
  {
    AbortedExplained(s, ops, rs);
  }

  lemma SeenHistory(s: State, s': State, o: Seen)
    requires SameStore(s, s') && HistoryOk(s) && s'.aborted == s.aborted && s'.seen == s.seen + [o]
    requires o.at == |s.committed|
    requires o.SeenValue? ==> o.result == Lookup(s.heap[s.data], o.key)
    requires o.SeenKeys? ==> multiset(o.keys) == multiset(WithPrefix(s.heap[s.data].Keys, o.prefix))
    ensures HistoryOk(s')
  {
    SeenAtEnd(s, o);
  }

  lemma AbortedExplained(s: State, ops: seq<TxOp>, rs: seq<Answer>)
    requires s.data < |s.heap| && HistoryOk(s) && StdRun(s.heap[s.data], ops).answers == rs
    ensures Explained(Record(ops, rs, |s.committed|), s.committed)
  {
    assert s.committed[..|s.committed|] == s.committed;
  }

  lemma SeenAtEnd(s: State, o: Seen)
    requires s.data < |s.heap| && HistoryOk(s) && o.at == |s.committed|
    requires o.SeenValue? ==> o.result == Lookup(s.heap[s.data], o.key)
    requires o.SeenKeys? ==> multiset(o.keys) == multiset(WithPrefix(s.heap[s.data].Keys, o.prefix))
    ensures SeenExplained(o, s.committed)
    ensures forall i :: 0 <= i < |s.seen| ==> s.seen[i].at <= o.at
  {
    assert s.committed[..|s.committed|] == s.committed;
    forall i | 0 <= i < |s.seen| ensures s.seen[i].at <= o.at {
      assert SeenExplained(s.seen[i], s.committed);
    }
  }

  /** A client that holds no lock knows nothing about the store's map. */
  lemma UninvolvedOk(now: map<Key, Value>, now': map<Key, Value>, mine: map<Key, Value>, pc: Pc)
    requires ClientOk(now, mine, pc) && !HoldsTx(pc) && !HoldsMut(pc)
    ensures ClientOk(now', mine, pc)
  {}

  lemma SwapClients(s: State, t: nat)
    requires LocksOk(s) && MapsOk(s) && ClientsOk(s) && Enabled(s, t, Swap)
    requires MapsAllocated(Apply(s, t, Swap))
    ensures ClientsOk(Apply(s, t, Swap))
  {
    var s', now := Apply(s, t, Swap), s.heap[s.data];
    assert HoldsTx(s.clients[t]) && HoldsMut(s.clients[t]);
    forall u | 0 <= u < |s.clients|
      ensures ClientOk(s'.heap[s'.data], MapOf(s', s'.clients[u]), s'.clients[u])
    {
      if u != t {
        assert ClientOk(now, MapOf(s, s.clients[u]), s.clients[u]);
        UninvolvedOk(now, s'.heap[s'.data], MapOf(s, s.clients[u]), s.clients[u]);
      }
    }
  }

  lemma InvSwap(s: State, t: nat)
    requires Inv(s) && Enabled(s, t, Swap)
    ensures Inv(Apply(s, t, Swap))
  {
    StepLocks(s, t, Swap);
    StepMaps(s, t, Swap);
    SwapClients(s, t);
    var pc := s.clients[t];
    assert ClientOk(s.heap[s.data], MapOf(s, pc), pc);
    CommittedHistory(s, Apply(s, t, Swap), Record(pc.ops, pc.answers, |s.committed|));
  }

  lemma CommittedHistory(s: State, s': State, r: Record)
    requires MapsOk(s) && HistoryOk(s) && s'.data < |s'.heap|
    requires r.at == |s.committed| && StdRun(s.heap[s.data], r.ops) == Outcome(s'.heap[s'.data], r.answers)
    requires s'.committed == s.committed + [r] && s'.aborted == s.aborted && s'.seen == s.seen
    ensures HistoryOk(s')
  {
    assert s'.committed[..|s.committed|] == s.committed;
    forall i | 0 <= i < |s'.committed| ensures Explained(s'.committed[i], s'.committed) {
      if i < |s.committed| {
        HistoryGrows(s.committed[i], s.committed, r);
      }
    }
    forall i | 0 <= i < |s.aborted| ensures Explained(s.aborted[i], s'.committed) {
      HistoryGrows(s.aborted[i], s.committed, r);
    }
    forall i | 0 <= i < |s.seen| ensures SeenExplained(s.seen[i], s'.committed) {
      SeenGrows(s.seen[i], s.committed, r);
    }
  }

  lemma InvStep(s: State, t: nat, step: Step)
    requires Inv(s) && Enabled(s, t, step)
    ensures Inv(Apply(s, t, step))
  {
    if step.Swap? { InvSwap(s, t); } else { InvQuiet(s, t, step); }
  }

  // ---------------------------------------------------------------------------
  // Theorems over all runs
  // ---------------------------------------------------------------------------

  predicate Run(s: State, steps: seq<(nat, Step)>, s': State)
    decreases steps
  {
    if steps == [] then s == s'
    else Enabled(s, steps[0].0, steps[0].1) && Run(Apply(s, steps[0].0, steps[0].1), steps[1..], s')
  }

  lemma {:induction false} RunKeepsInv(s: State, steps: seq<(nat, Step)>, s': State)
    requires Inv(s) && Run(s, steps, s')
    ensures Inv(s')
    decreases steps
  {
    if steps != [] {
      InvStep(s, steps[0].0, steps[0].1);
      RunKeepsInv(Apply(s, steps[0].0, steps[0].1), steps[1..], s');
    }
  }

  ghost predicate Reachable(s: State) {
    exists n: nat, steps: seq<(nat, Step)> :: Run(Init(n), steps, s)
  }

  lemma ReachableInv(s: State)
    requires Reachable(s)
    ensures Inv(s)
  {
    var n: nat, steps: seq<(nat, Step)> :| Run(Init(n), steps, s);
    InvInit(n);
    RunKeepsInv(Init(n), steps, s);
  }

  // What the recorded history says; Serializable says it of the steps.
  lemma HistoryIsSerial(s: State)
    requires Reachable(s)
    ensures s.data < |s.heap| && s.heap[s.data] == Serial(s.committed)
    ensures forall i :: 0 <= i < |s.committed| ==>
              s.committed[i].answers == StdRun(Serial(s.committed[..i]), s.committed[i].ops).answers
    ensures forall i :: 0 <= i < |s.aborted| ==> Explained(s.aborted[i], s.committed)
    ensures forall i :: 0 <= i < |s.seen| ==> SeenExplained(s.seen[i], s.committed)
    ensures forall i, j :: 0 <= i < j < |s.seen| ==> s.seen[i].at <= s.seen[j].at
  {
    ReachableInv(s);
    forall i | 0 <= i < |s.committed|
      ensures s.committed[i].answers == StdRun(Serial(s.committed[..i]), s.committed[i].ops).answers
    {
      assert Explained(s.committed[i], s.committed);
    }
  }

  /** The transaction lock is held exactly while one client is between acquiring it and releasing it,
      and then by that client alone. */
  lemma LockMeansOneTransaction(s: State)
    requires Reachable(s)
    ensures s.txmut.Some? <==> exists t :: 0 <= t < |s.clients| && HoldsTx(s.clients[t])
    ensures forall t, u :: 0 <= t < |s.clients| && 0 <= u < |s.clients| ==>
              (HoldsTx(s.clients[t]) && HoldsTx(s.clients[u]) ==> t == u)
  {
    ReachableInv(s);
    if s.txmut.Some? {
      assert HoldsTx(s.clients[s.txmut.value]);
    }
  }

  predicate WantsMut(pc: Pc) { pc.WantCopy? || pc.WantSwap? || pc.WantRead? || pc.WantList? }

  /** Client t is blocked on a lock that client u holds. */
  predicate WaitsFor(s: State, t: nat, u: nat)
    requires t < |s.clients|
  {
    (WantsMut(s.clients[t]) && s.mut == Some(u)) || (s.clients[t].WantTx? && s.txmut == Some(u))
  }

  /** Waiting never goes round in a circle: a client that is not idle can move itself, or waits for one
      that can, or waits for the transaction's owner, who waits for one that can. */
  lemma NoDeadlock(s: State, t: nat) returns (u: nat, step: Step)
    requires Reachable(s) && t < |s.clients| && !s.clients[t].Idle?
    ensures Enabled(s, u, step) && !s.clients[u].Idle?
    ensures u == t || WaitsFor(s, t, u)
            || (s.txmut.Some? && s.txmut.value < |s.clients|
                && WaitsFor(s, t, s.txmut.value) && WaitsFor(s, s.txmut.value, u))
  {
    ReachableInv(s);
    u := t;
    if s.clients[u].WantTx? && s.txmut.Some? {
      u := s.txmut.value;
      assert HoldsTx(s.clients[u]);
    }
    if WantsMut(s.clients[u]) && s.mut.Some? {
      u := s.mut.value;
      assert HoldsMut(s.clients[u]);
    }
    step := NextStep(s, u);
  }

  lemma NextStep(s: State, u: nat) returns (step: Step)
    requires Inv(s) && u < |s.clients| && !s.clients[u].Idle?
    requires s.clients[u].WantTx? ==> s.txmut.None?
    requires WantsMut(s.clients[u]) ==> s.mut.None?
    ensures Enabled(s, u, step)
  {
    var pc := s.clients[u];
    assert ClientOk(s.heap[s.data], MapOf(s, pc), pc);
    match pc
    case WantTx(_) => step := LockTx;
    case WantCopy(_) => step := LockMut;
    case Copying(_, todo) =>
      if todo == {} { step := CopyDone; } else { var k :| k in todo; step := CopyKey(k); }
    case InTx(_, _, _) => step := CommitStart;
    case WantSwap(_, _, _) => step := LockMut;
    case Swapping(_, _, _) => step := Swap;
    case Swapped => step := UnlockMut;
    case Finishing => step := UnlockTx;
    case WantRead(_) => step := LockMut;
    case Reading(_) => step := Read;
    case WantList(_) => step := LockMut;
    case Listing(_, todo, _) =>
      if todo == {} { step := ListDone; } else { var k :| k in todo; step := Visit(k); }
    case Leaving => step := UnlockMut;
  }

  // ---------------------------------------------------------------------------
  // The history is what the clients did
  // ---------------------------------------------------------------------------

  // What follows reads the list of steps and nothing else.

  datatype Ended = Ended(ops: seq<TxOp>, at: nat)       // a finished transaction; the commits before its end
  datatype Question = ForValue(key: Key) | ForKeys(prefix: Key) | NoQuestion
  datatype Asked = Asked(question: Question, at: nat)   // an answered question; the commits before the answer

  /** The operations client t has issued since it last began a transaction. */
  function OpsSince(steps: seq<(nat, Step)>, t: nat): seq<TxOp> {
    if steps == [] then []
    else
      var front, last := steps[..|steps| - 1], steps[|steps| - 1];
      if last.0 != t then OpsSince(front, t)
      else match last.1
        case Begin => []
        case Do(op) => OpsSince(front, t) + [op]
        case _ => OpsSince(front, t)
  }

  /** The last question client t has asked the store directly. */
  function LastQuestion(steps: seq<(nat, Step)>, t: nat): Question {
    if steps == [] then NoQuestion
    else
      var front, last := steps[..|steps| - 1], steps[|steps| - 1];
      if last.0 != t then LastQuestion(front, t)
      else match last.1
        case StartGet(k) => ForValue(k)
        case StartList(p) => ForKeys(p)
        case _ => LastQuestion(front, t)
  }

  /** One entry for each swap: what the client that swapped had issued. */
  function CommittedBy(steps: seq<(nat, Step)>): seq<Ended> {
    if steps == [] then []
    else
      var front, last := steps[..|steps| - 1], steps[|steps| - 1];
      CommittedBy(front) + if last.1.Swap? then [Ended(OpsSince(front, last.0), |CommittedBy(front)|)] else []
  }

  function AbortedBy(steps: seq<(nat, Step)>): seq<Ended> {
    if steps == [] then []
    else
      var front, last := steps[..|steps| - 1], steps[|steps| - 1];
      AbortedBy(front) + if last.1.Rollback? then [Ended(OpsSince(front, last.0), |CommittedBy(front)|)] else []
  }

  function AskedBy(steps: seq<(nat, Step)>): seq<Asked> {
    if steps == [] then []
    else
      var front, last := steps[..|steps| - 1], steps[|steps| - 1];
      AskedBy(front)
      + if last.1.Read? || last.1.ListDone? then [Asked(LastQuestion(front, last.0), |CommittedBy(front)|)] else []
  }

  // The same of the recorded history.

  function EndedIn(records: seq<Record>): (r: seq<Ended>)
    ensures |r| == |records| && forall i :: 0 <= i < |r| ==> r[i] == Ended(records[i].ops, records[i].at)
  {
    seq(|records|, i requires 0 <= i < |records| => Ended(records[i].ops, records[i].at))
  }

  function QuestionOf(o: Seen): Question {
    match o case SeenValue(k, _, _) => ForValue(k) case SeenKeys(p, _, _) => ForKeys(p)
  }

  function AskedIn(seen: seq<Seen>): (r: seq<Asked>)
    ensures |r| == |seen| && forall i :: 0 <= i < |r| ==> r[i] == Asked(QuestionOf(seen[i]), seen[i].at)
  {
    seq(|seen|, i requires 0 <= i < |seen| => Asked(QuestionOf(seen[i]), seen[i].at))
  }

  predicate ClientDid(pc: Pc, ops: seq<TxOp>, question: Question) {
    match pc
    case WantTx(_) => ops == []
    case WantCopy(_) => ops == []
    case Copying(_, _) => ops == []
    case InTx(_, issued, _) => ops == issued
    case WantSwap(_, issued, _) => ops == issued
    case Swapping(_, issued, _) => ops == issued
    case WantRead(k) => question == ForValue(k)
    case Reading(k) => question == ForValue(k)
    case WantList(p) => question == ForKeys(p)
    case Listing(p, _, _) => question == ForKeys(p)
    case _ => true
  }

  predicate ClientsDid(s: State, steps: seq<(nat, Step)>) {
    forall t :: 0 <= t < |s.clients| ==> ClientDid(s.clients[t], OpsSince(steps, t), LastQuestion(steps, t))
  }

  predicate HistoryDid(s: State, steps: seq<(nat, Step)>) {
    EndedIn(s.committed) == CommittedBy(steps) && EndedIn(s.aborted) == AbortedBy(steps) && AskedIn(s.seen) == AskedBy(steps)
  }

  lemma {:induction false} SplitLast(s: State, steps: seq<(nat, Step)>, s': State) returns (mid: State)
    requires steps != [] && Run(s, steps, s')
    ensures var n := |steps| - 1;
            Run(s, steps[..n], mid) && Enabled(mid, steps[n].0, steps[n].1) && Apply(mid, steps[n].0, steps[n].1) == s'
    decreases steps
  {
    var n := |steps| - 1;
    if n == 0 {
      mid := s;
    } else {
      var rest := steps[1..];
      mid := SplitLast(Apply(s, steps[0].0, steps[0].1), rest, s');
      assert steps[..n][0] == steps[0] && steps[..n][1..] == rest[..n - 1] && rest[n - 1] == steps[n];
    }
  }

  lemma MoverDid(s: State, t: nat, step: Step, front: seq<(nat, Step)>)
    requires ClientsDid(s, front) && Enabled(s, t, step)
    ensures var steps := front + [(t, step)];
            ClientDid(Apply(s, t, step).clients[t], OpsSince(steps, t), LastQuestion(steps, t))
  {
    assert (front + [(t, step)])[..|front|] == front;
    assert ClientDid(s.clients[t], OpsSince(front, t), LastQuestion(front, t));
  }

  lemma OthersDid(s: State, t: nat, step: Step, front: seq<(nat, Step)>)
    requires ClientsDid(s, front) && Enabled(s, t, step)
    ensures ClientsDid(Apply(s, t, step), front + [(t, step)])
  {
    var s', steps := Apply(s, t, step), front + [(t, step)];
    assert steps[..|front|] == front;
    MoverDid(s, t, step, front);
    forall u | 0 <= u < |s'.clients| ensures ClientDid(s'.clients[u], OpsSince(steps, u), LastQuestion(steps, u)) {
      if u != t {
        assert s'.clients[u] == s.clients[u];
        assert ClientDid(s.clients[u], OpsSince(front, u), LastQuestion(front, u));
      }
    }
  }

  lemma EndedSnoc(records: seq<Record>, r: Record)
    ensures EndedIn(records + [r]) == EndedIn(records) + [Ended(r.ops, r.at)]
  {}

  lemma AskedSnoc(seen: seq<Seen>, o: Seen)
    ensures AskedIn(seen + [o]) == AskedIn(seen) + [Asked(QuestionOf(o), o.at)]
  {}

  lemma StepDid(s: State, t: nat, step: Step, front: seq<(nat, Step)>)
    requires ClientsDid(s, front) && HistoryDid(s, front) && Enabled(s, t, step)
    ensures HistoryDid(Apply(s, t, step), front + [(t, step)])
  {
    var pc := s.clients[t];
    assert (front + [(t, step)])[..|front|] == front;
    assert ClientDid(pc, OpsSince(front, t), LastQuestion(front, t));
    match step
    case Swap => EndedSnoc(s.committed, Record(pc.ops, pc.answers, |s.committed|));
    case Rollback => EndedSnoc(s.aborted, Record(pc.ops, pc.answers, |s.committed|));
    case Read => AskedSnoc(s.seen, SeenValue(pc.key, Lookup(s.heap[s.data], pc.key), |s.committed|));
    case ListDone => AskedSnoc(s.seen, SeenKeys(pc.prefix, pc.keys, |s.committed|));
    case _ =>
  }

  /** In every interleaving the history has exactly one committed transaction for each swap, in that order,
      with exactly the operations its client issued since it began; one aborted transaction for each
      rollback, likewise; and one answer for each direct read or listing, to the question its client asked,
      given the commits so far. */
  lemma {:induction false} HistoryIsWhatClientsDid(n: nat, steps: seq<(nat, Step)>, s: State)
    requires Run(Init(n), steps, s)
    ensures EndedIn(s.committed) == CommittedBy(steps)
    ensures EndedIn(s.aborted) == AbortedBy(steps)
    ensures AskedIn(s.seen) == AskedBy(steps)
    ensures ClientsDid(s, steps)
    decreases steps
  {
    if steps != [] {
      var mid := SplitLast(Init(n), steps, s);
      var front, last := steps[..|steps| - 1], steps[|steps| - 1];
      assert steps == front + [last];
      HistoryIsWhatClientsDid(n, front, mid);
      OthersDid(mid, last.0, last.1, front);
      StepDid(mid, last.0, last.1, front);
    }
  }

  /** The map after running the given transactions one after another. */
  function SerialRun(done: seq<Ended>): map<Key, Value> {
    if done == [] then map[] else StdRun(SerialRun(done[..|done| - 1]), done[|done| - 1].ops).state
  }

  lemma {:induction false} SerialIsSerialRun(records: seq<Record>)
    ensures Serial(records) == SerialRun(EndedIn(records))
  {
    if records != [] {
      var front := records[..|records| - 1];
      SerialIsSerialRun(front);
      assert EndedIn(records)[..|records| - 1] == EndedIn(front);
    }
  }

  /** Every interleaving is equivalent to running the transactions that swapped, each with exactly the
      operations its client issued since it began, one after another in the order of the swaps: the store
      holds their serial result, and each of them read what it would have read alone after its predecessors,
      its own writes included. A rolled-back transaction read a serial state and left no trace. Every direct
      Get or Iterator was answered, to the question its client asked, from the whole committed state at that
      moment. */
  lemma Serializable(n: nat, steps: seq<(nat, Step)>, s: State)
    requires Run(Init(n), steps, s)
    ensures s.data < |s.heap| && s.heap[s.data] == SerialRun(CommittedBy(steps))
    ensures EndedIn(s.committed) == CommittedBy(steps) && EndedIn(s.aborted) == AbortedBy(steps)
    ensures AskedIn(s.seen) == AskedBy(steps)
    ensures forall i :: 0 <= i < |s.committed| ==>
              s.committed[i].answers == StdRun(Serial(s.committed[..i]), s.committed[i].ops).answers
    ensures forall i :: 0 <= i < |s.aborted| ==> Explained(s.aborted[i], s.committed)
    ensures forall i :: 0 <= i < |s.seen| ==> SeenExplained(s.seen[i], s.committed)
    ensures forall i, j :: 0 <= i < j < |s.seen| ==> s.seen[i].at <= s.seen[j].at
  {
    HistoryIsSerial(s);
    HistoryIsWhatClientsDid(n, steps, s);
    SerialIsSerialRun(s.committed);
  }

  /** Nothing but a lock holds a client back: an idle one may begin, get or list, and one inside a
      transaction may issue any operation, commit or roll back. */
  lemma ClientsAreFree(s: State, t: nat, op: TxOp, k: Key)
    requires Reachable(s) && t < |s.clients|
    ensures s.clients[t].Idle? ==> Enabled(s, t, Begin) && Enabled(s, t, StartGet(k)) && Enabled(s, t, StartList(k))
    ensures s.clients[t].InTx? ==> Enabled(s, t, Do(op)) && Enabled(s, t, CommitStart) && Enabled(s, t, Rollback)
  {
    ReachableInv(s);
  }
}
