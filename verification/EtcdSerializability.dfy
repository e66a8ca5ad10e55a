/** Any number of clients of the etcd store at once (internal/store/etcdstore.go:66-237): transactions, which
    hold the cluster's lock from begin to end but read the live store, and direct accesses, which take no
    lock. Each request to the cluster is one step. Slices are not overwritten while buffered here; see
    OverlayRefinement for what happens when they are. */
module EtcdSerializability {
  import opened Common
  import opened StoreTypes
  import opened StdStore
  import opened EtcdStore
  import R = OverlayRefinement

  /** Where a client is. `seen` has, for each operation of the open transaction, the number of changes the
      store had undergone when it ran. */
  datatype Pc =
    | Idle
    | WantLock
    | InTx(start: nat, buffer: Buffered, ops: seq<TxOp>, answers: seq<Answer>, seen: seq<nat>)
    | Releasing     // before mut.Unlock

  // A change of the store: a direct write, or a whole committed transaction.
  datatype Change =
    | Direct(op: TxOp)
    | Committed(start: nat, ops: seq<TxOp>, answers: seq<Answer>, seen: seq<nat>)

  // A direct read and the number of changes before it.
  datatype Read = Read(op: TxOp, answer: seq<Answer>, at: nat)

  datatype State = State(initial: map<Key, Value>, base: map<Key, Value>, lock: Option<nat>, clients: seq<Pc>,
                         history: seq<Change>, directReads: seq<Read>)

  datatype Step =
    | Begin | Lock | Do(op: TxOp) | Commit | Rollback | Unlock
    | DirectWrite(w: TxOp) | DirectRead(r: TxOp)

  const EMPTY_BUFFER := Buffered(map[], {})

  function Init(content: map<Key, Value>, n: nat): State {
    State(content, content, None, seq(n, _ => Idle), [], [])
  }

  function EtcdStep(b: Buffered, op: TxOp): Buffered {
    match op
    case TxPut(k, v) => BufferPut(b, k, v)
    case TxDelete(k) => BufferDelete(b, k)
    case _ => b
  }

  function EtcdAnswer(base: map<Key, Value>, b: Buffered, op: TxOp): seq<Answer> {
    match op
    case TxGet(k) => [Got(R.EtcdGet(base, b, k))]
    case TxList(p) => [Listed(ListedKeys(base, b, p))]
    case _ => []
  }

  predicate IsWrite(op: TxOp) { op.TxPut? || op.TxDelete? }

  predicate Enabled(s: State, t: nat, step: Step) {
    match step
    case DirectWrite(op) => IsWrite(op)
    case DirectRead(op) => !IsWrite(op)
    case _ =>
      t < |s.clients| && var pc := s.clients[t];
      match step
      case Begin => pc.Idle?
      case Lock => pc.WantLock? && s.lock.None?
      case Unlock => pc.Releasing?
      case _ => pc.InTx?
  }

  function Move(s: State, t: nat, pc: Pc): State
    requires t < |s.clients|
  {
    s.(clients := s.clients[t := pc])
  }

  function Changed(s: State, base: map<Key, Value>, c: Change): State {
    s.(base := base, history := s.history + [c])
  }

  function Apply(s: State, t: nat, step: Step): State
    requires Enabled(s, t, step)
  {
    match step
    case DirectWrite(op) => Changed(s, StdStep(s.base, op), Direct(op))
    case DirectRead(op) => s.(directReads := s.directReads + [Read(op, StdAnswer(s.base, op), |s.history|)])
    case Begin => Move(s, t, WantLock)
    case Lock => Move(s.(lock := Some(t)), t, InTx(|s.history|, EMPTY_BUFFER, [], [], []))
    case Do(op) =>
      var pc := s.clients[t];
      Move(s, t, InTx(pc.start, EtcdStep(pc.buffer, op), pc.ops + [op],
                      pc.answers + EtcdAnswer(s.base, pc.buffer, op), pc.seen + [|s.history|]))
    case Commit =>
      var pc := s.clients[t];
      Move(Changed(s, Overlay(s.base, pc.buffer), Committed(pc.start, pc.ops, pc.answers, pc.seen)), t, Releasing)
    case Rollback => Move(s, t, Releasing)
    case Unlock => Move(s.(lock := None), t, Idle)
  }

  // ---------------------------------------------------------------------------
  // The serial specification
  // ---------------------------------------------------------------------------

  function OpsIn(c: Change): seq<TxOp> {
    match c case Direct(op) => [op] case Committed(_, ops, _, _) => ops
  }

  /** The store after the changes, one whole change after another. */
  function Serial(initial: map<Key, Value>, history: seq<Change>): map<Key, Value> {
    if history == [] then initial
    else StdRun(Serial(initial, history[..|history| - 1]), OpsIn(history[|history| - 1])).state
  }

  predicate Within(seen: seq<nat>, low: nat, high: nat) {
    && (forall j :: 0 <= j < |seen| ==> low <= seen[j] <= high)
    && (forall i, j :: 0 <= i < j < |seen| ==> seen[i] <= seen[j])
  }

  /** The states of the store the operations met. */
  function Bases(initial: map<Key, Value>, history: seq<Change>, seen: seq<nat>): (bases: seq<map<Key, Value>>)
    requires Within(seen, 0, |history|)
    ensures |bases| == |seen| && forall j :: 0 <= j < |seen| ==> bases[j] == Serial(initial, history[..seen[j]])
  {
    seq(|seen|, j requires 0 <= j < |seen| => Serial(initial, history[..seen[j]]))
  }

  function BufferAfter(ops: seq<TxOp>): Buffered {
    if ops == [] then EMPTY_BUFFER else EtcdStep(BufferAfter(ops[..|ops| - 1]), ops[|ops| - 1])
  }

  /** What the operations answer when they meet the given states. */
  function Answered(ops: seq<TxOp>, bases: seq<map<Key, Value>>): seq<Answer>
    requires |ops| == |bases|
  {
    if ops == [] then []
    else
      var n := |ops| - 1;
      Answered(ops[..n], bases[..n]) + EtcdAnswer(bases[n], BufferAfter(ops[..n]), ops[n])
  }

  // ---------------------------------------------------------------------------
  // A transaction's writes are always serial; its reads when they still stand at the commit
  // ---------------------------------------------------------------------------

  lemma {:induction false} BufferIsRun(m: map<Key, Value>, ops: seq<TxOp>)
    ensures Overlay(m, BufferAfter(ops)) == StdRun(m, ops).state
  {
    if ops == [] {
      assert Overlay(m, EMPTY_BUFFER) == m;
    } else {
      var front, op := ops[..|ops| - 1], ops[|ops| - 1];
      assert ops == front + [op];
      BufferIsRun(m, front);
      StdRunSnoc(m, front, op);
      StepCommutes(m, BufferAfter(front), op);
    }
  }

  lemma StepCommutes(m: map<Key, Value>, b: Buffered, op: TxOp)
    ensures Overlay(m, EtcdStep(b, op)) == StdStep(Overlay(m, b), op)
  {
    match op
    case TxPut(k, v) => R.OverlayCommutes(m, b, k, v);
    case TxDelete(k) => R.OverlayCommutes(m, b, k, []);
    case _ =>
  }

  /** What an operation met still holds in m, the store at the commit: the key it got, unless the
      transaction had written it itself, has the same value; and the listing is that of m. */
  ghost predicate OpStands(m: map<Key, Value>, base: map<Key, Value>, b: Buffered, op: TxOp) {
    match op
    case TxGet(k) => k in Touched(b) || Lookup(base, k) == Lookup(m, k)
    case TxList(p) => R.ListingStands(m, base, b, p)
    case _ => true
  }

  ghost predicate Stands(m: map<Key, Value>, bases: seq<map<Key, Value>>, ops: seq<TxOp>)
    requires |bases| == |ops|
  {
    forall j :: 0 <= j < |ops| ==> OpStands(m, bases[j], BufferAfter(ops[..j]), ops[j])
  }

  lemma OpStandsIff(m: map<Key, Value>, base: map<Key, Value>, b: Buffered, op: TxOp)
    ensures |EtcdAnswer(base, b, op)| == |StdAnswer(Overlay(m, b), op)|
    ensures EtcdAnswer(base, b, op) == StdAnswer(Overlay(m, b), op) <==> OpStands(m, base, b, op)
  {
    match op
    case TxGet(k) =>
      assert R.EtcdGet(base, b, k) == Lookup(Overlay(m, b), k) <==> OpStands(m, base, b, op);
      SingletonsEqual(Got(R.EtcdGet(base, b, k)), Got(Lookup(Overlay(m, b), k)));
    case TxList(p) =>
      R.ListingStandsIff(m, base, b, p);
      SingletonsEqual(Listed(ListedKeys(base, b, p)), Listed(multiset(WithPrefix(Overlay(m, b).Keys, p))));
    case _ =>
  }

  lemma SingletonsEqual<T>(x: T, y: T)
    ensures [x] == [y] <==> x == y
  {
    if [x] == [y] { assert [x][0] == [y][0]; }
  }

  lemma ConcatEqualIff<T>(xs: seq<T>, zs: seq<T>, ys: seq<T>, bs: seq<T>)
    requires |xs| == |ys|
    ensures xs + zs == ys + bs <==> xs == ys && zs == bs
  {
    if xs + zs == ys + bs {
      assert xs == (xs + zs)[..|xs|] == (ys + bs)[..|ys|] == ys;
      assert zs == (xs + zs)[|xs|..] == (ys + bs)[|ys|..] == bs;
    }
  }

  lemma {:induction false} AnswersStandIff(m: map<Key, Value>, bases: seq<map<Key, Value>>, ops: seq<TxOp>)
    requires |bases| == |ops|
    ensures |Answered(ops, bases)| == |StdRun(m, ops).answers|
    ensures Answered(ops, bases) == StdRun(m, ops).answers <==> Stands(m, bases, ops)
    decreases ops
  {
    if ops != [] {
      var n := |ops| - 1;
      var front, op, b := ops[..n], ops[n], BufferAfter(ops[..n]);
      assert ops == front + [op];
      AnswersStandIff(m, bases[..n], front);
      StdRunSnoc(m, front, op);
      BufferIsRun(m, front);
      OpStandsIff(m, bases[n], b, op);
      ConcatEqualIff(Answered(front, bases[..n]), EtcdAnswer(bases[n], b, op),
                     StdRun(m, front).answers, StdAnswer(Overlay(m, b), op));
      StandsSnoc(m, bases, ops);
    }
  }

  lemma StandsSnoc(m: map<Key, Value>, bases: seq<map<Key, Value>>, ops: seq<TxOp>)
    requires |bases| == |ops| && ops != []
    ensures var n := |ops| - 1;
            Stands(m, bases, ops) <==>
            Stands(m, bases[..n], ops[..n]) && OpStands(m, bases[n], BufferAfter(ops[..n]), ops[n])
  {
    var n := |ops| - 1;
    assert forall j :: 0 <= j < n ==> ops[..n][..j] == ops[..j] && ops[..n][j] == ops[j] && bases[..n][j] == bases[j];
    if Stands(m, bases, ops) {
      forall j | 0 <= j < n ensures OpStands(m, bases[..n][j], BufferAfter(ops[..n][..j]), ops[..n][j]) {
        assert OpStands(m, bases[j], BufferAfter(ops[..j]), ops[j]);
      }
    }
    if Stands(m, bases[..n], ops[..n]) && OpStands(m, bases[n], BufferAfter(ops[..n]), ops[n]) {
      forall j | 0 <= j <= n ensures OpStands(m, bases[j], BufferAfter(ops[..j]), ops[j]) {
        if j < n { assert OpStands(m, bases[..n][j], BufferAfter(ops[..n][..j]), ops[..n][j]); }
      }
    }
  }

  // ---------------------------------------------------------------------------
  // Invariant
  // ---------------------------------------------------------------------------

  predicate HoldsLock(pc: Pc) { pc.InTx? || pc.Releasing? }

  predicate LockOk(s: State) {
    && (forall t :: 0 <= t < |s.clients| ==> (HoldsLock(s.clients[t]) <==> s.lock == Some(t)))
    && (s.lock.Some? ==> s.lock.value < |s.clients|)
  }

  /** The changes since a transaction began are direct writes: the lock keeps other transactions out. */
  predicate OnlyDirect(history: seq<Change>, start: nat) {
    forall k :: start <= k < |history| ==> history[k].Direct?
  }

  /** A transaction's answers come from whole states of the store between its begin and now. */
  predicate Accounted(initial: map<Key, Value>, history: seq<Change>, start: nat, ops: seq<TxOp>,
                      answers: seq<Answer>, seen: seq<nat>) {
    && start <= |history| && OnlyDirect(history, start)
    && |seen| == |ops| && Within(seen, start, |history|)
    && answers == Answered(ops, Bases(initial, history, seen))
  }

  predicate ClientOk(s: State, pc: Pc) {
    pc.InTx? ==> pc.buffer == BufferAfter(pc.ops) && Accounted(s.initial, s.history, pc.start, pc.ops, pc.answers, pc.seen)
  }

  predicate ChangeOk(initial: map<Key, Value>, history: seq<Change>, i: nat)
    requires i < |history|
  {
    var c := history[i];
    c.Committed? ==> Accounted(initial, history[..i], c.start, c.ops, c.answers, c.seen)
  }

  predicate ReadOk(initial: map<Key, Value>, history: seq<Change>, r: Read) {
    r.at <= |history| && r.answer == StdAnswer(Serial(initial, history[..r.at]), r.op)
  }

  predicate HistoryOk(s: State) {
    && s.base == Serial(s.initial, s.history)
    && (forall i :: 0 <= i < |s.history| ==> ChangeOk(s.initial, s.history, i))
    && (forall i :: 0 <= i < |s.directReads| ==> ReadOk(s.initial, s.history, s.directReads[i]))
    && (forall i, j :: 0 <= i < j < |s.directReads| ==> s.directReads[i].at <= s.directReads[j].at)
  }

  predicate ClientsOk(s: State) {
    forall t :: 0 <= t < |s.clients| ==> ClientOk(s, s.clients[t])
  }

  predicate Inv(s: State) { LockOk(s) && HistoryOk(s) && ClientsOk(s) }

  lemma StepLock(s: State, t: nat, step: Step)
    requires LockOk(s) && Enabled(s, t, step)
    ensures LockOk(Apply(s, t, step))
  {}

  lemma SameBases(initial: map<Key, Value>, history: seq<Change>, c: Change, seen: seq<nat>)
    requires Within(seen, 0, |history|)
    ensures Bases(initial, history + [c], seen) == Bases(initial, history, seen)
  {
    forall j | 0 <= j < |seen| ensures (history + [c])[..seen[j]] == history[..seen[j]] {}
  }

  /** A direct write leaves what open transactions have read accounted for. */
  lemma AccountedGrows(initial: map<Key, Value>, history: seq<Change>, op: TxOp, start: nat, ops: seq<TxOp>,
                       answers: seq<Answer>, seen: seq<nat>)
    requires Accounted(initial, history, start, ops, answers, seen)
    ensures Accounted(initial, history + [Direct(op)], start, ops, answers, seen)
  {
    SameBases(initial, history, Direct(op), seen);
  }

  lemma BasesSnoc(initial: map<Key, Value>, history: seq<Change>, seen: seq<nat>)
    requires Within(seen, 0, |history|)
    ensures Within(seen + [|history|], 0, |history|)
    ensures Bases(initial, history, seen + [|history|]) == Bases(initial, history, seen) + [Serial(initial, history)]
  {
    assert history[..|history|] == history;
  }

  lemma AnsweredSnoc(ops: seq<TxOp>, bases: seq<map<Key, Value>>, op: TxOp, base: map<Key, Value>)
    requires |ops| == |bases|
    ensures Answered(ops + [op], bases + [base]) == Answered(ops, bases) + EtcdAnswer(base, BufferAfter(ops), op)
    ensures BufferAfter(ops + [op]) == EtcdStep(BufferAfter(ops), op)
  {
    assert (ops + [op])[..|ops|] == ops && (bases + [base])[..|bases|] == bases;
  }

  lemma AccountedDo(initial: map<Key, Value>, history: seq<Change>, start: nat, ops: seq<TxOp>,
                    answers: seq<Answer>, seen: seq<nat>, op: TxOp)
    requires Accounted(initial, history, start, ops, answers, seen)
    ensures var more := EtcdAnswer(Serial(initial, history), BufferAfter(ops), op);
            Accounted(initial, history, start, ops + [op], answers + more, seen + [|history|])
    ensures BufferAfter(ops + [op]) == EtcdStep(BufferAfter(ops), op)
  {
    BasesSnoc(initial, history, seen);
    AnsweredSnoc(ops, Bases(initial, history, seen), op, Serial(initial, history));
  }

  lemma OldHistory(initial: map<Key, Value>, history: seq<Change>, c: Change)
    requires forall i :: 0 <= i < |history| ==> ChangeOk(initial, history, i)
    ensures forall i :: 0 <= i < |history| ==> ChangeOk(initial, history + [c], i)
    ensures Serial(initial, history + [c]) == StdRun(Serial(initial, history), OpsIn(c)).state
  {
    assert (history + [c])[..|history|] == history;
    forall i | 0 <= i < |history| ensures ChangeOk(initial, history + [c], i) {
      assert (history + [c])[..i] == history[..i];
      assert ChangeOk(initial, history, i);
    }
  }

  lemma OldRead(initial: map<Key, Value>, history: seq<Change>, c: Change, r: Read)
    requires ReadOk(initial, history, r)
    ensures ReadOk(initial, history + [c], r)
  {
    assert (history + [c])[..r.at] == history[..r.at];
  }

  lemma ChangedHistory(s: State, base: map<Key, Value>, c: Change)
    requires HistoryOk(s) && base == StdRun(s.base, OpsIn(c)).state
    requires c.Committed? ==> Accounted(s.initial, s.history, c.start, c.ops, c.answers, c.seen)
    ensures HistoryOk(Changed(s, base, c))
  {
    var s' := Changed(s, base, c);
    OldHistory(s.initial, s.history, c);
    assert s'.history[..|s.history|] == s.history;
    forall i | 0 <= i < |s'.history| ensures ChangeOk(s.initial, s'.history, i) {}
    forall i | 0 <= i < |s'.directReads| ensures ReadOk(s.initial, s'.history, s'.directReads[i]) {
      OldRead(s.initial, s.history, c, s.directReads[i]);
    }
  }

  lemma DirectInv(s: State, t: nat, op: TxOp)
    requires Inv(s) && IsWrite(op)
    ensures Inv(Apply(s, t, DirectWrite(op)))
  {
    var s' := Apply(s, t, DirectWrite(op));
    assert [op][1..] == [];
    assert StdRun(s.base, [op]).state == StdStep(s.base, op);
    ChangedHistory(s, StdStep(s.base, op), Direct(op));
    forall u | 0 <= u < |s'.clients| ensures ClientOk(s', s'.clients[u]) {
      var pc := s.clients[u];
      assert ClientOk(s, pc);
      if pc.InTx? {
        AccountedGrows(s.initial, s.history, op, pc.start, pc.ops, pc.answers, pc.seen);
      }
    }
  }

  lemma CommitInv(s: State, t: nat)
    requires Inv(s) && Enabled(s, t, Commit)
    ensures Inv(Apply(s, t, Commit))
  {
    var s', pc := Apply(s, t, Commit), s.clients[t];
    StepLock(s, t, Commit);
    assert ClientOk(s, pc) && HoldsLock(pc);
    BufferIsRun(s.base, pc.ops);
    var c := Committed(pc.start, pc.ops, pc.answers, pc.seen);
    ChangedHistory(s, Overlay(s.base, pc.buffer), c);
    assert HistoryOk(s');
    forall u | 0 <= u < |s'.clients| ensures !s'.clients[u].InTx? {
      if u != t { assert !HoldsLock(s.clients[u]); }
    }
  }

  lemma DoInv(s: State, t: nat, op: TxOp)
    requires Inv(s) && Enabled(s, t, Do(op))
    ensures Inv(Apply(s, t, Do(op)))
  {
    var s', pc := Apply(s, t, Do(op)), s.clients[t];
    StepLock(s, t, Do(op));
    assert ClientOk(s, pc);
    AccountedDo(s.initial, s.history, pc.start, pc.ops, pc.answers, pc.seen, op);
    forall u | 0 <= u < |s'.clients| ensures ClientOk(s', s'.clients[u]) {
      if u != t { assert ClientOk(s, s.clients[u]); }
    }
  }

  lemma ReadInv(s: State, t: nat, op: TxOp)
    requires Inv(s) && !IsWrite(op)
    ensures Inv(Apply(s, t, DirectRead(op)))
  {
    var s' := Apply(s, t, DirectRead(op));
    assert s.history[..|s.history|] == s.history;
    forall i | 0 <= i < |s'.directReads| ensures ReadOk(s'.initial, s'.history, s'.directReads[i]) {
      if i < |s.directReads| { assert ReadOk(s.initial, s.history, s.directReads[i]); }
    }
    forall i, j | 0 <= i < j < |s'.directReads| ensures s'.directReads[i].at <= s'.directReads[j].at {
      assert ReadOk(s.initial, s.history, s.directReads[i]);
    }
    forall u | 0 <= u < |s'.clients| ensures ClientOk(s', s'.clients[u]) {
      assert ClientOk(s, s.clients[u]);
    }
  }

  lemma LockStepInv(s: State, t: nat, step: Step)
    requires Inv(s) && Enabled(s, t, step) && (step.Begin? || step.Lock? || step.Rollback? || step.Unlock?)
    ensures Inv(Apply(s, t, step))
  {
    var s' := Apply(s, t, step);
    StepLock(s, t, step);
    forall u | 0 <= u < |s'.clients| ensures ClientOk(s', s'.clients[u]) {
      assert ClientOk(s, s.clients[u]);
    }
  }

  lemma InvStep(s: State, t: nat, step: Step)
    requires Inv(s) && Enabled(s, t, step)
    ensures Inv(Apply(s, t, step))
  {
    match step
    case DirectWrite(op) => DirectInv(s, t, op);
    case DirectRead(op) => ReadInv(s, t, op);
    case Do(op) => DoInv(s, t, op);
    case Commit => CommitInv(s, t);
    case _ => LockStepInv(s, t, step);
  }

  // ---------------------------------------------------------------------------
  // Theorems over all runs
  // ---------------------------------------------------------------------------

  predicate Run(s: State, steps: seq<(nat, Step)>, s': State)
    decreases steps
  {
    if steps == [] then s == s'
    else Enabled(s, steps[0].0, steps[0].1) && Run(Apply(s, steps[0].0, steps[0].1), steps[1..], s')
  }

  ghost predicate Reachable(s: State) {
    exists content: map<Key, Value>, n: nat, steps: seq<(nat, Step)> :: Run(Init(content, n), steps, s)
  }

  lemma {:induction false} RunKeepsInv(s: State, steps: seq<(nat, Step)>, s': State)
    requires Inv(s) && Run(s, steps, s')
    ensures Inv(s')
    decreases steps
  {
    if steps != [] {
      InvStep(s, steps[0].0, steps[0].1);
      RunKeepsInv(Apply(s, steps[0].0, steps[0].1), steps[1..], s');
    }
  }

  lemma ReachableInv(s: State)
    requires Reachable(s)
    ensures Inv(s)
  {
    var content: map<Key, Value>, n: nat, steps: seq<(nat, Step)> :| Run(Init(content, n), steps, s);
    assert Inv(Init(content, n));
    RunKeepsInv(Init(content, n), steps, s);
  }

  // What the recorded history says; WritesAreSerial says it of the steps.
  lemma HistoryIsSerial(s: State)
    requires Reachable(s)
    ensures s.base == Serial(s.initial, s.history)
    ensures forall i :: 0 <= i < |s.history| ==> ChangeOk(s.initial, s.history, i)
    ensures forall i :: 0 <= i < |s.directReads| ==> ReadOk(s.initial, s.history, s.directReads[i])
    ensures forall i, j :: 0 <= i < j < |s.directReads| ==> s.directReads[i].at <= s.directReads[j].at
  {
    ReachableInv(s);
  }

  /** A committed transaction answered what it would have answered running alone at its commit exactly when
      everything it had read still stood then. */
  lemma SerializableIff(s: State, i: nat)
    requires Reachable(s) && i < |s.history| && s.history[i].Committed?
    ensures var c, h := s.history[i], s.history[..i];
            && |c.seen| == |c.ops| && Within(c.seen, c.start, i)
            && (c.answers == StdRun(Serial(s.initial, h), c.ops).answers <==>
                Stands(Serial(s.initial, h), Bases(s.initial, h, c.seen), c.ops))
  {
    ReachableInv(s);
    assert ChangeOk(s.initial, s.history, i);
    var c, h := s.history[i], s.history[..i];
    AnswersStandIff(Serial(s.initial, h), Bases(s.initial, h, c.seen), c.ops);
  }

  /** Every listing among the operations lists each key once, run in the state m alone. */
  ghost predicate ListingsStand(m: map<Key, Value>, ops: seq<TxOp>) {
    forall j :: 0 <= j < |ops| && ops[j].TxList? ==> R.ListingStands(m, m, BufferAfter(ops[..j]), ops[j].prefix)
  }

  /** In particular, with no direct write between its begin and its commit, a transaction is serializable
      exactly when it listed no key it had put over a stored one; always, if it listed nothing. */
  lemma SerializableWithoutDirectWrites(s: State, i: nat)
    requires Reachable(s) && i < |s.history| && s.history[i].Committed?
    requires forall k :: s.history[i].start <= k < i ==> !s.history[k].Direct?
    ensures var m := Serial(s.initial, s.history[..i]);
            s.history[i].answers == StdRun(m, s.history[i].ops).answers <==> ListingsStand(m, s.history[i].ops)
  {
    BeganAtCommit(s, i);
    var c := s.history[i];
    QuietTransaction(s.initial, s.history[..i], c.ops, c.answers, c.seen);
  }

  lemma BeganAtCommit(s: State, i: nat)
    requires Reachable(s) && i < |s.history| && s.history[i].Committed?
    requires forall k :: s.history[i].start <= k < i ==> !s.history[k].Direct?
    ensures var c := s.history[i]; c.start == i && Accounted(s.initial, s.history[..i], i, c.ops, c.answers, c.seen)
  {
    ReachableInv(s);
    assert ChangeOk(s.initial, s.history, i);
    var start := s.history[i].start;
    if start < i { SomeDirect(s.history, start, i); }
  }

  lemma SomeDirect(history: seq<Change>, start: nat, i: nat)
    requires start < i <= |history| && OnlyDirect(history[..i], start)
    ensures exists k :: start <= k < i && history[k].Direct?
  {
    assert history[..i][start] == history[start];
  }

  lemma QuietTransaction(initial: map<Key, Value>, history: seq<Change>, ops: seq<TxOp>,
                         answers: seq<Answer>, seen: seq<nat>)
    requires Accounted(initial, history, |history|, ops, answers, seen)
    ensures var m := Serial(initial, history); answers == StdRun(m, ops).answers <==> ListingsStand(m, ops)
  {
    var m, bases := Serial(initial, history), Bases(initial, history, seen);
    assert history[..|history|] == history;
    AnswersStandIff(m, bases, ops);
    StandsInOneState(m, bases, ops);
  }

  lemma StandsInOneState(m: map<Key, Value>, bases: seq<map<Key, Value>>, ops: seq<TxOp>)
    requires |bases| == |ops| && forall j :: 0 <= j < |bases| ==> bases[j] == m
    ensures Stands(m, bases, ops) <==> ListingsStand(m, ops)
  {
    if Stands(m, bases, ops) {
      forall j | 0 <= j < |ops| && ops[j].TxList?
        ensures R.ListingStands(m, m, BufferAfter(ops[..j]), ops[j].prefix)
      {
        assert OpStands(m, bases[j], BufferAfter(ops[..j]), ops[j]);
      }
    }
  }

  /** A direct write between two gets of an open transaction: the answers are those of no serial run from
      any state. */
  lemma ReadsNeedNotRepeat(k: Key, v: Value) returns (steps: seq<(nat, Step)>, s: State)
    ensures Run(Init(map[], 1), steps, s) && |s.history| == 2 && s.history[1].Committed?
    ensures forall m: map<Key, Value> :: StdRun(m, s.history[1].ops).answers != s.history[1].answers
  {
    var s0 := Init(map[], 1);
    var s1 := Apply(s0, 0, Begin);
    var s2 := Apply(s1, 0, Lock);
    assert s2 == State(map[], map[], Some(0), [InTx(0, EMPTY_BUFFER, [], [], [])], [], []);
    steps, s := GetTwice(s2, k, v);
    steps := ExtendRun(s1, 0, Lock, steps, s);
    steps := ExtendRun(s0, 0, Begin, steps, s);
    forall m: map<Key, Value> ensures StdRun(m, s.history[1].ops).answers != s.history[1].answers {
      TwoGets(m, k);
    }
  }

  lemma GetTwice(s: State, k: Key, v: Value) returns (steps: seq<(nat, Step)>, s': State)
    requires s == State(map[], map[], Some(0), [InTx(0, EMPTY_BUFFER, [], [], [])], [], [])
    ensures Run(s, steps, s') && |s'.history| == 2
    ensures s'.history[1] == Committed(0, [TxGet(k), TxGet(k)], [Got(Err(ValueUnset(k))), Got(Ok(v))], [0, 1])
  {
    var s1 := Apply(s, 0, Do(TxGet(k)));
    assert s1.clients[0] == InTx(0, EMPTY_BUFFER, [TxGet(k)], [Got(Err(ValueUnset(k)))], [0]);
    var s2 := Apply(s1, 0, DirectWrite(TxPut(k, v)));
    assert s2.base == map[k := v] && |s2.history| == 1;
    var s3 := Apply(s2, 0, Do(TxGet(k)));
    assert s3.clients[0] == InTx(0, EMPTY_BUFFER, [TxGet(k), TxGet(k)], [Got(Err(ValueUnset(k))), Got(Ok(v))], [0, 1]);
    s' := Apply(s3, 0, Commit);
    steps := [(0, Commit)];
    assert steps[1..] == [] && Run(s3, steps, s');
    steps := ExtendRun(s2, 0, Do(TxGet(k)), steps, s');
    steps := ExtendRun(s1, 0, DirectWrite(TxPut(k, v)), steps, s');
    steps := ExtendRun(s, 0, Do(TxGet(k)), steps, s');
  }

  lemma TwoGets(m: map<Key, Value>, k: Key)
    ensures StdRun(m, [TxGet(k), TxGet(k)]).answers == [Got(Lookup(m, k)), Got(Lookup(m, k))]
  {
    assert [TxGet(k)] + [TxGet(k)] == [TxGet(k), TxGet(k)] && [TxGet(k)][1..] == [];
    StdRunSnoc(m, [TxGet(k)], TxGet(k));
  }

  lemma ExtendRun(s: State, t: nat, step: Step, steps: seq<(nat, Step)>, s': State) returns (longer: seq<(nat, Step)>)
    requires Enabled(s, t, step) && Run(Apply(s, t, step), steps, s')
    ensures Run(s, longer, s')
  {
    longer := [(t, step)] + steps;
    assert longer[1..] == steps;
  }

  // ---------------------------------------------------------------------------
  // The history is what the clients did
  // ---------------------------------------------------------------------------

  // What follows reads the list of steps and nothing else.

  datatype Made =
    | MadeDirect(op: TxOp)
    | MadeTx(start: nat, ops: seq<TxOp>, seen: seq<nat>)

  datatype Issued = Issued(start: nat, ops: seq<TxOp>, seen: seq<nat>)

  /** What client t has issued since it last took the lock, and how many changes there were before its
      lock and before each operation. */
  function IssuedBy(steps: seq<(nat, Step)>, t: nat): Issued {
    if steps == [] then Issued(0, [], [])
    else
      var front, last := steps[..|steps| - 1], steps[|steps| - 1];
      var before := IssuedBy(front, t);
      if last.0 != t then before
      else match last.1
        case Lock => Issued(|MadeBy(front)|, [], [])
        case Do(op) => Issued(before.start, before.ops + [op], before.seen + [|MadeBy(front)|])
        case _ => before
  }

  /** One change for each direct write and each commit. */
  function MadeBy(steps: seq<(nat, Step)>): seq<Made> {
    if steps == [] then []
    else
      var front, last := steps[..|steps| - 1], steps[|steps| - 1];
      MadeBy(front) + match last.1
                      case DirectWrite(op) => [MadeDirect(op)]
                      case Commit =>
                        var i := IssuedBy(front, last.0);
                        [MadeTx(i.start, i.ops, i.seen)]
                      case _ => []
  }

  /** One read for each direct read, with the changes before it. */
  function ReadBy(steps: seq<(nat, Step)>): seq<(TxOp, nat)> {
    if steps == [] then []
    else
      var front, last := steps[..|steps| - 1], steps[|steps| - 1];
      ReadBy(front) + if last.1.DirectRead? then [(last.1.r, |MadeBy(front)|)] else []
  }

  // The same of the recorded history.

  function MadeOf(c: Change): Made {
    match c case Direct(op) => MadeDirect(op) case Committed(start, ops, _, seen) => MadeTx(start, ops, seen)
  }

  function MadeIn(history: seq<Change>): (r: seq<Made>)
    ensures |r| == |history| && forall i :: 0 <= i < |r| ==> r[i] == MadeOf(history[i])
  {
    seq(|history|, i requires 0 <= i < |history| => MadeOf(history[i]))
  }

  function ReadIn(directReads: seq<Read>): (r: seq<(TxOp, nat)>)
    ensures |r| == |directReads| && forall i :: 0 <= i < |r| ==> r[i] == (directReads[i].op, directReads[i].at)
  {
    seq(|directReads|, i requires 0 <= i < |directReads| => (directReads[i].op, directReads[i].at))
  }

  predicate ClientDid(pc: Pc, issued: Issued) {
    pc.InTx? ==> pc.start == issued.start && pc.ops == issued.ops && pc.seen == issued.seen
  }

  predicate ClientsDid(s: State, steps: seq<(nat, Step)>) {
    forall t :: 0 <= t < |s.clients| ==> ClientDid(s.clients[t], IssuedBy(steps, t))
  }

  predicate HistoryDid(s: State, steps: seq<(nat, Step)>) {
    MadeIn(s.history) == MadeBy(steps) && ReadIn(s.directReads) == ReadBy(steps)
  }

  lemma {:induction false} SplitLast(s: State, steps: seq<(nat, Step)>, s': State) returns (mid: State)
    requires steps != [] && Run(s, steps, s')
    ensures var n := |steps| - 1;
            Run(s, steps[..n], mid) && Enabled(mid, steps[n].0, steps[n].1) && Apply(mid, steps[n].0, steps[n].1) == s'
    decreases steps
  {
    var n := |steps| - 1;
    if n == 0 {
      mid := s;
    } else {
      var rest := steps[1..];
      mid := SplitLast(Apply(s, steps[0].0, steps[0].1), rest, s');
      assert steps[..n][0] == steps[0] && steps[..n][1..] == rest[..n - 1] && rest[n - 1] == steps[n];
    }
  }

  lemma StepDidClients(s: State, t: nat, step: Step, front: seq<(nat, Step)>)
    requires ClientsDid(s, front) && HistoryDid(s, front) && Enabled(s, t, step)
    ensures ClientsDid(Apply(s, t, step), front + [(t, step)])
  {
    var s', steps := Apply(s, t, step), front + [(t, step)];
    assert steps[..|front|] == front;
    forall u | 0 <= u < |s'.clients| ensures ClientDid(s'.clients[u], IssuedBy(steps, u)) {
      assert ClientDid(s.clients[u], IssuedBy(front, u));
    }
  }

  lemma MadeSnoc(history: seq<Change>, c: Change)
    ensures MadeIn(history + [c]) == MadeIn(history) + [MadeOf(c)]
  {}

  lemma ReadSnoc(directReads: seq<Read>, r: Read)
    ensures ReadIn(directReads + [r]) == ReadIn(directReads) + [(r.op, r.at)]
  {}

  lemma StepDidHistory(s: State, t: nat, step: Step, front: seq<(nat, Step)>)
    requires ClientsDid(s, front) && HistoryDid(s, front) && Enabled(s, t, step)
    ensures HistoryDid(Apply(s, t, step), front + [(t, step)])
  {
    assert (front + [(t, step)])[..|front|] == front;
    match step
    case DirectWrite(op) => MadeSnoc(s.history, Direct(op));
    case DirectRead(op) => ReadSnoc(s.directReads, Read(op, StdAnswer(s.base, op), |s.history|));
    case Commit =>
      var pc := s.clients[t];
      assert ClientDid(pc, IssuedBy(front, t));
      MadeSnoc(s.history, Committed(pc.start, pc.ops, pc.answers, pc.seen));
    case _ =>
  }

  /** In every interleaving the history has exactly one change for each direct write, with its operation,
      and for each commit, with exactly the operations its client issued since it took the lock and the
      states of the store they ran in; and one answer for each direct read, given its moment. */
  lemma {:induction false} HistoryIsWhatClientsDid(content: map<Key, Value>, n: nat, steps: seq<(nat, Step)>, s: State)
    requires Run(Init(content, n), steps, s)
    ensures MadeIn(s.history) == MadeBy(steps) && ReadIn(s.directReads) == ReadBy(steps)
    ensures ClientsDid(s, steps) && s.initial == content
    decreases steps
  {
    if steps != [] {
      var mid := SplitLast(Init(content, n), steps, s);
      var front, last := steps[..|steps| - 1], steps[|steps| - 1];
      assert steps == front + [last];
      HistoryIsWhatClientsDid(content, n, front, mid);
      StepDidClients(mid, last.0, last.1, front);
      StepDidHistory(mid, last.0, last.1, front);
    }
  }

  /** The content after the given changes, one whole change after another. */
  function SerialRun(content: map<Key, Value>, made: seq<Made>): map<Key, Value> {
    if made == [] then content
    else
      var m, last := SerialRun(content, made[..|made| - 1]), made[|made| - 1];
      StdRun(m, match last case MadeDirect(op) => [op] case MadeTx(_, ops, _) => ops).state
  }

  lemma {:induction false} SerialIsSerialRun(content: map<Key, Value>, history: seq<Change>)
    ensures Serial(content, history) == SerialRun(content, MadeIn(history))
  {
    if history != [] {
      var front, made := history[..|history| - 1], MadeIn(history);
      SerialIsSerialRun(content, front);
      assert made[..|made| - 1] == MadeIn(front);
      assert made[|made| - 1] == MadeOf(history[|history| - 1]);
    }
  }

  /** In every interleaving the store is what the direct writes and the commits of the steps, each commit with
      exactly the operations its client issued since it took the lock, leave when run whole, one after another,
      in that order; a transaction's operations saw whole states between its begin and its commit, with only
      direct writes in between; and a direct read saw the whole state at its moment. */
  lemma WritesAreSerial(content: map<Key, Value>, n: nat, steps: seq<(nat, Step)>, s: State)
    requires Run(Init(content, n), steps, s)
    ensures s.base == SerialRun(content, MadeBy(steps))
    ensures MadeIn(s.history) == MadeBy(steps) && ReadIn(s.directReads) == ReadBy(steps)
    ensures forall i :: 0 <= i < |s.history| ==> ChangeOk(content, s.history, i)
    ensures forall i :: 0 <= i < |s.directReads| ==> ReadOk(content, s.history, s.directReads[i])
    ensures forall i, j :: 0 <= i < j < |s.directReads| ==> s.directReads[i].at <= s.directReads[j].at
  {
    HistoryIsSerial(s);
    HistoryIsWhatClientsDid(content, n, steps, s);
    SerialIsSerialRun(content, s.history);
  }

  /** Inside a transaction: what it has answered so far is what the store and its own writes gave at the
      moments it asked. */
  lemma OpenTransactionAnswers(content: map<Key, Value>, n: nat, steps: seq<(nat, Step)>, s: State, t: nat)
    requires Run(Init(content, n), steps, s) && t < |s.clients| && s.clients[t].InTx?
    ensures var i := IssuedBy(steps, t);
            |i.seen| == |i.ops| && Within(i.seen, i.start, |s.history|)
            && s.clients[t].answers == Answered(i.ops, Bases(content, s.history, i.seen))
  {
    ReachableInv(s);
    HistoryIsWhatClientsDid(content, n, steps, s);
    assert ClientOk(s, s.clients[t]) && ClientDid(s.clients[t], IssuedBy(steps, t));
  }

  /** Only the lock holds a client back, and its holder is never held back. */
  lemma NoDeadlock(s: State, t: nat, op: TxOp)
    requires Reachable(s) && t < |s.clients|
    ensures s.clients[t].Idle? ==> Enabled(s, t, Begin)
    ensures s.clients[t].InTx? ==> Enabled(s, t, Do(op)) && Enabled(s, t, Commit) && Enabled(s, t, Rollback)
    ensures s.clients[t].Releasing? ==> Enabled(s, t, Unlock)
    ensures s.clients[t].WantLock? && !Enabled(s, t, Lock) ==>
              s.lock.Some? && s.lock.value < |s.clients|
              && (Enabled(s, s.lock.value, Commit) || Enabled(s, s.lock.value, Unlock))
    ensures if IsWrite(op) then Enabled(s, t, DirectWrite(op)) else Enabled(s, t, DirectRead(op))
  {
    ReachableInv(s);
    if s.lock.Some? {
      assert HoldsLock(s.clients[s.lock.value]);
    }
  }
}
