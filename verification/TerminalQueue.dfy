/** The bounded queue of terminal sizes (ssh/connection/channels/size.go and agent/vmapi/size.go, the same
    code twice): first used by one goroutine, then by any number at once. */
module TerminalQueue {
  import opened Common
  import ChannelHandler

  type Size = ChannelHandler.TerminalSize

  datatype FillResult = Accepted | QueueClosed | QueueFull

  // What a receive comes to: a size, nil from a closed and drained channel, or no answer yet.
  datatype Received = Delivered(size: Size) | Nil | Blocked

  /** What Fill answers, given the flag and the fill level it finds under the lock. */
  function Decide(closed: bool, length: nat, capacity: nat): (r: FillResult)
    ensures length <= capacity ==> (r.Accepted? <==> !closed && length < capacity)
    ensures r.QueueClosed? <==> closed
  {
    if closed then QueueClosed else if length == capacity then QueueFull else Accepted
  }

  // ---------------------------------------------------------------------------
  // One goroutine
  // ---------------------------------------------------------------------------

  class TerminalSizeHandler {
    var queue: seq<Size>     // the buffered channel
    var chanClosed: bool     // whether it has been closed
    var closed: bool
    const capacity: nat

    ghost predicate Valid()
      reads this
    {
      |queue| <= capacity && closed == chanClosed
    }

    constructor (capacity: nat)
      ensures Valid() && queue == [] && !closed && this.capacity == capacity
    {
      queue, chanClosed, closed, this.capacity := [], false, false, capacity;
    }

    // Go's channel operations: sending needs room and an open channel, closing an open channel.
    method Send(d: Size)
      requires !chanClosed && |queue| < capacity
      modifies this`queue
      ensures queue == old(queue) + [d]
    { queue := queue + [d]; }

    method CloseChannel()
      requires !chanClosed
      modifies this`chanClosed
      ensures chanClosed
    { chanClosed := true; }

    method Fill(d: Size) returns (r: FillResult)
      requires Valid()
      modifies this`queue
      ensures Valid() && r == Decide(closed, |old(queue)|, capacity)
      ensures queue == if r.Accepted? then old(queue) + [d] else old(queue)
    {
      if closed { return QueueClosed; }
      if |queue| == capacity { return QueueFull; }
      Send(d);
      return Accepted;
    }

    /** The oldest size; with an empty queue, nil if it is closed, and otherwise the caller blocks. */
    method Next() returns (r: Received)
      requires Valid()
      modifies this`queue
      ensures Valid()
      ensures r == if old(queue) != [] then Delivered(old(queue)[0]) else if closed then Nil else Blocked
      ensures queue == if r.Delivered? then old(queue)[1..] else []
    {
      if queue == [] {
        return if chanClosed then Nil else Blocked;
      }
      r := Delivered(queue[0]);
      queue := queue[1..];
    }

    method Close()
      requires Valid()
      modifies this`closed, this`chanClosed
      ensures Valid() && closed
    {
      if !closed {
        closed := true;
        CloseChannel();
      }
    }
  }

  // ---------------------------------------------------------------------------
  // Any number of goroutines
  // ---------------------------------------------------------------------------

  datatype Pc =
    | Idle
    | FillLocking(d: Size) | FillChecking(d: Size) | FillSending(d: Size) | FillUnlocking(r: FillResult)
    | CloseLocking | CloseChecking | CloseClosing | CloseUnlocking
    | Receiving

  /** `accepted` are the sizes sent so far, `delivered` the ones received, `nils` the receives that found
      the channel closed and empty. `crashed` is set by a send on, or a second close of, a closed channel. */
  datatype State = State(queue: seq<Size>, chanClosed: bool, closed: bool, capacity: nat, mux: Option<nat>,
                         threads: seq<Pc>, accepted: seq<Size>, delivered: seq<Size>, nils: nat, crashed: bool)

  datatype Step = StartFill(d: Size) | StartClose | StartNext | Lock | Check | Send | CloseChan | Unlock
                | Receive | ReceiveNil

  function Init(capacity: nat, n: nat): State {
    State([], false, false, capacity, None, seq(n, _ => Idle), [], [], 0, false)
  }

  predicate Enabled(s: State, t: nat, step: Step) {
    t < |s.threads| && var pc := s.threads[t];
    match step
    case StartFill(_) => pc.Idle?
    case StartClose => pc.Idle?
    case StartNext => pc.Idle?
    case Lock => (pc.FillLocking? || pc.CloseLocking?) && s.mux.None?
    case Check => pc.FillChecking? || pc.CloseChecking?
    case Send => pc.FillSending? && (s.chanClosed || |s.queue| < s.capacity)
    case CloseChan => pc.CloseClosing?
    case Unlock => pc.FillUnlocking? || pc.CloseUnlocking?
    case Receive => pc.Receiving? && s.queue != []
    case ReceiveNil => pc.Receiving? && s.queue == [] && s.chanClosed
  }

  function Move(s: State, t: nat, pc: Pc): State
    requires t < |s.threads|
  {
    s.(threads := s.threads[t := pc])
  }

  function Apply(s: State, t: nat, step: Step): State
    requires Enabled(s, t, step)
  {
    var pc := s.threads[t];
    match step
    case StartFill(d) => Move(s, t, FillLocking(d))
    case StartClose => Move(s, t, CloseLocking)
    case StartNext => Move(s, t, Receiving)
    case Lock => Move(s.(mux := Some(t)), t, if pc.FillLocking? then FillChecking(pc.d) else CloseChecking)
    case Check =>
      if pc.FillChecking? then
        var r := Decide(s.closed, |s.queue|, s.capacity);
        Move(s, t, if r.Accepted? then FillSending(pc.d) else FillUnlocking(r))
      else if s.closed then Move(s, t, CloseUnlocking)
      else Move(s.(closed := true), t, CloseClosing)
    case Send =>
      if s.chanClosed then s.(crashed := true)
      else Move(s.(queue := s.queue + [pc.d], accepted := s.accepted + [pc.d]), t, FillUnlocking(Accepted))
    case CloseChan => if s.chanClosed then s.(crashed := true) else Move(s.(chanClosed := true), t, CloseUnlocking)
    case Unlock => Move(s.(mux := None), t, Idle)
    case Receive => Move(s.(queue := s.queue[1..], delivered := s.delivered + [s.queue[0]]), t, Idle)
    case ReceiveNil => Move(s.(nils := s.nils + 1), t, Idle)
  }

  predicate HoldsMux(pc: Pc) {
    pc.FillChecking? || pc.FillSending? || pc.FillUnlocking? || pc.CloseChecking? || pc.CloseClosing? || pc.CloseUnlocking?
  }

  predicate LockOk(s: State) {
    && (forall t :: 0 <= t < |s.threads| ==> (HoldsMux(s.threads[t]) <==> s.mux == Some(t)))
    && (s.mux.Some? ==> s.mux.value < |s.threads|)
  }

  predicate QueueOk(s: State) {
    && !s.crashed
    && |s.queue| <= s.capacity
    && s.accepted == s.delivered + s.queue
    && (s.nils > 0 ==> s.chanClosed && s.queue == [])
  }

  /** What the goroutine inside the lock knows. */
  predicate HolderOk(s: State) {
    && (s.chanClosed ==> s.closed)
    && (s.closed && !s.chanClosed ==> s.mux.Some? && s.mux.value < |s.threads| && s.threads[s.mux.value].CloseClosing?)
    && (forall t :: 0 <= t < |s.threads| && s.threads[t].FillSending? ==> !s.closed && |s.queue| < s.capacity)
    && (forall t :: 0 <= t < |s.threads| && s.threads[t].CloseClosing? ==> s.closed && !s.chanClosed)
  }

  predicate Inv(s: State) { LockOk(s) && QueueOk(s) && HolderOk(s) }

  lemma StepLock(s: State, t: nat, step: Step)
    requires LockOk(s) && Enabled(s, t, step)
    ensures LockOk(Apply(s, t, step))
  {}

  lemma StepQueue(s: State, t: nat, step: Step)
    requires Inv(s) && Enabled(s, t, step)
    ensures QueueOk(Apply(s, t, step))
  {
    if step.Receive? {
      assert s.delivered + s.queue == (s.delivered + [s.queue[0]]) + s.queue[1..];
    } else if step.Send? {
      assert s.delivered + (s.queue + [s.threads[t].d]) == (s.delivered + s.queue) + [s.threads[t].d];
    }
  }

  lemma StepHolder(s: State, t: nat, step: Step)
    requires Inv(s) && Enabled(s, t, step)
    ensures HolderOk(Apply(s, t, step))
  {}

  lemma InvStep(s: State, t: nat, step: Step)
    requires Inv(s) && Enabled(s, t, step)
    ensures Inv(Apply(s, t, step))
  {
    StepLock(s, t, step);
    StepQueue(s, t, step);
    StepHolder(s, t, step);
  }

  predicate Run(s: State, steps: seq<(nat, Step)>, s': State)
    decreases steps
  {
    if steps == [] then s == s'
    else Enabled(s, steps[0].0, steps[0].1) && Run(Apply(s, steps[0].0, steps[0].1), steps[1..], s')
  }

  ghost predicate Reachable(s: State) {
    exists capacity: nat, n: nat, steps: seq<(nat, Step)> :: Run(Init(capacity, n), steps, s)
  }

  lemma {:induction false} RunKeepsInv(s: State, steps: seq<(nat, Step)>, s': State)
    requires Inv(s) && Run(s, steps, s')
    ensures Inv(s')
    decreases steps
  {
    if steps != [] {
      InvStep(s, steps[0].0, steps[0].1);
      RunKeepsInv(Apply(s, steps[0].0, steps[0].1), steps[1..], s');
    }
  }

  lemma ReachableInv(s: State)
    requires Reachable(s)
    ensures Inv(s)
  {
    var capacity: nat, n: nat, steps: seq<(nat, Step)> :| Run(Init(capacity, n), steps, s);
    assert Inv(Init(capacity, n));
    RunKeepsInv(Init(capacity, n), steps, s);
  }

  /** In every interleaving: the queue never exceeds its capacity, nothing is sent on or closed twice
      after closing, what Next has returned is a prefix, in order, of what Fill accepted, and the rest is
      in the queue; nil comes only once everything accepted has been delivered. */
  lemma QueueIsFifo(s: State)
    requires Reachable(s)
    ensures !s.crashed && |s.queue| <= s.capacity
    ensures s.accepted == s.delivered + s.queue
    ensures s.nils > 0 ==> s.delivered == s.accepted
  {
    ReachableInv(s);
  }

  /** Fill never blocks once it has the lock: the send it has decided on always has room. And a goroutine
      that waits for the lock waits for one that can move. */
  lemma FillNeverBlocks(s: State, t: nat) returns (u: nat, step: Step)
    requires Reachable(s) && t < |s.threads| && !s.threads[t].Idle? && !s.threads[t].Receiving?
    ensures Enabled(s, u, step)
    ensures s.threads[t].FillSending? ==> u == t && step.Send? && !s.chanClosed
    ensures u == t || (s.mux == Some(u) && HoldsMux(s.threads[u]))
  {
    ReachableInv(s);
    u := if s.mux.Some? then s.mux.value else t;
    match s.threads[u]
    case FillLocking(_) => step := Lock;
    case FillChecking(_) => step := Check;
    case FillSending(_) => step := Send;
    case FillUnlocking(_) => step := Unlock;
    case CloseLocking => step := Lock;
    case CloseChecking => step := Check;
    case CloseClosing => step := CloseChan;
    case CloseUnlocking => step := Unlock;
  }

  /** After Close: no size is accepted any more, in any continuation; receivers get exactly the sizes that
      were queued, in order, and nil only after the last of them. */
  lemma {:induction false} DrainAfterClose(s: State, steps: seq<(nat, Step)>, s': State)
    requires Inv(s) && s.closed && Run(s, steps, s')
    ensures s'.closed && s'.accepted == s.accepted
    ensures s'.delivered + s'.queue == s.delivered + s.queue
    ensures |s'.delivered| >= |s.delivered|
    ensures s'.nils > 0 ==> s'.delivered == s.delivered + s.queue
    decreases steps
  {
    if steps == [] {
      assert s.nils > 0 ==> s.delivered + s.queue == s.delivered;
    } else {
      InvStep(s, steps[0].0, steps[0].1);
      ClosedStep(s, steps[0].0, steps[0].1);
      DrainAfterClose(Apply(s, steps[0].0, steps[0].1), steps[1..], s');
    }
  }

  lemma ClosedStep(s: State, t: nat, step: Step)
    requires Inv(s) && s.closed && Enabled(s, t, step)
    ensures var s' := Apply(s, t, step);
            s'.closed && s'.accepted == s.accepted && |s'.delivered| >= |s.delivered|
            && s'.delivered + s'.queue == s.delivered + s.queue
  {
    if step.Receive? {
      assert s.delivered + s.queue == (s.delivered + [s.queue[0]]) + s.queue[1..];
    }
  }

  // ---------------------------------------------------------------------------
  // What the goroutines asked for and were told
  // ---------------------------------------------------------------------------

  // What follows reads the steps of a run, and the queue at each check.

  /** The size goroutine t last called Fill with. */
  function FillOf(steps: seq<(nat, Step)>, t: nat): Option<Size> {
    if steps == [] then None
    else
      var front, last := steps[..|steps| - 1], steps[|steps| - 1];
      if last.0 == t && last.1.StartFill? then Some(last.1.d) else FillOf(front, t)
  }

  predicate CanRun(s: State, steps: seq<(nat, Step)>)
    decreases steps
  {
    steps == [] || (Enabled(s, steps[0].0, steps[0].1) && CanRun(Apply(s, steps[0].0, steps[0].1), steps[1..]))
  }

  function After(s: State, steps: seq<(nat, Step)>): State
    requires CanRun(s, steps)
    decreases steps
  {
    if steps == [] then s else After(Apply(s, steps[0].0, steps[0].1), steps[1..])
  }

  lemma {:induction false} AfterSnoc(s: State, front: seq<(nat, Step)>, t: nat, step: Step)
    ensures CanRun(s, front + [(t, step)]) <==> CanRun(s, front) && Enabled(After(s, front), t, step)
    ensures CanRun(s, front + [(t, step)]) ==> After(s, front + [(t, step)]) == Apply(After(s, front), t, step)
    decreases front
  {
    var steps := front + [(t, step)];
    if front == [] {
      assert steps[1..] == [];
    } else {
      assert steps[0] == front[0] && steps[1..] == front[1..] + [(t, step)];
      if Enabled(s, front[0].0, front[0].1) {
        AfterSnoc(Apply(s, front[0].0, front[0].1), front[1..], t, step);
      }
    }
  }

  lemma {:induction false} RunIsAfter(s: State, steps: seq<(nat, Step)>, s': State)
    requires Run(s, steps, s')
    ensures CanRun(s, steps) && After(s, steps) == s'
    decreases steps
  {
    if steps != [] { RunIsAfter(Apply(s, steps[0].0, steps[0].1), steps[1..], s'); }
  }

  /** What goroutine t found at its last check under the lock. */
  datatype Found = Found(closed: bool, length: nat) | NothingFound

  function FoundBy(s: State, steps: seq<(nat, Step)>, t: nat): Found
    requires CanRun(s, steps)
    decreases |steps|
  {
    if steps == [] then NothingFound
    else
      var front, last := steps[..|steps| - 1], steps[|steps| - 1];
      Shorter(s, steps);
      if last == (t, Check) then Found(After(s, front).closed, |After(s, front).queue|) else FoundBy(s, front, t)
  }

  lemma Shorter(s: State, steps: seq<(nat, Step)>)
    requires CanRun(s, steps) && steps != []
    ensures var n := |steps| - 1;
            CanRun(s, steps[..n]) && Enabled(After(s, steps[..n]), steps[n].0, steps[n].1)
            && After(s, steps) == Apply(After(s, steps[..n]), steps[n].0, steps[n].1)
  {
    var n := |steps| - 1;
    assert steps == steps[..n] + [steps[n]];
    AfterSnoc(s, steps[..n], steps[n].0, steps[n].1);
  }

  // A Fill that has returned: its size, what it found, and what it answered.
  datatype Filled = Filled(d: Size, found: Found, answer: FillResult)

  /** The Fills that have returned, in order. */
  function FilledBy(s: State, steps: seq<(nat, Step)>): seq<Filled>
    requires CanRun(s, steps)
    decreases |steps|
  {
    if steps == [] then []
    else
      var front, last := steps[..|steps| - 1], steps[|steps| - 1];
      Shorter(s, steps);
      FilledBy(s, front) + FilledIn(After(s, front), last, FillOf(front, last.0), FoundBy(s, front, last.0))
  }

  function FilledIn(s: State, last: (nat, Step), d: Option<Size>, found: Found): seq<Filled>
    requires Enabled(s, last.0, last.1)
  {
    var pc := s.threads[last.0];
    if last.1.Unlock? && pc.FillUnlocking? && d.Some? then [Filled(d.value, found, pc.r)] else []
  }

  function AcceptedIn(fills: seq<Filled>): seq<Size> {
    if fills == [] then []
    else
      var last := fills[|fills| - 1];
      AcceptedIn(fills[..|fills| - 1]) + if last.answer.Accepted? then [last.d] else []
  }

  function CountSteps(steps: seq<(nat, Step)>, p: Step -> bool): nat {
    if steps == [] then 0
    else CountSteps(steps[..|steps| - 1], p) + if p(steps[|steps| - 1].1) then 1 else 0
  }

  predicate IsReceive(s: Step) { s.Receive? }
  predicate IsReceiveNil(s: Step) { s.ReceiveNil? }

  /** A Fill answers closed exactly if it found the queue closed, full exactly if it found it open and full, and
      otherwise accepts. */
  predicate Fair(found: Found, answer: FillResult, capacity: nat) {
    && found.Found?
    && (answer.QueueClosed? <==> found.closed)
    && (answer.QueueFull? <==> !found.closed && found.length == capacity)
  }

  predicate ThreadDid(pc: Pc, d: Option<Size>, found: Found, capacity: nat) {
    match pc
    case FillLocking(x) => d == Some(x)
    case FillChecking(x) => d == Some(x)
    case FillSending(x) => d == Some(x) && Fair(found, Accepted, capacity)
    case FillUnlocking(r) => d.Some? && Fair(found, r, capacity)
    case _ => true
  }

  /** The size sent by a Fill that has not unlocked yet. */
  function InFlight(s: State, steps: seq<(nat, Step)>): seq<Size> {
    if s.mux.Some? && s.mux.value < |s.threads| && s.threads[s.mux.value] == FillUnlocking(Accepted)
       && FillOf(steps, s.mux.value).Some?
    then [FillOf(steps, s.mux.value).value] else []
  }

  ghost predicate Did(s0: State, steps: seq<(nat, Step)>, s: State) {
    && CanRun(s0, steps) && After(s0, steps) == s && s.capacity == s0.capacity
    && (forall t :: 0 <= t < |s.threads| ==> ThreadDid(s.threads[t], FillOf(steps, t), FoundBy(s0, steps, t), s.capacity))
    && AllFair(FilledBy(s0, steps), s.capacity)
    && s.accepted == AcceptedIn(FilledBy(s0, steps)) + InFlight(s, steps)
    && |s.delivered| == CountSteps(steps, IsReceive) && s.nils == CountSteps(steps, IsReceiveNil)
  }

  lemma SnocFacts(s0: State, front: seq<(nat, Step)>, s: State, t: nat, step: Step, u: nat)
    requires CanRun(s0, front) && After(s0, front) == s && Enabled(s, t, step)
    ensures var steps := front + [(t, step)];
            && CanRun(s0, steps) && After(s0, steps) == Apply(s, t, step)
            && FillOf(steps, u) == (if t == u && step.StartFill? then Some(step.d) else FillOf(front, u))
            && FoundBy(s0, steps, u) == (if t == u && step.Check? then Found(s.closed, |s.queue|) else FoundBy(s0, front, u))
            && FilledBy(s0, steps) == FilledBy(s0, front) + FilledIn(s, (t, step), FillOf(front, t), FoundBy(s0, front, t))
            && CountSteps(steps, IsReceive) == CountSteps(front, IsReceive) + (if step.Receive? then 1 else 0)
            && CountSteps(steps, IsReceiveNil) == CountSteps(front, IsReceiveNil) + (if step.ReceiveNil? then 1 else 0)
  {
    var steps := front + [(t, step)];
    AfterSnoc(s0, front, t, step);
    assert steps[..|steps| - 1] == front && steps[|steps| - 1] == (t, step);
  }

  lemma ThreadStep(s0: State, front: seq<(nat, Step)>, s: State, t: nat, step: Step, u: nat)
    requires Did(s0, front, s) && Inv(s) && Enabled(s, t, step) && u < |s.threads|
    ensures var steps := front + [(t, step)];
            CanRun(s0, steps) && u < |Apply(s, t, step).threads|
            && ThreadDid(Apply(s, t, step).threads[u], FillOf(steps, u), FoundBy(s0, steps, u), s.capacity)
  {
    SnocFacts(s0, front, s, t, step, u);
    assert ThreadDid(s.threads[u], FillOf(front, u), FoundBy(s0, front, u), s.capacity);
  }

  lemma AcceptedSnoc(fills: seq<Filled>, f: Filled)
    ensures AcceptedIn(fills + [f]) == AcceptedIn(fills) + if f.answer.Accepted? then [f.d] else []
  {
    assert (fills + [f])[..|fills|] == fills;
  }

  /** What a step adds to what was accepted, returned or in flight. */
  lemma AcceptedStep(s0: State, front: seq<(nat, Step)>, s: State, t: nat, step: Step)
    requires Did(s0, front, s) && Inv(s) && Enabled(s, t, step)
    ensures var steps, s' := front + [(t, step)], Apply(s, t, step);
            CanRun(s0, steps) && s'.accepted == AcceptedIn(FilledBy(s0, steps)) + InFlight(s', steps)
  {
    var steps, s', pc := front + [(t, step)], Apply(s, t, step), s.threads[t];
    SnocFacts(s0, front, s, t, step, t);
    assert ThreadDid(pc, FillOf(front, t), FoundBy(s0, front, t), s.capacity);
    var fills := FilledBy(s0, front);
    if step.Unlock? && pc.FillUnlocking? {
      assert s.mux == Some(t) && s'.mux == None;
      AcceptedSnoc(fills, Filled(FillOf(front, t).value, FoundBy(s0, front, t), pc.r));
      assert AcceptedIn(fills) + [] == AcceptedIn(fills);
    } else {
      assert fills + [] == fills;
      FlightStep(s0, front, s, t, step);
    }
  }

  lemma FlightStep(s0: State, front: seq<(nat, Step)>, s: State, t: nat, step: Step)
    requires Did(s0, front, s) && Inv(s) && Enabled(s, t, step) && !(step.Unlock? && s.threads[t].FillUnlocking?)
    ensures var steps, s' := front + [(t, step)], Apply(s, t, step);
            if step.Send? then InFlight(s, front) == [] && s'.accepted == s.accepted + InFlight(s', steps)
            else InFlight(s', steps) == InFlight(s, front) && s'.accepted == s.accepted
  {
    var steps, s' := front + [(t, step)], Apply(s, t, step);
    assert ThreadDid(s.threads[t], FillOf(front, t), FoundBy(s0, front, t), s.capacity);
    SnocFacts(s0, front, s, t, step, t);
    if s.mux.Some? && s.mux.value < |s.threads| { SnocFacts(s0, front, s, t, step, s.mux.value); }
    if HoldsMux(s.threads[t]) { assert s.mux == Some(t); }
  }

  /** Over every run: every Fill that has returned answered by what it found under the lock; the sizes accepted
      are exactly those of the Fills that returned Accepted, in that order, and of the one that has sent and
      not yet unlocked, if any; and each receive took one size or saw one nil. */
  lemma {:induction false} FillsAnswerFairly(capacity: nat, n: nat, steps: seq<(nat, Step)>, s: State)
    requires Run(Init(capacity, n), steps, s)
    ensures Did(Init(capacity, n), steps, s)
    decreases |steps|
  {
    var s0 := Init(capacity, n);
    RunIsAfter(s0, steps, s);
    if steps != [] {
      Shorter(s0, steps);
      var front, last := steps[..|steps| - 1], steps[|steps| - 1];
      assert steps == front + [last];
      var mid := After(s0, front);
      AfterIsRun(s0, front);
      FillsAnswerFairly(capacity, n, front, mid);
      assert Inv(s0);
      RunKeepsInv(s0, front, mid);
      DidStep(s0, front, mid, last.0, last.1);
    }
  }

  lemma {:induction false} AfterIsRun(s: State, steps: seq<(nat, Step)>)
    requires CanRun(s, steps)
    ensures Run(s, steps, After(s, steps))
    decreases steps
  {
    if steps != [] { AfterIsRun(Apply(s, steps[0].0, steps[0].1), steps[1..]); }
  }

  ghost predicate AllFair(fills: seq<Filled>, capacity: nat) {
    forall i :: 0 <= i < |fills| ==> Fair(fills[i].found, fills[i].answer, capacity)
  }

  lemma FillsStep(s0: State, front: seq<(nat, Step)>, s: State, t: nat, step: Step)
    requires Did(s0, front, s) && Enabled(s, t, step)
    ensures CanRun(s0, front + [(t, step)]) && AllFair(FilledBy(s0, front + [(t, step)]), s.capacity)
  {
    SnocFacts(s0, front, s, t, step, t);
    assert ThreadDid(s.threads[t], FillOf(front, t), FoundBy(s0, front, t), s.capacity);
  }

  lemma ThreadsStep(s0: State, front: seq<(nat, Step)>, s: State, t: nat, step: Step)
    requires Did(s0, front, s) && Inv(s) && Enabled(s, t, step)
    ensures var steps, s' := front + [(t, step)], Apply(s, t, step);
            CanRun(s0, steps)
            && forall u :: 0 <= u < |s'.threads| ==> ThreadDid(s'.threads[u], FillOf(steps, u), FoundBy(s0, steps, u), s.capacity)
  {
    var steps, s' := front + [(t, step)], Apply(s, t, step);
    AfterSnoc(s0, front, t, step);
    forall u | 0 <= u < |s'.threads|
      ensures ThreadDid(s'.threads[u], FillOf(steps, u), FoundBy(s0, steps, u), s.capacity)
    {
      ThreadStep(s0, front, s, t, step, u);
    }
  }

  lemma DidStep(s0: State, front: seq<(nat, Step)>, s: State, t: nat, step: Step)
    requires Did(s0, front, s) && Inv(s) && Enabled(s, t, step)
    ensures Did(s0, front + [(t, step)], Apply(s, t, step))
  {
    SnocFacts(s0, front, s, t, step, t);
    AcceptedStep(s0, front, s, t, step);
    ThreadsStep(s0, front, s, t, step);
    FillsStep(s0, front, s, t, step);
    CountsStep(s, t, step);
  }

  lemma CountsStep(s: State, t: nat, step: Step)
    requires Inv(s) && Enabled(s, t, step)
    ensures var s' := Apply(s, t, step);
            && |s'.delivered| == |s.delivered| + (if step.Receive? then 1 else 0)
            && s'.nils == s.nils + (if step.ReceiveNil? then 1 else 0) && s'.capacity == s.capacity
  {}

  /** A Close that is about to return, or has returned, has closed the channel for good. */
  lemma EndedCloseHasClosed(s: State, t: nat, steps: seq<(nat, Step)>, s': State)
    requires Reachable(s) && t < |s.threads| && s.threads[t].CloseUnlocking? && Run(s, steps, s')
    ensures s.closed && s.chanClosed && s'.closed && s'.chanClosed
  {
    ReachableInv(s);
    ReachableClosing(s);
    StaysClosed(s, steps, s');
  }

  predicate ClosingOk(s: State) {
    forall t :: 0 <= t < |s.threads| && s.threads[t].CloseUnlocking? ==> s.closed && s.chanClosed
  }

  lemma ClosingStep(s: State, t: nat, step: Step)
    requires Inv(s) && ClosingOk(s) && Enabled(s, t, step)
    ensures ClosingOk(Apply(s, t, step))
  {
    if HoldsMux(s.threads[t]) { assert s.mux == Some(t); }
  }

  lemma {:induction false} ClosingRun(s: State, steps: seq<(nat, Step)>, s': State)
    requires Inv(s) && ClosingOk(s) && Run(s, steps, s')
    ensures ClosingOk(s')
    decreases steps
  {
    if steps != [] {
      InvStep(s, steps[0].0, steps[0].1);
      ClosingStep(s, steps[0].0, steps[0].1);
      ClosingRun(Apply(s, steps[0].0, steps[0].1), steps[1..], s');
    }
  }

  lemma ReachableClosing(s: State)
    requires Reachable(s)
    ensures ClosingOk(s)
  {
    var capacity: nat, n: nat, steps: seq<(nat, Step)> :| Run(Init(capacity, n), steps, s);
    assert Inv(Init(capacity, n));
    ClosingRun(Init(capacity, n), steps, s);
  }

  lemma {:induction false} StaysClosed(s: State, steps: seq<(nat, Step)>, s': State)
    requires s.closed && s.chanClosed && Run(s, steps, s')
    ensures s'.closed && s'.chanClosed
    decreases steps
  {
    if steps != [] { StaysClosed(Apply(s, steps[0].0, steps[0].1), steps[1..], s'); }
  }

  /** A receiver waits only while the queue is empty and open. */
  lemma ReceiverWaitsOnlyOpenAndEmpty(s: State, t: nat)
    requires t < |s.threads| && s.threads[t].Receiving?
    ensures Enabled(s, t, Receive) || Enabled(s, t, ReceiveNil) <==> s.queue != [] || s.chanClosed
  {}
}
