/** The goroutines behind one SSH channel (ssh/connection/connection.go, channels/channel.go,
    channels/callback.go): the channel handler, its Serve loop and the callbacks Serve starts.
    Each goroutine has a program counter; a step moves one goroutine, or two that meet at an
    unbuffered channel. Any number of callbacks may be alive. */
module ChannelLife {
  import opened Common
  import opened ChannelHandler

  // A channel offered by the client: its type, whether its extra data unmarshals, and the
  // requests already waiting on it.
  datatype NewChannel = NewChannel(channelType: string, extraOk: bool, requests: seq<Request>)

  datatype HandlerPc = Dispatching | Rejecting | Accepting | Building | StartingServe
                     | AwaitingServe | ReleasingHandler | HandlerGone

  datatype ServePc = ServeUnborn | Running(todo: seq<Action>) | Selecting | Cancelling
                   | AwaitingCallbacks | HandingOff | ServeGone

  datatype CallbackPc = Working | Closing | Releasing | CallbackGone

  // `closes` and `dones` count channel.Close attempts and wg.Done calls of this goroutine.
  datatype Callback = Callback(thread: Thread, pc: CallbackPc, closes: nat, dones: nat)

  datatype Channel = Channel(channelType: string,
                             extraOk: bool,
                             handler: HandlerPc,
                             serve: ServePc,
                             cancelled: bool,          // Serve's own cancel()
                             wg: int,                  // reqData.wg
                             callbacks: seq<Callback>,
                             pending: seq<Request>,
                             closed: bool,             // request stream closed by the client
                             served: seq<Request>,     // requests received so far
                             handoffs: nat,            // sends on serveCloseDone
                             rejects: nat,             // newChannel.Reject calls
                             performed: seq<Action>)   // what Serve's callbacks have done so far

  datatype Step =
    | HandlerNext(ok: bool)   // the handler's next statement; ok is the outcome of an external call
    | ServeAct                // the next action of a startup or request callback
    | ServeTake               // select: a request arrives
    | ServeSeeDone            // select: the context is done
    | ServeSeeClosed          // select: the request stream is closed
    | ServeNext               // Serve's deferred cleanup
    | Join                    // serveCloseDone: Serve sends, the handler receives
    | CallbackNext(j: nat)    // callback j's next statement

  function Open(o: NewChannel): Channel {
    Channel(o.channelType, o.extraOk, Dispatching, ServeUnborn, false, 0, [], o.requests, false, [], 0, 0, [])
  }

  /** Which steps can run; `done` tells whether the connection's channel context is cancelled. */
  predicate Enabled(c: Channel, done: bool, s: Step) {
    match s
    case HandlerNext(_) => !c.handler.AwaitingServe? && !c.handler.HandlerGone?
    case ServeAct => c.serve.Running?
    case ServeTake => c.serve.Selecting? && c.pending != []
    case ServeSeeDone => c.serve.Selecting? && (done || c.cancelled)
    case ServeSeeClosed => c.serve.Selecting? && c.pending == [] && c.closed
    case ServeNext => c.serve.Cancelling? || (c.serve.AwaitingCallbacks? && c.wg == 0)
    case Join => c.serve.HandingOff? && c.handler.AwaitingServe?
    case CallbackNext(j) => j < |c.callbacks| && !c.callbacks[j].pc.CallbackGone?
  }

  function HandlerStep(c: Channel, ok: bool): Channel
    requires !c.handler.AwaitingServe? && !c.handler.HandlerGone?
  {
    match c.handler
    case Dispatching =>
      c.(handler := if c.channelType == "session" then Accepting
                    else if c.channelType == "direct-tcpip" && c.extraOk then Accepting
                    else Rejecting)
    case Rejecting => c.(handler := ReleasingHandler, rejects := c.rejects + 1)
    case Accepting => c.(handler := if ok then Building else ReleasingHandler)
    case Building => c.(handler := if ok then StartingServe else ReleasingHandler)
    case StartingServe => c.(handler := AwaitingServe, serve := Running(ChannelStartup(c.channelType)))
    case ReleasingHandler => c.(handler := HandlerGone)
    case _ => c
  }

  function Act(c: Channel): Channel
    requires c.serve.Running?
  {
    var todo := c.serve.todo;
    if todo == [] then c.(serve := Selecting)
    else
      var c' := c.(serve := Running(todo[1..]), performed := c.performed + [todo[0]]);
      match todo[0]
      case WgAdd => c'.(wg := c.wg + 1)
      case Go(t) => c'.(callbacks := c.callbacks + [Callback(t, Working, 0, 0)])
      case _ => c'
  }

  function Take(c: Channel, acts: seq<Action>): Channel
    requires c.pending != []
  {
    c.(serve := Running(acts), pending := c.pending[1..], served := c.served + [c.pending[0]])
  }

  /** A callback goroutine's next statement: its work, the deferred channel close, the deferred wg.Done. */
  function Moved(b: Callback): Callback {
    match b.pc
    case Working => b.(pc := Closing)
    case Closing => b.(pc := Releasing, closes := b.closes + 1)
    case _ => b.(pc := CallbackGone, dones := b.dones + 1)
  }

  function CallbackStep(c: Channel, j: nat): Channel
    requires j < |c.callbacks| && !c.callbacks[j].pc.CallbackGone?
  {
    var b := Moved(c.callbacks[j]);
    c.(callbacks := c.callbacks[j := b], wg := if b.pc.CallbackGone? then c.wg - 1 else c.wg)
  }

  function Apply(c: Channel, done: bool, s: Step): Channel
    requires Enabled(c, done, s)
  {
    match s
    case HandlerNext(ok) => HandlerStep(c, ok)
    case ServeAct => Act(c)
    case ServeTake => Take(c, ChannelActions(c.channelType, c.pending[0]))
    case ServeSeeDone => c.(serve := Cancelling)
    case ServeSeeClosed => c.(serve := Cancelling)
    case ServeNext =>
      if c.serve.Cancelling? then c.(serve := AwaitingCallbacks, cancelled := true)
      else c.(serve := HandingOff)
    case Join => c.(serve := ServeGone, handler := ReleasingHandler, handoffs := c.handoffs + 1)
    case CallbackNext(j) => CallbackStep(c, j)
  }

  // ---------------------------------------------------------------------------
  // Invariant
  // ---------------------------------------------------------------------------

  function Live(cbs: seq<Callback>): nat {
    if cbs == [] then 0 else (if cbs[0].pc.CallbackGone? then 0 else 1) + Live(cbs[1..])
  }

  predicate CallbackOk(b: Callback) {
    && b.closes == (if b.pc.Releasing? || b.pc.CallbackGone? then 1 else 0)
    && b.dones == (if b.pc.CallbackGone? then 1 else 0)
  }

  function ThreadOf(b: Callback): seq<Thread> { [b.thread] }

  function Todo(p: ServePc): seq<Action> {
    if p.Running? then p.todo else []
  }

  function Gos(todo: seq<Action>): nat { |Flat(ThreadIn, todo)| }
  function Adds(todo: seq<Action>): nat { |Flat(AddIn, todo)| }

  /** Every goroutine start still to come has its wg.Add either just done or still to come. */
  predicate Balanced(todo: seq<Action>) {
    Adds(todo) <= Gos(todo) <= Adds(todo) + 1 && (todo != [] ==> Balanced(todo[1..]))
  }

  /** Goroutines already added to the wait group but not yet started. */
  function Owed(p: ServePc): int { Gos(Todo(p)) - Adds(Todo(p)) }

  predicate Stopped(p: ServePc) { p.HandingOff? || p.ServeGone? }

  /** Channels that may be served: sessions, and direct-tcpip channels whose extra data is readable. */
  predicate Servable(c: Channel) {
    c.channelType == "session" || (c.channelType == "direct-tcpip" && c.extraOk)
  }

  /** How the handler, its Serve loop and the hand-off between them line up. */
  predicate Shape(c: Channel) {
    && (c.handler.AwaitingServe? ==> !c.serve.ServeUnborn? && !c.serve.ServeGone?)
    && (c.handler.ReleasingHandler? || c.handler.HandlerGone? ==> c.serve.ServeUnborn? || c.serve.ServeGone?)
    && (c.handler.AwaitingServe? || c.handler.ReleasingHandler? || c.handler.HandlerGone? || c.serve.ServeUnborn?)
    && (c.serve.ServeUnborn? ==> c.callbacks == [] && c.served == [])
    && c.cancelled == (c.serve.AwaitingCallbacks? || Stopped(c.serve))
    && c.handoffs == (if c.serve.ServeGone? then 1 else 0)
    && (c.handler.Rejecting? ==> !Servable(c))
    && (c.handler.Accepting? || c.handler.Building? || c.handler.StartingServe? || !c.serve.ServeUnborn? ==> Servable(c))
  }

  /** The wait group counts the callbacks alive and those about to be started. */
  predicate Counted(c: Channel) {
    && Balanced(Todo(c.serve))
    && c.wg == Live(c.callbacks) + Owed(c.serve)
    && (Stopped(c.serve) ==> c.wg == 0)
  }

  predicate CallbacksOk(cbs: seq<Callback>) {
    forall j :: 0 <= j < |cbs| ==> CallbackOk(cbs[j])
  }

  /** The callbacks started, then those about to be, are the ones the received requests call for. */
  predicate RightThreads(c: Channel) {
    !c.serve.ServeUnborn? ==>
      Flat(ThreadOf, c.callbacks) + Flat(ThreadIn, Todo(c.serve)) == ThreadsAfter(c.channelType, c.served)
  }

  ghost predicate Inv(c: Channel) {
    Shape(c) && Counted(c) && CallbacksOk(c.callbacks) && RightThreads(c)
  }

  lemma {:induction false} LiveUpdate(cbs: seq<Callback>, j: nat, b: Callback)
    requires j < |cbs|
    ensures Live(cbs[j := b]) == Live(cbs) + (if cbs[j].pc.CallbackGone? then 1 else 0)
                                 - (if b.pc.CallbackGone? then 1 else 0)
  {
    if j > 0 {
      LiveUpdate(cbs[1..], j - 1, b);
      assert cbs[j := b][1..] == cbs[1..][j - 1 := b];
    } else {
      assert cbs[0 := b][1..] == cbs[1..];
    }
  }

  lemma {:induction false} LiveSnoc(cbs: seq<Callback>, b: Callback)
    ensures Live(cbs + [b]) == Live(cbs) + (if b.pc.CallbackGone? then 0 else 1)
  {
    if cbs == [] {
      assert cbs + [b] == [b] && [b][1..] == [];
    } else {
      LiveSnoc(cbs[1..], b);
      assert (cbs + [b])[1..] == cbs[1..] + [b];
    }
  }

  lemma {:induction false} LiveZero(cbs: seq<Callback>)
    ensures Live(cbs) == 0 <==> forall j :: 0 <= j < |cbs| ==> cbs[j].pc.CallbackGone?
  {
    if cbs != [] {
      LiveZero(cbs[1..]);
      assert forall j :: 0 < j < |cbs| ==> cbs[j] == cbs[1..][j - 1];
      assert forall j :: 0 <= j < |cbs[1..]| ==> cbs[1..][j] == cbs[j + 1];
    }
  }

  lemma {:induction false} ThreadsUnchanged(cbs: seq<Callback>, j: nat, b: Callback)
    requires j < |cbs| && b.thread == cbs[j].thread
    ensures Flat(ThreadOf, cbs[j := b]) == Flat(ThreadOf, cbs)
  {
    if j > 0 {
      ThreadsUnchanged(cbs[1..], j - 1, b);
      assert cbs[j := b][1..] == cbs[1..][j - 1 := b];
    } else {
      assert cbs[0 := b][1..] == cbs[1..];
    }
  }

  lemma BalancedThree(todo: seq<Action>)
    requires todo == [] || (|todo| == 1 && !todo[0].WgAdd? && !todo[0].Go?)
             || (|todo| == 2 && (todo[0].SetPty? || (todo[0].WgAdd? && todo[1].Go?)) && (todo[0].SetPty? ==> todo[1].Reply?))
             || (|todo| == 3 && todo[0].WgAdd? && todo[1].Go? && todo[2].Reply?)
    ensures Balanced(todo) && Gos(todo) == Adds(todo)
  {
    FlatThree(ThreadIn, todo);
    FlatThree(AddIn, todo);
    if todo != [] {
      FlatThree(ThreadIn, todo[1..]);
      FlatThree(AddIn, todo[1..]);
      if |todo| > 1 {
        FlatThree(ThreadIn, todo[1..][1..]);
        FlatThree(AddIn, todo[1..][1..]);
      }
    }
  }

  lemma StartupBalanced(channelType: string)
    ensures Balanced(ChannelStartup(channelType)) && Owed(Running(ChannelStartup(channelType))) == 0
    ensures Flat(ThreadIn, ChannelStartup(channelType)) == StartupThreads(channelType)
  {
    StartupExactly(channelType);
    BalancedThree(ChannelStartup(channelType));
    FlatThree(ThreadIn, ChannelStartup(channelType));
  }

  lemma RequestBalanced(channelType: string, req: Request)
    ensures Balanced(ChannelActions(channelType, req)) && Owed(Running(ChannelActions(channelType, req))) == 0
    ensures Flat(ThreadIn, ChannelActions(channelType, req)) == ExpectedThread(channelType, req)
  {
    RequestExactly(channelType, req);
    BalancedThree(ChannelActions(channelType, req));
    RequestThreads(channelType, req);
  }

  lemma NothingToDo(c: Channel)
    requires Todo(c.serve) == []
    ensures Balanced(Todo(c.serve)) && Owed(c.serve) == 0
    ensures Flat(ThreadOf, c.callbacks) + Flat(ThreadIn, Todo(c.serve)) == Flat(ThreadOf, c.callbacks)
  {
    assert Flat(ThreadOf, c.callbacks) + [] == Flat(ThreadOf, c.callbacks);
  }

  lemma InvOpen(o: NewChannel)
    ensures Inv(Open(o))
  {
    NothingToDo(Open(o));
  }

  /** Handing Serve a new, balanced list of actions keeps the invariant when the list starts exactly
      the threads that become due. */
  lemma InvBegin(c: Channel, c': Channel, acts: seq<Action>)
    requires Inv(c) && Todo(c.serve) == [] && !Stopped(c.serve)
    requires Shape(c') && c'.serve == Running(acts) && c'.callbacks == c.callbacks && c'.wg == c.wg
    requires Balanced(acts) && Gos(acts) == Adds(acts)
    requires Flat(ThreadOf, c.callbacks) + Flat(ThreadIn, acts) == ThreadsAfter(c'.channelType, c'.served)
    ensures Inv(c')
  {
    NothingToDo(c);
  }

  lemma InvStartServe(c: Channel)
    requires Inv(c) && c.handler.StartingServe?
    ensures Inv(HandlerStep(c, true))
  {
    var acts := ChannelStartup(c.channelType);
    StartupBalanced(c.channelType);
    assert Flat(ThreadOf, []) + Flat(ThreadIn, acts) == StartupThreads(c.channelType);
    assert ThreadsAfter(c.channelType, []) == StartupThreads(c.channelType);
    InvBegin(c, HandlerStep(c, true), acts);
  }

  lemma InvHandler(c: Channel, done: bool, ok: bool)
    requires Inv(c) && Enabled(c, done, HandlerNext(ok))
    ensures Inv(Apply(c, done, HandlerNext(ok)))
  {
    var c' := HandlerStep(c, ok);
    if c.handler.StartingServe? {
      InvStartServe(c);
    } else {
      assert Shape(c') && c'.serve == c.serve && c'.callbacks == c.callbacks && c'.wg == c.wg;
    }
  }

  /** Splitting off the first action of a balanced list. */
  lemma BalancedTail(todo: seq<Action>)
    requires todo != [] && Balanced(todo)
    ensures Balanced(todo[1..])
    ensures Flat(ThreadIn, todo) == ThreadIn(todo[0]) + Flat(ThreadIn, todo[1..])
    ensures Gos(todo) - Adds(todo) == Gos(todo[1..]) - Adds(todo[1..])
                                      + (if todo[0].Go? then 1 else if todo[0].WgAdd? then -1 else 0)
  {}

  lemma ActCounted(c: Channel)
    requires Counted(c) && c.serve.Running? && c.serve.todo != []
    ensures Counted(Act(c))
  {
    BalancedTail(c.serve.todo);
    if c.serve.todo[0].Go? {
      LiveSnoc(c.callbacks, Callback(c.serve.todo[0].thread, Working, 0, 0));
    }
  }

  lemma ActThreads(c: Channel)
    requires RightThreads(c) && Balanced(Todo(c.serve)) && c.serve.Running? && c.serve.todo != []
    ensures RightThreads(Act(c))
  {
    BalancedTail(c.serve.todo);
    var first, rest := ThreadIn(c.serve.todo[0]), Flat(ThreadIn, c.serve.todo[1..]);
    ConcatAssociative(Flat(ThreadOf, c.callbacks), first, rest);
    if c.serve.todo[0].Go? {
      FlatSnoc(ThreadOf, c.callbacks, Callback(c.serve.todo[0].thread, Working, 0, 0));
    } else {
      assert Flat(ThreadOf, c.callbacks) + [] == Flat(ThreadOf, c.callbacks);
    }
  }

  lemma ActShape(c: Channel)
    requires Shape(c) && CallbacksOk(c.callbacks) && c.serve.Running?
    ensures Shape(Act(c)) && CallbacksOk(Act(c).callbacks)
  {}

  lemma InvActEnd(c: Channel)
    requires Inv(c) && c.serve.Running? && c.serve.todo == []
    ensures Inv(Act(c))
  {
    NothingToDo(c);
    NothingToDo(Act(c));
  }

  lemma InvAct(c: Channel, done: bool)
    requires Inv(c) && Enabled(c, done, ServeAct)
    ensures Inv(Apply(c, done, ServeAct))
  {
    if c.serve.todo == [] {
      InvActEnd(c);
    } else {
      ActCounted(c);
      ActThreads(c);
      ActShape(c);
    }
  }

  lemma ThreadsAfterOneMore(channelType: string, served: seq<Request>, req: Request)
    ensures ThreadsAfter(channelType, served + [req])
            == ThreadsAfter(channelType, served) + ExpectedThread(channelType, req)
  {
    FlatSnoc(ThreadFor(channelType), served, req);
    var before := Flat(ThreadFor(channelType), served);
    assert StartupThreads(channelType) + (before + ExpectedThread(channelType, req))
        == (StartupThreads(channelType) + before) + ExpectedThread(channelType, req);
  }

  lemma InvTakeActions(c: Channel, acts: seq<Action>)
    requires Inv(c) && c.serve.Selecting? && c.pending != []
    requires Balanced(acts) && Gos(acts) == Adds(acts)
    requires Flat(ThreadIn, acts) == ExpectedThread(c.channelType, c.pending[0])
    ensures Inv(Take(c, acts))
  {
    NothingToDo(c);
    ThreadsAfterOneMore(c.channelType, c.served, c.pending[0]);
    InvBegin(c, Take(c, acts), acts);
  }

  lemma InvTake(c: Channel, done: bool)
    requires Inv(c) && Enabled(c, done, ServeTake)
    ensures Inv(Apply(c, done, ServeTake))
  {
    var acts := ChannelActions(c.channelType, c.pending[0]);
    RequestBalanced(c.channelType, c.pending[0]);
    InvTakeActions(c, acts);
  }

  /** What moving one callback on does to the callback list. */
  lemma CallbackMoves(c: Channel, j: nat)
    requires CallbacksOk(c.callbacks) && j < |c.callbacks| && !c.callbacks[j].pc.CallbackGone?
    ensures CallbacksOk(CallbackStep(c, j).callbacks)
    ensures CallbackStep(c, j).wg - Live(CallbackStep(c, j).callbacks) == c.wg - Live(c.callbacks)
    ensures Flat(ThreadOf, CallbackStep(c, j).callbacks) == Flat(ThreadOf, c.callbacks)
    ensures Live(c.callbacks) > 0
  {
    var b := Moved(c.callbacks[j]);
    LiveUpdate(c.callbacks, j, b);
    ThreadsUnchanged(c.callbacks, j, b);
    LiveZero(c.callbacks);
  }

  lemma WaitGroupAtLeastLive(c: Channel)
    requires Counted(c)
    ensures Live(c.callbacks) <= c.wg <= Live(c.callbacks) + 1
    ensures Live(c.callbacks) > 0 ==> !Stopped(c.serve)
  {}

  lemma CallbackKeepsShape(c: Channel, j: nat)
    requires Shape(c) && j < |c.callbacks| && !c.callbacks[j].pc.CallbackGone?
    ensures Shape(CallbackStep(c, j))
  {}

  lemma InvCallback(c: Channel, done: bool, j: nat)
    requires Inv(c) && Enabled(c, done, CallbackNext(j))
    ensures Inv(Apply(c, done, CallbackNext(j)))
  {
    CallbackMoves(c, j);
    CallbackKeepsShape(c, j);
    WaitGroupAtLeastLive(c);
    SameServe(c, CallbackStep(c, j));
  }

  lemma SameServe(c: Channel, c': Channel)
    requires Inv(c) && Shape(c') && c'.serve == c.serve && c'.channelType == c.channelType && c'.served == c.served
    requires c'.wg - Live(c'.callbacks) == c.wg - Live(c.callbacks) && !Stopped(c.serve)
    requires Flat(ThreadOf, c'.callbacks) == Flat(ThreadOf, c.callbacks) && CallbacksOk(c'.callbacks)
    ensures Inv(c')
  {}

  lemma InvQuiet(c: Channel, done: bool, s: Step)
    requires Inv(c) && Enabled(c, done, s) && (s.ServeSeeDone? || s.ServeSeeClosed? || s.ServeNext? || s.Join?)
    ensures Inv(Apply(c, done, s))
  {
    NothingToDo(c);
    NothingToDo(Apply(c, done, s));
  }

  lemma InvStep(c: Channel, done: bool, s: Step)
    requires Inv(c) && Enabled(c, done, s)
    ensures Inv(Apply(c, done, s))
  {
    match s
    case HandlerNext(ok) => InvHandler(c, done, ok);
    case ServeAct => InvAct(c, done);
    case ServeTake => InvTake(c, done);
    case CallbackNext(j) => InvCallback(c, done, j);
    case _ => InvQuiet(c, done, s);
  }

  // ---------------------------------------------------------------------------
  // Consequences
  // ---------------------------------------------------------------------------

  /** The wait group counts the callbacks alive and the one added but not yet started, never goes
      negative, and gets no Add once Serve has begun to wait. */
  lemma WaitGroupSound(c: Channel, done: bool, s: Step)
    requires Inv(c) && Enabled(c, done, s)
    ensures c.wg == Live(c.callbacks) + Owed(c.serve) && 0 <= Owed(c.serve) <= 1
    ensures (c.serve.AwaitingCallbacks? || Stopped(c.serve)) ==>
              Owed(c.serve) == 0 && Apply(c, done, s).wg <= c.wg
  {}

  /** When the handler goroutine is gone, so are its Serve loop, which handed off exactly once if it
      ever ran, and every callback, each after one close attempt and one wg.Done; and the callbacks
      started are exactly those the received requests call for. */
  lemma HandlerGoneMeansQuiet(c: Channel)
    requires Inv(c) && c.handler.HandlerGone?
    ensures (c.serve.ServeUnborn? || c.serve.ServeGone?) && c.wg == 0
    ensures c.handoffs == if c.serve.ServeUnborn? then 0 else 1
    ensures forall j :: 0 <= j < |c.callbacks| ==>
              c.callbacks[j].pc.CallbackGone? && c.callbacks[j].closes == 1 && c.callbacks[j].dones == 1
    ensures Flat(ThreadOf, c.callbacks) == if c.serve.ServeUnborn? then [] else ThreadsAfter(c.channelType, c.served)
  {
    LiveZero(c.callbacks);
    assert Flat(ThreadOf, c.callbacks) + [] == Flat(ThreadOf, c.callbacks);
  }

  /** Only servable channels are ever served, and only the others are rejected. */
  lemma ServedOnlyIfServable(c: Channel)
    requires Inv(c)
    ensures !c.serve.ServeUnborn? ==> Servable(c)
    ensures c.handler.Rejecting? ==> !Servable(c)
    ensures c.serve.ServeGone? ==> |c.callbacks| == if c.channelType == "session" then CountWhere(c.served, StartsThread) else 1
  {
    if c.serve.ServeGone? { CallbackCount(c); }
  }

  lemma {:induction false} OneThreadEach(cbs: seq<Callback>)
    ensures |Flat(ThreadOf, cbs)| == |cbs|
  {
    if cbs != [] { OneThreadEach(cbs[1..]); }
  }

  /** Number of callback goroutines ever started by a finished channel that was served. */
  lemma CallbackCount(c: Channel)
    requires Inv(c) && c.serve.ServeGone?
    ensures |c.callbacks| == if c.channelType == "session" then CountWhere(c.served, StartsThread) else 1
  {
    OneThreadEach(c.callbacks);
    ThreadCount(c.channelType, c.served);
  }

  // ---------------------------------------------------------------------------
  // Termination and progress
  // ---------------------------------------------------------------------------

  // A request makes Serve take one step, run at most three actions and come back; an action may
  // start a callback, which takes three steps.
  const REQUEST_WEIGHT: nat := 17

  function HandlerRank(p: HandlerPc): nat {
    match p
    case Dispatching => 7
    case Rejecting => 6
    case Accepting => 6
    case Building => 5
    case StartingServe => 4
    case AwaitingServe => 3
    case ReleasingHandler => 2
    case HandlerGone => 0
  }

  function ServeRank(p: ServePc): nat {
    match p
    case ServeUnborn => 16
    case Running(todo) => 6 + 5 * |todo|
    case Selecting => 5
    case Cancelling => 4
    case AwaitingCallbacks => 3
    case HandingOff => 2
    case ServeGone => 0
  }

  function CallbackRank(b: Callback): nat {
    match b.pc
    case Working => 3
    case Closing => 2
    case Releasing => 1
    case CallbackGone => 0
  }

  function CallbacksRank(cbs: seq<Callback>): nat {
    if cbs == [] then 0 else CallbackRank(cbs[0]) + CallbacksRank(cbs[1..])
  }

  /** Bounds the number of steps a channel can still take without new client input. */
  function Measure(c: Channel): nat {
    HandlerRank(c.handler) + ServeRank(c.serve) + REQUEST_WEIGHT * |c.pending| + CallbacksRank(c.callbacks)
  }

  lemma {:induction false} RankUpdate(cbs: seq<Callback>, j: nat, b: Callback)
    requires j < |cbs|
    ensures CallbacksRank(cbs[j := b]) == CallbacksRank(cbs) - CallbackRank(cbs[j]) + CallbackRank(b)
  {
    if j > 0 {
      RankUpdate(cbs[1..], j - 1, b);
      assert cbs[j := b][1..] == cbs[1..][j - 1 := b];
    } else {
      assert cbs[0 := b][1..] == cbs[1..];
    }
  }

  lemma {:induction false} RankSnoc(cbs: seq<Callback>, b: Callback)
    ensures CallbacksRank(cbs + [b]) == CallbacksRank(cbs) + CallbackRank(b)
  {
    if cbs == [] {
      assert cbs + [b] == [b] && [b][1..] == [];
    } else {
      RankSnoc(cbs[1..], b);
      assert (cbs + [b])[1..] == cbs[1..] + [b];
    }
  }

  lemma HandlerMeasure(c: Channel, ok: bool)
    requires Shape(c) && !c.handler.AwaitingServe? && !c.handler.HandlerGone?
    ensures Measure(HandlerStep(c, ok)) < Measure(c)
  {
    if c.handler.StartingServe? {
      StartupExactly(c.channelType);
      StartMeasure(c, HandlerStep(c, ok), ChannelStartup(c.channelType));
    }
  }

  lemma StartMeasure(c: Channel, c': Channel, acts: seq<Action>)
    requires c.handler.StartingServe? && c.serve.ServeUnborn? && |acts| <= 2
    requires c' == c.(handler := AwaitingServe, serve := Running(acts))
    ensures Measure(c') < Measure(c)
  {}

  lemma ActMeasure(c: Channel)
    requires c.serve.Running?
    ensures Measure(Act(c)) < Measure(c)
  {
    if c.serve.todo != [] && c.serve.todo[0].Go? {
      RankSnoc(c.callbacks, Callback(c.serve.todo[0].thread, Working, 0, 0));
    }
  }

  lemma TakeMeasure(c: Channel, acts: seq<Action>)
    requires c.serve.Selecting? && c.pending != [] && |acts| <= 3
    ensures Measure(Take(c, acts)) < Measure(c)
  {}

  lemma CallbackMeasure(c: Channel, j: nat)
    requires j < |c.callbacks| && !c.callbacks[j].pc.CallbackGone?
    ensures Measure(CallbackStep(c, j)) < Measure(c)
  {
    RankUpdate(c.callbacks, j, CallbackStep(c, j).callbacks[j]);
  }

  lemma QuietMeasure(c: Channel, done: bool, s: Step)
    requires Enabled(c, done, s) && (s.ServeSeeDone? || s.ServeSeeClosed? || s.ServeNext? || s.Join?)
    ensures Measure(Apply(c, done, s)) < Measure(c)
  {}

  /** Every step of a channel's goroutines lowers the measure. */
  lemma MeasureFalls(c: Channel, done: bool, s: Step)
    requires Shape(c) && Enabled(c, done, s)
    ensures Measure(Apply(c, done, s)) < Measure(c)
  {
    match s
    case HandlerNext(ok) => HandlerMeasure(c, ok);
    case ServeAct => ActMeasure(c);
    case ServeTake =>
      AtMostThreeActions(c.channelType, c.pending[0]);
      TakeMeasure(c, ChannelActions(c.channelType, c.pending[0]));
    case CallbackNext(j) => CallbackMeasure(c, j);
    case _ => QuietMeasure(c, done, s);
  }

  /** Once the context is cancelled, a channel whose handler is not gone always has a next step. */
  lemma Progress(c: Channel) returns (s: Step)
    requires Inv(c) && !c.handler.HandlerGone?
    ensures Enabled(c, true, s)
  {
    if !c.handler.AwaitingServe? {
      return HandlerNext(true);
    }
    match c.serve
    case Running(_) => s := ServeAct;
    case Selecting => s := ServeSeeDone;
    case Cancelling => s := ServeNext;
    case AwaitingCallbacks =>
      if c.wg == 0 {
        s := ServeNext;
      } else {
        LiveZero(c.callbacks);
        var j :| 0 <= j < |c.callbacks| && !c.callbacks[j].pc.CallbackGone?;
        s := CallbackNext(j);
      }
    case HandingOff => s := Join;
  }
}
