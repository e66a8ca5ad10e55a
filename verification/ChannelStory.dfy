/** What a channel does, from the offer to the end (ssh/connection/connection.go:105-172 and
    channels/channel.go): whole runs of ChannelLife, told by the offer, the client's input and the outcomes of
    the external calls. */
module ChannelStory {
  import opened Common
  import opened ChannelHandler
  import opened ChannelLife

  datatype Event =
    | Moves(done: bool, step: Step)   // a goroutine's step; whether the connection's context is cancelled
    | Arrives(req: Request)
    | Closes                          // the client closes the request stream

  predicate CanHappen(c: Channel, e: Event) {
    match e
    case Moves(done, step) => Enabled(c, done, step)
    case Arrives(_) => !c.closed
    case Closes => true
  }

  function After(c: Channel, e: Event): Channel
    requires CanHappen(c, e)
  {
    match e
    case Moves(done, step) => Apply(c, done, step)
    case Arrives(req) => c.(pending := c.pending + [req])
    case Closes => c.(closed := true)
  }

  predicate Run(c: Channel, events: seq<Event>, c': Channel)
    decreases events
  {
    if events == [] then c == c' else CanHappen(c, events[0]) && Run(After(c, events[0]), events[1..], c')
  }

  lemma {:induction false} SplitLast(c: Channel, events: seq<Event>, c': Channel) returns (mid: Channel)
    requires events != [] && Run(c, events, c')
    ensures var n := |events| - 1; Run(c, events[..n], mid) && CanHappen(mid, events[n]) && After(mid, events[n]) == c'
    decreases events
  {
    var n := |events| - 1;
    if n == 0 {
      mid := c;
    } else {
      var rest := events[1..];
      mid := SplitLast(After(c, events[0]), rest, c');
      assert events[..n][0] == events[0] && events[..n][1..] == rest[..n - 1] && rest[n - 1] == events[n];
    }
  }

  lemma {:induction false} RunSnoc(c: Channel, events: seq<Event>, mid: Channel, e: Event)
    requires Run(c, events, mid) && CanHappen(mid, e)
    ensures Run(c, events + [e], After(mid, e))
    decreases events
  {
    if events == [] {
      assert events + [e] == [e] && [e][1..] == [];
    } else {
      RunSnoc(After(c, events[0]), events[1..], mid, e);
      assert (events + [e])[1..] == events[1..] + [e];
    }
  }

  // ---------------------------------------------------------------------------
  // What the events say
  // ---------------------------------------------------------------------------

  function OkIn(e: Event): seq<bool> { if e.Moves? && e.step.HandlerNext? then [e.step.ok] else [] }
  function ArrivalIn(e: Event): seq<Request> { if e.Arrives? then [e.req] else [] }

  /** The outcomes of the handler's statements, in order: the type switch, then either Reject, or Accept,
      building the handler, starting Serve; and the deferred Done. */
  function Oks(events: seq<Event>): seq<bool> { Flat(OkIn, events) }

  function Arrivals(events: seq<Event>): seq<Request> { Flat(ArrivalIn, events) }

  predicate EverDone(events: seq<Event>) { exists i :: 0 <= i < |events| && events[i].Moves? && events[i].done }

  predicate EverClosed(events: seq<Event>) { Closes in events }

  /** Sessions, and direct-tcpip channels whose extra data is readable. */
  predicate ServableOffer(o: NewChannel) {
    o.channelType == "session" || (o.channelType == "direct-tcpip" && o.extraOk)
  }

  // ---------------------------------------------------------------------------
  // Which channels are served
  // ---------------------------------------------------------------------------

  /** How far the handler has come, by the outcomes so far. */
  predicate HandlerDid(o: NewChannel, oks: seq<bool>, c: Channel) {
    && c.channelType == o.channelType && c.extraOk == o.extraOk
    && match c.handler
       case Dispatching => oks == [] && c.serve.ServeUnborn? && c.rejects == 0
       case Rejecting => |oks| == 1 && !ServableOffer(o) && c.serve.ServeUnborn? && c.rejects == 0
       case Accepting => |oks| == 1 && ServableOffer(o) && c.serve.ServeUnborn? && c.rejects == 0
       case Building => |oks| == 2 && oks[1] && ServableOffer(o) && c.serve.ServeUnborn? && c.rejects == 0
       case StartingServe => |oks| == 3 && oks[1] && oks[2] && ServableOffer(o) && c.serve.ServeUnborn? && c.rejects == 0
       case AwaitingServe =>
         |oks| == 4 && oks[1] && oks[2] && ServableOffer(o) && !c.serve.ServeUnborn? && !c.serve.ServeGone? && c.rejects == 0
       case _ => HandlerEnded(o, oks, c)
  }

  predicate HandlerEnded(o: NewChannel, oks: seq<bool>, c: Channel) {
    && |oks| >= (if c.handler.HandlerGone? then 3 else 2)
    && c.rejects == (if ServableOffer(o) then 0 else 1)
    && (if ServableOffer(o) && oks[1] then |oks| > 2 else c.serve.ServeUnborn?)
    && (ServableOffer(o) && oks[1] ==> if oks[2] then c.serve.ServeGone? else c.serve.ServeUnborn?)
  }

  lemma HandlerStepDid(o: NewChannel, oks: seq<bool>, c: Channel, done: bool, ok: bool)
    requires HandlerDid(o, oks, c) && Enabled(c, done, HandlerNext(ok))
    ensures HandlerDid(o, oks + [ok], Apply(c, done, HandlerNext(ok)))
  {}

  lemma SameHandlerDid(o: NewChannel, oks: seq<bool>, c: Channel, c': Channel)
    requires HandlerDid(o, oks, c) && c'.handler == c.handler && c'.rejects == c.rejects
    requires c'.channelType == c.channelType && c'.extraOk == c.extraOk
    requires (c'.serve.ServeUnborn? <==> c.serve.ServeUnborn?) && (c'.serve.ServeGone? <==> c.serve.ServeGone?)
    ensures HandlerDid(o, oks, c')
  {}

  lemma JoinDid(o: NewChannel, oks: seq<bool>, c: Channel, done: bool)
    requires HandlerDid(o, oks, c) && Enabled(c, done, Join)
    ensures HandlerDid(o, oks, Apply(c, done, Join))
  {}

  lemma ServeStepsKeepHandler(c: Channel, done: bool, step: Step)
    requires Shape(c) && Enabled(c, done, step) && !step.HandlerNext? && !step.Join?
    ensures var c' := Apply(c, done, step);
            && c'.handler == c.handler && c'.rejects == c.rejects
            && c'.channelType == c.channelType && c'.extraOk == c.extraOk
            && (c'.serve.ServeUnborn? <==> c.serve.ServeUnborn?) && (c'.serve.ServeGone? <==> c.serve.ServeGone?)
  {}

  lemma OtherStepDid(o: NewChannel, oks: seq<bool>, c: Channel, e: Event)
    requires HandlerDid(o, oks, c) && Shape(c) && CanHappen(c, e) && OkIn(e) == []
    ensures HandlerDid(o, oks, After(c, e))
  {
    if e.Moves? {
      if e.step.Join? {
        JoinDid(o, oks, c, e.done);
      } else {
        ServeStepsKeepHandler(c, e.done, e.step);
        SameHandlerDid(o, oks, c, After(c, e));
      }
    }
  }

  // ---------------------------------------------------------------------------
  // What a served channel does
  // ---------------------------------------------------------------------------

  /** All actions of startup and of the given requests. */
  function ActionsAfter(channelType: string, reqs: seq<Request>): seq<Action> {
    ChannelStartup(channelType) + Flat(ActionsFor(channelType), reqs)
  }

  predicate ServeDid(c: Channel) {
    if c.serve.ServeUnborn? then c.performed == [] && c.served == []
    else c.performed + Todo(c.serve) == ActionsAfter(c.channelType, c.served)
  }

  predicate Stopping(p: ServePc) { p.Cancelling? || p.AwaitingCallbacks? || p.HandingOff? || p.ServeGone? }

  /** Requests are served in the order they came; Serve stops because the context was cancelled, or because
      the client closed the stream and everything has been served. */
  predicate RequestsDid(o: NewChannel, events: seq<Event>, c: Channel) {
    && c.served + c.pending == o.requests + Arrivals(events)
    && (c.closed <==> EverClosed(events))
    && (Stopping(c.serve) ==> EverDone(events) || (c.closed && c.pending == []))
  }

  lemma ActDid(c: Channel)
    requires ServeDid(c) && c.serve.Running?
    ensures ServeDid(Act(c))
  {
    var todo := c.serve.todo;
    if todo != [] {
      ConcatAssociative(c.performed, [todo[0]], todo[1..]);
      assert [todo[0]] + todo[1..] == todo;
    }
  }

  lemma TakeDid(c: Channel)
    requires ServeDid(c) && c.serve.Selecting? && c.pending != []
    ensures ServeDid(Take(c, ChannelActions(c.channelType, c.pending[0])))
  {
    var acts := ChannelActions(c.channelType, c.pending[0]);
    FlatSnoc(ActionsFor(c.channelType), c.served, c.pending[0]);
    ConcatAssociative(ChannelStartup(c.channelType), Flat(ActionsFor(c.channelType), c.served), acts);
    assert c.performed + [] == c.performed;
  }

  lemma StartDid(c: Channel)
    requires ServeDid(c) && Shape(c) && c.handler.StartingServe?
    ensures ServeDid(HandlerStep(c, true)) && ServeDid(HandlerStep(c, false))
  {
    var acts := ChannelStartup(c.channelType);
    assert [] + acts == acts + [];
  }

  // Every other step leaves the actions alone.
  lemma QuietDid(c: Channel, done: bool, step: Step)
    requires ServeDid(c) && Shape(c) && Enabled(c, done, step)
    requires !step.ServeAct? && !step.ServeTake? && !(step.HandlerNext? && c.handler.StartingServe?)
    ensures ServeDid(Apply(c, done, step))
  {
    var c' := Apply(c, done, step);
    assert c'.performed == c.performed && c'.served == c.served && Todo(c'.serve) == Todo(c.serve);
  }

  lemma EventServeDid(c: Channel, e: Event)
    requires ServeDid(c) && Shape(c) && CanHappen(c, e)
    ensures ServeDid(After(c, e))
  {
    if e.Moves? {
      if e.step.ServeAct? {
        ActDid(c);
      } else if e.step.ServeTake? {
        TakeDid(c);
      } else if e.step.HandlerNext? && c.handler.StartingServe? {
        StartDid(c);
      } else {
        QuietDid(c, e.done, e.step);
      }
    }
  }

  lemma DoneSnoc(events: seq<Event>, e: Event)
    ensures EverDone(events + [e]) <==> EverDone(events) || (e.Moves? && e.done)
  {
    var longer := events + [e];
    assert forall i :: 0 <= i < |events| ==> longer[i] == events[i];
    if EverDone(events) {
      var i :| 0 <= i < |events| && events[i].Moves? && events[i].done;
      assert longer[i].Moves? && longer[i].done;
    }
    if e.Moves? && e.done {
      assert longer[|events|].Moves? && longer[|events|].done;
    }
  }

  lemma EventsSnoc(events: seq<Event>, e: Event)
    ensures Oks(events + [e]) == Oks(events) + OkIn(e) && Arrivals(events + [e]) == Arrivals(events) + ArrivalIn(e)
    ensures EverClosed(events + [e]) <==> EverClosed(events) || e.Closes?
  {
    FlatSnoc(OkIn, events, e);
    FlatSnoc(ArrivalIn, events, e);
  }

  lemma TakeRequests(served: seq<Request>, pending: seq<Request>)
    requires pending != []
    ensures (served + [pending[0]]) + pending[1..] == served + pending
  {}

  lemma MoveKeepsRequests(c: Channel, done: bool, step: Step)
    requires Shape(c) && Enabled(c, done, step)
    ensures var c' := Apply(c, done, step);
            c'.served + c'.pending == c.served + c.pending && c'.closed == c.closed
  {
    if step.ServeTake? { TakeRequests(c.served, c.pending); }
  }

  /** Serve begins to stop for a reason, and once stopping takes no more requests. */
  lemma StopsForAReason(c: Channel, done: bool, step: Step)
    requires Shape(c) && Enabled(c, done, step)
    ensures var c' := Apply(c, done, step);
            Stopping(c'.serve) ==> (Stopping(c.serve) && c'.pending == c.pending) || done || (c'.closed && c'.pending == [])
  {}

  lemma EventRequestsDid(o: NewChannel, events: seq<Event>, c: Channel, e: Event)
    requires RequestsDid(o, events, c) && Shape(c) && CanHappen(c, e)
    ensures RequestsDid(o, events + [e], After(c, e))
  {
    EventsSnoc(events, e);
    DoneSnoc(events, e);
    match e
    case Moves(done, step) =>
      assert Arrivals(events) + [] == Arrivals(events);
      MoveKeepsRequests(c, done, step);
      StopsForAReason(c, done, step);
    case Arrives(req) =>
      ConcatAssociative(c.served, c.pending, [req]);
      ConcatAssociative(o.requests, Arrivals(events), [req]);
    case Closes =>
      assert Arrivals(events) + [] == Arrivals(events);
  }

  // ---------------------------------------------------------------------------
  // Whole runs
  // ---------------------------------------------------------------------------

  lemma EventInv(c: Channel, e: Event)
    requires Inv(c) && CanHappen(c, e)
    ensures Inv(After(c, e))
  {
    if e.Moves? {
      InvStep(c, e.done, e.step);
    } else {
      assert Shape(After(c, e)) && Counted(After(c, e)) && RightThreads(After(c, e));
    }
  }

  lemma {:induction false} Story(o: NewChannel, events: seq<Event>, c: Channel)
    requires Run(Open(o), events, c)
    ensures Inv(c) && HandlerDid(o, Oks(events), c) && ServeDid(c) && RequestsDid(o, events, c)
    decreases events
  {
    if events == [] {
      InvOpen(o);
      assert o.requests + [] == [] + o.requests;
    } else {
      var mid := SplitLast(Open(o), events, c);
      var front, e := events[..|events| - 1], events[|events| - 1];
      assert events == front + [e];
      Story(o, front, mid);
      EventInv(mid, e);
      EventServeDid(mid, e);
      EventRequestsDid(o, front, mid, e);
      EventHandlerDid(o, front, mid, e);
    }
  }

  lemma EventHandlerDid(o: NewChannel, front: seq<Event>, mid: Channel, e: Event)
    requires HandlerDid(o, Oks(front), mid) && Shape(mid) && CanHappen(mid, e)
    ensures HandlerDid(o, Oks(front + [e]), After(mid, e))
  {
    EventsSnoc(front, e);
    if OkIn(e) == [] {
      assert Oks(front) + [] == Oks(front);
      OtherStepDid(o, Oks(front), mid, e);
    } else {
      HandlerStepDid(o, Oks(front), mid, e.done, e.step.ok);
    }
  }

  /** Over every run: when the handler goroutine is gone, the channel was served to the end exactly when it
      may be served and accepting it and building its handler both succeeded; otherwise Serve never ran. It
      was rejected, once, exactly when it may not be served. */
  lemma GoneServedIff(o: NewChannel, events: seq<Event>, c: Channel)
    requires Run(Open(o), events, c) && c.handler.HandlerGone?
    ensures |Oks(events)| >= 3
    ensures c.serve.ServeGone? <==> ServableOffer(o) && Oks(events)[1] && Oks(events)[2]
    ensures c.serve.ServeGone? || c.serve.ServeUnborn?
    ensures c.rejects == if ServableOffer(o) then 0 else 1
  {
    Story(o, events, c);
  }

  /** Over every run: requests are served in the order they came. Once Serve has ended, they have all been
      served and the client has closed the stream, unless the context was cancelled. */
  lemma ServedInOrder(o: NewChannel, events: seq<Event>, c: Channel)
    requires Run(Open(o), events, c)
    ensures c.served + c.pending == o.requests + Arrivals(events)
    ensures c.serve.ServeGone? && !EverDone(events) ==> c.served == o.requests + Arrivals(events) && EverClosed(events)
  {
    Story(o, events, c);
    assert c.served + [] == c.served;
  }

  /** Over every run: between two requests, and at the end, what has been done is exactly what startup and
      the requests served call for: the replies, goroutine starts, queued sizes and recorded ptys of the
      per-request rules. */
  lemma ServedAsAsked(o: NewChannel, events: seq<Event>, c: Channel)
    requires Run(Open(o), events, c) && !c.serve.ServeUnborn? && Todo(c.serve) == []
    ensures c.performed == Performed(ServeTrace(TableOf(o.channelType), c.served))
    ensures Flat(ReplyIn, c.performed) == Flat(ReplyTo(o.channelType), c.served)
    ensures Flat(ThreadIn, c.performed) == ThreadsAfter(o.channelType, c.served)
    ensures SizesOf(Flat(WindowsIn(o.channelType), c.served), Flat(SizeIn, c.performed))
    ensures Flat(PtyIn, c.performed) == Flat(PtyFrom(o.channelType), c.served)
  {
    Story(o, events, c);
    assert c.performed + [] == c.performed;
    ServedActions(o.channelType, c.served);
    ServedReplies(o.channelType, c.served);
    ServedThreads(o.channelType, c.served);
    ServedSizes(o.channelType, c.served);
    ServedPtys(o.channelType, c.served);
  }

  /** A channel waits for nothing but the client: unless Serve has no request and the stream is open, some
      goroutine can move, cancelled or not. */
  lemma WaitsOnlyForClient(o: NewChannel, events: seq<Event>, c: Channel) returns (s: Step)
    requires Run(Open(o), events, c) && !c.handler.HandlerGone?
    requires !(c.serve.Selecting? && c.pending == [] && !c.closed)
    ensures Enabled(c, false, s)
  {
    Story(o, events, c);
    if !c.handler.AwaitingServe? {
      return HandlerNext(true);
    }
    match c.serve
    case Running(_) => s := ServeAct;
    case Selecting => s := if c.pending != [] then ServeTake else ServeSeeClosed;
    case Cancelling => s := ServeNext;
    case AwaitingCallbacks =>
      if c.wg == 0 {
        s := ServeNext;
      } else {
        LiveZero(c.callbacks);
        var j :| 0 <= j < |c.callbacks| && !c.callbacks[j].pc.CallbackGone?;
        s := CallbackNext(j);
      }
    case HandingOff => s := Join;
  }
}
