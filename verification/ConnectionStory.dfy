/** What a whole connection does (ssh/connection/connection.go), told by the steps of its run: which channels
    there are and how each ends, which probes were sent and answered, which global requests were replied to. */
module ConnectionStory {
  import opened Common
  import opened ChannelHandler
  import opened ConnectionLifecycle
  import CL = ChannelLife
  import CS = ChannelStory

  // ---------------------------------------------------------------------------
  // What the steps say
  // ---------------------------------------------------------------------------

  function OfferIn(s: Step): seq<CL.NewChannel> { if s.EnvOffer? then [s.o] else [] }

  /** The channels the client has offered, in order. */
  function Offered(steps: seq<Step>): seq<CL.NewChannel> { Flat(OfferIn, steps) }

  function CountSteps(steps: seq<Step>, p: Step -> bool): nat {
    if steps == [] then 0
    else CountSteps(steps[..|steps| - 1], p) + if p(steps[|steps| - 1]) then 1 else 0
  }

  predicate IsTake(s: Step) { s.MainTake? }
  predicate IsTick(s: Step) { s.EnvTick? }
  predicate IsProbe(s: Step) { s.KaTick? }
  predicate IsGlobalRequest(s: Step) { s.EnvGlobalRequest? }
  predicate IsDrain(s: Step) { s.DrTake? }
  predicate IsDrainWanted(s: Step) { s.DrTake? && s.wantReply }
  predicate IsDrainReply(s: Step) { s.DrReply? }

  function AnswerIn(s: Step): seq<bool> { if s.KaAnswer? then [s.alive] else [] }

  /** The outcomes of the probes, in order. */
  function ProbeAnswers(steps: seq<Step>): seq<bool> { Flat(AnswerIn, steps) }

  function OkAt(i: nat): Step -> seq<bool> {
    (s: Step) => if s.OnChannel? && s.i == i && s.step.HandlerNext? then [s.step.ok] else []
  }

  /** The outcomes of the statements of channel i's handler, in order. */
  function OksAt(steps: seq<Step>, i: nat): seq<bool> { Flat(OkAt(i), steps) }

  function ArrivalAt(i: nat): Step -> seq<Request> {
    (s: Step) => if s.EnvRequest? && s.ch == i then [s.req] else []
  }

  /** The requests the client has sent on channel i after it was taken. */
  function ArrivalsAt(steps: seq<Step>, i: nat): seq<Request> { Flat(ArrivalAt(i), steps) }

  lemma {:induction false} SplitLast(t: State, steps: seq<Step>, u: State) returns (mid: State)
    requires steps != [] && Run(t, steps, u)
    ensures var n := |steps| - 1; Run(t, steps[..n], mid) && Enabled(mid, steps[n]) && Apply(mid, steps[n]) == u
    decreases steps
  {
    var n := |steps| - 1;
    if n == 0 {
      mid := t;
    } else {
      var rest := steps[1..];
      mid := SplitLast(Apply(t, steps[0]), rest, u);
      assert steps[..n][0] == steps[0] && steps[..n][1..] == rest[..n - 1] && rest[n - 1] == steps[n];
    }
  }

  lemma CountSnoc(steps: seq<Step>, s: Step, p: Step -> bool)
    ensures CountSteps(steps + [s], p) == CountSteps(steps, p) + if p(s) then 1 else 0
  {
    assert (steps + [s])[..|steps|] == steps;
  }

  // ---------------------------------------------------------------------------
  // Channels are the offers taken, in order
  // ---------------------------------------------------------------------------

  function InHand(p: MainPc): seq<CL.NewChannel> {
    match p case Adding(o) => [o] case Spawning(o) => [o] case _ => []
  }

  predicate OffersDid(offered: seq<CL.NewChannel>, taken: nat, t: State) {
    && |t.sv.channels| + |InHand(t.main)| == taken <= |offered|
    && t.sv.offers == offered[taken..]
    && (InHand(t.main) != [] ==> InHand(t.main)[0] == offered[taken - 1])
  }

  lemma OffersStep(offered: seq<CL.NewChannel>, taken: nat, t: State, s: Step)
    requires OffersDid(offered, taken, t) && Enabled(t, s)
    ensures OffersDid(offered + OfferIn(s), taken + if s.MainTake? then 1 else 0, Apply(t, s))
  {
    if s.MainTake? {
      assert offered[taken..][0] == offered[taken] && offered[taken..][1..] == offered[taken + 1..];
    } else if s.EnvOffer? {
      assert (offered + [s.o])[taken..] == offered[taken..] + [s.o];
    } else {
      assert offered + [] == offered;
    }
  }

  /** Over every run: the channels, and the one being set up if any, are the first offers of the client, one
      for each offer taken; the rest are waiting. */
  lemma {:induction false} ChannelsAreTheOffersTaken(maxRetries: nat, steps: seq<Step>, t: State)
    requires Run(Init(maxRetries), steps, t)
    ensures OffersDid(Offered(steps), CountSteps(steps, IsTake), t)
    decreases steps
  {
    if steps != [] {
      var mid := SplitLast(Init(maxRetries), steps, t);
      var front, s := steps[..|steps| - 1], steps[|steps| - 1];
      assert steps == front + [s];
      ChannelsAreTheOffersTaken(maxRetries, front, mid);
      FlatSnoc(OfferIn, front, s);
      OffersStep(Offered(front), CountSteps(front, IsTake), mid, s);
    }
  }

  // ---------------------------------------------------------------------------
  // Each channel runs as ChannelStory says
  // ---------------------------------------------------------------------------

  /** What a step of the connection is for channel i. */
  function EventFor(t: State, s: Step, i: nat): seq<CS.Event> {
    match s
    case OnChannel(j, cs) => if j == i then [CS.Moves(ChDone(t), cs)] else []
    case EnvRequest(j, req) => if j == i then [CS.Arrives(req)] else []
    case EnvCloseRequests(j) => if j == i then [CS.Closes] else []
    case _ => []
  }

  lemma ChannelStepIs(t: State, s: Step, i: nat)
    requires Enabled(t, s) && i < |t.sv.channels|
    ensures i < |Apply(t, s).sv.channels|
    ensures var es, c' := EventFor(t, s, i), Apply(t, s).sv.channels[i];
            if es == [] then c' == t.sv.channels[i]
            else CS.CanHappen(t.sv.channels[i], es[0]) && CS.After(t.sv.channels[i], es[0]) == c'
  {
    match s
    case OnChannel(j, _) =>
    case EnvRequest(j, _) =>
    case EnvCloseRequests(j) =>
    case _ =>
  }

  lemma NewChannelOpens(t: State, s: Step, i: nat)
    requires Enabled(t, s) && |t.sv.channels| <= i < |Apply(t, s).sv.channels|
    ensures i == |t.sv.channels| && t.main.Spawning? && Apply(t, s).sv.channels[i] == CL.Open(t.main.offer)
    ensures OkAt(i)(s) == [] && ArrivalAt(i)(s) == []
  {}

  /** What the events of a channel's run and the steps of the connection's have in common. */
  predicate SameInput(events: seq<CS.Event>, steps: seq<Step>, i: nat) {
    CS.Oks(events) == OksAt(steps, i) && CS.Arrivals(events) == ArrivalsAt(steps, i)
  }

  lemma EventInput(t: State, s: Step, i: nat)
    ensures var es := EventFor(t, s, i);
            && (es == [] ==> OkAt(i)(s) == [] && ArrivalAt(i)(s) == [])
            && (es != [] ==> es == [es[0]] && CS.OkIn(es[0]) == OkAt(i)(s) && CS.ArrivalIn(es[0]) == ArrivalAt(i)(s))
  {}

  lemma SameInputSnoc(events: seq<CS.Event>, steps: seq<Step>, i: nat, t: State, s: Step)
    requires SameInput(events, steps, i)
    ensures SameInput(events + EventFor(t, s, i), steps + [s], i)
  {
    FlatSnoc(OkAt(i), steps, s);
    FlatSnoc(ArrivalAt(i), steps, s);
    EventInput(t, s, i);
    var es := EventFor(t, s, i);
    if es == [] {
      assert events + es == events;
      assert OksAt(steps, i) + [] == OksAt(steps, i) && ArrivalsAt(steps, i) + [] == ArrivalsAt(steps, i);
    } else {
      CS.EventsSnoc(events, es[0]);
    }
  }

  /** One step more of a channel that is already there. */
  lemma ChannelRunsOn(o: CL.NewChannel, before: seq<CS.Event>, steps: seq<Step>, t: State, s: Step, i: nat)
    returns (events: seq<CS.Event>)
    requires Enabled(t, s) && i < |t.sv.channels|
    requires CS.Run(CL.Open(o), before, t.sv.channels[i]) && SameInput(before, steps, i)
    ensures i < |Apply(t, s).sv.channels| && CS.Run(CL.Open(o), events, Apply(t, s).sv.channels[i])
    ensures SameInput(events, steps + [s], i)
  {
    ChannelStepIs(t, s, i);
    SameInputSnoc(before, steps, i, t, s);
    var es := EventFor(t, s, i);
    events := before + es;
    if es == [] {
      assert events == before;
    } else {
      EventInput(t, s, i);
      CS.RunSnoc(CL.Open(o), before, t.sv.channels[i], es[0]);
    }
  }

  lemma {:induction false} NothingBefore(maxRetries: nat, steps: seq<Step>, t: State, i: nat)
    requires Run(Init(maxRetries), steps, t) && |t.sv.channels| <= i
    ensures OksAt(steps, i) == [] && ArrivalsAt(steps, i) == []
    decreases steps
  {
    if steps != [] {
      var mid := SplitLast(Init(maxRetries), steps, t);
      var front, s := steps[..|steps| - 1], steps[|steps| - 1];
      assert steps == front + [s];
      ChannelsStay(mid, s);
      NothingBefore(maxRetries, front, mid, i);
      FlatSnoc(OkAt(i), front, s);
      FlatSnoc(ArrivalAt(i), front, s);
    }
  }

  lemma NothingYet(steps: seq<Step>, s: Step, i: nat)
    requires OksAt(steps, i) == [] && ArrivalsAt(steps, i) == [] && OkAt(i)(s) == [] && ArrivalAt(i)(s) == []
    ensures SameInput([], steps + [s], i)
  {
    FlatSnoc(OkAt(i), steps, s);
    FlatSnoc(ArrivalAt(i), steps, s);
  }

  lemma ChannelsStay(t: State, s: Step)
    requires Enabled(t, s)
    ensures |t.sv.channels| <= |Apply(t, s).sv.channels|
  {}

  lemma OfferStays(maxRetries: nat, front: seq<Step>, mid: State, s: Step, i: nat)
    requires Run(Init(maxRetries), front, mid) && i < |mid.sv.channels|
    ensures i < |Offered(front)| && i < |Offered(front + [s])| && Offered(front + [s])[i] == Offered(front)[i]
  {
    ChannelsAreTheOffersTaken(maxRetries, front, mid);
    FlatSnoc(OfferIn, front, s);
  }

  lemma OfferOpened(maxRetries: nat, front: seq<Step>, mid: State, s: Step, i: nat)
    requires Run(Init(maxRetries), front, mid) && Enabled(mid, s)
    requires |mid.sv.channels| <= i < |Apply(mid, s).sv.channels|
    ensures i < |Offered(front + [s])| && Apply(mid, s).sv.channels[i] == CL.Open(Offered(front + [s])[i])
    ensures SameInput([], front + [s], i)
  {
    NewChannelOpens(mid, s, i);
    HandIsNextOffer(maxRetries, front, mid, s);
    NothingBefore(maxRetries, front, mid, i);
    NothingYet(front, s, i);
  }

  lemma HandIsNextOffer(maxRetries: nat, front: seq<Step>, mid: State, s: Step)
    requires Run(Init(maxRetries), front, mid) && mid.main.Spawning?
    ensures var n := |mid.sv.channels|; n < |Offered(front + [s])| && Offered(front + [s])[n] == mid.main.offer
  {
    ChannelsAreTheOffersTaken(maxRetries, front, mid);
    FlatSnoc(OfferIn, front, s);
  }

  /** Over every run: what channel i has gone through is a run of ChannelStory from the i-th offer, with the
      outcomes and the requests the connection's steps have for it. */
  lemma {:induction false} ChannelRuns(maxRetries: nat, steps: seq<Step>, t: State, i: nat) returns (events: seq<CS.Event>)
    requires Run(Init(maxRetries), steps, t) && i < |t.sv.channels|
    ensures i < |Offered(steps)| && CS.Run(CL.Open(Offered(steps)[i]), events, t.sv.channels[i])
    ensures SameInput(events, steps, i)
    decreases steps
  {
    var mid := SplitLast(Init(maxRetries), steps, t);
    var front, s := steps[..|steps| - 1], steps[|steps| - 1];
    assert steps == front + [s];
    if i < |mid.sv.channels| {
      var before := ChannelRuns(maxRetries, front, mid, i);
      OfferStays(maxRetries, front, mid, s, i);
      events := ChannelRunsOn(Offered(front)[i], before, front, mid, s, i);
    } else {
      OfferOpened(maxRetries, front, mid, s, i);
      events := [];
    }
  }

  /** Over every run: a channel whose handler is gone was served to the end exactly when the offer may be
      served and accepting it and building its handler succeeded, and was rejected exactly when it may not
      be served; what it served is a beginning of the requests offered and sent, in order, and the replies,
      goroutines, sizes and ptys are exactly those these requests call for. */
  lemma ChannelsEndAsOffered(maxRetries: nat, steps: seq<Step>, t: State, i: nat)
    requires Run(Init(maxRetries), steps, t) && i < |t.sv.channels| && t.sv.channels[i].handler.HandlerGone?
    ensures i < |Offered(steps)| && |OksAt(steps, i)| >= 3
    ensures var o, c, oks := Offered(steps)[i], t.sv.channels[i], OksAt(steps, i);
            && (c.serve.ServeGone? <==> CS.ServableOffer(o) && oks[1] && oks[2])
            && c.rejects == (if CS.ServableOffer(o) then 0 else 1)
            && c.served + c.pending == o.requests + ArrivalsAt(steps, i)
            && Flat(ReplyIn, c.performed) == (if c.serve.ServeGone? then Flat(ReplyTo(o.channelType), c.served) else [])
            && (c.serve.ServeGone? ==>
                  && Flat(ThreadIn, c.performed) == ThreadsAfter(o.channelType, c.served)
                  && SizesOf(Flat(WindowsIn(o.channelType), c.served), Flat(SizeIn, c.performed))
                  && Flat(PtyIn, c.performed) == Flat(PtyFrom(o.channelType), c.served))
  {
    var events := ChannelRuns(maxRetries, steps, t, i);
    var o, c := Offered(steps)[i], t.sv.channels[i];
    CS.GoneServedIff(o, events, c);
    CS.ServedInOrder(o, events, c);
    if c.serve.ServeGone? {
      CS.ServedAsAsked(o, events, c);
    } else {
      CS.Story(o, events, c);
    }
  }

  /** When HandleGlobalConnection has returned, that is so of every channel, and there is one for each offer
      taken. */
  lemma ReturnedServedTheOffers(maxRetries: nat, steps: seq<Step>, t: State)
    requires Run(Init(maxRetries), steps, t) && t.main.Returned?
    ensures |t.sv.channels| == CountSteps(steps, IsTake) <= |Offered(steps)|
    ensures forall i :: 0 <= i < |t.sv.channels| ==>
              && |OksAt(steps, i)| >= 3
              && (t.sv.channels[i].serve.ServeGone? <==>
                    CS.ServableOffer(Offered(steps)[i]) && OksAt(steps, i)[1] && OksAt(steps, i)[2])
  {
    ChannelsAreTheOffersTaken(maxRetries, steps, t);
    ReturnedMeansQuiet(t);
    forall i | 0 <= i < |t.sv.channels|
      ensures && |OksAt(steps, i)| >= 3
              && (t.sv.channels[i].serve.ServeGone? <==>
                    CS.ServableOffer(Offered(steps)[i]) && OksAt(steps, i)[1] && OksAt(steps, i)[2])
    {
      assert ChannelQuiet(t.sv.channels[i]);
      ChannelsEndAsOffered(maxRetries, steps, t, i);
    }
  }

  // ---------------------------------------------------------------------------
  // Probes and global requests
  // ---------------------------------------------------------------------------

  predicate KeepAliveDid(steps: seq<Step>, maxRetries: nat, ka: KeepAlive) {
    && ka.maxRetries == maxRetries && ka.answers == ProbeAnswers(steps)
    && CountSteps(steps, IsProbe) == |ka.answers| + (if ka.pc.KaSending? then 1 else 0)
    && CountSteps(steps, IsTick) == ka.ticks + CountSteps(steps, IsProbe)
  }

  predicate DrainerDid(steps: seq<Step>, dr: Drainer) {
    && CountSteps(steps, IsGlobalRequest) == dr.requests + CountSteps(steps, IsDrain)
    && CountSteps(steps, IsDrainWanted) == CountSteps(steps, IsDrainReply) + (if dr.pc.DrReplying? then 1 else 0)
  }

  lemma KeepAliveStep(steps: seq<Step>, maxRetries: nat, t: State, s: Step)
    requires KeepAliveDid(steps, maxRetries, t.ka) && KeepAliveOk(t.main, t.ka) && Enabled(t, s)
    ensures KeepAliveDid(steps + [s], maxRetries, Apply(t, s).ka)
  {
    FlatSnoc(AnswerIn, steps, s);
    CountSnoc(steps, s, IsProbe);
    CountSnoc(steps, s, IsTick);
    assert ProbeAnswers(steps) + [] == ProbeAnswers(steps);
  }

  lemma DrainerStep(steps: seq<Step>, t: State, s: Step)
    requires DrainerDid(steps, t.dr) && DrainerOk(t.main, t.dr) && Enabled(t, s)
    ensures DrainerDid(steps + [s], Apply(t, s).dr)
  {
    CountSnoc(steps, s, IsGlobalRequest);
    CountSnoc(steps, s, IsDrain);
    CountSnoc(steps, s, IsDrainWanted);
    CountSnoc(steps, s, IsDrainReply);
  }

  /** Over every run: each tick taken is one probe, sent and answered before the next tick is looked at; and
      each global request taken that wants a reply gets one, before the next is taken. */
  lemma {:induction false} TicksAreProbedAndRequestsAnswered(maxRetries: nat, steps: seq<Step>, t: State)
    requires Run(Init(maxRetries), steps, t)
    ensures KeepAliveDid(steps, maxRetries, t.ka) && DrainerDid(steps, t.dr)
    decreases steps
  {
    if steps != [] {
      var mid := SplitLast(Init(maxRetries), steps, t);
      var front, s := steps[..|steps| - 1], steps[|steps| - 1];
      assert steps == front + [s];
      TicksAreProbedAndRequestsAnswered(maxRetries, front, mid);
      InvInit(maxRetries);
      RunKeepsInv(Init(maxRetries), front, mid);
      KeepAliveStep(front, maxRetries, mid, s);
      DrainerStep(front, mid, s);
    }
  }

  // ---------------------------------------------------------------------------
  // Resources, and why the helper goroutines leave
  // ---------------------------------------------------------------------------

  function MainOkIn(s: Step): seq<bool> { if s.MainNext? then [s.ok] else [] }

  /** The outcomes of main's statements, in order: starting keepalive, starting the drainer, creating the
      resources, and so on. */
  function MainOks(steps: seq<Step>): seq<bool> { Flat(MainOkIn, steps) }

  predicate MainDid(oks: seq<bool>, t: State) {
    match t.main
    case StartingKeepAlive => oks == []
    case StartingDrainer => |oks| == 1
    case CreatingResources => |oks| == 2
    case _ => |oks| >= 3 && t.sv.ready == oks[2]
  }

  predicate HelpersDid(t: State) {
    && (t.ka.pc.KaHandingOff? || t.ka.pc.KaGone? ==> KaDone(t))
    && (t.dr.pc.DrHandingOff? || t.dr.pc.DrGone? ==> DrDone(t) || (t.dr.closed && t.dr.requests == 0))
  }

  lemma MainDidStep(oks: seq<bool>, t: State, s: Step)
    requires MainDid(oks, t) && Enabled(t, s)
    ensures MainDid(oks + MainOkIn(s), Apply(t, s))
  {
    if !s.MainNext? {
      assert oks + [] == oks;
      MainAndReadyStay(t, s);
    }
  }

  lemma MainAndReadyStay(t: State, s: Step)
    requires Enabled(t, s) && !s.MainNext?
    ensures Apply(t, s).sv.ready == t.sv.ready
    ensures Apply(t, s).main == t.main
            || (s.MainTake? && Apply(t, s).main.Adding? && t.main.Selecting?)
            || (t.main.Selecting? && Apply(t, s).main.CancellingChannels?)
            || (t.main.AwaitingDrainer? && Apply(t, s).main.CancellingKeepAlive?)
            || (t.main.AwaitingKeepAlive? && Apply(t, s).main.ClosingConnection?)
  {}

  lemma HelpersDidStep(t: State, s: Step)
    requires HelpersDid(t) && KeepAliveOk(t.main, t.ka) && DrainerOk(t.main, t.dr) && Enabled(t, s)
    ensures HelpersDid(Apply(t, s))
  {}

  /** Over every run: channels are served exactly if creating the resources succeeded; and keepalive leaves
      only when its context is done, the drainer only when its context is done or the client closed its stream
      with nothing left to discard. */
  lemma {:induction false} MainAndHelpersDid(maxRetries: nat, steps: seq<Step>, t: State)
    requires Run(Init(maxRetries), steps, t)
    ensures MainDid(MainOks(steps), t) && HelpersDid(t)
    decreases steps
  {
    if steps != [] {
      var mid := SplitLast(Init(maxRetries), steps, t);
      var front, s := steps[..|steps| - 1], steps[|steps| - 1];
      assert steps == front + [s];
      MainAndHelpersDid(maxRetries, front, mid);
      InvInit(maxRetries);
      RunKeepsInv(Init(maxRetries), front, mid);
      FlatSnoc(MainOkIn, front, s);
      MainDidStep(MainOks(front), mid, s);
      HelpersDidStep(mid, s);
    }
  }

  /** In particular, once the resources were created, the connection is torn down only because its context was
      cancelled, the client closed the stream, or probes failed. */
  lemma ServesOnceReady(maxRetries: nat, steps: seq<Step>, t: State)
    requires Run(Init(maxRetries), steps, t) && TearingDown(t.main)
    ensures |MainOks(steps)| >= 3
    ensures MainOks(steps)[2] ==> t.rootCancelled || t.sv.streamClosed || t.ka.retries > maxRetries
  {
    MainAndHelpersDid(maxRetries, steps, t);
    EndsOnlyForAReason(t);
    TicksAreProbedAndRequestsAnswered(maxRetries, steps, t);
  }

  // ---------------------------------------------------------------------------
  // Input, and what waits for it
  // ---------------------------------------------------------------------------

  predicate InputDid(steps: seq<Step>, t: State) {
    && (t.rootCancelled <==> EnvCancel in steps)
    && (t.sv.streamClosed <==> EnvCloseStream in steps)
    && (t.dr.closed <==> EnvGlobalClose in steps)
  }

  lemma InputDidStep(steps: seq<Step>, t: State, s: Step)
    requires InputDid(steps, t) && Enabled(t, s)
    ensures InputDid(steps + [s], Apply(t, s))
  {
    if s.MainNext? {
      assert MainStep(t, s.ok).sv.streamClosed == t.sv.streamClosed && MainStep(t, s.ok).dr.closed == t.dr.closed;
    }
  }

  /** Over every run: the context is cancelled and the two streams are closed exactly if the environment did so. */
  lemma {:induction false} InputArrives(maxRetries: nat, steps: seq<Step>, t: State)
    requires Run(Init(maxRetries), steps, t)
    ensures InputDid(steps, t)
    decreases steps
  {
    if steps != [] {
      var mid := SplitLast(Init(maxRetries), steps, t);
      var front, s := steps[..|steps| - 1], steps[|steps| - 1];
      assert steps == front + [s];
      InputArrives(maxRetries, front, mid);
      InputDidStep(front, mid, s);
    }
  }

  /** Nothing is held up while the connection is up: main goes on unless it is selecting without an offer;
      keepalive takes a tick and waits for no more than the answer to its probe; the drainer takes a request
      and replies. */
  lemma NothingIsHeldUp(t: State, ok: bool)
    requires Reachable(t) && !PastChannels(t.main) && !t.main.AwaitingChannels?
    ensures t.main.Selecting? || Enabled(t, MainNext(ok))
    ensures t.main.Selecting? && t.sv.offers != [] ==> Enabled(t, MainTake)
    ensures t.ka.pc.KaSelecting? && t.ka.ticks > 0 ==> Enabled(t, KaTick)
    ensures t.ka.pc.KaSending? ==> Enabled(t, KaAnswer(ok))
    ensures t.dr.pc.DrSelecting? && t.dr.requests > 0 ==> Enabled(t, DrTake(ok))
    ensures t.dr.pc.DrReplying? ==> Enabled(t, DrReply)
    ensures !t.ka.pc.KaGone? && !t.dr.pc.DrGone?
  {
    ReachableInv(t);
  }
}
