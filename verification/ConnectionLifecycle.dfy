/** One SSH connection (ssh/connection/connection.go) as a transition system: the main goroutine
    running HandleGlobalConnection and handleChannels, the keepalive goroutine, the goroutine that
    discards global requests, and any number of channels (see ChannelLife). A context is cancelled
    by its own cancel function or by an ancestor. The environment may deliver ticks, requests and
    channels, close streams and cancel the root context at any moment. */
module ConnectionLifecycle {
  import opened ChannelHandler
  import CL = ChannelLife
  import Loop = KeepAlive

  datatype MainPc =
    | StartingKeepAlive
    | StartingDrainer
    | CreatingResources
    | WritingFile
    | Selecting
    | Adding(offer: CL.NewChannel)      // before c.wg.Add(1)
    | Spawning(offer: CL.NewChannel)    // before go c.handleChannel
    | CancellingChannels                // handleChannels' deferred cancel()
    | AwaitingChannels                  // c.wg.Wait()
    | CancellingDrainer
    | AwaitingDrainer                   // <-done of handleGlobalRequests
    | CancellingKeepAlive
    | AwaitingKeepAlive                 // <-done of keepAlive
    | ClosingConnection
    | Returned

  datatype KeepAlivePc = KaUnborn | KaSelecting | KaSending | KaHandingOff | KaGone

  datatype DrainerPc = DrUnborn | DrSelecting | DrReplying | DrHandingOff | DrGone

  // The keepalive goroutine; `answers` are the outcomes of its probes so far.
  datatype KeepAlive = KeepAlive(pc: KeepAlivePc, cancelled: bool, maxRetries: nat, retries: nat,
                                 answers: seq<bool>, ticks: nat, handoffs: nat)

  // The goroutine discarding global requests; `requests` are those waiting.
  datatype Drainer = Drainer(pc: DrainerPc, cancelled: bool, requests: nat, closed: bool, handoffs: nat)

  // handleChannels: the channels offered and not yet taken, and those being handled.
  // `ready` records that the resources were created.
  datatype Serving = Serving(ready: bool, cancelled: bool, offers: seq<CL.NewChannel>, streamClosed: bool,
                             wg: int, channels: seq<CL.Channel>)

  // `rootCancelled` is the caller's context. keepAlive derives a context from it, and the drainer and
  // handleChannels derive theirs from keepAlive's.
  datatype State = State(main: MainPc, rootCancelled: bool, ka: KeepAlive, dr: Drainer, sv: Serving, closes: nat)

  datatype Step =
    | EnvCancel | EnvTick | EnvGlobalRequest | EnvGlobalClose | EnvOffer(o: CL.NewChannel) | EnvCloseStream
    | EnvRequest(ch: nat, req: Request) | EnvCloseRequests(ch: nat)
    | MainNext(ok: bool) | MainTake | MainSeeDone | MainSeeClosed | JoinDrainer | JoinKeepAlive
    | KaTick | KaAnswer(alive: bool) | KaSeeDone
    | DrTake(wantReply: bool) | DrReply | DrSeeClosed | DrSeeDone
    | OnChannel(i: nat, step: CL.Step)

  predicate IsSystem(s: Step) {
    !(s.EnvCancel? || s.EnvTick? || s.EnvGlobalRequest? || s.EnvGlobalClose? || s.EnvOffer?
      || s.EnvCloseStream? || s.EnvRequest? || s.EnvCloseRequests?)
  }

  function Init(maxRetries: nat): State {
    State(StartingKeepAlive, false, KeepAlive(KaUnborn, false, maxRetries, 0, [], 0, 0),
          Drainer(DrUnborn, false, 0, false, 0), Serving(false, false, [], false, 0, []), 0)
  }

  // Cancellation propagates downwards.
  predicate KaDone(t: State) { t.rootCancelled || t.ka.cancelled }
  predicate DrDone(t: State) { KaDone(t) || t.dr.cancelled }
  predicate ChDone(t: State) { KaDone(t) || t.sv.cancelled }

  predicate MainRuns(p: MainPc) {
    !p.Selecting? && !p.AwaitingDrainer? && !p.AwaitingKeepAlive? && !p.Returned?
  }

  predicate Enabled(t: State, s: Step) {
    match s
    case EnvCancel => true
    case EnvTick => true
    case EnvGlobalRequest => !t.dr.closed
    case EnvGlobalClose => true
    case EnvOffer(_) => !t.sv.streamClosed
    case EnvCloseStream => true
    case EnvRequest(i, _) => i < |t.sv.channels| && !t.sv.channels[i].closed
    case EnvCloseRequests(i) => i < |t.sv.channels|
    case MainNext(_) => MainRuns(t.main) && (t.main.AwaitingChannels? ==> t.sv.wg == 0)
    case MainTake => t.main.Selecting? && t.sv.offers != []
    case MainSeeDone => t.main.Selecting? && ChDone(t)
    case MainSeeClosed => t.main.Selecting? && t.sv.offers == [] && t.sv.streamClosed
    case JoinDrainer => t.main.AwaitingDrainer? && t.dr.pc.DrHandingOff?
    case JoinKeepAlive => t.main.AwaitingKeepAlive? && t.ka.pc.KaHandingOff?
    case KaTick => t.ka.pc.KaSelecting? && t.ka.ticks > 0
    case KaAnswer(_) => t.ka.pc.KaSending?
    case KaSeeDone => t.ka.pc.KaSelecting? && KaDone(t)
    case DrTake(_) => t.dr.pc.DrSelecting? && t.dr.requests > 0
    case DrReply => t.dr.pc.DrReplying?
    case DrSeeClosed => t.dr.pc.DrSelecting? && t.dr.requests == 0 && t.dr.closed
    case DrSeeDone => t.dr.pc.DrSelecting? && DrDone(t)
    case OnChannel(i, cs) => i < |t.sv.channels| && CL.Enabled(t.sv.channels[i], ChDone(t), cs)
  }

  function EnvApply(t: State, s: Step): State
    requires Enabled(t, s) && !IsSystem(s)
  {
    match s
    case EnvCancel => t.(rootCancelled := true)
    case EnvTick => t.(ka := t.ka.(ticks := t.ka.ticks + 1))
    case EnvGlobalRequest => t.(dr := t.dr.(requests := t.dr.requests + 1))
    case EnvGlobalClose => t.(dr := t.dr.(closed := true))
    case EnvOffer(o) => t.(sv := t.sv.(offers := t.sv.offers + [o]))
    case EnvCloseStream => t.(sv := t.sv.(streamClosed := true))
    case EnvRequest(i, r) =>
      var c := t.sv.channels[i];
      t.(sv := t.sv.(channels := t.sv.channels[i := c.(pending := c.pending + [r])]))
    case EnvCloseRequests(i) =>
      t.(sv := t.sv.(channels := t.sv.channels[i := t.sv.channels[i].(closed := true)]))
    case _ => t
  }

  /** The main goroutine's next statement; `ok` is the outcome of creating the resources. */
  function MainStep(t: State, ok: bool): State {
    match t.main
    case StartingKeepAlive => t.(main := StartingDrainer, ka := t.ka.(pc := KaSelecting))
    case StartingDrainer => t.(main := CreatingResources, dr := t.dr.(pc := DrSelecting))
    case CreatingResources => t.(main := if ok then WritingFile else CancellingDrainer, sv := t.sv.(ready := ok))
    case WritingFile => t.(main := Selecting)
    case Adding(o) => t.(main := Spawning(o), sv := t.sv.(wg := t.sv.wg + 1))
    case Spawning(o) => t.(main := Selecting, sv := t.sv.(channels := t.sv.channels + [CL.Open(o)]))
    case CancellingChannels => t.(main := AwaitingChannels, sv := t.sv.(cancelled := true))
    case AwaitingChannels => t.(main := CancellingDrainer)
    case CancellingDrainer => t.(main := AwaitingDrainer, dr := t.dr.(cancelled := true))
    case CancellingKeepAlive => t.(main := AwaitingKeepAlive, ka := t.ka.(cancelled := true))
    case ClosingConnection => t.(main := Returned, closes := t.closes + 1)
    case _ => t
  }

  /** The keepalive goroutine after a probe has been answered or has failed. */
  function Answered(ka: KeepAlive, alive: bool): KeepAlive {
    var retries := if alive then 0 else ka.retries + 1;
    ka.(retries := retries,
        answers := ka.answers + [alive],
        cancelled := ka.cancelled || retries > ka.maxRetries,
        pc := if retries > ka.maxRetries then KaHandingOff else KaSelecting)
  }

  function ChannelStep(sv: Serving, done: bool, i: nat, cs: CL.Step): Serving
    requires i < |sv.channels| && CL.Enabled(sv.channels[i], done, cs)
  {
    var c := sv.channels[i];
    sv.(channels := sv.channels[i := CL.Apply(c, done, cs)],
        // the deferred c.wg.Done() of handleChannel
        wg := if cs.HandlerNext? && c.handler.ReleasingHandler? then sv.wg - 1 else sv.wg)
  }

  function Apply(t: State, s: Step): State
    requires Enabled(t, s)
  {
    if !IsSystem(s) then EnvApply(t, s) else
    match s
    case MainNext(ok) => MainStep(t, ok)
    case MainTake => t.(main := Adding(t.sv.offers[0]), sv := t.sv.(offers := t.sv.offers[1..]))
    case MainSeeDone => t.(main := CancellingChannels)
    case MainSeeClosed => t.(main := CancellingChannels)
    case JoinDrainer => t.(main := CancellingKeepAlive, dr := t.dr.(pc := DrGone, handoffs := t.dr.handoffs + 1))
    case JoinKeepAlive => t.(main := ClosingConnection, ka := t.ka.(pc := KaGone, handoffs := t.ka.handoffs + 1))
    case KaTick => t.(ka := t.ka.(pc := KaSending, ticks := t.ka.ticks - 1))
    case KaAnswer(alive) => t.(ka := Answered(t.ka, alive))
    case KaSeeDone => t.(ka := t.ka.(pc := KaHandingOff))
    case DrTake(wantReply) =>
      t.(dr := t.dr.(pc := if wantReply then DrReplying else DrSelecting, requests := t.dr.requests - 1))
    case DrReply => t.(dr := t.dr.(pc := DrSelecting))
    case DrSeeClosed => t.(dr := t.dr.(pc := DrHandingOff))
    case DrSeeDone => t.(dr := t.dr.(pc := DrHandingOff))
    case OnChannel(i, cs) => t.(sv := ChannelStep(t.sv, ChDone(t), i, cs))
    case _ => t
  }

  // ---------------------------------------------------------------------------
  // Invariant
  // ---------------------------------------------------------------------------

  function LiveHandlers(cs: seq<CL.Channel>): nat {
    if cs == [] then 0 else (if cs[0].handler.HandlerGone? then 0 else 1) + LiveHandlers(cs[1..])
  }

  /** Length of the longest all-failed suffix. */
  function TrailingFailures(answers: seq<bool>): nat {
    if answers == [] || answers[|answers| - 1] then 0 else 1 + TrailingFailures(answers[..|answers| - 1])
  }

  predicate BeforeServing(p: MainPc) {
    p.StartingKeepAlive? || p.StartingDrainer? || p.CreatingResources? || p.WritingFile?
  }

  // handleChannels is over, or was never entered
  predicate PastChannels(p: MainPc) {
    p.CancellingDrainer? || p.AwaitingDrainer? || PastDrainer(p)
  }

  predicate PastDrainer(p: MainPc) {
    p.CancellingKeepAlive? || p.AwaitingKeepAlive? || PastKeepAlive(p)
  }

  predicate PastKeepAlive(p: MainPc) { p.ClosingConnection? || p.Returned? }

  predicate MainOk(main: MainPc, closes: nat) {
    closes == (if main.Returned? then 1 else 0)
  }

  predicate KeepAliveOk(main: MainPc, ka: KeepAlive) {
    && (ka.pc.KaUnborn? <==> main.StartingKeepAlive?)
    && (ka.pc.KaGone? <==> PastKeepAlive(main))
    && ka.handoffs == (if ka.pc.KaGone? then 1 else 0)
    && (main.AwaitingKeepAlive? ==> ka.cancelled)
    && (ka.cancelled ==> ka.retries > ka.maxRetries || main.AwaitingKeepAlive? || PastKeepAlive(main))
  }

  predicate RetriesOk(ka: KeepAlive) {
    && ka.retries == TrailingFailures(ka.answers)
    && (!ka.pc.KaHandingOff? && !ka.pc.KaGone? ==> ka.retries <= ka.maxRetries)
  }

  predicate DrainerOk(main: MainPc, dr: Drainer) {
    && (dr.pc.DrUnborn? <==> main.StartingKeepAlive? || main.StartingDrainer?)
    && (dr.pc.DrGone? <==> PastDrainer(main))
    && dr.handoffs == (if dr.pc.DrGone? then 1 else 0)
    && (main.AwaitingDrainer? ==> dr.cancelled)
  }

  predicate WaitGroupOk(main: MainPc, sv: Serving) {
    && sv.wg == LiveHandlers(sv.channels) + (if main.Spawning? then 1 else 0)
    && (BeforeServing(main) ==> sv.channels == [])
    && (PastChannels(main) ==> sv.wg == 0)
    && (sv.channels != [] || (!PastChannels(main) && !BeforeServing(main)) || main.WritingFile? ==> sv.ready)
    && (main.AwaitingChannels? ==> sv.cancelled)
  }

  ghost predicate ChannelsOk(cs: seq<CL.Channel>) {
    forall i :: 0 <= i < |cs| ==> CL.Inv(cs[i])
  }

  ghost predicate Inv(t: State) {
    && MainOk(t.main, t.closes)
    && KeepAliveOk(t.main, t.ka)
    && RetriesOk(t.ka)
    && DrainerOk(t.main, t.dr)
    && WaitGroupOk(t.main, t.sv)
    && ChannelsOk(t.sv.channels)
  }

  lemma {:induction false} LiveUpdate(cs: seq<CL.Channel>, i: nat, c: CL.Channel)
    requires i < |cs|
    ensures LiveHandlers(cs[i := c]) == LiveHandlers(cs) + (if cs[i].handler.HandlerGone? then 1 else 0)
                                        - (if c.handler.HandlerGone? then 1 else 0)
  {
    if i > 0 {
      LiveUpdate(cs[1..], i - 1, c);
      assert cs[i := c][1..] == cs[1..][i - 1 := c];
    } else {
      assert cs[0 := c][1..] == cs[1..];
    }
  }

  lemma {:induction false} LiveSnoc(cs: seq<CL.Channel>, c: CL.Channel)
    ensures LiveHandlers(cs + [c]) == LiveHandlers(cs) + (if c.handler.HandlerGone? then 0 else 1)
  {
    if cs == [] {
      assert cs + [c] == [c] && [c][1..] == [];
    } else {
      LiveSnoc(cs[1..], c);
      assert (cs + [c])[1..] == cs[1..] + [c];
    }
  }

  lemma {:induction false} LiveZero(cs: seq<CL.Channel>)
    ensures LiveHandlers(cs) == 0 <==> forall i :: 0 <= i < |cs| ==> cs[i].handler.HandlerGone?
  {
    if cs != [] {
      LiveZero(cs[1..]);
      assert forall i :: 0 < i < |cs| ==> cs[i] == cs[1..][i - 1];
      assert forall i :: 0 <= i < |cs[1..]| ==> cs[1..][i] == cs[i + 1];
    }
  }

  lemma InvInit(maxRetries: nat)
    ensures Inv(Init(maxRetries))
  {}

  // Client input to a channel touches nothing its invariant or the wait group speaks of.
  lemma InputKeepsInv(c: CL.Channel, c': CL.Channel)
    requires CL.Inv(c) && (c' == c.(pending := c'.pending) || c' == c.(closed := c'.closed))
    ensures CL.Inv(c') && c'.handler == c.handler
  {
    assert CL.Shape(c') && CL.Counted(c') && CL.RightThreads(c');
  }

  lemma InvInput(t: State, i: nat, c: CL.Channel)
    requires Inv(t) && i < |t.sv.channels| && CL.Inv(c) && c.handler == t.sv.channels[i].handler
    ensures Inv(t.(sv := t.sv.(channels := t.sv.channels[i := c])))
  {
    LiveUpdate(t.sv.channels, i, c);
  }

  lemma InvEnv(t: State, s: Step)
    requires Inv(t) && Enabled(t, s) && !IsSystem(s)
    ensures Inv(EnvApply(t, s))
  {
    if s.EnvRequest? || s.EnvCloseRequests? {
      var c, c' := t.sv.channels[s.ch], EnvApply(t, s).sv.channels[s.ch];
      InputKeepsInv(c, c');
      InvInput(t, s.ch, c');
    }
  }

  lemma OneMoreChannel(cs: seq<CL.Channel>, o: CL.NewChannel)
    requires ChannelsOk(cs)
    ensures ChannelsOk(cs + [CL.Open(o)]) && LiveHandlers(cs + [CL.Open(o)]) == LiveHandlers(cs) + 1
  {
    CL.InvOpen(o);
    LiveSnoc(cs, CL.Open(o));
  }

  lemma InvSpawn(t: State)
    requires Inv(t) && t.main.Spawning?
    ensures Inv(MainStep(t, true))
  {
    OneMoreChannel(t.sv.channels, t.main.offer);
  }

  lemma TeardownGoroutines(t: State, ok: bool)
    requires MainOk(t.main, t.closes) && KeepAliveOk(t.main, t.ka) && DrainerOk(t.main, t.dr) && MainRuns(t.main)
    requires !BeforeServing(t.main)
    ensures var u := MainStep(t, ok); MainOk(u.main, u.closes) && KeepAliveOk(u.main, u.ka) && DrainerOk(u.main, u.dr)
  {}

  lemma TeardownWaitGroup(t: State, ok: bool)
    requires WaitGroupOk(t.main, t.sv) && Enabled(t, MainNext(ok)) && !BeforeServing(t.main) && !t.main.Spawning?
    ensures WaitGroupOk(MainStep(t, ok).main, MainStep(t, ok).sv) && MainStep(t, ok).sv.channels == t.sv.channels
  {}

  lemma InvTeardown(t: State, ok: bool)
    requires Inv(t) && Enabled(t, MainNext(ok)) && !BeforeServing(t.main) && !t.main.Spawning?
    ensures Inv(MainStep(t, ok))
  {
    TeardownGoroutines(t, ok);
    TeardownWaitGroup(t, ok);
    assert MainStep(t, ok).ka.(pc := t.ka.pc, cancelled := t.ka.cancelled) == t.ka;
  }

  lemma InvSetup(t: State, ok: bool)
    requires Inv(t) && BeforeServing(t.main)
    ensures Inv(MainStep(t, ok))
  {
    assert MainStep(t, ok).sv.channels == t.sv.channels;
  }

  lemma InvMain(t: State, ok: bool)
    requires Inv(t) && Enabled(t, MainNext(ok))
    ensures Inv(MainStep(t, ok))
  {
    if BeforeServing(t.main) {
      InvSetup(t, ok);
    } else if t.main.Spawning? {
      InvSpawn(t);
    } else {
      InvTeardown(t, ok);
    }
  }

  lemma OneMoreAnswer(answers: seq<bool>, alive: bool)
    ensures TrailingFailures(answers + [alive]) == if alive then 0 else 1 + TrailingFailures(answers)
  {
    var longer := answers + [alive];
    assert longer[|longer| - 1] == alive && longer[..|longer| - 1] == answers;
  }

  lemma InvKeepAlive(main: MainPc, ka: KeepAlive, alive: bool)
    requires KeepAliveOk(main, ka) && RetriesOk(ka) && ka.pc.KaSending?
    ensures KeepAliveOk(main, Answered(ka, alive)) && RetriesOk(Answered(ka, alive))
  {
    OneMoreAnswer(ka.answers, alive);
  }

  lemma HandlerLeavesByRelease(c: CL.Channel, done: bool, cs: CL.Step)
    requires CL.Enabled(c, done, cs)
    ensures !CL.Apply(c, done, cs).handler.HandlerGone? <==>
            !c.handler.HandlerGone? && !(cs.HandlerNext? && c.handler.ReleasingHandler?)
  {}

  lemma InvChannel(main: MainPc, sv: Serving, done: bool, i: nat, cs: CL.Step)
    requires WaitGroupOk(main, sv) && ChannelsOk(sv.channels)
    requires i < |sv.channels| && CL.Enabled(sv.channels[i], done, cs)
    ensures WaitGroupOk(main, ChannelStep(sv, done, i, cs)) && ChannelsOk(ChannelStep(sv, done, i, cs).channels)
  {
    var c := CL.Apply(sv.channels[i], done, cs);
    LiveUpdate(sv.channels, i, c);
    LiveZero(sv.channels);
    HandlerLeavesByRelease(sv.channels[i], done, cs);
    CL.InvStep(sv.channels[i], done, cs);
  }

  predicate IsSimple(s: Step) {
    IsSystem(s) && !s.MainNext? && !s.KaAnswer? && !s.OnChannel?
  }

  lemma InvSimple(t: State, s: Step)
    requires Inv(t) && Enabled(t, s) && IsSimple(s)
    ensures Inv(Apply(t, s))
  {}

  lemma InvStep(t: State, s: Step)
    requires Inv(t) && Enabled(t, s)
    ensures Inv(Apply(t, s))
  {
    if !IsSystem(s) {
      InvEnv(t, s);
    } else {
      match s
      case MainNext(ok) => InvMain(t, ok);
      case KaAnswer(alive) => InvKeepAlive(t.main, t.ka, alive);
      case OnChannel(i, cs) => InvChannel(t.main, t.sv, ChDone(t), i, cs);
      case _ => InvSimple(t, s);
    }
  }

  // ---------------------------------------------------------------------------
  // Runs
  // ---------------------------------------------------------------------------

  predicate Run(t: State, steps: seq<Step>, u: State)
    decreases steps
  {
    if steps == [] then t == u
    else Enabled(t, steps[0]) && Run(Apply(t, steps[0]), steps[1..], u)
  }

  ghost predicate Reachable(t: State) {
    exists maxRetries: nat, steps: seq<Step> :: Run(Init(maxRetries), steps, t)
  }

  lemma {:induction false} RunKeepsInv(t: State, steps: seq<Step>, u: State)
    requires Inv(t) && Run(t, steps, u)
    ensures Inv(u)
    decreases steps
  {
    if steps != [] {
      InvStep(t, steps[0]);
      RunKeepsInv(Apply(t, steps[0]), steps[1..], u);
    }
  }

  lemma ReachableInv(t: State)
    requires Reachable(t)
    ensures Inv(t)
  {
    var maxRetries: nat, steps: seq<Step> :| Run(Init(maxRetries), steps, t);
    InvInit(maxRetries);
    RunKeepsInv(Init(maxRetries), steps, t);
  }

  // ---------------------------------------------------------------------------
  // Safety
  // ---------------------------------------------------------------------------

  ghost predicate ChannelQuiet(c: CL.Channel) {
    && c.handler.HandlerGone?
    && (c.serve.ServeUnborn? || c.serve.ServeGone?)
    && c.handoffs == (if c.serve.ServeUnborn? then 0 else 1)
    && c.wg == 0
    && (forall j :: 0 <= j < |c.callbacks| ==>
          c.callbacks[j].pc.CallbackGone? && c.callbacks[j].closes == 1 && c.callbacks[j].dones == 1)
    && Flat(CL.ThreadOf, c.callbacks) ==
         (if c.serve.ServeUnborn? then [] else ThreadsAfter(c.channelType, c.served))
  }

  /** In every interleaving: when HandleGlobalConnection has returned, nothing it started is left.
      The keepalive and global-request goroutines have handed off once each, every channel handler has
      called wg.Done, every Serve that ran has handed off once, every callback has closed the channel
      once and called wg.Done once, and the connection has been closed once. */
  lemma ReturnedMeansQuiet(t: State)
    requires Reachable(t) && t.main.Returned?
    ensures t.ka.pc.KaGone? && t.ka.handoffs == 1
    ensures t.dr.pc.DrGone? && t.dr.handoffs == 1
    ensures t.sv.wg == 0 && t.closes == 1
    ensures forall i :: 0 <= i < |t.sv.channels| ==> ChannelQuiet(t.sv.channels[i])
  {
    ReachableInv(t);
    LiveZero(t.sv.channels);
    forall i | 0 <= i < |t.sv.channels|
      ensures ChannelQuiet(t.sv.channels[i])
    {
      assert CL.Inv(t.sv.channels[i]);
      CL.HandlerGoneMeansQuiet(t.sv.channels[i]);
    }
  }

  /** No channel is taken unless the resources were created; otherwise main goes straight to teardown. */
  lemma ChannelsNeedResources(t: State)
    requires Reachable(t)
    ensures t.sv.channels != [] || t.main.Selecting? || t.main.Adding? || t.main.Spawning? ==> t.sv.ready
  {
    ReachableInv(t);
  }

  /** The teardown order: channels before the drainer, the drainer before keepalive, and keepalive
      before the connection is closed. */
  lemma TeardownOrder(t: State)
    requires Reachable(t)
    ensures PastChannels(t.main) ==> forall i :: 0 <= i < |t.sv.channels| ==> ChannelQuiet(t.sv.channels[i])
    ensures PastDrainer(t.main) <==> t.dr.pc.DrGone?
    ensures PastKeepAlive(t.main) <==> t.ka.pc.KaGone?
    ensures t.closes > 0 ==> PastKeepAlive(t.main)
  {
    ReachableInv(t);
    if PastChannels(t.main) {
      LiveZero(t.sv.channels);
      forall i | 0 <= i < |t.sv.channels|
        ensures ChannelQuiet(t.sv.channels[i])
      {
        assert CL.Inv(t.sv.channels[i]);
        CL.HandlerGoneMeansQuiet(t.sv.channels[i]);
      }
    }
  }

  lemma OnlyAddingAdds(t: State, s: Step)
    requires Enabled(t, s)
    ensures Apply(t, s).sv.wg <= t.sv.wg || (s.MainNext? && t.main.Adding?)
  {
    match s
    case OnChannel(i, cs) =>
    case _ =>
  }

  /** The connection's wait group counts the handlers added and not yet done, is never negative, and
      gets no Add once the wait has begun. */
  lemma HandlerWaitGroupSound(t: State, s: Step)
    requires Reachable(t) && Enabled(t, s)
    ensures t.sv.wg == LiveHandlers(t.sv.channels) + (if t.main.Spawning? then 1 else 0)
    ensures t.sv.wg >= 0
    ensures t.main.AwaitingChannels? || PastChannels(t.main) ==> Apply(t, s).sv.wg <= t.sv.wg
  {
    ReachableInv(t);
    OnlyAddingAdds(t, s);
  }

  /** The same for the wait group inside every channel, whichever goroutine moves next: it counts the
      callbacks alive and the one added but not yet started, if any. */
  lemma CallbackWaitGroupSound(t: State, i: nat, cs: CL.Step)
    requires Reachable(t) && i < |t.sv.channels| && CL.Enabled(t.sv.channels[i], ChDone(t), cs)
    ensures var c := t.sv.channels[i];
            && c.wg == CL.Live(c.callbacks) + CL.Owed(c.serve) && 0 <= CL.Owed(c.serve) <= 1
            && (c.cancelled ==> CL.Owed(c.serve) == 0 && CL.Apply(c, ChDone(t), cs).wg <= c.wg)
  {
    ReachableInv(t);
    assert CL.Inv(t.sv.channels[i]);
    CL.WaitGroupSound(t.sv.channels[i], ChDone(t), cs);
  }

  /** While main has not begun to stop keepalive itself, the keepalive context is cancelled only after
      more than maxRetries unanswered probes in a row, the last ones sent. */
  lemma KeepAliveGivesUpOnlyAfterFailures(t: State)
    requires Reachable(t) && t.ka.cancelled && !t.main.AwaitingKeepAlive? && !PastKeepAlive(t.main)
    ensures t.ka.maxRetries < |t.ka.answers|
    ensures forall k :: |t.ka.answers| - t.ka.maxRetries - 1 <= k < |t.ka.answers| ==> !t.ka.answers[k]
  {
    ReachableInv(t);
    TrailingAreFailures(t.ka.answers);
  }

  /** A probe makes the keepalive goroutine give up exactly when it completes maxRetries + 1
      failures in a row. */
  lemma ProbeGivesUpExactly(t: State, alive: bool)
    requires Reachable(t) && Enabled(t, KaAnswer(alive))
    ensures var ka := Apply(t, KaAnswer(alive)).ka;
            ka.pc.KaHandingOff? <==>
              |ka.answers| > ka.maxRetries
              && forall k :: |ka.answers| - ka.maxRetries - 1 <= k < |ka.answers| ==> !ka.answers[k]
  {
    ReachableInv(t);
    var ka := Answered(t.ka, alive);
    InvKeepAlive(t.main, t.ka, alive);
    TrailingAreFailures(ka.answers);
    var n := TrailingFailures(ka.answers);
    TrailingStops(ka.answers);
  }

  /** Whether the goroutine has given up, and when, is what the sequential loop finds in the same answers:
      it has exactly when some probe completed maxRetries + 1 failures in a row, and that was the last. */
  lemma GivenUpAsTheLoopWould(t: State)
    requires Reachable(t)
    ensures t.ka.retries > t.ka.maxRetries <==>
              exists i :: 0 <= i < |t.ka.answers| && Loop.DeadAt(t.ka.answers, t.ka.maxRetries, i)
    ensures forall i :: 0 <= i < |t.ka.answers| && Loop.DeadAt(t.ka.answers, t.ka.maxRetries, i) ==> i == |t.ka.answers| - 1
  {
    var maxRetries: nat, steps: seq<Step> :| Run(Init(maxRetries), steps, t);
    InvInit(maxRetries);
    RunKeepsFirstDead(Init(maxRetries), steps, t);
    RunKeepsInv(Init(maxRetries), steps, t);
    if t.ka.retries > t.ka.maxRetries {
      TrailingAreFailures(t.ka.answers);
      assert Loop.DeadAt(t.ka.answers, t.ka.maxRetries, |t.ka.answers| - 1);
    }
  }

  /** Only the last answer can complete the failures that end the loop. */
  predicate OnlyLastDead(ka: KeepAlive) {
    forall i :: 0 <= i < |ka.answers| && Loop.DeadAt(ka.answers, ka.maxRetries, i) ==>
      i == |ka.answers| - 1 && ka.retries > ka.maxRetries
  }

  lemma AnswerKeepsFirstDead(ka: KeepAlive, alive: bool)
    requires OnlyLastDead(ka) && RetriesOk(ka) && ka.pc.KaSending?
    ensures OnlyLastDead(Answered(ka, alive))
  {
    var ka' := Answered(ka, alive);
    forall i | 0 <= i < |ka'.answers| && Loop.DeadAt(ka'.answers, ka'.maxRetries, i)
      ensures i == |ka'.answers| - 1 && ka'.retries > ka'.maxRetries
    {
      if i < |ka.answers| {
        assert forall k :: 0 <= k <= i ==> ka'.answers[k] == ka.answers[k];
        assert Loop.DeadAt(ka.answers, ka.maxRetries, i);
      } else {
        OneMoreAnswer(ka.answers, alive);
        TrailingAreFailures(ka'.answers);
        TrailingStops(ka'.answers);
      }
    }
  }

  lemma {:induction false} RunKeepsFirstDead(t: State, steps: seq<Step>, u: State)
    requires Inv(t) && OnlyLastDead(t.ka) && Run(t, steps, u)
    ensures OnlyLastDead(u.ka)
    decreases steps
  {
    if steps != [] {
      InvStep(t, steps[0]);
      if steps[0].KaAnswer? {
        AnswerKeepsFirstDead(t.ka, steps[0].alive);
      } else {
        OtherStepsKeepAnswers(t, steps[0]);
      }
      RunKeepsFirstDead(Apply(t, steps[0]), steps[1..], u);
    }
  }

  lemma OtherStepsKeepAnswers(t: State, s: Step)
    requires Enabled(t, s) && !s.KaAnswer?
    ensures var ka := Apply(t, s).ka;
            ka.answers == t.ka.answers && ka.retries == t.ka.retries && ka.maxRetries == t.ka.maxRetries
  {}

  lemma {:induction false} TrailingStops(answers: seq<bool>)
    ensures TrailingFailures(answers) < |answers| ==> answers[|answers| - 1 - TrailingFailures(answers)]
  {
    if answers != [] && !answers[|answers| - 1] {
      TrailingStops(answers[..|answers| - 1]);
    }
  }

  lemma {:induction false} TrailingAreFailures(answers: seq<bool>)
    ensures TrailingFailures(answers) <= |answers|
    ensures forall k :: |answers| - TrailingFailures(answers) <= k < |answers| ==> !answers[k]
  {
    if answers != [] && !answers[|answers| - 1] {
      TrailingAreFailures(answers[..|answers| - 1]);
    }
  }

  // ---------------------------------------------------------------------------
  // Shutdown always finishes
  // ---------------------------------------------------------------------------

  function ChannelsMeasure(cs: seq<CL.Channel>): nat {
    if cs == [] then 0 else CL.Measure(cs[0]) + ChannelsMeasure(cs[1..])
  }

  function OffersWeight(offers: seq<CL.NewChannel>): nat {
    if offers == [] then 0 else 3 + CL.Measure(CL.Open(offers[0])) + OffersWeight(offers[1..])
  }

  function MainRank(p: MainPc): nat {
    match p
    case StartingKeepAlive => 15
    case StartingDrainer => 14
    case CreatingResources => 13
    case WritingFile => 11
    case Selecting => 10
    case Adding(o) => 12 + CL.Measure(CL.Open(o))
    case Spawning(o) => 11 + CL.Measure(CL.Open(o))
    case CancellingChannels => 9
    case AwaitingChannels => 8
    case CancellingDrainer => 7
    case AwaitingDrainer => 6
    case CancellingKeepAlive => 5
    case AwaitingKeepAlive => 4
    case ClosingConnection => 3
    case Returned => 0
  }

  function KaRank(p: KeepAlivePc): nat {
    match p case KaUnborn => 3 case KaSelecting => 3 case KaSending => 4 case KaHandingOff => 1 case KaGone => 0
  }

  function DrRank(p: DrainerPc): nat {
    match p case DrUnborn => 3 case DrSelecting => 3 case DrReplying => 4 case DrHandingOff => 1 case DrGone => 0
  }

  /** Bounds the steps the system can take without new input from the environment. */
  function Measure(t: State): nat {
    MainRank(t.main) + KaRank(t.ka.pc) + DrRank(t.dr.pc) + 2 * t.ka.ticks + 2 * t.dr.requests
    + OffersWeight(t.sv.offers) + ChannelsMeasure(t.sv.channels)
  }

  lemma {:induction false} ChannelsMeasureUpdate(cs: seq<CL.Channel>, i: nat, c: CL.Channel)
    requires i < |cs|
    ensures ChannelsMeasure(cs[i := c]) == ChannelsMeasure(cs) - CL.Measure(cs[i]) + CL.Measure(c)
  {
    if i > 0 {
      ChannelsMeasureUpdate(cs[1..], i - 1, c);
      assert cs[i := c][1..] == cs[1..][i - 1 := c];
    } else {
      assert cs[0 := c][1..] == cs[1..];
    }
  }

  lemma {:induction false} ChannelsMeasureSnoc(cs: seq<CL.Channel>, c: CL.Channel)
    ensures ChannelsMeasure(cs + [c]) == ChannelsMeasure(cs) + CL.Measure(c)
  {
    if cs == [] {
      assert cs + [c] == [c] && [c][1..] == [];
    } else {
      ChannelsMeasureSnoc(cs[1..], c);
      assert (cs + [c])[1..] == cs[1..] + [c];
    }
  }

  lemma SpawnMeasure(t: State)
    requires t.main.Spawning?
    ensures Measure(MainStep(t, true)) < Measure(t)
  {
    ChannelsMeasureSnoc(t.sv.channels, CL.Open(t.main.offer));
  }

  lemma SetupMeasure(t: State, ok: bool)
    requires KeepAliveOk(t.main, t.ka) && DrainerOk(t.main, t.dr) && BeforeServing(t.main)
    ensures Measure(MainStep(t, ok)) < Measure(t)
  {
    assert MainStep(t, ok).sv.channels == t.sv.channels && MainStep(t, ok).sv.offers == t.sv.offers;
  }

  lemma TeardownMeasure(t: State, ok: bool)
    requires MainRuns(t.main) && !BeforeServing(t.main) && !t.main.Spawning?
    ensures Measure(MainStep(t, ok)) < Measure(t)
  {
    assert MainStep(t, ok).sv.channels == t.sv.channels && MainStep(t, ok).sv.offers == t.sv.offers;
  }

  lemma MainMeasure(t: State, ok: bool)
    requires KeepAliveOk(t.main, t.ka) && DrainerOk(t.main, t.dr) && MainRuns(t.main)
    ensures Measure(MainStep(t, ok)) < Measure(t)
  {
    if t.main.Spawning? {
      SpawnMeasure(t);
    } else if BeforeServing(t.main) {
      SetupMeasure(t, ok);
    } else {
      TeardownMeasure(t, ok);
    }
  }

  lemma ChannelMeasure(sv: Serving, done: bool, i: nat, cs: CL.Step)
    requires ChannelsOk(sv.channels) && i < |sv.channels| && CL.Enabled(sv.channels[i], done, cs)
    ensures ChannelsMeasure(ChannelStep(sv, done, i, cs).channels) < ChannelsMeasure(sv.channels)
  {
    assert CL.Inv(sv.channels[i]);
    CL.MeasureFalls(sv.channels[i], done, cs);
    ChannelsMeasureUpdate(sv.channels, i, CL.Apply(sv.channels[i], done, cs));
  }

  lemma SimpleMeasure(t: State, s: Step)
    requires Enabled(t, s) && IsSimple(s)
    ensures Measure(Apply(t, s)) < Measure(t)
  {}

  /** Every system step lowers the measure. */
  lemma MeasureFalls(t: State, s: Step)
    requires Inv(t) && Enabled(t, s) && IsSystem(s)
    ensures Measure(Apply(t, s)) < Measure(t)
  {
    match s
    case MainNext(ok) => MainMeasure(t, ok);
    case KaAnswer(_) =>
    case OnChannel(i, cs) => ChannelMeasure(t.sv, ChDone(t), i, cs);
    case _ => SimpleMeasure(t, s);
  }

  /** The connection has a reason to end: its context is cancelled, the client closed the channel
      stream, or main is already tearing down. */
  predicate Stopping(t: State) {
    KaDone(t) || t.sv.streamClosed || t.main.CancellingChannels? || t.main.AwaitingChannels? || PastChannels(t.main)
  }

  /** No reachable state is stuck on the way out. */
  lemma Progress(t: State) returns (s: Step)
    requires Inv(t) && Stopping(t) && !t.main.Returned?
    ensures Enabled(t, s) && IsSystem(s)
  {
    match t.main
    case Selecting =>
      if t.sv.offers != [] { s := MainTake; }
      else if t.sv.streamClosed { s := MainSeeClosed; }
      else { s := MainSeeDone; }
    case AwaitingChannels =>
      if t.sv.wg == 0 {
        s := MainNext(true);
      } else {
        LiveZero(t.sv.channels);
        var i :| 0 <= i < |t.sv.channels| && !t.sv.channels[i].handler.HandlerGone?;
        assert CL.Inv(t.sv.channels[i]);
        var cs := CL.Progress(t.sv.channels[i]);
        s := OnChannel(i, cs);
      }
    case AwaitingDrainer =>
      s := if t.dr.pc.DrSelecting? then DrSeeDone else if t.dr.pc.DrReplying? then DrReply else JoinDrainer;
    case AwaitingKeepAlive =>
      s := if t.ka.pc.KaSelecting? then KaSeeDone
           else if t.ka.pc.KaSending? then KaAnswer(true) else JoinKeepAlive;
    case _ => s := MainNext(true);
  }

  /** Nothing the system or the environment does takes the reason away. */
  lemma StoppingIsStable(t: State, s: Step)
    requires Enabled(t, s) && Stopping(t)
    ensures Stopping(Apply(t, s))
  {
    if !IsSystem(s) {
      assert EnvApply(t, s).main == t.main;
    }
  }

  /** Why a connection ends: its context was cancelled, the client closed the channel stream, too many
      probes in a row failed, or creating the resources failed. */
  predicate HasReason(t: State) {
    t.rootCancelled || t.sv.streamClosed || t.ka.retries > t.ka.maxRetries || (!t.sv.ready && !BeforeServing(t.main))
  }

  predicate TearingDown(p: MainPc) { p.CancellingChannels? || p.AwaitingChannels? || PastChannels(p) }

  predicate ReasonOk(t: State) {
    && (TearingDown(t.main) ==> HasReason(t))
    && (t.sv.cancelled ==> t.main.AwaitingChannels? || PastChannels(t.main))
  }

  lemma ReasonEnv(t: State, s: Step)
    requires ReasonOk(t) && Enabled(t, s) && !IsSystem(s)
    ensures ReasonOk(EnvApply(t, s))
  {}

  lemma ReasonMain(t: State, ok: bool)
    requires ReasonOk(t) && MainRuns(t.main)
    ensures ReasonOk(MainStep(t, ok))
  {}

  lemma ReasonSimple(t: State, s: Step)
    requires ReasonOk(t) && KeepAliveOk(t.main, t.ka) && Enabled(t, s) && IsSimple(s)
    ensures ReasonOk(Apply(t, s))
  {}

  lemma ReasonStep(t: State, s: Step)
    requires Inv(t) && ReasonOk(t) && Enabled(t, s)
    ensures ReasonOk(Apply(t, s))
  {
    if !IsSystem(s) {
      ReasonEnv(t, s);
    } else {
      match s
      case MainNext(ok) => ReasonMain(t, ok);
      case KaAnswer(_) =>
      case OnChannel(_, _) =>
      case _ => ReasonSimple(t, s);
    }
  }

  lemma {:induction false} RunKeepsReason(t: State, steps: seq<Step>, u: State)
    requires Inv(t) && ReasonOk(t) && Run(t, steps, u)
    ensures ReasonOk(u)
    decreases steps
  {
    if steps != [] {
      InvStep(t, steps[0]);
      ReasonStep(t, steps[0]);
      RunKeepsReason(Apply(t, steps[0]), steps[1..], u);
    }
  }

  /** A connection ends only for a reason: in every interleaving, when main has begun to tear it down, the
      context was cancelled, the client closed the stream, more than maxRetries probes in a row failed, or
      the resources could not be created. */
  lemma EndsOnlyForAReason(t: State)
    requires Reachable(t) && TearingDown(t.main)
    ensures t.rootCancelled || t.sv.streamClosed || t.ka.retries > t.ka.maxRetries || !t.sv.ready
  {
    var maxRetries: nat, steps: seq<Step> :| Run(Init(maxRetries), steps, t);
    InvInit(maxRetries);
    RunKeepsReason(Init(maxRetries), steps, t);
  }

  predicate AllSystem(steps: seq<Step>) { forall k :: 0 <= k < |steps| ==> IsSystem(steps[k]) }

  /** The work a step of the environment can bring: a tick or global request, a channel request, a channel. */
  function Weight(s: Step): nat {
    match s
    case EnvTick => 2
    case EnvGlobalRequest => 2
    case EnvRequest(_, _) => CL.REQUEST_WEIGHT
    case EnvOffer(o) => OffersWeight([o])
    case _ => 0
  }

  function TotalWeight(steps: seq<Step>): nat {
    if steps == [] then 0 else Weight(steps[0]) + TotalWeight(steps[1..])
  }

  function SystemSteps(steps: seq<Step>): nat {
    if steps == [] then 0 else (if IsSystem(steps[0]) then 1 else 0) + SystemSteps(steps[1..])
  }

  lemma {:induction false} OffersSnoc(offers: seq<CL.NewChannel>, o: CL.NewChannel)
    ensures OffersWeight(offers + [o]) == OffersWeight(offers) + OffersWeight([o])
  {
    if offers == [] {
      assert offers + [o] == [o];
    } else {
      OffersSnoc(offers[1..], o);
      assert (offers + [o])[1..] == offers[1..] + [o];
    }
  }

  /** Input raises the measure by its weight at most. */
  lemma InputMeasure(t: State, s: Step)
    requires Enabled(t, s) && !IsSystem(s)
    ensures Measure(Apply(t, s)) <= Measure(t) + Weight(s)
  {
    match s
    case EnvOffer(o) => OffersSnoc(t.sv.offers, o);
    case EnvRequest(i, r) =>
      ChannelsMeasureUpdate(t.sv.channels, i, EnvApply(t, s).sv.channels[i]);
    case EnvCloseRequests(i) =>
      ChannelsMeasureUpdate(t.sv.channels, i, EnvApply(t, s).sv.channels[i]);
    case _ =>
  }

  /** However input and goroutines interleave, the steps the goroutines take are bounded by the measure of
      the first state and the input that arrives. */
  lemma {:induction false} RunsAreBounded(t: State, steps: seq<Step>, u: State)
    requires Inv(t) && Run(t, steps, u)
    ensures SystemSteps(steps) + Measure(u) <= Measure(t) + TotalWeight(steps)
    ensures Stopping(t) ==> Stopping(u)
    decreases steps
  {
    if steps != [] {
      if IsSystem(steps[0]) { MeasureFalls(t, steps[0]); } else { InputMeasure(t, steps[0]); }
      InvStep(t, steps[0]);
      if Stopping(t) { StoppingIsStable(t, steps[0]); }
      RunsAreBounded(Apply(t, steps[0]), steps[1..], u);
    }
  }

  /** Shutdown always finishes. From any reachable state in which the connection has a reason to end,
      however the goroutines are scheduled and whatever ticks, requests and channels still arrive in
      between: the goroutines take at most as many steps as the first state and that input account for,
      and a state in which none of them can move is one where HandleGlobalConnection has returned. */
  lemma ShutdownFinishes(t: State, steps: seq<Step>, u: State)
    requires Reachable(t) && Stopping(t) && Run(t, steps, u)
    ensures SystemSteps(steps) <= Measure(t) + TotalWeight(steps)
    ensures (forall s :: Enabled(u, s) ==> !IsSystem(s)) ==> u.main.Returned?
  {
    ReachableInv(t);
    RunsAreBounded(t, steps, u);
    RunKeepsInv(t, steps, u);
    if !u.main.Returned? {
      var s := Progress(u);
    }
  }

  /** In particular some schedule reaches the return. */
  lemma {:induction false} ShutdownCanFinish(t: State) returns (steps: seq<Step>, u: State)
    requires Inv(t) && Stopping(t)
    ensures Run(t, steps, u) && AllSystem(steps) && u.main.Returned?
    decreases Measure(t)
  {
    if t.main.Returned? {
      return [], t;
    }
    var s := Progress(t);
    MeasureFalls(t, s);
    InvStep(t, s);
    StoppingIsStable(t, s);
    var rest: seq<Step>;
    rest, u := ShutdownCanFinish(Apply(t, s));
    RunCons(t, s, rest, u);
    steps := [s] + rest;
  }

  lemma RunCons(t: State, s: Step, rest: seq<Step>, u: State)
    requires Enabled(t, s) && IsSystem(s) && Run(Apply(t, s), rest, u) && AllSystem(rest)
    ensures Run(t, [s] + rest, u) && AllSystem([s] + rest)
  {
    assert ([s] + rest)[1..] == rest;
  }
}
