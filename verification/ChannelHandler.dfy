/** The per-channel request handler (ssh/connection/channels): a builder collects
    callbacks, `Build` arranges them in a table, and `Serve` runs them as requests
    arrive. A callback's body is represented by the list of actions it performs. */
module ChannelHandler {
  import opened Common

  // Outcome of unmarshalling a request payload into a wire structure.
  datatype Parsed<+T> = WellFormed(value: T) | Malformed

  /** The concatenation of f over xs. */
  function Flat<A, B>(f: A -> seq<B>, xs: seq<A>): seq<B> {
    if xs == [] then [] else f(xs[0]) + Flat(f, xs[1..])
  }

  lemma {:induction false} FlatConcat<A, B>(f: A -> seq<B>, xs: seq<A>, ys: seq<A>)
    ensures Flat(f, xs + ys) == Flat(f, xs) + Flat(f, ys)
  {
    if xs == [] {
      assert xs + ys == ys;
    } else {
      assert (xs + ys)[1..] == xs[1..] + ys;
      FlatConcat(f, xs[1..], ys);
      assert f(xs[0]) + (Flat(f, xs[1..]) + Flat(f, ys)) == (f(xs[0]) + Flat(f, xs[1..])) + Flat(f, ys);
    }
  }

  lemma FlatSingle<A, B>(f: A -> seq<B>, x: A)
    ensures Flat(f, [x]) == f(x)
  {
    assert Flat(f, [x][1..]) == [];
  }

  lemma FlatSnoc<A, B>(f: A -> seq<B>, xs: seq<A>, x: A)
    ensures Flat(f, xs + [x]) == Flat(f, xs) + f(x)
  {
    FlatConcat(f, xs, [x]);
    FlatSingle(f, x);
  }

  /** Two passes make one when they agree element by element. */
  lemma {:induction false} FlatFusion<A(!new), B, C>(f: A -> seq<B>, h: B -> seq<C>, g: A -> seq<C>, xs: seq<A>)
    requires forall x :: Flat(h, f(x)) == g(x)
    ensures Flat(h, Flat(f, xs)) == Flat(g, xs)
  {
    if xs != [] {
      FlatFusion(f, h, g, xs[1..]);
      FlatConcat(h, f(xs[0]), Flat(f, xs[1..]));
    }
  }

  newtype uint32 = x: int | 0 <= x < 0x1_0000_0000
  newtype uint16 = x: int | 0 <= x < 0x1_0000

  datatype TerminalSize = TerminalSize(width: uint16, height: uint16)

  datatype WindowRequest = WindowRequest(columns: uint32, rows: uint32)

  datatype PtyRequest = PtyRequest(term: string, window: WindowRequest)

  /** A channel request: its type, and what its payload parses to as each of the
      three structures the callbacks unmarshal. */
  datatype Request = Request(kind: string,
                             pty: Parsed<PtyRequest>,
                             window: Parsed<WindowRequest>,
                             subsystem: Parsed<string>)

  datatype Thread = Shell | Subsystem(command: string) | PortForward

  datatype Action =
    | WgAdd                          // wg.Add(1)
    | Go(thread: Thread)             // start a callback goroutine
    | Reply(accepted: bool)          // req.Reply
    | SetPty(request: PtyRequest)    // rd.ptyReqData = ...
    | FillQueue(size: TerminalSize)  // rd.terminalResizer.Fill

  datatype StartupCallback = LogSessionStart | StartPortForward

  datatype RequestCallback = RejectUnknown | OnShell | OnSubsystem | OnWindowChange | OnPty | LogRequest

  /** Conversion to 16 bits drops the upper half, as Go's uint16(x) does. */
  function Truncate16(x: uint32): (r: uint16)
    ensures exists q: int :: 0 <= q < 0x1_0000 && x as int == q * 0x1_0000 + r as int
  {
    assert x as int == (x as int / 0x1_0000) * 0x1_0000 + x as int % 0x1_0000;
    (x as int % 0x1_0000) as uint16
  }

  function ToTerminalSize(w: WindowRequest): TerminalSize {
    TerminalSize(Truncate16(w.columns), Truncate16(w.rows))
  }

  function StartupActions(cb: StartupCallback): seq<Action> {
    match cb
    case LogSessionStart => []
    case StartPortForward => [WgAdd, Go(PortForward)]
  }

  function RequestActions(cb: RequestCallback, req: Request): seq<Action> {
    match cb
    case RejectUnknown => [Reply(false)]
    case OnShell => [WgAdd, Go(Shell), Reply(true)]
    case OnSubsystem =>
      if req.subsystem.Malformed? then []
      else [WgAdd, Go(Subsystem(req.subsystem.value)), Reply(true)]
    case OnWindowChange =>
      if req.window.Malformed? then []
      else [FillQueue(ToTerminalSize(req.window.value))]
    case OnPty =>
      if req.pty.Malformed? then []
      else [SetPty(req.pty.value), Reply(true)]
    case LogRequest => []
  }

  // ---------------------------------------------------------------------------
  // Callback tables and the trace Serve must produce
  // ---------------------------------------------------------------------------

  datatype Table = Table(onStartup: seq<StartupCallback>,
                         onEvery: seq<RequestCallback>,
                         onDefault: seq<RequestCallback>,
                         funcMap: map<string, seq<RequestCallback>>)

  datatype Event = Started(startup: StartupCallback) | Called(callback: RequestCallback, request: Request)

  function StartedAll(cbs: seq<StartupCallback>): (es: seq<Event>)
    ensures |es| == |cbs| && forall i :: 0 <= i < |cbs| ==> es[i] == Started(cbs[i])
  {
    seq(|cbs|, i requires 0 <= i < |cbs| => Started(cbs[i]))
  }

  function CalledAll(cbs: seq<RequestCallback>, req: Request): (es: seq<Event>)
    ensures |es| == |cbs| && forall i :: 0 <= i < |cbs| ==> es[i] == Called(cbs[i], req)
  {
    seq(|cbs|, i requires 0 <= i < |cbs| => Called(cbs[i], req))
  }

  /** The callbacks of a request type, or the defaults when the type is not registered. */
  function CallbacksOf(t: Table, kind: string): seq<RequestCallback> {
    if kind in t.funcMap then t.funcMap[kind] else t.onDefault
  }

  /** The callbacks one request triggers: those of its type and then the every-request callbacks. */
  function RequestTrace(t: Table, req: Request): seq<Event> {
    CalledAll(CallbacksOf(t, req.kind), req) + CalledAll(t.onEvery, req)
  }

  function RequestTraceOf(t: Table): Request -> seq<Event> {
    req => RequestTrace(t, req)
  }

  function ServeTrace(t: Table, reqs: seq<Request>): seq<Event> {
    StartedAll(t.onStartup) + Flat(RequestTraceOf(t), reqs)
  }

  lemma ServeTraceSnoc(t: Table, reqs: seq<Request>, n: nat)
    requires n < |reqs|
    ensures ServeTrace(t, reqs[..n + 1]) == ServeTrace(t, reqs[..n]) + RequestTrace(t, reqs[n])
  {
    assert reqs[..n + 1] == reqs[..n] + [reqs[n]];
    FlatSnoc(RequestTraceOf(t), reqs[..n], reqs[n]);
  }

  /** Where the block of request k starts, after the startup callbacks. */
  function BlockStart(t: Table, reqs: seq<Request>, k: nat): nat
    requires k <= |reqs|
  {
    if k == 0 then |t.onStartup|
    else
      var kind := reqs[k - 1].kind;
      BlockStart(t, reqs, k - 1)
      + (if kind in t.funcMap then |t.funcMap[kind]| else |t.onDefault|) + |t.onEvery|
  }

  /** The block of one request: the callbacks of its type, or the defaults if it has none, and after them the
      every-request callbacks. */
  predicate BlockIs(t: Table, trace: seq<Event>, start: nat, req: Request) {
    var cbs := if req.kind in t.funcMap then t.funcMap[req.kind] else t.onDefault;
    var middle := start + |cbs|;
    && middle + |t.onEvery| <= |trace|
    && trace[start..middle] == CalledAll(cbs, req)
    && trace[middle..middle + |t.onEvery|] == CalledAll(t.onEvery, req)
  }

  lemma SlicesOfThree<T>(xs: seq<T>, ys: seq<T>, zs: seq<T>)
    ensures var all := xs + (ys + zs);
            all[|xs|..|xs| + |ys|] == ys && all[|xs| + |ys|..|xs| + |ys| + |zs|] == zs
  {}

  lemma BlockHere(t: Table, before: seq<Event>, req: Request)
    ensures BlockIs(t, before + RequestTrace(t, req), |before|, req)
    ensures |RequestTrace(t, req)| == |CallbacksOf(t, req.kind)| + |t.onEvery|
  {
    SlicesOfThree(before, CalledAll(CallbacksOf(t, req.kind), req), CalledAll(t.onEvery, req));
  }

  lemma BlockStays(t: Table, trace: seq<Event>, more: seq<Event>, start: nat, req: Request)
    requires BlockIs(t, trace, start, req)
    ensures BlockIs(t, trace + more, start, req)
  {
    assert (trace + more)[..|trace|] == trace;
  }

  lemma {:induction false} SameStart(t: Table, reqs: seq<Request>, n: nat, k: nat)
    requires k <= n <= |reqs|
    ensures BlockStart(t, reqs[..n], k) == BlockStart(t, reqs, k)
  {
    if k > 0 {
      SameStart(t, reqs, n, k - 1);
      assert reqs[..n][k - 1] == reqs[k - 1];
    }
  }

  lemma {:induction false} TraceLength(t: Table, reqs: seq<Request>)
    ensures |ServeTrace(t, reqs)| == BlockStart(t, reqs, |reqs|)
  {
    if reqs != [] {
      var n := |reqs| - 1;
      TraceLength(t, reqs[..n]);
      ServeTraceSnoc(t, reqs, n);
      assert reqs[..n + 1] == reqs;
      SameStart(t, reqs, n, n);
      BlockHere(t, [], reqs[n]);
    }
  }

  /** The trace by position, for any table: the startup callbacks first; then the block of each request in
      order, and nothing else. */
  lemma {:induction false} TraceByPosition(t: Table, reqs: seq<Request>, k: nat)
    requires k < |reqs|
    ensures BlockIs(t, ServeTrace(t, reqs), BlockStart(t, reqs, k), reqs[k])
    ensures |ServeTrace(t, reqs)| == BlockStart(t, reqs, |reqs|)
    ensures forall j :: 0 <= j < |t.onStartup| ==> j < |ServeTrace(t, reqs)| && ServeTrace(t, reqs)[j] == Started(t.onStartup[j])
    decreases reqs
  {
    var n := |reqs| - 1;
    var front := reqs[..n];
    ServeTraceSnoc(t, reqs, n);
    assert reqs[..n + 1] == reqs;
    SameStart(t, reqs, n, k);
    if k < n {
      TraceByPosition(t, front, k);
      BlockStays(t, ServeTrace(t, front), RequestTrace(t, reqs[n]), BlockStart(t, reqs, k), reqs[k]);
    } else {
      TraceLength(t, front);
      BlockHere(t, ServeTrace(t, front), reqs[n]);
    }
    TraceLength(t, reqs);
  }

  function EventActions(e: Event): seq<Action> {
    match e
    case Started(cb) => StartupActions(cb)
    case Called(cb, req) => RequestActions(cb, req)
  }

  /** Everything a trace does, in order. */
  function Performed(es: seq<Event>): seq<Action> {
    Flat(EventActions, es)
  }

  // ---------------------------------------------------------------------------
  // The builder and the handler
  // ---------------------------------------------------------------------------

  /** Builder of a channel handler. The `has...` flags say which of the pointers
      that `Build` checks against nil have been set. */
  class Builder {
    var channelType: string
    var hasChannel: bool
    var hasRequests: bool
    var hasLogger: bool
    var hasApi: bool
    var hasDirectData: bool
    var onStartup: seq<StartupCallback>
    var onRequest: seq<RequestCallback>
    var onReqShell: seq<RequestCallback>
    var onReqPty: seq<RequestCallback>
    var onReqWinCh: seq<RequestCallback>
    var onReqSubSys: seq<RequestCallback>
    var onReqDefault: seq<RequestCallback>

    constructor (channelType: string)
      ensures this.channelType == channelType
      ensures !hasChannel && !hasRequests && !hasLogger && !hasApi && !hasDirectData
      ensures onStartup == [] && onRequest == [] && onReqDefault == []
      ensures onReqShell == [] && onReqPty == [] && onReqWinCh == [] && onReqSubSys == []
    {
      this.channelType := channelType;
      hasChannel, hasRequests, hasLogger, hasApi, hasDirectData := false, false, false, false, false;
      onStartup, onRequest, onReqDefault := [], [], [];
      onReqShell, onReqPty, onReqWinCh, onReqSubSys := [], [], [], [];
    }

    ghost function Registered(): Table
      reads this
    {
      Table(onStartup, onRequest, onReqDefault,
            map["shell" := onReqShell, "pty-req" := onReqPty,
                "window-change" := onReqWinCh, "subsystem" := onReqSubSys])
    }

    method SetOnStartup(cb: StartupCallback)
      modifies this`onStartup
      ensures onStartup == old(onStartup) + [cb]
    { onStartup := onStartup + [cb]; }

    method SetOnRequest(cb: RequestCallback)
      modifies this`onRequest
      ensures onRequest == old(onRequest) + [cb]
    { onRequest := onRequest + [cb]; }

    method SetOnReqShell(cb: RequestCallback)
      modifies this`onReqShell
      ensures onReqShell == old(onReqShell) + [cb]
    { onReqShell := onReqShell + [cb]; }

    method SetOnReqPty(cb: RequestCallback)
      modifies this`onReqPty
      ensures onReqPty == old(onReqPty) + [cb]
    { onReqPty := onReqPty + [cb]; }

    method SetOnReqWinCh(cb: RequestCallback)
      modifies this`onReqWinCh
      ensures onReqWinCh == old(onReqWinCh) + [cb]
    { onReqWinCh := onReqWinCh + [cb]; }

    method SetOnReqSubSys(cb: RequestCallback)
      modifies this`onReqSubSys
      ensures onReqSubSys == old(onReqSubSys) + [cb]
    { onReqSubSys := onReqSubSys + [cb]; }

    method SetOnReqDefault(cb: RequestCallback)
      modifies this`onReqDefault
      ensures onReqDefault == old(onReqDefault) + [cb]
    { onReqDefault := onReqDefault + [cb]; }

    // SetChannel, SetRequests, SetLog and SetK8sUserAPI, each with a pointer.
    method SetDependencies()
      modifies this`hasChannel, this`hasRequests, this`hasLogger, this`hasApi
      ensures hasChannel && hasRequests && hasLogger && hasApi
    { hasChannel, hasRequests, hasLogger, hasApi := true, true, true, true; }

    /** Fails on the first missing dependency; otherwise hands the registered
        callbacks to a new handler that has done nothing yet. */
    method Build() returns (r: Result<Handler, string>)
      ensures r.Ok? <==> hasChannel && hasRequests && hasLogger && hasApi
                         && (channelType == "direct-tcpip" ==> hasDirectData)
      ensures r.Ok? ==> fresh(r.value) && r.value.AsTable() == Registered()
                        && r.value.trace == [] && !r.value.handedOff
      ensures r.Err? ==> r.error == if !hasChannel then "channel is nil" else if !hasRequests then "requests is nil"
                                    else if !hasLogger then "logger is nil" else if !hasApi then "k8sAPIUser is nil"
                                    else "directTCPIPData is nil"
    {
      if !hasChannel { return Err("channel is nil"); }
      if !hasRequests { return Err("requests is nil"); }
      if !hasLogger { return Err("logger is nil"); }
      if !hasApi { return Err("k8sAPIUser is nil"); }
      if channelType == "direct-tcpip" && !hasDirectData { return Err("directTCPIPData is nil"); }
      var funcMap := map["shell" := onReqShell, "pty-req" := onReqPty,
                         "window-change" := onReqWinCh, "subsystem" := onReqSubSys];
      var h := new Handler(onStartup, onRequest, onReqDefault, funcMap);
      return Ok(h);
    }
  }

  class Handler {
    var onStartupCallback: seq<StartupCallback>
    var onEveryReqCallback: seq<RequestCallback>
    var onDefaultCallback: seq<RequestCallback>
    var funcMap: map<string, seq<RequestCallback>>
    // What has been called so far, and whether serveCloseDone has been signalled.
    var trace: seq<Event>
    var handedOff: bool

    constructor (onStartup: seq<StartupCallback>, onEvery: seq<RequestCallback>,
                 onDefault: seq<RequestCallback>, funcMap: map<string, seq<RequestCallback>>)
      ensures AsTable() == Table(onStartup, onEvery, onDefault, funcMap)
      ensures trace == [] && !handedOff
    {
      onStartupCallback, onEveryReqCallback, onDefaultCallback := onStartup, onEvery, onDefault;
      this.funcMap := funcMap;
      trace, handedOff := [], false;
    }

    ghost function AsTable(): Table
      reads this
    {
      Table(onStartupCallback, onEveryReqCallback, onDefaultCallback, funcMap)
    }

    method CallEach(cbs: seq<RequestCallback>, req: Request)
      modifies this`trace
      ensures trace == old(trace) + CalledAll(cbs, req)
    {
      for i := 0 to |cbs|
        invariant trace == old(trace) + CalledAll(cbs, req)[..i]
      {
        trace := trace + [Called(cbs[i], req)];
      }
    }

    /** The body of the loop for one received request. */
    method Dispatch(req: Request)
      modifies this`trace
      ensures trace == old(trace) + RequestTrace(AsTable(), req)
    {
      if req.kind in funcMap {
        CallEach(funcMap[req.kind], req);
      } else {
        CallEach(onDefaultCallback, req);
      }
      CallEach(onEveryReqCallback, req);
    }

    method StartUp()
      modifies this`trace
      ensures trace == old(trace) + StartedAll(onStartupCallback)
    {
      for i := 0 to |onStartupCallback|
        invariant trace == old(trace) + StartedAll(onStartupCallback)[..i]
      {
        trace := trace + [Started(onStartupCallback[i])];
      }
    }

    /** `requests` is what the channel delivers before it is closed; `doneAt` is the
        number of requests after which `select` picks the cancelled context. */
    method Serve(requests: seq<Request>, doneAt: nat) returns (processed: nat)
      modifies this
      ensures processed == if doneAt < |requests| then doneAt else |requests|
      ensures trace == old(trace) + ServeTrace(old(AsTable()), requests[..processed])
      ensures AsTable() == old(AsTable()) && handedOff
    {
      ghost var before, table := trace, AsTable();
      StartUp();
      processed := 0;
      while processed < doneAt && processed < |requests|
        invariant processed <= doneAt && processed <= |requests|
        invariant AsTable() == table
        invariant trace == before + ServeTrace(table, requests[..processed])
        decreases |requests| - processed
      {
        Dispatch(requests[processed]);
        ServeTraceSnoc(table, requests, processed);
        assert before + ServeTrace(table, requests[..processed]) + RequestTrace(table, requests[processed])
            == before + (ServeTrace(table, requests[..processed]) + RequestTrace(table, requests[processed]));
        processed := processed + 1;
      }
      handedOff := true;
    }
  }

  // ---------------------------------------------------------------------------
  // The two skeletons
  // ---------------------------------------------------------------------------

  const SESSION_TABLE := Table([LogSessionStart], [LogRequest], [RejectUnknown],
                              map["shell" := [OnShell], "pty-req" := [OnPty],
                                  "window-change" := [OnWindowChange], "subsystem" := [OnSubsystem]])

  const DIRECT_TABLE := Table([StartPortForward], [LogRequest], [RejectUnknown],
                             map["shell" := [], "pty-req" := [], "window-change" := [], "subsystem" := []])

  method SessionBuilderSkeleton() returns (b: Builder)
    ensures fresh(b) && b.channelType == "session" && b.Registered() == SESSION_TABLE
  {
    b := new Builder("session");
    b.SetOnStartup(LogSessionStart);
    b.SetOnReqDefault(RejectUnknown);
    b.SetOnReqShell(OnShell);
    b.SetOnReqSubSys(OnSubsystem);
    b.SetOnReqWinCh(OnWindowChange);
    b.SetOnReqPty(OnPty);
    b.SetOnRequest(LogRequest);
    assert b.onReqShell == [OnShell] && b.onReqPty == [OnPty]
           && b.onReqWinCh == [OnWindowChange] && b.onReqSubSys == [OnSubsystem];
  }

  method DirectTCPIPBuilderSkeleton() returns (b: Builder)
    ensures fresh(b) && b.channelType == "direct-tcpip" && b.Registered() == DIRECT_TABLE
  {
    b := new Builder("direct-tcpip");
    b.SetOnReqDefault(RejectUnknown);
    b.SetOnRequest(LogRequest);
    b.SetOnStartup(StartPortForward);
  }

  // ---------------------------------------------------------------------------
  // What a served channel does, request by request
  // ---------------------------------------------------------------------------

  function TableOf(channelType: string): Table {
    if channelType == "session" then SESSION_TABLE else DIRECT_TABLE
  }

  function ChannelStartup(channelType: string): seq<Action> {
    Performed(StartedAll(TableOf(channelType).onStartup))
  }

  function ChannelActions(channelType: string, req: Request): seq<Action> {
    Performed(RequestTrace(TableOf(channelType), req))
  }

  datatype RequestType = ShellType | PtyType | WindowType | SubsystemType | UnknownType

  function TypeOf(kind: string): RequestType {
    if kind == "shell" then ShellType
    else if kind == "pty-req" then PtyType
    else if kind == "window-change" then WindowType
    else if kind == "subsystem" then SubsystemType
    else UnknownType
  }

  /** The reply a request must get, per sections 5.4, 6.2, 6.5 and 6.7 of RFC 4254 as the handler
      promises it: on a session, known well-formed requests are accepted and window changes never
      answered; unknown types are refused on every channel. */
  function ExpectedReply(channelType: string, req: Request): seq<bool> {
    if req.kind == "window-change" then []
    else if req.kind == "shell" then (if channelType == "session" then [true] else [])
    else if req.kind == "pty-req" then (if channelType == "session" && req.pty.WellFormed? then [true] else [])
    else if req.kind == "subsystem" then (if channelType == "session" && req.subsystem.WellFormed? then [true] else [])
    else [false]
  }

  /** The goroutine a request must start, if any. */
  function ExpectedThread(channelType: string, req: Request): seq<Thread> {
    if channelType != "session" then []
    else if req.kind == "shell" then [Shell]
    else if req.kind == "subsystem" && req.subsystem.WellFormed? then [Subsystem(req.subsystem.value)]
    else []
  }

  /** The window change a request asks for, if any. */
  function WindowChange(channelType: string, req: Request): seq<WindowRequest> {
    if channelType == "session" && req.kind == "window-change" && req.window.WellFormed? then [req.window.value] else []
  }

  /** The terminal size a request must queue, if any. */
  function ExpectedSize(channelType: string, req: Request): seq<TerminalSize> {
    if channelType == "session" && req.kind == "window-change" && req.window.WellFormed?
    then [ToTerminalSize(req.window.value)] else []
  }

  /** The pty a request must record, if any. */
  function ExpectedPty(channelType: string, req: Request): seq<PtyRequest> {
    if channelType == "session" && req.kind == "pty-req" && req.pty.WellFormed? then [req.pty.value] else []
  }

  /** Each size has the columns of its window change as width and the rows as height, cut to 16 bits. */
  predicate SizesOf(windows: seq<WindowRequest>, sizes: seq<TerminalSize>) {
    && |sizes| == |windows|
    && forall k :: 0 <= k < |sizes| ==>
         && sizes[k].width as int == windows[k].columns as int % 0x1_0000
         && sizes[k].height as int == windows[k].rows as int % 0x1_0000
  }

  // The same, as functions of the request alone.
  function ReplyTo(channelType: string): Request -> seq<bool> { req => ExpectedReply(channelType, req) }
  function ThreadFor(channelType: string): Request -> seq<Thread> { req => ExpectedThread(channelType, req) }
  function SizeFrom(channelType: string): Request -> seq<TerminalSize> { req => ExpectedSize(channelType, req) }
  function WindowsIn(channelType: string): Request -> seq<WindowRequest> { req => WindowChange(channelType, req) }
  function PtyFrom(channelType: string): Request -> seq<PtyRequest> { req => ExpectedPty(channelType, req) }
  function ActionsFor(channelType: string): Request -> seq<Action> { req => ChannelActions(channelType, req) }

  function StartupThreads(channelType: string): seq<Thread> {
    if channelType == "session" then [] else [PortForward]
  }

  /** All goroutines a served channel must have started after the given requests. */
  function ThreadsAfter(channelType: string, reqs: seq<Request>): seq<Thread> {
    StartupThreads(channelType) + Flat(ThreadFor(channelType), reqs)
  }

  // Projections of a single action; `Flat` lifts them to action lists.
  function ReplyIn(a: Action): seq<bool> { match a case Reply(b) => [b] case _ => [] }
  function ThreadIn(a: Action): seq<Thread> { match a case Go(t) => [t] case _ => [] }
  function SizeIn(a: Action): seq<TerminalSize> { match a case FillQueue(z) => [z] case _ => [] }
  function PtyIn(a: Action): seq<PtyRequest> { match a case SetPty(p) => [p] case _ => [] }
  function AddIn(a: Action): seq<()> { match a case WgAdd => [()] case _ => [] }

  /** What starting up does. */
  lemma StartupExactly(channelType: string)
    ensures ChannelStartup(channelType) == if channelType == "session" then [] else [WgAdd, Go(PortForward)]
  {
    var t := TableOf(channelType);
    assert StartedAll(t.onStartup) == [Started(t.onStartup[0])];
    FlatSingle(EventActions, Started(t.onStartup[0]));
  }

  /** The callback, besides logging, that a request of the given type runs. */
  function CallbackFor(channelType: string, kind: RequestType): seq<RequestCallback> {
    if kind.UnknownType? then [RejectUnknown]
    else if channelType != "session" then []
    else match kind
      case ShellType => [OnShell]
      case PtyType => [OnPty]
      case WindowType => [OnWindowChange]
      case _ => [OnSubsystem]
  }

  lemma TableEntries(channelType: string, kind: string)
    ensures CallbacksOf(TableOf(channelType), kind) == CallbackFor(channelType, TypeOf(kind))
    ensures TableOf(channelType).onEvery == [LogRequest]
  {
    if kind == "shell" {
    } else if kind == "pty-req" {
    } else if kind == "window-change" {
    } else if kind == "subsystem" {
    }
  }

  /** Logging after at most one callback leaves that callback's actions. */
  lemma ActionsOfOne(cbs: seq<RequestCallback>, req: Request)
    requires |cbs| <= 1
    ensures Performed(CalledAll(cbs, req) + CalledAll([LogRequest], req)) ==
            if cbs == [] then [] else RequestActions(cbs[0], req)
  {
    FlatConcat(EventActions, CalledAll(cbs, req), CalledAll([LogRequest], req));
    assert CalledAll([LogRequest], req) == [Called(LogRequest, req)];
    FlatSingle(EventActions, Called(LogRequest, req));
    if cbs != [] {
      assert CalledAll(cbs, req) == [Called(cbs[0], req)];
      FlatSingle(EventActions, Called(cbs[0], req));
    }
  }

  /** What a request's own callback does. */
  function TypeActions(channelType: string, req: Request): seq<Action> {
    var cbs := CallbackFor(channelType, TypeOf(req.kind));
    if cbs == [] then [] else RequestActions(cbs[0], req)
  }

  /** What one request does, by request type. */
  lemma RequestExactly(channelType: string, req: Request)
    ensures ChannelActions(channelType, req) == TypeActions(channelType, req)
  {
    TableEntries(channelType, req.kind);
    ActionsOfOne(CallbackFor(channelType, TypeOf(req.kind)), req);
  }

  /** Projecting a list of at most three actions. */
  lemma FlatThree<B>(p: Action -> seq<B>, acts: seq<Action>)
    requires |acts| <= 3
    ensures |acts| == 0 ==> Flat(p, acts) == []
    ensures |acts| == 1 ==> Flat(p, acts) == p(acts[0])
    ensures |acts| == 2 ==> Flat(p, acts) == p(acts[0]) + p(acts[1])
    ensures |acts| == 3 ==> Flat(p, acts) == p(acts[0]) + p(acts[1]) + p(acts[2])
  {
    if |acts| > 0 {
      if |acts| > 1 {
        assert Flat(p, acts[1..]) == p(acts[1]) + Flat(p, acts[1..][1..]);
        if |acts| > 2 {
          assert Flat(p, acts[1..][1..]) == p(acts[2]) + Flat(p, acts[1..][1..][1..]);
        }
      }
    }
  }

  /** Projecting what one callback does. */
  lemma CallbackProjection<B>(cb: RequestCallback, req: Request, p: Action -> seq<B>)
    ensures |RequestActions(cb, req)| <= 3
    ensures Flat(p, RequestActions(cb, req)) ==
            match cb
            case RejectUnknown => p(Reply(false))
            case OnShell => p(WgAdd) + p(Go(Shell)) + p(Reply(true))
            case OnSubsystem =>
              if req.subsystem.Malformed? then [] else p(WgAdd) + p(Go(Subsystem(req.subsystem.value))) + p(Reply(true))
            case OnWindowChange =>
              if req.window.Malformed? then [] else p(FillQueue(ToTerminalSize(req.window.value)))
            case OnPty => if req.pty.Malformed? then [] else p(SetPty(req.pty.value)) + p(Reply(true))
            case LogRequest => []
  {
    FlatThree(p, RequestActions(cb, req));
  }

  lemma AtMostThreeActions(channelType: string, req: Request)
    ensures |ChannelActions(channelType, req)| <= 3
  {
    RequestExactly(channelType, req);
  }

  lemma TypeReplies(channelType: string, req: Request)
    ensures Flat(ReplyIn, TypeActions(channelType, req)) == ExpectedReply(channelType, req)
  {
    var cbs := CallbackFor(channelType, TypeOf(req.kind));
    if cbs != [] { CallbackProjection(cbs[0], req, ReplyIn); }
  }

  lemma RequestReplies(channelType: string, req: Request)
    ensures Flat(ReplyIn, ChannelActions(channelType, req)) == ExpectedReply(channelType, req)
  {
    RequestExactly(channelType, req);
    TypeReplies(channelType, req);
  }

  lemma TypeThreads(channelType: string, req: Request)
    ensures Flat(ThreadIn, TypeActions(channelType, req)) == ExpectedThread(channelType, req)
  {
    var cbs := CallbackFor(channelType, TypeOf(req.kind));
    if cbs != [] { CallbackProjection(cbs[0], req, ThreadIn); }
  }

  lemma RequestThreads(channelType: string, req: Request)
    ensures Flat(ThreadIn, ChannelActions(channelType, req)) == ExpectedThread(channelType, req)
  {
    RequestExactly(channelType, req);
    TypeThreads(channelType, req);
  }

  lemma TypeSizes(channelType: string, req: Request)
    ensures Flat(SizeIn, TypeActions(channelType, req)) == ExpectedSize(channelType, req)
  {
    var cbs := CallbackFor(channelType, TypeOf(req.kind));
    if cbs != [] { CallbackProjection(cbs[0], req, SizeIn); }
  }

  lemma RequestSizes(channelType: string, req: Request)
    ensures Flat(SizeIn, ChannelActions(channelType, req)) == ExpectedSize(channelType, req)
  {
    RequestExactly(channelType, req);
    TypeSizes(channelType, req);
  }

  lemma TypePtys(channelType: string, req: Request)
    ensures Flat(PtyIn, TypeActions(channelType, req)) == ExpectedPty(channelType, req)
  {
    var cbs := CallbackFor(channelType, TypeOf(req.kind));
    if cbs != [] { CallbackProjection(cbs[0], req, PtyIn); }
  }

  lemma RequestPtys(channelType: string, req: Request)
    ensures Flat(PtyIn, ChannelActions(channelType, req)) == ExpectedPty(channelType, req)
  {
    RequestExactly(channelType, req);
    TypePtys(channelType, req);
  }

  /** Serving performs the startup actions and then each request's actions in order. */
  lemma ServedActions(channelType: string, reqs: seq<Request>)
    ensures Performed(ServeTrace(TableOf(channelType), reqs))
            == ChannelStartup(channelType) + Flat(ActionsFor(channelType), reqs)
  {
    var t := TableOf(channelType);
    FlatConcat(EventActions, StartedAll(t.onStartup), Flat(RequestTraceOf(t), reqs));
    FlatFusion(RequestTraceOf(t), EventActions, ActionsFor(channelType), reqs);
  }

  /** A projection of everything served is the projection of the startup followed by the per-request
      specification, when the two agree on every request. */
  lemma ServedProjection<B>(channelType: string, reqs: seq<Request>, p: Action -> seq<B>, spec: Request -> seq<B>)
    requires forall req :: Flat(p, ActionsFor(channelType)(req)) == spec(req)
    ensures Flat(p, Performed(ServeTrace(TableOf(channelType), reqs)))
            == Flat(p, ChannelStartup(channelType)) + Flat(spec, reqs)
  {
    ServedActions(channelType, reqs);
    FlatConcat(p, ChannelStartup(channelType), Flat(ActionsFor(channelType), reqs));
    FlatFusion(ActionsFor(channelType), p, spec, reqs);
  }

  /** For every request sequence, a served channel sends exactly the replies the per-request
      specification asks for, in order. */
  lemma ServedReplies(channelType: string, reqs: seq<Request>)
    ensures Flat(ReplyIn, Performed(ServeTrace(TableOf(channelType), reqs))) == Flat(ReplyTo(channelType), reqs)
  {
    forall req ensures Flat(ReplyIn, ActionsFor(channelType)(req)) == ReplyTo(channelType)(req) {
      RequestReplies(channelType, req);
    }
    ServedProjection(channelType, reqs, ReplyIn, ReplyTo(channelType));
    StartupExactly(channelType);
    FlatThree(ReplyIn, ChannelStartup(channelType));
  }

  /** ... starts exactly the goroutines it asks for, after the startup ones ... */
  lemma ServedThreads(channelType: string, reqs: seq<Request>)
    ensures Flat(ThreadIn, Performed(ServeTrace(TableOf(channelType), reqs))) == ThreadsAfter(channelType, reqs)
  {
    forall req ensures Flat(ThreadIn, ActionsFor(channelType)(req)) == ThreadFor(channelType)(req) {
      RequestThreads(channelType, req);
    }
    ServedProjection(channelType, reqs, ThreadIn, ThreadFor(channelType));
    StartupExactly(channelType);
    FlatThree(ThreadIn, ChannelStartup(channelType));
  }

  lemma {:induction false} SizesByNumber(channelType: string, reqs: seq<Request>)
    ensures SizesOf(Flat(WindowsIn(channelType), reqs), Flat(SizeFrom(channelType), reqs))
  {
    if reqs != [] {
      SizesByNumber(channelType, reqs[1..]);
    }
  }

  /** ... offers the size queue exactly the sizes of the well-formed window changes ... */
  lemma ServedSizes(channelType: string, reqs: seq<Request>)
    ensures var sizes := Flat(SizeIn, Performed(ServeTrace(TableOf(channelType), reqs)));
            sizes == Flat(SizeFrom(channelType), reqs) && SizesOf(Flat(WindowsIn(channelType), reqs), sizes)
  {
    forall req ensures Flat(SizeIn, ActionsFor(channelType)(req)) == SizeFrom(channelType)(req) {
      RequestSizes(channelType, req);
    }
    ServedProjection(channelType, reqs, SizeIn, SizeFrom(channelType));
    StartupExactly(channelType);
    FlatThree(SizeIn, ChannelStartup(channelType));
    SizesByNumber(channelType, reqs);
  }

  /** ... and records exactly the well-formed pty requests. */
  lemma ServedPtys(channelType: string, reqs: seq<Request>)
    ensures Flat(PtyIn, Performed(ServeTrace(TableOf(channelType), reqs))) == Flat(PtyFrom(channelType), reqs)
  {
    forall req ensures Flat(PtyIn, ActionsFor(channelType)(req)) == PtyFrom(channelType)(req) {
      RequestPtys(channelType, req);
    }
    ServedProjection(channelType, reqs, PtyIn, PtyFrom(channelType));
    StartupExactly(channelType);
    FlatThree(PtyIn, ChannelStartup(channelType));
  }

  /** A session channel from the skeleton to the end: build the handler, serve the requests that arrive.
      Replies, goroutines, sizes and ptys are those the requests processed call for. */
  method ServeSession(requests: seq<Request>, doneAt: nat) returns (processed: nat, handler: Handler)
    ensures fresh(handler) && handler.handedOff
    ensures processed == if doneAt < |requests| then doneAt else |requests|
    ensures var acts := Performed(handler.trace);
            && Flat(ReplyIn, acts) == Flat(ReplyTo("session"), requests[..processed])
            && Flat(ThreadIn, acts) == ThreadsAfter("session", requests[..processed])
            && SizesOf(Flat(WindowsIn("session"), requests[..processed]), Flat(SizeIn, acts))
            && Flat(PtyIn, acts) == Flat(PtyFrom("session"), requests[..processed])
  {
    var builder := SessionBuilderSkeleton();
    builder.SetDependencies();
    var built := builder.Build();
    handler := built.value;
    processed := handler.Serve(requests, doneAt);
    assert [] + ServeTrace(SESSION_TABLE, requests[..processed]) == ServeTrace(SESSION_TABLE, requests[..processed]);
    ServedReplies("session", requests[..processed]);
    ServedThreads("session", requests[..processed]);
    ServedSizes("session", requests[..processed]);
    ServedPtys("session", requests[..processed]);
  }

  predicate StartsThread(req: Request) {
    req.kind == "shell" || (req.kind == "subsystem" && req.subsystem.WellFormed?)
  }

  function CountWhere(reqs: seq<Request>, p: Request -> bool): nat {
    if reqs == [] then 0 else (if p(reqs[0]) then 1 else 0) + CountWhere(reqs[1..], p)
  }

  /** Goroutines started: one per shell request and per well-formed subsystem request on a session
      channel; exactly the startup forwarder on a direct-tcpip channel. */
  lemma {:induction false} ThreadCount(channelType: string, reqs: seq<Request>)
    ensures |ThreadsAfter(channelType, reqs)| ==
            if channelType == "session" then CountWhere(reqs, StartsThread) else 1
  {
    if reqs != [] {
      ThreadCount(channelType, reqs[1..]);
    }
  }
}
