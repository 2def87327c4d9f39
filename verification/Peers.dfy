/** The same call between two whole instances: every frame goes through each instance's router, and
    either instance may serve, call and be called by anyone meanwhile.

    A routed run is a run of the two tables the call lives in (`RoutedRunsAreRuns`), so everything
    proved of those holds of it. What the router needs for that is that no frame but credit comes on
    the call's number, and that the caller's own server holds no stream of that number from the
    callee. */
module Peers {
  import opened Basics
  import opened Frames
  import opened Outbox
  import opened Elsewhere
  import opened EndToEnd
  import opened Routing
  import D = Delivery
  import C = Client
  import S = Server
  import W = ClientWhole

  /** The call's two tables and channels, and the other half of each instance. */
  datatype Peers = Peers(n: Net, callerServer: S.ServerState, calleeClient: C.ClientState)

  /** What happens at one instance apart from the call: a frame from anyone, or what its app does. */
  datatype Act =
    | Arrives(from: Caller, frame: Frame, forClient: seq<C.AppOp>, forServer: seq<S.ServerOp>)
    | ClientDoes(c: C.Action)
    | ServerDoes(s: S.Action)

  datatype PeerStep =
    | Call(step: Step)
    | AtCaller(act: Act)
    | AtCallee(act: Act)

  /** The caller's server's key for a stream of the call's number from the callee. */
  function BackKey(x: Exchange): S.PeerKey {
    S.KeyOf(x.callee, x.Stream())
  }

  ghost predicate BackFree(x: Exchange, s: S.ServerState) {
    BackKey(x) !in s.incoming && BackKey(x) !in s.outgoing && Answering(s) && Keyed(s)
  }

  /** A step of the call itself, or one at either instance that is not on the call's number, or
      credit on any number at all. */
  predicate Allowed(x: Exchange, p: Peers, ps: PeerStep) {
    match ps
    case Call(step) => step.Own() && Enabled(x, p.n, step)
    case AtCaller(act) =>
      (match act
       case Arrives(from, frame, forClient, forServer) =>
         || frame.kind.Credit?
         || (&& C.Key(from.appId, frame.stream) != x.Key() && S.KeyOf(from, frame.stream) != BackKey(x)
             && OffOps(forClient, x.Key()) && OffServerOps(forServer, BackKey(x)))
       case ClientDoes(c) => !c.FrameIn? && OffAction(c, x.Key())
       case ServerDoes(s) => !s.FrameIn? && OffServerAction(s, BackKey(x)))
    case AtCallee(act) =>
      (match act
       case Arrives(from, frame, _, forServer) =>
         || frame.kind.Credit? || frame.kind.RespHead?
         || (S.KeyOf(from, frame.stream) != x.PeerKey() && OffServerOps(forServer, x.PeerKey()))
       case ClientDoes(c) => !c.FrameIn?
       case ServerDoes(s) => !s.FrameIn? && OffServerAction(s, x.PeerKey()))
  }

  function Route(i: Instance, from: Caller, frame: Frame, forClient: seq<C.AppOp>, forServer: seq<S.ServerOp>,
                 host: Host)
    : Instance
  {
    if i.client.streams.Keys <= i.client.seen.Keys then Routed(i, from, frame, forClient, forServer, host) else i
  }

  function AtTheCaller(p: Peers): Instance {
    Instance(p.n.client, p.callerServer)
  }

  function AtTheCallee(p: Peers): Instance {
    Instance(p.calleeClient, p.n.server)
  }

  /** The caller's instance moved to `i`, from a net `n` with the step's own bookkeeping done. */
  function CallerMoved(x: Exchange, p: Peers, n: Net, i: Instance): Peers {
    Peers(ClientMoved(x, n, i.client), i.server, p.calleeClient)
  }

  function CalleeMoved(x: Exchange, p: Peers, n: Net, i: Instance): Peers {
    Peers(ServerMoved(x, n, i.server), p.callerServer, i.client)
  }

  /** Credit for the call's own stream that was minted for another of its number. */
  function StrayAtCaller(x: Exchange, p: Peers, from: Caller, frame: Frame): nat {
    if frame.kind.Credit? && C.Key(from.appId, frame.stream) == x.Key() && x.Key() in p.n.client.streams
       && Destined(p.n.client, p.callerServer, from, frame) == ToClient
    then frame.kind.n else 0
  }

  function StrayAtCallee(x: Exchange, p: Peers, from: Caller, frame: Frame): nat {
    if frame.kind.Credit? && S.KeyOf(from, frame.stream) == x.PeerKey() && x.PeerKey() in p.n.server.outgoing
    then frame.kind.n else 0
  }

  /** The call's own frames go through the routers too. */
  function CallStep(x: Exchange, p: Peers, step: Step): Peers
    requires Enabled(x, p.n, step)
  {
    var n, stream := p.n, x.Stream();
    match step
    case ServerReceives(before, responds, after) =>
      CalleeMoved(x, p, n.(toServer := n.toServer[1..], taken := n.taken + 1, responded := n.responded || responds),
                  Route(AtTheCallee(p), x.caller, Frame(stream, n.toServer[0]), [],
                        HandlerOps(x, before, responds, after), x.host))
    case ClientCredited =>
      CallerMoved(x, p, n.(requestCredit := n.requestCredit - 1),
                  Route(AtTheCaller(p), x.callee, Frame(stream, Credit(1)), [], [], x.host))
    case ClientReceives(inner) =>
      CallerMoved(x, p, n.(toClient := n.toClient[1..], got := n.got + 1),
                  Route(AtTheCaller(p), x.callee, Frame(stream, n.toClient[0]), inner, [], x.host))
    case ServerCredited =>
      CalleeMoved(x, p, n.(responseCredit := n.responseCredit - 1),
                  Route(AtTheCallee(p), x.caller, Frame(stream, Credit(1)), [], [], x.host))
    case _ => p.(n := Next(x, n, step))
  }

  function After(x: Exchange, p: Peers, ps: PeerStep): Peers
    requires Allowed(x, p, ps)
  {
    match ps
    case Call(step) => CallStep(x, p, step)
    case AtCaller(act) =>
      (match act
       case Arrives(from, frame, forClient, forServer) =>
         CallerMoved(x, p, p.n.(requestStray := p.n.requestStray + StrayAtCaller(x, p, from, frame)),
                     Route(AtTheCaller(p), from, frame, forClient, forServer, x.host))
       case ClientDoes(c) => CallerMoved(x, p, p.n, AtTheCaller(p).(client := C.Apply(p.n.client, c, x.host)))
       case ServerDoes(s) => p.(callerServer := S.Apply(p.callerServer, s, x.host)))
    case AtCallee(act) =>
      (match act
       case Arrives(from, frame, forClient, forServer) =>
         CalleeMoved(x, p, p.n.(responseStray := p.n.responseStray + StrayAtCallee(x, p, from, frame)),
                     Route(AtTheCallee(p), from, frame, forClient, forServer, x.host))
       case ClientDoes(c) => p.(calleeClient := C.Apply(p.calleeClient, c, x.host))
       case ServerDoes(s) => CalleeMoved(x, p, p.n, AtTheCallee(p).(server := S.Apply(p.n.server, s, x.host))))
  }

  ghost predicate PeerRuns(x: Exchange, p: Peers, steps: seq<PeerStep>, q: Peers)
    decreases |steps|
  {
    if steps == [] then q == p
    else Allowed(x, p, steps[0]) && PeerRuns(x, After(x, p, steps[0]), steps[1..], q)
  }

  // ---------------------------------------------------------------- a routed step is a step

  ghost predicate Inv(x: Exchange, p: Peers) {
    D.Inv(x, p.n) && BackFree(x, p.callerServer) && C.ClientInv(p.calleeClient, None)
  }

  /** The step of the two tables that a routed step is, if it is one. */
  function StepOf(x: Exchange, p: Peers, ps: PeerStep): Option<Step> {
    match ps
    case Call(step) => Some(step)
    case AtCaller(act) =>
      (match act
       case Arrives(from, frame, forClient, _) =>
         if Destined(p.n.client, p.callerServer, from, frame) != ToClient then None
         else if C.Key(from.appId, frame.stream) == x.Key() && frame.kind.Credit? then Some(ClientStrayed(frame.kind.n))
         else Some(ClientActs(C.FrameIn(from, frame, if frame.kind.Credit? then [] else forClient)))
       case ClientDoes(c) => Some(ClientActs(c))
       case ServerDoes(_) => None)
    case AtCallee(act) =>
      (match act
       case Arrives(from, frame, _, forServer) =>
         if Destined(p.calleeClient, p.n.server, from, frame) != ToServer then None
         else if S.KeyOf(from, frame.stream) == x.PeerKey() && frame.kind.Credit? then Some(ServerStrayed(frame.kind.n))
         else Some(ServerActs(S.FrameIn(from, frame, if frame.kind.Credit? then [] else forServer)))
       case ClientDoes(_) => None
       case ServerDoes(s) => Some(ServerActs(s)))
  }

  /** Both sides at each instance are as routing needs them. */
  lemma TablesOk(x: Exchange, p: Peers)
    requires Inv(x, p)
    ensures p.n.client.streams.Keys <= p.n.client.seen.Keys
    ensures p.calleeClient.streams.Keys <= p.calleeClient.seen.Keys
    ensures p.n.server.handler
  {
  }

  /** Credit does not depend on who it is from beyond the key, nor run the app. */
  lemma CreditIsOfTheKey(s: C.ClientState, from: Caller, other: Caller, stream: nat, n: u32, inner: seq<C.AppOp>,
                         host: Host)
    requires s.streams.Keys <= s.seen.Keys && other.appId == from.appId
    ensures C.OnFrame(s, from, Frame(stream, Credit(n)), inner, host)
            == C.OnFrame(s, other, Frame(stream, Credit(n)), [], host)
  {
    hide C.Flush;
  }

  lemma ServerCreditIsOfTheKey(s: S.ServerState, from: Caller, other: Caller, stream: nat, n: u32,
                               inner: seq<S.ServerOp>, host: Host)
    requires S.KeyOf(other, stream) == S.KeyOf(from, stream)
    ensures S.OnFrame(s, from, Frame(stream, Credit(n)), inner, host)
            == S.OnFrame(s, other, Frame(stream, Credit(n)), [], host)
  {
    hide S.Flush;
  }

  lemma NothingMoved(x: Exchange, n: Net)
    ensures ClientMoved(x, n, n.client) == n && ServerMoved(x, n, n.server) == n
  {
    hide Exchange.Key, Exchange.PeerKey;
    assert Added(n.client.sent, n.client.sent) == [] && Added(n.server.log, n.server.log) == [];
    assert n.toServer + [] == n.toServer && n.toClient + [] == n.toClient;
  }

  /** The request's frames reach the callee's server. */
  lemma RequestReachesTheServer(x: Exchange, p: Peers)
    requires Inv(x, p) && p.n.toServer != []
    ensures Destined(p.calleeClient, p.n.server, x.caller, Frame(x.Stream(), p.n.toServer[0])) == ToServer
  {
    hide Exchange.RequestFrames, Exchange.ResponseFrames, D.ClientOk, D.ClientSide, D.Responding, D.BodyIn, C.ClientInv,
      Answering, Keyed, S.ServedFor, BackFree;
    var n := p.n;
    D.RequestShaped(x);
    D.ClientSideTaken(x, n.client, n.toServer, n.taken, n.got, n.requestNoted, n.requestCredit, n.requestStray);
  }

  /** The response's frames reach the caller's sink. */
  lemma ResponseReachesTheSink(x: Exchange, p: Peers)
    requires x.Fits() && Inv(x, p) && p.n.toClient != []
    ensures Destined(p.n.client, p.callerServer, x.callee, Frame(x.Stream(), p.n.toClient[0])) == ToClient
  {
    hide Exchange.RequestFrames, Exchange.ResponseFrames, D.ClientOk, D.ServerSide, D.SeenIs, C.ClientInv, C.ReadyIs,
      Answering, Keyed, Blocked, BodyCount, Willing;
    var n := p.n;
    D.ResponseShaped(x);
    D.ServerSideGot(x, n.server, n.toClient, n.taken, n.got, n.responseNoted, n.responseCredit, n.responseStray,
                    n.responded);
  }

  /** A routed step of the call is that step. */
  lemma CallStepIsStep(x: Exchange, p: Peers, step: Step)
    requires x.Fits() && Inv(x, p) && step.Own() && Enabled(x, p.n, step)
    ensures CallStep(x, p, step).n == Next(x, p.n, step)
    ensures CallStep(x, p, step).callerServer == p.callerServer
    ensures C.ClientInv(CallStep(x, p, step).calleeClient, None)
  {
    hide Exchange.Fits, D.Inv, C.ClientInv, C.Deliver, C.Flush, S.Flush, S.Complete, S.ShutDown, HandlerOps, Answering,
      Keyed, CallsOut, CallsNoted, EntriesOut, EntriesNoted, Served, OffOps, OffServerOps, Granted;
    TablesOk(x, p);
    match step
    case ServerReceives(before, responds, after) => RequestReachesTheServer(x, p);
    case ClientReceives(inner) => ResponseReachesTheSink(x, p);
    case ClientCredited => CalleeIsOfTheApp(x);
    case ServerCredited =>
      C.OnFrameKeeps(p.calleeClient, x.caller, Frame(x.Stream(), Credit(1)), [], x.host);
    case _ =>
  }

  lemma CalleeIsOfTheApp(x: Exchange)
    requires x.Fits()
    ensures C.Key(x.callee.appId, x.Stream()) == x.Key()
  {
  }

  /** A frame for the caller's client is an action of the client, or stray credit for the call. */
  lemma CallerFrameIsStep(x: Exchange, p: Peers, from: Caller, frame: Frame, forClient: seq<C.AppOp>,
                          forServer: seq<S.ServerOp>)
    requires x.Fits() && Inv(x, p) && Allowed(x, p, AtCaller(Arrives(from, frame, forClient, forServer)))
    requires Destined(p.n.client, p.callerServer, from, frame) == ToClient
    ensures var ps := AtCaller(Arrives(from, frame, forClient, forServer));
            var step := StepOf(x, p, ps);
            && step.Some? && !step.value.Own() && Enabled(x, p.n, step.value)
            && After(x, p, ps).n == Next(x, p.n, step.value) && After(x, p, ps).callerServer == p.callerServer
  {
    hide D.Inv, C.ClientInv, C.OnFrame, Answering, Keyed, CallsOut, CallsNoted, OffServerOps, Willing;
    TablesOk(x, p);
    CalleeIsOfTheApp(x);
    if frame.kind.Credit? {
      assert frame == Frame(frame.stream, Credit(frame.kind.n));
      CreditIsOfTheKey(p.n.client, from, from, frame.stream, frame.kind.n, forClient, x.host);
      if C.Key(from.appId, frame.stream) == x.Key() {
        CreditIsOfTheKey(p.n.client, from, x.callee, frame.stream, frame.kind.n, forClient, x.host);
      }
    }
  }

  /** A frame for the callee's server is an action of the server, or stray credit for the call. */
  lemma CalleeFrameIsStep(x: Exchange, p: Peers, from: Caller, frame: Frame, forClient: seq<C.AppOp>,
                          forServer: seq<S.ServerOp>)
    requires x.Fits() && Inv(x, p) && Allowed(x, p, AtCallee(Arrives(from, frame, forClient, forServer)))
    requires Destined(p.calleeClient, p.n.server, from, frame) == ToServer
    ensures var ps := AtCallee(Arrives(from, frame, forClient, forServer));
            var step := StepOf(x, p, ps);
            && step.Some? && !step.value.Own() && Enabled(x, p.n, step.value)
            && After(x, p, ps).n == Next(x, p.n, step.value) && After(x, p, ps).calleeClient == p.calleeClient
  {
    hide D.Inv, C.ClientInv, S.OnFrame, Answering, Keyed, EntriesOut, EntriesNoted, OffOps, Willing;
    TablesOk(x, p);
    if frame.kind.Credit? {
      assert frame == Frame(frame.stream, Credit(frame.kind.n));
      ServerCreditIsOfTheKey(p.n.server, from, from, frame.stream, frame.kind.n, forServer, x.host);
      if S.KeyOf(from, frame.stream) == x.PeerKey() {
        ServerCreditIsOfTheKey(p.n.server, from, x.caller, frame.stream, frame.kind.n, forServer, x.host);
      }
    }
  }

  /** What the caller's server does with other keys leaves the call's number free there. */
  lemma BackStaysFree(x: Exchange, s: S.ServerState, from: Caller, frame: Frame, inner: seq<S.ServerOp>)
    requires BackFree(x, s) && S.KeyOf(from, frame.stream) != BackKey(x)
    requires frame.kind.Credit? || OffServerOps(inner, BackKey(x))
    ensures BackFree(x, S.OnFrame(s, from, frame, inner, x.host))
  {
    hide S.OnFrame, S.ServedFor, Answering, Keyed, OffServerOps;
    if frame.kind.Credit? {
      assert frame == Frame(frame.stream, Credit(frame.kind.n));
      ServerCreditIsOfTheKey(s, from, from, frame.stream, frame.kind.n, inner, x.host);
      NoOps(BackKey(x));
      FrameServerAside(s, from, frame, [], x.host, BackKey(x));
    } else {
      FrameServerAside(s, from, frame, inner, x.host, BackKey(x));
    }
  }

  lemma NoOps(k: S.PeerKey)
    ensures OffServerOps([], k)
  {
  }

  lemma BackStaysFreeDoing(x: Exchange, s: S.ServerState, a: S.Action)
    requires BackFree(x, s) && OffServerAction(a, BackKey(x))
    ensures BackFree(x, S.Apply(s, a, x.host))
  {
    hide S.Apply, S.ServedFor, Answering, Keyed, OffServerAction;
    ServerActsAside(s, a, x.host, BackKey(x));
  }

  /** Every routed step keeps the invariant, and is a step of the two tables or none. */
  lemma StepIsStep(x: Exchange, p: Peers, ps: PeerStep)
    requires x.Fits() && Inv(x, p) && Allowed(x, p, ps)
    ensures Inv(x, After(x, p, ps))
    ensures var step := StepOf(x, p, ps);
            if step.None? then After(x, p, ps).n == p.n && !ps.Call?
            else Enabled(x, p.n, step.value) && After(x, p, ps).n == Next(x, p.n, step.value)
                 && (step.value.Own() <==> ps.Call?)
  {
    hide Exchange.Fits, D.Inv, C.ClientInv, BackFree, Next, CallStep, Enabled, C.Apply, S.Apply, C.OnFrame, S.OnFrame,
      OffOps, OffServerOps, OffAction, OffServerAction;
    TablesOk(x, p);
    NothingMoved(x, p.n);
    match ps
    case Call(step) =>
      CallStepIsStep(x, p, step);
      D.NextHolds(x, p.n, step);
    case AtCaller(act) => CallerActs(x, p, act);
    case AtCallee(act) => CalleeActs(x, p, act);
  }

  lemma CallerActs(x: Exchange, p: Peers, act: Act)
    requires x.Fits() && Inv(x, p) && Allowed(x, p, AtCaller(act))
    ensures Inv(x, After(x, p, AtCaller(act)))
    ensures var step := StepOf(x, p, AtCaller(act));
            if step.None? then After(x, p, AtCaller(act)).n == p.n
            else Enabled(x, p.n, step.value) && After(x, p, AtCaller(act)).n == Next(x, p.n, step.value)
                 && !step.value.Own()
  {
    hide Exchange.Fits, D.Inv, C.ClientInv, C.Apply, S.Apply, C.OnFrame, S.OnFrame, OffOps, OffServerOps, OffAction,
      OffServerAction, Answering, Keyed, CallsOut, CallsNoted;
    TablesOk(x, p);
    NothingMoved(x, p.n);
    match act
    case Arrives(from, frame, forClient, forServer) =>
      if Destined(p.n.client, p.callerServer, from, frame) == ToClient {
        CallerFrameIsStep(x, p, from, frame, forClient, forServer);
        D.NextHolds(x, p.n, StepOf(x, p, AtCaller(act)).value);
      } else if Destined(p.n.client, p.callerServer, from, frame) == ToServer {
        BackStaysFree(x, p.callerServer, from, frame, forServer);
      }
    case ClientDoes(c) => D.NextHolds(x, p.n, ClientActs(c));
    case ServerDoes(s) => BackStaysFreeDoing(x, p.callerServer, s);
  }

  lemma CalleeActs(x: Exchange, p: Peers, act: Act)
    requires x.Fits() && Inv(x, p) && Allowed(x, p, AtCallee(act))
    ensures Inv(x, After(x, p, AtCallee(act)))
    ensures var step := StepOf(x, p, AtCallee(act));
            if step.None? then After(x, p, AtCallee(act)).n == p.n
            else Enabled(x, p.n, step.value) && After(x, p, AtCallee(act)).n == Next(x, p.n, step.value)
                 && !step.value.Own()
  {
    hide Exchange.Fits, D.Inv, C.ClientInv, C.Apply, S.Apply, C.OnFrame, S.OnFrame, OffOps, OffServerOps, OffAction,
      OffServerAction, Answering, Keyed, EntriesOut, EntriesNoted, BackFree;
    TablesOk(x, p);
    NothingMoved(x, p.n);
    match act
    case Arrives(from, frame, forClient, forServer) =>
      C.OnFrameKeeps(p.calleeClient, from, frame, forClient, x.host);
      if Destined(p.calleeClient, p.n.server, from, frame) == ToServer {
        CalleeFrameIsStep(x, p, from, frame, forClient, forServer);
        D.NextHolds(x, p.n, StepOf(x, p, AtCallee(act)).value);
      } else {
        CreditElsewhere(x, p, from, frame);
      }
    case ClientDoes(c) => C.ApplyKeeps(p.calleeClient, c, x.host);
    case ServerDoes(s) => D.NextHolds(x, p.n, ServerActs(s));
  }

  /** Credit the callee's server does not take is none of the call's. */
  lemma CreditElsewhere(x: Exchange, p: Peers, from: Caller, frame: Frame)
    requires Destined(p.calleeClient, p.n.server, from, frame) != ToServer
    ensures StrayAtCallee(x, p, from, frame) == 0
  {
  }

  // ---------------------------------------------------------------- every routed run

  function CallSteps(steps: seq<PeerStep>): nat {
    if steps == [] then 0 else (if steps[0].Call? then 1 else 0) + CallSteps(steps[1..])
  }

  /** A routed run is a run of the two tables, with as many steps of the call. */
  lemma {:induction false} RoutedRunsAreRuns(x: Exchange, p: Peers, steps: seq<PeerStep>, q: Peers)
    returns (plain: seq<Step>)
    requires x.Fits() && Inv(x, p) && PeerRuns(x, p, steps, q)
    ensures Inv(x, q) && Runs(x, p.n, plain, q.n) && D.OwnSteps(plain) == CallSteps(steps)
    decreases |steps|
  {
    hide Exchange.Fits, Inv, Allowed, After, Enabled, Next, StepOf;
    if steps == [] {
      return [];
    }
    StepIsStep(x, p, steps[0]);
    var rest := RoutedRunsAreRuns(x, After(x, p, steps[0]), steps[1..], q);
    if StepOf(x, p, steps[0]).None? {
      return rest;
    }
    plain := [StepOf(x, p, steps[0]).value] + rest;
    assert plain[1..] == rest;
  }

  function PeerStart(x: Exchange, callerServer: S.ServerState, calleeClient: C.ClientState): Peers {
    Peers(Start(x), callerServer, calleeClient)
  }

  /** The halves of the instances the call does not live in are as their operations keep them, and
      the caller's server holds no stream of the call's number from the callee. */
  ghost predicate PeersFit(x: Exchange, callerServer: S.ServerState, calleeClient: C.ClientState) {
    x.Fits() && BackFree(x, callerServer) && C.ClientInv(calleeClient, None)
  }

  /** Between two instances that route every frame, whatever else arrives at either, credit of the
      call's own number included: the call takes at most three steps a frame and one; what has been
      received is a prefix of what was sent; credit is conserved but for what strayed in; and where
      the call can take no step, both bodies have been handed over whole. */
  lemma RoutedCallDelivers(x: Exchange, callerServer: S.ServerState, calleeClient: C.ClientState, steps: seq<PeerStep>,
                           q: Peers)
    requires PeersFit(x, callerServer, calleeClient) && PeerRuns(x, PeerStart(x, callerServer, calleeClient), steps, q)
    ensures CallSteps(steps) <= 3 * |x.RequestFrames()| + 3 * |x.ResponseFrames()| + 1
    ensures x.PeerKey() in q.n.server.incoming ==> q.n.server.incoming[x.PeerKey()].body <= x.request.body
    ensures x.Key() in q.n.client.seen && W.BodyOf(q.n.client.seen[x.Key()]) <= x.response
    ensures q.n.got < |x.ResponseFrames()| ==>
              && x.Key() in q.n.client.streams
              && D.Conserved(q.n.client.streams[x.Key()].box.credit, q.n.toServer, q.n.requestNoted, q.n.requestCredit,
                             q.n.requestStray)
    ensures x.PeerKey() in q.n.server.outgoing ==>
              D.Conserved(q.n.server.outgoing[x.PeerKey()].box.credit, q.n.toClient, q.n.responseNoted,
                          q.n.responseCredit, q.n.responseStray)
    ensures D.Stuck(x, q.n) ==> D.Delivered(x, q.n)
  {
    hide Exchange.Fits, Exchange.RequestFrames, Exchange.ResponseFrames, D.Inv, BackFree, C.ClientInv, Start, Runs,
      PeerRuns, D.Conserved, D.Stuck, D.Delivered, W.BodyOf;
    D.StartHolds(x);
    var plain := RoutedRunsAreRuns(x, PeerStart(x, callerServer, calleeClient), steps, q);
    D.EveryRunDelivers(x, plain, q.n);
    D.ReceivedIsPrefix(x, plain, q.n);
    D.CreditIsConserved(x, plain, q.n);
  }

  // ---------------------------------------------------------------- stray credit

  /** Credit is taken by the server exactly when it holds a stream of that number from that peer; by
      the client exactly when it does not and the client has one of that number with that app. */
  lemma CreditGoes(client: C.ClientState, server: S.ServerState, from: Caller, stream: nat, n: u32)
    ensures Destined(client, server, from, Frame(stream, Credit(n))) ==
            if S.Owns(server, from, stream) then ToServer
            else if C.Key(from.appId, stream) in client.streams then ToClient
            else ToApp
  {
  }

  /** The server forgets a stream with its last frame, while credit for the last chunks is still to
      come. A response of one chunk, all sent from inside the handler, leaves one credit on its way;
      it then goes to this instance's own call of the same number, which may send one more chunk
      than four. */
  lemma LateCreditStrays(from: Caller, head: RequestHead, status: u16, headers: Headers, chunk: Bytes,
    to: Address, transport: Transport, request: C.Outbound, host: Host)
    requires from.appId == C.AppIdOf(to) && Willing(host) && 1 <= |chunk| <= MAX_CHUNK
    ensures var asked := S.OnFrame(S.SERVING, from, Frame(1, ReqHead(head)), [], host);
            var answered := S.OnFrame(asked, from, Frame(1, End), [S.RespondOp(from, 1, status, headers, chunk)], host);
            var client := C.Open(C.NO_STREAMS, to, transport, request, host);
            var k := C.Key(from.appId, 1);
            && Body(chunk) in EntriesOut(answered.log, S.KeyOf(from, 1))
            && Destined(client, answered, from, Frame(1, Credit(1))) == ToClient
            && k in client.streams && client.streams[k].box.credit + BodyCount(CallsOut(client.sent, k)) == 4
            && client.streams.Keys <= client.seen.Keys
            && var after := C.OnFrame(client, from, Frame(1, Credit(1)), [], host);
            && k in after.streams && after.streams[k].box.credit + BodyCount(CallsOut(after.sent, k)) == 5
  {
    hide S.Flush, C.Flush, Message, Chunks, BodyCount, CallsOut, EntriesOut, Willing;
    AnswersAtOnce(from, head, status, headers, chunk, host);
    OpensWithFour(to, transport, request, host);
    var client, k := C.Open(C.NO_STREAMS, to, transport, request, host), C.Key(from.appId, 1);
    OneMoreThanFour(client, k, host);
  }

  /** A one-chunk response goes out whole, and its stream is forgotten. */
  lemma AnswersAtOnce(from: Caller, head: RequestHead, status: u16, headers: Headers, chunk: Bytes, host: Host)
    requires Willing(host) && 1 <= |chunk| <= MAX_CHUNK
    ensures var asked := S.OnFrame(S.SERVING, from, Frame(1, ReqHead(head)), [], host);
            var answered := S.OnFrame(asked, from, Frame(1, End), [S.RespondOp(from, 1, status, headers, chunk)], host);
            && !S.Owns(answered, from, 1)
            && Body(chunk) in EntriesOut(answered.log, S.KeyOf(from, 1))
  {
    hide S.Flush, Message, SentBy, LeftBy, EntriesOut, EntriesNoted, Willing;
    var k := S.KeyOf(from, 1);
    var op := S.RespondOp(from, 1, status, headers, chunk);
    var response := RespHead(ResponseHead(status, headers, Some(|chunk|)));
    var asked := S.OnFrame(S.SERVING, from, Frame(1, ReqHead(head)), [], host);
    var open := S.OpenedFor(asked, k, from).(
      handler := false,
      served := asked.served + [S.RequestOf(asked.incoming[k], 1)]);
    var box := Queued(EMPTY_BOX, response, chunk);
    var u := open.(outgoing := open.outgoing[k := open.outgoing[k].(box := box)]);
    OneChunk(response, chunk);
    D.MessageIsShaped(response, chunk);
    D.ServerFlushAdds(u, k, host);
    D.DidOne(open, op, host);
    var t := S.Flush(u, k, host).0;
    var before := u.log;
    assert t.log == before + Added(before, t.log);
    EntriesJoin(before, Added(before, t.log), k);
  }

  lemma OneChunk(head: FrameKind, chunk: Bytes)
    requires 1 <= |chunk| <= MAX_CHUNK && !head.Body?
    ensures var box := Queued(EMPTY_BOX, head, chunk);
            && [] + Message(head, chunk) == Message(head, chunk) == [head, Body(chunk), End]
            && SentBy(box) == [head, Body(chunk), End] && LeftBy(box).queued == []
  {
    hide SentBy, LeftBy, Blocked, AfterNext;
    assert BodyFrames([chunk]) == [Body(chunk)];
    var all := [head, Body(chunk), End];
    assert [] + all == all && all == [head] + [Body(chunk), End] && [Body(chunk), End] == [Body(chunk)] + [End];
    assert [End] == [End] + [];
    SendsFirst(4, head, [Body(chunk), End]);
    SendsFirst(4, Body(chunk), [End]);
    SendsFirst(3, End, []);
    SendsNone(3);
  }

  /** A frame the credit allows goes, and then the rest. */
  lemma SendsFirst(credit: u32, first: FrameKind, rest: seq<FrameKind>)
    requires first.Body? ==> credit > 0
    ensures var left := Box(if first.Body? then credit - 1 else credit, rest);
            && SentBy(Box(credit, [first] + rest)) == [first] + SentBy(left)
            && LeftBy(Box(credit, [first] + rest)) == LeftBy(left)
  {
    assert ([first] + rest)[1..] == rest;
  }

  lemma SendsNone(credit: u32)
    ensures SentBy(Box(credit, [])) == [] && LeftBy(Box(credit, [])) == Box(credit, [])
  {
  }

  lemma OpensWithFour(to: Address, transport: Transport, request: C.Outbound, host: Host)
    requires Willing(host)
    ensures var t, k := C.Open(C.NO_STREAMS, to, transport, request, host), C.Key(C.AppIdOf(to), 1);
            && t.streams.Keys <= t.seen.Keys
            && k in t.streams && C.AppIdOf(t.streams[k].to) == k.appId && Blocked(t.streams[k].box)
            && t.streams[k].box.credit + BodyCount(CallsOut(t.sent, k)) == 4
  {
    hide C.Flush, Message, SentBy, LeftBy, BodyCount, CallsOut, CallsNoted, Willing, Blocked;
    var s, k := C.Inserted(C.NO_STREAMS, to, transport, request), C.Key(C.AppIdOf(to), 1);
    D.ClientFlushAdds(s, k, host);
    SentBySpends(s.streams[k].box);
    assert Added([], C.Flush(s, k, host).sent) == C.Flush(s, k, host).sent;
  }

  lemma OneMoreThanFour(s: C.ClientState, k: C.Key, host: Host)
    requires Willing(host) && k in s.streams && C.AppIdOf(s.streams[k].to) == k.appId
    requires s.streams[k].box.credit + BodyCount(CallsOut(s.sent, k)) == 4 && s.streams.Keys <= s.seen.Keys
    ensures forall from: Caller :: from.appId == k.appId ==>
              var t := C.OnFrame(s, from, Frame(k.stream, Credit(1)), [], host);
              && k in t.streams && t.streams[k].box.credit + BodyCount(CallsOut(t.sent, k)) == 5
  {
    hide C.Flush, SentBy, LeftBy, BodyCount, CallsOut, CallsNoted, Willing, Blocked;
    var u := C.WithBox(s, k, Granted(s.streams[k].box, 1));
    D.ClientFlushAdds(u, k, host);
    SentBySpends(u.streams[k].box);
    var t := C.Flush(u, k, host);
    assert t.sent == s.sent + Added(s.sent, t.sent);
    CallsJoin(s.sent, Added(s.sent, t.sent), k);
    BodyCountJoin(CallsOut(s.sent, k), SentBy(u.streams[k].box));
  }
}
