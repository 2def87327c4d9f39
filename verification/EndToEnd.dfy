/** One internal-HTTP call end to end: a client table on one side, a server table on the other, and
    between them frames in order, with one credit minted by the host for each chunk noted as read.

    Both tables may hold any other streams, and anything may happen to those meanwhile, from inside
    the call's own callbacks too; credit minted for another stream of the same number may stray onto
    the call's. Every interleaving of deliveries, mints, the app's response and what happens
    elsewhere is a run of `Step`s. The tables move by the same functions their classes are proved to
    compute. */
module EndToEnd {
  import opened Basics
  import opened Frames
  import opened Outbox
  import opened Elsewhere
  import C = Client
  import S = Server

  /** A host that refuses nothing: it takes each frame at once or later. */
  ghost predicate Willing(host: Host) {
    forall n :: !host(n).RefusedNow?
  }

  /** The two ends of a call, the tables it finds there, and what each end says. `caller` is how the
      server's session vouches for the client, `callee` how the client's vouches for the server. */
  datatype Exchange = Exchange(
    atClient: C.ClientState,
    atServer: S.ServerState,
    to: Address,
    transport: Transport,
    request: C.Outbound,
    caller: Caller,
    callee: Caller,
    status: u16,
    headers: Headers,
    response: Bytes,
    host: Host)
  {
    function Key(): C.Key {
      C.NextKey(atClient, to)
    }

    function Stream(): nat {
      atClient.last + 1
    }

    function PeerKey(): S.PeerKey {
      S.KeyOf(caller, Stream())
    }

    function RequestHead(): RequestHead {
      C.HeadOf(to, request).request
    }

    function RequestFrames(): seq<FrameKind> {
      Message(C.HeadOf(to, request), request.body)
    }

    function ResponseHead(): ResponseHead {
      Frames.ResponseHead(status, headers, Some(|response|))
    }

    function ResponseFrames(): seq<FrameKind> {
      Message(RespHead(ResponseHead()), response)
    }

    function Respond(): S.ServerOp {
      S.RespondOp(caller, Stream(), status, headers, response)
    }

    /** The tables are as their operations keep them, and the server holds no stream of this number
        from this caller. */
    ghost predicate Fits() {
      && callee.appId == C.AppIdOf(to) && Willing(host)
      && C.ClientInv(atClient, None) && Addressed(atClient)
      && atServer.handler && Keyed(atServer) && Answering(atServer)
      && PeerKey() !in atServer.incoming && PeerKey() !in atServer.outgoing
    }
  }

  /** Both tables, the call's frames in flight each way, and its reads noted and credits minted for
      each direction but not yet turned into the next thing. `taken` and `got` count what arrived,
      and the strays count credit that came on the call's key but was minted for another stream of
      the same number. */
  datatype Net = Net(
    client: C.ClientState,
    server: S.ServerState,
    toServer: seq<FrameKind>,
    taken: nat,
    requestNoted: nat,
    requestCredit: nat,
    requestStray: nat,
    toClient: seq<FrameKind>,
    got: nat,
    responseNoted: nat,
    responseCredit: nat,
    responseStray: nat,
    responded: bool)

  /** `before`, `responds` and `after` are what the app does inside the handler, `inner` what it does
      inside the sink. */
  datatype Step =
    | ServerReceives(before: seq<S.ServerOp>, responds: bool, after: seq<S.ServerOp>)
    | MintForClient
    | ClientCredited
    | AppResponds
    | ClientReceives(inner: seq<C.AppOp>)
    | MintForServer
    | ServerCredited
    | ClientStrayed(credit: u32)
    | ServerStrayed(credit: u32)
    | ClientActs(c: C.Action)
    | ServerActs(s: S.Action)
  {
    /** A step of the call itself. */
    predicate Own() {
      !ClientActs? && !ServerActs? && !ClientStrayed? && !ServerStrayed?
    }
  }

  // ---------------------------------------------------------------- what a table put on the wire

  /** The frames on one key. */
  function CallsOut(calls: seq<C.Call>, k: C.Key): seq<FrameKind> {
    if calls == [] then []
    else
      var rest, last := CallsOut(calls[..|calls| - 1], k), calls[|calls| - 1];
      if last.Sent? && KeyOfCall(last) == k then rest + [last.frame.kind] else rest
  }

  function CallsNoted(calls: seq<C.Call>, k: C.Key): nat {
    if calls == [] then 0
    else
      var last := calls[|calls| - 1];
      CallsNoted(calls[..|calls| - 1], k) + (if last.Consumed? && KeyOfCall(last) == k then 1 else 0)
  }

  function EntriesOut(log: seq<S.Entry>, k: S.PeerKey): seq<FrameKind> {
    if log == [] then []
    else
      var rest, last := EntriesOut(log[..|log| - 1], k), log[|log| - 1];
      if last.Responded? && KeyOfEntry(last) == k then rest + [last.frame.kind] else rest
  }

  function EntriesNoted(log: seq<S.Entry>, k: S.PeerKey): nat {
    if log == [] then 0
    else
      var last := log[|log| - 1];
      EntriesNoted(log[..|log| - 1], k) + (if last.Noted? && KeyOfEntry(last) == k then 1 else 0)
  }

  /** What a step added to a log that only grows. */
  function Added<T>(before: seq<T>, after: seq<T>): seq<T> {
    if |before| <= |after| then after[|before|..] else []
  }

  /** The client moved to `client`: what it sent is in flight, what it read is noted. */
  function ClientMoved(x: Exchange, n: Net, client: C.ClientState): Net {
    var calls := Added(n.client.sent, client.sent);
    n.(client := client,
       toServer := n.toServer + CallsOut(calls, x.Key()),
       responseNoted := n.responseNoted + CallsNoted(calls, x.Key()))
  }

  function ServerMoved(x: Exchange, n: Net, server: S.ServerState): Net {
    var entries := Added(n.server.log, server.log);
    n.(server := server,
       toClient := n.toClient + EntriesOut(entries, x.PeerKey()),
       requestNoted := n.requestNoted + EntriesNoted(entries, x.PeerKey()))
  }

  // ---------------------------------------------------------------- steps

  function Start(x: Exchange): Net {
    ClientMoved(x, Net(x.atClient, x.atServer, [], 0, 0, 0, 0, [], 0, 0, 0, 0, false),
                C.Open(x.atClient, x.to, x.transport, x.request, x.host))
  }

  /** The handler has been called with this request. */
  predicate Served(x: Exchange, s: S.ServerState) {
    |S.ServedFor(s.served, x.PeerKey())| > |S.ServedFor(x.atServer.served, x.PeerKey())|
  }

  predicate Enabled(x: Exchange, n: Net, step: Step) {
    match step
    case ServerReceives(before, responds, after) =>
      && n.toServer != [] && OffServerOps(before, x.PeerKey()) && OffServerOps(after, x.PeerKey())
      && (responds ==> n.toServer[0].End? && !n.responded)
    case MintForClient => n.requestNoted > 0
    case ClientCredited => n.requestCredit > 0
    case AppResponds => Served(x, n.server) && !n.responded
    case ClientReceives(inner) => n.toClient != [] && OffOps(inner, x.Key())
    case MintForServer => n.responseNoted > 0
    case ServerCredited => n.responseCredit > 0
    case ClientStrayed(_) => true
    case ServerStrayed(_) => true
    case ClientActs(c) => OffAction(c, x.Key())
    case ServerActs(s) => OffServerAction(s, x.PeerKey())
  }

  function HandlerOps(x: Exchange, before: seq<S.ServerOp>, responds: bool, after: seq<S.ServerOp>): seq<S.ServerOp> {
    before + ((if responds then [x.Respond()] else []) + after)
  }

  function ServerGets(x: Exchange, s: S.ServerState, kind: FrameKind, inner: seq<S.ServerOp>): S.ServerState {
    S.OnFrame(s, x.caller, Frame(x.Stream(), kind), inner, x.host)
  }

  function ClientGets(x: Exchange, s: C.ClientState, kind: FrameKind, inner: seq<C.AppOp>): C.ClientState {
    if s.streams.Keys <= s.seen.Keys
    then C.OnFrame(s, x.callee, Frame(x.Stream(), kind), inner, x.host)
    else s
  }

  function Next(x: Exchange, n: Net, step: Step): Net
    requires Enabled(x, n, step)
  {
    match step
    case ServerReceives(before, responds, after) =>
      ServerMoved(x, n.(toServer := n.toServer[1..], taken := n.taken + 1, responded := n.responded || responds),
                  ServerGets(x, n.server, n.toServer[0], HandlerOps(x, before, responds, after)))
    case MintForClient => n.(requestNoted := n.requestNoted - 1, requestCredit := n.requestCredit + 1)
    case ClientCredited =>
      ClientMoved(x, n.(requestCredit := n.requestCredit - 1), ClientGets(x, n.client, Credit(1), []))
    case AppResponds => ServerMoved(x, n.(responded := true), S.Did(n.server, x.Respond(), x.host))
    case ClientReceives(inner) =>
      ClientMoved(x, n.(toClient := n.toClient[1..], got := n.got + 1), ClientGets(x, n.client, n.toClient[0], inner))
    case MintForServer => n.(responseNoted := n.responseNoted - 1, responseCredit := n.responseCredit + 1)
    case ServerCredited =>
      ServerMoved(x, n.(responseCredit := n.responseCredit - 1), ServerGets(x, n.server, Credit(1), []))
    case ClientStrayed(credit) =>
      ClientMoved(x, n.(requestStray := n.requestStray + if x.Key() in n.client.streams then credit else 0),
                  ClientGets(x, n.client, Credit(credit), []))
    case ServerStrayed(credit) =>
      ServerMoved(x, n.(responseStray := n.responseStray + if x.PeerKey() in n.server.outgoing then credit else 0),
                  ServerGets(x, n.server, Credit(credit), []))
    case ClientActs(c) => ClientMoved(x, n, C.Apply(n.client, c, x.host))
    case ServerActs(s) => ServerMoved(x, n, S.Apply(n.server, s, x.host))
  }

  ghost predicate Runs(x: Exchange, n: Net, steps: seq<Step>, m: Net)
    decreases |steps|
  {
    if steps == [] then m == n
    else Enabled(x, n, steps[0]) && Runs(x, Next(x, n, steps[0]), steps[1..], m)
  }

  // ---------------------------------------------------------------- what goes out, joined up

  /** From `before` to `after`, `frames` went out on `k` and `noted` chunks of it were read. */
  ghost predicate Sends(before: seq<C.Call>, after: seq<C.Call>, k: C.Key, frames: seq<FrameKind>, noted: nat) {
    before <= after
    && CallsOut(Added(before, after), k) == frames && CallsNoted(Added(before, after), k) == noted
  }

  ghost predicate Writes(before: seq<S.Entry>, after: seq<S.Entry>, k: S.PeerKey, frames: seq<FrameKind>, noted: nat) {
    before <= after
    && EntriesOut(Added(before, after), k) == frames && EntriesNoted(Added(before, after), k) == noted
  }

  lemma {:induction false} CallsJoin(a: seq<C.Call>, b: seq<C.Call>, k: C.Key)
    ensures CallsOut(a + b, k) == CallsOut(a, k) + CallsOut(b, k)
    ensures CallsNoted(a + b, k) == CallsNoted(a, k) + CallsNoted(b, k)
  {
    if b == [] {
      assert a + b == a;
    } else {
      assert (a + b)[..|a + b| - 1] == a + b[..|b| - 1];
      CallsJoin(a, b[..|b| - 1], k);
    }
  }

  lemma {:induction false} EntriesJoin(a: seq<S.Entry>, b: seq<S.Entry>, k: S.PeerKey)
    ensures EntriesOut(a + b, k) == EntriesOut(a, k) + EntriesOut(b, k)
    ensures EntriesNoted(a + b, k) == EntriesNoted(a, k) + EntriesNoted(b, k)
  {
    if b == [] {
      assert a + b == a;
    } else {
      assert (a + b)[..|a + b| - 1] == a + b[..|b| - 1];
      EntriesJoin(a, b[..|b| - 1], k);
    }
  }

  lemma SendsThen(a: seq<C.Call>, b: seq<C.Call>, c: seq<C.Call>, k: C.Key, f: seq<FrameKind>, n: nat,
      g: seq<FrameKind>, m: nat)
    requires Sends(a, b, k, f, n) && Sends(b, c, k, g, m)
    ensures Sends(a, c, k, f + g, n + m)
  {
    hide CallsOut, CallsNoted;
    CallsJoin(Added(a, b), Added(b, c), k);
    assert Added(a, c) == Added(a, b) + Added(b, c);
  }

  lemma WritesThen(a: seq<S.Entry>, b: seq<S.Entry>, c: seq<S.Entry>, k: S.PeerKey, f: seq<FrameKind>, n: nat,
      g: seq<FrameKind>, m: nat)
    requires Writes(a, b, k, f, n) && Writes(b, c, k, g, m)
    ensures Writes(a, c, k, f + g, n + m)
  {
    hide EntriesOut, EntriesNoted;
    EntriesJoin(Added(a, b), Added(b, c), k);
    assert Added(a, c) == Added(a, b) + Added(b, c);
  }

  lemma {:induction false} NoCalls(calls: seq<C.Call>, k: C.Key)
    requires forall i :: 0 <= i < |calls| ==> KeyOfCall(calls[i]) != k
    ensures CallsOut(calls, k) == [] && CallsNoted(calls, k) == 0
  {
    if calls != [] {
      NoCalls(calls[..|calls| - 1], k);
    }
  }

  lemma {:induction false} NoEntries(log: seq<S.Entry>, k: S.PeerKey)
    requires forall i :: 0 <= i < |log| ==> KeyOfEntry(log[i]) != k
    ensures EntriesOut(log, k) == [] && EntriesNoted(log, k) == 0
  {
    if log != [] {
      NoEntries(log[..|log| - 1], k);
    }
  }

  lemma ElsewhereSendsNothing(before: seq<C.Call>, after: seq<C.Call>, k: C.Key)
    requires CallsElsewhere(before, after, k)
    ensures Sends(before, after, k, [], 0)
  {
    NoCalls(Added(before, after), k);
  }

  lemma ElsewhereWritesNothing(before: seq<S.Entry>, after: seq<S.Entry>, k: S.PeerKey)
    requires EntriesElsewhere(before, after, k)
    ensures Writes(before, after, k, [], 0)
  {
    NoEntries(Added(before, after), k);
  }

  // ---------------------------------------------------------------- flushing under a willing host

  function CallsOf(s: C.Stream, stream: nat, frames: seq<FrameKind>): seq<C.Call> {
    seq(|frames|, i requires 0 <= i < |frames| => C.Sent(s.to, Frame(stream, frames[i]), s.transport))
  }

  lemma {:induction false} ClientFlushes(s: C.ClientState, k: C.Key, host: Host)
    requires k in s.streams && Willing(host)
    ensures C.Flush(s, k, host) ==
            C.WithBox(s, k, LeftBy(s.streams[k].box)).(
              sent := s.sent + CallsOf(s.streams[k], k.stream, SentBy(s.streams[k].box)))
    decreases |s.streams[k].box.queued|
  {
    var t := s.streams[k];
    if Blocked(t.box) {
      assert s.sent + CallsOf(t, k.stream, []) == s.sent;
      C.SameStream(s, k);
    } else {
      var next := C.SendNext(s, k);
      NextShrinks(t.box);
      ClientFlushes(next, k, host);
      var rest := SentBy(AfterNext(t.box));
      assert CallsOf(t, k.stream, SentBy(t.box)) ==
             [C.Sent(t.to, Frame(k.stream, t.box.queued[0]), t.transport)] + CallsOf(t, k.stream, rest);
      assert !host(|s.sent|).RefusedNow?;
    }
  }

  lemma {:induction false} CallsOfOut(s: C.Stream, k: C.Key, frames: seq<FrameKind>)
    requires C.AppIdOf(s.to) == k.appId
    ensures CallsOut(CallsOf(s, k.stream, frames), k) == frames
    ensures CallsNoted(CallsOf(s, k.stream, frames), k) == 0
  {
    if frames != [] {
      var front := frames[..|frames| - 1];
      CallsOfOut(s, k, front);
      assert CallsOf(s, k.stream, frames)[..|frames| - 1] == CallsOf(s, k.stream, front);
      assert frames == front + [frames[|frames| - 1]];
    }
  }

  function EntriesOf(peer: Caller, stream: nat, frames: seq<FrameKind>): seq<S.Entry> {
    seq(|frames|, i requires 0 <= i < |frames| => S.Responded(peer, Frame(stream, frames[i])))
  }

  lemma {:induction false} EntriesOfOut(peer: Caller, k: S.PeerKey, frames: seq<FrameKind>)
    requires S.KeyOf(peer, k.stream) == k
    ensures EntriesOut(EntriesOf(peer, k.stream, frames), k) == frames
    ensures EntriesNoted(EntriesOf(peer, k.stream, frames), k) == 0
  {
    if frames != [] {
      var front := frames[..|frames| - 1];
      EntriesOfOut(peer, k, front);
      assert EntriesOf(peer, k.stream, frames)[..|frames| - 1] == EntriesOf(peer, k.stream, front);
      assert frames == front + [frames[|frames| - 1]];
    }
  }

  /** A last frame is the last of the queue. */
  ghost predicate EndsOnce(queued: seq<FrameKind>) {
    && queued != [] && S.IsLast(queued[|queued| - 1])
    && forall i :: 0 <= i < |queued| - 1 ==> !S.IsLast(queued[i])
  }

  /** The stream after `frames` went out and `box` is left. */
  function SentOut(s: S.ServerState, k: S.PeerKey, frames: seq<FrameKind>, box: Box): S.ServerState
    requires k in s.outgoing
  {
    var o := s.outgoing[k];
    s.(outgoing := s.outgoing[k := o.(box := box)], log := s.log + EntriesOf(o.peer, k.stream, frames))
  }

  lemma SentOutMore(s: S.ServerState, k: S.PeerKey, rest: seq<FrameKind>, box: Box)
    requires k in s.outgoing && !Blocked(s.outgoing[k].box)
    ensures SentOut(S.SendNext(s, k), k, rest, box) ==
            SentOut(s, k, [s.outgoing[k].box.queued[0]] + rest, box)
  {
    var o, next := s.outgoing[k], S.SendNext(s, k);
    var first := S.Responded(o.peer, Frame(k.stream, o.box.queued[0]));
    assert EntriesOf(o.peer, k.stream, [o.box.queued[0]] + rest) == [first] + EntriesOf(o.peer, k.stream, rest);
    assert s.log + ([first] + EntriesOf(o.peer, k.stream, rest)) == next.log + EntriesOf(o.peer, k.stream, rest);
    assert next.outgoing[k := o.(box := box)] == s.outgoing[k := o.(box := box)];
  }

  lemma SentOutNone(s: S.ServerState, k: S.PeerKey)
    requires k in s.outgoing
    ensures SentOut(s, k, [], s.outgoing[k].box) == s
  {
    assert s.outgoing[k := s.outgoing[k]] == s.outgoing;
  }

  /** Sending what the credit allows either leaves frames queued, or sends the last and shuts. */
  lemma {:induction false} ServerFlushes(s: S.ServerState, k: S.PeerKey, host: Host)
    requires k in s.outgoing && Willing(host) && EndsOnce(s.outgoing[k].box.queued)
    ensures var box := s.outgoing[k].box;
            var sent := SentOut(s, k, SentBy(box), LeftBy(box));
            S.Flush(s, k, host).0 == if LeftBy(box).queued == [] then S.ShutDown(sent, k) else sent
    ensures LeftBy(s.outgoing[k].box).queued != [] ==> EndsOnce(LeftBy(s.outgoing[k].box).queued)
    decreases |s.outgoing[k].box.queued|
  {
    hide SentOut, S.ShutDown;
    var box := s.outgoing[k].box;
    if Blocked(box) {
      SentOutNone(s, k);
    } else {
      var next := S.SendNext(s, k);
      SentOutMore(s, k, SentBy(AfterNext(box)), LeftBy(AfterNext(box)));
      assert !host(|s.log|).RefusedNow?;
      assert AfterNext(box).queued == box.queued[1..];
      if |box.queued| == 1 {
        SentOutNone(next, k);
      } else {
        ServerFlushes(next, k, host);
      }
    }
  }
}
