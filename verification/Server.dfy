/** The serving side of internal HTTP: requests are put together from frames, every chunk read
    gives a note back, and responses leave through an `Outbox`.

    `ServerState` and its functions are the specification; class `Server` updates the same tables in
    place. The log holds what went out, with where a response opened and where it was shut. */
module Server {
  import opened Basics
  import opened Frames
  import opened Outbox

  datatype PeerKey = PeerKey(cid: u64, install: string, stream: nat)

  datatype Incoming = Incoming(caller: Caller, head: RequestHead, body: Bytes)

  datatype Outgoing = Outgoing(peer: Caller, box: Box)

  /** A served request, body complete. */
  datatype Request = Request(
    caller: Caller,
    stream: nat,
    verb: string,
    path: string,
    query: string,
    headers: Headers,
    body: Bytes)

  datatype Entry =
    | Opened(k: PeerKey)
    | Shut(k: PeerKey)
    | Responded(peer: Caller, frame: Frame)
    | Noted(peer: Caller, stream: nat)

  datatype ServerState = ServerState(
    handler: bool,
    incoming: map<PeerKey, Incoming>,
    outgoing: map<PeerKey, Outgoing>,
    log: seq<Entry>,
    served: seq<Request>)

  /** What the app may do with the server from inside the handler, or at any other time. */
  datatype ServerOp =
    | RespondOp(peer: Caller, stream: nat, status: u16, headers: Headers, body: Bytes)
    | ServeOp

  const CLOSED := Refused.Unavailable("the stream is closed")

  function KeyOf(c: Caller, stream: nat): PeerKey {
    PeerKey(c.cid, c.installId, stream)
  }

  // ---------------------------------------------------------------- what each operation does

  predicate Owns(s: ServerState, from: Caller, stream: nat) {
    KeyOf(from, stream) in s.incoming || KeyOf(from, stream) in s.outgoing
  }

  function ShutDown(s: ServerState, k: PeerKey): ServerState {
    if k in s.outgoing then s.(outgoing := s.outgoing - {k}, log := s.log + [Shut(k)]) else s
  }

  function IsLast(kind: FrameKind): bool {
    kind.End? || kind.Cancel?
  }

  function SendNext(s: ServerState, k: PeerKey): ServerState
    requires k in s.outgoing && !Blocked(s.outgoing[k].box)
  {
    var o := s.outgoing[k];
    s.(outgoing := s.outgoing[k := o.(box := AfterNext(o.box))],
       log := s.log + [Responded(o.peer, Frame(k.stream, o.box.queued[0]))])
  }

  /** Frames leave while credit lasts; the last frame out, or a refusal, shuts the stream. */
  function Flush(s: ServerState, k: PeerKey, host: Host): (ServerState, Result<(), Refused>)
    decreases if k in s.outgoing then |s.outgoing[k].box.queued| else 0
  {
    if k !in s.outgoing || Blocked(s.outgoing[k].box) then (s, Ok(()))
    else
      var next := SendNext(s, k);
      var last := IsLast(s.outgoing[k].box.queued[0]);
      match host(|s.log|)
      case RefusedNow(why) => (ShutDown(next, k), Err(why))
      case _ => if last then (ShutDown(next, k), Ok(())) else Flush(next, k, host)
  }

  function Respond(s: ServerState, peer: Caller, stream: nat, status: u16, headers: Headers, body: Bytes, host: Host)
    : (ServerState, Result<(), Refused>)
  {
    var k := KeyOf(peer, stream);
    if k !in s.outgoing then (s, Err(CLOSED))
    else
      var o := s.outgoing[k];
      var head := RespHead(ResponseHead(status, headers, Some(|body|)));
      Flush(s.(outgoing := s.outgoing[k := o.(box := Queued(o.box, head, body))]), k, host)
  }

  function Did(s: ServerState, op: ServerOp, host: Host): ServerState {
    match op
    case RespondOp(peer, stream, status, headers, body) => Respond(s, peer, stream, status, headers, body, host).0
    case ServeOp => s.(handler := true)
  }

  function DidAll(s: ServerState, ops: seq<ServerOp>, host: Host): ServerState
    decreases |ops|
  {
    if ops == [] then s else DidAll(Did(s, ops[0], host), ops[1..], host)
  }

  function RequestOf(inc: Incoming, stream: nat): Request {
    var h := inc.head;
    Request(inc.caller, stream, h.verb, h.path, h.query, h.headers, inc.body)
  }

  /** The request is complete: a response may be sent from here on. */
  function OpenedFor(s: ServerState, k: PeerKey, from: Caller): ServerState {
    s.(incoming := s.incoming - {k},
       outgoing := s.outgoing[k := Outgoing(from, EMPTY_BOX)],
       log := s.log + [Opened(k)])
  }

  /** The handler is taken while it runs; one installed meanwhile replaces it. */
  function Complete(s: ServerState, from: Caller, stream: nat, inner: seq<ServerOp>, host: Host): ServerState {
    var k := KeyOf(from, stream);
    if k !in s.incoming then s
    else
      var open := OpenedFor(s, k, from);
      if !s.handler then open
      else
        var request := RequestOf(s.incoming[k], stream);
        DidAll(open.(handler := false, served := open.served + [request]), inner, host).(handler := true)
  }

  /** A frame for the other side is given back. */
  predicate Claims(s: ServerState, frame: Frame) {
    if frame.kind.ReqHead? then s.handler else !frame.kind.RespHead?
  }

  function OnFrame(s: ServerState, from: Caller, frame: Frame, inner: seq<ServerOp>, host: Host): ServerState {
    var k := KeyOf(from, frame.stream);
    match frame.kind
    case ReqHead(head) =>
      if s.handler then s.(incoming := s.incoming[k := Incoming(from, head, [])]) else s
    case Body(bytes) =>
      if k in s.incoming
      then s.(incoming := s.incoming[k := s.incoming[k].(body := s.incoming[k].body + bytes)],
              log := s.log + [Noted(from, frame.stream)])
      else s
    case End => Complete(s, from, frame.stream, inner, host)
    case Cancel(_) => ShutDown(s.(incoming := s.incoming - {k}), k)
    case Credit(n) =>
      if k in s.outgoing
      then Flush(s.(outgoing := s.outgoing[k := s.outgoing[k].(box := Granted(s.outgoing[k].box, n))]), k, host).0
      else s
    case RespHead(_) => s
  }

  // ---------------------------------------------------------------- runs

  datatype Action =
    | FrameIn(from: Caller, frame: Frame, inner: seq<ServerOp>)
    | AppDid(op: ServerOp)
    | LateRefusal(k: PeerKey)

  function Apply(s: ServerState, a: Action, host: Host): ServerState {
    match a
    case FrameIn(from, frame, inner) => OnFrame(s, from, frame, inner, host)
    case AppDid(op) => Did(s, op, host)
    case LateRefusal(k) => ShutDown(s, k)
  }

  function AfterAll(s: ServerState, actions: seq<Action>, host: Host): ServerState
    decreases |actions|
  {
    if actions == [] then s else Apply(AfterAll(s, actions[..|actions| - 1], host), actions[|actions| - 1], host)
  }

  /** A server whose handler is installed and which has seen nothing yet. */
  const SERVING := ServerState(true, map[], map[], [], [])

  // ---------------------------------------------------------------- what a key's frames amount to

  /** What one key's frames have come to: the request being assembled, those complete, and the
      chunks read. */
  datatype Assembly = Assembly(open: Option<Incoming>, done: seq<Request>, read: nat)

  function Assembled(a: Assembly, from: Caller, frame: Frame): Assembly {
    match frame.kind
    case ReqHead(head) => a.(open := Some(Incoming(from, head, [])))
    case Body(bytes) =>
      if a.open.None? then a
      else a.(open := Some(a.open.value.(body := a.open.value.body + bytes)), read := a.read + 1)
    case End =>
      if a.open.None? then a
      else a.(open := None, done := a.done + [RequestOf(a.open.value, frame.stream)])
    case Cancel(_) => a.(open := None)
    case _ => a
  }

  /** Only the frames of key `k` count, whatever else happens between them. */
  function Expected(actions: seq<Action>, k: PeerKey): Assembly
    decreases |actions|
  {
    if actions == [] then Assembly(None, [], 0)
    else
      var before, a := Expected(actions[..|actions| - 1], k), actions[|actions| - 1];
      if a.FrameIn? && KeyOf(a.from, a.frame.stream) == k then Assembled(before, a.from, a.frame) else before
  }

  function ServedFor(served: seq<Request>, k: PeerKey): seq<Request> {
    if served == [] then []
    else
      var rest, last := ServedFor(served[..|served| - 1], k), served[|served| - 1];
      if KeyOf(last.caller, last.stream) == k then rest + [last] else rest
  }

  function NotedFor(log: seq<Entry>, k: PeerKey): nat {
    if log == [] then 0
    else
      var rest, last := NotedFor(log[..|log| - 1], k), log[|log| - 1];
      if last.Noted? && KeyOf(last.peer, last.stream) == k then rest + 1 else rest
  }

  lemma ServedSnoc(served: seq<Request>, r: Request, k: PeerKey)
    ensures ServedFor(served + [r], k) ==
            if KeyOf(r.caller, r.stream) == k then ServedFor(served, k) + [r] else ServedFor(served, k)
  {
    assert (served + [r])[..|served|] == served;
  }

  lemma NotedSnoc(log: seq<Entry>, e: Entry, k: PeerKey)
    ensures NotedFor(log + [e], k) ==
            NotedFor(log, k) + (if e.Noted? && KeyOf(e.peer, e.stream) == k then 1 else 0)
  {
    assert (log + [e])[..|log|] == log;
  }

  /** What sending and shutting leave alone. */
  ghost predicate SameRequests(s: ServerState, t: ServerState) {
    && t.incoming == s.incoming && t.served == s.served && t.handler == s.handler
    && (forall k :: NotedFor(t.log, k) == NotedFor(s.log, k))
  }

  lemma ShutDownSame(s: ServerState, k: PeerKey)
    ensures SameRequests(s, ShutDown(s, k))
  {
    forall j ensures NotedFor(ShutDown(s, k).log, j) == NotedFor(s.log, j) {
      NotedSnoc(s.log, Shut(k), j);
    }
  }

  lemma {:induction false} FlushSame(s: ServerState, k: PeerKey, host: Host)
    ensures SameRequests(s, Flush(s, k, host).0)
    decreases if k in s.outgoing then |s.outgoing[k].box.queued| else 0
  {
    hide NotedFor, ShutDown;
    if k in s.outgoing && !Blocked(s.outgoing[k].box) {
      var next := SendNext(s, k);
      forall j ensures NotedFor(next.log, j) == NotedFor(s.log, j) {
        NotedSnoc(s.log, Responded(s.outgoing[k].peer, Frame(k.stream, s.outgoing[k].box.queued[0])), j);
      }
      ShutDownSame(next, k);
      FlushSame(next, k, host);
    }
  }

  lemma DidSame(s: ServerState, op: ServerOp, host: Host)
    ensures SameRequests(s.(handler := op.ServeOp? || s.handler), Did(s, op, host))
  {
    hide NotedFor, Flush;
    match op
    case RespondOp(peer, stream, status, headers, body) =>
      var k := KeyOf(peer, stream);
      if k in s.outgoing {
        var o := s.outgoing[k];
        var head := RespHead(ResponseHead(status, headers, Some(|body|)));
        FlushSame(s.(outgoing := s.outgoing[k := o.(box := Queued(o.box, head, body))]), k, host);
      }
    case ServeOp =>
  }

  lemma {:induction false} DidAllSame(s: ServerState, ops: seq<ServerOp>, host: Host)
    ensures SameRequests(s.(handler := true), DidAll(s, ops, host).(handler := true))
    decreases |ops|
  {
    hide NotedFor, Did;
    if ops != [] {
      DidSame(s, ops[0], host);
      DidAllSame(Did(s, ops[0], host), ops[1..], host);
    }
  }

  /** The handler is installed and every request in assembly is keyed by its own caller. */
  ghost predicate Serving(s: ServerState) {
    && s.handler
    && (forall k :: k in s.incoming ==> KeyOf(s.incoming[k].caller, k.stream) == k)
  }

  /** For key `k` the tables hold exactly what its frames amount to. */
  ghost predicate Holds(s: ServerState, k: PeerKey, a: Assembly) {
    && (if k in s.incoming then a.open == Some(s.incoming[k]) else a.open.None?)
    && ServedFor(s.served, k) == a.done
    && NotedFor(s.log, k) == a.read
  }

  lemma OnFrameHolds(s: ServerState, from: Caller, frame: Frame, inner: seq<ServerOp>, host: Host, k: PeerKey,
      a: Assembly)
    requires Serving(s) && Holds(s, k, a)
    ensures Serving(OnFrame(s, from, frame, inner, host))
    ensures Holds(OnFrame(s, from, frame, inner, host), k,
                  if KeyOf(from, frame.stream) == k then Assembled(a, from, frame) else a)
  {
    hide NotedFor, ServedFor, Flush, DidAll, ShutDown;
    var j := KeyOf(from, frame.stream);
    match frame.kind
    case ReqHead(_) =>
    case Body(_) => NotedSnoc(s.log, Noted(from, frame.stream), k);
    case End => if j in s.incoming { CompleteHolds(s, from, frame, inner, host, k, a); }
    case Cancel(_) => ShutDownSame(s.(incoming := s.incoming - {j}), j);
    case Credit(n) =>
      if j in s.outgoing {
        FlushSame(s.(outgoing := s.outgoing[j := s.outgoing[j].(box := Granted(s.outgoing[j].box, n))]), j, host);
      }
    case RespHead(_) =>
  }

  lemma CompleteHolds(s: ServerState, from: Caller, frame: Frame, inner: seq<ServerOp>, host: Host, k: PeerKey,
      a: Assembly)
    requires Serving(s) && Holds(s, k, a) && frame.kind.End? && KeyOf(from, frame.stream) in s.incoming
    ensures var t := Complete(s, from, frame.stream, inner, host);
            && Serving(t)
            && Holds(t, k, if KeyOf(from, frame.stream) == k then Assembled(a, from, frame) else a)
  {
    hide NotedFor, ServedFor, DidAll;
    var j := KeyOf(from, frame.stream);
    var open, request := OpenedFor(s, j, from), RequestOf(s.incoming[j], frame.stream);
    ServedSnoc(s.served, request, k);
    NotedSnoc(s.log, Opened(j), k);
    DidAllSame(open.(handler := false, served := open.served + [request]), inner, host);
  }

  lemma {:induction false} EveryRunHolds(actions: seq<Action>, host: Host, k: PeerKey)
    ensures Serving(AfterAll(SERVING, actions, host))
    ensures Holds(AfterAll(SERVING, actions, host), k, Expected(actions, k))
    decreases |actions|
  {
    hide NotedFor, ServedFor, OnFrame, Did, ShutDown;
    if actions == [] {
      NothingServed(k);
    } else {
      var front, a := actions[..|actions| - 1], actions[|actions| - 1];
      EveryRunHolds(front, host, k);
      var s := AfterAll(SERVING, front, host);
      match a
      case FrameIn(from, frame, inner) => OnFrameHolds(s, from, frame, inner, host, k, Expected(front, k));
      case AppDid(op) => DidSame(s, op, host);
      case LateRefusal(j) => ShutDownSame(s, j);
    }
  }

  lemma NothingServed(k: PeerKey)
    ensures ServedFor([], k) == [] && NotedFor([], k) == 0
  {
  }

  /** Over every run, for every key: the handler has been given exactly the requests the key's own
      frames make up, in order, and one chunk was noted for each body frame taken; the frames of
      other keys, responses, refusals and whatever the app does change none of it. */
  lemma HandlerGetsExactlyTheRequests(actions: seq<Action>, host: Host, k: PeerKey)
    ensures var s := AfterAll(SERVING, actions, host);
            && ServedFor(s.served, k) == Expected(actions, k).done
            && NotedFor(s.log, k) == Expected(actions, k).read
  {
    EveryRunHolds(actions, host, k);
  }

  predicate IsFrame(a: Action, k: PeerKey) {
    a.FrameIn? && KeyOf(a.from, a.frame.stream) == k
  }

  /** The body bytes of key `k`'s frames, in order. */
  function BodyFor(actions: seq<Action>, k: PeerKey): Bytes {
    if actions == [] then []
    else
      var rest, a := BodyFor(actions[..|actions| - 1], k), actions[|actions| - 1];
      if IsFrame(a, k) && a.frame.kind.Body? then rest + a.frame.kind.bytes else rest
  }

  function BodiesFor(actions: seq<Action>, k: PeerKey): nat {
    if actions == [] then 0
    else
      var rest, a := BodiesFor(actions[..|actions| - 1], k), actions[|actions| - 1];
      if IsFrame(a, k) && a.frame.kind.Body? then rest + 1 else rest
  }

  /** Between a head and what follows only body and credit frames come for `k`. */
  ghost predicate OnlyBodies(actions: seq<Action>, k: PeerKey) {
    forall i :: 0 <= i < |actions| && IsFrame(actions[i], k) ==>
      !(actions[i].frame.kind.ReqHead? || actions[i].frame.kind.End? || actions[i].frame.kind.Cancel?)
  }

  lemma {:induction false} AssembledSoFar(before: seq<Action>, head: Action, between: seq<Action>, k: PeerKey)
    requires IsFrame(head, k) && head.frame.kind.ReqHead? && OnlyBodies(between, k)
    ensures Expected(before + [head] + between, k) ==
            Assembly(Some(Incoming(head.from, head.frame.kind.request, BodyFor(between, k))),
                     Expected(before, k).done, Expected(before, k).read + BodiesFor(between, k))
    decreases |between|
  {
    if between == [] {
      assert before + [head] + between == before + [head];
      assert (before + [head])[..|before|] == before;
    } else {
      var front := between[..|between| - 1];
      AssembledSoFar(before, head, front, k);
      var all := before + [head] + between;
      assert all[..|all| - 1] == before + [head] + front;
      assert all[|all| - 1] == between[|between| - 1];
    }
  }

  /** A head followed by an end, with no cancel, end or newer head of the same key between, whatever
      else is, gives exactly one more handler call: the head's request, with the body frames between
      as its body, one chunk noted for each. */
  lemma OneRequestOneCall(before: seq<Action>, head: Action, between: seq<Action>, end: Action, host: Host, k: PeerKey)
    requires IsFrame(head, k) && head.frame.kind.ReqHead?
    requires OnlyBodies(between, k)
    requires IsFrame(end, k) && end.frame.kind.End?
    ensures var was := AfterAll(SERVING, before, host);
            var now := AfterAll(SERVING, before + [head] + between + [end], host);
            var h := head.frame.kind.request;
            var request := Request(head.from, k.stream, h.verb, h.path, h.query, h.headers, BodyFor(between, k));
            && ServedFor(now.served, k) == ServedFor(was.served, k) + [request]
            && NotedFor(now.log, k) == NotedFor(was.log, k) + BodiesFor(between, k)
  {
    hide AfterAll, ServedFor, NotedFor;
    var all := before + [head] + between + [end];
    assert all[..|all| - 1] == before + [head] + between;
    AssembledSoFar(before, head, between, k);
    HandlerGetsExactlyTheRequests(before, host, k);
    HandlerGetsExactlyTheRequests(all, host, k);
  }

  // ---------------------------------------------------------------- what goes out, and when

  function OpenAfter(open: set<PeerKey>, e: Entry): set<PeerKey> {
    match e
    case Opened(k) => open + {k}
    case Shut(k) => open - {k}
    case Responded(peer, frame) => if IsLast(frame.kind) then open - {KeyOf(peer, frame.stream)} else open
    case Noted(_, _) => open
  }

  /** The keys a log leaves open: opened by a complete request, shut by a refusal or a cancel, and
      by the response's own last frame. */
  function OpenIn(log: seq<Entry>): set<PeerKey> {
    if log == [] then {} else OpenAfter(OpenIn(log[..|log| - 1]), log[|log| - 1])
  }

  /** Every frame goes out on a key that was open. */
  ghost predicate WellSent(log: seq<Entry>) {
    forall p :: 0 <= p < |log| && log[p].Responded? ==> KeyOf(log[p].peer, log[p].frame.stream) in OpenIn(log[..p])
  }

  ghost predicate Sends(s: ServerState) {
    && OpenIn(s.log) == s.outgoing.Keys
    && WellSent(s.log)
    && (forall k :: k in s.outgoing ==> KeyOf(s.outgoing[k].peer, k.stream) == k)
  }

  lemma OpenSnoc(log: seq<Entry>, e: Entry)
    ensures OpenIn(log + [e]) == OpenAfter(OpenIn(log), e)
  {
    assert (log + [e])[..|log|] == log;
  }

  lemma SentSnoc(log: seq<Entry>, e: Entry)
    requires WellSent(log)
    requires e.Responded? ==> KeyOf(e.peer, e.frame.stream) in OpenIn(log)
    ensures WellSent(log + [e])
  {
    forall p | 0 <= p < |log + [e]| && (log + [e])[p].Responded?
      ensures KeyOf((log + [e])[p].peer, (log + [e])[p].frame.stream) in OpenIn((log + [e])[..p])
    {
      assert (log + [e])[..p] == if p < |log| then log[..p] else log;
    }
  }

  lemma ShutDownSends(s: ServerState, k: PeerKey)
    requires WellSent(s.log) && OpenIn(s.log) - {k} == s.outgoing.Keys - {k}
    requires k in s.outgoing || k !in OpenIn(s.log)
    requires forall j :: j in s.outgoing ==> KeyOf(s.outgoing[j].peer, j.stream) == j
    ensures Sends(ShutDown(s, k))
  {
    hide OpenIn, WellSent;
    OpenSnoc(s.log, Shut(k));
    SentSnoc(s.log, Shut(k));
    if k !in s.outgoing {
      assert OpenIn(s.log) == OpenIn(s.log) - {k} && s.outgoing.Keys == s.outgoing.Keys - {k};
    }
  }

  lemma SendNextSends(s: ServerState, k: PeerKey)
    requires Sends(s) && k in s.outgoing && !Blocked(s.outgoing[k].box)
    ensures var t := SendNext(s, k);
            && WellSent(t.log) && t.outgoing.Keys == s.outgoing.Keys
            && (forall j :: j in t.outgoing ==> KeyOf(t.outgoing[j].peer, j.stream) == j)
            && OpenIn(t.log) == if IsLast(s.outgoing[k].box.queued[0]) then t.outgoing.Keys - {k} else t.outgoing.Keys
  {
    hide OpenIn, WellSent;
    var e := Responded(s.outgoing[k].peer, Frame(k.stream, s.outgoing[k].box.queued[0]));
    OpenSnoc(s.log, e);
    SentSnoc(s.log, e);
  }

  lemma {:induction false} FlushSends(s: ServerState, k: PeerKey, host: Host)
    requires Sends(s)
    ensures Sends(Flush(s, k, host).0)
    decreases if k in s.outgoing then |s.outgoing[k].box.queued| else 0
  {
    hide OpenIn, WellSent, ShutDown;
    if k in s.outgoing && !Blocked(s.outgoing[k].box) {
      var next := SendNext(s, k);
      SendNextSends(s, k);
      ShutDownSends(next, k);
      if !IsLast(s.outgoing[k].box.queued[0]) {
        FlushSends(next, k, host);
      }
    }
  }

  lemma RespondSends(s: ServerState, op: ServerOp, host: Host)
    requires Sends(s)
    ensures Sends(Did(s, op, host))
  {
    hide OpenIn, WellSent, Flush;
    match op
    case RespondOp(peer, stream, status, headers, body) =>
      var k := KeyOf(peer, stream);
      if k in s.outgoing {
        var o := s.outgoing[k];
        var head := RespHead(ResponseHead(status, headers, Some(|body|)));
        var t := s.(outgoing := s.outgoing[k := o.(box := Queued(o.box, head, body))]);
        assert t.outgoing.Keys == s.outgoing.Keys;
        FlushSends(t, k, host);
      }
    case ServeOp =>
  }

  lemma {:induction false} DidAllSends(s: ServerState, ops: seq<ServerOp>, host: Host)
    requires Sends(s)
    ensures Sends(DidAll(s, ops, host))
    decreases |ops|
  {
    hide Sends, Did;
    if ops != [] {
      RespondSends(s, ops[0], host);
      DidAllSends(Did(s, ops[0], host), ops[1..], host);
    }
  }

  lemma OnFrameSends(s: ServerState, from: Caller, frame: Frame, inner: seq<ServerOp>, host: Host)
    requires Sends(s)
    ensures Sends(OnFrame(s, from, frame, inner, host))
  {
    hide OpenIn, WellSent, Flush, DidAll, ShutDown;
    var k := KeyOf(from, frame.stream);
    match frame.kind
    case ReqHead(_) =>
    case Body(_) =>
      OpenSnoc(s.log, Noted(from, frame.stream));
      SentSnoc(s.log, Noted(from, frame.stream));
    case End =>
      if k in s.incoming {
        var open := OpenedFor(s, k, from);
        OpenSnoc(s.log, Opened(k));
        SentSnoc(s.log, Opened(k));
        assert open.outgoing.Keys == s.outgoing.Keys + {k};
        DidAllSends(open.(handler := false, served := open.served + [RequestOf(s.incoming[k], frame.stream)]), inner,
                    host);
      }
    case Cancel(_) => ShutDownSends(s.(incoming := s.incoming - {k}), k);
    case Credit(n) =>
      if k in s.outgoing {
        var t := s.(outgoing := s.outgoing[k := s.outgoing[k].(box := Granted(s.outgoing[k].box, n))]);
        assert t.outgoing.Keys == s.outgoing.Keys;
        FlushSends(t, k, host);
      }
    case RespHead(_) =>
  }

  lemma {:induction false} EveryRunSends(actions: seq<Action>, host: Host)
    ensures Sends(AfterAll(SERVING, actions, host))
    decreases |actions|
  {
    hide WellSent, OnFrame, Did, ShutDown;
    if actions == [] {
      NothingSent();
    } else {
      var front, a := actions[..|actions| - 1], actions[|actions| - 1];
      EveryRunSends(front, host);
      var s := AfterAll(SERVING, front, host);
      match a
      case FrameIn(from, frame, inner) => OnFrameSends(s, from, frame, inner, host);
      case AppDid(op) => RespondSends(s, op, host);
      case LateRefusal(k) => ShutDownSends(s, k);
    }
  }

  lemma NothingSent()
    ensures WellSent([])
  {
  }

  lemma {:induction false} OpenedBetween(log: seq<Entry>, k: PeerKey, p: nat, q: nat)
    requires p <= q <= |log| && k !in OpenIn(log[..p]) && k in OpenIn(log[..q])
    ensures exists m :: p <= m < q && log[m] == Opened(k)
  {
    if p < q {
      assert log[..q][..q - 1] == log[..q - 1];
      if log[q - 1] != Opened(k) {
        OpenedBetween(log, k, p, q - 1);
      }
    }
  }

  /** Over every run: once a response ended, was refused or was cancelled, nothing more goes out on
      its key until another request on that key completes. */
  lemma NothingAfterTheEnd(actions: seq<Action>, host: Host, k: PeerKey, p: nat, q: nat)
    requires p < q < |AfterAll(SERVING, actions, host).log|
    requires var e := AfterAll(SERVING, actions, host).log[p];
             e == Shut(k) || (e.Responded? && IsLast(e.frame.kind) && KeyOf(e.peer, e.frame.stream) == k)
    requires var e := AfterAll(SERVING, actions, host).log[q];
             e.Responded? && KeyOf(e.peer, e.frame.stream) == k
    ensures exists m :: p < m < q && AfterAll(SERVING, actions, host).log[m] == Opened(k)
  {
    hide AfterAll;
    var log := AfterAll(SERVING, actions, host).log;
    EveryRunSends(actions, host);
    assert log[..p + 1] == log[..p] + [log[p]];
    OpenSnoc(log[..p], log[p]);
    OpenedBetween(log, k, p + 1, q);
  }

  // ---------------------------------------------------------------- the source's own form

  class Server {
    var handler: bool
    var incoming: map<PeerKey, Incoming>
    var outgoing: map<PeerKey, Outgoing>
    var log: seq<Entry>
    /** The requests the handler was given. */
    var served: seq<Request>

    ghost function State(): ServerState
      reads this
    {
      ServerState(handler, incoming, outgoing, log, served)
    }

    constructor ()
      ensures State() == SERVING.(handler := false)
    {
      handler, incoming, outgoing, log, served := false, map[], map[], [], [];
    }

    method Serve()
      modifies this
      ensures State() == old(State()).(handler := true)
    {
      handler := true;
    }

    method Close(k: PeerKey)
      modifies this
      ensures State() == ShutDown(old(State()), k)
    {
      if k in outgoing {
        outgoing := outgoing - {k};
        log := log + [Shut(k)];
      }
    }

    method FlushStream(k: PeerKey, host: Host) returns (result: Result<(), Refused>)
      modifies this
      ensures (State(), result) == Flush(old(State()), k, host)
    {
      hide AfterNext, Blocked;
      ghost var was := State();
      while true
        invariant Flush(State(), k, host) == Flush(was, k, host)
        decreases if k in outgoing then |outgoing[k].box.queued| else 0
      {
        if k !in outgoing || Blocked(outgoing[k].box) {
          return Ok(());
        }
        ghost var now := State();
        NextShrinks(outgoing[k].box);
        var o := outgoing[k];
        var kind := o.box.queued[0];
        outgoing := outgoing[k := o.(box := AfterNext(o.box))];
        var answer := host(|log|);
        log := log + [Responded(o.peer, Frame(k.stream, kind))];
        assert State() == SendNext(now, k);
        if answer.RefusedNow? {
          Close(k);
          return Err(answer.why);
        }
        if IsLast(kind) {
          Close(k);
          return Ok(());
        }
      }
    }

    method RespondWith(peer: Caller, stream: nat, status: u16, headers: Headers, body: Bytes, host: Host)
      returns (result: Result<(), Refused>)
      modifies this
      ensures (State(), result) == Respond(old(State()), peer, stream, status, headers, body, host)
    {
      hide Flush, Queued;
      var k := KeyOf(peer, stream);
      if k !in outgoing {
        return Err(CLOSED);
      }
      var head := RespHead(ResponseHead(status, headers, Some(|body|)));
      outgoing := outgoing[k := outgoing[k].(box := Queued(outgoing[k].box, head, body))];
      result := FlushStream(k, host);
    }

    /** What the app does while its handler runs. */
    method Inside(ops: seq<ServerOp>, host: Host)
      modifies this
      ensures State() == DidAll(old(State()), ops, host)
    {
      hide Respond;
      ghost var was := State();
      for n := 0 to |ops|
        invariant DidAll(State(), ops[n..], host) == DidAll(was, ops, host)
      {
        assert ops[n..][0] == ops[n] && ops[n..][1..] == ops[n + 1..];
        match ops[n]
        case RespondOp(peer, stream, status, headers, body) =>
          var _ := RespondWith(peer, stream, status, headers, body, host);
        case ServeOp => Serve();
      }
    }

    method CompleteRequest(from: Caller, stream: nat, inner: seq<ServerOp>, host: Host)
      modifies this
      ensures State() == Complete(old(State()), from, stream, inner, host)
    {
      hide DidAll;
      var k := KeyOf(from, stream);
      if k !in incoming {
        return;
      }
      var request := RequestOf(incoming[k], stream);
      incoming := incoming - {k};
      outgoing := outgoing[k := Outgoing(from, EMPTY_BOX)];
      log := log + [Opened(k)];
      if handler {
        handler := false;
        served := served + [request];
        Inside(inner, host);
        handler := true;
      }
    }

    /** A server-side frame; false gives the frame back. */
    method FrameIn(from: Caller, frame: Frame, inner: seq<ServerOp>, host: Host) returns (claimed: bool)
      modifies this
      ensures claimed == Claims(old(State()), frame)
      ensures State() == OnFrame(old(State()), from, frame, inner, host)
    {
      hide Flush, Complete, Granted, ShutDown;
      var k := KeyOf(from, frame.stream);
      claimed := true;
      match frame.kind
      case ReqHead(head) =>
        if !handler {
          return false;
        }
        incoming := incoming[k := Incoming(from, head, [])];
      case Body(bytes) =>
        if k in incoming {
          incoming := incoming[k := incoming[k].(body := incoming[k].body + bytes)];
          log := log + [Noted(from, frame.stream)];
        }
      case End => CompleteRequest(from, frame.stream, inner, host);
      case Cancel(_) =>
        incoming := incoming - {k};
        Close(k);
      case Credit(n) =>
        if k in outgoing {
          outgoing := outgoing[k := outgoing[k].(box := Granted(outgoing[k].box, n))];
          var _ := FlushStream(k, host);
        }
      case RespHead(_) => claimed := false;
    }
  }
}
