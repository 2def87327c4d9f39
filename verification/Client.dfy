/** The calling side of internal HTTP: a table of open streams, each with what waits to be sent and
    the sink its response frames go to.

    A sink is taken out of its stream while it runs, so the app may open and cancel streams from
    inside it, its own included. `ClientState` and its functions are the specification; class
    `Clients` updates the same table in place. */
module Client {
  import opened Basics
  import opened Frames
  import opened Outbox

  datatype Key = Key(appId: string, stream: nat)

  /** `sink` says whether the stream holds its sink, or the sink is out, running. */
  datatype Stream = Stream(to: Address, transport: Transport, sink: bool, box: Box)

  datatype Outbound = Outbound(verb: string, path: string, query: string, headers: Headers, body: Bytes)

  /** A host call: a frame to the server, or the note that one response chunk was read. */
  datatype Call =
    | Sent(to: Address, frame: Frame, transport: Transport)
    | Consumed(peer: Caller, stream: nat)

  datatype ClientState = ClientState(
    last: nat,
    streams: map<Key, Stream>,
    ready: seq<(Key, ClientEvent)>,
    sent: seq<Call>,
    seen: map<Key, seq<ClientEvent>>,
    orphans: set<Key>)

  /** What the app may do from inside a sink. */
  datatype AppOp =
    | OpenOp(to: Address, transport: Transport, request: Outbound)
    | CancelOp(k: Key)

  const CALLER := "caller"

  /** The refusal a stream's `Cancel` ends a call with. */
  function RefusalOf(reason: string): Refused {
    if reason == "timeout" then Limit("time")
    else if reason == "too_large" then Limit("bytes")
    else if reason == "busy" then Limit("streams")
    else if reason == "rate_limited" then Limit("rate")
    else if reason == "protocol" then Policy("protocol")
    else Unavailable(reason)
  }

  // ---------------------------------------------------------------- what each operation does

  function AppIdOf(to: Address): string {
    to.appId
  }

  function ScopeKeyOf(to: Address): string {
    match to
    case User(_, _) => ""
    case Scope(_, scopeKey) => scopeKey
  }

  function HeadOf(to: Address, request: Outbound): FrameKind {
    ReqHead(RequestHead(request.verb, request.path, request.query, request.headers,
                        Some(|request.body|), AppIdOf(to), ScopeKeyOf(to)))
  }

  /** End the stream with `event`: its sink, if it is not out running, is queued to run later. */
  function Finish(s: ClientState, k: Key, event: ClientEvent): ClientState {
    if k !in s.streams then s
    else if s.streams[k].sink then s.(streams := s.streams - {k}, ready := s.ready + [(k, event)])
    else s.(streams := s.streams - {k}, orphans := s.orphans + {k})
  }

  function WithBox(s: ClientState, k: Key, box: Box): ClientState
    requires k in s.streams
  {
    s.(streams := s.streams[k := s.streams[k].(box := box)])
  }

  /** Take the next frame the credit allows and give it to the host. */
  function SendNext(s: ClientState, k: Key): ClientState
    requires k in s.streams && !Blocked(s.streams[k].box)
  {
    var t := s.streams[k];
    WithBox(s, k, AfterNext(t.box)).(sent := s.sent + [Sent(t.to, Frame(k.stream, t.box.queued[0]), t.transport)])
  }

  function Flush(s: ClientState, k: Key, host: Host): ClientState
    decreases if k in s.streams then |s.streams[k].box.queued| else 0
  {
    if k !in s.streams || Blocked(s.streams[k].box) then s
    else
      var next := SendNext(s, k);
      match host(|s.sent|)
      case RefusedNow(why) => Finish(next, k, FailedEvent(why))
      case _ => Flush(next, k, host)
  }

  function NextKey(s: ClientState, to: Address): Key {
    Key(AppIdOf(to), s.last + 1)
  }

  function Inserted(s: ClientState, to: Address, transport: Transport, request: Outbound): ClientState {
    var k := NextKey(s, to);
    s.(last := s.last + 1,
       streams := s.streams[k := Stream(to, transport, true, Queued(EMPTY_BOX, HeadOf(to, request), request.body))],
       seen := s.seen[k := []])
  }

  function Open(s: ClientState, to: Address, transport: Transport, request: Outbound, host: Host): ClientState {
    Flush(Inserted(s, to, transport, request), NextKey(s, to), host)
  }

  /** The app cancels a stream of its own: the server is told, and the sink's last event is a failure. */
  function Cancelled(s: ClientState, k: Key): ClientState {
    if k !in s.streams then s
    else
      var t := s.streams[k];
      Finish(s.(sent := s.sent + [Sent(t.to, Frame(k.stream, Cancel(CALLER)), t.transport)]),
             k, FailedEvent(RefusalOf(CALLER)))
  }

  function Did(s: ClientState, op: AppOp, host: Host): ClientState {
    match op
    case OpenOp(to, transport, request) => Open(s, to, transport, request, host)
    case CancelOp(k) => Cancelled(s, k)
  }

  function DidAll(s: ClientState, ops: seq<AppOp>, host: Host): ClientState
    decreases |ops|
  {
    if ops == [] then s else DidAll(Did(s, ops[0], host), ops[1..], host)
  }

  /** The sink is taken and runs with `event`. */
  function SinkTaken(s: ClientState, k: Key, event: ClientEvent): ClientState
    requires k in s.streams && k in s.seen
  {
    s.(streams := s.streams[k := s.streams[k].(sink := false)],
       seen := s.seen[k := s.seen[k] + [event]])
  }

  /** The sink goes back, unless the stream is gone; after the last event the stream goes too. */
  function SinkBack(s: ClientState, k: Key, last: bool): ClientState {
    if last then s.(streams := s.streams - {k})
    else if k in s.streams then s.(streams := s.streams[k := s.streams[k].(sink := true)])
    else s
  }

  function Deliver(s: ClientState, k: Key, event: ClientEvent, last: bool, inner: seq<AppOp>, host: Host): ClientState
    requires k in s.streams ==> k in s.seen
  {
    if k !in s.streams || !s.streams[k].sink then s
    else SinkBack(DidAll(SinkTaken(s, k, event), inner, host), k, last)
  }

  /** Whether a frame is one of this instance's own streams'. */
  predicate Claims(s: ClientState, from: Caller, frame: Frame) {
    Key(from.appId, frame.stream) in s.streams && !frame.kind.ReqHead?
  }

  function OnFrame(s: ClientState, from: Caller, frame: Frame, inner: seq<AppOp>, host: Host): ClientState
    requires s.streams.Keys <= s.seen.Keys
  {
    var k := Key(from.appId, frame.stream);
    if !Claims(s, from, frame) then s
    else
      match frame.kind
      case RespHead(head) => Deliver(s, k, HeadEvent(head, from.via), false, inner, host)
      case Body(bytes) =>
        var next := Deliver(s, k, BodyEvent(bytes), false, inner, host);
        next.(sent := next.sent + [Consumed(from, k.stream)])
      case End => Deliver(s, k, EndEvent, true, inner, host)
      case Cancel(reason) => Deliver(s, k, FailedEvent(RefusalOf(reason)), true, inner, host)
      case Credit(n) => Flush(WithBox(s, k, Granted(s.streams[k].box, n)), k, host)
      case ReqHead(_) => s
  }

  /** Run the first queued sink with its last event, and what the app does inside it. */
  function RanTask(s: ClientState, inner: seq<AppOp>, host: Host): ClientState
    requires forall j :: 0 <= j < |s.ready| ==> s.ready[j].0 in s.seen
  {
    if s.ready == [] then s
    else
      var k := s.ready[0].0;
      DidAll(s.(ready := s.ready[1..], seen := s.seen[k := s.seen[k] + [s.ready[0].1]]), inner, host)
  }

  // ---------------------------------------------------------------- what every operation keeps

  /** A terminal event is the last. */
  ghost predicate WellEnded(events: seq<ClientEvent>) {
    forall i :: 0 <= i < |events| - 1 ==> !events[i].Terminal()
  }

  predicate Ended(events: seq<ClientEvent>) {
    events != [] && events[|events| - 1].Terminal()
  }

  ghost predicate ReadyIs(s: ClientState, k: Key) {
    exists j :: 0 <= j < |s.ready| && s.ready[j].0 == k
  }

  /** Every key is one this instance opened, numbered up to `last`. */
  ghost predicate Known(s: ClientState) {
    && s.streams.Keys <= s.seen.Keys
    && (forall k :: k in s.seen ==> k.stream <= s.last)
    && (forall j :: 0 <= j < |s.ready| ==> s.ready[j].0 in s.seen && s.ready[j].1.Terminal())
  }

  /** Each sink is in one place: with its open stream, queued to run its last event, or out. */
  ghost predicate Sinks(s: ClientState, out: Option<Key>) {
    && (forall k :: k in s.streams ==> (s.streams[k].sink <==> out != Some(k)))
    && (forall a, b :: 0 <= a < b < |s.ready| ==> s.ready[a].0 != s.ready[b].0)
    && (forall j :: 0 <= j < |s.ready| ==> s.ready[j].0 !in s.streams && out != Some(s.ready[j].0))
  }

  /** A sink that can still run has seen no terminal event, and no sink saw anything after one. */
  ghost predicate Quiet(s: ClientState, out: Option<Key>) {
    && (forall k :: k in s.seen ==> WellEnded(s.seen[k]))
    && (forall k :: k in s.streams && out != Some(k) && k in s.seen ==> !Ended(s.seen[k]))
    && (forall j :: 0 <= j < |s.ready| && s.ready[j].0 in s.seen ==> !Ended(s.seen[s.ready[j].0]))
  }

  /** Nothing is lost: a sink's stream is open, its last event is queued or was seen, or the sink
      was dropped when its own stream was cancelled while it ran. */
  ghost predicate Accounted(s: ClientState) {
    forall k :: k in s.seen ==> k in s.streams || ReadyIs(s, k) || Ended(s.seen[k]) || k in s.orphans
  }

  ghost predicate ClientInv(s: ClientState, out: Option<Key>) {
    Known(s) && Sinks(s, out) && Quiet(s, out) && Accounted(s)
  }

  lemma FinishKeeps(s: ClientState, k: Key, event: ClientEvent, out: Option<Key>)
    requires ClientInv(s, out) && event.Terminal()
    ensures ClientInv(Finish(s, k, event), out)
    ensures Finish(s, k, event).seen == s.seen
  {
    if k in s.streams {
      var t := Finish(s, k, event);
      if s.streams[k].sink {
        FinishAccounted(s, t, k, event);
      }
      assert Sinks(t, out);
    }
  }

  lemma FinishAccounted(s: ClientState, t: ClientState, k: Key, event: ClientEvent)
    requires Accounted(s)
    requires t == s.(streams := s.streams - {k}, ready := s.ready + [(k, event)])
    ensures Accounted(t)
  {
    forall j | j in t.seen
      ensures j in t.streams || ReadyIs(t, j) || Ended(t.seen[j]) || j in t.orphans
    {
      if j == k {
        assert t.ready[|s.ready|].0 == k;
      } else if ReadyIs(s, j) {
        var i :| 0 <= i < |s.ready| && s.ready[i].0 == j;
        assert t.ready[i].0 == j;
      }
    }
  }

  /** Sending frames touches a stream's outbox and the calls made, nothing a sink depends on. */
  lemma SendKeeps(s: ClientState, k: Key, box: Box, sent: seq<Call>, out: Option<Key>)
    requires ClientInv(s, out) && k in s.streams
    ensures ClientInv(WithBox(s, k, box).(sent := sent), out)
  {
    var t := WithBox(s, k, box).(sent := sent);
    assert t.streams.Keys == s.streams.Keys;
    forall j | j in t.seen ensures ReadyIs(s, j) ==> ReadyIs(t, j) {
      if ReadyIs(s, j) {
        var i :| 0 <= i < |s.ready| && s.ready[i].0 == j;
        assert t.ready[i].0 == j;
      }
    }
  }

  lemma {:induction false} FlushKeeps(s: ClientState, k: Key, host: Host, out: Option<Key>)
    requires ClientInv(s, out)
    ensures ClientInv(Flush(s, k, host), out)
    ensures Flush(s, k, host).seen == s.seen
    decreases if k in s.streams then |s.streams[k].box.queued| else 0
  {
    hide ClientInv, Finish;
    if k in s.streams && !Blocked(s.streams[k].box) {
      var t := s.streams[k];
      var next := SendNext(s, k);
      SendKeeps(s, k, AfterNext(t.box), next.sent, out);
      match host(|s.sent|)
      case RefusedNow(why) => FinishKeeps(next, k, FailedEvent(why), out);
      case _ => FlushKeeps(next, k, host, out);
    }
  }

  lemma InsertKeeps(s: ClientState, to: Address, transport: Transport, request: Outbound, out: Option<Key>)
    requires ClientInv(s, out) && (out.Some? ==> out.value in s.seen)
    ensures ClientInv(Inserted(s, to, transport, request), out)
    ensures NextKey(s, to) !in s.seen
  {
    var k, t := NextKey(s, to), Inserted(s, to, transport, request);
    assert t.streams.Keys == s.streams.Keys + {k};
    forall j | j in s.seen ensures ReadyIs(s, j) ==> ReadyIs(t, j) {
      if ReadyIs(s, j) {
        var i :| 0 <= i < |s.ready| && s.ready[i].0 == j;
        assert t.ready[i].0 == j;
      }
    }
  }

  /** Whatever the app does inside a sink, no sink that ran before hears anything of it. */
  lemma DidKeeps(s: ClientState, op: AppOp, host: Host, out: Option<Key>)
    requires ClientInv(s, out) && (out.Some? ==> out.value in s.seen)
    ensures ClientInv(Did(s, op, host), out)
    ensures s.seen.Keys <= Did(s, op, host).seen.Keys
    ensures forall k :: k in s.seen ==> Did(s, op, host).seen[k] == s.seen[k]
  {
    hide ClientInv, Finish, Flush;
    match op
    case OpenOp(to, transport, request) =>
      InsertKeeps(s, to, transport, request, out);
      FlushKeeps(Inserted(s, to, transport, request), NextKey(s, to), host, out);
    case CancelOp(k) =>
      CancelKeeps(s, k, out);
  }

  lemma CancelKeeps(s: ClientState, k: Key, out: Option<Key>)
    requires ClientInv(s, out)
    ensures ClientInv(Cancelled(s, k), out) && Cancelled(s, k).seen == s.seen
  {
    hide ClientInv, Finish;
    if k in s.streams {
      var t := s.streams[k];
      var sent := s.sent + [Sent(t.to, Frame(k.stream, Cancel(CALLER)), t.transport)];
      SendKeeps(s, k, t.box, sent, out);
      SameStream(s, k);
      FinishKeeps(s.(sent := sent), k, FailedEvent(RefusalOf(CALLER)), out);
    }
  }

  lemma SameStream(s: ClientState, k: Key)
    requires k in s.streams
    ensures WithBox(s, k, s.streams[k].box) == s
  {
  }

  lemma {:induction false} DidAllKeeps(s: ClientState, ops: seq<AppOp>, host: Host, out: Option<Key>)
    requires ClientInv(s, out) && (out.Some? ==> out.value in s.seen)
    ensures var t := DidAll(s, ops, host);
            && ClientInv(t, out) && s.seen.Keys <= t.seen.Keys
            && (forall k :: k in s.seen ==> t.seen[k] == s.seen[k])
    decreases |ops|
  {
    hide ClientInv, Did;
    if ops != [] {
      DidKeeps(s, ops[0], host, out);
      DidAllKeeps(Did(s, ops[0], host), ops[1..], host, out);
    }
  }

  lemma TakeKeeps(s: ClientState, k: Key, event: ClientEvent)
    requires ClientInv(s, None) && k in s.streams
    ensures ClientInv(SinkTaken(s, k, event), Some(k))
  {
    var t := SinkTaken(s, k, event);
    assert t.streams.Keys == s.streams.Keys;
    forall j | j in t.seen
      ensures WellEnded(t.seen[j])
      ensures j in t.streams || ReadyIs(t, j) || Ended(t.seen[j]) || j in t.orphans
    {
      if j != k && ReadyIs(s, j) {
        var i :| 0 <= i < |s.ready| && s.ready[i].0 == j;
        assert t.ready[i].0 == j;
      }
    }
  }

  lemma BackKeeps(s: ClientState, k: Key, last: bool)
    requires ClientInv(s, Some(k)) && k in s.seen
    requires last <==> Ended(s.seen[k])
    ensures ClientInv(SinkBack(s, k, last), None)
  {
    var t := SinkBack(s, k, last);
    forall j | j in t.seen
      ensures j in t.streams || ReadyIs(t, j) || Ended(t.seen[j]) || j in t.orphans
    {
      if ReadyIs(s, j) {
        var i :| 0 <= i < |s.ready| && s.ready[i].0 == j;
        assert t.ready[i].0 == j;
      }
    }
  }

  lemma DeliverKeeps(s: ClientState, k: Key, event: ClientEvent, last: bool, inner: seq<AppOp>, host: Host)
    requires ClientInv(s, None) && k in s.streams && last == event.Terminal()
    ensures k in s.seen && ClientInv(Deliver(s, k, event, last, inner, host), None)
    ensures var t := Deliver(s, k, event, last, inner, host);
            && s.seen.Keys <= t.seen.Keys && t.seen[k] == s.seen[k] + [event]
            && (forall j :: j in s.seen && j != k ==> t.seen[j] == s.seen[j])
  {
    hide Quiet, Accounted, DidAll;
    var u := SinkTaken(s, k, event);
    TakeKeeps(s, k, event);
    DidAllKeeps(u, inner, host, Some(k));
    BackKeeps(DidAll(u, inner, host), k, last);
  }

  lemma OnFrameKeeps(s: ClientState, from: Caller, frame: Frame, inner: seq<AppOp>, host: Host)
    requires ClientInv(s, None)
    ensures s.streams.Keys <= s.seen.Keys
    ensures ClientInv(OnFrame(s, from, frame, inner, host), None)
  {
    hide Sinks, Quiet, Accounted, Deliver, Flush;
    var k := Key(from.appId, frame.stream);
    if Claims(s, from, frame) {
      match frame.kind
      case RespHead(head) => DeliverKeeps(s, k, HeadEvent(head, from.via), false, inner, host);
      case Body(bytes) =>
        DeliverKeeps(s, k, BodyEvent(bytes), false, inner, host);
        CallsAside(Deliver(s, k, BodyEvent(bytes), false, inner, host), from, k);
      case End => DeliverKeeps(s, k, EndEvent, true, inner, host);
      case Cancel(reason) => DeliverKeeps(s, k, FailedEvent(RefusalOf(reason)), true, inner, host);
      case Credit(n) =>
        var box := Granted(s.streams[k].box, n);
        SendKeeps(s, k, box, s.sent, None);
        FlushKeeps(WithBox(s, k, box), k, host, None);
    }
  }

  lemma CallsAside(s: ClientState, from: Caller, k: Key)
    requires ClientInv(s, None)
    ensures ClientInv(s.(sent := s.sent + [Consumed(from, k.stream)]), None)
  {
    var t := s.(sent := s.sent + [Consumed(from, k.stream)]);
    forall j | j in t.seen ensures ReadyIs(s, j) ==> ReadyIs(t, j) {
      if ReadyIs(s, j) {
        var i :| 0 <= i < |s.ready| && s.ready[i].0 == j;
        assert t.ready[i].0 == j;
      }
    }
  }

  lemma RanTaskKeeps(s: ClientState, inner: seq<AppOp>, host: Host)
    requires ClientInv(s, None)
    ensures ClientInv(RanTask(s, inner, host), None)
  {
    hide DidAll;
    if s.ready != [] {
      PopKeeps(s);
      var k := s.ready[0].0;
      DidAllKeeps(s.(ready := s.ready[1..], seen := s.seen[k := s.seen[k] + [s.ready[0].1]]), inner, host, None);
    }
  }

  lemma PopKeeps(s: ClientState)
    requires ClientInv(s, None) && s.ready != []
    ensures var k := s.ready[0].0;
            ClientInv(s.(ready := s.ready[1..], seen := s.seen[k := s.seen[k] + [s.ready[0].1]]), None)
  {
    var k := s.ready[0].0;
    var t := s.(ready := s.ready[1..], seen := s.seen[k := s.seen[k] + [s.ready[0].1]]);
    forall j | j in t.seen
      ensures j in t.streams || ReadyIs(t, j) || Ended(t.seen[j]) || j in t.orphans
    {
      if j != k && ReadyIs(s, j) {
        var i :| 0 <= i < |s.ready| && s.ready[i].0 == j;
        assert t.ready[i - 1].0 == j;
      }
    }
  }

  // ---------------------------------------------------------------- runs

  /** What can happen to the table: the app opens and cancels, frames arrive, a frame's refusal
      arrives late, and the executor runs a queued sink. */
  datatype Action =
    | AppDid(op: AppOp)
    | FrameIn(from: Caller, frame: Frame, inner: seq<AppOp>)
    | LateRefusal(k: Key, why: Refused)
    | TaskRan(inner: seq<AppOp>)

  function Apply(s: ClientState, a: Action, host: Host): ClientState {
    match a
    case AppDid(op) => Did(s, op, host)
    case FrameIn(from, frame, inner) =>
      if s.streams.Keys <= s.seen.Keys then OnFrame(s, from, frame, inner, host) else s
    case LateRefusal(k, why) => Finish(s, k, FailedEvent(why))
    case TaskRan(inner) =>
      if forall j :: 0 <= j < |s.ready| ==> s.ready[j].0 in s.seen then RanTask(s, inner, host) else s
  }

  function AfterAll(s: ClientState, actions: seq<Action>, host: Host): ClientState
    decreases |actions|
  {
    if actions == [] then s else AfterAll(Apply(s, actions[0], host), actions[1..], host)
  }

  const NO_STREAMS := ClientState(0, map[], [], [], map[], {})

  lemma ApplyKeeps(s: ClientState, a: Action, host: Host)
    requires ClientInv(s, None)
    ensures ClientInv(Apply(s, a, host), None)
  {
    hide Sinks, Quiet, Accounted, Did, OnFrame, Finish, RanTask;
    match a
    case AppDid(op) => DidKeeps(s, op, host, None);
    case FrameIn(from, frame, inner) => OnFrameKeeps(s, from, frame, inner, host);
    case LateRefusal(k, why) => FinishKeeps(s, k, FailedEvent(why), None);
    case TaskRan(inner) => RanTaskKeeps(s, inner, host);
  }

  lemma {:induction false} EveryRunKeeps(s: ClientState, actions: seq<Action>, host: Host)
    requires ClientInv(s, None)
    ensures ClientInv(AfterAll(s, actions, host), None)
    decreases |actions|
  {
    hide ClientInv, Apply;
    if actions != [] {
      ApplyKeeps(s, actions[0], host);
      EveryRunKeeps(Apply(s, actions[0], host), actions[1..], host);
    }
  }

  /** Over every run, whatever the host answers and whatever the app does inside its sinks: a sink
      sees at most one End or Failed, and nothing after it. */
  lemma AtMostOneEndAndLast(actions: seq<Action>, host: Host, k: Key)
    requires k in AfterAll(NO_STREAMS, actions, host).seen
    ensures var events := AfterAll(NO_STREAMS, actions, host).seen[k];
            forall i :: 0 <= i < |events| - 1 ==> !events[i].Terminal()
  {
    EveryRunKeeps(NO_STREAMS, actions, host);
    hide Sinks, Accounted, Known;
  }

  // ---------------------------------------------------------------- cancelled from inside its own sink

  /** Out of the table with nothing queued: nothing can reach this sink any more. */
  ghost predicate Gone(s: ClientState, k: Key) {
    k in s.seen && k !in s.streams && !ReadyIs(s, k)
  }

  /** Gone without an end. */
  ghost predicate Silent(s: ClientState, k: Key) {
    Gone(s, k) && !Ended(s.seen[k])
  }

  /** A head or a chunk is delivered on `k`, and the app cancels `k` while its sink runs with it. */
  predicate CancelsItself(s: ClientState, a: Action, k: Key) {
    && a.FrameIn? && Key(a.from.appId, a.frame.stream) == k && k in s.streams
    && (a.frame.kind.RespHead? || a.frame.kind.Body?)
    && CancelOp(k) in a.inner
  }

  /** That happens somewhere in a run. */
  predicate CancelledItself(s: ClientState, actions: seq<Action>, host: Host, k: Key)
    decreases |actions|
  {
    && actions != []
    && (CancelsItself(s, actions[0], k) || CancelledItself(Apply(s, actions[0], host), actions[1..], host, k))
  }

  /** What is gone in `s` is gone in `t` and has seen no more. */
  ghost predicate StillGone(s: ClientState, t: ClientState, k: Key) {
    Gone(s, k) ==> Gone(t, k) && t.seen[k] == s.seen[k]
  }

  lemma FinishGone(s: ClientState, j: Key, event: ClientEvent, k: Key)
    requires Gone(s, k)
    ensures Gone(Finish(s, j, event), k)
  {
    var t := Finish(s, j, event);
    forall i | 0 <= i < |t.ready| ensures t.ready[i].0 != k {
      assert i < |s.ready| ==> s.ready[i] == t.ready[i];
    }
  }

  lemma SameGone(s: ClientState, t: ClientState, k: Key)
    requires Gone(s, k) && t.ready == s.ready && t.streams.Keys <= s.streams.Keys && k in t.seen
    ensures Gone(t, k)
  {
  }

  lemma {:induction false} FlushGone(s: ClientState, j: Key, host: Host, k: Key)
    requires Gone(s, k)
    ensures Gone(Flush(s, j, host), k) && Flush(s, j, host).seen == s.seen
    decreases if j in s.streams then |s.streams[j].box.queued| else 0
  {
    hide Gone, Finish;
    if j in s.streams && !Blocked(s.streams[j].box) {
      var next := SendNext(s, j);
      GoneIs(s, k);
      SameGone(s, next, k);
      match host(|s.sent|)
      case RefusedNow(why) =>
        FinishGone(next, j, FailedEvent(why), k);
        FinishSeesNothing(next, j, FailedEvent(why));
      case _ => FlushGone(next, j, host, k);
    }
  }

  lemma GoneIs(s: ClientState, k: Key)
    requires Gone(s, k)
    ensures k in s.seen && k !in s.streams
  {
  }

  lemma FinishSeesNothing(s: ClientState, k: Key, event: ClientEvent)
    ensures Finish(s, k, event).seen == s.seen && Finish(s, k, event).last == s.last
  {
  }

  /** What the app does cannot bring a sink that is gone back. */
  lemma DidGone(s: ClientState, op: AppOp, host: Host, k: Key)
    requires Gone(s, k) && Known(s)
    ensures Gone(Did(s, op, host), k) && Did(s, op, host).seen[k] == s.seen[k]
  {
    hide Finish, Flush, Queued;
    match op
    case OpenOp(to, transport, request) =>
      var t := Inserted(s, to, transport, request);
      assert NextKey(s, to) != k;
      assert forall i :: 0 <= i < |t.ready| ==> t.ready[i] == s.ready[i];
      FlushGone(t, NextKey(s, to), host, k);
    case CancelOp(j) =>
      if j in s.streams {
        var t := s.(sent := s.sent + [Sent(s.streams[j].to, Frame(j.stream, Cancel(CALLER)), s.streams[j].transport)]);
        SameGone(s, t, k);
        FinishGone(t, j, FailedEvent(RefusalOf(CALLER)), k);
        FinishSeesNothing(t, j, FailedEvent(RefusalOf(CALLER)));
      }
  }

  lemma {:induction false} DidAllGone(s: ClientState, ops: seq<AppOp>, host: Host, k: Key, out: Option<Key>)
    requires Gone(s, k) && ClientInv(s, out) && (out.Some? ==> out.value in s.seen)
    ensures Gone(DidAll(s, ops, host), k) && DidAll(s, ops, host).seen[k] == s.seen[k]
    decreases |ops|
  {
    hide Gone, Sinks, Quiet, Accounted, Did;
    GoneIs(s, k);
    if ops != [] {
      DidKeeps(s, ops[0], host, out);
      DidGone(s, ops[0], host, k);
      DidAllGone(Did(s, ops[0], host), ops[1..], host, k, out);
    }
  }

  /** A sink is dropped only while it is out, and only by a cancel of its own stream. */
  lemma DidDrops(s: ClientState, op: AppOp, host: Host, out: Option<Key>)
    requires ClientInv(s, out) && (out.Some? ==> out.value in s.seen)
    ensures var t := Did(s, op, host);
            if out.Some? && out.value in s.streams && op == CancelOp(out.value)
            then t.orphans == s.orphans + {out.value} && Gone(t, out.value)
            else t.orphans == s.orphans && (out.Some? ==> (out.value in t.streams <==> out.value in s.streams))
  {
    hide Quiet, Accounted, Queued;
    match op
    case OpenOp(to, transport, request) =>
      var t, j := Inserted(s, to, transport, request), NextKey(s, to);
      assert out != Some(j);
      FlushDropsNothing(t, j, host, out);
    case CancelOp(j) =>
  }

  lemma {:induction false} FlushDropsNothing(s: ClientState, j: Key, host: Host, out: Option<Key>)
    requires out != Some(j) && (j in s.streams ==> s.streams[j].sink)
    ensures Flush(s, j, host).orphans == s.orphans
    ensures out.Some? ==> (out.value in Flush(s, j, host).streams <==> out.value in s.streams)
    decreases if j in s.streams then |s.streams[j].box.queued| else 0
  {
    if j in s.streams && !Blocked(s.streams[j].box) {
      FlushDropsNothing(SendNext(s, j), j, host, out);
    }
  }

  lemma {:induction false} DidAllDrops(s: ClientState, ops: seq<AppOp>, host: Host, out: Option<Key>)
    requires ClientInv(s, out) && (out.Some? ==> out.value in s.seen)
    ensures var t := DidAll(s, ops, host);
            if out.Some? && out.value in s.streams && CancelOp(out.value) in ops
            then t.orphans == s.orphans + {out.value} && Gone(t, out.value)
            else t.orphans == s.orphans
    decreases |ops|
  {
    hide ClientInv, Did, Gone;
    if ops != [] {
      var t := Did(s, ops[0], host);
      DidKeeps(s, ops[0], host, out);
      DidDrops(s, ops[0], host, out);
      DidAllDrops(t, ops[1..], host, out);
      assert out.Some?
             ==> (CancelOp(out.value) in ops <==> ops[0] == CancelOp(out.value) || CancelOp(out.value) in ops[1..]);
      if out.Some? && out.value in s.streams && ops[0] == CancelOp(out.value) {
        GoneIs(t, out.value);
        DidAllGone(t, ops[1..], host, out.value, out);
      }
    }
  }

  /** The frames that run a sink. */
  predicate RunsSink(s: ClientState, a: Action, k: Key) {
    && a.FrameIn? && Key(a.from.appId, a.frame.stream) == k && k in s.streams
    && (a.frame.kind.RespHead? || a.frame.kind.Body? || a.frame.kind.End? || a.frame.kind.Cancel?)
  }

  lemma DeliverDrops(s: ClientState, k: Key, event: ClientEvent, last: bool, inner: seq<AppOp>, host: Host)
    requires ClientInv(s, None) && k in s.streams && last == event.Terminal()
    ensures k in s.seen
    ensures var t := Deliver(s, k, event, last, inner, host);
            && k in t.seen && t.seen[k] == s.seen[k] + [event]
            && (if CancelOp(k) in inner then t.orphans == s.orphans + {k} && Gone(t, k) else t.orphans == s.orphans)
    ensures forall j :: StillGone(s, Deliver(s, k, event, last, inner, host), j)
  {
    hide Quiet, Accounted, DidAll, Gone;
    var u := SinkTaken(s, k, event);
    TakeKeeps(s, k, event);
    DidAllKeeps(u, inner, host, Some(k));
    DidAllDrops(u, inner, host, Some(k));
    var v := DidAll(u, inner, host);
    if CancelOp(k) in inner {
      GoneIs(v, k);
      SameGone(v, SinkBack(v, k, last), k);
    }
    forall j | Gone(s, j) ensures StillGone(s, SinkBack(v, k, last), j) {
      GoneIs(s, j);
      SameGone(s, u, j);
      DidAllGone(u, inner, host, j, Some(k));
      GoneIs(v, j);
      SameGone(v, SinkBack(v, k, last), j);
    }
  }

  /** What a frame drops, and that what is gone stays so. */
  lemma FrameDrops(s: ClientState, from: Caller, frame: Frame, inner: seq<AppOp>, host: Host)
    requires ClientInv(s, None)
    ensures s.streams.Keys <= s.seen.Keys
    ensures var t, k := OnFrame(s, from, frame, inner, host), Key(from.appId, frame.stream);
            && (if RunsSink(s, FrameIn(from, frame, inner), k) && CancelOp(k) in inner
                then t.orphans == s.orphans + {k} && Gone(t, k) else t.orphans == s.orphans)
            && (RunsSink(s, FrameIn(from, frame, inner), k) ==>
                  && k in s.seen && k in t.seen && |t.seen[k]| == |s.seen[k]| + 1
                  && (t.seen[k][|s.seen[k]|].Terminal() <==> frame.kind.End? || frame.kind.Cancel?))
            && (forall j :: StillGone(s, t, j))
  {
    hide Quiet, Accounted, Deliver, Flush, Gone;
    var k := Key(from.appId, frame.stream);
    if Claims(s, from, frame) {
      match frame.kind
      case RespHead(head) => DeliverDrops(s, k, HeadEvent(head, from.via), false, inner, host);
      case Body(bytes) =>
        DeliverDrops(s, k, BodyEvent(bytes), false, inner, host);
        var u := Deliver(s, k, BodyEvent(bytes), false, inner, host);
        NotedGone(u, Consumed(from, k.stream));
        forall j ensures StillGone(s, OnFrame(s, from, frame, inner, host), j) {
          assert StillGone(s, u, j);
        }
      case End => DeliverDrops(s, k, EndEvent, true, inner, host);
      case Cancel(reason) => DeliverDrops(s, k, FailedEvent(RefusalOf(reason)), true, inner, host);
      case Credit(n) =>
        var u := WithBox(s, k, Granted(s.streams[k].box, n));
        FlushDropsNothing(u, k, host, None);
        forall j | Gone(s, j) ensures StillGone(s, Flush(u, k, host), j) {
          GoneIs(s, j);
          SameGone(s, u, j);
          FlushGone(u, k, host, j);
        }
    }
  }

  lemma NotedGone(s: ClientState, call: Call)
    ensures forall j :: Gone(s.(sent := s.sent + [call]), j) <==> Gone(s, j)
  {
    var t := s.(sent := s.sent + [call]);
    forall j ensures Gone(t, j) <==> Gone(s, j) {
      if Gone(s, j) {
        SameGone(s, t, j);
      }
      if Gone(t, j) {
        SameGone(t, s, j);
      }
    }
  }

  /** One action: a sink is dropped only by a cancel from inside itself, and what is gone stays so. */
  lemma ActionDrops(s: ClientState, a: Action, host: Host)
    requires ClientInv(s, None)
    ensures var t := Apply(s, a, host);
            && (forall j :: j in t.orphans <==> j in s.orphans || (RunsSink(s, a, j) && CancelOp(j) in a.inner))
            && (forall j :: RunsSink(s, a, j) && CancelOp(j) in a.inner ==>
                  Gone(t, j) && j in s.seen
                  && (Ended(t.seen[j]) <==> a.frame.kind.End? || a.frame.kind.Cancel?)
                  && |t.seen[j]| == |s.seen[j]| + 1)
            && (forall j :: StillGone(s, t, j))
  {
    hide Quiet, Accounted, Did, OnFrame, Finish, DidAll, Gone;
    match a
    case AppDid(op) =>
      DidDrops(s, op, host, None);
      forall j | Gone(s, j) ensures StillGone(s, Did(s, op, host), j) {
        DidGone(s, op, host, j);
      }
    case FrameIn(from, frame, inner) => FrameDrops(s, from, frame, inner, host);
    case LateRefusal(k, why) =>
      RefusalDropsNothing(s, k, why);
    case TaskRan(inner) => TaskDropsNothing(s, inner, host);
  }

  lemma RefusalDropsNothing(s: ClientState, k: Key, why: Refused)
    requires ClientInv(s, None)
    ensures var t := Finish(s, k, FailedEvent(why));
            t.orphans == s.orphans && forall j :: StillGone(s, t, j)
  {
    hide Gone;
    forall j | Gone(s, j) ensures StillGone(s, Finish(s, k, FailedEvent(why)), j) {
      GoneIs(s, j);
      FinishGone(s, k, FailedEvent(why), j);
    }
  }

  lemma TaskDropsNothing(s: ClientState, inner: seq<AppOp>, host: Host)
    requires ClientInv(s, None)
    ensures var t := RanTask(s, inner, host);
            t.orphans == s.orphans && forall j :: StillGone(s, t, j)
  {
    hide Quiet, Accounted, DidAll, Gone;
    if s.ready != [] {
      var k := s.ready[0].0;
      var u := s.(ready := s.ready[1..], seen := s.seen[k := s.seen[k] + [s.ready[0].1]]);
      PopKeeps(s);
      DidAllDrops(u, inner, host, None);
      forall j | Gone(s, j) ensures StillGone(s, DidAll(u, inner, host), j) {
        PoppedGone(s, j);
        DidAllGone(u, inner, host, j, None);
      }
    }
  }

  lemma PoppedGone(s: ClientState, j: Key)
    requires Gone(s, j) && s.ready != [] && s.ready[0].0 in s.seen
    ensures var k := s.ready[0].0;
            k != j && Gone(s.(ready := s.ready[1..], seen := s.seen[k := s.seen[k] + [s.ready[0].1]]), j)
  {
    assert forall i :: 0 <= i < |s.ready| ==> s.ready[i].0 != j;
  }

  /** Every dropped sink is gone. */
  ghost predicate DropsGone(s: ClientState) {
    forall k :: k in s.orphans ==> Gone(s, k)
  }

  /** One action makes a sink silent exactly when its stream cancels itself; silence lasts. */
  lemma ActionSilences(s: ClientState, a: Action, host: Host, k: Key)
    requires ClientInv(s, None) && DropsGone(s)
    ensures var t := Apply(s, a, host);
            && ClientInv(t, None) && DropsGone(t)
            && (Silent(t, k) <==> Silent(s, k) || CancelsItself(s, a, k))
            && StillGone(s, t, k)
            && (CancelsItself(s, a, k) ==> k in s.seen && |t.seen[k]| == |s.seen[k]| + 1)
  {
    hide ClientInv, Apply, Gone, Ended;
    var t := Apply(s, a, host);
    ApplyKeeps(s, a, host);
    ActionDrops(s, a, host);
    forall j | j in t.orphans ensures Gone(t, j) {
      assert StillGone(s, t, j);
    }
    assert StillGone(s, t, k);
    if Silent(t, k) {
      SilentIsDropped(t, k);
      assert k in s.orphans ==> Silent(s, k);
      assert k !in s.orphans ==> CancelsItself(s, a, k);
    }
    if CancelsItself(s, a, k) {
      assert RunsSink(s, a, k);
    }
  }

  /** Whatever is gone without an end was dropped. */
  lemma SilentIsDropped(s: ClientState, k: Key)
    requires ClientInv(s, None) && Silent(s, k)
    ensures k in s.orphans
  {
    hide Known, Sinks, Quiet, Ended;
    GoneMeans(s, k);
  }

  lemma GoneMeans(s: ClientState, k: Key)
    requires Gone(s, k)
    ensures k in s.seen && k !in s.streams && !ReadyIs(s, k)
  {
  }

  lemma {:induction false} RunSilences(s: ClientState, actions: seq<Action>, host: Host, k: Key)
    requires ClientInv(s, None) && DropsGone(s)
    ensures var t := AfterAll(s, actions, host);
            && (Silent(t, k) <==> Silent(s, k) || CancelledItself(s, actions, host, k))
            && StillGone(s, t, k)
    decreases |actions|
  {
    hide ClientInv, Apply, DropsGone, Silent, Gone, CancelsItself;
    if actions != [] {
      GoneSeen(s, k);
      ActionSilences(s, actions[0], host, k);
      RunSilences(Apply(s, actions[0], host), actions[1..], host, k);
    }
  }

  lemma GoneSeen(s: ClientState, k: Key)
    ensures Gone(s, k) ==> k in s.seen
  {
  }

  /** Over every run, between actions: a stream still open, or whose last event is still queued, has
      seen no end. Every other one has seen exactly one, except exactly those a head or chunk was
      delivered on with a cancel of that same stream among what the app did inside the sink. */
  lemma EveryStreamIsAccountedFor(actions: seq<Action>, host: Host, k: Key)
    requires k in AfterAll(NO_STREAMS, actions, host).seen
    ensures var s := AfterAll(NO_STREAMS, actions, host);
            && (k in s.streams ==> s.streams[k].sink && !ReadyIs(s, k) && !Ended(s.seen[k]))
            && (ReadyIs(s, k) ==> k !in s.streams && !Ended(s.seen[k]))
            && (k !in s.streams && !ReadyIs(s, k) && !Ended(s.seen[k])
                <==> CancelledItself(NO_STREAMS, actions, host, k))
  {
    EveryRunKeeps(NO_STREAMS, actions, host);
    RunSilences(NO_STREAMS, actions, host, k);
  }

  /** A stream that cancels itself is out of the table with nothing queued, its sink has seen what it
      was running with and never sees anything after, over every later run. The server is told. */
  lemma OwnCancelIsSilent(before: seq<Action>, a: Action, later: seq<Action>, host: Host, k: Key)
    requires CancelsItself(AfterAll(NO_STREAMS, before, host), a, k)
    ensures var s := AfterAll(NO_STREAMS, before, host);
            var t := AfterAll(Apply(s, a, host), later, host);
            && Silent(t, k) && k in s.seen && |t.seen[k]| == |s.seen[k]| + 1
            && k in Apply(s, a, host).seen && t.seen[k] == Apply(s, a, host).seen[k]
            && Sent(s.streams[k].to, Frame(k.stream, Cancel(CALLER)), s.streams[k].transport) in Apply(s, a, host).sent
  {
    hide ClientInv, Apply, Silent, CancelsItself;
    var s := AfterAll(NO_STREAMS, before, host);
    var t := Apply(s, a, host);
    NothingYet();
    EveryRunKeeps(NO_STREAMS, before, host);
    DropsAreGone(NO_STREAMS, before, host);
    ActionSilences(s, a, host, k);
    SilentIsGone(t, k);
    RunSilences(t, later, host, k);
    ServerIsTold(s, a, host, k);
  }

  lemma NothingYet()
    ensures ClientInv(NO_STREAMS, None) && DropsGone(NO_STREAMS)
  {
  }

  lemma SilentIsGone(s: ClientState, k: Key)
    requires Silent(s, k)
    ensures Gone(s, k) && k in s.seen
  {
  }

  lemma {:induction false} DropsAreGone(s: ClientState, actions: seq<Action>, host: Host)
    requires ClientInv(s, None) && DropsGone(s)
    ensures DropsGone(AfterAll(s, actions, host))
    decreases |actions|
  {
    hide ClientInv, Apply, DropsGone, Silent, Gone, CancelsItself;
    if actions != [] {
      ActionSilences(s, actions[0], host, Key("", 0));
      DropsAreGone(Apply(s, actions[0], host), actions[1..], host);
    }
  }

  /** Calls made are never unmade. */
  lemma {:induction false} FlushAddsCalls(s: ClientState, k: Key, host: Host)
    ensures s.sent <= Flush(s, k, host).sent
    ensures forall j :: j != k ==> (j in Flush(s, k, host).streams <==> j in s.streams)
    ensures forall j :: j != k && j in s.streams ==> Flush(s, k, host).streams[j] == s.streams[j]
    decreases if k in s.streams then |s.streams[k].box.queued| else 0
  {
    if k in s.streams && !Blocked(s.streams[k].box) {
      FlushAddsCalls(SendNext(s, k), k, host);
    }
  }

  lemma {:induction false} DidAllTells(s: ClientState, ops: seq<AppOp>, host: Host, k: Key)
    requires k.stream <= s.last
    ensures s.sent <= DidAll(s, ops, host).sent
    ensures k in s.streams && CancelOp(k) in ops ==>
              Sent(s.streams[k].to, Frame(k.stream, Cancel(CALLER)), s.streams[k].transport)
              in DidAll(s, ops, host).sent
    decreases |ops|
  {
    hide Queued;
    if ops != [] {
      match ops[0] {
        case OpenOp(to, transport, request) =>
          FlushAddsCalls(Inserted(s, to, transport, request), NextKey(s, to), host);
          FlushCounts(Inserted(s, to, transport, request), NextKey(s, to), host);
        case CancelOp(j) =>
      }
      assert CancelOp(k) in ops <==> ops[0] == CancelOp(k) || CancelOp(k) in ops[1..];
      var u := Did(s, ops[0], host);
      DidAllTells(u, ops[1..], host, k);
      if k in s.streams && ops[0] == CancelOp(k) {
        var call := Sent(s.streams[k].to, Frame(k.stream, Cancel(CALLER)), s.streams[k].transport);
        assert u.sent[|s.sent|] == call;
        StillIn(call, u.sent, DidAll(s, ops, host).sent);
      }
    }
  }

  lemma StillIn(call: Call, before: seq<Call>, after: seq<Call>)
    requires call in before && before <= after
    ensures call in after
  {
    var i :| 0 <= i < |before| && before[i] == call;
    assert after[i] == call;
  }

  lemma {:induction false} FlushCounts(s: ClientState, k: Key, host: Host)
    ensures Flush(s, k, host).last == s.last
    decreases if k in s.streams then |s.streams[k].box.queued| else 0
  {
    if k in s.streams && !Blocked(s.streams[k].box) {
      FlushCounts(SendNext(s, k), k, host);
    }
  }

  lemma ServerIsTold(s: ClientState, a: Action, host: Host, k: Key)
    requires ClientInv(s, None) && CancelsItself(s, a, k)
    ensures Sent(s.streams[k].to, Frame(k.stream, Cancel(CALLER)), s.streams[k].transport) in Apply(s, a, host).sent
  {
    hide Quiet, Accounted, DidAll;
    assert a.frame == Frame(k.stream, a.frame.kind);
    var event := if a.frame.kind.RespHead? then HeadEvent(a.frame.kind.response, a.from.via)
                 else BodyEvent(a.frame.kind.bytes);
    DidAllTells(SinkTaken(s, k, event), a.inner, host, k);
  }

  // ---------------------------------------------------------------- the source's own form

  class Clients {
    var last: nat
    var streams: map<Key, Stream>
    /** The sinks queued with the executor, each with its last event. */
    var ready: seq<(Key, ClientEvent)>
    var sent: seq<Call>
    ghost var seen: map<Key, seq<ClientEvent>>
    ghost var orphans: set<Key>

    ghost function State(): ClientState
      reads this
    {
      ClientState(last, streams, ready, sent, seen, orphans)
    }

    constructor ()
      ensures State() == NO_STREAMS
    {
      last, streams, ready, sent, seen, orphans := 0, map[], [], [], map[], {};
    }

    method FinishStream(k: Key, event: ClientEvent)
      modifies this
      ensures State() == Finish(old(State()), k, event)
    {
      if k in streams {
        var stream := streams[k];
        streams := streams - {k};
        if stream.sink {
          ready := ready + [(k, event)];
        } else {
          orphans := orphans + {k};
        }
      }
    }

    method FlushStream(k: Key, host: Host)
      modifies this
      ensures State() == Flush(old(State()), k, host)
    {
      hide AfterNext, Blocked;
      ghost var was := State();
      while true
        invariant Flush(State(), k, host) == Flush(was, k, host)
        decreases if k in streams then |streams[k].box.queued| else 0
      {
        if k !in streams || Blocked(streams[k].box) {
          return;
        }
        ghost var now := State();
        NextShrinks(streams[k].box);
        var stream := streams[k];
        streams := streams[k := stream.(box := AfterNext(stream.box))];
        var answer := host(|sent|);
        sent := sent + [Sent(stream.to, Frame(k.stream, stream.box.queued[0]), stream.transport)];
        assert State() == SendNext(now, k);
        if answer.RefusedNow? {
          FinishStream(k, FailedEvent(answer.why));
          return;
        }
      }
    }

    method OpenStream(to: Address, transport: Transport, request: Outbound, host: Host) returns (k: Key)
      modifies this
      ensures k == NextKey(old(State()), to)
      ensures State() == Open(old(State()), to, transport, request, host)
    {
      hide Flush, Queued;
      ghost var was := State();
      var box := Queued(EMPTY_BOX, HeadOf(to, request), request.body);
      last := last + 1;
      k := Key(AppIdOf(to), last);
      streams := streams[k := Stream(to, transport, true, box)];
      seen := seen[k := []];
      assert State() == Inserted(was, to, transport, request);
      FlushStream(k, host);
    }

    method CancelStream(k: Key)
      modifies this
      ensures State() == Cancelled(old(State()), k)
    {
      hide Finish;
      if k !in streams {
        return;
      }
      var stream := streams[k];
      sent := sent + [Sent(stream.to, Frame(k.stream, Cancel(CALLER)), stream.transport)];
      FinishStream(k, FailedEvent(RefusalOf(CALLER)));
    }

    /** What the app does while its sink runs. */
    method Inside(ops: seq<AppOp>, host: Host)
      modifies this
      ensures State() == DidAll(old(State()), ops, host)
    {
      hide Open, Cancelled;
      ghost var was := State();
      for n := 0 to |ops|
        invariant DidAll(State(), ops[n..], host) == DidAll(was, ops, host)
      {
        assert ops[n..][0] == ops[n] && ops[n..][1..] == ops[n + 1..];
        match ops[n]
        case OpenOp(to, transport, request) => var _ := OpenStream(to, transport, request, host);
        case CancelOp(k) => CancelStream(k);
      }
    }

    method DeliverTo(k: Key, event: ClientEvent, last: bool, inner: seq<AppOp>, host: Host)
      requires k in streams ==> k in seen
      modifies this
      ensures State() == Deliver(old(State()), k, event, last, inner, host)
    {
      hide DidAll;
      ghost var was := State();
      if k !in streams || !streams[k].sink {
        return;
      }
      streams := streams[k := streams[k].(sink := false)];
      seen := seen[k := seen[k] + [event]];
      assert State() == SinkTaken(was, k, event);
      Inside(inner, host);
      if last {
        streams := streams - {k};
      } else if k in streams {
        streams := streams[k := streams[k].(sink := true)];
      }
    }

    /** A frame arrives; it is taken exactly when its stream is open here. */
    method FrameIn(from: Caller, frame: Frame, inner: seq<AppOp>, host: Host) returns (claimed: bool)
      requires streams.Keys <= seen.Keys
      modifies this
      ensures claimed == Claims(old(State()), from, frame)
      ensures State() == OnFrame(old(State()), from, frame, inner, host)
    {
      hide Deliver, Flush, Granted;
      var k := Key(from.appId, frame.stream);
      if k !in streams {
        return false;
      }
      claimed := true;
      match frame.kind
      case RespHead(head) => DeliverTo(k, HeadEvent(head, from.via), false, inner, host);
      case Body(bytes) =>
        DeliverTo(k, BodyEvent(bytes), false, inner, host);
        sent := sent + [Consumed(from, k.stream)];
      case End => DeliverTo(k, EndEvent, true, inner, host);
      case Cancel(reason) => DeliverTo(k, FailedEvent(RefusalOf(reason)), true, inner, host);
      case Credit(n) =>
        streams := streams[k := streams[k].(box := Granted(streams[k].box, n))];
        FlushStream(k, host);
      case ReqHead(_) => claimed := false;
    }
  }
}
