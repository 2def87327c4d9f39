/** What happens on other streams leaves a stream alone: for each side, every operation that is not
    on a given key keeps that key's state, what its app has seen, and what goes out on it. */
module Elsewhere {
  import opened Basics
  import opened Frames
  import opened Outbox
  import C = Client
  import S = Server

  // ---------------------------------------------------------------- the client's side

  function KeyOfCall(call: C.Call): C.Key {
    match call
    case Sent(to, frame, _) => C.Key(C.AppIdOf(to), frame.stream)
    case Consumed(peer, stream) => C.Key(peer.appId, stream)
  }

  /** Every stream is keyed by the app it calls. */
  ghost predicate Addressed(s: C.ClientState) {
    forall j :: j in s.streams ==> C.AppIdOf(s.streams[j].to) == j.appId
  }

  ghost predicate CallsElsewhere(before: seq<C.Call>, after: seq<C.Call>, k: C.Key) {
    before <= after && forall i :: |before| <= i < |after| ==> KeyOfCall(after[i]) != k
  }

  /** From `s` to `t` nothing happened to `k`. */
  ghost predicate Aside(s: C.ClientState, t: C.ClientState, k: C.Key) {
    && s.last <= t.last
    && (k in s.streams <==> k in t.streams) && (k in s.streams ==> t.streams[k] == s.streams[k])
    && (k in s.seen ==> k in t.seen && t.seen[k] == s.seen[k])
    && (!C.ReadyIs(s, k) ==> !C.ReadyIs(t, k))
    && CallsElsewhere(s.sent, t.sent, k)
    && Addressed(t)
  }

  predicate OffOps(ops: seq<C.AppOp>, k: C.Key) {
    forall i :: 0 <= i < |ops| ==> ops[i] != C.CancelOp(k)
  }

  predicate OffAction(a: C.Action, k: C.Key) {
    match a
    case AppDid(op) => op != C.CancelOp(k)
    case FrameIn(from, frame, inner) => C.Key(from.appId, frame.stream) != k && OffOps(inner, k)
    case LateRefusal(j, _) => j != k
    case TaskRan(inner) => OffOps(inner, k)
  }

  lemma AsideThen(s: C.ClientState, t: C.ClientState, u: C.ClientState, k: C.Key)
    requires Aside(s, t, k) && Aside(t, u, k)
    ensures Aside(s, u, k)
  {
    hide C.ReadyIs, Addressed;
    forall i | |s.sent| <= i < |u.sent| ensures KeyOfCall(u.sent[i]) != k {
      assert i < |t.sent| ==> u.sent[i] == t.sent[i];
    }
  }

  lemma FinishAside(s: C.ClientState, j: C.Key, event: ClientEvent, k: C.Key)
    requires Addressed(s) && j != k
    ensures Aside(s, C.Finish(s, j, event), k)
  {
    var t := C.Finish(s, j, event);
    if C.ReadyIs(t, k) {
      var i :| 0 <= i < |t.ready| && t.ready[i].0 == k;
      assert i < |s.ready| && s.ready[i] == t.ready[i];
    }
  }

  lemma {:induction false} FlushAside(s: C.ClientState, j: C.Key, host: Host, k: C.Key)
    requires Addressed(s) && j != k
    ensures Aside(s, C.Flush(s, j, host), k)
    decreases if j in s.streams then |s.streams[j].box.queued| else 0
  {
    hide C.Finish;
    if j in s.streams && !Blocked(s.streams[j].box) {
      var next := C.SendNext(s, j);
      assert Aside(s, next, k);
      match host(|s.sent|) {
        case RefusedNow(why) => FinishAside(next, j, FailedEvent(why), k);
        case _ => FlushAside(next, j, host, k);
      }
      AsideThen(s, next, C.Flush(s, j, host), k);
    }
  }

  lemma DidAside(s: C.ClientState, op: C.AppOp, host: Host, k: C.Key)
    requires Addressed(s) && op != C.CancelOp(k) && k.stream <= s.last
    ensures Aside(s, C.Did(s, op, host), k)
  {
    hide C.Finish, C.Flush, C.ReadyIs, Queued;
    match op
    case OpenOp(to, transport, request) =>
      var t := C.Inserted(s, to, transport, request);
      SameReady(s, t, k);
      assert Aside(s, t, k);
      FlushAside(t, C.NextKey(s, to), host, k);
      AsideThen(s, t, C.Did(s, op, host), k);
    case CancelOp(j) =>
      if j in s.streams {
        var o := s.streams[j];
        var t := s.(sent := s.sent + [C.Sent(o.to, Frame(j.stream, Cancel(C.CALLER)), o.transport)]);
        SameReady(s, t, k);
        assert Aside(s, t, k);
        FinishAside(t, j, FailedEvent(C.RefusalOf(C.CALLER)), k);
        AsideThen(s, t, C.Did(s, op, host), k);
      }
  }

  lemma SameReady(s: C.ClientState, t: C.ClientState, k: C.Key)
    requires t.ready == s.ready
    ensures C.ReadyIs(t, k) <==> C.ReadyIs(s, k)
  {
  }

  lemma {:induction false} DidAllAside(s: C.ClientState, ops: seq<C.AppOp>, host: Host, k: C.Key)
    requires Addressed(s) && OffOps(ops, k) && k.stream <= s.last
    ensures Aside(s, C.DidAll(s, ops, host), k)
    decreases |ops|
  {
    hide Addressed, C.Did, C.ReadyIs;
    if ops == [] {
      NothingAside(s, k);
    } else {
      var t := C.Did(s, ops[0], host);
      DidAside(s, ops[0], host, k);
      DidAllAside(t, ops[1..], host, k);
      AsideThen(s, t, C.DidAll(s, ops, host), k);
    }
  }

  lemma NothingAside(s: C.ClientState, k: C.Key)
    requires Addressed(s)
    ensures Aside(s, s, k)
  {
  }

  lemma DeliverAside(s: C.ClientState, j: C.Key, event: ClientEvent, last: bool, inner: seq<C.AppOp>, host: Host,
      k: C.Key)
    requires Addressed(s) && j != k && OffOps(inner, k) && k.stream <= s.last && (j in s.streams ==> j in s.seen)
    ensures Aside(s, C.Deliver(s, j, event, last, inner, host), k)
  {
    hide C.DidAll, C.ReadyIs, OffOps;
    if j in s.streams && s.streams[j].sink {
      var t := C.SinkTaken(s, j, event);
      SameReady(s, t, k);
      assert Aside(s, t, k);
      var u := C.DidAll(t, inner, host);
      DidAllAside(t, inner, host, k);
      AsideThen(s, t, u, k);
      SameReady(u, C.SinkBack(u, j, last), k);
      assert Aside(u, C.SinkBack(u, j, last), k);
      AsideThen(s, u, C.SinkBack(u, j, last), k);
    } else {
      NothingAside(s, k);
    }
  }

  lemma OnFrameAside(s: C.ClientState, from: Caller, frame: Frame, inner: seq<C.AppOp>, host: Host, k: C.Key)
    requires Addressed(s) && C.Key(from.appId, frame.stream) != k && OffOps(inner, k) && k.stream <= s.last
    requires s.streams.Keys <= s.seen.Keys
    ensures Aside(s, C.OnFrame(s, from, frame, inner, host), k)
  {
    hide C.Deliver, C.Flush, C.ReadyIs, OffOps, Granted;
    var j := C.Key(from.appId, frame.stream);
    NothingAside(s, k);
    if C.Claims(s, from, frame) {
      match frame.kind
      case RespHead(head) => DeliverAside(s, j, HeadEvent(head, from.via), false, inner, host, k);
      case Body(bytes) =>
        var t := C.Deliver(s, j, BodyEvent(bytes), false, inner, host);
        DeliverAside(s, j, BodyEvent(bytes), false, inner, host, k);
        var u := t.(sent := t.sent + [C.Consumed(from, j.stream)]);
        SameReady(t, u, k);
        assert Aside(t, u, k);
        AsideThen(s, t, u, k);
      case End => DeliverAside(s, j, EndEvent, true, inner, host, k);
      case Cancel(reason) => DeliverAside(s, j, FailedEvent(C.RefusalOf(reason)), true, inner, host, k);
      case Credit(n) =>
        var t := C.WithBox(s, j, Granted(s.streams[j].box, n));
        SameReady(s, t, k);
        assert Aside(s, t, k);
        FlushAside(t, j, host, k);
        AsideThen(s, t, C.Flush(t, j, host), k);
    }
  }

  lemma RanTaskAside(s: C.ClientState, inner: seq<C.AppOp>, host: Host, k: C.Key)
    requires Addressed(s) && OffOps(inner, k) && k.stream <= s.last && !C.ReadyIs(s, k)
    requires forall j :: 0 <= j < |s.ready| ==> s.ready[j].0 in s.seen
    ensures Aside(s, C.RanTask(s, inner, host), k)
  {
    hide C.DidAll, OffOps;
    if s.ready == [] {
      NothingAside(s, k);
    } else {
      var j := s.ready[0].0;
      var t := s.(ready := s.ready[1..], seen := s.seen[j := s.seen[j] + [s.ready[0].1]]);
      forall i | 0 <= i < |t.ready| ensures t.ready[i].0 != k {
        assert s.ready[i + 1] == t.ready[i];
      }
      assert Aside(s, t, k);
      DidAllAside(t, inner, host, k);
      AsideThen(s, t, C.RanTask(s, inner, host), k);
    }
  }

  /** Whatever happens to other streams, and whatever the app does inside their sinks short of
      cancelling this one, this stream is left alone. */
  lemma ClientActsAside(s: C.ClientState, a: C.Action, host: Host, k: C.Key)
    requires C.ClientInv(s, None) && Addressed(s) && OffAction(a, k) && k in s.seen && !C.ReadyIs(s, k)
    ensures Aside(s, C.Apply(s, a, host), k)
  {
    hide C.Did, C.OnFrame, C.RanTask, C.Finish, OffOps, Addressed, C.Sinks, C.Quiet, C.Accounted;
    match a
    case AppDid(op) => DidAside(s, op, host, k);
    case FrameIn(from, frame, inner) => OnFrameAside(s, from, frame, inner, host, k);
    case LateRefusal(j, why) => FinishAside(s, j, FailedEvent(why), k);
    case TaskRan(inner) => RanTaskAside(s, inner, host, k);
  }

  // ---------------------------------------------------------------- the server's side

  function KeyOfEntry(e: S.Entry): S.PeerKey {
    match e
    case Opened(k) => k
    case Shut(k) => k
    case Responded(peer, frame) => S.KeyOf(peer, frame.stream)
    case Noted(peer, stream) => S.KeyOf(peer, stream)
  }

  ghost predicate EntriesElsewhere(before: seq<S.Entry>, after: seq<S.Entry>, k: S.PeerKey) {
    before <= after && forall i :: |before| <= i < |after| ==> KeyOfEntry(after[i]) != k
  }

  /** Every response is keyed by the peer it goes to. */
  ghost predicate Answering(s: S.ServerState) {
    forall j :: j in s.outgoing ==> S.KeyOf(s.outgoing[j].peer, j.stream) == j
  }

  /** Every request being assembled is keyed by its caller. */
  ghost predicate Keyed(s: S.ServerState) {
    forall j :: j in s.incoming ==> S.KeyOf(s.incoming[j].caller, j.stream) == j
  }

  ghost predicate ServerAside(s: S.ServerState, t: S.ServerState, k: S.PeerKey) {
    && (k in s.incoming <==> k in t.incoming) && (k in s.incoming ==> t.incoming[k] == s.incoming[k])
    && (k in s.outgoing <==> k in t.outgoing) && (k in s.outgoing ==> t.outgoing[k] == s.outgoing[k])
    && S.ServedFor(t.served, k) == S.ServedFor(s.served, k)
    && EntriesElsewhere(s.log, t.log, k)
    && Answering(t) && Keyed(t) && (s.handler ==> t.handler)
  }

  predicate OffServerOps(ops: seq<S.ServerOp>, k: S.PeerKey) {
    forall i :: 0 <= i < |ops| && ops[i].RespondOp? ==> S.KeyOf(ops[i].peer, ops[i].stream) != k
  }

  predicate OffServerAction(a: S.Action, k: S.PeerKey) {
    match a
    case FrameIn(from, frame, inner) => S.KeyOf(from, frame.stream) != k && OffServerOps(inner, k)
    case AppDid(op) => OffServerOps([op], k)
    case LateRefusal(j) => j != k
  }

  lemma ServerAsideThen(s: S.ServerState, t: S.ServerState, u: S.ServerState, k: S.PeerKey)
    requires ServerAside(s, t, k) && ServerAside(t, u, k)
    ensures ServerAside(s, u, k)
  {
    hide S.ServedFor, Answering, Keyed;
    forall i | |s.log| <= i < |u.log| ensures KeyOfEntry(u.log[i]) != k {
      assert i < |t.log| ==> u.log[i] == t.log[i];
    }
  }

  lemma ShutAside(s: S.ServerState, j: S.PeerKey, k: S.PeerKey)
    requires Answering(s) && Keyed(s) && j != k
    ensures ServerAside(s, S.ShutDown(s, j), k)
  {
    hide S.ServedFor;
  }

  lemma {:induction false} FlushServerAside(s: S.ServerState, j: S.PeerKey, host: Host, k: S.PeerKey)
    requires Answering(s) && Keyed(s) && j != k
    ensures ServerAside(s, S.Flush(s, j, host).0, k)
    decreases if j in s.outgoing then |s.outgoing[j].box.queued| else 0
  {
    hide S.ServedFor, S.ShutDown;
    if j in s.outgoing && !Blocked(s.outgoing[j].box) {
      var next := S.SendNext(s, j);
      assert ServerAside(s, next, k);
      ShutAside(next, j, k);
      FlushServerAside(next, j, host, k);
      ServerAsideThen(s, next, S.Flush(s, j, host).0, k);
    }
  }

  lemma RespondAside(s: S.ServerState, op: S.ServerOp, host: Host, k: S.PeerKey)
    requires Answering(s) && Keyed(s) && OffServerOps([op], k)
    ensures ServerAside(s, S.Did(s, op, host), k)
  {
    hide S.ServedFor, S.Flush, Queued;
    assert [op][0] == op;
    match op
    case RespondOp(peer, stream, status, headers, body) =>
      var j := S.KeyOf(peer, stream);
      if j in s.outgoing {
        var o := s.outgoing[j];
        var head := RespHead(ResponseHead(status, headers, Some(|body|)));
        var t := s.(outgoing := s.outgoing[j := o.(box := Queued(o.box, head, body))]);
        assert ServerAside(s, t, k);
        FlushServerAside(t, j, host, k);
        ServerAsideThen(s, t, S.Flush(t, j, host).0, k);
      }
    case ServeOp =>
  }

  lemma {:induction false} DidAllServerAside(s: S.ServerState, ops: seq<S.ServerOp>, host: Host, k: S.PeerKey)
    requires Answering(s) && Keyed(s) && OffServerOps(ops, k)
    ensures ServerAside(s, S.DidAll(s, ops, host), k)
    decreases |ops|
  {
    hide S.ServedFor, S.Did, Answering, Keyed;
    if ops != [] {
      var t := S.Did(s, ops[0], host);
      RespondAside(s, ops[0], host, k);
      DidAllServerAside(t, ops[1..], host, k);
      ServerAsideThen(s, t, S.DidAll(s, ops, host), k);
    }
  }

  lemma CompleteAside(s: S.ServerState, from: Caller, stream: nat, inner: seq<S.ServerOp>, host: Host, k: S.PeerKey)
    requires Answering(s) && Keyed(s) && S.KeyOf(from, stream) != k && OffServerOps(inner, k)
    ensures ServerAside(s, S.Complete(s, from, stream, inner, host), k)
  {
    hide S.ServedFor, S.DidAll, OffServerOps;
    var j := S.KeyOf(from, stream);
    if j in s.incoming {
      var open := S.OpenedFor(s, j, from);
      assert ServerAside(s, open, k);
      if s.handler {
        var request := S.RequestOf(s.incoming[j], stream);
        S.ServedSnoc(open.served, request, k);
        var t := open.(served := open.served + [request]);
        assert ServerAside(open, t, k);
        ServerAsideThen(s, open, t, k);
        DidAllServerAside(t.(handler := false), inner, host, k);
        var u := S.DidAll(t.(handler := false), inner, host);
        assert ServerAside(t, u.(handler := true), k);
        ServerAsideThen(s, t, u.(handler := true), k);
      }
    }
  }

  lemma FrameServerAside(s: S.ServerState, from: Caller, frame: Frame, inner: seq<S.ServerOp>, host: Host, k: S.PeerKey)
    requires Answering(s) && Keyed(s) && S.KeyOf(from, frame.stream) != k && OffServerOps(inner, k)
    ensures ServerAside(s, S.OnFrame(s, from, frame, inner, host), k)
  {
    hide S.ServedFor, S.Flush, S.Complete, S.ShutDown, OffServerOps, Granted;
    var j := S.KeyOf(from, frame.stream);
    match frame.kind
    case ReqHead(_) =>
    case Body(_) =>
    case End => CompleteAside(s, from, frame.stream, inner, host, k);
    case Cancel(_) =>
      var t := s.(incoming := s.incoming - {j});
      assert ServerAside(s, t, k);
      ShutAside(t, j, k);
      ServerAsideThen(s, t, S.ShutDown(t, j), k);
    case Credit(n) =>
      if j in s.outgoing {
        CreditAside(s, j, n, host, k);
      }
    case RespHead(_) =>
  }

  lemma CreditAside(s: S.ServerState, j: S.PeerKey, n: u32, host: Host, k: S.PeerKey)
    requires Answering(s) && Keyed(s) && j != k && j in s.outgoing
    ensures var t := s.(outgoing := s.outgoing[j := s.outgoing[j].(box := Granted(s.outgoing[j].box, n))]);
            ServerAside(s, S.Flush(t, j, host).0, k)
  {
    hide S.ServedFor, S.Flush, Granted;
    var t := s.(outgoing := s.outgoing[j := s.outgoing[j].(box := Granted(s.outgoing[j].box, n))]);
    assert ServerAside(s, t, k);
    FlushServerAside(t, j, host, k);
    ServerAsideThen(s, t, S.Flush(t, j, host).0, k);
  }

  /** Whatever happens on other keys, and whatever the app responds there, this key is left alone. */
  lemma ServerActsAside(s: S.ServerState, a: S.Action, host: Host, k: S.PeerKey)
    requires Answering(s) && Keyed(s) && OffServerAction(a, k)
    ensures ServerAside(s, S.Apply(s, a, host), k)
  {
    hide S.ServedFor, S.OnFrame, S.ShutDown, S.Did, OffServerOps, ServerAside;
    match a
    case FrameIn(from, frame, inner) => FrameServerAside(s, from, frame, inner, host, k);
    case AppDid(op) => RespondAside(s, op, host, k);
    case LateRefusal(j) => ShutAside(s, j, k);
  }

  // ---------------------------------------------------------------- reachable tables

  lemma {:induction false} FlushAddressed(s: C.ClientState, k: C.Key, host: Host)
    requires Addressed(s)
    ensures Addressed(C.Flush(s, k, host))
    decreases if k in s.streams then |s.streams[k].box.queued| else 0
  {
    if k in s.streams && !Blocked(s.streams[k].box) {
      FlushAddressed(C.SendNext(s, k), k, host);
    }
  }

  lemma {:induction false} DidAllAddressed(s: C.ClientState, ops: seq<C.AppOp>, host: Host)
    requires Addressed(s)
    ensures Addressed(C.DidAll(s, ops, host))
    decreases |ops|
  {
    hide C.Flush, Queued;
    if ops != [] {
      match ops[0] {
        case OpenOp(to, transport, request) =>
          FlushAddressed(C.Inserted(s, to, transport, request), C.NextKey(s, to), host);
        case CancelOp(_) =>
      }
      DidAllAddressed(C.Did(s, ops[0], host), ops[1..], host);
    }
  }

  lemma DeliverAddressed(s: C.ClientState, k: C.Key, event: ClientEvent, last: bool, inner: seq<C.AppOp>, host: Host)
    requires Addressed(s) && (k in s.streams ==> k in s.seen)
    ensures Addressed(C.Deliver(s, k, event, last, inner, host))
  {
    hide C.DidAll;
    if k in s.streams {
      DidAllAddressed(C.SinkTaken(s, k, event), inner, host);
    }
  }

  lemma ApplyAddressed(s: C.ClientState, a: C.Action, host: Host)
    requires Addressed(s)
    ensures Addressed(C.Apply(s, a, host))
  {
    hide C.Deliver, C.Flush, C.DidAll, C.Did, Granted;
    match a
    case AppDid(op) =>
      DidAllAddressed(s, [op], host);
      assert C.DidAll(s, [op], host) == C.Did(s, op, host) by { DidJust(s, op, host); }
    case FrameIn(from, frame, inner) =>
      var k := C.Key(from.appId, frame.stream);
      if s.streams.Keys <= s.seen.Keys && C.Claims(s, from, frame) {
        match frame.kind {
          case RespHead(head) => DeliverAddressed(s, k, HeadEvent(head, from.via), false, inner, host);
          case Body(bytes) => DeliverAddressed(s, k, BodyEvent(bytes), false, inner, host);
          case End => DeliverAddressed(s, k, EndEvent, true, inner, host);
          case Cancel(reason) => DeliverAddressed(s, k, FailedEvent(C.RefusalOf(reason)), true, inner, host);
          case Credit(n) => FlushAddressed(C.WithBox(s, k, Granted(s.streams[k].box, n)), k, host);
        }
      }
    case LateRefusal(_, _) =>
    case TaskRan(inner) =>
      if s.ready != [] && s.ready[0].0 in s.seen {
        var k := s.ready[0].0;
        DidAllAddressed(s.(ready := s.ready[1..], seen := s.seen[k := s.seen[k] + [s.ready[0].1]]), inner, host);
      }
  }

  lemma DidJust(s: C.ClientState, op: C.AppOp, host: Host)
    ensures C.DidAll(s, [op], host) == C.Did(s, op, host)
  {
    hide C.Did;
    assert [op][1..] == [];
  }

  lemma {:induction false} RunAddressed(s: C.ClientState, actions: seq<C.Action>, host: Host)
    requires Addressed(s)
    ensures Addressed(C.AfterAll(s, actions, host))
    decreases |actions|
  {
    hide Addressed, C.Apply;
    if actions != [] {
      ApplyAddressed(s, actions[0], host);
      RunAddressed(C.Apply(s, actions[0], host), actions[1..], host);
    }
  }

  /** Every table a run leads to is as a call may find it. */
  lemma ReachableTables(clientRun: seq<C.Action>, serverRun: seq<S.Action>, host: Host)
    ensures var client, server := C.AfterAll(C.NO_STREAMS, clientRun, host), S.AfterAll(S.SERVING, serverRun, host);
            && C.ClientInv(client, None) && Addressed(client)
            && server.handler && Keyed(server) && Answering(server)
  {
    C.EveryRunKeeps(C.NO_STREAMS, clientRun, host);
    RunAddressed(C.NO_STREAMS, clientRun, host);
    S.EveryRunHolds(serverRun, host, S.PeerKey(0, "", 0));
    S.EveryRunSends(serverRun, host);
  }
}
