/** What every run of one call keeps: credit is conserved each way, what has arrived is a prefix of
    what was sent, nothing gets stuck, and both whole bodies are handed over in the end. */
module Delivery {
  import opened Basics
  import opened Frames
  import opened Outbox
  import opened Elsewhere
  import opened EndToEnd
  import opened FanoutPlan
  import C = Client
  import S = Server
  import W = ClientWhole

  /** The bytes of the body frames, in order. */
  function BodyIn(frames: seq<FrameKind>): Bytes {
    if frames == [] then []
    else
      var last := frames[|frames| - 1];
      BodyIn(frames[..|frames| - 1]) + (if last.Body? then last.bytes else [])
  }

  function EventOf(kind: FrameKind, via: Via): ClientEvent
    requires kind.RespHead? || kind.Body? || kind.End?
  {
    match kind
    case RespHead(head) => HeadEvent(head, via)
    case Body(bytes) => BodyEvent(bytes)
    case End => EndEvent
  }

  /** A head, then body frames, then `End`. */
  ghost predicate MessageShaped(frames: seq<FrameKind>) {
    && |frames| >= 2
    && (frames[0].ReqHead? || frames[0].RespHead?)
    && (forall i :: 0 < i < |frames| - 1 ==> frames[i].Body?)
    && frames[|frames| - 1].End?
  }

  lemma MessageIsShaped(head: FrameKind, body: Bytes)
    requires head.ReqHead? || head.RespHead?
    ensures MessageShaped(Message(head, body)) && Message(head, body)[0] == head
    ensures EndsOnce(Message(head, body))
  {
    hide Chunks, BodyFrames;
  }

  lemma {:induction false} BodyInFrames(chunks: seq<Bytes>)
    ensures BodyIn(BodyFrames(chunks)) == Flat(chunks)
  {
    if chunks == [] {
    } else {
      var front, last := chunks[..|chunks| - 1], chunks[|chunks| - 1];
      BodyInFrames(front);
      BodyFramesSnoc(front, last);
      FlatSnoc(front, last);
      assert front + [last] == chunks;
      BodyInSnoc(BodyFrames(front), Body(last));
    }
  }

  lemma BodyInSnoc(frames: seq<FrameKind>, last: FrameKind)
    ensures BodyIn(frames + [last]) == BodyIn(frames) + (if last.Body? then last.bytes else [])
  {
    assert (frames + [last])[..|frames|] == frames;
  }

  lemma {:induction false} FlatSnoc(chunks: seq<Bytes>, last: Bytes)
    ensures Flat(chunks + [last]) == Flat(chunks) + last
  {
    if chunks == [] {
      assert [last][1..] == [];
      assert [] + [last] == [last];
    } else {
      FlatSnoc(chunks[1..], last);
      assert (chunks + [last])[1..] == chunks[1..] + [last];
    }
  }

  lemma {:induction false} BodyInJoin(a: seq<FrameKind>, b: seq<FrameKind>)
    ensures BodyIn(a + b) == BodyIn(a) + BodyIn(b)
  {
    if b == [] {
      assert a + b == a;
    } else {
      var front, last := b[..|b| - 1], b[|b| - 1];
      BodyInJoin(a, front);
      assert a + b == (a + front) + [last];
      BodyInSnoc(a + front, last);
    }
  }

  /** A message's body frames carry its body. */
  lemma MessageCarries(head: FrameKind, body: Bytes)
    requires head.ReqHead? || head.RespHead?
    ensures BodyIn(Message(head, body)) == body
    ensures BodyIn(Message(head, body)[..|Message(head, body)| - 1]) == body
  {
    hide Chunks, BodyFrames, Flat;
    var frames := BodyFrames(Chunks(body));
    var all := Message(head, body);
    assert all[..|all| - 1] == [head] + frames;
    BodyInJoin([head], frames);
    BodyInSnoc([], head);
    assert [] + [head] == [head];
    BodyInFrames(Chunks(body));
    ChunksCarryTheBody(body);
  }

  lemma {:induction false} BodyInPrefix(frames: seq<FrameKind>, n: nat)
    requires n <= |frames|
    ensures BodyIn(frames[..n]) <= BodyIn(frames)
    decreases |frames|
  {
    if n == |frames| {
      assert frames[..n] == frames;
    } else {
      var front := frames[..|frames| - 1];
      BodyInPrefix(front, n);
      assert front[..n] == frames[..n];
    }
  }

  // ---------------------------------------------------------------- the client's side

  /** The credit of one direction: the 4 it starts with and what strayed in, less what is lost where
      a sender's own counter saturates. */
  ghost predicate Conserved(credit: nat, flight: seq<FrameKind>, noted: nat, minted: nat, stray: nat) {
    Min(INITIAL_CREDIT + stray, U32_MAX) <= credit + BodyCount(flight) + noted + minted <= INITIAL_CREDIT + stray
  }

  /** A minted credit, or a stray one, arrives. */
  lemma GrantConserves(box: Box, flight: seq<FrameKind>, noted: nat, minted: nat, stray: nat, n: u32)
    requires Conserved(box.credit, flight, noted, minted, stray)
    ensures Conserved(Granted(box, n).credit, flight, noted, minted, stray + n)
    ensures minted > 0 ==> Conserved(Granted(box, 1).credit, flight, noted, minted - 1, stray)
  {
    hide BodyCount;
  }

  ghost predicate SeenIs(x: Exchange, events: seq<ClientEvent>, got: nat) {
    var r := x.ResponseFrames();
    && |events| == got <= |r|
    && forall i :: 0 <= i < got ==>
         (r[i].RespHead? || r[i].Body? || r[i].End?) && events[i] == EventOf(r[i], x.callee.via)
  }

  /** The call's stream at the client, its frames in flight to the server and the credit coming back. */
  ghost predicate ClientSide(x: Exchange, s: C.ClientState, flight: seq<FrameKind>, taken: nat, got: nat,
      noted: nat, minted: nat, stray: nat) {
    var k, m := x.Key(), x.RequestFrames();
    && taken <= |m| && k in s.seen && !C.ReadyIs(s, k)
    && SeenIs(x, s.seen[k], got)
    && if got < |x.ResponseFrames()|
       then
         && k in s.streams && Blocked(s.streams[k].box)
         && flight + s.streams[k].box.queued == m[taken..]
         && Conserved(s.streams[k].box.credit, flight, noted, minted, stray)
       else k !in s.streams && flight == [] && taken == |m|
  }

  ghost predicate ClientOk(s: C.ClientState) {
    C.ClientInv(s, None) && Addressed(s)
  }

  lemma FirstOut(flight: seq<FrameKind>, queued: seq<FrameKind>, all: seq<FrameKind>, n: nat)
    requires flight != [] && n <= |all| && flight + queued == all[n..]
    ensures n < |all| && flight[0] == all[n]
    ensures flight[1..] + queued == all[n + 1..]
    ensures BodyCount(flight[1..]) + (if flight[0].Body? then 1 else 0) == BodyCount(flight)
  {
    assert (flight + queued)[1..] == flight[1..] + queued;
    assert (flight + queued)[0] == flight[0];
  }

  /** The server took the first frame in flight. */
  lemma ClientSideTaken(x: Exchange, s: C.ClientState, flight: seq<FrameKind>, taken: nat, got: nat, noted: nat,
      minted: nat, stray: nat)
    requires ClientSide(x, s, flight, taken, got, noted, minted, stray) && flight != []
    ensures taken < |x.RequestFrames()| && flight[0] == x.RequestFrames()[taken]
    ensures ClientSide(x, s, flight[1..], taken + 1, got, noted + (if flight[0].Body? then 1 else 0), minted, stray)
  {
    hide Exchange.RequestFrames, Exchange.ResponseFrames, Exchange.Key, SeenIs, BodyCount, C.ReadyIs;
    FirstOut(flight, s.streams[x.Key()].box.queued, x.RequestFrames(), taken);
  }

  /** Sending all a box allows moves frames from the queue to the wire. */
  lemma FlushedOut(box: Box, flight: seq<FrameKind>, rest: seq<FrameKind>)
    requires flight + box.queued == rest
    ensures (flight + SentBy(box)) + LeftBy(box).queued == rest
    ensures BodyCount(flight + SentBy(box)) + LeftBy(box).credit == BodyCount(flight) + box.credit
    ensures Blocked(LeftBy(box))
  {
    hide SentBy, LeftBy, BodyCount;
    SentBySpends(box);
    BodyCountJoin(flight, SentBy(box));
    assert (flight + SentBy(box)) + LeftBy(box).queued == flight + (SentBy(box) + LeftBy(box).queued);
  }

  /** What a flush puts on the wire, and what it leaves. */
  lemma ClientFlushAdds(s: C.ClientState, k: C.Key, host: Host)
    requires k in s.streams && Willing(host) && C.AppIdOf(s.streams[k].to) == k.appId
    ensures var box, t := s.streams[k].box, C.Flush(s, k, host);
            && Sends(s.sent, t.sent, k, SentBy(box), 0)
            && t == C.WithBox(s, k, LeftBy(box)).(sent := t.sent)
  {
    hide CallsOut, CallsNoted, SentBy, LeftBy, C.Flush;
    var box := s.streams[k].box;
    ClientFlushes(s, k, host);
    CallsOfOut(s.streams[k], k, SentBy(box));
    assert Added(s.sent, C.Flush(s, k, host).sent) == CallsOf(s.streams[k], k.stream, SentBy(box));
  }

  lemma NothingSent(calls: seq<C.Call>, k: C.Key)
    ensures Sends(calls, calls, k, [], 0)
  {
    assert Added(calls, calls) == [];
  }

  lemma NothingWritten(log: seq<S.Entry>, k: S.PeerKey)
    ensures Writes(log, log, k, [], 0)
  {
    assert Added(log, log) == [];
  }

  /** A flush of the request's box keeps the credit conserved and the frames in order. */
  lemma ClientSideFlushed(x: Exchange, s: C.ClientState, flight: seq<FrameKind>, taken: nat, got: nat, noted: nat,
      minted: nat, stray: nat)
    requires Willing(x.host) && taken <= |x.RequestFrames()| && got < |x.ResponseFrames()| && Addressed(s)
    requires var k := x.Key();
             && k in s.streams && k in s.seen && !C.ReadyIs(s, k) && SeenIs(x, s.seen[k], got)
             && flight + s.streams[k].box.queued == x.RequestFrames()[taken..]
             && Conserved(s.streams[k].box.credit, flight, noted, minted, stray)
    ensures var t := C.Flush(s, x.Key(), x.host);
            && ClientSide(x, t, flight + CallsOut(Added(s.sent, t.sent), x.Key()), taken, got, noted, minted, stray)
            && CallsNoted(Added(s.sent, t.sent), x.Key()) == 0 && s.sent <= t.sent && Addressed(t)
  {
    hide Exchange.RequestFrames, Exchange.ResponseFrames, Exchange.Key, SeenIs, BodyCount, CallsOut, CallsNoted,
         C.Flush, SentBy, LeftBy, Blocked, Willing, C.ReadyIs;
    var k := x.Key();
    ClientFlushAdds(s, k, x.host);
    FlushedOut(s.streams[k].box, flight, x.RequestFrames()[taken..]);
    SameReady(s, C.Flush(s, k, x.host), k);
  }

  lemma CreditedIs(s: C.ClientState, from: Caller, k: C.Key, n: u32, host: Host)
    requires C.ClientInv(s, None) && k == C.Key(from.appId, k.stream)
    ensures var t := C.OnFrame(s, from, Frame(k.stream, Credit(n)), [], host);
            && C.ClientInv(t, None)
            && t == if k in s.streams then C.Flush(C.WithBox(s, k, Granted(s.streams[k].box, n)), k, host) else s
  {
    hide C.ClientInv, C.Flush;
    C.OnFrameKeeps(s, from, Frame(k.stream, Credit(n)), [], host);
  }

  /** Credit reaches the client, minted for this call or for another stream. */
  lemma ClientSideGranted(x: Exchange, s: C.ClientState, flight: seq<FrameKind>, taken: nat, got: nat, noted: nat,
    minted: nat, stray: nat, n: u32, minted': nat, stray': nat)
    requires x.Fits() && ClientOk(s) && ClientSide(x, s, flight, taken, got, noted, minted, stray)
    requires x.Key() in s.streams ==>
               Conserved(Granted(s.streams[x.Key()].box, n).credit, flight, noted, minted', stray')
    ensures var t := C.OnFrame(s, x.callee, Frame(x.Stream(), Credit(n)), [], x.host);
            && ClientOk(t)
            && CallsNoted(Added(s.sent, t.sent), x.Key()) == 0
            && ClientSide(x, t, flight + CallsOut(Added(s.sent, t.sent), x.Key()), taken, got, noted, minted', stray')
  {
    hide Exchange.RequestFrames, Exchange.ResponseFrames, C.ClientInv, C.OnFrame, SeenIs, BodyCount, CallsOut,
      CallsNoted, C.Flush, Blocked, Willing, C.ReadyIs, Granted, Conserved;
    var k := x.Key();
    CreditedIs(s, x.callee, k, n, x.host);
    if k in s.streams {
      var u := C.WithBox(s, k, Granted(s.streams[k].box, n));
      SameReady(s, u, k);
      GrantKeepsQueue(s.streams[k].box, n);
      ClientSideFlushed(x, u, flight, taken, got, noted, minted', stray');
    } else {
      NothingSent(s.sent, k);
      assert flight + [] == flight;
    }
  }

  lemma GrantKeepsQueue(box: Box, n: u32)
    ensures Granted(box, n).queued == box.queued
  {
  }

  /** The sink ran: the event was seen, the app's own doings inside left the stream alone. */
  lemma SinkRan(s: C.ClientState, k: C.Key, event: ClientEvent, last: bool, inner: seq<C.AppOp>, host: Host)
    requires ClientOk(s) && k in s.streams && OffOps(inner, k) && !C.ReadyIs(s, k)
    ensures k in s.seen && s.streams[k].sink
    ensures var t := C.Deliver(s, k, event, last, inner, host);
            && k in t.seen && t.seen[k] == s.seen[k] + [event]
            && !C.ReadyIs(t, k) && Addressed(t)
            && Sends(s.sent, t.sent, k, [], 0)
            && (if last then k !in t.streams else k in t.streams && t.streams[k] == s.streams[k])
  {
    assert k.stream <= s.last;
    hide C.ClientInv, C.DidAll, OffOps, CallsOut, CallsNoted, C.ReadyIs;
    SinkIsIn(s, k);
    var u := C.SinkTaken(s, k, event);
    SameReady(s, u, k);
    var v := C.DidAll(u, inner, host);
    DidAllAside(u, inner, host, k);
    ElsewhereSendsNothing(u.sent, v.sent, k);
    var t := C.SinkBack(v, k, last);
    SameReady(v, t, k);
    if !last {
      assert v.streams[k].(sink := true) == s.streams[k];
    }
  }

  lemma SinkIsIn(s: C.ClientState, k: C.Key)
    requires C.ClientInv(s, None) && k in s.streams
    ensures k in s.seen && s.streams[k].sink
  {
  }

  /** A response frame of the stream: its sink sees it, and a chunk is noted as read. */
  lemma SinkGets(s: C.ClientState, from: Caller, k: C.Key, kind: FrameKind, inner: seq<C.AppOp>, host: Host)
    requires ClientOk(s) && k in s.streams && OffOps(inner, k) && !C.ReadyIs(s, k)
    requires k == C.Key(from.appId, k.stream) && (kind.RespHead? || kind.Body? || kind.End?)
    ensures k in s.seen
    ensures var t := C.OnFrame(s, from, Frame(k.stream, kind), inner, host);
            && ClientOk(t) && !C.ReadyIs(t, k)
            && k in t.seen && t.seen[k] == s.seen[k] + [EventOf(kind, from.via)]
            && Sends(s.sent, t.sent, k, [], if kind.Body? then 1 else 0)
            && (if kind.End? then k !in t.streams else k in t.streams && t.streams[k] == s.streams[k])
  {
    hide C.ClientInv, C.Deliver, CallsOut, CallsNoted, OffOps, C.ReadyIs;
    C.OnFrameKeeps(s, from, Frame(k.stream, kind), inner, host);
    var event := EventOf(kind, from.via);
    var u := C.Deliver(s, k, event, kind.End?, inner, host);
    SinkRan(s, k, event, kind.End?, inner, host);
    if kind.Body? {
      SameReady(u, C.OnFrame(s, from, Frame(k.stream, kind), inner, host), k);
      OneNoted(u.sent, C.Consumed(from, k.stream), k);
      SendsThen(s.sent, u.sent, u.sent + [C.Consumed(from, k.stream)], k, [], 0, [], 1);
    }
  }

  /** The next response frame reaches the client. */
  lemma ClientSideGets(x: Exchange, s: C.ClientState, flight: seq<FrameKind>, taken: nat, got: nat, noted: nat,
      minted: nat, stray: nat, inner: seq<C.AppOp>)
    requires x.Fits() && ClientOk(s) && ClientSide(x, s, flight, taken, got, noted, minted, stray)
    requires OffOps(inner, x.Key())
    requires got < |x.ResponseFrames()| && taken == |x.RequestFrames()|
    ensures var kind := x.ResponseFrames()[got];
            var t := C.OnFrame(s, x.callee, Frame(x.Stream(), kind), inner, x.host);
            && ClientOk(t)
            && CallsOut(Added(s.sent, t.sent), x.Key()) == []
            && CallsNoted(Added(s.sent, t.sent), x.Key()) == (if kind.Body? then 1 else 0)
            && ClientSide(x, t, flight, taken, got + 1, noted, minted, stray)
  {
    hide Exchange.RequestFrames, Exchange.ResponseFrames, ClientOk, C.OnFrame, CallsOut, CallsNoted, BodyCount,
         Blocked, Willing, OffOps, C.ReadyIs;
    ResponseShaped(x);
    var r := x.ResponseFrames();
    SinkGets(s, x.callee, x.Key(), r[got], inner, x.host);
    assert got < |r| - 1 ==> !r[got].End?;
    if got == |r| - 1 {
      assert flight == [];
    }
  }

  lemma OneNoted(calls: seq<C.Call>, call: C.Call, k: C.Key)
    requires call.Consumed? && KeyOfCall(call) == k
    ensures Sends(calls, calls + [call], k, [], 1)
  {
    assert Added(calls, calls + [call]) == [call];
    assert [call][..0] == [];
  }

  /** What happens to other streams leaves this side as it is. */
  lemma ClientSideAside(x: Exchange, s: C.ClientState, flight: seq<FrameKind>, taken: nat, got: nat, noted: nat,
      minted: nat, stray: nat, a: C.Action)
    requires ClientOk(s) && ClientSide(x, s, flight, taken, got, noted, minted, stray) && OffAction(a, x.Key())
    ensures var t := C.Apply(s, a, x.host);
            && ClientOk(t)
            && Sends(s.sent, t.sent, x.Key(), [], 0)
            && ClientSide(x, t, flight, taken, got, noted, minted, stray)
  {
    C.ApplyKeeps(s, a, x.host);
    ClientActsAside(s, a, x.host, x.Key());
    hide C.ClientInv, C.Apply, Exchange.RequestFrames, Exchange.ResponseFrames, Exchange.Key, SeenIs, C.ReadyIs,
         Blocked, BodyCount, CallsOut, CallsNoted;
    ElsewhereSendsNothing(s.sent, C.Apply(s, a, x.host).sent, x.Key());
  }

  lemma ResponseShaped(x: Exchange)
    ensures MessageShaped(x.ResponseFrames()) && EndsOnce(x.ResponseFrames())
    ensures x.ResponseFrames()[0] == RespHead(x.ResponseHead())
    ensures BodyIn(x.ResponseFrames()) == x.response
    ensures BodyIn(x.ResponseFrames()[..|x.ResponseFrames()| - 1]) == x.response
  {
    hide Message, BodyIn;
    MessageIsShaped(RespHead(x.ResponseHead()), x.response);
    MessageCarries(RespHead(x.ResponseHead()), x.response);
  }

  lemma RequestShaped(x: Exchange)
    ensures MessageShaped(x.RequestFrames()) && EndsOnce(x.RequestFrames())
    ensures x.RequestFrames()[0] == ReqHead(x.RequestHead())
    ensures BodyIn(x.RequestFrames()) == x.request.body
    ensures BodyIn(x.RequestFrames()[..|x.RequestFrames()| - 1]) == x.request.body
  {
    hide Message, BodyIn;
    MessageIsShaped(C.HeadOf(x.to, x.request), x.request.body);
    MessageCarries(C.HeadOf(x.to, x.request), x.request.body);
  }

  // ---------------------------------------------------------------- the server's side

  /** The request the handler must be given. */
  function Wanted(x: Exchange): S.Request {
    S.Request(x.caller, x.Stream(), x.request.verb, x.request.path, x.request.query, x.request.headers, x.request.body)
  }

  function ServedHere(x: Exchange, s: S.ServerState): seq<S.Request> {
    S.ServedFor(s.served, x.PeerKey())
  }

  /** The response's frames in flight and the credit coming back, once the app has responded. */
  ghost predicate Responding(x: Exchange, s: S.ServerState, flight: seq<FrameKind>, got: nat, noted: nat, minted: nat,
                             stray: nat) {
    var k, r := x.PeerKey(), x.ResponseFrames();
    && got <= |r|
    && if k in s.outgoing
       then
         && Blocked(s.outgoing[k].box) && EndsOnce(s.outgoing[k].box.queued)
         && flight + s.outgoing[k].box.queued == r[got..]
         && Conserved(s.outgoing[k].box.credit, flight, noted, minted, stray)
       else flight == r[got..]
  }

  ghost predicate Receiving(x: Exchange, s: S.ServerState, taken: nat) {
    var k, m := x.PeerKey(), x.RequestFrames();
    && taken <= |m|
    && (if 0 < taken < |m|
        then k in s.incoming && s.incoming[k] == S.Incoming(x.caller, x.RequestHead(), BodyIn(m[..taken]))
        else k !in s.incoming)
    && ServedHere(x, s) == ServedHere(x, x.atServer) + if taken == |m| then [Wanted(x)] else []
  }

  ghost predicate ServerSide(x: Exchange, s: S.ServerState, flight: seq<FrameKind>, taken: nat, got: nat,
      noted: nat, minted: nat, stray: nat, responded: bool) {
    var k := x.PeerKey();
    && Receiving(x, s, taken) && Answering(s) && Keyed(s)
    && if responded
       then taken == |x.RequestFrames()| && Responding(x, s, flight, got, noted, minted, stray)
       else
         && flight == [] && got == 0 && noted == 0 && minted == 0
         && if taken == |x.RequestFrames()|
            then k in s.outgoing && s.outgoing[k].box.queued == []
            && Conserved(s.outgoing[k].box.credit, [], 0, 0, stray)
            else k !in s.outgoing && stray == 0
  }

  /** The client took the first response frame in flight. */
  lemma ServerSideGot(x: Exchange, s: S.ServerState, flight: seq<FrameKind>, taken: nat, got: nat, noted: nat,
      minted: nat, stray: nat, responded: bool)
    requires ServerSide(x, s, flight, taken, got, noted, minted, stray, responded) && flight != []
    ensures responded && taken == |x.RequestFrames()|
    ensures got < |x.ResponseFrames()| && flight[0] == x.ResponseFrames()[got]
    ensures ServerSide(x, s, flight[1..], taken, got + 1, noted + (if flight[0].Body? then 1 else 0), minted, stray,
                       responded)
  {
    hide Exchange.RequestFrames, Exchange.ResponseFrames, Exchange.PeerKey, Receiving, BodyCount, Blocked,
         Answering, Keyed;
    var k := x.PeerKey();
    if k in s.outgoing {
      FirstOut(flight, s.outgoing[k].box.queued, x.ResponseFrames(), got);
    } else {
      assert flight[1..] == x.ResponseFrames()[got + 1..];
    }
  }

  /** What happens on other keys leaves this side as it is. */
  lemma ServerSideAside(x: Exchange, s: S.ServerState, t: S.ServerState, flight: seq<FrameKind>, taken: nat,
      got: nat, noted: nat, minted: nat, stray: nat, responded: bool)
    requires ServerSide(x, s, flight, taken, got, noted, minted, stray, responded) && ServerAside(s, t, x.PeerKey())
    ensures ServerSide(x, t, flight, taken, got, noted, minted, stray, responded)
    ensures Writes(s.log, t.log, x.PeerKey(), [], 0)
  {
    hide Exchange.RequestFrames, Exchange.ResponseFrames, Exchange.PeerKey, BodyCount, Blocked, BodyIn, Wanted,
         Answering, Keyed, EntriesOut, EntriesNoted, S.ServedFor;
    ElsewhereWritesNothing(s.log, t.log, x.PeerKey());
  }

  lemma OneEntry(log: seq<S.Entry>, e: S.Entry, k: S.PeerKey)
    requires !e.Responded? && KeyOfEntry(e) == k
    ensures Writes(log, log + [e], k, [], if e.Noted? then 1 else 0)
  {
    assert Added(log, log + [e]) == [e];
    assert [e][..0] == [];
  }

  lemma ServerFlushAdds(s: S.ServerState, k: S.PeerKey, host: Host)
    requires k in s.outgoing && Willing(host) && EndsOnce(s.outgoing[k].box.queued)
    requires S.KeyOf(s.outgoing[k].peer, k.stream) == k
    ensures var o, t := s.outgoing[k], S.Flush(s, k, host).0;
            && Writes(s.log, t.log, k, SentBy(o.box), 0)
            && t.handler == s.handler && t.incoming == s.incoming && t.served == s.served
            && (if LeftBy(o.box).queued == [] then t.outgoing == s.outgoing - {k}
                else t.outgoing == s.outgoing[k := o.(box := LeftBy(o.box))] && EndsOnce(LeftBy(o.box).queued))
  {
    hide EntriesOut, EntriesNoted, SentBy, LeftBy, S.Flush, EndsOnce;
    var o := s.outgoing[k];
    var entries := EntriesOf(o.peer, k.stream, SentBy(o.box));
    ServerFlushes(s, k, host);
    EntriesOfOut(o.peer, k, SentBy(o.box));
    var sent := SentOut(s, k, SentBy(o.box), LeftBy(o.box));
    assert Added(s.log, sent.log) == entries;
    if LeftBy(o.box).queued == [] {
      OneEntry(sent.log, S.Shut(k), k);
      WritesThen(s.log, sent.log, sent.log + [S.Shut(k)], k, SentBy(o.box), 0, [], 0);
      assert SentBy(o.box) + [] == SentBy(o.box);
      assert sent.outgoing - {k} == s.outgoing - {k};
    }
  }

  /** A flush of the response's box keeps the credit conserved and the frames in order. */
  lemma RespondingFlushed(x: Exchange, s: S.ServerState, flight: seq<FrameKind>, got: nat, noted: nat, minted: nat,
                          stray: nat)
    requires Willing(x.host) && got <= |x.ResponseFrames()| && Answering(s) && Keyed(s)
    requires var k := x.PeerKey();
             && k in s.outgoing && EndsOnce(s.outgoing[k].box.queued)
             && flight + s.outgoing[k].box.queued == x.ResponseFrames()[got..]
             && Conserved(s.outgoing[k].box.credit, flight, noted, minted, stray)
    ensures var t := S.Flush(s, x.PeerKey(), x.host).0;
            && Responding(x, t, flight + EntriesOut(Added(s.log, t.log), x.PeerKey()), got, noted, minted, stray)
            && EntriesNoted(Added(s.log, t.log), x.PeerKey()) == 0 && s.log <= t.log
            && t.handler == s.handler && t.incoming == s.incoming && t.served == s.served && Answering(t) && Keyed(t)
  {
    hide Exchange.ResponseFrames, Exchange.PeerKey, EntriesOut, EntriesNoted, BodyCount, S.Flush, SentBy, LeftBy,
         Blocked, Willing, EndsOnce;
    var box := s.outgoing[x.PeerKey()].box;
    ServerFlushAdds(s, x.PeerKey(), x.host);
    FlushedOut(box, flight, x.ResponseFrames()[got..]);
    if LeftBy(box).queued == [] {
      assert flight + SentBy(box) + [] == flight + SentBy(box);
    }
  }

  /** The app responds, once. */
  lemma ServerSideResponds(x: Exchange, s: S.ServerState, flight: seq<FrameKind>, taken: nat, got: nat, noted: nat,
      minted: nat, stray: nat)
    requires x.Fits() && ServerSide(x, s, flight, taken, got, noted, minted, stray, false)
    requires taken == |x.RequestFrames()|
    ensures var t := S.Did(s, x.Respond(), x.host);
            && EntriesNoted(Added(s.log, t.log), x.PeerKey()) == 0 && t.handler == s.handler && s.log <= t.log
            && ServerSide(x, t, flight + EntriesOut(Added(s.log, t.log), x.PeerKey()), taken, got, noted, minted, stray,
                          true)
  {
    hide Exchange.RequestFrames, EntriesOut, EntriesNoted, S.Flush, Message, Blocked, EndsOnce, Willing,
         S.ServedFor, Wanted, Exchange.RequestHead, BodyIn;
    var k := x.PeerKey();
    var box := Queued(s.outgoing[k].box, RespHead(x.ResponseHead()), x.response);
    var u := s.(outgoing := s.outgoing[k := s.outgoing[k].(box := box)]);
    ResponseShaped(x);
    NothingFlying();
    assert [] + x.ResponseFrames() == x.ResponseFrames() == x.ResponseFrames()[0..];
    RespondingFlushed(x, u, [], 0, 0, 0, stray);
  }

  lemma ServedIsWhole(x: Exchange, s: S.ServerState, taken: nat)
    requires Receiving(x, s, taken)
    ensures Served(x, s) <==> taken == |x.RequestFrames()|
  {
    hide Exchange.RequestFrames, S.ServedFor, Wanted, BodyIn;
  }

  lemma {:induction false} DidAllJoin(s: S.ServerState, a: seq<S.ServerOp>, b: seq<S.ServerOp>, host: Host)
    ensures S.DidAll(s, a + b, host) == S.DidAll(S.DidAll(s, a, host), b, host)
    decreases |a|
  {
    hide S.Did;
    if a == [] {
      assert a + b == b;
    } else {
      assert (a + b)[1..] == a[1..] + b;
      DidAllJoin(S.Did(s, a[0], host), a[1..], b, host);
    }
  }

  lemma DidOne(s: S.ServerState, op: S.ServerOp, host: Host)
    ensures S.DidAll(s, [op], host) == S.Did(s, op, host) && S.DidAll(s, [], host) == s
  {
    hide S.Did;
    assert [op][1..] == [];
  }

  /** What the app does inside the handler, this response among it or not. */
  lemma HandlerRan(x: Exchange, s: S.ServerState, before: seq<S.ServerOp>, responds: bool, after: seq<S.ServerOp>)
    requires x.Fits() && ServerSide(x, s, [], |x.RequestFrames()|, 0, 0, 0, 0, false)
    requires OffServerOps(before, x.PeerKey()) && OffServerOps(after, x.PeerKey())
    ensures var t := S.DidAll(s, HandlerOps(x, before, responds, after), x.host);
            && EntriesNoted(Added(s.log, t.log), x.PeerKey()) == 0 && s.log <= t.log
            && ServerSide(x, t, EntriesOut(Added(s.log, t.log), x.PeerKey()), |x.RequestFrames()|, 0, 0, 0, 0, responds)
  {
    hide Exchange.RequestFrames, Exchange.Respond, OffServerOps, EntriesOut, EntriesNoted, S.DidAll, S.Did,
         ServerSide, ServerAside;
    var k, m := x.PeerKey(), |x.RequestFrames()|;
    var own := if responds then [x.Respond()] else [];
    DidAllJoin(s, before, own + after, x.host);
    var u := S.DidAll(s, before, x.host);
    DidAllJoin(u, own, after, x.host);
    DidOne(u, x.Respond(), x.host);
    var v := S.DidAll(u, own, x.host);
    var w := S.DidAll(v, after, x.host);
    SideIsTidy(x, s, [], m, 0, 0, 0, 0, false);
    DidAllServerAside(s, before, x.host, k);
    ServerSideAside(x, s, u, [], m, 0, 0, 0, 0, false);
    var frames := EntriesOut(Added(u.log, v.log), k);
    if responds {
      ServerSideResponds(x, u, [], m, 0, 0, 0, 0);
      assert [] + frames == frames;
    } else {
      NothingWritten(u.log, k);
    }
    assert Writes(u.log, v.log, k, frames, 0);
    SideIsTidy(x, v, frames, m, 0, 0, 0, 0, responds);
    DidAllServerAside(v, after, x.host, k);
    ServerSideAside(x, v, w, frames, m, 0, 0, 0, 0, responds);
    WritesThen(s.log, u.log, v.log, k, [], 0, frames, 0);
    WritesThen(s.log, v.log, w.log, k, [] + frames, 0, [], 0);
    assert [] + frames + [] == frames;
  }

  lemma SideIsTidy(x: Exchange, s: S.ServerState, flight: seq<FrameKind>, taken: nat, got: nat, noted: nat,
      minted: nat, stray: nat, responded: bool)
    requires ServerSide(x, s, flight, taken, got, noted, minted, stray, responded)
    ensures Answering(s) && Keyed(s)
  {
  }

  /** A head or a chunk of the request reaches the server. */
  lemma ServerSideTakes(x: Exchange, s: S.ServerState, flight: seq<FrameKind>, taken: nat, got: nat, noted: nat,
      minted: nat, stray: nat, responded: bool, inner: seq<S.ServerOp>)
    requires ServerSide(x, s, flight, taken, got, noted, minted, stray, responded) && s.handler
    requires taken < |x.RequestFrames()| - 1
    ensures var kind := x.RequestFrames()[taken];
            var t := S.OnFrame(s, x.caller, Frame(x.Stream(), kind), inner, x.host);
            && Writes(s.log, t.log, x.PeerKey(), [], if kind.Body? then 1 else 0) && t.handler
            && ServerSide(x, t, flight, taken + 1, got, noted, minted, stray, responded)
  {
    hide Exchange.RequestFrames, Exchange.ResponseFrames, Exchange.RequestHead, Responding, BodyIn, EntriesOut,
         EntriesNoted, S.ServedFor, Wanted;
    RequestShaped(x);
    var k, m := x.PeerKey(), x.RequestFrames();
    var kind := m[taken];
    NothingWritten(s.log, k);
    OneEntry(s.log, S.Noted(x.caller, x.Stream()), k);
    assert m[..taken + 1] == m[..taken] + [kind];
    BodyInSnoc(m[..taken], kind);
    if taken == 0 {
      NothingIn();
    }
  }

  lemma NothingIn()
    ensures BodyIn([]) == []
  {
  }

  /** The request's end reaches the server: the handler is given the whole request. */
  lemma ServerSideEnds(x: Exchange, s: S.ServerState, flight: seq<FrameKind>, taken: nat, got: nat, noted: nat,
      minted: nat, stray: nat, responded: bool,
                       before: seq<S.ServerOp>, responds: bool, after: seq<S.ServerOp>)
    requires x.Fits() && ServerSide(x, s, flight, taken, got, noted, minted, stray, responded) && s.handler
    requires taken == |x.RequestFrames()| - 1
    requires OffServerOps(before, x.PeerKey()) && OffServerOps(after, x.PeerKey())
    ensures !responded && flight == [] && got == 0
    ensures var t := S.OnFrame(s, x.caller, Frame(x.Stream(), End), HandlerOps(x, before, responds, after), x.host);
            && EntriesNoted(Added(s.log, t.log), x.PeerKey()) == 0 && t.handler
            && ServerSide(x, t, EntriesOut(Added(s.log, t.log), x.PeerKey()), taken + 1, got, noted, minted, stray,
                          responds)
  {
    hide Exchange.RequestFrames, Exchange.Fits, ServerSide, EntriesOut, EntriesNoted, S.DidAll, HandlerOps,
         OffServerOps;
    var u := Handed(x, s, flight, taken, got, noted, minted, stray, responded);
    var k := x.PeerKey();
    var ops := HandlerOps(x, before, responds, after);
    HandlerRan(x, u, before, responds, after);
    var v := S.DidAll(u, ops, x.host);
    var frames := EntriesOut(Added(u.log, v.log), k);
    WritesThen(s.log, u.log, v.log, k, [], 0, frames, 0);
    assert [] + frames == frames;
    HandlerAside(x, v, frames, taken + 1, got, noted, minted, stray, responds);
  }

  /** Whether a handler is installed does not matter to the call's side. */
  lemma HandlerAside(x: Exchange, s: S.ServerState, flight: seq<FrameKind>, taken: nat, got: nat, noted: nat,
      minted: nat, stray: nat, responded: bool)
    requires ServerSide(x, s, flight, taken, got, noted, minted, stray, responded)
    ensures ServerSide(x, s.(handler := true), flight, taken, got, noted, minted, stray, responded)
  {
    hide Exchange.RequestFrames, Exchange.ResponseFrames, BodyIn, Blocked, BodyCount, EndsOnce, S.ServedFor;
  }

  /** The request leaves assembly for the handler, and its stream may answer. */
  lemma Handed(x: Exchange, s: S.ServerState, flight: seq<FrameKind>, taken: nat, got: nat, noted: nat,
      minted: nat, stray: nat, responded: bool)
    returns (u: S.ServerState)
    requires ServerSide(x, s, flight, taken, got, noted, minted, stray, responded) && taken == |x.RequestFrames()| - 1
    ensures !responded && flight == [] && got == 0 && noted == 0 && minted == 0 && stray == 0
    ensures x.PeerKey() in s.incoming
    ensures var open := S.OpenedFor(s, x.PeerKey(), x.caller);
            u == open.(handler := false, served := open.served + [S.RequestOf(s.incoming[x.PeerKey()], x.Stream())])
    ensures ServerSide(x, u, [], taken + 1, 0, 0, 0, 0, false) && Writes(s.log, u.log, x.PeerKey(), [], 0)
  {
    hide Exchange.RequestFrames, Exchange.ResponseFrames, Responding, BodyIn, EntriesOut,
         EntriesNoted, S.ServedFor;
    RequestShaped(x);
    var k, m := x.PeerKey(), x.RequestFrames();
    var request := S.RequestOf(s.incoming[k], x.Stream());
    u := S.OpenedFor(s, k, x.caller).(handler := false, served := s.served + [request]);
    OneEntry(s.log, S.Opened(k), k);
    assert request == Wanted(x);
    S.ServedSnoc(s.served, request, k);
    assert ServedHere(x, x.atServer) + [] == ServedHere(x, x.atServer);
  }

  /** The host turns a read noted into a credit. */
  lemma ServerSideMinted(x: Exchange, s: S.ServerState, flight: seq<FrameKind>, taken: nat, got: nat, noted: nat,
      minted: nat, stray: nat, responded: bool)
    requires ServerSide(x, s, flight, taken, got, noted, minted, stray, responded) && noted > 0
    ensures ServerSide(x, s, flight, taken, got, noted - 1, minted + 1, stray, responded)
  {
    hide Exchange.RequestFrames, Exchange.ResponseFrames, Receiving, Answering, Keyed;
  }

  /** Credit reaches the server, minted for this call or for another stream. */
  lemma ServerSideGranted(x: Exchange, s: S.ServerState, flight: seq<FrameKind>, taken: nat, got: nat, noted: nat,
    minted: nat, stray: nat, responded: bool, n: u32, minted': nat, stray': nat)
    requires x.Fits() && ServerSide(x, s, flight, taken, got, noted, minted, stray, responded)
    requires x.PeerKey() in s.outgoing ==>
               Conserved(Granted(s.outgoing[x.PeerKey()].box, n).credit, flight, noted, minted', stray')
    requires x.PeerKey() !in s.outgoing ==> stray' == stray
    requires !responded ==> minted' == 0
    ensures var t := S.OnFrame(s, x.caller, Frame(x.Stream(), Credit(n)), [], x.host);
            && EntriesNoted(Added(s.log, t.log), x.PeerKey()) == 0 && t.handler == s.handler
            && ServerSide(x, t, flight + EntriesOut(Added(s.log, t.log), x.PeerKey()), taken, got, noted, minted',
                          stray', responded)
  {
    hide Exchange.RequestFrames, Exchange.ResponseFrames, EntriesOut, EntriesNoted, BodyCount, S.Flush, EndsOnce,
      Willing, S.ServedFor, BodyIn, Granted, Conserved;
    var k := x.PeerKey();
    NothingWritten(s.log, k);
    assert flight + [] == flight;
    if k in s.outgoing {
      var u := s.(outgoing := s.outgoing[k := s.outgoing[k].(box := Granted(s.outgoing[k].box, n))]);
      GrantKeepsQueue(s.outgoing[k].box, n);
      if responded {
        RespondingFlushed(x, u, flight, got, noted, minted', stray');
      } else {
        BlockedStays(u, k, x.host);
        NothingWritten(u.log, k);
      }
    }
  }

  lemma BlockedStays(s: S.ServerState, k: S.PeerKey, host: Host)
    requires k in s.outgoing && s.outgoing[k].box.queued == []
    ensures S.Flush(s, k, host).0 == s
  {
  }

  // ---------------------------------------------------------------- every run

  ghost predicate Inv(x: Exchange, n: Net) {
    && ClientOk(n.client) && n.server.handler
    && ClientSide(x, n.client, n.toServer, n.taken, n.got, n.requestNoted, n.requestCredit, n.requestStray)
    && ServerSide(x, n.server, n.toClient, n.taken, n.got, n.responseNoted, n.responseCredit, n.responseStray,
                  n.responded)
  }

  /** The request goes out as far as the credit held allows. */
  lemma OpenedSide(x: Exchange)
    requires x.Fits()
    ensures var t := C.Open(x.atClient, x.to, x.transport, x.request, x.host);
            && ClientOk(t)
            && CallsNoted(Added(x.atClient.sent, t.sent), x.Key()) == 0
            && ClientSide(x, t, CallsOut(Added(x.atClient.sent, t.sent), x.Key()), 0, 0, 0, 0, 0)
  {
    var k, m := x.Key(), x.RequestFrames();
    var s := C.Inserted(x.atClient, x.to, x.transport, x.request);
    NewKeyIsNotReady(x.atClient, x.to);
    C.DidKeeps(x.atClient, C.OpenOp(x.to, x.transport, x.request), x.host, None);
    hide Exchange.ResponseFrames, C.ClientInv, CallsOut, CallsNoted, BodyCount, C.Flush, Blocked, Willing, Message,
         C.ReadyIs, ClientSide;
    SameReady(x.atClient, s, k);
    ResponseShaped(x);
    NothingFlying();
    assert [] + m == m == m[0..];
    ClientSideFlushed(x, s, [], 0, 0, 0, 0, 0);
    var out := CallsOut(Added(x.atClient.sent, C.Flush(s, k, x.host).sent), k);
    assert [] + out == out;
  }

  lemma NewKeyIsNotReady(s: C.ClientState, to: Address)
    requires C.ClientInv(s, None)
    ensures !C.ReadyIs(s, C.NextKey(s, to))
  {
  }

  lemma StartHolds(x: Exchange)
    requires x.Fits()
    ensures Inv(x, Start(x))
  {
    hide Exchange.ResponseFrames, Exchange.RequestFrames, ClientOk, ClientSide, CallsOut, CallsNoted, C.Open,
         Willing, S.ServedFor;
    OpenedSide(x);
    RequestShaped(x);
    var out := CallsOut(Added(x.atClient.sent, C.Open(x.atClient, x.to, x.transport, x.request, x.host).sent), x.Key());
    assert [] + out == out;
    assert ServedHere(x, x.atServer) + [] == ServedHere(x, x.atServer);
  }

  lemma NothingFlying()
    ensures BodyCount([]) == 0
  {
  }

  /** A head or a chunk arrives: nothing goes out. */
  lemma ReceivesChunk(x: Exchange, n: Net, before: seq<S.ServerOp>, responds: bool, after: seq<S.ServerOp>)
    requires x.Fits() && Inv(x, n) && Enabled(x, n, ServerReceives(before, responds, after))
    requires n.taken < |x.RequestFrames()| - 1
    ensures var m := Next(x, n, ServerReceives(before, responds, after));
            && Inv(x, m) && m.requestNoted <= n.requestNoted + 1 && m.responseNoted == n.responseNoted
  {
    hide Exchange.RequestFrames, ClientOk, ClientSide, ServerSide, EntriesOut, EntriesNoted, HandlerOps, S.OnFrame,
         OffServerOps;
    ClientSideTaken(x, n.client, n.toServer, n.taken, n.got, n.requestNoted, n.requestCredit, n.requestStray);
    RequestShaped(x);
    ServerSideTakes(x, n.server, n.toClient, n.taken, n.got, n.responseNoted, n.responseCredit, n.responseStray,
                    n.responded, HandlerOps(x, before, responds, after));
    assert n.toClient + [] == n.toClient;
  }

  /** The end arrives: the handler is called, and may respond. */
  lemma ReceivesEnd(x: Exchange, n: Net, before: seq<S.ServerOp>, responds: bool, after: seq<S.ServerOp>)
    requires x.Fits() && Inv(x, n) && Enabled(x, n, ServerReceives(before, responds, after))
    requires n.taken == |x.RequestFrames()| - 1
    ensures var m := Next(x, n, ServerReceives(before, responds, after));
            && Inv(x, m) && m.requestNoted <= n.requestNoted + 1 && m.responseNoted == n.responseNoted
  {
    hide Exchange.RequestFrames, Exchange.Fits, Exchange.PeerKey, Exchange.Stream, ClientOk, ClientSide,
         ServerSide, EntriesOut, EntriesNoted, HandlerOps, S.OnFrame, OffServerOps, EndsOnce;
    NoneNoted(x, n);
    ClientSideTaken(x, n.client, n.toServer, n.taken, n.got, n.requestNoted, n.requestCredit, n.requestStray);
    RequestShaped(x);
    ServerSideEnds(x, n.server, n.toClient, n.taken, n.got, n.responseNoted, n.responseCredit, n.responseStray,
                   n.responded, before, responds, after);
    var out := EntriesOut(Added(n.server.log, ServerGets(x, n.server, End, HandlerOps(x, before, responds, after)).log),
                          x.PeerKey());
    assert [] + out == out;
  }

  /** Before the request is whole nothing of the response has been read. */
  lemma NoneNoted(x: Exchange, n: Net)
    requires Inv(x, n) && n.taken < |x.RequestFrames()|
    ensures n.responseNoted == 0 && n.responseCredit == 0 && !n.responded
  {
    hide Exchange.RequestFrames, ClientOk, ClientSide, Receiving, Responding;
  }

  lemma ReceivesHolds(x: Exchange, n: Net, before: seq<S.ServerOp>, responds: bool, after: seq<S.ServerOp>)
    requires x.Fits() && Inv(x, n) && Enabled(x, n, ServerReceives(before, responds, after))
    ensures var m := Next(x, n, ServerReceives(before, responds, after));
            && Inv(x, m) && n.taken < |x.RequestFrames()|
            && m.requestNoted <= n.requestNoted + 1 && m.responseNoted == n.responseNoted
  {
    hide Exchange.RequestFrames, ClientOk, ClientSide, ServerSide, Next, OffServerOps;
    ClientSideTaken(x, n.client, n.toServer, n.taken, n.got, n.requestNoted, n.requestCredit, n.requestStray);
    if n.taken < |x.RequestFrames()| - 1 {
      ReceivesChunk(x, n, before, responds, after);
    } else {
      ReceivesEnd(x, n, before, responds, after);
    }
  }

  predicate GivesCredit(step: Step) {
    step.ClientCredited? || step.ServerCredited? || step.ClientStrayed? || step.ServerStrayed?
  }

  lemma CreditHolds(x: Exchange, n: Net, step: Step)
    requires x.Fits() && Inv(x, n) && Enabled(x, n, step) && GivesCredit(step)
    ensures Inv(x, Next(x, n, step))
    ensures Next(x, n, step).requestNoted == n.requestNoted && Next(x, n, step).responseNoted == n.responseNoted
  {
    if step.ClientCredited? || step.ClientStrayed? {
      ClientCreditHolds(x, n, step);
    } else {
      ServerCreditHolds(x, n, step);
    }
  }

  lemma ClientCreditHolds(x: Exchange, n: Net, step: Step)
    requires x.Fits() && Inv(x, n) && Enabled(x, n, step) && (step.ClientCredited? || step.ClientStrayed?)
    ensures Inv(x, Next(x, n, step))
    ensures Next(x, n, step).requestNoted == n.requestNoted && Next(x, n, step).responseNoted == n.responseNoted
  {
    hide Exchange.RequestFrames, Exchange.ResponseFrames, ClientOk, ServerSide, CallsOut, CallsNoted, C.OnFrame,
      BodyCount, SeenIs, Blocked, Willing, C.ReadyIs, Conserved, Granted;
    TablesOk(x, n);
    var k := x.Key();
    var n', stray' := if step.ClientCredited? then 1 else step.credit, Next(x, n, step).requestStray;
    if k in n.client.streams {
      OpenIsConserved(x, n);
      GrantConserves(n.client.streams[k].box, n.toServer, n.requestNoted, n.requestCredit, n.requestStray, n');
    }
    ClientSideGranted(x, n.client, n.toServer, n.taken, n.got, n.requestNoted, n.requestCredit, n.requestStray,
                      n', Next(x, n, step).requestCredit, stray');
  }

  lemma OpenIsConserved(x: Exchange, n: Net)
    requires Inv(x, n) && x.Key() in n.client.streams
    ensures Conserved(n.client.streams[x.Key()].box.credit, n.toServer, n.requestNoted, n.requestCredit, n.requestStray)
  {
    hide Exchange.RequestFrames, Exchange.ResponseFrames, ClientOk, ServerSide, SeenIs, C.ReadyIs, Conserved;
  }

  lemma AnsweringIsConserved(x: Exchange, n: Net)
    requires Inv(x, n) && x.PeerKey() in n.server.outgoing
    ensures Conserved(n.server.outgoing[x.PeerKey()].box.credit, n.toClient, n.responseNoted, n.responseCredit,
                      n.responseStray)
  {
    hide Exchange.RequestFrames, Exchange.ResponseFrames, ClientOk, ClientSide, Receiving, Conserved, Answering, Keyed;
  }

  lemma ServerCreditHolds(x: Exchange, n: Net, step: Step)
    requires x.Fits() && Inv(x, n) && Enabled(x, n, step) && (step.ServerCredited? || step.ServerStrayed?)
    ensures Inv(x, Next(x, n, step))
    ensures Next(x, n, step).requestNoted == n.requestNoted && Next(x, n, step).responseNoted == n.responseNoted
  {
    hide Exchange.RequestFrames, Exchange.ResponseFrames, ClientOk, ClientSide, EntriesOut, EntriesNoted, S.OnFrame,
      BodyCount, Receiving, Responding, Blocked, Willing, Conserved, Granted, Answering, Keyed;
    var k := x.PeerKey();
    var n' := if step.ServerCredited? then 1 else step.credit;
    if k in n.server.outgoing {
      AnsweringIsConserved(x, n);
      GrantConserves(n.server.outgoing[k].box, n.toClient, n.responseNoted, n.responseCredit, n.responseStray, n');
    }
    ServerSideGranted(x, n.server, n.toClient, n.taken, n.got, n.responseNoted, n.responseCredit, n.responseStray,
                      n.responded, n', Next(x, n, step).responseCredit, Next(x, n, step).responseStray);
  }

  lemma OtherHolds(x: Exchange, n: Net, step: Step)
    requires x.Fits() && Inv(x, n) && Enabled(x, n, step) && !step.ServerReceives? && !GivesCredit(step)
    ensures Inv(x, Next(x, n, step))
    ensures step.ClientReceives? ==>
              && n.got < |x.ResponseFrames()| && Next(x, n, step).requestNoted == n.requestNoted
              && Next(x, n, step).responseNoted <= n.responseNoted + 1
    ensures step.MintForClient? || step.MintForServer? ||
            (!step.ClientReceives? ==>
               Next(x, n, step).requestNoted == n.requestNoted && Next(x, n, step).responseNoted == n.responseNoted)
  {
    hide Exchange.RequestFrames, Exchange.ResponseFrames, ClientOk, EntriesOut, EntriesNoted, CallsOut, CallsNoted,
         C.OnFrame, C.Apply, S.OnFrame, S.Apply, S.Did, BodyCount, Responding, Receiving, SeenIs, Blocked, Willing,
         OffOps, OffAction, OffServerAction, Answering, Keyed, C.ReadyIs, Served, ServerAside;
    TablesOk(x, n);
    match step
    case MintForClient =>
    case AppResponds =>
      ServedIsWhole(x, n.server, n.taken);
      ServerSideResponds(x, n.server, n.toClient, n.taken, n.got, n.responseNoted, n.responseCredit, n.responseStray);
    case ClientReceives(inner) =>
      ServerSideGot(x, n.server, n.toClient, n.taken, n.got, n.responseNoted, n.responseCredit, n.responseStray,
                    n.responded);
      ClientSideGets(x, n.client, n.toServer, n.taken, n.got, n.requestNoted, n.requestCredit, n.requestStray, inner);
      assert n.toServer + [] == n.toServer;
    case MintForServer =>
      ServerSideMinted(x, n.server, n.toClient, n.taken, n.got, n.responseNoted, n.responseCredit, n.responseStray,
                       n.responded);
    case ClientActs(c) =>
      ClientSideAside(x, n.client, n.toServer, n.taken, n.got, n.requestNoted, n.requestCredit, n.requestStray, c);
      assert n.toServer + [] == n.toServer;
    case ServerActs(a) =>
      ServerActsAside(n.server, a, x.host, x.PeerKey());
      ServerSideAside(x, n.server, S.Apply(n.server, a, x.host), n.toClient, n.taken, n.got, n.responseNoted,
                      n.responseCredit, n.responseStray, n.responded);
      StillHandled(n.server, S.Apply(n.server, a, x.host), x.PeerKey());
      assert n.toClient + [] == n.toClient;
  }

  lemma TablesOk(x: Exchange, n: Net)
    requires Inv(x, n)
    ensures n.client.streams.Keys <= n.client.seen.Keys && Answering(n.server) && Keyed(n.server)
  {
  }

  lemma StillHandled(s: S.ServerState, t: S.ServerState, k: S.PeerKey)
    requires ServerAside(s, t, k) && s.handler
    ensures t.handler
  {
  }

  /** What is left of the call, at most. */
  function Left(x: Exchange, n: Net): int {
    3 * (|x.RequestFrames()| - n.taken) + 3 * (|x.ResponseFrames()| - n.got)
    + 2 * n.requestNoted + n.requestCredit + 2 * n.responseNoted + n.responseCredit
    + (if n.responded then 0 else 1)
  }

  lemma LeftIsNat(x: Exchange, n: Net)
    requires Inv(x, n)
    ensures 0 <= Left(x, n)
  {
    hide Exchange.RequestFrames, Exchange.ResponseFrames, ClientOk, ServerSide, Conserved, C.ReadyIs;
  }

  /** Every step of any interleaving keeps both sides; a step of the call brings its end nearer, and
      what happens elsewhere does not take it further away. */
  lemma NextHolds(x: Exchange, n: Net, step: Step)
    requires x.Fits() && Inv(x, n) && Enabled(x, n, step)
    ensures Inv(x, Next(x, n, step))
    ensures 0 <= Left(x, Next(x, n, step)) <= Left(x, n) - (if step.Own() then 1 else 0)
  {
    hide Exchange.RequestFrames, Exchange.ResponseFrames, Inv, EntriesOut, EntriesNoted, CallsOut, CallsNoted,
         C.OnFrame, C.Apply, S.OnFrame, S.Apply, S.Did, Served, OffOps, OffAction, OffServerAction, OffServerOps;
    if step.ServerReceives? {
      ReceivesHolds(x, n, step.before, step.responds, step.after);
    } else if GivesCredit(step) {
      CreditHolds(x, n, step);
    } else {
      OtherHolds(x, n, step);
    }
    LeftIsNat(x, Next(x, n, step));
  }

  function OwnSteps(steps: seq<Step>): nat {
    if steps == [] then 0 else (if steps[0].Own() then 1 else 0) + OwnSteps(steps[1..])
  }

  lemma {:induction false} RunsHold(x: Exchange, n: Net, steps: seq<Step>, m: Net)
    requires x.Fits() && Inv(x, n) && Runs(x, n, steps, m)
    ensures Inv(x, m) && 0 <= Left(x, m) <= Left(x, n) - OwnSteps(steps)
    decreases |steps|
  {
    hide Inv, Left, Next, Enabled, Exchange.Fits;
    if steps != [] {
      NextHolds(x, n, steps[0]);
      RunsHold(x, Next(x, n, steps[0]), steps[1..], m);
    } else {
      LeftIsNat(x, n);
    }
  }

  lemma StartLeft(x: Exchange)
    requires x.Fits()
    ensures Left(x, Start(x)) == 3 * |x.RequestFrames()| + 3 * |x.ResponseFrames()| + 1
  {
    hide Exchange.ResponseFrames, Exchange.RequestFrames, ClientSide, ClientOk, CallsOut, CallsNoted, C.Open;
    OpenedSide(x);
  }

  // ---------------------------------------------------------------- what it comes to

  /** The call itself can take no step. */
  ghost predicate Stuck(x: Exchange, n: Net) {
    forall step :: Enabled(x, n, step) ==> !step.Own()
  }

  /** Over every interleaving, in each direction while its stream is open: the sender's credit, the
      body frames in flight, the reads noted and the credits on their way back are together 4 and what
      strayed in; so always 4 when nothing strays. */
  lemma CreditIsConserved(x: Exchange, steps: seq<Step>, n: Net)
    requires x.Fits() && Runs(x, Start(x), steps, n)
    ensures n.got < |x.ResponseFrames()| ==>
              && x.Key() in n.client.streams
              && Conserved(n.client.streams[x.Key()].box.credit, n.toServer, n.requestNoted, n.requestCredit,
                           n.requestStray)
    ensures x.PeerKey() in n.server.outgoing ==>
              Conserved(n.server.outgoing[x.PeerKey()].box.credit, n.toClient, n.responseNoted, n.responseCredit,
                        n.responseStray)
  {
    hide Start, Runs, Exchange.RequestFrames, Exchange.ResponseFrames, SeenIs, ClientOk, C.ReadyIs, Receiving,
         Answering, Keyed;
    StartHolds(x);
    RunsHold(x, Start(x), steps, n);
    if x.PeerKey() in n.server.outgoing {
      AnsweringIsConserved(x, n);
    }
  }

  /** The events seen carry the body frames' bytes. */
  lemma {:induction false} EventsCarry(frames: seq<FrameKind>, events: seq<ClientEvent>, via: Via)
    requires |events| == |frames|
    requires forall i :: 0 <= i < |frames| ==>
               (frames[i].RespHead? || frames[i].Body? || frames[i].End?) && events[i] == EventOf(frames[i], via)
    ensures W.BodyOf(events) == BodyIn(frames)
  {
    if frames != [] {
      EventsCarry(frames[..|frames| - 1], events[..|events| - 1], via);
    }
  }

  /** What either side has received is always a prefix of what the other was given to send. */
  lemma ReceivedIsPrefix(x: Exchange, steps: seq<Step>, n: Net)
    requires x.Fits() && Runs(x, Start(x), steps, n)
    ensures x.PeerKey() in n.server.incoming ==> n.server.incoming[x.PeerKey()].body <= x.request.body
    ensures x.Key() in n.client.seen && W.BodyOf(n.client.seen[x.Key()]) <= x.response
  {
    hide Start, Runs, Exchange.RequestFrames, Exchange.ResponseFrames, BodyIn, W.BodyOf, ClientOk, C.ReadyIs,
         Answering, Keyed, S.ServedFor;
    StartHolds(x);
    RunsHold(x, Start(x), steps, n);
    RequestShaped(x);
    ResponseShaped(x);
    BodyInPrefix(x.RequestFrames(), n.taken);
    BodyInPrefix(x.ResponseFrames(), n.got);
    EventsCarry(x.ResponseFrames()[..n.got], n.client.seen[x.Key()], x.callee.via);
  }

  /** With nothing in flight and no credit on its way, a blocked sender has sent everything. */
  lemma QuietClient(x: Exchange, s: C.ClientState, taken: nat, got: nat, stray: nat)
    requires ClientSide(x, s, [], taken, got, 0, 0, stray)
    ensures taken == |x.RequestFrames()|
  {
    hide Exchange.RequestFrames, Exchange.ResponseFrames, SeenIs, C.ReadyIs;
    NothingFlying();
    if got < |x.ResponseFrames()| {
      var queued := s.streams[x.Key()].box.queued;
      assert [] + queued == queued;
    }
  }

  lemma QuietServer(x: Exchange, s: S.ServerState, taken: nat, got: nat, stray: nat)
    requires ServerSide(x, s, [], taken, got, 0, 0, stray, true)
    ensures got == |x.ResponseFrames()|
  {
    hide Exchange.RequestFrames, Exchange.ResponseFrames, Receiving, Answering, Keyed;
    NothingFlying();
  }

  lemma NothingEnabled(x: Exchange, n: Net)
    requires Stuck(x, n)
    ensures n.toServer == [] && n.requestNoted == 0 && n.requestCredit == 0
    ensures n.toClient == [] && n.responseNoted == 0 && n.responseCredit == 0
    ensures !Served(x, n.server) || n.responded
  {
    hide Served;
    assert !Enabled(x, n, ServerReceives([], false, [])) && !Enabled(x, n, MintForClient)
           && !Enabled(x, n, ClientCredited);
    assert !Enabled(x, n, ClientReceives([])) && !Enabled(x, n, MintForServer) && !Enabled(x, n, ServerCredited);
    assert !Enabled(x, n, AppResponds);
  }

  /** No reachable state is stuck before the client has seen `End`. */
  lemma NeverStuck(x: Exchange, n: Net)
    requires x.Fits() && Inv(x, n) && Stuck(x, n)
    ensures n.got == |x.ResponseFrames()| && n.taken == |x.RequestFrames()|
  {
    NothingEnabled(x, n);
    hide Exchange.RequestFrames, Exchange.ResponseFrames, ClientOk, ClientSide, Receiving, Responding, Answering,
         Keyed, Stuck, Served;
    QuietClient(x, n.client, n.taken, n.got, n.requestStray);
    ServedIsWhole(x, n.server, n.taken);
    QuietServer(x, n.server, n.taken, n.got, n.responseStray);
  }

  /** The client's app is given the whole response, and the server's the whole request, once each. */
  ghost predicate Delivered(x: Exchange, n: Net) {
    && ServedHere(x, n.server) == ServedHere(x, x.atServer) + [Wanted(x)]
    && x.Key() in n.client.seen
    && W.FedAll(n.client.seen[x.Key()]).answers == [Ok(Response(x.ResponseHead(), x.callee.via, x.response))]
  }

  lemma AllSeenIsDelivered(x: Exchange, n: Net)
    requires Inv(x, n) && n.got == |x.ResponseFrames()| && n.taken == |x.RequestFrames()|
    ensures Delivered(x, n)
  {
    hide Exchange.RequestFrames, Exchange.ResponseFrames, BodyIn, W.BodyOf, Wanted, ClientOk, C.ReadyIs, Answering,
         Keyed, S.ServedFor;
    ResponseShaped(x);
    var r, events := x.ResponseFrames(), n.client.seen[x.Key()];
    var front := events[..|events| - 1];
    EventsCarry(r[..|r| - 1], front, x.callee.via);
    W.BeforeTheEnd(front);
    HeadIsFirst(front, x.ResponseHead(), x.callee.via);
    assert events[|events| - 1] == EndEvent;
  }

  lemma {:induction false} HeadIsFirst(events: seq<ClientEvent>, head: ResponseHead, via: Via)
    requires events != [] && events[0] == HeadEvent(head, via)
    requires forall i :: 0 < i < |events| ==> events[i].BodyEvent?
    ensures W.HeadSeen(events) == Some((head, via))
  {
    if |events| > 1 {
      HeadIsFirst(events[..|events| - 1], head, via);
    }
  }

  /** In every interleaving, with anything else happening on either side, the call takes at most
      three steps a frame and one; and where it can take no further, both bodies have been handed
      over whole. */
  lemma EveryRunDelivers(x: Exchange, steps: seq<Step>, n: Net)
    requires x.Fits() && Runs(x, Start(x), steps, n)
    ensures OwnSteps(steps) <= 3 * |x.RequestFrames()| + 3 * |x.ResponseFrames()| + 1
    ensures Stuck(x, n) ==> Delivered(x, n)
  {
    hide Runs, Exchange.RequestFrames, Exchange.ResponseFrames, Inv, Left, Start, Delivered, Stuck, Exchange.Fits;
    StartHolds(x);
    StartLeft(x);
    RunsHold(x, Start(x), steps, n);
    if Stuck(x, n) {
      NeverStuck(x, n);
      AllSeenIsDelivered(x, n);
    }
  }

  /** And every run so far can be carried on to such an end. */
  lemma {:induction false} EveryRunCanGoOn(x: Exchange, n: Net) returns (steps: seq<Step>, m: Net)
    requires x.Fits() && Inv(x, n)
    ensures Runs(x, n, steps, m) && Stuck(x, m) && Delivered(x, m)
    decreases Left(x, n)
  {
    hide Next, Inv, Delivered, Left, Enabled, Exchange.Fits;
    if Stuck(x, n) {
      NeverStuck(x, n);
      AllSeenIsDelivered(x, n);
      return [], n;
    }
    var step :| Enabled(x, n, step) && step.Own();
    NextHolds(x, n, step);
    steps, m := EveryRunCanGoOn(x, Next(x, n, step));
    assert ([step] + steps)[1..] == steps;
    steps := [step] + steps;
  }
}
