/** How each stream of the calling side ends, exactly, over every run: which action ends it and with
    what last event, what its sink sees, and that a refused frame is the last of its stream. */
module ClientStreams {
  import opened Basics
  import opened Frames
  import opened Outbox
  import opened Client
  import opened Flushes
  import opened Elsewhere

  /** What has become of a stream: it is open; it is over, with its last event queued for its sink or
      seen; or its sink was dropped. */
  datatype Fate = Live | Over(event: ClientEvent) | Silenced

  /** The events queued for `k`'s sink. */
  function QueuedFor(ready: seq<(Key, ClientEvent)>, k: Key): seq<ClientEvent> {
    if ready == [] then []
    else (if ready[0].0 == k then [ready[0].1] else []) + QueuedFor(ready[1..], k)
  }

  function FateOf(s: ClientState, k: Key): Fate {
    var queued := QueuedFor(s.ready, k);
    if k in s.streams then Live
    else if queued != [] then Over(queued[0])
    else if k in s.seen && Ended(s.seen[k]) then Over(s.seen[k][|s.seen[k]| - 1])
    else Silenced
  }

  /** What a response frame of `k` shows its sink. */
  function EventOf(from: Caller, kind: FrameKind): ClientEvent
    requires kind.RespHead? || kind.Body? || kind.End? || kind.Cancel?
  {
    match kind
    case RespHead(head) => HeadEvent(head, from.via)
    case Body(bytes) => BodyEvent(bytes)
    case End => EndEvent
    case Cancel(reason) => FailedEvent(RefusalOf(reason))
  }

  /** What the app does during an action: its sinks run for the response frames of an open stream, and
      for queued last events. */
  function DoneIn(s: ClientState, a: Action): seq<AppOp> {
    match a
    case AppDid(op) => [op]
    case FrameIn(from, frame, inner) => if RunsSink(s, a, Key(from.appId, frame.stream)) then inner else []
    case LateRefusal(_, _) => []
    case TaskRan(inner) => if s.ready == [] then [] else inner
  }

  /** A frame of `k`'s request. */
  predicate IsRequest(call: Call, k: Key) {
    call.Sent? && KeyOfCall(call) == k && !call.frame.kind.Cancel?
  }

  /** The host refused, at once, a frame of `k`'s request made from position `from` on. */
  ghost predicate RefusedSince(calls: seq<Call>, from: nat, host: Host, k: Key, why: Refused) {
    exists p :: from <= p < |calls| && IsRequest(calls[p], k) && host(p) == RefusedNow(why)
  }

  // ---------------------------------------------------------------- the queue of last events

  lemma {:induction false} QueuedSnoc(ready: seq<(Key, ClientEvent)>, j: Key, event: ClientEvent, k: Key)
    ensures QueuedFor(ready + [(j, event)], k) == QueuedFor(ready, k) + if j == k then [event] else []
  {
    if ready == [] {
      assert [(j, event)][1..] == [];
    } else {
      assert (ready + [(j, event)])[1..] == ready[1..] + [(j, event)];
      QueuedSnoc(ready[1..], j, event, k);
    }
  }

  lemma {:induction false} QueuedIs(ready: seq<(Key, ClientEvent)>, k: Key)
    ensures QueuedFor(ready, k) == [] <==> forall j :: 0 <= j < |ready| ==> ready[j].0 != k
  {
    if ready != [] {
      QueuedIs(ready[1..], k);
      assert forall j :: 1 <= j < |ready| ==> ready[j] == ready[1..][j - 1];
    }
  }

  lemma NoneQueued(s: ClientState, k: Key, out: Option<Key>)
    requires Sinks(s, out) && (k in s.streams || out == Some(k))
    ensures QueuedFor(s.ready, k) == []
  {
    QueuedIs(s.ready, k);
  }

  // ---------------------------------------------------------------- what the app's operations do to one stream

  /** The server of `k`'s stream was sent a `Cancel`. */
  ghost predicate CancelWent(s: ClientState, t: ClientState, k: Key)
    requires k in s.streams
  {
    exists p :: |s.sent| <= p < |t.sent|
      && t.sent[p] == Sent(s.streams[k].to, Frame(k.stream, FrameKind.Cancel("caller")), s.streams[k].transport)
  }

  /** From `s` to `t` nothing happened to `k` but, if `cancel`, the app cancelled it: it left the table
      if it was there, with a failure queued unless its sink was out. No frame of its request went. */
  ghost predicate Did1(s: ClientState, t: ClientState, k: Key, cancel: bool) {
    && s.last <= t.last && Addressed(t) && s.sent <= t.sent
    && (forall p :: |s.sent| <= p < |t.sent| ==> !IsRequest(t.sent[p], k))
    && (k in s.seen ==> k in t.seen && t.seen[k] == s.seen[k])
    && if k in s.streams && cancel then
         && k !in t.streams && CancelWent(s, t, k)
         && QueuedFor(t.ready, k) == QueuedFor(s.ready, k)
                                     + if s.streams[k].sink then [FailedEvent(Unavailable("caller"))] else []
       else
         && (k in t.streams <==> k in s.streams) && (k in s.streams ==> t.streams[k] == s.streams[k])
         && QueuedFor(t.ready, k) == QueuedFor(s.ready, k)
  }

  lemma Did1Then(s: ClientState, t: ClientState, u: ClientState, k: Key, c: bool, d: bool)
    requires Did1(s, t, k, c) && Did1(t, u, k, d)
    ensures Did1(s, u, k, c || d)
  {
    hide Addressed;
    forall p | |s.sent| <= p < |u.sent| ensures !IsRequest(u.sent[p], k) {
      assert p < |t.sent| ==> u.sent[p] == t.sent[p];
    }
    if k in s.streams && c {
      CancelStays(s, t, s, u, k);
    } else if k in s.streams && d {
      CancelStays(t, u, s, u, k);
    }
  }

  lemma CancelStays(s: ClientState, t: ClientState, r: ClientState, u: ClientState, k: Key)
    requires k in s.streams && CancelWent(s, t, k) && |r.sent| <= |s.sent| && t.sent <= u.sent
    requires k in r.streams && r.streams[k].to == s.streams[k].to && r.streams[k].transport == s.streams[k].transport
    ensures CancelWent(r, u, k)
  {
    var p :| |s.sent| <= p < |t.sent|
      && t.sent[p] == Sent(s.streams[k].to, Frame(k.stream, FrameKind.Cancel("caller")), s.streams[k].transport);
    assert u.sent[p] == t.sent[p];
  }

  /** Sending on another stream. */
  lemma OtherFlushed(s: ClientState, j: Key, host: Host, k: Key)
    requires Addressed(s) && j != k
    ensures Did1(s, Flush(s, j, host), k, false)
  {
    hide Flush, BodyCount, Goes;
    if j in s.streams {
      var m := ClientFlushIs(s, j, host);
      GoesWithin(s.streams[j].box, m, |s.sent|, host, false);
      OtherSent(s, j, m, host, Flush(s, j, host), k);
    } else {
      FlushedNothing(s, j, host);
    }
  }

  lemma FlushedNothing(s: ClientState, j: Key, host: Host)
    requires j !in s.streams
    ensures Flush(s, j, host) == s
  {
  }

  lemma OtherSent(s: ClientState, j: Key, m: nat, host: Host, t: ClientState, k: Key)
    requires Addressed(s) && j != k && j in s.streams && m <= |s.streams[j].box.queued|
    requires BodyCount(s.streams[j].box.queued[..m]) <= s.streams[j].box.credit
    requires ClientSent(s, j, m, host, t)
    ensures Did1(s, t, k, false)
  {
    hide BodyCount, QueuedFor;
    SentCalls(s, j, m, host, t);
    SentStreams(s, j, m, host, t);
    if m > 0 && host(|s.sent| + m - 1).RefusedNow? && s.streams[j].sink {
      QueuedSnoc(s.ready, j, FailedEvent(host(|s.sent| + m - 1).why), k);
    }
  }

  lemma SentStreams(s: ClientState, j: Key, m: nat, host: Host, t: ClientState)
    requires Addressed(s) && j in s.streams && m <= |s.streams[j].box.queued|
    requires BodyCount(s.streams[j].box.queued[..m]) <= s.streams[j].box.credit
    requires ClientSent(s, j, m, host, t)
    ensures Addressed(t)
    ensures forall k :: k != j
                        ==> (k in t.streams <==> k in s.streams) && (k in s.streams ==> t.streams[k] == s.streams[k])
  {
    hide BodyCount;
    forall k | k != j
      ensures (k in t.streams <==> k in s.streams) && (k in s.streams ==> t.streams[k] == s.streams[k])
    {
      assert k in t.streams <==> k in t.streams - {j};
      assert k in t.streams ==> t.streams[k] == (t.streams - {j})[k];
    }
  }

  /** The calls a flush of `j` makes are frames of `j`'s request. */
  lemma SentCalls(s: ClientState, j: Key, m: nat, host: Host, t: ClientState)
    requires Addressed(s) && j in s.streams && m <= |s.streams[j].box.queued|
    requires BodyCount(s.streams[j].box.queued[..m]) <= s.streams[j].box.credit
    requires ClientSent(s, j, m, host, t)
    ensures s.sent <= t.sent && |t.sent| == |s.sent| + m
    ensures forall p :: |s.sent| <= p < |t.sent| ==>
              t.sent[p].Sent? && KeyOfCall(t.sent[p]) == j
              && t.sent[p].frame.kind == s.streams[j].box.queued[p - |s.sent|]
  {
    hide BodyCount;
    var calls := Calls(s.streams[j], j.stream, s.streams[j].box.queued[..m]);
    forall p | |s.sent| <= p < |t.sent| ensures t.sent[p] == calls[p - |s.sent|] {
    }
  }

  lemma DidOne(s: ClientState, op: AppOp, host: Host, k: Key)
    requires Addressed(s) && !Opens(s, op, k)
    ensures Did1(s, Did(s, op, host), k, op == CancelOp(k))
  {
    hide Flush, Queued, QueuedFor;
    match op
    case OpenOp(to, transport, request) =>
      var t, j := Inserted(s, to, transport, request), NextKey(s, to);
      assert Did1(s, t, k, false);
      OtherFlushed(t, j, host, k);
      Did1Then(s, t, Flush(t, j, host), k, false, false);
    case CancelOp(j) =>
      if j in s.streams && s.streams[j].sink {
        QueuedSnoc(s.ready, j, FailedEvent(RefusalOf(CALLER)), k);
      }
      if j in s.streams {
        assert Did(s, op, host).sent[|s.sent|].Sent?;
      }
  }

  /** The operation opens `k`. */
  predicate Opens(s: ClientState, op: AppOp, k: Key) {
    op.OpenOp? && NextKey(s, op.to) == k
  }

  lemma {:induction false} DidEach(s: ClientState, ops: seq<AppOp>, host: Host, k: Key)
    requires Addressed(s) && k.stream <= s.last
    ensures Did1(s, DidAll(s, ops, host), k, CancelOp(k) in ops)
    decreases |ops|
  {
    hide Did, QueuedFor, Addressed;
    if ops != [] {
      var t := Did(s, ops[0], host);
      DidOne(s, ops[0], host, k);
      DidEach(t, ops[1..], host, k);
      assert CancelOp(k) in ops <==> ops[0] == CancelOp(k) || CancelOp(k) in ops[1..];
      Did1Then(s, t, DidAll(s, ops, host), k, ops[0] == CancelOp(k), CancelOp(k) in ops[1..]);
    }
  }

  // ---------------------------------------------------------------- sending on the stream itself

  /** A frame refused ends its stream: the refusal is queued, and no frame went after it. */
  lemma OwnFlushed(s: ClientState, k: Key, host: Host)
    requires Addressed(s) && k in s.streams && s.streams[k].sink && QueuedFor(s.ready, k) == []
    requires NoCancels(s.streams[k].box)
    ensures var t := Flush(s, k, host);
            && Addressed(t) && s.sent <= t.sent && t.seen == s.seen && t.last == s.last
            && (forall p, why :: |s.sent| <= p < |t.sent| && IsRequest(t.sent[p], k) && host(p) == RefusedNow(why) ==>
                  p == |t.sent| - 1 && k !in t.streams && QueuedFor(t.ready, k) == [FailedEvent(why)])
            && (k !in t.streams ==> exists why :: RefusedSince(t.sent, |s.sent|, host, k, why))
            && (k in t.streams ==> QueuedFor(t.ready, k) == [] && t.streams[k].sink && NoCancels(t.streams[k].box)
                                   && t.ready == s.ready)
  {
    hide Flush, BodyCount, QueuedFor, Addressed, Goes;
    var t, n := Flush(s, k, host), |s.sent|;
    var m := ClientFlushIs(s, k, host);
    GoesWithin(s.streams[k].box, m, n, host, false);
    SentCalls(s, k, m, host, t);
    SentStreams(s, k, m, host, t);
    forall p, why | n <= p < |t.sent| && IsRequest(t.sent[p], k) && host(p) == RefusedNow(why)
      ensures p == n + m - 1
    {
      OnlyLastRefused(s.streams[k].box, m, n, host, p);
    }
    if m > 0 && host(n + m - 1).RefusedNow? {
      QueuedSnoc(s.ready, k, FailedEvent(host(n + m - 1).why), k);
      assert IsRequest(t.sent[n + m - 1], k);
      assert RefusedSince(t.sent, n, host, k, host(n + m - 1).why);
    }
  }

  lemma OnlyLastRefused(b: Box, m: nat, n: nat, host: Host, p: nat)
    requires Goes(b, m, n, host, false) && n <= p < n + m && host(p).RefusedNow?
    ensures p == n + m - 1
  {
    hide BodyCount;
    assert host(n + (p - n)) == host(p);
    assert 0 <= p - n < m - 1 ==> !Ends(b.queued[p - n], host(n + (p - n)), false);
  }

  /** A request is never a cancel. */
  ghost predicate NoCancels(b: Box) {
    forall p :: 0 <= p < |b.queued| ==> !b.queued[p].Cancel?
  }

  // ---------------------------------------------------------------- what an action does to one stream

  /** What every reachable table has besides: streams keyed by the app they call, and requests. */
  ghost predicate Sound(s: ClientState) {
    && ClientInv(s, None) && Addressed(s)
    && (forall k :: k in s.streams ==> NoCancels(s.streams[k].box))
    && (forall p, k :: 0 <= p < |s.sent| && IsRequest(s.sent[p], k) ==> k in s.seen)
  }

  /** What a frame that runs `k`'s own sink makes of it. */
  ghost predicate SinkRan(s: ClientState, a: Action, t: ClientState, k: Key)
    requires RunsSink(s, a, k) && k in s.seen
  {
    var event := EventOf(a.from, a.frame.kind);
    && k in t.seen && t.seen[k] == s.seen[k] + [event]
    && FateOf(t, k) == (if event.Terminal() then Over(event) else if CancelOp(k) in a.inner then Silenced else Live)
    && (k in t.streams ==> t.streams[k] == s.streams[k])
    && (CancelOp(k) in a.inner ==> CancelWent(s, t, k))
  }

  /** Running a sink: it is taken, the app does what it does, it goes back, and a chunk is noted. */
  lemma RunIs(s: ClientState, a: Action, host: Host, j: Key)
    requires Sound(s) && RunsSink(s, a, j)
    ensures j in s.seen && s.streams[j].sink
    ensures var event := EventOf(a.from, a.frame.kind);
            var v := DidAll(SinkTaken(s, j, event), a.inner, host);
            && SinkBack(v, j, event.Terminal()).sent == v.sent
            && Apply(s, a, host) == SinkBack(v, j, event.Terminal()).(sent := v.sent + Noted(a, j))
  {
    hide DidAll, Quiet, Accounted, Addressed, NoCancels;
    var event := EventOf(a.from, a.frame.kind);
    var v := DidAll(SinkTaken(s, j, event), a.inner, host);
    assert Deliver(s, j, event, event.Terminal(), a.inner, host) == SinkBack(v, j, event.Terminal());
    assert v.sent + [] == v.sent;
  }

  function Noted(a: Action, j: Key): (calls: seq<Call>)
    requires a.FrameIn?
    ensures forall p :: 0 <= p < |calls| ==> !calls[p].Sent?
  {
    if a.frame.kind.Body? then [Consumed(a.from, j.stream)] else []
  }

  lemma RunsOwnSink(s: ClientState, a: Action, host: Host, k: Key)
    requires Sound(s) && RunsSink(s, a, k)
    ensures k in s.seen && SinkRan(s, a, Apply(s, a, host), k)
    ensures var t := Apply(s, a, host);
            Addressed(t) && s.sent <= t.sent && forall p :: |s.sent| <= p < |t.sent| ==> !IsRequest(t.sent[p], k)
  {
    hide DidAll, QueuedFor, Accounted, Apply;
    var event := EventOf(a.from, a.frame.kind);
    RunIs(s, a, host, k);
    NoneQueued(s, k, None);
    DidEach(SinkTaken(s, k, event), a.inner, host, k);
    if CancelOp(k) in a.inner {
      CancelStays(SinkTaken(s, k, event), DidAll(SinkTaken(s, k, event), a.inner, host), s, Apply(s, a, host), k);
    }
  }

  /** What credit makes of `k`'s stream: it stays, unless a frame it lets go is refused. */
  lemma CreditComes(s: ClientState, a: Action, host: Host, k: Key)
    requires Sound(s) && a.FrameIn? && Key(a.from.appId, a.frame.stream) == k && k in s.streams && a.frame.kind.Credit?
    ensures var t := Apply(s, a, host);
            && s.sent <= t.sent && t.seen == s.seen
            && (forall p, why :: |s.sent| <= p < |t.sent| && IsRequest(t.sent[p], k) && host(p) == RefusedNow(why) ==>
                  p == |t.sent| - 1 && FateOf(t, k) == Over(FailedEvent(why)))
            && ((forall why :: !RefusedSince(t.sent, |s.sent|, host, k, why)) ==> FateOf(t, k) == Live)
            && Addressed(t) && (k in t.streams ==> NoCancels(t.streams[k].box))
  {
    hide Flush, QueuedFor, Quiet, Accounted;
    NoneQueued(s, k, None);
    OwnFlushed(WithBox(s, k, Granted(s.streams[k].box, a.frame.kind.n)), k, host);
  }

  /** Nothing about `k` moved but, if `cancel`, that the app cancelled it. */
  ghost predicate Left(s: ClientState, t: ClientState, k: Key, cancel: bool) {
    && k in t.seen && (k in s.streams || QueuedFor(s.ready, k) == [] ==> k in s.seen && t.seen[k] == s.seen[k])
    && (FateOf(s, k) == Live ==>
          FateOf(t, k) == if cancel then Over(FailedEvent(Unavailable("caller"))) else Live)
    && (k in s.streams && cancel ==> CancelWent(s, t, k))
    && (FateOf(s, k) != Live ==> FateOf(t, k) == FateOf(s, k))
    && Addressed(t) && (k in t.streams ==> k in s.streams && t.streams[k] == s.streams[k])
    && s.sent <= t.sent && forall p :: |s.sent| <= p < |t.sent| ==> !IsRequest(t.sent[p], k)
  }

  lemma DidLeaves(s: ClientState, t: ClientState, k: Key, cancel: bool)
    requires Did1(s, t, k, cancel) && k in s.seen
    requires k in s.streams ==> s.streams[k].sink && QueuedFor(s.ready, k) == []
    ensures Left(s, t, k, cancel)
  {
    hide QueuedFor, Addressed;
  }

  /** Taking another sink out, putting it back and noting a chunk leave `k` alone. */
  lemma OtherTaken(s: ClientState, j: Key, event: ClientEvent, k: Key)
    requires Sound(s) && j in s.streams && j != k && k in s.seen
    ensures var u := SinkTaken(s, j, event);
            && Addressed(u) && u.last == s.last && u.sent == s.sent && u.seen[k] == s.seen[k] && u.ready == s.ready
            && (k in u.streams <==> k in s.streams) && (k in s.streams ==> u.streams[k] == s.streams[k])
            && k.stream <= u.last
  {
    hide Sinks, Quiet, Accounted;
  }

  lemma OtherBack(v: ClientState, j: Key, last: bool, more: seq<Call>, k: Key)
    requires Addressed(v) && j != k && k in v.seen && forall p :: 0 <= p < |more| ==> !more[p].Sent?
    ensures var w := SinkBack(v, j, last).(sent := v.sent + more);
            && FateOf(w, k) == FateOf(v, k) && Addressed(w) && w.seen == v.seen
            && (k in w.streams <==> k in v.streams) && (k in v.streams ==> w.streams[k] == v.streams[k])
            && v.sent <= w.sent && forall p :: |v.sent| <= p < |w.sent| ==> !IsRequest(w.sent[p], k)
  {
    hide QueuedFor;
  }

  /** Another sink runs. */
  lemma RunsOtherSink(s: ClientState, a: Action, host: Host, j: Key, k: Key)
    requires Sound(s) && RunsSink(s, a, j) && j != k && k in s.seen
    ensures Left(s, Apply(s, a, host), k, CancelOp(k) in a.inner)
  {
    hide DidAll, QueuedFor, Quiet, Accounted, SinkBack, Apply, Addressed, NoCancels;
    var event := EventOf(a.from, a.frame.kind);
    var u := SinkTaken(s, j, event);
    RunIs(s, a, host, j);
    if k in s.streams {
      NoneQueued(s, k, None);
    }
    OtherTaken(s, j, event, k);
    DidEach(u, a.inner, host, k);
    var v := DidAll(u, a.inner, host);
    DidLeaves(u, v, k, CancelOp(k) in a.inner);
    OtherBack(v, j, event.Terminal(), Noted(a, j), k);
    LeftBack(s, u, v, Apply(s, a, host), k, CancelOp(k) in a.inner);
  }

  lemma LeftBack(s: ClientState, u: ClientState, v: ClientState, w: ClientState, k: Key, cancel: bool)
    requires k in s.seen && k in u.seen && u.seen[k] == s.seen[k] && u.sent == s.sent && u.ready == s.ready
    requires FateOf(u, k) == FateOf(s, k)
    requires (k in u.streams <==> k in s.streams) && (k in s.streams ==> u.streams[k] == s.streams[k])
    requires Left(u, v, k, cancel)
    requires FateOf(w, k) == FateOf(v, k) && Addressed(w) && w.seen == v.seen && v.sent <= w.sent
    requires (k in w.streams <==> k in v.streams) && (k in v.streams ==> w.streams[k] == v.streams[k])
    requires forall p :: |v.sent| <= p < |w.sent| ==> !IsRequest(w.sent[p], k)
    ensures Left(s, w, k, cancel)
  {
    hide FateOf, Addressed;
    forall p | |s.sent| <= p < |w.sent| ensures !IsRequest(w.sent[p], k) {
      assert p < |v.sent| ==> w.sent[p] == v.sent[p];
    }
    if k in s.streams && cancel {
      CancelStays(u, v, s, w, k);
    }
  }

  /** The table as a queued sink finds it. */
  function PoppedTask(s: ClientState): ClientState
    requires s.ready != [] && s.ready[0].0 in s.seen
  {
    s.(ready := s.ready[1..], seen := s.seen[s.ready[0].0 := s.seen[s.ready[0].0] + [s.ready[0].1]])
  }

  lemma HeadIsSeen(s: ClientState)
    requires Known(s) && s.ready != []
    ensures s.ready[0].0 in s.seen && s.ready[0].1.Terminal()
  {
  }

  lemma PoppedSame(s: ClientState, k: Key)
    requires Sound(s) && k in s.seen && s.ready != []
    ensures s.ready[0].0 in s.seen
    ensures var u := PoppedTask(s);
            && FateOf(u, k) == FateOf(s, k) && k in u.seen && k.stream <= u.last && Addressed(u)
            && (k in s.streams || QueuedFor(s.ready, k) == [] ==> u.seen[k] == s.seen[k])
            && (k in s.streams ==> s.streams[k].sink && QueuedFor(u.ready, k) == [])
  {
    hide Quiet, Accounted, NoCancels;
    HeadIsSeen(s);
    if k in s.streams {
      NoneQueued(s, k, None);
    }
    if s.ready[0].0 == k {
      QueuedIs(s.ready[1..], k);
      assert forall i :: 1 <= i < |s.ready| ==> s.ready[i] == s.ready[1..][i - 1];
    }
  }

  lemma LeftFrom(s: ClientState, u: ClientState, t: ClientState, k: Key, cancel: bool)
    requires k in s.seen && k in u.seen && FateOf(u, k) == FateOf(s, k) && u.sent == s.sent && u.streams == s.streams
    requires k in s.streams || QueuedFor(s.ready, k) == [] ==> u.seen[k] == s.seen[k]
    requires k in u.streams || QueuedFor(s.ready, k) == [] ==> k in t.seen && t.seen[k] == u.seen[k]
    requires Left(u, t, k, cancel)
    ensures Left(s, t, k, cancel)
  {
    hide FateOf, QueuedFor, Addressed;
    if k in s.streams && cancel {
      CancelStays(u, t, s, t, k);
    }
  }

  /** A queued last event is seen, and what the app does then is done. */
  lemma RunsTask(s: ClientState, inner: seq<AppOp>, host: Host, k: Key)
    requires Sound(s) && k in s.seen && s.ready != []
    ensures Left(s, Apply(s, TaskRan(inner), host), k, CancelOp(k) in inner)
  {
    hide DidAll, Apply, ClientInv, NoCancels, FateOf, QueuedFor, Addressed;
    PoppedSame(s, k);
    var u := PoppedTask(s);
    TaskIs(s, inner, host);
    DidEach(u, inner, host, k);
    DidLeaves(u, DidAll(u, inner, host), k, CancelOp(k) in inner);
    LeftFrom(s, u, DidAll(u, inner, host), k, CancelOp(k) in inner);
  }

  lemma TaskIs(s: ClientState, inner: seq<AppOp>, host: Host)
    requires Sound(s) && s.ready != []
    ensures s.ready[0].0 in s.seen && Apply(s, TaskRan(inner), host) == DidAll(PoppedTask(s), inner, host)
  {
    hide DidAll, Sinks, Quiet, Accounted, Addressed, NoCancels;
    HeadIsSeen(s);
  }

  // ---------------------------------------------------------------- every run

  /** What an action makes of an open stream. A response frame runs its sink: an `End` or a `Cancel` is
      its last event, and after a head or a chunk it is open, or silenced if the app cancelled it from
      inside. Otherwise it fails if the app cancels it, if a refusal of its comes late, or if the host
      refuses one of its frames; and if none of these, it is open. A server cancelled is told. */
  ghost predicate Becomes(s: ClientState, a: Action, t: ClientState, host: Host, k: Key) {
    if RunsSink(s, a, k) then
      match a.frame.kind
      case End => FateOf(t, k) == Over(EndEvent)
      case Cancel(reason) => FateOf(t, k) == Over(FailedEvent(RefusalOf(reason)))
      case _ =>
        if CancelOp(k) in a.inner then FateOf(t, k) == Silenced && CancelWent(s, t, k) else FateOf(t, k) == Live
    else if CancelOp(k) in DoneIn(s, a) then
      FateOf(t, k) == Over(FailedEvent(Unavailable("caller"))) && k in s.streams && CancelWent(s, t, k)
    else if a.LateRefusal? && a.k == k then FateOf(t, k) == Over(FailedEvent(a.why))
    else
      && (forall why :: RefusedSince(t.sent, |s.sent|, host, k, why) ==> FateOf(t, k) == Over(FailedEvent(why)))
      && ((forall why :: !RefusedSince(t.sent, |s.sent|, host, k, why)) ==> FateOf(t, k) == Live)
  }

  /** What `k`'s sink sees in an action: the event of its frame, or its queued last event. */
  function SeenIn(s: ClientState, a: Action, k: Key): seq<ClientEvent> {
    if RunsSink(s, a, k) then [EventOf(a.from, a.frame.kind)]
    else if a.TaskRan? && s.ready != [] && s.ready[0].0 == k then [s.ready[0].1]
    else []
  }

  /** One action and one stream opened before it. */
  ghost predicate Steps(s: ClientState, a: Action, t: ClientState, host: Host, k: Key)
    requires k in s.seen
  {
    && k in t.seen && t.seen[k] == s.seen[k] + SeenIn(s, a, k)
    && (if FateOf(s, k) == Live then Becomes(s, a, t, host, k) else FateOf(t, k) == FateOf(s, k))
    && s.sent <= t.sent && Addressed(t) && (k in t.streams ==> NoCancels(t.streams[k].box))
    && (forall p, q :: |s.sent| <= p < q < |t.sent| && IsRequest(t.sent[p], k) && host(p).RefusedNow? ==>
          !IsRequest(t.sent[q], k))
    && (forall p :: |s.sent| <= p < |t.sent| && IsRequest(t.sent[p], k) ==>
          FateOf(s, k) == Live && IsCredit(a, k))
    && (k in t.streams && !IsCredit(a, k) ==> k in s.streams && t.streams[k] == s.streams[k])
  }

  predicate IsCredit(a: Action, k: Key) {
    a.FrameIn? && a.frame.kind.Credit? && Key(a.from.appId, a.frame.stream) == k
  }

  lemma ActionSteps(s: ClientState, a: Action, host: Host, k: Key)
    requires Sound(s) && k in s.seen
    ensures Steps(s, a, Apply(s, a, host), host, k)
  {
    hide Did, OnFrame, RanTask, Finish, ClientInv, FateOf, Addressed, NoCancels;
    match a
    case AppDid(op) => AppSteps(s, op, host, k);
    case FrameIn(from, frame, inner) => FrameSteps(s, from, frame, inner, host, k);
    case LateRefusal(j, why) => RefusalSteps(s, j, why, host, k);
    case TaskRan(inner) => TaskSteps(s, inner, host, k);
  }

  lemma LeftSteps(s: ClientState, a: Action, t: ClientState, host: Host, k: Key)
    requires Sound(s) && k in s.seen && Left(s, t, k, CancelOp(k) in DoneIn(s, a)) && !RunsSink(s, a, k)
    requires !(a.LateRefusal? && a.k == k) && t.seen[k] == s.seen[k] + SeenIn(s, a, k)
    ensures Steps(s, a, t, host, k)
  {
    hide FateOf, Addressed, ClientInv, SeenIn, DoneIn;
    LiveIs(s, k);
  }

  lemma AppSteps(s: ClientState, op: AppOp, host: Host, k: Key)
    requires Sound(s) && k in s.seen
    ensures Steps(s, AppDid(op), Apply(s, AppDid(op), host), host, k)
  {
    hide Did, FateOf, Quiet, Accounted, QueuedFor;
    if k in s.streams {
      NoneQueued(s, k, None);
    }
    DidOne(s, op, host, k);
    DidLeaves(s, Did(s, op, host), k, op == CancelOp(k));
    LeftSteps(s, AppDid(op), Did(s, op, host), host, k);
  }

  lemma RefusalSteps(s: ClientState, j: Key, why: Refused, host: Host, k: Key)
    requires Sound(s) && k in s.seen
    ensures Steps(s, LateRefusal(j, why), Apply(s, LateRefusal(j, why), host), host, k)
  {
    hide QueuedFor, Quiet, Accounted;
    if k in s.streams {
      NoneQueued(s, k, None);
    }
    QueuedSnoc(s.ready, j, FailedEvent(why), k);
  }

  lemma TaskSteps(s: ClientState, inner: seq<AppOp>, host: Host, k: Key)
    requires Sound(s) && k in s.seen
    ensures Steps(s, TaskRan(inner), Apply(s, TaskRan(inner), host), host, k)
  {
    hide DidAll, FateOf, Quiet, Accounted, QueuedFor;
    var a, t := TaskRan(inner), Apply(s, TaskRan(inner), host);
    if s.ready == [] {
      assert t == s;
      NothingLeaves(s, k);
    } else {
      RunsTask(s, inner, host, k);
      TaskSees(s, inner, host, k);
    }
    LeftSteps(s, a, t, host, k);
  }

  lemma NothingLeaves(s: ClientState, k: Key)
    requires Sound(s) && k in s.seen
    ensures Left(s, s, k, false)
  {
  }

  lemma TaskSees(s: ClientState, inner: seq<AppOp>, host: Host, k: Key)
    requires Sound(s) && k in s.seen && s.ready != []
    ensures var t := Apply(s, TaskRan(inner), host);
            k in t.seen && t.seen[k] == s.seen[k] + SeenIn(s, TaskRan(inner), k)
  {
    hide DidAll, Apply, Sinks, Quiet, Accounted;
    TaskIs(s, inner, host);
    DidEach(PoppedTask(s), inner, host, k);
  }

  lemma FrameSteps(s: ClientState, from: Caller, frame: Frame, inner: seq<AppOp>, host: Host, k: Key)
    requires Sound(s) && k in s.seen
    ensures Steps(s, FrameIn(from, frame, inner), Apply(s, FrameIn(from, frame, inner), host), host, k)
  {
    hide OnFrame, FateOf, Sinks, Quiet, Accounted, Addressed, NoCancels;
    var a, j := FrameIn(from, frame, inner), Key(from.appId, frame.stream);
    var t := Apply(s, a, host);
    if !Claims(s, from, frame) {
      Unclaimed(s, from, frame, inner, host);
      NothingLeaves(s, k);
      LeftSteps(s, a, t, host, k);
    } else if frame.kind.Credit? {
      if j == k {
        CreditComes(s, a, host, k);
        CreditSteps(s, a, host, k);
      } else {
        OtherCredit(s, a, host, k);
        LeftSteps(s, a, t, host, k);
      }
    } else if j == k {
      RunsOwnSink(s, a, host, k);
      LiveIs(s, k);
    } else {
      RunsOtherSink(s, a, host, j, k);
      OtherSees(s, a, host, j, k);
      LeftSteps(s, a, t, host, k);
    }
  }

  lemma Unclaimed(s: ClientState, from: Caller, frame: Frame, inner: seq<AppOp>, host: Host)
    requires !Claims(s, from, frame)
    ensures Apply(s, FrameIn(from, frame, inner), host) == s
  {
  }

  lemma LiveIs(s: ClientState, k: Key)
    ensures FateOf(s, k) == Live <==> k in s.streams
  {
  }

  lemma CreditSteps(s: ClientState, a: Action, host: Host, k: Key)
    requires Sound(s) && a.FrameIn? && Key(a.from.appId, a.frame.stream) == k && k in s.streams && a.frame.kind.Credit?
    ensures k in s.seen && Steps(s, a, Apply(s, a, host), host, k)
  {
    hide Apply, FateOf, Sinks, Quiet, Accounted, Addressed, NoCancels;
    CreditComes(s, a, host, k);
    LiveIs(s, k);
  }

  lemma OtherCredit(s: ClientState, a: Action, host: Host, k: Key)
    requires Sound(s) && a.FrameIn? && a.frame.kind.Credit? && k in s.seen
    requires Key(a.from.appId, a.frame.stream) in s.streams && Key(a.from.appId, a.frame.stream) != k
    ensures var t := Apply(s, a, host); Left(s, t, k, false) && t.seen[k] == s.seen[k]
  {
    hide Flush, QueuedFor, Quiet, Accounted;
    var j := Key(a.from.appId, a.frame.stream);
    var u := WithBox(s, j, Granted(s.streams[j].box, a.frame.kind.n));
    if k in s.streams {
      NoneQueued(s, k, None);
    }
    OtherFlushed(u, j, host, k);
    DidLeaves(u, Flush(u, j, host), k, false);
  }

  lemma OtherSees(s: ClientState, a: Action, host: Host, j: Key, k: Key)
    requires Sound(s) && RunsSink(s, a, j) && j != k && k in s.seen
    ensures var t := Apply(s, a, host); k in t.seen && t.seen[k] == s.seen[k]
  {
    hide DidAll, Quiet, Accounted, Apply;
    var event := EventOf(a.from, a.frame.kind);
    RunIs(s, a, host, j);
    OtherTaken(s, j, event, k);
    DidEach(SinkTaken(s, j, event), a.inner, host, k);
  }

  // ---------------------------------------------------------------- streams opened meanwhile

  /** A stream opened during an action, which has seen nothing: it is open, or one of its frames was
      refused, or the app cancelled it. */
  ghost predicate Born(s: ClientState, t: ClientState, host: Host, k: Key, cancel: bool) {
    && (k !in t.seen ==> k !in t.streams && forall p :: |s.sent| <= p < |t.sent| ==> !IsRequest(t.sent[p], k))
    && (k in t.seen ==>
          && t.seen[k] == []
          && (forall p, why :: |s.sent| <= p < |t.sent| && IsRequest(t.sent[p], k) && host(p) == RefusedNow(why) ==>
                && FateOf(t, k) == Over(FailedEvent(why))
                && forall q :: p < q < |t.sent| ==> !IsRequest(t.sent[q], k))
          && ((forall why :: !RefusedSince(t.sent, |s.sent|, host, k, why)) ==>
                FateOf(t, k) == Live || (cancel && FateOf(t, k) == Over(FailedEvent(Unavailable("caller"))))))
    && (k in t.streams ==> NoCancels(t.streams[k].box) && t.streams[k].sink && QueuedFor(t.ready, k) == [])
    && s.sent <= t.sent && Addressed(t) && s.last <= t.last && (k in t.seen ==> k.stream <= t.last)
  }

  lemma RequestHasNoCancel(to: Address, request: Outbound)
    ensures NoCancels(Queued(EMPTY_BOX, HeadOf(to, request), request.body))
  {
    hide Chunks;
  }

  lemma OpensIt(s: ClientState, op: AppOp, host: Host, k: Key)
    requires Addressed(s) && Opens(s, op, k) && QueuedFor(s.ready, k) == []
    ensures Born(s, Did(s, op, host), host, k, false) && k in Did(s, op, host).seen
  {
    hide Flush, Queued, QueuedFor;
    var t := Inserted(s, op.to, op.transport, op.request);
    RequestHasNoCancel(op.to, op.request);
    OwnFlushed(t, k, host);
  }

  /** What comes after a stream is opened in the same action. */
  lemma BornThen(s: ClientState, t: ClientState, u: ClientState, host: Host, k: Key, cancel: bool)
    requires Born(s, t, host, k, false) && k in t.seen && Did1(t, u, k, cancel)
    ensures Born(s, u, host, k, cancel)
  {
    hide QueuedFor, Addressed, NoCancels;
    forall p, why | |s.sent| <= p < |u.sent| && IsRequest(u.sent[p], k) && host(p) == RefusedNow(why)
      ensures p < |t.sent| && t.sent[p] == u.sent[p]
    {
    }
    forall why | RefusedSince(t.sent, |s.sent|, host, k, why) ensures RefusedSince(u.sent, |s.sent|, host, k, why) {
      RefusedStays(t.sent, |s.sent|, u.sent, |s.sent|, host, k, why);
    }
  }

  lemma RefusedStays(a: seq<Call>, m: nat, b: seq<Call>, n: nat, host: Host, k: Key, why: Refused)
    requires RefusedSince(a, m, host, k, why) && a <= b && n <= m
    ensures RefusedSince(b, n, host, k, why)
  {
    var p :| m <= p < |a| && IsRequest(a[p], k) && host(p) == RefusedNow(why);
    assert b[p] == a[p];
  }

  lemma {:induction false} DidEachBorn(s: ClientState, ops: seq<AppOp>, host: Host, k: Key)
    requires Addressed(s) && k !in s.seen && k !in s.streams && QueuedFor(s.ready, k) == []
    ensures Born(s, DidAll(s, ops, host), host, k, CancelOp(k) in ops)
    decreases |ops|
  {
    hide Did, QueuedFor, Addressed, NoCancels, FateOf;
    if ops != [] {
      var t, u := Did(s, ops[0], host), DidAll(s, ops, host);
      assert CancelOp(k) in ops <==> ops[0] == CancelOp(k) || CancelOp(k) in ops[1..];
      if Opens(s, ops[0], k) {
        OpensIt(s, ops[0], host, k);
        DidEach(t, ops[1..], host, k);
        SeenStays(t, ops[1..], host, k);
        BornThen(s, t, u, host, k, CancelOp(k) in ops[1..]);
        BornCancelled(s, u, host, k, CancelOp(k) in ops[1..], CancelOp(k) in ops);
      } else {
        DidOne(s, ops[0], host, k);
        NotOpened(s, ops[0], host, k);
        DidEachBorn(t, ops[1..], host, k);
        LaterBorn(s, t, u, host, k, CancelOp(k) in ops[1..]);
        BornCancelled(s, u, host, k, CancelOp(k) in ops[1..], CancelOp(k) in ops);
      }
    }
  }

  lemma SeenStays(s: ClientState, ops: seq<AppOp>, host: Host, k: Key)
    requires Addressed(s) && k in s.seen && k.stream <= s.last
    ensures k in DidAll(s, ops, host).seen
  {
    DidEach(s, ops, host, k);
  }

  lemma BornCancelled(s: ClientState, t: ClientState, host: Host, k: Key, c: bool, d: bool)
    requires Born(s, t, host, k, c) && (c ==> d)
    ensures Born(s, t, host, k, d)
  {
    hide FateOf, QueuedFor, Addressed, NoCancels;
  }

  lemma NotOpened(s: ClientState, op: AppOp, host: Host, k: Key)
    requires Addressed(s) && k !in s.seen && !Opens(s, op, k)
    ensures k !in Did(s, op, host).seen
  {
    hide Flush, Queued;
    match op
    case OpenOp(to, transport, request) =>
      FlushSees(Inserted(s, to, transport, request), NextKey(s, to), host);
    case CancelOp(_) =>
  }

  lemma FlushSees(s: ClientState, j: Key, host: Host)
    requires j in s.streams
    ensures Flush(s, j, host).seen == s.seen
  {
    hide Flush, BodyCount, Goes;
    var m := ClientFlushIs(s, j, host);
    GoesWithin(s.streams[j].box, m, |s.sent|, host, false);
  }

  lemma LaterBorn(s: ClientState, t: ClientState, u: ClientState, host: Host, k: Key, cancel: bool)
    requires s.sent <= t.sent && s.last <= t.last && Born(t, u, host, k, cancel)
    requires forall p :: |s.sent| <= p < |t.sent| ==> !IsRequest(t.sent[p], k)
    ensures Born(s, u, host, k, cancel)
  {
    hide FateOf, QueuedFor, Addressed, NoCancels;
    assert forall p :: 0 <= p < |t.sent| ==> u.sent[p] == t.sent[p];
    forall why | RefusedSince(u.sent, |t.sent|, host, k, why) ensures RefusedSince(u.sent, |s.sent|, host, k, why) {
      RefusedStays(u.sent, |t.sent|, u.sent, |s.sent|, host, k, why);
    }
  }

  lemma ActionBears(s: ClientState, a: Action, host: Host, k: Key)
    requires Sound(s) && k !in s.seen
    ensures Born(s, Apply(s, a, host), host, k, CancelOp(k) in DoneIn(s, a))
  {
    hide Sound, Born, Did, OnFrame, RanTask, Finish, RunsSink;
    match a
    case AppDid(op) => AppBears(s, op, host, k);
    case FrameIn(from, frame, inner) => FrameBears(s, from, frame, inner, host, k);
    case LateRefusal(j, why) => RefusalBears(s, j, why, host, k);
    case TaskRan(inner) => TaskBears(s, inner, host, k);
  }

  lemma AppBears(s: ClientState, op: AppOp, host: Host, k: Key)
    requires Sound(s) && k !in s.seen
    ensures Born(s, Did(s, op, host), host, k, op == CancelOp(k))
  {
    hide Did, DidAll, ClientInv, NoCancels, Born;
    UnseenIsNowhere(s, k);
    OneOp(s, op, host);
    DidEachBorn(s, [op], host, k);
  }

  lemma RefusalBears(s: ClientState, j: Key, why: Refused, host: Host, k: Key)
    requires Sound(s) && k !in s.seen
    ensures Born(s, Finish(s, j, FailedEvent(why)), host, k, false)
  {
    hide ClientInv, NoCancels, QueuedFor;
    UnseenIsNowhere(s, k);
    QueuedSnoc(s.ready, j, FailedEvent(why), k);
  }

  lemma TaskBears(s: ClientState, inner: seq<AppOp>, host: Host, k: Key)
    requires Sound(s) && k !in s.seen
    ensures var a := TaskRan(inner); Born(s, Apply(s, a, host), host, k, CancelOp(k) in DoneIn(s, a))
  {
    hide DidAll, Sinks, Quiet, Accounted, NoCancels, QueuedFor, FateOf;
    UnseenIsNowhere(s, k);
    if s.ready == [] {
      NothingBorn(s, host, k, false);
    } else {
      TaskIs(s, inner, host);
      var u := PoppedTask(s);
      DidEachBorn(u, inner, host, k);
      SameBirth(s, u, DidAll(u, inner, host), host, k, CancelOp(k) in inner);
    }
  }

  lemma SameBirth(s: ClientState, u: ClientState, t: ClientState, host: Host, k: Key, cancel: bool)
    requires Born(u, t, host, k, cancel) && u.sent == s.sent && u.last == s.last
    ensures Born(s, t, host, k, cancel)
  {
    hide FateOf, QueuedFor, NoCancels, Addressed, RefusedSince;
  }

  lemma OneOp(s: ClientState, op: AppOp, host: Host)
    ensures DidAll(s, [op], host) == Did(s, op, host)
  {
    assert [op][1..] == [];
  }

  lemma UnseenIsNowhere(s: ClientState, k: Key)
    requires Sound(s) && k !in s.seen
    ensures k !in s.streams && QueuedFor(s.ready, k) == [] && (s.ready != [] ==> QueuedFor(s.ready[1..], k) == [])
  {
    hide Sinks, Quiet, Accounted;
    QueuedIs(s.ready, k);
  }

  lemma NothingBorn(s: ClientState, host: Host, k: Key, cancel: bool)
    requires Sound(s) && k !in s.seen
    ensures Born(s, s, host, k, cancel)
  {
    UnseenIsNowhere(s, k);
  }

  lemma FrameBears(s: ClientState, from: Caller, frame: Frame, inner: seq<AppOp>, host: Host, k: Key)
    requires Sound(s) && k !in s.seen
    ensures var a := FrameIn(from, frame, inner); Born(s, Apply(s, a, host), host, k, CancelOp(k) in DoneIn(s, a))
  {
    hide DidAll, Flush, Quiet, Accounted, Sinks, NoCancels, FateOf, QueuedFor, SinkBack;
    var a, j := FrameIn(from, frame, inner), Key(from.appId, frame.stream);
    UnseenIsNowhere(s, k);
    NothingBorn(s, host, k, CancelOp(k) in DoneIn(s, a));
    if Claims(s, from, frame) {
      if frame.kind.Credit? {
        var u := WithBox(s, j, Granted(s.streams[j].box, frame.kind.n));
        OtherFlushed(u, j, host, k);
        FlushSees(u, j, host);
      } else {
        var event := EventOf(from, frame.kind);
        var u := SinkTaken(s, j, event);
        var v := DidAll(u, inner, host);
        DidEachBorn(u, inner, host, k);
        RunIs(s, a, host, j);
        BornBack(s, u, v, j, event.Terminal(), Noted(a, j), host, k, CancelOp(k) in inner);
      }
    }
  }

  lemma BackFate(v: ClientState, j: Key, last: bool, more: seq<Call>, k: Key)
    requires j != k
    ensures FateOf(SinkBack(v, j, last).(sent := v.sent + more), k) == FateOf(v, k)
  {
    hide QueuedFor;
  }

  lemma BornBack(s: ClientState, u: ClientState, v: ClientState, j: Key, last: bool, more: seq<Call>, host: Host,
                 k: Key, cancel: bool)
    requires u.sent == s.sent && u.last == s.last && Born(u, v, host, k, cancel) && j != k
    requires forall p :: 0 <= p < |more| ==> !more[p].Sent?
    ensures Born(s, SinkBack(v, j, last).(sent := v.sent + more), host, k, cancel)
  {
    hide QueuedFor, NoCancels, RefusedSince, FateOf;
    var w := SinkBack(v, j, last).(sent := v.sent + more);
    BackFate(v, j, last, more, k);
    assert forall p :: 0 <= p < |v.sent| ==> w.sent[p] == v.sent[p];
    forall why | RefusedSince(v.sent, |s.sent|, host, k, why) ensures RefusedSince(w.sent, |s.sent|, host, k, why) {
      RefusedStays(v.sent, |s.sent|, w.sent, |s.sent|, host, k, why);
    }
  }

  lemma ActionSound(s: ClientState, a: Action, host: Host)
    requires Sound(s)
    ensures Sound(Apply(s, a, host))
  {
    hide Apply, Sinks, Quiet, Accounted, Addressed, NoCancels, Becomes, FateOf, SeenIn;
    var t := Apply(s, a, host);
    ApplyKeeps(s, a, host);
    forall k ensures Addressed(t) && (k in t.streams ==> NoCancels(t.streams[k].box)) {
      if k in s.seen {
        ActionSteps(s, a, host, k);
      } else {
        ActionBears(s, a, host, k);
      }
    }
    assert Addressed(t) by {
      var k := Key("", 0);
      if k in s.seen {
        ActionSteps(s, a, host, k);
      } else {
        ActionBears(s, a, host, k);
      }
    }
    forall p, k | 0 <= p < |t.sent| && IsRequest(t.sent[p], k) ensures k in t.seen {
      RequestsAreSeen(s, a, host, p, k);
    }
  }

  lemma RequestsAreSeen(s: ClientState, a: Action, host: Host, p: nat, k: Key)
    requires Sound(s) && p < |Apply(s, a, host).sent| && IsRequest(Apply(s, a, host).sent[p], k)
    ensures k in Apply(s, a, host).seen
  {
    hide Apply, ClientInv, Addressed, NoCancels, Becomes, FateOf, SeenIn, QueuedFor, RefusedSince;
    if k in s.seen {
      ActionSteps(s, a, host, k);
    } else {
      ActionBears(s, a, host, k);
    }
  }

  /** A refused frame ended its stream with that refusal, and no frame of its request went after it. */
  ghost predicate RefusalsEnd(s: ClientState, host: Host) {
    forall p, k, why :: 0 <= p < |s.sent| && IsRequest(s.sent[p], k) && host(p) == RefusedNow(why) ==>
      EndedBy(s, k, why) && forall q :: p < q < |s.sent| ==> !IsRequest(s.sent[q], k)
  }

  ghost predicate EndedBy(s: ClientState, k: Key, why: Refused) {
    k in s.seen && FateOf(s, k) == Over(FailedEvent(why))
  }

  lemma ActionRefusals(s: ClientState, a: Action, host: Host)
    requires Sound(s) && RefusalsEnd(s, host)
    ensures RefusalsEnd(Apply(s, a, host), host)
  {
    hide Apply, Sound, FateOf, SeenIn, IsRequest, RefusedSince, DoneIn;
    var t := Apply(s, a, host);
    forall p, k, why | 0 <= p < |t.sent| && IsRequest(t.sent[p], k) && host(p) == RefusedNow(why)
      ensures EndedBy(t, k, why) && forall q :: p < q < |t.sent| ==> !IsRequest(t.sent[q], k)
    {
      OneRefusal(s, a, host, p, k, why);
    }
  }

  lemma OneRefusal(s: ClientState, a: Action, host: Host, p: nat, k: Key, why: Refused)
    requires Sound(s) && RefusalsEnd(s, host)
    requires var t := Apply(s, a, host); p < |t.sent| && IsRequest(t.sent[p], k) && host(p) == RefusedNow(why)
    ensures var t := Apply(s, a, host);
            EndedBy(t, k, why) && forall q :: p < q < |t.sent| ==> !IsRequest(t.sent[q], k)
  {
    hide Apply, Sound, FateOf, SeenIn, Addressed, NoCancels, QueuedFor;
    var t := Apply(s, a, host);
    if k in s.seen {
      ActionSteps(s, a, host, k);
      if p < |s.sent| {
        assert s.sent[p] == t.sent[p];
        assert EndedBy(s, k, why);
      } else {
        assert RefusedSince(t.sent, |s.sent|, host, k, why);
      }
    } else {
      ActionBears(s, a, host, k);
    }
    assert forall q :: 0 <= q < |s.sent| ==> s.sent[q] == t.sent[q];
  }

  lemma {:induction false} EveryRunSound(s: ClientState, actions: seq<Action>, host: Host)
    requires Sound(s) && RefusalsEnd(s, host)
    ensures Sound(AfterAll(s, actions, host)) && RefusalsEnd(AfterAll(s, actions, host), host)
    decreases |actions|
  {
    hide Sound, RefusalsEnd, Apply;
    if actions != [] {
      ActionSound(s, actions[0], host);
      ActionRefusals(s, actions[0], host);
      EveryRunSound(Apply(s, actions[0], host), actions[1..], host);
    }
  }

  lemma StartsSound(host: Host)
    ensures Sound(NO_STREAMS) && RefusalsEnd(NO_STREAMS, host)
  {
  }

  // ---------------------------------------------------------------- what goes out is what was asked

  /** The frames of `k`'s request that went out. */
  function RequestOut(calls: seq<Call>, k: Key): seq<FrameKind> {
    if calls == [] then []
    else
      var rest, last := RequestOut(calls[..|calls| - 1], k), calls[|calls| - 1];
      if IsRequest(last, k) then rest + [last.frame.kind] else rest
  }

  /** The request an open asks for: its head, naming the app and scope called, its body in chunks, and
      its end. */
  function Asked(op: AppOp): seq<FrameKind>
    requires op.OpenOp?
  {
    var r := op.request;
    var scope := if op.to.Scope? then op.to.scopeKey else "";
    [ReqHead(RequestHead(r.verb, r.path, r.query, r.headers, Some(|r.body|), op.to.appId, scope))]
    + BodyFrames(Chunks(r.body)) + [End]
  }

  /** What went out on `k`, and what still waits, is the request `op` asks for, to where it asks. */
  ghost predicate Carries(s: ClientState, k: Key, op: AppOp) {
    && op.OpenOp?
    && (if k in s.streams then RequestOut(s.sent, k) + s.streams[k].box.queued == Asked(op)
        else RequestOut(s.sent, k) <= Asked(op))
    && (k in s.streams ==> s.streams[k].to == op.to && s.streams[k].transport == op.transport)
    && (forall p :: 0 <= p < |s.sent| && IsRequest(s.sent[p], k) ==>
          s.sent[p].to == op.to && s.sent[p].transport == op.transport)
  }

  lemma {:induction false} RequestOutNone(before: seq<Call>, after: seq<Call>, k: Key)
    requires before <= after && forall p :: |before| <= p < |after| ==> !IsRequest(after[p], k)
    ensures RequestOut(after, k) == RequestOut(before, k) && (before == [] ==> RequestOut(after, k) == [])
    decreases |after|
  {
    if |before| < |after| {
      RequestOutNone(before, after[..|after| - 1], k);
    } else {
      assert before == after;
    }
  }

  lemma {:induction false} RequestOutAll(before: seq<Call>, after: seq<Call>, frames: seq<FrameKind>, k: Key)
    requires before <= after && |after| == |before| + |frames|
    requires forall p :: |before| <= p < |after| ==>
               IsRequest(after[p], k) && after[p].frame.kind == frames[p - |before|]
    ensures RequestOut(after, k) == RequestOut(before, k) + frames
    decreases |frames|
  {
    if frames == [] {
      assert before == after;
    } else {
      var m := |frames| - 1;
      RequestOutAll(before, after[..|after| - 1], frames[..m], k);
      assert frames == frames[..m] + [frames[m]];
    }
  }

  /** A flush of `k` moves frames from its queue to the host. */
  lemma FlushCarries(s: ClientState, k: Key, host: Host, op: AppOp)
    requires Addressed(s) && k in s.streams && NoCancels(s.streams[k].box) && Carries(s, k, op)
    ensures Carries(Flush(s, k, host), k, op)
  {
    hide Flush, BodyCount, Addressed, ClientSent, Carries, RequestOut;
    var t, q := Flush(s, k, host), s.streams[k].box.queued;
    var m := ClientFlushIs(s, k, host);
    GoesWithin(s.streams[k].box, m, |s.sent|, host, false);
    SentCalls(s, k, m, host, t);
    SentTo(s, k, m, host, t);
    RequestOutAll(s.sent, t.sent, q[..m], k);
    MovedCarries(s, t, k, m, op);
  }

  lemma MovedCarries(s: ClientState, t: ClientState, k: Key, m: nat, op: AppOp)
    requires k in s.streams && Carries(s, k, op) && m <= |s.streams[k].box.queued|
    requires s.sent <= t.sent && RequestOut(t.sent, k) == RequestOut(s.sent, k) + s.streams[k].box.queued[..m]
    requires forall p :: |s.sent| <= p < |t.sent| ==>
               t.sent[p].Sent? && t.sent[p].to == s.streams[k].to && t.sent[p].transport == s.streams[k].transport
    requires k in t.streams ==>
               t.streams[k] == s.streams[k].(box := t.streams[k].box)
               && t.streams[k].box.queued == s.streams[k].box.queued[m..]
    ensures Carries(t, k, op)
  {
    hide RequestOut, Asked;
    var q := s.streams[k].box.queued;
    assert RequestOut(s.sent, k) + q == RequestOut(t.sent, k) + q[m..];
    assert forall p :: 0 <= p < |s.sent| ==> t.sent[p] == s.sent[p];
  }

  lemma SentTo(s: ClientState, j: Key, m: nat, host: Host, t: ClientState)
    requires j in s.streams && m <= |s.streams[j].box.queued|
    requires BodyCount(s.streams[j].box.queued[..m]) <= s.streams[j].box.credit
    requires ClientSent(s, j, m, host, t)
    ensures |t.sent| == |s.sent| + m
    ensures forall p :: |s.sent| <= p < |t.sent| ==>
              t.sent[p].Sent? && t.sent[p].to == s.streams[j].to && t.sent[p].transport == s.streams[j].transport
    ensures j in t.streams ==>
              t.streams[j] == s.streams[j].(box := t.streams[j].box)
              && t.streams[j].box.queued == s.streams[j].box.queued[m..]
  {
    hide BodyCount;
    var calls := Calls(s.streams[j], j.stream, s.streams[j].box.queued[..m]);
    forall p | |s.sent| <= p < |t.sent| ensures t.sent[p] == calls[p - |s.sent|] {
    }
  }

  lemma ActionCarries(s: ClientState, a: Action, host: Host, k: Key, op: AppOp)
    requires Sound(s) && k in s.seen && Carries(s, k, op)
    ensures k in Apply(s, a, host).seen && Carries(Apply(s, a, host), k, op)
  {
    hide Apply, ClientInv, Addressed, NoCancels, Becomes, FateOf, SeenIn, QueuedFor, RefusedSince, Asked, RequestOut;
    var t := Apply(s, a, host);
    ActionSteps(s, a, host, k);
    LiveIs(s, k);
    LiveIs(t, k);
    if IsCredit(a, k) && k in s.streams {
      CreditCarries(s, a, host, k, op);
    } else {
      RequestOutNone(s.sent, t.sent, k);
      assert forall p :: 0 <= p < |s.sent| ==> t.sent[p] == s.sent[p];
      if k !in t.streams && k in s.streams {
        assert RequestOut(s.sent, k) <= Asked(op);
      }
    }
  }

  lemma CreditCarries(s: ClientState, a: Action, host: Host, k: Key, op: AppOp)
    requires Sound(s) && IsCredit(a, k) && k in s.streams && Carries(s, k, op)
    ensures Carries(Apply(s, a, host), k, op)
  {
    hide Flush, RequestOut, Asked, Sinks, Quiet, Accounted;
    FlushCarries(WithBox(s, k, Granted(s.streams[k].box, a.frame.kind.n)), k, host, op);
  }

  lemma {:induction false} RunCarries(s: ClientState, actions: seq<Action>, host: Host, k: Key, op: AppOp)
    requires Sound(s) && k in s.seen && Carries(s, k, op)
    ensures var t := AfterAll(s, actions, host); k in t.seen && Carries(t, k, op)
    decreases |actions|
  {
    hide Sound, Apply, Carries;
    if actions != [] {
      ActionSound(s, actions[0], host);
      ActionCarries(s, actions[0], host, k, op);
      RunCarries(Apply(s, actions[0], host), actions[1..], host, k, op);
    }
  }

  // ---------------------------------------------------------------- which stream an open opens

  /** The streams a list of operations opens. */
  function OpenCount(ops: seq<AppOp>): nat {
    if ops == [] then 0 else (if ops[0].OpenOp? then 1 else 0) + OpenCount(ops[1..])
  }

  /** The stream the `i`-th operation opens, `last` being opened before them all. */
  function KeyAt(last: nat, ops: seq<AppOp>, i: nat): Key
    requires i < |ops| && ops[i].OpenOp?
  {
    Key(ops[i].to.appId, last + OpenCount(ops[..i]) + 1)
  }

  lemma DidCounts(s: ClientState, op: AppOp, host: Host)
    ensures Did(s, op, host).last == s.last + (if op.OpenOp? then 1 else 0)
  {
    hide Queued, Flush;
    match op
    case OpenOp(to, transport, request) => FlushCounts(Inserted(s, to, transport, request), NextKey(s, to), host);
    case CancelOp(_) =>
  }

  lemma OpensCarrying(s: ClientState, op: AppOp, host: Host, k: Key)
    requires Addressed(s) && Opens(s, op, k) && RequestOut(s.sent, k) == []
    requires forall p :: 0 <= p < |s.sent| ==> !IsRequest(s.sent[p], k)
    ensures k in Did(s, op, host).seen && Carries(Did(s, op, host), k, op)
  {
    hide Flush, Chunks, BodyFrames, RequestOut;
    var t := Inserted(s, op.to, op.transport, op.request);
    RequestHasNoCancel(op.to, op.request);
    assert [] + Message(HeadOf(op.to, op.request), op.request.body) == Asked(op);
    FlushCarries(t, k, host, op);
    FlushSees(t, k, host);
  }

  /** Operations leave what a stream carries as it is; a cancel sends no frame of the request. */
  lemma DidCarries(s: ClientState, t: ClientState, k: Key, cancel: bool, op: AppOp)
    requires Carries(s, k, op) && Did1(s, t, k, cancel)
    ensures Carries(t, k, op)
  {
    hide RequestOut, QueuedFor, Addressed, Asked;
    RequestOutNone(s.sent, t.sent, k);
    assert forall p :: 0 <= p < |s.sent| ==> t.sent[p] == s.sent[p];
  }

  lemma {:induction false} DidEachCarries(s: ClientState, ops: seq<AppOp>, host: Host, i: nat)
    requires Addressed(s) && i < |ops| && ops[i].OpenOp?
    requires var k := KeyAt(s.last, ops, i); forall p :: 0 <= p < |s.sent| ==> !IsRequest(s.sent[p], k)
    ensures var k, t := KeyAt(s.last, ops, i), DidAll(s, ops, host);
            && k in t.seen && Carries(t, k, ops[i]) && t.last == s.last + OpenCount(ops)
    decreases |ops|
  {
    hide Did, Addressed, Carries, QueuedFor, RequestOut;
    var k, t := KeyAt(s.last, ops, i), Did(s, ops[0], host);
    DidCounts(s, ops[0], host);
    if i == 0 {
      assert ops[..0] == [];
      RequestOutNone([], s.sent, k);
      OpensCarrying(s, ops[0], host, k);
      DidOne(s, ops[0], host, Key("", 0));
      DidEach(t, ops[1..], host, k);
      DidCarries(t, DidAll(s, ops, host), k, CancelOp(k) in ops[1..], ops[0]);
      AllCounts(t, ops[1..], host);
    } else {
      assert ops[1..][i - 1] == ops[i] && ops[..i][1..] == ops[1..][..i - 1];
      assert !Opens(s, ops[0], k);
      DidOne(s, ops[0], host, k);
      assert forall p :: 0 <= p < |s.sent| ==> t.sent[p] == s.sent[p];
      DidEachCarries(t, ops[1..], host, i - 1);
    }
  }

  lemma {:induction false} AllCounts(s: ClientState, ops: seq<AppOp>, host: Host)
    ensures DidAll(s, ops, host).last == s.last + OpenCount(ops)
    decreases |ops|
  {
    hide Did;
    if ops != [] {
      DidCounts(s, ops[0], host);
      AllCounts(Did(s, ops[0], host), ops[1..], host);
    }
  }

  // ---------------------------------------------------------------- what that means

  /** Over every run, for every action and every stream opened before it: what has become of the stream
      is exactly what the action makes of it, and what is over or silenced stays so; its sink sees the
      event of its own frame, or its queued last event, and nothing else. */
  lemma EndsExactly(before: seq<Action>, a: Action, host: Host, k: Key)
    requires k in AfterAll(NO_STREAMS, before, host).seen
    ensures var s := AfterAll(NO_STREAMS, before, host);
            var t := Apply(s, a, host);
            && k in t.seen && t.seen[k] == s.seen[k] + SeenIn(s, a, k)
            && (FateOf(s, k) == Live <==> k in s.streams)
            && if FateOf(s, k) == Live then Becomes(s, a, t, host, k) else FateOf(t, k) == FateOf(s, k)
  {
    hide Sound, RefusalsEnd, Apply, FateOf, SeenIn, Becomes;
    var s := AfterAll(NO_STREAMS, before, host);
    StartsSound(host);
    EveryRunSound(NO_STREAMS, before, host);
    ActionSteps(s, a, host, k);
    LiveIs(s, k);
  }

  /** Over every run, for every action: a stream opened during it has seen nothing; it is over with the
      refusal of one of its frames exactly if one was refused, and otherwise open, unless the app
      cancelled it in the same action. */
  lemma OpensExactly(before: seq<Action>, a: Action, host: Host, k: Key)
    requires var s := AfterAll(NO_STREAMS, before, host); k !in s.seen && k in Apply(s, a, host).seen
    ensures var s := AfterAll(NO_STREAMS, before, host);
            var t := Apply(s, a, host);
            && t.seen[k] == []
            && (forall why :: RefusedSince(t.sent, |s.sent|, host, k, why) ==> FateOf(t, k) == Over(FailedEvent(why)))
            && ((forall why :: !RefusedSince(t.sent, |s.sent|, host, k, why)) ==>
                  FateOf(t, k) == Live
                  || (CancelOp(k) in DoneIn(s, a) && FateOf(t, k) == Over(FailedEvent(Unavailable("caller")))))
  {
    hide Sound, RefusalsEnd, Apply, FateOf, DoneIn;
    var s := AfterAll(NO_STREAMS, before, host);
    StartsSound(host);
    EveryRunSound(NO_STREAMS, before, host);
    ActionBears(s, a, host, k);
  }

  /** Over every run: where the host refused a frame of a request at once, that was the request's last
      frame, and its stream is over with that refusal, seen or queued. So a stream still open has had
      none refused. */
  lemma RefusedIsOver(actions: seq<Action>, host: Host, k: Key, p: nat, why: Refused)
    requires p < |AfterAll(NO_STREAMS, actions, host).sent|
    requires IsRequest(AfterAll(NO_STREAMS, actions, host).sent[p], k) && host(p) == RefusedNow(why)
    ensures var s := AfterAll(NO_STREAMS, actions, host);
            && k in s.seen && k !in s.streams && FateOf(s, k) == Over(FailedEvent(why))
            && forall q :: p < q < |s.sent| ==> !IsRequest(s.sent[q], k)
  {
    hide Sound, IsRequest, FateOf;
    StartsSound(host);
    EveryRunSound(NO_STREAMS, actions, host);
    var s := AfterAll(NO_STREAMS, actions, host);
    LiveIs(s, k);
    assert EndedBy(s, k, why);
  }

  /** Over every run, for every open the app does, in whatever action, and over every later run: the
      stream it opens is the next by number for its app; and the frames of its request that went out are
      the head, chunks and end it asked for, in order, to the address and by the transport it asked for,
      as far as they went, the rest of them waiting while the stream is open. */
  lemma WhatGoesOutWasAsked(before: seq<Action>, a: Action, i: nat, later: seq<Action>, host: Host)
    requires var s := AfterAll(NO_STREAMS, before, host); i < |DoneIn(s, a)| && DoneIn(s, a)[i].OpenOp?
    ensures var s := AfterAll(NO_STREAMS, before, host);
            var op, k := DoneIn(s, a)[i], KeyAt(s.last, DoneIn(s, a), i);
            var u := AfterAll(Apply(s, a, host), later, host);
            && k !in s.seen && k in u.seen && Carries(u, k, op)
            && Apply(s, a, host).last == s.last + OpenCount(DoneIn(s, a))
  {
    hide Sound, RefusalsEnd, Apply, Carries, DoneIn, OpenCount;
    var s := AfterAll(NO_STREAMS, before, host);
    StartsSound(host);
    EveryRunSound(NO_STREAMS, before, host);
    ActionOpens(s, a, host, i);
    ActionSound(s, a, host);
    RunCarries(Apply(s, a, host), later, host, KeyAt(s.last, DoneIn(s, a), i), DoneIn(s, a)[i]);
  }

  /** What one action opens. */
  lemma ActionOpens(s: ClientState, a: Action, host: Host, i: nat)
    requires Sound(s) && i < |DoneIn(s, a)| && DoneIn(s, a)[i].OpenOp?
    ensures var op, k, t := DoneIn(s, a)[i], KeyAt(s.last, DoneIn(s, a), i), Apply(s, a, host);
            && k !in s.seen && k in t.seen && Carries(t, k, op) && t.last == s.last + OpenCount(DoneIn(s, a))
  {
    hide Apply, Carries, DidAll, OpenCount, Sinks, Quiet, Accounted, NoCancels;
    var k := KeyAt(s.last, DoneIn(s, a), i);
    assert k !in s.seen;
    match a
    case AppDid(op) =>
      AppDoes(s, op, host);
      DidEachCarries(s, [op], host, i);
    case FrameIn(from, frame, inner) =>
      var j := Key(from.appId, frame.stream);
      var event := EventOf(from, frame.kind);
      var u := SinkTaken(s, j, event);
      var v := DidAll(u, inner, host);
      RunIs(s, a, host, j);
      TakenSame(s, j, event);
      DidEachCarries(u, inner, host, i);
      BackCarries(v, j, event.Terminal(), Noted(a, j), k, inner[i]);
    case TaskRan(inner) =>
      TaskIs(s, inner, host);
      DidEachCarries(PoppedTask(s), inner, host, i);
  }

  lemma AppDoes(s: ClientState, op: AppOp, host: Host)
    ensures Apply(s, AppDid(op), host) == DidAll(s, [op], host)
  {
    OneOp(s, op, host);
  }

  lemma TakenSame(s: ClientState, j: Key, event: ClientEvent)
    requires Addressed(s) && j in s.streams && j in s.seen
    ensures var u := SinkTaken(s, j, event); Addressed(u) && u.last == s.last && u.sent == s.sent
  {
  }

  lemma BackCarries(v: ClientState, j: Key, last: bool, more: seq<Call>, k: Key, op: AppOp)
    requires k in v.seen && Carries(v, k, op) && j != k && forall p :: 0 <= p < |more| ==> !more[p].Sent?
    ensures var w := SinkBack(v, j, last).(sent := v.sent + more);
            k in w.seen && Carries(w, k, op) && w.last == v.last
  {
    hide RequestOut, Asked;
    RequestOutNone(v.sent, v.sent + more, k);
  }

  /** Different reasons of a `Cancel` are different refusals: a limit that names which, a protocol fault
      under policy, and anything else unavailable under its own name. */
  lemma OneReasonOneRefusal(a: string, b: string)
    ensures RefusalOf(a) == RefusalOf(b) <==> a == b
    ensures a == "timeout" <==> RefusalOf(a) == Limit("time")
    ensures a == "too_large" <==> RefusalOf(a) == Limit("bytes")
    ensures a == "busy" <==> RefusalOf(a) == Limit("streams")
    ensures a == "rate_limited" <==> RefusalOf(a) == Limit("rate")
    ensures a == "protocol" <==> RefusalOf(a) == Policy("protocol")
    ensures a !in {"timeout", "too_large", "busy", "rate_limited", "protocol"} <==> RefusalOf(a) == Unavailable(a)
  {
    assert "time"[0] == 't' && "bytes"[0] == 'b' && "streams"[0] == 's' && "rate"[0] == 'r';
  }
}
