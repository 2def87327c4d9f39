/** What a flush sends, exactly, whatever the host answers: how many frames go out of a queue, and
    what becomes of the stream. It is the same on both sides, but that a response's stream is shut by
    its last frame too. */
module Flushes {
  import opened Basics
  import opened Frames
  import opened Outbox
  import C = Client
  import S = Server

  /** `m` frames go out of `b`, whose first is the host's `n`-th call: within the credit, none refused
      before the last of them, nor, of a response, the last frame; and one more could not go. */
  ghost predicate Goes(b: Box, m: nat, n: nat, host: Host, response: bool) {
    && m <= |b.queued| && BodyCount(b.queued[..m]) <= b.credit
    && (forall p :: 0 <= p < m - 1 ==> !Ends(b.queued[p], host(n + p), response))
    && (|| (m > 0 && Ends(b.queued[m - 1], host(n + m - 1), response))
        || m == |b.queued|
        || (b.queued[m].Body? && BodyCount(b.queued[..m]) == b.credit))
  }

  /** A frame that ends its stream on this side: a refused one or, of a response, the last. */
  predicate Ends(kind: FrameKind, answer: Answer, response: bool) {
    answer.RefusedNow? || (response && (kind.End? || kind.Cancel?))
  }

  /** The frames of a stream, one after the other. */
  function Calls(t: C.Stream, stream: nat, frames: seq<FrameKind>): (calls: seq<C.Call>)
    ensures |calls| == |frames|
    ensures forall p :: 0 <= p < |frames| ==> calls[p] == C.Sent(t.to, Frame(stream, frames[p]), t.transport)
  {
    seq(|frames|, p requires 0 <= p < |frames| => C.Sent(t.to, Frame(stream, frames[p]), t.transport))
  }

  function Entries(peer: Caller, stream: nat, frames: seq<FrameKind>): (entries: seq<S.Entry>)
    ensures |entries| == |frames|
    ensures forall p :: 0 <= p < |frames| ==> entries[p] == S.Responded(peer, Frame(stream, frames[p]))
  {
    seq(|frames|, p requires 0 <= p < |frames| => S.Responded(peer, Frame(stream, frames[p])))
  }

  /** One frame goes first, then what goes after it. */
  lemma GoesOn(b: Box, m: nat, n: nat, host: Host, response: bool)
    requires !Blocked(b) && !Ends(b.queued[0], host(n), response)
    requires Goes(AfterNext(b), m, n + 1, host, response)
    ensures Goes(b, m + 1, n, host, response)
    ensures b.queued[..m + 1] == [b.queued[0]] + AfterNext(b).queued[..m]
    ensures BodyCount(b.queued[..m + 1]) == BodyCount(AfterNext(b).queued[..m]) + (if b.queued[0].Body? then 1 else 0)
  {
    var rest := AfterNext(b);
    assert b.queued[..m + 1] == [b.queued[0]] + rest.queued[..m];
    assert b.queued[..m + 1][1..] == rest.queued[..m];
    forall p | 0 <= p < m ensures !Ends(b.queued[p], host(n + p), response) {
      if p > 0 {
        assert b.queued[p] == rest.queued[p - 1] && n + p == n + 1 + (p - 1);
      }
    }
    if m > 0 {
      assert b.queued[m] == rest.queued[m - 1] && n + m == n + 1 + (m - 1);
    }
    if m < |rest.queued| {
      assert b.queued[m + 1] == rest.queued[m];
    }
  }

  lemma GoesOnce(b: Box, n: nat, host: Host, response: bool)
    requires !Blocked(b) && Ends(b.queued[0], host(n), response)
    ensures Goes(b, 1, n, host, response) && b.queued[..1] == [b.queued[0]]
  {
    assert b.queued[..1][1..] == [];
  }

  lemma GoesNot(b: Box, n: nat, host: Host, response: bool)
    requires Blocked(b)
    ensures Goes(b, 0, n, host, response)
  {
    assert b.queued[..0] == [];
  }

  // ---------------------------------------------------------------- the caller's side

  /** The stream after `m` frames went out of it. */
  ghost predicate ClientSent(s: C.ClientState, k: C.Key, m: nat, host: Host, t: C.ClientState)
    requires k in s.streams && m <= |s.streams[k].box.queued|
    requires BodyCount(s.streams[k].box.queued[..m]) <= s.streams[k].box.credit
  {
    var stream := s.streams[k];
    var b := stream.box;
    && t.sent == s.sent + Calls(stream, k.stream, b.queued[..m])
    && t.last == s.last && t.seen == s.seen && t.streams - {k} == s.streams - {k}
    && if m > 0 && host(|s.sent| + m - 1).RefusedNow? then
         && k !in t.streams
         && (stream.sink ==> t.ready == s.ready + [(k, FailedEvent(host(|s.sent| + m - 1).why))])
         && (!stream.sink ==> t.ready == s.ready)
       else
         && t.ready == s.ready && k in t.streams
         && t.streams[k] == stream.(box := Box(b.credit - BodyCount(b.queued[..m]), b.queued[m..]))
  }

  lemma CallsOn(t: C.Stream, stream: nat, first: FrameKind, rest: seq<FrameKind>)
    ensures Calls(t, stream, [first] + rest)
            == [C.Sent(t.to, Frame(stream, first), t.transport)] + Calls(t, stream, rest)
  {
  }

  lemma ClientSentOn(s: C.ClientState, k: C.Key, m: nat, host: Host, t: C.ClientState)
    requires k in s.streams && !Blocked(s.streams[k].box) && !host(|s.sent|).RefusedNow?
    requires var b := s.streams[k].box;
             && m < |b.queued| && b.queued[..m + 1] == [b.queued[0]] + b.queued[1..][..m]
             && BodyCount(b.queued[..m + 1]) ==
                BodyCount(b.queued[1..][..m]) + (if b.queued[0].Body? then 1 else 0) <= b.credit
    requires ClientSent(C.SendNext(s, k), k, m, host, t)
    ensures ClientSent(s, k, m + 1, host, t)
  {
    hide BodyCount, Calls;
    var b, next := s.streams[k].box, C.SendNext(s, k);
    CallsOn(s.streams[k], k.stream, b.queued[0], b.queued[1..][..m]);
    assert s.streams - {k} == next.streams - {k};
    assert b.queued[m + 1..] == b.queued[1..][m..];
    SameCalls(s.streams[k], next.streams[k], k.stream, b.queued[1..][..m]);
  }

  lemma SameCalls(t: C.Stream, u: C.Stream, stream: nat, frames: seq<FrameKind>)
    requires t.to == u.to && t.transport == u.transport
    ensures Calls(t, stream, frames) == Calls(u, stream, frames)
  {
  }

  lemma ClientSentOnce(s: C.ClientState, k: C.Key, host: Host)
    requires k in s.streams && !Blocked(s.streams[k].box) && host(|s.sent|).RefusedNow?
    requires var b := s.streams[k].box; BodyCount(b.queued[..1]) <= b.credit
    ensures ClientSent(s, k, 1, host, C.Finish(C.SendNext(s, k), k, FailedEvent(host(|s.sent|).why)))
  {
    assert s.streams - {k} == C.SendNext(s, k).streams - {k};
  }

  lemma ClientSentNothing(s: C.ClientState, k: C.Key, host: Host)
    requires k in s.streams
    ensures ClientSent(s, k, 0, host, s)
  {
    var b := s.streams[k].box;
    assert b.queued[..0] == [] && b.queued[0..] == b.queued;
  }

  /** A flush of an open stream: the frames that may go, go, in order, and to the stream's own address;
      if the last of them is refused the stream leaves the table, and the last event queued for its
      sink is that refusal; if not, the stream stays, with the rest of its queue and credit. */
  lemma {:induction false} ClientFlushIs(s: C.ClientState, k: C.Key, host: Host) returns (m: nat)
    requires k in s.streams
    ensures Goes(s.streams[k].box, m, |s.sent|, host, false)
    ensures ClientSent(s, k, m, host, C.Flush(s, k, host))
    decreases |s.streams[k].box.queued|
  {
    hide ClientSent, BodyCount, Goes, C.Finish;
    var b := s.streams[k].box;
    if Blocked(b) {
      GoesNot(b, |s.sent|, host, false);
      ClientSentNothing(s, k, host);
      return 0;
    }
    var next := C.SendNext(s, k);
    if host(|s.sent|).RefusedNow? {
      GoesOnce(b, |s.sent|, host, false);
      GoesWithin(b, 1, |s.sent|, host, false);
      ClientSentOnce(s, k, host);
      return 1;
    }
    var more := ClientFlushIs(next, k, host);
    GoesOn(b, more, |s.sent|, host, false);
    m := more + 1;
    GoesWithin(b, m, |s.sent|, host, false);
    ClientSentOn(s, k, more, host, C.Flush(s, k, host));
  }

  lemma GoesWithin(b: Box, m: nat, n: nat, host: Host, response: bool)
    requires Goes(b, m, n, host, response)
    ensures m <= |b.queued| && BodyCount(b.queued[..m]) <= b.credit
  {
  }

  // ---------------------------------------------------------------- the server's side

  ghost predicate ServerSent(s: S.ServerState, k: S.PeerKey, m: nat, host: Host, t: S.ServerState,
                             result: Result<(), Refused>)
    requires k in s.outgoing && m <= |s.outgoing[k].box.queued|
    requires BodyCount(s.outgoing[k].box.queued[..m]) <= s.outgoing[k].box.credit
  {
    var o := s.outgoing[k];
    var b := o.box;
    var sent := s.log + Entries(o.peer, k.stream, b.queued[..m]);
    && t.incoming == s.incoming && t.served == s.served && t.handler == s.handler
    && t.outgoing - {k} == s.outgoing - {k}
    && if m > 0 && Ends(b.queued[m - 1], host(|s.log| + m - 1), true) then
         && k !in t.outgoing && t.log == sent + [S.Shut(k)]
         && result == (if host(|s.log| + m - 1).RefusedNow? then Err(host(|s.log| + m - 1).why) else Ok(()))
       else
         && k in t.outgoing && t.log == sent && result == Ok(())
         && t.outgoing[k] == o.(box := Box(b.credit - BodyCount(b.queued[..m]), b.queued[m..]))
  }

  lemma EntriesOn(peer: Caller, stream: nat, first: FrameKind, rest: seq<FrameKind>)
    ensures Entries(peer, stream, [first] + rest) ==
            [S.Responded(peer, Frame(stream, first))] + Entries(peer, stream, rest)
  {
  }

  lemma ServerSentOn(s: S.ServerState, k: S.PeerKey, m: nat, host: Host, t: S.ServerState, result: Result<(), Refused>)
    requires k in s.outgoing && !Blocked(s.outgoing[k].box)
    requires !Ends(s.outgoing[k].box.queued[0], host(|s.log|), true)
    requires var b := s.outgoing[k].box;
             && m < |b.queued| && b.queued[..m + 1] == [b.queued[0]] + b.queued[1..][..m]
             && BodyCount(b.queued[..m + 1]) ==
                BodyCount(b.queued[1..][..m]) + (if b.queued[0].Body? then 1 else 0) <= b.credit
    requires ServerSent(S.SendNext(s, k), k, m, host, t, result)
    ensures ServerSent(s, k, m + 1, host, t, result)
  {
    hide BodyCount, Entries;
    var o, next := s.outgoing[k], S.SendNext(s, k);
    var b := o.box;
    EntriesOn(o.peer, k.stream, b.queued[0], b.queued[1..][..m]);
    assert s.outgoing - {k} == next.outgoing - {k};
    assert b.queued[m + 1..] == b.queued[1..][m..];
    assert s.log + ([S.Responded(o.peer, Frame(k.stream, b.queued[0]))] + Entries(o.peer, k.stream, b.queued[1..][..m]))
           == next.log + Entries(o.peer, k.stream, b.queued[1..][..m]);
  }

  lemma ServerSentOnce(s: S.ServerState, k: S.PeerKey, host: Host)
    requires k in s.outgoing && !Blocked(s.outgoing[k].box)
    requires Ends(s.outgoing[k].box.queued[0], host(|s.log|), true)
    requires var b := s.outgoing[k].box; BodyCount(b.queued[..1]) <= b.credit
    ensures var (t, result) := S.Flush(s, k, host); ServerSent(s, k, 1, host, t, result)
  {
    assert s.outgoing - {k} == S.SendNext(s, k).outgoing - {k};
    assert s.outgoing[k].box.queued[..1] == [s.outgoing[k].box.queued[0]];
  }

  lemma ServerSentNothing(s: S.ServerState, k: S.PeerKey, host: Host)
    requires k in s.outgoing
    ensures ServerSent(s, k, 0, host, s, Ok(()))
  {
    var b := s.outgoing[k].box;
    assert b.queued[..0] == [] && b.queued[0..] == b.queued;
  }

  /** A flush of an open response: the same, and the stream is shut by a refusal, which is answered, or
      by the response's last frame. */
  lemma {:induction false} ServerFlushIs(s: S.ServerState, k: S.PeerKey, host: Host) returns (m: nat)
    requires k in s.outgoing
    ensures Goes(s.outgoing[k].box, m, |s.log|, host, true)
    ensures var (t, result) := S.Flush(s, k, host); ServerSent(s, k, m, host, t, result)
    decreases |s.outgoing[k].box.queued|
  {
    hide ServerSent, BodyCount, Goes, S.ShutDown;
    var b := s.outgoing[k].box;
    if Blocked(b) {
      GoesNot(b, |s.log|, host, true);
      ServerSentNothing(s, k, host);
      return 0;
    }
    var next := S.SendNext(s, k);
    if Ends(b.queued[0], host(|s.log|), true) {
      GoesOnce(b, |s.log|, host, true);
      GoesWithin(b, 1, |s.log|, host, true);
      ServerSentOnce(s, k, host);
      return 1;
    }
    var more := ServerFlushIs(next, k, host);
    GoesOn(b, more, |s.log|, host, true);
    m := more + 1;
    GoesWithin(b, m, |s.log|, host, true);
    var (t, result) := S.Flush(s, k, host);
    ServerSentOn(s, k, more, host, t, result);
  }
}
