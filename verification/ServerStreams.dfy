/** Which streams may answer, exactly, over every run of the serving side, told from the frames that
    came, the late refusals and what the host answered: never from the server's own tables. */
module ServerStreams {
  import opened Basics
  import opened Frames
  import opened Outbox
  import opened Server
  import opened Flushes

  /** A frame of key `k`'s response. */
  predicate IsResponse(e: Entry, k: PeerKey) {
    e.Responded? && KeyOf(e.peer, e.frame.stream) == k
  }

  /** From position `from` on, a frame of `k`'s response went out that was its last, or was refused. */
  ghost predicate Sealed(log: seq<Entry>, from: nat, host: Host, k: PeerKey) {
    exists p :: from <= p < |log| && IsResponse(log[p], k) && Ends(log[p].frame.kind, host(p), true)
  }

  /** The caller's `Cancel` of `k`, or a refusal of one of `k`'s frames that comes late. */
  predicate CalledOff(a: Action, k: PeerKey) {
    (IsFrame(a, k) && a.frame.kind.Cancel?) || a == LateRefusal(k)
  }

  /** The `End` that completes a request of `k`, after `before`. */
  predicate Completes(before: seq<Action>, a: Action, k: PeerKey) {
    IsFrame(a, k) && a.frame.kind.End? && Expected(before, k).open.Some?
  }

  /** `k` may answer: a request of `k` completed, and since then `k` was not called off and no frame of
      its response was the last or was refused. */
  ghost predicate MayAnswer(actions: seq<Action>, host: Host, k: PeerKey)
    decreases |actions|
  {
    && actions != []
    && var before, a := actions[..|actions| - 1], actions[|actions| - 1];
       && (MayAnswer(before, host, k) || Completes(before, a, k))
       && !CalledOff(a, k)
       && !Sealed(AfterAll(SERVING, actions, host).log, |AfterAll(SERVING, before, host).log|, host, k)
  }

  // ---------------------------------------------------------------- what sending does to one key

  ghost predicate OwnPeers(s: ServerState) {
    forall k :: k in s.outgoing ==> KeyOf(s.outgoing[k].peer, k.stream) == k
  }

  /** `k`'s response goes only where there is one, and it stays unless one of its frames ends it. */
  ghost predicate Moves(s: ServerState, t: ServerState, host: Host, k: PeerKey) {
    && s.log <= t.log && OwnPeers(t)
    && (k in t.outgoing <==> k in s.outgoing && !Sealed(t.log, |s.log|, host, k))
    && (forall p :: |s.log| <= p < |t.log| && IsResponse(t.log[p], k) ==> k in s.outgoing)
  }

  lemma MovesOn(s: ServerState, t: ServerState, u: ServerState, host: Host, k: PeerKey)
    requires Moves(s, t, host, k) && Moves(t, u, host, k)
    ensures Moves(s, u, host, k)
  {
    if Sealed(t.log, |s.log|, host, k) {
      var p :| |s.log| <= p < |t.log| && IsResponse(t.log[p], k) && Ends(t.log[p].frame.kind, host(p), true);
      assert u.log[p] == t.log[p];
    }
    if Sealed(u.log, |s.log|, host, k) {
      var p :| |s.log| <= p < |u.log| && IsResponse(u.log[p], k) && Ends(u.log[p].frame.kind, host(p), true);
      assert p < |t.log| ==> u.log[p] == t.log[p];
    }
    forall p | |s.log| <= p < |u.log| && IsResponse(u.log[p], k) ensures k in s.outgoing {
      assert p < |t.log| ==> u.log[p] == t.log[p];
    }
  }

  lemma MovesNothing(s: ServerState, t: ServerState, host: Host, k: PeerKey)
    requires OwnPeers(s) && OwnPeers(t) && s.log <= t.log && (k in t.outgoing <==> k in s.outgoing)
    requires forall p :: |s.log| <= p < |t.log| ==> !t.log[p].Responded?
    ensures Moves(s, t, host, k)
  {
  }

  lemma FlushMoves(s: ServerState, j: PeerKey, host: Host, k: PeerKey)
    requires OwnPeers(s)
    ensures Moves(s, Flush(s, j, host).0, host, k)
  {
    hide Flush, Goes, BodyCount;
    if j in s.outgoing {
      var m := ServerFlushIs(s, j, host);
      var (t, result) := Flush(s, j, host);
      SentMoves(s, j, m, host, t, result, k);
    } else {
      FlushesNothing(s, j, host);
      MovesNothing(s, s, host, k);
    }
  }

  lemma FlushesNothing(s: ServerState, j: PeerKey, host: Host)
    requires j !in s.outgoing
    ensures Flush(s, j, host).0 == s
  {
  }

  lemma SentMoves(s: ServerState, j: PeerKey, m: nat, host: Host, t: ServerState, result: Result<(), Refused>,
                  k: PeerKey)
    requires OwnPeers(s) && j in s.outgoing && Goes(s.outgoing[j].box, m, |s.log|, host, true)
    requires ServerSent(s, j, m, host, t, result)
    ensures Moves(s, t, host, k)
  {
    hide BodyCount, Ends;
    SentEntries(s, j, m, host, t, result);
    SentSeals(s, j, m, host, t, result);
    assert forall i :: i != j ==> (i in t.outgoing <==> i in t.outgoing - {j});
    assert forall i :: i != j && i in t.outgoing ==> t.outgoing[i] == (t.outgoing - {j})[i];
    if k != j {
      assert !Sealed(t.log, |s.log|, host, k);
    }
  }

  /** The responses a flush of `j` adds are `j`'s, and those that went out of its queue. */
  lemma SentEntries(s: ServerState, j: PeerKey, m: nat, host: Host, t: ServerState, result: Result<(), Refused>)
    requires OwnPeers(s) && j in s.outgoing && Goes(s.outgoing[j].box, m, |s.log|, host, true)
    requires ServerSent(s, j, m, host, t, result)
    ensures s.log <= t.log && |s.log| + m <= |t.log|
    ensures forall p :: |s.log| <= p < |s.log| + m ==>
              IsResponse(t.log[p], j) && t.log[p].frame.kind == s.outgoing[j].box.queued[p - |s.log|]
    ensures forall p :: |s.log| + m <= p < |t.log| ==> !t.log[p].Responded?
  {
    hide BodyCount, Ends;
    var o := s.outgoing[j];
    var sent := Entries(o.peer, j.stream, o.box.queued[..m]);
    forall p | |s.log| <= p < |s.log| + m ensures t.log[p] == sent[p - |s.log|] {
    }
  }

  lemma SentShuts(s: ServerState, j: PeerKey, m: nat, host: Host, t: ServerState, result: Result<(), Refused>)
    requires j in s.outgoing && m <= |s.outgoing[j].box.queued|
    requires BodyCount(s.outgoing[j].box.queued[..m]) <= s.outgoing[j].box.credit
    requires ServerSent(s, j, m, host, t, result)
    ensures j !in t.outgoing <==> m > 0 && Ends(s.outgoing[j].box.queued[m - 1], host(|s.log| + m - 1), true)
  {
    hide BodyCount, Ends;
  }

  lemma SentSeals(s: ServerState, j: PeerKey, m: nat, host: Host, t: ServerState, result: Result<(), Refused>)
    requires OwnPeers(s) && j in s.outgoing && Goes(s.outgoing[j].box, m, |s.log|, host, true)
    requires ServerSent(s, j, m, host, t, result)
    ensures Sealed(t.log, |s.log|, host, j) <==> j !in t.outgoing
  {
    hide BodyCount, Ends, ServerSent;
    SentEntries(s, j, m, host, t, result);
    SentShuts(s, j, m, host, t, result);
    var n, q := |s.log|, s.outgoing[j].box.queued;
    if j !in t.outgoing {
      assert IsResponse(t.log[n + m - 1], j) && t.log[n + m - 1].frame.kind == q[m - 1];
    }
    if Sealed(t.log, n, host, j) {
      var p :| n <= p < |t.log| && IsResponse(t.log[p], j) && Ends(t.log[p].frame.kind, host(p), true);
      assert host(n + (p - n)) == host(p) && !(p - n < m - 1);
      assert p == n + m - 1;
    }
  }

  lemma DidMoves(s: ServerState, op: ServerOp, host: Host, k: PeerKey)
    requires OwnPeers(s)
    ensures Moves(s, Did(s, op, host), host, k)
  {
    hide Moves, Flush, Queued;
    match op
    case RespondOp(peer, stream, status, headers, body) =>
      var j := KeyOf(peer, stream);
      if j in s.outgoing {
        var head := RespHead(ResponseHead(status, headers, Some(|body|)));
        var t := s.(outgoing := s.outgoing[j := s.outgoing[j].(box := Queued(s.outgoing[j].box, head, body))]);
        MovesNothing(s, t, host, k);
        FlushMoves(t, j, host, k);
        MovesOn(s, t, Flush(t, j, host).0, host, k);
      } else {
        MovesNothing(s, s, host, k);
      }
    case ServeOp => MovesNothing(s, s.(handler := true), host, k);
  }

  lemma {:induction false} DidAllMoves(s: ServerState, ops: seq<ServerOp>, host: Host, k: PeerKey)
    requires OwnPeers(s)
    ensures Moves(s, DidAll(s, ops, host), host, k)
    decreases |ops|
  {
    hide Did;
    if ops == [] {
      MovesNothing(s, s, host, k);
    } else {
      DidMoves(s, ops[0], host, k);
      DidAllMoves(Did(s, ops[0], host), ops[1..], host, k);
      MovesOn(s, Did(s, ops[0], host), DidAll(s, ops, host), host, k);
    }
  }

  // ---------------------------------------------------------------- what an action does to one key

  /** What one action leaves: `k` may answer after it if it could before, or the action completes a
      request of `k`; unless the action calls `k` off or a frame of its response ends it. Its response
      goes only where one of the two holds. */
  ghost predicate Steps(s: ServerState, a: Action, t: ServerState, host: Host, k: PeerKey) {
    var begins := IsFrame(a, k) && a.frame.kind.End? && k in s.incoming;
    && s.log <= t.log && OwnPeers(t)
    && (k in t.outgoing <==> (k in s.outgoing || begins) && !CalledOff(a, k) && !Sealed(t.log, |s.log|, host, k))
    && (forall p :: |s.log| <= p < |t.log| && IsResponse(t.log[p], k) ==>
          (k in s.outgoing || begins) && !CalledOff(a, k))
  }

  lemma StepsAsMoves(s: ServerState, a: Action, t: ServerState, host: Host, k: PeerKey)
    requires Moves(s, t, host, k) && !CalledOff(a, k)
    requires !(IsFrame(a, k) && a.frame.kind.End? && k in s.incoming)
    ensures Steps(s, a, t, host, k)
  {
  }

  lemma ActionSteps(s: ServerState, a: Action, host: Host, k: PeerKey)
    requires OwnPeers(s)
    ensures Steps(s, a, Apply(s, a, host), host, k)
  {
    hide Moves, Steps, Flush, DidAll, Did, Complete;
    match a
    case FrameIn(from, frame, inner) => FrameSteps(s, from, frame, inner, host, k);
    case AppDid(op) =>
      DidMoves(s, op, host, k);
      StepsAsMoves(s, a, Did(s, op, host), host, k);
    case LateRefusal(j) => ShutSteps(s, a, s, j, host, k);
  }

  /** Closing `j`'s stream, which nothing else does to `k`'s. */
  lemma ShutSteps(s: ServerState, a: Action, t: ServerState, j: PeerKey, host: Host, k: PeerKey)
    requires OwnPeers(s) && t == s.(incoming := t.incoming) && CalledOff(a, j)
    requires a == LateRefusal(j) || IsFrame(a, j)
    ensures Steps(s, a, ShutDown(t, j), host, k)
  {
  }

  lemma FrameSteps(s: ServerState, from: Caller, frame: Frame, inner: seq<ServerOp>, host: Host, k: PeerKey)
    requires OwnPeers(s)
    ensures Steps(s, FrameIn(from, frame, inner), OnFrame(s, from, frame, inner, host), host, k)
  {
    hide Moves, Steps, Flush, DidAll, ShutDown;
    var a, t, j := FrameIn(from, frame, inner), OnFrame(s, from, frame, inner, host), KeyOf(from, frame.stream);
    match frame.kind
    case ReqHead(_) =>
      MovesNothing(s, t, host, k);
      StepsAsMoves(s, a, t, host, k);
    case Body(_) =>
      MovesNothing(s, t, host, k);
      StepsAsMoves(s, a, t, host, k);
    case End =>
      if j in s.incoming {
        CompleteSteps(s, from, frame, inner, host, k);
      } else {
        MovesNothing(s, s, host, k);
        StepsAsMoves(s, a, s, host, k);
      }
    case Cancel(_) => ShutSteps(s, a, s.(incoming := s.incoming - {j}), j, host, k);
    case Credit(n) =>
      if j in s.outgoing {
        var u := s.(outgoing := s.outgoing[j := s.outgoing[j].(box := Granted(s.outgoing[j].box, n))]);
        MovesNothing(s, u, host, k);
        FlushMoves(u, j, host, k);
        MovesOn(s, u, t, host, k);
      } else {
        MovesNothing(s, s, host, k);
      }
      StepsAsMoves(s, a, t, host, k);
    case RespHead(_) =>
      MovesNothing(s, s, host, k);
      StepsAsMoves(s, a, s, host, k);
  }

  lemma CompleteSteps(s: ServerState, from: Caller, frame: Frame, inner: seq<ServerOp>, host: Host, k: PeerKey)
    requires OwnPeers(s) && frame.kind.End? && KeyOf(from, frame.stream) in s.incoming
    ensures Steps(s, FrameIn(from, frame, inner), OnFrame(s, from, frame, inner, host), host, k)
  {
    hide Flush, DidAll;
    var j := KeyOf(from, frame.stream);
    var open := OpenedFor(s, j, from);
    var u := if s.handler then open.(handler := false, served := open.served + [RequestOf(s.incoming[j], frame.stream)])
             else open;
    var v := if s.handler then DidAll(u, inner, host) else u;
    if s.handler {
      DidAllMoves(u, inner, host, k);
    } else {
      MovesNothing(u, u, host, k);
    }
    assert Moves(u, v, host, k) && u.log == s.log + [Opened(j)];
    assert forall p :: |s.log| <= p < |v.log| && IsResponse(v.log[p], k) ==> p >= |u.log|;
  }

  // ---------------------------------------------------------------- every run

  lemma {:induction false} EveryRunSteps(actions: seq<Action>, host: Host, k: PeerKey)
    ensures OwnPeers(AfterAll(SERVING, actions, host))
    ensures k in AfterAll(SERVING, actions, host).outgoing <==> MayAnswer(actions, host, k)
    decreases |actions|
  {
    hide Sealed, CalledOff, Apply, Holds, Serving;
    if actions != [] {
      var before, a := actions[..|actions| - 1], actions[|actions| - 1];
      EveryRunSteps(before, host, k);
      AssembledIs(before, host, k);
      ActionSteps(AfterAll(SERVING, before, host), a, host, k);
    }
  }

  lemma AssembledIs(actions: seq<Action>, host: Host, k: PeerKey)
    ensures k in AfterAll(SERVING, actions, host).incoming <==> Expected(actions, k).open.Some?
  {
    EveryRunHolds(actions, host, k);
  }

  /** Over every run, a key holds a response exactly while it may answer. */
  lemma OpenExactlyWhileItMayAnswer(actions: seq<Action>, host: Host, k: PeerKey)
    ensures k in AfterAll(SERVING, actions, host).outgoing <==> MayAnswer(actions, host, k)
  {
    EveryRunSteps(actions, host, k);
  }

  /** Over every run, for every action: a frame of `k`'s response goes out in it only if `k` could
      answer before, or the action completes a request of `k`; and never in one that calls `k` off. */
  lemma AnswersOnlyWhileItMay(before: seq<Action>, a: Action, host: Host, k: PeerKey, p: nat)
    requires |AfterAll(SERVING, before, host).log| <= p < |AfterAll(SERVING, before + [a], host).log|
    requires IsResponse(AfterAll(SERVING, before + [a], host).log[p], k)
    ensures MayAnswer(before, host, k) || Completes(before, a, k)
    ensures !CalledOff(a, k)
  {
    hide Sealed, CalledOff, Apply, MayAnswer;
    assert (before + [a])[..|before|] == before;
    EveryRunSteps(before, host, k);
    AssembledIs(before, host, k);
    ActionSteps(AfterAll(SERVING, before, host), a, host, k);
  }

  /** A `Cancel` leaves neither a request of its key in assembly nor a response, a late refusal no
      response and the assembly as it was; neither sends anything. */
  lemma CalledOffIsGone(before: seq<Action>, a: Action, host: Host, k: PeerKey)
    requires CalledOff(a, k)
    ensures var s, t := AfterAll(SERVING, before, host), AfterAll(SERVING, before + [a], host);
            && k !in t.outgoing
            && (if a.FrameIn? then k !in t.incoming && t.incoming == s.incoming - {k} else t.incoming == s.incoming)
            && s.log <= t.log && forall p :: |s.log| <= p < |t.log| ==> !t.log[p].Responded?
  {
    assert (before + [a])[..|before|] == before;
  }

  lemma {:induction false} LogGrows(before: seq<Action>, later: seq<Action>, host: Host)
    ensures AfterAll(SERVING, before, host).log <= AfterAll(SERVING, before + later, host).log
    decreases |later|
  {
    hide Apply, Sealed;
    if later == [] {
      assert before + later == before;
    } else {
      var front, a := later[..|later| - 1], later[|later| - 1];
      assert (before + later)[..|before + later| - 1] == before + front;
      LogGrows(before, front, host);
      var k := PeerKey(0, "", 0);
      EveryRunSteps(before + front, host, k);
      ActionSteps(AfterAll(SERVING, before + front, host), a, host, k);
    }
  }

  /** The first request of `k` to complete in `later`, if any, went before what `k` sent. */
  lemma {:induction false} CompletedBefore(before: seq<Action>, later: seq<Action>, host: Host, k: PeerKey, q: nat)
    returns (m: nat)
    requires !MayAnswer(before, host, k)
    requires |AfterAll(SERVING, before, host).log| <= q < |AfterAll(SERVING, before + later, host).log|
    requires IsResponse(AfterAll(SERVING, before + later, host).log[q], k)
    ensures m < |later| && Completes(before + later[..m], later[m], k)
    ensures |AfterAll(SERVING, before + later[..m], host).log| <= q
    decreases |later|
  {
    hide Sealed, CalledOff, Apply, AfterAll, Completes;
    assert before + [] == before;
    if later == [] {
      assert false;
    }
    var front, a := later[..|later| - 1], later[|later| - 1];
    assert before + later == before + front + [a];
    LogGrows(before + front, [a], host);
    LogGrows(before, front, host);
    if q < |AfterAll(SERVING, before + front, host).log| {
      m := CompletedBefore(before, front, host, k, q);
      assert front[..m] == later[..m];
    } else {
      AnswersOnlyWhileItMay(before + front, a, host, k, q);
      if Completes(before + front, a, k) {
        m := |front|;
      } else {
        m := CompletedBy(before, front, host, k);
        assert front[..m] == later[..m];
        LogGrows(before + front[..m], front[m..], host);
        assert before + front[..m] + front[m..] == before + front;
      }
    }
  }

  lemma {:induction false} CompletedBy(before: seq<Action>, later: seq<Action>, host: Host, k: PeerKey) returns (m: nat)
    requires !MayAnswer(before, host, k) && MayAnswer(before + later, host, k)
    ensures m < |later| && Completes(before + later[..m], later[m], k)
    decreases |later|
  {
    hide Sealed, CalledOff, AfterAll, Completes;
    assert before + [] == before;
    if later == [] {
      assert false;
    }
    var front, a := later[..|later| - 1], later[|later| - 1];
    assert (before + later)[..|before + later| - 1] == before + front;
    if Completes(before + front, a, k) {
      m := |front|;
    } else {
      m := CompletedBy(before, front, host, k);
      assert front[..m] == later[..m];
    }
  }

  /** Over every run: once `k` was called off, nothing of `k` goes out again before an `End` completes
      a new request of `k`. */
  lemma SilentUntilTheNextRequest(before: seq<Action>, a: Action, later: seq<Action>, host: Host, k: PeerKey, q: nat)
    returns (m: nat)
    requires CalledOff(a, k)
    requires |AfterAll(SERVING, before + [a], host).log| <= q < |AfterAll(SERVING, before + [a] + later, host).log|
    requires IsResponse(AfterAll(SERVING, before + [a] + later, host).log[q], k)
    ensures m < |later| && Completes(before + [a] + later[..m], later[m], k)
    ensures |AfterAll(SERVING, before + [a] + later[..m], host).log| <= q
  {
    hide AfterAll, CalledOff, Completes;
    CalledOffIsGone(before, a, host, k);
    OpenExactlyWhileItMayAnswer(before + [a], host, k);
    m := CompletedBefore(before + [a], later, host, k, q);
  }

  // ---------------------------------------------------------------- what goes out is what was answered

  /** The frames of `k`'s response in a log. */
  function ResponseOut(log: seq<Entry>, k: PeerKey): seq<FrameKind> {
    if log == [] then []
    else
      var rest, last := ResponseOut(log[..|log| - 1], k), log[|log| - 1];
      if IsResponse(last, k) then rest + [last.frame.kind] else rest
  }

  /** The response an operation gives: its head, its body in chunks, and its end. */
  function Answer(op: ServerOp): seq<FrameKind> {
    match op
    case RespondOp(_, _, status, headers, body) =>
      [RespHead(ResponseHead(status, headers, Some(|body|)))] + BodyFrames(Chunks(body)) + [End]
    case ServeOp => []
  }

  predicate IsFor(op: ServerOp, k: PeerKey) {
    op.RespondOp? && KeyOf(op.peer, op.stream) == k
  }

  /** What a list of operations answers on `k`. */
  function AnswersFor(ops: seq<ServerOp>, k: PeerKey): seq<FrameKind> {
    if ops == [] then []
    else (if IsFor(ops[0], k) then Answer(ops[0]) else []) + AnswersFor(ops[1..], k)
  }

  /** What the app does during an action: its handler runs when a request completes. */
  function DoneIn(before: seq<Action>, a: Action): seq<ServerOp> {
    match a
    case FrameIn(from, frame, inner) => if Completes(before, a, KeyOf(from, frame.stream)) then inner else []
    case AppDid(op) => [op]
    case LateRefusal(_) => []
  }

  /** What the app has answered on `k` since `k`'s last request completed. */
  function Given(actions: seq<Action>, k: PeerKey): seq<FrameKind>
    decreases |actions|
  {
    if actions == [] then []
    else
      var before, a := actions[..|actions| - 1], actions[|actions| - 1];
      (if Completes(before, a, k) then [] else Given(before, k)) + AnswersFor(DoneIn(before, a), k)
  }

  /** Where the log was when `k`'s last request completed, and who sent its `End`. */
  function Since(actions: seq<Action>, host: Host, k: PeerKey): (nat, Option<Caller>)
    decreases |actions|
  {
    if actions == [] then (0, None)
    else
      var before, a := actions[..|actions| - 1], actions[|actions| - 1];
      if Completes(before, a, k) then (|AfterAll(SERVING, before, host).log|, Some(a.from)) else Since(before, host, k)
  }

  lemma {:induction false} ResponseOutJoin(a: seq<Entry>, b: seq<Entry>, k: PeerKey)
    ensures ResponseOut(a + b, k) == ResponseOut(a, k) + ResponseOut(b, k)
    decreases |b|
  {
    if b == [] {
      assert a + b == a;
    } else {
      assert (a + b)[..|a + b| - 1] == a + b[..|b| - 1];
      ResponseOutJoin(a, b[..|b| - 1], k);
    }
  }

  lemma {:induction false} ResponseOutNone(log: seq<Entry>, k: PeerKey)
    requires forall p :: 0 <= p < |log| ==> !IsResponse(log[p], k)
    ensures ResponseOut(log, k) == []
  {
    if log != [] {
      ResponseOutNone(log[..|log| - 1], k);
    }
  }

  lemma {:induction false} ResponseOutAll(log: seq<Entry>, frames: seq<FrameKind>, k: PeerKey)
    requires |log| == |frames|
    requires forall p :: 0 <= p < |log| ==> IsResponse(log[p], k) && log[p].frame.kind == frames[p]
    ensures ResponseOut(log, k) == frames
  {
    if log != [] {
      var m := |log| - 1;
      ResponseOutAll(log[..m], frames[..m], k);
      assert frames == frames[..m] + [frames[m]];
    }
  }

  /** From `s` to `t` the app answered `added` on `k`: of what waited and that, some went out, to the
      stream's peer, and the rest waits, or is gone with the stream. */
  ghost predicate Outs(s: ServerState, t: ServerState, k: PeerKey, added: seq<FrameKind>) {
    && s.log <= t.log && OwnPeers(t)
    && var out := ResponseOut(t.log[|s.log|..], k);
       if k !in s.outgoing then k !in t.outgoing && out == []
       else
         && (if k in t.outgoing then out + t.outgoing[k].box.queued == s.outgoing[k].box.queued + added
             else out <= s.outgoing[k].box.queued + added)
         && (k in t.outgoing ==> t.outgoing[k].peer == s.outgoing[k].peer)
         && (forall p :: |s.log| <= p < |t.log| && IsResponse(t.log[p], k) ==> t.log[p].peer == s.outgoing[k].peer)
  }

  lemma OutsThen(s: ServerState, t: ServerState, u: ServerState, k: PeerKey, a: seq<FrameKind>, b: seq<FrameKind>)
    requires Outs(s, t, k, a) && Outs(t, u, k, b)
    ensures Outs(s, u, k, a + b)
  {
    hide ResponseOut, OwnPeers;
    assert u.log[|s.log|..] == t.log[|s.log|..] + u.log[|t.log|..];
    ResponseOutJoin(t.log[|s.log|..], u.log[|t.log|..], k);
    forall p | |s.log| <= p < |u.log| && IsResponse(u.log[p], k) && k in s.outgoing
      ensures u.log[p].peer == s.outgoing[k].peer
    {
      if p >= |t.log| && k !in t.outgoing {
        SomeResponse(u.log[|t.log|..], p - |t.log|, k);
      }
      assert p < |t.log| ==> u.log[p] == t.log[p];
    }
    if k in s.outgoing {
      var q := s.outgoing[k].box.queued;
      assert q + a + b == q + (a + b);
      if k in t.outgoing && k in u.outgoing {
        assert ResponseOut(t.log[|s.log|..], k) + (ResponseOut(u.log[|t.log|..], k) + u.outgoing[k].box.queued)
               == ResponseOut(u.log[|s.log|..], k) + u.outgoing[k].box.queued;
      }
    }
  }

  lemma {:induction false} SomeResponse(log: seq<Entry>, p: nat, k: PeerKey)
    requires p < |log| && IsResponse(log[p], k)
    ensures ResponseOut(log, k) != []
    decreases |log|
  {
    if p < |log| - 1 {
      SomeResponse(log[..|log| - 1], p, k);
    }
  }

  lemma OutsNothing(s: ServerState, t: ServerState, k: PeerKey)
    requires OwnPeers(t) && s.log <= t.log && (k in s.outgoing <==> k in t.outgoing)
    requires k in s.outgoing ==> t.outgoing[k].peer == s.outgoing[k].peer
                                 && t.outgoing[k].box.queued == s.outgoing[k].box.queued
    requires forall p :: |s.log| <= p < |t.log| ==> !IsResponse(t.log[p], k)
    ensures Outs(s, t, k, [])
  {
    ResponseOutNone(t.log[|s.log|..], k);
  }

  lemma FlushOuts(s: ServerState, j: PeerKey, host: Host, k: PeerKey)
    requires OwnPeers(s)
    ensures Outs(s, Flush(s, j, host).0, k, [])
  {
    hide Flush, BodyCount, Goes, ResponseOut;
    if j in s.outgoing {
      var m := ServerFlushIs(s, j, host);
      GoesWithin(s.outgoing[j].box, m, |s.log|, host, true);
      var (t, result) := Flush(s, j, host);
      SentOuts(s, j, m, host, t, result, k);
    } else {
      FlushesNothing(s, j, host);
      OutsNothing(s, s, k);
    }
  }

  lemma SentOuts(s: ServerState, j: PeerKey, m: nat, host: Host, t: ServerState, result: Result<(), Refused>,
                 k: PeerKey)
    requires OwnPeers(s) && j in s.outgoing && Goes(s.outgoing[j].box, m, |s.log|, host, true)
    requires ServerSent(s, j, m, host, t, result)
    ensures Outs(s, t, k, [])
  {
    hide BodyCount, Ends, ResponseOut, Goes;
    var q := s.outgoing[j].box.queued;
    GoesWithin(s.outgoing[j].box, m, |s.log|, host, true);
    SentEntries(s, j, m, host, t, result);
    SentRest(s, j, m, host, t, result);
    if k == j {
      var all := t.log[|s.log|..];
      assert all == all[..m] + all[m..];
      ResponseOutAll(all[..m], q[..m], k);
      ResponseOutNone(all[m..], k);
      ResponseOutJoin(all[..m], all[m..], k);
      assert q[..m] + q[m..] == q;
    } else {
      forall p | |s.log| <= p < |t.log| ensures !IsResponse(t.log[p], k) {
        assert p < |s.log| + m ==> IsResponse(t.log[p], j);
      }
      OutsNothing(s, t, k);
    }
  }

  lemma SentRest(s: ServerState, j: PeerKey, m: nat, host: Host, t: ServerState, result: Result<(), Refused>)
    requires OwnPeers(s) && j in s.outgoing && m <= |s.outgoing[j].box.queued|
    requires BodyCount(s.outgoing[j].box.queued[..m]) <= s.outgoing[j].box.credit
    requires ServerSent(s, j, m, host, t, result)
    ensures OwnPeers(t)
    ensures forall k :: k != j ==>
              (k in t.outgoing <==> k in s.outgoing) && (k in s.outgoing ==> t.outgoing[k] == s.outgoing[k])
    ensures j in t.outgoing ==> t.outgoing[j].peer == s.outgoing[j].peer
                                && t.outgoing[j].box.queued == s.outgoing[j].box.queued[m..]
    ensures forall p :: |s.log| <= p < |t.log| && t.log[p].Responded? ==> t.log[p].peer == s.outgoing[j].peer
  {
    hide BodyCount, Ends;
    var o := s.outgoing[j];
    var sent := Entries(o.peer, j.stream, o.box.queued[..m]);
    forall k | k != j
      ensures (k in t.outgoing <==> k in s.outgoing) && (k in s.outgoing ==> t.outgoing[k] == s.outgoing[k])
    {
      assert k in t.outgoing <==> k in t.outgoing - {j};
      assert k in t.outgoing ==> t.outgoing[k] == (t.outgoing - {j})[k];
    }
    forall p | |s.log| <= p < |t.log| && t.log[p].Responded? ensures t.log[p].peer == o.peer {
      assert p < |s.log| + m ==> t.log[p] == sent[p - |s.log|];
    }
  }

  lemma DidOuts(s: ServerState, op: ServerOp, host: Host, k: PeerKey)
    requires OwnPeers(s)
    ensures Outs(s, Did(s, op, host), k, AnswersFor([op], k))
  {
    hide Flush, Chunks, BodyFrames, ResponseOut;
    assert [op][1..] == [];
    match op
    case RespondOp(peer, stream, status, headers, body) =>
      var j := KeyOf(peer, stream);
      if j in s.outgoing {
        var head := RespHead(ResponseHead(status, headers, Some(|body|)));
        var t := s.(outgoing := s.outgoing[j := s.outgoing[j].(box := Queued(s.outgoing[j].box, head, body))]);
        QueuedOuts(s, t, j, k, Answer(op));
        FlushOuts(t, j, host, k);
        OutsThen(s, t, Flush(t, j, host).0, k, if j == k then Answer(op) else [], []);
        assert AnswersFor([op], k) == (if j == k then Answer(op) else []) + [];
      } else {
        OutsNothing(s, s, k);
        assert k in s.outgoing ==> !IsFor(op, k);
        assert k in s.outgoing ==> AnswersFor([op], k) == [] + AnswersFor([], k);
        OutsLess(s, s, k, AnswersFor([op], k));
      }
    case ServeOp => OutsNothing(s, s.(handler := true), k);
  }

  lemma QueuedOuts(s: ServerState, t: ServerState, j: PeerKey, k: PeerKey, frames: seq<FrameKind>)
    requires OwnPeers(s) && j in s.outgoing
    requires var o := s.outgoing[j];
             t == s.(outgoing := s.outgoing[j := o.(box := o.box.(queued := o.box.queued + frames))])
    ensures Outs(s, t, k, if j == k then frames else [])
  {
    ResponseOutNone(t.log[|s.log|..], k);
  }

  /** What is answered on a stream that is not open goes nowhere. */
  lemma OutsLess(s: ServerState, t: ServerState, k: PeerKey, added: seq<FrameKind>)
    requires Outs(s, t, k, []) && (k in s.outgoing ==> added == [])
    ensures Outs(s, t, k, added)
  {
    hide ResponseOut, OwnPeers;
  }

  lemma {:induction false} DidAllOuts(s: ServerState, ops: seq<ServerOp>, host: Host, k: PeerKey)
    requires OwnPeers(s)
    ensures Outs(s, DidAll(s, ops, host), k, AnswersFor(ops, k))
    decreases |ops|
  {
    hide Did, ResponseOut, Answer;
    if ops == [] {
      OutsNothing(s, s, k);
    } else {
      DidOuts(s, ops[0], host, k);
      DidAllOuts(Did(s, ops[0], host), ops[1..], host, k);
      OutsThen(s, Did(s, ops[0], host), DidAll(s, ops, host), k, AnswersFor([ops[0]], k), AnswersFor(ops[1..], k));
      assert [ops[0]][1..] == [];
    }
  }

  /** The request of `k` in assembly completes with this action. */
  predicate Begins(s: ServerState, a: Action, k: PeerKey) {
    IsFrame(a, k) && a.frame.kind.End? && k in s.incoming
  }

  function DoneBy(s: ServerState, a: Action): seq<ServerOp> {
    match a
    case FrameIn(from, frame, inner) => if Begins(s, a, KeyOf(from, frame.stream)) then inner else []
    case AppDid(op) => [op]
    case LateRefusal(_) => []
  }

  lemma ActionOuts(s: ServerState, a: Action, host: Host, k: PeerKey)
    requires OwnPeers(s) && s.handler && !Begins(s, a, k)
    ensures Outs(s, Apply(s, a, host), k, AnswersFor(DoneBy(s, a), k))
  {
    hide Outs, OnFrame, Did, ResponseOut, ShutDown;
    match a
    case FrameIn(_, _, _) => FrameOuts(s, a, host, k);
    case AppDid(op) => DidOuts(s, op, host, k);
    case LateRefusal(j) => ShutOuts(s, s, j, k);
  }

  lemma FrameOuts(s: ServerState, a: Action, host: Host, k: PeerKey)
    requires OwnPeers(s) && s.handler && !Begins(s, a, k) && a.FrameIn?
    ensures Outs(s, Apply(s, a, host), k, AnswersFor(DoneBy(s, a), k))
  {
    hide Outs, Flush, DidAll, ResponseOut, ShutDown;
    var j, t := KeyOf(a.from, a.frame.stream), Apply(s, a, host);
    match a.frame.kind
    case End =>
      if j in s.incoming {
        CompleteOuts(s, a, host, k);
      } else {
        OutsNothing(s, s, k);
      }
    case Cancel(_) => ShutOuts(s, s.(incoming := s.incoming - {j}), j, k);
    case Credit(n) =>
      if j in s.outgoing {
        var u := s.(outgoing := s.outgoing[j := s.outgoing[j].(box := Granted(s.outgoing[j].box, n))]);
        OutsNothing(s, u, k);
        FlushOuts(u, j, host, k);
        OutsThen(s, u, t, k, [], []);
        assert [] + [] == AnswersFor([], k);
      } else {
        OutsNothing(s, s, k);
      }
    case _ => OutsNothing(s, t, k);
  }

  lemma ShutOuts(s: ServerState, t: ServerState, j: PeerKey, k: PeerKey)
    requires OwnPeers(s) && t == s.(incoming := t.incoming)
    ensures Outs(s, ShutDown(t, j), k, [])
  {
    ResponseOutNone(ShutDown(t, j).log[|s.log|..], k);
  }

  lemma CompleteIs(s: ServerState, a: Action, host: Host)
    requires s.handler && a.FrameIn? && a.frame.kind.End? && KeyOf(a.from, a.frame.stream) in s.incoming
    ensures Apply(s, a, host) == DidAll(CompletedFor(s, a), a.inner, host).(handler := true)
  {
    hide DidAll;
  }

  lemma HandlerAside(s: ServerState, t: ServerState, k: PeerKey, added: seq<FrameKind>)
    requires Outs(s, t, k, added)
    ensures Outs(s, t.(handler := true), k, added)
  {
    hide ResponseOut;
  }

  /** Another key's request completes. */
  lemma CompleteOuts(s: ServerState, a: Action, host: Host, k: PeerKey)
    requires OwnPeers(s) && s.handler && a.FrameIn? && a.frame.kind.End?
    requires KeyOf(a.from, a.frame.stream) in s.incoming && KeyOf(a.from, a.frame.stream) != k
    ensures Outs(s, Apply(s, a, host), k, AnswersFor(a.inner, k))
  {
    hide DidAll, ResponseOut, Apply, Outs, AnswersFor;
    var u := CompletedFor(s, a);
    CompleteIs(s, a, host);
    OutsNothing(s, u, k);
    DidAllOuts(u, a.inner, host, k);
    OutsThen(s, u, DidAll(u, a.inner, host), k, [], AnswersFor(a.inner, k));
    HandlerAside(s, DidAll(u, a.inner, host), k, [] + AnswersFor(a.inner, k));
    assert [] + AnswersFor(a.inner, k) == AnswersFor(a.inner, k);
  }

  /** The table as the handler finds it. */
  function CompletedFor(s: ServerState, a: Action): ServerState
    requires a.FrameIn? && KeyOf(a.from, a.frame.stream) in s.incoming
  {
    var j := KeyOf(a.from, a.frame.stream);
    var open := OpenedFor(s, j, a.from);
    open.(handler := false, served := open.served + [RequestOf(s.incoming[j], a.frame.stream)])
  }

  /** What has gone out on `k` since its request completed, and what waits, is what the app answered. */
  ghost predicate Carries(s: ServerState, k: PeerKey, n: nat, peer: Option<Caller>, given: seq<FrameKind>) {
    && n <= |s.log|
    && (if k in s.outgoing
        then ResponseOut(s.log[n..], k) + s.outgoing[k].box.queued == given && peer == Some(s.outgoing[k].peer)
        else ResponseOut(s.log[n..], k) <= given)
    && (forall p :: n <= p < |s.log| && IsResponse(s.log[p], k) ==> peer == Some(s.log[p].peer))
  }

  lemma CarriesOn(s: ServerState, t: ServerState, k: PeerKey, n: nat, peer: Option<Caller>, given: seq<FrameKind>,
                  added: seq<FrameKind>)
    requires Carries(s, k, n, peer, given) && Outs(s, t, k, added)
    ensures Carries(t, k, n, peer, given + added)
  {
    hide ResponseOut, OwnPeers;
    var before, more := s.log[n..], t.log[|s.log|..];
    assert t.log[n..] == before + more;
    ResponseOutJoin(before, more, k);
    forall p | n <= p < |t.log| && IsResponse(t.log[p], k) ensures peer == Some(t.log[p].peer) {
      if p >= |s.log| && k !in s.outgoing {
        SomeResponse(more, p - |s.log|, k);
      }
      assert p < |s.log| ==> t.log[p] == s.log[p];
    }
    if k in s.outgoing {
      var q := s.outgoing[k].box.queued;
      assert given + added == ResponseOut(before, k) + (q + added);
    }
  }

  lemma BeginsCarrying(s: ServerState, a: Action, host: Host, k: PeerKey)
    requires OwnPeers(s) && s.handler && Begins(s, a, k)
    ensures Carries(Apply(s, a, host), k, |s.log|, Some(a.from), AnswersFor(a.inner, k))
  {
    hide DidAll, ResponseOut;
    var u := CompletedFor(s, a);
    DidAllOuts(u, a.inner, host, k);
    ResponseOutNone(u.log[|s.log|..], k);
    assert u.outgoing[k] == Outgoing(a.from, EMPTY_BOX);
    assert Carries(u, k, |s.log|, Some(a.from), []);
    CarriesOn(u, DidAll(u, a.inner, host), k, |s.log|, Some(a.from), [], AnswersFor(a.inner, k));
    assert [] + AnswersFor(a.inner, k) == AnswersFor(a.inner, k);
  }

  /** Over every run, for every key: the frames that went out on it since its last request completed are
      what the app has answered on it since, each response as its head, chunks and end, in order, to the
      caller whose `End` completed the request, as far as they went; and the rest waits while it may
      answer. */
  lemma {:induction false} WhatGoesOutWasAnswered(actions: seq<Action>, host: Host, k: PeerKey)
    ensures var (n, peer) := Since(actions, host, k);
            Carries(AfterAll(SERVING, actions, host), k, n, peer, Given(actions, k))
    decreases |actions|
  {
    hide Carries, Apply, Outs, Begins, Completes, AnswersFor;
    if actions == [] {
      assert Carries(SERVING, k, 0, None, []) by { NothingOut(k); }
    } else {
      var before, a := actions[..|actions| - 1], actions[|actions| - 1];
      var s := AfterAll(SERVING, before, host);
      var (n, peer) := Since(before, host, k);
      WhatGoesOutWasAnswered(before, host, k);
      EveryRunSteps(before, host, k);
      ServingRun(before, host, k);
      BeginsWhenComplete(before, a, host, k);
      if Completes(before, a, k) {
        BeginsCarrying(s, a, host, k);
        assert [] + AnswersFor(DoneIn(before, a), k) == AnswersFor(DoneIn(before, a), k);
      } else {
        ActionOuts(s, a, host, k);
        CarriesOn(s, Apply(s, a, host), k, n, peer, Given(before, k), AnswersFor(DoneIn(before, a), k));
      }
    }
  }

  lemma NothingOut(k: PeerKey)
    ensures Carries(SERVING, k, 0, None, [])
  {
  }

  lemma ServingRun(actions: seq<Action>, host: Host, k: PeerKey)
    ensures AfterAll(SERVING, actions, host).handler
  {
    EveryRunHolds(actions, host, k);
  }

  lemma BeginsWhenComplete(before: seq<Action>, a: Action, host: Host, k: PeerKey)
    ensures Begins(AfterAll(SERVING, before, host), a, k) <==> Completes(before, a, k)
    ensures DoneBy(AfterAll(SERVING, before, host), a) == DoneIn(before, a)
    ensures Completes(before, a, k) ==> a.FrameIn? && DoneIn(before, a) == a.inner
  {
    hide AfterAll, Expected;
    AssembledIs(before, host, k);
    if a.FrameIn? {
      AssembledIs(before, host, KeyOf(a.from, a.frame.stream));
    }
  }

  /** Over every run, what a response is answered: that the stream is closed, with nothing changed, exactly
      when it may not answer; the refusal, if the host refused one of the stream's frames now; and
      otherwise that it went well. */
  lemma ResponseIsAnswered(actions: seq<Action>, op: ServerOp, host: Host)
    requires op.RespondOp?
    ensures var s, k := AfterAll(SERVING, actions, host), KeyOf(op.peer, op.stream);
            var (t, result) := Respond(s, op.peer, op.stream, op.status, op.headers, op.body, host);
            if !MayAnswer(actions, host, k) then t == s && result == Err(Unavailable("the stream is closed"))
            else if result.Ok? then
              forall p :: |s.log| <= p < |t.log| && IsResponse(t.log[p], k) ==> !host(p).RefusedNow?
            else exists p :: |s.log| <= p < |t.log| && IsResponse(t.log[p], k) && host(p) == RefusedNow(result.error)
  {
    hide Flush, BodyCount, Queued, MayAnswer;
    var s, k := AfterAll(SERVING, actions, host), KeyOf(op.peer, op.stream);
    EveryRunSteps(actions, host, k);
    if k in s.outgoing {
      var o := s.outgoing[k];
      var head := RespHead(ResponseHead(op.status, op.headers, Some(|op.body|)));
      var u := s.(outgoing := s.outgoing[k := o.(box := Queued(o.box, head, op.body))]);
      var m := ServerFlushIs(u, k, host);
      var (t, result) := Flush(u, k, host);
      GoesWithin(u.outgoing[k].box, m, |u.log|, host, true);
      SentEntries(u, k, m, host, t, result);
      FlushAnswers(u, k, m, host, t, result);
    }
  }

  lemma FlushAnswers(s: ServerState, k: PeerKey, m: nat, host: Host, t: ServerState, result: Result<(), Refused>)
    requires OwnPeers(s) && k in s.outgoing && Goes(s.outgoing[k].box, m, |s.log|, host, true)
    requires ServerSent(s, k, m, host, t, result)
    ensures if result.Ok? then forall p :: |s.log| <= p < |t.log| && IsResponse(t.log[p], k) ==> !host(p).RefusedNow?
            else exists p :: |s.log| <= p < |t.log| && IsResponse(t.log[p], k) && host(p) == RefusedNow(result.error)
  {
    hide BodyCount;
    var n := |s.log|;
    SentEntries(s, k, m, host, t, result);
    if result.Ok? {
      forall p | n <= p < |t.log| && IsResponse(t.log[p], k) ensures !host(p).RefusedNow? {
        assert host(n + (p - n)) == host(p);
      }
    } else {
      assert IsResponse(t.log[n + m - 1], k);
    }
  }
}
