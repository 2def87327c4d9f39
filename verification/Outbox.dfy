/** The queue in front of one stream. Credit is a count; only chunks of a body are charged for. */
module Outbox {
  import opened Basics
  import opened Frames

  const INITIAL_CREDIT: u32 := 4
  const MAX_CHUNK: nat := 65536

  datatype Box = Box(credit: u32, queued: seq<FrameKind>)

  const EMPTY_BOX := Box(INITIAL_CREDIT, [])

  function Granted(b: Box, n: u32): Box {
    b.(credit := SatAdd32(b.credit, n))
  }

  /** A body cut into chunks, all but the last full. */
  function Chunks(body: Bytes): seq<Bytes> {
    if body == [] then []
    else if |body| <= MAX_CHUNK then [body]
    else [body[..MAX_CHUNK]] + Chunks(body[MAX_CHUNK..])
  }

  function BodyFrames(chunks: seq<Bytes>): (frames: seq<FrameKind>)
    ensures |frames| == |chunks|
    ensures forall i :: 0 <= i < |frames| ==> frames[i] == Body(chunks[i])
  {
    seq(|chunks|, i requires 0 <= i < |chunks| => Body(chunks[i]))
  }

  /** A head, the body in chunks, then `End`. */
  function Message(head: FrameKind, body: Bytes): seq<FrameKind> {
    [head] + BodyFrames(Chunks(body)) + [End]
  }

  function Queued(b: Box, head: FrameKind, body: Bytes): Box {
    b.(queued := b.queued + Message(head, body))
  }

  /** The credit allows no frame now. */
  predicate Blocked(b: Box) {
    b.queued == [] || (b.queued[0].Body? && b.credit == 0)
  }

  function NextFrame(b: Box): Option<FrameKind> {
    if Blocked(b) then None else Some(b.queued[0])
  }

  function AfterNext(b: Box): Box {
    if Blocked(b) then b
    else Box(if b.queued[0].Body? then b.credit - 1 else b.credit, b.queued[1..])
  }

  class Outbox {
    var credit: u32
    var queued: seq<FrameKind>

    ghost function State(): Box
      reads this
    {
      Box(credit, queued)
    }

    constructor ()
      ensures State() == EMPTY_BOX
    {
      credit, queued := INITIAL_CREDIT, [];
    }

    method Grant(n: u32)
      modifies this
      ensures State() == Granted(old(State()), n)
    {
      credit := SatAdd32(credit, n);
    }

    method Message(head: FrameKind, body: Bytes)
      modifies this
      ensures State() == Queued(old(State()), head, body)
    {
      hide Chunks, BodyFrames;
      var rest := body;
      var chunks: seq<FrameKind> := [];
      ghost var cut: seq<Bytes> := [];
      NoFrames();
      while rest != []
        invariant cut + Chunks(rest) == Chunks(body)
        invariant chunks == BodyFrames(cut)
        invariant State() == old(State())
        decreases |rest|
      {
        var n := Min(MAX_CHUNK, |rest|);
        var chunk := rest[..n];
        CutChunk(rest);
        BodyFramesSnoc(cut, chunk);
        assert cut + ([chunk] + Chunks(rest[n..])) == (cut + [chunk]) + Chunks(rest[n..]);
        chunks := chunks + [Body(chunk)];
        cut := cut + [chunk];
        rest := rest[n..];
      }
      NoChunks();
      assert cut + [] == cut;
      queued := queued + ([head] + chunks + [End]);
    }

    method Next() returns (frame: Option<FrameKind>)
      modifies this
      ensures frame == NextFrame(old(State()))
      ensures State() == AfterNext(old(State()))
    {
      if queued == [] {
        return None;
      }
      if queued[0].Body? {
        if credit == 0 {
          return None;
        }
        credit := credit - 1;
      }
      frame := Some(queued[0]);
      queued := queued[1..];
    }
  }

  lemma NoFrames()
    ensures BodyFrames([]) == []
  {
  }

  lemma NoChunks()
    ensures Chunks([]) == []
  {
  }

  lemma CutChunk(body: Bytes)
    requires body != []
    ensures var n := Min(MAX_CHUNK, |body|); Chunks(body) == [body[..n]] + Chunks(body[n..])
  {
    if |body| <= MAX_CHUNK {
      assert body[..|body|] == body && body[|body|..] == [];
    }
  }

  lemma BodyFramesSnoc(chunks: seq<Bytes>, last: Bytes)
    ensures BodyFrames(chunks + [last]) == BodyFrames(chunks) + [Body(last)]
  {
  }

  // ---------------------------------------------------------------- what a message carries

  function Flat(chunks: seq<Bytes>): Bytes {
    if chunks == [] then [] else chunks[0] + Flat(chunks[1..])
  }

  /** Chunks hold 1 to 65536 bytes, all but the last exactly 65536, and together are the body. */
  lemma {:induction false} ChunksCarryTheBody(body: Bytes)
    ensures Flat(Chunks(body)) == body
    ensures forall i :: 0 <= i < |Chunks(body)| ==> 1 <= |Chunks(body)[i]| <= 65536
    ensures forall i :: 0 <= i < |Chunks(body)| - 1 ==> |Chunks(body)[i]| == 65536
    decreases |body|
  {
    if |body| > MAX_CHUNK {
      var first, rest := body[..MAX_CHUNK], body[MAX_CHUNK..];
      ChunksCarryTheBody(rest);
      assert Chunks(body)[1..] == Chunks(rest);
      assert body == first + rest;
    }
  }

  // ---------------------------------------------------------------- credit

  function BodyCount(frames: seq<FrameKind>): nat {
    if frames == [] then 0 else (if frames[0].Body? then 1 else 0) + BodyCount(frames[1..])
  }

  lemma {:induction false} BodyCountJoin(a: seq<FrameKind>, b: seq<FrameKind>)
    ensures BodyCount(a + b) == BodyCount(a) + BodyCount(b)
  {
    if a == [] {
      assert a + b == b;
    } else {
      assert (a + b)[1..] == a[1..] + b;
      BodyCountJoin(a[1..], b);
    }
  }

  /** Grants and takes, in any order. */
  datatype BoxOp = Grant(n: u32) | Take

  function AfterOp(b: Box, op: BoxOp): Box {
    match op
    case Grant(n) => Granted(b, n)
    case Take => AfterNext(b)
  }

  function AfterOps(b: Box, ops: seq<BoxOp>): Box
    decreases |ops|
  {
    if ops == [] then b else AfterOps(AfterOp(b, ops[0]), ops[1..])
  }

  /** The frames a run of operations takes out. */
  function Taken(b: Box, ops: seq<BoxOp>): seq<FrameKind>
    decreases |ops|
  {
    if ops == [] then []
    else
      var rest := Taken(AfterOp(b, ops[0]), ops[1..]);
      if ops[0].Take? && NextFrame(b).Some? then [NextFrame(b).value] + rest else rest
  }

  function TotalGranted(ops: seq<BoxOp>): nat {
    if ops == [] then 0 else (if ops[0].Grant? then ops[0].n else 0) + TotalGranted(ops[1..])
  }

  lemma {:induction false} TakenSplits(b: Box, ops: seq<BoxOp>)
    ensures Taken(b, ops) + AfterOps(b, ops).queued == b.queued
    decreases |ops|
  {
    if ops != [] {
      var next := AfterOp(b, ops[0]);
      TakenSplits(next, ops[1..]);
      if ops[0].Take? && NextFrame(b).Some? {
        var frame := NextFrame(b).value;
        assert [frame] + next.queued == b.queued;
        assert Taken(b, ops) + AfterOps(b, ops).queued == [frame] + (Taken(next, ops[1..]) + AfterOps(b, ops).queued);
      }
    }
  }

  /** Over any run: what was taken and what is still queued are together what was queued, so what
      goes out is a prefix of head, chunks, `End`; the body frames taken never exceed the credit
      held and granted, and with the credit left equal it while nothing saturates. */
  lemma {:induction false} TakenUnderCredit(b: Box, ops: seq<BoxOp>)
    ensures Taken(b, ops) + AfterOps(b, ops).queued == b.queued
    ensures BodyCount(Taken(b, ops)) + AfterOps(b, ops).credit <= b.credit + TotalGranted(ops)
    ensures b.credit + TotalGranted(ops) <= U32_MAX ==>
              BodyCount(Taken(b, ops)) + AfterOps(b, ops).credit == b.credit + TotalGranted(ops)
    decreases |ops|
  {
    TakenSplits(b, ops);
    if ops != [] {
      var next := AfterOp(b, ops[0]);
      TakenUnderCredit(next, ops[1..]);
      if ops[0].Take? && NextFrame(b).Some? {
        assert ([NextFrame(b).value] + Taken(next, ops[1..]))[1..] == Taken(next, ops[1..]);
      }
    }
  }

  /** One message from a new outbox, under any run of grants and takes. */
  lemma MessageUnderCredit(head: FrameKind, body: Bytes, ops: seq<BoxOp>)
    ensures var b := Queued(EMPTY_BOX, head, body);
            && Taken(b, ops) <= Message(head, body)
            && BodyCount(Taken(b, ops)) <= 4 + TotalGranted(ops)
            && (4 + TotalGranted(ops) <= U32_MAX ==>
                  BodyCount(Taken(b, ops)) + AfterOps(b, ops).credit == 4 + TotalGranted(ops))
  {
    TakenUnderCredit(Queued(EMPTY_BOX, head, body), ops);
    assert [] + Message(head, body) == Message(head, body);
  }

  // ---------------------------------------------------------------- sending all the credit allows

  /** What goes out when frames are taken until none is allowed. */
  function SentBy(b: Box): seq<FrameKind>
    decreases |b.queued|
  {
    if Blocked(b) then [] else [b.queued[0]] + SentBy(AfterNext(b))
  }

  function LeftBy(b: Box): Box
    decreases |b.queued|
  {
    if Blocked(b) then b else LeftBy(AfterNext(b))
  }

  lemma {:induction false} SentBySpends(b: Box)
    ensures SentBy(b) + LeftBy(b).queued == b.queued
    ensures BodyCount(SentBy(b)) + LeftBy(b).credit == b.credit
    ensures Blocked(LeftBy(b))
    decreases |b.queued|
  {
    if !Blocked(b) {
      SentBySpends(AfterNext(b));
      assert ([b.queued[0]] + SentBy(AfterNext(b)))[1..] == SentBy(AfterNext(b));
      assert [b.queued[0]] + AfterNext(b).queued == b.queued;
    }
  }

  lemma NextShrinks(b: Box)
    requires !Blocked(b)
    ensures |AfterNext(b).queued| < |b.queued| && b.queued != []
  {
  }
}
