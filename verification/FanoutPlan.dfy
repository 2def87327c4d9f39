/** What a fan-out knows of its targets: a queue, the running ones with their ages, and outcomes;
    and what its four limits (how many at once, how long each and all, how many bytes) do to them.

    `PlanState` and its functions are the specification; class `Plan` updates the same fields in
    place, as the source does, and is proved to compute exactly those functions. */
module FanoutPlan {
  import opened Basics
  import opened Frames

  /** Every limit is required; a zero one admits nothing. */
  datatype Limits = Limits(maxConcurrency: u32, perCallMs: u32, budgetMs: u32, maxTotalBytes: u64) {
    predicate Zero() {
      maxConcurrency == 0 || perCallMs == 0 || budgetMs == 0 || maxTotalBytes == 0
    }
  }

  datatype Response = Response(head: ResponseHead, via: Via, body: Bytes)

  datatype Outcome =
    | Answered(response: Response)
    | Failed(why: Refused)
    | Skipped

  const PER_CALL := Refused.Limit("fanout_per_call_ms")
  const TOTAL_BYTES := Refused.Limit("fanout_bytes")
  const ZERO_LIMIT := Refused.Policy("fanout_zero_limit")

  datatype PlanState = PlanState(
    limits: Limits,
    waiting: seq<nat>,
    running: map<nat, u32>,
    settled: seq<Option<Outcome>>,
    elapsedMs: u32,
    bytes: u64)

  // ---------------------------------------------------------------- what each operation does

  function Fresh(targets: nat, limits: Limits): PlanState {
    PlanState(limits,
              if limits.Zero() then [] else seq(targets, i => i),
              map[],
              seq(targets, _ => if limits.Zero() then Some(Failed(ZERO_LIMIT)) else None),
              0, 0)
  }

  /** How many waiting targets the cap leaves room for. */
  function Room(p: PlanState): (k: nat)
    ensures k <= |p.waiting|
  {
    if |p.running| < p.limits.maxConcurrency
    then Min(p.limits.maxConcurrency - |p.running|, |p.waiting|)
    else 0
  }

  function Started(s: seq<nat>): (m: map<nat, u32>)
    ensures m.Keys == Elements(s)
  {
    map i | i in s :: 0
  }

  /** The first `k` waiting targets now run, with no time on them yet. */
  function AfterStarting(p: PlanState, k: nat): PlanState
    requires k <= |p.waiting|
  {
    p.(waiting := p.waiting[k..], running := p.running + Started(p.waiting[..k]))
  }

  function Admitted(p: PlanState): PlanState {
    AfterStarting(p, Room(p))
  }

  function Counted(p: PlanState, n: nat): PlanState {
    p.(bytes := SatAdd64(p.bytes, n))
  }

  predicate Over(p: PlanState, i: nat) {
    p.bytes > p.limits.maxTotalBytes && i in p.running
  }

  /** The check after a chunk is exact for every limit but the largest, which the saturating counter
      cannot exceed: there it never fires. */
  lemma OverIsExact(p: PlanState, n: nat, i: nat)
    ensures Over(Counted(p, n), i) <==>
            i in p.running && p.bytes + n > p.limits.maxTotalBytes && p.limits.maxTotalBytes < U64_MAX
  {
  }

  predicate Open(p: PlanState, i: nat) {
    i < |p.settled| && p.settled[i].None?
  }

  function Without(s: seq<nat>, i: nat): (r: seq<nat>)
    ensures forall x :: x in r <==> x in s && x != i
    ensures i !in s ==> r == s
  {
    if s == [] then []
    else
      var rest := Without(s[1..], i);
      assert forall x :: x in s <==> x == s[0] || x in s[1..];
      if s[0] == i then rest else [s[0]] + rest
  }

  function Settled(p: PlanState, i: nat, o: Outcome): PlanState
    requires Open(p, i)
  {
    p.(settled := p.settled[i := Some(o)],
       running := p.running - {i},
       waiting := Without(p.waiting, i))
  }

  /** The indices below `n` in `s`, in ascending order: the order an ordered map is walked in. */
  function InOrder(s: set<nat>, n: nat): (r: seq<nat>)
    ensures forall i :: i in r <==> i < n && i in s
    ensures Ascending(r)
  {
    if n == 0 then []
    else if n - 1 in s then
      var front := InOrder(s, n - 1);
      assert forall k :: 0 <= k < |front| ==> front[k] in front;
      front + [n - 1]
    else InOrder(s, n - 1)
  }

  /** Every running target has run `ms` longer. */
  function Aged(running: map<nat, u32>, ms: u32): map<nat, u32> {
    map i | i in running :: SatAdd32(running[i], ms)
  }

  function Late(p: PlanState): set<nat> {
    set i | i in p.running && p.running[i] >= p.limits.perCallMs
  }

  /** Waiting targets settle as skipped; what runs is left for the caller to stop. */
  function StoppedWaiting(p: PlanState): PlanState {
    p.(waiting := [],
       settled := seq(|p.settled|, i requires 0 <= i < |p.settled| =>
         if i in p.waiting then Some(Skipped) else p.settled[i]))
  }

  function Elapsed(p: PlanState, ms: u32): PlanState {
    var q := p.(elapsedMs := SatAdd32(p.elapsedMs, ms));
    if q.elapsedMs >= q.limits.budgetMs then StoppedWaiting(q)
    else q.(running := Aged(q.running, ms))
  }

  /** What `elapse` asks the caller to stop: past the budget everything that runs, skipped; before
      it what ran too long, refused. */
  function Due(p: PlanState, ms: u32): seq<(nat, Outcome)> {
    var q := Elapsed(p, ms);
    if q.elapsedMs >= q.limits.budgetMs
    then Paired(InOrder(q.running.Keys, |q.settled|), Skipped)
    else Paired(InOrder(Late(q), |q.settled|), Failed(PER_CALL))
  }

  function Paired(s: seq<nat>, o: Outcome): (r: seq<(nat, Outcome)>)
    ensures |r| == |s|
    ensures forall k :: 0 <= k < |s| ==> r[k] == (s[k], o)
  {
    seq(|s|, k requires 0 <= k < |s| => (s[k], o))
  }

  predicate IsDone(p: PlanState) {
    forall i :: 0 <= i < |p.settled| ==> p.settled[i].Some?
  }

  /** The outcomes in target order; the default for an unsettled one is `Skipped`. */
  function Outcomes(p: PlanState): seq<Outcome> {
    seq(|p.settled|, i requires 0 <= i < |p.settled| =>
      if p.settled[i].Some? then p.settled[i].value else Skipped)
  }

  // ---------------------------------------------------------------- what every operation keeps

  /** Each target is in exactly one of waiting, running and settled. */
  ghost predicate Partition(p: PlanState) {
    && (forall w :: w in p.waiting ==> Open(p, w) && w !in p.running)
    && (forall r :: r in p.running ==> Open(p, r))
    && (forall i :: Open(p, i) ==> i in p.waiting || i in p.running)
  }

  /** Targets wait in index order, behind every running one. */
  ghost predicate InTurn(p: PlanState) {
    && Ascending(p.waiting)
    && (forall r, w :: r in p.running && w in p.waiting ==> r < w)
  }

  /** At most the cap runs; a zero limit runs nothing. */
  ghost predicate Capped(p: PlanState) {
    && |p.running| <= p.limits.maxConcurrency
    && (p.limits.Zero() ==> IsDone(p))
  }

  ghost predicate PlanInv(p: PlanState) {
    Partition(p) && InTurn(p) && Capped(p)
  }

  lemma FreshKeeps(targets: nat, limits: Limits)
    ensures PlanInv(Fresh(targets, limits))
    ensures |Fresh(targets, limits).settled| == targets
  {
    var p := Fresh(targets, limits);
    forall i: nat | Open(p, i) ensures i in p.waiting {
      assert p.waiting[i] == i;
    }
  }

  /** Within the cap, and every waiting target that starts is one more that runs. */
  ghost predicate Startable(p: PlanState) {
    && |p.running| <= p.limits.maxConcurrency
    && forall k :: 0 <= k <= |p.waiting| ==> |AfterStarting(p, k).running| == |p.running| + k
  }

  lemma StartableAt(p: PlanState, k: nat)
    requires Startable(p) && k <= |p.waiting|
    ensures |AfterStarting(p, k).running| == |p.running| + k
    ensures |p.running| <= p.limits.maxConcurrency
  {
  }

  lemma PlanIsStartable(p: PlanState)
    requires PlanInv(p)
    ensures Startable(p)
  {
    forall k | 0 <= k <= |p.waiting| ensures |AfterStarting(p, k).running| == |p.running| + k {
      StartingAddsToRunning(p, k);
    }
  }

  /** Popping the front of what waits and running it is one step of `AfterStarting`. */
  lemma StartingOne(p: PlanState, k: nat)
    requires k < |p.waiting|
    ensures var q, r := AfterStarting(p, k), AfterStarting(p, k + 1);
            && q.waiting != []
            && r == q.(waiting := q.waiting[1..], running := q.running[q.waiting[0] := 0])
            && p.waiting[..k + 1] == p.waiting[..k] + [q.waiting[0]]
  {
    PoppedFront(p.waiting, k);
    StartedOnto(p.running, p.waiting[..k], p.waiting[k]);
  }

  lemma PoppedFront(s: seq<nat>, k: nat)
    requires k < |s|
    ensures s[k..][0] == s[k] && s[k..][1..] == s[k + 1..] && s[..k + 1] == s[..k] + [s[k]]
  {
  }

  lemma StartingEnough(p: PlanState, k: nat)
    requires k <= |p.waiting| && |p.running| + k <= p.limits.maxConcurrency
    requires |p.running| + k == p.limits.maxConcurrency || k == |p.waiting|
    ensures k == Room(p)
  {
  }

  lemma StartedOnto(running: map<nat, u32>, s: seq<nat>, i: nat)
    ensures running + Started(s + [i]) == (running + Started(s))[i := 0]
  {
  }

  lemma StartingNone(p: PlanState)
    ensures AfterStarting(p, 0) == p
  {
    assert p.running + Started([]) == p.running;
    assert p.waiting[..0] == [];
  }

  lemma StartingAddsToRunning(p: PlanState, k: nat)
    requires PlanInv(p) && k <= |p.waiting|
    ensures |AfterStarting(p, k).running| == |p.running| + k
  {
    var started := p.waiting[..k];
    assert AfterStarting(p, k).running.Keys == p.running.Keys + Elements(started);
    assert p.running.Keys !! Elements(started) by {
      forall w | w in started ensures w !in p.running {
        assert w in p.waiting;
      }
    }
    DistinctSize(started);
    SizeOfUnion(p.running.Keys, Elements(started));
    SizeOfMap(p.running);
    SizeOfMap(AfterStarting(p, k).running);
  }

  /** Starting the front of the queue keeps the partition and the index order. */
  lemma StartingKeepsPartition(p: PlanState, k: nat)
    requires PlanInv(p) && k <= |p.waiting|
    requires |p.running| + k <= p.limits.maxConcurrency
    ensures PlanInv(AfterStarting(p, k))
  {
    StartingAddsToRunning(p, k);
    StartingSplits(p, k);
    StartingPartitions(p, k);
    assert InTurn(AfterStarting(p, k));
  }

  lemma StartingPartitions(p: PlanState, k: nat)
    requires Partition(p) && InTurn(p) && k <= |p.waiting|
    ensures Partition(AfterStarting(p, k))
  {
    var q := AfterStarting(p, k);
    StartingSplits(p, k);
    forall i: nat | Open(q, i) ensures i in q.waiting || i in q.running {
      assert Open(p, i);
    }
  }

  /** A waiting target either starts or still waits, after all that started. */
  lemma StartingSplits(p: PlanState, k: nat)
    requires InTurn(p) && k <= |p.waiting|
    ensures forall i :: i in p.waiting <==> i in p.waiting[..k] || i in p.waiting[k..]
    ensures forall r, w :: r in p.waiting[..k] && w in p.waiting[k..] ==> r < w
    ensures Ascending(p.waiting[k..])
  {
    assert p.waiting == p.waiting[..k] + p.waiting[k..];
    forall r, w | r in p.waiting[..k] && w in p.waiting[k..] ensures r < w {
      var a :| 0 <= a < k && p.waiting[a] == r;
      var b :| 0 <= b < |p.waiting| - k && p.waiting[k..][b] == w;
      assert p.waiting[k + b] == w;
    }
  }

  /** Admitting starts exactly the first `Room` waiting targets and keeps the partition. Afterwards
      the cap is full or nothing waits. */
  lemma AdmittedKeeps(p: PlanState)
    requires PlanInv(p)
    ensures PlanInv(Admitted(p))
    ensures |Admitted(p).running| == p.limits.maxConcurrency || Admitted(p).waiting == []
    ensures Admitted(p) == p.(waiting := Admitted(p).waiting, running := Admitted(p).running)
  {
    if Room(p) == 0 {
      StartingNone(p);
      if |p.running| < p.limits.maxConcurrency {
        assert p.waiting == [];
      }
    } else {
      StartingKeepsPartition(p, Room(p));
      StartingAddsToRunning(p, Room(p));
    }
  }

  function Elements(s: seq<nat>): set<nat> {
    set i | i in s
  }

  /** A sequence that repeats nothing has as many elements as it has entries. */
  lemma {:induction false} DistinctSize(s: seq<nat>)
    requires forall k, l :: 0 <= k < l < |s| ==> s[k] != s[l]
    ensures |Elements(s)| == |s|
  {
    if s != [] {
      var front, last := s[..|s| - 1], s[|s| - 1];
      DistinctSize(front);
      assert s == front + [last];
      assert Elements(s) == Elements(front) + {last};
      assert last !in Elements(front);
    }
  }

  lemma SizeOfUnion(a: set<nat>, b: set<nat>)
    requires a !! b
    ensures |a + b| == |a| + |b|
  {
  }

  lemma SizeOfSubset(a: set<nat>, b: set<nat>)
    requires a <= b
    ensures |a| <= |b|
  {
    SizeOfUnion(a, b - a);
    assert a + (b - a) == b;
  }

  lemma SizeOfMap(m: map<nat, u32>)
    ensures |m| == |m.Keys|
  {
  }

  /** Removing one element leaves the rest in order. */
  lemma {:induction false} WithoutAscends(s: seq<nat>, i: nat)
    requires Ascending(s)
    ensures Ascending(Without(s, i))
  {
    if s != [] {
      var rest := Without(s[1..], i);
      assert Ascending(s[1..]);
      WithoutAscends(s[1..], i);
      forall k | 0 <= k < |rest| ensures s[0] < rest[k] {
        assert rest[k] in s[1..];
      }
      ConsAscends(s[0], rest);
    }
  }

  lemma ConsAscends(x: nat, s: seq<nat>)
    requires Ascending(s) && forall k :: 0 <= k < |s| ==> x < s[k]
    ensures Ascending([x] + s)
  {
  }

  lemma SettledPartitions(p: PlanState, i: nat, o: Outcome)
    requires Partition(p) && Open(p, i)
    ensures Partition(Settled(p, i, o))
    ensures forall j :: Open(Settled(p, i, o), j) <==> Open(p, j) && j != i
    ensures |Settled(p, i, o).settled| == |p.settled|
  {
  }

  lemma SettledKeeps(p: PlanState, i: nat, o: Outcome)
    requires PlanInv(p) && Open(p, i)
    ensures PlanInv(Settled(p, i, o))
    ensures forall j :: Open(Settled(p, i, o), j) <==> Open(p, j) && j != i
    ensures |Settled(p, i, o).settled| == |p.settled|
  {
    var q := Settled(p, i, o);
    SettledPartitions(p, i, o);
    WithoutAscends(p.waiting, i);
    SizeOfMap(p.running);
    SizeOfMap(q.running);
    SizeOfSubset(q.running.Keys, p.running.Keys);
    hide Partition;
    assert InTurn(q);
  }

  lemma StoppedWaitingKeeps(p: PlanState)
    requires PlanInv(p)
    ensures PlanInv(StoppedWaiting(p))
    ensures forall i :: Open(StoppedWaiting(p), i) <==> i in p.running
  {
    var q := StoppedWaiting(p);
    forall i: nat ensures Open(q, i) <==> i in p.running {
      if i < |p.settled| {
        assert q.settled[i] == if i in p.waiting then Some(Skipped) else p.settled[i];
      }
    }
  }

  lemma AgedKeeps(p: PlanState, ms: u32)
    requires PlanInv(p)
    ensures PlanInv(p.(running := Aged(p.running, ms)))
  {
    var q := p.(running := Aged(p.running, ms));
    assert q.running.Keys == p.running.Keys;
    assert |q.running.Keys| == |p.running.Keys|;
    forall i: nat | Open(q, i) ensures i in q.waiting || i in q.running {
      assert Open(p, i);
    }
  }

  lemma ElapsedKeeps(p: PlanState, ms: u32)
    requires PlanInv(p)
    ensures PlanInv(Elapsed(p, ms))
    ensures Elapsed(p, ms).running.Keys == p.running.Keys
    ensures |Elapsed(p, ms).settled| == |p.settled|
  {
    var q := p.(elapsedMs := SatAdd32(p.elapsedMs, ms));
    assert PlanInv(q) by {
      assert forall i :: Open(q, i) <==> Open(p, i);
    }
    StoppedWaitingKeeps(q);
    AgedKeeps(q, ms);
  }

  // ---------------------------------------------------------------- walking the running targets

  /** Only the targets in `s` have run `ms` longer. */
  function AgedAt(running: map<nat, u32>, s: seq<nat>, ms: u32): map<nat, u32> {
    map i | i in running :: if i in s then SatAdd32(running[i], ms) else running[i]
  }

  /** The targets of `s`, in its order, that `ms` more takes past the per-call limit. */
  function LateAmong(p: PlanState, s: seq<nat>, ms: u32): seq<nat> {
    if s == [] then []
    else
      var front, i := LateAmong(p, s[..|s| - 1], ms), s[|s| - 1];
      if i in p.running && SatAdd32(p.running[i], ms) >= p.limits.perCallMs then front + [i] else front
  }

  lemma AgedNone(p: PlanState, ms: u32)
    ensures AgedAt(p.running, [], ms) == p.running && LateAmong(p, [], ms) == []
  {
  }

  /** One more target of the walk: it ages, and is late or not. */
  lemma AgedOne(p: PlanState, keys: seq<nat>, n: nat, ms: u32)
    requires n < |keys| && Ascending(keys) && keys[n] in p.running
    ensures var i, aged := keys[n], AgedAt(p.running, keys[..n], ms);
            var late := LateAmong(p, keys[..n], ms);
            && i in aged && aged[i] == p.running[i]
            && AgedAt(p.running, keys[..n + 1], ms) == aged[i := SatAdd32(p.running[i], ms)]
            && LateAmong(p, keys[..n + 1], ms) ==
               if SatAdd32(p.running[i], ms) >= p.limits.perCallMs then late + [i] else late
  {
    assert keys[..n + 1] == keys[..n] + [keys[n]];
    assert keys[n] !in keys[..n];
  }

  lemma {:induction false} LateAmongElements(p: PlanState, s: seq<nat>, ms: u32)
    requires Ascending(s)
    ensures Ascending(LateAmong(p, s, ms))
    ensures forall i :: i in LateAmong(p, s, ms) <==>
              i in s && i in p.running && SatAdd32(p.running[i], ms) >= p.limits.perCallMs
  {
    if s != [] {
      var front, last := s[..|s| - 1], s[|s| - 1];
      LateAmongElements(p, front, ms);
      assert s == front + [last];
      var late := LateAmong(p, front, ms);
      forall k | 0 <= k < |late| ensures late[k] < last {
        assert late[k] in front;
      }
      SnocAscends(late, last);
    }
  }

  lemma SnocAscends(s: seq<nat>, x: nat)
    requires Ascending(s) && forall k :: 0 <= k < |s| ==> s[k] < x
    ensures Ascending(s + [x])
  {
  }

  /** Walking every running target in order ages them all and finds exactly the late ones. */
  lemma AgedAll(p: PlanState, ms: u32)
    requires forall i :: i in p.running ==> i < |p.settled|
    ensures var keys := InOrder(p.running.Keys, |p.settled|);
            var q := p.(running := Aged(p.running, ms));
            && AgedAt(p.running, keys, ms) == q.running
            && LateAmong(p, keys, ms) == InOrder(Late(q), |q.settled|)
  {
    var keys := InOrder(p.running.Keys, |p.settled|);
    var q := p.(running := Aged(p.running, ms));
    LateAmongElements(p, keys, ms);
    AscendingUnique(LateAmong(p, keys, ms), InOrder(Late(q), |q.settled|));
  }

  // ---------------------------------------------------------------- the source's own form

  /** The plan as the source holds it: fields updated in place. */
  class Plan {
    const limits: Limits
    var waiting: seq<nat>
    var running: map<nat, u32>
    var settled: seq<Option<Outcome>>
    var elapsedMs: u32
    var bytes: u64

    ghost function State(): PlanState
      reads this
    {
      PlanState(limits, waiting, running, settled, elapsedMs, bytes)
    }

    constructor (targets: nat, limits: Limits)
      ensures State() == Fresh(targets, limits)
      ensures PlanInv(State())
    {
      this.limits := limits;
      waiting := if limits.Zero() then [] else seq(targets, i => i);
      running := map[];
      settled := seq(targets, _ => if limits.Zero() then Some(Failed(ZERO_LIMIT)) else None);
      elapsedMs, bytes := 0, 0;
      new;
      FreshKeeps(targets, limits);
    }

    method Admit() returns (started: seq<nat>)
      requires PlanInv(State())
      modifies `waiting, `running
      ensures State() == Admitted(old(State()))
      ensures started == old(waiting)[..Room(old(State()))]
    {
      hide AfterStarting, Startable, Room, PlanInv;
      started := [];
      ghost var was, k := State(), 0;
      PlanIsStartable(was);
      StartingNone(was);
      StartableAt(was, 0);
      while |running| < limits.maxConcurrency && waiting != []
        invariant k <= |was.waiting| && |waiting| == |was.waiting| - k
        invariant started == was.waiting[..k]
        invariant State() == AfterStarting(was, k)
        invariant |running| == |was.running| + k <= limits.maxConcurrency
        decreases |waiting|
      {
        StartingOne(was, k);
        StartableAt(was, k + 1);
        var i := waiting[0];
        waiting := waiting[1..];
        running := running[i := 0];
        started := started + [i];
        k := k + 1;
      }
      StartingEnough(was, k);
    }

    method CountBytes(i: nat, n: nat) returns (refusal: Option<Refused>)
      modifies this
      ensures State() == Counted(old(State()), n)
      ensures refusal == if Over(State(), i) then Some(TOTAL_BYTES) else None
    {
      bytes := SatAdd64(bytes, n);
      if bytes > limits.maxTotalBytes && i in running {
        return Some(TOTAL_BYTES);
      }
      return None;
    }

    method Settle(i: nat, outcome: Outcome) returns (first: bool)
      modifies this
      ensures first == Open(old(State()), i)
      ensures State() == if first then Settled(old(State()), i, outcome) else old(State())
    {
      if i >= |settled| || settled[i].Some? {
        return false;
      }
      settled := settled[i := Some(outcome)];
      running := running - {i};
      waiting := Without(waiting, i);
      return true;
    }

    method StopAll() returns (stops: seq<(nat, Outcome)>)
      requires forall w :: w in waiting ==> w < |settled|
      modifies this
      ensures State() == StoppedWaiting(old(State()))
      ensures stops == Paired(InOrder(running.Keys, |settled|), Skipped)
    {
      ghost var was := State();
      var taken := waiting;
      waiting := [];
      for k := 0 to |taken|
        invariant |settled| == |was.settled|
        invariant forall j :: 0 <= j < |settled| ==>
                    settled[j] == if j in taken[..k] then Some(Skipped) else was.settled[j]
        invariant State() == was.(waiting := [], settled := settled)
      {
        assert taken[..k + 1] == taken[..k] + [taken[k]];
        assert taken[k] in was.waiting;
        settled := settled[taken[k] := Some(Skipped)];
      }
      assert taken[..|taken|] == taken;
      assert settled == StoppedWaiting(was).settled;
      stops := Paired(InOrder(running.Keys, |settled|), Skipped);
    }

    method Elapse(ms: u32) returns (stops: seq<(nat, Outcome)>)
      requires forall i :: i in waiting || i in running ==> i < |settled|
      modifies this
      ensures State() == Elapsed(old(State()), ms)
      ensures stops == Due(old(State()), ms)
    {
      elapsedMs := SatAdd32(elapsedMs, ms);
      if elapsedMs >= limits.budgetMs {
        stops := StopAll();
      } else {
        var late := Age(ms);
        stops := Paired(late, Failed(PER_CALL));
      }
    }

    /** The loop of `elapse`: every running target ages, and the late ones are found in order. */
    method Age(ms: u32) returns (late: seq<nat>)
      requires forall i :: i in running ==> i < |settled|
      modifies `running
      ensures State() == old(State()).(running := Aged(old(running), ms))
      ensures late == InOrder(Late(State()), |settled|)
    {
      hide AgedAt, LateAmong, InOrder, Aged, Late, Ascending;
      var keys := InOrder(running.Keys, |settled|);
      late := [];
      ghost var before := State();
      AgedNone(before, ms);
      AgedAll(before, ms);
      for n := 0 to |keys|
        invariant running == AgedAt(before.running, keys[..n], ms)
        invariant late == LateAmong(before, keys[..n], ms)
      {
        var i := keys[n];
        AgedOne(before, keys, n, ms);
        running := running[i := SatAdd32(running[i], ms)];
        if running[i] >= limits.perCallMs {
          late := late + [i];
        }
      }
      assert keys[..|keys|] == keys;
    }

    method Done() returns (done: bool)
      ensures done == IsDone(State())
    {
      for k := 0 to |settled|
        invariant forall j :: 0 <= j < k ==> settled[j].Some?
      {
        if settled[k].None? {
          return false;
        }
      }
      return true;
    }

    method TakeOutcomes() returns (all: seq<Outcome>)
      modifies this
      ensures all == Outcomes(old(State()))
      ensures State() == old(State()).(settled := seq(|all|, _ => None))
    {
      ghost var was := State();
      all := [];
      for k := 0 to |settled|
        invariant |settled| == |was.settled| && |all| == k
        invariant forall j :: 0 <= j < k ==> all[j] == Outcomes(was)[j] && settled[j] == None
        invariant forall j :: k <= j < |settled| ==> settled[j] == was.settled[j]
        invariant State() == was.(settled := settled)
      {
        all := all + [if settled[k].Some? then settled[k].value else Skipped];
        settled := settled[k := None];
      }
    }
  }

  lemma FirstIsElement(t: seq<nat>)
    requires t != []
    ensures t[0] in t
  {
  }

  /** Two strictly ascending sequences with the same elements are the same sequence. */
  lemma {:induction false} AscendingUnique(s: seq<nat>, t: seq<nat>)
    requires Ascending(s) && Ascending(t)
    requires forall i :: i in s <==> i in t
    ensures s == t
  {
    if s == [] {
      if t != [] {
        FirstIsElement(t);
        assert false;
      }
    } else {
      assert s[0] in t && t != [] && t[0] in s;
      assert s[0] == t[0];
      forall i ensures i in s[1..] <==> i in t[1..] {
        if i in s[1..] {
          var k :| 1 <= k < |s| && s[k] == i;
          assert i in t && i != t[0];
        }
        if i in t[1..] {
          var k :| 1 <= k < |t| && t[k] == i;
          assert i in s && i != s[0];
        }
      }
      AscendingUnique(s[1..], t[1..]);
      assert s == [s[0]] + s[1..] && t == [t[0]] + t[1..];
    }
  }
}
