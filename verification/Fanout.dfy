/** One request to many servers under a plan's bounds: what each event, tick and cancel does to a
    fan-out, and what stays true over every run of them.

    A fan-out is a `Flight`: the live run while the table holds it, and the record of everything it
    did to the outside (targets asked, the app's `each` and `done` called, streams cancelled). */
module Fanout {
  import opened Basics
  import opened Frames
  import opened FanoutPlan

  /** The stream opened for one target of one fan-out. */
  datatype Key = Key(fanout: nat, target: nat)

  datatype Partial = Partial(head: Option<ResponseHead>, body: Bytes)

  datatype Run = Run(
    plan: PlanState,
    targets: seq<Address>,
    vias: seq<Via>,
    keys: map<nat, Key>,
    partial: map<nat, Partial>)

  datatype Record = Record(
    limits: Limits,
    transport: Transport,
    targets: seq<Address>,
    heard: seq<(nat, ClientEvent)>,
    asked: seq<nat>,
    told: seq<(nat, Outcome)>,
    stopped: seq<Key>,
    done: seq<seq<(Address, Outcome, Via)>>,
    clock: nat)

  datatype Flight = Flight(run: Option<Run>, past: Record)

  // ---------------------------------------------------------------- what each operation does

  /** What `via` is before any frame has come. */
  function FirstVia(t: Transport): Via {
    match t
    case OnRelay => Relay
    case OnP2p => P2p
    case PreferP2pThenRelay => P2p
  }

  function KeysOf(id: nat, s: set<nat>): map<nat, Key> {
    map i | i in s :: Key(id, i)
  }

  function NewRun(targets: seq<Address>, transport: Transport, limits: Limits): Run {
    Run(Fresh(|targets|, limits), targets, seq(|targets|, _ => FirstVia(transport)), map[], map[])
  }

  function Launched(id: nat, targets: seq<Address>, transport: Transport, limits: Limits): Flight {
    AdmitMore(id,
              Flight(Some(NewRun(targets, transport, limits)),
                     Record(limits, transport, targets, [], [], [], [], [], 0)))
  }

  /** Start what the cap leaves room for: a stream is opened for each. */
  function AdmitMore(id: nat, f: Flight): Flight {
    if f.run.None? then f
    else
      var r := f.run.value;
      var started := r.plan.waiting[..Room(r.plan)];
      Flight(Some(r.(plan := Admitted(r.plan), keys := r.keys + KeysOf(id, Elements(started)))),
             f.past.(asked := f.past.asked + started))
  }

  /** Every target with its outcome and plane, in target order. */
  function Report(r: Run): seq<(Address, Outcome, Via)> {
    var n := Min(Min(|r.targets|, |r.plan.settled|), |r.vias|);
    seq(n, i requires 0 <= i < n => (r.targets[i], Outcomes(r.plan)[i], r.vias[i]))
  }

  function FinishIfDone(f: Flight): Flight {
    if f.run.Some? && IsDone(f.run.value.plan)
    then Flight(None, f.past.(done := f.past.done + [Report(f.run.value)]))
    else f
  }

  /** Target `i` settles: its outcome is reported once, and a stream that has not ended is cancelled. */
  function Recorded(f: Flight, i: nat, o: Outcome, stop: bool): Flight
    requires f.run.Some? && Open(f.run.value.plan, i)
  {
    var r := f.run.value;
    Flight(Some(r.(plan := Settled(r.plan, i, o), partial := r.partial - {i}, keys := r.keys - {i})),
           f.past.(told := f.past.told + [(i, o)],
                   stopped := f.past.stopped + (if stop && i in r.keys then [r.keys[i]] else [])))
  }

  /** ... then start the next, and finish if that was the last. */
  function Settle(id: nat, f: Flight, i: nat, o: Outcome, stop: bool): Flight {
    if f.run.None? || !Open(f.run.value.plan, i) then f
    else FinishIfDone(AdmitMore(id, Recorded(f, i, o, stop)))
  }

  function PartialOf(r: Run, i: nat): Partial {
    if i in r.partial then r.partial[i] else Partial(None, [])
  }

  function WithBody(r: Run, i: nat, bytes: Bytes): (partial: map<nat, Partial>)
    ensures partial.Keys == r.partial.Keys + {i} && partial - {i} == r.partial - {i}
  {
    r.partial[i := PartialOf(r, i).(body := PartialOf(r, i).body + bytes)]
  }

  /** What `i`'s stream came to when it ended. */
  function EndOutcome(r: Run, i: nat): Outcome
    requires i < |r.vias|
  {
    var p := PartialOf(r, i);
    if p.head.None? then Failed(NO_HEAD) else Answered(Response(p.head.value, r.vias[i], p.body))
  }

  function OnEvent(id: nat, f: Flight, i: nat, event: ClientEvent): Flight
    requires f.run.Some? ==> i < |f.run.value.vias|
  {
    if f.run.None? then f
    else
      var r, past := f.run.value, f.past.(heard := f.past.heard + [(i, event)]);
      match event
      case HeadEvent(head, via) =>
        Flight(Some(r.(vias := r.vias[i := via],
                       partial := r.partial[i := PartialOf(r, i).(head := Some(head))])), past)
      case BodyEvent(bytes) =>
        var r' := r.(plan := Counted(r.plan, |bytes|), partial := WithBody(r, i, bytes));
        if Over(r'.plan, i) then Settle(id, Flight(Some(r'), past), i, Failed(TOTAL_BYTES), true)
        else Flight(Some(r'), past)
      case EndEvent =>
        var o := EndOutcome(r, i);
        Settle(id, Flight(Some(r.(partial := r.partial - {i})), past), i, o, !o.Answered?)
      case FailedEvent(why) =>
        Settle(id, Flight(Some(r), past), i, Failed(why), true)
  }

  function StopEach(id: nat, f: Flight, stops: seq<(nat, Outcome)>): Flight
    decreases |stops|
  {
    if stops == [] then f
    else StopEach(id, Settle(id, f, stops[0].0, stops[0].1, true), stops[1..])
  }

  function Tick(id: nat, f: Flight, ms: u32): Flight {
    if f.run.None? then f
    else
      var r := f.run.value;
      FinishIfDone(StopEach(id,
        Flight(Some(r.(plan := Elapsed(r.plan, ms))), f.past.(clock := f.past.clock + ms)),
        Due(r.plan, ms)))
  }

  function CancelAll(id: nat, f: Flight): Flight {
    if f.run.None? then f
    else
      var r := f.run.value;
      var q := StoppedWaiting(r.plan);
      FinishIfDone(StopEach(id, Flight(Some(r.(plan := q)), f.past),
                            Paired(InOrder(q.running.Keys, |q.settled|), Skipped)))
  }

  // ---------------------------------------------------------------- what a flight keeps

  function ToldOf(told: seq<(nat, Outcome)>): set<nat> {
    set k | 0 <= k < |told| :: told[k].0
  }

  /** The streams that had to be stopped: those of every target told anything but an answer. */
  function StopsOf(id: nat, told: seq<(nat, Outcome)>): seq<Key> {
    if told == [] then []
    else
      var rest, last := StopsOf(id, told[..|told| - 1]), told[|told| - 1];
      if last.1.Answered? then rest else rest + [Key(id, last.0)]
  }

  /** The body bytes heard for `i`, in order. */
  function BodyHeard(heard: seq<(nat, ClientEvent)>, i: nat): Bytes {
    if heard == [] then []
    else
      var rest, last := BodyHeard(heard[..|heard| - 1], i), heard[|heard| - 1];
      if last.0 == i && last.1.BodyEvent? then rest + last.1.bytes else rest
  }

  /** The last head heard for `i` and the plane it came over. */
  function HeadHeard(heard: seq<(nat, ClientEvent)>, i: nat): Option<(ResponseHead, Via)> {
    if heard == [] then None
    else
      var last := heard[|heard| - 1];
      if last.0 == i && last.1.HeadEvent? then Some((last.1.head, last.1.via))
      else HeadHeard(heard[..|heard| - 1], i)
  }

  /** The head a partial answer holds, with the plane its target has. */
  function HeadHeld(r: Run, i: nat): Option<(ResponseHead, Via)> {
    if i < |r.vias| && PartialOf(r, i).head.Some? then Some((PartialOf(r, i).head.value, r.vias[i])) else None
  }

  /** What is held for `i` is exactly what was heard for it: every body byte and the last head. */
  ghost predicate Knows(r: Run, heard: seq<(nat, ClientEvent)>, i: nat) {
    PartialOf(r, i).body == BodyHeard(heard, i) && HeadHeld(r, i) == HeadHeard(heard, i)
  }

  /** The `n`-th event ended `i`'s stream, and `response` is every body byte heard for `i` before it,
      under the last head heard for `i` before it. */
  ghost predicate AnsweredAt(heard: seq<(nat, ClientEvent)>, n: nat, i: nat, response: Response) {
    && n < |heard| && heard[n] == (i, EndEvent)
    && response.body == BodyHeard(heard[..n], i)
    && HeadHeard(heard[..n], i) == Some((response.head, response.via))
  }

  /** What a target that was never asked comes to. */
  predicate NeverAsked(limits: Limits, o: Outcome) {
    o == if limits.Zero() then Failed(ZERO_LIMIT) else Skipped
  }

  /** Targets open in index order, each at most once, before every one that still waits; what was
      asked runs or has been told. */
  ghost predicate Opens(running: set<nat>, waiting: seq<nat>, past: Record) {
    && Ascending(past.asked)
    && (forall i :: i in past.asked <==> i in running || i in ToldOf(past.told))
    && (forall i, w :: i in past.asked && w in waiting ==> i < w)
  }

  /** The app is told each settled target's outcome once; a target never asked is told nothing
      and is skipped, or refused for a zero limit. */
  ghost predicate Tells(settled: seq<Option<Outcome>>, past: Record) {
    && (forall a, b :: 0 <= a < b < |past.told| ==> past.told[a].0 != past.told[b].0)
    && (forall k :: 0 <= k < |past.told| ==>
          past.told[k].0 < |settled| && settled[past.told[k].0] == Some(past.told[k].1))
    && (forall i :: 0 <= i < |settled| && settled[i].Some? && i !in ToldOf(past.told) ==>
          NeverAsked(past.limits, settled[i].value))
  }

  /** Exactly the streams of targets that did not answer are stopped, each its own. */
  ghost predicate Stops(id: nat, past: Record) {
    past.stopped == StopsOf(id, past.told)
  }

  /** Every answer is what was heard for its target, up to the end of its stream. */
  ghost predicate Answers(past: Record) {
    forall k :: 0 <= k < |past.told| && past.told[k].1.Answered? ==>
      exists n: nat :: AnsweredAt(past.heard, n, past.told[k].0, past.told[k].1.response)
  }

  /** While `i` runs, its partial answer is exactly what was heard for it. */
  ghost predicate Hears(r: Run, past: Record) {
    forall i :: i in r.plan.running ==> Knows(r, past.heard, i)
  }

  ghost predicate Shaped(id: nat, r: Run, past: Record) {
    && |r.targets| == |r.vias| == |r.plan.settled|
    && r.targets == past.targets && r.plan.limits == past.limits
    && r.keys == KeysOf(id, r.plan.running.Keys)
    && (forall w :: w in r.plan.waiting ==> w !in r.partial)
    && (forall k :: 0 <= k < |past.heard| ==> past.heard[k].0 in past.asked)
    && past.done == []
  }

  /** The body bytes one target holds against the budget. */
  function Weight(r: Run, i: nat): nat {
    if i < |r.plan.settled| && r.plan.settled[i].Some? then BodyLength(r.plan.settled[i].value)
    else if i in r.plan.running then |PartialOf(r, i).body|
    else 0
  }

  function BodyLength(o: Outcome): nat {
    if o.Answered? then |o.response.body| else 0
  }

  function Held(r: Run, k: nat): nat {
    if k == 0 then 0 else Held(r, k - 1) + Weight(r, k - 1)
  }

  /** Everything held is within the byte budget, and was counted. */
  ghost predicate Budgeted(r: Run) {
    r.plan.limits.maxTotalBytes < U64_MAX ==>
      && Held(r, |r.plan.settled|) <= r.plan.limits.maxTotalBytes
      && (r.plan.bytes < U64_MAX ==> Held(r, |r.plan.settled|) <= r.plan.bytes)
  }

  ghost predicate HearsOthers(r: Run, past: Record, i: nat) {
    forall j :: j in r.plan.running && j != i ==> Knows(r, past.heard, j)
  }

  ghost predicate Steady(id: nat, r: Run, past: Record) {
    && PlanInv(r.plan)
    && Shaped(id, r, past)
    && Opens(r.plan.running.Keys, r.plan.waiting, past)
    && Tells(r.plan.settled, past)
    && Stops(id, past) && Answers(past)
  }

  ghost predicate RunInv(id: nat, r: Run, past: Record) {
    Steady(id, r, past) && Hears(r, past)
  }

  // ---------------------------------------------------------------- one step keeps it: settling

  lemma ToldSnoc(told: seq<(nat, Outcome)>, i: nat, o: Outcome)
    ensures ToldOf(told + [(i, o)]) == ToldOf(told) + {i}
  {
    var more := told + [(i, o)];
    forall j | j in ToldOf(told) + {i} ensures j in ToldOf(more) {
      if j == i {
        assert more[|told|].0 == i;
      } else {
        var k :| 0 <= k < |told| && told[k].0 == j;
        assert more[k].0 == j;
      }
    }
  }

  lemma StopsSnoc(id: nat, told: seq<(nat, Outcome)>, i: nat, o: Outcome)
    ensures StopsOf(id, told + [(i, o)]) == StopsOf(id, told) + (if o.Answered? then [] else [Key(id, i)])
  {
    assert (told + [(i, o)])[..|told|] == told;
  }

  lemma HeardSnoc(heard: seq<(nat, ClientEvent)>, i: nat, event: ClientEvent, j: nat)
    ensures BodyHeard(heard + [(i, event)], j) ==
            BodyHeard(heard, j) + (if i == j && event.BodyEvent? then event.bytes else [])
    ensures HeadHeard(heard + [(i, event)], j) ==
            if i == j && event.HeadEvent? then Some((event.head, event.via)) else HeadHeard(heard, j)
  {
    assert (heard + [(i, event)])[..|heard|] == heard;
  }

  lemma {:induction false} HeardNothing(heard: seq<(nat, ClientEvent)>, i: nat)
    requires forall k :: 0 <= k < |heard| ==> heard[k].0 != i
    ensures BodyHeard(heard, i) == [] && HeadHeard(heard, i) == None
  {
    if heard != [] {
      HeardNothing(heard[..|heard| - 1], i);
    }
  }

  /** Settling a running target moves it from running to told. */
  lemma SettledOpens(p: PlanState, past: Record, next: Record, i: nat, o: Outcome)
    requires Partition(p) && i in p.running && Opens(p.running.Keys, p.waiting, past) && Open(p, i)
    requires next.asked == past.asked && next.told == past.told + [(i, o)]
    ensures Opens(Settled(p, i, o).running.Keys, Settled(p, i, o).waiting, next)
  {
    ToldSnoc(past.told, i, o);
    var q := Settled(p, i, o);
    assert q.running.Keys == p.running.Keys - {i};
    assert q.waiting == p.waiting;
  }

  lemma SettledTells(p: PlanState, past: Record, next: Record, i: nat, o: Outcome)
    requires Open(p, i) && Tells(p.settled, past) && next.told == past.told + [(i, o)] && next.limits == past.limits
    ensures Tells(Settled(p, i, o).settled, next)
  {
    ToldSnoc(past.told, i, o);
    var settled, told := Settled(p, i, o).settled, past.told + [(i, o)];
    forall k | 0 <= k < |told| ensures told[k].0 < |settled| && settled[told[k].0] == Some(told[k].1) {
    }
  }

  /** Recording a running target's outcome keeps everything but the cap's fill. */
  lemma RecordedKeeps(id: nat, f: Flight, i: nat, o: Outcome, stop: bool)
    requires f.run.Some? && Steady(id, f.run.value, f.past) && i in f.run.value.plan.running
    requires HearsOthers(f.run.value, f.past, i)
    requires stop == !o.Answered?
    requires o.Answered? ==> exists n: nat :: AnsweredAt(f.past.heard, n, i, o.response)
    requires Open(f.run.value.plan, i)
    ensures var g := Recorded(f, i, o, stop);
            && g.run.Some? && RunInv(id, g.run.value, g.past)
            && g.past == f.past.(told := g.past.told, stopped := g.past.stopped)
  {
    hide Partition, InTurn, Capped, Shaped, Opens, Tells, Stops, Hears, HearsOthers, StopsOf, BodyHeard, Open;
    var r, past := f.run.value, f.past;
    var g := Recorded(f, i, o, stop);
    PartitionRuns(r.plan, i);
    SettledKeeps(r.plan, i, o);
    SettledOpens(r.plan, past, g.past, i, o);
    SettledTells(r.plan, past, g.past, i, o);
    RecordedStops(id, f, i, o);
    RecordedShape(id, f, i, o, stop);
  }

  lemma PartitionRuns(p: PlanState, i: nat)
    requires Partition(p) && i in p.running
    ensures Open(p, i) && i !in p.waiting
  {
  }

  /** The stream stopped, if any, is the settled target's own. */
  lemma RecordedStops(id: nat, f: Flight, i: nat, o: Outcome)
    requires f.run.Some? && Open(f.run.value.plan, i) && i in f.run.value.plan.running
    requires Shaped(id, f.run.value, f.past) && Stops(id, f.past)
    ensures Stops(id, Recorded(f, i, o, !o.Answered?).past)
  {
    StopsSnoc(id, f.past.told, i, o);
  }

  lemma RecordedShape(id: nat, f: Flight, i: nat, o: Outcome, stop: bool)
    requires f.run.Some? && i in f.run.value.plan.running && Open(f.run.value.plan, i)
    requires i !in f.run.value.plan.waiting
    requires Shaped(id, f.run.value, f.past) && HearsOthers(f.run.value, f.past, i)
    ensures Shaped(id, Recorded(f, i, o, stop).run.value, Recorded(f, i, o, stop).past)
    ensures Hears(Recorded(f, i, o, stop).run.value, Recorded(f, i, o, stop).past)
  {
    var r, g := f.run.value, Recorded(f, i, o, stop);
    assert g.run.value.plan.running.Keys == r.plan.running.Keys - {i};
    assert g.run.value.keys == KeysOf(id, g.run.value.plan.running.Keys);
    forall j | j in g.run.value.plan.running
      ensures Knows(g.run.value, g.past.heard, j)
    {
      assert PartialOf(g.run.value, j) == PartialOf(r, j);
    }
  }

  // ---------------------------------------------------------------- one step keeps it: admitting

  lemma AdmitMoreKeeps(id: nat, f: Flight)
    requires f.run.Some? && RunInv(id, f.run.value, f.past)
    ensures var g := AdmitMore(id, f);
            && g.run.Some? && RunInv(id, g.run.value, g.past)
            && Full(g.run.value.plan)
            && g.past == f.past.(asked := g.past.asked)
  {
    hide Partition, InTurn, Capped, Shaped, Opens, Tells, Stops, Answers, Hears, Admitted, Room;
    AdmittedKeeps(f.run.value.plan);
    AdmitMoreOpens(f.run.value.plan, f.past);
    AdmitMoreShape(id, f);
    WaitingHoldNothing(id, f.run.value, f.past);
    AdmitMoreHears(id, f);
    SameRecord(id, f.past, AdmitMore(id, f).past);
  }

  /** The stops and the answers do not depend on which targets were asked. */
  lemma SameRecord(id: nat, a: Record, b: Record)
    requires b.told == a.told && b.stopped == a.stopped && b.heard == a.heard && b.limits == a.limits
    ensures Stops(id, a) ==> Stops(id, b)
    ensures Answers(a) ==> Answers(b)
    ensures forall settled :: Tells(settled, a) ==> Tells(settled, b)
  {
  }

  ghost predicate Full(p: PlanState) {
    |p.running| == p.limits.maxConcurrency || p.waiting == []
  }

  /** Targets are asked in index order: those now started come after every one asked before. */
  lemma AdmitMoreOpens(p: PlanState, past: Record)
    requires PlanInv(p) && Opens(p.running.Keys, p.waiting, past)
    ensures var started := p.waiting[..Room(p)];
            Opens(Admitted(p).running.Keys, Admitted(p).waiting, past.(asked := past.asked + started))
  {
    var k := Room(p);
    var started, asked := p.waiting[..k], past.asked + p.waiting[..k];
    StartingSplits(p, k);
    assert Admitted(p).running.Keys == p.running.Keys + Elements(started);
    AscendingJoin(past.asked, started);
    assert forall i :: i in asked <==> i in past.asked || i in started;
  }

  lemma AscendingJoin(s: seq<nat>, t: seq<nat>)
    requires Ascending(s) && Ascending(t)
    requires forall i, j :: i in s && j in t ==> i < j
    ensures Ascending(s + t)
  {
    forall a, b | 0 <= a < b < |s + t| ensures (s + t)[a] < (s + t)[b] {
      if a < |s| <= b {
        assert s[a] in s && t[b - |s|] in t;
      }
    }
  }

  /** A waiting target has no partial and nothing was heard for it. */
  lemma WaitingUnheard(id: nat, r: Run, past: Record, w: nat)
    requires Shaped(id, r, past) && Opens(r.plan.running.Keys, r.plan.waiting, past)
    requires w in r.plan.waiting
    ensures PartialOf(r, w) == Partial(None, []) && Knows(r, past.heard, w)
  {
    assert w !in past.asked;
    HeardNothing(past.heard, w);
  }

  lemma WaitingHoldNothing(id: nat, r: Run, past: Record)
    requires Shaped(id, r, past) && Opens(r.plan.running.Keys, r.plan.waiting, past)
    ensures forall w :: w in r.plan.waiting ==>
              PartialOf(r, w) == Partial(None, []) && Knows(r, past.heard, w)
  {
    forall w | w in r.plan.waiting
      ensures PartialOf(r, w) == Partial(None, []) && Knows(r, past.heard, w)
    {
      WaitingUnheard(id, r, past, w);
    }
  }

  lemma SameKnown(r: Run, s: Run, heard: seq<(nat, ClientEvent)>, i: nat)
    requires Knows(r, heard, i) && PartialOf(s, i) == PartialOf(r, i) && s.vias == r.vias
    ensures Knows(s, heard, i)
  {
  }

  lemma AdmitMoreHears(id: nat, f: Flight)
    requires f.run.Some? && Hears(f.run.value, f.past)
    requires forall w :: w in f.run.value.plan.waiting ==> Knows(f.run.value, f.past.heard, w)
    ensures Hears(AdmitMore(id, f).run.value, AdmitMore(id, f).past)
  {
    hide Knows;
    var r, g := f.run.value, AdmitMore(id, f);
    forall j | j in g.run.value.plan.running ensures Knows(g.run.value, g.past.heard, j) {
      if j !in r.plan.running {
        assert j in r.plan.waiting;
      }
      SameKnown(r, g.run.value, g.past.heard, j);
    }
  }

  lemma KeysJoin(id: nat, a: set<nat>, b: set<nat>)
    ensures KeysOf(id, a) + KeysOf(id, b) == KeysOf(id, a + b)
  {
  }

  lemma AdmitMoreShape(id: nat, f: Flight)
    requires f.run.Some? && InTurn(f.run.value.plan) && Shaped(id, f.run.value, f.past)
    ensures Shaped(id, AdmitMore(id, f).run.value, AdmitMore(id, f).past)
  {
    var r, g := f.run.value, AdmitMore(id, f);
    var s, started := g.run.value, r.plan.waiting[..Room(r.plan)];
    KeysJoin(id, r.plan.running.Keys, Elements(started));
    assert s.plan.running.Keys == r.plan.running.Keys + Elements(started);
    forall k | 0 <= k < |g.past.heard| ensures g.past.heard[k].0 in g.past.asked {
      assert f.past.heard[k].0 in f.past.asked;
    }
    forall w | w in s.plan.waiting ensures w !in s.partial {
      assert w in r.plan.waiting;
    }
  }

  // ---------------------------------------------------------------- one step keeps it: bytes

  lemma {:induction false} HeldSame(r: Run, s: Run, k: nat)
    requires forall j :: 0 <= j < k ==> Weight(s, j) == Weight(r, j)
    ensures Held(s, k) == Held(r, k)
  {
    if k != 0 {
      HeldSame(r, s, k - 1);
    }
  }

  /** If only `i` weighs differently, the total moves by the difference. */
  lemma {:induction false} HeldChange(r: Run, s: Run, i: nat, k: nat)
    requires i < k && forall j :: 0 <= j < k && j != i ==> Weight(s, j) == Weight(r, j)
    ensures Held(s, k) - Held(r, k) == Weight(s, i) - Weight(r, i)
  {
    if i == k - 1 {
      HeldSame(r, s, k - 1);
    } else {
      HeldChange(r, s, i, k - 1);
    }
  }

  lemma RecordedBudget(f: Flight, i: nat, o: Outcome, stop: bool)
    requires f.run.Some? && Open(f.run.value.plan, i)
    requires Budgeted(f.run.value)
    requires BodyLength(o) <= Weight(f.run.value, i)
    ensures Budgeted(Recorded(f, i, o, stop).run.value)
  {
    var r, s := f.run.value, Recorded(f, i, o, stop).run.value;
    forall j: nat | j < |r.plan.settled| && j != i ensures Weight(s, j) == Weight(r, j) {
      assert PartialOf(s, j) == PartialOf(r, j);
    }
    HeldChange(r, s, i, |r.plan.settled|);
  }

  lemma AdmitMoreBudget(id: nat, f: Flight)
    requires f.run.Some? && Budgeted(f.run.value)
    requires forall w :: w in f.run.value.plan.waiting ==> PartialOf(f.run.value, w).body == []
    ensures Budgeted(AdmitMore(id, f).run.value)
  {
    var r, s := f.run.value, AdmitMore(id, f).run.value;
    forall j: nat | j < |r.plan.settled| ensures Weight(s, j) == Weight(r, j) {
      assert PartialOf(s, j) == PartialOf(r, j);
      if j in s.plan.running && j !in r.plan.running {
        assert j in r.plan.waiting[..Room(r.plan)];
      }
    }
    HeldSame(r, s, |r.plan.settled|);
  }

  // ---------------------------------------------------------------- the end of a flight

  function AllBytes(all: seq<(Address, Outcome, Via)>): nat {
    if all == [] then 0 else AllBytes(all[..|all| - 1]) + BodyLength(all[|all| - 1].1)
  }

  function SettledBy(all: seq<(Address, Outcome, Via)>): seq<Option<Outcome>> {
    seq(|all|, i requires 0 <= i < |all| => Some(all[i].1))
  }

  /** `done` ran once, with one outcome per target in target order; everything asked was told, and
      the answers together are within the byte budget. */
  ghost predicate Finished(id: nat, past: Record) {
    && |past.done| == 1
    && |past.done[0]| == |past.targets|
    && (forall i :: 0 <= i < |past.targets| ==> past.done[0][i].0 == past.targets[i])
    && Opens({}, [], past)
    && Tells(SettledBy(past.done[0]), past)
    && Stops(id, past) && Answers(past)
    && (past.limits.maxTotalBytes < U64_MAX ==> AllBytes(past.done[0]) <= past.limits.maxTotalBytes)
  }

  lemma {:induction false} ReportBytes(r: Run, k: nat)
    requires IsDone(r.plan) && |r.targets| == |r.vias| == |r.plan.settled| && k <= |r.targets|
    ensures AllBytes(Report(r)[..k]) == Held(r, k)
  {
    if k != 0 {
      ReportBytes(r, k - 1);
      assert Report(r)[..k][..k - 1] == Report(r)[..k - 1];
      ReportAt(r, k - 1);
    }
  }

  lemma ReportAt(r: Run, i: nat)
    requires IsDone(r.plan) && |r.targets| == |r.vias| == |r.plan.settled| && i < |r.targets|
    ensures Report(r)[i].1 == r.plan.settled[i].value && Report(r)[i].0 == r.targets[i]
  {
    assert Outcomes(r.plan)[i] == r.plan.settled[i].value;
  }

  lemma FinishedAtTheEnd(id: nat, r: Run, past: Record)
    requires RunInv(id, r, past) && Budgeted(r) && IsDone(r.plan)
    ensures Finished(id, past.(done := past.done + [Report(r)]))
  {
    var all := Report(r);
    NothingOpenAtTheEnd(r.plan);
    ReportBytes(r, |all|);
    assert all[..|all|] == all;
    forall i: nat | i < |all| ensures all[i].0 == r.targets[i] && SettledBy(all)[i] == r.plan.settled[i] {
      ReportAt(r, i);
    }
    assert SettledBy(all) == r.plan.settled;
    assert r.plan.running.Keys == {};
  }

  lemma NothingOpenAtTheEnd(p: PlanState)
    requires Partition(p) && IsDone(p)
    ensures p.waiting == [] && p.running == map[]
  {
    if p.waiting != [] {
      FirstIsElement(p.waiting);
      assert false;
    }
    assert p.running.Keys == {};
  }

  // ---------------------------------------------------------------- settling, whole

  /** Where a step leaves a flight: still running with its cap filled, or finished. */
  ghost predicate Landed(id: nat, f: Flight) {
    match f.run
    case Some(r) => RunInv(id, r, f.past) && Full(r.plan) && Budgeted(r)
    case None => Finished(id, f.past)
  }

  /** What settling never touches: the limits, the clock, and the age of whatever else runs. */
  ghost predicate Follows(f: Flight, g: Flight) {
    && RecordFollows(f.past, g.past)
    && (f.run.Some? && g.run.Some? ==> PlanFollows(f.run.value.plan, g.run.value.plan))
  }

  ghost predicate RecordFollows(a: Record, b: Record) {
    && b.limits == a.limits && b.targets == a.targets
    && b.clock == a.clock && b.heard == a.heard
    && a.asked <= b.asked && a.told <= b.told
  }

  ghost predicate PlanFollows(p: PlanState, q: PlanState) {
    && q.limits == p.limits && q.elapsedMs == p.elapsedMs
    && (forall w :: w in q.waiting ==> w in p.waiting)
    && (forall i :: i in q.running ==> q.running[i] == if i in p.running then p.running[i] else 0)
    && (forall i :: !Open(p, i) ==> !Open(q, i))
  }

  lemma {:induction false} FinishLands(id: nat, f: Flight)
    requires f.run.Some? && RunInv(id, f.run.value, f.past) && Full(f.run.value.plan) && Budgeted(f.run.value)
    ensures Landed(id, FinishIfDone(f))
  {
    if IsDone(f.run.value.plan) {
      FinishedAtTheEnd(id, f.run.value, f.past);
    }
  }

  lemma SettleLands(id: nat, f: Flight, i: nat, o: Outcome, stop: bool)
    requires f.run.Some? && Steady(id, f.run.value, f.past) && Full(f.run.value.plan)
    requires HearsOthers(f.run.value, f.past, i)
    requires Open(f.run.value.plan, i) ==> i in f.run.value.plan.running
    requires !Open(f.run.value.plan, i) ==> Hears(f.run.value, f.past)
    requires Budgeted(f.run.value)
    requires stop == !o.Answered?
    requires o.Answered? ==> exists n: nat :: AnsweredAt(f.past.heard, n, i, o.response)
    requires Open(f.run.value.plan, i) ==> BodyLength(o) <= Weight(f.run.value, i)
    ensures Landed(id, Settle(id, f, i, o, stop))
  {
    hide PlanInv, Shaped, Opens, Tells, Stops, Answers, Hears, HearsOthers, Budgeted, AdmitMore, Recorded;
    if Open(f.run.value.plan, i) {
      var g := Recorded(f, i, o, stop);
      RecordedKeeps(id, f, i, o, stop);
      RecordedBudget(f, i, o, stop);
      AdmitMoreKeeps(id, g);
      WaitingHoldNothing(id, g.run.value, g.past);
      AdmitMoreBudget(id, g);
      FinishLands(id, AdmitMore(id, g));
    }
  }

  lemma SettledFollows(p: PlanState, i: nat, o: Outcome)
    requires PlanInv(p) && Open(p, i)
    ensures PlanFollows(p, Settled(p, i, o))
    ensures !Open(Settled(p, i, o), i)
  {
    SettledKeeps(p, i, o);
  }

  lemma AdmittedFollows(p: PlanState)
    requires forall w :: w in p.waiting ==> w !in p.running
    ensures PlanFollows(p, Admitted(p))
    ensures forall i :: Open(Admitted(p), i) <==> Open(p, i)
  {
    var q := Admitted(p);
    forall w | w in q.waiting ensures w in p.waiting {
    }
    forall i | i in q.running ensures q.running[i] == if i in p.running then p.running[i] else 0 {
      if i in Started(p.waiting[..Room(p)]) {
        assert i in p.waiting;
      }
    }
    assert q.settled == p.settled;
  }

  lemma FollowsTransitive(p: PlanState, q: PlanState, r: PlanState)
    requires PlanFollows(p, q) && PlanFollows(q, r) && PlanInv(p)
    requires forall i :: i in p.running ==> Open(q, i) ==> i in q.running
    requires forall i :: i in r.running ==> Open(q, i)
    ensures PlanFollows(p, r)
  {
  }

  lemma SettleRecord(id: nat, f: Flight, i: nat, o: Outcome, stop: bool)
    requires f.run.Some?
    ensures RecordFollows(f.past, Settle(id, f, i, o, stop).past)
    ensures var p, g := f.run.value.plan, Settle(id, f, i, o, stop);
            g.run.Some? ==> g.run.value.plan == if Open(p, i) then Admitted(Settled(p, i, o)) else p
  {
    hide Admitted, Settled, Report, IsDone, Room;
  }

  lemma SettleFollows(id: nat, f: Flight, i: nat, o: Outcome, stop: bool)
    requires f.run.Some? && PlanInv(f.run.value.plan)
    ensures Follows(f, Settle(id, f, i, o, stop))
    ensures var g := Settle(id, f, i, o, stop);
            g.run.Some? ==> !Open(g.run.value.plan, i)
  {
    var p := f.run.value.plan;
    SettleRecord(id, f, i, o, stop);
    if Open(p, i) {
      SettlePlanFollows(p, i, o);
    } else {
      assert PlanFollows(p, p);
    }
  }

  lemma SettlePlanFollows(p: PlanState, i: nat, o: Outcome)
    requires PlanInv(p) && Open(p, i)
    ensures PlanFollows(p, Admitted(Settled(p, i, o)))
    ensures !Open(Admitted(Settled(p, i, o)), i)
  {
    var q := Settled(p, i, o);
    SettledFollows(p, i, o);
    SettledKeeps(p, i, o);
    AdmittedFollows(q);
    AdmittedKeeps(q);
    FollowsTransitive(p, q, Admitted(q));
  }

  // ---------------------------------------------------------------- one stream event

  /** On time: within the whole budget, and every running target within its own. */
  ghost predicate OnTime(p: PlanState) {
    !p.limits.Zero() ==>
      && p.elapsedMs < p.limits.budgetMs
      && forall i :: i in p.running ==> p.running[i] < p.limits.perCallMs
  }

  ghost predicate FlightInv(id: nat, f: Flight) {
    && Landed(id, f)
    && (f.run.Some? ==>
          && OnTime(f.run.value.plan)
          && f.run.value.plan.elapsedMs == Min(f.past.clock, U32_MAX))
  }

  /** A flight that is running, with `i` asked: `i`'s events are the ones that can come. */
  ghost predicate CanHear(f: Flight, i: nat) {
    i in f.past.asked
  }

  lemma AskedIsKnown(id: nat, f: Flight, i: nat)
    requires Landed(id, f) && CanHear(f, i)
    ensures f.run.Some? ==>
              var r := f.run.value;
              && i < |r.vias| && i !in r.plan.waiting
              && (Open(r.plan, i) <==> i in r.plan.running)
  {
    if f.run.Some? {
      var past := f.past;
      if i in ToldOf(past.told) {
        var k :| 0 <= k < |past.told| && past.told[k].0 == i;
      }
    }
  }

  lemma OnEventKeeps(id: nat, f: Flight, i: nat, event: ClientEvent)
    requires FlightInv(id, f) && CanHear(f, i)
    ensures f.run.Some? ==> i < |f.run.value.vias|
    ensures FlightInv(id, OnEvent(id, f, i, event))
  {
    AskedIsKnown(id, f, i);
    if f.run.Some? {
      match event
      case HeadEvent(head, via) => HeadKeeps(id, f, i, head, via);
      case BodyEvent(bytes) => BodyKeeps(id, f, i, bytes);
      case EndEvent => EndKeeps(id, f, i);
      case FailedEvent(why) => FailedKeeps(id, f, i, why);
    }
  }

  /** What was heard grew by one event of an asked target: nothing recorded before is disturbed. */
  lemma HeardMore(past: Record, i: nat, event: ClientEvent)
    requires Answers(past)
    ensures Answers(past.(heard := past.heard + [(i, event)]))
  {
    var more := past.(heard := past.heard + [(i, event)]);
    forall k | 0 <= k < |more.told| && more.told[k].1.Answered?
      ensures exists n: nat :: AnsweredAt(more.heard, n, more.told[k].0, more.told[k].1.response)
    {
      assert past.told[k].1.Answered?;
      var n: nat :| AnsweredAt(past.heard, n, past.told[k].0, past.told[k].1.response);
      assert more.heard[..n] == past.heard[..n];
      assert AnsweredAt(more.heard, n, more.told[k].0, more.told[k].1.response);
    }
  }

  lemma HeardShape(id: nat, r: Run, past: Record, i: nat, event: ClientEvent)
    requires Shaped(id, r, past) && i in past.asked
    ensures Shaped(id, r, past.(heard := past.heard + [(i, event)]))
  {
    var heard := past.heard + [(i, event)];
    forall k | 0 <= k < |heard| ensures heard[k].0 in past.asked {
    }
  }

  lemma HeadKeeps(id: nat, f: Flight, i: nat, head: ResponseHead, via: Via)
    requires FlightInv(id, f) && f.run.Some? && CanHear(f, i)
    requires i < |f.run.value.vias| && i !in f.run.value.plan.waiting
    ensures FlightInv(id, OnEvent(id, f, i, HeadEvent(head, via)))
  {
    hide PlanInv, Opens, Tells, Stops, Answers, Budgeted, OnTime, Full, Open;
    var r, event := f.run.value, HeadEvent(head, via);
    var g := OnEvent(id, f, i, event);
    var s := g.run.value;
    HeardMore(f.past, i, event);
    HeardShape(id, r, f.past, i, event);
    SameAsked(id, r, f.past, g.past);
    assert Shaped(id, s, g.past);
    forall j | j in s.plan.running ensures Knows(s, g.past.heard, j) {
      HeardSnoc(f.past.heard, i, event, j);
    }
    SameWeights(r, s);
  }

  lemma SameWeights(r: Run, s: Run)
    requires s.plan == r.plan
    requires forall j :: j in r.plan.running ==> |PartialOf(s, j).body| == |PartialOf(r, j).body|
    ensures Budgeted(r) ==> Budgeted(s)
  {
    HeldSame(r, s, |r.plan.settled|);
  }

  lemma FailedKeeps(id: nat, f: Flight, i: nat, why: Refused)
    requires FlightInv(id, f) && f.run.Some? && CanHear(f, i)
    requires Open(f.run.value.plan, i) <==> i in f.run.value.plan.running
    ensures FlightInv(id, OnEvent(id, f, i, FailedEvent(why)))
  {
    hide PlanInv, Shaped, Opens, Tells, Stops, Answers, Hears, HearsOthers, Budgeted, Settle, Finished, Open, OnTime;
    var r, event := f.run.value, FailedEvent(why);
    var g := Flight(Some(r), f.past.(heard := f.past.heard + [(i, event)]));
    HeardMore(f.past, i, event);
    HeardShape(id, r, f.past, i, event);
    SameAsked(id, r, f.past, g.past);
    HeardNoBody(r, f.past, i, event);
    HearsAll(r, g.past, i);
    RefusedInFlight(id, g, i, why);
  }

  /** Settling leaves every clock it does not start where it was. */
  lemma FollowingStaysOnTime(f: Flight, g: Flight)
    requires f.run.Some? && g.run.Some? ==> OnTime(f.run.value.plan) && Follows(f, g)
    ensures f.run.Some? && g.run.Some? ==> OnTime(g.run.value.plan)
  {
  }

  lemma EndKeeps(id: nat, f: Flight, i: nat)
    requires FlightInv(id, f) && f.run.Some? && CanHear(f, i)
    requires i < |f.run.value.vias| && i !in f.run.value.plan.waiting
    requires Open(f.run.value.plan, i) <==> i in f.run.value.plan.running
    ensures FlightInv(id, OnEvent(id, f, i, EndEvent))
  {
    hide PlanInv, Shaped, Opens, Tells, Stops, Answers, Hears, HearsOthers, Budgeted, OnTime, Full, Settle, Finished;
    var r, past := f.run.value, f.past.(heard := f.past.heard + [(i, EndEvent)]);
    HeardMore(f.past, i, EndEvent);
    HeardShape(id, r, f.past, i, EndEvent);
    HeardNoBody(r, f.past, i, EndEvent);
    SameAsked(id, r, f.past, past);
    if Open(r.plan, i) {
      EndSettles(id, Flight(Some(r), past), i);
      SettleIgnoresPartial(id, Flight(Some(r), past), r.partial - {i}, i,
                           EndOutcome(r, i), !EndOutcome(r, i).Answered?);
      FollowingStaysOnTime(Flight(Some(r), past), OnEvent(id, f, i, EndEvent));
    } else {
      DroppedPartial(id, r, past, i);
      SettledAlready(id, Flight(Some(r.(partial := r.partial - {i})), past), i,
                     EndOutcome(r, i), !EndOutcome(r, i).Answered?);
    }
  }

  lemma SettledAlready(id: nat, f: Flight, i: nat, o: Outcome, stop: bool)
    requires f.run.Some? && !Open(f.run.value.plan, i)
    ensures Settle(id, f, i, o, stop) == f
  {
  }

  /** Hearing an end or a failure leaves every running target's partial what was heard. */
  lemma HeardNoBody(r: Run, past: Record, i: nat, event: ClientEvent)
    requires Hears(r, past) && !event.BodyEvent? && !event.HeadEvent?
    ensures Hears(r, past.(heard := past.heard + [(i, event)]))
    ensures BodyHeard(past.heard + [(i, event)], i) == BodyHeard(past.heard, i)
    ensures HeadHeard(past.heard + [(i, event)], i) == HeadHeard(past.heard, i)
  {
    forall j | j in r.plan.running
      ensures Knows(r, past.heard + [(i, event)], j)
    {
      HeardSnoc(past.heard, i, event, j);
    }
    HeardSnoc(past.heard, i, event, i);
  }

  /** What was asked, told and stopped does not depend on what was heard. */
  lemma SameAsked(id: nat, r: Run, a: Record, b: Record)
    requires b.told == a.told && b.stopped == a.stopped && b.asked == a.asked && b.limits == a.limits
    ensures Stops(id, a) ==> Stops(id, b)
    ensures Opens(r.plan.running.Keys, r.plan.waiting, a) ==> Opens(r.plan.running.Keys, r.plan.waiting, b)
    ensures Tells(r.plan.settled, a) ==> Tells(r.plan.settled, b)
  {
  }

  /** What an end answers is what was heard before it. */
  lemma EndAnswers(r: Run, heard: seq<(nat, ClientEvent)>, i: nat)
    requires i < |r.vias| && Knows(r, heard, i)
    requires heard != [] && heard[|heard| - 1] == (i, EndEvent)
    ensures EndOutcome(r, i).Answered? ==> AnsweredAt(heard, |heard| - 1, i, EndOutcome(r, i).response)
  {
    var front := heard[..|heard| - 1];
    assert heard == front + [(i, EndEvent)];
    HeardSnoc(front, i, EndEvent, i);
  }

  /** An open target's end settles it with what was heard for it. */
  lemma EndSettles(id: nat, f: Flight, i: nat)
    requires f.run.Some? && RunInv(id, f.run.value, f.past) && Full(f.run.value.plan) && Budgeted(f.run.value)
    requires i < |f.run.value.vias| && i in f.run.value.plan.running && Open(f.run.value.plan, i)
    requires f.past.heard != [] && f.past.heard[|f.past.heard| - 1] == (i, EndEvent)
    ensures var o := EndOutcome(f.run.value, i);
            && Landed(id, Settle(id, f, i, o, !o.Answered?))
            && Follows(f, Settle(id, f, i, o, !o.Answered?))
  {
    hide PlanInv, Shaped, Opens, Tells, Stops, Answers, Budgeted, Settle, Finished, Landed, Follows, Full;
    var o := EndOutcome(f.run.value, i);
    EndAnswers(f.run.value, f.past.heard, i);
    SettleLands(id, f, i, o, !o.Answered?);
    SettleFollows(id, f, i, o, !o.Answered?);
  }

  /** Dropping the partial of a target that does not run changes nothing that is kept. */
  lemma DroppedPartial(id: nat, r: Run, past: Record, i: nat)
    requires Shaped(id, r, past) && Hears(r, past) && i !in r.plan.running
    ensures Shaped(id, r.(partial := r.partial - {i}), past) && Hears(r.(partial := r.partial - {i}), past)
    ensures Budgeted(r) ==> Budgeted(r.(partial := r.partial - {i}))
  {
    var s := r.(partial := r.partial - {i});
    forall j | j in r.plan.running ensures PartialOf(s, j) == PartialOf(r, j) {
    }
    SameWeights(r, s);
  }

  /** What settling keeps of a partial does not depend on `i`'s own, which goes. */
  lemma SettleIgnoresPartial(id: nat, f: Flight, partial: map<nat, Partial>, i: nat, o: Outcome, stop: bool)
    requires f.run.Some? && Open(f.run.value.plan, i)
    requires partial - {i} == f.run.value.partial - {i}
    ensures Settle(id, f.(run := Some(f.run.value.(partial := partial))), i, o, stop) == Settle(id, f, i, o, stop)
  {
  }

  lemma BodyKeeps(id: nat, f: Flight, i: nat, bytes: Bytes)
    requires FlightInv(id, f) && f.run.Some? && CanHear(f, i)
    requires i < |f.run.value.vias| && i !in f.run.value.plan.waiting
    requires Open(f.run.value.plan, i) <==> i in f.run.value.plan.running
    ensures FlightInv(id, OnEvent(id, f, i, BodyEvent(bytes)))
  {
    hide PlanInv, Shaped, Opens, Tells, Stops, Answers, Hears, HearsOthers, Budgeted, Settle, Finished, Open, BodyHeard,
      WithBody;
    var r, event := f.run.value, BodyEvent(bytes);
    var past := f.past.(heard := f.past.heard + [(i, event)]);
    var counted := r.(plan := Counted(r.plan, |bytes|));
    HeardMore(f.past, i, event);
    HeardShape(id, r, f.past, i, event);
    SameAsked(id, r, f.past, past);
    CountedKeeps(id, r, past, |bytes|);
    HeardBody(r, f.past, i, bytes);
    if Over(counted.plan, i) {
      // The chunk that took the total over goes with its target's partial, so it never weighs.
      SettleIgnoresPartial(id, Flight(Some(counted), past), WithBody(r, i, bytes), i, Failed(TOTAL_BYTES), true);
      RefusedInFlight(id, Flight(Some(counted), past), i, TOTAL_BYTES);
    } else {
      ShapedStays(id, counted, WithBody(r, i, bytes), past, i);
      WithinBudget(r, i, bytes);
    }
  }

  /** A refusal settles its target, whatever its own partial holds. */
  lemma RefusedInFlight(id: nat, f: Flight, i: nat, why: Refused)
    requires f.run.Some? && Steady(id, f.run.value, f.past) && Full(f.run.value.plan)
    requires HearsOthers(f.run.value, f.past, i)
    requires Open(f.run.value.plan, i) ==> i in f.run.value.plan.running
    requires !Open(f.run.value.plan, i) ==> Hears(f.run.value, f.past)
    requires Budgeted(f.run.value) && OnTime(f.run.value.plan)
    requires f.run.value.plan.elapsedMs == Min(f.past.clock, U32_MAX)
    ensures FlightInv(id, Settle(id, f, i, Failed(why), true))
  {
    hide PlanInv, Shaped, Opens, Tells, Stops, Answers, Hears, HearsOthers, Budgeted, Settle, Finished, Open, OnTime;
    SettleLands(id, f, i, Failed(why), true);
    SettleFollows(id, f, i, Failed(why), true);
    FollowingStaysOnTime(f, Settle(id, f, i, Failed(why), true));
  }

  lemma ShapedStays(id: nat, r: Run, partial: map<nat, Partial>, past: Record, i: nat)
    requires Shaped(id, r, past) && i !in r.plan.waiting && partial.Keys == r.partial.Keys + {i}
    ensures Shaped(id, r.(partial := partial), past)
  {
  }

  /** A body chunk lands in its own target's partial and in no other. */
  lemma HeardBody(r: Run, past: Record, i: nat, bytes: Bytes)
    requires Hears(r, past)
    ensures var more, p := past.(heard := past.heard + [(i, BodyEvent(bytes))]), Counted(r.plan, |bytes|);
            && HearsOthers(r.(plan := p), more, i)
            && Hears(r.(plan := p, partial := WithBody(r, i, bytes)), more)
  {
    var event := BodyEvent(bytes);
    var more, p := past.(heard := past.heard + [(i, event)]), Counted(r.plan, |bytes|);
    var s := r.(plan := p, partial := WithBody(r, i, bytes));
    forall j | j in r.plan.running
      ensures Knows(s, more.heard, j)
      ensures j != i ==> Knows(r.(plan := p), more.heard, j)
    {
      HeardSnoc(past.heard, i, event, j);
    }
  }

  /** Counting touches the counter alone, and the counter only grows. */
  lemma CountedKeeps(id: nat, r: Run, past: Record, n: nat)
    requires PlanInv(r.plan) && Shaped(id, r, past) && Budgeted(r)
    ensures var p := Counted(r.plan, n);
            && PlanInv(p) && Shaped(id, r.(plan := p), past) && Budgeted(r.(plan := p))
            && (forall i :: Open(p, i) <==> Open(r.plan, i))
  {
    var p := Counted(r.plan, n);
    assert forall i :: Open(p, i) <==> Open(r.plan, i);
    HeldSame(r, r.(plan := p), |r.plan.settled|);
  }

  /** A chunk that does not take the counter over the budget keeps what is held within it: below
      2^64 - 1 the counter did not saturate, so it counted every byte held. */
  lemma WithinBudget(r: Run, i: nat, bytes: Bytes)
    requires Budgeted(r) && !Over(Counted(r.plan, |bytes|), i)
    requires i in r.plan.running ==> Open(r.plan, i)
    ensures Budgeted(r.(plan := Counted(r.plan, |bytes|), partial := WithBody(r, i, bytes)))
  {
    var s := r.(plan := Counted(r.plan, |bytes|), partial := WithBody(r, i, bytes));
    forall j: nat | j < |r.plan.settled| && j != i ensures Weight(s, j) == Weight(r, j) {
      assert PartialOf(s, j) == PartialOf(r, j);
    }
    if i < |r.plan.settled| {
      HeldChange(r, s, i, |r.plan.settled|);
    } else {
      HeldSame(r, s, |r.plan.settled|);
    }
  }

  // ---------------------------------------------------------------- ticks and cancels

  /** Midway through stopping: what runs past its own time is still to be stopped, and nothing to
      be stopped waits. */
  ghost predicate Stopping(id: nat, f: Flight, stops: seq<(nat, Outcome)>) {
    && Landed(id, f)
    && (forall k :: 0 <= k < |stops| ==> !stops[k].1.Answered?)
    && (f.run.Some? ==> StillDue(f.run.value.plan, stops))
  }

  ghost predicate StillDue(p: PlanState, stops: seq<(nat, Outcome)>) {
    && (forall k :: 0 <= k < |stops| ==> stops[k].0 !in p.waiting)
    && (forall i :: i in p.running && !(p.running[i] < p.limits.perCallMs) ==> i in ToldOf(stops))
  }

  /** Nothing is left to start, and all that runs is still to be stopped. */
  ghost predicate Draining(p: PlanState, stops: seq<(nat, Outcome)>) {
    p.waiting == [] && forall i :: i in p.running ==> i in ToldOf(stops)
  }

  lemma OneStop(id: nat, f: Flight, stops: seq<(nat, Outcome)>)
    requires Stopping(id, f, stops) && stops != [] && f.run.Some?
    ensures var g := Settle(id, f, stops[0].0, stops[0].1, true);
            && Stopping(id, g, stops[1..]) && Follows(f, g)
            && (g.run.Some? && Draining(f.run.value.plan, stops) ==> Draining(g.run.value.plan, stops[1..]))
  {
    hide Shaped, Opens, Tells, Stops, Answers, Hears, Budgeted, Settle, Finished, Partition, InTurn, Capped, Full,
      StillDue, Draining, Open, HearsOthers, RecordFollows, PlanFollows;
    var i, o := stops[0].0, stops[0].1;
    RunningOrSettled(f.run.value.plan, stops);
    HearsAll(f.run.value, f.past, i);
    SettleLands(id, f, i, o, true);
    SettleFollows(id, f, i, o, true);
    var g := Settle(id, f, i, o, true);
    if g.run.Some? {
      StillDueAfter(f.run.value.plan, g.run.value.plan, stops);
    }
  }

  lemma HearsAll(r: Run, past: Record, i: nat)
    requires Hears(r, past)
    ensures HearsOthers(r, past, i)
  {
  }

  lemma RunningOrSettled(p: PlanState, stops: seq<(nat, Outcome)>)
    requires Partition(p) && StillDue(p, stops) && stops != []
    ensures Open(p, stops[0].0) ==> stops[0].0 in p.running
  {
  }

  lemma StillDueAfter(p: PlanState, q: PlanState, stops: seq<(nat, Outcome)>)
    requires Partition(p) && Partition(q) && PlanFollows(p, q) && stops != []
    requires StillDue(p, stops) && !Open(q, stops[0].0)
    requires Capped(q)
    ensures StillDue(q, stops[1..])
    ensures Draining(p, stops) ==> Draining(q, stops[1..])
  {
    var rest := stops[1..];
    forall j | j in ToldOf(stops) && j != stops[0].0 ensures j in ToldOf(rest) {
      var k :| 0 <= k < |stops| && stops[k].0 == j;
      assert rest[k - 1].0 == j;
    }
    if Draining(p, stops) && q.waiting != [] {
      FirstIsElement(q.waiting);
      assert false;
    }
  }

  lemma {:induction false} StoppedEach(id: nat, f: Flight, stops: seq<(nat, Outcome)>)
    requires Stopping(id, f, stops)
    ensures var g := StopEach(id, f, stops);
            && Stopping(id, g, [])
            && (f.run.Some? && g.run.Some? ==> g.run.value.plan.elapsedMs == f.run.value.plan.elapsedMs)
            && (f.run.None? ==> g == f)
            && g.past.clock == f.past.clock && g.past.limits == f.past.limits && g.past.targets == f.past.targets
            && (f.run.Some? && g.run.Some? && Draining(f.run.value.plan, stops) ==> Draining(g.run.value.plan, []))
    decreases |stops|
  {
    hide Landed, Settle, StillDue, Draining, PlanFollows;
    if stops != [] {
      var g := Settle(id, f, stops[0].0, stops[0].1, true);
      if f.run.None? {
        SettledGone(id, f, stops[0].0, stops[0].1, true);
      } else {
        OneStop(id, f, stops);
        SettleKeepsClock(f, g);
      }
      StoppedEach(id, g, stops[1..]);
    }
  }

  lemma SettledGone(id: nat, f: Flight, i: nat, o: Outcome, stop: bool)
    requires f.run.None?
    ensures Settle(id, f, i, o, stop) == f
  {
  }

  lemma SettleKeepsClock(f: Flight, g: Flight)
    requires Follows(f, g)
    ensures f.run.Some? && g.run.Some? ==> g.run.value.plan.elapsedMs == f.run.value.plan.elapsedMs
    ensures g.past.clock == f.past.clock
  {
  }

  /** A drained plan is done. */
  lemma DrainedIsDone(p: PlanState)
    requires Partition(p) && Draining(p, [])
    ensures IsDone(p)
  {
    forall i: nat | i < |p.settled| ensures p.settled[i].Some? {
      assert Open(p, i) ==> i in p.running;
    }
  }

  /** Settling what waits as skipped, or ageing what runs: the same targets run as before, and every
      other target is as it was, or settled without being asked. */
  ghost predicate TimePasses(p: PlanState, q: PlanState) {
    && q.limits == p.limits && q.running.Keys == p.running.Keys && q.bytes == p.bytes
    && |q.settled| == |p.settled|
    && (q.waiting == p.waiting || q.waiting == [])
    && (forall i :: 0 <= i < |p.settled| ==>
          q.settled[i] == p.settled[i] || (i in p.waiting && q.settled[i] == Some(Skipped)))
  }

  lemma StoppedWaitingPasses(p: PlanState)
    ensures TimePasses(p, StoppedWaiting(p))
  {
  }

  lemma ElapsedPasses(p: PlanState, ms: u32)
    ensures TimePasses(p, Elapsed(p, ms))
  {
    StoppedWaitingPasses(p.(elapsedMs := SatAdd32(p.elapsedMs, ms)));
    assert Aged(p.running, ms).Keys == p.running.Keys;
  }

  lemma TimePassesTells(p: PlanState, q: PlanState, past: Record)
    requires TimePasses(p, q) && Partition(p) && Tells(p.settled, past)
    requires past.limits.Zero() ==> p.waiting == []
    ensures Tells(q.settled, past)
  {
    forall k | 0 <= k < |past.told| ensures q.settled[past.told[k].0] == Some(past.told[k].1) {
      assert !Open(p, past.told[k].0);
    }
  }

  lemma ZeroWaitsForNothing(id: nat, r: Run, past: Record)
    requires PlanInv(r.plan) && Shaped(id, r, past)
    ensures past.limits.Zero() ==> r.plan.waiting == []
  {
    if past.limits.Zero() && r.plan.waiting != [] {
      FirstIsElement(r.plan.waiting);
      assert false;
    }
  }

  lemma TimePassesBudget(r: Run, q: PlanState)
    requires TimePasses(r.plan, q) && Partition(r.plan) && Budgeted(r)
    ensures Budgeted(r.(plan := q))
  {
    var s := r.(plan := q);
    forall j: nat | j < |r.plan.settled| ensures Weight(s, j) == Weight(r, j) {
      if j in r.plan.waiting {
        assert Open(r.plan, j);
      }
    }
    HeldSame(r, s, |r.plan.settled|);
  }

  lemma TimePassesShape(id: nat, r: Run, q: PlanState, past: Record)
    requires TimePasses(r.plan, q) && Shaped(id, r, past) && Hears(r, past) && Full(r.plan)
    requires Opens(r.plan.running.Keys, r.plan.waiting, past)
    ensures Shaped(id, r.(plan := q), past) && Hears(r.(plan := q), past) && Full(q)
    ensures Opens(q.running.Keys, q.waiting, past)
  {
    SizeOfMap(r.plan.running);
    SizeOfMap(q.running);
    forall i | i in q.running ensures Knows(r.(plan := q), past.heard, i) {
      assert PartialOf(r.(plan := q), i) == PartialOf(r, i);
    }
  }

  lemma TimePassesLands(id: nat, f: Flight, q: PlanState, clock: nat)
    requires Landed(id, f) && f.run.Some? && TimePasses(f.run.value.plan, q) && PlanInv(q)
    ensures Landed(id, Flight(Some(f.run.value.(plan := q)), f.past.(clock := clock)))
  {
    hide TimePasses, Partition, InTurn, Capped, Opens, Tells, Shaped, Hears, Budgeted, Full;
    var r, past := f.run.value, f.past;
    ZeroWaitsForNothing(id, r, past);
    TimePassesTells(r.plan, q, past);
    TimePassesBudget(r, q);
    TimePassesShape(id, r, q, past);
    ClockAside(id, r.(plan := q), past, clock);
  }

  lemma ClockAside(id: nat, r: Run, past: Record, clock: nat)
    ensures RunInv(id, r, past) ==> RunInv(id, r, past.(clock := clock))
  {
    hide PlanInv, StopsOf, BodyHeard;
  }

  /** Everything stopped: where the plan says stop, nothing that ran too long runs on. */
  lemma StopsDone(id: nat, f: Flight, stops: seq<(nat, Outcome)>)
    requires Stopping(id, f, stops) && f.run.Some?
    ensures var p, g := f.run.value.plan, FinishIfDone(StopEach(id, f, stops));
            && Landed(id, g)
            && g.past.clock == f.past.clock && g.past.limits == f.past.limits
            && (Draining(p, stops) ==> g.run.None?)
            && (g.run.Some? ==>
                  var q := g.run.value.plan;
                  && q.limits == f.past.limits && !q.limits.Zero() && q.elapsedMs == p.elapsedMs
                  && (forall i :: i in q.running ==> q.running[i] < q.limits.perCallMs))
  {
    hide Partition, InTurn, Opens, Tells, Stops, Answers, Hears, Budgeted, Full, StopEach, Draining, Report;
    StoppedEach(id, f, stops);
    var g := StopEach(id, f, stops);
    if g.run.Some? {
      FinishLands(id, g);
      if Draining(f.run.value.plan, stops) {
        DrainedIsDone(g.run.value.plan);
      }
    }
  }

  lemma PairedTold(s: seq<nat>, o: Outcome)
    ensures forall i :: i in s <==> i in ToldOf(Paired(s, o))
  {
    forall i ensures i in s <==> i in ToldOf(Paired(s, o)) {
      if i in s {
        var k :| 0 <= k < |s| && s[k] == i;
        assert Paired(s, o)[k].0 == i;
      }
    }
  }

  lemma DueIsDue(p: PlanState, ms: u32)
    requires Partition(p)
    requires forall i :: i in p.running ==> p.running[i] < p.limits.perCallMs
    ensures StillDue(Elapsed(p, ms), Due(p, ms))
    ensures forall k :: 0 <= k < |Due(p, ms)| ==> !Due(p, ms)[k].1.Answered?
    ensures Elapsed(p, ms).elapsedMs >= p.limits.budgetMs ==> Draining(Elapsed(p, ms), Due(p, ms))
  {
    var q := Elapsed(p, ms);
    ElapsedPasses(p, ms);
    var s := if q.elapsedMs >= q.limits.budgetMs
             then InOrder(q.running.Keys, |q.settled|) else InOrder(Late(q), |q.settled|);
    PairedTold(s, if q.elapsedMs >= q.limits.budgetMs then Skipped else Failed(PER_CALL));
    forall i | i in q.running ensures i < |q.settled| && i !in q.waiting {
      assert Open(p, i);
    }
    forall k | 0 <= k < |Due(p, ms)| ensures Due(p, ms)[k].0 in q.running {
      assert Due(p, ms)[k].0 == s[k] && s[k] in s;
    }
  }

  /** After a tick a fan-out is over, or it has used less than its budget and every running target
      less than its own; its limits are then not zero. */
  lemma TickKeeps(id: nat, f: Flight, ms: u32)
    requires FlightInv(id, f)
    ensures var g := Tick(id, f, ms);
            && FlightInv(id, g)
            && (f.run.Some? ==> g.past.clock == f.past.clock + ms)
            && (g.run.Some? ==> !g.past.limits.Zero() && g.past.clock < g.past.limits.budgetMs)
  {
    hide Partition, InTurn, Capped, Opens, Tells, Stops, Answers, Hears, Budgeted, Full, StopEach, Draining, Report,
      Due, Elapsed, StillDue, FinishIfDone, Finished, Follows;
    if f.run.Some? {
      var p := f.run.value.plan;
      ElapsedKeeps(p, ms);
      ElapsedPasses(p, ms);
      TimePassesLands(id, f, Elapsed(p, ms), f.past.clock + ms);
      AllOnTime(p);
      DueIsDue(p, ms);
      ElapsedClock(p, ms, f.past.clock);
      StopsDone(id, Flight(Some(f.run.value.(plan := Elapsed(p, ms))), f.past.(clock := f.past.clock + ms)),
                Due(p, ms));
    }
  }

  lemma AllOnTime(p: PlanState)
    requires OnTime(p) && PlanInv(p)
    ensures forall i :: i in p.running ==> p.running[i] < p.limits.perCallMs
  {
    forall i | i in p.running ensures p.running[i] < p.limits.perCallMs {
      assert Open(p, i);
    }
  }

  lemma ElapsedClock(p: PlanState, ms: u32, clock: nat)
    requires p.elapsedMs == Min(clock, U32_MAX)
    ensures Elapsed(p, ms).elapsedMs == Min(clock + ms, U32_MAX)
    ensures Elapsed(p, ms).limits == p.limits
  {
  }

  /** A cancelled fan-out is over. */
  lemma CancelKeeps(id: nat, f: Flight)
    requires FlightInv(id, f)
    ensures FlightInv(id, CancelAll(id, f)) && CancelAll(id, f).run.None?
  {
    hide Partition, InTurn, Capped, Opens, Tells, Stops, Answers, Hears, Budgeted, Full, StopEach, Draining, Report,
      StillDue, FinishIfDone, Finished, StoppedWaiting;
    if f.run.Some? {
      var p := f.run.value.plan;
      var q := StoppedWaiting(p);
      StoppedWaitingKeeps(p);
      StoppedWaitingPasses(p);
      TimePassesLands(id, f, q, f.past.clock);
      CancelDue(p);
      StopsDone(id, Flight(Some(f.run.value.(plan := q)), f.past),
                Paired(InOrder(q.running.Keys, |q.settled|), Skipped));
    }
  }

  lemma CancelDue(p: PlanState)
    requires PlanInv(p)
    ensures var q := StoppedWaiting(p);
            var stops := Paired(InOrder(q.running.Keys, |q.settled|), Skipped);
            StillDue(q, stops) && Draining(q, stops)
  {
    var q := StoppedWaiting(p);
    PairedTold(InOrder(q.running.Keys, |q.settled|), Skipped);
    StoppedWaitingKeeps(p);
  }

  lemma FinishKeeps(id: nat, f: Flight)
    requires FlightInv(id, f)
    ensures FlightInv(id, FinishIfDone(f))
  {
    if f.run.Some? {
      FinishLands(id, f);
    }
  }

  lemma {:induction false} HeldZero(r: Run, k: nat)
    requires forall j :: 0 <= j < k ==> Weight(r, j) == 0
    ensures Held(r, k) == 0
  {
    if k != 0 {
      HeldZero(r, k - 1);
    }
  }

  /** A fan-out starts within every bound: the cap filled, no time passed, no byte held. */
  lemma LaunchKeeps(id: nat, targets: seq<Address>, transport: Transport, limits: Limits)
    ensures FlightInv(id, Launched(id, targets, transport, limits))
    ensures var past := Launched(id, targets, transport, limits).past;
            past.clock == 0 && past.limits == limits && past.targets == targets
  {
    hide PlanInv, Opens, Tells, Stops, Answers, Shaped, Hears, Full, Budgeted, Fresh;
    var r := NewRun(targets, transport, limits);
    var f := Flight(Some(r), Record(limits, transport, targets, [], [], [], [], [], 0));
    LaunchInv(id, r, f.past);
    AdmitMoreKeeps(id, f);
    WaitingHoldNothing(id, r, f.past);
    AdmitMoreBudget(id, f);
    LaunchOnTime(limits, |targets|);
  }

  lemma LaunchOnTime(limits: Limits, n: nat)
    ensures OnTime(Admitted(Fresh(n, limits))) && Admitted(Fresh(n, limits)).elapsedMs == 0
  {
    var p := Fresh(n, limits);
    assert Admitted(p).running.Keys == Elements(p.waiting[..Room(p)]);
  }

  lemma LaunchInv(id: nat, r: Run, past: Record)
    requires past == Record(past.limits, past.transport, past.targets, [], [], [], [], [], 0)
    requires r == Run(Fresh(|past.targets|, past.limits), past.targets, r.vias, map[], map[])
    requires |r.vias| == |r.targets|
    ensures RunInv(id, r, past) && Budgeted(r)
  {
    FreshKeeps(|past.targets|, past.limits);
    hide PlanInv;
    assert r.keys == KeysOf(id, {});
    HeldZero(r, |past.targets|);
  }
}
