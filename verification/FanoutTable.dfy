/** Every fan-out at once: the table the source keeps, what one action does to it, and what holds
    after any run of starts, stream events, ticks, cancels and deferred finishes. */
module FanoutTable {
  import opened Basics
  import opened Frames
  import opened FanoutPlan
  import opened Fanout

  datatype Table = Table(last: nat, flights: map<nat, Flight>)

  const EMPTY := Table(0, map[])

  datatype Action =
    | Start(targets: seq<Address>, transport: Transport, limits: Limits)
    | StreamEvent(id: nat, i: nat, event: ClientEvent)
    | TickAll(ms: u32)
    | FinishTask(id: nat)
    | CancelTask(id: nat)

  /** A stream event comes only from a stream that was opened for that target. */
  ghost predicate Possible(t: Table, a: Action) {
    a.StreamEvent? ==> a.id in t.flights && CanHear(t.flights[a.id], a.i)
  }

  ghost predicate TableInv(t: Table) {
    forall id :: id in t.flights ==> id <= t.last && FlightInv(id, t.flights[id])
  }

  function Apply(t: Table, a: Action): Table {
    match a
    case Start(targets, transport, limits) =>
      Table(t.last + 1, t.flights[t.last + 1 := Launched(t.last + 1, targets, transport, limits)])
    case StreamEvent(id, i, event) =>
      if id in t.flights && HasTarget(t.flights[id], i)
      then t.(flights := t.flights[id := OnEvent(id, t.flights[id], i, event)]) else t
    case TickAll(ms) =>
      t.(flights := map id | id in t.flights :: Tick(id, t.flights[id], ms))
    case FinishTask(id) =>
      if id in t.flights then t.(flights := t.flights[id := FinishIfDone(t.flights[id])]) else t
    case CancelTask(id) =>
      if id in t.flights then t.(flights := t.flights[id := CancelAll(id, t.flights[id])]) else t
  }

  predicate HasTarget(f: Flight, i: nat) {
    f.run.Some? ==> i < |f.run.value.vias|
  }

  lemma ApplyKeeps(t: Table, a: Action)
    requires TableInv(t) && Possible(t, a)
    ensures TableInv(Apply(t, a))
  {
    hide FlightInv, Tick, CancelAll, OnEvent, FinishIfDone, Launched;
    match a
    case Start(targets, transport, limits) => LaunchKeeps(t.last + 1, targets, transport, limits);
    case StreamEvent(id, i, event) => OnEventKeeps(id, t.flights[id], i, event);
    case TickAll(ms) =>
      forall id | id in t.flights ensures FlightInv(id, Tick(id, t.flights[id], ms)) {
        TickKeeps(id, t.flights[id], ms);
      }
    case FinishTask(id) => if id in t.flights { FinishKeeps(id, t.flights[id]); }
    case CancelTask(id) => if id in t.flights { CancelKeeps(id, t.flights[id]); }
  }

  /** A run: actions one after the other, each possible where it happens. */
  ghost predicate Runs(t: Table, actions: seq<Action>, u: Table)
    decreases |actions|
  {
    if actions == [] then u == t
    else Possible(t, actions[0]) && Runs(Apply(t, actions[0]), actions[1..], u)
  }

  lemma {:induction false} EveryRunKeeps(t: Table, actions: seq<Action>, u: Table)
    requires TableInv(t) && Runs(t, actions, u)
    ensures TableInv(u)
    decreases |actions|
  {
    hide TableInv, Possible, Apply;
    if actions != [] {
      ApplyKeeps(t, actions[0]);
      EveryRunKeeps(Apply(t, actions[0]), actions[1..], u);
    }
  }

  // ---------------------------------------------------------------- what that means, over every run

  /** Between actions, over every run: each target of a fan-out in flight is in exactly one of
      waiting, running and settled; at most the cap runs; and the cap is full or nothing waits. */
  lemma EachTargetInOnePlace(actions: seq<Action>, u: Table, id: nat)
    requires Runs(EMPTY, actions, u) && id in u.flights && u.flights[id].run.Some?
    ensures var p := u.flights[id].run.value.plan;
            && (forall i :: 0 <= i < |p.settled| ==>
                  (if i in p.waiting then 1 else 0) + (if i in p.running then 1 else 0)
                  + (if p.settled[i].Some? then 1 else 0) == 1)
            && |p.running| <= p.limits.maxConcurrency
            && (|p.running| == p.limits.maxConcurrency || p.waiting == [])
  {
    EveryRunKeeps(EMPTY, actions, u);
    hide InTurn, Opens, Tells, Stops, Answers, Shaped, Hears, Budgeted;
    var p := u.flights[id].run.value.plan;
    forall i | 0 <= i < |p.settled|
      ensures (if i in p.waiting then 1 else 0) + (if i in p.running then 1 else 0)
              + (if p.settled[i].Some? then 1 else 0) == 1
    {
      assert Open(p, i) <==> p.settled[i].None?;
    }
  }

  /** Over every run: targets are asked in index order, each at most once; `each` runs at most once
      for a target, and has run for exactly those asked that no longer run. */
  lemma AskedInOrderToldOnce(actions: seq<Action>, u: Table, id: nat)
    requires Runs(EMPTY, actions, u) && id in u.flights
    ensures var f := u.flights[id];
            && (forall a, b :: 0 <= a < b < |f.past.asked| ==> f.past.asked[a] < f.past.asked[b])
            && (forall a, b :: 0 <= a < b < |f.past.told| ==> f.past.told[a].0 != f.past.told[b].0)
            && (forall i :: i in ToldOf(f.past.told) <==>
                  i in f.past.asked && (f.run.Some? ==> i !in f.run.value.plan.running))
  {
    EveryRunKeeps(EMPTY, actions, u);
    hide InTurn, Stops, Answers, Shaped, Hears, Budgeted, Capped, Full;
    var f := u.flights[id];
    if f.run.Some? {
      var p := f.run.value.plan;
      forall i | i in ToldOf(f.past.told) ensures i !in p.running {
        var k :| 0 <= k < |f.past.told| && f.past.told[k].0 == i;
        assert !Open(p, i);
      }
    }
  }

  /** Over every run: `done` has run once if the fan-out is over and not at all before, with one
      outcome per target, in target order: what `each` was told for a target that was asked, and
      skipped (or refused, for a zero limit) for one that never was. */
  lemma DoneOnceWithEveryOutcome(actions: seq<Action>, u: Table, id: nat)
    requires Runs(EMPTY, actions, u) && id in u.flights
    ensures var f := u.flights[id];
            && |f.past.done| == (if f.run.Some? then 0 else 1)
            && (f.run.None? ==>
                  var all := f.past.done[0];
                  && |all| == |f.past.targets|
                  && (forall i :: 0 <= i < |all| ==>
                        && all[i].0 == f.past.targets[i]
                        && if i in f.past.asked then (i, all[i].1) in f.past.told
                        else NeverAsked(f.past.limits, all[i].1)))
  {
    EveryRunKeeps(EMPTY, actions, u);
    hide Partition, InTurn, Stops, Answers, Hears, Budgeted, Capped, Full;
    var f := u.flights[id];
    if f.run.None? {
      var all := f.past.done[0];
      forall i | 0 <= i < |all|
        ensures if i in f.past.asked then (i, all[i].1) in f.past.told else NeverAsked(f.past.limits, all[i].1)
      {
        assert SettledBy(all)[i] == Some(all[i].1);
        if i in f.past.asked {
          var k :| 0 <= k < |f.past.told| && f.past.told[k].0 == i;
          assert f.past.told[k] == (i, all[i].1);
        }
      }
    }
  }

  /** Over every run: an answer is every body byte heard for its own target before its stream ended,
      under the last head and plane heard for it; and the streams stopped are exactly those of
      targets that did not answer, in that order. */
  lemma AnswersAndStops(actions: seq<Action>, u: Table, id: nat)
    requires Runs(EMPTY, actions, u) && id in u.flights
    ensures var past := u.flights[id].past;
            && (forall k :: 0 <= k < |past.told| && past.told[k].1.Answered? ==>
                  exists n: nat :: AnsweredAt(past.heard, n, past.told[k].0, past.told[k].1.response))
            && past.stopped == StopsOf(id, past.told)
  {
    EveryRunKeeps(EMPTY, actions, u);
    hide Partition, InTurn, Capped, Opens, Tells, Shaped, Hears, Budgeted;
  }

  /** Every body byte heard, for any target. */
  function TotalHeard(heard: seq<(nat, ClientEvent)>): nat {
    if heard == [] then 0
    else
      var last := heard[|heard| - 1].1;
      TotalHeard(heard[..|heard| - 1]) + (if last.BodyEvent? then |last.bytes| else 0)
  }

  function SumHeard(heard: seq<(nat, ClientEvent)>, m: nat): nat {
    if m == 0 then 0 else SumHeard(heard, m - 1) + |BodyHeard(heard, m - 1)|
  }

  lemma {:induction false} SumSnoc(heard: seq<(nat, ClientEvent)>, i: nat, event: ClientEvent, m: nat)
    ensures SumHeard(heard + [(i, event)], m) ==
            SumHeard(heard, m) + (if i < m && event.BodyEvent? then |event.bytes| else 0)
  {
    if m > 0 {
      SumSnoc(heard, i, event, m - 1);
      HeardSnoc(heard, i, event, m - 1);
    }
  }

  lemma {:induction false} SumIsHeard(heard: seq<(nat, ClientEvent)>, m: nat)
    ensures SumHeard(heard, m) <= TotalHeard(heard)
  {
    if heard == [] {
      NothingHeard(m);
    } else {
      var front, last := heard[..|heard| - 1], heard[|heard| - 1];
      assert heard == front + [(last.0, last.1)];
      SumIsHeard(front, m);
      SumSnoc(front, last.0, last.1, m);
    }
  }

  lemma {:induction false} NothingHeard(m: nat)
    ensures SumHeard([], m) == 0
  {
    if m > 0 {
      NothingHeard(m - 1);
    }
  }

  lemma {:induction false} HeardGrows(heard: seq<(nat, ClientEvent)>, n: nat, i: nat)
    requires n <= |heard|
    ensures |BodyHeard(heard[..n], i)| <= |BodyHeard(heard, i)|
    decreases |heard|
  {
    if n < |heard| {
      var front := heard[..|heard| - 1];
      assert front[..n] == heard[..n];
      HeardGrows(front, n, i);
    } else {
      assert heard[..n] == heard;
    }
  }

  /** Answers hold no byte that was not heard, and each byte once. */
  lemma {:induction false} AnswersWereHeard(past: Record, all: seq<(Address, Outcome, Via)>)
    requires Answers(past)
    requires forall i :: 0 <= i < |all| ==> (i, all[i].1) in past.told || NeverAsked(past.limits, all[i].1)
    ensures AllBytes(all) <= SumHeard(past.heard, |all|)
    decreases |all|
  {
    hide Answers;
    if all != [] {
      var front, m := all[..|all| - 1], |all| - 1;
      AnswersWereHeard(past, front);
      OneAnswerWasHeard(past, m, all[m].1);
    }
  }

  lemma OneAnswerWasHeard(past: Record, i: nat, o: Outcome)
    requires Answers(past) && ((i, o) in past.told || NeverAsked(past.limits, o))
    ensures BodyLength(o) <= |BodyHeard(past.heard, i)|
  {
    if o.Answered? {
      var k :| 0 <= k < |past.told| && past.told[k] == (i, o);
      assert past.told[k].1.Answered?;
      var n: nat :| AnsweredAt(past.heard, n, i, o.response);
      HeardGrows(past.heard, n, i);
    }
  }

  /** Over every run, whatever order chunks of different targets come in: the answers `done` reports
      are together within the byte limit, for every limit below 2^64 - 1; and for that one too, where
      the check never fires, as long as no more than that was heard at all. */
  lemma AnswersWithinByteBudget(actions: seq<Action>, u: Table, id: nat)
    requires Runs(EMPTY, actions, u) && id in u.flights
    ensures var f := u.flights[id];
            f.run.None? ==>
              && |f.past.done| == 1
              && (f.past.limits.maxTotalBytes < U64_MAX || TotalHeard(f.past.heard) <= U64_MAX ==>
                    AllBytes(f.past.done[0]) <= f.past.limits.maxTotalBytes)
    ensures var f := u.flights[id];
            f.run.Some? && f.past.limits.maxTotalBytes < U64_MAX ==>
              Held(f.run.value, |f.run.value.plan.settled|) <= f.past.limits.maxTotalBytes
  {
    EveryRunKeeps(EMPTY, actions, u);
    DoneOnceWithEveryOutcome(actions, u, id);
    var f := u.flights[id];
    if f.run.None? {
      WithinLimits(id, f);
      AnswersWereHeard(f.past, f.past.done[0]);
      SumIsHeard(f.past.heard, |f.past.done[0]|);
    } else if f.past.limits.maxTotalBytes < U64_MAX {
      HeldWithinLimits(id, f);
    }
  }

  lemma WithinLimits(id: nat, f: Flight)
    requires FlightInv(id, f) && f.run.None?
    ensures |f.past.done| == 1 && Answers(f.past)
    ensures f.past.limits.maxTotalBytes < U64_MAX ==> AllBytes(f.past.done[0]) <= f.past.limits.maxTotalBytes
  {
    hide PlanInv, Opens, Tells, Stops, Answers, Hears;
  }

  lemma HeldWithinLimits(id: nat, f: Flight)
    requires FlightInv(id, f) && f.run.Some? && f.past.limits.maxTotalBytes < U64_MAX
    ensures Held(f.run.value, |f.run.value.plan.settled|) <= f.past.limits.maxTotalBytes
  {
    hide PlanInv, Opens, Tells, Stops, Answers, Hears;
  }

  // ---------------------------------------------------------------- time

  function Ticked(actions: seq<Action>): nat {
    if actions == [] then 0
    else (if actions[0].TickAll? then actions[0].ms else 0) + Ticked(actions[1..])
  }

  ghost predicate SomeTick(actions: seq<Action>) {
    exists k :: 0 <= k < |actions| && actions[k].TickAll?
  }

  /** One action: a fan-out over stays over; one in flight has exactly the tick's time more on its
      clock, and after a tick its limits are not zero. */
  lemma ClockStep(t: Table, a: Action, id: nat)
    requires TableInv(t) && Possible(t, a) && id in t.flights
    ensures var u := Apply(t, a);
            && id in u.flights
            && u.flights[id].past.limits == t.flights[id].past.limits
            && (u.flights[id].run.Some? ==>
                  && t.flights[id].run.Some?
                  && u.flights[id].past.clock == t.flights[id].past.clock + (if a.TickAll? then a.ms else 0)
                  && (a.TickAll? ==> !u.flights[id].past.limits.Zero()))
  {
    hide FlightInv, Settle, StopEach;
    var f := t.flights[id];
    match a
    case Start(_, _, _) => assert id <= t.last;
    case StreamEvent(j, i, event) =>
      if j == id && f.run.Some? { OnEventKeeps(id, f, i, event); EventKeepsClock(id, f, i, event); }
    case TickAll(ms) => TickKeeps(id, f, ms); TickKeepsLimits(id, f, ms);
    case FinishTask(j) =>
    case CancelTask(j) => if j == id { CancelKeeps(id, f); CancelKeepsLimits(id, f); }
  }

  lemma EventKeepsClock(id: nat, f: Flight, i: nat, event: ClientEvent)
    requires f.run.Some? && i < |f.run.value.vias|
    ensures OnEvent(id, f, i, event).past.clock == f.past.clock
    ensures OnEvent(id, f, i, event).past.limits == f.past.limits
  {
    hide Settle, AdmitMore, EndOutcome, WithBody, Counted, Over;
    SettleKeepsRecord();
  }

  lemma SettleKeepsRecord()
    ensures forall id, f: Flight, i, o, stop :: f.run.Some? ==>
              && Settle(id, f, i, o, stop).past.clock == f.past.clock
              && Settle(id, f, i, o, stop).past.limits == f.past.limits
  {
    forall id, f: Flight, i, o, stop | f.run.Some?
      ensures Settle(id, f, i, o, stop).past.clock == f.past.clock
      ensures Settle(id, f, i, o, stop).past.limits == f.past.limits
    {
      SettleRecord(id, f, i, o, stop);
    }
  }

  lemma {:induction false} StopEachKeepsLimits(id: nat, f: Flight, stops: seq<(nat, Outcome)>)
    ensures StopEach(id, f, stops).past.limits == f.past.limits
    decreases |stops|
  {
    hide Settle;
    if stops != [] {
      if f.run.Some? {
        SettleRecord(id, f, stops[0].0, stops[0].1, true);
      } else {
        SettledGone(id, f, stops[0].0, stops[0].1, true);
      }
      StopEachKeepsLimits(id, Settle(id, f, stops[0].0, stops[0].1, true), stops[1..]);
    }
  }

  lemma TickKeepsLimits(id: nat, f: Flight, ms: u32)
    ensures Tick(id, f, ms).past.limits == f.past.limits
    ensures f.run.None? ==> Tick(id, f, ms) == f
  {
    hide StopEach, Due, Elapsed;
    if f.run.Some? {
      var p := f.run.value.plan;
      StopEachKeepsLimits(id, Flight(Some(f.run.value.(plan := Elapsed(p, ms))),
                                     f.past.(clock := f.past.clock + ms)), Due(p, ms));
    }
  }

  lemma CancelKeepsLimits(id: nat, f: Flight)
    ensures CancelAll(id, f).past.limits == f.past.limits
  {
    hide StopEach, StoppedWaiting;
    if f.run.Some? {
      var q := StoppedWaiting(f.run.value.plan);
      StopEachKeepsLimits(id, Flight(Some(f.run.value.(plan := q)), f.past),
                          Paired(InOrder(q.running.Keys, |q.settled|), Skipped));
    }
  }

  lemma {:induction false} ClockOverRun(t: Table, actions: seq<Action>, u: Table, id: nat)
    requires TableInv(t) && Runs(t, actions, u) && id in t.flights
    ensures id in u.flights && TableInv(u) && u.flights[id].past.limits == t.flights[id].past.limits
    ensures u.flights[id].run.Some? ==>
              && t.flights[id].run.Some?
              && u.flights[id].past.clock == t.flights[id].past.clock + Ticked(actions)
              && (SomeTick(actions) ==> !u.flights[id].past.limits.Zero())
    decreases |actions|
  {
    hide FlightInv, Apply;
    if actions != [] {
      var a, rest := actions[0], actions[1..];
      ApplyKeeps(t, a);
      ClockStep(t, a, id);
      ClockOverRun(Apply(t, a), rest, u, id);
      if SomeTick(actions) && !a.TickAll? {
        var k :| 0 <= k < |actions| && actions[k].TickAll?;
        assert rest[k - 1].TickAll?;
      }
    }
  }

  /** Over every run: once ticks summing to the budget have passed, whatever came between them, the
      fan-out is over and `done` has run; until then each running target has run for less than its
      own limit. The counters saturate at 2^32 - 1, which no limit exceeds. */
  lemma TimeBudgetEndsIt(before: seq<Action>, t: Table, actions: seq<Action>, u: Table, id: nat)
    requires Runs(EMPTY, before, t) && id in t.flights
    requires Runs(t, actions, u)
    ensures id in u.flights
    ensures Ticked(actions) >= t.flights[id].past.limits.budgetMs && SomeTick(actions) ==>
              u.flights[id].run.None? && |u.flights[id].past.done| == 1
    ensures u.flights[id].run.Some? && !t.flights[id].past.limits.Zero() ==>
              var p := u.flights[id].run.value.plan;
              && u.flights[id].past.clock < p.limits.budgetMs
              && (forall i :: i in p.running ==> p.running[i] < p.limits.perCallMs)
  {
    EveryRunKeeps(EMPTY, before, t);
    ClockOverRun(t, actions, u, id);
    hide PlanInv, Opens, Tells, Stops, Answers, Hears, Budgeted, Full;
    assert FlightInv(id, u.flights[id]);
  }
}
