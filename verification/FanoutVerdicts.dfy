/** What each target of a fan-out is told, exactly: over every run, an action tells a target an
    outcome if and only if the target is asked and untold and what was heard of it, or the time that
    passed, comes to that outcome. What is asked, when the fan-out ends and what `done` reports are as
    exact. Nothing here looks at the fan-out's bookkeeping, only at its record. */
module FanoutVerdicts {
  import opened Basics
  import opened Frames
  import opened FanoutPlan
  import opened Fanout
  import opened FanoutTable

  // ---------------------------------------------------------------- what a record comes to

  /** The plane `i` is reported with: that of the last head heard for it, or else the one its
      transport tries first. */
  function PlaneHeard(past: Record, i: nat): Via {
    if HeadHeard(past.heard, i).Some? then HeadHeard(past.heard, i).value.1
    else if past.transport == OnRelay then Relay else P2p
  }

  /** What an event of `i`'s stream comes to, after what was heard before: a whole answer, a refusal,
      or nothing yet. */
  ghost function Coming(past: Record, i: nat, event: ClientEvent): Option<Outcome> {
    match event
    case HeadEvent(_, _) => None
    case BodyEvent(bytes) =>
      if TotalHeard(past.heard) + |bytes| > past.limits.maxTotalBytes && past.limits.maxTotalBytes < U64_MAX
      then Some(Failed(Refused.Limit("fanout_bytes"))) else None
    case EndEvent =>
      if HeadHeard(past.heard, i).None? then Some(Failed(Refused.Unavailable("response without a head")))
      else
        var (head, via) := HeadHeard(past.heard, i).value;
        Some(Answered(Response(head, via, BodyHeard(past.heard, i))))
    case FailedEvent(why) => Some(Failed(why))
  }

  /** What an action comes to for target `i` of fan-out `id`, which has been asked for `ran`. */
  ghost function Earned(past: Record, id: nat, i: nat, ran: nat, a: Action): Option<Outcome> {
    match a
    case StreamEvent(j, k, event) => if j == id && k == i then Coming(past, i, event) else None
    case TickAll(ms) =>
      if past.clock + ms >= past.limits.budgetMs then Some(Skipped)
      else if ran + ms >= past.limits.perCallMs then Some(Failed(Refused.Limit("fanout_per_call_ms")))
      else None
    case CancelTask(j) => if j == id then Some(Skipped) else None
    case _ => None
  }

  /** The ticks that came while target `i` of fan-out `id` was asked. */
  ghost function RanFor(t: Table, actions: seq<Action>, id: nat, i: nat): nat
    decreases |actions|
  {
    if actions == [] then 0
    else
      var asked := id in t.flights && i in t.flights[id].past.asked;
      (if actions[0].TickAll? && asked then actions[0].ms else 0) + RanFor(Apply(t, actions[0]), actions[1..], id, i)
  }

  /** Asked, and told nothing yet. */
  ghost predicate Pending(past: Record, i: nat) {
    i in past.asked && i !in ToldOf(past.told)
  }

  /** Everyone has an outcome. */
  ghost predicate AllSaid(past: Record) {
    past.limits.Zero() || forall i: nat :: i < |past.targets| ==> i in ToldOf(past.told)
  }

  // ---------------------------------------------------------------- what a flight keeps besides

  /** The planes held are those heard; a report has them too. */
  ghost predicate Planes(f: Flight) {
    match f.run
    case Some(r) => forall i: nat :: i < |r.vias| ==> r.vias[i] == PlaneHeard(f.past, i)
    case None =>
      f.past.done != [] && forall i: nat :: i < |f.past.done[0]| ==> f.past.done[0][i].2 == PlaneHeard(f.past, i)
  }

  /** The byte counter is every byte heard. */
  ghost predicate Counts(f: Flight) {
    f.run.Some? ==> f.run.value.plan.bytes == Min(TotalHeard(f.past.heard), U64_MAX)
  }

  /** Targets are asked from the first on; nobody is asked only where there is nobody, or a limit is
      zero. */
  ghost predicate FromTheFirst(past: Record) {
    && (forall k :: 0 <= k < |past.asked| ==> past.asked[k] == k)
    && (past.asked == [] <==> past.targets == [] || past.limits.Zero())
  }

  /** ... and the others wait in order; in flight nobody is settled
      without being told, and somebody is not settled. */
  ghost predicate InFlight(p: PlanState, past: Record) {
    && FromTheFirst(past)
    && (!past.limits.Zero() ==>
          && |past.asked| + |p.waiting| == |past.targets|
          && (forall k :: 0 <= k < |p.waiting| ==> p.waiting[k] == |past.asked| + k)
          && (forall i: nat :: i < |p.settled| && p.settled[i].Some? ==> i in ToldOf(past.told))
          && (past.told != [] ==> !IsDone(p)))
  }

  ghost predicate AsksInTurn(f: Flight) {
    if f.run.Some? then InFlight(f.run.value.plan, f.past)
    else FromTheFirst(f.past)
  }

  ghost predicate Exact(f: Flight) {
    Planes(f) && Counts(f) && AsksInTurn(f)
  }

  ghost predicate TableExact(t: Table) {
    forall id :: id in t.flights ==> Exact(t.flights[id])
  }

  // ---------------------------------------------------------------- settling one target

  /** What settling an open target comes to. */
  lemma SettleIs(id: nat, f: Flight, i: nat, o: Outcome, stop: bool)
    requires f.run.Some? && Open(f.run.value.plan, i)
    ensures var g, p, q := Settle(id, f, i, o, stop), f.run.value.plan, Settled(f.run.value.plan, i, o);
            && g.past.told == f.past.told + [(i, o)]
            && g.past.heard == f.past.heard && g.past.limits == f.past.limits
            && g.past.transport == f.past.transport && g.past.targets == f.past.targets
            && g.past.asked == f.past.asked + q.waiting[..Room(q)]
            && (g.run.None? <==> IsDone(Admitted(q)))
            && (g.run.Some? ==>
                  && g.run.value.plan == Admitted(q) && g.run.value.vias == f.run.value.vias
                  && g.past.done == f.past.done)
            && (g.run.None? ==> exists r: Run :: r.vias == f.run.value.vias && g.past.done == f.past.done + [Report(r)])
  {
    hide Admitted, Settled, Report, IsDone, Room;
    var h := AdmitMore(id, Recorded(f, i, o, stop));
    assert h.run.value.vias == f.run.value.vias;
  }

  lemma ReportedPlanes(r: Run, i: nat)
    requires i < |Report(r)|
    ensures i < |r.vias| && Report(r)[i].2 == r.vias[i]
  {
  }

  lemma SamePlanes(f: Flight, g: Flight)
    requires Planes(f) && f.run.Some? && f.past.done == []
    requires g.past.heard == f.past.heard && g.past.transport == f.past.transport
    requires g.run.Some? ==> g.run.value.vias == f.run.value.vias
    requires g.run.None? ==> exists r: Run :: r.vias == f.run.value.vias && g.past.done == f.past.done + [Report(r)]
    ensures Planes(g)
  {
    if g.run.None? {
      var r: Run :| r.vias == f.run.value.vias && g.past.done == f.past.done + [Report(r)];
      forall i: nat | i < |g.past.done[0]| ensures g.past.done[0][i].2 == PlaneHeard(g.past, i) {
        ReportedPlanes(r, i);
      }
    }
  }

  lemma SettlePlanes(id: nat, f: Flight, i: nat, o: Outcome, stop: bool)
    requires f.run.Some? && f.past.done == [] && Planes(f) && Counts(f)
    ensures Planes(Settle(id, f, i, o, stop)) && Counts(Settle(id, f, i, o, stop))
  {
    hide Planes, Settle, Report, IsDone, Room;
    if Open(f.run.value.plan, i) {
      SettleIs(id, f, i, o, stop);
      SamePlanes(f, Settle(id, f, i, o, stop));
    } else {
      SettledAlready(id, f, i, o, stop);
    }
  }

  lemma SettleInTurn(id: nat, f: Flight, i: nat, o: Outcome, stop: bool)
    requires f.run.Some? && PlanInv(f.run.value.plan) && InFlight(f.run.value.plan, f.past)
    requires Open(f.run.value.plan, i) ==> i in f.run.value.plan.running
    requires f.run.value.plan.limits == f.past.limits && |f.run.value.plan.settled| == |f.past.targets|
    ensures var g := Settle(id, f, i, o, stop); AsksInTurn(g) && (g.run.None? ==> AllSaid(g.past))
  {
    hide Settle, Report, IsDone, Settled;
    if Open(f.run.value.plan, i) {
      SettleIs(id, f, i, o, stop);
      var g := Settle(id, f, i, o, stop);
      SettledInTurn(f.run.value.plan, f.past, g.past, i, o);
      if g.run.None? {
        DoneIsSaid(f.run.value.plan, f.past, g.past, i, o);
      }
    } else {
      SettledAlready(id, f, i, o, stop);
    }
  }

  lemma SettledInTurn(p: PlanState, past: Record, next: Record, i: nat, o: Outcome)
    requires PlanInv(p) && Open(p, i) && i in p.running && InFlight(p, past)
    requires p.limits == past.limits && |p.settled| == |past.targets|
    requires var q := Settled(p, i, o);
             next.told == past.told + [(i, o)] && next.asked == past.asked + q.waiting[..Room(q)]
    requires next.limits == past.limits && next.targets == past.targets
    ensures FromTheFirst(next)
    ensures !IsDone(Admitted(Settled(p, i, o))) ==> InFlight(Admitted(Settled(p, i, o)), next)
  {
    var q := Settled(p, i, o);
    assert q.waiting == p.waiting;
    ToldSnoc(past.told, i, o);
    if past.limits.Zero() {
      assert false;
    }
  }

  // ---------------------------------------------------------------- stopping several

  /** Each of several open targets is told what it is stopped with, in order. */
  lemma {:induction false} StopEachTells(id: nat, f: Flight, stops: seq<(nat, Outcome)>)
    requires stops != [] ==> f.run.Some?
    requires forall k :: 0 <= k < |stops| ==> Open(f.run.value.plan, stops[k].0)
    requires forall k, l :: 0 <= k < l < |stops| ==> stops[k].0 != stops[l].0
    ensures StopEach(id, f, stops).past.told == f.past.told + stops
    decreases |stops|
  {
    hide Settle, Report, Room;
    if stops != [] {
      var i, o, rest := stops[0].0, stops[0].1, stops[1..];
      var q := Admitted(Settled(f.run.value.plan, i, o));
      SettleIs(id, f, i, o, true);
      forall k | 0 <= k < |rest| ensures Open(q, rest[k].0) {
        assert rest[k] == stops[k + 1];
      }
      StopEachTells(id, Settle(id, f, i, o, true), rest);
      assert stops == [(i, o)] + rest;
    }
  }

  /** Stopping keeps what was heard and the planes, and what it ends it reports with them. */
  lemma {:induction false} StopEachPlanes(id: nat, f: Flight, stops: seq<(nat, Outcome)>)
    requires Stopping(id, f, stops) && Planes(f) && Counts(f)
    ensures Planes(StopEach(id, f, stops)) && Counts(StopEach(id, f, stops))
    decreases |stops|
  {
    hide Landed, Settle, StillDue, Draining, PlanFollows, Planes, Counts;
    if stops != [] {
      if f.run.None? {
        SettledGone(id, f, stops[0].0, stops[0].1, true);
      } else {
        OneStop(id, f, stops);
        NotDoneYet(id, f);
        SettlePlanes(id, f, stops[0].0, stops[0].1, true);
      }
      StopEachPlanes(id, Settle(id, f, stops[0].0, stops[0].1, true), stops[1..]);
    }
  }

  lemma NotDoneYet(id: nat, f: Flight)
    requires Landed(id, f) && f.run.Some?
    ensures f.past.done == [] && PlanInv(f.run.value.plan) && f.run.value.plan.limits == f.past.limits
    ensures |f.run.value.vias| == |f.past.targets| == |f.run.value.plan.settled|
    ensures forall i :: Pending(f.past, i) <==> i in f.run.value.plan.running
  {
    hide InTurn, Capped, Stops, Answers, Hears, Budgeted, Full;
    forall i | i in f.run.value.plan.running ensures i !in ToldOf(f.past.told) {
      assert Open(f.run.value.plan, i);
      assert forall k :: 0 <= k < |f.past.told| ==> !Open(f.run.value.plan, f.past.told[k].0);
    }
  }

  /** Where stopping ends a flight in turn, everyone has an outcome. */
  lemma {:induction false} StopEachInTurn(id: nat, f: Flight, stops: seq<(nat, Outcome)>)
    requires Stopping(id, f, stops) && AsksInTurn(f)
    ensures var g := StopEach(id, f, stops);
            AsksInTurn(g) && (f.run.Some? && g.run.None? ==> AllSaid(g.past))
    decreases |stops|
  {
    hide Landed, Settle, StillDue, Draining, PlanFollows, InFlight, AllSaid;
    if stops != [] {
      var i, o := stops[0].0, stops[0].1;
      if f.run.None? {
        SettledGone(id, f, i, o, true);
      } else {
        OneStop(id, f, stops);
        NotDoneYet(id, f);
        RunningOrSettled(f.run.value.plan, stops);
        SettleInTurn(id, f, i, o, true);
      }
      var g := Settle(id, f, i, o, true);
      StopEachInTurn(id, g, stops[1..]);
      if g.run.None? {
        StopEachGone(id, g, stops[1..]);
      }
    }
  }

  lemma {:induction false} StopEachGone(id: nat, f: Flight, stops: seq<(nat, Outcome)>)
    requires f.run.None?
    ensures StopEach(id, f, stops) == f
    decreases |stops|
  {
    if stops != [] {
      SettledGone(id, f, stops[0].0, stops[0].1, true);
      StopEachGone(id, f, stops[1..]);
    }
  }

  /** The same targets have been asked as before, from the first on. */
  lemma {:induction false} StopEachAsks(id: nat, f: Flight, stops: seq<(nat, Outcome)>)
    requires Stopping(id, f, stops) && (f.run.Some? ==> f.run.value.plan.waiting == [])
    ensures StopEach(id, f, stops).past.asked == f.past.asked
    decreases |stops|
  {
    hide Landed, Settle, StillDue, Draining, PlanFollows, Report, IsDone;
    if stops != [] {
      var i, o := stops[0].0, stops[0].1;
      if f.run.None? {
        SettledGone(id, f, i, o, true);
      } else {
        OneStop(id, f, stops);
        if Open(f.run.value.plan, i) {
          SettleIs(id, f, i, o, true);
        } else {
          SettledAlready(id, f, i, o, true);
        }
      }
      StopEachAsks(id, Settle(id, f, i, o, true), stops[1..]);
    }
  }

  // ---------------------------------------------------------------- each action keeps it

  lemma HeardOne(past: Record, i: nat, event: ClientEvent)
    ensures var next := past.(heard := past.heard + [(i, event)]);
            && TotalHeard(next.heard) == TotalHeard(past.heard) + (if event.BodyEvent? then |event.bytes| else 0)
            && (forall j :: PlaneHeard(next, j) ==
                  if j == i && event.HeadEvent? then event.via else PlaneHeard(past, j))
  {
    var heard := past.heard + [(i, event)];
    assert heard[..|past.heard|] == past.heard;
    forall j ensures HeadHeard(heard, j) ==
                if j == i && event.HeadEvent? then Some((event.head, event.via)) else HeadHeard(past.heard, j)
    {
      HeardSnoc(past.heard, i, event, j);
    }
  }

  /** A flight with one event heard, counted if it is a chunk. */
  function Hearing(f: Flight, i: nat, event: ClientEvent): Flight
    requires f.run.Some? && i < |f.run.value.vias|
  {
    var r := f.run.value;
    Flight(Some(r.(vias := if event.HeadEvent? then r.vias[i := event.via] else r.vias,
                   plan := if event.BodyEvent? then Counted(r.plan, |event.bytes|) else r.plan)),
           f.past.(heard := f.past.heard + [(i, event)]))
  }

  lemma HearingKeeps(f: Flight, i: nat, event: ClientEvent)
    requires f.run.Some? && i < |f.run.value.vias| && Exact(f)
    ensures Exact(Hearing(f, i, event))
  {
    HeardOne(f.past, i, event);
    var p, q := f.run.value.plan, Hearing(f, i, event).run.value.plan;
    assert IsDone(q) ==> IsDone(p);
  }

  /** What an event does, apart from the partial answers it keeps: the target may settle. */
  lemma EventIs(id: nat, f: Flight, i: nat, event: ClientEvent) returns (partial: map<nat, Partial>, stop: bool)
    requires f.run.Some? && i < |f.run.value.vias|
    requires i in f.run.value.plan.running ==> Knows(f.run.value, f.past.heard, i)
    requires f.run.value.plan.bytes == Min(TotalHeard(f.past.heard), U64_MAX)
    requires f.run.value.plan.limits == f.past.limits
    requires Open(f.run.value.plan, i) <==> i in f.run.value.plan.running
    ensures var h, o := Hearing(f, i, event), Coming(f.past, i, event);
            var held := h.(run := Some(h.run.value.(partial := partial)));
            OnEvent(id, f, i, event) ==
              if o.Some? && Open(h.run.value.plan, i) then Settle(id, held, i, o.value, stop) else held
  {
    hide Settle, BodyHeard, HeadHeard, TotalHeard;
    var r := f.run.value;
    var h := Hearing(f, i, event);
    var o := Coming(f.past, i, event);
    partial, stop := r.partial, true;
    match event {
      case HeadEvent(head, _) => partial := r.partial[i := PartialOf(r, i).(head := Some(head))];
      case BodyEvent(bytes) =>
        partial := WithBody(r, i, bytes);
        OverIsExact(r.plan, |bytes|, i);
      case EndEvent =>
        partial := r.partial - {i};
        stop := !EndOutcome(r, i).Answered?;
      case FailedEvent(_) =>
    }
    var held := h.(run := Some(h.run.value.(partial := partial)));
    if !Open(h.run.value.plan, i) && (event.EndEvent? || event.FailedEvent?) {
      SettledAlready(id, held, i, if event.EndEvent? then EndOutcome(r, i) else Failed(event.why), stop);
    }
  }

  lemma EventExact(id: nat, f: Flight, i: nat, event: ClientEvent)
    requires FlightInv(id, f) && f.run.Some? && CanHear(f, i) && Exact(f)
    ensures i < |f.run.value.vias|
    ensures Exact(OnEvent(id, f, i, event))
    ensures OnEvent(id, f, i, event).past.told == f.past.told +
            if Pending(f.past, i) && Coming(f.past, i, event).Some? then [(i, Coming(f.past, i, event).value)] else []
    ensures RecordKept(f.past, OnEvent(id, f, i, event).past)
    ensures OnEvent(id, f, i, event).run.None? ==> AllSaid(OnEvent(id, f, i, event).past)
  {
    hide Landed, OnTime, Settle, OnEvent, Coming, PlanInv, Exact, Report, AllSaid, ToldOf, IsDone, Admitted, Settled;
    AskedIsKnown(id, f, i);
    NotDoneYet(id, f);
    RunningIsKnown(id, f, i);
    ExactCounts(f);
    HearingKeeps(f, i, event);
    var partial, stop := EventIs(id, f, i, event);
    var h, o := Hearing(f, i, event), Coming(f.past, i, event);
    var held := h.(run := Some(h.run.value.(partial := partial)));
    PartialAside(h, partial);
    if o.Some? && Open(h.run.value.plan, i) {
      CountedInv(f.run.value.plan, h.run.value.plan);
      SettleExact(id, held, i, o.value, stop);
      SettleIs(id, held, i, o.value, stop);
    }
  }

  lemma ExactCounts(f: Flight)
    requires Exact(f) && f.run.Some?
    ensures f.run.value.plan.bytes == Min(TotalHeard(f.past.heard), U64_MAX)
  {
  }

  lemma RunningIsKnown(id: nat, f: Flight, i: nat)
    requires FlightInv(id, f) && f.run.Some?
    ensures i in f.run.value.plan.running ==> Knows(f.run.value, f.past.heard, i)
  {
    hide PlanInv, Shaped, Opens, Tells, Stops, Answers, Budgeted, Full;
  }

  lemma CountedInv(p: PlanState, q: PlanState)
    requires PlanInv(p) && q == p.(bytes := q.bytes)
    ensures PlanInv(q) && forall i :: Open(q, i) <==> Open(p, i)
  {
    assert forall i :: Open(q, i) <==> Open(p, i);
  }

  /** The partial answers do not matter here. */
  lemma PartialAside(f: Flight, partial: map<nat, Partial>)
    requires f.run.Some?
    ensures Exact(f) ==> Exact(f.(run := Some(f.run.value.(partial := partial))))
  {
  }

  lemma SettleExact(id: nat, f: Flight, i: nat, o: Outcome, stop: bool)
    requires f.run.Some? && f.past.done == [] && Exact(f)
    requires PlanInv(f.run.value.plan) && f.run.value.plan.limits == f.past.limits
    requires |f.run.value.plan.settled| == |f.past.targets|
    requires Open(f.run.value.plan, i) && i in f.run.value.plan.running
    ensures Exact(Settle(id, f, i, o, stop))
    ensures Settle(id, f, i, o, stop).run.None? ==> AllSaid(Settle(id, f, i, o, stop).past)
  {
    hide Settle, Planes, Counts, AsksInTurn, InFlight, AllSaid, IsDone, Settled, Report;
    SettlePlanes(id, f, i, o, stop);
    ExactInTurn(f);
    SettleInTurn(id, f, i, o, stop);
    SettleIs(id, f, i, o, stop);
  }

  lemma ExactInTurn(f: Flight)
    requires Exact(f) && f.run.Some?
    ensures InFlight(f.run.value.plan, f.past) && AsksInTurn(f) && Planes(f) && Counts(f)
  {
  }

  lemma DoneIsSaid(p: PlanState, past: Record, next: Record, i: nat, o: Outcome)
    requires Open(p, i) && InFlight(p, past) && next.told == past.told + [(i, o)]
    requires next.limits == past.limits && next.targets == past.targets && |p.settled| == |past.targets|
    requires IsDone(Admitted(Settled(p, i, o)))
    ensures AllSaid(next)
  {
    ToldSnoc(past.told, i, o);
    var q := Settled(p, i, o);
    forall j: nat | j < |past.targets| && !past.limits.Zero() ensures j in ToldOf(next.told) {
      assert q.settled[j].Some?;
    }
  }

  /** What an action leaves of a record as it was, and what it only adds to. */
  ghost predicate RecordKept(a: Record, b: Record) {
    && b.limits == a.limits && b.transport == a.transport && b.targets == a.targets
    && a.told <= b.told && a.asked <= b.asked && a.heard <= b.heard
  }

  lemma {:induction false} StopEachKept(id: nat, f: Flight, stops: seq<(nat, Outcome)>)
    ensures var g := StopEach(id, f, stops); RecordKept(f.past, g.past) && g.past.heard == f.past.heard
    decreases |stops|
  {
    hide Settle, Report, Room;
    if stops != [] {
      var i, o := stops[0].0, stops[0].1;
      if f.run.None? || !Open(f.run.value.plan, i) {
        assert Settle(id, f, i, o, true) == f by { SettledNothing(id, f, i, o); }
      } else {
        SettleIs(id, f, i, o, true);
      }
      StopEachKept(id, Settle(id, f, i, o, true), stops[1..]);
    }
  }

  lemma SettledNothing(id: nat, f: Flight, i: nat, o: Outcome)
    requires f.run.None? || !Open(f.run.value.plan, i)
    ensures Settle(id, f, i, o, true) == f
  {
  }

  lemma FinishExact(f: Flight)
    requires Planes(f) && Counts(f) && (f.run.Some? ==> f.past.done == [])
    requires FromTheFirst(f.past)
    requires FinishIfDone(f).run.Some? ==> AsksInTurn(f)
    ensures Exact(FinishIfDone(f)) && RecordKept(f.past, FinishIfDone(f).past)
    ensures var g := FinishIfDone(f);
            g.past.told == f.past.told && g.past.asked == f.past.asked && g.past.heard == f.past.heard
  {
    hide InFlight, Planes, Report;
    if f.run.Some? && IsDone(f.run.value.plan) {
      SamePlanes(f, FinishIfDone(f));
    }
  }

  /** A flight whose clock moved: what it is to stop. */
  function Ticking(f: Flight, ms: u32): Flight
    requires f.run.Some?
  {
    Flight(Some(f.run.value.(plan := Elapsed(f.run.value.plan, ms))), f.past.(clock := f.past.clock + ms))
  }

  lemma TickingStops(id: nat, f: Flight, ms: u32)
    requires FlightInv(id, f) && f.run.Some?
    ensures Stopping(id, Ticking(f, ms), Due(f.run.value.plan, ms))
    ensures f.past.clock + ms >= f.past.limits.budgetMs ==>
              Draining(Elapsed(f.run.value.plan, ms), Due(f.run.value.plan, ms))
    ensures Elapsed(f.run.value.plan, ms).elapsedMs >= f.past.limits.budgetMs <==>
              f.past.clock + ms >= f.past.limits.budgetMs
  {
    hide Partition, InTurn, Capped, Opens, Tells, Stops, Answers, Hears, Budgeted, Full, StopEach, Draining, Report,
      Due, Elapsed, StillDue, FinishIfDone, Finished, Follows;
    var p := f.run.value.plan;
    ElapsedKeeps(p, ms);
    ElapsedPasses(p, ms);
    TimePassesLands(id, f, Elapsed(p, ms), f.past.clock + ms);
    AllOnTime(p);
    DueIsDue(p, ms);
    ElapsedClock(p, ms, f.past.clock);
  }

  lemma DueOnce(p: PlanState, ms: u32)
    requires Partition(p)
    ensures forall k :: 0 <= k < |Due(p, ms)| ==> Open(Elapsed(p, ms), Due(p, ms)[k].0)
    ensures forall k, l :: 0 <= k < l < |Due(p, ms)| ==> Due(p, ms)[k].0 < Due(p, ms)[l].0
  {
    var q := Elapsed(p, ms);
    var s := if q.elapsedMs >= q.limits.budgetMs
             then InOrder(q.running.Keys, |q.settled|) else InOrder(Late(q), |q.settled|);
    forall k | 0 <= k < |Due(p, ms)| ensures Due(p, ms)[k].0 == s[k] && Open(q, s[k]) {
      assert s[k] in s;
      assert s[k] in p.running && Open(p, s[k]);
    }
  }

  /** Who is stopped, and with what: past the budget everyone who runs; before it, who ran too long. */
  lemma DueExactly(p: PlanState, ms: u32, i: nat, o: Outcome)
    requires Partition(p)
    ensures (i, o) in Due(p, ms) <==>
              && i in p.running
              && if p.elapsedMs + ms >= p.limits.budgetMs then o == Skipped
                 else p.running[i] + ms >= p.limits.perCallMs && o == Failed(PER_CALL)
  {
    var q := Elapsed(p, ms);
    var all := q.elapsedMs >= q.limits.budgetMs;
    var s := if all then InOrder(q.running.Keys, |q.settled|) else InOrder(Late(q), |q.settled|);
    assert i in p.running ==> Open(p, i);
    assert i in s <==> i in p.running && (all || p.running[i] + ms >= p.limits.perCallMs);
    var due := Due(p, ms);
    assert due == Paired(s, if all then Skipped else Failed(PER_CALL));
    if i in s {
      var k :| 0 <= k < |s| && s[k] == i;
      assert due[k].0 == i;
    }
  }

  lemma TickingExact(f: Flight, ms: u32)
    requires f.run.Some? && Exact(f) && PlanInv(f.run.value.plan) && f.run.value.plan.limits == f.past.limits
    ensures var h := Ticking(f, ms);
            && Planes(h) && Counts(h)
            && FromTheFirst(h.past)
            && if h.run.value.plan.elapsedMs >= f.past.limits.budgetMs then h.run.value.plan.waiting == []
               else AsksInTurn(h)
  {
    ElapsedPasses(f.run.value.plan, ms);
    var p, q := f.run.value.plan, Elapsed(f.run.value.plan, ms);
    assert q.elapsedMs < q.limits.budgetMs && IsDone(q) ==> IsDone(p);
  }

  lemma StopEachLands(id: nat, f: Flight, stops: seq<(nat, Outcome)>)
    requires Stopping(id, f, stops)
    ensures var g := StopEach(id, f, stops);
            Landed(id, g) && (g.run.Some? ==> g.past.done == [] && |g.run.value.plan.settled| == |g.past.targets|)
  {
    StoppedEach(id, f, stops);
    hide Landed, StopEach;
    if StopEach(id, f, stops).run.Some? {
      NotDoneYet(id, StopEach(id, f, stops));
    }
  }

  /** Done in turn, everyone has an outcome. */
  lemma FinishSays(f: Flight)
    requires f.run.Some? && InFlight(f.run.value.plan, f.past) && |f.run.value.plan.settled| == |f.past.targets|
    ensures FinishIfDone(f).run.None? ==> AllSaid(f.past)
  {
  }

  lemma TurnsKept(f: Flight)
    requires AsksInTurn(f)
    ensures FromTheFirst(f.past)
    ensures f.run.Some? ==> InFlight(f.run.value.plan, f.past)
  {
  }

  lemma TickExact(id: nat, f: Flight, ms: u32)
    requires FlightInv(id, f) && f.run.Some? && Exact(f)
    ensures var g := Tick(id, f, ms);
            && Exact(g) && RecordKept(f.past, g.past) && g.past.heard == f.past.heard
            && g.past.told == f.past.told + Due(f.run.value.plan, ms)
            && (f.past.clock + ms >= f.past.limits.budgetMs ==> g.run.None?)
            && (f.past.clock + ms < f.past.limits.budgetMs && g.run.None? ==> AllSaid(g.past))
  {
    hide Landed, OnTime, Due, Elapsed, StillDue, Draining, StopEach, FinishIfDone, Planes, Counts, AsksInTurn, InFlight,
      IsDone, Partition, PlanFollows;
    var p, h, stops := f.run.value.plan, Ticking(f, ms), Due(f.run.value.plan, ms);
    NotDoneYet(id, f);
    TickingStops(id, f, ms);
    TickingExact(f, ms);
    DueOnce(p, ms);
    StopEachTells(id, h, stops);
    StopEachPlanes(id, h, stops);
    StopEachKept(id, h, stops);
    StopsDone(id, h, stops);
    var g := StopEach(id, h, stops);
    if f.past.clock + ms >= f.past.limits.budgetMs {
      StopEachAsks(id, h, stops);
    } else {
      StopEachInTurn(id, h, stops);
      TurnsKept(g);
      StopEachLands(id, h, stops);
      if g.run.Some? {
        FinishSays(g);
      }
    }
    StopEachLands(id, h, stops);
    FinishExact(g);
  }

  lemma CancelExact(id: nat, f: Flight)
    requires FlightInv(id, f) && f.run.Some? && Exact(f)
    ensures var g, p := CancelAll(id, f), f.run.value.plan;
            && Exact(g) && RecordKept(f.past, g.past) && g.past.heard == f.past.heard && g.run.None?
            && g.past.told == f.past.told + Paired(InOrder(p.running.Keys, |p.settled|), Skipped)
  {
    hide Landed, OnTime, StillDue, Draining, StopEach, FinishIfDone, Planes, Counts, AsksInTurn, InFlight, IsDone,
      Partition, PlanFollows;
    var p, q := f.run.value.plan, StoppedWaiting(f.run.value.plan);
    var h := Flight(Some(f.run.value.(plan := q)), f.past);
    var stops := Paired(InOrder(q.running.Keys, |q.settled|), Skipped);
    NotDoneYet(id, f);
    CancelStops(id, f);
    SkippingExact(f);
    RunningOnce(q);
    StopEachTells(id, h, stops);
    StopEachPlanes(id, h, stops);
    StopEachKept(id, h, stops);
    StopsDone(id, h, stops);
    StopEachAsks(id, h, stops);
    StopEachLands(id, h, stops);
    FinishExact(StopEach(id, h, stops));
  }

  lemma CancelStops(id: nat, f: Flight)
    requires FlightInv(id, f) && f.run.Some?
    ensures var q := StoppedWaiting(f.run.value.plan);
            var stops := Paired(InOrder(q.running.Keys, |q.settled|), Skipped);
            && Stopping(id, Flight(Some(f.run.value.(plan := q)), f.past), stops)
            && Draining(q, stops) && PlanInv(q)
  {
    hide Partition, InTurn, Capped, Opens, Tells, Stops, Answers, Hears, Budgeted, Full, Draining, StillDue, Finished,
      StoppedWaiting;
    var p := f.run.value.plan;
    StoppedWaitingKeeps(p);
    StoppedWaitingPasses(p);
    TimePassesLands(id, f, StoppedWaiting(p), f.past.clock);
    CancelDue(p);
  }

  lemma SkippingExact(f: Flight)
    requires f.run.Some? && Exact(f)
    ensures var h := Flight(Some(f.run.value.(plan := StoppedWaiting(f.run.value.plan))), f.past);
            && Planes(h) && Counts(h) && h.run.value.plan.waiting == []
            && FromTheFirst(h.past)
  {
  }

  lemma RunningOnce(q: PlanState)
    requires Partition(q)
    ensures var stops := Paired(InOrder(q.running.Keys, |q.settled|), Skipped);
            && (forall k :: 0 <= k < |stops| ==> Open(q, stops[k].0))
            && (forall k, l :: 0 <= k < l < |stops| ==> stops[k].0 < stops[l].0)
            && (forall i, o :: (i, o) in stops <==> i in q.running && o == Skipped)
  {
    var s := InOrder(q.running.Keys, |q.settled|);
    var stops := Paired(s, Skipped);
    forall k | 0 <= k < |stops| ensures stops[k].0 == s[k] && Open(q, s[k]) {
      assert s[k] in s;
    }
    forall i, o | i in q.running && o == Skipped ensures (i, o) in stops {
      assert Open(q, i) && i in s;
      var k :| 0 <= k < |s| && s[k] == i;
      assert stops[k] == (i, o);
    }
  }

  lemma LaunchExact(id: nat, targets: seq<Address>, transport: Transport, limits: Limits)
    ensures var f := Launched(id, targets, transport, limits);
            && Exact(f) && f.run.Some? && f.past.told == [] && f.past.heard == [] && f.past.clock == 0
            && f.past.limits == limits && f.past.transport == transport && f.past.targets == targets
            && (forall i :: i in f.run.value.plan.running ==> f.run.value.plan.running[i] == 0)
  {
    hide Fresh, KeysOf, Admitted, Exact;
    var r, past := NewRun(targets, transport, limits), Record(limits, transport, targets, [], [], [], [], [], 0);
    FreshInTurn(|targets|, limits, past);
    AdmitExact(id, Flight(Some(r), past));
  }

  lemma AdmitExact(id: nat, f: Flight)
    requires f.run.Some? && InFlight(Admitted(f.run.value.plan), AdmitMore(id, f).past)
    requires f.past.heard == [] && f.run.value.plan.bytes == 0
    requires f.run.value.vias == seq(|f.run.value.vias|, _ => FirstVia(f.past.transport))
    ensures Exact(AdmitMore(id, f))
  {
    hide InFlight, Room;
  }

  lemma FreshInTurn(n: nat, limits: Limits, past: Record)
    requires past.limits == limits && |past.targets| == n && past.asked == [] && past.told == []
    ensures var p := Fresh(n, limits);
            && InFlight(Admitted(p), past.(asked := p.waiting[..Room(p)])) && p.bytes == 0
            && forall i :: i in Admitted(p).running ==> Admitted(p).running[i] == 0
  {
    var p := Fresh(n, limits);
    assert forall k :: 0 <= k < |p.waiting| ==> p.waiting[k] == k;
  }

  // ---------------------------------------------------------------- every run keeps it

  lemma ActionExact(t: Table, a: Action)
    requires TableInv(t) && TableExact(t) && Possible(t, a)
    ensures TableExact(Apply(t, a))
    ensures var u := Apply(t, a);
            forall id :: id in t.flights ==> id in u.flights && RecordKept(t.flights[id].past, u.flights[id].past)
  {
    hide FlightInv, Exact, Tick, CancelAll, OnEvent, FinishIfDone, Launched;
    match a
    case Start(targets, transport, limits) => LaunchExact(t.last + 1, targets, transport, limits);
    case StreamEvent(id, i, event) =>
      if t.flights[id].run.Some? {
        EventExact(id, t.flights[id], i, event);
      } else {
        GoneEvent(id, t.flights[id], i, event);
      }
    case TickAll(ms) =>
      forall id | id in t.flights
        ensures Exact(Tick(id, t.flights[id], ms)) && RecordKept(t.flights[id].past, Tick(id, t.flights[id], ms).past)
      {
        if t.flights[id].run.Some? {
          TickExact(id, t.flights[id], ms);
        } else {
          TickKeepsLimits(id, t.flights[id], ms);
        }
      }
    case FinishTask(id) => if id in t.flights { FinishedExact(id, t.flights[id]); }
    case CancelTask(id) =>
      if id in t.flights {
        if t.flights[id].run.Some? {
          CancelExact(id, t.flights[id]);
        } else {
          GoneCancel(id, t.flights[id]);
        }
      }
  }

  lemma GoneEvent(id: nat, f: Flight, i: nat, event: ClientEvent)
    requires f.run.None?
    ensures OnEvent(id, f, i, event) == f
  {
  }

  lemma GoneCancel(id: nat, f: Flight)
    requires f.run.None?
    ensures CancelAll(id, f) == f
  {
  }

  lemma FinishedExact(id: nat, f: Flight)
    requires FlightInv(id, f) && Exact(f)
    ensures Exact(FinishIfDone(f)) && RecordKept(f.past, FinishIfDone(f).past)
    ensures FinishIfDone(f).past.told == f.past.told
    ensures f.run.Some? && FinishIfDone(f).run.None? ==> AllSaid(FinishIfDone(f).past)
  {
    hide Landed, Planes, Counts, InFlight, FinishIfDone;
    if f.run.Some? {
      NotDoneYet(id, f);
      ExactInTurn(f);
      TurnsKept(f);
      FinishSays(f);
      FinishExact(f);
    } else {
      GoneFinish(f);
    }
  }

  lemma GoneFinish(f: Flight)
    requires f.run.None?
    ensures FinishIfDone(f) == f
  {
  }

  lemma {:induction false} EveryRunExact(t: Table, actions: seq<Action>, u: Table)
    requires TableInv(t) && TableExact(t) && Runs(t, actions, u)
    ensures TableInv(u) && TableExact(u)
    ensures forall id :: id in t.flights ==> id in u.flights && RecordKept(t.flights[id].past, u.flights[id].past)
    decreases |actions|
  {
    hide TableInv, TableExact, Possible, Apply;
    if actions != [] {
      ApplyKeeps(t, actions[0]);
      ActionExact(t, actions[0]);
      EveryRunExact(Apply(t, actions[0]), actions[1..], u);
    }
  }

  // ---------------------------------------------------------------- how long each target has run

  lemma SettleAges(id: nat, f: Flight, i: nat, o: Outcome, stop: bool)
    requires f.run.Some? && PlanInv(f.run.value.plan)
    ensures var p, g := f.run.value.plan, Settle(id, f, i, o, stop);
            g.run.Some? ==>
              && (forall w :: w in g.run.value.plan.waiting ==> w in p.waiting)
              && (forall j :: j in g.run.value.plan.running ==>
                    if j in p.running then g.run.value.plan.running[j] == p.running[j]
                    else j in p.waiting && g.run.value.plan.running[j] == 0)
  {
    hide Settle, Report, IsDone, Room;
    var p := f.run.value.plan;
    if Open(p, i) {
      SettleIs(id, f, i, o, stop);
      SettledKeeps(p, i, o);
      assert forall w :: w in Settled(p, i, o).waiting ==> w in p.waiting;
    } else {
      SettledAlready(id, f, i, o, stop);
    }
  }

  /** Stopping leaves the age of whatever runs on, and starts the others at no age. */
  lemma {:induction false} StopEachAges(id: nat, f: Flight, stops: seq<(nat, Outcome)>)
    requires f.run.Some? && Stopping(id, f, stops)
    ensures var p, g := f.run.value.plan, StopEach(id, f, stops);
            g.run.Some? ==>
              && (forall w :: w in g.run.value.plan.waiting ==> w in p.waiting)
              && (forall j :: j in g.run.value.plan.running ==>
                    if j in p.running then g.run.value.plan.running[j] == p.running[j]
                    else j in p.waiting && g.run.value.plan.running[j] == 0)
    decreases |stops|
  {
    hide Landed, Settle, StillDue, Draining, PlanFollows;
    if stops != [] {
      var g := Settle(id, f, stops[0].0, stops[0].1, true);
      OneStop(id, f, stops);
      NotDoneYet(id, f);
      SettleAges(id, f, stops[0].0, stops[0].1, true);
      if g.run.Some? {
        NotDoneYet(id, g);
        RunningDoesNotWait(f.run.value.plan);
        StopEachAges(id, g, stops[1..]);
      } else {
        StopEachGone(id, g, stops[1..]);
      }
    }
  }

  lemma RunningDoesNotWait(p: PlanState)
    requires PlanInv(p)
    ensures forall w :: w in p.waiting ==> w !in p.running
  {
  }

  /** How long `i` has run, as fan-out `id` counts it. */
  function AgeIn(t: Table, id: nat, i: nat): nat {
    if id in t.flights && t.flights[id].run.Some? && i in t.flights[id].run.value.plan.running
    then t.flights[id].run.value.plan.running[i] else 0
  }

  ghost predicate RunsIn(t: Table, id: nat, i: nat) {
    id in t.flights && t.flights[id].run.Some? && i in t.flights[id].run.value.plan.running
  }

  lemma TickAges(id: nat, f: Flight, ms: u32, i: nat)
    requires FlightInv(id, f) && f.run.Some?
    ensures var p, g := f.run.value.plan, Tick(id, f, ms);
            g.run.Some? && i in g.run.value.plan.running ==>
              g.run.value.plan.running[i] == if i in p.running then SatAdd32(p.running[i], ms) else 0
  {
    hide Landed, OnTime, Due, StillDue, Draining, StopEach, StoppedWaiting, IsDone, PlanFollows, Report;
    var h, stops := Ticking(f, ms), Due(f.run.value.plan, ms);
    NotDoneYet(id, f);
    TickingStops(id, f, ms);
    StopEachAges(id, h, stops);
    if f.past.clock + ms >= f.past.limits.budgetMs {
      StopsDone(id, h, stops);
    }
  }

  lemma EventAges(id: nat, f: Flight, i: nat, event: ClientEvent, j: nat)
    requires FlightInv(id, f) && f.run.Some? && CanHear(f, i) && Exact(f)
    ensures var p, g := f.run.value.plan, OnEvent(id, f, i, event);
            g.run.Some? && j in g.run.value.plan.running ==>
              g.run.value.plan.running[j] == if j in p.running then p.running[j] else 0
  {
    hide Landed, OnTime, Settle, OnEvent, Coming, PlanInv, Exact, Report, AllSaid, ToldOf, IsDone, Admitted, Settled;
    AskedIsKnown(id, f, i);
    NotDoneYet(id, f);
    RunningIsKnown(id, f, i);
    ExactCounts(f);
    var partial, stop := EventIs(id, f, i, event);
    var h, o := Hearing(f, i, event), Coming(f.past, i, event);
    if o.Some? && Open(h.run.value.plan, i) {
      CountedInv(f.run.value.plan, h.run.value.plan);
      SettleAges(id, h.(run := Some(h.run.value.(partial := partial))), i, o.value, stop);
    }
  }

  /** One action: what runs on has run as much longer as the action ticked; what starts has not. */
  lemma ActionAges(t: Table, a: Action, id: nat, i: nat)
    requires TableInv(t) && TableExact(t) && Possible(t, a) && RunsIn(Apply(t, a), id, i)
    ensures AgeIn(Apply(t, a), id, i)
            == if RunsIn(t, id, i) then SatAdd32(AgeIn(t, id, i), if a.TickAll? then a.ms else 0) else 0
  {
    hide FlightInv, Exact, Tick, CancelAll, OnEvent, Launched;
    match a
    case Start(targets, transport, limits) => LaunchExact(t.last + 1, targets, transport, limits);
    case StreamEvent(j, k, event) =>
      if j == id {
        if t.flights[id].run.Some? {
          EventAges(id, t.flights[id], k, event, i);
        } else {
          GoneEvent(id, t.flights[id], k, event);
        }
      }
    case TickAll(ms) =>
      if t.flights[id].run.Some? {
        TickAges(id, t.flights[id], ms, i);
      } else {
        TickKeepsLimits(id, t.flights[id], ms);
      }
    case FinishTask(_) =>
    case CancelTask(j) =>
      if j == id {
        if t.flights[id].run.Some? {
          CancelExact(id, t.flights[id]);
        } else {
          GoneCancel(id, t.flights[id]);
        }
      }
  }

  lemma PendingRuns(t: Table, id: nat, i: nat)
    requires TableInv(t) && id in t.flights
    ensures Pending(t.flights[id].past, i) <==> RunsIn(t, id, i)
    ensures i in t.flights[id].past.asked && !RunsIn(t, id, i) ==> i in ToldOf(t.flights[id].past.told)
  {
    hide PlanInv, Shaped, Tells, Stops, Answers, Hears, Budgeted, Full;
    var f := t.flights[id];
    assert FlightInv(id, f);
    if f.run.Some? {
      NotDoneYet(id, f);
    }
  }

  lemma ToldStays(a: Record, b: Record, i: nat)
    requires RecordKept(a, b) && i in ToldOf(a.told)
    ensures i in ToldOf(b.told)
  {
    var k :| 0 <= k < |a.told| && a.told[k].0 == i;
    assert b.told[k].0 == i;
  }

  /** Over every run a running target's age is the ticks that came while it was asked. */
  lemma {:induction false} AgeOverRun(t: Table, actions: seq<Action>, u: Table, id: nat, i: nat)
    requires TableInv(t) && TableExact(t) && Runs(t, actions, u) && RunsIn(u, id, i)
    ensures AgeIn(u, id, i) == Min(AgeIn(t, id, i) + RanFor(t, actions, id, i), U32_MAX)
    decreases |actions|
  {
    hide FlightInv, Exact, Apply, Possible, ToldOf;
    if actions == [] {
      assert AgeIn(t, id, i) <= U32_MAX;
    } else {
      var t1 := Apply(t, actions[0]);
      ApplyKeeps(t, actions[0]);
      ActionExact(t, actions[0]);
      AgeOverRun(t1, actions[1..], u, id, i);
      EveryRunExact(t1, actions[1..], u);
      EveryRunKeeps(t1, actions[1..], u);
      PendingRuns(u, id, i);
      if id in t1.flights {
        PendingRuns(t1, id, i);
        if i in t1.flights[id].past.asked && !RunsIn(t1, id, i) {
          ToldStays(t1.flights[id].past, u.flights[id].past, i);
        }
      }
      if id in t.flights {
        PendingRuns(t, id, i);
        if i in t.flights[id].past.asked && !RunsIn(t, id, i) {
          ToldStays(t.flights[id].past, u.flights[id].past, i);
        }
      }
      if RunsIn(t1, id, i) {
        ActionAges(t, actions[0], id, i);
      }
    }
  }

  // ---------------------------------------------------------------- what that means, over every run

  lemma NothingYet()
    ensures TableInv(EMPTY) && TableExact(EMPTY)
  {
  }

  /** What was told between two records, told in target order. */
  ghost predicate TellsMore(was: Record, now: Record, news: seq<(nat, Outcome)>) {
    now.told == was.told + news && forall k, l :: 0 <= k < l < |news| ==> news[k].0 < news[l].0
  }

  /** Over every run, for every action: the targets it tells are told in target order, each what the
      action comes to for it; and a target is told if and only if it is asked and untold and the action
      comes to something. So a whole answer is told when an end comes after a head, and only then; a
      refusal exactly for an end without a head, for the failure its stream came to, for the chunk that
      takes the bytes heard over the limit, and for having been asked as long as one target may be;
      and a skip exactly when the whole time is up or the fan-out is cancelled. */
  lemma ToldExactly(before: seq<Action>, t: Table, a: Action, id: nat, i: nat, o: Outcome)
    returns (news: seq<(nat, Outcome)>)
    requires Runs(EMPTY, before, t) && Possible(t, a) && id in t.flights
    ensures id in Apply(t, a).flights && TellsMore(t.flights[id].past, Apply(t, a).flights[id].past, news)
    ensures (i, o) in news <==>
              Pending(t.flights[id].past, i)
              && Earned(t.flights[id].past, id, i, RanFor(EMPTY, before, id, i), a) == Some(o)
  {
    hide TableInv, TableExact, Pending, Coming, Runs, Tick, CancelAll, OnEvent, FinishIfDone, Launched;
    NothingYet();
    EveryRunKeeps(EMPTY, before, t);
    EveryRunExact(EMPTY, before, t);
    var f := t.flights[id];
    news := [];
    match a
    case Start(_, _, _) => NewId(t, id);
    case StreamEvent(j, k, event) =>
      if j == id {
        news := EventTells(t, id, k, event, i, o);
      }
    case TickAll(ms) => news := TickTells(before, t, id, ms, i, o);
    case FinishTask(j) =>
      if j == id {
        FlightOk(t, id);
        FinishedExact(id, f);
      }
    case CancelTask(j) =>
      if j == id {
        news := CancelTells(t, id, i, o);
      }
  }

  lemma NewId(t: Table, id: nat)
    requires TableInv(t) && id in t.flights
    ensures id <= t.last
  {
  }

  lemma FlightOk(t: Table, id: nat)
    requires TableInv(t) && id in t.flights
    ensures FlightInv(id, t.flights[id]) && id <= t.last
    ensures TableExact(t) ==> Exact(t.flights[id])
  {
  }

  lemma EventTells(t: Table, id: nat, k: nat, event: ClientEvent, i: nat, o: Outcome)
    returns (news: seq<(nat, Outcome)>)
    requires TableInv(t) && TableExact(t) && id in t.flights && CanHear(t.flights[id], k)
    ensures TellsMore(t.flights[id].past, Apply(t, StreamEvent(id, k, event)).flights[id].past, news)
    ensures var was := t.flights[id].past;
            (i, o) in news <==> Pending(was, i) && k == i && Coming(was, i, event) == Some(o)
  {
    hide TableInv, TableExact, FlightInv, Exact, OnEvent, Coming, Pending;
    var f := t.flights[id];
    FlightOk(t, id);
    PendingRuns(t, id, i);
    if f.run.Some? {
      EventExact(id, f, k, event);
      news := if Pending(f.past, k) && Coming(f.past, k, event).Some? then [(k, Coming(f.past, k, event).value)]
              else [];
    } else {
      GoneEvent(id, f, k, event);
      news := [];
    }
  }

  lemma TickTells(before: seq<Action>, t: Table, id: nat, ms: u32, i: nat, o: Outcome)
    returns (news: seq<(nat, Outcome)>)
    requires Runs(EMPTY, before, t) && TableInv(t) && TableExact(t) && id in t.flights
    ensures TellsMore(t.flights[id].past, Apply(t, TickAll(ms)).flights[id].past, news)
    ensures var was := t.flights[id].past;
            (i, o) in news <==>
              Pending(was, i) && Earned(was, id, i, RanFor(EMPTY, before, id, i), TickAll(ms)) == Some(o)
  {
    hide TableInv, TableExact, FlightInv, Exact, Tick, Pending, Due, RanFor, Runs;
    var f := t.flights[id];
    FlightOk(t, id);
    PendingRuns(t, id, i);
    if f.run.Some? {
      var p := f.run.value.plan;
      PlanOf(id, f);
      TickExact(id, f, ms);
      DueOnce(p, ms);
      DueExactly(p, ms, i, o);
      news := Due(p, ms);
      if RunsIn(t, id, i) {
        NothingYet();
        AgeOverRun(EMPTY, before, t, id, i);
      }
    } else {
      TickKeepsLimits(id, f, ms);
      news := [];
    }
  }

  lemma PlanOf(id: nat, f: Flight)
    requires FlightInv(id, f) && f.run.Some?
    ensures PlanInv(f.run.value.plan) && f.run.value.plan.limits == f.past.limits
    ensures f.run.value.plan.elapsedMs == Min(f.past.clock, U32_MAX)
    ensures OnTime(f.run.value.plan)
  {
    hide Opens, Tells, Stops, Answers, Hears, Budgeted, Full;
  }

  lemma CancelTells(t: Table, id: nat, i: nat, o: Outcome) returns (news: seq<(nat, Outcome)>)
    requires TableInv(t) && TableExact(t) && id in t.flights
    ensures TellsMore(t.flights[id].past, Apply(t, CancelTask(id)).flights[id].past, news)
    ensures (i, o) in news <==> Pending(t.flights[id].past, i) && o == Skipped
  {
    hide TableInv, TableExact, FlightInv, Exact, CancelAll, Pending, Paired, StoppedWaiting;
    var f := t.flights[id];
    FlightOk(t, id);
    PendingRuns(t, id, i);
    if f.run.Some? {
      var p := f.run.value.plan;
      PlanOf(id, f);
      CancelExact(id, f);
      RunningOnce(p);
      news := Paired(InOrder(p.running.Keys, |p.settled|), Skipped);
    } else {
      GoneCancel(id, f);
      news := [];
    }
  }

  /** The end of a stream that answered is an answer: of every byte heard for it, under the last head
      heard for it. The app is told so then, and it stays told over every later run. */
  lemma EndIsAnswered(before: seq<Action>, t: Table, id: nat, i: nat, later: seq<Action>, u: Table)
    requires Runs(EMPTY, before, t) && id in t.flights && Pending(t.flights[id].past, i)
    requires Runs(Apply(t, StreamEvent(id, i, EndEvent)), later, u)
    ensures id in u.flights
    ensures var was, told := t.flights[id].past, u.flights[id].past.told;
            match HeadHeard(was.heard, i)
            case Some((head, via)) => (i, Answered(Response(head, via, BodyHeard(was.heard, i)))) in told
            case None => (i, Failed(Refused.Unavailable("response without a head"))) in told
  {
    hide TableInv, TableExact, Runs, Apply;
    var a := StreamEvent(id, i, EndEvent);
    var o := Coming(t.flights[id].past, i, EndEvent).value;
    var news := ToldExactly(before, t, a, id, i, o);
    NothingYet();
    EveryRunKeeps(EMPTY, before, t);
    EveryRunExact(EMPTY, before, t);
    ApplyKeeps(t, a);
    ActionExact(t, a);
    EveryRunExact(Apply(t, a), later, u);
    StaysTold(Apply(t, a).flights[id].past, u.flights[id].past, (i, o));
  }

  lemma StaysTold(a: Record, b: Record, entry: (nat, Outcome))
    requires RecordKept(a, b) && entry in a.told
    ensures entry in b.told
  {
    var k :| 0 <= k < |a.told| && a.told[k] == entry;
    assert b.told[k] == entry;
  }

  /** Past the whole time, or called off. */
  predicate CutOff(past: Record, id: nat, a: Action) {
    (a.TickAll? && past.clock + a.ms >= past.limits.budgetMs) || a == CancelTask(id)
  }

  /** Over every run, for every action: a fan-out in flight is over after it if and only if the action
      cuts it off, or every target has its outcome and the action is this fan-out's. */
  lemma EndsExactly(before: seq<Action>, t: Table, a: Action, id: nat)
    requires Runs(EMPTY, before, t) && Possible(t, a) && id in t.flights && t.flights[id].run.Some?
    ensures id in Apply(t, a).flights
    ensures var f, g := t.flights[id], Apply(t, a).flights[id];
            g.run.None? <==>
              CutOff(f.past, id, a)
              || (AllSaid(g.past) && (a.TickAll? || a == FinishTask(id) || (a.StreamEvent? && a.id == id)))
  {
    hide TableInv, TableExact, FlightInv, Exact, Runs, Tick, CancelAll, OnEvent, FinishIfDone, Launched, AllSaid,
      RecordKept;
    NothingYet();
    EveryRunKeeps(EMPTY, before, t);
    EveryRunExact(EMPTY, before, t);
    FlightOk(t, id);
    var f, g := t.flights[id], Apply(t, a).flights[id];
    match a
    case Start(_, _, _) =>
    case StreamEvent(j, i, event) =>
      if j == id {
        EventEnds(id, f, i, event);
      }
    case TickAll(ms) =>
      TickExact(id, f, ms);
      TickLeaves(id, f, ms);
    case FinishTask(j) =>
      if j == id {
        FinishedExact(id, f);
        FinishLeaves(id, f);
      }
    case CancelTask(j) => if j == id { CancelExact(id, f); }
  }

  /** Where somebody is not settled, not everyone has an outcome. */
  lemma NotAllSaid(id: nat, g: Flight)
    requires FlightInv(id, g) && g.run.Some? && !IsDone(g.run.value.plan)
    ensures !AllSaid(g.past)
  {
    hide Opens, Stops, Answers, Hears, Budgeted, Full;
    var p := g.run.value.plan;
    var i: nat :| i < |p.settled| && p.settled[i].None?;
    assert forall k :: 0 <= k < |g.past.told| ==> g.past.told[k].0 != i;
    assert i !in ToldOf(g.past.told);
  }

  lemma TickLeaves(id: nat, f: Flight, ms: u32)
    requires FlightInv(id, f) && f.run.Some?
    ensures Tick(id, f, ms).run.Some? ==> !AllSaid(Tick(id, f, ms).past)
  {
    hide FlightInv, StopEach, AllSaid, Due, Elapsed, IsDone;
    TickKeeps(id, f, ms);
    if Tick(id, f, ms).run.Some? {
      NotAllSaid(id, Tick(id, f, ms));
    }
  }

  lemma FinishLeaves(id: nat, f: Flight)
    requires FlightInv(id, f) && f.run.Some?
    ensures FinishIfDone(f).run.Some? ==> !AllSaid(FinishIfDone(f).past)
  {
    hide FlightInv, AllSaid, IsDone;
    if FinishIfDone(f).run.Some? {
      NotAllSaid(id, f);
    }
  }

  /** An event of a fan-out in flight ends it exactly when it leaves everyone with an outcome. */
  lemma EventEnds(id: nat, f: Flight, i: nat, event: ClientEvent)
    requires FlightInv(id, f) && Exact(f) && f.run.Some? && CanHear(f, i)
    ensures i < |f.run.value.vias|
    ensures var g := OnEvent(id, f, i, event); g.run.None? <==> AllSaid(g.past)
  {
    hide FlightInv, OnEvent, AllSaid, Coming, Exact;
    EventExact(id, f, i, event);
    var g := OnEvent(id, f, i, event);
    OnEventKeeps(id, f, i, event);
    if g.run.Some? {
      SomebodyAsked(id, f, i);
      if g.past.told == [] {
        ToldSome(g.past, i);
      } else {
        LeftInFlight(id, g);
      }
    }
  }

  /** Somebody asked means there is somebody, and no limit is zero. */
  lemma SomebodyAsked(id: nat, f: Flight, i: nat)
    requires FlightInv(id, f) && Exact(f) && f.run.Some? && CanHear(f, i)
    ensures i < |f.past.targets| && !f.past.limits.Zero()
  {
    AskedIsKnown(id, f, i);
    NotDoneYet(id, f);
    ExactInTurn(f);
    hide FlightInv, Exact, PlanInv;
  }

  lemma ToldSome(past: Record, i: nat)
    requires i < |past.targets| && !past.limits.Zero() && past.told == []
    ensures !AllSaid(past)
  {
    assert i !in ToldOf(past.told);
  }

  lemma LeftInFlight(id: nat, g: Flight)
    requires FlightInv(id, g) && Exact(g) && g.run.Some? && !g.past.limits.Zero() && g.past.told != []
    ensures !AllSaid(g.past)
  {
    ExactInTurn(g);
    hide FlightInv, Exact, AllSaid;
    NotAllSaid(id, g);
  }

  lemma ToldSize(told: seq<(nat, Outcome)>)
    requires forall k, l :: 0 <= k < l < |told| ==> told[k].0 != told[l].0
    ensures |ToldOf(told)| == |told|
  {
    var s := seq(|told|, k requires 0 <= k < |told| => told[k].0);
    DistinctSize(s);
    forall i ensures i in ToldOf(told) <==> i in s {
      if i in ToldOf(told) {
        var k :| 0 <= k < |told| && told[k].0 == i;
        assert s[k] == i;
      }
    }
    assert ToldOf(told) == Elements(s);
  }

  /** What is asked runs or was told, and not both. */
  lemma AskedCount(past: Record, running: set<nat>)
    requires forall k :: 0 <= k < |past.asked| ==> past.asked[k] == k
    requires forall k, l :: 0 <= k < l < |past.told| ==> past.told[k].0 != past.told[l].0
    requires forall i :: i in past.asked <==> i in running || i in ToldOf(past.told)
    requires forall i :: i in running ==> i !in ToldOf(past.told)
    ensures |past.asked| == |running| + |past.told|
  {
    DistinctSize(past.asked);
    ToldSize(past.told);
    assert Elements(past.asked) == running + ToldOf(past.told);
  }

  lemma AskedAre(id: nat, f: Flight)
    requires FlightInv(id, f)
    ensures var running := if f.run.Some? then f.run.value.plan.running.Keys else {};
            && (forall k, l :: 0 <= k < l < |f.past.told| ==> f.past.told[k].0 != f.past.told[l].0)
            && (forall i :: i in f.past.asked <==> i in running || i in ToldOf(f.past.told))
            && (forall i :: i in running ==> i !in ToldOf(f.past.told))
            && (forall i :: i in f.past.asked ==> i < |f.past.targets|)
    ensures f.run.Some? ==> Full(f.run.value.plan) && |f.run.value.plan.running| <= f.past.limits.maxConcurrency
                            && f.run.value.plan.limits == f.past.limits
  {
    hide InTurn, Stops, Answers, Hears, Budgeted, OnTime;
    if f.run.Some? {
      NotDoneYet(id, f);
    }
    forall i | i in f.past.asked ensures i < |f.past.targets| {
      if i in ToldOf(f.past.told) {
        var k :| 0 <= k < |f.past.told| && f.past.told[k].0 == i;
      } else {
        assert f.run.Some? && Open(f.run.value.plan, i);
      }
    }
  }

  /** Over every run nobody is asked exactly where there is nobody to ask or one of the limits is zero,
      and then each target is refused for that; otherwise nobody is. */
  lemma ZeroAdmitsNothing(actions: seq<Action>, u: Table, id: nat)
    requires Runs(EMPTY, actions, u) && id in u.flights
    ensures var past := u.flights[id].past;
            var l := past.limits;
            var zero := l.maxConcurrency == 0 || l.perCallMs == 0 || l.budgetMs == 0 || l.maxTotalBytes == 0;
            && (past.asked == [] <==> past.targets == [] || zero)
            && (u.flights[id].run.None? && zero ==>
                  |past.done| == 1
                  && forall i :: 0 <= i < |past.done[0]| ==>
                       past.done[0][i].1 == Failed(Refused.Policy("fanout_zero_limit")))
  {
    hide TableInv, TableExact, Runs, FlightInv, Planes, Counts;
    NothingYet();
    EveryRunKeeps(EMPTY, actions, u);
    EveryRunExact(EMPTY, actions, u);
    FlightOk(u, id);
    if u.flights[id].run.Some? {
      ExactInTurn(u.flights[id]);
    } else {
      DoneOnceWithEveryOutcome(actions, u, id);
    }
  }

  /** Over every run, targets are asked from the first on, and in flight, unless a limit is zero, as
      many are asked and untold as the cap allows, or all are asked. */
  lemma AskedFromTheFirst(actions: seq<Action>, u: Table, id: nat)
    requires Runs(EMPTY, actions, u) && id in u.flights
    ensures var f := u.flights[id];
            && (forall k :: 0 <= k < |f.past.asked| ==> f.past.asked[k] == k)
            && |f.past.asked| <= |f.past.targets|
            && |f.past.told| <= |f.past.asked|
            && (f.run.Some? && !f.past.limits.Zero() ==>
                  |f.past.asked| == Min(|f.past.targets|, |f.past.told| + f.past.limits.maxConcurrency))
  {
    hide TableInv, TableExact, Runs, FlightInv, Planes, Counts;
    NothingYet();
    EveryRunKeeps(EMPTY, actions, u);
    EveryRunExact(EMPTY, actions, u);
    FlightOk(u, id);
    var f := u.flights[id];
    AskedAre(id, f);
    AskedCount(f.past, if f.run.Some? then f.run.value.plan.running.Keys else {});
    if f.run.Some? {
      ExactInTurn(f);
      SizeOfMap(f.run.value.plan.running);
    }
    if |f.past.asked| > 0 {
      assert f.past.asked[|f.past.asked| - 1] in f.past.asked;
    }
  }

  /** Over every run, what `done` is given when the fan-out is over: each target in order, with what it
      was told, or skipped (refused, for a zero limit) if it was never asked; and the plane of the last
      head heard for it, or else the one its transport tries first. */
  lemma ReportsExactly(actions: seq<Action>, u: Table, id: nat)
    requires Runs(EMPTY, actions, u) && id in u.flights && u.flights[id].run.None?
    ensures var past := u.flights[id].past;
            && |past.done| == 1 && |past.done[0]| == |past.targets|
            && forall i: nat :: i < |past.targets| ==>
                 var (to, o, via) := past.done[0][i];
                 && to == past.targets[i] && via == PlaneHeard(past, i)
                 && if i in past.asked then (i, o) in past.told else NeverAsked(past.limits, o)
  {
    hide TableInv, TableExact, Runs, FlightInv, Counts, AsksInTurn, PlaneHeard;
    NothingYet();
    EveryRunExact(EMPTY, actions, u);
    FlightOk(u, id);
    DoneOnceWithEveryOutcome(actions, u, id);
  }

  /** A fan-out keeps, over every later run, the targets, transport and limits it was started with. */
  lemma KeepsItsTerms(before: seq<Action>, t: Table, targets: seq<Address>, transport: Transport, limits: Limits,
                      later: seq<Action>, u: Table)
    requires Runs(EMPTY, before, t) && Runs(Apply(t, Start(targets, transport, limits)), later, u)
    ensures t.last + 1 in u.flights && t.last + 1 !in t.flights
    ensures var past := u.flights[t.last + 1].past;
            past.targets == targets && past.transport == transport && past.limits == limits
  {
    hide TableExact, Runs, FlightInv, Exact, Launched;
    var a := Start(targets, transport, limits);
    NothingYet();
    EveryRunKeeps(EMPTY, before, t);
    EveryRunExact(EMPTY, before, t);
    ApplyKeeps(t, a);
    ActionExact(t, a);
    LaunchExact(t.last + 1, targets, transport, limits);
    EveryRunExact(Apply(t, a), later, u);
  }
}
