/** The fan-out table in the source's own form: runs removed from and put back into a map, with
    loops over what to start, what to stop and which fan-outs to tick. Each method is proved to
    leave exactly what the flight functions say. */
module FanoutDriver {
  import opened Basics
  import opened Frames
  import opened FanoutPlan
  import opened Fanout
  import opened FanoutTable

  function RunOf(runs: map<nat, Run>, id: nat): Option<Run> {
    if id in runs then Some(runs[id]) else None
  }

  class Fanouts {
    var last: nat
    var runs: map<nat, Run>
    /** Everything each fan-out did to the outside, whether or not it is still in the table. */
    ghost var past: map<nat, Record>

    ghost predicate Valid()
      reads this
    {
      runs.Keys <= past.Keys
    }

    ghost function FlightOf(id: nat): Flight
      requires id in past
      reads this
    {
      Flight(RunOf(runs, id), past[id])
    }

    ghost function AsTable(): Table
      reads this
    {
      Table(last, map id | id in past :: FlightOf(id))
    }

    constructor ()
      ensures Valid() && AsTable() == EMPTY
    {
      last, runs, past := 0, map[], map[];
    }

    /** `id` is now `f`, and every other fan-out is as it was. */
    twostate predicate Became(id: nat, f: Flight)
      reads this
    {
      && Valid() && last == old(last) && past.Keys == old(past).Keys
      && (forall j :: j in past ==> FlightOf(j) == if j == id then f else old(FlightOf(j)))
    }

    method Admit(id: nat)
      requires Valid() && id in past
      modifies `runs, `past
      ensures Became(id, AdmitMore(id, old(FlightOf(id))))
    {
      hide Room, Admitted, KeysOf;
      if id !in runs {
        return;
      }
      var r := runs[id];
      var ready := r.plan.waiting[..Room(r.plan)];
      var keys := r.keys;
      ghost var asked := past[id].asked;
      KeysNone(id, keys);
      assert ready[..0] == [];
      for k := 0 to |ready|
        invariant keys == r.keys + KeysOf(id, Elements(ready[..k]))
        invariant runs == old(runs) && past == old(past)
        invariant asked == past[id].asked + ready[..k]
      {
        // The stream is opened, and its key kept.
        KeysSnoc(id, r.keys, ready, k);
        keys := keys[ready[k] := Key(id, ready[k])];
        assert ready[..k + 1] == ready[..k] + [ready[k]];
        asked := asked + [ready[k]];
      }
      assert ready[..|ready|] == ready;
      runs := runs[id := r.(plan := Admitted(r.plan), keys := keys)];
      past := past[id := past[id].(asked := asked)];
    }

    method FinishIfDone(id: nat)
      requires Valid() && id in past
      modifies `runs, `past
      ensures Became(id, Fanout.FinishIfDone(old(FlightOf(id))))
    {
      if id in runs && IsDone(runs[id].plan) {
        var run := runs[id];
        runs := runs - {id};
        past := past[id := past[id].(done := past[id].done + [Report(run)])];
      }
    }

    method Settle(id: nat, i: nat, outcome: Outcome, stop: bool)
      requires Valid() && id in past
      modifies `runs, `past
      ensures Became(id, Fanout.Settle(id, old(FlightOf(id)), i, outcome, stop))
    {
      hide AdmitMore, Fanout.FinishIfDone, Recorded, Open;
      if id !in runs || !Open(runs[id].plan, i) {
        return;
      }
      TakeOutcome(id, i, outcome, stop);
      Admit(id);
      FinishIfDone(id);
    }

    /** One target settles, on the run in hand. */
    method TakeOutcome(id: nat, i: nat, outcome: Outcome, stop: bool)
      requires Valid() && id in runs && Open(runs[id].plan, i)
      modifies `runs, `past
      ensures Became(id, Recorded(old(FlightOf(id)), i, outcome, stop))
    {
      hide Settled;
      var r := runs[id];
      var key := if i in r.keys then Some(r.keys[i]) else None;
      runs := runs[id := r.(plan := Settled(r.plan, i, outcome), partial := r.partial - {i}, keys := r.keys - {i})];
      past := past[id := past[id].(told := past[id].told + [(i, outcome)])];
      if stop && key.Some? {
        past := past[id := past[id].(stopped := past[id].stopped + [key.value])];
      }
    }

    method OnEvent(id: nat, i: nat, event: ClientEvent)
      requires Valid() && id in past && HasTarget(FlightOf(id), i)
      modifies `runs, `past
      ensures Became(id, Fanout.OnEvent(id, old(FlightOf(id)), i, event))
    {
      hide Fanout.Settle, EndOutcome, WithBody;
      if id !in runs {
        return;
      }
      var r := runs[id];
      past := past[id := past[id].(heard := past[id].heard + [(i, event)])];
      match event
      case HeadEvent(head, via) =>
        runs := runs[id := r.(vias := r.vias[i := via],
                              partial := r.partial[i := PartialOf(r, i).(head := Some(head))])];
      case BodyEvent(bytes) =>
        r := r.(plan := Counted(r.plan, |bytes|), partial := WithBody(r, i, bytes));
        runs := runs[id := r];
        if Over(r.plan, i) {
          Settle(id, i, Failed(TOTAL_BYTES), true);
        }
      case EndEvent =>
        var outcome := EndOutcome(r, i);
        runs := runs[id := r.(partial := r.partial - {i})];
        Settle(id, i, outcome, !outcome.Answered?);
      case FailedEvent(why) =>
        Settle(id, i, Failed(why), true);
    }

    /** Settle each of `stops`, then finish if nothing is left. */
    method Stop(id: nat, stops: seq<(nat, Outcome)>)
      requires Valid() && id in past
      modifies `runs, `past
      ensures Became(id, Fanout.FinishIfDone(StopEach(id, old(FlightOf(id)), stops)))
    {
      hide Fanout.Settle, Fanout.FinishIfDone;
      ghost var f := FlightOf(id);
      for k := 0 to |stops|
        invariant id in past && Became(id, FlightOf(id))
        invariant StopEach(id, FlightOf(id), stops[k..]) == StopEach(id, f, stops)
      {
        assert stops[k..][0] == stops[k] && stops[k..][1..] == stops[k + 1..];
        Settle(id, stops[k].0, stops[k].1, true);
      }
      FinishIfDone(id);
    }

    /** `ms` passed for one fan-out. */
    method TickOne(id: nat, ms: u32)
      requires Valid() && id in past
      modifies `runs, `past
      ensures Became(id, Tick(id, old(FlightOf(id)), ms))
    {
      hide StopEach, Fanout.FinishIfDone, Due, Elapsed;
      if id !in runs {
        return;
      }
      var r := runs[id];
      var stops := Due(r.plan, ms);
      runs := runs[id := r.(plan := Elapsed(r.plan, ms))];
      past := past[id := past[id].(clock := past[id].clock + ms)];
      Stop(id, stops);
    }

    /** `ms` passed for every fan-out there is when the tick arrives. */
    method TickAll(ms: u32)
      requires Valid() && forall id :: id in past ==> id <= last
      modifies `runs, `past
      ensures Valid() && AsTable() == Apply(old(AsTable()), Action.TickAll(ms))
    {
      hide Tick, InOrder, Ascending;
      ghost var was := AsTable();
      var ids := InOrder(runs.Keys, last + 1);
      for k := 0 to |ids|
        invariant Valid() && last == old(last) && past.Keys == was.flights.Keys
        invariant forall id :: id in past ==>
                    FlightOf(id) == if id in ids[..k] then Tick(id, was.flights[id], ms) else was.flights[id]
      {
        var id := ids[k];
        FirstOfTheRest(ids, k);
        TickOne(id, ms);
      }
      assert ids[..|ids|] == ids;
      forall id | id in past ensures FlightOf(id) == Tick(id, was.flights[id], ms) {
        if id !in ids {
          TickGone(id, was.flights[id], ms);
        }
      }
    }

    /** The app calls the whole fan-out off. */
    method Cancel(id: nat)
      requires Valid() && id in past
      modifies `runs, `past
      ensures Became(id, CancelAll(id, old(FlightOf(id))))
    {
      hide StopEach, Fanout.FinishIfDone, StoppedWaiting;
      if id !in runs {
        return;
      }
      var r := runs[id];
      var plan := StoppedWaiting(r.plan);
      runs := runs[id := r.(plan := plan)];
      Stop(id, Paired(InOrder(plan.running.Keys, |plan.settled|), Skipped));
    }

    /** A new fan-out under the next id; its first targets are asked at once. */
    method Start(targets: seq<Address>, transport: Transport, limits: Limits) returns (id: nat)
      requires Valid() && forall j :: j in past ==> j <= last
      modifies this
      ensures id == old(last) + 1 && Valid()
      ensures AsTable() == Apply(old(AsTable()), Action.Start(targets, transport, limits))
    {
      hide AdmitMore, NewRun;
      ghost var was := AsTable();
      last := last + 1;
      id := last;
      runs := runs[id := NewRun(targets, transport, limits)];
      past := past[id := Record(limits, transport, targets, [], [], [], [], [], 0)];
      Admit(id);
      assert FlightOf(id) == Launched(id, targets, transport, limits);
    }
  }

  lemma KeysNone(id: nat, keys: map<nat, Key>)
    ensures keys + KeysOf(id, Elements([])) == keys
  {
  }

  lemma KeysSnoc(id: nat, keys: map<nat, Key>, s: seq<nat>, k: nat)
    requires k < |s|
    ensures keys + KeysOf(id, Elements(s[..k + 1])) == (keys + KeysOf(id, Elements(s[..k])))[s[k] := Key(id, s[k])]
  {
    assert s[..k + 1] == s[..k] + [s[k]];
  }

  lemma FirstOfTheRest(s: seq<nat>, k: nat)
    requires Ascending(s) && k < |s|
    ensures s[k] in s && s[k] !in s[..k]
    ensures forall i :: i in s[..k + 1] <==> i in s[..k] || i == s[k]
  {
    assert s[..k + 1] == s[..k] + [s[k]];
  }

  lemma TickGone(id: nat, f: Flight, ms: u32)
    requires f.run.None?
    ensures Tick(id, f, ms) == f
  {
  }
}
