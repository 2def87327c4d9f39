/** What every task does, exactly, over every run: what it was attached to do for the reply its call
    came to, all of it, and nothing else. */
module Continuations {
  import opened Basics
  import opened Replies

  /** `ops` is what task `id` was attached for, given what its `Pending` came to. */
  predicate Chosen(past: Record, id: nat, ops: seq<Op>) {
    && id in past.bound
    && match past.bound[id]
       case ThenOf(p, ifOk, ifErr) => p in past.replies && ops == if past.replies[p] then ifOk else ifErr
       case WatchOf(p, failed) => p in past.replies && ops == if past.replies[p] then [] else failed
       case SpawnOf(all) => ops == all
  }

  /** It watches a reply that is in, and a failure. */
  predicate Fails(deed: Deed) {
    deed.op.Watch? && deed.held == Some(Ready(false))
  }

  /** `done` is `ops` done in order, and in place of a failure in hand what is to be done on it. */
  predicate Script(ops: seq<Op>, done: seq<Deed>)
    decreases |done|
  {
    if ops == [] then done == []
    else
      && done != [] && done[0].op == ops[0]
      && Script((if Fails(done[0]) then ops[0].failed else []) + ops[1..], done[1..])
  }

  /** As far as an instance that traps gets. */
  predicate Begun(ops: seq<Op>, done: seq<Deed>)
    decreases |done|
  {
    done == []
    || (&& ops != [] && done[0].op == ops[0]
        && Begun((if Fails(done[0]) then ops[0].failed else []) + ops[1..], done[1..]))
  }

  /** The tasks that ran, in order. */
  function RanIn(turns: seq<Turn>): seq<nat> {
    if turns == [] then []
    else
      var rest, last := RanIn(turns[..|turns| - 1]), turns[|turns| - 1];
      if last.job.Some? then rest + [last.job.value] else rest
  }

  // ---------------------------------------------------------------- what the tables know of replies

  /** What waits for `h` is what was attached to whoever started the call of `h`. */
  ghost predicate Awaits(past: Record, h: Handle, task: Task) {
    && h in past.holders && task.id in past.bound
    && match past.bound[task.id]
       case ThenOf(p, ifOk, ifErr) => p == past.holders[h] && task == Task(task.id, ifOk, ifErr, false)
       case WatchOf(p, failed) => p == past.holders[h] && task == Task(task.id, [], failed, true)
       case SpawnOf(_) => false
  }

  /** What a `Pending` holds is what its call came to, so far. */
  ghost predicate HoldsTrue(s: Table) {
    forall p :: p in s.live ==>
      && (s.live[p].Ready? ==> p in s.past.replies && s.past.replies[p] == s.live[p].ok)
      && (s.live[p].Waiting? ==>
            && s.live[p].handle in s.past.holders && s.past.holders[s.live[p].handle] == p
            && p !in s.past.replies)
  }

  /** Handles out are of different calls, none replied to yet. */
  ghost predicate OutTrue(s: Table) {
    && (forall h :: h in s.out && h in s.past.holders ==> s.past.holders[h] !in s.past.replies)
    && (forall h, k :: h in s.out && k in s.out && h in s.past.holders && k in s.past.holders && h != k ==>
          s.past.holders[h] != s.past.holders[k])
    && (forall h :: h in s.past.holders ==> s.past.holders[h] < s.made)
    && (forall p :: p in s.past.replies ==> p < s.made)
    && (forall p :: p in s.live ==> p < s.made)
    && s.waiting.Keys <= s.out
  }

  ghost predicate TasksTrue(s: Table) {
    && (forall h :: h in s.waiting && s.waiting[h].Some? ==> Awaits(s.past, h, s.waiting[h].value))
    && (forall i :: 0 <= i < |s.ready| ==> Chosen(s.past, s.ready[i].id, s.ready[i].ops))
    && (forall i :: 0 <= i < |s.past.turns| && s.past.turns[i].job.Some? ==>
          Chosen(s.past, s.past.turns[i].job.value, s.past.turns[i].ops))
    && (forall id :: id in s.past.bound ==> id < s.attached)
  }

  ghost predicate Truthful(s: Table) {
    HoldsTrue(s) && OutTrue(s) && TasksTrue(s) && Owned(s)
  }

  /** The record only grows, and never changes what it says. */
  ghost predicate Grows(a: Record, b: Record) {
    && (forall p :: p in a.replies ==> p in b.replies && b.replies[p] == a.replies[p])
    && (forall id :: id in a.bound ==> id in b.bound && b.bound[id] == a.bound[id])
  }

  lemma ChosenStays(a: Record, b: Record, id: nat, ops: seq<Op>)
    requires Grows(a, b) && Chosen(a, id, ops)
    ensures Chosen(b, id, ops)
  {
  }

  lemma StartedTrue(s: Table, sent: Sent)
    requires Truthful(s)
    ensures Truthful(Started(s, sent))
  {
    hide Owned, TasksTrue, HoldsTrue, OutTrue;
    StartedOwned(s, sent);
    OwnedOut(s);
    TrueIs(s);
    OutIs(s);
    TasksStay(s, Started(s, sent));
    StartedHolds(s, sent);
    StartedOut(s, sent);
  }

  lemma OutIs(s: Table)
    requires OutTrue(s)
    ensures s.waiting.Keys <= s.out && s.made !in s.past.replies && s.made !in s.live
  {
  }

  lemma StartedHolds(s: Table, sent: Sent)
    requires HoldsTrue(s) && OutTrue(s) && Owned(s)
    ensures HoldsTrue(Started(s, sent))
  {
    hide Owned;
    OwnedOut(s);
  }

  lemma StartedOut(s: Table, sent: Sent)
    requires OutTrue(s)
    ensures OutTrue(Started(s, sent))
  {
  }

  lemma OwnedOut(s: Table)
    requires Owned(s)
    ensures s.waiting.Keys <= s.out
    ensures forall p :: p in s.live && s.live[p].Waiting?
                        ==> s.live[p].handle in s.out && s.live[p].handle !in s.waiting
    ensures forall p, q :: p in s.live && q in s.live && s.live[p].Waiting? && s.live[q].Waiting? && p != q ==>
              s.live[p].handle != s.live[q].handle
  {
    forall p | p in s.live && s.live[p].Waiting?
      ensures s.live[p].handle in s.out && s.live[p].handle !in s.waiting
      ensures forall q :: q in s.live && s.live[q].Waiting? && p != q ==> s.live[p].handle != s.live[q].handle
    {
      assert Holds(s, p, s.live[p].handle);
      forall q | q in s.live && s.live[q].Waiting? && p != q ensures s.live[p].handle != s.live[q].handle {
        assert Holds(s, q, s.live[q].handle);
      }
    }
  }

  /** A step that keeps the tasks, and whose each is, keeps what is true of them. */
  lemma TasksStay(s: Table, t: Table)
    requires TasksTrue(s) && Grows(s.past, t.past)
    requires t.ready == s.ready && t.attached == s.attached && t.past.bound == s.past.bound
    requires t.past.turns == s.past.turns
    requires forall h :: h in t.waiting && t.waiting[h].Some? ==> h in s.waiting && t.waiting[h] == s.waiting[h]
    requires forall h :: h in s.waiting && h in s.past.holders
                         ==> h in t.past.holders && t.past.holders[h] == s.past.holders[h]
    ensures TasksTrue(t)
  {
    forall i | 0 <= i < |t.ready| ensures Chosen(t.past, t.ready[i].id, t.ready[i].ops) {
      ChosenStays(s.past, t.past, t.ready[i].id, t.ready[i].ops);
    }
    forall i | 0 <= i < |t.past.turns| && t.past.turns[i].job.Some?
      ensures Chosen(t.past, t.past.turns[i].job.value, t.past.turns[i].ops)
    {
      ChosenStays(s.past, t.past, t.past.turns[i].job.value, t.past.turns[i].ops);
    }
    forall h | h in t.waiting && t.waiting[h].Some? ensures Awaits(t.past, h, t.waiting[h].value) {
      assert Awaits(s.past, h, s.waiting[h].value);
    }
  }

  lemma NowTrue(s: Table, sent: Sent)
    requires Truthful(s)
    ensures Truthful(NowDone(s, sent))
  {
    hide Owned;
    NowOwned(s, sent);
    OwnedOut(s);
    TasksStay(s, NowDone(s, sent));
  }

  lemma PolledTrue(s: Table, p: nat, read: Read)
    requires Truthful(s)
    ensures Truthful(Polled(s, p, read)) && Truthful(TakenReady(s, p))
  {
    hide Owned, TasksTrue;
    PolledOwned(s, p, read);
    OwnedOut(s);
    TasksStay(s, Polled(s, p, read));
    TasksStay(s, TakenReady(s, p));
  }

  lemma DroppedTrue(s: Table, p: nat)
    requires Truthful(s)
    ensures Truthful(Dropped(s, p))
  {
    hide Owned, TasksTrue;
    if p in s.live {
      HandedOver(s, p, None);
      OwnedOut(s);
      TasksStay(s, Dropped(s, p));
    }
  }

  /** A task attached to a `Pending` that waits: it is bound to what comes. */
  lemma AttachTrue(s: Table, p: nat, h: Handle, ifOk: seq<Op>, ifErr: seq<Op>, noted: bool, bound: Bound)
    requires Truthful(s) && p in s.live && s.live[p] == Waiting(h)
    requires bound == if noted then WatchOf(p, ifErr) else ThenOf(p, ifOk, ifErr)
    requires noted ==> ifOk == []
    ensures Truthful(Attach(s.(live := s.live - {p}), h, ifOk, ifErr, noted, bound))
  {
    hide Owned;
    var task := Task(s.attached, ifOk, ifErr, noted);
    var t := Attach(s.(live := s.live - {p}), h, ifOk, ifErr, noted, bound);
    OwnedOut(s);
    HandedOver(s, p, Some(task));
    SameOwners(s.(live := s.live - {p}, waiting := s.waiting[h := Some(task)]), t);
    assert Grows(s.past, t.past);
    assert TasksTrue(t) by {
      forall i | 0 <= i < |t.ready| ensures Chosen(t.past, t.ready[i].id, t.ready[i].ops) {
        ChosenStays(s.past, t.past, t.ready[i].id, t.ready[i].ops);
      }
      forall i | 0 <= i < |t.past.turns| && t.past.turns[i].job.Some?
        ensures Chosen(t.past, t.past.turns[i].job.value, t.past.turns[i].ops)
      {
        ChosenStays(s.past, t.past, t.past.turns[i].job.value, t.past.turns[i].ops);
      }
      forall k | k in t.waiting && t.waiting[k].Some? ensures Awaits(t.past, k, t.waiting[k].value) {
        assert k != h ==> Awaits(s.past, k, s.waiting[k].value);
      }
    }
  }

  /** A task queued at once, for a reply in hand or for none. */
  lemma PushedTrue(s: Table, ops: seq<Op>, bound: Bound)
    requires Truthful(s) && Chosen(BoundTo(s.past, s.attached, bound), s.attached, ops)
    ensures Truthful(Pushed(s, ops, bound))
  {
    hide Owned;
    var t := Pushed(s, ops, bound);
    SameOwners(s, t);
    assert Grows(s.past, t.past);
    assert TasksTrue(t) by {
      forall i | 0 <= i < |t.ready| ensures Chosen(t.past, t.ready[i].id, t.ready[i].ops) {
        if i < |s.ready| {
          ChosenStays(s.past, t.past, s.ready[i].id, s.ready[i].ops);
        }
      }
      forall i | 0 <= i < |t.past.turns| && t.past.turns[i].job.Some?
        ensures Chosen(t.past, t.past.turns[i].job.value, t.past.turns[i].ops)
      {
        ChosenStays(s.past, t.past, t.past.turns[i].job.value, t.past.turns[i].ops);
      }
      forall k | k in t.waiting && t.waiting[k].Some? ensures Awaits(t.past, k, t.waiting[k].value) {
        assert Awaits(s.past, k, s.waiting[k].value);
      }
    }
  }

  lemma NotedTrue(s: Table, op: Op)
    requires Truthful(s)
    ensures Truthful(Noted(s, op))
  {
    hide Owned;
    var t := Noted(s, op);
    SameOwners(s, t);
    forall i | 0 <= i < |t.past.turns| && t.past.turns[i].job.Some?
      ensures Chosen(t.past, t.past.turns[i].job.value, t.past.turns[i].ops)
    {
      ChosenStays(s.past, t.past, s.past.turns[i].job.value, s.past.turns[i].ops);
    }
  }

  lemma SameTrue(s: Table, t: Table)
    requires Truthful(s) && t == s.(live := t.live, notes := t.notes, trapped := t.trapped)
    requires forall p :: p in t.live ==> p in s.live && t.live[p] == s.live[p]
    requires Owned(t)
    ensures Truthful(t)
  {
    hide Owned, TasksTrue;
    TasksStay(s, t);
  }

  lemma ThenTrue(s: Table, p: nat, ifOk: seq<Op>, ifErr: seq<Op>)
    requires Truthful(s)
    ensures Truthful(ThenOn(s, p, ifOk, ifErr))
  {
    hide Owned, TasksTrue;
    if p in s.live {
      var rest := s.(live := s.live - {p});
      HandedOver(s, p, None);
      match s.live[p]
      case Taken =>
        SameOwners(s, s.(trapped := true));
        SameTrue(s, s.(trapped := true));
      case Ready(ok) =>
        SameTrue(s, rest);
        PushedTrue(rest, if ok then ifOk else ifErr, ThenOf(p, ifOk, ifErr));
      case Waiting(h) => AttachTrue(s, p, h, ifOk, ifErr, false, ThenOf(p, ifOk, ifErr));
    }
  }

  lemma {:induction false} DidTrue(s: Table, op: Op)
    requires Truthful(s)
    ensures Truthful(Did(s, op))
    decreases op, 0
  {
    hide Truthful, DidAll;
    if !s.trapped {
      var n := Noted(s, op);
      NotedTrue(s, op);
      match op
      case Start(sent) => StartedTrue(n, sent);
      case Then(p, ifOk, ifErr) => ThenTrue(n, p, ifOk, ifErr);
      case Watch(p, failed) => WatchTrue(n, p, failed);
      case Poll(p, read) => PolledTrue(n, p, read);
      case Take(p) => PolledTrue(n, p, StillPending);
      case Drop(p) => DroppedTrue(n, p);
      case Now(sent) => NowTrue(n, sent);
      case Spawn(ops) => PushedTrue(n, ops, SpawnOf(ops)) by { TrueIs(n); }
    }
  }

  lemma TrueIs(s: Table)
    requires Truthful(s)
    ensures HoldsTrue(s) && OutTrue(s) && TasksTrue(s) && Owned(s)
  {
  }

  lemma {:induction false} WatchTrue(s: Table, p: nat, failed: seq<Op>)
    requires Truthful(s)
    ensures Truthful(Watched(s, p, failed))
    decreases failed, 1
  {
    hide DidAll, Owned, TasksTrue, HoldsTrue, OutTrue;
    if p in s.live {
      var rest := s.(live := s.live - {p});
      HandedOver(s, p, None);
      match s.live[p]
      case Taken =>
        SameOwners(s, s.(trapped := true));
        SameTrue(s, s.(trapped := true));
      case Ready(ok) =>
        SameTrue(s, rest);
        if !ok {
          SameOwners(rest, rest.(notes := s.notes + 1));
          SameTrue(rest, rest.(notes := s.notes + 1));
          DidAllTrue(rest.(notes := s.notes + 1), failed);
        }
      case Waiting(h) => AttachTrue(s, p, h, [], failed, true, WatchOf(p, failed));
    }
  }

  lemma {:induction false} DidAllTrue(s: Table, ops: seq<Op>)
    requires Truthful(s)
    ensures Truthful(DidAll(s, ops))
    decreases ops, 0
  {
    hide Truthful, Did;
    if ops != [] {
      DidTrue(s, ops[0]);
      DidAllTrue(Did(s, ops[0]), ops[1..]);
    }
  }

  // ---------------------------------------------------------------- replies, and draining

  lemma ResolvedTrue(s: Table, h: Handle, read: Read)
    requires Truthful(s)
    ensures Truthful(Resolved(s, h, read))
  {
    hide Owned, TasksTrue, HoldsTrue, OutTrue, Resolved;
    ResolvedOwned(s, h, read);
    if h in s.waiting && read.Arrived? {
      ResolvedTasks(s, h, read.ok);
      ResolvedHolds(s, h, read.ok);
    } else {
      NotResolved(s, h, read);
    }
  }

  lemma NotResolved(s: Table, h: Handle, read: Read)
    requires !(h in s.waiting && read.Arrived?)
    ensures Resolved(s, h, read) == s
  {
  }

  lemma ResolvedHolds(s: Table, h: Handle, ok: bool)
    requires HoldsTrue(s) && OutTrue(s) && Owned(s) && h in s.waiting
    ensures HoldsTrue(Resolved(s, h, Arrived(ok))) && OutTrue(Resolved(s, h, Arrived(ok)))
  {
    hide Owned;
    OwnedOut(s);
    var t := Resolved(s, h, Arrived(ok));
    assert t.live == s.live && t.made == s.made && t.out == s.out - {h} && t.past == Heard(s.past, h, ok);
  }

  /** The task that waited for the reply is queued with what it was attached to do for it. */
  lemma ResolvedTasks(s: Table, h: Handle, ok: bool)
    requires TasksTrue(s) && OutTrue(s) && h in s.waiting
    ensures TasksTrue(Resolved(s, h, Arrived(ok)))
  {
    var t := Resolved(s, h, Arrived(ok));
    assert Grows(s.past, t.past);
    if s.waiting[h].Some? {
      assert Awaits(s.past, h, s.waiting[h].value);
    }
    forall i | 0 <= i < |t.ready| ensures Chosen(t.past, t.ready[i].id, t.ready[i].ops) {
      if i < |s.ready| {
        ChosenStays(s.past, t.past, s.ready[i].id, s.ready[i].ops);
      }
    }
    forall i | 0 <= i < |t.past.turns| && t.past.turns[i].job.Some?
      ensures Chosen(t.past, t.past.turns[i].job.value, t.past.turns[i].ops)
    {
      ChosenStays(s.past, t.past, t.past.turns[i].job.value, t.past.turns[i].ops);
    }
    forall k | k in t.waiting && t.waiting[k].Some? ensures Awaits(t.past, k, t.waiting[k].value) {
      assert Awaits(s.past, k, s.waiting[k].value);
    }
  }

  lemma PoppedTrue(s: Table)
    requires Truthful(s) && s.ready != []
    ensures Truthful(Popped(s))
  {
    hide Owned;
    var t := Popped(s);
    SameOwners(s, t);
    assert Grows(s.past, t.past);
    forall i | 0 <= i < |t.past.turns| && t.past.turns[i].job.Some?
      ensures Chosen(t.past, t.past.turns[i].job.value, t.past.turns[i].ops)
    {
      if i < |s.past.turns| {
        ChosenStays(s.past, t.past, s.past.turns[i].job.value, s.past.turns[i].ops);
      } else {
        ChosenStays(s.past, t.past, s.ready[0].id, s.ready[0].ops);
      }
    }
    assert TasksTrue(t) by {
      forall i | 0 <= i < |t.ready| ensures Chosen(t.past, t.ready[i].id, t.ready[i].ops) {
        ChosenStays(s.past, t.past, s.ready[i + 1].id, s.ready[i + 1].ops);
      }
      forall k | k in t.waiting && t.waiting[k].Some? ensures Awaits(t.past, k, t.waiting[k].value) {
        assert Awaits(s.past, k, s.waiting[k].value);
      }
    }
  }

  lemma {:induction false} DrainedTrue(s: Table)
    requires Truthful(s)
    ensures Truthful(Drained(s))
    decreases Load(s.ready)
  {
    hide Truthful, DidAll;
    if s.ready != [] && !s.trapped {
      PoppedTrue(s);
      DidAllTrue(Popped(s), s.ready[0].ops);
      DrainedTrue(RanFirst(s));
    }
  }

  lemma {:induction false} LoggedTrue(s: Table, n: nat, answers: nat -> Sent)
    requires Truthful(s)
    ensures Truthful(Logged(s, n, answers))
  {
    hide Truthful, NowDone;
    if n > 0 {
      LoggedTrue(s, n - 1, answers);
      NowTrue(Logged(s, n - 1, answers), answers(n - 1));
      LoggedOneTrue(NowDone(Logged(s, n - 1, answers), answers(n - 1)));
    }
  }

  lemma LoggedOneTrue(s: Table)
    requires Truthful(s)
    ensures Truthful(LoggedOne(s))
  {
    hide Owned;
    SameOwners(s, LoggedOne(s));
    TasksStay(s, LoggedOne(s));
  }

  lemma AppCalledTrue(s: Table, ops: seq<Op>)
    requires Truthful(s)
    ensures Truthful(AppCalled(s, ops))
  {
    hide Owned;
    var t := AppCalled(s, ops);
    SameOwners(s, t);
    forall i | 0 <= i < |t.past.turns| && t.past.turns[i].job.Some?
      ensures Chosen(t.past, t.past.turns[i].job.value, t.past.turns[i].ops)
    {
      ChosenStays(s.past, t.past, s.past.turns[i].job.value, s.past.turns[i].ops);
    }
  }

  lemma UnnotedTrue(s: Table)
    requires Truthful(s)
    ensures Truthful(s.(notes := 0))
  {
    hide Owned, TasksTrue;
    SameOwners(s, s.(notes := 0));
    SameTrue(s, s.(notes := 0));
  }

  lemma ApplyTrue(s: Table, a: Action)
    requires Truthful(s)
    ensures Truthful(Apply(s, a))
  {
    hide Truthful, DidAll, Drained, Logged, Resolved, AppCalled;
    AppCalledTrue(s, a.ops);
    DidAllTrue(AppCalled(s, a.ops), a.ops);
    if a.Replied? {
      ResolvedTrue(s, a.h, a.read);
    }
    var d := Drained(Delivered(s, a));
    DrainedTrue(Delivered(s, a));
    UnnotedTrue(d);
    LoggedTrue(d.(notes := 0), d.notes, a.answers);
  }

  lemma {:induction false} EveryRunTrue(s: Table, actions: seq<Action>)
    requires Truthful(s)
    ensures Truthful(AfterAll(s, actions))
    decreases |actions|
  {
    hide Truthful, Apply;
    if actions != [] {
      ApplyTrue(s, actions[0]);
      EveryRunTrue(Apply(s, actions[0]), actions[1..]);
    }
  }

  // ---------------------------------------------------------------- what is held is done

  lemma {:induction false} ScriptJoin(a: seq<Op>, x: seq<Deed>, b: seq<Op>, y: seq<Deed>)
    requires Script(a, x) && Script(b, y)
    ensures Script(a + b, x + y)
    decreases |x|
  {
    if a == [] {
      assert a + b == b && x + y == y;
    } else {
      var rest := (if Fails(x[0]) then a[0].failed else []) + a[1..];
      ScriptJoin(rest, x[1..], b, y);
      assert (x + y)[1..] == x[1..] + y && (a + b)[1..] == a[1..] + b;
      assert rest + b == (if Fails(x[0]) then a[0].failed else []) + (a + b)[1..];
    }
  }

  lemma {:induction false} BegunJoin(a: seq<Op>, x: seq<Deed>, b: seq<Op>, y: seq<Deed>)
    requires Script(a, x) && Begun(b, y)
    ensures Begun(a + b, x + y)
    decreases |x|
  {
    if a == [] {
      assert a + b == b && x + y == y;
    } else {
      var rest := (if Fails(x[0]) then a[0].failed else []) + a[1..];
      BegunJoin(rest, x[1..], b, y);
      assert (x + y)[1..] == x[1..] + y && (a + b)[1..] == a[1..] + b;
      assert rest + b == (if Fails(x[0]) then a[0].failed else []) + (a + b)[1..];
    }
  }

  lemma {:induction false} BegunMore(a: seq<Op>, x: seq<Deed>, b: seq<Op>)
    requires Begun(a, x)
    ensures Begun(a + b, x)
    decreases |x|
  {
    if x != [] {
      var rest := (if Fails(x[0]) then a[0].failed else []) + a[1..];
      BegunMore(rest, x[1..], b);
      assert (a + b)[1..] == a[1..] + b;
      assert rest + b == (if Fails(x[0]) then a[0].failed else []) + (a + b)[1..];
    }
  }

  lemma {:induction false} ScriptBegins(a: seq<Op>, x: seq<Deed>)
    requires Script(a, x)
    ensures Begun(a, x)
    decreases |x|
  {
    if a != [] {
      ScriptBegins((if Fails(x[0]) then a[0].failed else []) + a[1..], x[1..]);
    }
  }

  /** From `s` to `t` whoever's turn it is did `ops`: all of them, unless the instance trapped. */
  ghost predicate Carried(s: Table, t: Table, ops: seq<Op>, done: seq<Deed>) {
    && s.past.turns != [] && |t.past.turns| == |s.past.turns|
    && var m := |s.past.turns| - 1;
       && t.past.turns[..m] == s.past.turns[..m]
       && t.past.turns[m] == s.past.turns[m].(done := s.past.turns[m].done + done)
       && t.ran == s.ran
       && Begun(ops, done) && (!t.trapped ==> !s.trapped && Script(ops, done))
       && (s.trapped ==> t.trapped)
  }

  lemma CarriedThen(s: Table, t: Table, u: Table, a: seq<Op>, x: seq<Deed>, b: seq<Op>, y: seq<Deed>)
    requires Carried(s, t, a, x) && Carried(t, u, b, y)
    requires t.trapped ==> y == []
    ensures Carried(s, u, a + b, x + y)
  {
    hide Begun, Script;
    var m := |s.past.turns| - 1;
    assert s.past.turns[m].done + x + y == s.past.turns[m].done + (x + y);
    if t.trapped {
      BegunMore(a, x, b);
      assert x + y == x;
    } else {
      BegunJoin(a, x, b, y);
      if !u.trapped {
        ScriptJoin(a, x, b, y);
      }
    }
  }

  lemma NotedCarries(s: Table, op: Op)
    requires s.past.turns != []
    ensures var n, m := Noted(s, op), |s.past.turns| - 1;
            && |n.past.turns| == m + 1 && n.past.turns[..m] == s.past.turns[..m]
            && n.past.turns[m] == s.past.turns[m].(done := s.past.turns[m].done
                                                           + [Deed(op, HeldBy(s.live, op))])
  {
  }

  /** An operation that is no failure in hand is done, and that is all. */
  lemma OneDeed(s: Table, t: Table, op: Op)
    requires s.past.turns != [] && !s.trapped && !Fails(Deed(op, HeldBy(s.live, op)))
    requires t.past.turns == Noted(s, op).past.turns && t.ran == s.ran
    ensures Carried(s, t, [op], [Deed(op, HeldBy(s.live, op))])
  {
    NotedCarries(s, op);
    assert [op][1..] == [] && [Deed(op, HeldBy(s.live, op))][1..] == [];
    assert [] + [op][1..] == [];
  }

  lemma {:induction false} DidCarries(s: Table, op: Op) returns (done: seq<Deed>)
    requires Truthful(s) && s.past.turns != [] && !s.trapped
    ensures Carried(s, Did(s, op), [op], done)
    decreases op, 0
  {
    hide DidAll, Owned, OutTrue, TasksTrue;
    done := [Deed(op, HeldBy(s.live, op))];
    match op
    case Watch(p, failed) =>
      if Fails(Deed(op, HeldBy(s.live, op))) {
        var n := Noted(s, op);
        var rest := n.(live := n.live - {p}, notes := n.notes + 1);
        FailsInHand(s, p, failed);
        WatchedTrue(s, p, failed);
        NotedCarries(s, op);
        var more := DidAllCarries(rest, failed);
        done := [Deed(op, HeldBy(s.live, op))] + more;
        InlineCarries(s, rest, Did(s, op), op, more);
      } else {
        DidTurns(s, op);
        OneDeed(s, Did(s, op), op);
      }
    case _ =>
      DidTurns(s, op);
      OneDeed(s, Did(s, op), op);
  }

  lemma FailsInHand(s: Table, p: nat, failed: seq<Op>)
    requires !s.trapped && HeldBy(s.live, Watch(p, failed)) == Some(Ready(false))
    ensures p in s.live && s.live[p] == Ready(false)
    ensures var n := Noted(s, Watch(p, failed));
            Did(s, Watch(p, failed)) == DidAll(n.(live := n.live - {p}, notes := n.notes + 1), failed)
  {
    hide DidAll;
    var n := Noted(s, Watch(p, failed));
    assert Watched(n, p, failed) == DidAll(n.(live := n.live - {p}, notes := n.notes + 1), failed);
  }

  /** An operation that is no failure in hand takes no turn but its own deed. */
  lemma DidTurns(s: Table, op: Op)
    requires !s.trapped && !Fails(Deed(op, HeldBy(s.live, op)))
    ensures var t := Did(s, op); t.past.turns == Noted(s, op).past.turns && t.ran == s.ran
  {
    hide Doing, DidAll;
    var n := Noted(s, op);
    match op
    case Watch(p, failed) =>
      if p in s.live && s.live[p].Ready? {
        assert Watched(n, p, failed) == n.(live := n.live - {p});
      }
    case _ =>
  }

  /** ... and changes no reply that is in. */
  lemma DidReplies(s: Table, op: Op)
    requires HoldsTrue(s) && OutTrue(s) && !s.trapped && !Fails(Deed(op, HeldBy(s.live, op)))
    ensures forall p :: p in s.past.replies ==>
              p in Did(s, op).past.replies && Did(s, op).past.replies[p] == s.past.replies[p]
  {
    hide DidAll, Doing;
    var n := Noted(s, op);
    NotedSame(s, op);
    match op
    case Watch(p, failed) =>
      if p in s.live && s.live[p].Ready? {
        assert Watched(n, p, failed) == n.(live := n.live - {p});
      }
    case _ =>
  }

  lemma WatchedTrue(s: Table, p: nat, failed: seq<Op>)
    requires Truthful(s) && p in s.live && s.live[p].Ready?
    ensures var n := Noted(s, Watch(p, failed)); Truthful(n.(live := n.live - {p}, notes := n.notes + 1))
  {
    hide Owned, HoldsTrue, OutTrue, TasksTrue;
    var n := Noted(s, Watch(p, failed));
    NotedTrue(s, Watch(p, failed));
    TrueIs(n);
    HandedOver(n, p, None);
    var t := n.(live := n.live - {p}, notes := n.notes + 1);
    SameOwners(n.(live := n.live - {p}), t);
    SameTrue(n, t);
  }

  lemma InlineCarries(s: Table, rest: Table, t: Table, op: Op, more: seq<Deed>)
    requires op.Watch? && s.past.turns != [] && !s.trapped && Fails(Deed(op, HeldBy(s.live, op)))
    requires rest.past == Noted(s, op).past && rest.ran == s.ran && rest.trapped == s.trapped
    requires Carried(rest, t, op.failed, more)
    ensures Carried(s, t, [op], [Deed(op, HeldBy(s.live, op))] + more)
  {
    NotedCarries(s, op);
    var done, m := [Deed(op, HeldBy(s.live, op))] + more, |s.past.turns| - 1;
    assert done[1..] == more && op.failed + [op][1..] == op.failed;
    assert s.past.turns[m].done + [Deed(op, HeldBy(s.live, op))] + more == s.past.turns[m].done + done;
  }

  lemma {:induction false} DidAllCarries(s: Table, ops: seq<Op>) returns (done: seq<Deed>)
    requires Truthful(s) && s.past.turns != []
    ensures Carried(s, DidAll(s, ops), ops, done) && (s.trapped ==> done == [])
    decreases ops, 1
  {
    hide Truthful, Did, Carried;
    if ops == [] || s.trapped {
      DidNothing(s, ops);
      return [];
    }
    var first := DidCarries(s, ops[0]);
    var t := Did(s, ops[0]);
    DidTrue(s, ops[0]);
    CarriedTurns(s, t, [ops[0]], first);
    var rest := DidAllCarries(t, ops[1..]);
    CarriedThen(s, t, DidAll(s, ops), [ops[0]], first, ops[1..], rest);
    assert [ops[0]] + ops[1..] == ops;
    return first + rest;
  }

  lemma CarriedTurns(s: Table, t: Table, ops: seq<Op>, done: seq<Deed>)
    requires Carried(s, t, ops, done)
    ensures t.past.turns != []
  {
  }

  lemma {:induction false} DidNothing(s: Table, ops: seq<Op>)
    requires s.past.turns != [] && (ops == [] || s.trapped)
    ensures DidAll(s, ops) == s && Carried(s, s, ops, [])
    decreases |ops|
  {
    var m := |s.past.turns| - 1;
    assert s.past.turns[m].done + [] == s.past.turns[m].done;
    if ops != [] {
      DidNothing(s, ops[1..]);
    }
  }

  /** Every turn did what it was to do; the last one of an instance that trapped, as far as it got. */
  ghost predicate PlayedOut(s: Table) {
    && (forall i :: 0 <= i < |s.past.turns| ==>
          && Begun(s.past.turns[i].ops, s.past.turns[i].done)
          && (i < |s.past.turns| - 1 || !s.trapped ==> Script(s.past.turns[i].ops, s.past.turns[i].done)))
    && RanIn(s.past.turns) == s.ran
  }

  /** A turn is taken. */
  lemma TurnPlayed(s: Table, c: Table, job: Option<nat>, ops: seq<Op>)
    requires PlayedOut(s) && !s.trapped && Truthful(c)
    requires c.past.turns == s.past.turns + [Turn(job, ops, [])] && !c.trapped
    requires c.ran == s.ran + (if job.Some? then [job.value] else [])
    ensures var t := DidAll(c, ops);
            && PlayedOut(t) && |t.past.turns| == |s.past.turns| + 1 && s.past.turns <= t.past.turns
            && t.past.turns[|s.past.turns|].job == job && t.past.turns[|s.past.turns|].ops == ops
  {
    hide Truthful, DidAll, Begun, Script;
    var done := DidAllCarries(c, ops);
    var t, m := DidAll(c, ops), |s.past.turns|;
    assert c.past.turns[..m] == s.past.turns && c.past.turns[m].done + done == done;
    assert t.past.turns[..m] == s.past.turns;
    forall i | 0 <= i < m ensures t.past.turns[i] == s.past.turns[i] {
      assert t.past.turns[..m][i] == s.past.turns[i];
    }
  }

  /** The app's turns: what it was called to do, call by call. */
  function AppIn(turns: seq<Turn>): seq<seq<Op>> {
    if turns == [] then []
    else
      var rest, last := AppIn(turns[..|turns| - 1]), turns[|turns| - 1];
      if last.job.None? then rest + [last.ops] else rest
  }

  lemma AppSnoc(turns: seq<Turn>, more: seq<Turn>)
    requires turns <= more && |more| == |turns| + 1
    ensures AppIn(more) == AppIn(turns) + if more[|turns|].job.None? then [more[|turns|].ops] else []
  {
    assert more[..|turns|] == turns;
  }

  lemma {:induction false} DrainedPlays(s: Table)
    requires Truthful(s) && PlayedOut(s)
    ensures PlayedOut(Drained(s)) && AppIn(Drained(s).past.turns) == AppIn(s.past.turns)
    decreases Load(s.ready)
  {
    hide Truthful, DidAll, PlayedOut;
    if s.ready != [] && !s.trapped {
      var job, t := s.ready[0], RanFirst(s);
      PoppedTrue(s);
      DidAllTrue(Popped(s), job.ops);
      TurnPlayed(s, Popped(s), Some(job.id), job.ops);
      AppSnoc(s.past.turns, t.past.turns);
      DrainedPlays(t);
    }
  }

  lemma {:induction false} LoggedPlays(s: Table, n: nat, answers: nat -> Sent)
    ensures var t := Logged(s, n, answers);
            t.past.turns == s.past.turns && t.ran == s.ran && t.trapped == s.trapped
  {
    if n > 0 {
      LoggedPlays(s, n - 1, answers);
    }
  }

  /** What an export gives the app: what it is called for, or an announcement the executor does not own. */
  function Gives(s: Table, a: Action): seq<seq<Op>> {
    if s.trapped || (a.Replied? && Owns(s, a.h)) then [] else [a.ops]
  }

  function GivenOver(s: Table, actions: seq<Action>): seq<seq<Op>>
    decreases |actions|
  {
    if actions == [] then [] else Gives(s, actions[0]) + GivenOver(Apply(s, actions[0]), actions[1..])
  }

  lemma ApplyPlays(s: Table, a: Action)
    requires Truthful(s) && PlayedOut(s)
    ensures PlayedOut(Apply(s, a)) && AppIn(Apply(s, a).past.turns) == AppIn(s.past.turns) + Gives(s, a)
  {
    hide Truthful, DidAll, Drained, Logged, PlayedOut;
    if !s.trapped {
      DeliveredPlays(s, a);
      var g := Delivered(s, a);
      var d := Drained(g);
      DrainedPlays(g);
      LoggedPlays(d.(notes := 0), d.notes, a.answers);
      SamePlay(d, Apply(s, a));
    }
  }

  lemma SamePlay(s: Table, t: Table)
    requires PlayedOut(s) && t.past.turns == s.past.turns && t.ran == s.ran && t.trapped == s.trapped
    ensures PlayedOut(t)
  {
  }

  lemma DeliveredPlays(s: Table, a: Action)
    requires Truthful(s) && PlayedOut(s) && !s.trapped
    ensures var g := Delivered(s, a);
            Truthful(g) && PlayedOut(g) && AppIn(g.past.turns) == AppIn(s.past.turns) + Gives(s, a)
  {
    hide Truthful, DidAll, PlayedOut;
    if a.Replied? && Owns(s, a.h) {
      ResolvedTrue(s, a.h, a.read);
      SamePlay(s, Resolved(s, a.h, a.read));
    } else {
      var c := AppCalled(s, a.ops);
      AppCalledTrue(s, a.ops);
      DidAllTrue(c, a.ops);
      TurnPlayed(s, c, None, a.ops);
      AppSnoc(s.past.turns, DidAll(c, a.ops).past.turns);
    }
  }

  lemma {:induction false} EveryRunPlays(s: Table, actions: seq<Action>)
    requires Truthful(s) && PlayedOut(s)
    ensures Truthful(AfterAll(s, actions)) && PlayedOut(AfterAll(s, actions))
    ensures AppIn(AfterAll(s, actions).past.turns) == AppIn(s.past.turns) + GivenOver(s, actions)
    decreases |actions|
  {
    hide Truthful, PlayedOut, Apply;
    if actions != [] {
      ApplyTrue(s, actions[0]);
      ApplyPlays(s, actions[0]);
      EveryRunPlays(Apply(s, actions[0]), actions[1..]);
    }
  }

  lemma NothingPlayed()
    ensures Truthful(EMPTY) && PlayedOut(EMPTY)
  {
    NothingOwned();
  }

  // ---------------------------------------------------------------- what was started, and what was attached

  /** What an operation attaches, if anything: to a `Pending` in hand or waiting. */
  function Binds(deed: Deed): seq<Bound> {
    match deed.op
    case Then(p, ifOk, ifErr) =>
      if deed.held.Some? && !deed.held.value.Taken? then [ThenOf(p, ifOk, ifErr)] else []
    case Watch(p, failed) => if deed.held.Some? && deed.held.value.Waiting? then [WatchOf(p, failed)] else []
    case Spawn(ops) => [SpawnOf(ops)]
    case _ => []
  }

  function BindsAll(done: seq<Deed>): seq<Bound> {
    if done == [] then [] else BindsAll(done[..|done| - 1]) + Binds(done[|done| - 1])
  }

  /** Everything attached, in order. */
  function Bindings(turns: seq<Turn>): seq<Bound> {
    if turns == [] then [] else Bindings(turns[..|turns| - 1]) + BindsAll(turns[|turns| - 1].done)
  }

  function StartsAll(done: seq<Deed>): seq<Sent> {
    if done == [] then []
    else
      var rest, last := StartsAll(done[..|done| - 1]), done[|done| - 1];
      if last.op.Start? then rest + [last.op.sent] else rest
  }

  /** What the host answered to every call started, in order. */
  function Starts(turns: seq<Turn>): seq<Sent> {
    if turns == [] then [] else Starts(turns[..|turns| - 1]) + StartsAll(turns[|turns| - 1].done)
  }

  /** Tasks are numbered as they were attached, and calls as they were started; a call answered at once
      came to its answer. */
  ghost predicate Numbered(s: Table) {
    && |Bindings(s.past.turns)| == s.attached
    && (forall id :: 0 <= id < s.attached ==> id in s.past.bound && s.past.bound[id] == Bindings(s.past.turns)[id])
    && |Starts(s.past.turns)| == s.made
    && (forall p :: 0 <= p < s.made && Starts(s.past.turns)[p].Done? ==>
          p in s.past.replies && s.past.replies[p] == Starts(s.past.turns)[p].ok)
  }

  lemma DeedCounts(s: Table, op: Op)
    requires s.past.turns != []
    ensures var turns, deed := Noted(s, op).past.turns, Deed(op, HeldBy(s.live, op));
            && turns != []
            && Bindings(turns) == Bindings(s.past.turns) + Binds(deed)
            && Starts(turns) == Starts(s.past.turns) + if op.Start? then [op.sent] else []
  {
    var turns, deed, m := Noted(s, op).past.turns, Deed(op, HeldBy(s.live, op)), |s.past.turns| - 1;
    var done := s.past.turns[m].done;
    assert turns[..m] == s.past.turns[..m] && turns[m].done == done + [deed];
    assert (done + [deed])[..|done|] == done;
  }

  /** An operation numbers what it attaches and what it starts. */
  lemma DidCounts(s: Table, op: Op)
    requires OutTrue(s) && !s.trapped && !Fails(Deed(op, HeldBy(s.live, op)))
    ensures var t, b := Did(s, op), Binds(Deed(op, HeldBy(s.live, op)));
            && |b| <= 1 && t.attached == s.attached + |b|
            && t.past.bound == (if b == [] then s.past.bound else s.past.bound[s.attached := b[0]])
            && t.made == s.made + (if op.Start? then 1 else 0)
  {
    hide DidAll, Doing;
    var n := Noted(s, op);
    NotedSame(s, op);
    match op
    case Watch(p, failed) =>
      if p in s.live && s.live[p].Ready? {
        assert Watched(n, p, failed) == n.(live := n.live - {p});
      }
    case _ =>
  }

  lemma NotedSame(s: Table, op: Op)
    ensures var n := Noted(s, op);
            n == s.(past := n.past) && n.past == s.past.(turns := n.past.turns)
  {
  }

  lemma StartReplies(s: Table, sent: Sent)
    requires !s.trapped && sent.Done?
    ensures var t := Did(s, Start(sent)); s.made in t.past.replies && t.past.replies[s.made] == sent.ok
  {
    NotedSame(s, Start(sent));
  }

  lemma {:induction false} DidNumbered(s: Table, op: Op)
    requires Truthful(s) && Numbered(s) && s.past.turns != [] && !s.trapped
    ensures Numbered(Did(s, op)) && Did(s, op).past.turns != []
    decreases op, 0
  {
    hide Did, DidAll, Owned, TasksTrue, HoldsTrue, OutTrue, Bindings, Starts, Doing;
    DeedCounts(s, op);
    if Fails(Deed(op, HeldBy(s.live, op))) {
      var n := Noted(s, op);
      NotedSame(s, op);
      FailsInHand(s, op.p, op.failed);
      WatchedTrue(s, op.p, op.failed);
      DidAllNumbered(n.(live := n.live - {op.p}, notes := n.notes + 1), op.failed);
    } else {
      DidTurns(s, op);
      DidReplies(s, op);
      DidCounts(s, op);
      if op.Start? && op.sent.Done? {
        StartReplies(s, op.sent);
      }
    }
  }

  lemma {:induction false} DidAllNumbered(s: Table, ops: seq<Op>)
    requires Truthful(s) && Numbered(s) && s.past.turns != []
    ensures Numbered(DidAll(s, ops)) && DidAll(s, ops).past.turns != []
    decreases ops, 1
  {
    hide Truthful, Numbered, Did;
    if s.trapped {
      DidNothing(s, ops);
    } else if ops != [] {
      DidTrue(s, ops[0]);
      DidNumbered(s, ops[0]);
      DidAllNumbered(Did(s, ops[0]), ops[1..]);
    }
  }

  /** A new turn has attached and started nothing yet. */
  lemma TurnCounts(s: Table, t: Table, turn: Turn)
    requires Numbered(s) && turn.done == [] && t.past == s.past.(turns := s.past.turns + [turn])
    requires t.attached == s.attached && t.made == s.made
    ensures Numbered(t) && t.past.turns != []
  {
    assert t.past.turns[..|s.past.turns|] == s.past.turns;
  }

  lemma SameNumbers(s: Table, t: Table)
    requires Numbered(s) && t.attached == s.attached && t.made == s.made
    requires t.past.turns == s.past.turns && t.past.bound == s.past.bound
    requires forall p :: p in s.past.replies ==> p in t.past.replies && t.past.replies[p] == s.past.replies[p]
    ensures Numbered(t)
  {
  }

  lemma {:induction false} DrainedNumbered(s: Table)
    requires Truthful(s) && Numbered(s)
    ensures Numbered(Drained(s))
    decreases Load(s.ready)
  {
    hide Truthful, Numbered, DidAll;
    if s.ready != [] && !s.trapped {
      var job := s.ready[0];
      PoppedTrue(s);
      TurnCounts(s, Popped(s), Turn(Some(job.id), job.ops, []));
      DidAllTrue(Popped(s), job.ops);
      DidAllNumbered(Popped(s), job.ops);
      DrainedNumbered(RanFirst(s));
    }
  }

  lemma {:induction false} LoggedNumbered(s: Table, n: nat, answers: nat -> Sent)
    requires Numbered(s)
    ensures Numbered(Logged(s, n, answers))
  {
    hide Numbered;
    if n > 0 {
      LoggedNumbered(s, n - 1, answers);
      SameNumbers(Logged(s, n - 1, answers), Logged(s, n, answers));
    }
  }

  lemma ResolvedNumbered(s: Table, h: Handle, read: Read)
    requires Truthful(s) && Numbered(s)
    ensures Numbered(Resolved(s, h, read))
  {
    hide Owned, TasksTrue, HoldsTrue, Numbered;
    SameNumbers(s, Resolved(s, h, read));
  }

  lemma ApplyNumbered(s: Table, a: Action)
    requires Truthful(s) && Numbered(s)
    ensures Numbered(Apply(s, a))
  {
    hide Truthful, Numbered, DidAll, Drained, Logged, Resolved;
    var c := AppCalled(s, a.ops);
    AppCalledTrue(s, a.ops);
    TurnCounts(s, c, Turn(None, a.ops, []));
    DidAllTrue(c, a.ops);
    DidAllNumbered(c, a.ops);
    if a.Replied? {
      ResolvedTrue(s, a.h, a.read);
      ResolvedNumbered(s, a.h, a.read);
    }
    var d := Drained(Delivered(s, a));
    DrainedNumbered(Delivered(s, a));
    SameNumbers(d, d.(notes := 0));
    LoggedNumbered(d.(notes := 0), d.notes, a.answers);
  }

  lemma {:induction false} EveryRunNumbered(s: Table, actions: seq<Action>)
    requires Truthful(s) && Numbered(s)
    ensures Numbered(AfterAll(s, actions))
    decreases |actions|
  {
    hide Truthful, Numbered, Apply;
    if actions != [] {
      ApplyTrue(s, actions[0]);
      ApplyNumbered(s, actions[0]);
      EveryRunNumbered(Apply(s, actions[0]), actions[1..]);
    }
  }

  // ---------------------------------------------------------------- what is used, and what fails

  function TotalOf(done: seq<Deed>, weight: Deed -> nat): nat {
    if done == [] then 0 else TotalOf(done[..|done| - 1], weight) + weight(done[|done| - 1])
  }

  function Total(turns: seq<Turn>, weight: Deed -> nat): nat {
    if turns == [] then 0 else Total(turns[..|turns| - 1], weight) + TotalOf(turns[|turns| - 1].done, weight)
  }

  /** The `Pending` is used up: its reply is taken, or it is handed over. */
  predicate UsesUp(deed: Deed, p: nat) {
    && deed.held.Some?
    && match deed.op
       case Take(q) => q == p && deed.held.value.Ready?
       case Poll(q, read) =>
         q == p && (deed.held.value.Ready? || (deed.held.value.Waiting? && read.Arrived?))
       case Then(q, _, _) => q == p && !deed.held.value.Taken?
       case Watch(q, _) => q == p && !deed.held.value.Taken?
       case Drop(q) => q == p && !deed.held.value.Taken?
       case _ => false
  }

  function Using(p: nat): Deed -> nat {
    (deed: Deed) => if UsesUp(deed, p) then 1 else 0
  }

  /** Attaching to a `Pending` whose reply was taken. */
  function Misusing(): Deed -> nat {
    (deed: Deed) => if (deed.op.Then? || deed.op.Watch?) && deed.held == Some(Taken) then 1 else 0
  }

  function Failing(): Deed -> nat {
    (deed: Deed) => if Fails(deed) then 1 else 0
  }

  /** The task watched a call that came to a failure. */
  predicate WatchedFailure(past: Record, id: nat) {
    && id in past.bound && past.bound[id].WatchOf?
    && past.bound[id].p in past.replies && !past.replies[past.bound[id].p]
  }

  function FailedTasks(past: Record, turns: seq<Turn>): nat {
    if turns == [] then 0
    else
      var last := turns[|turns| - 1];
      FailedTasks(past, turns[..|turns| - 1])
      + if last.job.Some? && WatchedFailure(past, last.job.value) then 1 else 0
  }

  function Spent(s: Table, p: nat): nat {
    if p < s.made && !(p in s.live && !s.live[p].Taken?) then 1 else 0
  }

  ghost predicate Tally(s: Table) {
    && (forall p :: Total(s.past.turns, Using(p)) == Spent(s, p))
    && (s.trapped <==> Total(s.past.turns, Misusing()) > 0)
    && s.notes + s.past.logs == Total(s.past.turns, Failing()) + FailedTasks(s.past, s.past.turns)
    && (forall i :: 0 <= i < |s.ready| ==> (s.ready[i].notes <==> WatchedFailure(s.past, s.ready[i].id)))
  }

  lemma DeedTotals(s: Table, op: Op, weight: Deed -> nat)
    requires s.past.turns != []
    ensures Total(Noted(s, op).past.turns, weight) == Total(s.past.turns, weight) + weight(Deed(op, HeldBy(s.live, op)))
  {
    var turns, deed, m := Noted(s, op).past.turns, Deed(op, HeldBy(s.live, op)), |s.past.turns| - 1;
    var done := s.past.turns[m].done;
    assert turns[..m] == s.past.turns[..m] && turns[m].done == done + [deed];
    assert (done + [deed])[..|done|] == done;
  }

  lemma {:induction false} FailedTasksStay(a: Record, b: Record, turns: seq<Turn>, more: seq<Turn>)
    requires Grows(a, b) && |turns| == |more|
    requires forall i :: 0 <= i < |turns| ==>
               turns[i].job == more[i].job && (turns[i].job.Some? ==> Chosen(a, turns[i].job.value, turns[i].ops))
    ensures FailedTasks(b, more) == FailedTasks(a, turns)
  {
    if turns != [] {
      FailedTasksStay(a, b, turns[..|turns| - 1], more[..|more| - 1]);
    }
  }

  /** What an operation does to the `Pending`s the app holds. */
  lemma DidSpends(s: Table, op: Op, p: nat)
    requires OutTrue(s) && !s.trapped && !Fails(Deed(op, HeldBy(s.live, op)))
    ensures Spent(Did(s, op), p) == Spent(s, p) + Using(p)(Deed(op, HeldBy(s.live, op)))
  {
    hide DidAll, Doing;
    var n := Noted(s, op);
    NotedSame(s, op);
    match op
    case Watch(q, failed) =>
      if q in s.live && s.live[q].Ready? {
        assert Watched(n, q, failed) == n.(live := n.live - {q});
      }
    case _ =>
  }

  lemma DidTraps(s: Table, op: Op)
    requires !s.trapped && !Fails(Deed(op, HeldBy(s.live, op)))
    ensures var t := Did(s, op);
            && (t.trapped <==> Misusing()(Deed(op, HeldBy(s.live, op))) > 0)
            && t.notes == s.notes && t.past.logs == s.past.logs
            && s.ready <= t.ready && (forall i :: |s.ready| <= i < |t.ready| ==> !t.ready[i].notes)
            && (forall i :: |s.ready| <= i < |t.ready| ==> t.ready[i].id == s.attached && !op.Watch?)
  {
    hide DidAll, Doing;
    var n := Noted(s, op);
    NotedSame(s, op);
    match op
    case Watch(q, failed) =>
      if q in s.live && s.live[q].Ready? {
        assert Watched(n, q, failed) == n.(live := n.live - {q});
      }
    case _ =>
  }

  lemma DidGrows(s: Table, op: Op)
    requires Truthful(s) && !s.trapped && !Fails(Deed(op, HeldBy(s.live, op)))
    ensures Grows(s.past, Did(s, op).past)
  {
    hide Did, Owned;
    DidReplies(s, op);
    DidCounts(s, op);
  }

  lemma {:induction false} DidTally(s: Table, op: Op)
    requires Truthful(s) && Tally(s) && s.past.turns != [] && !s.trapped
    ensures Tally(Did(s, op)) && Did(s, op).past.turns != []
    decreases op, 0
  {
    hide Did, DidAll, Truthful, Total, FailedTasks, Spent, Doing;
    var deed, t := Deed(op, HeldBy(s.live, op)), Did(s, op);
    TrueIs(s);
    forall p ensures Total(Noted(s, op).past.turns, Using(p)) == Total(s.past.turns, Using(p)) + Using(p)(deed) {
      DeedTotals(s, op, Using(p));
    }
    DeedTotals(s, op, Misusing());
    DeedTotals(s, op, Failing());
    NotedTurns(s, op);
    if Fails(deed) {
      FailsInHand(s, op.p, op.failed);
      WatchedTrue(s, op.p, op.failed);
      FailureTally(s, op);
      var n := Noted(s, op);
      DidAllTally(n.(live := n.live - {op.p}, notes := n.notes + 1), op.failed);
    } else {
      DidTurns(s, op);
      DidTraps(s, op);
      DidGrows(s, op);
      DidTrue(s, op);
      QuickTally(s, op);
    }
  }

  lemma NotedTurns(s: Table, op: Op)
    requires s.past.turns != []
    ensures var turns := Noted(s, op).past.turns;
            turns != [] && |turns| == |s.past.turns|
            && forall i :: 0 <= i < |turns| ==>
                 turns[i].job == s.past.turns[i].job && turns[i].ops == s.past.turns[i].ops
  {
  }

  /** An operation that is no failure in hand keeps the tally. */
  lemma QuickTally(s: Table, op: Op)
    requires Truthful(s) && Tally(s) && s.past.turns != [] && !s.trapped && !Fails(Deed(op, HeldBy(s.live, op)))
    ensures Tally(Did(s, op)) && Did(s, op).past.turns != []
  {
    hide Did, Truthful, Total, FailedTasks, Spent, Doing, Noted;
    var deed, t := Deed(op, HeldBy(s.live, op)), Did(s, op);
    TrueIs(s);
    NotedTurns(s, op);
    DidTurns(s, op);
    DidTraps(s, op);
    DidGrows(s, op);
    forall p ensures Total(t.past.turns, Using(p)) == Spent(t, p) {
      DeedTotals(s, op, Using(p));
      DidSpends(s, op, p);
    }
    DeedTotals(s, op, Misusing());
    DeedTotals(s, op, Failing());
    FailedTasksStay(s.past, t.past, s.past.turns, t.past.turns);
    forall i | 0 <= i < |t.ready| ensures t.ready[i].notes <==> WatchedFailure(t.past, t.ready[i].id) {
      if i < |s.ready| {
        assert t.ready[i] == s.ready[i];
      } else {
        NewlyReady(s, op, i);
      }
    }
  }

  lemma NewlyReady(s: Table, op: Op, i: nat)
    requires OutTrue(s) && !s.trapped && !Fails(Deed(op, HeldBy(s.live, op)))
    requires |s.ready| <= i < |Did(s, op).ready|
    ensures !WatchedFailure(Did(s, op).past, Did(s, op).ready[i].id) && !Did(s, op).ready[i].notes
  {
    hide Did;
    DidTraps(s, op);
    DidCounts(s, op);
    BindsReady(s, op);
  }

  lemma BindsReady(s: Table, op: Op)
    requires !s.trapped && !Fails(Deed(op, HeldBy(s.live, op)))
    ensures |Did(s, op).ready| > |s.ready| ==>
              Binds(Deed(op, HeldBy(s.live, op))) != [] && !Binds(Deed(op, HeldBy(s.live, op)))[0].WatchOf?
  {
    hide DidAll, Doing;
    var n := Noted(s, op);
    NotedSame(s, op);
    match op
    case Watch(q, failed) =>
      assert Did(s, op) == Watched(n, q, failed);
      if q in s.live && s.live[q].Ready? {
        assert Watched(n, q, failed) == n.(live := n.live - {q});
      }
      assert Did(s, op).ready == s.ready;
    case _ =>
  }

  /** A failure in hand is one more, and is noted. */
  lemma FailureTally(s: Table, op: Op)
    requires Truthful(s) && Tally(s) && s.past.turns != [] && !s.trapped && Fails(Deed(op, HeldBy(s.live, op)))
    ensures var n := Noted(s, op); Tally(n.(live := n.live - {op.p}, notes := n.notes + 1))
  {
    hide Truthful, Total, FailedTasks, Doing;
    var n := Noted(s, op);
    var t := n.(live := n.live - {op.p}, notes := n.notes + 1);
    TrueIs(s);
    NotedSame(s, op);
    NotedTurns(s, op);
    OutIs(s);
    forall p ensures Total(t.past.turns, Using(p)) == Spent(t, p) {
      DeedTotals(s, op, Using(p));
      assert op.p < s.made;
    }
    DeedTotals(s, op, Misusing());
    DeedTotals(s, op, Failing());
    FailedTasksStay(s.past, t.past, s.past.turns, t.past.turns);
  }

  lemma {:induction false} DidAllTally(s: Table, ops: seq<Op>)
    requires Truthful(s) && Tally(s) && s.past.turns != []
    ensures Tally(DidAll(s, ops)) && DidAll(s, ops).past.turns != []
    decreases ops, 1
  {
    hide Truthful, Tally, Did;
    if s.trapped {
      DidNothing(s, ops);
    } else if ops != [] {
      DidTrue(s, ops[0]);
      DidTally(s, ops[0]);
      DidAllTally(Did(s, ops[0]), ops[1..]);
    }
  }

  /** A new turn. */
  lemma TurnTally(s: Table, t: Table, job: Option<nat>, ops: seq<Op>)
    requires TasksTrue(s) && Tally(s) && t.past == Turning(s.past, job, ops)
    requires t.live == s.live && t.made == s.made && t.trapped == s.trapped
    requires if job.None? then t.ready == s.ready && t.notes == s.notes
             else s.ready != [] && t.ready == s.ready[1..] && job.value == s.ready[0].id
                  && t.notes == s.notes + if s.ready[0].notes then 1 else 0
    ensures Tally(t) && t.past.turns != []
  {
    hide TasksTrue;
    var turns, m := t.past.turns, |s.past.turns|;
    assert turns[..m] == s.past.turns && turns[m] == Turn(job, ops, []);
    forall weight: Deed -> nat ensures Total(turns, weight) == Total(s.past.turns, weight) {
    }
    forall p ensures Total(turns, Using(p)) == Spent(t, p) {
      assert Total(turns, Using(p)) == Total(s.past.turns, Using(p));
    }
    TurnsChosen(s);
    FailedTasksStay(s.past, t.past, s.past.turns, s.past.turns);
    assert FailedTasks(t.past, turns) == FailedTasks(t.past, s.past.turns)
                                         + if job.Some? && WatchedFailure(t.past, job.value) then 1 else 0;
  }

  lemma TurnsChosen(s: Table)
    requires TasksTrue(s)
    ensures forall i :: 0 <= i < |s.past.turns| && s.past.turns[i].job.Some? ==>
              Chosen(s.past, s.past.turns[i].job.value, s.past.turns[i].ops)
    ensures forall i :: 0 <= i < |s.ready| ==> Chosen(s.past, s.ready[i].id, s.ready[i].ops)
  {
  }

  lemma {:induction false} DrainedTally(s: Table)
    requires Truthful(s) && Tally(s)
    ensures Tally(Drained(s))
    decreases Load(s.ready)
  {
    hide Truthful, Tally, DidAll;
    if s.ready != [] && !s.trapped {
      var job := s.ready[0];
      PoppedTrue(s);
      TrueIs(s);
      TurnTally(s, Popped(s), Some(job.id), job.ops);
      DidAllTrue(Popped(s), job.ops);
      DidAllTally(Popped(s), job.ops);
      DrainedTally(RanFirst(s));
    }
  }

  /** Only what matters to the tally. */
  lemma SameTally(s: Table, t: Table)
    requires Tally(s) && t.live == s.live && t.made == s.made && t.trapped == s.trapped && t.ready == s.ready
    requires t.past.turns == s.past.turns && t.past.bound == s.past.bound && t.past.replies == s.past.replies
    requires t.notes + t.past.logs == s.notes + s.past.logs
    ensures Tally(t)
  {
    SameFailures(s.past, t.past, s.past.turns);
  }

  lemma {:induction false} SameFailures(a: Record, b: Record, turns: seq<Turn>)
    requires a.bound == b.bound && a.replies == b.replies
    ensures FailedTasks(a, turns) == FailedTasks(b, turns)
  {
    if turns != [] {
      SameFailures(a, b, turns[..|turns| - 1]);
    }
  }

  /** Each note is logged once. */
  lemma {:induction false} LoggedTally(s: Table, n: nat, answers: nat -> Sent)
    ensures var t := Logged(s, n, answers);
            && t.live == s.live && t.made == s.made && t.trapped == s.trapped && t.ready == s.ready
            && t.notes == s.notes
            && t.past.turns == s.past.turns && t.past.bound == s.past.bound && t.past.replies == s.past.replies
            && t.past.logs == s.past.logs + n
  {
    if n > 0 {
      LoggedTally(s, n - 1, answers);
    }
  }

  lemma ResolvedTally(s: Table, h: Handle, read: Read)
    requires Truthful(s) && Tally(s)
    ensures Tally(Resolved(s, h, read))
  {
    hide Owned, TasksTrue, HoldsTrue, OutTrue, Total, FailedTasks, Chosen, Heard, WatchedFailure;
    var t := Resolved(s, h, read);
    if h in s.waiting && read.Arrived? {
      HeardSame(s.past, h, read.ok);
      HeardGrows(s, h, read.ok);
      TurnsChosen(s);
      FailedTasksStay(s.past, t.past, s.past.turns, t.past.turns);
      if s.waiting[h].Some? {
        WaitsFor(s, h, read.ok);
      }
    }
  }

  lemma HeardSame(past: Record, h: Handle, ok: bool)
    ensures var now := Heard(past, h, ok); now == past.(replies := now.replies)
  {
  }

  lemma HeardGrows(s: Table, h: Handle, ok: bool)
    requires OutTrue(s) && TasksTrue(s) && h in s.waiting
    ensures Grows(s.past, Heard(s.past, h, ok))
    ensures forall i :: 0 <= i < |s.ready| ==>
              (WatchedFailure(Heard(s.past, h, ok), s.ready[i].id) <==> WatchedFailure(s.past, s.ready[i].id))
  {
    TurnsChosen(s);
    hide TasksTrue;
  }

  /** What waits is to be noted exactly if it watches and the reply is a failure. */
  lemma WaitsFor(s: Table, h: Handle, ok: bool)
    requires TasksTrue(s) && h in s.waiting && s.waiting[h].Some?
    ensures var task := s.waiting[h].value;
            task.noted && !ok <==> WatchedFailure(Heard(s.past, h, ok), task.id)
  {
    assert Awaits(s.past, h, s.waiting[h].value);
  }

  lemma ApplyTally(s: Table, a: Action)
    requires Truthful(s) && Tally(s)
    ensures Tally(Apply(s, a))
  {
    hide Truthful, Tally, DidAll, Drained, Logged, Resolved;
    if s.trapped {
      return;
    }
    var c := AppCalled(s, a.ops);
    AppCalledTrue(s, a.ops);
    TrueIs(s);
    TurnTally(s, c, None, a.ops);
    DidAllTrue(c, a.ops);
    DidAllTally(c, a.ops);
    if a.Replied? {
      ResolvedTrue(s, a.h, a.read);
      ResolvedTally(s, a.h, a.read);
    }
    var d := Drained(Delivered(s, a));
    DrainedTally(Delivered(s, a));
    LoggedTally(d.(notes := 0), d.notes, a.answers);
    SameTally(d, Apply(s, a));
  }

  lemma {:induction false} EveryRunTally(s: Table, actions: seq<Action>)
    requires Truthful(s) && Tally(s) && (s.trapped || s.notes == 0)
    ensures var t := AfterAll(s, actions); Tally(t) && (t.trapped || t.notes == 0)
    decreases |actions|
  {
    hide Truthful, Tally, Drained, Delivered, Logged;
    if actions != [] {
      var a := actions[0];
      ApplyTrue(s, a);
      ApplyTally(s, a);
      var d := Drained(Delivered(s, a));
      LoggedTally(d.(notes := 0), d.notes, a.answers);
      EveryRunTally(Apply(s, a), actions[1..]);
    }
  }

  // ---------------------------------------------------------------- what that means

  /** Over every run: each task that ran did what it was attached to do for what its call came to, the
      one part on success and the other on failure; all of it, in order, and in place of a watched
      failure in hand what handles it. The tasks are those that ran, in the order they ran. */
  lemma EachTaskDoesItsPart(actions: seq<Action>, i: nat)
    requires i < |AfterAll(EMPTY, actions).past.turns|
    ensures var s := AfterAll(EMPTY, actions);
            var turn := s.past.turns[i];
            && (turn.job.Some? ==> Chosen(s.past, turn.job.value, turn.ops))
            && Begun(turn.ops, turn.done)
            && (i < |s.past.turns| - 1 || !s.trapped ==> Script(turn.ops, turn.done))
            && RanIn(s.past.turns) == s.ran
  {
    hide HoldsTrue, OutTrue, Owned, Chosen, Begun, Script;
    NothingPlayed();
    EveryRunPlays(EMPTY, actions);
  }

  /** Over every run the app is called for exactly what the host calls it for, in order: every call, and
      every announcement of a handle the executor does not wait on. */
  lemma AppIsCalledExactly(actions: seq<Action>)
    ensures AppIn(AfterAll(EMPTY, actions).past.turns) == GivenOver(EMPTY, actions)
  {
    hide Truthful, PlayedOut;
    NothingPlayed();
    EveryRunPlays(EMPTY, actions);
  }

  /** Over every run: tasks are numbered as they were attached, each for what was attached; calls as they
      were started, and one answered at once came to its answer; a `Pending` holds what its call came
      to, or waits on the handle it was given; and what waits on a handle was attached to the call that
      was given it. */
  lemma RepliesAreTheHosts(actions: seq<Action>)
    ensures var s := AfterAll(EMPTY, actions);
            var bound, starts := Bindings(s.past.turns), Starts(s.past.turns);
            && |bound| == s.attached && |starts| == s.made
            && (forall id :: 0 <= id < |bound| ==> id in s.past.bound && s.past.bound[id] == bound[id])
            && (forall p :: 0 <= p < |starts| && starts[p].Done? ==>
                  p in s.past.replies && s.past.replies[p] == starts[p].ok)
            && (forall p :: p in s.live && s.live[p].Ready? ==>
                  p in s.past.replies && s.past.replies[p] == s.live[p].ok)
            && (forall p :: p in s.live && s.live[p].Waiting? ==>
                  p !in s.past.replies && s.live[p].handle in s.past.holders && s.past.holders[s.live[p].handle] == p)
            && (forall h :: h in s.waiting && s.waiting[h].Some? ==> Awaits(s.past, h, s.waiting[h].value))
  {
    hide OutTrue, Owned, Awaits, PlayedOut, Bindings, Starts;
    NothingPlayed();
    NothingNumbered();
    EveryRunPlays(EMPTY, actions);
    EveryRunNumbered(EMPTY, actions);
  }

  lemma NothingNumbered()
    ensures Numbered(EMPTY)
  {
  }

  lemma AwaitedHolder(s: Table, h: Handle)
    requires Truthful(s) && h in s.waiting && s.waiting[h].Some?
    ensures h in s.past.holders
  {
    hide Owned, HoldsTrue, OutTrue;
    assert Awaits(s.past, h, s.waiting[h].value);
  }

  lemma NothingPlaced()
    ensures Owned(EMPTY) && Placed(EMPTY)
  {
    NothingOwned();
  }

  /** Turns taken and replies that are in stay. */
  ghost predicate Keeps(s: Table, t: Table) {
    && (forall p :: p in s.past.replies ==> p in t.past.replies && t.past.replies[p] == s.past.replies[p])
    && |s.past.turns| <= |t.past.turns|
    && forall i :: 0 <= i < |s.past.turns| ==>
         t.past.turns[i].job == s.past.turns[i].job && t.past.turns[i].ops == s.past.turns[i].ops
  }

  lemma {:induction false} DidKeeps(s: Table, op: Op)
    requires Truthful(s)
    ensures Keeps(s, Did(s, op))
    decreases op, 0
  {
    hide Did, DidAll, Owned, TasksTrue, HoldsTrue, OutTrue;
    if s.trapped {
      TrappedDoesNothing(s, op);
    } else if Fails(Deed(op, HeldBy(s.live, op))) {
      var n := Noted(s, op);
      FailsInHand(s, op.p, op.failed);
      WatchedTrue(s, op.p, op.failed);
      DidAllKeeps(n.(live := n.live - {op.p}, notes := n.notes + 1), op.failed);
    } else {
      DidTurns(s, op);
      DidReplies(s, op);
    }
  }

  lemma TrappedDoesNothing(s: Table, op: Op)
    requires s.trapped
    ensures Did(s, op) == s
  {
  }

  lemma {:induction false} DidAllKeeps(s: Table, ops: seq<Op>)
    requires Truthful(s)
    ensures Keeps(s, DidAll(s, ops))
    decreases ops, 1
  {
    hide Truthful, Did;
    if ops != [] {
      DidTrue(s, ops[0]);
      DidKeeps(s, ops[0]);
      DidAllKeeps(Did(s, ops[0]), ops[1..]);
    }
  }

  lemma {:induction false} DrainedKeeps(s: Table)
    requires Truthful(s)
    ensures Keeps(s, Drained(s))
    decreases Load(s.ready)
  {
    hide Truthful, DidAll;
    if s.ready != [] && !s.trapped {
      PoppedTrue(s);
      DidAllTrue(Popped(s), s.ready[0].ops);
      DidAllKeeps(Popped(s), s.ready[0].ops);
      DrainedKeeps(RanFirst(s));
    }
  }

  lemma {:induction false} LoggedKeeps(s: Table, n: nat, answers: nat -> Sent)
    ensures Keeps(s, Logged(s, n, answers))
  {
    if n > 0 {
      LoggedKeeps(s, n - 1, answers);
    }
  }

  /** Over every run: when the reply of a handle the executor waits on arrives, its call came to that
      reply, and the task that waited has the very next turn, to do its one part on success and the other
      on failure. */
  lemma AnnouncementRunsItsTask(before: seq<Action>, a: Action)
    requires var s := AfterAll(EMPTY, before);
             && !s.trapped && a.Replied? && a.read.Arrived? && a.h in s.waiting && s.waiting[a.h].Some?
    ensures var s := AfterAll(EMPTY, before);
            var t, task, m := Apply(s, a), s.waiting[a.h].value, |s.past.turns|;
            && a.h in s.past.holders && s.past.holders[a.h] in t.past.replies
            && t.past.replies[s.past.holders[a.h]] == a.read.ok
            && m < |t.past.turns| && t.past.turns[m].job == Some(task.id)
            && t.past.turns[m].ops == if a.read.ok then task.ifOk else task.ifErr
  {
    hide Truthful, DidAll, Placed, Owned, Logged, Drained;
    var s := AfterAll(EMPTY, before);
    NothingPlayed();
    NothingPlaced();
    EveryRunPlays(EMPTY, before);
    RunPlaced(EMPTY, before);
    AwaitedHolder(s, a.h);
    var g := Delivered(s, a);
    ResolvedTrue(s, a.h, a.read);
    PoppedTrue(g);
    DidAllTrue(Popped(g), g.ready[0].ops);
    DidAllKeeps(Popped(g), g.ready[0].ops);
    DrainedKeeps(RanFirst(g));
    DrainsFirst(g);
    var d := Drained(g);
    LoggedKeeps(d.(notes := 0), d.notes, a.answers);
  }

  lemma NoTally()
    ensures Tally(EMPTY)
  {
  }

  /** Over every run each `Pending` is used up at most once: its reply taken, a task attached to it, or it
      dropped; exactly those not used up are held, in hand or waiting. */
  lemma UsedUpOnce(actions: seq<Action>, p: nat)
    ensures var s := AfterAll(EMPTY, actions);
            && Total(s.past.turns, Using(p)) <= 1
            && (p in s.live && !s.live[p].Taken? ==> Total(s.past.turns, Using(p)) == 0)
            && (p < s.made && Total(s.past.turns, Using(p)) == 0 ==> p in s.live && !s.live[p].Taken?)
  {
    hide Total;
    NothingPlayed();
    NoTally();
    EveryRunTally(EMPTY, actions);
  }

  /** Over every run the instance has trapped exactly if something was attached to a `Pending` whose
      reply had been taken. */
  lemma TrapsExactly(actions: seq<Action>)
    ensures var s := AfterAll(EMPTY, actions); s.trapped <==> Total(s.past.turns, Misusing()) > 0
  {
    hide Total;
    NothingPlayed();
    NoTally();
    EveryRunTally(EMPTY, actions);
  }

  /** Over every run, between exports of an instance that has not trapped, each failure of a watched call
      was logged, once: those in hand when they were watched, and those that came later. */
  lemma EachFailureIsLogged(actions: seq<Action>)
    ensures var s := AfterAll(EMPTY, actions);
            !s.trapped ==> s.past.logs == Total(s.past.turns, Failing()) + FailedTasks(s.past, s.past.turns)
  {
    hide Total, FailedTasks;
    NothingPlayed();
    NoTally();
    EveryRunTally(EMPTY, actions);
  }

  /** The app makes an immediate call during an export, and the host answers that it is pending. */
  predicate CallsNow(s: Table, a: Action, pre: seq<Op>, h: Handle, post: seq<Op>) {
    && !s.trapped && a.ops == pre + [Now(Pending(h))] + post && (a.Called? || !Owns(s, a.h))
    && var u := DidAll(AppCalled(s, a.ops), pre); !u.trapped && h !in u.out
  }

  /** Over every run: the reply of an immediate call that is answered pending is the executor's to
      discard, and its entry goes exactly when the host announces it. */
  lemma NowIsDiscarded(before: seq<Action>, a: Action, pre: seq<Op>, h: Handle, post: seq<Op>, later: seq<Action>)
    requires CallsNow(AfterAll(EMPTY, before), a, pre, h, post)
    ensures var t := Apply(AfterAll(EMPTY, before), a);
            && h in t.waiting && t.waiting[h] == None
            && (KeptThrough(t, later, h) <==> !Announced(t, later, h))
  {
    hide DidAll, Drained, Logged, Owned, KeptThrough, Announced;
    var s := AfterAll(EMPTY, before);
    NothingOwned();
    RunOwned(EMPTY, before);
    var c := AppCalled(s, a.ops);
    SameOwners(s, c);
    DidAllOwned(c, pre);
    DidLast(c, pre, Now(Pending(h)));
    var v := DidAll(c, pre + [Now(Pending(h))]);
    DidAllOwned(c, pre + [Now(Pending(h))]);
    DidAllJoin(c, pre + [Now(Pending(h))], post);
    DidAllOwned(v, post);
    DidAllKeepsEntry(v, post, h);
    var g := DidAll(c, a.ops);
    DidAllOwned(c, a.ops);
    var d := Drained(g);
    DrainedOwned(g);
    DrainedKeepsEntry(g, h);
    SameOwners(d, d.(notes := 0));
    LoggedKeepsEntry(d.(notes := 0), d.notes, a.answers, h);
    ApplyOwned(s, a);
    FreedByItsReplyOnly(Apply(s, a), later, h);
  }

  lemma {:induction false} DidAllJoin(s: Table, a: seq<Op>, b: seq<Op>)
    ensures DidAll(s, a + b) == DidAll(DidAll(s, a), b)
    decreases |a|
  {
    hide Did;
    if a == [] {
      assert a + b == b;
    } else {
      assert (a + b)[1..] == a[1..] + b;
      DidAllJoin(Did(s, a[0]), a[1..], b);
    }
  }

  lemma DrainsFirst(s: Table)
    requires s.ready != [] && !s.trapped
    ensures Drained(s) == Drained(RanFirst(s))
  {
  }
}
