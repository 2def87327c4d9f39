/** Replies that arrive later: who owns each pending handle, and when a continuation runs.

    A continuation is a task with an id and what it does for either outcome; what it does may start
    further calls and attach further continuations. The host's part of a run is what it answers to
    each call and read, and that it never gives out a handle that is still out (`out` is its
    record). `Table` and its functions are the specification; class `Executor` updates the same
    tables in place. */
module Replies {
  import opened Basics

  type Handle = nat

  /** How a call stands once made. */
  datatype Sent = Done(ok: bool) | Pending(handle: Handle)

  /** What reading a handle finds. */
  datatype Read = StillPending | Arrived(ok: bool)

  /** What a `Pending` the app holds is waiting for. */
  datatype Held = Ready(ok: bool) | Waiting(handle: Handle) | Taken

  datatype Op =
    | Start(sent: Sent)
    | Then(p: nat, ifOk: seq<Op>, ifErr: seq<Op>)
    | Watch(p: nat, failed: seq<Op>)
    | Poll(p: nat, read: Read)
    | Take(p: nat)
    | Drop(p: nat)
    | Now(sent: Sent)
    | Spawn(ops: seq<Op>)

  datatype Task = Task(id: nat, ifOk: seq<Op>, ifErr: seq<Op>, noted: bool)

  datatype Job = Job(id: nat, ops: seq<Op>, notes: bool)

  /** What a task was attached for: either outcome of a `Pending`, its failure, or nothing. */
  datatype Bound =
    | ThenOf(p: nat, ifOk: seq<Op>, ifErr: seq<Op>)
    | WatchOf(p: nat, failed: seq<Op>)
    | SpawnOf(ops: seq<Op>)

  /** One thing done, and how the `Pending` it is done with stood. */
  datatype Deed = Deed(op: Op, held: Option<Held>)

  /** One turn of the app's, or of task `job`: what it was to do, and what was done. */
  datatype Turn = Turn(job: Option<nat>, ops: seq<Op>, done: seq<Deed>)

  /** The record of a run: the reply each `Pending` came to, whose each handle is, what each task was
      attached for, every turn, and how many failures were logged. */
  datatype Record = Record(
    replies: map<nat, bool>,
    holders: map<Handle, nat>,
    bound: map<nat, Bound>,
    turns: seq<Turn>,
    logs: nat)

  /** `waiting` and `ready` are the executor's; `live` are the `Pending`s the app holds. `spawned`
      and `ran` are the ids of tasks in the order they became ready, and in the order they ran. */
  datatype Table = Table(
    waiting: map<Handle, Option<Task>>,
    ready: seq<Job>,
    live: map<nat, Held>,
    made: nat,
    attached: nat,
    notes: nat,
    trapped: bool,
    out: set<Handle>,
    spawned: seq<nat>,
    ran: seq<nat>,
    past: Record)

  const EMPTY := Table(map[], [], map[], 0, 0, 0, false, {}, [], [], Record(map[], map[], map[], [], 0))

  // ---------------------------------------------------------------- what each operation does

  /** The host never gives out a handle that is still out. */
  function Given(s: Table, sent: Sent): Sent {
    if sent.Pending? && sent.handle in s.out then Done(false) else sent
  }

  /** `p`'s reply is in. */
  function RepliedTo(past: Record, p: nat, ok: bool): Record {
    past.(replies := past.replies[p := ok])
  }

  function BoundTo(past: Record, id: nat, bound: Bound): Record {
    past.(bound := past.bound[id := bound])
  }

  /** The app, or a task, is to do `ops`. */
  function Turning(past: Record, job: Option<nat>, ops: seq<Op>): Record {
    past.(turns := past.turns + [Turn(job, ops, [])])
  }

  /** Whoever's turn it is does `op`. */
  function Doing(past: Record, op: Op, held: Option<Held>): Record {
    if past.turns == [] then past
    else
      var front, last := past.turns[..|past.turns| - 1], past.turns[|past.turns| - 1];
      past.(turns := front + [last.(done := last.done + [Deed(op, held)])])
  }

  /** How the `Pending` of an operation stands, if it has one. */
  function HeldBy(live: map<nat, Held>, op: Op): Option<Held> {
    if (op.Then? || op.Watch? || op.Poll? || op.Take? || op.Drop?) && op.p in live then Some(live[op.p]) else None
  }

  function Started(s: Table, sent: Sent): Table {
    match Given(s, sent)
    case Done(ok) =>
      s.(live := s.live[s.made := Ready(ok)], made := s.made + 1, past := RepliedTo(s.past, s.made, ok))
    case Pending(h) =>
      s.(live := s.live[s.made := Waiting(h)], made := s.made + 1, out := s.out + {h},
         past := s.past.(holders := s.past.holders[h := s.made]))
  }

  /** An immediate call: a pending reply is refused, and discarded when it arrives. */
  function NowDone(s: Table, sent: Sent): Table {
    match Given(s, sent)
    case Done(_) => s
    case Pending(h) =>
      s.(waiting := s.waiting[h := None], out := s.out + {h},
         past := s.past.(holders := s.past.holders - {h}))
  }

  function Queued(s: Table, job: Job): Table {
    s.(ready := s.ready + [job], spawned := s.spawned + [job.id])
  }

  function Pushed(s: Table, ops: seq<Op>, bound: Bound): Table {
    Queued(s.(attached := s.attached + 1, past := BoundTo(s.past, s.attached, bound)), Job(s.attached, ops, false))
  }

  function Attach(s: Table, h: Handle, ifOk: seq<Op>, ifErr: seq<Op>, noted: bool, bound: Bound): Table {
    s.(waiting := s.waiting[h := Some(Task(s.attached, ifOk, ifErr, noted))], attached := s.attached + 1,
       past := BoundTo(s.past, s.attached, bound))
  }

  /** Using a `Pending` whose reply was taken panics: the instance is gone. */
  function ThenOn(s: Table, p: nat, ifOk: seq<Op>, ifErr: seq<Op>): Table {
    if p !in s.live then s
    else
      var rest := s.(live := s.live - {p});
      match s.live[p]
      case Taken => s.(trapped := true)
      case Ready(ok) => Pushed(rest, if ok then ifOk else ifErr, ThenOf(p, ifOk, ifErr))
      case Waiting(h) => Attach(rest, h, ifOk, ifErr, false, ThenOf(p, ifOk, ifErr))
  }

  function Polled(s: Table, p: nat, read: Read): Table {
    if p !in s.live then s
    else
      match s.live[p]
      case Taken => s
      case Ready(_) => s.(live := s.live[p := Taken])
      case Waiting(h) =>
        if read.StillPending? then s
        else s.(live := s.live[p := Taken], out := s.out - {h}, past := RepliedTo(s.past, p, read.ok))
  }

  function TakenReady(s: Table, p: nat): Table {
    if p in s.live && s.live[p].Ready? then s.(live := s.live[p := Taken]) else s
  }

  function Dropped(s: Table, p: nat): Table {
    if p !in s.live then s
    else
      var rest := s.(live := s.live - {p});
      if s.live[p].Waiting? then rest.(waiting := s.waiting[s.live[p].handle := None]) else rest
  }

  function Did(s: Table, op: Op): Table
    decreases op, 0
  {
    if s.trapped then s
    else
      var n := Noted(s, op);
      match op
      case Start(sent) => Started(n, sent)
      case Then(p, ifOk, ifErr) => ThenOn(n, p, ifOk, ifErr)
      case Watch(p, failed) => Watched(n, p, failed)
      case Poll(p, read) => Polled(n, p, read)
      case Take(p) => TakenReady(n, p)
      case Drop(p) => Dropped(n, p)
      case Now(sent) => NowDone(n, sent)
      case Spawn(ops) => Pushed(n, ops, SpawnOf(ops))
  }

  function Noted(s: Table, op: Op): Table {
    s.(past := Doing(s.past, op, HeldBy(s.live, op)))
  }

  /** A failure in hand is handled at once, and noted; one still to come, when it comes. */
  function Watched(s: Table, p: nat, failed: seq<Op>): Table
    decreases failed, 1
  {
    if p !in s.live then s
    else
      var rest := s.(live := s.live - {p});
      match s.live[p]
      case Taken => s.(trapped := true)
      case Ready(ok) => if ok then rest else DidAll(rest.(notes := s.notes + 1), failed)
      case Waiting(h) => Attach(rest, h, [], failed, true, WatchOf(p, failed))
  }

  function DidAll(s: Table, ops: seq<Op>): Table
    decreases ops, 0
  {
    if ops == [] then s else DidAll(Did(s, ops[0]), ops[1..])
  }

  /** A handle's reply is announced. Only a handle the executor waits on is its own. */
  predicate Owns(s: Table, h: Handle) {
    h in s.waiting
  }

  function Resolved(s: Table, h: Handle, read: Read): Table {
    if h !in s.waiting || read.StillPending? then s
    else
      var rest := s.(waiting := s.waiting - {h}, out := s.out - {h}, past := Heard(s.past, h, read.ok));
      match s.waiting[h]
      case None => rest
      case Some(task) =>
        Queued(rest, Job(task.id, if read.ok then task.ifOk else task.ifErr, task.noted && !read.ok))
  }

  /** The reply of whoever started the call of `h`. */
  function Heard(past: Record, h: Handle, ok: bool): Record {
    if h in past.holders then RepliedTo(past, past.holders[h], ok) else past
  }

  // ---------------------------------------------------------------- draining

  function Size(ops: seq<Op>): nat
    decreases ops
  {
    if ops == [] then 0 else OpSize(ops[0]) + Size(ops[1..])
  }

  function OpSize(op: Op): nat
    decreases op
  {
    match op
    case Then(_, ifOk, ifErr) => 1 + Size(ifOk) + Size(ifErr)
    case Watch(_, failed) => 1 + Size(failed)
    case Spawn(ops) => 1 + Size(ops)
    case _ => 0
  }

  function Load(jobs: seq<Job>): nat {
    if jobs == [] then 0 else 1 + Size(jobs[0].ops) + Load(jobs[1..])
  }

  lemma {:induction false} LoadSnoc(jobs: seq<Job>, job: Job)
    ensures Load(jobs + [job]) == Load(jobs) + 1 + Size(job.ops)
  {
    if jobs == [] {
      assert [job][1..] == [];
      assert [] + [job] == [job];
    } else {
      assert (jobs + [job])[1..] == jobs[1..] + [job];
      LoadSnoc(jobs[1..], job);
    }
  }

  /** A task adds no more work than it holds. */
  lemma {:induction false} DidLoad(s: Table, op: Op)
    ensures Load(Did(s, op).ready) <= Load(s.ready) + OpSize(op)
    decreases op
  {
    if !s.trapped {
      var n := Noted(s, op);
      match op
      case Then(p, ifOk, ifErr) =>
        if p in s.live && s.live[p].Ready? {
          LoadSnoc(s.ready, Job(s.attached, if s.live[p].ok then ifOk else ifErr, false));
        }
      case Watch(p, failed) =>
        if p in s.live && s.live[p].Ready? && !s.live[p].ok {
          DidAllLoad(n.(live := n.live - {p}, notes := n.notes + 1), failed);
        }
      case Spawn(ops) => LoadSnoc(s.ready, Job(s.attached, ops, false));
      case _ =>
    }
  }

  lemma {:induction false} DidAllLoad(s: Table, ops: seq<Op>)
    ensures Load(DidAll(s, ops).ready) <= Load(s.ready) + Size(ops)
    decreases ops
  {
    if ops != [] {
      DidLoad(s, ops[0]);
      DidAllLoad(Did(s, ops[0]), ops[1..]);
    }
  }

  /** The first task leaves the queue and runs. */
  function RanFirst(s: Table): (t: Table)
    requires s.ready != []
    ensures Load(t.ready) < Load(s.ready)
  {
    DidAllLoad(Popped(s), s.ready[0].ops);
    DidAll(Popped(s), s.ready[0].ops)
  }

  function Popped(s: Table): Table
    requires s.ready != []
  {
    var job := s.ready[0];
    s.(ready := s.ready[1..], ran := s.ran + [job.id], notes := s.notes + if job.notes then 1 else 0,
       past := Turning(s.past, Some(job.id), job.ops))
  }

  /** Every task runs, those queued while running included. */
  function Drained(s: Table): Table
    decreases Load(s.ready)
  {
    if s.ready == [] || s.trapped then s else Drained(RanFirst(s))
  }

  /** The noted failures are logged, each by an immediate call. */
  function Logged(s: Table, n: nat, answers: nat -> Sent): Table {
    if n == 0 then s else LoggedOne(NowDone(Logged(s, n - 1, answers), answers(n - 1)))
  }

  function LoggedOne(s: Table): Table {
    s.(past := s.past.(logs := s.past.logs + 1))
  }

  function Settled(s: Table, answers: nat -> Sent): Table {
    var d := Drained(s);
    if d.trapped then d else Logged(d.(notes := 0), d.notes, answers)
  }

  // ---------------------------------------------------------------- runs

  /** An export call: the app is called and does `ops`, or a reply is announced and, if the handle
      is not the SDK's own, the app is called. Then everything settles. */
  datatype Action =
    | Called(ops: seq<Op>, answers: nat -> Sent)
    | Replied(h: Handle, read: Read, ops: seq<Op>, answers: nat -> Sent)

  function Delivered(s: Table, a: Action): Table {
    match a
    case Called(ops, _) => DidAll(AppCalled(s, ops), ops)
    case Replied(h, read, ops, _) => if Owns(s, h) then Resolved(s, h, read) else DidAll(AppCalled(s, ops), ops)
  }

  function AppCalled(s: Table, ops: seq<Op>): Table {
    s.(past := Turning(s.past, None, ops))
  }

  function Apply(s: Table, a: Action): Table {
    if s.trapped then s else Settled(Delivered(s, a), a.answers)
  }

  function AfterAll(s: Table, actions: seq<Action>): Table
    decreases |actions|
  {
    if actions == [] then s else AfterAll(Apply(s, actions[0]), actions[1..])
  }

  // ---------------------------------------------------------------- who owns a handle

  predicate Holds(s: Table, p: nat, h: Handle) {
    p in s.live && s.live[p] == Waiting(h)
  }

  /** Every handle the host has out has one owner: the executor, or one `Pending` of the app's. */
  ghost predicate Owned(s: Table) {
    && s.waiting.Keys <= s.out
    && (forall p :: p in s.live ==> p < s.made)
    && (forall p, h :: Holds(s, p, h) ==> h in s.out && h !in s.waiting)
    && (forall p, q, h :: Holds(s, p, h) && Holds(s, q, h) ==> p == q)
    && (forall h :: h in s.out ==> h in s.waiting || exists p :: Holds(s, p, h))
  }

  lemma StartedOwned(s: Table, sent: Sent)
    requires Owned(s)
    ensures Owned(Started(s, sent))
  {
    var t := Started(s, sent);
    assert forall p, h :: p != s.made ==> (Holds(t, p, h) <==> Holds(s, p, h));
    forall h | h in t.out ensures h in t.waiting || exists p :: Holds(t, p, h) {
      if h !in s.out {
        assert Holds(t, s.made, h);
      } else if h !in s.waiting {
        var p :| Holds(s, p, h);
        assert Holds(t, p, h);
      }
    }
  }

  lemma NowOwned(s: Table, sent: Sent)
    requires Owned(s)
    ensures Owned(NowDone(s, sent))
  {
    var t := NowDone(s, sent);
    assert forall p, h :: Holds(t, p, h) <==> Holds(s, p, h);
  }

  /** A `Pending` goes: what it waited for is the executor's from here on. */
  lemma HandedOver(s: Table, p: nat, task: Option<Task>)
    requires Owned(s) && p in s.live
    ensures var rest := s.(live := s.live - {p});
            Owned(if s.live[p].Waiting? then rest.(waiting := s.waiting[s.live[p].handle := task]) else rest)
  {
    var rest := s.(live := s.live - {p});
    var t := if s.live[p].Waiting? then rest.(waiting := s.waiting[s.live[p].handle := task]) else rest;
    assert forall q, h :: Holds(t, q, h) <==> Holds(s, q, h) && q != p;
    assert forall h :: Holds(s, p, h) <==> s.live[p] == Waiting(h);
  }

  /** A `Pending` reads its reply: the handle is not out any more. */
  lemma PolledOwned(s: Table, p: nat, read: Read)
    requires Owned(s)
    ensures Owned(Polled(s, p, read)) && Owned(TakenReady(s, p))
  {
    if p in s.live && (s.live[p].Ready? || (s.live[p].Waiting? && read.Arrived?)) {
      var t := Polled(s, p, read);
      assert forall q, h :: Holds(t, q, h) <==> Holds(s, q, h) && q != p;
      assert forall h :: Holds(s, p, h) <==> s.live[p] == Waiting(h);
    }
    if p in s.live && s.live[p].Ready? {
      var t := TakenReady(s, p);
      assert forall q, h :: Holds(t, q, h) <==> Holds(s, q, h) && q != p;
      assert forall h :: Holds(s, p, h) <==> s.live[p] == Waiting(h);
    }
  }

  /** Only the tables of handles matter to who owns what. */
  lemma SameOwners(s: Table, t: Table)
    requires Owned(s) && t.waiting.Keys == s.waiting.Keys && t.live == s.live && t.made == s.made && t.out == s.out
    ensures Owned(t)
  {
    assert forall q, h :: Holds(t, q, h) <==> Holds(s, q, h);
  }

  lemma {:induction false} DidOwned(s: Table, op: Op)
    requires Owned(s)
    ensures Owned(Did(s, op))
    decreases op
  {
    hide Owned, DidAll;
    if !s.trapped {
      var n := Noted(s, op);
      SameOwners(s, n);
      match op
      case Start(sent) => StartedOwned(n, sent);
      case Then(p, ifOk, ifErr) =>
        if p in s.live {
          HandedOver(n, p, Some(Task(n.attached, ifOk, ifErr, false)));
          SameOwners(n, n.(trapped := true));
          var rest := n.(live := n.live - {p});
          if s.live[p].Waiting? {
            var u := rest.(waiting := n.waiting[n.live[p].handle := Some(Task(n.attached, ifOk, ifErr, false))]);
            SameOwners(u, Did(s, op));
          } else if s.live[p].Ready? {
            SameOwners(rest, Did(s, op));
          }
        }
      case Watch(p, failed) =>
        if p in s.live {
          WatchOwned(n, p, failed);
        }
      case Poll(p, read) => PolledOwned(n, p, read);
      case Take(p) => PolledOwned(n, p, StillPending);
      case Drop(p) => if p in s.live { HandedOver(n, p, None); }
      case Now(sent) => NowOwned(n, sent);
      case Spawn(ops) => SameOwners(n, Did(s, op));
    }
  }

  lemma {:induction false} WatchOwned(s: Table, p: nat, failed: seq<Op>)
    requires Owned(s) && p in s.live
    ensures Owned(Watched(s, p, failed))
    decreases failed, 1
  {
    hide Owned, DidAll;
    var rest := s.(live := s.live - {p});
    HandedOver(s, p, Some(Task(s.attached, [], failed, true)));
    match s.live[p]
    case Taken => SameOwners(s, s.(trapped := true));
    case Ready(ok) =>
      if !ok {
        SameOwners(rest, rest.(notes := s.notes + 1));
        DidAllOwned(rest.(notes := s.notes + 1), failed);
      }
    case Waiting(h) =>
      SameOwners(rest.(waiting := s.waiting[h := Some(Task(s.attached, [], failed, true))]), Watched(s, p, failed));
  }

  lemma {:induction false} DidAllOwned(s: Table, ops: seq<Op>)
    requires Owned(s)
    ensures Owned(DidAll(s, ops))
    decreases ops, 0
  {
    hide Owned, Did;
    if ops != [] {
      DidOwned(s, ops[0]);
      DidAllOwned(Did(s, ops[0]), ops[1..]);
    }
  }

  lemma ResolvedOwned(s: Table, h: Handle, read: Read)
    requires Owned(s)
    ensures Owned(Resolved(s, h, read))
  {
    var t := Resolved(s, h, read);
    assert forall q, k :: Holds(t, q, k) <==> Holds(s, q, k);
  }

  lemma {:induction false} DrainedOwned(s: Table)
    requires Owned(s)
    ensures Owned(Drained(s))
    decreases Load(s.ready)
  {
    hide Owned, DidAll;
    if s.ready != [] && !s.trapped {
      var job, rest := s.ready[0], Popped(s);
      SameOwners(s, rest);
      DidAllOwned(rest, job.ops);
      DrainedOwned(RanFirst(s));
    }
  }

  lemma {:induction false} LoggedOwned(s: Table, n: nat, answers: nat -> Sent)
    requires Owned(s)
    ensures Owned(Logged(s, n, answers))
  {
    hide Owned, NowDone;
    if n > 0 {
      LoggedOwned(s, n - 1, answers);
      var l := Logged(s, n - 1, answers);
      NowOwned(l, answers(n - 1));
      SameOwners(NowDone(l, answers(n - 1)), Logged(s, n, answers));
    }
  }

  lemma ApplyOwned(s: Table, a: Action)
    requires Owned(s)
    ensures Owned(Apply(s, a))
  {
    hide Owned, Drained, DidAll, Logged, Resolved;
    SameOwners(s, AppCalled(s, a.ops));
    DidAllOwned(AppCalled(s, a.ops), a.ops);
    if a.Replied? {
      ResolvedOwned(s, a.h, a.read);
    }
    var d := Drained(Delivered(s, a));
    DrainedOwned(Delivered(s, a));
    SameOwners(d, d.(notes := 0));
    LoggedOwned(d.(notes := 0), d.notes, a.answers);
  }

  lemma {:induction false} RunOwned(s: Table, actions: seq<Action>)
    requires Owned(s)
    ensures Owned(AfterAll(s, actions))
    decreases |actions|
  {
    hide Owned, Apply;
    if actions != [] {
      ApplyOwned(s, actions[0]);
      RunOwned(Apply(s, actions[0]), actions[1..]);
    }
  }

  /** Over every run: a handle the host has out is the executor's or one `Pending`'s, never both
      and never two `Pending`s'; and neither holds a handle that is not out. */
  lemma EveryHandleHasOneOwner(actions: seq<Action>, h: Handle)
    ensures var s := AfterAll(EMPTY, actions);
            && (h in s.out <==> h in s.waiting || exists p :: Holds(s, p, h))
            && !(h in s.waiting && exists p :: Holds(s, p, h))
            && (forall p, q :: Holds(s, p, h) && Holds(s, q, h) ==> p == q)
  {
    RunOwned(EMPTY, actions);
  }

  /** Over every run: a `ReplyReady` for a handle that is out reaches the app exactly when a
      `Pending` of the app's still holds it. */
  lemma ReplyReachesTheHolder(actions: seq<Action>, h: Handle)
    requires h in AfterAll(EMPTY, actions).out
    ensures var s := AfterAll(EMPTY, actions);
            !Owns(s, h) <==> exists p :: Holds(s, p, h)
  {
    EveryHandleHasOneOwner(actions, h);
  }

  // ---------------------------------------------------------------- when a continuation runs

  function Ids(jobs: seq<Job>): (ids: seq<nat>)
    ensures |ids| == |jobs|
    ensures forall i :: 0 <= i < |jobs| ==> ids[i] == jobs[i].id
  {
    seq(|jobs|, i requires 0 <= i < |jobs| => jobs[i].id)
  }

  predicate AwaitedAt(s: Table, h: Handle, id: nat) {
    h in s.waiting && s.waiting[h].Some? && s.waiting[h].value.id == id
  }

  /** Tasks run in the order they became ready; each attached task waits for one handle or became
      ready, once. */
  ghost predicate Placed(s: Table) {
    && s.spawned == s.ran + Ids(s.ready)
    && (forall i, j :: 0 <= i < j < |s.spawned| ==> s.spawned[i] != s.spawned[j])
    && (forall h, id: nat :: AwaitedAt(s, h, id) ==> id < s.attached && id !in s.spawned)
    && (forall h, k, id: nat :: AwaitedAt(s, h, id) && AwaitedAt(s, k, id) ==> h == k)
    && (forall id: nat :: id in s.spawned ==> id < s.attached)
    && (forall id: nat :: id < s.attached ==> id in s.spawned || exists h :: AwaitedAt(s, h, id))
  }

  /** Placement depends on the waiting table and the queue alone. */
  lemma SamePlaces(s: Table, t: Table)
    requires Placed(s)
    requires t.waiting == s.waiting && t.ready == s.ready && t.attached == s.attached
    requires t.spawned == s.spawned && t.ran == s.ran
    ensures Placed(t)
  {
    assert forall h, id: nat :: AwaitedAt(t, h, id) <==> AwaitedAt(s, h, id);
  }

  lemma PushedPlaced(s: Table, ops: seq<Op>, bound: Bound)
    requires Placed(s)
    ensures Placed(Pushed(s, ops, bound))
  {
    var t := Pushed(s, ops, bound);
    assert s.attached !in s.spawned;
    assert forall h, id: nat :: AwaitedAt(t, h, id) <==> AwaitedAt(s, h, id);
    assert Ids(t.ready) == Ids(s.ready) + [s.attached];
    forall id: nat | id < t.attached ensures id in t.spawned || exists h :: AwaitedAt(t, h, id) {
      if id == s.attached {
        assert t.spawned[|s.spawned|] == id;
      } else if id !in s.spawned {
        var h :| AwaitedAt(s, h, id);
        assert AwaitedAt(t, h, id);
      }
    }
  }

  lemma AttachPlaced(s: Table, h: Handle, ifOk: seq<Op>, ifErr: seq<Op>, noted: bool, bound: Bound)
    requires Placed(s) && h !in s.waiting
    ensures Placed(Attach(s, h, ifOk, ifErr, noted, bound))
  {
    var t := Attach(s, h, ifOk, ifErr, noted, bound);
    assert forall k, id: nat :: AwaitedAt(t, k, id) <==> AwaitedAt(s, k, id) || (k == h && id == s.attached);
    forall id: nat | id < t.attached ensures id in t.spawned || exists k :: AwaitedAt(t, k, id) {
      if id == s.attached {
        assert AwaitedAt(t, h, id);
      } else if id !in s.spawned {
        var k :| AwaitedAt(s, k, id);
        assert AwaitedAt(t, k, id);
      }
    }
  }

  /** A handle whose reply is to be discarded holds no task. */
  lemma DiscardPlaced(s: Table, h: Handle)
    requires Placed(s) && h !in s.waiting
    ensures Placed(s.(waiting := s.waiting[h := None]))
  {
    var t := s.(waiting := s.waiting[h := None]);
    assert forall k, id: nat :: AwaitedAt(t, k, id) <==> AwaitedAt(s, k, id);
  }

  /** What was handed out cannot be waited on already. */
  lemma HeldIsNotAwaited(s: Table, p: nat)
    requires Owned(s) && p in s.live && s.live[p].Waiting?
    ensures s.live[p].handle !in s.waiting
  {
    assert Holds(s, p, s.live[p].handle);
  }

  lemma NewIsNotAwaited(s: Table, sent: Sent)
    requires Owned(s) && Given(s, sent).Pending?
    ensures Given(s, sent).handle !in s.waiting
  {
  }

  lemma {:induction false} DidPlaced(s: Table, op: Op)
    requires Owned(s) && Placed(s)
    ensures Placed(Did(s, op)) && Did(s, op).ran == s.ran
    decreases op
  {
    hide Owned, Placed, DidAll;
    if !s.trapped {
      var n := Noted(s, op);
      SamePlaces(s, n);
      SameOwners(s, n);
      match op
      case Start(sent) => SamePlaces(s, Did(s, op));
      case Then(p, ifOk, ifErr) =>
        if p in s.live {
          var rest := n.(live := n.live - {p});
          SamePlaces(n, rest);
          SamePlaces(n, n.(trapped := true));
          match s.live[p] {
            case Taken =>
            case Ready(ok) => PushedPlaced(rest, if ok then ifOk else ifErr, ThenOf(p, ifOk, ifErr));
            case Waiting(h) =>
              HeldIsNotAwaited(n, p);
              AttachPlaced(rest, h, ifOk, ifErr, false, ThenOf(p, ifOk, ifErr));
          }
        }
      case Watch(p, failed) => if p in s.live { WatchPlaced(n, p, failed); }
      case Poll(p, read) => SamePlaces(s, Did(s, op));
      case Take(p) => SamePlaces(s, Did(s, op));
      case Drop(p) =>
        if p in s.live {
          SamePlaces(n, n.(live := n.live - {p}));
          if s.live[p].Waiting? {
            HeldIsNotAwaited(n, p);
            DiscardPlaced(n.(live := n.live - {p}), n.live[p].handle);
          }
        }
      case Now(sent) => NowPlaced(n, sent);
      case Spawn(ops) => PushedPlaced(n, ops, SpawnOf(ops));
    }
  }

  lemma NowPlaced(s: Table, sent: Sent)
    requires Owned(s) && Placed(s)
    ensures Placed(NowDone(s, sent)) && NowDone(s, sent).ran == s.ran && NowDone(s, sent).ready == s.ready
  {
    hide Owned, Placed;
    if Given(s, sent).Pending? {
      var h := Given(s, sent).handle;
      NewIsNotAwaited(s, sent);
      DiscardPlaced(s, h);
      SamePlaces(s.(waiting := s.waiting[h := None]), NowDone(s, sent));
    }
  }

  lemma {:induction false} WatchPlaced(s: Table, p: nat, failed: seq<Op>)
    requires Owned(s) && Placed(s) && p in s.live
    ensures var t := Watched(s, p, failed); Placed(t) && t.ran == s.ran
    decreases failed, 1
  {
    hide Owned, Placed, DidAll;
    var rest := s.(live := s.live - {p});
    SamePlaces(s, rest);
    match s.live[p]
    case Taken => SamePlaces(s, s.(trapped := true));
    case Ready(ok) =>
      if !ok {
        var noted := rest.(notes := s.notes + 1);
        SamePlaces(s, noted);
        HandedOver(s, p, None);
        SameOwners(rest, noted);
        DidAllPlaced(noted, failed);
      }
    case Waiting(h) =>
      HeldIsNotAwaited(s, p);
      AttachPlaced(rest, h, [], failed, true, WatchOf(p, failed));
  }

  lemma {:induction false} DidAllPlaced(s: Table, ops: seq<Op>)
    requires Owned(s) && Placed(s)
    ensures Placed(DidAll(s, ops)) && DidAll(s, ops).ran == s.ran
    decreases ops, 0
  {
    hide Owned, Placed, Did;
    if ops != [] {
      DidOwned(s, ops[0]);
      DidPlaced(s, ops[0]);
      DidAllPlaced(Did(s, ops[0]), ops[1..]);
    }
  }

  /** An awaited task leaves its handle for the end of the queue. */
  lemma TaskReady(s: Table, h: Handle, job: Job)
    requires Placed(s) && AwaitedAt(s, h, job.id)
    ensures Placed(Queued(s.(waiting := s.waiting - {h}), job))
  {
    var t := Queued(s.(waiting := s.waiting - {h}), job);
    assert forall k, id: nat :: AwaitedAt(t, k, id) <==> AwaitedAt(s, k, id) && k != h;
    assert Ids(t.ready) == Ids(s.ready) + [job.id];
    assert job.id !in s.spawned;
    forall id: nat | id < t.attached ensures id in t.spawned || exists k :: AwaitedAt(t, k, id) {
      if id == job.id {
        assert t.spawned[|s.spawned|] == id;
      } else if id !in s.spawned {
        var k :| AwaitedAt(s, k, id);
        assert AwaitedAt(t, k, id);
      }
    }
  }

  lemma ResolvedPlaced(s: Table, h: Handle, read: Read)
    requires Placed(s)
    ensures Placed(Resolved(s, h, read)) && Resolved(s, h, read).ran == s.ran
  {
    hide Placed;
    var t := Resolved(s, h, read);
    if h in s.waiting && read.Arrived? {
      if s.waiting[h].Some? {
        var task := s.waiting[h].value;
        var job := Job(task.id, if read.ok then task.ifOk else task.ifErr, task.noted && !read.ok);
        TaskReady(s, h, job);
        SamePlaces(Queued(s.(waiting := s.waiting - {h}), job), t);
      } else {
        NoTaskGone(s, h);
        SamePlaces(s.(waiting := s.waiting - {h}), t);
      }
    }
  }

  lemma NoTaskGone(s: Table, h: Handle)
    requires Placed(s) && h in s.waiting && s.waiting[h].None?
    ensures Placed(s.(waiting := s.waiting - {h}))
  {
    var t := s.(waiting := s.waiting - {h});
    assert forall k, id: nat :: AwaitedAt(t, k, id) <==> AwaitedAt(s, k, id);
  }

  lemma PoppedIds(ran: seq<nat>, jobs: seq<Job>)
    requires jobs != []
    ensures ran + Ids(jobs) == (ran + [jobs[0].id]) + Ids(jobs[1..])
  {
    assert Ids(jobs) == [jobs[0].id] + Ids(jobs[1..]);
  }

  lemma PoppedPlaced(s: Table)
    requires Placed(s) && s.ready != []
    ensures Placed(Popped(s))
  {
    hide Ids;
    var t := Popped(s);
    PoppedIds(s.ran, s.ready);
    assert forall h, id: nat :: AwaitedAt(t, h, id) <==> AwaitedAt(s, h, id);
  }

  lemma {:induction false} DrainedPlaced(s: Table)
    requires Owned(s) && Placed(s)
    ensures Placed(Drained(s)) && s.ran <= Drained(s).ran
    ensures Drained(s).trapped || Drained(s).ready == []
    decreases Load(s.ready)
  {
    hide Owned, Placed, DidAll;
    if s.ready != [] && !s.trapped {
      var job, rest := s.ready[0], Popped(s);
      SameOwners(s, rest);
      PoppedPlaced(s);
      DidAllOwned(rest, job.ops);
      DidAllPlaced(rest, job.ops);
      DrainedPlaced(RanFirst(s));
    }
  }

  lemma {:induction false} LoggedPlaced(s: Table, n: nat, answers: nat -> Sent)
    requires Owned(s) && Placed(s)
    ensures var t := Logged(s, n, answers); Placed(t) && t.ran == s.ran && t.ready == s.ready
  {
    hide Owned, Placed, NowDone;
    if n > 0 {
      LoggedPlaced(s, n - 1, answers);
      LoggedOwned(s, n - 1, answers);
      var l := Logged(s, n - 1, answers);
      NowPlaced(l, answers(n - 1));
      SamePlaces(NowDone(l, answers(n - 1)), Logged(s, n, answers));
    }
  }

  /** What the app does, and a reply announced, run no continuation; settling runs them all. */
  lemma ApplyPlaced(s: Table, a: Action)
    requires Owned(s) && Placed(s)
    ensures Placed(Apply(s, a)) && Delivered(s, a).ran == s.ran && s.ran <= Apply(s, a).ran
    ensures Apply(s, a).trapped || Apply(s, a).ready == []
  {
    hide Owned, Placed, Drained, DidAll, Logged, Resolved;
    SameOwners(s, AppCalled(s, a.ops));
    SamePlaces(s, AppCalled(s, a.ops));
    DidAllOwned(AppCalled(s, a.ops), a.ops);
    DidAllPlaced(AppCalled(s, a.ops), a.ops);
    if a.Replied? {
      ResolvedOwned(s, a.h, a.read);
      ResolvedPlaced(s, a.h, a.read);
    }
    var d := Drained(Delivered(s, a));
    DrainedOwned(Delivered(s, a));
    DrainedPlaced(Delivered(s, a));
    SameOwners(d, d.(notes := 0));
    SamePlaces(d, d.(notes := 0));
    LoggedPlaced(d.(notes := 0), d.notes, a.answers);
    LoggedTraps(d.(notes := 0), d.notes, a.answers);
  }

  lemma {:induction false} LoggedTraps(s: Table, n: nat, answers: nat -> Sent)
    ensures Logged(s, n, answers).trapped == s.trapped
  {
    if n > 0 {
      LoggedTraps(s, n - 1, answers);
    }
  }

  lemma {:induction false} RunPlaced(s: Table, actions: seq<Action>)
    requires Owned(s) && Placed(s) && (s.trapped || s.ready == [])
    ensures var t := AfterAll(s, actions); Placed(t) && (t.trapped || t.ready == [])
    decreases |actions|
  {
    hide Owned, Placed, Apply;
    if actions != [] {
      ApplyOwned(s, actions[0]);
      ApplyPlaced(s, actions[0]);
      RunPlaced(Apply(s, actions[0]), actions[1..]);
    }
  }

  /** Over every run: tasks have run in the order they became ready, each at most once. Between
      exports of an instance that has not trapped the queue is empty, and each task attached has run
      or still waits for one handle's reply. */
  lemma EachContinuationOnceInOrder(actions: seq<Action>)
    ensures var s := AfterAll(EMPTY, actions);
            && s.ran <= s.spawned
            && (forall i, j :: 0 <= i < j < |s.ran| ==> s.ran[i] != s.ran[j])
            && (forall h, k, id: nat :: AwaitedAt(s, h, id) && AwaitedAt(s, k, id) ==> h == k)
            && (!s.trapped ==>
                  && s.ready == [] && s.ran == s.spawned
                  && (forall id: nat :: id < s.attached ==> (id in s.ran <==> !exists h :: AwaitedAt(s, h, id))))
  {
    RunPlaced(EMPTY, actions);
    assert Ids([]) == [];
  }

  // ---------------------------------------------------------------- a reply nobody will announce again

  /** The handle is awaited in `t` as it was in `s`. */
  ghost predicate StillAwaited(s: Table, t: Table, h: Handle) {
    h in s.waiting ==> h in t.waiting && t.waiting[h] == s.waiting[h]
  }

  lemma {:induction false} DidKeepsEntry(s: Table, op: Op, h: Handle)
    requires Owned(s)
    ensures StillAwaited(s, Did(s, op), h)
    decreases op
  {
    hide DidAll;
    if !s.trapped {
      match op
      case Then(p, _, _) => HeldElsewhere(s, p, h);
      case Watch(p, failed) =>
        HeldElsewhere(s, p, h);
        if p in s.live && s.live[p].Ready? && !s.live[p].ok {
          var n := Noted(s, op);
          var rest := n.(live := n.live - {p});
          SameOwners(s, n);
          HandedOver(n, p, None);
          SameOwners(rest, rest.(notes := n.notes + 1));
          DidAllKeepsEntry(rest.(notes := n.notes + 1), failed, h);
        }
      case Drop(p) => HeldElsewhere(s, p, h);
      case _ =>
    }
  }

  /** What a `Pending` holds, the executor does not. */
  lemma HeldElsewhere(s: Table, p: nat, h: Handle)
    requires Owned(s)
    ensures p in s.live && s.live[p].Waiting? && h in s.waiting ==> s.live[p].handle != h
  {
    if p in s.live && s.live[p].Waiting? {
      assert Holds(s, p, s.live[p].handle);
    }
  }

  lemma {:induction false} DidAllKeepsEntry(s: Table, ops: seq<Op>, h: Handle)
    requires Owned(s)
    ensures StillAwaited(s, DidAll(s, ops), h)
    decreases ops
  {
    hide Did, Owned;
    if ops != [] {
      DidOwned(s, ops[0]);
      DidKeepsEntry(s, ops[0], h);
      DidAllKeepsEntry(Did(s, ops[0]), ops[1..], h);
    }
  }

  lemma {:induction false} DrainedKeepsEntry(s: Table, h: Handle)
    requires Owned(s)
    ensures StillAwaited(s, Drained(s), h)
    decreases Load(s.ready)
  {
    hide DidAll, Owned;
    if s.ready != [] && !s.trapped {
      var job, rest := s.ready[0], Popped(s);
      SameOwners(s, rest);
      DidAllOwned(rest, job.ops);
      DidAllKeepsEntry(rest, job.ops, h);
      DrainedKeepsEntry(RanFirst(s), h);
    }
  }

  lemma {:induction false} LoggedKeepsEntry(s: Table, n: nat, answers: nat -> Sent, h: Handle)
    requires Owned(s)
    ensures StillAwaited(s, Logged(s, n, answers), h)
  {
    hide Owned;
    if n > 0 {
      LoggedOwned(s, n - 1, answers);
      LoggedKeepsEntry(s, n - 1, answers, h);
      AwaitedIsOut(Logged(s, n - 1, answers));
    }
  }

  lemma AwaitedIsOut(s: Table)
    requires Owned(s)
    ensures s.waiting.Keys <= s.out
  {
  }

  /** What an export's own part does, before it settles: nothing on an instance that has trapped. */
  function Handled(s: Table, a: Action): Table {
    if s.trapped then s else Delivered(s, a)
  }

  /** The host announces `h`, and reading it finds the reply. */
  predicate Arrives(s: Table, a: Action, h: Handle) {
    !s.trapped && a.Replied? && a.h == h && a.read.Arrived?
  }

  /** The host announces `h` while `p` waits for it, so the announcement goes to the app. */
  predicate TellsHolder(s: Table, a: Action, p: nat, h: Handle) {
    !s.trapped && a.Replied? && a.h == h && Holds(s, p, h)
  }

  predicate Announced(s: Table, actions: seq<Action>, h: Handle)
    decreases |actions|
  {
    actions != [] && (Arrives(s, actions[0], h) || Announced(Apply(s, actions[0]), actions[1..], h))
  }

  predicate HolderWasTold(s: Table, actions: seq<Action>, p: nat, h: Handle)
    decreases |actions|
  {
    actions != [] && (TellsHolder(s, actions[0], p, h) || HolderWasTold(Apply(s, actions[0]), actions[1..], p, h))
  }

  /** No export of the run takes the handle from the executor. */
  predicate KeptThrough(s: Table, actions: seq<Action>, h: Handle)
    decreases |actions|
  {
    actions == [] || (h in Handled(s, actions[0]).waiting && KeptThrough(Apply(s, actions[0]), actions[1..], h))
  }

  /** One export: an awaited handle goes exactly when its reply arrives, and its task is queued. */
  lemma ExportFrees(s: Table, a: Action, h: Handle)
    requires Owned(s) && h in s.waiting
    ensures h !in Handled(s, a).waiting <==> Arrives(s, a, h)
    ensures Arrives(s, a, h) ==>
              && h !in Handled(s, a).out
              && Handled(s, a).spawned == s.spawned + if s.waiting[h].Some? then [s.waiting[h].value.id] else []
    ensures !Arrives(s, a, h) ==> StillAwaited(s, Apply(s, a), h)
  {
    hide Owned, DidAll, Drained, Logged;
    SameOwners(s, AppCalled(s, a.ops));
    DidAllKeepsEntry(AppCalled(s, a.ops), a.ops, h);
    DidAllOwned(AppCalled(s, a.ops), a.ops);
    if a.Replied? {
      ResolvedOwned(s, a.h, a.read);
    }
    var g := Delivered(s, a);
    var d := Drained(g);
    DrainedOwned(g);
    DrainedKeepsEntry(g, h);
    SameOwners(d, d.(notes := 0));
    LoggedKeepsEntry(d.(notes := 0), d.notes, a.answers, h);
  }

  /** A handle the executor waits on leaves it exactly when, in an instance that has not trapped,
      the host announces it with its reply in; until then its entry stays as it is. */
  lemma {:induction false} FreedByItsReplyOnly(s: Table, actions: seq<Action>, h: Handle)
    requires Owned(s) && h in s.waiting
    ensures KeptThrough(s, actions, h) <==> !Announced(s, actions, h)
    ensures !Announced(s, actions, h) ==> StillAwaited(s, AfterAll(s, actions), h)
    decreases |actions|
  {
    hide Owned, Handled, Apply, Arrives;
    if actions != [] {
      ExportFrees(s, actions[0], h);
      if !Arrives(s, actions[0], h) {
        ApplyOwned(s, actions[0]);
        FreedByItsReplyOnly(Apply(s, actions[0]), actions[1..], h);
      }
    }
  }

  /** The app drops the `Pending` during an export, before the run settles. */
  predicate DropsDuring(s: Table, a: Action, pre: seq<Op>, p: nat, h: Handle) {
    && !s.trapped && a.ops == pre + [Drop(p)] && (a.Called? || !Owns(s, a.h))
    && var u := DidAll(AppCalled(s, a.ops), pre); !u.trapped && Holds(u, p, h)
  }

  /** A `Pending` whose announcement the app was given, in this export or an earlier one, is dropped
      unread: its handle is the executor's to discard, and stays so exactly until the host announces
      it a second time. A host that announces a handle once never frees it. */
  lemma DroppedTooLate(before: seq<Action>, a: Action, pre: seq<Op>, p: nat, h: Handle, later: seq<Action>)
    requires HolderWasTold(EMPTY, before + [a], p, h)
    requires DropsDuring(AfterAll(EMPTY, before), a, pre, p, h)
    ensures var t := Apply(AfterAll(EMPTY, before), a);
            && h in t.waiting && t.waiting[h] == None
            && (KeptThrough(t, later, h) <==> !Announced(t, later, h))
            && (!Announced(t, later, h) ==> h in AfterAll(t, later).waiting)
  {
    hide DidAll, Drained, Logged, Owned, KeptThrough, Announced, HolderWasTold;
    var s := AfterAll(EMPTY, before);
    NothingOwned();
    RunOwned(EMPTY, before);
    var c := AppCalled(s, a.ops);
    SameOwners(s, c);
    DidAllOwned(c, pre);
    var g := DidAll(c, a.ops);
    DidLast(c, pre, Drop(p));
    DidAllOwned(c, a.ops);
    assert g.waiting[h] == None;
    var d := Drained(g);
    DrainedOwned(g);
    DrainedKeepsEntry(g, h);
    SameOwners(d, d.(notes := 0));
    LoggedKeepsEntry(d.(notes := 0), d.notes, a.answers, h);
    ApplyOwned(s, a);
    FreedByItsReplyOnly(Apply(s, a), later, h);
  }

  /** The announcement is the app's: the executor does not wait on what a `Pending` holds. */
  lemma HolderIsTold(s: Table, a: Action, p: nat, h: Handle)
    requires Owned(s) && TellsHolder(s, a, p, h)
    ensures !Owns(s, h) && Delivered(s, a) == DidAll(AppCalled(s, a.ops), a.ops)
  {
  }

  /** It is the natural thing to do: drop the `Pending` in the handler of its own announcement. */
  lemma DroppedInItsHandler(h: Handle, ok: bool, answers: nat -> Sent)
    ensures var start, told := Called([Start(Pending(h))], answers), Replied(h, Arrived(ok), [Drop(0)], answers);
            && HolderWasTold(EMPTY, [start] + [told], 0, h)
            && DropsDuring(AfterAll(EMPTY, [start]), told, [], 0, h)
  {
    var start, told := Called([Start(Pending(h))], answers), Replied(h, Arrived(ok), [Drop(0)], answers);
    var s, op := Apply(EMPTY, start), Start(Pending(h));
    var c := AppCalled(EMPTY, [op]);
    assert [op][1..] == [] && [start][1..] == [];
    assert DidAll(c, [op]) == DidAll(Did(c, op), []) == Started(Noted(c, op), Pending(h));
    assert s == Started(Noted(c, op), Pending(h));
    assert ([start] + [told])[1..] == [told];
    assert TellsHolder(s, told, 0, h);
    assert [] + [Drop(0)] == [Drop(0)];
  }

  lemma NothingOwned()
    ensures Owned(EMPTY)
  {
  }

  lemma {:induction false} DidLast(s: Table, pre: seq<Op>, last: Op)
    ensures DidAll(s, pre + [last]) == Did(DidAll(s, pre), last)
    decreases |pre|
  {
    hide Did;
    if pre == [] {
      assert [] + [last] == [last] && [last][1..] == [];
    } else {
      assert (pre + [last])[1..] == pre[1..] + [last];
      DidLast(Did(s, pre[0]), pre[1..], last);
    }
  }

  // ---------------------------------------------------------------- the source's own form

  class Executor {
    /** Pending handles the SDK owns: a task, or none to read and discard. */
    var waiting: map<Handle, Option<Task>>
    var ready: seq<Job>
    var live: map<nat, Held>
    var made: nat
    var attached: nat
    var notes: nat
    var trapped: bool
    /** The host's own record of the handles it has out. */
    var out: set<Handle>
    ghost var spawned: seq<nat>
    ghost var ran: seq<nat>
    ghost var past: Record

    ghost function State(): Table
      reads this
    {
      Table(waiting, ready, live, made, attached, notes, trapped, out, spawned, ran, past)
    }

    constructor ()
      ensures State() == EMPTY
    {
      waiting, ready, live, made, attached := map[], [], map[], 0, 0;
      notes, trapped, out, spawned, ran := 0, false, {}, [], [];
      past := Record(map[], map[], map[], [], 0);
    }

    method Wait(h: Handle, task: Option<Task>)
      modifies this
      ensures State() == old(State()).(waiting := old(waiting)[h := task])
    {
      waiting := waiting[h := task];
    }

    method Enqueue(job: Job)
      modifies this
      ensures State() == Queued(old(State()), job)
    {
      ready := ready + [job];
      spawned := spawned + [job.id];
    }

    /** A call: its answer comes now, or later on a handle not out already. */
    method StartCall(sent: Sent)
      modifies this
      ensures State() == Started(old(State()), sent)
    {
      var held := Ready(false);
      match sent {
        case Done(ok) => held := Ready(ok);
        case Pending(h) =>
          if h !in out {
            held := Waiting(h);
            out := out + {h};
            past := past.(holders := past.holders[h := made]);
          }
      }
      if held.Ready? {
        past := RepliedTo(past, made, held.ok);
      }
      live := live[made := held];
      made := made + 1;
    }

    method AttachThen(p: nat, ifOk: seq<Op>, ifErr: seq<Op>)
      modifies this
      ensures State() == ThenOn(old(State()), p, ifOk, ifErr)
    {
      if p !in live {
        return;
      }
      match live[p]
      case Taken => trapped := true;
      case Ready(ok) =>
        live := live - {p};
        past := BoundTo(past, attached, ThenOf(p, ifOk, ifErr));
        attached := attached + 1;
        Enqueue(Job(attached - 1, if ok then ifOk else ifErr, false));
      case Waiting(h) =>
        live := live - {p};
        past := BoundTo(past, attached, ThenOf(p, ifOk, ifErr));
        attached := attached + 1;
        Wait(h, Some(Task(attached - 1, ifOk, ifErr, false)));
    }

    method AttachWatch(p: nat, failed: seq<Op>)
      requires !trapped
      modifies this
      ensures State() == Watched(old(State()), p, failed)
      decreases failed, 1
    {
      hide DidAll;
      if p !in live {
        return;
      }
      match live[p]
      case Taken => trapped := true;
      case Ready(ok) =>
        live := live - {p};
        if !ok {
          notes := notes + 1;
          Run(failed);
        }
      case Waiting(h) =>
        live := live - {p};
        past := BoundTo(past, attached, WatchOf(p, failed));
        attached := attached + 1;
        Wait(h, Some(Task(attached - 1, [], failed, true)));
    }

    /** Read a `Pending`'s handle again, then take what is there. */
    method PollPending(p: nat, read: Read)
      modifies this
      ensures State() == Polled(old(State()), p, read)
    {
      if p in live && live[p].Waiting? && read.Arrived? {
        out := out - {live[p].handle};
        past := RepliedTo(past, p, read.ok);
        live := live[p := Ready(read.ok)];
      }
      TakeReady(p);
    }

    method TakeReady(p: nat)
      modifies this
      ensures State() == TakenReady(old(State()), p)
    {
      if p in live && live[p].Ready? {
        live := live[p := Taken];
      }
    }

    method DropPending(p: nat)
      modifies this
      ensures State() == Dropped(old(State()), p)
    {
      if p in live {
        var held := live[p];
        live := live - {p};
        if held.Waiting? {
          Wait(held.handle, None);
        }
      }
    }

    method CallNow(sent: Sent)
      modifies this
      ensures State() == NowDone(old(State()), sent)
    {
      if sent.Pending? && sent.handle !in out {
        out := out + {sent.handle};
        past := past.(holders := past.holders - {sent.handle});
        Wait(sent.handle, None);
      }
    }

    method SpawnTask(ops: seq<Op>)
      modifies this
      ensures State() == Pushed(old(State()), ops, SpawnOf(ops))
    {
      past := BoundTo(past, attached, SpawnOf(ops));
      attached := attached + 1;
      Enqueue(Job(attached - 1, ops, false));
    }

    /** What the app, or a continuation, does. */
    method Run(ops: seq<Op>)
      modifies this
      ensures State() == DidAll(old(State()), ops)
      decreases ops, 0
    {
      hide Started, ThenOn, Polled, TakenReady, Dropped, NowDone, Pushed;
      ghost var was := State();
      for n := 0 to |ops|
        invariant DidAll(State(), ops[n..]) == DidAll(was, ops)
      {
        assert ops[n..][0] == ops[n] && ops[n..][1..] == ops[n + 1..];
        if !trapped {
          past := Doing(past, ops[n], HeldBy(live, ops[n]));
          match ops[n]
          case Start(sent) => StartCall(sent);
          case Then(p, ifOk, ifErr) => AttachThen(p, ifOk, ifErr);
          case Watch(p, failed) => AttachWatch(p, failed);
          case Poll(p, read) => PollPending(p, read);
          case Take(p) => TakeReady(p);
          case Drop(p) => DropPending(p);
          case Now(sent) => CallNow(sent);
          case Spawn(inner) => SpawnTask(inner);
        }
      }
    }

    /** An announcement for a handle; true exactly when a `Pending` holds it here. */
    method ReplyReady(h: Handle, read: Read) returns (own: bool)
      modifies this
      ensures own == Owns(old(State()), h)
      ensures State() == Resolved(old(State()), h, read)
    {
      if h !in waiting {
        return false;
      }
      own := true;
      var awaited := waiting[h];
      waiting := waiting - {h};
      match read
      case StillPending =>
        Wait(h, awaited);
        assert old(waiting) - {h} + map[h := awaited] == old(waiting);
      case Arrived(ok) =>
        out := out - {h};
        past := Heard(past, h, ok);
        if awaited.Some? {
          var task := awaited.value;
          Enqueue(Job(task.id, if ok then task.ifOk else task.ifErr, task.noted && !ok));
        }
    }

    /** Run every queued task, including those queued while running. */
    method Drain()
      modifies this
      ensures State() == Drained(old(State()))
    {
      hide DidAll, Load;
      ghost var was := State();
      while ready != [] && !trapped
        invariant Drained(State()) == Drained(was)
        decreases Load(ready)
      {
        ghost var now := State();
        var job := ready[0];
        ready := ready[1..];
        ran := ran + [job.id];
        past := Turning(past, Some(job.id), job.ops);
        if job.notes {
          notes := notes + 1;
        }
        Run(job.ops);
        assert State() == RanFirst(now);
      }
    }

    /** What every export ends with: the queue drains, then each note becomes one call. */
    method Settle(answers: nat -> Sent)
      modifies this
      ensures State() == Settled(old(State()), answers)
    {
      hide Drained, NowDone;
      Drain();
      if trapped {
        return;
      }
      var taken := notes;
      notes := 0;
      ghost var was := State();
      for n := 0 to taken
        invariant State() == Logged(was, n, answers)
      {
        CallNow(answers(n));
        past := past.(logs := past.logs + 1);
      }
    }

    /** One export call: the app or the executor takes it, and everything settles. */
    method Export(a: Action)
      modifies this
      ensures State() == Apply(old(State()), a)
    {
      hide DidAll, Settled;
      if trapped {
        return;
      }
      if a.Replied? {
        var own := ReplyReady(a.h, a.read);
        if !own {
          past := Turning(past, None, a.ops);
          Run(a.ops);
        }
      } else {
        past := Turning(past, None, a.ops);
        Run(a.ops);
      }
      Settle(a.answers);
    }
  }
}
