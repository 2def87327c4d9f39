/** The lifecycle as the guest runtime enforces it: which calls of the host reach the app, and when.

    The host may call an export while the app is running one (`inner`): the app's cell is borrowed
    then. `SlotState` and its functions are the specification; class `Slot` updates the same cells
    in place. The trace is what the app was given. */
module Lifecycle {
  import opened Basics

  datatype Life = Created | Initialised | Running | Suspended | Closing | Closed

  datatype Step = Initialise | Start | Suspend | Resume | Close | Settle | Abort

  datatype CloseReason = Unmount | Uninstall | AccessRevoked | HostShutdown | VersionUpdate | HostError

  datatype SuspendReason = Hidden | Backgrounded

  /** Payloads the runtime does not look at are left out. */
  datatype AppEvent =
    | InitEvent
    | SuspendEvent(reason: SuspendReason)
    | ResumeEvent
    | Resize | Pointer | Key | Wheel | Focus(focused: bool) | Visibility(visible: bool)
    | NodeChanged | StorageChanged | UiAction | DeepLink
    | FrameEvent(dtMs: u32)
    | ReplyReady(handle: int)
    | Ihttp | Topic

  /** What the app is given: an `init` and its outcome, an event, its `close`. */
  datatype Entry =
    | Began(ok: bool, graceMs: u32)
    | Given(event: AppEvent)
    | Ended(reason: CloseReason, graceMs: u32)

  const INIT_OK := 0
  const INIT_BAD_CONTEXT := 1
  const INIT_DECLINED := 2
  const CLOSE_OK := 0
  const CLOSE_UNKNOWN_REASON := 1
  const CLOSE_NOT_RUNNING := 2

  datatype Answer =
    | Code(code: int)
    | Delivered
    | NotStarted
    | Busy
    | Dropped(state: Life)
    | Illegal(from: Life, step: Step)

  /** A call of the host's, with the calls it makes while the app runs. `ctx` is the decoded
      context's grace, `verdict` what the app's `init` answers. */
  datatype HostCall =
    | InitCall(ctx: Option<u32>, verdict: Result<(), i32>, inner: seq<HostCall>)
    | EventCall(event: AppEvent, inner: seq<HostCall>)
    | FrameCall(dtMs: i32, inner: seq<HostCall>)
    | CloseCall(code: i32, inner: seq<HostCall>)

  datatype SlotState = SlotState(app: bool, busy: bool, life: Life, graceMs: u32, trace: seq<Entry>)

  const NEW := SlotState(false, false, Created, 0, [])

  // ---------------------------------------------------------------- the transition table

  /** Where `step` takes a state, if it is allowed there. */
  function After(life: Life, step: Step): Option<Life> {
    match (life, step)
    case (Closed, _) => None
    case (_, Abort) => Some(Closed)
    case (Created, Initialise) => Some(Initialised)
    case (Initialised, Start) => Some(Running)
    case (Running, Suspend) => Some(Suspended)
    case (Suspended, Resume) => Some(Running)
    case (Initialised, Close) => Some(Closing)
    case (Running, Close) => Some(Closing)
    case (Suspended, Close) => Some(Closing)
    case (Closing, Settle) => Some(Closed)
    case _ => None
  }

  function ReasonOf(code: int): Option<CloseReason> {
    match code
    case 0 => Some(Unmount)
    case 1 => Some(Uninstall)
    case 2 => Some(AccessRevoked)
    case 3 => Some(HostShutdown)
    case 4 => Some(VersionUpdate)
    case 5 => Some(HostError)
    case _ => None
  }

  function CodeOf(reason: CloseReason): int {
    match reason
    case Unmount => 0
    case Uninstall => 1
    case AccessRevoked => 2
    case HostShutdown => 3
    case VersionUpdate => 4
    case HostError => 5
  }

  predicate Alive(life: Life) {
    life.Initialised? || life.Running? || life.Suspended?
  }

  datatype Admission = Deliver | Take(step: Step) | Drop

  function Admitted(life: Life, event: AppEvent): Admission {
    match event
    case InitEvent => Take(Start)
    case SuspendEvent(_) => Take(Suspend)
    case ResumeEvent => Take(Resume)
    case ReplyReady(_) => if Alive(life) || life == Closing then Deliver else Drop
    case FrameEvent(_) => if life == Running then Deliver else Drop
    case Pointer => if life == Running then Deliver else Drop
    case Key => if life == Running then Deliver else Drop
    case Wheel => if life == Running then Deliver else Drop
    case Focus(_) => if life == Running then Deliver else Drop
    case _ => if Alive(life) then Deliver else Drop
  }

  // ---------------------------------------------------------------- what each call does

  /** The app runs with its cell borrowed, and the host may call meanwhile. */
  function During(s: SlotState, entry: Entry, inner: seq<HostCall>): SlotState
    decreases inner, 1
  {
    AfterAll(s.(busy := true, trace := s.trace + [entry]), inner).(busy := s.busy)
  }

  function Init(s: SlotState, ctx: Option<u32>, verdict: Result<(), i32>, inner: seq<HostCall>): (SlotState, Answer)
    decreases inner, 2
  {
    if ctx.None? then (s, Code(INIT_BAD_CONTEXT))
    else if s.busy || s.app || s.life != Created then (s, Code(INIT_DECLINED))
    else
      var tried := During(s, Began(verdict.Ok?, ctx.value), inner);
      match verdict
      case Ok(_) => (tried.(app := true, graceMs := ctx.value, life := Initialised), Code(INIT_OK))
      case Err(code) =>
        (tried, Code(if code == INIT_OK || code == INIT_BAD_CONTEXT then INIT_DECLINED else code))
  }

  function Event(s: SlotState, event: AppEvent, inner: seq<HostCall>): (SlotState, Answer)
    decreases inner, 2
  {
    if s.busy then (s, Busy)
    else if !s.app then (s, NotStarted)
    else
      match Admitted(s.life, event)
      case Drop => (s, Dropped(s.life))
      case Deliver => (During(s, Given(event), inner), Delivered)
      case Take(step) =>
        match After(s.life, step)
        case None => (s, Illegal(s.life, step))
        case Some(next) => (During(s.(life := next), Given(event), inner), Delivered)
  }

  function FrameOf(dtMs: i32): AppEvent {
    FrameEvent(if dtMs < 0 then 0 else dtMs)
  }

  function CloseApp(s: SlotState, code: int, inner: seq<HostCall>): (SlotState, Answer)
    decreases inner, 2
  {
    match ReasonOf(code)
    case None => (s, Code(CLOSE_UNKNOWN_REASON))
    case Some(reason) =>
      if s.busy || !s.app || After(s.life, Close).None? then (s, Code(CLOSE_NOT_RUNNING))
      else (During(s.(life := After(s.life, Close).value), Ended(reason, s.graceMs), inner), Code(CLOSE_OK))
  }

  function Called(s: SlotState, call: HostCall): (SlotState, Answer)
    decreases call
  {
    match call
    case InitCall(ctx, verdict, inner) => Init(s, ctx, verdict, inner)
    case EventCall(event, inner) => Event(s, event, inner)
    case FrameCall(dtMs, inner) => Event(s, FrameOf(dtMs), inner)
    case CloseCall(code, inner) => CloseApp(s, code, inner)
  }

  function AfterAll(s: SlotState, calls: seq<HostCall>): SlotState
    decreases calls, 0
  {
    if calls == [] then s else AfterAll(Called(s, calls[0]).0, calls[1..])
  }

  // ---------------------------------------------------------------- what the app can be given

  predicate Input(event: AppEvent) {
    event.FrameEvent? || event.Pointer? || event.Key? || event.Wheel? || event.Focus?
  }

  ghost predicate Begun(t: seq<Entry>) {
    exists g :: Began(true, g) in t
  }

  predicate Started(t: seq<Entry>) {
    Given(InitEvent) in t
  }

  ghost predicate Over(t: seq<Entry>) {
    exists i :: 0 <= i < |t| && t[i].Ended?
  }

  /** A suspension with no resume since. */
  ghost predicate OutOfSight(t: seq<Entry>) {
    exists i :: 0 <= i < |t| && IsSuspend(t[i]) && forall j :: i < j < |t| ==> t[j] != Given(ResumeEvent)
  }

  predicate IsSuspend(e: Entry) {
    e.Given? && e.event.SuspendEvent?
  }

  /** Whether `e` may follow `t`: nothing begins twice; everything else needs a begun app; the start
      comes once; suspensions and resumptions alternate after it; frames and input come only between
      them; close comes once, with the grace of the context the app began with; and after it only
      replies. */
  ghost predicate MayFollow(t: seq<Entry>, e: Entry) {
    match e
    case Began(_, _) => !Begun(t)
    case Ended(_, g) => Began(true, g) in t && !Over(t)
    case Given(event) =>
      && Begun(t)
      && (Over(t) ==> event.ReplyReady?)
      && (event.InitEvent? ==> !Started(t))
      && (event.SuspendEvent? ==> Started(t) && !OutOfSight(t))
      && (event.ResumeEvent? ==> OutOfSight(t))
      && (Input(event) ==> Started(t) && !OutOfSight(t))
  }

  ghost predicate WellFormed(t: seq<Entry>) {
    forall n :: 0 <= n < |t| ==> MayFollow(t[..n], t[n])
  }

  /** The state a trace amounts to. */
  ghost function LifeOf(t: seq<Entry>): Life {
    if !Begun(t) then Created
    else if Over(t) then Closing
    else if OutOfSight(t) then Suspended
    else if Started(t) then Running
    else Initialised
  }

  lemma Snoc(t: seq<Entry>, e: Entry)
    ensures Begun(t + [e]) <==> Begun(t) || (e.Began? && e.ok)
    ensures Started(t + [e]) <==> Started(t) || e == Given(InitEvent)
    ensures Over(t + [e]) <==> Over(t) || e.Ended?
    ensures OutOfSight(t + [e]) <==> IsSuspend(e) || (OutOfSight(t) && e != Given(ResumeEvent))
    ensures forall g :: Began(true, g) in t + [e] <==> Began(true, g) in t || e == Began(true, g)
  {
    var u := t + [e];
    assert u[|t|] == e;
    if OutOfSight(t) {
      var i :| 0 <= i < |t| && IsSuspend(t[i]) && forall j :: i < j < |t| ==> t[j] != Given(ResumeEvent);
      assert u[i] == t[i];
    }
    if Over(t) {
      var i :| 0 <= i < |t| && t[i].Ended?;
      assert u[i] == t[i];
    }
    if Begun(t) {
      var g :| Began(true, g) in t;
      assert Began(true, g) in u;
    }
    if OutOfSight(u) {
      var i :| 0 <= i < |u| && IsSuspend(u[i]) && forall j :: i < j < |u| ==> u[j] != Given(ResumeEvent);
      assert i < |t| ==> u[|t|] != Given(ResumeEvent);
      assert forall j :: i < j < |t| ==> t[j] == u[j];
    }
  }

  lemma WellFormedSnoc(t: seq<Entry>, e: Entry)
    requires WellFormed(t)
    ensures WellFormed(t + [e]) <==> MayFollow(t, e)
  {
    hide MayFollow;
    var u := t + [e];
    assert u[..|t|] == t && u[|t|] == e;
    forall n | 0 <= n < |t| ensures MayFollow(u[..n], u[n]) {
      assert u[..n] == t[..n] && u[n] == t[n];
    }
  }

  // ---------------------------------------------------------------- what every call keeps

  ghost predicate Inv(s: SlotState) {
    && WellFormed(s.trace)
    && s.life == LifeOf(s.trace)
    && (s.app <==> Begun(s.trace))
    && (s.app ==> Began(true, s.graceMs) in s.trace)
    && (OutOfSight(s.trace) ==> Started(s.trace))
    && (Started(s.trace) ==> Begun(s.trace))
  }

  /** Called while the app runs, the host is turned away and nothing changes. */
  lemma ReentryChangesNothing(s: SlotState, call: HostCall)
    requires s.busy
    ensures Called(s, call).0 == s
    ensures Called(s, call).1
            in {Busy, Code(INIT_BAD_CONTEXT), Code(INIT_DECLINED), Code(CLOSE_UNKNOWN_REASON), Code(CLOSE_NOT_RUNNING)}
  {
    hide After, AfterAll;
  }

  lemma {:induction false} ReentriesChangeNothing(s: SlotState, calls: seq<HostCall>)
    requires s.busy
    ensures AfterAll(s, calls) == s
    decreases |calls|
  {
    hide Called;
    if calls != [] {
      ReentryChangesNothing(s, calls[0]);
      ReentriesChangeNothing(s, calls[1..]);
    }
  }

  lemma DuringIs(s: SlotState, entry: Entry, inner: seq<HostCall>)
    ensures During(s, entry, inner) == s.(trace := s.trace + [entry])
  {
    ReentriesChangeNothing(s.(busy := true, trace := s.trace + [entry]), inner);
  }

  /** An entry that may follow, and the state it leads to. */
  lemma Follows(s: SlotState, e: Entry, t: SlotState)
    requires Inv(s) && MayFollow(s.trace, e)
    requires t.trace == s.trace + [e] && t.life == LifeOf(t.trace)
    requires e.Began? && e.ok ==> t.app && t.graceMs == e.graceMs
    requires !(e.Began? && e.ok) ==> t.app == s.app && t.graceMs == s.graceMs
    ensures Inv(t)
  {
    hide LifeOf, WellFormed, Begun, Started, Over, OutOfSight;
    WellFormedSnoc(s.trace, e);
    Snoc(s.trace, e);
  }

  lemma InitKeeps(s: SlotState, ctx: Option<u32>, verdict: Result<(), i32>, inner: seq<HostCall>)
    requires Inv(s) && !s.busy
    ensures Inv(Init(s, ctx, verdict, inner).0) && !Init(s, ctx, verdict, inner).0.busy
  {
    hide WellFormed, Begun, Started, Over, OutOfSight;
    if ctx.Some? && !s.app && s.life == Created {
      var e := Began(verdict.Ok?, ctx.value);
      DuringIs(s, e, inner);
      Snoc(s.trace, e);
      NothingBefore(s.trace);
      Follows(s, e, Init(s, ctx, verdict, inner).0);
    }
  }

  /** Nothing comes before the app has begun but failed beginnings. */
  lemma NothingBefore(t: seq<Entry>)
    requires WellFormed(t) && !Begun(t)
    ensures !Started(t) && !Over(t) && !OutOfSight(t)
  {
    forall n | 0 <= n < |t| ensures t[n].Began? {
      assert MayFollow(t[..n], t[n]);
      assert forall g :: Began(true, g) in t[..n] ==> Began(true, g) in t;
    }
  }

  lemma EventKeeps(s: SlotState, event: AppEvent, inner: seq<HostCall>)
    requires Inv(s) && !s.busy
    ensures Inv(Event(s, event, inner).0) && !Event(s, event, inner).0.busy
  {
    hide WellFormed, Begun, Started, Over, OutOfSight;
    var (t, answer) := Event(s, event, inner);
    if answer.Delivered? {
      var e := Given(event);
      var moved := if Admitted(s.life, event).Take? then s.(life := After(s.life, Admitted(s.life, event).step).value)
                   else s;
      DuringIs(moved, e, inner);
      Snoc(s.trace, e);
      Follows(s, e, t);
    }
  }

  lemma CloseKeeps(s: SlotState, code: int, inner: seq<HostCall>)
    requires Inv(s) && !s.busy
    ensures Inv(CloseApp(s, code, inner).0) && !CloseApp(s, code, inner).0.busy
  {
    hide WellFormed, Begun, Started, Over, OutOfSight, ReasonOf;
    var reason := ReasonOf(code);
    if reason.Some? && s.app && After(s.life, Close).Some? {
      var e := Ended(reason.value, s.graceMs);
      DuringIs(s.(life := After(s.life, Close).value), e, inner);
      Snoc(s.trace, e);
      Follows(s, e, CloseApp(s, code, inner).0);
    }
  }

  lemma {:induction false} RunKeeps(s: SlotState, calls: seq<HostCall>)
    requires Inv(s) && !s.busy
    ensures Inv(AfterAll(s, calls)) && !AfterAll(s, calls).busy
    decreases |calls|
  {
    hide Inv, Init, Event, CloseApp;
    if calls != [] {
      match calls[0] {
        case InitCall(ctx, verdict, inner) => InitKeeps(s, ctx, verdict, inner);
        case EventCall(event, inner) => EventKeeps(s, event, inner);
        case FrameCall(dtMs, inner) => EventKeeps(s, FrameOf(dtMs), inner);
        case CloseCall(code, inner) => CloseKeeps(s, code, inner);
      }
      RunKeeps(Called(s, calls[0]).0, calls[1..]);
    }
  }

  // ---------------------------------------------------------------- every sequence of host calls

  /** The host call that gives the app one entry. */
  function CallFor(e: Entry): HostCall {
    match e
    case Began(ok, g) => InitCall(Some(g), if ok then Ok(()) else Err(INIT_DECLINED), [])
    case Given(event) => EventCall(event, [])
    case Ended(reason, _) => CloseCall(CodeOf(reason), [])
  }

  lemma CallGives(s: SlotState, e: Entry)
    requires Inv(s) && !s.busy && MayFollow(s.trace, e)
    ensures Called(s, CallFor(e)).0.trace == s.trace + [e]
  {
    hide WellFormed, Begun, Started, Over, OutOfSight;
    NothingBeforeIn(s);
    var from := if e.Given? && Admitted(s.life, e.event).Take? then After(s.life, Admitted(s.life, e.event).step)
                else if e.Ended? then After(s.life, Close) else None;
    DuringIs(if from.Some? then s.(life := from.value) else s, e, []);
    if e.Ended? {
      OneGrace(s.trace, s.graceMs, e.graceMs);
    }
  }

  lemma NothingBeforeIn(s: SlotState)
    requires Inv(s)
    ensures !Begun(s.trace) ==> !Started(s.trace) && !Over(s.trace) && !OutOfSight(s.trace)
    ensures forall g :: Began(true, g) in s.trace ==> Begun(s.trace)
  {
    if !Begun(s.trace) {
      NothingBefore(s.trace);
    }
  }

  lemma BeganOnce(t: seq<Entry>, i: nat)
    requires WellFormed(t) && i < |t| && t[i].Began? && t[i].ok
    ensures forall j :: i < j < |t| ==> !t[j].Began?
  {
    forall j | i < j < |t| ensures !t[j].Began? {
      assert MayFollow(t[..j], t[j]);
      assert t[..j][i] == t[i] == Began(true, t[i].graceMs);
    }
  }

  /** The app begins once, so with one context. */
  lemma OneGrace(t: seq<Entry>, g: u32, h: u32)
    requires WellFormed(t) && Began(true, g) in t && Began(true, h) in t
    ensures g == h
  {
    var i :| 0 <= i < |t| && t[i] == Began(true, g);
    var j :| 0 <= j < |t| && t[j] == Began(true, h);
    BeganOnce(t, i);
    BeganOnce(t, j);
  }

  lemma {:induction false} AfterSnoc(s: SlotState, calls: seq<HostCall>, last: HostCall)
    ensures AfterAll(s, calls + [last]) == Called(AfterAll(s, calls), last).0
    decreases |calls|
  {
    hide Called;
    if calls == [] {
      assert [] + [last] == [last] && [last][1..] == [];
    } else {
      assert (calls + [last])[1..] == calls[1..] + [last];
      AfterSnoc(Called(s, calls[0]).0, calls[1..], last);
    }
  }

  lemma NewHolds()
    ensures Inv(NEW) && !NEW.busy
  {
  }

  /** What the app can be given is achieved by some calls. */
  lemma {:induction false} Achieved(t: seq<Entry>) returns (calls: seq<HostCall>)
    requires WellFormed(t)
    ensures AfterAll(NEW, calls).trace == t
    decreases |t|
  {
    hide Inv, MayFollow, Called;
    if t == [] {
      return [];
    }
    var front, last := t[..|t| - 1], t[|t| - 1];
    assert front + [last] == t;
    PrefixWellFormed(t, |t| - 1);
    calls := Achieved(front);
    NewHolds();
    RunKeeps(NEW, calls);
    WellFormedSnoc(front, last);
    AfterSnoc(NEW, calls, CallFor(last));
    CallGives(AfterAll(NEW, calls), last);
    calls := calls + [CallFor(last)];
  }

  lemma PrefixWellFormed(t: seq<Entry>, m: nat)
    requires WellFormed(t) && m <= |t|
    ensures WellFormed(t[..m])
  {
    hide MayFollow;
    forall n | 0 <= n < m ensures MayFollow(t[..m][..n], t[..m][n]) {
      assert t[..m][..n] == t[..n];
      assert MayFollow(t[..n], t[n]);
    }
  }

  /** Over every sequence of host calls, re-entrant ones included: what the app is given is well
      formed, and every well-formed trace is what some sequence gives it. */
  lemma AppIsGivenExactly(t: seq<Entry>)
    ensures (exists calls :: AfterAll(NEW, calls).trace == t) <==> WellFormed(t)
  {
    hide MayFollow, Called;
    forall calls | AfterAll(NEW, calls).trace == t ensures WellFormed(t) {
      NewHolds();
      RunKeeps(NEW, calls);
    }
    if WellFormed(t) {
      var calls := Achieved(t);
      assert AfterAll(NEW, calls).trace == t;
    }
  }

  /** The guest's own slot never settles or aborts, so it is never `Closed`; and its state is always
      the one its trace amounts to. */
  lemma NeverClosed(calls: seq<HostCall>)
    ensures AfterAll(NEW, calls).life == LifeOf(AfterAll(NEW, calls).trace) != Closed
  {
    hide MayFollow, Called;
    NewHolds();
    RunKeeps(NEW, calls);
  }

  lemma ResumedBetween(t: seq<Entry>, i: nat, j: nat)
    requires WellFormed(t) && i < j < |t| && IsSuspend(t[i]) && IsSuspend(t[j])
    ensures exists m :: i < m < j && t[m] == Given(ResumeEvent)
  {
    hide Begun, Started, Over;
    assert MayFollow(t[..j], t[j]);
    assert t[..j][i] == t[i];
    assert !OutOfSight(t[..j]);
    var m :| i < m < j && t[..j][m] == Given(ResumeEvent);
    assert t[m] == t[..j][m];
  }

  lemma SuspendedBetween(t: seq<Entry>, i: nat, j: nat)
    requires WellFormed(t) && i < j < |t| && t[i] == t[j] == Given(ResumeEvent)
    ensures exists m :: i < m < j && IsSuspend(t[m])
  {
    hide Begun, Started, Over;
    assert MayFollow(t[..j], t[j]);
    assert OutOfSight(t[..j]);
    var m :| 0 <= m < j && IsSuspend(t[..j][m]) && forall l :: m < l < j ==> t[..j][l] != Given(ResumeEvent);
    assert t[m] == t[..j][m] && t[..j][i] == t[i];
  }

  /** Over every sequence: between two suspensions lies a resumption, and between two resumptions a
      suspension. */
  lemma SuspensionsAlternate(calls: seq<HostCall>, i: nat, j: nat)
    requires i < j < |AfterAll(NEW, calls).trace|
    ensures var t := AfterAll(NEW, calls).trace;
            && (IsSuspend(t[i]) && IsSuspend(t[j]) ==> exists m :: i < m < j && t[m] == Given(ResumeEvent))
            && (t[i] == t[j] == Given(ResumeEvent) ==> exists m :: i < m < j && IsSuspend(t[m]))
  {
    hide MayFollow, Called, AfterAll, IsSuspend;
    NewHolds();
    RunKeeps(NEW, calls);
    var t := AfterAll(NEW, calls).trace;
    if IsSuspend(t[i]) && IsSuspend(t[j]) {
      ResumedBetween(t, i, j);
    }
    if t[i] == t[j] == Given(ResumeEvent) {
      SuspendedBetween(t, i, j);
    }
  }

  /** How far along a state is, but for suspending and resuming. */
  function Stage(life: Life): nat {
    match life
    case Created => 0
    case Initialised => 1
    case Running => 2
    case Suspended => 2
    case Closing => 3
    case Closed => 4
  }

  /** The transition table: no step leads back but between running and suspended, or past closing but out
      of it and by an abort; `Closed` is final; each state has one step on, and an abort, besides close. */
  lemma StepsLeadOn(life: Life, step: Step)
    ensures After(life, step).Some? ==>
              var next := After(life, step).value;
              && (Stage(next) > Stage(life) || (life == Running && next == Suspended)
                  || (life == Suspended && next == Running))
              && (step != Abort && step != Close ==> Stage(next) <= Stage(life) + 1)
    ensures After(life, step) == Some(Closed)
            <==> life != Closed && (step == Abort || (life == Closing && step == Settle))
    ensures After(life, step) == Some(Closing) <==> Alive(life) && step == Close
    ensures life == Closed ==> After(life, step).None?
  {
  }

  // ---------------------------------------------------------------- what each call answers

  /** The code `app_init` answers for an app's own failure: one that would read as OK or as a bad
      context is answered as declined. */
  predicate FailureAnswered(verdict: Result<(), i32>, answer: Answer) {
    && verdict.Err?
    && answer.Code? && answer.code != INIT_OK && answer.code != INIT_BAD_CONTEXT
    && (verdict.error != INIT_OK && verdict.error != INIT_BAD_CONTEXT ==> answer.code == verdict.error)
    && (verdict.error == INIT_OK || verdict.error == INIT_BAD_CONTEXT ==> answer.code == INIT_DECLINED)
  }

  /** `app_init` answers OK exactly when this call began the app, a bad context exactly when there is
      none, and the app's own code when its `init` ran and failed; it is declined otherwise. The app's
      `init` runs exactly when nothing runs and nothing has begun, and nothing changes if it does not. */
  lemma InitAnswers(s: SlotState, ctx: Option<u32>, verdict: Result<(), i32>, inner: seq<HostCall>)
    requires Inv(s)
    ensures var (t, answer) := Init(s, ctx, verdict, inner);
            var runs := ctx.Some? && !s.busy && !Begun(s.trace);
            && (answer == Code(INIT_OK) <==> !Begun(s.trace) && Begun(t.trace))
            && (answer == Code(INIT_BAD_CONTEXT) <==> ctx.None?)
            && (answer == Code(INIT_OK) ==> t.life == Initialised && t.app && t.graceMs == ctx.value)
            && (answer == Code(INIT_OK) <==> runs && verdict.Ok?)
            && t.trace == s.trace + (if runs then [Began(verdict.Ok?, ctx.value)] else [])
            && (runs && verdict.Err? ==> FailureAnswered(verdict, answer) && t.(trace := s.trace) == s)
            && (!runs ==> t == s)
            && (!runs && ctx.Some? ==> answer == Code(INIT_DECLINED))
  {
    hide WellFormed, Begun, Started, Over, OutOfSight;
    if ctx.Some? {
      DuringIs(s, Began(verdict.Ok?, ctx.value), inner);
      Snoc(s.trace, Began(verdict.Ok?, ctx.value));
      NothingBeforeIn(s);
    }
  }

  /** The step a lifecycle event asks for. */
  predicate Asks(event: AppEvent, step: Step) {
    (event.InitEvent? && step == Start) || (event.SuspendEvent? && step == Suspend)
    || (event.ResumeEvent? && step == Resume)
  }

  lemma EventDelivers(s: SlotState, event: AppEvent, inner: seq<HostCall>)
    requires Inv(s)
    ensures var (t, answer) := Event(s, event, inner);
            && (answer == Delivered <==> !s.busy && MayFollow(s.trace, Given(event)))
            && (answer == Delivered ==> t.trace == s.trace + [Given(event)])
            && (answer != Delivered ==> t == s)
  {
    hide WellFormed, Begun, Started, Over, OutOfSight;
    NothingBeforeIn(s);
    var moved := if Admitted(s.life, event).Take? && After(s.life, Admitted(s.life, event).step).Some?
                 then s.(life := After(s.life, Admitted(s.life, event).step).value) else s;
    DuringIs(moved, Given(event), inner);
  }

  /** What an event is answered: delivered exactly when nothing runs and it may follow what the app
      was given, which then grew by it; any other answer leaves the slot as it was, and says why. */
  lemma EventAnswers(s: SlotState, event: AppEvent, inner: seq<HostCall>)
    requires Inv(s)
    ensures var (t, answer) := Event(s, event, inner);
            && (answer == Delivered <==> !s.busy && MayFollow(s.trace, Given(event)))
            && (answer == Delivered <==> t.trace == s.trace + [Given(event)])
            && (answer != Delivered ==> t == s)
            && (answer == Busy <==> s.busy)
            && (answer == NotStarted <==> !s.busy && !Begun(s.trace))
            && (answer.Illegal? ==> answer.from == s.life && Asks(event, answer.step))
            && (answer.Dropped? ==> answer.state == s.life && forall step :: !Asks(event, step))
            && !answer.Code?
  {
    EventDelivers(s, event, inner);
    hide WellFormed, Begun, LifeOf, MayFollow, During, OutOfSight;
  }

  /** What `app_close` answers: an unknown reason exactly when no reason has that code; OK exactly when
      the app was given one close, for the reason of that code with the grace it began with, which
      happens exactly when nothing runs and a begun app has not been closed; and not running, with
      nothing changed, otherwise. */
  lemma CloseAnswers(s: SlotState, code: int, inner: seq<HostCall>)
    requires Inv(s)
    ensures var (t, answer) := CloseApp(s, code, inner);
            && (answer == Code(CLOSE_UNKNOWN_REASON) <==> forall reason :: CodeOf(reason) != code)
            && (answer == Code(CLOSE_OK) <==>
                  exists reason :: CodeOf(reason) == code && t.trace == s.trace + [Ended(reason, s.graceMs)])
            && (answer == Code(CLOSE_OK) <==>
                  !s.busy && exists reason :: CodeOf(reason) == code && MayFollow(s.trace, Ended(reason, s.graceMs)))
            && (answer == Code(CLOSE_OK) ==> t.life == Closing)
            && (answer != Code(CLOSE_OK) ==> t == s && answer in {Code(CLOSE_UNKNOWN_REASON), Code(CLOSE_NOT_RUNNING)})
  {
    hide WellFormed, Begun, Started, Over, OutOfSight;
    NothingBeforeIn(s);
    CodesAreOfReasons(code);
    if ReasonOf(code).Some? && After(s.life, Close).Some? {
      DuringIs(s.(life := After(s.life, Close).value), Ended(ReasonOf(code).value, s.graceMs), inner);
    }
  }

  /** Codes and reasons name each other. */
  lemma CodesAreOfReasons(code: int)
    ensures forall reason :: CodeOf(reason) == code <==> ReasonOf(code) == Some(reason)
  {
  }

  /** A frame call gives the app a frame of the time that passed, none for a negative one. */
  lemma FrameIsGiven(s: SlotState, dtMs: i32, inner: seq<HostCall>)
    requires Inv(s) && Called(s, FrameCall(dtMs, inner)).1 == Delivered
    ensures exists dt: u32 ::
              && Called(s, FrameCall(dtMs, inner)).0.trace == s.trace + [Given(FrameEvent(dt))]
              && (dtMs >= 0 ==> dt == dtMs) && (dtMs < 0 ==> dt == 0)
  {
    hide Inv, MayFollow;
    EventAnswers(s, FrameOf(dtMs), inner);
  }

  // ---------------------------------------------------------------- the source's own form

  class Slot {
    var app: bool
    /** The app's cell is borrowed: one of its own calls is running. */
    var busy: bool
    var life: Life
    var graceMs: u32
    ghost var trace: seq<Entry>

    ghost function State(): SlotState
      reads this
    {
      SlotState(app, busy, life, graceMs, trace)
    }

    constructor ()
      ensures State() == NEW
    {
      app, busy, life, graceMs, trace := false, false, Created, 0, [];
    }

    /** The app's method runs; the host calls meanwhile. */
    method RunApp(entry: Entry, inner: seq<HostCall>)
      modifies this
      ensures State() == During(old(State()), entry, inner)
      decreases inner, 1
    {
      var was := busy;
      busy := true;
      trace := trace + [entry];
      HostCalls(inner);
      busy := was;
    }

    method AppInit(ctx: Option<u32>, verdict: Result<(), i32>, inner: seq<HostCall>) returns (answer: Answer)
      modifies this
      ensures (State(), answer) == Init(old(State()), ctx, verdict, inner)
      decreases inner, 2
    {
      hide AfterAll;
      if ctx.None? {
        return Code(INIT_BAD_CONTEXT);
      }
      if busy || app || life != Created {
        return Code(INIT_DECLINED);
      }
      RunApp(Began(verdict.Ok?, ctx.value), inner);
      match verdict
      case Ok(_) =>
        app := true;
        graceMs := ctx.value;
        life := Initialised;
        return Code(INIT_OK);
      case Err(code) =>
        return Code(if code == INIT_OK || code == INIT_BAD_CONTEXT then INIT_DECLINED else code);
    }

    method AppEvent(event: AppEvent, inner: seq<HostCall>) returns (answer: Answer)
      modifies this
      ensures (State(), answer) == Event(old(State()), event, inner)
      decreases inner, 2
    {
      hide AfterAll;
      if busy {
        return Busy;
      }
      if !app {
        return NotStarted;
      }
      match Admitted(life, event)
      case Drop => return Dropped(life);
      case Deliver =>
        RunApp(Given(event), inner);
        return Delivered;
      case Take(step) =>
        var next := After(life, step);
        if next.None? {
          return Illegal(life, step);
        }
        life := next.value;
        RunApp(Given(event), inner);
        return Delivered;
    }

    method AppClose(code: i32, inner: seq<HostCall>) returns (answer: Answer)
      modifies this
      ensures (State(), answer) == CloseApp(old(State()), code, inner)
      decreases inner, 2
    {
      hide AfterAll;
      var reason := ReasonOf(code);
      if reason.None? {
        return Code(CLOSE_UNKNOWN_REASON);
      }
      if busy || !app {
        return Code(CLOSE_NOT_RUNNING);
      }
      var closing := After(life, Close);
      if closing.None? {
        return Code(CLOSE_NOT_RUNNING);
      }
      life := closing.value;
      RunApp(Ended(reason.value, graceMs), inner);
      return Code(CLOSE_OK);
    }

    method HostCalls(calls: seq<HostCall>)
      modifies this
      ensures State() == AfterAll(old(State()), calls)
      decreases calls, 0
    {
      hide Init, Event, CloseApp;
      ghost var was := State();
      for n := 0 to |calls|
        invariant AfterAll(State(), calls[n..]) == AfterAll(was, calls)
      {
        assert calls[n..][0] == calls[n] && calls[n..][1..] == calls[n + 1..];
        match calls[n]
        case InitCall(ctx, verdict, inner) => var _ := AppInit(ctx, verdict, inner);
        case EventCall(event, inner) => var _ := AppEvent(event, inner);
        case FrameCall(dtMs, inner) => var _ := AppEvent(FrameOf(dtMs), inner);
        case CloseCall(code, inner) => var _ := AppClose(code, inner);
      }
    }
  }
}
