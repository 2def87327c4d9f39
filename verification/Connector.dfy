/** The response stream: items that are not responses are skipped, and a run of 64 of them ends it.

    `Source` is what polling the inner stream finds, one entry a poll: nothing yet, or an item. Class
    `WrappedStream` is the source's own; its `PollNext` is proved to be `Poll`. */
module Connector {
  import opened Basics

  const GIVE_UP_AFTER: nat := 64

  /** What came, with the connection's end as the last thing that can come. */
  datatype Item<R> = Response(r: R) | NotAResponse | Undecodable | Closed
  {
    /** Skipped, and counted. */
    predicate Skipped() {
      NotAResponse? || Undecodable?
    }
  }

  datatype Polled<R> = NotYet | Came(item: Item<R>)

  datatype Outcome<R> = Pending | Ready(next: Option<R>)

  datatype Source<R> = Source(inner: seq<Polled<R>>, run: nat)

  /** One poll: read on past what is skipped until a response, an end, or nothing yet. */
  function Poll<R>(s: Source<R>): (Source<R>, Outcome<R>)
    decreases |s.inner|
  {
    if s.inner == [] then (s, Pending)
    else
      var rest := s.(inner := s.inner[1..]);
      match s.inner[0]
      case NotYet => (rest, Pending)
      case Came(Response(r)) => (rest.(run := 0), Ready(Some(r)))
      case Came(Closed) => (rest, Ready(None))
      case Came(_) =>
        if s.run + 1 >= GIVE_UP_AFTER then (rest.(run := s.run + 1), Ready(None))
        else Poll(rest.(run := s.run + 1))
  }

  class WrappedStream<R> {
    var inner: seq<Polled<R>>
    /** How many items in a row were passed over. */
    var undecodableInARow: nat

    ghost function State(): Source<R>
      reads this
    {
      Source(inner, undecodableInARow)
    }

    constructor (inner: seq<Polled<R>>)
      ensures State() == Source(inner, 0)
    {
      this.inner := inner;
      undecodableInARow := 0;
    }

    method PollNext() returns (outcome: Outcome<R>)
      modifies this
      ensures (State(), outcome) == Poll(old(State()))
    {
      ghost var was := State();
      while true
        invariant Poll(State()) == Poll(was)
        decreases |inner|
      {
        if inner == [] {
          return Pending;
        }
        var polled := inner[0];
        inner := inner[1..];
        match polled {
          case NotYet => return Pending;
          case Came(Response(r)) =>
            undecodableInARow := 0;
            return Ready(Some(r));
          case Came(Closed) => return Ready(None);
          case Came(_) =>
            undecodableInARow := undecodableInARow + 1;
            if undecodableInARow >= GIVE_UP_AFTER {
              return Ready(None);
            }
        }
      }
    }
  }

  // ---------------------------------------------------------------- polling to the first end

  /** The items a run of polls will find. */
  function Items<R>(inner: seq<Polled<R>>): seq<Item<R>> {
    if inner == [] then []
    else if inner[0].Came? then [inner[0].item] + Items(inner[1..])
    else Items(inner[1..])
  }

  /** What up to `polls` polls yield before the first end, and whether it came. */
  function Collected<R>(s: Source<R>, polls: nat): (seq<R>, bool)
    decreases polls
  {
    if polls == 0 then ([], false)
    else
      match Poll(s)
      case (t, Pending) => Collected(t, polls - 1)
      case (t, Ready(None)) => ([], true)
      case (t, Ready(Some(r))) => ([r] + Collected(t, polls - 1).0, Collected(t, polls - 1).1)
  }

  /** The items read straight through, with `run` skipped already. */
  function Filtered<R>(items: seq<Item<R>>, run: nat): (seq<R>, bool)
    decreases |items|
  {
    if items == [] then ([], false)
    else if items[0].Response? then ([items[0].r] + Filtered(items[1..], 0).0, Filtered(items[1..], 0).1)
    else if items[0].Closed? || run + 1 >= GIVE_UP_AFTER then ([], true)
    else Filtered(items[1..], run + 1)
  }

  lemma {:induction false} PollFilters<R>(s: Source<R>)
    ensures var (t, outcome) := Poll(s);
            var all := Filtered(Items(s.inner), s.run);
            && |t.inner| <= |s.inner| && (s.inner != [] ==> |t.inner| < |s.inner|)
            && (outcome == Ready(None) ==> all == ([], true))
            && (outcome == Pending ==> all == Filtered(Items(t.inner), t.run))
            && (outcome.Ready? && outcome.next.Some? ==>
                  all == ([outcome.next.value] + Filtered(Items(t.inner), t.run).0, Filtered(Items(t.inner), t.run).1))
    decreases |s.inner|
  {
    if s.inner != [] && s.inner[0].Came? {
      var item := s.inner[0].item;
      assert Items(s.inner)[1..] == Items(s.inner[1..]);
      if item.Skipped() && s.run + 1 < GIVE_UP_AFTER {
        PollFilters(Source(s.inner[1..], s.run + 1));
      }
    }
  }

  /** However the polls find nothing yet between items: polled often enough, the stream yields what
      reading straight through does; polled less, a prefix of it. */
  lemma {:induction false} CollectedIsFiltered<R>(s: Source<R>, polls: nat)
    ensures Collected(s, polls).0 <= Filtered(Items(s.inner), s.run).0
    ensures polls >= |s.inner| ==> Collected(s, polls) == Filtered(Items(s.inner), s.run)
    decreases polls
  {
    PollFilters(s);
    if polls > 0 {
      CollectedIsFiltered(Poll(s).0, polls - 1);
    }
  }

  // ---------------------------------------------------------------- where it ends

  /** The stream ends at `n`: the connection closed, or the 64th skipped item in a row. */
  ghost predicate EndsAt<R>(items: seq<Item<R>>, n: nat) {
    n < |items| && (items[n].Closed? || (n >= 63 && forall j :: n - 63 <= j <= n ==> items[j].Skipped()))
  }

  ghost predicate FirstEnd<R>(items: seq<Item<R>>, n: nat) {
    EndsAt(items, n) && forall m: nat :: m < n ==> !EndsAt(items, m)
  }

  function Responses<R>(items: seq<Item<R>>): seq<R> {
    if items == [] then []
    else if items[0].Response? then [items[0].r] + Responses(items[1..])
    else Responses(items[1..])
  }

  /** Reading from `i`, with the `run` items before it skipped and no end so far. */
  ghost predicate Reading<R>(items: seq<Item<R>>, i: nat, run: nat) {
    && i <= |items| && run <= i && run < 64
    && (forall j :: i - run <= j < i ==> items[j].Skipped())
    && (i > run ==> items[i - run - 1].Response?)
    && (forall m: nat :: m < i ==> !EndsAt(items, m))
  }

  lemma ReadingOn<R>(items: seq<Item<R>>, i: nat, run: nat)
    requires Reading(items, i, run) && i < |items|
    ensures EndsAt(items, i) <==> items[i].Closed? || (items[i].Skipped() && run + 1 >= 64)
    ensures !EndsAt(items, i) ==> Reading(items, i + 1, if items[i].Response? then 0 else run + 1)
  {
    if items[i].Skipped() && run + 1 < 64 && i >= 63 {
      assert !items[i - run - 1].Skipped();
    }
  }

  lemma {:induction false} FilteredToEnd<R>(items: seq<Item<R>>, i: nat, run: nat, n: nat)
    requires Reading(items, i, run) && i <= n <= |items|
    requires if n < |items| then FirstEnd(items, n) else forall m: nat :: !EndsAt(items, m)
    ensures Filtered(items[i..], run) == (Responses(items[i..n]), n < |items|)
    decreases |items| - i
  {
    hide EndsAt;
    if i < |items| {
      ReadingOn(items, i, run);
      assert items[i..][1..] == items[i + 1..];
      if i < n {
        assert !EndsAt(items, i);
        FilteredToEnd(items, i + 1, if items[i].Response? then 0 else run + 1, n);
        assert items[i..n][1..] == items[i + 1..n];
      }
    }
  }

  /** Up to its first end, and however often polls find nothing yet, the stream yields exactly the
      responses before the connection closed or the 64th skipped item in a row, in order. */
  lemma YieldsResponsesBeforeTheEnd<R>(inner: seq<Polled<R>>, n: nat, polls: nat)
    requires var items := Items(inner);
             n <= |items| && if n < |items| then FirstEnd(items, n) else forall m: nat :: !EndsAt(items, m)
    ensures var yielded := Collected(Source(inner, 0), polls);
            && yielded.0 <= Responses(Items(inner)[..n])
            && (polls >= |inner| ==> yielded == (Responses(Items(inner)[..n]), n < |Items(inner)|))
  {
    var items := Items(inner);
    CollectedIsFiltered(Source(inner, 0), polls);
    FilteredToEnd(items, 0, 0, n);
    assert items[0..] == items && items[0..n] == items[..n];
  }
}
