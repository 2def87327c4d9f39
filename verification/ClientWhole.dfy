/** The non-streaming call: its sink gathers what comes until it can answer, and answers once. */
module ClientWhole {
  import opened Basics
  import opened Frames
  import opened FanoutPlan
  import Client

  /** What the callback holds between events, and what it has answered. */
  datatype Whole = Whole(armed: bool, head: Option<(ResponseHead, Via)>, body: Bytes, answers: seq<Result<Response,
      Refused>>)

  const START := Whole(true, None, [], [])

  function Fed(w: Whole, event: ClientEvent): Whole {
    match event
    case HeadEvent(head, via) => w.(head := Some((head, via)))
    case BodyEvent(bytes) => w.(body := w.body + bytes)
    case EndEvent =>
      var result := if w.head.Some? then Ok(Response(w.head.value.0, w.head.value.1, w.body)) else Err(NO_HEAD);
      Whole(false, None, if w.head.Some? then [] else w.body,
            w.answers + (if w.armed then [result] else []))
    case FailedEvent(why) =>
      w.(armed := false, answers := w.answers + (if w.armed then [Err(why)] else []))
  }

  function FedAll(events: seq<ClientEvent>): Whole {
    if events == [] then START else Fed(FedAll(events[..|events| - 1]), events[|events| - 1])
  }

  /** The captured state of the callback, updated in place. */
  class WholeCall {
    var armed: bool
    var head: Option<(ResponseHead, Via)>
    var body: Bytes
    var answers: seq<Result<Response, Refused>>

    ghost function State(): Whole
      reads this
    {
      Whole(armed, head, body, answers)
    }

    constructor ()
      ensures State() == START
    {
      armed, head, body, answers := true, None, [], [];
    }

    method On(event: ClientEvent)
      modifies this
      ensures State() == Fed(old(State()), event)
    {
      match event
      case HeadEvent(h, via) => head := Some((h, via));
      case BodyEvent(bytes) => body := body + bytes;
      case EndEvent =>
        var result: Result<Response, Refused> := Err(NO_HEAD);
        if head.Some? {
          result := Ok(Response(head.value.0, head.value.1, body));
          head, body := None, [];
        }
        if armed {
          armed, answers := false, answers + [result];
        }
      case FailedEvent(why) =>
        if armed {
          armed, answers := false, answers + [Err(why)];
        }
    }
  }

  /** The bytes of every body event, in order. */
  function BodyOf(events: seq<ClientEvent>): Bytes {
    if events == [] then []
    else
      var last := events[|events| - 1];
      BodyOf(events[..|events| - 1]) + (if last.BodyEvent? then last.bytes else [])
  }

  /** The last head, if any came. */
  function HeadSeen(events: seq<ClientEvent>): Option<(ResponseHead, Via)> {
    if events == [] then None
    else
      var last := events[|events| - 1];
      if last.HeadEvent? then Some((last.head, last.via)) else HeadSeen(events[..|events| - 1])
  }

  lemma {:induction false} BeforeTheEnd(events: seq<ClientEvent>)
    requires forall i :: 0 <= i < |events| ==> !events[i].Terminal()
    ensures FedAll(events) == Whole(true, HeadSeen(events), BodyOf(events), [])
  {
    if events != [] {
      BeforeTheEnd(events[..|events| - 1]);
    }
  }

  /** Over every run of the client table: the callback of a call answered whole runs at most once,
      exactly when its stream has ended; an End after a head answers that head and the whole body,
      and anything else answers a refusal. */
  lemma AnsweredOnceWhole(actions: seq<Client.Action>, host: Host, k: Client.Key)
    requires k in Client.AfterAll(Client.NO_STREAMS, actions, host).seen
    ensures var events := Client.AfterAll(Client.NO_STREAMS, actions, host).seen[k];
            && |FedAll(events).answers| == (if Client.Ended(events) then 1 else 0)
            && (Client.Ended(events) ==>
                  var streamed, last := events[..|events| - 1], events[|events| - 1];
                  FedAll(events).answers[0] ==
                    if last.FailedEvent? then Err(last.why)
                    else if HeadSeen(streamed).None? then Err(NO_HEAD)
                    else Ok(Response(HeadSeen(streamed).value.0, HeadSeen(streamed).value.1, BodyOf(streamed))))
  {
    hide Client.AfterAll;
    var events := Client.AfterAll(Client.NO_STREAMS, actions, host).seen[k];
    Client.AtMostOneEndAndLast(actions, host, k);
    if Client.Ended(events) {
      BeforeTheEnd(events[..|events| - 1]);
    } else {
      BeforeTheEnd(events);
    }
  }
}
