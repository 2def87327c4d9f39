/** Which side an internal-HTTP frame is for: this instance's server, its client, or the app. */
module Routing {
  import opened Basics
  import opened Frames
  import opened Outbox
  import C = Client
  import S = Server

  datatype Destination = ToServer | ToClient | ToApp

  /** The server is asked first for a request's head and for any frame on a stream it holds. */
  function Destined(client: C.ClientState, server: S.ServerState, from: Caller, frame: Frame): Destination {
    if (frame.kind.ReqHead? || S.Owns(server, from, frame.stream)) && S.Claims(server, frame) then ToServer
    else if C.Claims(client, from, frame) then ToClient
    else ToApp
  }

  /** Both sides' tables of one instance. */
  datatype Instance = Instance(client: C.ClientState, server: S.ServerState)

  /** A frame moves the side it is destined for and no other. */
  function Routed(s: Instance, from: Caller, frame: Frame, forClient: seq<C.AppOp>, forServer: seq<S.ServerOp>,
                  host: Host)
    : Instance
    requires s.client.streams.Keys <= s.client.seen.Keys
  {
    match Destined(s.client, s.server, from, frame)
    case ToServer => s.(server := S.OnFrame(s.server, from, frame, forServer, host))
    case ToClient => s.(client := C.OnFrame(s.client, from, frame, forClient, host))
    case ToApp => s
  }

  /** Both sides of one instance. `hooked` says whether the app ever served or called. */
  class Sides {
    var hooked: bool
    const client: C.Clients
    const server: S.Server

    constructor ()
      ensures !hooked && client.State() == C.NO_STREAMS && server.State() == S.SERVING.(handler := false)
      ensures fresh(client) && fresh(server)
    {
      hooked := false;
      client := new C.Clients();
      server := new S.Server();
    }

    method Install()
      modifies this
      ensures hooked
    {
      hooked := true;
    }

    /** An inbound frame; true gives it back to the app. */
    method Route(from: Caller, frame: Frame, forClient: seq<C.AppOp>, forServer: seq<S.ServerOp>, host: Host)
      returns (given: bool)
      requires client.streams.Keys <= client.seen.Keys
      modifies client, server
      ensures given == (!hooked || Destined(old(client.State()), old(server.State()), from, frame).ToApp?)
      ensures var was := Instance(old(client.State()), old(server.State()));
              Instance(client.State(), server.State()) ==
              if hooked then Routed(was, from, frame, forClient, forServer, host) else was
    {
      hide S.Flush, S.Complete, S.ShutDown, C.Deliver, C.Flush;
      if !hooked {
        return true;
      }
      var k := S.KeyOf(from, frame.stream);
      if frame.kind.ReqHead? || k in server.incoming || k in server.outgoing {
        var claimed := server.FrameIn(from, frame, forServer, host);
        if claimed {
          return false;
        }
      }
      var claimed := client.FrameIn(from, frame, forClient, host);
      return !claimed;
    }
  }

  /** A frame of a stream this instance opened reaches its sink exactly when the server holds no
      stream of the same number from the same peer, or the frame is a response's head. */
  lemma ReachesItsCaller(client: C.ClientState, server: S.ServerState, from: Caller, frame: Frame)
    requires C.Key(from.appId, frame.stream) in client.streams && !frame.kind.ReqHead?
    ensures Destined(client, server, from, frame) == ToClient
            <==> !S.Owns(server, from, frame.stream) || frame.kind.RespHead?
    ensures Destined(client, server, from, frame) != ToApp
  {
  }

  /** The app sees a frame exactly when it opens a request nobody serves, or belongs to a stream
      neither side holds, or is a response's head for a stream this instance did not open. */
  lemma ReachesTheApp(client: C.ClientState, server: S.ServerState, from: Caller, frame: Frame)
    ensures Destined(client, server, from, frame) == ToApp <==>
            if frame.kind.ReqHead? then !server.handler
            else C.Key(from.appId, frame.stream) !in client.streams
                 && (S.Owns(server, from, frame.stream) ==> frame.kind.RespHead?)
  {
  }

  /** Such a meeting of numbers is reachable: each side counts its own streams from 1, so a peer's
      first request and this instance's first call to the same app share their number. A body
      chunk of the response is then taken into the peer's request, and the sink never sees it. */
  lemma SameNumberIsSwallowed(to: Address, transport: Transport, request: C.Outbound, from: Caller,
      head: RequestHead, bytes: Bytes, host: Host)
    requires from.appId == C.AppIdOf(to) && forall n :: !host(n).RefusedNow?
    ensures var client := C.Open(C.NO_STREAMS, to, transport, request, host);
            var server := S.OnFrame(S.SERVING, from, Frame(1, ReqHead(head)), [], host);
            var frame := Frame(1, Body(bytes));
            && C.Claims(client, from, frame)
            && Destined(client, server, from, frame) == ToServer
            && S.KeyOf(from, 1) in S.OnFrame(server, from, frame, [], host).incoming
            && S.OnFrame(server, from, frame, [], host).incoming[S.KeyOf(from, 1)].body == bytes
  {
    hide Queued;
    FlushHolds(C.Inserted(C.NO_STREAMS, to, transport, request), C.NextKey(C.NO_STREAMS, to), host);
    assert [] + bytes == bytes;
  }

  lemma {:induction false} FlushHolds(s: C.ClientState, k: C.Key, host: Host)
    requires k in s.streams && forall n :: !host(n).RefusedNow?
    ensures k in C.Flush(s, k, host).streams
    decreases |s.streams[k].box.queued|
  {
    if !Blocked(s.streams[k].box) {
      NextShrinks(s.streams[k].box);
      assert !host(|s.sent|).RefusedNow?;
      FlushHolds(C.SendNext(s, k), k, host);
    }
  }
}
