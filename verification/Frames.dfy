/** Internal HTTP, frame by frame: who is called, on which transport, and what a stream carries. */
module Frames {
  import opened Basics

  /** The plane a frame came on. */
  datatype Via = P2p | Relay | Group

  datatype Transport = OnP2p | OnRelay | PreferP2pThenRelay

  datatype Address =
    | User(appId: string, username: string)
    | Scope(appId: string, scopeKey: string)

  /** Who called: with `via`, what the session layer attaches to a frame. */
  datatype Caller = Caller(username: string, cid: u64, appId: string, installId: string, via: Via)

  type Headers = seq<(string, string)>

  datatype RequestHead = RequestHead(
    verb: string,
    path: string,
    query: string,
    headers: Headers,
    bodyLen: Option<nat>,
    appId: string,
    scopeKey: string)

  datatype ResponseHead = ResponseHead(status: u16, headers: Headers, bodyLen: Option<nat>)

  datatype FrameKind =
    | ReqHead(request: RequestHead)
    | RespHead(response: ResponseHead)
    | Body(bytes: Bytes)
    | End
    | Cancel(reason: string)
    | Credit(n: u32)

  /** One step of a streamed response, as the caller's app sees it. */
  datatype ClientEvent =
    | HeadEvent(head: ResponseHead, via: Via)
    | BodyEvent(bytes: Bytes)
    | EndEvent
    | FailedEvent(why: Refused)
  {
    predicate Terminal() {
      EndEvent? || FailedEvent?
    }
  }

  const NO_HEAD := Refused.Unavailable("response without a head")

  datatype Frame = Frame(stream: nat, kind: FrameKind)

  /** How the host answers a frame: at once, or later, when a refusal may still come. */
  datatype Answer = Accepted | RefusedNow(why: Refused) | Later

  /** The host's answer to the n-th call made. */
  type Host = nat -> Answer
}
