# Citadel apps: a verified model

A Dafny model of the parts of the Citadel app platform whose promises span many steps, with proofs
that hold over every run, every input or every interleaving.

**The guest runtime.** Modules `FanoutPlan`, `Fanout`, `FanoutTable` and `FanoutDriver` are the
fan-out scheduler and its driver, and `FanoutVerdicts` what each target is told, exactly; `Outbox`,
`Client`, `ClientWhole` and `Server` are credit-based streams as each side keeps them, and `Flushes`,
`ClientStreams` and `ServerStreams` what goes out on them and how each ends, exactly; `Elsewhere`, `EndToEnd` and `Delivery` join the two sides over
in-order channels, among any other streams; `Routing` says which side a frame is for, and `Peers` puts
the call between two whole instances that route every frame; `Replies` is the executor of deferred
replies and `Continuations` what each of its tasks does; `Lifecycle` is the app's slot. Each table the runtime updates in place is a class whose
methods are proved to compute a function of its old value; the theorems are about those functions, over
runs of any length. `FanoutPlan.Plan`, `Outbox.Outbox` and `ClientWhole.WholeCall` each stand alone: the
larger classes hold a plan, a queue or a gathered answer as a value and step it by the functions these
classes are proved to compute. The host is part of a run: what it answers, when it answers late,
what it announces and in which order are inputs. Continuations are tasks with an id and what they do;
what the app does inside its own callbacks is a list of inner operations, any list.

**Exact text and address arithmetic.** `Text`, `Url`, `Ranges` and `Egress` are the egress policy:
strict URLs, address classes, grants, decisions and redirect chains. `Identity` and `Signing` are app
ids, versions and signed messages; `Boundary` is the verdict on a wasm module's boundary; `Connector`
is the response stream's filter. Texts are byte strings, one char a byte.

`Basics` and `Frames` hold what the others share.

## What the proofs found

- The byte counter saturates and the check is strictly-greater, so at `max_total_bytes == u64::MAX` the
  check never fires; for every other limit it fires exactly when the sum is over it
  (`FanoutPlan.OverIsExact`). No real fan-out hears that many bytes, and
  `FanoutTable.AnswersWithinByteBudget` holds at that limit too as long as none does.
- A client stream cancelled from inside its own sink, on an event that is not the last, never sees an
  end, over every later run (`Client.OwnCancelIsSilent`). Those are the only ones: every other stream
  that is over has seen exactly one (`Client.EveryStreamIsAccountedFor`, both directions).
- Both sides number their own streams from 1 and the server is asked first, so a peer's request and
  this instance's call to the same app can share a number; the response's body, credit, cancel and end
  then go to the server. `Routing.ReachesItsCaller` gives the exact condition and
  `Routing.SameNumberIsSwallowed` a reachable case.
- The other way round, the server forgets a stream when its last frame goes out, while credit for the
  last chunks is still to come. That credit goes to this instance's own call of the same number, if
  there is one (`Peers.CreditGoes`), and that call may then send one chunk more than it was granted
  (`Peers.LateCreditStrays`). Nothing else of a call is disturbed by it (`Peers.RoutedCallDelivers`).
- A `Pending` dropped after its announcement reached the app leaves an entry that goes exactly when the
  host announces the same handle again (`Replies.DroppedTooLate`). Dropping it in the handler of that
  very announcement is enough (`Replies.DroppedInItsHandler`).
- The guest's slot never takes the last two steps of the lifecycle table, so it is never `Closed`
  (`Lifecycle.NeverClosed`); the table's documentation describes the host's side.

## Model

| member | source | states |
|---|---|---|
| FanoutPlan.FreshKeeps | citadel-app-sdk/src/ihttp/fanout_plan.rs:45-66 | a new plan, zero limits included, satisfies the plan's invariant: every target in exactly one place, started in order, within the cap |
| FanoutPlan.AdmittedKeeps | citadel-app-sdk/src/ihttp/fanout_plan.rs:68-79 | admitting keeps the plan's invariant, so starts targets in index order, and leaves the cap full or nothing waiting |
| FanoutPlan.SettledKeeps | citadel-app-sdk/src/ihttp/fanout_plan.rs:89-101 | settling an open target keeps the plan's invariant and closes that target and no other |
| FanoutPlan.StoppedWaitingKeeps | citadel-app-sdk/src/ihttp/fanout_plan.rs:123-131 | stopping all keeps the plan's invariant and leaves open exactly the targets that run |
| FanoutPlan.ElapsedKeeps | citadel-app-sdk/src/ihttp/fanout_plan.rs:104-121 | time passing keeps the plan's invariant and who runs, whatever it makes due |
| FanoutPlan.AgedAll | citadel-app-sdk/src/ihttp/fanout_plan.rs:110-119 | the loop over running targets ages each once and lists those over their own limit in index order |
| FanoutPlan.OverIsExact | citadel-app-sdk/src/ihttp/fanout_plan.rs:82-86 | the check after a chunk fires exactly when its target runs, what was counted and the chunk are together over the limit, and the limit is below 2^64 - 1 |
| FanoutPlan.PlanIsStartable | citadel-app-sdk/src/ihttp/fanout_plan.rs:68-79 | in every state of the invariant, each target waiting can be started in turn, none already running |
| FanoutPlan.Plan.constructor | citadel-app-sdk/src/ihttp/fanout_plan.rs:45-66 | a plan starts as the fresh state of its targets and limits |
| FanoutPlan.Plan.Admit | citadel-app-sdk/src/ihttp/fanout_plan.rs:68-79 | the loop moves exactly the admitted targets from waiting to running and returns them |
| FanoutPlan.Plan.CountBytes | citadel-app-sdk/src/ihttp/fanout_plan.rs:82-86 | the counter adds with saturation and refuses when over the limit |
| FanoutPlan.Plan.Settle | citadel-app-sdk/src/ihttp/fanout_plan.rs:89-101 | the first outcome of a running target is recorded, a later one is not |
| FanoutPlan.Plan.Age | citadel-app-sdk/src/ihttp/fanout_plan.rs:110-119 | the loop ages every running target and collects those past their own limit |
| FanoutPlan.Plan.Done | citadel-app-sdk/src/ihttp/fanout_plan.rs:133-135 | the loop finds whether every target is settled |
| FanoutPlan.Plan.Elapse | citadel-app-sdk/src/ihttp/fanout_plan.rs:104-121 | the clocks advance with saturation; what is due is everything running once the budget is past, and otherwise those past their own limit |
| FanoutPlan.Plan.StopAll | citadel-app-sdk/src/ihttp/fanout_plan.rs:123-131 | waiting targets are skipped at once, running ones are returned to be cancelled |
| FanoutPlan.Plan.TakeOutcomes | citadel-app-sdk/src/ihttp/fanout_plan.rs:138-143 | the outcomes come out in target order |
| Fanout.LaunchKeeps | citadel-app-sdk/src/ihttp/fanout.rs:65-110 | a launched fan-out satisfies everything later steps keep |
| Fanout.OnEventKeeps | citadel-app-sdk/src/ihttp/fanout.rs:127-181 | any event of an opened stream, late ones included, keeps it |
| Fanout.TickKeeps | citadel-app-sdk/src/ihttp/fanout.rs:207-220 | a tick keeps it, adds to the clock, and leaves the fan-out over or within its budget |
| Fanout.CancelKeeps | citadel-app-sdk/src/ihttp/fanout.rs:207-225 | a cancelled fan-out is over, with everything kept |
| Fanout.FinishKeeps | citadel-app-sdk/src/ihttp/fanout.rs:183-205 | finishing keeps it, reporting only when every target is settled |
| Fanout.WithinBudget | citadel-app-sdk/src/ihttp/fanout.rs:134-138 | a body that keeps the counter within a limit below the largest keeps the bytes held within it |
| Fanout.StoppedEach | citadel-app-sdk/src/ihttp/fanout.rs:207-212 | stopping the targets due settles each of them and no other |
| FanoutTable.EveryRunKeeps | citadel-app-sdk/src/ihttp/fanout.rs:65-225 | every run of starts, events, ticks, cancels and deferred finishes keeps every fan-out's invariant |
| FanoutTable.EachTargetInOnePlace | citadel-app-sdk/src/ihttp/fanout_plan.rs:45-143 | over every run each target waits, runs or is settled, exactly one; at most the cap run; the cap is full or nothing waits |
| FanoutTable.AskedInOrderToldOnce | citadel-app-sdk/src/ihttp/fanout.rs:117-181 | over every run targets are asked in index order, each once, and `each` has run once for exactly those asked that run no more |
| FanoutTable.DoneOnceWithEveryOutcome | citadel-app-sdk/src/ihttp/fanout.rs:183-205 | over every run `done` runs once, when the fan-out is over, with an outcome per target in target order: what it was told, or skipped, or under a zero limit refused, if it was never asked |
| FanoutTable.AnswersAndStops | citadel-app-sdk/src/ihttp/fanout.rs:127-181 | over every run an answer is reported for an End heard on its target: its body is every byte heard there before that End, its head and plane those of the last head; the streams cancelled are exactly those of targets that did not answer, in order |
| FanoutTable.AnswersWithinByteBudget | citadel-app-sdk/src/ihttp/fanout_plan.rs:82-86 | over every run the answers total at most the byte limit, and so does what is held before they are out; at 2^64 - 1 the answers do unless more than that was heard |
| FanoutTable.TimeBudgetEndsIt | citadel-app-sdk/src/ihttp/fanout.rs:207-220 | ticks that sum to the budget end the fan-out whatever comes between; until then each running target is within its own limit |
| FanoutTable.ClockOverRun | citadel-app-sdk/src/ihttp/fanout_plan.rs:105-121 | the clock of an unfinished fan-out is the sum of the ticks over any run |
| FanoutVerdicts.ToldExactly | citadel-app-sdk/src/ihttp/fanout.rs:127-225 | over every run, for every action: a target is told an outcome if and only if it is asked and untold and the action comes to that outcome for it by what was heard of it and the ticks while it was asked: its whole answer at an End after a head, a refusal for an End without one, for the failure its stream came to, for the chunk that takes the bytes heard over the limit or for having run its own limit, and a skip past the whole budget or on a cancel; several are told in target order |
| FanoutVerdicts.EndIsAnswered | citadel-app-sdk/src/ihttp/fanout.rs:139-155 | an End for an asked, untold target makes it told then, and over every later run, its whole answer under the last head heard, or the refusal for having none |
| FanoutVerdicts.EndsExactly | citadel-app-sdk/src/ihttp/fanout.rs:183-220 | an action ends a fan-out in flight if and only if it reaches the whole budget or cancels it, or leaves every target with an outcome; none ends before |
| FanoutVerdicts.AskedFromTheFirst | citadel-app-sdk/src/ihttp/fanout_plan.rs:68-79 | over every run targets are asked from the first on, as many being asked and untold in flight as the cap allows |
| FanoutVerdicts.ZeroAdmitsNothing | citadel-app-sdk/src/ihttp/fanout_plan.rs:45-66 | nobody is asked exactly where there is no target or one of the four limits is zero, and then each target is refused for that |
| FanoutVerdicts.ReportsExactly | citadel-app-sdk/src/ihttp/fanout.rs:183-205 | what `done` is given: each target in order with what it was told, or skipped if never asked, and the plane of the last head heard for it, or else the one its transport tries first |
| FanoutVerdicts.KeepsItsTerms | citadel-app-sdk/src/ihttp/fanout.rs:65-110 | a fan-out keeps over every later run the targets, transport and limits it was started with |
| FanoutVerdicts.AgeOverRun | citadel-app-sdk/src/ihttp/fanout_plan.rs:110-117 | over every run a running target's age is the sum of the ticks that came while it was asked |
| FanoutDriver.Fanouts.Start | citadel-app-sdk/src/ihttp/fanout.rs:65-110 | the table gains a launched fan-out under the next id and nothing else changes |
| FanoutDriver.Fanouts.Admit | citadel-app-sdk/src/ihttp/fanout.rs:117-125 | the loop opens a stream for each admitted target |
| FanoutDriver.Fanouts.FinishIfDone | citadel-app-sdk/src/ihttp/fanout.rs:183-205 | a fan-out that is done leaves the table and reports |
| FanoutDriver.Fanouts.TakeOutcome | citadel-app-sdk/src/ihttp/fanout.rs:161-174 | records a decided outcome for an open target, drops its partial answer and key, tells the app and cancels the stream if asked to |
| FanoutDriver.Fanouts.Stop | citadel-app-sdk/src/ihttp/fanout.rs:207-212 | the loop settles each target stopped |
| FanoutDriver.Fanouts.TickOne | citadel-app-sdk/src/ihttp/fanout.rs:217-219 | one fan-out's tick |
| FanoutDriver.Fanouts.OnEvent | citadel-app-sdk/src/ihttp/fanout.rs:127-155 | an event moves its own fan-out, and no other, as the specification says, whose outcomes `FanoutVerdicts.ToldExactly` gives |
| FanoutDriver.Fanouts.Settle | citadel-app-sdk/src/ihttp/fanout.rs:161-181 | record, tell, stop, admit, finish, as one step of the specification |
| FanoutDriver.Fanouts.TickAll | citadel-app-sdk/src/ihttp/fanout.rs:214-220 | the loop over ids ticks every fan-out once |
| FanoutDriver.Fanouts.Cancel | citadel-app-sdk/src/ihttp/fanout.rs:222-225 | a cancel skips what waits and stops what runs |
| Outbox.Outbox.Grant | citadel-app-sdk/src/ihttp/outbox.rs:21-23 | credit grows, saturating |
| Outbox.Outbox.Message | citadel-app-sdk/src/ihttp/outbox.rs:26-34 | the loop queues the head, the body cut into chunks, then `End` |
| Outbox.Outbox.Next | citadel-app-sdk/src/ihttp/outbox.rs:37-46 | the next frame the credit allows, a body frame spending one |
| Outbox.ChunksCarryTheBody | citadel-app-sdk/src/ihttp/outbox.rs:26-34 | chunks are 1 to 65536 bytes, all but the last full, and concatenate to the body |
| Outbox.TakenUnderCredit | citadel-app-sdk/src/ihttp/outbox.rs:14-46 | over any grants and takes the frames out are a prefix of the queue and body frames out plus credit left equal credit held plus granted |
| Outbox.MessageUnderCredit | citadel-app-sdk/src/ihttp/outbox.rs:14-46 | one message from a new outbox never sends more than 4 body frames beyond the credit granted |
| Outbox.SentBySpends | citadel-app-sdk/src/ihttp/outbox.rs:37-46 | sending until blocked splits the queue and spends one credit a body frame |
| Flushes.ClientFlushIs | citadel-app-sdk/src/ihttp/client.rs:144-174 | whatever the host answers: the frames that go out of a stream are those the credit allows, in order, up to the first refused; a refused one ends the stream with that refusal queued for its sink and no frame after it, and otherwise the rest of queue and credit stays |
| Flushes.ServerFlushIs | citadel-app-sdk/src/ihttp/server.rs:162-200 | the same for a response, which its last frame shuts too; a refusal is answered |
| Client.EveryRunKeeps | citadel-app-sdk/src/ihttp/client.rs:69-232 | every run of opens, cancels, frames, late refusals and queued sinks, with any re-entrant opens and cancels, keeps the client table's invariant |
| Client.AtMostOneEndAndLast | citadel-app-sdk/src/ihttp/client.rs:109-193 | a sink sees at most one End or Failed and nothing after it |
| Client.EveryStreamIsAccountedFor | citadel-app-sdk/src/ihttp/client.rs:109-193 | over every run a stream still open or with its last event queued has seen no end; every other has seen exactly one, except exactly those on which a head or chunk was delivered with a cancel of that same stream among what the app did inside the sink |
| Client.OwnCancelIsSilent | citadel-app-sdk/src/ihttp/client.rs:136-193 | whatever else the app does inside that sink, a stream that cancels itself there never sees another event over any later run, and the server is told |
| Client.ActionSilences | citadel-app-sdk/src/ihttp/client.rs:109-193 | one action makes a stream silent exactly when the stream cancels itself in it; what is gone stays gone and sees no more |
| Client.RunSilences | citadel-app-sdk/src/ihttp/client.rs:109-193 | over any run the silent streams are those silent before and those that cancelled themselves |
| ClientStreams.EndsExactly | citadel-app-sdk/src/ihttp/client.rs:109-232 | over every run, for every action and every stream opened before: it ends if and only if its End or Cancel came, the app cancelled it, a refusal of its came late or a frame of its was refused now, with exactly that as its last event, the server told of a cancel; its sink sees its own frames' events and its queued last event and nothing else, and what is over stays as it ended |
| ClientStreams.OpensExactly | citadel-app-sdk/src/ihttp/client.rs:69-174 | a stream opened during an action has seen nothing and is open, unless a frame of its was refused, which then is its last event, or the app cancelled it in the same action |
| ClientStreams.RefusedIsOver | citadel-app-sdk/src/ihttp/client.rs:164-166 | over every run, where the host refused a frame of a request at once it was the request's last frame and the stream is over with that refusal; so a stream still open has had none refused |
| ClientStreams.WhatGoesOutWasAsked | citadel-app-sdk/src/ihttp/client.rs:69-106 | over every run and every later one, the frames of a request that went out are the head with its fields, chunks and end the app asked for, in order, to the address and by the transport it asked for, the rest waiting while the stream is open; streams are numbered by opens |
| ClientStreams.OneReasonOneRefusal | citadel-app-sdk/src/ihttp/cancel_reason.rs:14-24 | different reasons of a Cancel are different refusals, each of its own kind |
| Client.FlushKeeps | citadel-app-sdk/src/ihttp/client.rs:144-174 | sending what the credit allows, refused or not, touches no sink; what it sends and how a refusal ends the stream is `Flushes.ClientFlushIs` |
| Client.DidAllKeeps | citadel-app-sdk/src/ihttp/client.rs:176-193 | whatever the app does inside a sink, no sink that ran before hears anything of it |
| Client.Clients.FlushStream | citadel-app-sdk/src/ihttp/client.rs:144-174 | the loop is the specification's flush: it sends until the credit, a refusal, which finishes the stream, or the end of the queue stops it |
| Client.Clients.OpenStream | citadel-app-sdk/src/ihttp/client.rs:69-106 | a stream opens under the next number with its request queued and sent as far as credit allows |
| Client.Clients.CancelStream | citadel-app-sdk/src/ihttp/client.rs:109-133 | an open stream is removed and its server told; its sink is queued with a failure |
| Client.Clients.FinishStream | citadel-app-sdk/src/ihttp/client.rs:136-142 | the stream goes, and its sink is queued with the last event unless it is out |
| Client.Clients.Inside | citadel-app-sdk/src/ihttp/client.rs:176-193 | the app's own opens and cancels inside a sink, one after the other |
| Client.Clients.DeliverTo | citadel-app-sdk/src/ihttp/client.rs:176-193 | the sink is taken, runs, and goes back unless its stream is gone |
| Client.Clients.FrameIn | citadel-app-sdk/src/ihttp/client.rs:196-232 | each frame of an open stream is handled as its kind says; a request's head is given back |
| ClientWhole.WholeCall.On | citadel-app-sdk/src/ihttp/client_whole.rs:16-38 | the callback's captured state moves as specified |
| ClientWhole.BeforeTheEnd | citadel-app-sdk/src/ihttp/client_whole.rs:16-38 | before an end nothing is answered, and the last head and the concatenated body are held |
| ClientWhole.AnsweredOnceWhole | citadel-app-sdk/src/ihttp/client_whole.rs:16-38 | over every run of the client table the whole-response callback runs once, exactly when the stream ended, with the last head and the whole body or the refusal |
| Server.HandlerGetsExactlyTheRequests | citadel-app-sdk/src/ihttp/server.rs:70-159 | over every run the handler has been given, for each key, exactly the requests its own frames make up, in order, with one chunk noted for each body frame taken |
| Server.OneRequestOneCall | citadel-app-sdk/src/ihttp/server.rs:70-159 | a head then an end with no cancel, end or newer head between gives exactly one more call, its body the body frames between |
| Server.NothingAfterTheEnd | citadel-app-sdk/src/ihttp/server.rs:162-233 | in the log nothing goes out on a key after its response's last frame or its shutting until a request of it completes; that a cancel or refusal shuts it is `ServerStreams.OpenExactlyWhileItMayAnswer` |
| Server.EveryRunSends | citadel-app-sdk/src/ihttp/server.rs:109-200 | every frame goes out on a key that a completed request opened and nothing shut |
| ServerStreams.OpenExactlyWhileItMayAnswer | citadel-app-sdk/src/ihttp/server.rs:70-200 | over every run a key holds a response exactly while it may answer: a request of it completed, and since then no Cancel of it and no late refusal came and none of its frames was the last or was refused |
| ServerStreams.AnswersOnlyWhileItMay | citadel-app-sdk/src/ihttp/server.rs:162-200 | a response frame goes out in an action only if its key could answer before or the action completes its request, and never in one that calls it off |
| ServerStreams.CalledOffIsGone | citadel-app-sdk/src/ihttp/server.rs:140-144 | a Cancel leaves neither a request in assembly nor a response of its key, a late refusal no response and the assembly as it was; neither sends anything |
| ServerStreams.SilentUntilTheNextRequest | citadel-app-sdk/src/ihttp/server.rs:140-200 | over every run, between a Cancel or late refusal and any later response frame of the key an End completes a new request of it |
| ServerStreams.WhatGoesOutWasAnswered | citadel-app-sdk/src/ihttp/server.rs:209-233 | over every run the frames sent on a key since its request completed are what the app answered on it, each as head, chunks and end, in order, to the caller whose End completed it, the rest waiting while it may answer |
| ServerStreams.ResponseIsAnswered | citadel-app-sdk/src/ihttp/server.rs:210-233 | a response is answered that the stream is closed, with nothing changed, exactly when the key may not answer; the refusal if a frame was refused now; and otherwise that it went well |
| Server.Server.CompleteRequest | citadel-app-sdk/src/ihttp/server.rs:70-106 | the request leaves assembly, its stream may answer, and the handler, taken while it runs, is called once |
| Server.Server.FrameIn | citadel-app-sdk/src/ihttp/server.rs:109-159 | each frame is handled as its kind says, a Cancel dropping both the request in assembly and the response, or given back |
| Server.Server.FlushStream | citadel-app-sdk/src/ihttp/server.rs:162-200 | the loop sends until the credit, a refusal or the last frame stops it, and shuts the stream then |
| Server.Server.RespondWith | citadel-app-sdk/src/ihttp/server.rs:210-233 | a response is queued and sent under the credit, or refused on a closed stream |
| Server.Server.Serve | citadel-app-sdk/src/ihttp/server.rs:51-68 | the handler is installed |
| Server.Server.Close | citadel-app-sdk/src/ihttp/server.rs:162-200 | a shut stream answers no more |
| Server.Server.Inside | citadel-app-sdk/src/ihttp/server.rs:70-106 | the app's responses inside a handler, one after the other |
| Elsewhere.ClientActsAside | citadel-app-sdk/src/ihttp/client.rs:69-232 | whatever happens to other client streams, and whatever the app does inside their sinks short of cancelling this one, keeps this stream, what its sink saw and what goes out on it |
| Elsewhere.ServerActsAside | citadel-app-sdk/src/ihttp/server.rs:70-233 | whatever happens on other keys keeps this key's request, response and calls |
| Elsewhere.ReachableTables | citadel-app-sdk/src/ihttp/client.rs:69-232 | every table a run leads to, on either side, is as a call may find it |
| EndToEnd.ClientFlushes | citadel-app-sdk/src/ihttp/client.rs:144-174 | with a host that refuses nothing a flush sends exactly what the credit allows |
| EndToEnd.ServerFlushes | citadel-app-sdk/src/ihttp/server.rs:162-200 | and on the server's side, shutting the stream exactly when the last frame went |
| Delivery.CreditIsConserved | citadel-app-sdk-types/src/calls/ihttp.rs:119-124 | over every interleaving, with anything else happening on other streams of either side, sender credit, body frames in flight, reads noted and credits on their way back are together 4 and what strayed in, in each direction; always 4 when nothing strays |
| Delivery.ReceivedIsPrefix | citadel-app-sdk/src/ihttp/client.rs:196-232 | what either side has received is always a prefix of what the other was given to send |
| Delivery.NeverStuck | citadel-app-sdk/src/ihttp/server.rs:109-200 | no reachable state in which the call can take no step comes before the client has seen `End` |
| Delivery.EveryRunDelivers | citadel-app-sdk/src/ihttp/client.rs:144-232 | in every interleaving the call takes at most three steps a frame and one, and where it can take no more the handler was given the whole request once and the caller the whole response once |
| Delivery.EveryRunCanGoOn | citadel-app-sdk/src/ihttp/server.rs:109-200 | every reachable state can be carried on to such an end |
| Delivery.NextHolds | citadel-app-sdk/src/ihttp/client.rs:144-232 | every step keeps both sides' invariants, a step of the call strictly decreases what is left of it, and nothing else increases it |
| Delivery.HandlerRan | citadel-app-sdk/src/ihttp/server.rs:70-106 | responses to other requests inside the handler, and this one, leave the call's side as if only this one was sent |
| Delivery.SinkGets | citadel-app-sdk/src/ihttp/client.rs:176-232 | a response frame is seen once by its sink, whatever the app does inside it short of cancelling the stream |
| Delivery.MessageCarries | citadel-app-sdk/src/ihttp/outbox.rs:26-34 | the body frames of a message carry its body |
| Routing.Sides.Route | citadel-app-sdk/src/ihttp/mod.rs:99-113 | a frame changes exactly the side it is destined for, as that side's own frame step, or is given back to the app with nothing changed |
| Routing.Sides.Install | citadel-app-sdk/src/ihttp/mod.rs:74-79 | from the first serve or call on frames are routed |
| Routing.ReachesItsCaller | citadel-app-sdk/src/ihttp/mod.rs:99-113 | a frame of this instance's own stream reaches its sink exactly when the server holds no stream of that number from that peer, or it is a response's head |
| Routing.ReachesTheApp | citadel-app-sdk/src/ihttp/mod.rs:99-113 | exactly which frames are given back to the app |
| Routing.SameNumberIsSwallowed | citadel-app-sdk/src/ihttp/mod.rs:105-110 | two streams of one number are reachable, and the response's chunk then lands in the peer's request |
| Peers.StepIsStep | citadel-app-sdk/src/ihttp/mod.rs:99-113 | each routed step between two instances keeps both invariants and is one step of the call's two tables or none |
| Peers.RoutedRunsAreRuns | citadel-app-sdk/src/ihttp/mod.rs:99-113 | every routed run, whatever else arrives at either instance, is a run of the call's two tables with as many steps of the call |
| Peers.RoutedCallDelivers | citadel-app-sdk/src/ihttp/client.rs:144-232 | through the routers the call takes at most three steps a frame and one; what is received is a prefix of what was sent; credit is conserved but for what strayed in; where it can take no step both bodies were handed over whole |
| Peers.BackStaysFree | citadel-app-sdk/src/ihttp/server.rs:109-159 | frames on other keys, and credit on any, never give the caller's server a stream of the call's number from the callee |
| Peers.CreditGoes | citadel-app-sdk/src/ihttp/mod.rs:105-112 | credit goes to the server exactly when it holds a stream of that number from that peer, else to the client's stream of that number with that app, else to the app |
| Peers.LateCreditStrays | citadel-app-sdk/src/ihttp/server.rs:162-200 | a reachable pair of streams: credit for the last chunk of a finished response is granted to the instance's own request of that number, whose chunks sent and credit held are then 5 |
| Replies.EveryHandleHasOneOwner | citadel-app-sdk/src/pending.rs:36-63 | over every run a handle the host has out is the executor's or one `Pending`'s, never both, and neither holds another |
| Replies.ReplyReachesTheHolder | citadel-app-sdk/src/route.rs:12-27 | a `ReplyReady` for a handle that is out reaches the app exactly when a `Pending` still holds it |
| Replies.EachContinuationOnceInOrder | citadel-app-sdk/src/pending.rs:36-63 | over every run tasks run in the order they became ready, each at most once; between exports the queue is empty and each attached task has run or waits for one handle |
| Replies.ApplyPlaced | citadel-app-sdk/src/rt.rs:68-80 | what the app does and an announced reply run no continuation; settling runs them all |
| Replies.DidAllLoad | citadel-app-sdk/src/pending.rs:58-63 | a task adds no more work than it holds, so draining ends |
| Replies.FreedByItsReplyOnly | citadel-app-sdk/src/pending.rs:44-56 | over every run a handle the executor waits on leaves it exactly when an instance that has not trapped hears it announced with its reply in; until then its entry is unchanged |
| Replies.ExportFrees | citadel-app-sdk/src/pending.rs:44-56 | one export takes an awaited handle out exactly when its reply arrives there, and then queues its task and no other; which part of it runs is `Continuations.AnnouncementRunsItsTask` |
| Replies.HolderIsTold | citadel-app-sdk/src/route.rs:12-27 | an announcement of what a `Pending` holds is not the executor's: it goes to the app and moves no entry |
| Replies.DroppedTooLate | citadel-app-sdk/src/pending.rs:176-182 | a `Pending` whose announcement the app was given, in this export or an earlier one, and which is then dropped, leaves an entry with nothing to run that goes exactly when its handle is announced again |
| Replies.DroppedInItsHandler | citadel-app-sdk/src/pending.rs:176-182 | a two-export run that does this: a call, then a drop inside the handler of its announcement |
| Continuations.EachTaskDoesItsPart | citadel-app-sdk/src/pending.rs:44-63 | over every run each task that ran did what it was attached to do for what its call came to, the success's part or the failure's, all of it in order, and nothing else; the tasks are those that ran, in order |
| Continuations.AnnouncementRunsItsTask | citadel-app-sdk/src/pending.rs:44-56 | when the reply of an awaited handle arrives its call came to that reply, and the task that waited has the very next turn, with the part attached for a success if it was one and for a failure if not |
| Continuations.RepliesAreTheHosts | citadel-app-sdk/src/pending.rs:101-143 | over every run tasks and calls are numbered in order, each task bound to what was attached; a call answered at once came to its answer, a `Pending` holds what its call came to or waits on its own handle, and what waits on a handle was attached to its call |
| Continuations.AppIsCalledExactly | citadel-app-sdk/src/rt.rs:128-151 | over every run the app is called for exactly what the host calls it for, announcements the executor owns excepted, in order |
| Continuations.UsedUpOnce | citadel-app-sdk/src/pending.rs:101-182 | each `Pending` is used up at most once, by taking its reply, attaching to it or dropping it, and those not used up are held |
| Continuations.TrapsExactly | citadel-app-sdk/src/pending.rs:129-173 | the instance has trapped exactly if something was attached to a `Pending` whose reply had been taken |
| Continuations.EachFailureIsLogged | citadel-app-sdk/src/pending.rs:146-173 | over every run, between exports, each failure of a watched call was logged once, those in hand and those that came later |
| Continuations.NowIsDiscarded | citadel-app-sdk/src/pending.rs:199-209 | the reply of an immediate call answered pending is the executor's to discard, and its entry goes exactly when it is announced |
| Replies.Executor.AttachThen | citadel-app-sdk/src/pending.rs:129-143 | a continuation is queued at once for a reply in hand, kept under its handle otherwise, and panics on a taken reply |
| Replies.Executor.StartCall | citadel-app-sdk/src/pending.rs:184-194 | a call is in hand or waits for the handle it was given |
| Replies.Executor.TakeReady | citadel-app-sdk/src/pending.rs:101-109 | a reply in hand is taken once |
| Replies.Executor.SpawnTask | citadel-app-sdk/src/pending.rs:36-38 | a task joins the end of the queue |
| Replies.Executor.Wait | citadel-app-sdk/src/pending.rs:40-42 | a handle is the executor's from here on |
| Replies.Executor.Run | citadel-app-sdk/src/pending.rs:58-63 | what a task does, one thing after the other |
| Replies.Executor.Export | citadel-app-sdk/src/rt.rs:128-151 | one export call: delivered, then settled |
| Replies.Executor.AttachWatch | citadel-app-sdk/src/pending.rs:152-173 | a failure in hand is handled at once, a pending one when it arrives |
| Replies.Executor.PollPending | citadel-app-sdk/src/pending.rs:101-119 | polling reads a waiting handle again and takes what is there |
| Replies.Executor.DropPending | citadel-app-sdk/src/pending.rs:176-182 | a dropped `Pending` leaves its handle to the executor, to discard |
| Replies.Executor.CallNow | citadel-app-sdk/src/pending.rs:199-209 | a pending answer to an immediate call is left to the executor, to discard |
| Replies.Executor.ReplyReady | citadel-app-sdk/src/pending.rs:44-56 | the SDK takes exactly the handles it waits on, queues their task with the part for the reply, or discards the reply, and waits again if it is still pending |
| Replies.Executor.Drain | citadel-app-sdk/src/pending.rs:58-63 | the loop runs every queued task, those queued while running included |
| Replies.Executor.Settle | citadel-app-sdk/src/rt.rs:68-80 | after draining, what was noted is logged by immediate calls |
| Lifecycle.AppIsGivenExactly | citadel-app-sdk/src/rt.rs:83-151 | over every sequence of host calls, re-entrant ones included, what the app is given is well formed, and every well-formed trace is achieved: one begin, at most one start, alternating suspensions, frames and input only while running, one close with the begin's grace, only replies after |
| Lifecycle.RunKeeps | citadel-app-sdk/src/life.rs:22-62 | the slot's state is always the one its trace amounts to |
| Lifecycle.ReentryChangesNothing | citadel-app-sdk/src/rt.rs:91-93 | a call while the app runs is turned away and changes nothing |
| Lifecycle.NeverClosed | citadel-app-sdk-types/src/lifecycle.rs:133-147 | the guest's slot is never `Closed` |
| Lifecycle.SuspensionsAlternate | citadel-app-sdk-types/src/lifecycle.rs:141-142 | between two suspensions lies a resumption, and between two resumptions a suspension |
| Lifecycle.InitAnswers | citadel-app-sdk/src/rt.rs:83-112 | `app_init` answers OK exactly when this call began the app, a bad context exactly when there is none, the app's own code when its `init` ran and failed, and declined otherwise; nothing changes if `init` did not run |
| Lifecycle.EventAnswers | citadel-app-sdk/src/rt.rs:128-151 | an event is delivered exactly when nothing runs and it may follow what the app was given, which then grew by it; any other answer leaves the slot unchanged and is busy, not started, illegal with the state and step, or dropped with the state, exactly as the case is |
| Lifecycle.CloseAnswers | citadel-app-sdk/src/life.rs:42-62 | `app_close` answers an unknown reason exactly when no reason has the code, OK exactly when the app was given one close for that reason with its grace, which it is exactly when nothing runs and a begun app is not closed, and otherwise not running with nothing changed |
| Lifecycle.FrameIsGiven | citadel-app-sdk/src/rt.rs:153-161 | a frame gives the app the time that passed, none for a negative one |
| Lifecycle.StepsLeadOn | citadel-app-sdk-types/src/lifecycle.rs:133-147 | no step leads back but between running and suspended; `Closing` is entered by a close of a live app, `Closed` by an abort or by settling, and is final |
| Lifecycle.Slot.AppInit | citadel-app-sdk/src/rt.rs:83-112 | the slot after `app_init`, in every case |
| Lifecycle.Slot.AppEvent | citadel-app-sdk/src/rt.rs:128-151 | the slot after an event, in every case |
| Lifecycle.Slot.AppClose | citadel-app-sdk/src/life.rs:42-62 | the slot after `app_close`, and what it answers, in every case |
| Lifecycle.Slot.HostCalls | citadel-app-sdk/src/rt.rs:83-161 | the host's calls, one after the other, those made while the app runs included |
| Lifecycle.Slot.RunApp | citadel-app-sdk/src/rt.rs:133-150 | the app's cell is borrowed while it runs |
| Text.ParsesAsPrinted | citadel-app-id/src/lib.rs:103-122 | a decimal parses exactly when it is how its number prints, within the width |
| Text.JoinOfSplit | citadel-app-net-policy/src/url.rs:124 | splitting at a character and joining gives the text back |
| Text.SplitOfJoin | citadel-app-net-policy/src/url.rs:148 | joining parts without the character and splitting gives them back |
| Url.CanonicalIpv4 | citadel-app-net-policy/src/url.rs:147-161 | the loop reads four canonical octets or refuses |
| Url.PortIsPrinted | citadel-app-net-policy/src/url.rs:103-112 | a port parses exactly when it is how a number from 1 to 65535 prints |
| Url.Ipv4IsPrinted | citadel-app-net-policy/src/url.rs:147-161 | a text reads as an IPv4 address exactly when it is how that address prints |
| Url.NumericHostIsCanonical | citadel-app-net-policy/src/url.rs:116-144 | an accepted host whose last label is numeric or hexadecimal is a canonical address |
| Url.HostsExactly | citadel-app-net-policy/src/url.rs:116-144 | a host is accepted exactly when it prints an IPv4 address or is dotted labels of 1 to 63 letters, digits and inner hyphens, 253 in all, the last neither numeric nor hexadecimal |
| Url.HostIsText | citadel-app-net-policy/src/url.rs:116-144 | an accepted host holds only lower-case letters, digits, hyphens and dots |
| Url.AuthoritySplits | citadel-app-net-policy/src/url.rs:92-101 | a host in any case and a printed port split back into exactly those |
| Url.SplitsAuthority | citadel-app-net-policy/src/url.rs:92-101 | and nothing else splits |
| Url.ParsesExactly | citadel-app-net-policy/src/url.rs:49-83 | a text is accepted as a target exactly when it fits, is plain printable text, and spells that target in the grammar |
| Url.RefusedExactly | citadel-app-net-policy/src/url.rs:49-112 | a text is refused for a fault exactly when the fault is in it and none before it in their order is |
| Url.PrintParses | citadel-app-net-policy/src/url.rs:49-83 | printing an accepted target re-parses to it whenever it fits the cap |
| Url.FollowedPathParses | citadel-app-net-policy/src/decide.rs:68-80 | following an absolute path reads as the same scheme, host and port with that path, or fails only for the path's own faults or length |
| Ranges.MaskTestIsInterval | citadel-app-net-policy/src/ranges.rs:91-98 | for every width, prefix and address the mask test is membership in an interval |
| Ranges.MaskIsOnes | citadel-app-net-policy/src/ranges.rs:129-136 | the shifted mask is that many ones then zeros, prefix zero included |
| Ranges.FirstMatchIsLongestPrefix | citadel-app-net-policy/src/ranges.rs:100-165 | for every IPv4 and IPv6 address the first row that matches gives the class of the longest matching prefix, and no match the default |
| Ranges.TableV4Ordered | citadel-app-net-policy/src/ranges.rs:104-121 | in the IPv4 table no later, longer row is hidden by an earlier one of another class |
| Ranges.TableV6Ordered | citadel-app-net-policy/src/ranges.rs:142-159 | nor in the IPv6 table |
| Ranges.EmbeddedAlike | citadel-app-net-policy/src/ranges.rs:57-89 | every IPv4 address is classified alike in its plain, mapped, NAT64 and 6to4 forms |
| Ranges.CanonicalIsV4 | citadel-app-net-policy/src/ranges.rs:57-82 | an address carries an IPv4 address exactly in those forms, and taking it out twice changes nothing |
| Ranges.OctetsDecide | citadel-app-net-policy/src/ranges.rs:100-127 | every IPv4 address is of the class its octets say |
| Ranges.SegmentsDecide | citadel-app-net-policy/src/ranges.rs:138-165 | every IPv6 address that carries no IPv4 address is of the class its segments say |
| Egress.AllowedIsWritten | citadel-app-net-policy/src/grant.rs:36-46 | a grant's entry is accepted exactly when it is how its host and port are written |
| Egress.NewGrant | citadel-app-net-policy/src/grant.rs:66-82 | the loop accepts entries one by one and stops at the first fault |
| Egress.GrantIsMade | citadel-app-net-policy/src/grant.rs:66-82 | a grant is made exactly of one to eight distinct accepted entries, in order |
| Egress.GrantIsRefused | citadel-app-net-policy/src/grant.rs:36-82 | a grant is refused exactly for no entry, for more than eight, or for the first entry with a wildcard, not written as one, or there before |
| Egress.AllowedExactly | citadel-app-net-policy/src/decide.rs:101-199 | a request is allowed exactly when the app may ask it, its URL reads as the target, and every condition on names, ports, grant and addresses holds, each stated in full; the connections are to exactly the addresses it goes to |
| Egress.DeniedExactly | citadel-app-net-policy/src/decide.rs:139-199 | a request is denied for a reason exactly when the reason holds of it and none before it in their order does; an address reason is for the first address it may not reach |
| Egress.RedirectExactly | citadel-app-net-policy/src/decide.rs:113-137 | a redirect is too many past the third, must read, stay on the host and not go from https to http, each denied for itself, and is then decided as any request |
| Egress.EmbeddedReachableAlike | citadel-app-net-policy/src/decide.rs:189-199 | an address that carries an IPv4 address is reachable exactly when that address is, metadata endpoints included |
| Egress.AllowedChain | citadel-app-net-policy/src/decide.rs:113-137 | every allowed chain has at most three redirects and one host, never goes from https back to http, and each hop connects to exactly its checked addresses on its target's port |
| Egress.PathRedirectIsAllowed | citadel-app-net-policy/src/decide.rs:68-137 | a redirect of an allowed request to an absolute path is allowed, to the same addresses, if it fits |
| Identity.ValidateAppId | citadel-app-id/src/lib.rs:39-66 | the loop finds the first fault of an id, or none |
| Identity.AppIdIsItsRegex | citadel-app-id/src/lib.rs:36-66 | exactly the texts of at most 64 characters that match the documented regular expression are app ids |
| Identity.IdFaultsExactly | citadel-app-id/src/lib.rs:39-66 | why an id is refused: its length, its first label that is not one and what is wrong with it, or being one label |
| Identity.ParseVersion | citadel-app-id/src/lib.rs:80-101 | the parts are read in order and the first fault is reported |
| Identity.VersionIsPrinted | citadel-app-id/src/lib.rs:80-147 | a text parses as a version exactly when it is how that version prints |
| Identity.VersionFaultsExactly | citadel-app-id/src/lib.rs:80-122 | why a version is refused: its first part that is missing or not a number as it prints, and which of these it is |
| Identity.TooManyExactly | citadel-app-id/src/lib.rs:94-98 | a version has too many parts exactly when three good ones are followed by more |
| Identity.OrderIsOfNumbers | citadel-app-id/src/lib.rs:124-134 | a version is less, greater or equal exactly as its number is, so the order is total, and equal means the same version |
| Signing.SignedAppMessage | citadel-app-signature/src/lib.rs:92-108 | the bytes signed for an app release, or why there are none |
| Signing.SignedReleaseMessage | citadel-release-signature/src/lib.rs:76-92 | the bytes signed for an agent release, or which field is refused |
| Signing.IdentityHasNoNul | citadel-app-id/src/lib.rs:36-66 | an accepted id and version hold no NUL |
| Signing.AppMessageLayout | citadel-app-signature/src/lib.rs:92-108 | where each field of an app message lies: domain, id and version ended by NULs, then the two digests |
| Signing.ReleaseMessageLayout | citadel-release-signature/src/lib.rs:76-92 | and of a release message |
| Signing.RefusedForIdentity | citadel-app-signature/src/lib.rs:92-98 | an app message is refused exactly for what its id or else its version is refused for |
| Signing.AppMessagesDetermine | citadel-app-signature/src/lib.rs:92-108 | equal app messages are of the same id, version and digests |
| Signing.ReleaseMessagesDetermine | citadel-release-signature/src/lib.rs:76-92 | equal release messages are of the same tag, name and digest |
| Signing.DomainsDiffer | citadel-release-signature/src/lib.rs:30-31 | no app message is a release message |
| Boundary.Report.Judge | citadel-app-abi-inspect/src/rules.rs:121-139 | the report is the verdict, in its fixed order |
| Boundary.Report.JudgeImport | citadel-app-abi-inspect/src/rules.rs:51-101 | one import's reasons, each pushed once |
| Boundary.Report.JudgeMemory | citadel-app-abi-inspect/src/rules.rs:64-86 | the memory's reasons |
| Boundary.Report.ExpectFunc | citadel-app-abi-inspect/src/rules.rs:41-49 | a wrong kind or signature is pushed once |
| Boundary.Report.PushNew | citadel-app-abi-inspect/src/rules.rs:35-39 | a reason already listed is not listed again |
| Boundary.Report.JudgeImports | citadel-app-abi-inspect/src/rules.rs:51-101 | the loop over imports pushes each import's reasons once |
| Boundary.Report.JudgeExports | citadel-app-abi-inspect/src/rules.rs:103-119 | the required exports and the optional one, each judged by its first entry |
| Boundary.EveryReasonOnce | citadel-app-abi-inspect/src/rules.rs:121-139 | a reason is listed exactly when what the module declares gives it, each kind of reason stated by its own condition, and once |
| Boundary.ImportGives | citadel-app-abi-inspect/src/rules.rs:51-101 | one import is judged to have exactly the reasons its namespace, name, kind and signature give it under the policy |
| Boundary.ExportedIsFirst | citadel-app-abi-inspect/src/rules.rs:103-119 | an export is judged by the first entry of its name |
| Boundary.VerdictIsPhased | citadel-app-abi-inspect/src/rules.rs:121-139 | a verdict lists threads, then what imports give, then a memory not imported or defined and a start function, then exports |
| Boundary.AcceptedIfConforms | citadel-app-abi-inspect/src/rules.rs:51-139 | a module is accepted exactly when it meets the declared rules, a memory imported from the namespace under its name among them |
| Boundary.OrderDoesNotMatter | citadel-app-abi-inspect/src/rules.rs:51-101 | the order of imports changes neither which reasons are listed nor how many |
| Boundary.AcceptanceIsMonotone | citadel-app-abi-inspect/src/rules.rs:72-95 | declaring more and allowing more memory never turns an accepted module away |
| Boundary.MemoryFound | citadel-app-abi-inspect/src/model.rs:74-82 | a memory is found exactly when some import from the namespace is one |
| Connector.WrappedStream.PollNext | citadel-internal-service-connector/src/connector.rs:70-104 | the loop reads past what is skipped to a response, an end, or nothing yet |
| Connector.CollectedIsFiltered | citadel-internal-service-connector/src/connector.rs:70-104 | however polls find nothing yet in between, the stream yields what reading straight through does |
| Connector.YieldsResponsesBeforeTheEnd | citadel-internal-service-connector/src/connector.rs:70-104 | up to its first end the stream yields exactly the responses before the connection closed or the 64th skipped item in a row |

## Left out

- The wire encodings (CBOR, bincode), the cryptography behind digests and signatures, reading a wasm binary, the foreign calls and allocation of the wasm entry points, logging and the panic hook: library or foreign code. The model starts from decoded values.
- Callbacks as closures: `each`, `done`, sinks and handlers are record entries; what the app does inside them is a list of inner operations, any list. A fan-out started inside a callback is a later start.
- Stream, fan-out and task numbers are unbounded; the source's are 64 bits wide and wrap only after 2^64 of them. Handles are unbounded too.
- The host never gives out a handle that is still out: without that, waiting on a handle twice overwrites the first continuation.
- Tasks are finite trees. A continuation that attaches another for ever keeps the source's drain from returning.
- Using a `Pending` whose reply was taken panics; the model stops the instance there.
- The result a continuation is given is reduced to whether it is ok; decoding is part of that. `Pending::map` changes only the decoder.
- `send` and `read` over a handle (citadel-app-sdk/src/abi.rs) are reduced to their outcome: done, ok or not, or still pending.
- Delivery assumes a host that refuses nothing and no cancel of the call itself; refusals and cancels are covered for each side alone in `Client` and `Server`. The response is sent once, from inside the handler or later. Between whole instances (`Peers`) it assumes that at the caller no frame but credit comes on the call's number from anyone of the callee's app (the client's key has no peer in it) apart from the call's own, that the caller's own server holds no stream of that number from the callee when the call starts and none is opened, and that at the callee nothing but credit and response heads comes on the call's key apart from the call's own frames. What happens otherwise is in `Routing.ReachesItsCaller` and `Routing.SameNumberIsSwallowed`.
- A refused note that a chunk was read is recorded as noted: the source only logs the refusal.
- Events the runtime does not look at carry no payload; topic events and the app's own methods are not part of this model.
- `refusal_for` and the closing groups: the host's side of the lifecycle.
- A policy's declared capabilities are given as the groups they open; the capability table is data.
- The wording of version faults is reduced to which part and why; the formatted message is not part of this model.
- `response_header_ok`, frame field validation and topic names: single predicates.
