# A verified model of the conference protocols

The repository is a WebRTC conference: an SFU whose rooms connect everybody with everybody, a
browser client that follows a room by notifications, and an observer that watches both. This
project models the protocols behind it as state machines with one step between any two awaits,
puts an object with the original's fields and loops beside each, and proves what the protocols
are for over every run, whatever the interleaving.

## What is modelled

- `RoomModel`, `RoomInvariant`: the SFU room. A handler that awaits is a task that any other step
  may overtake. The map of clients is the list of its insertion slots, with tombstones, so a live
  iterator is an index into it. `RoomObject.MediasoupRoom` is the same room as an object; each of
  its handler methods takes exactly one step of the machine, and its `Valid`, which all of them
  keep, says that a run of the machine has led to its state.
- On that machine: `RoomOffers` and `RoomMesh` (everybody consumes everybody), `RoomLog`
  (notifications and state agree), `RoomPresence` (who is in the room and with what, told from the
  run), `RoomOrigins` (whom and what media come from), `RoomUnique` (no consumer twice, none of
  one's own producers),
  `RoomRepeat` (joining again changes nothing), `RoomUnserved` (what a rejection leaves undone
  stays undone), `RoomTeardown` (what a departure closes), `RoomLeftovers` (what exactly stays
  open), `RoomRequests` (one response per request), `RoomAnswers` (and one for each, unless it is
  turned down), `RoomGrowth` (what every step only adds to), `RoomExamples` (runs that show the conditions are needed).
- `Rooms`: creating and forgetting rooms. `RoomServers`: the directory together with the rooms in
  it. `ClientEventsModel`: a client's channel, its closed flag and its listeners.
- `ServerConnections`: the browser's buffered channel, its chain of attempts to connect, and both
  together as one link. `Requests`: the promises on that channel.
- `RemoteClients`, `MediasoupServices`, `Sessions`: what the browser shows, how it follows the
  room's notifications, and the order in which `connect` sets things up. `Browsers` puts the
  three on one log; `BrowserExamples` has a run of it.
- `ObserverServiceClients`, `ObservedSources`, `Middlewares`, `CallsEvaluators`: the channel for
  samples and the observer's side.

A run is a sequence of events; `Possible` says that each one could happen when it did and `After`
gives the state it leads to. Fields called history in the comments are read by no step.

## What is assumed of the environment

- Ids of transports, producers and consumers are fresh: they are positions in append-only tables.
- Closing a transport closes its producers and consumers; closing a router closes its transports;
  each object's close event fires once. A closed producer's consumers are closed by later events,
  in any order.
- A `consume`, `produce` or `createWebRtcTransport` that resolves yields an open object, and needs
  an open transport or router to resolve. It may also reject.
- An emitter calls its listeners in the order of their registration, and `off` takes out the latest
  registration of a listener.
- A web socket delivers in order. A client sends the room no message whose type is `close`
  and none that is `null`; what its channel makes of them is stated in `ClientEventsModel`.
- `produce` on a transport, `pause` and `resume` count as awaits; `pause` and `resume` always
  resolve, since their rejections are caught.
- Distinct consumers have distinct tracks, so a track is named by its consumer's number.
- The clock is past its epoch, so a time is truthy.
- Nothing reaches a web socket before `add` has attached its listeners. The original attaches them
  once the room's promise has resolved (sfu/src/main.ts:88-95), and a message or a close that comes
  earlier is lost. A client is added in the step in which that promise resolves, so never to a
  closed room.

## What turned out to need a condition

- A rejected `consume` ends the whole loop of its handler (sfu/src/media/Room.ts:274). The mesh is
  complete except for the pairs such a handler still had to attend to (`RoomMesh.MeshComplete`).
  A reachable run ends with such a pair and no handler left (`RoomExamples.RejectionBreaksMesh`).
  A pair that no other suspended handler may serve (`RoomUnserved.RejectionNeglects`) stays without
  a consumer until somebody of the consumer's id asks to join or a producer is registered for
  somebody of the producer's id (`RoomUnserved.UnservedStays`).
- Two handlers waiting for the same client to consume the same producer end in two consumers of
  it (`RoomUnique.RaceBreaksUniqueness`), which does happen (`RoomExamples.RaceIsReachable`), and
  nothing else ends so (`RoomUnique.UniqueWithoutRaces`).
- A client that asks for a second sending transport while the first is being created gets two and
  loses sight of the first (sfu/src/media/Room.ts:90-108). What was published on it survives its
  departure (`RoomExamples.EagerSenderLeavesAProducerBehind`); a producer closes with its client
  if and only if it is on the client's current transport (`RoomExamples.DepartingClosesExactly`).
- A transport that is still being created when its client leaves, or that was replaced as the
  client's current one, is closed by nothing but the router, and what the client consumes on it
  stays open with it (`RoomLeftovers.SparedStayOpen`, `RoomLeftovers.SparedConsumersStayOpen`);
  the first does happen (`RoomExamples.LateTransportStays`).
- A connection under an id that is in use takes over its slot, and the close of the old one then
  drops the new one (`RoomExamples.SharedIdClosesTheRoom`).
- A created-notification is dropped if and only if it comes before the later of the two transport
  responses (`Browsers.DroppedExactlyWhenEarly`). `connect` does not rule that out: a run in which
  it does everything in its order ends with a consumer that is never shown
  (`BrowserExamples.ConnectLosesAConsumer`).
- A consumer that is closed while the browser is consuming it stays on the screen for good
  (`MediasoupServices.OvertakenHappens`, `MediasoupServices.OvertakenStays`).
- Removing one of two tracks of a kind clears the id that the store keeps for the other
  (`RemoteClients.RemovalIsExactUnlessTwin`).
- A close that is delivered after the reconnect starts the grace period of a connected client
  (`ObservedSources.LateCloseExpires`).
- An ended call that is still in that round's storage gets a summary again
  (`CallsEvaluators.EndedIsForgottenExactly`).
- `ServerConnection.connect` does not return the promise it creates, and the promise of a retry
  passes on no rejection (webapp/src/contexts/ServerConnection.tsx:81, 84-98): its caller learns
  neither that the socket is there nor that the retries are used up. The retry bound is about the
  attempts made.

## Model

| member | source | states |
|---|---|---|
| RoomInvariant.StepCoherent | sfu/src/media/Room.ts:63-298 | every step of every handler keeps live ids distinct, maps holding only open objects of their owner, open objects in their owner's map, and suspended loops at valid places, whatever other handlers are suspended |
| RoomInvariant.StepDrained | sfu/src/media/Room.ts:103-108 | no step leaves an open producer or consumer on a closed transport |
| RoomInvariant.CloseTransportOk | sfu/src/media/Room.ts:178-181 | closing a transport closes exactly what is on it, removes it from its owners' maps and keeps the rest |
| RoomInvariant.SocketClosedShape | sfu/src/media/Room.ts:217-225 | a departure vacates the slot of the client's id and no other, leaves all suspended handlers alone, closes the router if and only if no slot is left, and otherwise only closes media |
| RoomOffers.StepKeeps | sfu/src/media/Room.ts:237-298 | no step of any handler forgets a due consumer: while its client is ready and its producer open, a pair that is served, owed by a suspended handler or given up by a rejected one stays one of the three |
| RoomMesh.RunMesh | sfu/src/media/Room.ts:117-139 | in every reachable state each open producer of another client is so attended to for every client that was ready when it asked to join or when the producer was registered |
| RoomMesh.MeshComplete | sfu/src/media/Room.ts:161-192 | with no handler in flight every client holds a consumer of every open producer of every other client, if it was ready when it asked to join, whichever came first, or when the producer was registered, unless a rejected `consume` gave the pair up; without rejections always |
| RoomMesh.NothingLost | sfu/src/media/Room.ts:274-278 | only a rejected `consume` makes a handler give pairs up |
| RoomMesh.JoinedReadyExactly | sfu/src/media/Room.ts:117-123 | a client counts as having joined ready if and only if in some step of the run it asked to join with its capabilities sent and its receiving transport there |
| RoomLog.LogRefinesState | sfu/src/media/Room.ts:274-296 | in every reachable state each client's log makes sense, and while its events are open it replays to exactly its consumers map, with producer, kind and producing client |
| RoomLog.SensibleLog | sfu/src/media/Room.ts:280-296 | in a log that makes sense two notifications of one consumer are its creation followed by its closing, so each is created once and closed at most once, afterwards |
| RoomLog.SeenCreated | sfu/src/media/Room.ts:288-296 | nothing is mentioned in such a log before it was announced as created |
| RoomLog.GoneClosed | sfu/src/media/Room.ts:283-285 | what was announced and is no longer held was announced as closed |
| RoomPresence.OccupantsExactly | sfu/src/media/Room.ts:63-226 | in every reachable state the clients are those added, in order, and the map of clients has a client under an id if and only if it was the last one added under it and no connection of that id has closed since |
| RoomPresence.CapableExactly | sfu/src/media/Room.ts:86-88 | a client has capabilities in the room if and only if it has sent them |
| RoomPresence.CurrentExactly | sfu/src/media/Room.ts:89-108 | in every reachable state the two transports of each client are the latest that were made for it in their roles, and there are none if none was |
| RoomOrigins.RegisteredExactly | sfu/src/media/Room.ts:161-187 | a resolved `produce` adds exactly one producer: open, of the handler's client, on the transport it waited on and of the kind that was asked for, in that client's map and in no other |
| RoomOrigins.EveryProducerWasAskedFor | sfu/src/media/Room.ts:161-187 | over any run every producer comes from a create-producer request of its own: its owner's, for its very kind, and no request makes two |
| RoomOrigins.OnlyTheReadyConsume | sfu/src/media/Room.ts:259-278 | over any run a consumer is made, and waited for, only for a client that has sent its capabilities and has a receiving transport |
| RoomUnique.UniqueWithoutRaces | sfu/src/media/Room.ts:246-287 | if no two suspended handlers wait for one client to consume one producer, no client ever has two consumers of a producer |
| RoomUnique.UniqueWhenSerialised | sfu/src/media/Room.ts:237-258 | serialised `_consumeClient` runs per consuming client are enough for that |
| RoomUnique.RaceBreaksUniqueness | sfu/src/media/Room.ts:246-287 | the condition is exact: in any state with such a race both calls may resolve, and then uniqueness is gone |
| RoomUnique.NobodyConsumesItself | sfu/src/media/Room.ts:120-123 | in no reachable state does a client hold a consumer of a producer of its own id, and consumers are announced under their producer's client and kind |
| RoomUnique.RepeatIsIdempotent | sfu/src/media/Room.ts:237-258 | a join or produce loop each of whose own pairs is served, or has a consuming client that is not ready, goes slot by slot to its end, waits for no `consume` and touches nothing but its own task |
| RoomRepeat.RepeatedJoinChangesNothing | sfu/src/media/Room.ts:117-139 | in a run without rejections and with no handler in flight, a connected client that joined ready may ask to join again: however often its handler is resumed it is between two clients, with nothing else changed, or it has ended and only its answer is left |
| RoomRepeat.RepeatedJoinIsAnswered | sfu/src/media/Room.ts:134-138 | and it does end, answered, after at most one resumption for every slot and one more |
| RoomRepeat.NobodyLacksAnything | sfu/src/media/Room.ts:188-191 | in such a state, if every ready client has joined since it was ready, no loop of any handler, join or produce, has anything left to do |
| RoomUnserved.UnservedStays | sfu/src/media/Room.ts:237-298 | a pair without a consumer that no suspended handler may serve stays so in every continuation, until somebody of the consumer's id asks to join or a producer is registered for somebody of the producer's id |
| RoomUnserved.RejectionNeglects | sfu/src/media/Room.ts:274-278 | a handler whose `consume` rejects leaves a pair to nobody if and only if no other suspended handler may still serve it |
| RoomTeardown.Teardown | sfu/src/media/Room.ts:217-225 | after a client has gone and its producers' closing has cascaded nobody holds a consumer of its producers, and every connected client that was told of one was told of its end, if the client had one sending transport |
| RoomTeardown.PatientClientsHaveOneTransport | sfu/src/media/Room.ts:89-108 | clients that do not ask for a transport of a role while one is being created have at most one of it, which is their current one |
| RoomTeardown.LastOneOut | sfu/src/media/Room.ts:221-224 | a departure closes the router, all transports and calls `onClosed` once if and only if the departing id was the last in the map |
| RoomTeardown.ClosedOnce | sfu/src/media/Room.ts:229-235 | over any run `onClosed` is called once if the router is closed and never otherwise |
| RoomLeftovers.ClosedRouterHasNothing | sfu/src/media/Room.ts:229-233 | in every reachable state a closed router has no open transport, producer or consumer |
| RoomLeftovers.SparedStayOpen | sfu/src/media/Room.ts:219-220 | ever after a client has left, a transport of its own is open if and only if the router is and the transport was not one of its two current ones when it left: replaced, or still being created |
| RoomLeftovers.OpenExactlyWhenFed | sfu/src/media/Room.ts:274-286 | once closings have cascaded a consumer is open if and only if its transport and its producer are |
| RoomLeftovers.SparedConsumersStayOpen | sfu/src/media/Room.ts:103-108 | of a departed client's own consumers exactly those on its spared transports stay open, as long as they are produced and the router is open |
| RoomRequests.OneResponsePerRequest | sfu/src/media/Room.ts:79-115 | every response a client gets answers one of its own requests, under its id, in the type the protocol pairs with it, with the announced transport in place; no request is answered twice, and with fresh ids no id is |
| RoomRequests.RunCorrelated | sfu/src/media/Room.ts:134-138 | and handlers that still owe an answer have not given it, in every reachable state |
| RoomAnswers.EveryRequestIsSettled | sfu/src/media/Room.ts:79-215 | over any run, for every request of a client that is still connected: its handler still owes the answer, or the client was sent it, or the request was turned down (ignored, failed, or its join ended by a rejected `consume`), and never two of these |
| RoomAnswers.SilentOnceClosed | sfu/src/media/ClientEvents.ts:35-43 | in no continuation is anything sent to a client whose events were closed |
| RoomGrowth.StepExtends | sfu/src/media/Room.ts:63-298 | no step of a room takes anything back from a client's log, capabilities or readiness, and the requests received grow exactly by the one a step brings in |
| RoomExamples.DepartingClosesExactly | sfu/src/media/Room.ts:219-220 | while others stay a departing client's open producer closes if and only if it is on the client's current sending transport |
| RoomExamples.LateTransportStays | sfu/src/media/Room.ts:103-108 | a reachable state without suspended handlers in which a client has left and a transport that was being created for it is open |
| RoomExamples.RaceIsReachable | sfu/src/media/Room.ts:246-287 | a reachable state in which two handlers wait for one client to consume one producer, and a reachable state after it with two consumers of that producer |
| RoomExamples.RejectionBreaksMesh | sfu/src/media/Room.ts:274-278 | a reachable state without suspended handlers in which a client that joined ready lacks a consumer of an open producer |
| RoomExamples.SharedIdClosesTheRoom | sfu/src/media/Room.ts:226-226 | a reachable state with two connections under one id, in which the close of the first drops the second and closes the room |
| RoomExamples.EagerSenderLeavesAProducerBehind | sfu/src/media/Room.ts:90-108 | a reachable state in which a client with two sending transports leaves and its producer stays open and consumed |
| RoomObject.MediasoupRoom.Lookup | sfu/src/media/Room.ts:238-239 | the search finds the first live slot with the id, or the end |
| RoomObject.MediasoupRoom.NextKey | sfu/src/media/Room.ts:120-121 | the live iterator yields the next present key that is not the loop's own |
| RoomObject.MediasoupRoom.IsConsumed | sfu/src/media/Room.ts:247-253 | the flag loop is set if and only if some held consumer is of this producer |
| RoomObject.MediasoupRoom.NextToConsume | sfu/src/media/Room.ts:246-272 | the inner loop stops at the first present producer not yet consumed by a client with capabilities and a receiving transport |
| RoomObject.MediasoupRoom.ConsumeClient | sfu/src/media/Room.ts:237-278 | `_consumeClient` up to its next await, as a step of the machine |
| RoomObject.MediasoupRoom.StoreConsumer | sfu/src/media/Room.ts:287-296 | a resolved `consume` stores its consumer under the consuming client, with the kind and the client of the producer it was made for, and announces it to that client |
| RoomObject.MediasoupRoom.Consumed | sfu/src/media/Room.ts:279-297 | ... and after it: the consumer is stored and announced and the loop goes on, as a step |
| RoomObject.MediasoupRoom.Loop | sfu/src/media/Room.ts:188-191 | the outer loops with their end, as a step |
| RoomObject.MediasoupRoom.AddClient | sfu/src/media/Room.ts:63-75 | `add`: a blank client under a new key, or in the one slot that its id has |
| RoomObject.MediasoupRoom.OnCapabilities | sfu/src/media/Room.ts:86-88 | the handler takes its step |
| RoomObject.MediasoupRoom.OnGetRouterCapabilities | sfu/src/media/Room.ts:79-85 | the handler takes its step and answers |
| RoomObject.MediasoupRoom.OnCreateTransport | sfu/src/media/Room.ts:89-103 | ignored if the side of that very role is set, else suspended while the transport is created |
| RoomObject.MediasoupRoom.TransportCreated | sfu/src/media/Room.ts:104-115 | the new transport becomes the client's in the role it was asked for, the other side stays, and the request is answered |
| RoomObject.MediasoupRoom.OnCreateProducer | sfu/src/media/Room.ts:161-174 | ignored without a sending transport, else suspended in `produce` |
| RoomObject.MediasoupRoom.Produced | sfu/src/media/Room.ts:161-192 | one producer is registered, of the handler's client and of the kind it asked for, the request is answered, and the loop starts in the same step |
| RoomObject.MediasoupRoom.OnJoinCall | sfu/src/media/Room.ts:117-123 | the join loop starts in the step that receives the request |
| RoomObject.MediasoupRoom.OnPauseProducer | sfu/src/media/Room.ts:193-200 | ignored for a producer that is not the client's |
| RoomObject.MediasoupRoom.OnResumeProducer | sfu/src/media/Room.ts:205-212 | ignored for a producer that is not the client's |
| RoomObject.MediasoupRoom.Toggled | sfu/src/media/Room.ts:201-203 | both are answered with the pause response |
| RoomObject.MediasoupRoom.OnClose | sfu/src/media/Room.ts:217-225 | the close handler with both cascades, as one step |
| RoomObject.MediasoupRoom.Close | sfu/src/media/Room.ts:229-235 | `close` returns early on a closed router, else closes everything and calls `onClosed` |
| RoomObject.MediasoupRoom.ConsumerClosed | sfu/src/media/Room.ts:280-286 | a consumer's close event removes it and tells its client if that is open |
| RoomObject.MediasoupRoom.ProducerClosed | sfu/src/media/Room.ts:178-181 | a producer's close event removes it from its owner's map |
| RoomObject.MediasoupRoom.Rejected | sfu/src/media/Room.ts:274-278 | a rejected `consume` ends its handler without an answer |
| Rooms.SingleFlight | sfu/src/media/Rooms.ts:20-55 | in every reachable state at most one router per room id is being created or open |
| Rooms.EntriesAreOpenRooms | sfu/src/media/Rooms.ts:39-47 | a map entry is the room made for that id, open if and only if its router has not died on its own |
| Rooms.OnClosedOnce | sfu/src/media/Room.ts:229-235 | `onClosed` runs at most once per room, and once exactly if the room was closed through `close` |
| Rooms.CloseRemovesOwnEntry | sfu/src/media/Rooms.ts:40-42 | closing a room removes its own entry, never that of a newer room, and a second close removes nothing |
| Rooms.StartsAnewExactly | sfu/src/media/Rooms.ts:20-55 | in every reachable state a request starts a new creation if and only if the id has no room and every earlier creation of it is cleaned up, and changes nothing otherwise |
| Rooms.RejectionIsRetryable | sfu/src/media/Rooms.ts:50-52 | in every state after a failed creation its clean-up has run or can run at once, and from then on it is no obstacle to a new creation |
| Rooms.AnsweredRightly | sfu/src/media/Rooms.ts:20-54 | over any run a request for an id that has a map entry is answered with exactly that room, which was made for this very id and is open unless its router died; any other request with the promise of a creation of this id that has yet to be cleaned up |
| Rooms.RequestsShare | sfu/src/media/Rooms.ts:21-28 | requests during a creation share its promise and change nothing, requests after it get its room |
| Rooms.SharedThroughout | sfu/src/media/Rooms.ts:20-54 | in every reachable state an open room is the answer to its id, a pending creation is the answer to its id, and a creation resolves to a room of its id |
| Rooms.RequestsShareEverAfter | sfu/src/media/Rooms.ts:20-54 | whoever asks during a creation gets its promise, and whoever asks in any later state gets the room it resolved to, as long as that is open |
| Rooms.MediasoupRooms.GetOrCreateRoom | sfu/src/media/Rooms.ts:20-55 | an id in the map is answered with its room and nothing changes, an id being created with that promise, any other with a new creation |
| Rooms.MediasoupRooms.OnRouter | sfu/src/media/Rooms.ts:32-49 | the resolved creation takes its step |
| Rooms.MediasoupRooms.OnSettled | sfu/src/media/Rooms.ts:50-52 | the `finally` callback takes its step |
| Rooms.MediasoupRooms.Close | sfu/src/media/Rooms.ts:40-42 | closing a room takes its step |
| RoomServers.EntryGoesWithTheLast | sfu/src/media/Rooms.ts:39-43 | whatever happens on the server, in the directory or in any room, a map entry goes if and only if the last client of its very room departs, and otherwise leads to the same room |
| RoomServers.ListedWhileOccupied | sfu/src/media/Room.ts:217-225 | in every reachable state a room that anybody has entered is in the map if and only if somebody is in it, and its `onClosed` has been called once if not and never if so |
| RoomServers.EveryPartIsARun | sfu/src/media/Rooms.ts:30-54 | each room of a server is one that a run of the room machine leads to, and its directory one that a run of `Rooms` leads to, so all that is proved of either holds of the server |
| ClientEventsModel.CloseEndsIt | sfu/src/media/ClientEvents.ts:91-105 | around the first close of any run: the socket was handed exactly the messages sent before it, in order; its close listeners were called once each; afterwards no listener is called unless one is registered anew |
| ClientEventsModel.DispatchedExactly | sfu/src/media/ClientEvents.ts:65-84 | a message calls a listener if and only if it has a type and the listener is registered for it; data that parses to `null` calls nobody and throws |
| ClientEventsModel.EmittedInOrder | sfu/src/media/ClientEvents.ts:60-62 | wherever a listener stands it is called after those before it and before those after it, once, if it is the event's, and is gone afterwards if and only if it was registered with `once` |
| ClientEventsModel.OffTakesOutTheLatest | sfu/src/media/ClientEvents.ts:55-58 | `off` takes out the latest registration of the listener and nothing else |
| ClientEventsModel.TypedCloseIsNoClose | sfu/src/media/ClientEvents.ts:74-82 | a message whose type is `close` calls the close listeners while the channel stays open, and uses up those registered with `once` |
| ClientEventsModel.ClientEvents.SendMessage | sfu/src/media/ClientEvents.ts:35-43 | a message is handed to the socket unless closed |
| ClientEventsModel.ClientEvents.OnMessage | sfu/src/media/ClientEvents.ts:65-84 | incoming data takes its step, or throws where it parses to `null` |
| ClientEventsModel.ClientEvents.EmitEvent | sfu/src/media/ClientEvents.ts:60-62 | every listener of the event is called, in order, once |
| ClientEventsModel.ClientEvents.Shut | sfu/src/media/ClientEvents.ts:91-105 | closing takes its step, with the loop that removes all listeners |
| ServerConnections.Conservation | webapp/src/contexts/ServerConnection.tsx:116-146 | over any run the messages sent are, as a multiset, those on the wire, in the buffer, dropped for size and dropped for age |
| ServerConnections.WireShape | webapp/src/contexts/ServerConnection.tsx:130-145 | the wire is the direct sends before the flush, then the unexpired buffer, then the later direct sends, each in order |
| ServerConnections.NoLimitsNoDrops | webapp/src/contexts/ServerConnection.tsx:118-136 | with both limits off nothing is dropped |
| ServerConnections.NothingStranded | webapp/src/contexts/ServerConnection.tsx:117-142 | in every reachable state there is at most one pending timer, a non-empty buffer has one, and the buffer keeps within a non-negative limit |
| ServerConnections.FlushedForGood | webapp/src/contexts/ServerConnection.tsx:130-138 | after the first timer that fires with the socket installed the buffer is empty forever |
| ServerConnections.FlushSendsExactly | webapp/src/contexts/ServerConnection.tsx:129-139 | a flush sends, in order, each buffered message that has waited no longer than the limit, or all if there is none, and drops exactly the others |
| ServerConnections.RetryBound | webapp/src/contexts/ServerConnection.tsx:63-83 | with a positive limit at most two more sockets than the limit are tried, giving up takes exactly that many, and without one nobody gives up |
| ServerConnections.AllAttemptsFail | webapp/src/contexts/ServerConnection.tsx:75-82 | the bound is reached when every attempt fails |
| ServerConnections.ConnectedExactly | webapp/src/contexts/ServerConnection.tsx:63-83 | for every limit and sequence of outcomes, the chain is connected by its attempt `n` if and only if a socket opened when, of the outcomes that count, exactly `n` failures within the limit had come, each followed by its timer |
| ServerConnections.ConnectedForGood | webapp/src/contexts/ServerConnection.tsx:66-74 | a socket that opens after any number of failures within the limit is the connection, whatever comes later |
| ServerConnections.OpenExactlyWhenEstablished | webapp/src/contexts/ServerConnection.tsx:52-99 | over any order of `connect` calls, outcomes and messages, the channel has its socket if and only if `connect` was called and an attempt opened while it was in progress, and the channel goes through one of its own runs |
| ServerConnections.ServerConnection.SendMessage | webapp/src/contexts/ServerConnection.tsx:116-146 | with a socket the message goes out at once; without one it is buffered if there is room, and a timer is started if there is none |
| ServerConnections.ServerConnection.OnTimer | webapp/src/contexts/ServerConnection.tsx:125-139 | the timer's callback with its flush loop takes its step |
| ServerConnections.ServerConnection.Connect | webapp/src/contexts/ServerConnection.tsx:52-61 | the first `connect` makes the first attempt, any later one none |
| ServerConnections.ServerConnection.OnOpen | webapp/src/contexts/ServerConnection.tsx:66-98 | the socket of the attempt in progress is installed and the chain is connected for good |
| ServerConnections.ServerConnection.OnError | webapp/src/contexts/ServerConnection.tsx:75-82 | a failed attempt gives up if and only if a positive limit is exceeded, and otherwise waits for its timer |
| ServerConnections.ServerConnection.OnRetry | webapp/src/contexts/ServerConnection.tsx:81-81 | the timer makes the next attempt |
| Requests.EndToEnd | webapp/src/contexts/ServerConnection.tsx:34-49 | over every interleaving of the client's requests under fresh ids, the room's steps and the arrival of its messages, the promise of each request is settled if and only if a response under its id has arrived, and with the right type of answer to that very request |
| Requests.SettlesAtMostOnce | webapp/src/contexts/ServerConnection.tsx:148-153 | in no continuation of such a run does a settled promise change |
| Requests.NoSecondResponse | sfu/src/media/Room.ts:201-215 | with fresh ids the room sends no second response to an id |
| Requests.EveryResponseIsListenedFor | webapp/src/contexts/ServerConnection.tsx:43-49 | every type of response the room sends has a listener, and of all types only the one named for resume has none |
| Requests.SettledByOwnResponse | webapp/src/contexts/ServerConnection.tsx:34-41 | whatever else is asked and answered, a promise is settled by a response with its own id, exactly if there is one of a listened type |
| Requests.SettledForGood | webapp/src/contexts/ServerConnection.tsx:148-153 | a settled promise never changes, whatever is asked and answered, even under the same id |
| Requests.RequestTable.Request | webapp/src/contexts/ServerConnection.tsx:148-153 | a request registers a new promise under its id and hands its message to the channel |
| Requests.RequestTable.OnResponse | webapp/src/contexts/ServerConnection.tsx:34-41 | a response takes its step |
| RemoteClients.StoreAndStreamsAgree | webapp/src/components/Clients/RemoteClients.tsx:26-86 | after every run the store and the map of streams have the same distinct clients in the same order, no stream is empty, and every track id in the store is that of a track of its kind in the stream |
| RemoteClients.AddedShows | webapp/src/components/Clients/RemoteClients.tsx:26-57 | an added consumer's track is shown under its client and nothing else changes |
| RemoteClients.RemovedShows | webapp/src/components/Clients/RemoteClients.tsx:59-86 | a removed consumer's track is no longer shown and nothing else changes, though the loop may go on after a removal |
| RemoteClients.UsersAsAdded | webapp/src/components/Clients/RemoteClients.tsx:26-47 | over any run store and streams have the same user for a client, and it is one that the client's tracks came with |
| RemoteClients.AddedExact | webapp/src/store/remoteClientsSlice.tsx:37-62 | adding keeps the store naming a track of a kind exactly where there is one |
| RemoteClients.RemovalIsExactUnlessTwin | webapp/src/components/Clients/RemoteClients.tsx:66-77 | removing keeps that if and only if the stream has no other track of the kind |
| RemoteClients.SecondTrackIsForgotten | webapp/src/components/Clients/RemoteClients.tsx:66-80 | a run of three events after which a track is shown that the store does not name |
| RemoteClients.RemoveIsCut | webapp/src/store/remoteClientsSlice.tsx:32-36 | the filtering reducer takes out exactly the one entry with the id |
| RemoteClients.RemoteClientsView.AddedMediaConsumer | webapp/src/components/Clients/RemoteClients.tsx:26-57 | the callback computes the added screen |
| RemoteClients.RemoteClientsView.RemovedMediaConsumer | webapp/src/components/Clients/RemoteClients.tsx:59-86 | the callback's loop with its early return computes the removed screen |
| RemoteClients.RemoteClientsView.SetNamed | webapp/src/store/remoteClientsSlice.tsx:37-62 | the two setters change the one id of the one entry found, and nothing else |
| MediasoupServices.ScreenIsLog | webapp/src/contexts/MediasoupService.tsx:41-74 | after any log that makes sense, with `consume` calls finishing in any order, the screen shows exactly the consumers neither dropped, failed nor pending that are open or were closed while being consumed |
| MediasoupServices.EndToEnd | webapp/src/contexts/MediasoupService.tsx:41-74 | once everything the room sent is handled, the screen shows exactly the room's consumers for the client, by producing client and kind, if and only if none of them was dropped or failed and none was closed while being consumed |
| MediasoupServices.CarefulClientsSeeTheRoom | webapp/src/contexts/MediasoupService.tsx:43-63 | a client that meets the three conditions shows exactly the room's consumers, and with one live track per kind and client the store names exactly their tracks |
| MediasoupServices.EverybodyIsSeen | sfu/src/media/Room.ts:237-298 | in a run without rejections, with nothing in flight, such a client that joined ready, or was ready when the producer was registered, holds a consumer of every such open producer of every other client, and shows that consumer's track, under the producing client and of the kind that client asked to produce |
| MediasoupServices.OvertakenHappens | webapp/src/contexts/MediasoupService.tsx:47-63 | for every consumer a run after which everything delivered is closed, nothing is in flight and its track is shown |
| MediasoupServices.OvertakenStays | webapp/src/contexts/MediasoupService.tsx:65-74 | a track whose closed-notification overtook its `consume` is shown in every later state |
| MediasoupServices.MediasoupService.OnCreatedNotification | webapp/src/contexts/MediasoupService.tsx:41-53 | the listener up to its await takes its step |
| MediasoupServices.MediasoupService.OnConsume | webapp/src/contexts/MediasoupService.tsx:54-63 | ... and after it |
| MediasoupServices.MediasoupService.OnClosedNotification | webapp/src/contexts/MediasoupService.tsx:65-74 | the closing listener takes its step |
| Sessions.ConnectJoinsReady | webapp/src/contexts/MediasoupService.tsx:113-134 | whatever else happens in the room and however its answers are ordered, a browser that follows `connect` has its capabilities and its receiving transport in the room before it asks to join, so it counts as having joined ready |
| Sessions.StageExactly | webapp/src/contexts/MediasoupService.tsx:113-134 | over any run `connect` is past its first await, and done, exactly when the response it waited for was handled, and each request is sent after the responses it builds on and not before |
| Sessions.ReceivingOnceBothAnswered | webapp/src/contexts/MediasoupService.tsx:127-132 | in every reachable state the receiving transport is set if and only if both transport responses have been handled |
| Sessions.Connector.Connect | webapp/src/contexts/MediasoupService.tsx:113-118 | `connect` up to its first response takes its step |
| Sessions.Connector.OnDeviceLoaded | webapp/src/contexts/MediasoupService.tsx:126-130 | the capabilities and both transport requests go out in this order |
| Sessions.Connector.OnResponse | webapp/src/contexts/MediasoupService.tsx:127-134 | the join request goes out when both transports are there, and not before |
| Browsers.DroppedExactlyWhenEarly | webapp/src/contexts/MediasoupService.tsx:43-46 | over any run of a browser that follows `connect`, the created-notification at a position of its log is dropped if and only if that position precedes the later of the two transport responses |
| Browsers.EndToEnd | webapp/src/contexts/MediasoupService.tsx:41-74 | once such a browser has handled everything and no `consume` is in flight, its screen shows exactly the room's consumers for it if and only if each was announced after both transport responses and consumed without failing, and none was closed while being consumed |
| BrowserExamples.ConnectLosesAConsumer | webapp/src/contexts/MediasoupService.tsx:126-132 | a run in which `connect` does everything in its order, everything is handled, and a consumer the room holds was dropped and is not shown |
| ObserverServiceClients.ExactlyOnceInOrder | webapp/src/utils/ObserverServiceClient.ts:118-134 | over any run of opens, closes, reconnects and sends, what all sockets were handed followed by the buffer is what was accepted, in order |
| ObserverServiceClients.TwelveAttempts | webapp/src/utils/ObserverServiceClient.ts:37-71 | one connect makes at most 12 attempts and rejects in the very step in which all 12 have failed, and in no other |
| ObserverServiceClients.OneRetryPerSocket | webapp/src/utils/ObserverServiceClient.ts:39-56 | an error and a close of the same socket cost one retry, and only the current socket costs one |
| ObserverServiceClients.FlagsAreHistory | webapp/src/utils/ObserverServiceClient.ts:25-87 | in every reachable state the client reconnects unless it was disconnected since the last sequence of attempts began, is closed exactly if it was closed or a lost socket ended it, and has a socket exactly if one opened and was not lost |
| ObserverServiceClients.BeginsExactly | webapp/src/utils/ObserverServiceClient.ts:25-87 | over any run a sequence of attempts begins, with one new socket, if and only if the client was not closed and either `connect` is called or a socket is lost with a code below 4000 while reconnecting is on and nobody has disconnected since the last sequence began |
| ObserverServiceClients.ReconnectsExactly | webapp/src/utils/ObserverServiceClient.ts:74-87 | so the loss of a socket begins a new sequence if and only if reconnecting is on, the code is below 4000 and the run has neither closed the client nor disconnected it since the last sequence began; and it closes the client if and only if it was not disconnected and reconnecting is off or the code is one of those |
| ObserverServiceClients.ClosedForGood | webapp/src/utils/ObserverServiceClient.ts:108-116 | once closed a client stays closed and begins no new sequence of attempts |
| ObserverServiceClients.SentAtOnce | webapp/src/utils/ObserverServiceClient.ts:118-134 | a sample is refused by a closed client, waits while there is no socket, and otherwise reaches the current socket at once behind all that waited |
| ObserverServiceClients.ObserverServiceClient.SendSample | webapp/src/utils/ObserverServiceClient.ts:118-134 | `send` with its flush loop takes its step, or throws when closed |
| ObserverServiceClients.ObserverServiceClient.OnSocketDown | webapp/src/utils/ObserverServiceClient.ts:40-54 | the retry listener takes its step |
| ObserverServiceClients.ObserverServiceClient.OnClosed | webapp/src/utils/ObserverServiceClient.ts:74-87 | the close listener takes its step |
| ObserverServiceClients.ObserverServiceClient.OnOpen | webapp/src/utils/ObserverServiceClient.ts:58-71 | an opened socket becomes the current one and ends the sequence |
| ObserverServiceClients.ObserverServiceClient.StartConnecting | webapp/src/utils/ObserverServiceClient.ts:25-37 | `connect` throws when closed, does nothing when connecting, else makes the first attempt of a sequence and lets lost sockets be replaced from then on |
| ObserverServiceClients.ObserverServiceClient.StopConnecting | webapp/src/utils/ObserverServiceClient.ts:97-106 | `disconnect` throws when closed; else no lost socket is replaced from then on, and nothing else changes |
| ObserverServiceClients.ObserverServiceClient.Shut | webapp/src/utils/ObserverServiceClient.ts:108-116 | `close` closes the client and changes nothing else in the same step |
| ObservedSources.DisconnectedIsFirstClose | observer/src/sources/ObservedClients.ts:89-101 | over any run `disconnected` is the time of the first close of a socket of the id since the entry was last set up, and undefined if there was none |
| ObservedSources.ConnectedIsOpen | observer/src/sources/ObservedClients.ts:119-137 | while it is undefined the entry's socket is the latest of its id and open; an SFU's socket field is undefined exactly while it is disconnected, and a client's never is |
| ObservedSources.AcceptedExactly | observer/src/sources/ObservedClients.ts:30-68 | over any run an SFU without its id, or a client without id, room or call, is refused and nothing else changes; anybody else is connected on a new open socket, a known id with its source and decoder, an unknown one with new ones, and no other entry changes |
| ObservedSources.GracePeriod | observer/src/sources/ObservedClients.ts:45-50 | whole-run grace period: on any clock that never goes back, if after each of its closes a client reconnects within the limit or the run ends within it, no schedule of checks removes it, and it keeps source and decoder |
| ObservedSources.LongGapIsFatal | observer/src/sources/ObservedClients.ts:70-81 | and a gap longer than the limit is fatal: a check at its end is possible and removes the client |
| ObservedSources.RemovedExactlyWhenOverdue | observer/src/sources/ObservedClients.ts:70-81 | a check removes an id if and only if its first close since it was last set up is further back than the limit |
| ObservedSources.SweptExactly | observer/src/sources/ObservedClients.ts:70-81 | a check removes exactly the entries disconnected for longer than the limit, leaves the others as they are and closes exactly the sources of those it removes |
| ObservedSources.LateCloseExpires | observer/src/sources/ObservedClients.ts:129-132 | for every limit a run in which a connected client is removed because the old socket's close came late |
| ObservedSources.EverySourceAccountedFor | observer/src/sources/ObservedClients.ts:53-66 | over any run every source ever created is registered under exactly one id, or closed |
| ObservedSources.RegisteredIsNotClosed | observer/src/sources/ObservedClients.ts:103-117 | over any run the source of a registered id is closed only if it was closed from outside |
| ObservedSources.ObservedRegistry.CheckAll | observer/src/sources/ObservedSfus.ts:68-79 | the sweep, in whatever order, removes exactly the expired entries, closes exactly their sources and leaves the rest |
| ObservedSources.ObservedRegistry.AcceptSocket | observer/src/sources/ObservedClients.ts:30-68 | a client's query without id, room or call, or an SFU's without id, is refused without effect; otherwise the id is connected on a new socket, a known one with its source and decoder |
| ObservedSources.ObservedRegistry.Disconnect | observer/src/sources/ObservedSfus.ts:87-100 | the first disconnect sets the time and later ones change nothing |
| ObservedSources.ObservedRegistry.Remove | observer/src/sources/ObservedClients.ts:103-117 | the entry goes and its source is closed |
| Middlewares.RunInOrderOnce | observer/src/common/Middleware.ts:8-19 | whatever the middlewares do, those run for one request are the first ones of the list, in order and each once |
| Middlewares.OnlyTheFirstNextCounts | observer/src/common/Middleware.ts:10-18 | a `next` call goes on if and only if it is the first by that middleware for that request; a surplus one fails and runs nothing |
| Middlewares.RequestsAreIndependent | observer/src/common/Middleware.ts:20-22 | each request is where its own `next` calls alone would take it |
| Middlewares.RequestVisitor.VisitMiddleware | observer/src/common/Middleware.ts:9-19 | the visit takes its step, throws exactly out of turn, and runs exactly what is in the list |
| Middlewares.Processor.Process | observer/src/common/Middleware.ts:22-22 | every request gets a visitor of its own, at the first middleware |
| CallsEvaluators.SummaryIsPeak | observer/src/evaluators/callsEvaluator.ts:57-64 | over any run a call has a summary exactly if it was stored since the last round in which it ended, that round included, and it is the largest participant count since |
| CallsEvaluators.EndedIsReportedOnce | observer/src/evaluators/callsEvaluator.ts:34-54 | an ended call that was seen is reported exactly once with its largest participant count, any other not at all |
| CallsEvaluators.OnlyEndsReport | observer/src/evaluators/callsEvaluator.ts:34-37 | rounds in which a call does not end report nothing about it |
| CallsEvaluators.EndedIsForgottenExactly | observer/src/evaluators/callsEvaluator.ts:53-63 | an ended call's summary is gone after the round if and only if the storage no longer has the call |
| CallsEvaluators.TidyKeys | observer/src/evaluators/callsEvaluator.ts:16-18 | if ended calls are out of that round's storage, the summaries are those of exactly the calls seen and not ended since |
| CallsEvaluators.CallsEvaluator.Evaluate | observer/src/evaluators/callsEvaluator.ts:20-65 | the evaluation with both loops takes the step of a round |

## Left out

- mediasoup, ws, observer-js, the sample coders and jsonwebtoken are library code: their objects are the environment above, an encoded sample is an opaque value, and a response's payload beyond its id and type is not modelled.
- Whether a producer is paused is a flag of the media library's and is not modelled; that the request is answered, or ignored for a foreign producer, is.
- The transport-connected-notification of sfu/src/media/Room.ts:140-160 changes nothing that any other handler reads.
- A created-notification carries the consumer's number, producer, kind and producing client; its RTP parameters and user id are not modelled, so the screen's user ids stay undefined.
- A router that closes on its own is an event of `Rooms` (its map entry then stays) but not of the room machine, nor of `RoomServers`.
- Entries of maps (clients of a room, observed clients, media streams) are values inside the map, as each is reachable through its entry only; the order in which the sweep and the flag loop visit a map is arbitrary.
- The room object's tables of transports, producers and consumers stand for the media library's objects; a suspended handler is an entry of its `tasks`.
- Nested emission is not modelled: a listener of `ClientEventsModel` does not register or remove others while being called.
- RemoteClients.RemoteClientsView.AddedMediaConsumer: the list of remote clients its listener captured is taken to be empty, as the subscription never renews it.
- MediasoupServices.EndToEnd: the consumer's own close event, which would shrink the browser's map of consumers, does not occur, as nothing closes a consumer or the receiving transport there.
- ObserverServiceClients.ExactlyOnceInOrder: one external `connect`, internal reconnects any number of times, and a socket's `send` that does not throw. The sfu's `send` (sfu/src/common/ObserverServiceClient.ts:113-129) is the same flush loop; the rest of that class never attaches its listeners.
- ObserverServiceClients.ObserverServiceClient.StopConnecting: a `disconnect` during a sequence of attempts waits for its end; the event is what it then does. The socket's own `close`, asked for by `disconnect` and `close`, shows as a later event, if it comes.
- ObservedSources.EverySourceAccountedFor: runs contain no `clear`, which empties the map without closing sources.
- CallsEvaluators.CallsEvaluator.Evaluate: rounds do not overlap, and durations, timestamps and the serialised form of a report are not modelled.
- React rendering, stats views, redux wiring, the HTTP server, loggers, configuration, message classes and the other evaluators are plumbing or one-step facts.
