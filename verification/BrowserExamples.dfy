/**
 A run in which `connect` does everything in its order and still loses a consumer: somebody
 publishes between the answers to the two transport requests.
 */
module BrowserExamples {
  import opened Base
  import opened RoomModel
  import opened RoomInvariant
  import opened Browsers
  import R = RemoteClients
  import S = Sessions
  import M = MediasoupServices

  const Four := S.Ids("1", "2", "3", "4")

  /** Some run of the second client's browser ends here. */
  ghost predicate Got(b: Browser) {
    exists start, acts :: Runs(1, Four, start, acts, b)
  }

  lemma GoesOn(b: Browser, a: Act, b': Browser)
    requires Got(b)
    requires Indexed(b.session.room) && Named(b.session.room) ==> Can(1, Four, b, a) && Do(1, Four, b, a) == b'
    ensures Got(b')
  {
    hide Browsers.Inv, Can, Do, Starts, Indexed, Named;
    var start, acts :| Runs(1, Four, start, acts, b);
    RunOk(1, Four, start, acts, b);
    InvCounts(1, Four, b);
    assert (acts + [a])[..|acts|] == acts;
    assert Runs(1, Four, start, acts + [a], b');
  }

  /** The room of a browser takes a step that is not its own. */
  lemma Meanwhile(b: Browser, e: Event, room: Room)
    requires Got(b) && S.NotOurs(1, Four, e)
    requires Indexed(b.session.room) && Named(b.session.room) ==>
               Enabled(b.session.room, e) && Step(b.session.room, e) == room
    ensures Got(b.(session := b.session.(room := room)))
  {
    hide Got, Indexed, Named, Step, Enabled, S.NotOurs;
    GoesOn(b, InSession(S.Elsewhere(e)), b.(session := b.session.(room := room)));
  }

  /** The room receives the browser's next message. */
  lemma Takes(b: Browser, room: Room)
    requires Got(b) && b.session.taken < |b.session.sent|
    requires var e := S.EventOf(1, b.session.sent[b.session.taken]);
             Indexed(b.session.room) && Named(b.session.room) ==>
               Enabled(b.session.room, e) && Step(b.session.room, e) == room
    ensures Got(b.(session := b.session.(room := room, taken := b.session.taken + 1)))
  {
    hide Got, Indexed, Named, Step, Enabled, S.EventOf;
    GoesOn(b, InSession(S.Take), b.(session := b.session.(room := room, taken := b.session.taken + 1)));
  }

  // ---------- the room ----------

  const AsksSender := Handler(0, CreateTransport(Role.Producing), "s")
  const AsksRouter := Handler(1, GetRouterCapabilities, "1")
  const AsksSend := Handler(1, CreateTransport(Role.Producing), "2")
  const AsksReceive := Handler(1, CreateTransport(Role.Consuming), "3")
  const AsksPublish := Handler(0, CreateProducer(Audio), "p")

  const HasSender := Response(CreateTransportResponse, "s", 0)
  const HasRouter := Response(RouterCapabilitiesResponse, "1", 1)
  const HasReceive := Response(CreateTransportResponse, "3", 3)
  const HasSend := Response(CreateTransportResponse, "2", 2)
  const Published := Response(CreateProducerResponse, "p", 4)
  const Info := ConsumerInfo(0, Audio, "a")

  function Blank(id: ClientId): Client {
    Client(id, false, false, None, None, Registry([], {}), {}, [], false)
  }

  function Alone(a: Client, handlers: seq<Handler>, transports: seq<Transport>, tasks: map<nat, Task>): Room {
    Room(false, 0, [Entry("a", 0)], [a], transports, [], [], handlers, tasks, {})
  }

  function JustA(): Room { Alone(Blank("a"), [], [], map[]) }

  function AAsksToSend(): Room { Alone(Blank("a"), [AsksSender], [], map[0 := Opening]) }

  function ASends(): Room {
    Alone(Blank("a").(snd := Some(0), log := [HasSender]), [AsksSender],
        [Transport(0, Role.Producing, true, false)], map[])
  }

  function BAdded(): Room {
    ASends().(entries := [Entry("a", 0), Entry("b", 1)], clients := [ASends().clients[0], Blank("b")])
  }

  function BHasRouter(): Room {
    BAdded().(clients := [ASends().clients[0], Blank("b").(log := [HasRouter])], handlers := [AsksSender, AsksRouter])
  }

  function BCapable(): Room {
    BHasRouter().(clients := [ASends().clients[0], Blank("b").(log := [HasRouter], capable := true)])
  }

  function BAsksToSend(): Room {
    BCapable().(handlers := [AsksSender, AsksRouter, AsksSend], tasks := map[2 := Opening])
  }

  function BAsksForBoth(): Room {
    BCapable().(handlers := [AsksSender, AsksRouter, AsksSend, AsksReceive], tasks := map[2 := Opening, 3 := Opening])
  }

  function BReceives(): Room {
    BAsksForBoth().(clients := [ASends().clients[0],
        Blank("b").(log := [HasRouter, HasReceive], capable := true, rcv := Some(1))],
          transports := [Transport(0, Role.Producing, true, false), Transport(1, Role.Consuming, true, false)],
          tasks := map[2 := Opening])
  }

  function APublishes(): Room {
    BReceives().(handlers := [AsksSender, AsksRouter, AsksSend, AsksReceive, AsksPublish],
        tasks := map[2 := Opening, 4 := Publishing(0)])
  }

  function AOffersToB(): Room {
    APublishes().(clients := [ASends().clients[0].(producers := Registry([0], {0}), log := [HasSender, Published]),
        BReceives().clients[1]],
          producers := [Producer(0, 0, Audio, true)],
          tasks := map[2 := Opening, 4 := Awaiting(2, 0, 1, 0, 1)])
  }

  function BConsumes(): Room {
    AOffersToB().(clients := [AOffersToB().clients[0],
        BReceives().clients[1].(consumers := {0}, log := [HasRouter, HasReceive, Created(0, Info)])],
          consumers := [Consumer(1, 1, Info, true)],
          tasks := map[2 := Opening, 4 := Between(2)])
  }

  function BSends(): Room {
    BConsumes().(clients := [AOffersToB().clients[0],
                      BConsumes().clients[1].(snd := Some(2),
                          log := [HasRouter, HasReceive, Created(0, Info), HasSend])],
          transports := [Transport(0, Role.Producing, true, false), Transport(1, Role.Consuming, true, false),
                         Transport(1, Role.Producing, true, false)],
          tasks := map[4 := Between(2)])
  }

  lemma ToASends()
    requires Indexed(AAsksToSend())
    ensures DoOpened(AAsksToSend(), 0) == ASends()
  {
    hide Indexed;
    var t := DoOpened(AAsksToSend(), 0);
    assert t.clients[0].log == ASends().clients[0].log;
    assert t.clients[0] == ASends().clients[0];
    assert t.clients == ASends().clients;
    assert t.tasks == ASends().tasks;
  }

  lemma ReachASends()
    ensures Reached(ASends())
  {
    hide Reached, Indexed, Named, DoOpened;
    assert Reached(NewRoom) by { Nothing(); }
    Then(NewRoom, Add("a"), JustA());
    Then(JustA(), AskTransport(0, "s", Role.Producing), AAsksToSend());
    ReachedIsSound(AAsksToSend());
    ToASends();
    hide Coherent, Drained;
    Then(AAsksToSend(), Resumed(0), ASends());
  }

  lemma Nothing()
    ensures Reached(NewRoom)
  {
    hide Coherent, Drained, Indexed, Named;
    assert RoomInvariant.Possible([]) && RoomInvariant.After([]) == NewRoom;
  }

  lemma ToBHasRouter()
    ensures Reply(Receive(BAdded(), 1, GetRouterCapabilities, "1"), 1) == BHasRouter()
  {
    var t := Reply(Receive(BAdded(), 1, GetRouterCapabilities, "1"), 1);
    assert t.clients[1].log == BHasRouter().clients[1].log;
    assert t.clients[1] == BHasRouter().clients[1];
    assert t.clients == BHasRouter().clients;
    assert t.handlers == BHasRouter().handlers;
  }

  lemma ToBReceives()
    requires Indexed(BAsksForBoth())
    ensures DoOpened(BAsksForBoth(), 3) == BReceives()
  {
    hide Indexed;
    var t := DoOpened(BAsksForBoth(), 3);
    assert t.clients[1].log == BReceives().clients[1].log;
    assert t.clients[1] == BReceives().clients[1];
    assert t.clients == BReceives().clients;
    assert t.transports == BReceives().transports;
    assert t.tasks == BReceives().tasks;
  }

  lemma RegisteredAOffersToB()
    requires Indexed(APublishes())
    ensures Register(APublishes(), 4) ==
            APublishes().(clients := AOffersToB().clients, producers := AOffersToB().producers)
  {
    hide Indexed;
    var t := Register(APublishes(), 4);
    assert t.clients[0].log == AOffersToB().clients[0].log;
    assert t.clients[0] == AOffersToB().clients[0];
    assert t.clients == AOffersToB().clients;
    assert t.producers == AOffersToB().producers;
  }

  lemma ToAOffersToB()
    requires Indexed(APublishes()) && Indexed(Register(APublishes(), 4))
    ensures DoProduced(APublishes(), 4) == AOffersToB()
  {
    hide Indexed, Register;
    RegisteredAOffersToB();
    var t := Advance(APublishes().(clients := AOffersToB().clients, producers := AOffersToB().producers), 4, 0);
    assert t.tasks[4] == AOffersToB().tasks[4];
    assert t.tasks == AOffersToB().tasks;
  }

  lemma SoundAPublishes()
    requires Coherent(APublishes()) && Indexed(APublishes())
    ensures Indexed(Register(APublishes(), 4))
  {
    hide Coherent, Indexed;
    RegisterOk(APublishes(), 4);
    CoherentIsIndexed(Register(APublishes(), 4));
  }

  lemma ToBConsumes()
    requires Indexed(AOffersToB())
    ensures DoConsumed(AOffersToB(), 4) == BConsumes()
  {
    hide Indexed;
    var t := DoConsumed(AOffersToB(), 4);
    assert t.clients[1].log == BConsumes().clients[1].log;
    assert t.clients[1] == BConsumes().clients[1];
    assert t.clients == BConsumes().clients;
    assert t.consumers == BConsumes().consumers;
    assert t.tasks[4] == BConsumes().tasks[4];
    assert t.tasks == BConsumes().tasks;
  }

  lemma ToBSends()
    requires Indexed(BConsumes())
    ensures DoOpened(BConsumes(), 2) == BSends()
  {
    hide Indexed;
    var t := DoOpened(BConsumes(), 2);
    assert t.clients[1].log == BSends().clients[1].log;
    assert t.clients[1] == BSends().clients[1];
    assert t.clients == BSends().clients;
    assert t.transports == BSends().transports;
    assert t.tasks == BSends().tasks;
  }

  // ---------- the browser ----------

  function Asked(n: nat): seq<S.Outgoing>
    requires n <= 4
  {
    [S.AskRouter("1"), S.TellCapabilities, S.AskSide(Role.Producing, "2"), S.AskSide(Role.Consuming, "3")][..n]
  }

  function Seen(n: nat): M.Replica
    requires n <= 4
  {
    M.Fresh.(log := [HasRouter, HasReceive, Created(0, Info), HasSend][..n],
             dropped := if n < 3 then {} else {0}, receiving := n == 4)
  }

  function Browsing(room: Room, stage: S.Stage, sent: nat, taken: nat, handled: nat): Browser
    requires sent <= 4 && handled <= 4
  {
    Browser(S.Session(room, stage, Asked(sent), taken, handled), Seen(handled))
  }

  lemma GotStart()
    ensures Got(Browsing(BAdded(), S.Starting, 0, 0, 0))
  {
    ReachASends();
    hide Coherent, Drained, Indexed, Named;
    var before :| RoomInvariant.Possible(before) && RoomInvariant.After(before) == ASends();
    var b := Browsing(BAdded(), S.Starting, 0, 0, 0);
    assert Step(ASends(), Add("b")) == BAdded();
    hide Step;
    assert b.session == S.Start(before, "b");
    assert Starts(1, b);
    assert Runs(1, Four, b, [], b);
  }

  /** Up to the point where the device is loaded. */
  lemma GotLoaded()
    ensures Got(Browsing(BHasRouter(), S.AwaitSides(false, false), 4, 1, 1))
  {
    hide Got, Indexed, Named;
    GotStart();
    GoesOn(Browsing(BAdded(), S.Starting, 0, 0, 0), InSession(S.Begin), Browsing(BAdded(), S.AwaitRouter, 1, 0, 0));
    ToBHasRouter();
    Takes(Browsing(BAdded(), S.AwaitRouter, 1, 0, 0), BHasRouter());
    HandlesFirst();
    GoesOn(Browsing(BHasRouter(), S.Loading, 1, 1, 1), InSession(S.LoadDevice),
        Browsing(BHasRouter(), S.AwaitSides(false, false), 4, 1, 1));
  }

  lemma HandlesFirst()
    requires Got(Browsing(BHasRouter(), S.AwaitRouter, 1, 1, 0))
    ensures Got(Browsing(BHasRouter(), S.Loading, 1, 1, 1))
  {
    hide Got, Indexed, Named;
    var b, b' := Browsing(BHasRouter(), S.AwaitRouter, 1, 1, 0), Browsing(BHasRouter(), S.Loading, 1, 1, 1);
    assert b.replica.log + [HasRouter] == b'.replica.log;
    GoesOn(b, InSession(S.Handle), b');
  }

  lemma GotAsked()
    ensures Got(Browsing(BAsksForBoth(), S.AwaitSides(false, false), 4, 4, 1))
  {
    hide Got, Indexed, Named;
    GotLoaded();
    var stage := S.AwaitSides(false, false);
    Takes(Browsing(BHasRouter(), stage, 4, 1, 1), BCapable());
    Takes(Browsing(BCapable(), stage, 4, 2, 1), BAsksToSend());
    assert BAsksToSend().tasks[3 := Opening] == BAsksForBoth().tasks;
    Takes(Browsing(BAsksToSend(), stage, 4, 3, 1), BAsksForBoth());
  }

  lemma Sound(b: Browser)
    requires Got(b)
    ensures Coherent(b.session.room) && Indexed(b.session.room) && Named(b.session.room)
  {
    hide Runs, Coherent, Indexed, Named, Drained;
    var start, acts :| Runs(1, Four, start, acts, b);
    RunOk(1, Four, start, acts, b);
    ReachedIsSound(b.session.room) by { hide S.Inv, M.Faithful; }
  }

  lemma GotReceive()
    ensures Got(Browsing(APublishes(), S.AwaitSides(false, false), 4, 4, 1))
  {
    hide Got, Indexed, Named, Coherent, DoOpened;
    GotAsked();
    var stage := S.AwaitSides(false, false);
    Sound(Browsing(BAsksForBoth(), stage, 4, 4, 1));
    ToBReceives();
    Meanwhile(Browsing(BAsksForBoth(), stage, 4, 4, 1), Resumed(3), BReceives());
    assert BReceives().tasks[4 := Publishing(0)] == APublishes().tasks;
    Meanwhile(Browsing(BReceives(), stage, 4, 4, 1), AskProducer(0, "p", Audio), APublishes());
  }

  lemma GotPublished()
    ensures Got(Browsing(BConsumes(), S.AwaitSides(false, false), 4, 4, 1))
  {
    hide Got, Indexed, Named, Coherent, DoProduced, DoConsumed, Register;
    GotReceive();
    var stage := S.AwaitSides(false, false);
    Sound(Browsing(APublishes(), stage, 4, 4, 1));
    SoundAPublishes();
    ToAOffersToB();
    Meanwhile(Browsing(APublishes(), stage, 4, 4, 1), Resumed(4), AOffersToB());
    Sound(Browsing(AOffersToB(), stage, 4, 4, 1));
    ToBConsumes();
    Meanwhile(Browsing(AOffersToB(), stage, 4, 4, 1), Resumed(4), BConsumes());
  }

  lemma HandlesMore(room: Room, stage: S.Stage, stage': S.Stage, n: nat, m: Message)
    requires 1 <= n < 4 && Got(Browsing(room, stage, 4, 4, n))
    requires |room.clients| == 2 && n < |room.clients[1].log| && room.clients[1].log[n] == m
    requires m == [HasRouter, HasReceive, Created(0, Info), HasSend][n]
    requires n == 1 ==> stage == S.AwaitSides(false, false) && stage' == S.AwaitSides(false, true)
    requires n == 2 ==> stage == stage' == S.AwaitSides(false, true)
    requires n != 3
    ensures Got(Browsing(room, stage', 4, 4, n + 1))
  {
    hide Got, Indexed, Named;
    var b, b' := Browsing(room, stage, 4, 4, n), Browsing(room, stage', 4, 4, n + 1);
    assert b.replica.log + [m] == b'.replica.log;
    GoesOn(b, InSession(S.Handle), b');
  }

  lemma GotAnswered()
    ensures Got(Browsing(BSends(), S.AwaitSides(false, true), 4, 4, 3))
  {
    hide Got, Indexed, Named, Coherent, DoOpened;
    GotPublished();
    HandlesMore(BConsumes(), S.AwaitSides(false, false), S.AwaitSides(false, true), 1, HasReceive);
    HandlesMore(BConsumes(), S.AwaitSides(false, true), S.AwaitSides(false, true), 2, Created(0, Info));
    Sound(Browsing(BConsumes(), S.AwaitSides(false, true), 4, 4, 3));
    ToBSends();
    Meanwhile(Browsing(BConsumes(), S.AwaitSides(false, true), 4, 4, 3), Resumed(2), BSends());
  }

  /** The browser has handled everything, has its receiving transport and no `consume` in flight;
      the room holds a consumer for it that it will never show. */
  lemma ConnectLosesAConsumer()
    ensures exists b ::
              && Got(b) && S.Receiving(b.session) && b.replica.pending == map[]
              && b.session.room == BSends() && b.session.handled == |BSends().clients[1].log|
              && 0 in BSends().clients[1].consumers && 0 in b.replica.dropped
              && !R.Shows(b.replica.screen, "a", R.Track(0, Audio))
  {
    hide Got, Indexed, Named;
    GotAnswered();
    var b := Browsing(BSends(), S.AwaitSides(false, true), 4, 4, 3);
    var b' := Browser(S.Session(BSends(), S.AwaitCall, b.session.sent + [S.AskCall("4")], 4, 4), Seen(4));
    assert b.replica.log + [HasSend] == b'.replica.log;
    GoesOn(b, InSession(S.Handle), b');
  }
}
