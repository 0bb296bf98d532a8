/**
 Runs that show the conditions of the room's theorems are needed, and what exactly happens
 when they are not met.
 */
module RoomExamples {
  import opened Base
  import opened RoomModel
  import opened RoomInvariant
  import opened RoomMesh
  import opened RoomOffers
  import opened RoomUnique
  import opened RoomTeardown
  import opened RoomUnserved

  // ---------- what exactly a departing client closes ----------

  /** As long as others stay, a departure does not close the room. */
  lemma OthersStay(s: Room, c: nat)
    requires Coherent(s) && Drained(s) && c < |s.clients| && !OnlyId(s.entries, s.clients[c].id)
    ensures Indexed(s) && DoSocketClosed(s, c) == Departed(s, c)
  {
    hide Coherent, Drained, Indexed, Shrinks, CloseOptional;
    DepartedShape(s, c);
    var after := Departed(s, c).entries;
    var j :| 0 <= j < |s.entries| && s.entries[j].Entry? && s.entries[j].id != s.clients[c].id;
    assert after[j] == s.entries[j];
  }

  lemma SameTables(s: Room, c: nat)
    requires Coherent(s) && Drained(s) && c < |s.clients|
    ensures Indexed(s) && |Departed(s, c).producers| == |s.producers|
  {
    hide Coherent, Drained, Departed, Indexed;
    DepartedShape(s, c);
  }

  /** As long as others stay, a departing client's producer closes if and only if it is on
      the client's current sending transport. */
  lemma DepartingClosesExactly(s: Room, c: nat, p: nat)
    requires Coherent(s) && Drained(s) && c < |s.clients| && p < |s.producers| && s.producers[p].owner == c
    requires !OnlyId(s.entries, s.clients[c].id)
    ensures Indexed(s)
    ensures var s' := DoSocketClosed(s, c);
            p < |s'.producers| &&
            (s'.producers[p].open <==> s.producers[p].open && s.clients[c].snd != Some(s.producers[p].transport))
  {
    assert ProducerOk(s.clients, s.transports, p, s.producers[p]);
    assert ClientOk(s.transports, c, s.clients[c]);
    hide Coherent, Drained, Departed, Indexed, DoSocketClosed, Shrinks;
    OthersStay(s, c);
    DepartedOk(s, c);
    SameTables(s, c);
  }

  // ---------- a shared id ----------

  function Fresh(id: ClientId): Client {
    Client(id, false, false, None, None, Registry([], {}), {}, [], false)
  }

  function Joined(entries: seq<Entry>, clients: seq<Client>): Room {
    Room(false, 0, entries, clients, [], [], [], [], map[], {})
  }

  lemma Empty()
    ensures Reached(NewRoom)
  {
    assert Possible([]) && After([]) == NewRoom;
  }

  function OneX(): Room {
    Joined([Entry("x", 0)], [Fresh("x")])
  }

  lemma ReachOneX()
    ensures Reached(OneX())
  {
    Empty();
    hide Reached, Indexed, Named;
    Then(NewRoom, Add("x"), OneX());
  }

  function TwoX(): Room {
    Joined([Entry("x", 1)], [Fresh("x"), Fresh("x")])
  }

  lemma ReachTwoX()
    ensures Reached(TwoX())
  {
    ReachOneX();
    hide Reached, Indexed, Named;
    Then(OneX(), Add("x"), TwoX());
  }

  /** A second connection under a live id takes the slot; when the first one's socket closes,
      the second is dropped from the room and the room closes although it is connected. */
  lemma SharedIdClosesTheRoom()
    ensures Reached(TwoX())
    ensures var s := TwoX();
            && Indexed(s) && Enabled(s, SocketClosed(0))
            && DoSocketClosed(s, 0).routerClosed && DoSocketClosed(s, 0).entries == [Gone]
            && !DoSocketClosed(s, 0).clients[1].closed
  {
    ReachTwoX();
    hide Reached;
  }

  // ---------- two sending transports ----------

  const ToReceive := Handler(1, CreateTransport(Role.Consuming), "r")
  const ToSend := Handler(0, CreateTransport(Role.Producing), "s")
  const SendAgain := Handler(0, CreateTransport(Role.Producing), "t")
  const ToPublish := Handler(0, CreateProducer(Audio), "p")
  const First := Response(CreateTransportResponse, "s", 1)
  const Second := Response(CreateTransportResponse, "t", 2)
  const Third := Response(CreateProducerResponse, "p", 3)
  const Heard := ConsumerInfo(0, Audio, "a")

  function Receiver(): Client {
    Fresh("b").(capable := true, rcv := Some(0), log := [Response(CreateTransportResponse, "r", 0)])
  }

  function JustA(): Room {
    Joined([Entry("a", 0)], [Fresh("a")])
  }

  lemma ReachJustA()
    ensures Reached(JustA())
  {
    hide Reached, Indexed, Named;
    Empty();
    Then(NewRoom, Add("a"), JustA());
  }

  function AAndB(): Room {
    Joined([Entry("a", 0), Entry("b", 1)], [Fresh("a"), Fresh("b")])
  }

  lemma ReachAAndB()
    ensures Reached(AAndB())
  {
    hide Reached, Indexed, Named;
    ReachJustA();
    Then(JustA(), Add("b"), AAndB());
  }

  function BCapable(): Room {
    AAndB().(clients := [Fresh("a"), Fresh("b").(capable := true)])
  }

  lemma ReachBCapable()
    ensures Reached(BCapable())
  {
    hide Reached, Indexed, Named;
    ReachAAndB();
    Then(AAndB(), Capabilities(1), BCapable());
  }

  function BAsksToReceive(): Room {
    BCapable().(handlers := [ToReceive], tasks := map[0 := Opening])
  }

  lemma ReachBAsksToReceive()
    ensures Reached(BAsksToReceive())
  {
    hide Reached, Indexed, Named;
    ReachBCapable();
    Then(BCapable(), AskTransport(1, "r", Role.Consuming), BAsksToReceive());
  }

  function BReceives(): Room {
    AAndB().(handlers := [ToReceive], clients := [Fresh("a"), Receiver()],
          transports := [Transport(1, Role.Consuming, true, false)])
  }

  lemma ToBReceives()
    requires Indexed(BAsksToReceive())
    ensures DoOpened(BAsksToReceive(), 0) == BReceives()
  {
    hide Indexed;
    var t := DoOpened(BAsksToReceive(), 0);
    assert t.clients[1].log == BReceives().clients[1].log;
    assert t.clients[1] == BReceives().clients[1];
    assert t.clients == BReceives().clients;
    assert t.transports == BReceives().transports;
    assert t.tasks == BReceives().tasks;
  }

  lemma ReachBReceives()
    ensures Reached(BReceives())
  {
    hide Reached, Indexed, Named, Coherent, Drained, DoOpened, DoProduced, DoConsumed;
    ReachBAsksToReceive();
    ReachedIsSound(BAsksToReceive());
    ToBReceives();
    Then(BAsksToReceive(), Resumed(0), BReceives());
  }

  function AAsksToSend(): Room {
    BReceives().(handlers := [ToReceive, ToSend], tasks := map[1 := Opening])
  }

  lemma ReachAAsksToSend()
    ensures Reached(AAsksToSend())
  {
    hide Reached, Indexed, Named;
    ReachBReceives();
    Then(BReceives(), AskTransport(0, "s", Role.Producing), AAsksToSend());
  }

  function AAsksAgain(): Room {
    BReceives().(handlers := [ToReceive, ToSend, SendAgain], tasks := map[1 := Opening, 2 := Opening])
  }

  lemma ReachAAsksAgain()
    ensures Reached(AAsksAgain())
  {
    hide Reached, Indexed, Named;
    ReachAAsksToSend();
    Then(AAsksToSend(), AskTransport(0, "t", Role.Producing), AAsksAgain());
  }

  function ASends(): Room {
    AAsksAgain().(clients := [Fresh("a").(snd := Some(1), log := [First]), Receiver()],
          transports := [Transport(1, Role.Consuming, true, false), Transport(0, Role.Producing, true, false)],
          tasks := map[2 := Opening])
  }

  lemma ToASends()
    requires Indexed(AAsksAgain())
    ensures DoOpened(AAsksAgain(), 1) == ASends()
  {
    hide Indexed;
    var t := DoOpened(AAsksAgain(), 1);
    assert t.clients[0].log == ASends().clients[0].log;
    assert t.clients[0] == ASends().clients[0];
    assert t.clients == ASends().clients;
    assert t.transports == ASends().transports;
    assert t.tasks == ASends().tasks;
  }

  lemma ReachASends()
    ensures Reached(ASends())
  {
    hide Reached, Indexed, Named, Coherent, Drained, DoOpened, DoProduced, DoConsumed;
    ReachAAsksAgain();
    ReachedIsSound(AAsksAgain());
    ToASends();
    Then(AAsksAgain(), Resumed(1), ASends());
  }

  function APublishes(): Room {
    ASends().(handlers := [ToReceive, ToSend, SendAgain, ToPublish], tasks := map[2 := Opening, 3 := Publishing(1)])
  }

  lemma ReachAPublishes()
    ensures Reached(APublishes())
  {
    hide Reached, Indexed, Named;
    ReachASends();
    Then(ASends(), AskProducer(0, "p", Audio), APublishes());
  }

  function ASendsTwice(): Room {
    APublishes().(clients := [Fresh("a").(snd := Some(2), log := [First, Second]), Receiver()],
          transports := [Transport(1, Role.Consuming, true, false), Transport(0, Role.Producing, true, false),
                         Transport(0, Role.Producing, true, false)],
          tasks := map[3 := Publishing(1)])
  }

  lemma ToASendsTwice()
    requires Indexed(APublishes())
    ensures DoOpened(APublishes(), 2) == ASendsTwice()
  {
    hide Indexed;
    var t := DoOpened(APublishes(), 2);
    assert t.clients[0].log == ASendsTwice().clients[0].log;
    assert t.clients[0] == ASendsTwice().clients[0];
    assert t.clients == ASendsTwice().clients;
    assert t.transports == ASendsTwice().transports;
    assert t.tasks == ASendsTwice().tasks;
  }

  lemma ReachASendsTwice()
    ensures Reached(ASendsTwice())
  {
    hide Reached, Indexed, Named, Coherent, Drained, DoOpened, DoProduced, DoConsumed;
    ReachAPublishes();
    ReachedIsSound(APublishes());
    ToASendsTwice();
    Then(APublishes(), Resumed(2), ASendsTwice());
  }

  function AOffersToB(): Room {
    ASendsTwice().(clients := [Fresh("a").(snd := Some(2), producers := Registry([0], {0}),
        log := [First, Second, Third]),
                      Receiver()],
           producers := [Producer(0, 1, Audio, true)],
           tasks := map[3 := Awaiting(2, 0, 1, 0, 0)])
  }

  lemma RegisteredAOffersToB()
    requires Indexed(ASendsTwice())
    ensures Register(ASendsTwice(), 3) ==
            ASendsTwice().(clients := AOffersToB().clients, producers := AOffersToB().producers)
  {
    hide Indexed;
    var t := Register(ASendsTwice(), 3);
    assert t.clients[0].log == AOffersToB().clients[0].log;
    assert t.clients[0] == AOffersToB().clients[0];
    assert t.clients == AOffersToB().clients;
    assert t.producers == AOffersToB().producers;
  }

  lemma ToAOffersToB()
    requires Indexed(ASendsTwice()) && Indexed(Register(ASendsTwice(), 3))
    ensures DoProduced(ASendsTwice(), 3) == AOffersToB()
  {
    hide Indexed, Register;
    RegisteredAOffersToB();
    var t := Advance(ASendsTwice().(clients := AOffersToB().clients, producers := AOffersToB().producers), 3, 0);
    assert t.tasks[3] == AOffersToB().tasks[3];
    assert t.tasks == AOffersToB().tasks;
  }

  lemma SoundASendsTwice()
    requires Coherent(ASendsTwice()) && Indexed(ASendsTwice())
    ensures Indexed(Register(ASendsTwice(), 3))
  {
    hide Coherent, Indexed;
    RegisterOk(ASendsTwice(), 3);
    CoherentIsIndexed(Register(ASendsTwice(), 3));
  }

  lemma ReachAOffersToB()
    ensures Reached(AOffersToB())
  {
    hide Reached, Indexed, Named, Coherent, Drained, DoProduced, Register;
    ReachASendsTwice();
    ReachedIsSound(ASendsTwice());
    SoundASendsTwice();
    ToAOffersToB();
    Then(ASendsTwice(), Resumed(3), AOffersToB());
  }

  function BConsumes(): Room {
    AOffersToB().(clients := [AOffersToB().clients[0],
                      Receiver().(consumers := {0}, log := Receiver().log + [Created(0, Heard)])],
           consumers := [Consumer(1, 0, Heard, true)],
           tasks := map[3 := Between(2)])
  }

  lemma ToBConsumes()
    requires Indexed(AOffersToB())
    ensures DoConsumed(AOffersToB(), 3) == BConsumes()
  {
    hide Indexed;
    var t := DoConsumed(AOffersToB(), 3);
    assert t.clients[1].log == BConsumes().clients[1].log;
    assert t.clients[1] == BConsumes().clients[1];
    assert t.clients == BConsumes().clients;
    assert t.consumers == BConsumes().consumers;
    assert t.tasks == BConsumes().tasks;
  }

  lemma ReachBConsumes()
    ensures Reached(BConsumes())
  {
    hide Reached, Indexed, Named, Coherent, Drained, DoOpened, DoProduced, DoConsumed;
    ReachAOffersToB();
    ReachedIsSound(AOffersToB());
    ToBConsumes();
    Then(AOffersToB(), Resumed(3), BConsumes());
  }

  function AllSettled(): Room {
    BConsumes().(tasks := map[])
  }

  lemma ReachAllSettled()
    ensures Reached(AllSettled())
  {
    hide Reached, Indexed, Named;
    ReachBConsumes();
    assert BConsumes().tasks - {3} == map[];
    Then(BConsumes(), Resumed(3), AllSettled());
  }

  /** "a" asked for two sending transports at once, published on the first and leaves: its
      producer stays open, "b" goes on consuming it, and no handler is left to change that. */
  lemma EagerSenderLeavesAProducerBehind()
    ensures Reached(AllSettled())
    ensures var s := AllSettled();
            && Indexed(s) && Coherent(s) && Drained(s) && Enabled(s, SocketClosed(0))
            && var s' := DoSocketClosed(s, 0);
               && s'.tasks == map[] && |s'.producers| == 1 && s'.producers[0].owner == 0 && s'.producers[0].open
               && |s'.clients| == 2 && s'.clients[0].closed && Holds(s', 1, 0)
  {
    hide Reached, Coherent, Drained, Indexed, DoSocketClosed;
    ReachAllSettled();
    ReachedIsSound(AllSettled());
    var s := AllSettled();
    assert s.entries[1].Entry?;
    DepartingClosesExactly(s, 0, 0);
    OthersKeepTheirs(s, 0, 1, 0);
  }

  // ---------- a transport that comes too late ----------

  const AAsksToReceive := Handler(0, CreateTransport(Role.Consuming), "r")

  function AAwaitsTransport(): Room {
    AAndB().(handlers := [AAsksToReceive], tasks := map[0 := Opening])
  }

  function AGone(): Room {
    AAwaitsTransport().(entries := [Gone, Entry("b", 1)], clients := [Fresh("a").(closed := true), Fresh("b")])
  }

  function TransportLeft(): Room {
    AGone().(clients := [Fresh("a").(closed := true, rcv := Some(0)), Fresh("b")],
             transports := [Transport(0, Role.Consuming, true, true)],
             tasks := map[])
  }

  lemma ToAGone()
    requires Indexed(AAwaitsTransport())
    ensures DoSocketClosed(AAwaitsTransport(), 0) == AGone()
  {
    hide Indexed;
    var s := AAwaitsTransport();
    var left := s.(clients := s.clients[0 := s.clients[0].(closed := true)], entries := s.entries[0 := Gone]);
    assert left.entries == AGone().entries && left.entries[1].Entry?;
    assert left.clients == AGone().clients;
  }

  lemma ToTransportLeft()
    requires Indexed(AGone())
    ensures DoOpened(AGone(), 0) == TransportLeft()
  {
    hide Indexed;
    var t := DoOpened(AGone(), 0);
    assert t.clients == TransportLeft().clients;
    assert t.transports == TransportLeft().transports;
    assert t.tasks == TransportLeft().tasks;
  }

  /** "a" leaves while its transport is being created: the transport is made nevertheless, and
      no handler is left to close it. */
  lemma LateTransportStays()
    ensures Reached(TransportLeft())
    ensures var s := TransportLeft();
            s.tasks == map[] && s.clients[0].closed && s.transports[0].owner == 0 && s.transports[0].open
                && !s.routerClosed
  {
    hide Reached, Indexed, Named, Coherent, Drained, DoSocketClosed, DoOpened;
    ReachAAndB();
    Then(AAndB(), AskTransport(0, "r", Role.Consuming), AAwaitsTransport());
    ReachedIsSound(AAwaitsTransport());
    ToAGone();
    Then(AAwaitsTransport(), SocketClosed(0), AGone());
    ReachedIsSound(AGone());
    ToTransportLeft();
    Then(AGone(), Resumed(0), TransportLeft());
  }

  // ---------- a race, and rejections ----------

  const ToJoin := Handler(1, JoinCall, "j")

  /** "b" joins while the producer of "a" is being offered to it. */
  function BothOffer(): Room {
    AOffersToB().(handlers := [ToReceive, ToSend, SendAgain, ToPublish, ToJoin],
           clients := [AOffersToB().clients[0], Receiver().(joinedReady := true)],
           tasks := map[3 := Awaiting(2, 0, 1, 0, 0), 4 := Awaiting(1, 0, 1, 0, 0)])
  }

  lemma ToBothOffer()
    requires Indexed(AOffersToB())
    ensures DoAskJoin(AOffersToB(), 1, "j") == BothOffer()
  {
    hide Indexed;
    var t := DoAskJoin(AOffersToB(), 1, "j");
    assert t.clients[1] == BothOffer().clients[1];
    assert t.clients == BothOffer().clients;
    assert t.handlers == BothOffer().handlers;
    assert t.tasks[3] == BothOffer().tasks[3] && t.tasks[4] == BothOffer().tasks[4];
    assert t.tasks == BothOffer().tasks;
  }

  lemma ReachBothOffer()
    ensures Reached(BothOffer())
  {
    hide Reached, Indexed, Named, Coherent, Drained, DoAskJoin;
    ReachAOffersToB();
    ReachedIsSound(AOffersToB());
    ToBothOffer();
    Then(AOffersToB(), AskJoin(1, "j"), BothOffer());
  }

  /** Two handlers do come to wait for one client to consume one producer, and once both calls
      have resolved the client holds two consumers of it. */
  lemma RaceIsReachable()
    ensures Reached(BothOffer()) && Indexed(BothOffer()) && !NoRace(BothOffer())
    ensures exists s :: Reached(s) && !Unique(s)
  {
    hide Reached, Coherent, Drained, Indexed, Named, Unique, Step;
    ReachBothOffer();
    ReachedIsSound(BothOffer());
    assert Target(BothOffer(), 3) == Target(BothOffer(), 4);
    RaceBreaksUniqueness(BothOffer(), 3, 4);
    var s1 := Step(BothOffer(), Resumed(3));
    Then(BothOffer(), Resumed(3), s1);
    Then(s1, Resumed(4), Step(s1, Resumed(4)));
  }

  /** The `consume` of both handlers rejects: "b", which was ready when it joined, is left
      without the open producer of "a", and nobody is left to see to it. */
  lemma RejectionBreaksMesh()
    ensures exists s ::
              && Reached(s) && Indexed(s) && s.tasks == map[] && Wanted(s, 1, 0, 0)
              && !Served(s, 1, 0, 0) && Neglected(s, 1, 0, 0)
  {
    hide Reached, Indexed, Wanted, Served, Neglected;
    ReachBothOffer();
    var lost2 := RejectedTo(BothOffer(), 3);
    var s2 := BothOffer().(tasks := BothOffer().tasks - {3}, lost := lost2);
    var lost3 := RejectedTo(s2, 4);
    var s3 := s2.(tasks := s2.tasks - {4}, lost := lost3);
    assert s3.tasks == map[];
    ReachedIsSound(s3);
    LeftWithout(s3);
  }

  /** A suspended `consume` may always reject. */
  lemma RejectedTo(s: Room, h: nat) returns (lost: set<(nat, nat)>)
    requires Reached(s) && h in s.tasks && s.tasks[h].Awaiting?
    ensures Reached(s.(tasks := s.tasks - {h}, lost := lost))
  {
    hide Reached, Coherent, Drained, Abandoned, Indexed, Named;
    ReachedIsSound(s);
    lost := DoRejected(s, h).lost;
    Then(s, ConsumeRejected(h), s.(tasks := s.tasks - {h}, lost := lost));
  }

  lemma LeftWithout(s: Room)
    requires s == BothOffer().(tasks := map[], lost := s.lost) && Indexed(s)
    ensures Wanted(s, 1, 0, 0) && !Served(s, 1, 0, 0) && Neglected(s, 1, 0, 0)
  {
    hide Indexed;
  }

  /** As long as others stay, a departing client takes nothing from them at once. */
  lemma OthersKeepTheirs(s: Room, c: nat, d: nat, k: nat)
    requires Coherent(s) && Drained(s) && c < |s.clients| && d < |s.clients| && c != d
    requires k in s.clients[d].consumers && !OnlyId(s.entries, s.clients[c].id)
    ensures Indexed(s)
    ensures var s' := DoSocketClosed(s, c);
            && |s'.clients| == |s.clients| && |s'.producers| == |s.producers| && s'.tasks == s.tasks
            && s'.clients[c].closed && s'.clients[d].closed == s.clients[d].closed
            && (forall p :: 0 <= p < |s.producers| ==> s'.producers[p].owner == s.producers[p].owner)
            && k in s'.clients[d].consumers && k < |s.consumers| && k < |s'.consumers|
            && s'.consumers[k].info == s.consumers[k].info
  {
    hide Coherent, Drained, Departed, Indexed, DoSocketClosed;
    OthersStay(s, c);
    DepartedShape(s, c);
    SparedConsumer(s, c, d, k);
    var s1 := Departed(s, c);
    assert ClientShrinks(s.clients[d], s1.clients[d]);
  }

  lemma SparedConsumer(s: Room, c: nat, d: nat, k: nat)
    requires Coherent(s) && Drained(s) && c < |s.clients| && d < |s.clients| && c != d && k in s.clients[d].consumers
    ensures Indexed(s) && k < |s.consumers|
    ensures d < |Departed(s, c).clients| && k in Departed(s, c).clients[d].consumers
  {
    assert HoldingsOk(s.consumers, d, s.clients[d].consumers);
    DepartedOk(s, c);
    DepartedShape(s, c);
    DepartedSpares(s, c, d);
    hide Departed, Drained, Indexed;
    var s1 := Departed(s, c);
    assert ConsumerOk(s1.clients, s1.transports, |s1.producers|, k, s1.consumers[k]);
  }
}
