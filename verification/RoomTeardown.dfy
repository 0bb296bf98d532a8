/**
 What a departing client leaves behind: nothing, provided it never had two sending
 transports, which it can have only if it asked for a second one while the first was still
 being created.
 */
module RoomTeardown {
  import opened Base
  import opened RoomModel
  import opened RoomInvariant
  import opened RoomLog

  // ---------- sending transports ----------

  /** Transport `t` was made for client `c` to send on, while the client was connected. */
  ghost predicate Sender(s: Room, c: nat, t: nat) {
    t < |s.transports| && s.transports[t].owner == c && s.transports[t].role.Producing? && !s.transports[t].late
  }

  ghost predicate SoleSender(s: Room, c: nat) {
    forall t, u :: Sender(s, c, t) && Sender(s, c, u) ==> t == u
  }

  /** A client's only sending transport is its current one, and is closed once the client is. */
  ghost predicate SenderOk(s: Room, c: nat)
    requires c < |s.clients|
  {
    && (!s.clients[c].closed ==> forall t :: 0 <= t < |s.transports| && s.transports[t].owner == c ==>
       !s.transports[t].late)
    && (SoleSender(s, c) ==> forall t: nat :: Sender(s, c, t) ==>
          if s.clients[c].closed then !s.transports[t].open else s.clients[c].snd == Some(t))
  }

  /** Nothing is ever published on a transport made for a client that was gone. */
  ghost predicate Timely(s: Room) {
    && (forall p :: 0 <= p < |s.producers| ==>
          s.producers[p].transport < |s.transports| && !s.transports[s.producers[p].transport].late)
    && (forall h :: h in s.tasks && s.tasks[h].Publishing? ==>
          s.tasks[h].transport < |s.transports| && !s.transports[s.tasks[h].transport].late)
  }

  ghost predicate Senders(s: Room) {
    Timely(s) && forall c :: 0 <= c < |s.clients| ==> SenderOk(s, c)
  }

  /** Transports at most close, clients stay who they are, nothing new is published. */
  ghost predicate Idles(s: Room, s': Room) {
    && |s'.clients| >= |s.clients| && |s'.transports| == |s.transports| && |s'.producers| == |s.producers|
    && (forall c :: 0 <= c < |s.clients| ==>
          s'.clients[c].closed == s.clients[c].closed && s'.clients[c].snd == s.clients[c].snd)
    && (forall t :: 0 <= t < |s.transports| ==>
          s'.transports[t] == s.transports[t] || s'.transports[t] == s.transports[t].(open := false))
    && (forall p :: 0 <= p < |s.producers| ==> s'.producers[p].transport == s.producers[p].transport)
    && (forall h :: h in s'.tasks && s'.tasks[h].Publishing? ==> h in s.tasks && s'.tasks[h] == s.tasks[h])
  }

  lemma IdlesSenders(s: Room, s': Room)
    requires Senders(s) && Idles(s, s')
    requires forall t :: 0 <= t < |s.transports| ==> s.transports[t].owner < |s.clients|
    ensures Senders(s')
  {
    forall c | 0 <= c < |s'.clients| ensures SenderOk(s', c) {
      assert forall t :: Sender(s', c, t) <==> Sender(s, c, t);
      if c < |s.clients| {
        assert SenderOk(s, c);
      }
    }
  }

  lemma OwnersInRange(s: Room)
    requires TableOk(s)
    ensures forall t :: 0 <= t < |s.transports| ==> s.transports[t].owner < |s.clients|
  {
  }

  lemma AdvanceIdles(s: Room, h: nat, cursor: nat)
    requires Indexed(s) && h < |s.handlers| && cursor <= |s.entries|
    ensures Idles(s, Advance(s, h, cursor))
  {
    var i := NextEntry(s.entries, s.clients[s.handlers[h].client].id, cursor);
    assert i < |s.entries| ==> !Visit(s, h, i).Publishing?;
    hide Visit;
  }

  lemma QuietIdles(s: Room, e: Event)
    requires Indexed(s) && Named(s) && Enabled(s, e)
    requires !e.SocketClosed? && !e.Resumed? && !e.AskJoin? && !e.AskProducer?
    ensures Idles(s, Step(s, e))
  {
    hide Step, Indexed, Named, Enabled;
    QuietStep(s, e);
  }

  lemma AskProducerSenders(s: Room, c: nat, id: RequestId, kind: Kind)
    requires Coherent(s) && Senders(s) && Listening(s, c)
    ensures Senders(DoAskProducer(s, c, id, kind))
  {
    var s' := DoAskProducer(s, c, id, kind);
    assert ClientOk(s.transports, c, s.clients[c]);
    assert SenderOk(s, c);
    hide Coherent;
    assert Timely(s');
    forall o | 0 <= o < |s'.clients| ensures SenderOk(s', o) {
      assert SenderOk(s, o);
      assert forall t :: Sender(s', o, t) <==> Sender(s, o, t);
    }
  }

  lemma OpenedSenders(s: Room, h: nat)
    requires Coherent(s) && Indexed(s) && Senders(s) && h in s.tasks && s.tasks[h].Opening?
    ensures Senders(DoOpened(s, h))
  {
    OwnersInRange(s);
    hide Coherent;
    var s' := Opened(s, h);
    var c := s.handlers[h].client;
    var n := |s.transports|;
    forall o | 0 <= o < |s'.clients| ensures SenderOk(s', o) {
      assert SenderOk(s, o);
      assert forall t: nat :: t != n ==> (Sender(s', o, t) <==> Sender(s, o, t));
      if SoleSender(s', o) {
        assert SoleSender(s, o);
        assert o == c && Sender(s', c, n) ==> s'.clients[c].snd == Some(n) && !s'.clients[c].closed;
      }
    }
    assert Timely(s');
    assert Senders(s');
    hide Senders;
    IdlesSenders(s', DoOpened(s, h));
  }

  lemma RegisterSenders(s: Room, h: nat)
    requires Coherent(s) && Indexed(s) && Senders(s) && h in s.tasks && s.tasks[h].Publishing?
    ensures Senders(Register(s, h))
  {
    hide Coherent;
    var s' := Registered(s, h);
    forall o | 0 <= o < |s'.clients| ensures SenderOk(s', o) {
      assert SenderOk(s, o);
      assert forall t :: Sender(s', o, t) <==> Sender(s, o, t);
    }
    assert Timely(s');
    forall o | 0 <= o < |s'.clients| ensures SenderOk(Register(s, h), o) {
      assert SenderOk(s', o);
      assert forall t :: Sender(s', o, t) <==> Sender(Register(s, h), o, t);
    }
  }

  lemma ProducedSenders(s: Room, h: nat)
    requires Coherent(s) && Indexed(s) && Senders(s) && h in s.tasks && s.tasks[h].Publishing?
    ensures Senders(DoProduced(s, h))
  {
    RegisterOk(s, h);
    CoherentIsIndexed(Register(s, h));
    OwnersInRange(Register(s, h));
    RegisterSenders(s, h);
    hide Coherent, Senders, Register, Advance;
    AdvanceIdles(Register(s, h), h, 0);
    IdlesSenders(Register(s, h), DoProduced(s, h));
  }

  lemma ConsumedIdles(s: Room, h: nat)
    requires Indexed(s) && Named(s) && h in s.tasks && s.tasks[h].Awaiting? && Indexed(Hold(s, h))
    ensures Idles(s, DoConsumed(s, h))
  {
  }

  lemma ResumedSenders(s: Room, h: nat)
    requires Coherent(s) && Indexed(s) && Named(s) && Senders(s) && h in s.tasks
    ensures Senders(DoResumed(s, h))
  {
    OwnersInRange(s);
    match s.tasks[h] {
      case Opening => OpenedSenders(s, h);
      case Publishing(_) => ProducedSenders(s, h);
      case Replying => hide Coherent, Senders; IdlesSenders(s, DoResumed(s, h));
      case Between(cursor) =>
        hide Coherent, Senders, Advance;
        AdvanceIdles(s, h, cursor);
        IdlesSenders(s, DoResumed(s, h));
      case Awaiting(_, _, _, _, _) =>
        HoldOk(s, h);
        CoherentIsIndexed(Hold(s, h));
        hide Coherent, Senders, DoConsumed, Hold;
        ConsumedIdles(s, h);
        IdlesSenders(s, DoResumed(s, h));
    }
  }

  /** `Idles`, except that client `c` is closed and so is its current sending transport. */
  ghost predicate Leaves(s: Room, s': Room, c: nat) {
    && c < |s.clients| && |s'.clients| == |s.clients|
    && |s'.transports| == |s.transports| && |s'.producers| == |s.producers|
    && (forall o :: 0 <= o < |s.clients| ==>
          s'.clients[o].closed == (s.clients[o].closed || o == c) && s'.clients[o].snd == s.clients[o].snd)
    && (forall t :: 0 <= t < |s.transports| ==>
          s'.transports[t] == s.transports[t] || s'.transports[t] == s.transports[t].(open := false))
    && (s.clients[c].snd.Some? && s.clients[c].snd.value < |s.transports| ==>
       !s'.transports[s.clients[c].snd.value].open)
    && (forall p :: 0 <= p < |s.producers| ==> s'.producers[p].transport == s.producers[p].transport)
    && s'.tasks == s.tasks
  }

  lemma DepartedLeaves(s: Room, c: nat)
    requires Coherent(s) && Drained(s) && c < |s.clients|
    ensures Indexed(s) && Leaves(s, Departed(s, c), c)
  {
    DepartedOk(s, c);
    DepartedShape(s, c);
    hide Coherent, Drained, Departed, Indexed;
  }

  /** Closing the client closes its current sending transport. */
  lemma LeavesSenders(s: Room, s': Room, c: nat)
    requires Senders(s) && Leaves(s, s', c)
    ensures Senders(s')
  {
    forall o | 0 <= o < |s'.clients| ensures SenderOk(s', o) {
      assert SenderOk(s, o);
      assert forall t: nat :: Sender(s', o, t) <==> Sender(s, o, t);
    }
  }

  lemma DepartedSenders(s: Room, c: nat)
    requires Coherent(s) && Drained(s) && Senders(s) && c < |s.clients|
    ensures Indexed(s) && Senders(Departed(s, c))
  {
    DepartedLeaves(s, c);
    hide Coherent, Drained, Senders, Leaves, Departed, Indexed;
    LeavesSenders(s, Departed(s, c), c);
  }

  lemma CloseRoomIdles(s: Room)
    requires Coherent(s) && Drained(s)
    ensures Owned(s) && Idles(s, CloseRoom(s))
  {
    CoherentIsIndexed(s);
    CloseRoomOk(s);
    hide Coherent, Drained, Indexed, Named;
    if !s.routerClosed {
      hide CloseRoom;
    }
  }

  lemma JoinSenders(s: Room, c: nat, id: RequestId)
    requires Coherent(s) && Indexed(s) && Senders(s) && c < |s.clients|
    ensures Senders(DoAskJoin(s, c, id))
  {
    JoiningOk(s, c, id);
    OwnersInRange(s);
    OwnersInRange(Joining(s, c, id));
    assert Idles(s, Joining(s, c, id)) by { hide Coherent, Indexed; }
    hide Coherent, Senders, Advance, Idles;
    IdlesSenders(s, Joining(s, c, id));
    AdvanceIdles(Joining(s, c, id), |s.handlers|, 0);
    IdlesSenders(Joining(s, c, id), DoAskJoin(s, c, id));
  }

  lemma ClosedSenders(s: Room, c: nat)
    requires Coherent(s) && Drained(s) && Senders(s) && c < |s.clients|
    ensures Indexed(s) && Senders(DoSocketClosed(s, c))
  {
    DepartedOk(s, c);
    DepartedSenders(s, c);
    OwnersInRange(Departed(s, c));
    CloseRoomIdles(Departed(s, c));
    hide Coherent, Drained, Senders, CloseRoom, Idles;
    IdlesSenders(Departed(s, c), CloseRoom(Departed(s, c)));
  }

  lemma StepSenders(s: Room, e: Event)
    requires Coherent(s) && Drained(s) && Indexed(s) && Named(s) && Senders(s) && Enabled(s, e)
    ensures Senders(Step(s, e))
  {
    match e {
      case AskProducer(c, id, kind) => AskProducerSenders(s, c, id, kind);
      case AskJoin(c, id) => JoinSenders(s, c, id);
      case SocketClosed(c) => ClosedSenders(s, c);
      case Resumed(h) => ResumedSenders(s, h);
      case _ =>
        OwnersInRange(s);
        QuietIdles(s, e);
        hide Coherent, Drained, Senders, Step, Idles;
        IdlesSenders(s, Step(s, e));
    }
  }

  lemma {:induction false} RunSenders(es: seq<Event>)
    requires Possible(es)
    ensures Senders(After(es))
    decreases |es|
  {
    if es != [] {
      RunSenders(es[..|es| - 1]);
      StepSenders(After(es[..|es| - 1]), es[|es| - 1]);
    }
  }

  // ---------- what is left of a departed client ----------

  /** Every consumer of a closed producer has been closed too. */
  ghost predicate Cascaded(s: Room) {
    forall k :: 0 <= k < |s.consumers| && s.consumers[k].open ==>
                  s.consumers[k].info.producer < |s.producers| && s.producers[s.consumers[k].info.producer].open
  }

  /**
   Teardown.  After client `q` has gone and the closing of its producers has cascaded, nobody
   holds a consumer of a producer of `q`, and everybody who was told of one and is still
   connected has been told of its end; `q` must not have had two sending transports.
   */
  lemma Teardown(es: seq<Event>, q: nat, c: nat)
    requires Possible(es)
    requires var s := After(es);
             q < |s.clients| && s.clients[q].closed && SoleSender(s, q) && Cascaded(s) && c < |s.clients|
    ensures var s := After(es);
            && (forall p :: 0 <= p < |s.producers| && s.producers[p].owner == q ==>
                  !s.producers[p].open && !Holds(s, c, p))
            && (!s.clients[c].closed ==>
                  forall k :: k in Replay(s.clients[c].log).seen && FromClient(s, k, q) ==>
                      Closed(k) in s.clients[c].log)
  {
    var s := After(es);
    RunSenders(es);
    LogRefinesState(es);
    forall p | 0 <= p < |s.producers| && s.producers[p].owner == q
      ensures !s.producers[p].open && !Holds(s, c, p)
    {
      GoneProducer(s, q, p);
      NotHeld(s, c, p);
    }
    if !s.clients[c].closed {
      forall k | k in Replay(s.clients[c].log).seen && FromClient(s, k, q) ensures Closed(k) in s.clients[c].log {
        hide Coherent, Drained, Logged, Senders;
        OpenIsHeld(s, c, k);
        GoneClosed(s.clients[c].log, k);
      }
    }
  }

  ghost predicate FromClient(s: Room, k: nat, q: nat) {
    k < |s.consumers| && s.consumers[k].info.producer < |s.producers|
    && s.producers[s.consumers[k].info.producer].owner == q
  }

  lemma OpenIsHeld(s: Room, c: nat, k: nat)
    requires Logged(s) && c < |s.clients| && !s.clients[c].closed
    ensures Told(s.consumers, s.clients[c])
    ensures k in Replay(s.clients[c].log).open ==> k < |s.consumers| && Holds(s, c, s.consumers[k].info.producer)
  {
    if k in Replay(s.clients[c].log).open {
      assert k in Picture(s.consumers, s.clients[c].consumers);
    }
  }

  lemma GoneProducer(s: Room, q: nat, p: nat)
    requires Coherent(s) && Drained(s) && Senders(s)
    requires q < |s.clients| && s.clients[q].closed && SoleSender(s, q)
    requires p < |s.producers| && s.producers[p].owner == q
    ensures !s.producers[p].open
  {
    assert ProducerOk(s.clients, s.transports, p, s.producers[p]);
    assert SenderOk(s, q);
    hide Coherent;
    assert Sender(s, q, s.producers[p].transport);
  }

  lemma NotHeld(s: Room, c: nat, p: nat)
    requires Coherent(s) && Cascaded(s) && c < |s.clients| && p < |s.producers| && !s.producers[p].open
    ensures !Holds(s, c, p)
  {
    assert HoldingsOk(s.consumers, c, s.clients[c].consumers);
  }

  // ---------- when a client has only one transport of a role ----------

  /** Client `c` waits for a transport of this role. */
  ghost predicate WaitsFor(s: Room, h: nat, c: nat, role: Role) {
    h in s.tasks && s.tasks[h].Opening? && h < |s.handlers|
    && s.handlers[h].client == c && s.handlers[h].request == CreateTransport(role)
  }

  ghost predicate MadeFor(s: Room, c: nat, t: nat, role: Role) {
    t < |s.transports| && s.transports[t].owner == c && s.transports[t].role == role
  }

  function Side(cl: Client, role: Role): Option<nat> {
    if role.Producing? then cl.snd else cl.rcv
  }

  /** Either nothing yet, or one request pending, or one transport made. */
  ghost predicate OneSide(s: Room, c: nat, role: Role)
    requires c < |s.clients|
  {
    && (forall t, u :: MadeFor(s, c, t, role) && MadeFor(s, c, u, role) ==> t == u)
    && (forall g, h :: WaitsFor(s, g, c, role) && WaitsFor(s, h, c, role) ==> g == h)
    && (forall t, h :: MadeFor(s, c, t, role) ==> !WaitsFor(s, h, c, role))
    && (Side(s.clients[c], role).None? ==> forall t :: !MadeFor(s, c, t, role))
  }

  /** No client asks for a second transport of the role while the first is being created. */
  ghost predicate Patient(s: Room, e: Event, role: Role) {
    e.AskTransport? && e.role == role ==> forall h :: !WaitsFor(s, h, e.client, role)
  }

  ghost predicate OneSideEach(s: Room, role: Role) {
    forall c :: 0 <= c < |s.clients| ==> OneSide(s, c, role)
  }

  /** Transports are not made, waits for one at most end, known clients keep theirs. */
  ghost predicate MakesNone(s: Room, s': Room, role: Role) {
    && |s'.clients| >= |s.clients| && |s'.transports| == |s.transports|
    && (forall c :: 0 <= c < |s.clients| ==> Side(s'.clients[c], role) == Side(s.clients[c], role))
    && (forall t :: 0 <= t < |s.transports| ==>
          s'.transports[t].owner == s.transports[t].owner && s'.transports[t].role == s.transports[t].role)
    && (forall h, c :: WaitsFor(s', h, c, role) ==> WaitsFor(s, h, c, role))
  }

  lemma NoneMade(s: Room, s': Room, role: Role)
    requires OneSideEach(s, role) && MakesNone(s, s', role) && Indexed(s)
    requires forall t :: 0 <= t < |s.transports| ==> s.transports[t].owner < |s.clients|
    ensures OneSideEach(s', role)
  {
    forall c | 0 <= c < |s'.clients| ensures OneSide(s', c, role) {
      assert forall t :: MadeFor(s', c, t, role) <==> MadeFor(s, c, t, role);
      if c < |s.clients| {
        assert OneSide(s, c, role);
      } else {
        assert forall h :: !WaitsFor(s, h, c, role);
      }
    }
  }

  lemma AskedOneSender(s: Room, c: nat, id: RequestId, asked: Role, role: Role)
    requires Indexed(s) && OneSideEach(s, role) && c < |s.clients|
    requires asked == role ==> forall h :: !WaitsFor(s, h, c, role)
    ensures OneSideEach(DoAskTransport(s, c, id, asked), role)
  {
    var s' := DoAskTransport(s, c, id, asked);
    forall o | 0 <= o < |s'.clients| ensures OneSide(s', o, role) {
      assert OneSide(s, o, role);
      assert forall t :: MadeFor(s', o, t, role) <==> MadeFor(s, o, t, role);
      assert forall h :: h != |s.handlers| ==> (WaitsFor(s', h, o, role) <==> WaitsFor(s, h, o, role));
      assert |s.handlers| !in s.tasks;
    }
  }

  lemma OpenedOneSender(s: Room, h: nat, role: Role)
    requires Indexed(s) && OneSideEach(s, role) && h in s.tasks && s.tasks[h].Opening?
    ensures OneSideEach(DoOpened(s, h), role)
  {
    var s' := DoOpened(s, h);
    var c := s.handlers[h].client;
    var n := |s.transports|;
    forall o | 0 <= o < |s'.clients| ensures OneSide(s', o, role) {
      assert OneSide(s, o, role);
      assert forall t :: t != n ==> (MadeFor(s', o, t, role) <==> MadeFor(s, o, t, role));
      assert forall g :: WaitsFor(s', g, o, role) <==> (g != h && WaitsFor(s, g, o, role));
      assert MadeFor(s', o, n, role) ==> WaitsFor(s, h, o, role);
    }
  }

  lemma AdvanceMakesNone(s: Room, h: nat, cursor: nat, role: Role)
    requires Indexed(s) && h < |s.handlers| && cursor <= |s.entries|
    ensures MakesNone(s, Advance(s, h, cursor), role)
  {
    var i := NextEntry(s.entries, s.clients[s.handlers[h].client].id, cursor);
    assert i < |s.entries| ==> !Visit(s, h, i).Opening?;
    hide Visit;
  }

  lemma QuietMakesNone(s: Room, e: Event, role: Role)
    requires Indexed(s) && Named(s) && Enabled(s, e)
    requires !e.SocketClosed? && !e.Resumed? && !e.AskJoin? && !e.AskTransport?
    ensures MakesNone(s, Step(s, e), role)
  {
    hide Step, Indexed, Named, Enabled;
    QuietStep(s, e);
  }

  lemma MakesNoneTrans(a: Room, b: Room, c: Room, role: Role)
    requires MakesNone(a, b, role) && MakesNone(b, c, role)
    ensures MakesNone(a, c, role)
  {
  }

  lemma DepartedMakesNone(s: Room, c: nat, role: Role)
    requires Coherent(s) && Drained(s) && c < |s.clients|
    ensures Indexed(s) && MakesNone(s, Departed(s, c), role)
  {
    hide Coherent, Drained, Departed, Indexed;
    DepartedShape(s, c);
  }

  lemma CloseRoomMakesNone(s: Room, role: Role)
    requires Coherent(s) && Drained(s)
    ensures Owned(s) && MakesNone(s, CloseRoom(s), role)
  {
    CoherentIsIndexed(s);
    CloseRoomOk(s);
    hide Coherent, Drained, Indexed, Named;
    if !s.routerClosed {
      hide CloseRoom;
    }
  }

  lemma ClosedMakesNone(s: Room, c: nat, role: Role)
    requires Coherent(s) && Drained(s) && c < |s.clients|
    ensures Indexed(s) && MakesNone(s, DoSocketClosed(s, c), role)
  {
    DepartedMakesNone(s, c, role);
    DepartedOk(s, c);
    hide Coherent, Drained, MakesNone, CloseRoom;
    CloseRoomMakesNone(Departed(s, c), role);
    if NobodyLeft(Departed(s, c).entries) {
      MakesNoneTrans(s, Departed(s, c), CloseRoom(Departed(s, c)), role);
    }
  }

  lemma RepliedMakesNone(s: Room, h: nat, role: Role)
    requires Indexed(s) && Named(s) && h in s.tasks && s.tasks[h].Replying?
    ensures MakesNone(s, DoResumed(s, h), role)
  {
  }

  lemma RegisterMakesNone(s: Room, h: nat, role: Role)
    requires Indexed(s) && h in s.tasks && s.tasks[h].Publishing?
    ensures MakesNone(s, Register(s, h), role) && Register(s, h).handlers == s.handlers
  {
  }

  lemma ProducedOneSender(s: Room, h: nat, role: Role)
    requires Coherent(s) && Indexed(s) && OneSideEach(s, role) && h in s.tasks && s.tasks[h].Publishing?
    ensures OneSideEach(DoProduced(s, h), role)
  {
    hide OneSideEach, Register, Advance, MakesNone;
    RegisterOk(s, h);
    CoherentIsIndexed(Register(s, h));
    OwnersInRange(s);
    OwnersInRange(Register(s, h));
    RegisterMakesNone(s, h, role);
    hide Coherent;
    NoneMade(s, Register(s, h), role);
    AdvanceMakesNone(Register(s, h), h, 0, role);
    NoneMade(Register(s, h), DoProduced(s, h), role);
  }

  lemma ConsumedOneSender(s: Room, h: nat, role: Role)
    requires Coherent(s) && Indexed(s) && Named(s) && OneSideEach(s, role) && h in s.tasks && s.tasks[h].Awaiting?
    ensures OneSideEach(DoConsumed(s, h), role)
  {
    hide OneSideEach, Hold, DoConsumed, MakesNone;
    OwnersInRange(s);
    HoldOk(s, h);
    CoherentIsIndexed(Hold(s, h));
    hide Coherent;
    ConsumedMakesNone(s, h, role);
    NoneMade(s, DoConsumed(s, h), role);
  }

  lemma ResumedOneSender(s: Room, h: nat, role: Role)
    requires Coherent(s) && Indexed(s) && Named(s) && OneSideEach(s, role) && h in s.tasks
    ensures OneSideEach(DoResumed(s, h), role)
  {
    OwnersInRange(s);
    match s.tasks[h] {
      case Opening => hide Coherent, OneSideEach, DoOpened; OpenedOneSender(s, h, role);
      case Publishing(_) => hide Coherent, OneSideEach, DoProduced, Indexed; ProducedOneSender(s, h, role);
      case Replying =>
        hide Coherent, OneSideEach, DoResumed, Indexed, Named, MakesNone;
        RepliedMakesNone(s, h, role);
        NoneMade(s, DoResumed(s, h), role);
      case Between(cursor) =>
        AdvanceMakesNone(s, h, cursor, role);
        hide Coherent, OneSideEach, Advance, Indexed, Named, MakesNone;
        NoneMade(s, Advance(s, h, cursor), role);
      case Awaiting(_, _, _, _, _) =>
        hide Coherent, OneSideEach, DoConsumed, Indexed, Named;
        ConsumedOneSender(s, h, role);
    }
  }

  lemma ConsumedMakesNone(s: Room, h: nat, role: Role)
    requires Indexed(s) && Named(s) && h in s.tasks && s.tasks[h].Awaiting? && Indexed(Hold(s, h))
    ensures MakesNone(s, DoConsumed(s, h), role)
  {
  }

  lemma JoinOneSender(s: Room, c: nat, id: RequestId, role: Role)
    requires Coherent(s) && Indexed(s) && OneSideEach(s, role) && c < |s.clients|
    ensures OneSideEach(DoAskJoin(s, c, id), role)
  {
    hide OneSideEach, Advance, MakesNone;
    OwnersInRange(s);
    JoiningOk(s, c, id);
    OwnersInRange(Joining(s, c, id));
    assert MakesNone(s, Joining(s, c, id), role) by { JoiningMakesNone(s, c, id, role); }
    hide Coherent;
    NoneMade(s, Joining(s, c, id), role);
    AdvanceMakesNone(Joining(s, c, id), |s.handlers|, 0, role);
    NoneMade(Joining(s, c, id), DoAskJoin(s, c, id), role);
  }

  lemma JoiningMakesNone(s: Room, c: nat, id: RequestId, role: Role)
    requires Indexed(s) && c < |s.clients|
    ensures MakesNone(s, Joining(s, c, id), role)
  {
  }

  lemma StepOneSender(s: Room, e: Event, role: Role)
    requires Coherent(s) && Drained(s) && Indexed(s) && Named(s) && OneSideEach(s, role)
    requires Enabled(s, e) && Patient(s, e, role)
    ensures OneSideEach(Step(s, e), role)
  {
    OwnersInRange(s);
    match e {
      case AskTransport(c, id, asked) =>
        hide Coherent, Drained, Named, OneSideEach, DoAskTransport;
        AskedOneSender(s, c, id, asked, role);
      case AskJoin(c, id) =>
        hide Coherent, Drained, Named, Indexed, OneSideEach, DoAskJoin;
        JoinOneSender(s, c, id, role);
      case SocketClosed(c) =>
        hide OneSideEach, DoSocketClosed, MakesNone, Indexed;
        ClosedMakesNone(s, c, role);
        hide Coherent, Drained;
        NoneMade(s, DoSocketClosed(s, c), role);
      case Resumed(h) => hide Coherent, Drained, Named, Indexed, OneSideEach, DoResumed; ResumedOneSender(s, h, role);
      case _ =>
        hide Coherent, Drained, OneSideEach, Step, MakesNone, Indexed, Named, Enabled;
        QuietMakesNone(s, e, role);
        NoneMade(s, Step(s, e), role);
    }
  }

  /** If no client asks for a second transport of a role too early, each has at most one. */
  lemma {:induction false} PatientClientsHaveOne(es: seq<Event>, role: Role)
    requires Possible(es)
    requires forall n :: 0 <= n < |es| && Possible(es[..n]) ==> Patient(After(es[..n]), es[n], role)
    ensures OneSideEach(After(es), role)
    decreases |es|
  {
    if es != [] {
      var init := es[..|es| - 1];
      assert forall n :: 0 <= n < |init| ==> init[..n] == es[..n] && init[n] == es[n];
      PatientClientsHaveOne(init, role);
      StepOneSender(After(init), es[|es| - 1], role);
    }
  }

  /** So patient clients meet the condition of `Teardown`, and a role's only transport is current. */
  lemma PatientClientsHaveOneTransport(es: seq<Event>, c: nat, t: nat, role: Role)
    requires Possible(es) && c < |After(es).clients|
    requires forall n :: 0 <= n < |es| && Possible(es[..n]) ==> Patient(After(es[..n]), es[n], role)
    ensures role.Producing? ==> SoleSender(After(es), c)
    ensures var s := After(es);
            t < |s.transports| && s.transports[t].owner == c && s.transports[t].role == role ==>
              (if role.Producing? then s.clients[c].snd else s.clients[c].rcv) == Some(t)
  {
    PatientClientsHaveOne(es, role);
    var s := After(es);
    OneMeansSole(s, c, role);
    hide Possible, After, OneSideEach, SoleSender, OneSide, Indexed, Named, Drained;
    if MadeFor(s, c, t, role) {
      OnlyCurrent(s, c, t, role);
    }
  }

  lemma OnlyCurrent(s: Room, c: nat, t: nat, role: Role)
    requires Coherent(s) && c < |s.clients| && OneSide(s, c, role) && MadeFor(s, c, t, role)
    ensures Side(s.clients[c], role) == Some(t)
  {
    assert ClientOk(s.transports, c, s.clients[c]);
    hide Coherent;
    assert MadeFor(s, c, Side(s.clients[c], role).value, role);
  }

  lemma OneMeansSole(s: Room, c: nat, role: Role)
    requires OneSideEach(s, role) && c < |s.clients|
    ensures OneSide(s, c, role) && (role.Producing? ==> SoleSender(s, c))
  {
    if role.Producing? {
      assert forall t :: Sender(s, c, t) ==> MadeFor(s, c, t, role);
    }
  }

  // ---------- the room itself ----------

  /** The room closes exactly when the departing client's id was the last one in the map. */
  lemma LastOneOut(s: Room, c: nat)
    requires Coherent(s) && Drained(s) && c < |s.clients|
    ensures Indexed(s)
    ensures var s' := DoSocketClosed(s, c);
            && s'.routerClosed == (s.routerClosed || OnlyId(s.entries, s.clients[c].id))
            && s'.closings - s.closings == (if s'.routerClosed && !s.routerClosed then 1 else 0)
            && (s'.routerClosed && !s.routerClosed ==>
                  forall t :: 0 <= t < |s'.transports| ==> !s'.transports[t].open)
  {
    SocketClosedShape(s, c);
    DepartedShape(s, c);
    DepartedOk(s, c);
    CloseRoomOk(Departed(s, c));
    assert Distinct(s.entries);
    hide Coherent, Drained, Departed, CloseRoom, Indexed;
    var i := Find(s.entries, s.clients[c].id);
    var after := Departed(s, c).entries;
    if i < |s.entries| {
      assert after[i].Gone?;
      assert forall j :: 0 <= j < |s.entries| && j != i ==> after[j] == s.entries[j];
    }
  }

  predicate OnlyId(entries: seq<Entry>, id: ClientId) {
    forall i :: 0 <= i < |entries| && entries[i].Entry? ==> entries[i].id == id
  }

  lemma AdvanceRouter(s: Room, h: nat, cursor: nat)
    requires Indexed(s) && h < |s.handlers| && cursor <= |s.entries|
    ensures Advance(s, h, cursor).routerClosed == s.routerClosed && Advance(s, h, cursor).closings == s.closings
  {
    hide Visit;
  }

  lemma SettledRouter(s: Room, h: nat)
    requires Indexed(s) && Named(s) && h in s.tasks
             && (s.tasks[h].Opening? || s.tasks[h].Replying? || s.tasks[h].Awaiting?)
    ensures DoResumed(s, h).routerClosed == s.routerClosed && DoResumed(s, h).closings == s.closings
  {
    hide ConsumeFrom;
  }

  lemma RouterStaysResumed(s: Room, h: nat)
    requires Coherent(s) && Indexed(s) && Named(s) && h in s.tasks
    ensures DoResumed(s, h).routerClosed == s.routerClosed && DoResumed(s, h).closings == s.closings
  {
    match s.tasks[h] {
      case Publishing(_) =>
        RegisterOk(s, h);
        CoherentIsIndexed(Register(s, h));
        assert Register(s, h).routerClosed == s.routerClosed && Register(s, h).closings == s.closings
               && Register(s, h).handlers == s.handlers by { hide Coherent; }
        hide Coherent, Indexed, Named, Register, Advance;
        AdvanceRouter(Register(s, h), h, 0);
      case Between(cursor) => hide Coherent, Advance; AdvanceRouter(s, h, cursor);
      case _ => hide Coherent, DoResumed; SettledRouter(s, h);
    }
  }

  lemma RouterStays(s: Room, e: Event)
    requires Coherent(s) && Indexed(s) && Named(s) && Enabled(s, e) && !e.SocketClosed?
    ensures Step(s, e).routerClosed == s.routerClosed && Step(s, e).closings == s.closings
  {
    match e {
      case Resumed(h) => hide Indexed, Named, Coherent, DoResumed; RouterStaysResumed(s, h);
      case AskJoin(c, id) =>
        hide Indexed, Named, Coherent, Advance;
        JoiningOk(s, c, id);
        AdvanceRouter(Joining(s, c, id), |s.handlers|, 0);
      case _ => hide Coherent, Step, Indexed, Named, Enabled; QuietStep(s, e);
    }
  }

  /** `onClosed` runs at most once, and only for a closed router. */
  lemma {:induction false} ClosedOnce(es: seq<Event>)
    requires Possible(es)
    ensures After(es).closings == if After(es).routerClosed then 1 else 0
    decreases |es|
  {
    if es != [] {
      var s, e := After(es[..|es| - 1]), es[|es| - 1];
      ClosedOnce(es[..|es| - 1]);
      if e.SocketClosed? {
        LastOneOut(s, e.client);
      } else {
        RouterStays(s, e);
      }
    }
  }
}
