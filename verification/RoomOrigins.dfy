/**
 Where a room's media come from: every producer from one create-producer request of its own,
 whose client and kind it has, and every consumer from a client that could consume.
 */
module RoomOrigins {
  import opened Base
  import opened RoomModel
  import opened RoomInvariant
  import RoomMesh

  /**
   What a resolved `produce` registers: one producer, open, of the handler's client, on the
   transport the handler was waiting on, and of the kind that was asked for; it goes into that
   client's map and into no other, and nothing else is produced or closed.
   */
  lemma RegisteredExactly(s: Room, h: nat, kind: Kind)
    requires Coherent(s) && Indexed(s) && Named(s) && Enabled(s, Resumed(h)) && s.tasks[h].Publishing?
    requires s.handlers[h].request == CreateProducer(kind)
    ensures var s', c, p := Step(s, Resumed(h)), s.handlers[h].client, |s.producers|;
            && s'.producers == s.producers + [Producer(c, s.tasks[h].transport, kind, true)]
            && |s'.clients| == |s.clients|
            && (forall d :: 0 <= d < |s.clients| ==>
                  var reg, reg' := s.clients[d].producers, s'.clients[d].producers;
                  && reg'.order == reg.order + (if d == c then [p] else [])
                  && reg'.present == reg.present + (if d == c then {p} else {}))
  {
    RegisterOk(s, h);
    CoherentIsIndexed(Register(s, h));
    RegisterAdds(s, h, kind);
    hide Coherent, Register, Advance;
    AdvanceProduces(Register(s, h), h, 0);
  }

  lemma RegisterAdds(s: Room, h: nat, kind: Kind)
    requires Indexed(s) && h in s.tasks && s.tasks[h].Publishing? && s.handlers[h].request == CreateProducer(kind)
    ensures var s', c, p := Register(s, h), s.handlers[h].client, |s.producers|;
            && s'.handlers == s.handlers
            && s'.producers == s.producers + [Producer(c, s.tasks[h].transport, kind, true)]
            && |s'.clients| == |s.clients|
            && (forall d :: 0 <= d < |s.clients| ==>
                  var reg, reg' := s.clients[d].producers, s'.clients[d].producers;
                  && reg'.order == reg.order + (if d == c then [p] else [])
                  && reg'.present == reg.present + (if d == c then {p} else {}))
  {
  }

  lemma AdvanceProduces(s: Room, h: nat, cursor: nat)
    requires Indexed(s) && h < |s.handlers| && cursor <= |s.entries|
    ensures var s' := Advance(s, h, cursor);
            && s'.handlers == s.handlers && s'.producers == s.producers && |s'.clients| == |s.clients|
            && (forall d :: 0 <= d < |s.clients| ==> s'.clients[d].producers == s.clients[d].producers)
            && (forall g :: g in s'.tasks ==>
                  (g == h && !s'.tasks[g].Publishing?) || (g != h && g in s.tasks && s'.tasks[g] == s.tasks[g]))
  {
    var i := NextEntry(s.entries, s.clients[s.handlers[h].client].id, cursor);
    assert i < |s.entries| ==> !Visit(s, h, i).Publishing?;
    hide Visit;
  }

  // ---------- every producer has its own request ----------

  /** The handlers whose `produce` resolved, in order: the makers of the producers. */
  ghost function Makers(es: seq<Event>): seq<nat>
    requires Possible(es)
    decreases |es|
  {
    if es == [] then []
    else
      var init, e := es[..|es| - 1], es[|es| - 1];
      Makers(init) + if RoomMesh.Registers(After(init), e) then [e.task] else []
  }

  /** Producer `p` is what handler `h` asked for. */
  predicate AskedFor(s: Room, h: nat, p: Producer) {
    h < |s.handlers| && s.handlers[h].client == p.owner && s.handlers[h].request == CreateProducer(p.kind)
  }

  ghost predicate Made(s: Room, makers: seq<nat>) {
    && |makers| == |s.producers|
    && (forall p :: 0 <= p < |makers| ==>
          AskedFor(s, makers[p], s.producers[p]) && !(makers[p] in s.tasks && s.tasks[makers[p]].Publishing?))
    && (forall p, q :: 0 <= p < q < |makers| ==> makers[p] != makers[q])
  }

  /** Producers are what they were, and only new handlers start to publish. */
  ghost predicate Copies(s: Room, s': Room) {
    && s.handlers <= s'.handlers && |s'.producers| == |s.producers|
    && (forall p :: 0 <= p < |s.producers| ==>
          s'.producers[p].owner == s.producers[p].owner && s'.producers[p].kind == s.producers[p].kind)
    && (forall h :: h in s'.tasks && s'.tasks[h].Publishing? && h < |s.handlers| ==>
          h in s.tasks && s.tasks[h].Publishing?)
  }

  lemma CopiesMade(s: Room, s': Room, makers: seq<nat>)
    requires Made(s, makers) && Copies(s, s')
    ensures Made(s', makers)
  {
    forall p | 0 <= p < |makers|
      ensures AskedFor(s', makers[p], s'.producers[p]) && !(makers[p] in s'.tasks && s'.tasks[makers[p]].Publishing?)
    {
      assert AskedFor(s, makers[p], s.producers[p]);
    }
  }

  lemma ProducedMade(s: Room, h: nat, makers: seq<nat>)
    requires Coherent(s) && Indexed(s) && h in s.tasks && s.tasks[h].Publishing? && Made(s, makers)
    ensures Made(DoProduced(s, h), makers + [h])
  {
    var kind := s.handlers[h].request.kind;
    RegisterOk(s, h);
    CoherentIsIndexed(Register(s, h));
    RegisterAdds(s, h, kind);
    assert Register(s, h).tasks == s.tasks;
    hide Coherent, Indexed, Register, Advance;
    AdvanceProduces(Register(s, h), h, 0);
    var s' := DoProduced(s, h);
    forall p | 0 <= p < |makers + [h]|
      ensures var m := (makers + [h])[p];
              AskedFor(s', m, s'.producers[p]) && !(m in s'.tasks && s'.tasks[m].Publishing?)
    {
      assert p < |makers| ==> AskedFor(s, makers[p], s.producers[p]);
    }
  }

  lemma QuietCopies(s: Room, e: Event)
    requires Indexed(s) && Named(s) && Enabled(s, e)
    requires !e.SocketClosed? && !e.Resumed? && !e.AskJoin?
    ensures Copies(s, Step(s, e))
  {
    hide Step, Indexed, Named, Enabled;
    QuietStep(s, e);
  }

  lemma SettledCopies(s: Room, h: nat)
    requires Indexed(s) && Named(s) && h in s.tasks
    requires s.tasks[h].Opening? || s.tasks[h].Replying? || s.tasks[h].Awaiting?
    ensures Copies(s, DoResumed(s, h))
  {
  }

  lemma JoinCopies(s: Room, c: nat, id: RequestId)
    requires Coherent(s) && Indexed(s) && c < |s.clients|
    ensures Copies(s, DoAskJoin(s, c, id))
  {
    JoiningOk(s, c, id);
    hide Coherent, Indexed, Advance;
    AdvanceProduces(Joining(s, c, id), |s.handlers|, 0);
  }

  lemma ClosedCopies(s: Room, c: nat)
    requires Coherent(s) && Drained(s) && c < |s.clients|
    ensures Indexed(s) && Copies(s, DoSocketClosed(s, c))
  {
    SocketClosedShape(s, c);
    hide Coherent, Drained, Indexed, DoSocketClosed, Departed;
  }

  lemma StepMade(s: Room, e: Event, makers: seq<nat>)
    requires Coherent(s) && Drained(s) && Indexed(s) && Named(s) && Enabled(s, e) && Made(s, makers)
    ensures Made(Step(s, e), makers + if RoomMesh.Registers(s, e) then [e.task] else [])
  {
    hide Made, Copies;
    assert makers + [] == makers;
    match e {
      case AskJoin(c, id) => hide Drained, DoAskJoin; JoinCopies(s, c, id); CopiesMade(s, Step(s, e), makers);
      case SocketClosed(c) => hide DoSocketClosed; ClosedCopies(s, c); CopiesMade(s, Step(s, e), makers);
      case Resumed(h) =>
        if s.tasks[h].Publishing? {
          hide Drained, DoProduced;
          ProducedMade(s, h, makers);
        } else if s.tasks[h].Between? {
          hide Coherent, Drained, Advance;
          AdvanceProduces(s, h, s.tasks[h].cursor);
          assert Copies(s, Step(s, e)) by { LoopCopies(s, h); }
          CopiesMade(s, Step(s, e), makers);
        } else {
          hide Coherent, Drained, DoResumed;
          SettledCopies(s, h);
          CopiesMade(s, Step(s, e), makers);
        }
      case _ => hide Coherent, Drained, Step; QuietCopies(s, e); CopiesMade(s, Step(s, e), makers);
    }
  }

  lemma LoopCopies(s: Room, h: nat)
    requires Indexed(s) && h in s.tasks && s.tasks[h].Between?
    ensures Copies(s, Advance(s, h, s.tasks[h].cursor))
  {
    hide Advance;
    AdvanceProduces(s, h, s.tasks[h].cursor);
  }

  lemma {:induction false} RunMade(es: seq<Event>)
    requires Possible(es)
    ensures Made(After(es), Makers(es))
    decreases |es|
  {
    if es != [] {
      RunMade(es[..|es| - 1]);
      hide Made, Step, Enabled;
      StepMade(After(es[..|es| - 1]), es[|es| - 1], Makers(es[..|es| - 1]));
    }
  }

  /**
   Over any run every producer comes from a create-producer request of its own: the request was its
   owner's, it asked for its very kind, and no request makes two producers.
   */
  lemma EveryProducerWasAskedFor(es: seq<Event>, p: nat, q: nat)
    requires Possible(es) && p < |After(es).producers| && q < |After(es).producers|
    ensures var s, makers := After(es), Makers(es);
            && |makers| == |s.producers| && makers[p] < |s.handlers|
            && s.handlers[makers[p]].client == s.producers[p].owner
            && s.handlers[makers[p]].request == CreateProducer(s.producers[p].kind)
            && (makers[p] == makers[q] ==> p == q)
  {
    RunMade(es);
    hide Possible, After, Makers, Coherent, Drained, Indexed, Named;
    assert AskedFor(After(es), Makers(es)[p], After(es).producers[p]);
  }

  // ---------- every consumer was possible ----------

  /** Consumers keep their owners; a new one is of the client that a handler waited for. */
  ghost predicate OwnersKept(s: Room, e: Event, s': Room) {
    && |s.consumers| <= |s'.consumers| <= |s.consumers| + 1
    && (forall k :: 0 <= k < |s.consumers| ==> s'.consumers[k].owner == s.consumers[k].owner)
    && (|s'.consumers| == |s.consumers| + 1 ==>
          && e.Resumed? && e.task in s.tasks && s.tasks[e.task].Awaiting?
          && s'.consumers[|s.consumers|].owner == s.tasks[e.task].cons)
  }

  lemma QuietOwnersKept(s: Room, e: Event)
    requires Indexed(s) && Named(s) && Enabled(s, e)
    requires !e.SocketClosed? && !e.Resumed? && !e.AskJoin?
    ensures OwnersKept(s, e, Step(s, e))
  {
    hide Step, Indexed, Named, Enabled;
    QuietStep(s, e);
  }

  lemma ClosedOwnersKept(s: Room, c: nat)
    requires Coherent(s) && Drained(s) && c < |s.clients|
    ensures Indexed(s) && OwnersKept(s, SocketClosed(c), DoSocketClosed(s, c))
  {
    SocketClosedShape(s, c);
    hide Coherent, Drained, Indexed, DoSocketClosed, Departed;
  }

  lemma AdvanceConsumers(s: Room, h: nat, cursor: nat)
    requires Indexed(s) && h < |s.handlers| && cursor <= |s.entries|
    ensures Advance(s, h, cursor).consumers == s.consumers
  {
    hide Visit;
  }

  lemma ResumedOwnersKept(s: Room, h: nat)
    requires Coherent(s) && Indexed(s) && Named(s) && h in s.tasks
    ensures OwnersKept(s, Resumed(h), DoResumed(s, h))
  {
    match s.tasks[h] {
      case Publishing(_) =>
        RegisterOk(s, h);
        CoherentIsIndexed(Register(s, h));
        assert Register(s, h).consumers == s.consumers && Register(s, h).handlers == s.handlers by { hide Coherent; }
        hide Coherent, Register, Advance;
        AdvanceConsumers(Register(s, h), h, 0);
      case Between(cursor) => hide Coherent, Advance; AdvanceConsumers(s, h, cursor);
      case _ => hide Coherent, ConsumeFrom;
    }
  }

  lemma StepOwnersKept(s: Room, e: Event)
    requires Coherent(s) && Drained(s) && Indexed(s) && Named(s) && Enabled(s, e)
    ensures OwnersKept(s, e, Step(s, e))
  {
    match e {
      case AskJoin(c, id) =>
        JoiningOk(s, c, id);
        hide Coherent, Drained, Advance;
        AdvanceConsumers(Joining(s, c, id), |s.handlers|, 0);
      case SocketClosed(c) => hide DoSocketClosed, OwnersKept; ClosedOwnersKept(s, c);
      case Resumed(h) => hide Drained, DoResumed, OwnersKept; ResumedOwnersKept(s, h);
      case _ => hide Coherent, Drained, Step, OwnersKept; QuietOwnersKept(s, e);
    }
  }

  /** Every consumer's client is ready. */
  ghost predicate OwnersReady(s: Room) {
    forall k :: 0 <= k < |s.consumers| ==> s.consumers[k].owner < |s.clients| && Ready(s.clients[s.consumers[k].owner])
  }

  lemma AwaitingIsReady(s: Room, h: nat)
    requires Coherent(s) && h in s.tasks && s.tasks[h].Awaiting?
    ensures s.tasks[h].cons < |s.clients| && Ready(s.clients[s.tasks[h].cons])
  {
  }

  lemma StepOwnersReady(s: Room, e: Event)
    requires Coherent(s) && Drained(s) && Indexed(s) && Named(s) && Enabled(s, e) && OwnersReady(s)
    ensures OwnersReady(Step(s, e))
  {
    StepOwnersKept(s, e);
    RoomMesh.StepMoves(s, e);
    if e.Resumed? && s.tasks[e.task].Awaiting? {
      AwaitingIsReady(s, e.task);
    }
    hide Coherent, Drained, Indexed, Named, Enabled, Step, OwnersKept, OwnersReady, RoomMesh.Moves;
    KeptOwnersReady(s, e, Step(s, e));
  }

  lemma KeptOwnersReady(s: Room, e: Event, s': Room)
    requires OwnersReady(s) && OwnersKept(s, e, s') && RoomMesh.Moves(s, e, s')
    requires e.Resumed? && e.task in s.tasks && s.tasks[e.task].Awaiting? ==>
               s.tasks[e.task].cons < |s.clients| && Ready(s.clients[s.tasks[e.task].cons])
    ensures OwnersReady(s')
  {
    hide Ready;
    forall k | 0 <= k < |s'.consumers|
      ensures s'.consumers[k].owner < |s'.clients| && Ready(s'.clients[s'.consumers[k].owner])
    {
      var c := s'.consumers[k].owner;
      assert c < |s.clients| && Ready(s.clients[c]);
      var asks := e.AskJoin? && e.client == c;
      assert RoomMesh.ClientMoves(s.clients[c], s'.clients[c], asks, RoomMesh.NewProducers(s, e, c));
    }
  }

  lemma {:induction false} RunOwnersReady(es: seq<Event>)
    requires Possible(es)
    ensures OwnersReady(After(es))
    decreases |es|
  {
    if es != [] {
      RunOwnersReady(es[..|es| - 1]);
      hide OwnersReady, Step, Enabled;
      StepOwnersReady(After(es[..|es| - 1]), es[|es| - 1]);
    }
  }

  /** Over any run a client is made to consume only if it has sent its capabilities and has a
      receiving transport. */
  lemma OnlyTheReadyConsume(es: seq<Event>, k: nat, h: nat)
    requires Possible(es)
    ensures var s := After(es);
            && (k < |s.consumers| ==>
                  var c := s.consumers[k].owner;
                  c < |s.clients| && s.clients[c].capable && s.clients[c].rcv.Some?)
            && (h in s.tasks && s.tasks[h].Awaiting? ==>
                  var c := s.tasks[h].cons;
                  c < |s.clients| && s.clients[c].capable && s.clients[c].rcv.Some?)
  {
    RunOwnersReady(es);
    if h in After(es).tasks && After(es).tasks[h].Awaiting? {
      AwaitingIsReady(After(es), h);
    }
    hide Possible, After, Coherent, Drained, Indexed, Named;
  }
}
