/**
 Everybody consumes everybody: whichever of join and produce comes first, and however the
 handlers interleave.
 */
module RoomMesh {
  import opened Base
  import opened RoomModel
  import opened RoomInvariant
  import opened RoomOffers

  /** What is due to a client that was ready when it asked to join. */
  ghost predicate Wanted(s: Room, i: nat, j: nat, m: nat)
    requires Indexed(s)
  {
    Due(s, i, j, m) && s.clients[s.entries[i].client].joinedReady
  }

  /** A `produce` resolves in this step. */
  predicate Registers(s: Room, e: Event) {
    e.Resumed? && e.task in s.tasks && s.tasks[e.task].Publishing?
  }

  /** Client `c` was ready when producer `p` was registered. */
  ghost predicate ReadyFor(es: seq<Event>, c: nat, p: nat)
    requires Possible(es)
    decreases |es|
  {
    es != [] && (ReadyFor(es[..|es| - 1], c, p) || ReadyIn(After(es[..|es| - 1]), es[|es| - 1], c, p))
  }

  ghost predicate ReadyIn(s: Room, e: Event, c: nat, p: nat) {
    && c < |s.clients| && s.clients[c].capable && s.clients[c].rcv.Some?
    && Registers(s, e) && p == |s.producers|
  }

  /** What is due to a client that was ready when it asked to join, or when the producer was
      registered. */
  ghost predicate Entitled(es: seq<Event>, i: nat, j: nat, m: nat)
    requires Possible(es)
  {
    && Due(After(es), i, j, m)
    && var s := After(es);
       var c := s.entries[i].client;
       || s.clients[c].joinedReady
       || ReadyFor(es, c, s.clients[s.entries[j].client].producers.order[m])
  }

  // ---------- what a step makes due ----------

  ghost predicate ClientMoves(c: Client, c': Client, joins: bool, added: seq<nat>) {
    && (Ready(c) ==> Ready(c')) && (c'.joinedReady <==> c.joinedReady || (joins && Ready(c)))
    && c'.producers.order == c.producers.order + added
    && forall p :: p in c'.producers.present ==> p in c.producers.present || p in added
  }

  /** The producer that a step registers for client `c`, if it does. */
  ghost function NewProducers(s: Room, e: Event, c: nat): seq<nat> {
    if Registers(s, e) && e.task < |s.handlers| && s.handlers[e.task].client == c then [|s.producers|] else []
  }

  /** Slots are kept or vacated, new clients start from nothing, and clients become entitled
      by joining and by registering only. */
  ghost predicate Moves(s: Room, e: Event, s': Room) {
    && |s.clients| <= |s'.clients|
    && (forall i :: 0 <= i < |s'.entries| && s'.entries[i].Entry? && s'.entries[i].client < |s.clients| ==>
          i < |s.entries| && s.entries[i] == s'.entries[i])
    && (forall c :: |s.clients| <= c < |s'.clients| ==>
          !s'.clients[c].capable && !s'.clients[c].joinedReady && s'.clients[c].producers.order == [])
    && (forall c :: 0 <= c < |s.clients| ==>
          ClientMoves(s.clients[c], s'.clients[c], e.AskJoin? && e.client == c, NewProducers(s, e, c)))
  }

  /** The same for a step, or a part of one, that neither joins nor registers. */
  ghost predicate Tends(s: Room, s': Room) {
    && |s'.clients| == |s.clients| && |s'.entries| == |s.entries|
    && (forall i :: 0 <= i < |s.entries| && s'.entries[i].Entry? ==> s'.entries[i] == s.entries[i])
    && (forall c :: 0 <= c < |s.clients| ==> ClientTends(s.clients[c], s'.clients[c]))
  }

  ghost predicate ClientTends(c: Client, c': Client) {
    && (Ready(c) ==> Ready(c')) && c'.joinedReady == c.joinedReady
    && c'.producers.order == c.producers.order && c'.producers.present <= c.producers.present
  }

  lemma TendsMoves(s: Room, e: Event, s': Room)
    requires Tends(s, s') && !Registers(s, e) && !e.AskJoin?
    ensures Moves(s, e, s')
  {
    forall c | 0 <= c < |s.clients| ensures ClientMoves(s.clients[c], s'.clients[c], false, []) {
      assert ClientTends(s.clients[c], s'.clients[c]);
    }
  }

  lemma MovesTends(s: Room, e: Event, s1: Room, s': Room)
    requires Moves(s, e, s1) && Tends(s1, s') && |s1.clients| == |s.clients|
    ensures Moves(s, e, s')
  {
    forall c | 0 <= c < |s.clients|
      ensures ClientMoves(s.clients[c], s'.clients[c], e.AskJoin? && e.client == c, NewProducers(s, e, c))
    {
      assert ClientTends(s1.clients[c], s'.clients[c]);
      assert ClientMoves(s.clients[c], s1.clients[c], e.AskJoin? && e.client == c, NewProducers(s, e, c));
    }
  }

  lemma AdvanceTends(s: Room, h: nat, cursor: nat)
    requires Indexed(s) && h < |s.handlers| && cursor <= |s.entries|
    ensures Tends(s, Advance(s, h, cursor))
  {
    hide Visit;
  }

  lemma QuietMoves(s: Room, e: Event)
    requires Indexed(s) && Named(s) && Enabled(s, e)
    requires !e.SocketClosed? && !e.Resumed? && !e.AskJoin?
    ensures Moves(s, e, Step(s, e))
  {
    QuietStep(s, e);
    var s' := Step(s, e);
    hide Step, Indexed, Named, Enabled, QuietTask, QuietMedia;
    forall c | 0 <= c < |s.clients| ensures ClientMoves(s.clients[c], s'.clients[c], false, []) {
      assert QuietClient(s.clients[c], s'.clients[c]);
    }
  }

  lemma ClosedTends(s: Room, c: nat)
    requires Coherent(s) && Drained(s) && c < |s.clients|
    ensures Indexed(s) && Tends(s, DoSocketClosed(s, c))
  {
    SocketClosedShape(s, c);
    var s' := DoSocketClosed(s, c);
    var flagged := s.clients[c := s.clients[c].(closed := true)];
    hide Coherent, Drained, Indexed, DoSocketClosed, Departed;
    forall d | 0 <= d < |s.clients| ensures ClientTends(s.clients[d], s'.clients[d]) {
      assert ClientShrinks(flagged[d], s'.clients[d]);
    }
  }

  lemma JoinMoves(s: Room, c: nat, id: RequestId)
    requires Coherent(s) && Indexed(s) && c < |s.clients|
    ensures Moves(s, AskJoin(c, id), DoAskJoin(s, c, id))
  {
    JoiningOk(s, c, id);
    assert Moves(s, AskJoin(c, id), Joining(s, c, id)) by { hide Coherent, Indexed; }
    hide Coherent, Advance, Moves, Tends;
    AdvanceTends(Joining(s, c, id), |s.handlers|, 0);
    MovesTends(s, AskJoin(c, id), Joining(s, c, id), DoAskJoin(s, c, id));
  }

  lemma RegisterMoves(s: Room, h: nat)
    requires Indexed(s) && h in s.tasks && s.tasks[h].Publishing?
    ensures Moves(s, Resumed(h), Register(s, h)) && |Register(s, h).clients| == |s.clients|
  {
    var s' := Register(s, h);
    forall c | 0 <= c < |s.clients|
      ensures ClientMoves(s.clients[c], s'.clients[c], false, NewProducers(s, Resumed(h), c))
    {
    }
  }

  lemma ProducedMoves(s: Room, h: nat)
    requires Coherent(s) && Indexed(s) && h in s.tasks && s.tasks[h].Publishing?
    ensures Moves(s, Resumed(h), DoProduced(s, h))
  {
    RegisterOk(s, h);
    CoherentIsIndexed(Register(s, h));
    RegisterMoves(s, h);
    RegisterShape(s, h);
    hide Coherent, Advance, Register, Moves, Tends;
    AdvanceTends(Register(s, h), h, 0);
    MovesTends(s, Resumed(h), Register(s, h), DoProduced(s, h));
  }

  lemma SettledTends(s: Room, h: nat)
    requires Indexed(s) && Named(s) && h in s.tasks
    requires s.tasks[h].Opening? || s.tasks[h].Replying? || s.tasks[h].Awaiting?
    ensures Tends(s, DoResumed(s, h))
  {
    hide ConsumeFrom;
  }

  lemma StepMoves(s: Room, e: Event)
    requires Coherent(s) && Drained(s) && Indexed(s) && Named(s) && Enabled(s, e)
    ensures Moves(s, e, Step(s, e))
  {
    hide Moves, Tends;
    match e {
      case AskJoin(c, id) => hide Drained, DoAskJoin; JoinMoves(s, c, id);
      case SocketClosed(c) => hide DoSocketClosed; ClosedTends(s, c); TendsMoves(s, e, Step(s, e));
      case Resumed(h) =>
        if s.tasks[h].Publishing? {
          hide Drained, DoProduced;
          ProducedMoves(s, h);
        } else if s.tasks[h].Between? {
          hide Coherent, Drained, Advance;
          AdvanceTends(s, h, s.tasks[h].cursor);
          TendsMoves(s, e, Step(s, e));
        } else {
          hide Coherent, Drained, DoResumed;
          SettledTends(s, h);
          TendsMoves(s, e, Step(s, e));
        }
      case _ => hide Coherent, Drained, Step; QuietMoves(s, e);
    }
  }

  /** What is due after a step was due before it, unless its producer has just been registered
      or its client has just become ready. */
  lemma DueBefore(s: Room, e: Event, s': Room, i: nat, j: nat, m: nat)
    requires Indexed(s) && Named(s) && Moves(s, e, s') && Indexed(s') && Due(s', i, j, m)
    ensures i < |s.entries| && j < |s.entries| && s.entries[i] == s'.entries[i] && s.entries[j] == s'.entries[j]
    ensures var c, q := s'.entries[i].client, s'.entries[j].client;
            && c < |s.clients| && q < |s.clients|
            && (s'.clients[c].joinedReady ==> s.clients[c].joinedReady || (e.AskJoin? && e.client == c))
            && (Fresh(s, s', j, m) ==> Registers(s, e))
            && (!Fresh(s, s', j, m) && Ready(s.clients[c]) ==>
                  Due(s, i, j, m) && s.clients[q].producers.order[m] == s'.clients[q].producers.order[m])
  {
    var c, q := s'.entries[i].client, s'.entries[j].client;
    assert ClientMoves(s.clients[c], s'.clients[c], e.AskJoin? && e.client == c, NewProducers(s, e, c));
    assert ClientMoves(s.clients[q], s'.clients[q], e.AskJoin? && e.client == q, NewProducers(s, e, q));
  }

  // ---------- runs ----------

  /** Client `c` asked to join when it had sent its capabilities and had a receiving transport. */
  ghost predicate JoinedWhenReady(es: seq<Event>, c: nat)
    requires Possible(es)
    decreases |es|
  {
    es != [] && (JoinedWhenReady(es[..|es| - 1], c) || JoinsIn(After(es[..|es| - 1]), es[|es| - 1], c))
  }

  predicate JoinsIn(s: Room, e: Event, c: nat) {
    e.AskJoin? && e.client == c && c < |s.clients| && s.clients[c].capable && s.clients[c].rcv.Some?
  }

  /** That is what `joinedReady` records. */
  lemma {:induction false} JoinedReadyExactly(es: seq<Event>, c: nat)
    requires Possible(es)
    ensures c < |After(es).clients| && After(es).clients[c].joinedReady <==> JoinedWhenReady(es, c)
    decreases |es|
  {
    hide Coherent, Drained, Indexed, Named, Enabled, Step;
    if es != [] {
      var init, e := es[..|es| - 1], es[|es| - 1];
      var s := After(init);
      JoinedReadyExactly(init, c);
      StepMoves(s, e);
      assert c < |s.clients| ==>
               ClientMoves(s.clients[c], After(es).clients[c], e.AskJoin? && e.client == c, NewProducers(s, e, c));
    }
  }

  /** Readiness is for good. */
  lemma {:induction false} ReadyStays(es: seq<Event>, c: nat, p: nat)
    requires Possible(es) && ReadyFor(es, c, p)
    ensures c < |After(es).clients| && Ready(After(es).clients[c])
    decreases |es|
  {
    hide Coherent, Drained, Indexed, Named, Enabled, Step;
    var init, e := es[..|es| - 1], es[|es| - 1];
    var s := After(init);
    if ReadyFor(init, c, p) {
      ReadyStays(init, c, p);
    }
    StepMoves(s, e);
    assert ClientMoves(s.clients[c], After(es).clients[c], e.AskJoin? && e.client == c, NewProducers(s, e, c));
  }

  /** Who is entitled is ready. */
  lemma EntitledIsReady(es: seq<Event>, c: nat, p: nat)
    requires Possible(es) && c < |After(es).clients|
    requires After(es).clients[c].joinedReady || ReadyFor(es, c, p)
    ensures Ready(After(es).clients[c])
  {
    CoherentClient(After(es), c);
    hide Coherent, Drained, Indexed, Named, Possible, After;
    if ReadyFor(es, c, p) {
      ReadyStays(es, c, p);
    }
  }

  lemma {:induction false} RunMesh(es: seq<Event>, i: nat, j: nat, m: nat)
    requires Possible(es) && Entitled(es, i, j, m)
    ensures Attended(After(es), i, j, m)
    decreases |es|
  {
    hide Coherent, Drained, Named, Moves, Enabled;
    if es != [] {
      var init, e := es[..|es| - 1], es[|es| - 1];
      var s, s' := After(init), After(es);
      StepMoves(s, e);
      DueBefore(s, e, s', i, j, m);
      StepKeeps(s, e);
      if Fresh(s, s', j, m) {
        ProducedKeeps(s, e.task);
        assert s' == DoProduced(s, e.task);
      } else if e.AskJoin? && e.client == s'.entries[i].client {
        JoinKeeps(s, e.client, e.requestId);
      } else {
        EntitledIsReady(init, s'.entries[i].client, s'.clients[s'.entries[j].client].producers.order[m]);
        RunMesh(init, i, j, m);
      }
    }
  }

  /** Without a rejected `consume` nothing is ever given up. */
  lemma {:induction false} NothingLost(es: seq<Event>)
    requires Possible(es) && forall n :: 0 <= n < |es| ==> !es[n].ConsumeRejected?
    ensures After(es).lost == {}
    decreases |es|
  {
    if es != [] {
      NothingLost(es[..|es| - 1]);
      LostGrows(After(es[..|es| - 1]), es[|es| - 1]);
    }
  }

  lemma ResumedLost(s: Room, h: nat)
    requires Indexed(s) && Named(s) && h in s.tasks
    ensures DoResumed(s, h).lost == s.lost
  {
    hide Visit, ConsumeFrom;
  }

  lemma LostGrows(s: Room, e: Event)
    requires Coherent(s) && Drained(s) && Indexed(s) && Named(s) && Enabled(s, e)
    ensures s.lost <= Step(s, e).lost
    ensures !e.ConsumeRejected? ==> Step(s, e).lost == s.lost
  {
    match e {
      case SocketClosed(c) =>
        hide Coherent, Drained, Indexed, Named, DoSocketClosed, Departed, Shrinks;
        SocketClosedShape(s, c);
      case Resumed(h) => hide Coherent, Drained, DoResumed; ResumedLost(s, h);
      case AskJoin(c, id) => hide Coherent, Drained, Visit;
      case _ => hide Coherent, Drained, Indexed, Named, Enabled, Step; QuietStep(s, e);
    }
  }

  /**
   Mesh completeness.  Once no handler is in flight, every client that was ready when it
   asked to join, or when the producer was registered, holds a consumer of every such open
   producer of every other client, except for pairs that an aborted handler gave up; without
   rejections there are no exceptions.
   */
  lemma MeshComplete(es: seq<Event>, i: nat, j: nat, m: nat)
    requires Possible(es) && After(es).tasks == map[] && Entitled(es, i, j, m)
    ensures !Served(After(es), i, j, m) ==> GivenUp(After(es), i, j, m)
    ensures (forall n :: 0 <= n < |es| ==> !es[n].ConsumeRejected?) ==> Served(After(es), i, j, m)
  {
    RunMesh(es, i, j, m);
    if forall n :: 0 <= n < |es| ==> !es[n].ConsumeRejected? {
      NothingLost(es);
    }
  }
}
