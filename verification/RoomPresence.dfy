/**
 The state of a room told from its run: who is in it under which id, who has sent its
 capabilities, and which transports are the current ones.
 */
module RoomPresence {
  import opened Base
  import opened RoomModel
  import opened RoomInvariant
  import RoomServers

  /** The ids of the clients, in the order in which they were added. */
  ghost function Added(es: seq<Event>): seq<ClientId> {
    if es == [] then []
    else
      var e := es[|es| - 1];
      Added(es[..|es| - 1]) + if e.Add? then [e.id] else []
  }

  /** Who is in the room under an id: the last one added under it, until a connection of that id
      closes, be it its own or an older one. */
  ghost function Occupant(es: seq<Event>, id: ClientId): Option<nat> {
    if es == [] then None
    else
      var init, e := es[..|es| - 1], es[|es| - 1];
      match e
      case Add(i) => if i == id then Some(|Added(init)|) else Occupant(init, id)
      case SocketClosed(c) => if c < |Added(init)| && Added(init)[c] == id then None else Occupant(init, id)
      case _ => Occupant(init, id)
  }

  /** The current transport of a client, by role. */
  predicate Current(t: Option<nat>, transports: seq<Transport>, c: nat, role: Role) {
    match t
    case None => forall u :: 0 <= u < |transports| ==> !(transports[u].owner == c && transports[u].role == role)
    case Some(u) =>
      && u < |transports| && transports[u].owner == c && transports[u].role == role
      && forall v :: u < v < |transports| ==> !(transports[v].owner == c && transports[v].role == role)
  }

  // ---------- one step ----------

  /** Nobody's id, transports or capabilities change, and no transport is made. */
  ghost predicate Steady(s: Room, s': Room) {
    && |s'.clients| == |s.clients| && |s'.transports| == |s.transports|
    && (forall c :: 0 <= c < |s.clients| ==> SteadyClient(s.clients[c], s'.clients[c]))
    && (forall t :: 0 <= t < |s.transports| ==>
          s'.transports[t].owner == s.transports[t].owner && s'.transports[t].role == s.transports[t].role)
  }

  ghost predicate SteadyClient(c: Client, c': Client) {
    c'.id == c.id && c'.snd == c.snd && c'.rcv == c.rcv && c'.capable == c.capable
  }

  lemma SteadyTwice(a: Room, b: Room, c: Room)
    requires Steady(a, b) && Steady(b, c)
    ensures Steady(a, c)
  {
  }

  lemma AdvanceSteady(s: Room, h: nat, cursor: nat)
    requires Indexed(s) && h < |s.handlers| && cursor <= |s.entries|
    ensures Steady(s, Advance(s, h, cursor))
  {
    hide Visit;
  }

  lemma JoinSteady(s: Room, c: nat, id: RequestId)
    requires Coherent(s) && Indexed(s) && c < |s.clients|
    ensures Steady(s, DoAskJoin(s, c, id))
  {
    JoiningOk(s, c, id);
    hide Coherent, Advance;
    AdvanceSteady(Joining(s, c, id), |s.handlers|, 0);
  }

  lemma ClosedSteady(s: Room, c: nat)
    requires Coherent(s) && Drained(s) && c < |s.clients|
    ensures Indexed(s) && Steady(s, DoSocketClosed(s, c))
  {
    SocketClosedShape(s, c);
    hide Coherent, Drained, Indexed, DoSocketClosed, Departed;
  }

  lemma RegisterSteady(s: Room, h: nat)
    requires Indexed(s) && h in s.tasks && s.tasks[h].Publishing?
    ensures Steady(s, Register(s, h))
  {
  }

  lemma HoldSteady(s: Room, h: nat)
    requires Indexed(s) && Named(s) && h in s.tasks && s.tasks[h].Awaiting?
    ensures Steady(s, Hold(s, h))
  {
  }

  lemma ResumedSteady(s: Room, h: nat)
    requires Coherent(s) && Indexed(s) && Named(s) && h in s.tasks && !s.tasks[h].Opening?
    ensures Steady(s, DoResumed(s, h))
  {
    match s.tasks[h] {
      case Publishing(_) =>
        RegisterOk(s, h);
        CoherentIsIndexed(Register(s, h));
        RegisterSteady(s, h);
        hide Coherent, Register, Advance;
        AdvanceSteady(Register(s, h), h, 0);
        SteadyTwice(s, Register(s, h), DoProduced(s, h));
      case Between(cursor) => hide Coherent, Advance; AdvanceSteady(s, h, cursor);
      case Awaiting(_, _, _, _, _) => HoldSteady(s, h); hide Coherent, ConsumeFrom, Hold;
      case _ => hide Coherent;
    }
  }

  lemma LostSteady(s: Room, e: Event)
    requires Owned(s) && Indexed(s) && Named(s) && Enabled(s, e) && (e.ProducerLost? || e.ConsumerLost?)
    ensures Steady(s, Step(s, e))
  {
    hide Indexed, Named;
  }

  lemma AskedSteady(s: Room, e: Event)
    requires Indexed(s) && Named(s) && Enabled(s, e)
    requires || e.AskCapabilities? || e.AskTransport? || e.AskProducer? || e.AskPause? || e.AskResume?
             || e.ConsumeRejected? || e.Failed?
    ensures Steady(s, Step(s, e))
  {
    hide Indexed, Named, Abandoned;
  }

  /** What opens no transport, adds nobody and brings no capabilities leaves all three alone. */
  lemma StepSteady(s: Room, e: Event)
    requires Coherent(s) && Drained(s) && Indexed(s) && Named(s) && Enabled(s, e)
    requires !e.Add? && !e.Capabilities? && !(e.Resumed? && s.tasks[e.task].Opening?)
    ensures Steady(s, Step(s, e))
  {
    match e {
      case AskJoin(c, id) => JoinSteady(s, c, id); hide Coherent, Drained, Indexed, Named, Steady, DoAskJoin;
      case SocketClosed(c) => ClosedSteady(s, c); hide Coherent, Drained, Indexed, Named, Steady, DoSocketClosed;
      case Resumed(h) => ResumedSteady(s, h); hide Coherent, Drained, Indexed, Named, Steady, DoResumed;
      case ProducerLost(_) => CoherentIsIndexed(s); hide Coherent, Drained, Step, Steady; LostSteady(s, e);
      case ConsumerLost(_) => CoherentIsIndexed(s); hide Coherent, Drained, Step, Steady; LostSteady(s, e);
      case _ => hide Coherent, Drained, Steady, Step; AskedSteady(s, e);
    }
  }

  lemma OpenedShape(s: Room, h: nat)
    requires Coherent(s) && Indexed(s) && h in s.tasks && s.tasks[h].Opening?
    ensures var s', c, role, t := DoOpened(s, h), s.handlers[h].client, s.handlers[h].request.role, |s.transports|;
            && s'.transports == s.transports + [Transport(c, role, true, s.clients[c].closed)]
            && |s'.clients| == |s.clients|
            && (forall d :: 0 <= d < |s.clients| ==>
                  && s'.clients[d].id == s.clients[d].id && s'.clients[d].capable == s.clients[d].capable
                  && s'.clients[d].snd == (if d == c && role == Producing then Some(t) else s.clients[d].snd)
                  && s'.clients[d].rcv == (if d == c && role == Consuming then Some(t) else s.clients[d].rcv))
  {
    hide Coherent;
  }

  lemma StepIds(s: Room, e: Event)
    requires Coherent(s) && Drained(s) && Indexed(s) && Named(s) && Enabled(s, e) && !e.Add?
    ensures var s' := Step(s, e);
            && |s'.clients| == |s.clients|
            && (forall c :: 0 <= c < |s.clients| ==> s'.clients[c].id == s.clients[c].id)
            && (forall c :: 0 <= c < |s.clients| ==>
                  (s'.clients[c].capable <==> s.clients[c].capable || e == Capabilities(c)))
  {
    if e.Resumed? && s.tasks[e.task].Opening? {
      OpenedShape(s, e.task);
      hide Coherent, Drained, Indexed, Named, DoOpened;
    } else if !e.Capabilities? {
      StepSteady(s, e);
      hide Coherent, Drained, Indexed, Named, Step;
    }
  }

  // ---------- who is in the room ----------

  lemma AddedExactly(s: Room, id: ClientId, other: ClientId, c: nat)
    requires TableOk(s)
    ensures var s' := DoAdd(s, id);
            Entry(other, c) in s'.entries <==> if other == id then c == |s.clients| else Entry(other, c) in s.entries
  {
    var s', i := DoAdd(s, id), Find(s.entries, id);
    assert s'.entries[i] == Entry(id, |s.clients|);
    if Entry(other, c) in s'.entries {
      var j :| 0 <= j < |s'.entries| && s'.entries[j] == Entry(other, c);
    }
    if Entry(other, c) in s.entries && other != id {
      var j :| 0 <= j < |s.entries| && s.entries[j] == Entry(other, c);
      assert s'.entries[j] == Entry(other, c);
    }
  }

  lemma VacatedExactly(s: Room, c: nat, other: ClientId, d: nat)
    requires Coherent(s) && Drained(s) && c < |s.clients|
    ensures Indexed(s)
    ensures Entry(other, d) in DoSocketClosed(s, c).entries <==>
              other != s.clients[c].id && Entry(other, d) in s.entries
  {
    SocketClosedShape(s, c);
    assert TableOk(s);
    hide Coherent, Drained, Indexed, DoSocketClosed, Departed, Shrinks;
    var i, now := Find(s.entries, s.clients[c].id), DoSocketClosed(s, c).entries;
    if Entry(other, d) in now {
      var j :| 0 <= j < |now| && now[j] == Entry(other, d);
    }
    if Entry(other, d) in s.entries && other != s.clients[c].id {
      var j :| 0 <= j < |s.entries| && s.entries[j] == Entry(other, d);
      assert now[j] == Entry(other, d);
    }
  }

  lemma {:induction false} ClientsAreAdded(es: seq<Event>)
    requires Possible(es)
    ensures |After(es).clients| == |Added(es)|
    ensures forall d :: 0 <= d < |After(es).clients| ==> After(es).clients[d].id == Added(es)[d]
  {
    if es != [] {
      var init, e := es[..|es| - 1], es[|es| - 1];
      ClientsAreAdded(init);
      if !e.Add? {
        StepIds(After(init), e);
        hide Step;
      }
      hide Coherent, Drained, Indexed, Named, Enabled;
    }
  }

  /** The clients are those added, in order, and the map of clients is told from the run. */
  lemma {:induction false} OccupantsExactly(es: seq<Event>, id: ClientId, c: nat)
    requires Possible(es)
    ensures var s := After(es);
            && |s.clients| == |Added(es)|
            && (forall d :: 0 <= d < |s.clients| ==> s.clients[d].id == Added(es)[d])
            && (Entry(id, c) in s.entries <==> Occupant(es, id) == Some(c))
  {
    ClientsAreAdded(es);
    if es != [] {
      var init, e := es[..|es| - 1], es[|es| - 1];
      OccupantsExactly(init, id, c);
      StepPresence(After(init), e, id, c);
      hide Coherent, Drained, Indexed, Named, Step, Added;
    }
  }

  /** A client comes in by being added and goes by a close under its id, and by nothing else. */
  lemma StepPresence(s: Room, e: Event, id: ClientId, c: nat)
    requires Coherent(s) && Drained(s) && Indexed(s) && Named(s) && Enabled(s, e)
    ensures var s' := Step(s, e);
            Entry(id, c) in s'.entries <==>
              match e
              case Add(i) => if i == id then c == |s.clients| else Entry(id, c) in s.entries
              case SocketClosed(d) => id != s.clients[d].id && Entry(id, c) in s.entries
              case _ => Entry(id, c) in s.entries
  {
    match e {
      case Add(i) => assert TableOk(s); hide Coherent, Drained, Indexed, Named; AddedExactly(s, i, id, c);
      case SocketClosed(d) => VacatedExactly(s, d, id, c); hide Coherent, Drained, Indexed, Named, DoSocketClosed;
      case _ => RoomServers.EntriesStay(s, e); hide Coherent, Drained, Indexed, Named, Step;
    }
  }

  // ---------- what the clients in it have ----------

  /** A client's capabilities are those it has sent. */
  lemma {:induction false} CapableExactly(es: seq<Event>, c: nat)
    requires Possible(es) && c < |After(es).clients|
    ensures After(es).clients[c].capable <==> Capabilities(c) in es
  {
    var init, e := es[..|es| - 1], es[|es| - 1];
    var s := After(init);
    assert es == init + [e];
    if c < |s.clients| {
      CapableExactly(init, c);
      if !e.Add? {
        StepIds(s, e);
        hide Coherent, Drained, Possible, Indexed, Named, Step;
      }
    } else {
      NotYet(init, c);
      if !e.Add? {
        StepIds(s, e);
      }
      hide Coherent, Drained, Possible, Indexed, Named;
    }
  }

  /** Nobody is heard of before being added. */
  lemma {:induction false} NotYet(es: seq<Event>, c: nat)
    requires Possible(es) && |After(es).clients| <= c
    ensures Capabilities(c) !in es
  {
    if es != [] {
      var init, e := es[..|es| - 1], es[|es| - 1];
      assert es == init + [e];
      if !e.Add? {
        StepIds(After(init), e);
      }
      NotYet(init, c);
    }
  }

  ghost predicate CurrentOnes(s: Room) {
    && (forall t :: 0 <= t < |s.transports| ==> s.transports[t].owner < |s.clients|)
    && (forall c :: 0 <= c < |s.clients| ==>
          && Current(s.clients[c].snd, s.transports, c, Producing)
          && Current(s.clients[c].rcv, s.transports, c, Consuming))
  }

  lemma SteadyCurrent(s: Room, s': Room)
    requires CurrentOnes(s) && Steady(s, s')
    ensures CurrentOnes(s')
  {
    forall c | 0 <= c < |s'.clients|
      ensures && Current(s'.clients[c].snd, s'.transports, c, Producing)
              && Current(s'.clients[c].rcv, s'.transports, c, Consuming)
    {
      assert SteadyClient(s.clients[c], s'.clients[c]);
    }
  }

  lemma OpenedCurrent(s: Room, h: nat)
    requires Coherent(s) && Indexed(s) && h in s.tasks && s.tasks[h].Opening? && CurrentOnes(s)
    ensures CurrentOnes(DoOpened(s, h))
  {
    OpenedShape(s, h);
    hide Coherent, DoOpened;
  }

  lemma AddedCurrent(s: Room, id: ClientId)
    requires CurrentOnes(s)
    ensures CurrentOnes(DoAdd(s, id))
  {
  }

  lemma StepCurrent(s: Room, e: Event)
    requires Coherent(s) && Drained(s) && Indexed(s) && Named(s) && Enabled(s, e) && CurrentOnes(s)
    ensures CurrentOnes(Step(s, e))
  {
    if e.Resumed? && s.tasks[e.task].Opening? {
      OpenedCurrent(s, e.task);
      hide Coherent, Drained, Indexed, Named, DoOpened, CurrentOnes;
    } else if e.Add? {
      AddedCurrent(s, e.id);
      hide Coherent, Drained, Indexed, Named, DoAdd, CurrentOnes;
    } else if e.Capabilities? {
      hide Coherent, Drained, Indexed, Named;
    } else {
      StepSteady(s, e);
      SteadyCurrent(s, Step(s, e));
      hide Coherent, Drained, Indexed, Named, Step, CurrentOnes, Steady;
    }
  }

  /** Each client's two current transports are the latest that were made for it in their roles. */
  lemma {:induction false} CurrentExactly(es: seq<Event>)
    requires Possible(es)
    ensures CurrentOnes(After(es))
  {
    if es != [] {
      CurrentExactly(es[..|es| - 1]);
      hide CurrentOnes, Step, Enabled;
      StepCurrent(After(es[..|es| - 1]), es[|es| - 1]);
    }
  }
}
