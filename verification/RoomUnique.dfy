/**
 Nobody consumes a producer twice, nor a producer of its own, as long as no two pending
 `consume` calls are for the same client and producer; and that condition is exact.
 */
module RoomUnique {
  import opened Base
  import opened RoomModel
  import opened RoomInvariant

  /** No client holds two consumers of one producer. */
  ghost predicate Unique(s: Room) {
    forall c :: 0 <= c < |s.clients| ==> OnePerProducer(s.consumers, s.clients[c].consumers)
  }

  ghost predicate OnePerProducer(consumers: seq<Consumer>, held: set<nat>) {
    forall j, k | j in held && k in held && j < |consumers| && k < |consumers|
      :: consumers[j].info.producer == consumers[k].info.producer ==> j == k
  }

  /** The producer a suspended handler is waiting to consume. */
  function Target(s: Room, h: nat): nat
    requires Indexed(s) && h in s.tasks && s.tasks[h].Awaiting?
  {
    s.clients[s.tasks[h].prod].producers.order[s.tasks[h].k]
  }

  /** No two handlers wait for the same client to consume the same producer. */
  ghost predicate NoRace(s: Room)
    requires Indexed(s)
  {
    forall g, h | g in s.tasks && h in s.tasks && s.tasks[g].Awaiting? && s.tasks[h].Awaiting?
      :: s.tasks[g].cons == s.tasks[h].cons && Target(s, g) == Target(s, h) ==> g == h
  }

  /** At most one `_consumeClient` run is suspended for each consuming client. */
  ghost predicate Serialised(s: Room) {
    forall g, h | g in s.tasks && h in s.tasks && s.tasks[g].Awaiting? && s.tasks[h].Awaiting?
      :: s.tasks[g].cons == s.tasks[h].cons ==> g == h
  }

  lemma SerialisedNoRace(s: Room)
    requires Indexed(s) && Serialised(s)
    ensures NoRace(s)
  {
  }

  /** What is being waited for is not held yet. */
  ghost predicate WaitsForNew(s: Room)
    requires Indexed(s)
  {
    forall h :: h in s.tasks && s.tasks[h].Awaiting? ==> !Holds(s, s.tasks[h].cons, Target(s, h))
  }

  /** Holdings at most shrink, tables keep what they said, and only `h` may start to wait. */
  ghost predicate Thins(s: Room, s': Room, h: nat) {
    && |s.clients| <= |s'.clients| && |s.consumers| <= |s'.consumers|
    && (forall c :: 0 <= c < |s.clients| ==>
          && s'.clients[c].consumers <= s.clients[c].consumers
          && s.clients[c].producers.order <= s'.clients[c].producers.order)
    && (forall c :: |s.clients| <= c < |s'.clients| ==> s'.clients[c].consumers == {})
    && (forall k :: 0 <= k < |s.consumers| ==> s'.consumers[k].info == s.consumers[k].info)
    && (forall g :: g in s'.tasks && g != h && s'.tasks[g].Awaiting? ==> g in s.tasks && s'.tasks[g] == s.tasks[g])
  }

  lemma ThinsUnique(s: Room, s': Room, h: nat)
    requires ClientsOk(s) && Unique(s) && Thins(s, s', h)
    ensures Unique(s')
  {
    forall c | 0 <= c < |s'.clients| ensures OnePerProducer(s'.consumers, s'.clients[c].consumers) {
      if c < |s.clients| {
        assert HoldingsOk(s.consumers, c, s.clients[c].consumers);
        assert OnePerProducer(s.consumers, s.clients[c].consumers);
      }
    }
  }

  lemma ThinsWaits(s: Room, s': Room, h: nat)
    requires Indexed(s) && Indexed(s') && ClientsOk(s) && WaitsForNew(s) && Thins(s, s', h)
    requires h in s'.tasks && s'.tasks[h].Awaiting? ==> !Holds(s', s'.tasks[h].cons, Target(s', h))
    ensures WaitsForNew(s')
  {
    forall g | g in s'.tasks && s'.tasks[g].Awaiting? && g != h
      ensures !Holds(s', s'.tasks[g].cons, Target(s', g))
    {
      assert !Holds(s, s.tasks[g].cons, Target(s, g));
      ThinsHolds(s, s', h, s.tasks[g].cons, Target(s, g));
    }
  }

  lemma ThinsHolds(s: Room, s': Room, h: nat, c: nat, p: nat)
    requires ClientsOk(s) && Thins(s, s', h) && c < |s.clients|
    ensures Holds(s', c, p) ==> Holds(s, c, p)
  {
    assert HoldingsOk(s.consumers, c, s.clients[c].consumers);
    if Holds(s', c, p) {
      var k :| k in s'.clients[c].consumers && k < |s'.consumers| && s'.consumers[k].info.producer == p;
      assert k in s.clients[c].consumers && s.consumers[k].info.producer == p;
    }
  }

  ghost predicate Single(s: Room)
    requires Indexed(s)
  {
    Unique(s) && WaitsForNew(s)
  }

  lemma Thinned(s: Room, s': Room, h: nat)
    requires Coherent(s) && Indexed(s) && Indexed(s') && Single(s) && Thins(s, s', h)
    requires h in s'.tasks && s'.tasks[h].Awaiting? ==> !Holds(s', s'.tasks[h].cons, Target(s', h))
    ensures Single(s')
  {
    hide ClientsOk, Unique, WaitsForNew, Thins;
    ThinsUnique(s, s', h);
    ThinsWaits(s, s', h);
  }

  // ---------- the loops wait only for what is not held ----------

  lemma FreshWait(s: Room, cursor: nat, prod: nat, cons: nat, k: nat)
    requires prod < |s.clients| && cons < |s.clients| && k <= |s.clients[prod].producers.order|
    ensures var task := ConsumeFrom(s, cursor, prod, cons, k);
            task.Awaiting? ==>
              && task.prod == prod && task.cons == cons && task.k < |s.clients[prod].producers.order|
              && !Holds(s, cons, s.clients[prod].producers.order[task.k])
  {
  }

  lemma VisitFresh(s: Room, h: nat, i: nat)
    requires TableOk(s) && h < |s.handlers| && s.handlers[h].client < |s.clients|
    requires i < |s.entries| && s.entries[i].Entry?
    ensures var task := Visit(s, h, i);
            task.Awaiting? ==>
              && task.prod < |s.clients| && task.cons < |s.clients|
              && task.k < |s.clients[task.prod].producers.order|
              && !Holds(s, task.cons, s.clients[task.prod].producers.order[task.k])
  {
    assert forall j :: 0 <= j < |s.entries| ==> EntryOk(s.clients, s.entries[j]);
  }

  lemma AdvanceThins(s: Room, h: nat, cursor: nat)
    requires Indexed(s) && h < |s.handlers| && cursor <= |s.entries|
    ensures Thins(s, Advance(s, h, cursor), h)
  {
  }

  lemma AdvanceSingle(s: Room, h: nat, cursor: nat)
    requires Coherent(s) && Indexed(s) && Single(s)
    requires h < |s.handlers| && Loops(s.handlers[h].request) && cursor <= |s.entries|
    ensures Indexed(Advance(s, h, cursor)) && Single(Advance(s, h, cursor))
  {
    AdvanceOk(s, h, cursor);
    var s' := Advance(s, h, cursor);
    CoherentIsIndexed(s');
    AdvanceThins(s, h, cursor);
    var i := NextEntry(s.entries, s.clients[s.handlers[h].client].id, cursor);
    if i < |s.entries| {
      VisitFresh(s, h, i);
    }
    hide Coherent, Single, Visit, Thins;
    assert i == |s.entries| ==> h !in s'.tasks;
    Thinned(s, s', h);
  }

  // ---------- a resolved consume ----------

  /** Without a race, the new consumer is the client's only one of that producer. */
  lemma HoldSingle(s: Room, h: nat)
    requires Coherent(s) && Indexed(s) && Named(s) && Single(s) && NoRace(s) && h in s.tasks && s.tasks[h].Awaiting?
    ensures Unique(Hold(s, h))
    ensures forall g :: g in s.tasks && g != h && s.tasks[g].Awaiting? ==>
              s.tasks[g].cons < |Hold(s, h).clients| && !Holds(Hold(s, h), s.tasks[g].cons, Target(s, g))
  {
    var s' := Hold(s, h);
    var c := s.tasks[h].cons;
    assert ClientsOk(s);
    hide Coherent;
    forall o | 0 <= o < |s'.clients| ensures OnePerProducer(s'.consumers, s'.clients[o].consumers) {
      assert HoldingsOk(s.consumers, o, s.clients[o].consumers);
      assert OnePerProducer(s.consumers, s.clients[o].consumers);
      assert !Holds(s, c, Target(s, h));
    }
    forall g | g in s.tasks && g != h && s.tasks[g].Awaiting?
      ensures !Holds(s', s.tasks[g].cons, Target(s, g))
    {
      HoldOther(s, h, g);
    }
  }

  lemma HoldAddsOne(s: Room, h: nat)
    requires Indexed(s) && Named(s) && h in s.tasks && s.tasks[h].Awaiting?
    ensures var s', n := Hold(s, h), |s.consumers|;
            && |s'.clients| == |s.clients| && |s'.consumers| == n + 1
            && (forall k :: 0 <= k < n ==> s'.consumers[k] == s.consumers[k])
            && s'.consumers[n].info.producer == Target(s, h)
            && forall c :: 0 <= c < |s.clients| ==>
                 s'.clients[c].consumers == if c == s.tasks[h].cons then s.clients[c].consumers + {n}
                     else s.clients[c].consumers
  {
  }

  lemma HoldOther(s: Room, h: nat, g: nat)
    requires ClientsOk(s) && Indexed(s) && Named(s) && NoRace(s)
    requires h in s.tasks && s.tasks[h].Awaiting? && g in s.tasks && g != h && s.tasks[g].Awaiting?
    ensures Holds(Hold(s, h), s.tasks[g].cons, Target(s, g)) ==> Holds(s, s.tasks[g].cons, Target(s, g))
  {
    var s' := Hold(s, h);
    var c, p := s.tasks[g].cons, Target(s, g);
    assert HoldingsOk(s.consumers, c, s.clients[c].consumers);
    HoldAddsOne(s, h);
    assert s.tasks[h].cons == c ==> Target(s, h) != p;
    hide Indexed, Named, Hold, ClientsOk, NoRace, Target, HoldingsOk;
    if Holds(s', c, p) {
      var k :| k in s'.clients[c].consumers && k < |s'.consumers| && s'.consumers[k].info.producer == p;
      assert k < |s.consumers| ==> s'.consumers[k] == s.consumers[k] && k in s.clients[c].consumers;
    }
  }

  /** The inner loop goes on: what it waits for next is not held, like what others wait for. */
  lemma GoOnSingle(s: Room, s1: Room, h: nat, task: Task)
    requires Indexed(s) && Unique(s1) && s1.tasks == s.tasks && |s1.clients| == |s.clients|
    requires forall c :: 0 <= c < |s.clients| ==> s1.clients[c].producers == s.clients[c].producers
    requires forall g :: g in s.tasks && g != h && s.tasks[g].Awaiting? ==>
               s.tasks[g].cons < |s1.clients| && !Holds(s1, s.tasks[g].cons, Target(s, g))
    requires Indexed(Suspend(s1, h, task))
    requires task.Awaiting? ==>
               task.prod < |s1.clients| && task.cons < |s1.clients| && task.k < |s1.clients[task.prod].producers.order|
               && !Holds(s1, task.cons, s1.clients[task.prod].producers.order[task.k])
    ensures Single(Suspend(s1, h, task))
  {
    var s' := Suspend(s1, h, task);
    assert Unique(s') by { hide Indexed; }
    hide Unique;
    forall g | g in s'.tasks && s'.tasks[g].Awaiting? ensures !Holds(s', s'.tasks[g].cons, Target(s', g)) {
      if g != h {
        assert s'.tasks[g] == s.tasks[g] && Target(s', g) == Target(s, g);
      }
    }
  }

  lemma ConsumedSingle(s: Room, h: nat)
    requires Coherent(s) && Indexed(s) && Named(s) && Single(s) && NoRace(s) && h in s.tasks && s.tasks[h].Awaiting?
    ensures Indexed(DoConsumed(s, h)) && Single(DoConsumed(s, h))
  {
    hide Single, NoRace, Hold, ConsumeFrom;
    ConsumedOk(s, h);
    var s' := DoConsumed(s, h);
    CoherentIsIndexed(s');
    HoldSingle(s, h);
    HoldShape(s, h);
    var task := s.tasks[h];
    FreshWait(Hold(s, h), task.cursor, task.prod, task.cons, task.k + 1);
    hide Coherent, Named;
    GoOnSingle(s, Hold(s, h), h, ConsumeFrom(Hold(s, h), task.cursor, task.prod, task.cons, task.k + 1));
  }

  lemma HoldShape(s: Room, h: nat)
    requires Indexed(s) && Named(s) && h in s.tasks && s.tasks[h].Awaiting?
    ensures var s1 := Hold(s, h);
            && |s1.clients| == |s.clients| && s1.tasks == s.tasks
            && forall c :: 0 <= c < |s.clients| ==> s1.clients[c].producers == s.clients[c].producers
  {
  }

  // ---------- all steps ----------

  lemma ThinsTrans(a: Room, b: Room, c: Room, h: nat)
    requires Thins(a, b, h) && Thins(b, c, h)
    requires h !in b.tasks && h !in c.tasks && h !in a.tasks
    ensures Thins(a, c, h)
  {
  }

  lemma DepartedThins(s: Room, c: nat, h: nat)
    requires Coherent(s) && Drained(s) && c < |s.clients|
    ensures Indexed(s) && Thins(s, Departed(s, c), h) && Departed(s, c).tasks == s.tasks
  {
    hide Coherent, Drained, Departed;
    DepartedShape(s, c);
  }

  lemma CloseRoomThins(s: Room, h: nat)
    requires Coherent(s) && Drained(s)
    ensures Owned(s) && Thins(s, CloseRoom(s), h) && CloseRoom(s).tasks == s.tasks
  {
    CoherentIsIndexed(s);
    CloseRoomOk(s);
    hide Coherent, Drained, Indexed, Named;
    if !s.routerClosed {
      hide CloseRoom;
    }
  }

  lemma ClosedThins(s: Room, c: nat, h: nat)
    requires Coherent(s) && Drained(s) && c < |s.clients| && h !in s.tasks
    ensures Indexed(s) && Thins(s, DoSocketClosed(s, c), h)
  {
    DepartedThins(s, c, h);
    DepartedOk(s, c);
    hide Coherent, Drained, Thins, CloseRoom;
    CloseRoomThins(Departed(s, c), h);
    if NobodyLeft(Departed(s, c).entries) {
      ThinsTrans(s, Departed(s, c), CloseRoom(Departed(s, c)), h);
    }
  }

  lemma QuietIsThin(s: Room, e: Event, s': Room)
    requires Quiet(s, e, s')
    ensures Thins(s, s', |s.handlers|)
  {
    forall g | g in s'.tasks && g != |s.handlers| && s'.tasks[g].Awaiting?
      ensures g in s.tasks && s'.tasks[g] == s.tasks[g]
    {
      assert QuietTask(s, s', g);
    }
    hide QuietTask;
    forall c | 0 <= c < |s.clients|
      ensures s'.clients[c].consumers <= s.clients[c].consumers
              && s.clients[c].producers.order <= s'.clients[c].producers.order
    {
      assert QuietClient(s.clients[c], s'.clients[c]);
    }
  }

  /** Steps other than a resolved `consume` only ever thin out. */
  lemma QuietThins(s: Room, e: Event)
    requires Indexed(s) && Named(s) && Enabled(s, e)
    requires !e.SocketClosed? && !e.Resumed? && !e.AskJoin?
    ensures Thins(s, Step(s, e), |s.handlers|)
    ensures |s.handlers| in Step(s, e).tasks ==> !Step(s, e).tasks[|s.handlers|].Awaiting?
  {
    assert |s.handlers| !in s.tasks;
    hide Step, Indexed, Named, Enabled, Thins, QuietClients, QuietMedia;
    QuietStep(s, e);
    QuietIsThin(s, e, Step(s, e));
  }

  lemma QuietSingle(s: Room, e: Event)
    requires Coherent(s) && Drained(s) && Indexed(s) && Named(s) && Single(s) && Enabled(s, e)
    requires !e.SocketClosed? && !e.Resumed? && !e.AskJoin?
    ensures Indexed(Step(s, e)) && Single(Step(s, e))
  {
    StepCoherent(s, e);
    CoherentIsIndexed(Step(s, e));
    QuietThins(s, e);
    hide Coherent, Drained, Single, Thins, Step, Enabled, Named, Indexed;
    Thinned(s, Step(s, e), |s.handlers|);
  }

  lemma SocketClosedSingle(s: Room, c: nat)
    requires Coherent(s) && Drained(s) && Indexed(s) && Single(s) && c < |s.clients|
    ensures Indexed(DoSocketClosed(s, c)) && Single(DoSocketClosed(s, c))
  {
    SocketClosedOk(s, c);
    SocketClosedShape(s, c);
    CoherentIsIndexed(DoSocketClosed(s, c));
    assert |s.handlers| !in s.tasks by { hide Coherent, Drained; }
    ClosedThins(s, c, |s.handlers|);
    hide Coherent, Drained, Single, Thins, DoSocketClosed, Departed;
    Thinned(s, DoSocketClosed(s, c), |s.handlers|);
  }

  lemma JoiningThins(s: Room, c: nat, id: RequestId)
    requires Indexed(s) && c < |s.clients|
    ensures Thins(s, Joining(s, c, id), |s.handlers|) && |s.handlers| !in Joining(s, c, id).tasks
  {
  }

  lemma JoinSingle(s: Room, c: nat, id: RequestId)
    requires Coherent(s) && Indexed(s) && Single(s) && c < |s.clients|
    ensures Indexed(DoAskJoin(s, c, id)) && Single(DoAskJoin(s, c, id))
  {
    JoiningOk(s, c, id);
    JoiningThins(s, c, id);
    hide Coherent, Single, Thins, Advance;
    Thinned(s, Joining(s, c, id), |s.handlers|);
    AdvanceSingle(Joining(s, c, id), |s.handlers|, 0);
  }

  lemma RegisterThins(s: Room, h: nat)
    requires Indexed(s) && h in s.tasks && s.tasks[h].Publishing?
    ensures Thins(s, Register(s, h), h) && Register(s, h).tasks == s.tasks
  {
  }

  lemma ProducedSingle(s: Room, h: nat)
    requires Coherent(s) && Indexed(s) && Single(s) && h in s.tasks && s.tasks[h].Publishing?
    ensures Indexed(DoProduced(s, h)) && Single(DoProduced(s, h))
  {
    RegisterOk(s, h);
    CoherentIsIndexed(Register(s, h));
    RegisterThins(s, h);
    assert Loops(s.handlers[h].request) && Register(s, h).handlers == s.handlers by { hide Coherent; }
    hide Coherent, Single, Thins, Advance, Register;
    Thinned(s, Register(s, h), h);
    AdvanceSingle(Register(s, h), h, 0);
  }

  lemma SettledThins(s: Room, h: nat)
    requires Indexed(s) && Named(s) && h in s.tasks && (s.tasks[h].Opening? || s.tasks[h].Replying?)
    ensures Thins(s, DoResumed(s, h), h) && h !in DoResumed(s, h).tasks
  {
  }

  lemma ResumedSingle(s: Room, h: nat)
    requires Coherent(s) && Indexed(s) && Named(s) && Single(s) && NoRace(s) && h in s.tasks
    ensures Indexed(DoResumed(s, h)) && Single(DoResumed(s, h))
  {
    ResumedOk(s, h);
    CoherentIsIndexed(DoResumed(s, h));
    match s.tasks[h] {
      case Publishing(_) => ProducedSingle(s, h);
      case Between(cursor) =>
        assert Loops(s.handlers[h].request);
        AdvanceSingle(s, h, cursor);
      case Awaiting(_, _, _, _, _) => ConsumedSingle(s, h);
      case _ =>
        SettledThins(s, h);
        hide Coherent, Single, NoRace, DoResumed, Indexed, Named, Thins;
        Thinned(s, DoResumed(s, h), h);
    }
  }

  lemma StepSingle(s: Room, e: Event)
    requires Coherent(s) && Drained(s) && Indexed(s) && Named(s) && Single(s) && NoRace(s) && Enabled(s, e)
    ensures Indexed(Step(s, e)) && Single(Step(s, e))
  {
    match e {
      case AskJoin(c, id) => JoinSingle(s, c, id);
      case SocketClosed(c) => SocketClosedSingle(s, c);
      case Resumed(h) => ResumedSingle(s, h);
      case _ => QuietSingle(s, e);
    }
  }

  /** Uniqueness: a run without races never gives a client two consumers of one producer. */
  lemma {:induction false} UniqueWithoutRaces(es: seq<Event>)
    requires Possible(es)
    requires forall n :: 0 <= n < |es| && Possible(es[..n]) ==> NoRace(After(es[..n]))
    ensures Single(After(es))
    decreases |es|
  {
    if es != [] {
      var init := es[..|es| - 1];
      assert forall n :: 0 <= n < |init| ==> init[..n] == es[..n];
      UniqueWithoutRaces(init);
      StepSingle(After(init), es[|es| - 1]);
    }
  }

  /** In particular, serialised `_consumeClient` runs are enough. */
  lemma UniqueWhenSerialised(es: seq<Event>)
    requires Possible(es)
    requires forall n :: 0 <= n < |es| && Possible(es[..n]) ==> Serialised(After(es[..n]))
    ensures Unique(After(es))
  {
    forall n | 0 <= n < |es| && Possible(es[..n]) ensures NoRace(After(es[..n])) {
      SerialisedNoRace(After(es[..n]));
    }
    UniqueWithoutRaces(es);
  }

  /** A resolved `consume` adds one consumer of the awaited producer and lets others wait on. */
  ghost predicate Adds(s: Room, s': Room, h: nat)
    requires Indexed(s) && h in s.tasks && s.tasks[h].Awaiting?
  {
    var c := s.tasks[h].cons;
    var n := |s.consumers|;
    && |s'.clients| == |s.clients| && |s'.consumers| == n + 1 && s'.transports == s.transports
    && s'.clients[c].consumers == s.clients[c].consumers + {n}
    && s'.consumers[..n] == s.consumers && s'.consumers[n].info.producer == Target(s, h)
    && (forall o :: 0 <= o < |s.clients| ==> s'.clients[o].producers == s.clients[o].producers)
    && (forall g :: g in s.tasks && g != h ==> g in s'.tasks && s'.tasks[g] == s.tasks[g])
  }

  lemma ConsumedAdds(s: Room, h: nat)
    requires Indexed(s) && Named(s) && h in s.tasks && s.tasks[h].Awaiting?
    requires Indexed(Hold(s, h))
    ensures Adds(s, DoConsumed(s, h), h)
  {
    hide ConsumeFrom;
  }

  lemma ConsumedStill(s: Room, h: nat)
    requires Coherent(s) && Indexed(s) && Named(s) && h in s.tasks && s.tasks[h].Awaiting?
    ensures Indexed(DoConsumed(s, h)) && Named(DoConsumed(s, h)) && Adds(s, DoConsumed(s, h), h)
  {
    HoldOk(s, h);
    ConsumedOk(s, h);
    hide Coherent;
    CoherentIsIndexed(DoConsumed(s, h));
    CoherentIsIndexed(Hold(s, h));
    hide Hold, DoConsumed;
    ConsumedAdds(s, h);
  }

  /** The condition is exact: a race, once both calls succeed, ends in a duplicate. */
  lemma RaceBreaksUniqueness(s: Room, g: nat, h: nat)
    requires Coherent(s) && Indexed(s) && Named(s) && g != h
    requires Enabled(s, Resumed(g)) && Enabled(s, Resumed(h)) && s.tasks[g].Awaiting? && s.tasks[h].Awaiting?
    requires s.tasks[g].cons == s.tasks[h].cons && Target(s, g) == Target(s, h)
    ensures var s1 := Step(s, Resumed(g));
            && Indexed(s1) && Named(s1) && Enabled(s1, Resumed(h))
            && !Unique(Step(s1, Resumed(h)))
  {
    hide Coherent, DoConsumed, Adds, Unique, Target;
    ConsumedStill(s, g);
    ConsumedOk(s, g);
    var s1 := DoConsumed(s, g);
    AddsKeeps(s, s1, g, h);
    ConsumedStill(s1, h);
    hide Named, Indexed;
    AddsTwice(s, s1, DoConsumed(s1, h), g, h);
  }

  lemma AddsKeeps(s: Room, s1: Room, g: nat, h: nat)
    requires Indexed(s) && Indexed(s1) && g in s.tasks && s.tasks[g].Awaiting? && Adds(s, s1, g)
    requires g != h && Enabled(s, Resumed(h)) && s.tasks[h].Awaiting?
    ensures Enabled(s1, Resumed(h)) && s1.tasks[h] == s.tasks[h] && Target(s1, h) == Target(s, h)
  {
  }

  lemma AddsTwice(s: Room, s1: Room, s2: Room, g: nat, h: nat)
    requires Indexed(s) && Indexed(s1)
    requires g in s.tasks && s.tasks[g].Awaiting? && Adds(s, s1, g)
    requires h in s.tasks && h in s1.tasks && s1.tasks[h] == s.tasks[h] && s.tasks[h].Awaiting? && Adds(s1, s2, h)
    requires s.tasks[g].cons == s.tasks[h].cons && Target(s1, h) == Target(s, g)
    ensures !Unique(s2)
  {
    var c := s.tasks[g].cons;
    var n := |s.consumers|;
    hide Indexed, Target;
    assert n in s2.clients[c].consumers && n + 1 in s2.clients[c].consumers;
    assert s2.consumers[n] == s2.consumers[..n + 1][n];
    assert !OnePerProducer(s2.consumers, s2.clients[c].consumers);
  }

  // ---------- nobody consumes itself ----------

  /** A consumer's producer belongs to a client with another id than its holder, and the
      consumer is announced under that id and the producer's kind. */
  ghost predicate NoSelf(s: Room) {
    forall k :: 0 <= k < |s.consumers| ==>
      && s.consumers[k].owner < |s.clients| && s.consumers[k].info.producer < |s.producers|
      && s.producers[s.consumers[k].info.producer].owner < |s.clients|
      && s.clients[s.consumers[k].owner].id != s.consumers[k].info.from
      && s.clients[s.producers[s.consumers[k].info.producer].owner].id == s.consumers[k].info.from
      && s.producers[s.consumers[k].info.producer].kind == s.consumers[k].info.kind
  }

  /** Who owns what, and under which id, never changes. */
  ghost predicate SameOwners(s: Room, s': Room) {
    && |s.clients| <= |s'.clients| && |s.producers| <= |s'.producers| && |s'.consumers| == |s.consumers|
    && (forall c :: 0 <= c < |s.clients| ==>
          && s'.clients[c].id == s.clients[c].id
          && (s.clients[c].capable ==> s'.clients[c].capable)
          && (s.clients[c].joinedReady ==> s'.clients[c].joinedReady))
    && (forall p :: 0 <= p < |s.producers| ==>
          s'.producers[p].owner == s.producers[p].owner && s'.producers[p].kind == s.producers[p].kind)
    && (forall k :: 0 <= k < |s.consumers| ==>
          s'.consumers[k].owner == s.consumers[k].owner && s'.consumers[k].info == s.consumers[k].info)
  }

  lemma OwnersNoSelf(s: Room, s': Room)
    requires NoSelf(s) && SameOwners(s, s')
    ensures NoSelf(s')
  {
  }

  lemma AdvanceOwners(s: Room, h: nat, cursor: nat)
    requires Indexed(s) && h < |s.handlers| && cursor <= |s.entries|
    ensures SameOwners(s, Advance(s, h, cursor))
  {
    hide Visit;
  }

  lemma QuietOwners(s: Room, e: Event)
    requires Indexed(s) && Named(s) && Enabled(s, e)
    requires !e.SocketClosed? && !e.Resumed? && !e.AskJoin?
    ensures SameOwners(s, Step(s, e))
  {
    hide Step, Indexed, Named, Enabled;
    QuietStep(s, e);
  }

  lemma OwnersTrans(a: Room, b: Room, c: Room)
    requires SameOwners(a, b) && SameOwners(b, c)
    ensures SameOwners(a, c)
  {
  }

  lemma DepartedOwners(s: Room, c: nat)
    requires Coherent(s) && Drained(s) && c < |s.clients|
    ensures Indexed(s) && SameOwners(s, Departed(s, c))
  {
    DepartedShape(s, c);
    hide Coherent, Drained, Departed;
  }

  lemma CloseRoomOwners(s: Room)
    requires Coherent(s) && Drained(s)
    ensures Owned(s) && SameOwners(s, CloseRoom(s))
  {
    CoherentIsIndexed(s);
    CloseRoomOk(s);
    hide Coherent, Drained, Indexed, Named;
    if !s.routerClosed {
      hide CloseRoom;
    }
  }

  lemma ClosedOwners(s: Room, c: nat)
    requires Coherent(s) && Drained(s) && c < |s.clients|
    ensures Indexed(s) && SameOwners(s, DoSocketClosed(s, c))
  {
    DepartedOwners(s, c);
    DepartedOk(s, c);
    hide Coherent, Drained, SameOwners, CloseRoom;
    CloseRoomOwners(Departed(s, c));
    if NobodyLeft(Departed(s, c).entries) {
      OwnersTrans(s, Departed(s, c), CloseRoom(Departed(s, c)));
    }
  }

  lemma JoinOwners(s: Room, c: nat, id: RequestId)
    requires Coherent(s) && Indexed(s) && c < |s.clients|
    ensures SameOwners(s, DoAskJoin(s, c, id))
  {
    JoiningOk(s, c, id);
    assert SameOwners(s, Joining(s, c, id)) by { hide Coherent, Indexed; }
    hide Coherent, Advance, SameOwners;
    AdvanceOwners(Joining(s, c, id), |s.handlers|, 0);
    OwnersTrans(s, Joining(s, c, id), DoAskJoin(s, c, id));
  }

  lemma RegisterOwners(s: Room, h: nat)
    requires Indexed(s) && h in s.tasks && s.tasks[h].Publishing?
    ensures SameOwners(s, Register(s, h)) && Register(s, h).handlers == s.handlers
  {
  }

  lemma ProducedOwners(s: Room, h: nat)
    requires Coherent(s) && Indexed(s) && h in s.tasks && s.tasks[h].Publishing?
    ensures SameOwners(s, DoProduced(s, h))
  {
    hide Register, Advance, SameOwners;
    RegisterOk(s, h);
    CoherentIsIndexed(Register(s, h));
    RegisterOwners(s, h);
    hide Coherent;
    AdvanceOwners(Register(s, h), h, 0);
    OwnersTrans(s, Register(s, h), DoProduced(s, h));
  }

  lemma ResumedOwners(s: Room, h: nat)
    requires Coherent(s) && Indexed(s) && Named(s) && h in s.tasks && !s.tasks[h].Awaiting?
    ensures SameOwners(s, DoResumed(s, h))
  {
    match s.tasks[h] {
      case Publishing(_) => hide Coherent, Indexed, DoProduced, SameOwners; ProducedOwners(s, h);
      case Between(cursor) => hide Coherent, Advance, SameOwners; AdvanceOwners(s, h, cursor);
      case _ => hide Coherent;
    }
  }

  lemma HoldNoSelf(s: Room, h: nat)
    requires Coherent(s) && Indexed(s) && Named(s) && NoSelf(s) && h in s.tasks && s.tasks[h].Awaiting?
    ensures NoSelf(Hold(s, h))
  {
    var task := s.tasks[h];
    hide TableOk, MediaOk;
    assert RegistryOk(s.producers, task.prod, s.clients[task.prod].producers);
    assert TaskOk(s, s.handlers[h], task);
    hide Coherent;
  }

  lemma StepNoSelf(s: Room, e: Event)
    requires Coherent(s) && Drained(s) && Indexed(s) && Named(s) && NoSelf(s) && Enabled(s, e)
    ensures NoSelf(Step(s, e))
  {
    match e {
      case AskJoin(c, id) =>
        JoinOwners(s, c, id);
        hide Coherent, Drained, SameOwners, NoSelf;
        OwnersNoSelf(s, Step(s, e));
      case SocketClosed(c) =>
        ClosedOwners(s, c);
        hide Coherent, Drained, SameOwners, NoSelf;
        OwnersNoSelf(s, Step(s, e));
      case Resumed(h) =>
        if s.tasks[h].Awaiting? {
          HoldNoSelf(s, h);
          hide Coherent, Drained, Hold, ConsumeFrom;
          OwnersNoSelf(Hold(s, h), DoConsumed(s, h));
        } else {
          ResumedOwners(s, h);
          hide Coherent, Drained, SameOwners, NoSelf, DoResumed;
          OwnersNoSelf(s, DoResumed(s, h));
        }
      case _ =>
        QuietOwners(s, e);
        hide Coherent, Drained, SameOwners, NoSelf, Step;
        OwnersNoSelf(s, Step(s, e));
    }
  }

  /** In no reachable state does a client consume a producer of its own id. */
  lemma {:induction false} NobodyConsumesItself(es: seq<Event>)
    requires Possible(es)
    ensures NoSelf(After(es))
    decreases |es|
  {
    if es != [] {
      NobodyConsumesItself(es[..|es| - 1]);
      StepNoSelf(After(es[..|es| - 1]), es[|es| - 1]);
    }
  }

  // ---------- repeating a join or a produce loop ----------

  /** Client `c` holds a consumer of every open producer of `q`. */
  ghost predicate Satisfied(s: Room, c: nat, q: nat)
    requires c < |s.clients| && q < |s.clients|
  {
    forall p :: p in s.clients[q].producers.present ==> Holds(s, c, p)
  }

  /** Handler `h` offers the producers of the client in slot `j` to the client in slot `i`:
      a join those of everybody else to its own client, a produce its client's to all others. */
  predicate Attends(s: Room, h: nat, i: nat, j: nat) {
    && h < |s.handlers| && s.handlers[h].client < |s.clients|
    && i < |s.entries| && j < |s.entries| && i != j && s.entries[i].Entry? && s.entries[j].Entry?
    && s.entries[if s.handlers[h].request.JoinCall? then i else j].id == s.clients[s.handlers[h].client].id
  }

  /** Nothing is left to do for any pair the handler attends to. */
  ghost predicate NothingToDo(s: Room, h: nat)
    requires Indexed(s)
  {
    forall i: nat, j: nat :: Attends(s, h, i, j) ==>
      || Satisfied(s, s.entries[i].client, s.entries[j].client)
      || !Ready(s.clients[s.entries[i].client])
  }

  /** Where a loop with nothing to do goes from slot `cursor`: to a later slot, or to its end,
      where a join is answered.  It waits for no `consume` and touches nothing but its task. */
  lemma RepeatIsIdempotent(s: Room, h: nat, cursor: nat)
    requires Coherent(s) && Indexed(s) && h < |s.handlers| && Loops(s.handlers[h].request) && cursor <= |s.entries|
    requires NothingToDo(s, h)
    ensures var i := NextEntry(s.entries, s.clients[s.handlers[h].client].id, cursor);
            Advance(s, h, cursor) ==
            if i < |s.entries| then Suspend(s, h, Between(i + 1))
            else if s.handlers[h].request.JoinCall? then Reply(s.(tasks := s.tasks - {h}), h)
            else s.(tasks := s.tasks - {h})
  {
    var i := NextEntry(s.entries, s.clients[s.handlers[h].client].id, cursor);
    if i < |s.entries| {
      VisitSettled(s, h, i);
    }
    hide Coherent, Visit, NothingToDo;
  }

  /** A visit with nothing to do ends at once. */
  lemma VisitSettled(s: Room, h: nat, i: nat)
    requires Coherent(s) && Indexed(s) && h < |s.handlers| && NothingToDo(s, h)
    requires i < |s.entries| && s.entries[i].Entry? && s.entries[i].id != s.clients[s.handlers[h].client].id
    ensures Visit(s, h, i) == Between(i + 1)
  {
    hide ClientsOk, MediaOk, TasksOk;
    var self := Find(s.entries, s.clients[s.handlers[h].client].id);
    assert Find(s.entries, s.entries[i].id) == i;
    if self < |s.entries| {
      assert Attends(s, h, self, i) || Attends(s, h, i, self);
    }
  }
}
