/**
 What a handler that aborts leaves undone stays undone: a client goes without a consumer of a
 producer until somebody of its id joins or somebody of the producer's id publishes.
 */
module RoomUnserved {
  import opened Base
  import opened RoomModel
  import opened RoomInvariant

  predicate Occupies(entries: seq<Entry>, i: int, c: nat) {
    0 <= i < |entries| && entries[i].Entry? && entries[i].client == c
  }

  /** The loop of handler `h`, from slot `cursor` on, comes to offering `q`'s producers to `c`. */
  ghost predicate ComesTo(s: Room, h: nat, cursor: nat, c: nat, q: nat)
    requires h < |s.handlers| && s.handlers[h].client < |s.clients| && c < |s.clients| && q < |s.clients|
  {
    var own := s.clients[s.handlers[h].client].id;
    if s.handlers[h].request.JoinCall?
    then own == s.clients[c].id && exists j :: cursor <= j && Occupies(s.entries, j, q)
    else own == s.clients[q].id && exists i :: cursor <= i && Occupies(s.entries, i, c)
  }

  /** Suspended handler `h` may still make `c` consume producer `p` of `q`. */
  ghost predicate MayServe(s: Room, h: nat, c: nat, q: nat, p: nat) {
    && h in s.tasks && h < |s.handlers| && s.handlers[h].client < |s.clients| && c < |s.clients| && q < |s.clients|
    && match s.tasks[h]
       case Between(cursor) => ComesTo(s, h, cursor, c, q)
       case Awaiting(cursor, prod, cons, k, _) =>
         || ComesTo(s, h, cursor, c, q)
         || (prod == q && cons == c && k <= |s.clients[q].producers.order| && p in s.clients[q].producers.order[k..])
       case _ => false
  }

  /** Client `c` holds no consumer of `q`'s producer `p`, and no suspended handler will see to it. */
  ghost predicate Neglected(s: Room, c: nat, q: nat, p: nat) {
    && c < |s.clients| && q < |s.clients| && p < |s.producers| && s.producers[p].owner == q
    && !Holds(s, c, p)
    && forall h: nat :: !MayServe(s, h, c, q, p)
  }

  /** The events that start a loop which may come to the pair. */
  predicate Revives(s: Room, e: Event, c: nat, q: nat)
    requires c < |s.clients| && q < |s.clients|
  {
    match e
    case AskJoin(d, _) => d < |s.clients| && s.clients[d].id == s.clients[c].id
    case Resumed(h) =>
      && h in s.tasks && s.tasks[h].Publishing? && h < |s.handlers| && s.handlers[h].client < |s.clients|
      && s.clients[s.handlers[h].client].id == s.clients[q].id
    case _ => false
  }

  // ---------- steps that leave the pair aside ----------

  /** Nothing about the pair changes but that things go away; only `h` may go on with a loop. */
  ghost predicate Aside(s: Room, s': Room, c: nat, q: nat, h: nat)
    requires c < |s.clients| && q < |s.clients|
  {
    && |s.clients| <= |s'.clients| && s.handlers <= s'.handlers
    && |s.consumers| <= |s'.consumers| && |s.producers| <= |s'.producers|
    && (forall d :: 0 <= d < |s.clients| ==> s'.clients[d].id == s.clients[d].id)
    && s'.clients[q].producers.order == s.clients[q].producers.order
    && s'.clients[c].consumers <= s.clients[c].consumers
    && (forall k :: 0 <= k < |s.consumers| ==> s'.consumers[k].info == s.consumers[k].info)
    && (forall p :: 0 <= p < |s.producers| ==> s'.producers[p].owner == s.producers[p].owner)
    && (forall i :: Occupies(s'.entries, i, c) ==> Occupies(s.entries, i, c))
    && (forall i :: Occupies(s'.entries, i, q) ==> Occupies(s.entries, i, q))
    && (forall g :: g in s'.tasks && g != h && (s'.tasks[g].Between? || s'.tasks[g].Awaiting?) ==>
          g in s.tasks && s.tasks[g] == s'.tasks[g])
  }

  lemma AsideComesTo(s: Room, s': Room, c: nat, q: nat, h: nat, g: nat, cursor: nat)
    requires c < |s.clients| && q < |s.clients| && Aside(s, s', c, q, h)
    requires g < |s.handlers| && s.handlers[g].client < |s.clients|
    ensures ComesTo(s', g, cursor, c, q) ==> ComesTo(s, g, cursor, c, q)
  {
  }

  lemma AsideNeglected(s: Room, s': Room, c: nat, q: nat, p: nat, h: nat)
    requires Coherent(s) && Neglected(s, c, q, p) && Aside(s, s', c, q, h) && !MayServe(s', h, c, q, p)
    ensures Neglected(s', c, q, p)
  {
    assert HoldingsOk(s.consumers, c, s.clients[c].consumers);
    assert forall g :: g in s.tasks ==> g < |s.handlers| && s.handlers[g].client < |s.clients|;
    hide Coherent;
    forall g: nat ensures !MayServe(s', g, c, q, p) {
      if g != h && g in s'.tasks && g in s.tasks {
        assert !MayServe(s, g, c, q, p);
        if s'.tasks[g].Between? || s'.tasks[g].Awaiting? {
          AsideComesTo(s, s', c, q, h, g, s'.tasks[g].cursor);
        }
      }
    }
  }

  /** Slots, clients and tasks after a step that runs no handler further. */
  lemma QuietIsAside(s: Room, e: Event, s': Room, c: nat, q: nat)
    requires Quiet(s, e, s') && c < |s.clients| && q < |s.clients|
    ensures Aside(s, s', c, q, |s.handlers|)
  {
    assert QuietClient(s.clients[c], s'.clients[c]) && QuietClient(s.clients[q], s'.clients[q]);
    forall i, d | (d == c || d == q) && Occupies(s'.entries, i, d) ensures Occupies(s.entries, i, d) {
      assert s.entries[i] == s'.entries[i];
    }
    forall g | g in s'.tasks && g != |s.handlers| ensures g in s.tasks && s.tasks[g] == s'.tasks[g] {
      assert QuietTask(s, s', g);
    }
    hide Occupies, QuietTask;
    assert forall d :: 0 <= d < |s.clients| ==> QuietClient(s.clients[d], s'.clients[d]);
  }

  lemma QuietAside(s: Room, e: Event, c: nat, q: nat)
    requires Indexed(s) && Named(s) && Enabled(s, e) && c < |s.clients| && q < |s.clients|
    requires !e.SocketClosed? && !e.Resumed? && !e.AskJoin?
    ensures Aside(s, Step(s, e), c, q, |s.handlers|)
    ensures |s.handlers| in Step(s, e).tasks ==>
              !Step(s, e).tasks[|s.handlers|].Between? && !Step(s, e).tasks[|s.handlers|].Awaiting?
  {
    assert |s.handlers| !in s.tasks;
    hide Step, Indexed, Named, Enabled, Aside, QuietClients, QuietMedia;
    QuietStep(s, e);
    QuietIsAside(s, e, Step(s, e), c, q);
  }

  lemma ClosedAside(s: Room, d: nat, c: nat, q: nat)
    requires Coherent(s) && Drained(s) && d < |s.clients| && c < |s.clients| && q < |s.clients|
    ensures Indexed(s) && Aside(s, DoSocketClosed(s, d), c, q, |s.handlers|)
    ensures |s.handlers| !in DoSocketClosed(s, d).tasks
  {
    SocketClosedShape(s, d);
    assert |s.handlers| !in s.tasks;
    hide Coherent, Drained, DoSocketClosed, Departed, Indexed, NobodyLeft, Shrinks, Aside;
    var s' := DoSocketClosed(s, d);
    VacatedAside(s, s', s.clients[d].id, s.clients[d := s.clients[d].(closed := true)], c, q);
  }

  /** Closing media after a slot was vacated. */
  lemma VacatedAside(s: Room, s': Room, id: ClientId, clients: seq<Client>, c: nat, q: nat)
    requires c < |s.clients| && q < |s.clients| && |clients| == |s.clients|
    requires forall d :: 0 <= d < |s.clients| ==>
               clients[d] == s.clients[d] || clients[d] == s.clients[d].(closed := true)
    requires var i := Find(s.entries, id); s'.entries == if i < |s.entries| then s.entries[i := Gone] else s.entries
    requires Shrinks(s.(entries := s'.entries, routerClosed := s'.routerClosed, closings := s'.closings,
             clients := clients), s')
    ensures Aside(s, s', c, q, |s.handlers|)
  {
    assert ClientShrinks(clients[c], s'.clients[c]) && ClientShrinks(clients[q], s'.clients[q]);
  }

  // ---------- loops ----------

  /** A loop that does not come to the pair from its cursor on does not serve it. */
  lemma AdvancePasses(s: Room, h: nat, cursor: nat, c: nat, q: nat, p: nat)
    requires Coherent(s) && Indexed(s) && h < |s.handlers| && cursor <= |s.entries|
    requires c < |s.clients| && q < |s.clients| && !ComesTo(s, h, cursor, c, q)
    ensures Aside(s, Advance(s, h, cursor), c, q, h) && !MayServe(Advance(s, h, cursor), h, c, q, p)
  {
    var own := s.clients[s.handlers[h].client].id;
    var i := NextEntry(s.entries, own, cursor);
    if i < |s.entries| {
      assert !ComesTo(s, h, i, c, q) && !ComesTo(s, h, i + 1, c, q);
      VisitPasses(s, h, i, c, q);
      hide Coherent, Visit, Indexed, ComesTo;
      SuspendAside(s, h, Visit(s, h, i), c, q, p);
    } else {
      hide Coherent, Visit, Indexed;
    }
  }

  lemma SuspendAside(s: Room, h: nat, task: Task, c: nat, q: nat, p: nat)
    requires h < |s.handlers| && s.handlers[h].client < |s.clients| && c < |s.clients| && q < |s.clients|
    requires (task.Between? || task.Awaiting?) && !ComesTo(s, h, task.cursor, c, q)
    requires task.Awaiting? ==> !(task.prod == q && task.cons == c)
    ensures Aside(s, Suspend(s, h, task), c, q, h) && !MayServe(Suspend(s, h, task), h, c, q, p)
  {
  }

  /** Where the visit of slot `i` is suspended, and for whom. */
  lemma VisitPasses(s: Room, h: nat, i: nat, c: nat, q: nat)
    requires Coherent(s) && Indexed(s) && h < |s.handlers| && i < |s.entries| && s.entries[i].Entry?
    requires c < |s.clients| && q < |s.clients| && !ComesTo(s, h, i, c, q)
    ensures var task := Visit(s, h, i);
            && (task.Between? || task.Awaiting?) && task.cursor == i + 1
            && (task.Awaiting? ==> !(task.prod == q && task.cons == c))
  {
    assert Distinct(s.entries) && forall j :: 0 <= j < |s.entries| ==> EntryOk(s.clients, s.entries[j]);
    hide Coherent;
    var self := Find(s.entries, s.clients[s.handlers[h].client].id);
    var other := Find(s.entries, s.entries[i].id);
    assert other == i;
    assert Occupies(s.entries, i, s.entries[i].client);
    if self < |s.entries| {
      assert s.clients[s.entries[self].client].id == s.clients[s.handlers[h].client].id;
    }
  }

  /** A join by somebody of another id. */
  lemma JoinPasses(s: Room, d: nat, id: RequestId, c: nat, q: nat, p: nat)
    requires Coherent(s) && Indexed(s) && d < |s.clients| && Neglected(s, c, q, p) && s.clients[d].id != s.clients[c].id
    ensures Neglected(DoAskJoin(s, d, id), c, q, p)
  {
    JoiningOk(s, d, id);
    var s1 := Joining(s, d, id);
    assert |s.handlers| !in s.tasks;
    assert Aside(s, s1, c, q, |s.handlers|)
        && !MayServe(s1, |s.handlers|, c, q, p) by { hide Coherent, Indexed, Neglected; }
    hide Indexed, Aside;
    AsideNeglected(s, s1, c, q, p, |s.handlers|);
    hide Coherent, Neglected, Advance;
    AdvancePasses(s1, |s.handlers|, 0, c, q, p);
    AsideNeglected(s1, DoAskJoin(s, d, id), c, q, p, |s.handlers|);
  }

  lemma RegisterAside(s: Room, h: nat, c: nat, q: nat)
    requires Indexed(s) && h in s.tasks && s.tasks[h].Publishing? && c < |s.clients| && q < |s.clients|
    requires s.handlers[h].client != q
    ensures var s1 := Register(s, h);
            Aside(s, s1, c, q, h) && s1.tasks == s.tasks && s1.handlers == s.handlers
  {
    var s1 := Register(s, h);
    assert s1.tasks == s.tasks && s1.entries == s.entries && s1.handlers == s.handlers && s1.consumers == s.consumers
           && s.producers <= s1.producers && |s1.clients| == |s.clients|
           && s1.clients[q].producers == s.clients[q].producers;
    assert forall d :: 0 <= d < |s.clients| ==>
             s1.clients[d].id == s.clients[d].id && s1.clients[d].consumers == s.clients[d].consumers;
    hide Register, Indexed;
  }

  /** A registration by somebody of another id. */
  lemma RegisterPasses(s: Room, h: nat, c: nat, q: nat, p: nat)
    requires Coherent(s) && Indexed(s) && h in s.tasks && s.tasks[h].Publishing? && Neglected(s, c, q, p)
    requires h < |s.handlers| && s.clients[s.handlers[h].client].id != s.clients[q].id
    ensures Neglected(DoProduced(s, h), c, q, p)
  {
    RegisterOk(s, h);
    var s1 := Register(s, h);
    CoherentIsIndexed(s1);
    assert s.handlers[h].request.CreateProducer?;
    hide Indexed, Register, Advance;
    RegisterAside(s, h, c, q);
    assert s1.clients[s1.handlers[h].client].id != s1.clients[q].id;
    assert !ComesTo(s1, h, 0, c, q) && !MayServe(s1, h, c, q, p);
    hide Coherent, Neglected, Aside, MayServe, ComesTo;
    AsideNeglected(s, s1, c, q, p, h);
    AdvancePasses(s1, h, 0, c, q, p);
    AsideNeglected(s1, DoProduced(s, h), c, q, p, h);
  }

  /** A resolved `consume` of another pair. */
  lemma HoldPasses(s: Room, h: nat, c: nat, q: nat, p: nat)
    requires Coherent(s) && Indexed(s) && Named(s) && h in s.tasks && s.tasks[h].Awaiting? && Neglected(s, c, q, p)
    ensures Neglected(Hold(s, h), c, q, p)
  {
    var s1, task := Hold(s, h), s.tasks[h];
    assert h < |s.handlers|;
    assert RegistryOk(s.producers, task.prod, s.clients[task.prod].producers);
    assert HoldingsOk(s.consumers, c, s.clients[c].consumers);
    assert !MayServe(s, h, c, q, p);
    hide Coherent;
    var p1 := s.clients[task.prod].producers.order[task.k];
    assert task.cons == c ==> p1 != p by {
      if task.prod == q {
        assert p1 == s.clients[q].producers.order[task.k..][0];
      }
    }
    HoldAdds(s, h, c, p);
    HoldServes(s, h, c, q, p);
    hide Hold, MayServe, Indexed, Named, Holds;
    forall g: nat ensures !MayServe(s1, g, c, q, p) {
      assert !MayServe(s, g, c, q, p);
    }
  }

  lemma HoldServes(s: Room, h: nat, c: nat, q: nat, p: nat)
    requires Indexed(s) && Named(s) && h in s.tasks && s.tasks[h].Awaiting? && c < |s.clients| && q < |s.clients|
    requires p < |s.producers|
    ensures var s1 := Hold(s, h);
            && |s1.clients| == |s.clients| && |s.producers| == |s1.producers| && s1.producers[p] == s.producers[p]
            && forall g: nat :: MayServe(s1, g, c, q, p) <==> MayServe(s, g, c, q, p)
  {
    var s1 := Hold(s, h);
    assert s1.tasks == s.tasks && s1.handlers == s.handlers && s1.entries == s.entries && s1.producers == s.producers
           && |s1.clients| == |s.clients| && s1.clients[q].producers == s.clients[q].producers
           && forall d :: 0 <= d < |s.clients| ==> s1.clients[d].id == s.clients[d].id;
    hide Hold, Indexed, Named;
  }

  lemma HoldAdds(s: Room, h: nat, c: nat, p: nat)
    requires Indexed(s) && Named(s) && h in s.tasks && s.tasks[h].Awaiting? && c < |s.clients|
    requires HoldingsOk(s.consumers, c, s.clients[c].consumers)
    requires s.tasks[h].cons == c ==> s.clients[s.tasks[h].prod].producers.order[s.tasks[h].k] != p
    ensures Holds(Hold(s, h), c, p) ==> Holds(s, c, p)
  {
  }

  lemma ConsumedPasses(s: Room, h: nat, c: nat, q: nat, p: nat)
    requires Coherent(s) && Indexed(s) && Named(s) && h in s.tasks && s.tasks[h].Awaiting? && Neglected(s, c, q, p)
    ensures Neglected(DoConsumed(s, h), c, q, p)
  {
    hide Hold, ConsumeFrom, Neglected, Aside, MayServe;
    HoldPasses(s, h, c, q, p);
    HoldOk(s, h);
    HoldFrame(s, h);
    var s1 := Hold(s, h);
    CoherentIsIndexed(s1);
    NotByOne(s1, h, c, q, p);
    hide Coherent, Named;
    GoOn(s1, h, c, q, p);
    AsideNeglected(s1, DoConsumed(s, h), c, q, p, h);
  }

  lemma NotByOne(s: Room, h: nat, c: nat, q: nat, p: nat)
    requires Neglected(s, c, q, p)
    ensures c < |s.clients| && q < |s.clients| && !MayServe(s, h, c, q, p)
  {
  }

  lemma HoldFrame(s: Room, h: nat)
    requires Indexed(s) && Named(s) && h in s.tasks && s.tasks[h].Awaiting?
    ensures var s1 := Hold(s, h);
            && s1.tasks == s.tasks && s1.handlers == s.handlers && |s1.clients| == |s.clients|
            && forall d :: 0 <= d < |s.clients| ==> s1.clients[d].producers == s.clients[d].producers
  {
  }

  /** The inner loop goes on with later producers of the same client only. */
  lemma GoOn(s: Room, h: nat, c: nat, q: nat, p: nat)
    requires Indexed(s) && h in s.tasks && s.tasks[h].Awaiting? && c < |s.clients| && q < |s.clients|
    requires !MayServe(s, h, c, q, p)
    ensures var task := s.tasks[h];
            var s' := Suspend(s, h, ConsumeFrom(s, task.cursor, task.prod, task.cons, task.k + 1));
            Aside(s, s', c, q, h) && !MayServe(s', h, c, q, p)
  {
    var task := s.tasks[h];
    var order := s.clients[task.prod].producers.order;
    var r := NextProducer(s.consumers, s.clients[task.prod].producers, s.clients[task.cons], task.k + 1);
    assert forall x :: x in order[r..] ==> x in order[task.k..] by {
      assert order[r..] == order[task.k..][r - task.k..];
    }
    hide NextProducer;
  }

  /** Only the transports and logs change, and one task ends. */
  ghost predicate Framed(s: Room, s': Room, h: nat) {
    && s'.tasks == s.tasks - {h} && s'.entries == s.entries && s'.handlers == s.handlers && s'.consumers == s.consumers
    && s'.producers == s.producers && |s'.clients| == |s.clients|
    && forall d :: 0 <= d < |s.clients| ==>
         && s'.clients[d].id == s.clients[d].id && s'.clients[d].producers == s.clients[d].producers
         && s'.clients[d].consumers == s.clients[d].consumers
  }

  lemma SettledFrame(s: Room, h: nat)
    requires Indexed(s) && Named(s) && h in s.tasks && (s.tasks[h].Opening? || s.tasks[h].Replying?)
    requires h < |s.handlers| && s.handlers[h].client < |s.clients|
    requires s.tasks[h].Opening? ==> s.handlers[h].request.CreateTransport?
    ensures Framed(s, DoResumed(s, h), h)
  {
    hide Indexed, Named;
  }

  lemma FrameAside(s: Room, s': Room, c: nat, q: nat, h: nat)
    requires Framed(s, s', h) && c < |s.clients| && q < |s.clients|
    ensures Aside(s, s', c, q, h) && h !in s'.tasks
  {
  }

  lemma SettledAside(s: Room, h: nat, c: nat, q: nat)
    requires Indexed(s) && Named(s) && h in s.tasks && (s.tasks[h].Opening? || s.tasks[h].Replying?)
    requires c < |s.clients| && q < |s.clients|
    ensures Aside(s, DoResumed(s, h), c, q, h) && h !in DoResumed(s, h).tasks
  {
    assert h < |s.handlers| && s.handlers[h].client < |s.clients|;
    assert s.tasks[h].Opening? ==> s.handlers[h].request.CreateTransport?;
    hide Indexed, Named, Aside;
    SettledFrame(s, h);
    hide DoResumed;
    FrameAside(s, DoResumed(s, h), c, q, h);
  }

  lemma SettledPasses(s: Room, h: nat, c: nat, q: nat, p: nat)
    requires Coherent(s) && Indexed(s) && Named(s) && h in s.tasks && Neglected(s, c, q, p)
    requires s.tasks[h].Opening? || s.tasks[h].Replying?
    ensures Neglected(DoResumed(s, h), c, q, p)
  {
    SettledAside(s, h, c, q);
    hide Aside, DoResumed, Indexed, Named;
    AsideNeglected(s, DoResumed(s, h), c, q, p, h);
  }

  lemma ResumedPasses(s: Room, h: nat, c: nat, q: nat, p: nat)
    requires Coherent(s) && Indexed(s) && Named(s) && h in s.tasks && Neglected(s, c, q, p)
    requires !Revives(s, Resumed(h), c, q)
    ensures Neglected(DoResumed(s, h), c, q, p)
  {
    assert h < |s.handlers| && s.handlers[h].client < |s.clients|;
    match s.tasks[h] {
      case Publishing(_) => hide Coherent, Neglected, Indexed, DoProduced; RegisterPasses(s, h, c, q, p);
      case Between(cursor) =>
        assert !MayServe(s, h, c, q, p) && cursor <= |s.entries|;
        hide Coherent, Neglected, Indexed, Advance, Aside;
        AdvancePasses(s, h, cursor, c, q, p);
        AsideNeglected(s, Advance(s, h, cursor), c, q, p, h);
      case Awaiting(_, _, _, _, _) => hide Coherent, Neglected, Indexed, DoConsumed; ConsumedPasses(s, h, c, q, p);
      case _ => SettledPasses(s, h, c, q, p);
    }
  }

  lemma StepNeglected(s: Room, e: Event, c: nat, q: nat, p: nat)
    requires Coherent(s) && Drained(s) && Indexed(s) && Named(s) && Enabled(s, e)
    requires Neglected(s, c, q, p) && !Revives(s, e, c, q)
    ensures Neglected(Step(s, e), c, q, p)
  {
    match e {
      case AskJoin(d, id) => hide Coherent, Drained, Indexed, Neglected, DoAskJoin; JoinPasses(s, d, id, c, q, p);
      case SocketClosed(d) =>
        hide Indexed, Aside, DoSocketClosed;
        ClosedAside(s, d, c, q);
        AsideNeglected(s, DoSocketClosed(s, d), c, q, p, |s.handlers|);
      case Resumed(h) => hide Coherent, Drained, Indexed, Neglected, DoResumed; ResumedPasses(s, h, c, q, p);
      case _ =>
        hide Coherent, Drained, Indexed, Named, Enabled, Aside, Step;
        QuietAside(s, e, c, q);
        AsideNeglected(s, Step(s, e), c, q, p, |s.handlers|);
    }
  }

  // ---------- runs ----------

  ghost predicate NotRevived(es: seq<Event>, e: Event, c: nat, q: nat) {
    Possible(es) && c < |After(es).clients| && q < |After(es).clients| ==> !Revives(After(es), e, c, q)
  }

  /**
   An unserved pair stays unserved.  If client `c` holds no consumer of `q`'s producer and no
   suspended handler will see to it, that is so in every continuation of the run, as long as
   nobody of `c`'s id asks to join and nothing is registered for anybody of `q`'s id.
   */
  lemma {:induction false} UnservedStays(es: seq<Event>, more: seq<Event>, c: nat, q: nat, p: nat)
    requires Possible(es) && Possible(es + more) && Neglected(After(es), c, q, p)
    requires forall n | 0 <= n < |more| :: NotRevived(es + more[..n], more[n], c, q)
    ensures Neglected(After(es + more), c, q, p)
    decreases |more|
  {
    hide Coherent, Drained, Indexed, Named, Enabled, Step;
    if more == [] {
      assert es + more == es;
    } else {
      var init, e := more[..|more| - 1], more[|more| - 1];
      assert (es + more)[..|es + more| - 1] == es + init;
      assert forall n :: 0 <= n < |init| ==> init[..n] == more[..n];
      UnservedStays(es, init, c, q, p);
      assert more[..|init|] == init;
      var s := After(es + init);
      assert NotRevived(es + init, e, c, q);
      hide Revives;
      assert !Revives(s, e, c, q);
      hide Neglected;
      StepNeglected(s, e, c, q, p);
    }
  }

  /** A handler whose `consume` rejects leaves a pair neglected if and only if no other
      suspended handler may still serve it. */
  lemma RejectionNeglects(s: Room, h: nat, c: nat, q: nat, p: nat)
    requires Indexed(s) && h in s.tasks && s.tasks[h].Awaiting?
    requires c < |s.clients| && q < |s.clients| && p < |s.producers| && s.producers[p].owner == q && !Holds(s, c, p)
    ensures Neglected(DoRejected(s, h), c, q, p) <==> forall g: nat :: g != h ==> !MayServe(s, g, c, q, p)
  {
    hide Abandoned, Indexed;
    var s' := DoRejected(s, h);
    forall g: nat ensures MayServe(s', g, c, q, p) <==> g != h && MayServe(s, g, c, q, p) {
    }
  }
}
