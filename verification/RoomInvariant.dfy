/** What every step of the room keeps, whatever the interleaving. */
module RoomInvariant {
  import opened Base
  import opened RoomModel

  /** A slot leads to a client of its id. */
  ghost predicate EntryOk(clients: seq<Client>, e: Entry) {
    e.Entry? ==> e.client < |clients| && clients[e.client].id == e.id
  }

  /** Live ids are distinct. */
  ghost predicate Distinct(entries: seq<Entry>) {
    forall i, j | 0 <= i < |entries| && 0 <= j < |entries| && entries[i].Entry? && entries[j].Entry?
      :: entries[i].id == entries[j].id ==> i == j
  }

  /** A client's producer map holds only open producers that it registered. */
  ghost predicate RegistryOk(producers: seq<Producer>, c: nat, reg: Registry) {
    && (forall m :: 0 <= m < |reg.order| ==> reg.order[m] < |producers| && producers[reg.order[m]].owner == c)
    && (forall p :: p in reg.present ==> p in reg.order && producers[p].open)
  }

  /** A client's consumer map holds only open consumers that were made for it. */
  ghost predicate HoldingsOk(consumers: seq<Consumer>, c: nat, held: set<nat>) {
    forall k :: k in held ==> k < |consumers| && consumers[k].owner == c && consumers[k].open
  }

  ghost predicate SideOk(transports: seq<Transport>, c: nat, t: nat, role: Role) {
    t < |transports| && transports[t].owner == c && transports[t].role == role
  }

  ghost predicate ClientOk(transports: seq<Transport>, c: nat, cl: Client) {
    && (cl.snd.Some? ==> SideOk(transports, c, cl.snd.value, Role.Producing))
    && (cl.rcv.Some? ==> SideOk(transports, c, cl.rcv.value, Role.Consuming))
    && (cl.joinedReady ==> Ready(cl))
  }

  /** An open producer is in its owner's map. */
  ghost predicate ProducerOk(clients: seq<Client>, transports: seq<Transport>, p: nat, pr: Producer) {
    && pr.owner < |clients|
    && SideOk(transports, pr.owner, pr.transport, Role.Producing)
    && (pr.open ==> p in clients[pr.owner].producers.present)
  }

  /** An open consumer is in its owner's map. */
  ghost predicate ConsumerOk(clients: seq<Client>, transports: seq<Transport>, count: nat, k: nat, co: Consumer) {
    && co.owner < |clients|
    && SideOk(transports, co.owner, co.transport, Role.Consuming)
    && co.info.producer < count
    && (co.open ==> k in clients[co.owner].consumers)
  }

  ghost predicate TaskOk(s: Room, handler: Handler, task: Task) {
    match task
    case Opening => handler.request.CreateTransport?
    case Publishing(t) =>
      handler.request.CreateProducer? && SideOk(s.transports, handler.client, t, Role.Producing)
    case Replying => handler.request.PauseProducer? || handler.request.ResumeProducer?
    case Between(cursor) => Loops(handler.request) && cursor <= |s.entries|
    case Awaiting(cursor, prod, cons, k, t) =>
      && Loops(handler.request) && cursor <= |s.entries|
      && prod < |s.clients| && cons < |s.clients|
      && s.clients[prod].id != s.clients[cons].id
      && k < |s.clients[prod].producers.order|
      && SideOk(s.transports, cons, t, Role.Consuming) && Ready(s.clients[cons])
  }

  ghost predicate TableOk(s: Room) {
    && Distinct(s.entries)
    && (forall i :: 0 <= i < |s.entries| ==> EntryOk(s.clients, s.entries[i]))
    && (forall t :: 0 <= t < |s.transports| ==> s.transports[t].owner < |s.clients|)
  }

  ghost predicate ClientsOk(s: Room) {
    forall c :: 0 <= c < |s.clients| ==>
      && ClientOk(s.transports, c, s.clients[c])
      && RegistryOk(s.producers, c, s.clients[c].producers)
      && HoldingsOk(s.consumers, c, s.clients[c].consumers)
  }

  ghost predicate MediaOk(s: Room) {
    && (forall p :: 0 <= p < |s.producers| ==> ProducerOk(s.clients, s.transports, p, s.producers[p]))
    && (forall k :: 0 <= k < |s.consumers| ==>
          ConsumerOk(s.clients, s.transports, |s.producers|, k, s.consumers[k]))
  }

  ghost predicate TasksOk(s: Room) {
    && (forall h :: 0 <= h < |s.handlers| ==> s.handlers[h].client < |s.clients|)
    && (forall h :: h in s.tasks ==> h < |s.handlers| && TaskOk(s, s.handlers[h], s.tasks[h]))
  }

  ghost predicate Coherent(s: Room) {
    TableOk(s) && ClientsOk(s) && MediaOk(s) && TasksOk(s)
  }

  predicate Loops(r: Request) {
    r.JoinCall? || r.CreateProducer?
  }

  lemma CoherentIsIndexed(s: Room)
    requires Coherent(s)
    ensures Indexed(s) && Named(s) && Owned(s)
  {
  }

  // ---------- closing cascades ----------

  /** Only the closing of media objects separates the two states. */
  ghost predicate Shrinks(s: Room, s': Room) {
    && s'.routerClosed == s.routerClosed && s'.closings == s.closings
    && s'.entries == s.entries && s'.handlers == s.handlers && s'.tasks == s.tasks && s'.lost == s.lost
    && |s'.clients| == |s.clients| && |s'.transports| == |s.transports|
    && |s'.producers| == |s.producers| && |s'.consumers| == |s.consumers|
    && (forall c :: 0 <= c < |s.clients| ==> ClientShrinks(s.clients[c], s'.clients[c]))
    && (forall t :: 0 <= t < |s.transports| ==>
          s'.transports[t] == s.transports[t] || s'.transports[t] == s.transports[t].(open := false))
    && (forall p :: 0 <= p < |s.producers| ==>
          s'.producers[p] == s.producers[p] || s'.producers[p] == s.producers[p].(open := false))
    && (forall k :: 0 <= k < |s.consumers| ==>
          s'.consumers[k] == s.consumers[k] || s'.consumers[k] == s.consumers[k].(open := false))
  }

  ghost predicate ClientShrinks(c: Client, c': Client) {
    && c'.id == c.id && c'.closed == c.closed && c'.capable == c.capable
    && c'.snd == c.snd && c'.rcv == c.rcv && c'.joinedReady == c.joinedReady
    && c'.producers.order == c.producers.order
    && c'.producers.present <= c.producers.present
    && c'.consumers <= c.consumers
  }

  lemma ShrinksTrans(a: Room, b: Room, c: Room)
    requires Shrinks(a, b) && Shrinks(b, c)
    ensures Shrinks(a, c)
  {
  }

  lemma CloseProducerShrinks(s: Room, p: nat)
    requires p < |s.producers| && s.producers[p].owner < |s.clients|
    ensures Shrinks(s, CloseProducer(s, p)) && |CloseProducer(s, p).producers| == |s.producers|
  {
  }

  lemma CloseConsumerShrinks(s: Room, k: nat)
    requires k < |s.consumers| && s.consumers[k].owner < |s.clients|
    ensures Shrinks(s, CloseConsumer(s, k)) && |CloseConsumer(s, k).consumers| == |s.consumers|
  {
  }

  lemma SayOk(s: Room, c: nat, m: Message)
    requires Coherent(s) && c < |s.clients|
    ensures Coherent(Say(s, c, m))
  {
    var s' := Say(s, c, m);
    assert TableOk(s') by { hide ClientsOk, MediaOk, TasksOk; }
    assert ClientsOk(s') by { hide TableOk, MediaOk, TasksOk; }
    assert MediaOk(s') by { hide TableOk, ClientsOk, TasksOk; }
    assert TasksOk(s') by { hide TableOk, ClientsOk, MediaOk; }
  }

  lemma CloseProducerTable(s: Room, p: nat)
    requires Coherent(s) && p < |s.producers| && s.producers[p].owner < |s.clients|
    ensures TableOk(CloseProducer(s, p))
  {
    hide ClientsOk, MediaOk, TasksOk;
  }

  lemma CloseProducerClients(s: Room, p: nat)
    requires Coherent(s) && p < |s.producers| && s.producers[p].owner < |s.clients|
    ensures ClientsOk(CloseProducer(s, p))
  {
    hide TableOk, MediaOk, TasksOk;
  }

  lemma CloseProducerMedia(s: Room, p: nat)
    requires Coherent(s) && p < |s.producers| && s.producers[p].owner < |s.clients|
    ensures MediaOk(CloseProducer(s, p))
  {
    hide TableOk, ClientsOk, TasksOk;
  }

  lemma CloseProducerTasks(s: Room, p: nat)
    requires Coherent(s) && p < |s.producers| && s.producers[p].owner < |s.clients|
    ensures TasksOk(CloseProducer(s, p))
  {
    hide TableOk, ClientsOk, MediaOk;
  }

  lemma CloseProducerCoherent(s: Room, p: nat)
    requires Coherent(s) && p < |s.producers|
    ensures Coherent(CloseProducer(s, p))
  {
    hide TableOk, ClientsOk, TasksOk;
    assert s.producers[p].owner < |s.clients|;
    hide MediaOk;
    CloseProducerTable(s, p);
    CloseProducerClients(s, p);
    CloseProducerMedia(s, p);
    CloseProducerTasks(s, p);
  }

  lemma CloseConsumerTable(s: Room, k: nat)
    requires Coherent(s) && k < |s.consumers| && s.consumers[k].owner < |s.clients|
    ensures TableOk(CloseConsumer(s, k))
  {
    hide ClientsOk, MediaOk, TasksOk;
  }

  lemma CloseConsumerClients(s: Room, k: nat)
    requires Coherent(s) && k < |s.consumers| && s.consumers[k].owner < |s.clients|
    ensures ClientsOk(CloseConsumer(s, k))
  {
    hide TableOk, MediaOk, TasksOk;
  }

  lemma CloseConsumerMedia(s: Room, k: nat)
    requires Coherent(s) && k < |s.consumers| && s.consumers[k].owner < |s.clients|
    ensures MediaOk(CloseConsumer(s, k))
  {
    hide TableOk, ClientsOk, TasksOk;
  }

  lemma CloseConsumerTasks(s: Room, k: nat)
    requires Coherent(s) && k < |s.consumers| && s.consumers[k].owner < |s.clients|
    ensures TasksOk(CloseConsumer(s, k))
  {
    hide TableOk, ClientsOk, MediaOk;
  }

  lemma CloseConsumerCoherent(s: Room, k: nat)
    requires Coherent(s) && k < |s.consumers|
    ensures Coherent(CloseConsumer(s, k))
  {
    hide TableOk, ClientsOk, TasksOk;
    assert s.consumers[k].owner < |s.clients|;
    hide MediaOk;
    CloseConsumerTable(s, k);
    CloseConsumerClients(s, k);
    CloseConsumerMedia(s, k);
    CloseConsumerTasks(s, k);
  }

  /** The producers on transport `t` from number `p` on are closed, the others untouched. */
  ghost predicate ProducersClosed(s: Room, s': Room, t: nat, p: nat) {
    && s'.consumers == s.consumers && s'.transports == s.transports && |s'.producers| == |s.producers|
    && forall q :: 0 <= q < |s.producers| ==>
         s'.producers[q] == s.producers[q].(open := s.producers[q].open && !(p <= q && s.producers[q].transport == t))
  }

  ghost predicate ConsumersClosed(s: Room, s': Room, t: nat, k: nat) {
    && s'.producers == s.producers && s'.transports == s.transports && |s'.consumers| == |s.consumers|
    && forall q :: 0 <= q < |s.consumers| ==>
         s'.consumers[q] == s.consumers[q].(open := s.consumers[q].open && !(k <= q && s.consumers[q].transport == t))
  }

  lemma ProducersClosedStep(s: Room, s': Room, t: nat, p: nat)
    requires p < |s.producers| && s.producers[p].owner < |s.clients| && s.producers[p].transport == t
    requires ProducersClosed(CloseProducer(s, p), s', t, p + 1)
    ensures ProducersClosed(s, s', t, p)
  {
  }

  lemma ConsumersClosedStep(s: Room, s': Room, t: nat, k: nat)
    requires k < |s.consumers| && s.consumers[k].owner < |s.clients| && s.consumers[k].transport == t
    requires ConsumersClosed(CloseConsumer(s, k), s', t, k + 1)
    ensures ConsumersClosed(s, s', t, k)
  {
  }

  lemma ProducersClosedSkip(s: Room, s': Room, t: nat, p: nat)
    requires p < |s.producers| && !(s.producers[p].open && s.producers[p].transport == t)
    requires ProducersClosed(s, s', t, p + 1)
    ensures ProducersClosed(s, s', t, p)
  {
  }

  lemma ConsumersClosedSkip(s: Room, s': Room, t: nat, k: nat)
    requires k < |s.consumers| && !(s.consumers[k].open && s.consumers[k].transport == t)
    requires ConsumersClosed(s, s', t, k + 1)
    ensures ConsumersClosed(s, s', t, k)
  {
  }

  lemma ProducersClosedEnd(s: Room, t: nat)
    ensures ProducersClosed(s, s, t, |s.producers|)
  {
  }

  lemma ConsumersClosedEnd(s: Room, t: nat)
    ensures ConsumersClosed(s, s, t, |s.consumers|)
  {
  }

  /** Closing the producers on one transport spares everything on another. */
  lemma {:induction false} CloseProducersOnOk(s: Room, t: nat, p: nat)
    requires Coherent(s) && p <= |s.producers|
    ensures Owned(s)
    ensures var s' := CloseProducersOn(s, t, p);
            Coherent(s') && Shrinks(s, s') && ProducersClosed(s, s', t, p)
    decreases |s.producers| - p
  {
    hide Coherent, Shrinks, Indexed, Named, Owned, CloseProducer, ProducersClosed;
    CoherentIsIndexed(s);
    assert p < |s.producers| ==> s.producers[p].owner < |s.clients|;
    if p < |s.producers| {
      if s.producers[p].open && s.producers[p].transport == t {
        CloseProducerCoherent(s, p);
        CloseProducerShrinks(s, p);
        CoherentIsIndexed(CloseProducer(s, p));
        CloseProducersOnOk(CloseProducer(s, p), t, p + 1);
        ShrinksTrans(s, CloseProducer(s, p), CloseProducersOn(s, t, p));
        ProducersClosedStep(s, CloseProducersOn(s, t, p), t, p);
      } else {
        CloseProducersOnOk(s, t, p + 1);
        ProducersClosedSkip(s, CloseProducersOn(s, t, p), t, p);
      }
    } else {
      ShrinksSame(s);
      ProducersClosedEnd(s, t);
    }
  }

  lemma ShrinksSame(s: Room)
    ensures Shrinks(s, s)
  {
  }

  lemma {:induction false} CloseConsumersOnOk(s: Room, t: nat, k: nat)
    requires Coherent(s) && k <= |s.consumers|
    ensures Owned(s)
    ensures var s' := CloseConsumersOn(s, t, k);
            Coherent(s') && Shrinks(s, s') && ConsumersClosed(s, s', t, k)
    decreases |s.consumers| - k
  {
    hide Coherent, Shrinks, Indexed, Named, Owned, CloseConsumer, ConsumersClosed;
    CoherentIsIndexed(s);
    assert k < |s.consumers| ==> s.consumers[k].owner < |s.clients|;
    if k < |s.consumers| {
      if s.consumers[k].open && s.consumers[k].transport == t {
        CloseConsumerCoherent(s, k);
        CloseConsumerShrinks(s, k);
        CoherentIsIndexed(CloseConsumer(s, k));
        CloseConsumersOnOk(CloseConsumer(s, k), t, k + 1);
        ShrinksTrans(s, CloseConsumer(s, k), CloseConsumersOn(s, t, k));
        ConsumersClosedStep(s, CloseConsumersOn(s, t, k), t, k);
      } else {
        CloseConsumersOnOk(s, t, k + 1);
        ConsumersClosedSkip(s, CloseConsumersOn(s, t, k), t, k);
      }
    } else {
      ShrinksSame(s);
      ConsumersClosedEnd(s, t);
    }
  }

  /** Coherence is not about the router, nor about history. */
  lemma RestOk(s: Room, routerClosed: bool, closings: nat, lost: set<(nat, nat)>)
    requires Coherent(s)
    ensures Coherent(s.(routerClosed := routerClosed, closings := closings, lost := lost))
  {
    var s' := s.(routerClosed := routerClosed, closings := closings, lost := lost);
    assert TableOk(s') by { hide ClientsOk, MediaOk, TasksOk; }
    assert ClientsOk(s') by { hide TableOk, MediaOk, TasksOk; }
    assert MediaOk(s') by { hide TableOk, ClientsOk, TasksOk; }
    assert TasksOk(s') by { hide TableOk, ClientsOk, MediaOk; }
  }

  /** Nothing stays open on a closed transport. */
  ghost predicate Drained(s: Room) {
    && (forall p :: 0 <= p < |s.producers| && s.producers[p].open ==>
          s.producers[p].transport < |s.transports| && s.transports[s.producers[p].transport].open)
    && (forall k :: 0 <= k < |s.consumers| && s.consumers[k].open ==>
          s.consumers[k].transport < |s.transports| && s.transports[s.consumers[k].transport].open)
  }

  /** One transport and what was on it are closed, the others untouched. */
  ghost predicate TransportClosed(s: Room, s': Room, t: nat) {
    && |s'.transports| == |s.transports| && |s'.producers| == |s.producers| && |s'.consumers| == |s.consumers|
    && (forall u :: 0 <= u < |s.transports| ==>
          s'.transports[u] == if u == t then s.transports[u].(open := false) else s.transports[u])
    && (forall q :: 0 <= q < |s.producers| ==>
          s'.producers[q] == s.producers[q].(open := s.producers[q].open && s.producers[q].transport != t))
    && (forall q :: 0 <= q < |s.consumers| ==>
          s'.consumers[q] == s.consumers[q].(open := s.consumers[q].open && s.consumers[q].transport != t))
  }

  lemma FlagTransport(s: Room, t: nat)
    requires Coherent(s) && t < |s.transports|
    ensures var s1 := s.(transports := s.transports[t := s.transports[t].(open := false)]);
            Coherent(s1) && Owned(s1) && Shrinks(s, s1)
  {
    CoherentIsIndexed(s);
    var s1 := s.(transports := s.transports[t := s.transports[t].(open := false)]);
    assert TableOk(s1) by { hide ClientsOk, MediaOk, TasksOk; }
    assert ClientsOk(s1) by { hide TableOk, MediaOk, TasksOk; }
    assert MediaOk(s1) by { hide TableOk, ClientsOk, TasksOk; }
    assert TasksOk(s1) by { hide TableOk, ClientsOk, MediaOk; }
  }

  lemma CloseTransportOk(s: Room, t: nat)
    requires Coherent(s) && Drained(s) && t < |s.transports|
    ensures Owned(s)
    ensures var s' := CloseTransport(s, t);
            Coherent(s') && Drained(s') && Shrinks(s, s') && TransportClosed(s, s', t)
  {
    CoherentIsIndexed(s);
    if s.transports[t].open {
      FlagTransport(s, t);
      var s1 := s.(transports := s.transports[t := s.transports[t].(open := false)]);
      hide Coherent, Indexed, Named, Owned, Shrinks, ProducersClosed, ConsumersClosed, Drained, TransportClosed;
      CloseProducersOnOk(s1, t, 0);
      var s2 := CloseProducersOn(s1, t, 0);
      CloseConsumersOnOk(s2, t, 0);
      var s3 := CloseConsumersOn(s2, t, 0);
      ShrinksTrans(s, s1, s2);
      ShrinksTrans(s, s2, s3);
      BothClosed(s, s2, s3, t);
    } else {
      ShrinksSame(s);
      hide Coherent, Shrinks, Indexed, Named, Owned;
    }
  }

  lemma BothClosed(s: Room, s2: Room, s3: Room, t: nat)
    requires Drained(s) && t < |s.transports|
    requires ProducersClosed(s.(transports := s.transports[t := s.transports[t].(open := false)]), s2, t, 0)
    requires ConsumersClosed(s2, s3, t, 0)
    ensures TransportClosed(s, s3, t) && Drained(s3)
  {
  }

  lemma {:induction false} CloseTransportsFromOk(s: Room, t: nat)
    requires Coherent(s) && Drained(s) && t <= |s.transports|
    ensures Owned(s)
    ensures var s' := CloseTransportsFrom(s, t);
            && Coherent(s') && Drained(s') && Shrinks(s, s')
            && forall u :: 0 <= u < |s.transports| ==> s'.transports[u].open == (s.transports[u].open && u < t)
    decreases |s.transports| - t
  {
    CoherentIsIndexed(s);
    hide Coherent, Drained, Shrinks, CloseTransport;
    if t < |s.transports| {
      CloseTransportOk(s, t);
      CloseTransportsFromOk(CloseTransport(s, t), t + 1);
      ShrinksTrans(s, CloseTransport(s, t), CloseTransportsFrom(s, t));
    } else {
      ShrinksSame(s);
    }
  }

  /** Closing the room leaves nothing open and calls `onClosed` at most once. */
  lemma CloseRoomOk(s: Room)
    requires Coherent(s) && Drained(s)
    ensures var s' := CloseRoom(s);
            && Coherent(s') && Drained(s')
            && s'.routerClosed && Shrinks(s.(routerClosed := true, closings := s'.closings), s')
            && s'.closings == s.closings + (if s.routerClosed then 0 else 1)
            && (!s.routerClosed ==> forall t :: 0 <= t < |s'.transports| ==> !s'.transports[t].open)
  {
    hide TableOk, ClientsOk, MediaOk, TasksOk;
    CoherentIsIndexed(s);
    if !s.routerClosed {
      RestOk(s, true, s.closings, s.lost);
      CloseTransportsFromOk(s.(routerClosed := true), 0);
      var s1 := CloseTransportsFrom(s.(routerClosed := true), 0);
      RestOk(s1, s1.routerClosed, s1.closings + 1, s1.lost);
    }
  }

  // ---------- the consuming loops ----------

  lemma VisitOk(s: Room, h: nat, i: nat)
    requires Coherent(s) && h < |s.handlers| && Loops(s.handlers[h].request)
    requires i < |s.entries| && s.entries[i].Entry? && s.entries[i].id != s.clients[s.handlers[h].client].id
    ensures TaskOk(s, s.handlers[h], Visit(s, h, i))
  {
    hide MediaOk;
  }

  /** A handler may suspend at a sound point, or end. */
  lemma SuspendOk(s: Room, h: nat, task: Task)
    requires Coherent(s) && h < |s.handlers| && TaskOk(s, s.handlers[h], task)
    ensures Coherent(Suspend(s, h, task))
  {
    var s' := Suspend(s, h, task);
    assert TableOk(s') by { hide ClientsOk, MediaOk, TasksOk; }
    assert ClientsOk(s') by { hide TableOk, MediaOk, TasksOk; }
    assert MediaOk(s') by { hide TableOk, ClientsOk, TasksOk; }
    assert TasksOk(s') by { hide TableOk, ClientsOk, MediaOk; }
  }

  lemma EndOk(s: Room, h: nat)
    requires Coherent(s)
    ensures Coherent(s.(tasks := s.tasks - {h}))
  {
    var s' := s.(tasks := s.tasks - {h});
    assert TableOk(s') by { hide ClientsOk, MediaOk, TasksOk; }
    assert ClientsOk(s') by { hide TableOk, MediaOk, TasksOk; }
    assert MediaOk(s') by { hide TableOk, ClientsOk, TasksOk; }
    assert TasksOk(s') by { hide TableOk, ClientsOk, MediaOk; }
  }

  /** A loop does not look at its own suspension. */
  lemma SameAdvance(s: Room, s': Room, h: nat, cursor: nat)
    requires s' == s.(tasks := s'.tasks) && s'.tasks - {h} == s.tasks - {h}
    requires h < |s.handlers| && s.handlers[h].client < |s.clients| && cursor <= |s.entries|
    requires forall j :: 0 <= j < |s.entries| && s.entries[j].Entry? ==> s.entries[j].client < |s.clients|
    ensures Advance(s', h, cursor) == Advance(s, h, cursor)
  {
    var n := NextEntry(s.entries, s.clients[s.handlers[h].client].id, cursor);
    if n < |s.entries| {
      SameVisit(s, s', h, n);
      hide Visit;
      SamePut(s.tasks, s'.tasks, h, Visit(s, h, n));
    } else {
      hide Visit;
    }
  }

  lemma SamePut(m: map<nat, Task>, m': map<nat, Task>, h: nat, task: Task)
    requires m - {h} == m' - {h}
    ensures m[h := task] == m'[h := task]
  {
    forall g | g != h ensures g in m <==> g in m'
    {
      assert g in m - {h} <==> g in m' - {h};
    }
    forall g | g in m && g != h ensures g in m' && m[g] == m'[g]
    {
      assert (m - {h})[g] == (m' - {h})[g];
    }
  }

  lemma SameVisit(s: Room, s': Room, h: nat, n: nat)
    requires s' == s.(tasks := s'.tasks)
    requires h < |s.handlers| && s.handlers[h].client < |s.clients| && n < |s.entries| && s.entries[n].Entry?
    requires forall j :: 0 <= j < |s.entries| && s.entries[j].Entry? ==> s.entries[j].client < |s.clients|
    ensures Visit(s', h, n) == Visit(s, h, n)
  {
  }

  lemma AdvanceOk(s: Room, h: nat, cursor: nat)
    requires Coherent(s) && h < |s.handlers| && Loops(s.handlers[h].request) && cursor <= |s.entries|
    ensures Coherent(Advance(s, h, cursor))
  {
    hide ClientsOk, MediaOk;
    var i := NextEntry(s.entries, s.clients[s.handlers[h].client].id, cursor);
    if i < |s.entries| {
      VisitOk(s, h, i);
      SuspendOk(s, h, Visit(s, h, i));
    } else {
      EndOk(s, h);
      ReplyOk(s.(tasks := s.tasks - {h}), h);
    }
  }

  // ---------- the steps ----------

  lemma AddOk(s: Room, id: ClientId)
    requires Coherent(s)
    ensures Coherent(DoAdd(s, id))
  {
    var s' := DoAdd(s, id);
    assert TableOk(s') by { hide ClientsOk, MediaOk, TasksOk; }
    assert ClientsOk(s') by { hide TableOk, MediaOk, TasksOk; }
    assert MediaOk(s') by { hide TableOk, ClientsOk, TasksOk; }
    assert TasksOk(s') by { hide TableOk, ClientsOk, MediaOk; }
  }

  lemma ReceiveOk(s: Room, c: nat, r: Request, id: RequestId)
    requires Coherent(s) && c < |s.clients|
    ensures Coherent(Receive(s, c, r, id))
  {
    var s' := Receive(s, c, r, id);
    assert TableOk(s') by { hide ClientsOk, MediaOk, TasksOk; }
    assert ClientsOk(s') by { hide TableOk, MediaOk, TasksOk; }
    assert MediaOk(s') by { hide TableOk, ClientsOk, TasksOk; }
    assert TasksOk(s') by { hide TableOk, ClientsOk, MediaOk; }
  }

  lemma ReplyOk(s: Room, h: nat)
    requires Coherent(s) && h < |s.handlers|
    ensures Coherent(Reply(s, h))
  {
    hide ClientsOk, MediaOk;
    SayOk(s, s.handlers[h].client,
          Response(AnswerTo(s.handlers[h].request), s.handlers[h].requestId, h));
  }

  lemma AskOk(s: Room, e: Event)
    requires Coherent(s) && Enabled(s, e)
    requires e.AskCapabilities? || e.AskTransport? || e.AskProducer? || e.AskPause? || e.AskResume?
    ensures Coherent(Step(s, e))
  {
    hide MediaOk;
    CoherentIsIndexed(s);
    var n := |s.handlers|;
    match e {
      case AskCapabilities(c, id) =>
        ReceiveOk(s, c, GetRouterCapabilities, id);
        ReplyOk(Receive(s, c, GetRouterCapabilities, id), n);
      case AskTransport(c, id, role) =>
        ReceiveOk(s, c, CreateTransport(role), id);
        SuspendOk(Receive(s, c, CreateTransport(role), id), n, Opening);
      case AskProducer(c, id, kind) =>
        var s1 := Receive(s, c, CreateProducer(kind), id);
        ReceiveOk(s, c, CreateProducer(kind), id);
        if s.clients[c].snd.Some? {
          SuspendOk(s1, n, Publishing(s.clients[c].snd.value));
        }
      case AskPause(c, id, p) =>
        ReceiveOk(s, c, PauseProducer, id);
        SuspendOk(Receive(s, c, PauseProducer, id), n, Replying);
      case AskResume(c, id, p) =>
        ReceiveOk(s, c, ResumeProducer, id);
        SuspendOk(Receive(s, c, ResumeProducer, id), n, Replying);
      case _ =>
    }
  }

  /** Bookkeeping flags of one client may be raised. */
  lemma FlagOk(s: Room, c: nat, cl: Client)
    requires Coherent(s) && c < |s.clients|
    requires cl == s.clients[c].(capable := cl.capable, joinedReady := cl.joinedReady, closed := cl.closed)
    requires s.clients[c].capable ==> cl.capable
    requires cl.joinedReady ==> Ready(cl)
    ensures Coherent(s.(clients := s.clients[c := cl]))
  {
    var s' := s.(clients := s.clients[c := cl]);
    assert TableOk(s') by { hide ClientsOk, MediaOk, TasksOk; }
    assert ClientsOk(s') by { hide TableOk, MediaOk, TasksOk; }
    assert MediaOk(s') by { hide TableOk, ClientsOk, TasksOk; }
    assert TasksOk(s') by { hide TableOk, ClientsOk, MediaOk; }
  }

  /** The room right after a join request arrived, its loop about to start. */
  ghost function Joining(s: Room, c: nat, id: RequestId): Room
    requires c < |s.clients|
  {
    var ready := s.clients[c].joinedReady || Ready(s.clients[c]);
    Receive(s, c, JoinCall, id).(clients := s.clients[c := s.clients[c].(joinedReady := ready)])
  }

  lemma JoiningOk(s: Room, c: nat, id: RequestId)
    requires Coherent(s) && c < |s.clients|
    ensures Coherent(Joining(s, c, id)) && Indexed(Joining(s, c, id)) && Indexed(s)
  {
    CoherentIsIndexed(s);
    CoherentClient(s, c);
    hide MediaOk, Indexed;
    ReceiveOk(s, c, JoinCall, id);
    FlagOk(Receive(s, c, JoinCall, id), c, Joining(s, c, id).clients[c]);
    CoherentIsIndexed(Joining(s, c, id));
  }

  lemma AskJoinOk(s: Room, c: nat, id: RequestId)
    requires Coherent(s) && c < |s.clients|
    ensures Indexed(s) && Coherent(DoAskJoin(s, c, id))
  {
    JoiningOk(s, c, id);
    hide Coherent;
    AdvanceOk(Joining(s, c, id), |s.handlers|, 0);
  }

  lemma CoherentClient(s: Room, c: nat)
    requires Coherent(s) && c < |s.clients|
    ensures s.clients[c].joinedReady ==> Ready(s.clients[c])
  {
  }

  lemma LeaveOk(s: Room, i: nat)
    requires Coherent(s) && i < |s.entries|
    ensures Coherent(s.(entries := s.entries[i := Gone]))
  {
    var s' := s.(entries := s.entries[i := Gone]);
    assert TableOk(s') by { hide ClientsOk, MediaOk, TasksOk; }
    assert ClientsOk(s') by { hide TableOk, MediaOk, TasksOk; }
    assert MediaOk(s') by { hide TableOk, ClientsOk, TasksOk; }
    assert TasksOk(s') by { hide TableOk, ClientsOk, MediaOk; }
  }

  /** The state of a client's close handler before the room itself may close. */
  ghost function Departed(s: Room, c: nat): Room
    requires Indexed(s) && c < |s.clients|
  {
    var s1 := s.(clients := s.clients[c := s.clients[c].(closed := true)]);
    var s2 := CloseOptional(CloseOptional(s1, s.clients[c].snd), s.clients[c].rcv);
    var i := Find(s2.entries, s.clients[c].id);
    if i < |s2.entries| then s2.(entries := s2.entries[i := Gone]) else s2
  }

  lemma CloseOptionalOk(s: Room, t: Option<nat>)
    requires Coherent(s) && Drained(s) && (t.Some? ==> t.value < |s.transports|)
    ensures Owned(s)
    ensures var s' := CloseOptional(s, t);
            && Coherent(s') && Drained(s') && Shrinks(s, s')
            && (if t.Some? then TransportClosed(s, s', t.value) else s' == s)
  {
    CoherentIsIndexed(s);
    ShrinksSame(s);
    hide Coherent, Drained, Shrinks, CloseTransport;
    if t.Some? {
      CloseTransportOk(s, t.value);
    }
  }

  lemma ClosedDrained(s: Room, c: nat)
    requires Drained(s) && c < |s.clients|
    ensures Drained(s.(clients := s.clients[c := s.clients[c].(closed := true)]))
  {
  }

  lemma EntriesDrained(s: Room, i: nat)
    requires Drained(s) && i < |s.entries|
    ensures Drained(s.(entries := s.entries[i := Gone]))
  {
  }

  lemma DepartedOk(s: Room, c: nat)
    requires Coherent(s) && Drained(s) && c < |s.clients|
    ensures Indexed(s)
    ensures var s' := Departed(s, c);
            && Coherent(s') && Drained(s')
            && (forall t :: 0 <= t < |s.transports| ==>
                  s'.transports[t].open == (s.transports[t].open && Some(t) !in {s.clients[c].snd, s.clients[c].rcv}))
            && (forall q :: 0 <= q < |s.producers| ==>
                  s'.producers[q].open
                  == (s.producers[q].open && Some(s.producers[q].transport) !in {s.clients[c].snd, s.clients[c].rcv}))
            && (forall q :: 0 <= q < |s.consumers| ==>
                  s'.consumers[q].open
                  == (s.consumers[q].open && Some(s.consumers[q].transport) !in {s.clients[c].snd, s.clients[c].rcv}))
  {
    hide TableOk, ClientsOk, MediaOk, TasksOk, Drained, Shrinks, CloseTransport;
    CoherentIsIndexed(s);
    CoherentClient(s, c);
    var s1 := s.(clients := s.clients[c := s.clients[c].(closed := true)]);
    ClosedDrained(s, c);
    FlagOk(s, c, s.clients[c].(closed := true));
    CoherentIsIndexed(s1);
    CloseOptionalOk(s1, s.clients[c].snd);
    var s2 := CloseOptional(s1, s.clients[c].snd);
    CloseOptionalOk(s2, s.clients[c].rcv);
    var s3 := CloseOptional(s2, s.clients[c].rcv);
    var i := Find(s3.entries, s.clients[c].id);
    CoherentIsIndexed(s3);
    if i < |s3.entries| {
      LeaveOk(s3, i);
      EntriesDrained(s3, i);
    }
  }

  /** Departing vacates at most one slot and otherwise only closes media. */
  lemma DepartedShape(s: Room, c: nat)
    requires Coherent(s) && Drained(s) && c < |s.clients|
    ensures Indexed(s)
    ensures var s' := Departed(s, c);
            var i := Find(s.entries, s.clients[c].id);
            && s'.entries == (if i < |s.entries| then s.entries[i := Gone] else s.entries)
            && Shrinks(s.(entries := s'.entries, clients := s.clients[c := s.clients[c].(closed := true)]), s')
  {
    hide TableOk, ClientsOk, MediaOk, TasksOk, Drained, CloseTransport;
    CoherentIsIndexed(s);
    CoherentClient(s, c);
    var s1 := s.(clients := s.clients[c := s.clients[c].(closed := true)]);
    ClosedDrained(s, c);
    FlagOk(s, c, s.clients[c].(closed := true));
    CloseOptionalOk(s1, s.clients[c].snd);
    var s2 := CloseOptional(s1, s.clients[c].snd);
    CloseOptionalOk(s2, s.clients[c].rcv);
  }

  /** A departure vacates the slot of the client's id and no other, leaves the handlers alone,
      closes the router if nobody is left, and otherwise only closes media. */
  lemma SocketClosedShape(s: Room, c: nat)
    requires Coherent(s) && Drained(s) && c < |s.clients|
    ensures Indexed(s)
    ensures var s' := DoSocketClosed(s, c);
            var i := Find(s.entries, s.clients[c].id);
            && s'.handlers == s.handlers && s'.tasks == s.tasks && s'.lost == s.lost
            && s'.entries == Departed(s, c).entries
            && s'.entries == (if i < |s.entries| then s.entries[i := Gone] else s.entries)
            && s'.routerClosed == (s.routerClosed || NobodyLeft(s'.entries))
            && s'.closings == s.closings + (if !s.routerClosed && NobodyLeft(s'.entries) then 1 else 0)
            && Shrinks(s.(entries := s'.entries, routerClosed := s'.routerClosed, closings := s'.closings,
                          clients := s.clients[c := s.clients[c].(closed := true)]), s')
  {
    DepartedOk(s, c);
    DepartedShape(s, c);
    CloseRoomOk(Departed(s, c));
    hide Coherent, Drained;
    var was := s.(entries := Departed(s, c).entries, clients := s.clients[c := s.clients[c].(closed := true)]);
    if NobodyLeft(Departed(s, c).entries) {
      ShrinksTwice(was, Departed(s, c), CloseRoom(Departed(s, c)));
    }
    hide Departed, CloseRoom, Shrinks;
  }

  lemma ShrinksTwice(a: Room, b: Room, c: Room)
    requires Shrinks(a, b) && Shrinks(b.(routerClosed := c.routerClosed, closings := c.closings), c)
    ensures Shrinks(a.(routerClosed := c.routerClosed, closings := c.closings), c)
  {
  }

  lemma SocketClosedOk(s: Room, c: nat)
    requires Coherent(s) && Drained(s) && c < |s.clients|
    ensures Indexed(s) && Coherent(DoSocketClosed(s, c)) && Drained(DoSocketClosed(s, c))
  {
    hide TableOk, ClientsOk, MediaOk, TasksOk;
    DepartedOk(s, c);
    CloseRoomOk(Departed(s, c));
  }

  /** `DoOpened` before the answer goes out. */
  ghost function Opened(s: Room, h: nat): Room
    requires Indexed(s) && h in s.tasks && s.tasks[h].Opening?
  {
    var c := s.handlers[h].client;
    var t := |s.transports|;
    var role := s.handlers[h].request.role;
    var cl := if role.Producing? then s.clients[c].(snd := Some(t)) else s.clients[c].(rcv := Some(t));
    s.(transports := s.transports + [Transport(c, role, true, s.clients[c].closed)],
       clients := s.clients[c := cl],
       tasks := s.tasks - {h})
  }

  lemma OpenedTable(s: Room, h: nat)
    requires Coherent(s) && Indexed(s) && h in s.tasks && s.tasks[h].Opening?
    ensures TableOk(Opened(s, h))
  {
    hide ClientsOk, MediaOk, TasksOk;
  }

  lemma OpenedClients(s: Room, h: nat)
    requires Coherent(s) && Indexed(s) && h in s.tasks && s.tasks[h].Opening?
    ensures ClientsOk(Opened(s, h))
  {
    hide TableOk, MediaOk, TasksOk;
  }

  lemma OpenedMedia(s: Room, h: nat)
    requires Coherent(s) && Indexed(s) && h in s.tasks && s.tasks[h].Opening?
    ensures MediaOk(Opened(s, h))
  {
    hide TableOk, ClientsOk, TasksOk;
  }

  lemma OpenedTasks(s: Room, h: nat)
    requires Coherent(s) && Indexed(s) && h in s.tasks && s.tasks[h].Opening?
    ensures TasksOk(Opened(s, h))
  {
    hide TableOk, ClientsOk, MediaOk;
  }

  lemma OpenedCoherent(s: Room, h: nat)
    requires Coherent(s) && h in s.tasks && s.tasks[h].Opening?
    ensures Indexed(s) && Coherent(Opened(s, h))
  {
    hide TableOk, ClientsOk, MediaOk, TasksOk;
    CoherentIsIndexed(s);
    hide Indexed;
    OpenedTable(s, h);
    OpenedClients(s, h);
    OpenedMedia(s, h);
    OpenedTasks(s, h);
  }

  lemma OpenedOk(s: Room, h: nat)
    requires Coherent(s) && h in s.tasks && s.tasks[h].Opening?
    ensures Indexed(s) && Coherent(DoOpened(s, h))
  {
    OpenedCoherent(s, h);
    hide Coherent;
    ReplyOk(Opened(s, h), h);
  }

  /** `Register` before the answer goes out. */
  ghost function Registered(s: Room, h: nat): Room
    requires Indexed(s) && h in s.tasks && s.tasks[h].Publishing?
  {
    var c := s.handlers[h].client;
    var p := |s.producers|;
    var reg := s.clients[c].producers;
    s.(producers := s.producers + [Producer(c, s.tasks[h].transport, s.handlers[h].request.kind, true)],
       clients := s.clients[c := s.clients[c].(producers := Registry(reg.order + [p], reg.present + {p}))])
  }

  lemma RegisteredTable(s: Room, h: nat)
    requires Coherent(s) && Indexed(s) && h in s.tasks && s.tasks[h].Publishing?
    ensures TableOk(Registered(s, h))
  {
    hide ClientsOk, MediaOk, TasksOk;
  }

  lemma RegisteredClients(s: Room, h: nat)
    requires Coherent(s) && Indexed(s) && h in s.tasks && s.tasks[h].Publishing?
    ensures ClientsOk(Registered(s, h))
  {
    hide TableOk, MediaOk, TasksOk;
  }

  lemma RegisteredMedia(s: Room, h: nat)
    requires Coherent(s) && Indexed(s) && h in s.tasks && s.tasks[h].Publishing?
    ensures MediaOk(Registered(s, h))
  {
    hide TableOk, ClientsOk;
  }

  lemma RegisteredTasks(s: Room, h: nat)
    requires Coherent(s) && Indexed(s) && h in s.tasks && s.tasks[h].Publishing?
    ensures TasksOk(Registered(s, h))
  {
    hide TableOk, ClientsOk, MediaOk;
  }

  lemma RegisteredCoherent(s: Room, h: nat)
    requires Coherent(s) && h in s.tasks && s.tasks[h].Publishing?
    ensures Indexed(s) && Coherent(Registered(s, h))
  {
    hide TableOk, ClientsOk, MediaOk, TasksOk;
    CoherentIsIndexed(s);
    hide Indexed;
    RegisteredTable(s, h);
    RegisteredClients(s, h);
    RegisteredMedia(s, h);
    RegisteredTasks(s, h);
  }

  lemma RegisterOk(s: Room, h: nat)
    requires Coherent(s) && h in s.tasks && s.tasks[h].Publishing?
    ensures Indexed(s)
    ensures var s' := Register(s, h); Coherent(s')
  {
    RegisteredCoherent(s, h);
    hide Coherent;
    ReplyOk(Registered(s, h), h);
  }

  /** `Hold` before the notification goes out. */
  ghost function Held(s: Room, h: nat): Room
    requires Indexed(s) && h in s.tasks && s.tasks[h].Awaiting?
    requires s.clients[s.tasks[h].prod].producers.order[s.tasks[h].k] < |s.producers|
  {
    var task := s.tasks[h];
    var p := s.clients[task.prod].producers.order[task.k];
    var info := ConsumerInfo(p, s.producers[p].kind, s.clients[task.prod].id);
    var cl := s.clients[task.cons];
    s.(consumers := s.consumers + [Consumer(task.cons, task.transport, info, true)],
       clients := s.clients[task.cons := cl.(consumers := cl.consumers + {|s.consumers|})])
  }

  lemma HoldOk(s: Room, h: nat)
    requires Coherent(s) && h in s.tasks && s.tasks[h].Awaiting?
    ensures Indexed(s) && Named(s) && Coherent(Hold(s, h))
  {
    CoherentIsIndexed(s);
    var s1 := Held(s, h);
    assert TableOk(s1) by { hide ClientsOk, MediaOk, TasksOk; }
    assert ClientsOk(s1) by { hide TableOk, MediaOk, TasksOk; }
    assert MediaOk(s1) by { hide TableOk; }
    assert TasksOk(s1) by { hide TableOk, ClientsOk, MediaOk; }
    var task := s.tasks[h];
    var p := s.clients[task.prod].producers.order[task.k];
    var info := ConsumerInfo(p, s.producers[p].kind, s.clients[task.prod].id);
    SayOk(s1, task.cons, Created(|s.consumers|, info));
  }

  /** Where the inner loop is suspended next is as good a place. */
  lemma HoldTask(s: Room, h: nat)
    requires Indexed(s) && Named(s) && h in s.tasks && s.tasks[h].Awaiting? && h < |s.handlers|
    requires TaskOk(s, s.handlers[h], s.tasks[h])
    requires var c := s.tasks[h].cons; ClientOk(s.transports, c, s.clients[c])
    ensures var task, s1 := s.tasks[h], Hold(s, h);
            && h < |s1.handlers| && s1.handlers == s.handlers && |s1.clients| == |s.clients|
            && s1.clients[task.prod].producers == s.clients[task.prod].producers
            && TaskOk(s1, s1.handlers[h], ConsumeFrom(s1, task.cursor, task.prod, task.cons, task.k + 1))
  {
  }

  lemma ConsumedOk(s: Room, h: nat)
    requires Coherent(s) && h in s.tasks && s.tasks[h].Awaiting?
    ensures Indexed(s) && Named(s) && Coherent(DoConsumed(s, h))
  {
    hide MediaOk, TableOk, Hold, ConsumeFrom;
    CoherentIsIndexed(s);
    assert h < |s.handlers| && TaskOk(s, s.handlers[h], s.tasks[h]);
    assert ClientOk(s.transports, s.tasks[h].cons, s.clients[s.tasks[h].cons]);
    hide ClientsOk, ClientOk, TasksOk, TaskOk, Indexed, Named;
    HoldOk(s, h);
    var task := s.tasks[h];
    var s1 := Hold(s, h);
    HoldTask(s, h);
    SuspendOk(s1, h, ConsumeFrom(s1, task.cursor, task.prod, task.cons, task.k + 1));
  }

  lemma ResumedOk(s: Room, h: nat)
    requires Coherent(s) && h in s.tasks
    ensures Indexed(s) && Named(s) && Coherent(DoResumed(s, h))
  {
    CoherentIsIndexed(s);
    hide ClientsOk, MediaOk;
    match s.tasks[h] {
      case Opening => OpenedOk(s, h);
      case Publishing(_) =>
        RegisterOk(s, h);
        AdvanceOk(Register(s, h), h, 0);
      case Replying =>
        EndOk(s, h);
        ReplyOk(s.(tasks := s.tasks - {h}), h);
      case Between(cursor) => AdvanceOk(s, h, cursor);
      case Awaiting(_, _, _, _, _) => ConsumedOk(s, h);
    }
  }

  lemma StepCoherent(s: Room, e: Event)
    requires Coherent(s) && Drained(s) && Indexed(s) && Named(s) && Enabled(s, e)
    ensures Coherent(Step(s, e))
  {
    hide TableOk, ClientsOk, MediaOk, TasksOk;
    match e {
      case Add(id) => AddOk(s, id);
      case Capabilities(c) =>
        CoherentClient(s, c);
        FlagOk(s, c, s.clients[c].(capable := true));
      case AskJoin(c, id) => AskJoinOk(s, c, id);
      case SocketClosed(c) => SocketClosedOk(s, c);
      case Resumed(h) => ResumedOk(s, h);
      case ConsumeRejected(h) =>
        EndOk(s, h);
        RestOk(s.(tasks := s.tasks - {h}), s.routerClosed, s.closings, s.lost + Abandoned(s, h));
      case Failed(h) => EndOk(s, h);
      case ProducerLost(p) => CloseProducerCoherent(s, p);
      case ConsumerLost(k) => CloseConsumerCoherent(s, k);
      case _ => AskOk(s, e);
    }
  }

  /** An event that opens no media object and closes no transport leaves nothing stranded. */
  lemma SameMediaDrained(s: Room, s': Room)
    requires Drained(s) && s'.transports == s.transports
    requires s'.producers == s.producers && s'.consumers == s.consumers
    ensures Drained(s')
  {
  }

  lemma AdvanceDrained(s: Room, h: nat, cursor: nat)
    requires Drained(s) && Indexed(s) && h < |s.handlers| && cursor <= |s.entries|
    ensures Drained(Advance(s, h, cursor))
  {
    hide Drained, Visit;
    SameMediaDrained(s, Advance(s, h, cursor));
  }

  lemma ProducedDrained(s: Room, h: nat)
    requires Coherent(s) && Drained(s) && Indexed(s) && h in s.tasks && s.tasks[h].Publishing?
    requires CanResume(s, s.tasks[h])
    ensures Drained(DoProduced(s, h))
  {
    RegisterOk(s, h);
    CoherentIsIndexed(Register(s, h));
    hide Coherent;
    assert Drained(Register(s, h)) by { hide Indexed; }
    hide Drained, Advance, Indexed;
    AdvanceDrained(Register(s, h), h, 0);
  }

  lemma ConsumedDrained(s: Room, h: nat)
    requires Coherent(s) && Drained(s) && Indexed(s) && Named(s) && h in s.tasks && s.tasks[h].Awaiting?
    requires CanResume(s, s.tasks[h])
    ensures Drained(DoConsumed(s, h))
  {
    HoldOk(s, h);
    CoherentIsIndexed(Hold(s, h));
    hide Coherent, ConsumeFrom;
    assert Drained(Hold(s, h)) by { hide Indexed; }
    hide Hold, Drained, Indexed, Named;
    SameMediaDrained(Hold(s, h), DoConsumed(s, h));
  }

  lemma ResumedDrained(s: Room, h: nat)
    requires Coherent(s) && Drained(s) && Indexed(s) && Named(s) && h in s.tasks && CanResume(s, s.tasks[h])
    ensures Drained(DoResumed(s, h))
  {
    match s.tasks[h] {
      case Publishing(t) =>
        ProducedDrained(s, h);
        hide Coherent, DoProduced;
      case Between(cursor) => AdvanceDrained(s, h, cursor);
      case Awaiting(_, _, _, _, _) => ConsumedDrained(s, h);
      case _ => hide Coherent;
    }
  }

  lemma QuietDrained(s: Room, e: Event)
    requires Drained(s) && Indexed(s) && Named(s) && Enabled(s, e)
    requires !e.SocketClosed? && !e.Resumed? && !e.AskJoin?
    ensures Drained(Step(s, e))
  {
    hide Indexed, Named, Enabled, Step, QuietClients, QuietTask;
    QuietStep(s, e);
  }

  lemma StepDrained(s: Room, e: Event)
    requires Coherent(s) && Drained(s) && Indexed(s) && Named(s) && Enabled(s, e)
    ensures Drained(Step(s, e))
  {
    match e {
      case SocketClosed(c) => hide Coherent, Drained, Indexed, Named, DoSocketClosed; SocketClosedOk(s, c);
      case Resumed(h) => hide Coherent, Drained, Indexed, Named, DoResumed; ResumedDrained(s, h);
      case AskJoin(c, id) =>
        hide Coherent, Drained, Named, Advance;
        JoiningOk(s, c, id);
        SameMediaDrained(s, Joining(s, c, id));
        AdvanceDrained(Joining(s, c, id), |s.handlers|, 0);
      case _ => hide Coherent, Drained, Indexed, Named, Enabled, Step; QuietDrained(s, e);
    }
  }

  // ---------- steps that run no handler further ----------

  ghost predicate QuietClient(c: Client, c': Client) {
    && c'.id == c.id && c'.closed == c.closed && c'.snd == c.snd && c'.rcv == c.rcv
    && c'.joinedReady == c.joinedReady && (c.capable ==> c'.capable)
    && c'.producers.order == c.producers.order && c'.producers.present <= c.producers.present
    && c'.consumers <= c.consumers && c.log <= c'.log
  }

  /** A new handler is at its first await, if it has one. */
  ghost predicate QuietTask(s: Room, s': Room, h: nat)
    requires h in s'.tasks
  {
    || (h in s.tasks && s'.tasks[h] == s.tasks[h])
    || (h == |s.handlers| < |s'.handlers| && FirstAwait(s'.handlers[h].request, s'.tasks[h]))
  }

  predicate FirstAwait(r: Request, task: Task) {
    match task
    case Opening => r.CreateTransport?
    case Publishing(_) => r.CreateProducer?
    case Replying => r.PauseProducer? || r.ResumeProducer?
    case _ => false
  }

  ghost predicate QuietClients(s: Room, s': Room) {
    && |s.clients| <= |s'.clients|
    && (forall c :: 0 <= c < |s.clients| ==> QuietClient(s.clients[c], s'.clients[c]))
    && (forall c :: |s.clients| <= c < |s'.clients| ==>
          && s'.clients[c].consumers == {} && s'.clients[c].log == []
          && !s'.clients[c].capable && !s'.clients[c].joinedReady && s'.clients[c].producers.order == [])
    && (forall i :: 0 <= i < |s'.entries| && s'.entries[i].Entry? && s'.entries[i].client < |s.clients| ==>
          i < |s.entries| && s.entries[i] == s'.entries[i])
  }

  ghost predicate QuietMedia(s: Room, s': Room) {
    && |s'.producers| == |s.producers| && |s'.consumers| == |s.consumers|
    && (forall p :: 0 <= p < |s.producers| ==>
          s'.producers[p] == s.producers[p] || s'.producers[p] == s.producers[p].(open := false))
    && (forall k :: 0 <= k < |s.consumers| ==>
          s'.consumers[k] == s.consumers[k] || s'.consumers[k] == s.consumers[k].(open := false))
  }

  /** Everything a step may change that lets no suspended handler go on. */
  ghost predicate Quiet(s: Room, e: Event, s': Room) {
    && s'.routerClosed == s.routerClosed && s'.closings == s.closings && s'.transports == s.transports
    && s'.handlers == s.handlers + Received(e)
    && s.lost <= s'.lost && (!e.ConsumeRejected? ==> s'.lost == s.lost)
    && (!e.Add? ==> s'.entries == s.entries && |s'.clients| == |s.clients|)
    && QuietClients(s, s') && QuietMedia(s, s') && (!e.ConsumerLost? ==> s'.consumers == s.consumers)
    && (forall h :: h in s'.tasks ==> QuietTask(s, s', h))
  }

  lemma QuietStep(s: Room, e: Event)
    requires Indexed(s) && Named(s) && Enabled(s, e)
    requires !e.SocketClosed? && !e.Resumed? && !e.AskJoin?
    ensures Quiet(s, e, Step(s, e))
  {
    match e {
      case Add(id) => AddIsQuiet(s, id); hide Indexed, Named, Quiet, DoAdd;
      case ProducerLost(p) => ProducerLostIsQuiet(s, p); hide Indexed, Named, Quiet, CloseProducer;
      case ConsumerLost(k) => ConsumerLostIsQuiet(s, k); hide Indexed, Named, Quiet, CloseConsumer;
      case AskTransport(c, id, role) => AskTransportIsQuiet(s, c, id, role); hide Indexed, Named, Quiet, DoAskTransport;
      case AskProducer(c, id, kind) => AskProducerIsQuiet(s, c, id, kind); hide Indexed, Named, Quiet, DoAskProducer;
      case AskPause(c, id, p) => AskPauseIsQuiet(s, c, id, p); hide Indexed, Named, Quiet, DoAskToggle;
      case AskResume(c, id, p) => AskResumeIsQuiet(s, c, id, p); hide Indexed, Named, Quiet, DoAskToggle;
      case _ => OtherIsQuiet(s, e); hide Indexed, Named, Quiet;
    }
  }

  lemma AddIsQuiet(s: Room, id: ClientId)
    requires Indexed(s)
    ensures Quiet(s, Add(id), DoAdd(s, id))
  {
    hide Indexed;
  }

  lemma ProducerLostIsQuiet(s: Room, p: nat)
    requires Owned(s) && p < |s.producers|
    ensures Quiet(s, ProducerLost(p), CloseProducer(s, p))
  {
    assert s.producers[p].owner < |s.clients|;
    hide Owned;
  }

  lemma ConsumerLostIsQuiet(s: Room, k: nat)
    requires Owned(s) && k < |s.consumers|
    ensures Quiet(s, ConsumerLost(k), CloseConsumer(s, k))
  {
    assert s.consumers[k].owner < |s.clients|;
    hide Owned;
  }

  lemma AskTransportIsQuiet(s: Room, c: nat, id: RequestId, role: Role)
    requires c < |s.clients|
    ensures Quiet(s, AskTransport(c, id, role), DoAskTransport(s, c, id, role))
  {
  }

  lemma AskProducerIsQuiet(s: Room, c: nat, id: RequestId, kind: Kind)
    requires c < |s.clients|
    ensures Quiet(s, AskProducer(c, id, kind), DoAskProducer(s, c, id, kind))
  {
  }

  lemma AskPauseIsQuiet(s: Room, c: nat, id: RequestId, p: nat)
    requires c < |s.clients|
    ensures Quiet(s, AskPause(c, id, p), DoAskToggle(s, c, PauseProducer, id, p))
  {
  }

  lemma AskResumeIsQuiet(s: Room, c: nat, id: RequestId, p: nat)
    requires c < |s.clients|
    ensures Quiet(s, AskResume(c, id, p), DoAskToggle(s, c, ResumeProducer, id, p))
  {
  }

  lemma OtherIsQuiet(s: Room, e: Event)
    requires Indexed(s) && Named(s) && Enabled(s, e)
    requires e.Capabilities? || e.AskCapabilities? || e.ConsumeRejected? || e.Failed?
    ensures Quiet(s, e, Step(s, e))
  {
    hide Abandoned, Indexed, Named;
  }

  // ---------- runs ----------

  /** The states a sequence of events goes through, from the empty room. */
  ghost predicate Possible(es: seq<Event>)
    decreases |es|, 0
  {
    es == [] || (Possible(es[..|es| - 1]) && var s := After(es[..|es| - 1]); Enabled(s, es[|es| - 1]))
  }

  ghost function After(es: seq<Event>): (s: Room)
    requires Possible(es)
    ensures Coherent(s) && Drained(s) && Indexed(s) && Named(s)
    decreases |es|, 1
  {
    if es == [] then NewRoom
    else
      var s := After(es[..|es| - 1]);
      StepCoherent(s, es[|es| - 1]);
      StepDrained(s, es[|es| - 1]);
      CoherentIsIndexed(Step(s, es[|es| - 1]));
      Step(s, es[|es| - 1])
  }

  /** Some run ends in this state. */
  ghost predicate Reached(s: Room) {
    exists es :: Possible(es) && After(es) == s
  }

  /** One more event at the end of a run. */
  lemma Then(s: Room, e: Event, s': Room)
    requires Reached(s)
    requires Indexed(s) && Named(s) ==> Enabled(s, e) && Step(s, e) == s'
    ensures Reached(s')
  {
    hide Indexed, Named, Step, Enabled, Coherent, Drained;
    var es :| Possible(es) && After(es) == s;
    var fs := es + [e];
    assert fs[..|fs| - 1] == es;
    assert After(fs) == s';
  }

  lemma ReachedIsSound(s: Room)
    requires Reached(s)
    ensures Coherent(s) && Drained(s) && Indexed(s) && Named(s)
  {
  }
}
