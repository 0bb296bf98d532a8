/**
 The room as the object it is: fields that handlers update in place, one method per stretch
 of a handler between two awaits.  Every method is proved to take exactly the step of the
 state machine in `RoomModel`, and `Valid` says that some run of the machine has led here, so
 whatever is proved of its runs holds of this object.
 */
module RoomObject {
  import opened Base
  import opened RoomModel
  import opened RoomInvariant

  /** A step of a run is a step of a longer run. */
  lemma StillValid(s: Room, e: Event)
    requires Reached(s) && Indexed(s) && Named(s) && Enabled(s, e)
    ensures var s' := Step(s, e); Reached(s') && Indexed(s') && Named(s')
  {
    hide Reached, Step, Coherent, Drained;
    Then(s, e, Step(s, e));
    ReachedIsSound(Step(s, e));
  }

  class MediasoupRoom {
    var routerClosed: bool
    var closings: nat
    var entries: seq<Entry>
    var clients: seq<Client>
    var transports: seq<Transport>
    var producers: seq<Producer>
    var consumers: seq<Consumer>
    var handlers: seq<Handler>
    var tasks: map<nat, Task>
    ghost var lost: set<(nat, nat)>

    ghost function State(): Room
      reads this
    {
      Room(routerClosed, closings, entries, clients, transports, producers, consumers, handlers, tasks, lost)
    }

    ghost predicate Valid()
      reads this
    {
      Indexed(State()) && Named(State()) && Reached(State())
    }

    constructor ()
      ensures State() == NewRoom && Valid()
    {
      routerClosed, closings := false, 0;
      entries, clients, transports, producers, consumers := [], [], [], [], [];
      handlers, tasks, lost := [], map[], {};
      new;
      assert Possible([]) && After([]) == NewRoom;
    }

    // ---------- lookups in the map of clients ----------

    /** `_clients.get`, as the slot of the entry. */
    method Lookup(id: ClientId) returns (i: nat)
      ensures i == Find(entries, id)
    {
      i := 0;
      while i < |entries|
        invariant i <= |entries| && FindFrom(entries, id, 0) == FindFrom(entries, id, i)
      {
        if entries[i].Entry? && entries[i].id == id {
          return;
        }
        i := i + 1;
      }
    }

    /** The outer loop's live iterator, which skips the loop's own client. */
    method NextKey(own: ClientId, cursor: nat) returns (i: nat)
      requires cursor <= |entries|
      ensures i == NextEntry(entries, own, cursor)
    {
      i := cursor;
      while i < |entries|
        invariant cursor <= i <= |entries| && NextEntry(entries, own, cursor) == NextEntry(entries, own, i)
      {
        if entries[i].Entry? && entries[i].id != own {
          return;
        }
        i := i + 1;
      }
    }

    /** The inner loops of `_consumeClient`: the next producer the client has to consume. */
    method NextToConsume(prod: nat, cons: nat, from: nat) returns (k: nat)
      requires prod < |clients| && cons < |clients| && from <= |clients[prod].producers.order|
      ensures k == NextProducer(consumers, clients[prod].producers, clients[cons], from)
    {
      var reg := clients[prod].producers;
      k := from;
      while k < |reg.order|
        invariant from <= k <= |reg.order|
        invariant NextProducer(consumers, reg, clients[cons], from) == NextProducer(consumers, reg, clients[cons], k)
      {
        if reg.order[k] in reg.present {
          var consumed := IsConsumed(cons, reg.order[k]);
          if !consumed && clients[cons].capable && clients[cons].rcv.Some? {
            return;
          }
        }
        k := k + 1;
      }
    }

    /** The innermost loop, with its flag, over the consumers the client already holds. */
    method IsConsumed(cons: nat, p: nat) returns (consumed: bool)
      requires cons < |clients|
      ensures consumed == Consumes(consumers, clients[cons].consumers, p)
    {
      consumed := false;
      var todo := clients[cons].consumers;
      while todo != {}
        invariant todo <= clients[cons].consumers && !consumed
        invariant !Consumes(consumers, clients[cons].consumers - todo, p)
        decreases |todo|
      {
        var k :| k in todo;
        if k < |consumers| && consumers[k].info.producer == p {
          consumed := true;
          break;
        }
        todo := todo - {k};
      }
      assert !consumed ==> clients[cons].consumers - todo == clients[cons].consumers;
    }

    // ---------- messages and closings ----------

    method Send(c: nat, m: Message)
      requires c < |clients|
      modifies this
      ensures State() == Say(old(State()), c, m)
    {
      if !clients[c].closed {
        clients := clients[c := clients[c].(log := clients[c].log + [m])];
      }
    }

    method Respond(h: nat)
      requires h < |handlers| && handlers[h].client < |clients|
      modifies this
      ensures State() == Reply(old(State()), h)
    {
      Send(handlers[h].client, Response(AnswerTo(handlers[h].request), handlers[h].requestId, h));
    }

    /** The listener of a consumer's close event. */
    method ConsumerClosed(k: nat)
      requires k < |consumers| && consumers[k].owner < |clients|
      modifies this
      ensures State() == CloseConsumer(old(State()), k)
      ensures old(Valid()) && old(Enabled(State(), ConsumerLost(k))) ==> Valid()
    {
      hide Reached, Indexed, Named;
      if Valid() && Enabled(State(), ConsumerLost(k)) {
        StillValid(State(), ConsumerLost(k));
      }
      var o := consumers[k].owner;
      consumers := consumers[k := consumers[k].(open := false)];
      clients := clients[o := clients[o].(consumers := clients[o].consumers - {k})];
      Send(o, Closed(k));
    }

    /** The listener of a producer's close event. */
    method ProducerClosed(p: nat)
      requires p < |producers| && producers[p].owner < |clients|
      modifies this
      ensures State() == CloseProducer(old(State()), p)
      ensures old(Valid()) && old(Enabled(State(), ProducerLost(p))) ==> Valid()
    {
      hide Reached, Indexed, Named;
      if Valid() && Enabled(State(), ProducerLost(p)) {
        StillValid(State(), ProducerLost(p));
      }
      var o := producers[p].owner;
      var reg := clients[o].producers;
      producers := producers[p := producers[p].(open := false)];
      clients := clients[o := clients[o].(producers := reg.(present := reg.present - {p}))];
    }

    method CloseProducersOf(t: nat)
      requires Owned(State())
      modifies this
      ensures State() == CloseProducersOn(old(State()), t, 0)
    {
      hide Valid, Enabled;
      ghost var s1 := State();
      var p := 0;
      while p < |producers|
        invariant Owned(State()) && p <= |producers| && SameShape(s1, State())
        invariant CloseProducersOn(s1, t, 0) == CloseProducersOn(State(), t, p)
      {
        if producers[p].open && producers[p].transport == t {
          ProducerClosed(p);
        }
        p := p + 1;
      }
    }

    method CloseConsumersOf(t: nat)
      requires Owned(State())
      modifies this
      ensures State() == CloseConsumersOn(old(State()), t, 0)
    {
      hide Valid, Enabled;
      ghost var s1 := State();
      var k := 0;
      while k < |consumers|
        invariant Owned(State()) && k <= |consumers| && SameShape(s1, State())
        invariant CloseConsumersOn(s1, t, 0) == CloseConsumersOn(State(), t, k)
      {
        if consumers[k].open && consumers[k].transport == t {
          ConsumerClosed(k);
        }
        k := k + 1;
      }
    }

    /** Closing a transport closes what is on it, producers first. */
    method CloseTransportOf(t: nat)
      requires Owned(State()) && t < |transports|
      modifies this
      ensures State() == CloseTransport(old(State()), t)
    {
      if transports[t].open {
        transports := transports[t := transports[t].(open := false)];
        CloseProducersOf(t);
        CloseConsumersOf(t);
      }
    }

    /** `transport?.close()` */
    method CloseIfAny(t: Option<nat>)
      requires Owned(State()) && (t.Some? ==> t.value < |transports|)
      modifies this
      ensures State() == CloseOptional(old(State()), t)
    {
      if t.Some? {
        CloseTransportOf(t.value);
      }
    }

    /** `close`: the router takes all transports with it, then `onClosed` is called. */
    method Close()
      requires Owned(State())
      modifies this
      ensures State() == CloseRoom(old(State()))
    {
      if routerClosed {
        return;
      }
      routerClosed := true;
      ghost var s1 := State();
      var t := 0;
      while t < |transports|
        invariant Owned(State()) && t <= |transports| && SameShape(s1, State())
        invariant CloseTransportsFrom(s1, 0) == CloseTransportsFrom(State(), t)
      {
        CloseTransportOf(t);
        t := t + 1;
      }
      closings := closings + 1;
    }

    // ---------- the loops of the handlers ----------

    /** `_consumeClient` from producer slot `from` up to its next await. */
    method ConsumeClient(h: nat, cursor: nat, prod: nat, cons: nat, from: nat)
      requires prod < |clients| && cons < |clients| && from <= |clients[prod].producers.order|
      modifies `tasks
      ensures State() == Suspend(old(State()), h, ConsumeFrom(old(State()), cursor, prod, cons, from))
    {
      var k := NextToConsume(prod, cons, from);
      if k < |clients[prod].producers.order| {
        tasks := tasks[h := Awaiting(cursor, prod, cons, k, clients[cons].rcv.value)];
      } else {
        tasks := tasks[h := Between(cursor)];
      }
    }

    /** The outer loop of a join or produce handler from slot `cursor` up to its next await. */
    method Loop(h: nat, cursor: nat)
      requires h < |handlers| && handlers[h].client < |clients| && cursor <= |entries|
      requires forall j :: 0 <= j < |entries| && entries[j].Entry? ==> entries[j].client < |clients|
      modifies this
      ensures State() == Advance(old(State()), h, cursor)
    {
      var own := clients[handlers[h].client].id;
      var i := NextKey(own, cursor);
      if i < |entries| {
        var self := Lookup(own);
        if self == |entries| {
          tasks := tasks[h := Between(i + 1)];
        } else {
          var other := Lookup(entries[i].id);
          if handlers[h].request.JoinCall? {
            ConsumeClient(h, i + 1, entries[other].client, entries[self].client, 0);
          } else {
            ConsumeClient(h, i + 1, entries[self].client, entries[other].client, 0);
          }
        }
      } else {
        tasks := tasks - {h};
        if handlers[h].request.JoinCall? {
          Respond(h);
        }
      }
    }

    // ---------- the handlers ----------

    method AddClient(id: ClientId)
      requires Valid()
      modifies this
      ensures Valid() && State() == Step(old(State()), Add(id))
      ensures clients == old(clients) + [Client(id, false, false, None, None, Registry([], {}), {}, [], false)]
      ensures |old(entries)| <= |entries|
      ensures forall j :: 0 <= j < |old(entries)| ==>
                entries[j] == if old(entries)[j].Entry? && old(entries)[j].id == id then Entry(id, |old(clients)|)
                              else old(entries)[j]
      ensures (forall j :: 0 <= j < |old(entries)| && old(entries)[j].Entry? ==> old(entries)[j].id != id) ==>
                entries == old(entries) + [Entry(id, |old(clients)|)]
    {
      ReachedIsSound(State());
      assert TableOk(State());
      hide Reached, Coherent;
      StillValid(State(), Add(id));
      var n := |clients|;
      var i := Lookup(id);
      clients := clients + [Client(id, false, false, None, None, Registry([], {}), {}, [], false)];
      if i < |entries| {
        entries := entries[i := Entry(id, n)];
      } else {
        entries := entries + [Entry(id, n)];
      }
    }

    method OnCapabilities(c: nat)
      requires Valid() && Listening(State(), c)
      modifies this
      ensures Valid() && State() == Step(old(State()), Capabilities(c))
      ensures clients == old(clients)[c := old(clients)[c].(capable := true)] && entries == old(entries)
    {
      hide Reached;
      StillValid(State(), Capabilities(c));
      clients := clients[c := clients[c].(capable := true)];
    }

    method OnGetRouterCapabilities(c: nat, id: RequestId)
      requires Valid() && Listening(State(), c)
      modifies this
      ensures Valid() && State() == Step(old(State()), AskCapabilities(c, id))
    {
      hide Reached;
      StillValid(State(), AskCapabilities(c, id));
      handlers := handlers + [Handler(c, GetRouterCapabilities, id)];
      Respond(|handlers| - 1);
    }

    method OnCreateTransport(c: nat, id: RequestId, role: Role)
      requires Valid() && Listening(State(), c)
      modifies this
      ensures Valid() && State() == Step(old(State()), AskTransport(c, id, role))
      ensures handlers == old(handlers) + [Handler(c, CreateTransport(role), id)] && clients == old(clients)
      ensures var there := if role == Producing then old(clients)[c].snd.Some? else old(clients)[c].rcv.Some?;
              tasks == if there then old(tasks) else old(tasks)[|old(handlers)| := Opening]
    {
      hide Reached;
      StillValid(State(), AskTransport(c, id, role));
      var h := |handlers|;
      handlers := handlers + [Handler(c, CreateTransport(role), id)];
      if (role.Producing? && clients[c].snd.Some?) || (role.Consuming? && clients[c].rcv.Some?) {
        return;
      }
      tasks := tasks[h := Opening];
    }

    method OnCreateProducer(c: nat, id: RequestId, kind: Kind)
      requires Valid() && Listening(State(), c)
      modifies this
      ensures Valid() && State() == Step(old(State()), AskProducer(c, id, kind))
      ensures handlers == old(handlers) + [Handler(c, CreateProducer(kind), id)] && clients == old(clients)
      ensures tasks == match old(clients)[c].snd
                       case None => old(tasks)
                       case Some(t) => old(tasks)[|old(handlers)| := Publishing(t)]
    {
      hide Reached;
      StillValid(State(), AskProducer(c, id, kind));
      var h := |handlers|;
      handlers := handlers + [Handler(c, CreateProducer(kind), id)];
      if clients[c].snd.None? {
        return;
      }
      tasks := tasks[h := Publishing(clients[c].snd.value)];
    }

    method OnPauseProducer(c: nat, id: RequestId, p: nat)
      requires Valid() && Listening(State(), c)
      modifies this
      ensures Valid() && State() == Step(old(State()), AskPause(c, id, p))
      ensures handlers == old(handlers) + [Handler(c, PauseProducer, id)] && clients == old(clients)
      ensures tasks == if p in old(clients)[c].producers.present then old(tasks)[|old(handlers)| := Replying]
                       else old(tasks)
    {
      hide Reached;
      StillValid(State(), AskPause(c, id, p));
      var h := |handlers|;
      handlers := handlers + [Handler(c, PauseProducer, id)];
      if p in clients[c].producers.present {
        tasks := tasks[h := Replying];
      }
    }

    method OnResumeProducer(c: nat, id: RequestId, p: nat)
      requires Valid() && Listening(State(), c)
      modifies this
      ensures Valid() && State() == Step(old(State()), AskResume(c, id, p))
      ensures handlers == old(handlers) + [Handler(c, ResumeProducer, id)] && clients == old(clients)
      ensures tasks == if p in old(clients)[c].producers.present then old(tasks)[|old(handlers)| := Replying]
                       else old(tasks)
    {
      hide Reached;
      StillValid(State(), AskResume(c, id, p));
      var h := |handlers|;
      handlers := handlers + [Handler(c, ResumeProducer, id)];
      if p in clients[c].producers.present {
        tasks := tasks[h := Replying];
      }
    }

    method OnJoinCall(c: nat, id: RequestId)
      requires Valid() && Listening(State(), c)
      modifies this
      ensures Valid() && State() == Step(old(State()), AskJoin(c, id))
    {
      hide Reached;
      StillValid(State(), AskJoin(c, id));
      var h := |handlers|;
      handlers := handlers + [Handler(c, JoinCall, id)];
      clients := clients[c := clients[c].(joinedReady :=
        clients[c].joinedReady || (clients[c].capable && clients[c].rcv.Some?))];
      Loop(h, 0);
    }

    method OnClose(c: nat)
      requires Valid() && Listening(State(), c)
      modifies this
      ensures Valid() && State() == Step(old(State()), SocketClosed(c))
    {
      hide Reached, CloseRoom, CloseOptional;
      StillValid(State(), SocketClosed(c));
      var snd, rcv, id := clients[c].snd, clients[c].rcv, clients[c].id;
      clients := clients[c := clients[c].(closed := true)];
      CloseIfAny(snd);
      CloseIfAny(rcv);
      var i := Lookup(id);
      if i < |entries| {
        entries := entries[i := Gone];
      }
      if NobodyLeft(entries) {
        Close();
      }
    }

    // ---------- what the handlers do once their awaits settle ----------

    method TransportCreated(h: nat)
      requires Valid() && Enabled(State(), Resumed(h)) && tasks[h].Opening?
      modifies this
      ensures Valid() && State() == Step(old(State()), Resumed(h))
      ensures var c, t, role := old(handlers)[h].client, |old(transports)|, old(handlers)[h].request.role;
              && c < |old(clients)| && tasks == old(tasks) - {h}
              && transports == old(transports) + [Transport(c, role, true, old(clients)[c].closed)]
              && |clients| == |old(clients)|
              && clients[c].snd == (if role == Producing then Some(t) else old(clients)[c].snd)
              && clients[c].rcv == (if role == Producing then old(clients)[c].rcv else Some(t))
    {
      hide Reached;
      StillValid(State(), Resumed(h));
      var c, t, role := handlers[h].client, |transports|, handlers[h].request.role;
      transports := transports + [Transport(c, role, true, clients[c].closed)];
      if role.Producing? {
        clients := clients[c := clients[c].(snd := Some(t))];
      } else {
        clients := clients[c := clients[c].(rcv := Some(t))];
      }
      tasks := tasks - {h};
      Respond(h);
    }

    method Produced(h: nat)
      requires Valid() && Enabled(State(), Resumed(h)) && tasks[h].Publishing?
      modifies this
      ensures Valid() && State() == Step(old(State()), Resumed(h))
      ensures producers == old(producers)
                + [Producer(old(handlers)[h].client, old(tasks)[h].transport, old(handlers)[h].request.kind, true)]
    {
      hide Reached;
      StillValid(State(), Resumed(h));
      var c, p := handlers[h].client, |producers|;
      var reg := clients[c].producers;
      producers := producers + [Producer(c, tasks[h].transport, handlers[h].request.kind, true)];
      clients := clients[c := clients[c].(producers := Registry(reg.order + [p], reg.present + {p}))];
      Respond(h);
      Loop(h, 0);
    }

    method Toggled(h: nat)
      requires Valid() && Enabled(State(), Resumed(h)) && tasks[h].Replying?
      modifies this
      ensures Valid() && State() == Step(old(State()), Resumed(h))
    {
      hide Reached;
      StillValid(State(), Resumed(h));
      tasks := tasks - {h};
      Respond(h);
    }

    method Continued(h: nat)
      requires Valid() && Enabled(State(), Resumed(h)) && tasks[h].Between?
      modifies this
      ensures Valid() && State() == Step(old(State()), Resumed(h))
    {
      hide Reached;
      StillValid(State(), Resumed(h));
      Loop(h, tasks[h].cursor);
    }

    /** The consumer is stored and announced. */
    method StoreConsumer(h: nat)
      requires Valid() && h in tasks && tasks[h].Awaiting?
      modifies this
      ensures State() == Hold(old(State()), h)
      ensures var task := old(tasks)[h];
              var p := old(clients)[task.prod].producers.order[task.k];
              consumers == old(consumers)
              + [Consumer(task.cons, task.transport,
                          ConsumerInfo(p, old(producers)[p].kind, old(clients)[task.prod].id), true)]
    {
      var task, n := tasks[h], |consumers|;
      var p := clients[task.prod].producers.order[task.k];
      var info := ConsumerInfo(p, producers[p].kind, clients[task.prod].id);
      consumers := consumers + [Consumer(task.cons, task.transport, info, true)];
      clients := clients[task.cons := clients[task.cons].(consumers := clients[task.cons].consumers + {n})];
      Send(task.cons, Created(n, info));
    }

    method Consumed(h: nat)
      requires Valid() && Enabled(State(), Resumed(h)) && tasks[h].Awaiting?
      modifies this
      ensures Valid() && State() == Step(old(State()), Resumed(h))
    {
      hide Reached;
      StillValid(State(), Resumed(h));
      hide ConsumeFrom;
      var task := tasks[h];
      StoreConsumer(h);
      ConsumeClient(h, task.cursor, task.prod, task.cons, task.k + 1);
    }

    /** The exception of a rejected `consume` ends its handler. */
    method Rejected(h: nat)
      requires Valid() && Enabled(State(), ConsumeRejected(h))
      modifies this
      ensures Valid() && State() == Step(old(State()), ConsumeRejected(h))
    {
      hide Reached;
      StillValid(State(), ConsumeRejected(h));
      lost := lost + Abandoned(State(), h);
      tasks := tasks - {h};
    }

    /** A rejected `createWebRtcTransport`, or a `produce` that failed and was caught. */
    method GaveUp(h: nat)
      requires Valid() && Enabled(State(), Failed(h))
      modifies this
      ensures Valid() && State() == Step(old(State()), Failed(h))
    {
      hide Reached;
      StillValid(State(), Failed(h));
      tasks := tasks - {h};
    }
  }
}
