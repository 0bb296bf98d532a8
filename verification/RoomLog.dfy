/**
 What a client is told is what the room holds: replaying the notifications sent to a client
 yields exactly its map of consumers, in every reachable state.
 */
module RoomLog {
  import opened Base
  import opened RoomModel
  import opened RoomInvariant

  /** A reader's knowledge after some messages; `ok` records whether they made sense. */
  datatype View = View(open: map<nat, ConsumerInfo>, seen: set<nat>, ok: bool)

  function Note(v: View, m: Message): View {
    match m
    case Created(k, info) => View(v.open[k := info], v.seen + {k}, v.ok && k !in v.seen)
    case Closed(k) => View(v.open - {k}, v.seen, v.ok && k in v.open)
    case Response(_, _, _) => v
  }

  function Replay(log: seq<Message>): View
    decreases |log|
  {
    if log == [] then View(map[], {}, true) else Note(Replay(log[..|log| - 1]), log[|log| - 1])
  }

  lemma ReplayAppend(log: seq<Message>, m: Message)
    ensures Replay(log + [m]) == Note(Replay(log), m)
  {
    assert (log + [m])[..|log|] == log;
  }

  /** A sensible log creates each consumer once and closes it at most once, afterwards. */
  lemma {:induction false} SensibleLog(log: seq<Message>, a: nat, b: nat)
    requires Replay(log).ok && a < b < |log|
    requires !log[a].Response? && !log[b].Response? && log[a].consumer == log[b].consumer
    ensures log[a].Created? && log[b].Closed?
    decreases |log|
  {
    var init := log[..|log| - 1];
    if b < |init| {
      SensibleLog(init, a, b);
    } else if log[b].Created? {
      SeenCreated(init, a);
    } else if log[a].Closed? {
      ClosedGone(init, a);
    }
  }

  /** Whatever a sensible log mentions, it created before. */
  lemma {:induction false} SeenCreated(log: seq<Message>, a: nat)
    requires Replay(log).ok && a < |log| && !log[a].Response?
    ensures log[a].consumer in Replay(log).seen
    ensures exists n: nat :: n <= a && log[n].Created? && log[n].consumer == log[a].consumer
    decreases |log|
  {
    var init := log[..|log| - 1];
    if a < |init| {
      SeenCreated(init, a);
      var n: nat :| n <= a && init[n].Created? && init[n].consumer == init[a].consumer;
      assert log[n].Created?;
    } else if log[a].Closed? {
      OpenCreated(init, log[a].consumer);
    }
  }

  lemma {:induction false} OpenCreated(log: seq<Message>, k: nat)
    requires Replay(log).ok && k in Replay(log).open
    ensures k in Replay(log).seen
    ensures exists n: nat :: n < |log| && log[n] == Created(k, Replay(log).open[k])
    decreases |log|
  {
    var init := log[..|log| - 1];
    if k in Replay(init).open && log[|log| - 1] != Created(k, Replay(log).open[k]) {
      OpenCreated(init, k);
      var n: nat :| n < |init| && init[n] == Created(k, Replay(init).open[k]);
      assert log[n] == Created(k, Replay(log).open[k]) by {
        if log[|log| - 1].Created? && log[|log| - 1].consumer == k {
          assert false;
        }
      }
    }
  }

  lemma {:induction false} ClosedGone(log: seq<Message>, a: nat)
    requires Replay(log).ok && a < |log| && log[a].Closed?
    ensures log[a].consumer !in Replay(log).open
    ensures log[a].consumer in Replay(log).seen
    decreases |log|
  {
    var init := log[..|log| - 1];
    if a < |init| {
      ClosedGone(init, a);
    } else {
      OpenCreated(init, log[a].consumer);
    }
  }

  /** What was created and is no longer open was closed in between. */
  lemma {:induction false} GoneClosed(log: seq<Message>, k: nat)
    requires Replay(log).ok && k in Replay(log).seen && k !in Replay(log).open
    ensures Closed(k) in log
    decreases |log|
  {
    var init := log[..|log| - 1];
    if k in Replay(init).seen && k !in Replay(init).open {
      GoneClosed(init, k);
    }
  }

  // ---------- the invariant ----------

  /** What a set of held consumers looks like from the outside. */
  function Picture(consumers: seq<Consumer>, held: set<nat>): map<nat, ConsumerInfo> {
    map k | k in held && k < |consumers| :: consumers[k].info
  }

  ghost predicate Told(consumers: seq<Consumer>, cl: Client) {
    var v := Replay(cl.log);
    && v.ok
    && (forall k :: k in v.seen ==> k < |consumers|)
    && (!cl.closed ==> v.open == Picture(consumers, cl.consumers))
  }

  ghost predicate Logged(s: Room) {
    forall c :: 0 <= c < |s.clients| ==> Told(s.consumers, s.clients[c])
  }

  /** Nothing about consumers or messages changed; new clients are blank. */
  ghost predicate Silent(s: Room, s': Room) {
    && s'.consumers == s.consumers && |s.clients| <= |s'.clients|
    && (forall c :: 0 <= c < |s.clients| ==>
          && s'.clients[c].log == s.clients[c].log
          && s'.clients[c].consumers == s.clients[c].consumers
          && s'.clients[c].closed == s.clients[c].closed)
    && (forall c :: |s.clients| <= c < |s'.clients| ==> s'.clients[c].log == [] && s'.clients[c].consumers == {})
  }

  lemma SilentLogged(s: Room, s': Room)
    requires Logged(s) && Silent(s, s')
    ensures Logged(s')
  {
  }

  /** Open flags and later consumers do not show in a picture. */
  lemma ToldStill(consumers: seq<Consumer>, consumers': seq<Consumer>, cl: Client)
    requires Told(consumers, cl) && |consumers| <= |consumers'|
    requires forall k :: 0 <= k < |consumers| ==> consumers'[k].info == consumers[k].info
    requires forall k :: k in cl.consumers ==> k < |consumers|
    ensures Told(consumers', cl)
  {
    assert Picture(consumers', cl.consumers) == Picture(consumers, cl.consumers);
  }

  /** One client's record may change when what it was told still fits. */
  lemma OneLogged(s: Room, c: nat, cl: Client)
    requires Logged(s) && c < |s.clients| && Told(s.consumers, cl)
    ensures Logged(s.(clients := s.clients[c := cl]))
  {
    hide Told;
  }

  lemma ToldResponse(consumers: seq<Consumer>, cl: Client, a: Answer, id: RequestId, h: nat)
    requires Told(consumers, cl)
    ensures Told(consumers, cl.(log := cl.log + [Response(a, id, h)]))
  {
    ReplayAppend(cl.log, Response(a, id, h));
  }

  lemma ToldClosed(consumers: seq<Consumer>, cl: Client)
    requires Told(consumers, cl)
    ensures Told(consumers, cl.(closed := true))
  {
  }

  lemma ToldCreated(consumers: seq<Consumer>, co: Consumer, cl: Client)
    requires Told(consumers, cl) && forall k :: k in cl.consumers ==> k < |consumers|
    ensures var n := |consumers|;
            Told(consumers + [co], cl.(consumers := cl.consumers + {n},
                                       log := if cl.closed then cl.log else cl.log + [Created(n, co.info)]))
  {
    var n := |consumers|;
    ReplayAppend(cl.log, Created(n, co.info));
    assert Picture(consumers + [co], cl.consumers + {n}) == Picture(consumers, cl.consumers)[n := co.info];
  }

  lemma RespondLogged(s: Room, h: nat)
    requires Logged(s) && h < |s.handlers| && s.handlers[h].client < |s.clients|
    ensures Logged(Reply(s, h))
  {
    var c := s.handlers[h].client;
    var m := Response(AnswerTo(s.handlers[h].request), s.handlers[h].requestId, h);
    assert Told(s.consumers, s.clients[c]);
    hide Told, Logged;
    ToldResponse(s.consumers, s.clients[c], m.answer, m.requestId, h);
    OneLogged(s, c, s.clients[c].(log := s.clients[c].log + [m]));
  }

  lemma CloseConsumerLogged(s: Room, k: nat)
    requires Coherent(s) && Logged(s) && k < |s.consumers| && s.consumers[k].open
    ensures s.consumers[k].owner < |s.clients| && Logged(CloseConsumer(s, k))
  {
    hide TableOk, TasksOk;
    assert ConsumerOk(s.clients, s.transports, |s.producers|, k, s.consumers[k]);
    var o := s.consumers[k].owner;
    var s' := CloseConsumer(s, k);
    forall c | 0 <= c < |s'.clients| ensures Told(s'.consumers, s'.clients[c]) {
      assert HoldingsOk(s.consumers, c, s.clients[c].consumers);
      assert Told(s.consumers, s.clients[c]);
      hide Coherent, Logged;
      if c == o {
        OwnerTold(s, k);
      } else {
        ToldStill(s.consumers, s'.consumers, s.clients[c]);
      }
    }
  }

  lemma OwnerTold(s: Room, k: nat)
    requires k < |s.consumers| && s.consumers[k].open && s.consumers[k].owner < |s.clients|
    requires var cl := s.clients[s.consumers[k].owner];
             Told(s.consumers, cl) && HoldingsOk(s.consumers, s.consumers[k].owner, cl.consumers) && k in cl.consumers
    ensures var s' := CloseConsumer(s, k); Told(s'.consumers, s'.clients[s.consumers[k].owner])
  {
    var o := s.consumers[k].owner;
    var s' := CloseConsumer(s, k);
    ReplayAppend(s.clients[o].log, Closed(k));
    assert Picture(s'.consumers, s'.clients[o].consumers) == Picture(s.consumers, s.clients[o].consumers) - {k};
  }

  lemma {:induction false} CloseConsumersOnLogged(s: Room, t: nat, k: nat)
    requires Coherent(s) && Logged(s) && k <= |s.consumers|
    ensures Owned(s) && Logged(CloseConsumersOn(s, t, k))
    decreases |s.consumers| - k
  {
    CoherentIsIndexed(s);
    assert k < |s.consumers| ==> s.consumers[k].owner < |s.clients|;
    hide Coherent, Logged, Owned, Indexed, Named, CloseConsumer, Shrinks;
    if k < |s.consumers| {
      if s.consumers[k].open && s.consumers[k].transport == t {
        CloseConsumerLogged(s, k);
        CloseConsumerCoherent(s, k);
        CloseConsumerShrinks(s, k);
        CoherentIsIndexed(CloseConsumer(s, k));
        CloseConsumersOnLogged(CloseConsumer(s, k), t, k + 1);
      } else {
        CloseConsumersOnLogged(s, t, k + 1);
      }
    }
  }

  lemma {:induction false} CloseProducersOnSilent(s: Room, t: nat, p: nat)
    requires Owned(s) && p <= |s.producers|
    ensures Silent(s, CloseProducersOn(s, t, p))
    decreases |s.producers| - p
  {
    if p < |s.producers| {
      if s.producers[p].open && s.producers[p].transport == t {
        CloseProducersOnSilent(CloseProducer(s, p), t, p + 1);
      } else {
        CloseProducersOnSilent(s, t, p + 1);
      }
    }
  }

  lemma CloseTransportLogged(s: Room, t: nat)
    requires Coherent(s) && Logged(s) && t < |s.transports|
    ensures Owned(s) && Logged(CloseTransport(s, t))
  {
    CoherentIsIndexed(s);
    if s.transports[t].open {
      var s1 := s.(transports := s.transports[t := s.transports[t].(open := false)]);
      FlagTransport(s, t);
      hide Coherent, Indexed, Named, Owned;
      CloseProducersOnOk(s1, t, 0);
      CloseProducersOnSilent(s1, t, 0);
      SilentLogged(s, s1);
      hide Logged;
      SilentLogged(s1, CloseProducersOn(s1, t, 0));
      CloseConsumersOnLogged(CloseProducersOn(s1, t, 0), t, 0);
    }
  }

  lemma {:induction false} CloseTransportsFromLogged(s: Room, t: nat)
    requires Coherent(s) && Drained(s) && Logged(s) && t <= |s.transports|
    ensures Owned(s) && Logged(CloseTransportsFrom(s, t))
    decreases |s.transports| - t
  {
    CoherentIsIndexed(s);
    hide Coherent, Drained, Logged, CloseTransport, Indexed, Named;
    if t < |s.transports| {
      CloseTransportOk(s, t);
      CloseTransportLogged(s, t);
      CloseTransportsFromLogged(CloseTransport(s, t), t + 1);
    }
  }

  lemma CloseRoomLogged(s: Room)
    requires Coherent(s) && Drained(s) && Logged(s)
    ensures Owned(s) && Logged(CloseRoom(s))
  {
    CoherentIsIndexed(s);
    if !s.routerClosed {
      var s1 := s.(routerClosed := true);
      RestOk(s, true, s.closings, s.lost);
      SilentLogged(s, s1);
      hide Coherent, Logged, Indexed, Named;
      CloseTransportsFromLogged(s1, 0);
      var s2 := CloseTransportsFrom(s1, 0);
      SilentLogged(s2, s2.(closings := s.closings + 1)) by { hide Owned; }
    }
  }

  /** A closing client is told nothing more. */
  lemma SocketClosedLogged(s: Room, c: nat)
    requires Coherent(s) && Drained(s) && Logged(s) && c < |s.clients|
    ensures Indexed(s) && Logged(DoSocketClosed(s, c))
  {
    DepartedOk(s, c);
    DepartedLogged(s, c);
    hide Coherent, Drained, Logged;
    CloseRoomLogged(Departed(s, c));
  }

  lemma ClosingLogged(s: Room, c: nat)
    requires Logged(s) && c < |s.clients|
    ensures Logged(s.(clients := s.clients[c := s.clients[c].(closed := true)]))
  {
    ToldClosed(s.consumers, s.clients[c]);
    hide Told;
    OneLogged(s, c, s.clients[c].(closed := true));
  }

  lemma DepartedLogged(s: Room, c: nat)
    requires Coherent(s) && Drained(s) && Logged(s) && c < |s.clients|
    ensures Indexed(s) && Logged(Departed(s, c))
  {
    CoherentIsIndexed(s);
    CoherentClient(s, c);
    hide Coherent, Drained, Logged, Named, Shrinks, TransportClosed, CloseTransport;
    var s1 := s.(clients := s.clients[c := s.clients[c].(closed := true)]);
    ClosingLogged(s, c);
    FlagOk(s, c, s.clients[c].(closed := true));
    ClosedDrained(s, c);
    CloseOptionalLogged(s1, s.clients[c].snd);
    CloseOptionalOk(s1, s.clients[c].snd);
    var s2 := CloseOptional(s1, s.clients[c].snd);
    CloseOptionalLogged(s2, s.clients[c].rcv);
    CloseOptionalOk(s2, s.clients[c].rcv);
    var s3 := CloseOptional(s2, s.clients[c].rcv);
    LeaveLogged(s3, Find(s3.entries, s.clients[c].id));
  }

  lemma LeaveLogged(s: Room, i: nat)
    requires Logged(s)
    ensures i < |s.entries| ==> Logged(s.(entries := s.entries[i := Gone]))
  {
    hide Told;
  }

  lemma CloseOptionalLogged(s: Room, t: Option<nat>)
    requires Coherent(s) && Logged(s) && (t.Some? ==> t.value < |s.transports|)
    ensures Owned(s) && Logged(CloseOptional(s, t))
  {
    CoherentIsIndexed(s);
    hide Coherent, Logged, Indexed, Named, Owned, CloseTransport;
    if t.Some? {
      CloseTransportLogged(s, t.value);
    }
  }

  /** A new consumer is announced in the step that stores it. */
  lemma HoldLogged(s: Room, h: nat)
    requires Coherent(s) && Indexed(s) && Named(s) && Logged(s) && h in s.tasks && s.tasks[h].Awaiting?
    ensures Logged(Hold(s, h))
  {
    var s' := Hold(s, h);
    var o := s.tasks[h].cons;
    assert ClientsOk(s);
    hide Coherent, Indexed, Named, Told;
    forall c | 0 <= c < |s'.clients| ensures Told(s'.consumers, s'.clients[c]) {
      assert HoldingsOk(s.consumers, c, s.clients[c].consumers);
      hide ClientsOk;
      if c == o {
        ToldCreated(s.consumers, s'.consumers[|s.consumers|], s.clients[o]);
      } else {
        ToldStill(s.consumers, s'.consumers, s.clients[c]);
      }
    }
  }

  lemma AdvanceLogged(s: Room, h: nat, cursor: nat)
    requires Logged(s) && Indexed(s) && h < |s.handlers| && cursor <= |s.entries|
    ensures Logged(Advance(s, h, cursor))
  {
    hide Logged, Visit;
    var done := s.(tasks := s.tasks - {h});
    SilentLogged(s, done);
    if NextEntry(s.entries, s.clients[s.handlers[h].client].id, cursor) < |s.entries| {
      SilentLogged(s, Advance(s, h, cursor));
    } else {
      RespondLogged(done, h);
    }
  }

  lemma OpenedLogged(s: Room, h: nat)
    requires Indexed(s) && Logged(s) && h in s.tasks && s.tasks[h].Opening?
    ensures Logged(DoOpened(s, h))
  {
    hide Logged;
    SilentLogged(s, Opened(s, h));
    RespondLogged(Opened(s, h), h);
  }

  lemma ProducedLogged(s: Room, h: nat)
    requires Coherent(s) && Indexed(s) && Logged(s) && h in s.tasks && s.tasks[h].Publishing?
    ensures Logged(DoProduced(s, h))
  {
    RegisterOk(s, h);
    CoherentIsIndexed(Register(s, h));
    hide Coherent, Logged;
    assert Silent(s, Registered(s, h)) by { hide Indexed; }
    SilentLogged(s, Registered(s, h));
    RespondLogged(Registered(s, h), h);
    hide Advance, Indexed;
    AdvanceLogged(Register(s, h), h, 0);
  }

  lemma ConsumedLogged(s: Room, h: nat)
    requires Coherent(s) && Indexed(s) && Named(s) && Logged(s) && h in s.tasks && s.tasks[h].Awaiting?
    ensures Logged(DoConsumed(s, h))
  {
    HoldOk(s, h);
    HoldLogged(s, h);
    CoherentIsIndexed(Hold(s, h));
    hide Coherent, Logged, Hold, ConsumeFrom;
    SilentLogged(Hold(s, h), DoConsumed(s, h));
  }

  lemma ResumedLogged(s: Room, h: nat)
    requires Coherent(s) && Indexed(s) && Named(s) && Logged(s) && h in s.tasks
    ensures Logged(DoResumed(s, h))
  {
    match s.tasks[h] {
      case Opening => OpenedLogged(s, h);
      case Publishing(_) => ProducedLogged(s, h);
      case Replying =>
        hide Coherent;
        SilentLogged(s, s.(tasks := s.tasks - {h}));
        RespondLogged(s.(tasks := s.tasks - {h}), h);
      case Between(cursor) => AdvanceLogged(s, h, cursor);
      case Awaiting(_, _, _, _, _) => ConsumedLogged(s, h);
    }
  }

  lemma AskLogged(s: Room, e: Event)
    requires Coherent(s) && Indexed(s) && Named(s) && Logged(s) && Enabled(s, e)
    requires e.AskTransport? || e.AskProducer? || e.AskPause? || e.AskResume? || e.AskCapabilities? || e.Capabilities?
    ensures Logged(Step(s, e))
  {
    hide Coherent, Logged;
    if e.AskCapabilities? {
      var s1 := Receive(s, e.client, GetRouterCapabilities, e.requestId);
      SilentLogged(s, s1);
      RespondLogged(s1, |s.handlers|);
    } else {
      SilentLogged(s, Step(s, e));
    }
  }

  lemma JoinLogged(s: Room, c: nat, id: RequestId)
    requires Coherent(s) && Indexed(s) && Logged(s) && c < |s.clients|
    ensures Logged(DoAskJoin(s, c, id))
  {
    JoiningOk(s, c, id);
    hide Coherent, Logged, Advance;
    SilentLogged(s, Joining(s, c, id));
    AdvanceLogged(Joining(s, c, id), |s.handlers|, 0);
  }

  lemma StepLogged(s: Room, e: Event)
    requires Coherent(s) && Drained(s) && Indexed(s) && Named(s) && Logged(s) && Enabled(s, e)
    ensures Logged(Step(s, e))
  {
    match e {
      case Add(id) => hide Coherent, Logged; SilentLogged(s, DoAdd(s, id));
      case AskJoin(c, id) => JoinLogged(s, c, id);
      case SocketClosed(c) => SocketClosedLogged(s, c);
      case Resumed(h) => ResumedLogged(s, h);
      case ConsumeRejected(h) => hide Coherent, Logged, Abandoned; SilentLogged(s, DoRejected(s, h));
      case Failed(h) => hide Coherent, Logged; SilentLogged(s, s.(tasks := s.tasks - {h}));
      case ProducerLost(p) => hide Coherent, Logged; SilentLogged(s, CloseProducer(s, p));
      case ConsumerLost(k) => CloseConsumerLogged(s, k);
      case _ => AskLogged(s, e);
    }
  }

  /**
   The notification log refines the state: in every reachable state the log of every client
   makes sense, and while a client's events are open its log replays to exactly the consumers
   the room holds for it, each with its producer, its kind and its producing client.
   */
  lemma {:induction false} LogRefinesState(es: seq<Event>)
    requires Possible(es)
    ensures Logged(After(es))
    decreases |es|
  {
    if es != [] {
      LogRefinesState(es[..|es| - 1]);
      StepLogged(After(es[..|es| - 1]), es[|es| - 1]);
    }
  }
}
