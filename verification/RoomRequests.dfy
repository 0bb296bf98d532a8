/**
 Requests and responses on the room's side: every response answers one received request of
 the same client, carries its id and has the type that request calls for, and no request is
 answered twice.
 */
module RoomRequests {
  import opened Base
  import opened RoomModel
  import opened RoomInvariant

  /** What a request asked to be created is there. */
  predicate Provided(cl: Client, r: Request) {
    r.CreateTransport? ==> if r.role.Producing? then cl.snd.Some? else cl.rcv.Some?
  }

  /** The response answers a request of client `c`, and a transport it announces is there. */
  ghost predicate AnswersFor(s: Room, c: nat, m: Message)
    requires c < |s.clients|
  {
    m.Response? ==>
      && m.handler < |s.handlers|
      && s.handlers[m.handler].client == c
      && m.requestId == s.handlers[m.handler].requestId
      && m.answer == AnswerTo(s.handlers[m.handler].request)
      && Provided(s.clients[c], s.handlers[m.handler].request)
  }

  /** A handler that still has its answer to give. */
  predicate Owes(s: Room, h: nat) {
    h in s.tasks && h < |s.handlers|
    && (s.tasks[h].Opening? || s.tasks[h].Publishing? || s.tasks[h].Replying? || s.handlers[h].request.JoinCall?)
  }

  ghost predicate Answered(log: seq<Message>, h: nat) {
    exists a :: 0 <= a < |log| && log[a].Response? && log[a].handler == h
  }

  ghost predicate AnsweredOnce(log: seq<Message>) {
    forall a, b | 0 <= a < |log| && 0 <= b < |log| && log[a].Response? && log[b].Response?
      :: log[a].handler == log[b].handler ==> a == b
  }

  ghost predicate ClientAnswers(s: Room, c: nat)
    requires c < |s.clients|
  {
    var log := s.clients[c].log;
    && (forall a :: 0 <= a < |log| ==> AnswersFor(s, c, log[a]))
    && AnsweredOnce(log)
    && (forall h :: Owes(s, h) ==> !Answered(log, h))
  }

  ghost predicate Correlated(s: Room) {
    forall c :: 0 <= c < |s.clients| ==> ClientAnswers(s, c)
  }

  /** At most notifications are added to a log, and no handler starts to owe again. */
  ghost predicate AddsNoAnswer(s: Room, s': Room) {
    && |s.clients| <= |s'.clients| && s.handlers <= s'.handlers
    && (forall c :: 0 <= c < |s.clients| ==> NoAnswerAdded(s.clients[c].log, s'.clients[c].log))
    && (forall c :: 0 <= c < |s.clients| ==> Silent(s.clients[c], s'.clients[c]))
    && (forall c :: 0 <= c < |s.clients| ==> KeepsSides(s.clients[c], s'.clients[c]))
    && (forall c :: |s.clients| <= c < |s'.clients| ==> s'.clients[c].log == [])
    && (forall h: nat :: Owes(s', h) ==> h >= |s.handlers| || Owes(s, h))
  }

  /** Nothing is said to a client whose events are closed, and they stay closed. */
  predicate Silent(cl: Client, cl': Client) {
    cl.closed ==> cl'.closed && cl'.log == cl.log
  }

  predicate KeepsSides(cl: Client, cl': Client) {
    (cl.snd.Some? ==> cl'.snd.Some?) && (cl.rcv.Some? ==> cl'.rcv.Some?)
  }

  ghost predicate NoAnswerAdded(log: seq<Message>, log': seq<Message>) {
    && log <= log'
    && forall a :: |log| <= a < |log'| ==> !log'[a].Response?
  }

  lemma NoAnswerCorrelated(s: Room, s': Room)
    requires Correlated(s) && AddsNoAnswer(s, s')
    ensures Correlated(s')
  {
    forall c | 0 <= c < |s'.clients| ensures ClientAnswers(s', c) {
      if c < |s.clients| {
        NoAnswerClient(s, s', c);
      }
    }
  }

  lemma NoAnswerClient(s: Room, s': Room, c: nat)
    requires c < |s.clients| && ClientAnswers(s, c) && AddsNoAnswer(s, s')
    ensures ClientAnswers(s', c)
  {
    var log, log' := s.clients[c].log, s'.clients[c].log;
    assert forall a :: 0 <= a < |log| ==> log'[a] == log[a];
    forall h: nat ensures Answered(log', h) ==> Answered(log, h) && h < |s.handlers| {
      if Answered(log', h) {
        var a :| 0 <= a < |log'| && log'[a].Response? && log'[a].handler == h;
        assert a < |log| && AnswersFor(s, c, log[a]);
        assert Answered(log, h);
      }
    }
  }

  /** Giving the answer that is owed, and owing it no more. */
  lemma ReplyCorrelated(s: Room, h: nat)
    requires Correlated(s) && h < |s.handlers| && s.handlers[h].client < |s.clients| && !Owes(s, h)
    requires Provided(s.clients[s.handlers[h].client], s.handlers[h].request)
    requires !Answered(s.clients[s.handlers[h].client].log, h)
    ensures Correlated(Reply(s, h))
  {
    var c := s.handlers[h].client;
    var s' := Reply(s, h);
    forall o | 0 <= o < |s'.clients| ensures ClientAnswers(s', o) {
      assert ClientAnswers(s, o);
      if o == c && !s.clients[c].closed {
        ReplyClient(s, h);
      }
    }
  }

  lemma ReplyClient(s: Room, h: nat)
    requires h < |s.handlers| && s.handlers[h].client < |s.clients| && ClientAnswers(s, s.handlers[h].client)
    requires !Owes(s, h) && !s.clients[s.handlers[h].client].closed
    requires Provided(s.clients[s.handlers[h].client], s.handlers[h].request)
    requires !Answered(s.clients[s.handlers[h].client].log, h)
    ensures ClientAnswers(Reply(s, h), s.handlers[h].client)
  {
    var c := s.handlers[h].client;
    var s' := Reply(s, h);
    var log, log' := s.clients[c].log, s'.clients[c].log;
    assert forall a :: 0 <= a < |log| ==> log'[a] == log[a];
    assert AnsweredOnce(log') by {
      assert forall a :: 0 <= a < |log| && log[a].Response? && log[a].handler == h ==> Answered(log, h);
    }
    assert forall g: nat :: Owes(s', g) ==> Owes(s, g);
    forall g: nat ensures Answered(log', g) ==> Answered(log, g) || g == h {
      if Answered(log', g) {
        var a :| 0 <= a < |log'| && log'[a].Response? && log'[a].handler == g;
        assert a < |log| ==> Answered(log, g);
      }
    }
  }

  lemma NewHandlerUnanswered(s: Room, c: nat)
    requires Correlated(s) && c < |s.clients|
    ensures !Answered(s.clients[c].log, |s.handlers|)
  {
    assert ClientAnswers(s, c);
    forall a | 0 <= a < |s.clients[c].log|
      ensures !(s.clients[c].log[a].Response? && s.clients[c].log[a].handler == |s.handlers|)
    {
      assert AnswersFor(s, c, s.clients[c].log[a]);
    }
  }

  lemma OwedUnanswered(s: Room, h: nat, c: nat)
    requires Correlated(s) && Owes(s, h) && c < |s.clients|
    ensures !Answered(s.clients[c].log, h)
  {
    assert ClientAnswers(s, c);
  }

  // ---------- the steps ----------

  /** A loop step; a join handler that ends gives its answer. */
  lemma AdvanceCorrelated(s: Room, h: nat, cursor: nat)
    requires Indexed(s) && Correlated(s) && h < |s.handlers| && Loops(s.handlers[h].request) && cursor <= |s.entries|
    requires s.handlers[h].request.JoinCall? ==> !Answered(s.clients[s.handlers[h].client].log, h)
    ensures Correlated(Advance(s, h, cursor))
  {
    var i := NextEntry(s.entries, s.clients[s.handlers[h].client].id, cursor);
    var done := s.(tasks := s.tasks - {h});
    assert AddsNoAnswer(s, done) && !Owes(done, h) by { hide Indexed, Correlated; }
    if i < |s.entries| {
      assert Visit(s, h, i).Between? || Visit(s, h, i).Awaiting?;
      hide Visit;
      AdvanceMid(s, h, Visit(s, h, i));
    } else {
      hide Indexed, Correlated, AddsNoAnswer;
      NoAnswerCorrelated(s, done);
      if s.handlers[h].request.JoinCall? {
        ReplyCorrelated(done, h);
      }
    }
  }

  /** Only a client's own requests are answered to it. */
  lemma AnsweredOwn(s: Room, c: nat, h: nat)
    requires c < |s.clients| && ClientAnswers(s, c)
    ensures Answered(s.clients[c].log, h) ==> h < |s.handlers| && s.handlers[h].client == c
  {
    var log := s.clients[c].log;
    if Answered(log, h) {
      var a :| 0 <= a < |log| && log[a].Response? && log[a].handler == h;
      assert AnswersFor(s, c, log[a]);
    }
  }

  /** Suspending inside the loops owes an answer only for a join that has not given it. */
  lemma AdvanceMid(s: Room, h: nat, task: Task)
    requires Indexed(s) && Correlated(s) && h < |s.handlers| && (task.Between? || task.Awaiting?)
    requires s.handlers[h].request.JoinCall? ==> !Answered(s.clients[s.handlers[h].client].log, h)
    ensures Correlated(Suspend(s, h, task))
  {
    var s' := Suspend(s, h, task);
    forall c | 0 <= c < |s'.clients| ensures ClientAnswers(s', c) {
      assert ClientAnswers(s, c);
      forall g | Owes(s', g) ensures !Answered(s'.clients[c].log, g) {
        AnsweredOwn(s, c, g);
        assert g != h ==> Owes(s, g);
      }
    }
  }

  lemma AskCorrelated(s: Room, e: Event)
    requires Indexed(s) && Named(s) && Correlated(s) && Enabled(s, e)
    requires !e.SocketClosed? && !e.Resumed? && !e.AskJoin? && !e.ConsumerLost?
    ensures Correlated(Step(s, e))
  {
    if e.AskCapabilities? {
      var s1 := Receive(s, e.client, GetRouterCapabilities, e.requestId);
      assert AddsNoAnswer(s, s1) && !Owes(s1, |s.handlers|);
      hide AddsNoAnswer;
      NoAnswerCorrelated(s, s1);
      NewHandlerUnanswered(s, e.client);
      ReplyCorrelated(s1, |s.handlers|);
    } else {
      QuietAddsNone(s, e);
      hide AddsNoAnswer, Correlated, Step;
      NoAnswerCorrelated(s, Step(s, e));
    }
  }

  lemma QuietAddsNone(s: Room, e: Event)
    requires Indexed(s) && Named(s) && Enabled(s, e)
    requires !e.SocketClosed? && !e.Resumed? && !e.AskJoin? && !e.ConsumerLost? && !e.AskCapabilities?
    ensures AddsNoAnswer(s, Step(s, e))
  {
    match e {
      case AskTransport(c, id, role) => AskTransportAddsNone(s, c, id, role); hide AddsNoAnswer;
      case AskProducer(c, id, kind) => AskProducerAddsNone(s, c, id, kind); hide AddsNoAnswer;
      case AskPause(c, id, p) => AskToggleAddsNone(s, c, PauseProducer, id, p); hide AddsNoAnswer;
      case AskResume(c, id, p) => AskToggleAddsNone(s, c, ResumeProducer, id, p); hide AddsNoAnswer;
      case _ => hide Abandoned;
    }
  }

  lemma AskTransportAddsNone(s: Room, c: nat, id: RequestId, role: Role)
    requires c < |s.clients|
    ensures AddsNoAnswer(s, DoAskTransport(s, c, id, role))
  {
  }

  lemma AskToggleAddsNone(s: Room, c: nat, r: Request, id: RequestId, p: nat)
    requires c < |s.clients|
    ensures AddsNoAnswer(s, DoAskToggle(s, c, r, id, p))
  {
  }

  lemma AskProducerAddsNone(s: Room, c: nat, id: RequestId, kind: Kind)
    requires c < |s.clients|
    ensures AddsNoAnswer(s, DoAskProducer(s, c, id, kind))
  {
  }

  lemma JoinCorrelated(s: Room, c: nat, id: RequestId)
    requires Coherent(s) && Indexed(s) && Correlated(s) && c < |s.clients|
    ensures Correlated(DoAskJoin(s, c, id))
  {
    JoiningOk(s, c, id);
    var s1 := Joining(s, c, id);
    assert AddsNoAnswer(s, s1) by { hide Coherent, Correlated; }
    NewHandlerUnanswered(s, c);
    hide Coherent, Correlated, AddsNoAnswer, Advance;
    NoAnswerCorrelated(s, s1);
    AdvanceCorrelated(s1, |s.handlers|, 0);
  }

  /** The creating handler answers first and then offers its producer around. */
  lemma ProducedCorrelated(s: Room, h: nat)
    requires Coherent(s) && Indexed(s) && Correlated(s) && h in s.tasks && s.tasks[h].Publishing?
    ensures Correlated(DoProduced(s, h))
  {
    RegisterOk(s, h);
    var r := Register(s, h);
    EndOk(r, h);
    CoherentIsIndexed(r);
    var quiet := r.(tasks := r.tasks - {h});
    CoherentIsIndexed(quiet);
    QuietRegistered(s, h);
    hide Coherent, Correlated, Register, Advance;
    AdvanceCorrelated(quiet, h, 0);
    assert quiet.tasks - {h} == r.tasks - {h};
    SameAdvance(r, quiet, h, 0);
  }

  lemma QuietRegistered(s: Room, h: nat)
    requires Indexed(s) && Correlated(s) && h in s.tasks && s.tasks[h].Publishing?
    ensures var r := Register(s, h);
            && r.handlers == s.handlers && r.handlers[h].request.CreateProducer?
            && Correlated(r.(tasks := r.tasks - {h}))
  {
    var c := s.handlers[h].client;
    OwedUnanswered(s, h, c);
    var s1 := Registered(s, h);
    var done := s1.(tasks := s1.tasks - {h});
    assert done.clients[c].log == s.clients[c].log;
    assert AddsNoAnswer(s, done) && !Owes(done, h) by { hide Indexed, Correlated; }
    hide Correlated, AddsNoAnswer;
    NoAnswerCorrelated(s, done);
    ReplyCorrelated(done, h);
    assert Reply(done, h) == Register(s, h).(tasks := Register(s, h).tasks - {h});
  }

  lemma OpenedCorrelated(s: Room, h: nat)
    requires Indexed(s) && Correlated(s) && h in s.tasks && s.tasks[h].Opening?
    ensures Correlated(DoOpened(s, h))
  {
    var c := s.handlers[h].client;
    OwedUnanswered(s, h, c);
    var s1 := Opened(s, h);
    assert s1.clients[c].log == s.clients[c].log;
    assert AddsNoAnswer(s, s1) && !Owes(s1, h) by { hide Correlated; }
    hide Correlated, AddsNoAnswer;
    NoAnswerCorrelated(s, s1);
    ReplyCorrelated(s1, h);
  }

  lemma ReplyingCorrelated(s: Room, h: nat)
    requires Indexed(s) && Correlated(s) && h in s.tasks && s.tasks[h].Replying?
    requires !s.handlers[h].request.CreateTransport?
    ensures Correlated(Reply(s.(tasks := s.tasks - {h}), h))
  {
    OwedUnanswered(s, h, s.handlers[h].client);
    var done := s.(tasks := s.tasks - {h});
    assert AddsNoAnswer(s, done) && !Owes(done, h) by { hide Correlated; }
    hide Correlated, AddsNoAnswer;
    NoAnswerCorrelated(s, done);
    ReplyCorrelated(done, h);
  }

  lemma ConsumedCorrelated(s: Room, h: nat)
    requires Coherent(s) && Indexed(s) && Named(s) && Correlated(s) && h in s.tasks && s.tasks[h].Awaiting?
    ensures Correlated(DoConsumed(s, h))
  {
    HoldOk(s, h);
    CoherentIsIndexed(Hold(s, h));
    hide Coherent;
    ConsumedAddsNone(s, h);
    hide Correlated, AddsNoAnswer, DoConsumed;
    NoAnswerCorrelated(s, DoConsumed(s, h));
  }

  lemma ConsumedAddsNone(s: Room, h: nat)
    requires Indexed(s) && Named(s) && h in s.tasks && s.tasks[h].Awaiting? && Indexed(Hold(s, h))
    ensures AddsNoAnswer(s, DoConsumed(s, h))
  {
  }

  lemma ResumedCorrelated(s: Room, h: nat)
    requires Coherent(s) && Indexed(s) && Named(s) && Correlated(s) && h in s.tasks
    ensures Correlated(DoResumed(s, h))
  {
    match s.tasks[h] {
      case Opening => OpenedCorrelated(s, h);
      case Publishing(_) => ProducedCorrelated(s, h);
      case Replying => ReplyingCorrelated(s, h);
      case Between(cursor) =>
        assert Loops(s.handlers[h].request);
        hide Coherent;
        if s.handlers[h].request.JoinCall? {
          OwedUnanswered(s, h, s.handlers[h].client);
        }
        AdvanceCorrelated(s, h, cursor);
      case Awaiting(_, _, _, _, _) => ConsumedCorrelated(s, h);
    }
  }

  // ---------- closings only notify ----------

  lemma NoAnswerAddedTrans(a: seq<Message>, b: seq<Message>, c: seq<Message>)
    requires NoAnswerAdded(a, b) && NoAnswerAdded(b, c)
    ensures NoAnswerAdded(a, c)
  {
  }

  lemma NoAnswerTrans(a: Room, b: Room, c: Room)
    requires AddsNoAnswer(a, b) && AddsNoAnswer(b, c) && |b.clients| == |a.clients|
    ensures AddsNoAnswer(a, c)
  {
    forall i | 0 <= i < |a.clients| ensures NoAnswerAdded(a.clients[i].log, c.clients[i].log) {
      NoAnswerAddedTrans(a.clients[i].log, b.clients[i].log, c.clients[i].log);
    }
  }

  lemma {:induction false} CloseConsumersOnNotifies(s: Room, t: nat, k: nat)
    requires Owned(s) && k <= |s.consumers|
    ensures AddsNoAnswer(s, CloseConsumersOn(s, t, k))
    decreases |s.consumers| - k
  {
    if k < |s.consumers| {
      if s.consumers[k].open && s.consumers[k].transport == t {
        assert AddsNoAnswer(s, CloseConsumer(s, k)) by { hide Owned; }
        CloseConsumersOnNotifies(CloseConsumer(s, k), t, k + 1);
        hide AddsNoAnswer, CloseConsumer;
        NoAnswerTrans(s, CloseConsumer(s, k), CloseConsumersOn(s, t, k));
      } else {
        CloseConsumersOnNotifies(s, t, k + 1);
      }
    } else {
      hide Owned;
    }
  }

  lemma {:induction false} CloseProducersOnNotifies(s: Room, t: nat, p: nat)
    requires Owned(s) && p <= |s.producers|
    ensures AddsNoAnswer(s, CloseProducersOn(s, t, p))
    decreases |s.producers| - p
  {
    if p < |s.producers| {
      if s.producers[p].open && s.producers[p].transport == t {
        assert AddsNoAnswer(s, CloseProducer(s, p)) by { hide Owned; }
        CloseProducersOnNotifies(CloseProducer(s, p), t, p + 1);
        hide AddsNoAnswer, CloseProducer;
        NoAnswerTrans(s, CloseProducer(s, p), CloseProducersOn(s, t, p));
      } else {
        CloseProducersOnNotifies(s, t, p + 1);
      }
    } else {
      hide Owned;
    }
  }

  lemma CloseTransportNotifies(s: Room, t: nat)
    requires Owned(s) && t < |s.transports|
    ensures AddsNoAnswer(s, CloseTransport(s, t))
  {
    var s1 := s.(transports := s.transports[t := s.transports[t].(open := false)]);
    assert AddsNoAnswer(s, s1) && AddsNoAnswer(s, s) by { hide Owned; }
    if s.transports[t].open {
      CloseProducersOnNotifies(s1, t, 0);
      CloseConsumersOnNotifies(CloseProducersOn(s1, t, 0), t, 0);
      hide AddsNoAnswer;
      NoAnswerTrans(s, s1, CloseProducersOn(s1, t, 0));
      NoAnswerTrans(s, CloseProducersOn(s1, t, 0), CloseTransport(s, t));
    }
  }

  lemma {:induction false} CloseTransportsNotify(s: Room, t: nat)
    requires Owned(s) && t <= |s.transports|
    ensures AddsNoAnswer(s, CloseTransportsFrom(s, t))
    decreases |s.transports| - t
  {
    if t < |s.transports| {
      CloseTransportNotifies(s, t);
      CloseTransportsNotify(CloseTransport(s, t), t + 1);
      hide AddsNoAnswer, CloseTransport;
      NoAnswerTrans(s, CloseTransport(s, t), CloseTransportsFrom(s, t));
    } else {
      hide Owned;
    }
  }

  lemma CloseRoomNotifies(s: Room)
    requires Owned(s)
    ensures AddsNoAnswer(s, CloseRoom(s))
  {
    if s.routerClosed {
      hide Owned;
    } else {
      var s1 := s.(routerClosed := true);
      var s2 := CloseTransportsFrom(s1, 0);
      CloseTransportsNotify(s1, 0);
      hide Owned, CloseTransportsFrom;
      assert forall h: nat :: Owes(s1, h) <==> Owes(s, h);
      assert forall h: nat :: Owes(s2.(closings := s.closings + 1), h) <==> Owes(s2, h);
    }
  }

  lemma ClosedFlagAddsNone(s: Room, c: nat)
    requires c < |s.clients|
    ensures AddsNoAnswer(s, s.(clients := s.clients[c := s.clients[c].(closed := true)]))
  {
  }

  lemma DepartedNotifies(s: Room, c: nat)
    requires Coherent(s) && Drained(s) && c < |s.clients|
    ensures Indexed(s) && AddsNoAnswer(s, Departed(s, c))
  {
    CoherentIsIndexed(s);
    hide Coherent, Drained, Named, AddsNoAnswer, CloseTransport;
    var s1 := s.(clients := s.clients[c := s.clients[c].(closed := true)]);
    ClosedFlagAddsNone(s, c);
    CloseOptionalNotifies(s1, s.clients[c].snd);
    var s2 := CloseOptional(s1, s.clients[c].snd);
    CloseOptionalNotifies(s2, s.clients[c].rcv);
    var s3 := CloseOptional(s2, s.clients[c].rcv);
    hide Indexed;
    NoAnswerTrans(s, s1, s2);
    NoAnswerTrans(s, s2, s3);
    LeaveNotifies(s, s3, Find(s3.entries, s.clients[c].id));
  }

  lemma CloseOptionalNotifies(s: Room, t: Option<nat>)
    requires Owned(s) && (t.Some? ==> t.value < |s.transports|)
    ensures AddsNoAnswer(s, CloseOptional(s, t))
  {
    if t.Some? {
      CloseTransportNotifies(s, t.value);
    } else {
      hide Owned;
    }
  }

  lemma LeaveNotifies(s: Room, s': Room, i: nat)
    requires AddsNoAnswer(s, s')
    ensures i < |s'.entries| ==> AddsNoAnswer(s, s'.(entries := s'.entries[i := Gone]))
  {
  }

  lemma ClosedCorrelated(s: Room, c: nat)
    requires Coherent(s) && Drained(s) && Correlated(s) && c < |s.clients|
    ensures Indexed(s) && Correlated(DoSocketClosed(s, c))
  {
    DepartedOk(s, c);
    DepartedNotifies(s, c);
    hide Coherent, Drained, Correlated, AddsNoAnswer, CloseRoom;
    CoherentIsIndexed(Departed(s, c));
    NoAnswerCorrelated(s, Departed(s, c));
    CloseRoomNotifies(Departed(s, c));
    NoAnswerCorrelated(Departed(s, c), CloseRoom(Departed(s, c)));
  }

  lemma ConsumerLostAddsNone(s: Room, k: nat)
    requires Owned(s) && k < |s.consumers|
    ensures AddsNoAnswer(s, CloseConsumer(s, k))
  {
    assert s.consumers[k].owner < |s.clients|;
    hide Owned;
  }

  lemma StepCorrelated(s: Room, e: Event)
    requires Coherent(s) && Drained(s) && Indexed(s) && Named(s) && Correlated(s) && Enabled(s, e)
    ensures Correlated(Step(s, e))
  {
    match e {
      case AskJoin(c, id) => hide Coherent, Drained, Named, Indexed, Correlated, DoAskJoin; JoinCorrelated(s, c, id);
      case SocketClosed(c) =>
        hide Coherent, Drained, Named, Indexed, Correlated, DoSocketClosed;
        ClosedCorrelated(s, c);
      case Resumed(h) => hide Coherent, Drained, Named, Indexed, Correlated, DoResumed; ResumedCorrelated(s, h);
      case ConsumerLost(k) =>
        hide Coherent, Drained, Correlated, AddsNoAnswer, CloseConsumer;
        ConsumerLostAddsNone(s, k);
        NoAnswerCorrelated(s, CloseConsumer(s, k));
      case _ => hide Coherent, Drained, Named, Indexed, Correlated, Step, Enabled; AskCorrelated(s, e);
    }
  }

  lemma {:induction false} RunCorrelated(es: seq<Event>)
    requires Possible(es)
    ensures Correlated(After(es))
    decreases |es|
  {
    if es != [] {
      RunCorrelated(es[..|es| - 1]);
      StepCorrelated(After(es[..|es| - 1]), es[|es| - 1]);
    }
  }

  /** Request ids are fresh: no two requests of a client carry the same one. */
  ghost predicate FreshIds(s: Room, c: nat) {
    forall g, h | 0 <= g < |s.handlers| && 0 <= h < |s.handlers| && s.handlers[g].client == c
        && s.handlers[h].client == c
      :: s.handlers[g].requestId == s.handlers[h].requestId ==> g == h
  }

  /** The type of answer that each request calls for. */
  predicate Fits(r: Request, a: Answer) {
    && (r.GetRouterCapabilities? <==> a.RouterCapabilitiesResponse?)
    && (r.CreateTransport? <==> a.CreateTransportResponse?)
    && (r.CreateProducer? <==> a.CreateProducerResponse?)
    && (r.PauseProducer? || r.ResumeProducer? <==> a.PauseProducerResponse?)
    && (r.JoinCall? <==> a.JoinCallResponse?)
  }

  /**
   At most one response per request: every response a client was sent answers one of its own
   requests, in that request's type and under its id, and with fresh ids no id is answered twice.
   */
  lemma OneResponsePerRequest(es: seq<Event>, c: nat, a: nat, b: nat)
    requires Possible(es) && c < |After(es).clients|
    requires var log := After(es).clients[c].log;
             a < |log| && b < |log| && log[a].Response? && log[b].Response?
    ensures var s := After(es);
            && AnswersFor(s, c, s.clients[c].log[a])
            && Fits(s.handlers[s.clients[c].log[a].handler].request, s.clients[c].log[a].answer)
            && (s.clients[c].log[a].handler == s.clients[c].log[b].handler ==> a == b)
            && (FreshIds(s, c) && s.clients[c].log[a].requestId == s.clients[c].log[b].requestId ==> a == b)
  {
    RunCorrelated(es);
    var s := After(es);
    var log := s.clients[c].log;
    assert ClientAnswers(s, c);
    assert AnswersFor(s, c, log[a]) && AnswersFor(s, c, log[b]);
  }
}
