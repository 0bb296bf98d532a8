/**
 What becomes of a request: as long as its client is connected it is still being worked on, or it
 was answered, or it was turned down, and which of the three can be told from the run.
 */
module RoomAnswers {
  import opened Base
  import opened RoomModel
  import opened RoomInvariant
  import opened RoomRequests
  import RoomGrowth

  // ---------- who is answered ----------

  /** A step answers only handlers that were at work, and sets to work only the one it brings in. */
  ghost predicate Frame(s: Room, s': Room) {
    && |s.clients| <= |s'.clients| && s.handlers <= s'.handlers
    && (forall c, g :: 0 <= c < |s.clients| && 0 <= g < |s.handlers| && Answered(s'.clients[c].log, g) ==>
          Answered(s.clients[c].log, g) || g in s.tasks)
    && (forall c :: |s.clients| <= c < |s'.clients| ==> s'.clients[c].log == [])
    && (forall g: nat :: g < |s.handlers| && g in s'.tasks ==> g in s.tasks)
    && (forall c :: 0 <= c < |s.clients| ==> Silent(s.clients[c], s'.clients[c]))
  }

  /** Nothing but the tasks matters if no answer is added. */
  lemma NoAnswerFrame(s: Room, s': Room)
    requires AddsNoAnswer(s, s') && forall g: nat :: g < |s.handlers| && g in s'.tasks ==> g in s.tasks
    ensures Frame(s, s')
  {
    forall c, g | 0 <= c < |s.clients| && 0 <= g < |s.handlers| && Answered(s'.clients[c].log, g)
      ensures Answered(s.clients[c].log, g)
    {
      var a :| 0 <= a < |s'.clients[c].log| && s'.clients[c].log[a].Response? && s'.clients[c].log[a].handler == g;
      assert NoAnswerAdded(s.clients[c].log, s'.clients[c].log);
      assert s.clients[c].log[a] == s'.clients[c].log[a];
    }
  }

  /** One handler, at work or new, may be answered on top. */
  lemma ReplyFrame(s: Room, s1: Room, h: nat)
    requires Frame(s, s1) && |s1.clients| == |s.clients| && h < |s1.handlers| && s1.handlers[h].client < |s1.clients|
    requires h in s.tasks || |s.handlers| <= h
    ensures Frame(s, Reply(s1, h))
  {
    var s' := Reply(s1, h);
    forall c, g | 0 <= c < |s.clients| && 0 <= g < |s.handlers| && Answered(s'.clients[c].log, g)
      ensures Answered(s.clients[c].log, g) || g in s.tasks
    {
      if g != h {
        var a :| 0 <= a < |s'.clients[c].log| && s'.clients[c].log[a].Response? && s'.clients[c].log[a].handler == g;
        assert a < |s1.clients[c].log| && s1.clients[c].log[a] == s'.clients[c].log[a];
        assert Answered(s1.clients[c].log, g);
      }
    }
  }

  lemma AdvanceFrame(s: Room, s1: Room, h: nat, cursor: nat)
    requires Indexed(s1) && h < |s1.handlers| && cursor <= |s1.entries|
    requires Frame(s, s1) && |s1.clients| == |s.clients| && (h in s.tasks || |s.handlers| <= h)
    ensures Frame(s, Advance(s1, h, cursor))
  {
    var done := s1.(tasks := s1.tasks - {h});
    assert Frame(s, done) by { hide Indexed; }
    var i := NextEntry(s1.entries, s1.clients[s1.handlers[h].client].id, cursor);
    if i < |s1.entries| {
      hide Visit, Indexed;
    } else {
      hide Indexed, Frame;
      ReplyFrame(s, done, h);
    }
  }

  lemma QuietFrame(s: Room, e: Event)
    requires Indexed(s) && Named(s) && Enabled(s, e)
    requires !e.SocketClosed? && !e.Resumed? && !e.AskJoin? && !e.AskCapabilities?
    ensures Frame(s, Step(s, e))
  {
    QuietStep(s, e);
    if e.ConsumerLost? {
      ConsumerLostAddsNone(s, e.consumer);
    } else {
      QuietAddsNone(s, e);
    }
    hide Indexed, Named, Enabled, Step, AddsNoAnswer, Frame, QuietClients, QuietMedia;
    NoAnswerFrame(s, Step(s, e));
  }

  lemma SameFrame(s: Room)
    ensures Frame(s, s)
  {
  }

  lemma AskedFrame(s: Room, c: nat, id: RequestId)
    requires c < |s.clients|
    ensures Frame(s, Reply(Receive(s, c, GetRouterCapabilities, id), |s.handlers|))
  {
    var s1 := Receive(s, c, GetRouterCapabilities, id);
    assert Frame(s, s1);
    hide Frame;
    ReplyFrame(s, s1, |s.handlers|);
  }

  lemma JoinFrame(s: Room, c: nat, id: RequestId)
    requires Coherent(s) && Indexed(s) && c < |s.clients|
    ensures Frame(s, DoAskJoin(s, c, id))
  {
    JoiningOk(s, c, id);
    assert Frame(s, Joining(s, c, id)) by { hide Coherent, Indexed; }
    hide Coherent, Frame, Advance;
    AdvanceFrame(s, Joining(s, c, id), |s.handlers|, 0);
  }

  lemma ClosedFrame(s: Room, c: nat)
    requires Coherent(s) && Drained(s) && c < |s.clients|
    ensures Indexed(s) && Frame(s, DoSocketClosed(s, c))
  {
    DepartedOk(s, c);
    DepartedNotifies(s, c);
    SocketClosedShape(s, c);
    CoherentIsIndexed(Departed(s, c));
    CloseRoomNotifies(Departed(s, c));
    hide Coherent, Drained, Indexed, Named, AddsNoAnswer, CloseRoom, Departed, Frame, Shrinks;
    if NobodyLeft(Departed(s, c).entries) {
      SameClients(s, c);
      NoAnswerTrans(s, Departed(s, c), CloseRoom(Departed(s, c)));
    }
    NoAnswerFrame(s, DoSocketClosed(s, c));
  }

  lemma SameClients(s: Room, c: nat)
    requires Coherent(s) && Drained(s) && c < |s.clients|
    ensures Indexed(s) && |Departed(s, c).clients| == |s.clients|
  {
    DepartedShape(s, c);
    hide Coherent, Drained, Departed, Indexed;
  }

  lemma ProducedFrame(s: Room, h: nat)
    requires Coherent(s) && Indexed(s) && h in s.tasks && s.tasks[h].Publishing?
    ensures Frame(s, DoProduced(s, h))
  {
    RegisterOk(s, h);
    CoherentIsIndexed(Register(s, h));
    var s1 := Registered(s, h);
    assert Frame(s, s1) && |s1.clients| == |s.clients| && s1.handlers == s.handlers by { hide Coherent, Indexed; }
    assert Register(s, h) == Reply(s1, h);
    assert |Register(s, h).clients| == |s.clients| && Register(s, h).handlers == s.handlers;
    hide Coherent, Frame, Advance, Register, Registered, Reply;
    ReplyFrame(s, s1, h);
    AdvanceFrame(s, Register(s, h), h, 0);
  }

  lemma OpenedFrame(s: Room, h: nat)
    requires Indexed(s) && h in s.tasks && s.tasks[h].Opening?
    ensures Frame(s, DoOpened(s, h))
  {
    var s1 := Opened(s, h);
    assert Frame(s, s1) by { hide Indexed; }
    assert DoOpened(s, h) == Reply(s1, h);
    hide Frame, Opened, Indexed, DoOpened;
    ReplyFrame(s, s1, h);
  }

  lemma ResumedFrame(s: Room, h: nat)
    requires Coherent(s) && Indexed(s) && Named(s) && h in s.tasks
    ensures Frame(s, DoResumed(s, h))
  {
    match s.tasks[h] {
      case Opening => hide Coherent, Frame, DoOpened; OpenedFrame(s, h);
      case Publishing(_) => hide Frame, DoProduced; ProducedFrame(s, h);
      case Replying =>
        var s1 := s.(tasks := s.tasks - {h});
        assert Frame(s, s1) by { hide Coherent, Indexed, Named; }
        hide Coherent, Frame;
        ReplyFrame(s, s1, h);
      case Between(cursor) =>
        SameFrame(s);
        hide Coherent, Frame, Advance;
        AdvanceFrame(s, s, h, cursor);
      case Awaiting(_, _, _, _, _) =>
        HoldOk(s, h);
        CoherentIsIndexed(Hold(s, h));
        ConsumedAddsNone(s, h);
        ConsumedTasks(s, h);
        hide Coherent, Frame, AddsNoAnswer, DoConsumed;
        NoAnswerFrame(s, DoConsumed(s, h));
    }
  }

  lemma ConsumedTasks(s: Room, h: nat)
    requires Indexed(s) && Named(s) && h in s.tasks && s.tasks[h].Awaiting?
    ensures forall g: nat :: g in DoConsumed(s, h).tasks ==> g in s.tasks
  {
    hide ConsumeFrom;
  }

  lemma StepFrame(s: Room, e: Event)
    requires Coherent(s) && Drained(s) && Indexed(s) && Named(s) && Enabled(s, e)
    ensures Frame(s, Step(s, e))
  {
    hide Frame;
    match e {
      case AskCapabilities(c, id) => hide Coherent, Drained, Reply; AskedFrame(s, c, id);
      case AskJoin(c, id) => hide Drained, DoAskJoin; JoinFrame(s, c, id);
      case SocketClosed(c) => hide DoSocketClosed; ClosedFrame(s, c);
      case Resumed(h) => hide Drained, DoResumed; ResumedFrame(s, h);
      case _ => hide Coherent, Drained, Step; QuietFrame(s, e);
    }
  }

  // ---------- a client that has left is told nothing ----------

  /** Whatever happens after a client's events were closed, nothing more is sent to it. */
  lemma {:induction false} SilentOnceClosed(es: seq<Event>, more: seq<Event>, c: nat)
    requires Possible(es) && Possible(es + more) && c < |After(es).clients| && After(es).clients[c].closed
    ensures c < |After(es + more).clients|
    ensures After(es + more).clients[c].closed && After(es + more).clients[c].log == After(es).clients[c].log
    decreases |more|
  {
    hide Coherent, Drained, Indexed, Named, Enabled, Step;
    if more == [] {
      assert es + more == es;
    } else {
      var init := more[..|more| - 1];
      assert (es + more)[..|es + more| - 1] == es + init;
      SilentOnceClosed(es, init, c);
      StepFrame(After(es + init), more[|more| - 1]);
      assert Silent(After(es + init).clients[c], After(es + more).clients[c]);
    }
  }

  // ---------- requests that are turned down ----------

  /** The request that the event brings in is turned down at once: the transport is there already,
      there is none to produce on, or the producer is not one of the client's. */
  predicate Ignored(s: Room, e: Event) {
    match e
    case AskTransport(c, _, role) =>
      c < |s.clients| && if role.Producing? then s.clients[c].snd.Some? else s.clients[c].rcv.Some?
    case AskProducer(c, _, _) => c < |s.clients| && s.clients[c].snd.None?
    case AskPause(c, _, p) => c < |s.clients| && p !in s.clients[c].producers.present
    case AskResume(c, _, p) => c < |s.clients| && p !in s.clients[c].producers.present
    case _ => false
  }

  /** The event turns handler `h` down: it is ignored, its transport or producer cannot be made, or
      a `consume` of its join rejects. */
  ghost predicate Turns(s: Room, e: Event, h: nat) {
    || (h == |s.handlers| && Ignored(s, e))
    || (h in s.tasks && e == Failed(h))
    || (h in s.tasks && h < |s.handlers| && e == ConsumeRejected(h) && s.handlers[h].request.JoinCall?)
  }

  ghost predicate TurnedDown(es: seq<Event>, h: nat)
    requires Possible(es)
    decreases |es|
  {
    es != [] && (TurnedDown(es[..|es| - 1], h) || Turns(After(es[..|es| - 1]), es[|es| - 1], h))
  }

  /** The handler is not at work, and nobody was told an answer of it. */
  ghost predicate Down(s: Room, h: nat) {
    h < |s.handlers| && h !in s.tasks && forall c :: 0 <= c < |s.clients| ==> !Answered(s.clients[c].log, h)
  }

  lemma DownStays(s: Room, s': Room, h: nat)
    requires Down(s, h) && Frame(s, s')
    ensures Down(s', h)
  {
  }

  lemma FailedIsDown(s: Room, e: Event, h: nat)
    requires Indexed(s) && Named(s) && Correlated(s) && Enabled(s, e) && h in s.tasks && h < |s.handlers|
    requires e == Failed(h) || (e == ConsumeRejected(h) && s.handlers[h].request.JoinCall?)
    ensures Down(Step(s, e), h)
  {
    forall c | 0 <= c < |s.clients| ensures !Answered(s.clients[c].log, h) {
      OwedUnanswered(s, h, c);
    }
    hide Indexed, Named, Correlated, Abandoned;
  }

  lemma IgnoredIsDown(s: Room, e: Event)
    requires Indexed(s) && Named(s) && Correlated(s) && Enabled(s, e) && Ignored(s, e) && |s.handlers| !in s.tasks
    ensures Down(Step(s, e), |s.handlers|)
  {
    forall c | 0 <= c < |s.clients| ensures !Answered(s.clients[c].log, |s.handlers|) {
      NewHandlerUnanswered(s, c);
    }
    hide Indexed, Named, Correlated;
  }

  lemma TurnsDown(s: Room, e: Event, h: nat)
    requires Coherent(s) && Indexed(s) && Named(s) && Correlated(s) && Enabled(s, e) && Turns(s, e, h)
    ensures Down(Step(s, e), h)
  {
    if h == |s.handlers| {
      assert |s.handlers| !in s.tasks;
      hide Coherent, Indexed, Named, Correlated, Step;
      IgnoredIsDown(s, e);
    } else {
      hide Coherent, Indexed, Named, Correlated, Step;
      FailedIsDown(s, e, h);
    }
  }

  lemma {:induction false} DownForGood(es: seq<Event>, h: nat)
    requires Possible(es) && TurnedDown(es, h)
    ensures Down(After(es), h)
    decreases |es|
  {
    var init, e := es[..|es| - 1], es[|es| - 1];
    RoomRequests.RunCorrelated(init);
    hide Coherent, Drained, Indexed, Named, Correlated, Step, Enabled, Down, Turns, Frame;
    if TurnedDown(init, h) {
      DownForGood(init, h);
      StepFrame(After(init), e);
      DownStays(After(init), After(es), h);
    } else {
      TurnsDown(After(init), e, h);
    }
  }

  // ---------- and the others ----------

  /** What is to be said of handler `h` as long as its client is connected. */
  ghost predicate Looked(s: Room, h: nat) {
    h < |s.handlers| && s.handlers[h].client < |s.clients| &&
    (s.clients[s.handlers[h].client].closed || Owes(s, h) || Answered(s.clients[s.handlers[h].client].log, h))
  }

  /** The event is about handler `h`. */
  predicate About(e: Event, h: nat) {
    match e
    case Resumed(g) => g == h
    case ConsumeRejected(g) => g == h
    case Failed(g) => g == h
    case _ => false
  }

  lemma ResumedTasks(s: Room, h: nat)
    requires Coherent(s) && Indexed(s) && Named(s) && h in s.tasks
    ensures var s' := DoResumed(s, h);
            forall g: nat :: g in s.tasks && g != h ==> g in s'.tasks && s'.tasks[g] == s.tasks[g]
  {
    match s.tasks[h] {
      case Publishing(_) =>
        RegisterOk(s, h);
        CoherentIsIndexed(Register(s, h));
        assert Register(s, h).tasks == s.tasks && Register(s, h).handlers == s.handlers by { hide Coherent; }
        hide Coherent, Register, Advance;
        LoopTasks(Register(s, h), h, 0);
      case Between(cursor) => hide Coherent, Advance; LoopTasks(s, h, cursor);
      case _ => hide Coherent, ConsumeFrom;
    }
  }

  lemma LoopTasks(s: Room, h: nat, cursor: nat)
    requires Indexed(s) && h < |s.handlers| && cursor <= |s.entries|
    ensures var s' := Advance(s, h, cursor);
            forall g: nat :: g in s.tasks && g != h ==> g in s'.tasks && s'.tasks[g] == s.tasks[g]
  {
    hide Visit;
  }

  lemma JoinTasks(s: Room, c: nat, id: RequestId, h: nat)
    requires Coherent(s) && Drained(s) && Indexed(s) && Enabled(s, AskJoin(c, id)) && h in s.tasks
    ensures h in DoAskJoin(s, c, id).tasks && DoAskJoin(s, c, id).tasks[h] == s.tasks[h]
  {
    assert |s.handlers| !in s.tasks;
    JoiningOk(s, c, id);
    hide Coherent, Drained, Advance;
    LoopTasks(Joining(s, c, id), |s.handlers|, 0);
  }

  lemma GoneTasks(s: Room, c: nat, h: nat)
    requires Coherent(s) && Drained(s) && Enabled(s, SocketClosed(c)) && h in s.tasks
    ensures var s' := Step(s, SocketClosed(c)); h in s'.tasks && s'.tasks[h] == s.tasks[h]
  {
    SocketClosedShape(s, c);
    hide Coherent, Drained, Indexed, Named, DoSocketClosed, Departed, Shrinks;
  }

  /** What is not about a handler leaves it at its work. */
  lemma StepTasks(s: Room, e: Event, h: nat)
    requires Coherent(s) && Drained(s) && Indexed(s) && Named(s) && Enabled(s, e) && h in s.tasks && !About(e, h)
    ensures h in Step(s, e).tasks && Step(s, e).tasks[h] == s.tasks[h]
  {
    match e {
      case AskJoin(c, id) => hide Coherent, Drained, Indexed, Named, DoAskJoin; JoinTasks(s, c, id, h);
      case SocketClosed(c) => hide Coherent, Drained, Indexed, Named, DoSocketClosed; GoneTasks(s, c, h);
      case Resumed(g) => hide Drained, DoResumed; ResumedTasks(s, g);
      case _ => assert |s.handlers| !in s.tasks; hide Coherent, Drained, Indexed, Named, Abandoned;
    }
  }

  lemma AnsweredStill(log: seq<Message>, log': seq<Message>, h: nat)
    requires log <= log' && Answered(log, h)
    ensures Answered(log', h)
  {
    var a :| 0 <= a < |log| && log[a].Response? && log[a].handler == h;
    assert log'[a] == log[a];
  }

  lemma OwesStill(s: Room, s': Room, h: nat)
    requires Owes(s, h) && s.handlers <= s'.handlers && h in s'.tasks && s'.tasks[h] == s.tasks[h]
    ensures Owes(s', h)
  {
  }

  lemma ReplyLooked(s: Room, h: nat)
    requires h < |s.handlers| && s.handlers[h].client < |s.clients|
    ensures Looked(Reply(s, h), h)
  {
    var s' := Reply(s, h);
    var c := s.handlers[h].client;
    if !s.clients[c].closed {
      assert s'.clients[c].log[|s.clients[c].log|].handler == h;
    }
  }

  lemma AdvanceLooked(s: Room, h: nat, cursor: nat)
    requires Indexed(s) && h < |s.handlers| && cursor <= |s.entries|
    requires s.handlers[h].request.JoinCall? || Looked(s.(tasks := s.tasks - {h}), h)
    ensures Looked(Advance(s, h, cursor), h)
  {
    var i := NextEntry(s.entries, s.clients[s.handlers[h].client].id, cursor);
    var done := s.(tasks := s.tasks - {h});
    if i < |s.entries| {
      hide Visit, Indexed;
    } else if s.handlers[h].request.JoinCall? {
      ReplyLooked(done, h);
      hide Indexed, Looked;
    }
  }

  lemma ProducedLooked(s: Room, h: nat)
    requires Coherent(s) && Indexed(s) && h in s.tasks && s.tasks[h].Publishing?
    ensures Looked(DoProduced(s, h), h)
  {
    RegisterOk(s, h);
    CoherentIsIndexed(Register(s, h));
    var s1 := Registered(s, h);
    var done := s1.(tasks := s1.tasks - {h});
    assert Register(s, h) == Reply(s1, h) && s1.handlers == s.handlers && |s1.clients| == |s.clients|;
    assert Register(s, h).(tasks := Register(s, h).tasks - {h}) == Reply(done, h);
    ReplyLooked(done, h);
    assert Register(s, h).handlers == s.handlers;
    hide Coherent, Looked, Register, Registered, Reply, Advance;
    AdvanceLooked(Register(s, h), h, 0);
  }

  lemma OpenedLooked(s: Room, h: nat)
    requires Indexed(s) && h in s.tasks && s.tasks[h].Opening?
    ensures Looked(DoOpened(s, h), h)
  {
    var s1 := Opened(s, h);
    assert DoOpened(s, h) == Reply(s1, h) && s1.handlers == s.handlers && |s1.clients| == |s.clients|;
    ReplyLooked(s1, h);
    hide Indexed, DoOpened, Opened, Looked;
  }

  lemma ConsumedOwes(s: Room, h: nat)
    requires Indexed(s) && Named(s) && h in s.tasks && s.tasks[h].Awaiting? && s.handlers[h].request.JoinCall?
    ensures Owes(DoConsumed(s, h), h) && DoConsumed(s, h).handlers == s.handlers
    ensures |DoConsumed(s, h).clients| == |s.clients|
  {
    hide ConsumeFrom;
  }

  /** A resumed handler that owes an answer gives it, or goes on owing it. */
  lemma ResumedLooked(s: Room, h: nat)
    requires Coherent(s) && Indexed(s) && Named(s) && Owes(s, h)
    ensures Looked(DoResumed(s, h), h)
  {
    match s.tasks[h] {
      case Opening => hide Coherent, DoOpened, Looked; OpenedLooked(s, h);
      case Publishing(_) => hide DoProduced, Looked; ProducedLooked(s, h);
      case Replying =>
        hide Coherent, Looked;
        ReplyLooked(s.(tasks := s.tasks - {h}), h);
      case Between(cursor) =>
        hide Coherent, Looked, Advance;
        AdvanceLooked(s, h, cursor);
      case Awaiting(_, _, _, _, _) => hide Coherent, DoConsumed; ConsumedOwes(s, h);
    }
  }

  lemma NewLooked(s: Room, e: Event)
    requires Coherent(s) && Indexed(s) && Named(s) && Enabled(s, e) && Received(e) != [] && !Ignored(s, e)
    ensures Looked(Step(s, e), |s.handlers|)
  {
    match e {
      case AskCapabilities(c, id) =>
        hide Coherent, Looked, Reply;
        ReplyLooked(Receive(s, c, GetRouterCapabilities, id), |s.handlers|);
      case AskJoin(c, id) =>
        JoiningOk(s, c, id);
        hide Coherent, Looked, Advance;
        AdvanceLooked(Joining(s, c, id), |s.handlers|, 0);
      case _ => hide Coherent;
    }
  }

  lemma StepLooked(s: Room, e: Event, h: nat)
    requires Coherent(s) && Drained(s) && Indexed(s) && Named(s) && Correlated(s) && Enabled(s, e) && Looked(s, h)
    ensures Looked(Step(s, e), h) || Turns(s, e, h)
  {
    var c := s.handlers[h].client;
    StepFrame(s, e);
    RoomGrowth.StepExtends(s, e);
    assert Silent(s.clients[c], Step(s, e).clients[c]);
    if s.clients[c].closed {
      hide Coherent, Drained, Indexed, Named, Correlated, Enabled, Step;
    } else if Answered(s.clients[c].log, h) {
      hide Coherent, Drained, Indexed, Named, Correlated, Enabled, Step, Answered, Frame;
      AnsweredStill(s.clients[c].log, Step(s, e).clients[c].log, h);
    } else if About(e, h) {
      if e.Resumed? {
        hide Coherent, Drained, Indexed, Named, Correlated, DoResumed, Looked, Frame;
        ResumedLooked(s, h);
      } else {
        hide Coherent, Drained, Indexed, Named, Correlated, Step, Frame;
      }
    } else {
      hide Coherent, Drained, Indexed, Named, Correlated, Enabled, Step, Frame, About;
      StepTasks(s, e, h);
      hide Owes;
      OwesStill(s, Step(s, e), h);
    }
  }

  lemma {:induction false} RunLooked(es: seq<Event>, h: nat)
    requires Possible(es) && h < |After(es).handlers|
    ensures Looked(After(es), h) || TurnedDown(es, h)
    decreases |es|
  {
    hide Coherent, Drained, Indexed, Named, Correlated, Step, Enabled, Looked, Ignored;
    var init, e := es[..|es| - 1], es[|es| - 1];
    var s := After(init);
    RunCorrelated(init);
    RoomGrowth.StepExtends(s, e);
    if h < |s.handlers| {
      RunLooked(init, h);
      if Looked(s, h) {
        hide Turns;
        StepLooked(s, e, h);
      }
    } else if !Ignored(s, e) {
      NewLooked(s, e);
    }
  }

  /**
   Every request is settled.  Over any run, as long as a request's client is connected: its handler
   still owes the answer, or the client was sent the answer, or the request was turned down, and
   exactly one of the three.
   */
  lemma EveryRequestIsSettled(es: seq<Event>, h: nat)
    requires Possible(es) && h < |After(es).handlers|
    ensures var s, c := After(es), After(es).handlers[h].client;
            && c < |s.clients|
            && (!s.clients[c].closed ==> Owes(s, h) || Answered(s.clients[c].log, h) || TurnedDown(es, h))
            && !(Owes(s, h) && Answered(s.clients[c].log, h))
            && (TurnedDown(es, h) ==> !Owes(s, h) && !Answered(s.clients[c].log, h))
  {
    RunLooked(es, h);
    RunCorrelated(es);
    var s := After(es);
    assert s.handlers[h].client < |s.clients|;
    if Owes(s, h) {
      OwedUnanswered(s, h, s.handlers[h].client);
    }
    if TurnedDown(es, h) {
      DownForGood(es, h);
    }
    hide Possible, After, Coherent, Drained, Indexed, Named, Correlated;
  }
}
