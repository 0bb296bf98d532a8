/**
 One browser connecting to a room: the requests `connect` makes, the room that answers them,
 and the two channels between them, delivered in order.  (The first request may wait in the
 connection's buffer; the others are sent after its answer, so they cannot overtake it.)
 */
module Sessions {
  import opened Base
  import opened RoomModel
  import opened RoomInvariant
  import opened RoomGrowth
  import RoomRequests

  // ---------- connecting ----------

  datatype Outgoing =
    | AskRouter(id: RequestId)
    | TellCapabilities
    | AskSide(role: Role, id: RequestId)
    | AskCall(id: RequestId)

  /** Where `connect` is suspended. */
  datatype Stage =
    | Starting
    | AwaitRouter
    | Loading
    | AwaitSides(snd: bool, rcv: bool)
    | AwaitCall
    | Connected

  /** `taken` counts the messages the room has received, `handled` those the browser has. */
  datatype Session = Session(room: Room, stage: Stage, sent: seq<Outgoing>, taken: nat, handled: nat)

  /** The four request ids of one `connect`. */
  datatype Ids = Ids(router: RequestId, snd: RequestId, rcv: RequestId, call: RequestId)

  predicate Fresh(ids: Ids) {
    ids.router != ids.snd && ids.router != ids.rcv && ids.router != ids.call
    && ids.snd != ids.rcv && ids.snd != ids.call && ids.rcv != ids.call
  }

  predicate Uses(ids: Ids, id: RequestId) {
    id == ids.router || id == ids.snd || id == ids.rcv || id == ids.call
  }

  /** Everything `connect` sends, in order. */
  function Script(ids: Ids): seq<Outgoing> {
    [AskRouter(ids.router), TellCapabilities, AskSide(Role.Producing, ids.snd), AskSide(Role.Consuming, ids.rcv),
     AskCall(ids.call)]
  }

  function EventOf(c: nat, o: Outgoing): Event {
    match o
    case AskRouter(id) => AskCapabilities(c, id)
    case TellCapabilities => Event.Capabilities(c)
    case AskSide(role, id) => AskTransport(c, id, role)
    case AskCall(id) => AskJoin(c, id)
  }

  datatype Act = Elsewhere(event: Event) | Take | Begin | LoadDevice | Handle

  /** Anything in the room but the messages of this `connect`; its request ids are its own. */
  predicate NotOurs(c: nat, ids: Ids, e: Event) {
    match e
    case Capabilities(d) => d != c
    case AskCapabilities(d, _) => d != c
    case AskTransport(d, _, _) => d != c
    case AskJoin(d, _) => d != c
    case AskProducer(d, id, _) => d == c ==> !Uses(ids, id)
    case AskPause(d, id, _) => d == c ==> !Uses(ids, id)
    case AskResume(d, id, _) => d == c ==> !Uses(ids, id)
    case _ => true
  }

  predicate Can(c: nat, ids: Ids, s: Session, a: Act) {
    match a
    case Elsewhere(e) => Enabled(s.room, e) && NotOurs(c, ids, e)
    case Take => s.taken < |s.sent| && Enabled(s.room, EventOf(c, s.sent[s.taken]))
    case Begin => s.stage.Starting?
    case LoadDevice => s.stage.Loading?
    case Handle => c < |s.room.clients| && s.handled < |s.room.clients[c].log|
  }

  /** A response resumes `connect` if it is waiting for that id; the transports are awaited
      together, and the join request goes out when both are there. */
  function Resume(ids: Ids, s: Session, id: RequestId): Session {
    match s.stage
    case AwaitRouter => if id == ids.router then s.(stage := Loading) else s
    case AwaitSides(snd, rcv) =>
      var snd' := snd || id == ids.snd;
      var rcv' := rcv || id == ids.rcv;
      if snd' && rcv' then s.(stage := AwaitCall, sent := s.sent + [AskCall(ids.call)])
      else s.(stage := AwaitSides(snd', rcv'))
    case AwaitCall => if id == ids.call then s.(stage := Connected) else s
    case _ => s
  }

  function Do(c: nat, ids: Ids, s: Session, a: Act): Session
    requires Indexed(s.room) && Named(s.room) && Can(c, ids, s, a)
  {
    match a
    case Elsewhere(e) => s.(room := Step(s.room, e))
    case Take => s.(room := Step(s.room, EventOf(c, s.sent[s.taken])), taken := s.taken + 1)
    case Begin => s.(stage := AwaitRouter, sent := s.sent + [AskRouter(ids.router)])
    case LoadDevice =>
      s.(stage := AwaitSides(false, false),
         sent := s.sent + [TellCapabilities, AskSide(Role.Producing, ids.snd), AskSide(Role.Consuming, ids.rcv)])
    case Handle =>
      var m := s.room.clients[c].log[s.handled];
      var s1 := s.(handled := s.handled + 1);
      if m.Response? then Resume(ids, s1, m.requestId) else s1
  }

  /** `_rcvTransport` is set. */
  predicate Receiving(s: Session) {
    s.stage.AwaitCall? || s.stage.Connected?
  }

  // ---------- the invariant ----------

  ghost predicate Heard(log: seq<Message>, n: nat, id: RequestId) {
    exists a :: 0 <= a < n && a < |log| && log[a].Response? && log[a].requestId == id
  }

  function SentBy(stage: Stage): nat {
    match stage
    case Starting => 0
    case AwaitRouter => 1
    case Loading => 1
    case AwaitSides(_, _) => 4
    case _ => 5
  }

  /** A handler of this client under one of these ids comes from the script. */
  ghost predicate FromScript(ids: Ids, taken: nat, c: nat, h: Handler) {
    h.client == c && Uses(ids, h.requestId) ==>
      exists j :: 0 <= j < taken && j < 5 && Received(EventOf(c, Script(ids)[j])) == [h]
  }

  ghost predicate RoomOk(s: Room) {
    Coherent(s) && Drained(s) && Indexed(s) && Named(s) && RoomRequests.Correlated(s)
  }

  ghost predicate InStep(c: nat, ids: Ids, s: Session) {
    && c < |s.room.clients|
    && SentBy(s.stage) <= 5 && s.sent == Script(ids)[..SentBy(s.stage)]
    && s.taken <= |s.sent| && s.handled <= |s.room.clients[c].log|
    && (2 <= s.taken ==> s.room.clients[c].capable)
    && (5 <= s.taken ==> s.room.clients[c].joinedReady)
    && (forall h :: 0 <= h < |s.room.handlers| ==> FromScript(ids, s.taken, c, s.room.handlers[h]))
  }

  /** The stage is exactly what the handled messages say. */
  ghost predicate StageOk(c: nat, ids: Ids, s: Session)
    requires c < |s.room.clients|
  {
    var snd := Heard(s.room.clients[c].log, s.handled, ids.snd);
    var rcv := Heard(s.room.clients[c].log, s.handled, ids.rcv);
    var router := Heard(s.room.clients[c].log, s.handled, ids.router);
    var call := Heard(s.room.clients[c].log, s.handled, ids.call);
    match s.stage
    case Starting => !router && !snd && !rcv && !call
    case AwaitRouter => !router && !snd && !rcv && !call
    case Loading => router && !snd && !rcv && !call
    case AwaitSides(x, y) => router && x == snd && y == rcv && !(snd && rcv) && !call
    case AwaitCall => router && snd && rcv && !call
    case Connected => router && snd && rcv && call
  }

  ghost predicate Inv(c: nat, ids: Ids, s: Session) {
    RoomOk(s.room) && InStep(c, ids, s) && StageOk(c, ids, s)
  }

  lemma RoomStepOk(s: Room, e: Event)
    requires RoomOk(s) && Enabled(s, e)
    ensures RoomOk(Step(s, e))
  {
    StepCorrelatedOk(s, e);
    hide Coherent, Drained, RoomRequests.Correlated, Step;
  }

  lemma GrowsOnly(s: Room, e: Event)
    requires RoomOk(s) && Enabled(s, e)
    ensures Extends(s, Step(s, e))
  {
    StepExtends(s, e);
  }

  lemma HeardStill(log: seq<Message>, log': seq<Message>, n: nat, id: RequestId)
    requires log <= log' && n <= |log|
    ensures Heard(log', n, id) <==> Heard(log, n, id)
  {
    if Heard(log, n, id) {
      var a :| 0 <= a < n && a < |log| && log[a].Response? && log[a].requestId == id;
      assert log'[a] == log[a];
    }
    if Heard(log', n, id) {
      var a :| 0 <= a < n && a < |log'| && log'[a].Response? && log'[a].requestId == id;
      assert log'[a] == log[a];
    }
  }

  lemma HeardNext(log: seq<Message>, n: nat, id: RequestId)
    requires n < |log|
    ensures Heard(log, n + 1, id) <==> Heard(log, n, id) || (log[n].Response? && log[n].requestId == id)
  {
  }

  /** A response under one of these ids answers a message of the script the room has taken. */
  lemma HeardWasTaken(c: nat, ids: Ids, s: Session, a: nat)
    requires Inv(c, ids, s) && a < |s.room.clients[c].log| && s.room.clients[c].log[a].Response?
    requires Uses(ids, s.room.clients[c].log[a].requestId)
    ensures exists j, h :: 0 <= j < s.taken && j < 5 && Received(EventOf(c, Script(ids)[j])) == [h]
                           && h.requestId == s.room.clients[c].log[a].requestId
                           && RoomRequests.Provided(s.room.clients[c], h.request)
  {
    var m := s.room.clients[c].log[a];
    assert RoomRequests.ClientAnswers(s.room, c);
    assert RoomRequests.AnswersFor(s.room, c, m);
    hide RoomOk;
    var h := s.room.handlers[m.handler];
    assert FromScript(ids, s.taken, c, h);
    var j :| 0 <= j < s.taken && j < 5 && Received(EventOf(c, Script(ids)[j])) == [h];
  }

  /** Hearing that the receiving transport exists means it does, and that the capabilities,
      which were sent before, have arrived. */
  lemma HeardReceiving(c: nat, ids: Ids, s: Session)
    requires Inv(c, ids, s) && Fresh(ids) && Heard(s.room.clients[c].log, s.handled, ids.rcv)
    ensures Ready(s.room.clients[c]) && 4 <= s.taken
  {
    var log := s.room.clients[c].log;
    var a :| 0 <= a < s.handled && a < |log| && log[a].Response? && log[a].requestId == ids.rcv;
    HeardWasTaken(c, ids, s, a);
    hide RoomOk, StageOk, Heard, FromScript;
    var j, h :| 0 <= j < s.taken && j < 5 && Received(EventOf(c, Script(ids)[j])) == [h]
                && h.requestId == ids.rcv && RoomRequests.Provided(s.room.clients[c], h.request);
    assert j == 3;
  }

  lemma RoomMoves(c: nat, ids: Ids, s: Session, e: Event, n: nat)
    requires Inv(c, ids, s) && Enabled(s.room, e) && s.taken <= n <= |s.sent|
    requires forall h :: h in Received(e) ==> FromScript(ids, n, c, h)
    requires 2 <= n ==> 2 <= s.taken || e == Event.Capabilities(c)
    requires 5 <= n ==> 5 <= s.taken || (exists id :: e == AskJoin(c, id) && Ready(s.room.clients[c]))
    ensures Inv(c, ids, s.(room := Step(s.room, e), taken := n))
  {
    hide Coherent, Drained, RoomRequests.Correlated, StageOk, FromScript;
    StepExtends(s.room, e);
    RoomStepOk(s.room, e);
    CapableBy(s.room, e, c);
    hide RoomOk, Step;
    Moved(c, ids, s, Received(e), Step(s.room, e), n);
  }

  lemma CapableBy(s: Room, e: Event, c: nat)
    requires RoomOk(s) && Enabled(s, e) && c < |s.clients|
    ensures e == Event.Capabilities(c) ==> c < |Step(s, e).clients| && Step(s, e).clients[c].capable
    ensures e.AskJoin? && e.client == c && Ready(s.clients[c]) ==>
              c < |Step(s, e).clients| && Step(s, e).clients[c].joinedReady
  {
    if e.AskJoin? && e.client == c {
      JoinExtends(s, c, e.requestId);
    }
    hide Coherent, Drained, Indexed, Named, RoomRequests.Correlated, DoAskJoin;
  }

  /** What the session keeps when its room grows. */
  lemma Moved(c: nat, ids: Ids, s: Session, more: seq<Handler>, room: Room, n: nat)
    requires InStep(c, ids, s) && StageOk(c, ids, s) && s.taken <= n <= |s.sent|
    requires Extends(s.room, room) && room.handlers == s.room.handlers + more
    requires forall h :: h in more ==> FromScript(ids, n, c, h)
    requires 2 <= n ==> room.clients[c].capable
    requires 5 <= n ==> room.clients[c].joinedReady
    ensures InStep(c, ids, s.(room := room, taken := n)) && StageOk(c, ids, s.(room := room, taken := n))
  {
    HeardStill(s.room.clients[c].log, room.clients[c].log, s.handled, ids.router);
    HeardStill(s.room.clients[c].log, room.clients[c].log, s.handled, ids.snd);
    HeardStill(s.room.clients[c].log, room.clients[c].log, s.handled, ids.rcv);
    HeardStill(s.room.clients[c].log, room.clients[c].log, s.handled, ids.call);
    hide Heard;
    assert StageOk(c, ids, s.(room := room, taken := n));
    hide StageOk;
    AllFromScript(ids, s.taken, n, c, s.room.handlers, more);
    hide FromScript;
  }

  lemma AllFromScript(ids: Ids, taken: nat, n: nat, c: nat, handlers: seq<Handler>, more: seq<Handler>)
    requires taken <= n
    requires forall h :: 0 <= h < |handlers| ==> FromScript(ids, taken, c, handlers[h])
    requires forall h :: h in more ==> FromScript(ids, n, c, h)
    ensures forall h :: 0 <= h < |handlers + more| ==> FromScript(ids, n, c, (handlers + more)[h])
  {
    forall h | 0 <= h < |handlers + more| ensures FromScript(ids, n, c, (handlers + more)[h]) {
      if h < |handlers| {
        assert FromScript(ids, taken, c, handlers[h]);
      } else {
        assert (handlers + more)[h] in more;
      }
    }
  }

  lemma TakeOk(c: nat, ids: Ids, s: Session)
    requires Inv(c, ids, s) && Fresh(ids) && Can(c, ids, s, Take)
    ensures Inv(c, ids, Do(c, ids, s, Take))
  {
    hide RoomOk, Heard;
    var o := s.sent[s.taken];
    assert o == Script(ids)[s.taken];
    if s.taken == 4 {
      assert s.stage.AwaitCall? || s.stage.Connected?;
      HeardReceiving(c, ids, s);
    }
    hide StageOk;
    forall h | h in Received(EventOf(c, o)) ensures FromScript(ids, s.taken + 1, c, h) {
      assert Received(EventOf(c, Script(ids)[s.taken])) == [h];
    }
    RoomMoves(c, ids, s, EventOf(c, o), s.taken + 1);
  }

  lemma ElsewhereOk(c: nat, ids: Ids, s: Session, e: Event)
    requires Inv(c, ids, s) && Fresh(ids) && Can(c, ids, s, Elsewhere(e))
    ensures Inv(c, ids, Do(c, ids, s, Elsewhere(e)))
  {
    hide RoomOk, StageOk;
    RoomMoves(c, ids, s, e, s.taken);
  }

  /** Nothing is heard about a request before it was sent. */
  lemma NotHeardEarly(c: nat, ids: Ids, s: Session, a: nat)
    requires Inv(c, ids, s) && Fresh(ids) && a < |s.room.clients[c].log| && s.room.clients[c].log[a].Response?
    ensures var id := s.room.clients[c].log[a].requestId;
            && (SentBy(s.stage) < 1 ==> id != ids.router)
            && (SentBy(s.stage) < 4 ==> id != ids.snd && id != ids.rcv)
            && (SentBy(s.stage) < 5 ==> id != ids.call)
  {
    if Uses(ids, s.room.clients[c].log[a].requestId) {
      HeardWasTaken(c, ids, s, a);
      hide RoomOk, StageOk, FromScript;
      var j, h :| 0 <= j < s.taken && j < 5 && Received(EventOf(c, Script(ids)[j])) == [h]
                  && h.requestId == s.room.clients[c].log[a].requestId;
      assert j < SentBy(s.stage);
    }
  }

  lemma HandleOk(c: nat, ids: Ids, s: Session)
    requires Inv(c, ids, s) && Fresh(ids) && Can(c, ids, s, Handle)
    ensures Inv(c, ids, Do(c, ids, s, Handle))
  {
    var log := s.room.clients[c].log;
    HeardNext(log, s.handled, ids.router);
    HeardNext(log, s.handled, ids.snd);
    HeardNext(log, s.handled, ids.rcv);
    HeardNext(log, s.handled, ids.call);
    var m := log[s.handled];
    if m.Response? {
      NotHeardEarly(c, ids, s, s.handled);
    }
    hide RoomOk, Heard, FromScript;
    var s' := Do(c, ids, s, Handle);
    assert InStep(c, ids, s') by { hide StageOk; }
    hide InStep;
    assert StageOk(c, ids, s');
  }

  lemma DoOk(c: nat, ids: Ids, s: Session, a: Act)
    requires Inv(c, ids, s) && Fresh(ids) && Can(c, ids, s, a)
    ensures Inv(c, ids, Do(c, ids, s, a))
  {
    match a {
      case Elsewhere(e) => ElsewhereOk(c, ids, s, e);
      case Take => TakeOk(c, ids, s);
      case Handle => HandleOk(c, ids, s);
      case _ => hide RoomOk, FromScript, Heard;
    }
  }

  // ---------- runs ----------

  /** The browser's client record has just been added to a reachable room. */
  ghost function Start(before: seq<Event>, id: ClientId): Session
    requires RoomInvariant.Possible(before)
  {
    Session(Step(RoomInvariant.After(before), Add(id)), Starting, [], 0, 0)
  }

  lemma StartOk(before: seq<Event>, id: ClientId, ids: Ids)
    requires RoomInvariant.Possible(before)
    ensures Inv(|RoomInvariant.After(before).clients|, ids, Start(before, id))
  {
    RoomRequests.RunCorrelated(before);
    var s := RoomInvariant.After(before);
    hide RoomInvariant.Possible, RoomInvariant.After, Inv, RoomRequests.Correlated;
    NewClientInv(s, id, ids);
  }

  lemma NewClientInv(s: Room, id: ClientId, ids: Ids)
    requires RoomOk(s)
    ensures Inv(|s.clients|, ids, Session(Step(s, Add(id)), Starting, [], 0, 0))
  {
    RoomStepOk(s, Add(id));
    assert forall h :: 0 <= h < |s.handlers| ==> s.handlers[h].client < |s.clients| by {
      hide Coherent, Drained, Named, RoomRequests.Correlated;
    }
    var s' := Step(s, Add(id));
    assert s'.handlers == s.handlers && |s'.clients| == |s.clients| + 1 by {
      hide Coherent, Drained, Indexed, Named, RoomRequests.Correlated;
    }
    hide RoomOk, Step;
  }

  ghost predicate Possible(before: seq<Event>, id: ClientId, ids: Ids, acts: seq<Act>)
    decreases |acts|, 0
  {
    && RoomInvariant.Possible(before) && Fresh(ids)
    && (acts == [] ||
        (Possible(before, id, ids, acts[..|acts| - 1])
         && Can(|RoomInvariant.After(before).clients|, ids, After(before, id, ids, acts[..|acts| - 1]),
            acts[|acts| - 1])))
  }

  ghost function After(before: seq<Event>, id: ClientId, ids: Ids, acts: seq<Act>): (s: Session)
    requires Possible(before, id, ids, acts)
    ensures Inv(|RoomInvariant.After(before).clients|, ids, s)
    decreases |acts|, 1
  {
    var c := |RoomInvariant.After(before).clients|;
    if acts == [] then
      StartOk(before, id, ids);
      Start(before, id)
    else
      var s := After(before, id, ids, acts[..|acts| - 1]);
      DoOk(c, ids, s, acts[|acts| - 1]);
      Do(c, ids, s, acts[|acts| - 1])
  }

  /**
   A browser that follows `connect` is ready when it joins: whatever else happens in the room
   and however the answers are ordered, by the time the join request is sent the room has its
   capabilities and its receiving transport, and once the room has received that request the
   client counts as one that joined ready.
   */
  lemma ConnectJoinsReady(before: seq<Event>, id: ClientId, ids: Ids, acts: seq<Act>)
    requires Possible(before, id, ids, acts)
    ensures var s := After(before, id, ids, acts);
            var c := |RoomInvariant.After(before).clients|;
            && c < |s.room.clients|
            && s.sent <= Script(ids)
            && (AskCall(ids.call) in s.sent ==> s.room.clients[c].capable && s.room.clients[c].rcv.Some?)
            && (s.taken == 5 ==> s.room.clients[c].joinedReady)
  {
    hide RoomInvariant.Possible, RoomInvariant.After, Inv, Script, Ready;
    JoinsReady(|RoomInvariant.After(before).clients|, ids, After(before, id, ids, acts));
  }

  lemma JoinsReady(c: nat, ids: Ids, s: Session)
    requires Inv(c, ids, s) && Fresh(ids)
    ensures c < |s.room.clients| && s.sent <= Script(ids)
    ensures AskCall(ids.call) in s.sent ==> s.room.clients[c].capable && s.room.clients[c].rcv.Some?
    ensures s.taken == 5 ==> s.room.clients[c].joinedReady
  {
    hide RoomOk, FromScript, Heard;
    if AskCall(ids.call) in s.sent {
      assert SentBy(s.stage) == 5;
      HeardReceiving(c, ids, s);
    }
  }

  /** The receiving transport is set exactly once both transport responses are handled, so the
      created-notifications that are dropped are exactly those sent before the later one. */
  lemma ReceivingOnceBothAnswered(before: seq<Event>, id: ClientId, ids: Ids, acts: seq<Act>)
    requires Possible(before, id, ids, acts)
    ensures var s := After(before, id, ids, acts);
            var c := |RoomInvariant.After(before).clients|;
            && c < |s.room.clients|
            && var log := s.room.clients[c].log;
               Receiving(s) <==> Heard(log, s.handled, ids.snd) && Heard(log, s.handled, ids.rcv)
  {
    var s := After(before, id, ids, acts);
    assert StageOk(|RoomInvariant.After(before).clients|, ids, s);
  }

  /**
   How far `connect` has got can be told from the responses handled alone: it is past its first
   await exactly if the router's was, it is connected exactly if that to the join request was,
   and it sends each request after the responses it builds on, and not before.
   */
  lemma StageExactly(before: seq<Event>, id: ClientId, ids: Ids, acts: seq<Act>)
    requires Possible(before, id, ids, acts)
    ensures var s := After(before, id, ids, acts);
            var c := |RoomInvariant.After(before).clients|;
            && c < |s.room.clients|
            && var log := s.room.clients[c].log;
               && (s.stage.Starting? || s.stage.AwaitRouter? <==> !Heard(log, s.handled, ids.router))
               && (s.stage.Connected? <==> Heard(log, s.handled, ids.call))
               && (AskCall(ids.call) in s.sent <==> Heard(log, s.handled, ids.snd) && Heard(log, s.handled, ids.rcv))
               && (AskSide(Role.Consuming, ids.rcv) in s.sent ==> Heard(log, s.handled, ids.router))
               && (AskSide(Role.Consuming, ids.rcv) in s.sent <==> AskSide(Role.Producing, ids.snd) in s.sent)
               && (TellCapabilities in s.sent <==> AskSide(Role.Producing, ids.snd) in s.sent)
  {
    hide RoomInvariant.Possible, RoomInvariant.After, Inv, Script;
    StageTold(|RoomInvariant.After(before).clients|, ids, After(before, id, ids, acts));
  }

  lemma StageTold(c: nat, ids: Ids, s: Session)
    requires Inv(c, ids, s) && Fresh(ids)
    ensures c < |s.room.clients|
    ensures var log := s.room.clients[c].log;
            && (s.stage.Starting? || s.stage.AwaitRouter? <==> !Heard(log, s.handled, ids.router))
            && (s.stage.Connected? <==> Heard(log, s.handled, ids.call))
            && (AskCall(ids.call) in s.sent <==> Heard(log, s.handled, ids.snd) && Heard(log, s.handled, ids.rcv))
            && (AskSide(Role.Consuming, ids.rcv) in s.sent ==> Heard(log, s.handled, ids.router))
            && (AskSide(Role.Consuming, ids.rcv) in s.sent <==> AskSide(Role.Producing, ids.snd) in s.sent)
            && (TellCapabilities in s.sent <==> AskSide(Role.Producing, ids.snd) in s.sent)
  {
    hide RoomOk, FromScript, Heard;
    var script := Script(ids);
    assert SentBy(s.stage) == 5 ==> s.sent[4] == script[4];
    assert SentBy(s.stage) >= 4 ==> s.sent[1] == script[1] && s.sent[2] == script[2] && s.sent[3] == script[3];
  }

  // ---------- the object ----------

  /** The part of `MediasoupService` that `connect` works on, one method per resumption. */
  class Connector {
    const ids: Ids
    var stage: Stage
    var sent: seq<Outgoing>

    /** A session in which this is the browser. */
    ghost predicate Browses(s: Session)
      reads this
    {
      s.stage == stage && s.sent == sent
    }

    constructor (ids: Ids)
      ensures this.ids == ids && stage == Starting && sent == []
    {
      this.ids, stage, sent := ids, Starting, [];
    }

    method Connect()
      requires stage.Starting?
      modifies this
      ensures forall c: nat, s: Session :: old(Browses(s)) && Indexed(s.room) && Named(s.room) ==>
                Do(c, ids, s, Begin) == s.(stage := stage, sent := sent)
      ensures stage == AwaitRouter && sent == old(sent) + [AskRouter(ids.router)]
    {
      sent := sent + [AskRouter(ids.router)];
      stage := AwaitRouter;
    }

    method OnDeviceLoaded()
      requires stage.Loading?
      modifies this
      ensures forall c: nat, s: Session :: old(Browses(s)) && Indexed(s.room) && Named(s.room) ==>
                Do(c, ids, s, LoadDevice) == s.(stage := stage, sent := sent)
      ensures stage == AwaitSides(false, false)
      ensures sent == old(sent) + [TellCapabilities, AskSide(Role.Producing, ids.snd), AskSide(Role.Consuming, ids.rcv)]
    {
      sent := sent + [TellCapabilities, AskSide(Role.Producing, ids.snd), AskSide(Role.Consuming, ids.rcv)];
      stage := AwaitSides(false, false);
    }

    /** A response settles the promise of its id; `connect` resumes if it was waiting for it. */
    method OnResponse(id: RequestId)
      modifies this
      ensures forall s: Session :: old(Browses(s)) ==> Resume(ids, s, id) == s.(stage := stage, sent := sent)
    {
      match stage {
        case AwaitRouter =>
          if id == ids.router {
            stage := Loading;
          }
        case AwaitSides(snd, rcv) =>
          var sndThere, rcvThere := snd || id == ids.snd, rcv || id == ids.rcv;
          if sndThere && rcvThere {
            stage := AwaitCall;
            sent := sent + [AskCall(ids.call)];
          } else {
            stage := AwaitSides(sndThere, rcvThere);
          }
        case AwaitCall =>
          if id == ids.call {
            stage := Connected;
          }
        case _ =>
      }
    }
  }
}
