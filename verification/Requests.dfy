/**
 Requests as promises: the connection keeps one resolver per request id, and a response
 settles the promise registered under its own id.
 */
module Requests {
  import opened Base
  import RoomModel
  import RoomInvariant
  import RoomGrowth
  import RoomRequests
  import ServerConnections

  /** The response types of the protocol. */
  datatype ResponseType =
    | GetClientStats
    | CreateProducer
    | GetRouterCapabilities
    | PauseProducer
    | ResumeProducer
    | CreateTransport
    | JoinCall

  /** The types the connection listens for: all but the one that answers a resume. */
  predicate Listened(t: ResponseType) {
    t in {GetClientStats, CreateProducer, GetRouterCapabilities, PauseProducer, CreateTransport, JoinCall}
  }

  datatype Response = Response(kind: ResponseType, requestId: RequestId)

  /** A promise is settled at most once, by the first response that reaches its resolver. */
  datatype Promise = Promise(requestId: RequestId, settled: Option<Response>)

  /** `resolvers` maps a request id to the promise registered for it. */
  datatype Pending = Pending(resolvers: map<RequestId, nat>, promises: seq<Promise>)

  const NoneAsked := Pending(map[], [])

  function Ask(s: Pending, id: RequestId): Pending {
    Pending(s.resolvers[id := |s.promises|], s.promises + [Promise(id, None)])
  }

  predicate Linked(s: Pending) {
    forall id :: id in s.resolvers ==> s.resolvers[id] < |s.promises| && s.promises[s.resolvers[id]].requestId == id
  }

  /** `resolveRequest`, reached through the listener of the response's type. */
  function Deliver(s: Pending, r: Response): Pending
    requires Linked(s)
  {
    if !Listened(r.kind) || r.requestId !in s.resolvers then s
    else
      var i := s.resolvers[r.requestId];
      if s.promises[i].settled.Some? then s
      else s.(promises := s.promises[i := s.promises[i].(settled := Some(r))])
  }

  datatype TableEvent = Asked(id: RequestId) | Delivered(response: Response)

  /** The table after any order of requests and responses. */
  function Run(s: Pending, es: seq<TableEvent>): (s': Pending)
    requires Linked(s)
    ensures Linked(s') && |s.promises| <= |s'.promises|
    ensures forall i :: 0 <= i < |s.promises| ==> s'.promises[i].requestId == s.promises[i].requestId
    decreases |es|
  {
    if es == [] then s
    else
      var s1 := Run(s, es[..|es| - 1]);
      match es[|es| - 1]
      case Asked(id) => Ask(s1, id)
      case Delivered(r) => Deliver(s1, r)
  }

  /** Some response of a listened type under this id was delivered. */
  ghost predicate Delivers(es: seq<TableEvent>, id: RequestId) {
    exists a :: 0 <= a < |es| && es[a].Delivered? && es[a].response.requestId == id && Listened(es[a].response.kind)
  }

  lemma DeliversMore(es: seq<TableEvent>, e: TableEvent, id: RequestId)
    ensures Delivers(es + [e], id) <==>
            Delivers(es, id) || (e.Delivered? && e.response.requestId == id && Listened(e.response.kind))
  {
    if Delivers(es, id) {
      var a :| 0 <= a < |es| && es[a].Delivered? && es[a].response.requestId == id && Listened(es[a].response.kind);
      assert (es + [e])[a] == es[a];
    }
    assert (es + [e])[|es|] == e;
  }

  /** Whatever else is asked and answered, a promise is settled by a response of a listened type
      with its own id, exactly if there is one. */
  lemma {:induction false} SettledByOwnResponse(s: Pending, es: seq<TableEvent>, id: RequestId)
    requires Linked(s) && id in s.resolvers && s.promises[s.resolvers[id]].settled.None? && Asked(id) !in es
    ensures var p := Run(s, es).promises[s.resolvers[id]];
            && id in Run(s, es).resolvers && Run(s, es).resolvers[id] == s.resolvers[id]
            && (p.settled.Some? <==> Delivers(es, id))
            && (p.settled.Some? ==> p.settled.value.requestId == id && Delivered(p.settled.value) in es)
    decreases |es|
  {
    if es != [] {
      var init, e := es[..|es| - 1], es[|es| - 1];
      assert es == init + [e] && e in es && forall f :: f in init ==> f in es;
      SettledByOwnResponse(s, init, id);
      DeliversMore(init, e, id);
      hide Delivers, Listened;
    }
  }

  /** Once settled, a promise never changes again, whatever is asked and answered. */
  lemma {:induction false} SettledForGood(s: Pending, es: seq<TableEvent>, i: nat)
    requires Linked(s) && i < |s.promises| && s.promises[i].settled.Some?
    ensures Run(s, es).promises[i] == s.promises[i]
    decreases |es|
  {
    if es != [] {
      SettledForGood(s, es[..|es| - 1], i);
    }
  }

  // ---------- end to end with the room ----------

  function TypeOf(a: RoomModel.Answer): ResponseType {
    match a
    case RouterCapabilitiesResponse => GetRouterCapabilities
    case CreateTransportResponse => CreateTransport
    case CreateProducerResponse => CreateProducer
    case PauseProducerResponse => PauseProducer
    case JoinCallResponse => JoinCall
  }

  /** The responses among the messages a room sent to a client, in order. */
  function Responses(log: seq<RoomModel.Message>): seq<Response>
    decreases |log|
  {
    if log == [] then []
    else
      var m := log[|log| - 1];
      Responses(log[..|log| - 1]) + if m.Response? then [Response(TypeOf(m.answer), m.requestId)] else []
  }

  lemma {:induction false} EveryResponseIsListenedFor(log: seq<RoomModel.Message>)
    ensures forall r :: r in Responses(log) ==> Listened(r.kind)
    ensures forall t: ResponseType :: Listened(t) <==> !t.ResumeProducer?
    decreases |log|
  {
    if log != [] {
      EveryResponseIsListenedFor(log[..|log| - 1]);
    }
  }

  /** Client `c` was sent a response to request `id`. */
  ghost predicate WasAnswered(log: seq<RoomModel.Message>, id: RequestId) {
    exists a :: 0 <= a < |log| && log[a].Response? && log[a].requestId == id
  }

  /** The response is the right type of answer to a request of client `c` with this id. */
  ghost predicate AnswersRequest(s: RoomModel.Room, c: nat, id: RequestId, r: Response) {
    exists h :: 0 <= h < |s.handlers| && s.handlers[h].client == c && s.handlers[h].requestId == id
                && r.requestId == id && Fits(s.handlers[h].request, r.kind)
  }

  /** The type of response that a request calls for: a resume gets that of a pause. */
  predicate Fits(q: RoomModel.Request, t: ResponseType) {
    match q
    case GetRouterCapabilities => t.GetRouterCapabilities?
    case CreateTransport(_) => t.CreateTransport?
    case CreateProducer(_) => t.CreateProducer?
    case PauseProducer => t.PauseProducer?
    case ResumeProducer => t.PauseProducer?
    case JoinCall => t.JoinCall?
  }

  // ---------- requests, responses and the room, interleaved ----------

  /** A room, the request side of its client `c`, the ids asked so far, and how many of the
      room's messages to that client have arrived. */
  datatype Exchange = Exchange(room: RoomModel.Room, pending: Pending, asked: seq<RequestId>, arrived: nat)

  datatype Act = InRoom(event: RoomModel.Event) | MakeRequest(id: RequestId) | Arrive

  const Beginning := Exchange(RoomModel.NewRoom, NoneAsked, [], 0)

  function Log(s: RoomModel.Room, c: nat): seq<RoomModel.Message> {
    if c < |s.clients| then s.clients[c].log else []
  }

  /** The room receives from the client only what it asked; request ids are fresh. */
  predicate Can(c: nat, x: Exchange, a: Act) {
    match a
    case InRoom(e) =>
      && RoomModel.Enabled(x.room, e)
      && forall h :: h in RoomModel.Received(e) && h.client == c ==> h.requestId in x.asked
    case MakeRequest(id) => id !in x.asked
    case Arrive => x.arrived < |Log(x.room, c)|
  }

  function Do(c: nat, x: Exchange, a: Act): Exchange
    requires RoomModel.Indexed(x.room) && RoomModel.Named(x.room) && Linked(x.pending) && Can(c, x, a)
  {
    match a
    case InRoom(e) => x.(room := RoomModel.Step(x.room, e))
    case MakeRequest(id) => x.(pending := Ask(x.pending, id), asked := x.asked + [id])
    case Arrive =>
      var m := Log(x.room, c)[x.arrived];
      x.(arrived := x.arrived + 1,
         pending := if m.Response? then Deliver(x.pending, Response(TypeOf(m.answer), m.requestId)) else x.pending)
  }

  ghost predicate RoomOk(s: RoomModel.Room) {
    RoomInvariant.Coherent(s) && RoomInvariant.Drained(s) && RoomModel.Indexed(s) && RoomModel.Named(s)
    && RoomRequests.Correlated(s)
  }

  /** Promise `i` is the one registered for the `i`th request. */
  ghost predicate Tabled(asked: seq<RequestId>, s: Pending) {
    && Linked(s) && |s.promises| == |asked|
    && (forall i :: 0 <= i < |asked| ==>
          s.promises[i].requestId == asked[i] && asked[i] in s.resolvers && s.resolvers[asked[i]] == i)
    && (forall id :: id in s.resolvers ==> id in asked)
  }

  /** The room has received from the client only what it asked. */
  ghost predicate OnlyAsked(s: RoomModel.Room, c: nat, asked: seq<RequestId>) {
    forall h :: 0 <= h < |s.handlers| && s.handlers[h].client == c ==> s.handlers[h].requestId in asked
  }

  /** The promise is settled exactly if a response to its request has arrived, and rightly. */
  ghost predicate Rightly(s: RoomModel.Room, c: nat, arrived: seq<RoomModel.Message>, p: Promise) {
    && (p.settled.Some? <==> WasAnswered(arrived, p.requestId))
    && (p.settled.Some? ==> AnswersRequest(s, c, p.requestId, p.settled.value))
  }

  ghost predicate Inv(c: nat, x: Exchange) {
    && RoomOk(x.room) && Tabled(x.asked, x.pending) && OnlyAsked(x.room, c, x.asked)
    && x.arrived <= |Log(x.room, c)|
    && forall i :: 0 <= i < |x.pending.promises| ==>
       Rightly(x.room, c, Log(x.room, c)[..x.arrived], x.pending.promises[i])
  }

  /** Every response in the client's log answers a request it asked for. */
  lemma ResponseWasAsked(c: nat, x: Exchange, a: nat)
    requires Inv(c, x) && a < |Log(x.room, c)| && Log(x.room, c)[a].Response?
    ensures var m := Log(x.room, c)[a];
            m.requestId in x.asked && AnswersRequest(x.room, c, m.requestId, Response(TypeOf(m.answer), m.requestId))
  {
    var m := Log(x.room, c)[a];
    assert RoomRequests.ClientAnswers(x.room, c);
    assert RoomRequests.AnswersFor(x.room, c, m);
    hide RoomOk, Tabled, Rightly;
    assert x.room.handlers[m.handler].client == c;
  }

  lemma InRoomOk(c: nat, x: Exchange, e: RoomModel.Event)
    requires Inv(c, x) && Can(c, x, InRoom(e))
    ensures Inv(c, Do(c, x, InRoom(e)))
  {
    var s, s' := x.room, RoomModel.Step(x.room, e);
    RoomGrowth.StepExtends(s, e);
    RoomGrowth.StepCorrelatedOk(s, e);
    assert RoomOk(s');
    hide RoomOk, RoomModel.Step, Tabled, RoomModel.Indexed, RoomModel.Named, RoomModel.Enabled,
      RoomInvariant.Coherent, RoomInvariant.Drained, RoomRequests.Correlated;
    assert Log(s, c) <= Log(s', c) && Log(s', c)[..x.arrived] == Log(s, c)[..x.arrived];
    assert OnlyAsked(s', c, x.asked) by {
      assert forall h :: |s.handlers| <= h < |s'.handlers| ==> s'.handlers[h] in RoomModel.Received(e);
    }
    forall i | 0 <= i < |x.pending.promises|
      ensures Rightly(s', c, Log(s', c)[..x.arrived], x.pending.promises[i])
    {
      assert Rightly(s, c, Log(s, c)[..x.arrived], x.pending.promises[i]);
      RightlyStill(s, s', c, Log(s, c)[..x.arrived], x.pending.promises[i]);
    }
  }

  lemma RightlyStill(s: RoomModel.Room, s': RoomModel.Room, c: nat, arrived: seq<RoomModel.Message>, p: Promise)
    requires s.handlers <= s'.handlers && Rightly(s, c, arrived, p)
    ensures Rightly(s', c, arrived, p)
  {
    if p.settled.Some? {
      var h :| 0 <= h < |s.handlers| && s.handlers[h].client == c && s.handlers[h].requestId == p.requestId
               && p.settled.value.requestId == p.requestId && Fits(s.handlers[h].request, p.settled.value.kind);
      assert s'.handlers[h] == s.handlers[h];
    }
  }

  lemma MakeRequestOk(c: nat, x: Exchange, id: RequestId)
    requires Inv(c, x) && Can(c, x, MakeRequest(id))
    ensures Inv(c, Do(c, x, MakeRequest(id)))
  {
    var x' := Do(c, x, MakeRequest(id));
    var arrived := Log(x.room, c)[..x.arrived];
    forall a | 0 <= a < |arrived| && arrived[a].Response? ensures arrived[a].requestId != id {
      ResponseWasAsked(c, x, a);
    }
    hide RoomOk;
    assert !WasAnswered(arrived, id);
    assert Tabled(x'.asked, x'.pending);
    hide Tabled, WasAnswered, AnswersRequest, OnlyAsked;
    forall i | 0 <= i < |x'.pending.promises| ensures Rightly(x.room, c, arrived, x'.pending.promises[i]) {
      assert i < |x.pending.promises| ==> Rightly(x.room, c, arrived, x.pending.promises[i]);
    }
    assert OnlyAsked(x'.room, c, x'.asked) by { MoreAsked(x.room, c, x.asked, id); }
  }

  lemma MoreAsked(s: RoomModel.Room, c: nat, asked: seq<RequestId>, id: RequestId)
    requires OnlyAsked(s, c, asked)
    ensures OnlyAsked(s, c, asked + [id])
  {
  }

  lemma WasAnsweredMore(arrived: seq<RoomModel.Message>, m: RoomModel.Message, id: RequestId)
    ensures WasAnswered(arrived + [m], id) <==> WasAnswered(arrived, id) || (m.Response? && m.requestId == id)
  {
    if WasAnswered(arrived, id) {
      var a :| 0 <= a < |arrived| && arrived[a].Response? && arrived[a].requestId == id;
      assert (arrived + [m])[a] == arrived[a];
    }
    assert (arrived + [m])[|arrived|] == m;
  }

  lemma ArriveOk(c: nat, x: Exchange)
    requires Inv(c, x) && Can(c, x, Arrive)
    ensures Inv(c, Do(c, x, Arrive))
  {
    var x' := Do(c, x, Arrive);
    var m := Log(x.room, c)[x.arrived];
    var arrived := Log(x.room, c)[..x.arrived];
    assert Log(x.room, c)[..x'.arrived] == arrived + [m];
    if m.Response? {
      ResponseWasAsked(c, x, x.arrived);
    }
    hide RoomOk, OnlyAsked, AnswersRequest, WasAnswered;
    assert Tabled(x'.asked, x'.pending) by { hide Rightly; }
    forall i | 0 <= i < |x'.pending.promises|
      ensures Rightly(x.room, c, arrived + [m], x'.pending.promises[i])
    {
      WasAnsweredMore(arrived, m, x.asked[i]);
      assert Rightly(x.room, c, arrived, x.pending.promises[i]);
    }
  }

  lemma DoOk(c: nat, x: Exchange, a: Act)
    requires Inv(c, x) && Can(c, x, a)
    ensures Inv(c, Do(c, x, a))
  {
    match a {
      case InRoom(e) => InRoomOk(c, x, e); hide Inv;
      case MakeRequest(id) => MakeRequestOk(c, x, id); hide Inv;
      case Arrive => ArriveOk(c, x); hide Inv;
    }
  }

  ghost predicate Possible(c: nat, acts: seq<Act>)
    decreases |acts|, 0
  {
    acts == [] || (Possible(c, acts[..|acts| - 1]) && Can(c, After(c, acts[..|acts| - 1]), acts[|acts| - 1]))
  }

  ghost function After(c: nat, acts: seq<Act>): (x: Exchange)
    requires Possible(c, acts)
    ensures Inv(c, x)
    decreases |acts|, 1
  {
    if acts == [] then Beginning
    else
      var x := After(c, acts[..|acts| - 1]);
      DoOk(c, x, acts[|acts| - 1]);
      Do(c, x, acts[|acts| - 1])
  }

  /**
   Request correlation end to end, over every interleaving of the client's requests, the room's
   steps and the arrival of its messages: promise `i` belongs to the `i`th request, and it is
   settled exactly if a response under that request's id has arrived, with the right type of
   answer to a request of this client under that very id.
   */
  lemma EndToEnd(c: nat, acts: seq<Act>, i: nat)
    requires Possible(c, acts) && i < |After(c, acts).asked|
    ensures var x := After(c, acts);
            && i < |x.pending.promises| && x.arrived <= |Log(x.room, c)|
            && var p := x.pending.promises[i];
               && p.requestId == x.asked[i]
               && (p.settled.Some? <==> WasAnswered(Log(x.room, c)[..x.arrived], x.asked[i]))
               && (p.settled.Some? ==> AnswersRequest(x.room, c, x.asked[i], p.settled.value))
  {
    var x := After(c, acts);
    hide RoomOk, WasAnswered, AnswersRequest, OnlyAsked, Possible, After;
    assert Rightly(x.room, c, Log(x.room, c)[..x.arrived], x.pending.promises[i]);
  }

  lemma DoKeepsSettled(c: nat, x: Exchange, a: Act, i: nat)
    requires RoomModel.Indexed(x.room) && RoomModel.Named(x.room) && Linked(x.pending) && Can(c, x, a)
    requires i < |x.pending.promises| && x.pending.promises[i].settled.Some?
    ensures i < |Do(c, x, a).pending.promises| && Do(c, x, a).pending.promises[i] == x.pending.promises[i]
  {
    hide RoomModel.Step, RoomModel.Indexed, RoomModel.Named;
  }

  /** A promise settles at most once: in no continuation of the run does it change again. */
  lemma {:induction false} SettlesAtMostOnce(c: nat, acts: seq<Act>, more: seq<Act>, i: nat)
    requires Possible(c, acts) && Possible(c, acts + more)
    requires i < |After(c, acts).pending.promises| && After(c, acts).pending.promises[i].settled.Some?
    ensures i < |After(c, acts + more).pending.promises|
    ensures After(c, acts + more).pending.promises[i] == After(c, acts).pending.promises[i]
    decreases |more|
  {
    hide Inv, Do, Can, Linked, RoomModel.Indexed, RoomModel.Named;
    if more == [] {
      assert acts + more == acts;
    } else {
      var init := more[..|more| - 1];
      assert (acts + more)[..|acts + more| - 1] == acts + init;
      SettlesAtMostOnce(c, acts, init, i);
      LinkedRoom(c, After(c, acts + init));
      DoKeepsSettled(c, After(c, acts + init), more[|more| - 1], i);
    }
  }

  lemma LinkedRoom(c: nat, x: Exchange)
    requires Inv(c, x)
    ensures RoomModel.Indexed(x.room) && RoomModel.Named(x.room) && Linked(x.pending)
  {
    hide RoomInvariant.Coherent, RoomInvariant.Drained, RoomRequests.Correlated, OnlyAsked, Rightly;
  }

  /** With fresh ids no second response to an id is ever sent. */
  lemma NoSecondResponse(es: seq<RoomModel.Event>, c: nat, a: nat, b: nat)
    requires RoomInvariant.Possible(es) && c < |RoomInvariant.After(es).clients|
    requires RoomRequests.FreshIds(RoomInvariant.After(es), c)
    requires var log := RoomInvariant.After(es).clients[c].log;
             && a < |Responses(log)| && b < |Responses(log)|
             && Responses(log)[a].requestId == Responses(log)[b].requestId
    ensures a == b
  {
    var log := RoomInvariant.After(es).clients[c].log;
    var x, y := Position(log, a), Position(log, b);
    RoomRequests.OneResponsePerRequest(es, c, x, y);
    hide RoomInvariant.Possible, RoomInvariant.After, RoomInvariant.Coherent, RoomInvariant.Drained,
      RoomModel.Indexed, RoomModel.Named;
    PositionInjective(log, a, b);
  }

  /** Where in the log the `k`th response is. */
  function Position(log: seq<RoomModel.Message>, k: nat): (x: nat)
    requires k < |Responses(log)|
    ensures x < |log| && log[x].Response? && log[x].requestId == Responses(log)[k].requestId
    decreases |log|
  {
    if k < |Responses(log[..|log| - 1])| then Position(log[..|log| - 1], k) else |log| - 1
  }

  lemma {:induction false} PositionInjective(log: seq<RoomModel.Message>, a: nat, b: nat)
    requires a < |Responses(log)| && b < |Responses(log)| && Position(log, a) == Position(log, b)
    ensures a == b
    decreases |log|
  {
    var init := log[..|log| - 1];
    if a < |Responses(init)| && b < |Responses(init)| {
      PositionInjective(init, a, b);
    }
  }

  // ---------- the object ----------

  /** The request side of the connection; `Settle` stands for a promise's own bookkeeping. */
  class RequestTable {
    const connection: ServerConnections.ServerConnection
    var requests: map<RequestId, nat>
    var promises: seq<Promise>

    ghost function State(): Pending
      reads this
    {
      Pending(requests, promises)
    }

    constructor (connection: ServerConnections.ServerConnection)
      ensures State() == NoneAsked && this.connection == connection
    {
      this.connection := connection;
      requests, promises := map[], [];
    }

    /** Registers the promise, then hands the message to the channel. */
    method Request(id: RequestId, message: string, now: int) returns (promise: nat)
      modifies this, connection
      ensures State() == Ask(old(State()), id) && promise == |old(promises)|
      ensures connection.State() ==
              ServerConnections.Step(connection.config, old(connection.State()), ServerConnections.Send(message, now))
    {
      promise := |promises|;
      promises := promises + [Promise(id, None)];
      requests := requests[id := promise];
      connection.SendMessage(message, now);
    }

    method OnResponse(r: Response)
      requires Linked(State())
      modifies this
      ensures State() == Deliver(old(State()), r)
    {
      if Listened(r.kind) {
        if r.requestId !in requests {
          return;
        }
        Settle(requests[r.requestId], r);
      }
    }

    method Settle(promise: nat, r: Response)
      requires promise < |promises|
      modifies `promises
      ensures promises == if old(promises[promise]).settled.Some? then old(promises)
                          else old(promises)[promise := old(promises[promise]).(settled := Some(r))]
    {
      if promises[promise].settled.None? {
        promises := promises[promise := promises[promise].(settled := Some(r))];
      }
    }
  }
}
