/**
 The selective-forwarding room as a state machine with one step between any two awaits.

 Client records, transports, producers and consumers are named by their position in
 append-only tables, so names are fresh by construction.  The map of clients is kept as
 the list of its insertion slots: a deleted slot stays behind as a tombstone, which makes
 a live iterator over the map nothing more than an index into that list.
 */
module RoomModel {
  import opened Base

  datatype Role = Producing | Consuming

  /** The requests a room has a listener for. */
  datatype Request =
    | GetRouterCapabilities
    | CreateTransport(role: Role)
    | CreateProducer(kind: Kind)
    | PauseProducer
    | ResumeProducer
    | JoinCall

  /** The types of the responses a room sends. */
  datatype Answer =
    | RouterCapabilitiesResponse
    | CreateTransportResponse
    | CreateProducerResponse
    | PauseProducerResponse
    | JoinCallResponse

  /** What goes over a client's socket; `handler` records which request is being answered. */
  datatype Message =
    | Created(consumer: nat, info: ConsumerInfo)
    | Closed(consumer: nat)
    | Response(answer: Answer, requestId: RequestId, handler: nat)

  /** The part of a created-notification that says what is being consumed. */
  datatype ConsumerInfo = ConsumerInfo(producer: nat, kind: Kind, from: ClientId)

  /** An insertion-ordered map whose keys are never inserted twice. */
  datatype Registry = Registry(order: seq<nat>, present: set<nat>)

  datatype Client = Client(
    id: ClientId,
    closed: bool,
    capable: bool,
    snd: Option<nat>,
    rcv: Option<nat>,
    producers: Registry,
    consumers: set<nat>,
    log: seq<Message>,
    joinedReady: bool)

  /** A slot of the insertion-ordered map of clients. */
  datatype Entry = Entry(id: ClientId, client: nat) | Gone

  datatype Transport = Transport(owner: nat, role: Role, open: bool, late: bool)
  datatype Producer = Producer(owner: nat, transport: nat, kind: Kind, open: bool)
  datatype Consumer = Consumer(owner: nat, transport: nat, info: ConsumerInfo, open: bool)

  /** One received request: whose it was and what it asked. */
  datatype Handler = Handler(client: nat, request: Request, requestId: RequestId)

  /** Where a handler that has not finished is suspended. */
  datatype Task =
    | Opening
    | Publishing(transport: nat)
    | Replying
    | Between(cursor: nat)
    | Awaiting(cursor: nat, prod: nat, cons: nat, k: nat, transport: nat)

  /** `lost` and `joinedReady` are history: nothing in the room reads them. */
  datatype Room = Room(
    routerClosed: bool,
    closings: nat,
    entries: seq<Entry>,
    clients: seq<Client>,
    transports: seq<Transport>,
    producers: seq<Producer>,
    consumers: seq<Consumer>,
    handlers: seq<Handler>,
    tasks: map<nat, Task>,
    lost: set<(nat, nat)>)

  const NewRoom := Room(false, 0, [], [], [], [], [], [], map[], {})

  // ---------- lookups ----------

  /** The slot of the live entry with this id, or the number of slots. */
  function Find(entries: seq<Entry>, id: ClientId): (r: nat)
    ensures r <= |entries|
    ensures r < |entries| ==> entries[r].Entry? && entries[r].id == id
    ensures forall j :: 0 <= j < r ==> !(entries[j].Entry? && entries[j].id == id)
  {
    FindFrom(entries, id, 0)
  }

  function FindFrom(entries: seq<Entry>, id: ClientId, i: nat): (r: nat)
    requires i <= |entries|
    ensures i <= r <= |entries|
    ensures r < |entries| ==> entries[r].Entry? && entries[r].id == id
    ensures forall j :: i <= j < r ==> !(entries[j].Entry? && entries[j].id == id)
    decreases |entries| - i
  {
    if i == |entries| || (entries[i].Entry? && entries[i].id == id) then i
    else FindFrom(entries, id, i + 1)
  }

  /** What a live iterator at slot `i` yields next, skipping the loop's own client. */
  function NextEntry(entries: seq<Entry>, own: ClientId, i: nat): (r: nat)
    requires i <= |entries|
    ensures i <= r <= |entries|
    ensures r < |entries| ==> entries[r].Entry? && entries[r].id != own
    ensures forall j :: i <= j < r ==> !(entries[j].Entry? && entries[j].id != own)
    decreases |entries| - i
  {
    if i == |entries| || (entries[i].Entry? && entries[i].id != own) then i
    else NextEntry(entries, own, i + 1)
  }

  predicate NobodyLeft(entries: seq<Entry>) {
    forall i :: 0 <= i < |entries| ==> entries[i].Gone?
  }

  /** Is the producer among those consumed by the held consumers? */
  predicate Consumes(consumers: seq<Consumer>, held: set<nat>, p: nat) {
    exists k :: k in held && k < |consumers| && consumers[k].info.producer == p
  }

  /** Does this client already hold a consumer of the producer? */
  predicate Holds(s: Room, c: nat, p: nat)
    requires c < |s.clients|
  {
    Consumes(s.consumers, s.clients[c].consumers, p)
  }

  predicate Ready(c: Client) {
    c.capable && c.rcv.Some?
  }

  /** The first producer at or after slot `k` that the consuming client has to consume. */
  function NextProducer(consumers: seq<Consumer>, reg: Registry, cl: Client, k: nat): (r: nat)
    requires k <= |reg.order|
    ensures k <= r <= |reg.order|
    ensures r < |reg.order| ==>
              reg.order[r] in reg.present && !Consumes(consumers, cl.consumers, reg.order[r]) && Ready(cl)
    ensures forall j :: k <= j < r && reg.order[j] in reg.present ==>
                          Consumes(consumers, cl.consumers, reg.order[j]) || !Ready(cl)
    decreases |reg.order| - k
  {
    if k == |reg.order| then k
    else if reg.order[k] in reg.present && !Consumes(consumers, cl.consumers, reg.order[k]) && Ready(cl) then k
    else NextProducer(consumers, reg, cl, k + 1)
  }

  // ---------- notifications and closing cascades ----------

  /** `ClientEvents.send`: dropped once the client's events are closed. */
  function Say(s: Room, c: nat, m: Message): Room
    requires c < |s.clients|
  {
    if s.clients[c].closed then s
    else s.(clients := s.clients[c := s.clients[c].(log := s.clients[c].log + [m])])
  }

  /** The close event of a consumer. */
  function CloseConsumer(s: Room, k: nat): Room
    requires k < |s.consumers| && s.consumers[k].owner < |s.clients|
  {
    var o := s.consumers[k].owner;
    var s1 := s.(consumers := s.consumers[k := s.consumers[k].(open := false)],
                 clients := s.clients[o := s.clients[o].(consumers := s.clients[o].consumers - {k})]);
    Say(s1, o, Closed(k))
  }

  /** The close event of a producer. */
  function CloseProducer(s: Room, p: nat): Room
    requires p < |s.producers| && s.producers[p].owner < |s.clients|
  {
    var o := s.producers[p].owner;
    var reg := s.clients[o].producers;
    s.(producers := s.producers[p := s.producers[p].(open := false)],
       clients := s.clients[o := s.clients[o].(producers := reg.(present := reg.present - {p}))])
  }

  predicate Owned(s: Room) {
    && (forall p :: 0 <= p < |s.producers| ==> s.producers[p].owner < |s.clients|)
    && (forall k :: 0 <= k < |s.consumers| ==> s.consumers[k].owner < |s.clients|)
  }

  /** The tables keep their sizes, the map of clients its slots, the router its state. */
  predicate SameShape(s: Room, s': Room) {
    && s'.routerClosed == s.routerClosed && s'.closings == s.closings
    && s'.entries == s.entries && |s'.clients| == |s.clients| && |s'.transports| == |s.transports|
    && |s'.producers| == |s.producers| && |s'.consumers| == |s.consumers|
  }

  function CloseProducersOn(s: Room, t: nat, p: nat): (s': Room)
    requires Owned(s) && p <= |s.producers|
    ensures Owned(s') && SameShape(s, s')
    decreases |s.producers| - p
  {
    if p == |s.producers| then s
    else if s.producers[p].open && s.producers[p].transport == t then
      CloseProducersOn(CloseProducer(s, p), t, p + 1)
    else CloseProducersOn(s, t, p + 1)
  }

  function CloseConsumersOn(s: Room, t: nat, k: nat): (s': Room)
    requires Owned(s) && k <= |s.consumers|
    ensures Owned(s') && SameShape(s, s')
    decreases |s.consumers| - k
  {
    if k == |s.consumers| then s
    else if s.consumers[k].open && s.consumers[k].transport == t then
      CloseConsumersOn(CloseConsumer(s, k), t, k + 1)
    else CloseConsumersOn(s, t, k + 1)
  }

  /** Closing a transport closes the producers and the consumers on it. */
  function CloseTransport(s: Room, t: nat): (s': Room)
    requires Owned(s) && t < |s.transports|
    ensures Owned(s') && SameShape(s, s')
  {
    if !s.transports[t].open then s
    else
      var s1 := s.(transports := s.transports[t := s.transports[t].(open := false)]);
      CloseConsumersOn(CloseProducersOn(s1, t, 0), t, 0)
  }

  function CloseTransportsFrom(s: Room, t: nat): (s': Room)
    requires Owned(s) && t <= |s.transports|
    ensures Owned(s') && SameShape(s, s')
    decreases |s.transports| - t
  {
    if t == |s.transports| then s else CloseTransportsFrom(CloseTransport(s, t), t + 1)
  }

  function CloseOptional(s: Room, t: Option<nat>): (s': Room)
    requires Owned(s) && (t.Some? ==> t.value < |s.transports|)
    ensures Owned(s') && SameShape(s, s')
  {
    if t.Some? then CloseTransport(s, t.value) else s
  }

  /** `MediasoupRoom.close`. */
  function CloseRoom(s: Room): Room
    requires Owned(s)
  {
    if s.routerClosed then s
    else CloseTransportsFrom(s.(routerClosed := true), 0).(closings := s.closings + 1)
  }

  // ---------- the consuming loops ----------

  /** The inner loop of `_consumeClient` from producer slot `k` up to its next await. */
  function ConsumeFrom(s: Room, cursor: nat, prod: nat, cons: nat, k: nat): Task
    requires prod < |s.clients| && cons < |s.clients| && k <= |s.clients[prod].producers.order|
  {
    var r := NextProducer(s.consumers, s.clients[prod].producers, s.clients[cons], k);
    if r < |s.clients[prod].producers.order|
    then Awaiting(cursor, prod, cons, r, s.clients[cons].rcv.value)
    else Between(cursor)
  }

  /** `_consumeClient` for the client in slot `i`, up to its first await. */
  function Visit(s: Room, h: nat, i: nat): Task
    requires h < |s.handlers| && s.handlers[h].client < |s.clients|
    requires i < |s.entries| && s.entries[i].Entry? && s.entries[i].client < |s.clients|
    requires forall j :: 0 <= j < |s.entries| && s.entries[j].Entry? ==> s.entries[j].client < |s.clients|
  {
    var self := Find(s.entries, s.clients[s.handlers[h].client].id);
    if self == |s.entries| then Between(i + 1)
    else if s.handlers[h].request.JoinCall? then
      ConsumeFrom(s, i + 1, s.entries[Find(s.entries, s.entries[i].id)].client, s.entries[self].client, 0)
    else
      ConsumeFrom(s, i + 1, s.entries[self].client, s.entries[Find(s.entries, s.entries[i].id)].client, 0)
  }

  function AnswerTo(r: Request): Answer {
    match r
    case GetRouterCapabilities => RouterCapabilitiesResponse
    case CreateTransport(_) => CreateTransportResponse
    case CreateProducer(_) => CreateProducerResponse
    case PauseProducer => PauseProducerResponse
    case ResumeProducer => PauseProducerResponse
    case JoinCall => JoinCallResponse
  }

  function Reply(s: Room, h: nat): Room
    requires h < |s.handlers| && s.handlers[h].client < |s.clients|
  {
    Say(s, s.handlers[h].client,
        Response(AnswerTo(s.handlers[h].request), s.handlers[h].requestId, h))
  }

  /** The outer loop of a join or of a produce handler, resumed at slot `cursor`. */
  function Advance(s: Room, h: nat, cursor: nat): Room
    requires h < |s.handlers| && s.handlers[h].client < |s.clients| && cursor <= |s.entries|
    requires forall j :: 0 <= j < |s.entries| && s.entries[j].Entry? ==> s.entries[j].client < |s.clients|
  {
    var i := NextEntry(s.entries, s.clients[s.handlers[h].client].id, cursor);
    if i < |s.entries| then s.(tasks := s.tasks[h := Visit(s, h, i)])
    else
      var done := s.(tasks := s.tasks - {h});
      if s.handlers[h].request.JoinCall? then Reply(done, h) else done
  }

  // ---------- events ----------

  datatype Event =
    | Add(id: ClientId)
    | Capabilities(client: nat)
    | AskCapabilities(client: nat, requestId: RequestId)
    | AskTransport(client: nat, requestId: RequestId, role: Role)
    | AskProducer(client: nat, requestId: RequestId, kind: Kind)
    | AskPause(client: nat, requestId: RequestId, producer: nat)
    | AskResume(client: nat, requestId: RequestId, producer: nat)
    | AskJoin(client: nat, requestId: RequestId)
    | SocketClosed(client: nat)
    | Resumed(task: nat)
    | ConsumeRejected(task: nat)
    | Failed(task: nat)
    | ProducerLost(producer: nat)
    | ConsumerLost(consumer: nat)

  /** The request a step brings in, if any. */
  function Received(e: Event): seq<Handler> {
    match e
    case AskCapabilities(c, id) => [Handler(c, GetRouterCapabilities, id)]
    case AskTransport(c, id, role) => [Handler(c, CreateTransport(role), id)]
    case AskProducer(c, id, kind) => [Handler(c, CreateProducer(kind), id)]
    case AskPause(c, id, _) => [Handler(c, PauseProducer, id)]
    case AskResume(c, id, _) => [Handler(c, ResumeProducer, id)]
    case AskJoin(c, id) => [Handler(c, JoinCall, id)]
    case _ => []
  }

  /** Listeners are gone once the client's events are closed. */
  predicate Listening(s: Room, c: nat) {
    c < |s.clients| && !s.clients[c].closed
  }

  predicate Indexed(s: Room) {
    && Owned(s)
    && (forall j :: 0 <= j < |s.entries| && s.entries[j].Entry? ==> s.entries[j].client < |s.clients|)
    && (forall h :: 0 <= h < |s.handlers| ==> s.handlers[h].client < |s.clients|)
    && (forall h :: h in s.tasks ==> h < |s.handlers| && TaskIndexed(s, h, s.tasks[h]))
    && (forall c :: 0 <= c < |s.clients| ==>
          && (s.clients[c].snd.Some? ==> s.clients[c].snd.value < |s.transports|)
          && (s.clients[c].rcv.Some? ==> s.clients[c].rcv.value < |s.transports|))
  }

  predicate TaskIndexed(s: Room, h: nat, task: Task)
    requires h < |s.handlers|
  {
    match task
    case Opening => s.handlers[h].request.CreateTransport?
    case Publishing(t) => s.handlers[h].request.CreateProducer? && t < |s.transports|
    case Replying => true
    case Between(cursor) => cursor <= |s.entries|
    case Awaiting(cursor, prod, cons, k, t) =>
      && cursor <= |s.entries| && prod < |s.clients| && cons < |s.clients|
      && k < |s.clients[prod].producers.order| && t < |s.transports|
  }

  /** What the environment may do next. */
  predicate Enabled(s: Room, e: Event) {
    match e
    case Add(_) => true
    case Capabilities(c) => Listening(s, c)
    case AskCapabilities(c, _) => Listening(s, c)
    case AskTransport(c, _, _) => Listening(s, c)
    case AskProducer(c, _, _) => Listening(s, c)
    case AskPause(c, _, _) => Listening(s, c)
    case AskResume(c, _, _) => Listening(s, c)
    case AskJoin(c, _) => Listening(s, c)
    case SocketClosed(c) => Listening(s, c)
    case Resumed(h) => h in s.tasks && CanResume(s, s.tasks[h])
    case ConsumeRejected(h) => h in s.tasks && s.tasks[h].Awaiting?
    case Failed(h) => h in s.tasks && (s.tasks[h].Opening? || s.tasks[h].Publishing?)
    case ProducerLost(p) => p < |s.producers| && s.producers[p].open
    case ConsumerLost(k) =>
      && k < |s.consumers| && s.consumers[k].open
      && s.consumers[k].info.producer < |s.producers|
      && !s.producers[s.consumers[k].info.producer].open
  }

  /** A pending media operation cannot succeed on a closed router or transport. */
  predicate CanResume(s: Room, task: Task) {
    match task
    case Opening => !s.routerClosed
    case Publishing(t) => t < |s.transports| && s.transports[t].open
    case Awaiting(_, _, _, _, t) => t < |s.transports| && s.transports[t].open
    case _ => true
  }

  function DoAdd(s: Room, id: ClientId): Room {
    var n := |s.clients|;
    var i := Find(s.entries, id);
    s.(clients := s.clients + [Client(id, false, false, None, None, Registry([], {}), {}, [], false)],
       entries := if i < |s.entries| then s.entries[i := Entry(id, n)] else s.entries + [Entry(id, n)])
  }

  /** A request arrives: it gets the next handler number. */
  function Receive(s: Room, c: nat, r: Request, id: RequestId): Room {
    s.(handlers := s.handlers + [Handler(c, r, id)])
  }

  function Suspend(s: Room, h: nat, task: Task): Room {
    s.(tasks := s.tasks[h := task])
  }

  function DoAskTransport(s: Room, c: nat, id: RequestId, role: Role): Room
    requires c < |s.clients|
  {
    var s1 := Receive(s, c, CreateTransport(role), id);
    if (role.Producing? && s.clients[c].snd.Some?) || (role.Consuming? && s.clients[c].rcv.Some?)
    then s1
    else Suspend(s1, |s.handlers|, Opening)
  }

  function DoAskProducer(s: Room, c: nat, id: RequestId, kind: Kind): Room
    requires c < |s.clients|
  {
    var s1 := Receive(s, c, CreateProducer(kind), id);
    if s.clients[c].snd.None? then s1
    else Suspend(s1, |s.handlers|, Publishing(s.clients[c].snd.value))
  }

  function DoAskToggle(s: Room, c: nat, r: Request, id: RequestId, p: nat): Room
    requires c < |s.clients|
  {
    var s1 := Receive(s, c, r, id);
    if p !in s.clients[c].producers.present then s1 else Suspend(s1, |s.handlers|, Replying)
  }

  function DoAskJoin(s: Room, c: nat, id: RequestId): Room
    requires Indexed(s) && c < |s.clients|
  {
    var ready := s.clients[c].joinedReady || Ready(s.clients[c]);
    var s1 := Receive(s, c, JoinCall, id).(clients := s.clients[c := s.clients[c].(joinedReady := ready)]);
    Advance(s1, |s.handlers|, 0)
  }

  function DoSocketClosed(s: Room, c: nat): Room
    requires Indexed(s) && c < |s.clients|
  {
    var s1 := s.(clients := s.clients[c := s.clients[c].(closed := true)]);
    var s2 := CloseOptional(CloseOptional(s1, s.clients[c].snd), s.clients[c].rcv);
    var i := Find(s2.entries, s.clients[c].id);
    var s3 := if i < |s2.entries| then s2.(entries := s2.entries[i := Gone]) else s2;
    if NobodyLeft(s3.entries) then CloseRoom(s3) else s3
  }

  function DoOpened(s: Room, h: nat): Room
    requires Indexed(s) && h in s.tasks && s.tasks[h].Opening?
  {
    var c := s.handlers[h].client;
    var t := |s.transports|;
    var role := s.handlers[h].request.role;
    var cl := if role.Producing? then s.clients[c].(snd := Some(t)) else s.clients[c].(rcv := Some(t));
    Reply(s.(transports := s.transports + [Transport(c, role, true, s.clients[c].closed)],
             clients := s.clients[c := cl],
             tasks := s.tasks - {h}), h)
  }

  /** `produce` resolved: register the producer and answer; the loop has yet to start. */
  function Register(s: Room, h: nat): Room
    requires Indexed(s) && h in s.tasks && s.tasks[h].Publishing?
  {
    var c := s.handlers[h].client;
    var p := |s.producers|;
    var reg := s.clients[c].producers;
    Reply(s.(producers := s.producers + [Producer(c, s.tasks[h].transport, s.handlers[h].request.kind, true)],
             clients := s.clients[c := s.clients[c].(producers := Registry(reg.order + [p], reg.present + {p}))]), h)
  }

  function DoProduced(s: Room, h: nat): Room
    requires Indexed(s) && h in s.tasks && s.tasks[h].Publishing?
  {
    Advance(Register(s, h), h, 0)
  }

  /** `consume` resolved: hold the consumer and notify; the inner loop has yet to go on. */
  function Hold(s: Room, h: nat): Room
    requires Indexed(s) && h in s.tasks && s.tasks[h].Awaiting?
    requires s.clients[s.tasks[h].prod].producers.order[s.tasks[h].k] < |s.producers|
  {
    var task := s.tasks[h];
    var n := |s.consumers|;
    var p := s.clients[task.prod].producers.order[task.k];
    var info := ConsumerInfo(p, s.producers[p].kind, s.clients[task.prod].id);
    var cl := s.clients[task.cons];
    Say(s.(consumers := s.consumers + [Consumer(task.cons, task.transport, info, true)],
           clients := s.clients[task.cons := cl.(consumers := cl.consumers + {n})]),
        task.cons, Created(n, info))
  }

  function DoConsumed(s: Room, h: nat): Room
    requires Indexed(s) && h in s.tasks && s.tasks[h].Awaiting?
    requires s.clients[s.tasks[h].prod].producers.order[s.tasks[h].k] < |s.producers|
  {
    var task := s.tasks[h];
    var s1 := Hold(s, h);
    Suspend(s1, h, ConsumeFrom(s1, task.cursor, task.prod, task.cons, task.k + 1))
  }

  /** Does suspended handler `h` still have to offer the producer in slot `m` of the client
      in slot `j` to the client in slot `i`? */
  predicate Covers(s: Room, h: nat, i: nat, j: nat, m: nat)
    requires h in s.tasks && h < |s.handlers| && s.handlers[h].client < |s.clients|
    requires i < |s.entries| && j < |s.entries| && s.entries[i].Entry? && s.entries[j].Entry?
  {
    var own := s.clients[s.handlers[h].client].id;
    match s.tasks[h]
    case Between(cursor) => CoversOuter(s, s.handlers[h].request, own, cursor, i, j)
    case Awaiting(cursor, prod, cons, k, _) =>
      || CoversOuter(s, s.handlers[h].request, own, cursor, i, j)
      || (prod == s.entries[j].client && cons == s.entries[i].client && k <= m)
    case _ => false
  }

  predicate CoversOuter(s: Room, r: Request, own: ClientId, cursor: nat, i: nat, j: nat)
    requires i < |s.entries| && j < |s.entries| && s.entries[i].Entry? && s.entries[j].Entry?
  {
    if r.JoinCall? then own == s.entries[i].id && cursor <= j
    else own == s.entries[j].id && cursor <= i
  }

  /** The pairs of consuming client and producer an aborted handler leaves unattended. */
  function Abandoned(s: Room, h: nat): set<(nat, nat)>
    requires Indexed(s) && h in s.tasks
  {
    set i, j, m | && 0 <= i < |s.entries| && 0 <= j < |s.entries|
                  && s.entries[i].Entry? && s.entries[j].Entry?
                  && 0 <= m < |s.clients[s.entries[j].client].producers.order|
                  && Covers(s, h, i, j, m)
      :: (s.entries[i].client, s.clients[s.entries[j].client].producers.order[m])
  }

  function DoRejected(s: Room, h: nat): Room
    requires Indexed(s) && h in s.tasks
  {
    s.(tasks := s.tasks - {h}, lost := s.lost + Abandoned(s, h))
  }

  /** Every producer named by a registry or by a consumer exists. */
  predicate Named(s: Room) {
    && (forall c, m :: 0 <= c < |s.clients| && 0 <= m < |s.clients[c].producers.order| ==>
          s.clients[c].producers.order[m] < |s.producers|)
    && (forall k :: 0 <= k < |s.consumers| ==> s.consumers[k].info.producer < |s.producers|)
  }

  function Step(s: Room, e: Event): Room
    requires Indexed(s) && Named(s) && Enabled(s, e)
  {
    match e
    case Add(id) => DoAdd(s, id)
    case Capabilities(c) => s.(clients := s.clients[c := s.clients[c].(capable := true)])
    case AskCapabilities(c, id) => Reply(Receive(s, c, GetRouterCapabilities, id), |s.handlers|)
    case AskTransport(c, id, role) => DoAskTransport(s, c, id, role)
    case AskProducer(c, id, kind) => DoAskProducer(s, c, id, kind)
    case AskPause(c, id, p) => DoAskToggle(s, c, PauseProducer, id, p)
    case AskResume(c, id, p) => DoAskToggle(s, c, ResumeProducer, id, p)
    case AskJoin(c, id) => DoAskJoin(s, c, id)
    case SocketClosed(c) => DoSocketClosed(s, c)
    case Resumed(h) => DoResumed(s, h)
    case ConsumeRejected(h) => DoRejected(s, h)
    case Failed(h) => s.(tasks := s.tasks - {h})
    case ProducerLost(p) => CloseProducer(s, p)
    case ConsumerLost(k) => CloseConsumer(s, k)
  }

  function DoResumed(s: Room, h: nat): Room
    requires Indexed(s) && Named(s) && h in s.tasks
  {
    match s.tasks[h]
    case Opening => DoOpened(s, h)
    case Publishing(_) => DoProduced(s, h)
    case Replying => Reply(s.(tasks := s.tasks - {h}), h)
    case Between(cursor) => Advance(s, h, cursor)
    case Awaiting(_, _, _, _, _) => DoConsumed(s, h)
  }
}
