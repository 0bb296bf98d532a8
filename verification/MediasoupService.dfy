/**
 A browser's side of a room: notifications are replayed into consumers, and each consumer's
 track is put on or taken off the screen.  Consuming takes time, so a consumer's
 closed-notification may overtake it.
 */
module MediasoupServices {
  import opened Base
  import opened RoomModel
  import RoomInvariant
  import RoomLog
  import RoomMesh
  import RoomOffers
  import RoomOrigins
  import RoomUnique
  import R = RemoteClients

  /** `pending` are the `consume` calls in flight.  The last four fields are history: the
      messages delivered, the consumers whose created-notification was dropped, those whose
      `consume` failed, and those that were closed while it was in flight. */
  datatype Replica = Replica(
    receiving: bool,
    pending: map<nat, ConsumerInfo>,
    consumers: map<nat, ConsumerInfo>,
    screen: R.Screen,
    log: seq<Message>,
    dropped: set<nat>,
    failed: set<nat>,
    missed: set<nat>)

  const Fresh := Replica(false, map[], map[], R.Blank, [], {}, {}, {})

  datatype Arrival =
    | Transported
    | Deliver(message: Message)
    | Consumed(consumer: nat)
    | Rejected(consumer: nat)

  predicate CanHappen(r: Replica, a: Arrival) {
    (a.Consumed? || a.Rejected?) ==> a.consumer in r.pending
  }

  /** Distinct consumers have distinct tracks, so a track goes by its consumer's number. */
  function TrackOf(k: nat, info: ConsumerInfo): R.Track {
    R.Track(k, info.kind)
  }

  function OnCreated(r: Replica, k: nat, info: ConsumerInfo): Replica {
    if !r.receiving then r.(dropped := r.dropped + {k})
    else r.(pending := r.pending[k := info])
  }

  function OnConsumed(r: Replica, k: nat): Replica
    requires k in r.pending
  {
    var info := r.pending[k];
    r.(pending := r.pending - {k}, consumers := r.consumers[k := info],
       screen := R.Added(r.screen, info.from, None, TrackOf(k, info)))
  }

  /** The consumer stays in the map: only its own close event would remove it. */
  function OnClosed(r: Replica, k: nat): Replica {
    var r1 := if k in r.pending then r.(missed := r.missed + {k}) else r;
    if k in r.consumers then r1.(screen := R.Removed(r.screen, k)) else r1
  }

  function Receive(r: Replica, m: Message): Replica {
    var r1 := r.(log := r.log + [m]);
    match m
    case Created(k, info) => OnCreated(r1, k, info)
    case Closed(k) => OnClosed(r1, k)
    case Response(_, _, _) => r1
  }

  function Next(r: Replica, a: Arrival): Replica
    requires CanHappen(r, a)
  {
    match a
    case Transported => r.(receiving := true)
    case Deliver(m) => Receive(r, m)
    case Consumed(k) => OnConsumed(r, k)
    case Rejected(k) => r.(pending := r.pending - {k}, failed := r.failed + {k})
  }

  // ---------- the invariant ----------

  /** Every consumer announced so far went one of four ways. */
  ghost predicate Sorted(v: RoomLog.View, r: Replica) {
    && (forall k :: k in v.seen <==> k in r.dropped || k in r.failed || k in r.pending || k in r.consumers)
    && (forall k :: k in r.dropped ==> k !in r.failed && k !in r.pending && k !in r.consumers)
    && (forall k :: k in r.failed ==> k !in r.pending && k !in r.consumers)
    && (forall k :: k in r.pending ==> k !in r.consumers)
    && (forall k :: k in v.open ==> k in v.seen)
    && (forall k :: k in v.open && k in r.pending ==> v.open[k] == r.pending[k])
    && (forall k :: k in v.open && k in r.consumers ==> v.open[k] == r.consumers[k])
    && (forall k :: k in r.missed ==> k in v.seen && k !in v.open)
    && (forall k :: k in r.pending && k !in v.open ==> k in r.missed)
  }

  /** Consumer `k` is on the screen as client `c`'s track `t`. */
  ghost predicate Live(v: RoomLog.View, r: Replica, c: ClientId, t: R.Track) {
    && t.id in r.consumers && (t.id in v.open || t.id in r.missed)
    && r.consumers[t.id].from == c && r.consumers[t.id].kind == t.kind
  }

  ghost predicate ScreenOk(v: RoomLog.View, r: Replica) {
    forall c, t :: R.Shows(r.screen, c, t) <==> Live(v, r, c, t)
  }

  ghost predicate Faithful(r: Replica) {
    && R.Agree(r.screen)
    && (RoomLog.Replay(r.log).ok ==> Sorted(RoomLog.Replay(r.log), r) && ScreenOk(RoomLog.Replay(r.log), r))
  }

  lemma LiveOncePlaced(v: RoomLog.View, r: Replica)
    requires R.Agree(r.screen) && ScreenOk(v, r)
    ensures R.OncePlaced(r.screen)
  {
    var info := r.screen.info;
    forall i, j, t, u | 0 <= i < j < |info| && t in info[i].tracks && u in info[j].tracks ensures t.id != u.id {
      assert R.Shows(r.screen, info[i].clientId, t) && R.Shows(r.screen, info[j].clientId, u);
      assert R.Distinct(info);
    }
  }

  lemma PendingIsGenuine(v: RoomLog.View, r: Replica, k: nat)
    requires Sorted(v, r) && ScreenOk(v, r) && k in r.pending
    ensures R.Genuine(r.screen, TrackOf(k, r.pending[k]))
  {
  }

  lemma ReceiveFaithful(r: Replica, m: Message)
    requires Faithful(r)
    ensures Faithful(Receive(r, m))
  {
    var r' := Receive(r, m);
    var v, v' := RoomLog.Replay(r.log), RoomLog.Replay(r'.log);
    RoomLog.ReplayAppend(r.log, m);
    assert r'.log == r.log + [m];
    if m.Closed? && m.consumer in r.consumers {
      R.RemovedAgrees(r.screen, R.Keys(r.screen.info), m.consumer);
    }
    hide R.Removed, R.Agree;
    if v'.ok {
      ReceiveSorted(v, r, m);
      ReceiveScreen(r, m);
    }
  }

  lemma ReceiveSorted(v: RoomLog.View, r: Replica, m: Message)
    requires Sorted(v, r) && RoomLog.Note(v, m).ok
    ensures Sorted(RoomLog.Note(v, m), Receive(r, m))
  {
    hide R.Removed;
  }

  lemma ReceiveScreen(r: Replica, m: Message)
    requires Faithful(r) && RoomLog.Replay(r.log + [m]).ok
    ensures ScreenOk(RoomLog.Replay(r.log + [m]), Receive(r, m))
  {
    var r' := Receive(r, m);
    var v := RoomLog.Replay(r.log);
    RoomLog.ReplayAppend(r.log, m);
    var v' := RoomLog.Note(v, m);
    if m.Closed? && m.consumer in r.consumers {
      LiveOncePlaced(v, r);
      forall c, t ensures R.Shows(r'.screen, c, t) <==> Live(v', r', c, t) {
        R.RemovedShows(r.screen, m.consumer, c, t);
        hide R.Removed, R.Shows, R.Agree, R.OncePlaced;
      }
    } else {
      assert r'.screen == r.screen;
      hide R.Removed, R.Shows, R.Agree;
      forall c, t ensures R.Shows(r'.screen, c, t) <==> Live(v', r', c, t) {
        assert R.Shows(r.screen, c, t) <==> Live(v, r, c, t);
      }
    }
  }

  lemma ConsumedSorted(v: RoomLog.View, r: Replica, k: nat)
    requires Sorted(v, r) && k in r.pending
    ensures Sorted(v, OnConsumed(r, k)) && k !in r.consumers
    ensures k in v.open || k in r.missed
  {
    hide R.Added;
  }

  lemma ConsumedFaithful(r: Replica, k: nat)
    requires Faithful(r) && k in r.pending && RoomLog.Replay(r.log).ok
    ensures Faithful(OnConsumed(r, k))
  {
    var r' := OnConsumed(r, k);
    var v := RoomLog.Replay(r.log);
    var info := r.pending[k];
    PendingIsGenuine(v, r, k);
    R.AddedAgrees(r.screen, info.from, None, TrackOf(k, info));
    hide R.Added, R.Genuine, R.Shows, R.Agree, RoomLog.Replay;
    ConsumedSorted(v, r, k);
    hide Sorted;
    forall c, t ensures R.Shows(r'.screen, c, t) <==> Live(v, r', c, t) {
      R.AddedShows(r.screen, info.from, None, TrackOf(k, info), c, t);
    }
  }

  // ---------- runs ----------

  ghost predicate Possible(ds: seq<Arrival>)
    decreases |ds|
  {
    ds == [] || (Possible(ds[..|ds| - 1]) && CanHappen(After(ds[..|ds| - 1]), ds[|ds| - 1]))
  }

  ghost function After(ds: seq<Arrival>): Replica
    decreases |ds|
  {
    if ds == [] then Fresh
    else
      var r := After(ds[..|ds| - 1]);
      var a := ds[|ds| - 1];
      if CanHappen(r, a) then Next(r, a) else r
  }

  lemma LastArrival(ds: seq<Arrival>)
    requires Possible(ds) && ds != []
    ensures CanHappen(After(ds[..|ds| - 1]), ds[|ds| - 1]) && Possible(ds[..|ds| - 1])
    ensures After(ds) == Next(After(ds[..|ds| - 1]), ds[|ds| - 1])
  {
    hide Next, CanHappen;
  }

  /** Sensible logs have sensible beginnings. */
  lemma EarlierOk(r: Replica, a: Arrival)
    requires CanHappen(r, a) && RoomLog.Replay(Next(r, a).log).ok
    ensures RoomLog.Replay(r.log).ok
  {
    hide R.Added, R.Removed;
    if a.Deliver? {
      assert Next(r, a).log == r.log + [a.message];
      hide Next;
      RoomLog.ReplayAppend(r.log, a.message);
      hide RoomLog.Replay;
    }
  }

  /**
   The replica in general: after a sensible log, in any order of finished `consume` calls, the
   screen shows exactly the consumers that were not dropped, failed or still pending and that
   are open or were closed while being consumed, each with its client and kind.
   */
  lemma {:induction false} ScreenIsLog(ds: seq<Arrival>)
    requires Possible(ds) && RoomLog.Replay(After(ds).log).ok
    ensures Faithful(After(ds))
    decreases |ds|
  {
    if ds != [] {
      var r := After(ds[..|ds| - 1]);
      LastArrival(ds);
      EarlierOk(r, ds[|ds| - 1]);
      ScreenIsLog(ds[..|ds| - 1]);
      match ds[|ds| - 1] {
        case Transported =>
        case Deliver(m) => ReceiveFaithful(r, m);
        case Consumed(k) => ConsumedFaithful(r, k);
        case Rejected(k) =>
      }
    }
  }

  /** A consumer closed while it was being consumed stays on the screen for good. */
  lemma {:induction false} OvertakenStays(ds: seq<Arrival>, more: seq<Arrival>, k: nat)
    requires Possible(ds + more) && RoomLog.Replay(After(ds + more).log).ok
    requires k in After(ds).missed && k in After(ds).consumers
    ensures k in After(ds + more).missed && k in After(ds + more).consumers
    ensures After(ds + more).consumers[k] == After(ds).consumers[k]
    ensures var info := After(ds).consumers[k];
            R.Shows(After(ds + more).screen, info.from, TrackOf(k, info))
    decreases |more|
  {
    hide After, Possible, Next, R.Shows, Faithful, RoomLog.Replay;
    if more == [] {
      assert ds + more == ds;
    } else {
      var init := more[..|more| - 1];
      assert (ds + more)[..|ds + more| - 1] == ds + init;
      LastArrival(ds + more);
      EarlierOk(After(ds + init), more[|more| - 1]);
      OvertakenStays(ds, init, k);
      ScreenIsLog(ds + init);
      OvertakenStep(After(ds + init), more[|more| - 1], k);
    }
    ScreenIsLog(ds + more);
    OvertakenIsShown(After(ds + more), k);
  }

  lemma OvertakenIsShown(r: Replica, k: nat)
    requires Faithful(r) && RoomLog.Replay(r.log).ok && k in r.missed && k in r.consumers
    ensures R.Shows(r.screen, r.consumers[k].from, TrackOf(k, r.consumers[k]))
  {
    assert Live(RoomLog.Replay(r.log), r, r.consumers[k].from, TrackOf(k, r.consumers[k]));
  }

  lemma OvertakenStep(r: Replica, a: Arrival, k: nat)
    requires Faithful(r) && RoomLog.Replay(r.log).ok && CanHappen(r, a)
    requires k in r.missed && k in r.consumers
    ensures k in Next(r, a).missed && k in Next(r, a).consumers && Next(r, a).consumers[k] == r.consumers[k]
  {
    hide R.Added, R.Removed, ScreenOk, R.Agree;
  }

  /** It does happen: the closed-notification of a consumer arrives while it is being consumed,
      and then everything delivered is closed, nothing is in flight, and the track is shown. */
  lemma OvertakenHappens(k: nat, info: ConsumerInfo)
    ensures var ds := [Transported, Deliver(Created(k, info)), Deliver(Closed(k)), Arrival.Consumed(k)];
            && Possible(ds)
            && var r := After(ds);
               && RoomLog.Replay(r.log).ok && RoomLog.Replay(r.log).open == map[] && r.pending == map[]
               && k in r.missed && k in r.consumers && R.Shows(r.screen, info.from, TrackOf(k, info))
  {
    hide R.Shows;
    var d0, d1, d2, d3 := Transported, Deliver(Created(k, info)), Deliver(Closed(k)), Arrival.Consumed(k);
    assert [d0, d1, d2, d3] == [] + [d0] + [d1] + [d2] + [d3];
    MoreArrived([], d0);
    MoreArrived([] + [d0], d1);
    MoreArrived([] + [d0] + [d1], d2);
    MoreArrived([] + [d0] + [d1] + [d2], d3);
    var ds := [d0, d1, d2, d3];
    var log := [] + [Created(k, info)] + [Closed(k)];
    assert After(ds).log == log;
    RoomLog.ReplayAppend([] + [Created(k, info)], Closed(k));
    RoomLog.ReplayAppend([], Created(k, info));
    assert RoomLog.Replay(log).open == map[];
    ScreenIsLog(ds);
    hide Possible, After, RoomLog.Replay;
    OvertakenIsShown(After(ds), k);
  }

  lemma MoreArrived(ds: seq<Arrival>, a: Arrival)
    requires Possible(ds) && CanHappen(After(ds), a)
    ensures Possible(ds + [a]) && After(ds + [a]) == Next(After(ds), a)
  {
    assert (ds + [a])[..|ds|] == ds;
    hide Next;
  }

  // ---------- end to end with the room ----------

  /** The screen shows exactly the consumers the room holds for client `c`. */
  ghost predicate Mirrors(screen: R.Screen, s: Room, c: nat)
    requires c < |s.clients|
  {
    forall from, t :: R.Shows(screen, from, t) <==> HeldAs(s, c, from, t)
  }

  ghost predicate HeldAs(s: Room, c: nat, from: ClientId, t: R.Track)
    requires c < |s.clients|
  {
    && t.id in s.clients[c].consumers && t.id < |s.consumers|
    && s.consumers[t.id].info.from == from && s.consumers[t.id].info.kind == t.kind
  }

  lemma OpenIsHeld(es: seq<Event>, c: nat)
    requires RoomInvariant.Possible(es) && c < |RoomInvariant.After(es).clients|
    requires !RoomInvariant.After(es).clients[c].closed
    ensures var s := RoomInvariant.After(es);
            && RoomLog.Replay(s.clients[c].log).ok
            && RoomLog.Replay(s.clients[c].log).open == RoomLog.Picture(s.consumers, s.clients[c].consumers)
  {
    RoomLog.LogRefinesState(es);
    assert RoomLog.Told(RoomInvariant.After(es).consumers, RoomInvariant.After(es).clients[c]);
  }

  /**
   End to end.  Once everything the room sent to client `c` is delivered and no `consume` is
   in flight, the screen shows exactly the room's consumers for that client, grouped by the
   producing client, if and only if none of them was announced before the receiving transport
   was set or failed to be consumed, and none was closed while it was being consumed.
   */
  lemma EndToEnd(es: seq<Event>, c: nat, ds: seq<Arrival>)
    requires RoomInvariant.Possible(es) && c < |RoomInvariant.After(es).clients|
    requires !RoomInvariant.After(es).clients[c].closed
    requires Possible(ds) && After(ds).log == RoomInvariant.After(es).clients[c].log && After(ds).pending == map[]
    ensures var s := RoomInvariant.After(es);
            var r := After(ds);
            Mirrors(r.screen, s, c) <==>
            && (forall k :: k in s.clients[c].consumers && k < |s.consumers| ==> k !in r.dropped && k !in r.failed)
            && (forall k :: k in r.missed ==> k !in r.consumers)
  {
    var s := RoomInvariant.After(es);
    var r := After(ds);
    OpenIsHeld(es, c);
    ScreenIsLog(ds);
    hide RoomInvariant.Possible, RoomInvariant.After, Possible, After, R.Shows, R.Agree;
    MirrorsExactly(s, c, r);
  }

  lemma MissedWouldBeHeld(v: RoomLog.View, s: Room, c: nat, r: Replica, k: nat)
    requires c < |s.clients| && ScreenOk(v, r) && Mirrors(r.screen, s, c)
    ensures k in r.missed && k in r.consumers ==> k in s.clients[c].consumers && k < |s.consumers|
  {
    if k in r.missed && k in r.consumers {
      var info := r.consumers[k];
      assert Live(v, r, info.from, TrackOf(k, info));
      assert HeldAs(s, c, info.from, TrackOf(k, info));
    }
  }

  lemma MirrorsExactly(s: Room, c: nat, r: Replica)
    requires c < |s.clients| && r.pending == map[]
    requires RoomLog.Replay(r.log).open == RoomLog.Picture(s.consumers, s.clients[c].consumers)
    requires Sorted(RoomLog.Replay(r.log), r) && ScreenOk(RoomLog.Replay(r.log), r)
    ensures Mirrors(r.screen, s, c) <==>
            && (forall k :: k in s.clients[c].consumers && k < |s.consumers| ==> k !in r.dropped && k !in r.failed)
            && (forall k :: k in r.missed ==> k !in r.consumers)
  {
    var v := RoomLog.Replay(r.log);
    hide RoomLog.Replay, R.Shows;
    if Mirrors(r.screen, s, c) {
      forall k | k in s.clients[c].consumers && k < |s.consumers| ensures k !in r.dropped && k !in r.failed {
        var info := s.consumers[k].info;
        assert HeldAs(s, c, info.from, TrackOf(k, info));
        assert R.Shows(r.screen, info.from, TrackOf(k, info));
      }
      forall k ensures k in r.missed && k in r.consumers ==> k in v.open {
        MissedWouldBeHeld(v, s, c, r, k);
      }
    }
    if (forall k :: k in s.clients[c].consumers && k < |s.consumers| ==> k !in r.dropped && k !in r.failed)
       && (forall k :: k in r.missed ==> k !in r.consumers)
    {
      forall from, t ensures R.Shows(r.screen, from, t) <==> HeldAs(s, c, from, t) {
        if HeldAs(s, c, from, t) {
          assert t.id in v.open;
        }
      }
    }
  }

  // ---------- the conditions a client can meet ----------

  /** The receiving transport is set before any created-notification, every `consume`
      succeeds, and does so before that consumer's closed-notification is handled. */
  predicate CarefulStep(r: Replica, a: Arrival) {
    match a
    case Deliver(Created(_, _)) => r.receiving
    case Deliver(Closed(k)) => k !in r.pending
    case Rejected(_) => false
    case _ => true
  }

  ghost predicate Careful(ds: seq<Arrival>)
    decreases |ds|
  {
    ds == [] || (Careful(ds[..|ds| - 1]) && CarefulStep(After(ds[..|ds| - 1]), ds[|ds| - 1]))
  }

  lemma {:induction false} CarefulLosesNothing(ds: seq<Arrival>)
    requires Careful(ds)
    ensures After(ds).dropped == {} && After(ds).failed == {} && After(ds).missed == {}
    decreases |ds|
  {
    if ds != [] {
      CarefulLosesNothing(ds[..|ds| - 1]);
    }
  }

  /** One live track per kind and client. */
  ghost predicate OneLive(open: map<nat, ConsumerInfo>) {
    forall a, b | a in open && b in open && open[a].from == open[b].from && open[a].kind == open[b].kind :: a == b
  }

  ghost predicate AlwaysOneLive(log: seq<Message>)
    decreases |log|
  {
    OneLive(RoomLog.Replay(log).open) && (log == [] || AlwaysOneLive(log[..|log| - 1]))
  }

  lemma NoTwinWhenOneLive(v: RoomLog.View, r: Replica, k: nat)
    requires R.Agree(r.screen) && Sorted(v, r) && ScreenOk(v, r) && r.missed == {} && OneLive(v.open)
    ensures !R.HasTwin(r.screen, k)
  {
    var info := r.screen.info;
    if R.HasTwin(r.screen, k) {
      var i, t, u :| 0 <= i < |info| && t in info[i].tracks && u in info[i].tracks && t.id == k && u.id != k
          && t.kind == u.kind;
      assert R.Shows(r.screen, info[i].clientId, t) && R.Shows(r.screen, info[i].clientId, u);
    }
  }

  /** Then the store names a track of a kind exactly where there is one, all along. */
  lemma {:induction false} StoreStaysExact(ds: seq<Arrival>)
    requires Possible(ds) && Careful(ds) && RoomLog.Replay(After(ds).log).ok && AlwaysOneLive(After(ds).log)
    ensures R.Exact(After(ds).screen)
    decreases |ds|
  {
    if ds != [] {
      var init := ds[..|ds| - 1];
      var r, a := After(init), ds[|ds| - 1];
      LastArrival(ds);
      EarlierOk(r, a);
      ScreenIsLog(init);
      CarefulLosesNothing(init);
      assert AlwaysOneLive(r.log) by {
        if a.Deliver? {
          assert After(ds).log[..|After(ds).log| - 1] == r.log;
        }
      }
      StoreStaysExact(init);
      ExactStep(r, a);
    }
  }

  lemma ExactStep(r: Replica, a: Arrival)
    requires Faithful(r) && RoomLog.Replay(r.log).ok && OneLive(RoomLog.Replay(r.log).open)
    requires r.missed == {} && R.Exact(r.screen) && CanHappen(r, a)
    ensures R.Exact(Next(r, a).screen)
  {
    var v := RoomLog.Replay(r.log);
    if a.Consumed? {
      var info := r.pending[a.consumer];
      PendingIsGenuine(v, r, a.consumer);
      R.AddedExact(r.screen, info.from, None, TrackOf(a.consumer, info));
    } else if a.Deliver? && a.message.Closed? && a.message.consumer in r.consumers {
      LiveOncePlaced(v, r);
      NoTwinWhenOneLive(v, r, a.message.consumer);
      R.RemovalIsExactUnlessTwin(r.screen, a.message.consumer);
    }
  }

  /** The store entry of client `from` names track `k` as its track of this kind. */
  ghost predicate StoreNames(screen: R.Screen, from: ClientId, kind: Kind, k: nat) {
    exists i :: 0 <= i < |screen.store| && screen.store[i].clientId == from && screen.store[i].Named(kind) == Some(k)
  }

  lemma NamesWhatIsShown(screen: R.Screen, from: ClientId, kind: Kind, k: nat)
    requires R.Agree(screen) && R.Exact(screen)
    requires forall a, b :: R.Shows(screen, from, R.Track(a, kind)) && R.Shows(screen, from, R.Track(b, kind)) ==>
             a == b
    ensures StoreNames(screen, from, kind, k) <==> R.Shows(screen, from, R.Track(k, kind))
  {
    if StoreNames(screen, from, kind, k) {
      var i :| 0 <= i < |screen.store| && screen.store[i].clientId == from && screen.store[i].Named(kind) == Some(k);
      assert R.NamesTracks(screen.store[i], screen.info[i].tracks);
      assert R.Listed(screen.info, from, R.Track(k, kind));
    }
    if R.Shows(screen, from, R.Track(k, kind)) {
      var i :| 0 <= i < |screen.info| && screen.info[i].clientId == from && R.Track(k, kind) in screen.info[i].tracks;
      assert R.Carries(screen.info[i].tracks, kind);
      var k' := screen.store[i].Named(kind).value;
      assert R.NamesTracks(screen.store[i], screen.info[i].tracks);
      assert R.Listed(screen.info, from, R.Track(k', kind));
      assert screen.store[i].Named(kind) == Some(k);
    }
  }

  /**
   The replica is exact for a careful client: once the channel is drained, the tracks on the
   screen and the tracks the store names are both exactly those of the consumers the room
   holds for the client, each under its producing client and kind.
   */
  lemma CarefulClientsSeeTheRoom(es: seq<Event>, c: nat, ds: seq<Arrival>)
    requires RoomInvariant.Possible(es) && c < |RoomInvariant.After(es).clients|
    requires !RoomInvariant.After(es).clients[c].closed
    requires Possible(ds) && After(ds).log == RoomInvariant.After(es).clients[c].log && After(ds).pending == map[]
    requires Careful(ds)
    ensures Mirrors(After(ds).screen, RoomInvariant.After(es), c)
    ensures AlwaysOneLive(After(ds).log) ==>
              forall from, kind: Kind, k: nat ::
                StoreNames(After(ds).screen, from, kind, k) <==>
                    HeldAs(RoomInvariant.After(es), c, from, R.Track(k, kind))
  {
    var s := RoomInvariant.After(es);
    var r := After(ds);
    EndToEnd(es, c, ds);
    CarefulLosesNothing(ds);
    if AlwaysOneLive(r.log) {
      OpenIsHeld(es, c);
      ScreenIsLog(ds);
      StoreStaysExact(ds);
      var v := RoomLog.Replay(r.log);
      assert OneLive(v.open);
      hide RoomInvariant.Possible, RoomInvariant.After, Possible, After, R.Shows, R.Agree, R.Exact;
      forall from, kind: Kind, k: nat
        ensures StoreNames(r.screen, from, kind, k) <==> HeldAs(s, c, from, R.Track(k, kind))
      {
        forall a, b | R.Shows(r.screen, from, R.Track(a, kind)) && R.Shows(r.screen, from, R.Track(b, kind))
          ensures a == b
        {
          assert Live(v, r, from, R.Track(a, kind)) && Live(v, r, from, R.Track(b, kind));
        }
        NamesWhatIsShown(r.screen, from, kind, k);
      }
    }
  }

  /**
   Everybody is seen.  In a run where no `consume` of the room rejects, once no handler is in
   flight: a careful client that was ready when it asked to join, or when the producer was
   registered, and that has handled everything it was sent, holds in the room a consumer of
   every such open producer of every other client, and shows the track of that very consumer,
   under the producing client and of the kind that client asked the producer to be.
   */
  lemma EverybodyIsSeen(es: seq<Event>, ds: seq<Arrival>, i: nat, j: nat, m: nat)
    requires RoomInvariant.Possible(es) && RoomInvariant.After(es).tasks == map[]
    requires forall n :: 0 <= n < |es| ==> !es[n].ConsumeRejected?
    requires RoomMesh.Entitled(es, i, j, m)
    requires !RoomInvariant.After(es).clients[RoomInvariant.After(es).entries[i].client].closed
    requires Possible(ds) && Careful(ds) && After(ds).pending == map[]
    requires After(ds).log == RoomInvariant.After(es).clients[RoomInvariant.After(es).entries[i].client].log
    ensures var s := RoomInvariant.After(es);
            var p := s.clients[s.entries[j].client].producers.order[m];
            && (exists k :: ShownFor(s, s.entries[i].client, After(ds).screen, s.entries[j].id, p, k))
            && AskedAs(es, s.entries[j].client, p)
  {
    var s := RoomInvariant.After(es);
    var c := s.entries[i].client;
    RoomMesh.MeshComplete(es, i, j, m);
    WantedWasAsked(es, i, j, m);
    hide AskedAs;
    RoomUnique.NobodyConsumesItself(es);
    CarefulClientsSeeTheRoom(es, c, ds);
    hide RoomInvariant.Possible, RoomInvariant.After, Possible, After, R.Shows, Careful, RoomInvariant.Drained;
    var k := ServedIsHeld(s, i, j, m);
    assert HeldAs(s, c, s.entries[j].id, TrackOf(k, s.consumers[k].info));
    assert ShownFor(s, c, After(ds).screen, s.entries[j].id, s.clients[s.entries[j].client].producers.order[m], k);
  }

  /** Client `q` asked for producer `p`, with the very kind it has. */
  ghost predicate AskedAs(es: seq<Event>, q: nat, p: nat)
    requires RoomInvariant.Possible(es)
  {
    var s, makers := RoomInvariant.After(es), RoomOrigins.Makers(es);
    && p < |s.producers| && p < |makers| && makers[p] < |s.handlers|
    && s.handlers[makers[p]].client == q && s.handlers[makers[p]].request == CreateProducer(s.producers[p].kind)
  }

  lemma WantedWasAsked(es: seq<Event>, i: nat, j: nat, m: nat)
    requires RoomInvariant.Possible(es) && RoomOffers.Due(RoomInvariant.After(es), i, j, m)
    ensures var s := RoomInvariant.After(es);
            AskedAs(es, s.entries[j].client, s.clients[s.entries[j].client].producers.order[m])
  {
    var s := RoomInvariant.After(es);
    var q := s.entries[j].client;
    assert RoomInvariant.RegistryOk(s.producers, q, s.clients[q].producers);
    hide RoomInvariant.Coherent, RoomInvariant.Drained;
    var p := s.clients[q].producers.order[m];
    RoomOrigins.EveryProducerWasAskedFor(es, p, p);
  }

  /** Consumer `k` of client `c` is of producer `p`, and its track is shown under `from`. */
  ghost predicate ShownFor(s: Room, c: nat, screen: R.Screen, from: ClientId, p: nat, k: nat) {
    && c < |s.clients| && k in s.clients[c].consumers && k < |s.consumers| && p < |s.producers|
    && s.consumers[k].info.producer == p && s.consumers[k].info.kind == s.producers[p].kind
    && R.Shows(screen, from, TrackOf(k, s.consumers[k].info))
  }

  lemma ServedIsHeld(s: Room, i: nat, j: nat, m: nat) returns (k: nat)
    requires RoomInvariant.Coherent(s) && Indexed(s) && RoomUnique.NoSelf(s)
    requires RoomOffers.Due(s, i, j, m) && RoomOffers.Served(s, i, j, m)
    ensures k < |s.consumers|
    ensures var info := s.consumers[k].info;
            var p := s.clients[s.entries[j].client].producers.order[m];
            && HeldAs(s, s.entries[i].client, s.entries[j].id, TrackOf(k, info))
            && k in s.clients[s.entries[i].client].consumers && p < |s.producers|
            && info.producer == p && info.kind == s.producers[p].kind
  {
    assert RoomInvariant.EntryOk(s.clients, s.entries[j]);
    assert RoomInvariant.RegistryOk(s.producers, s.entries[j].client, s.clients[s.entries[j].client].producers);
    var p := s.clients[s.entries[j].client].producers.order[m];
    k :| k in s.clients[s.entries[i].client].consumers && k < |s.consumers| && s.consumers[k].info.producer == p;
  }

  // ---------- the object ----------

  /** The service as far as consuming goes; the handler suspended in `consume` for a consumer
      is an entry of `pending`. */
  class MediasoupService {
    const view: R.RemoteClientsView
    var receiving: bool
    var pending: map<nat, ConsumerInfo>
    var consumers: map<nat, ConsumerInfo>
    ghost var log: seq<Message>
    ghost var dropped: set<nat>
    ghost var failed: set<nat>
    ghost var missed: set<nat>

    ghost function State(): Replica
      reads this, view
    {
      Replica(receiving, pending, consumers, view.State(), log, dropped, failed, missed)
    }

    constructor ()
      ensures State() == Fresh && fresh(view)
    {
      view := new R.RemoteClientsView();
      receiving, pending, consumers, log, dropped, failed, missed := false, map[], map[], [], {}, {}, {};
    }

    method SetReceiveTransport()
      modifies this
      ensures State() == Next(old(State()), Transported)
    {
      receiving := true;
    }

    /** The listener of `consumer-created-notification` up to its await. */
    method OnCreatedNotification(k: nat, info: ConsumerInfo)
      modifies this
      ensures State() == Next(old(State()), Deliver(Created(k, info)))
    {
      log := log + [Created(k, info)];
      if !receiving {
        dropped := dropped + {k};
        return;
      }
      pending := pending[k := info];
    }

    /** ... and after it. */
    method OnConsume(k: nat)
      requires k in pending
      modifies this, view
      ensures State() == Next(old(State()), Arrival.Consumed(k))
    {
      var info := pending[k];
      pending := pending - {k};
      consumers := consumers[k := info];
      view.AddedMediaConsumer(info.from, None, TrackOf(k, info));
    }

    method OnConsumeFailed(k: nat)
      requires k in pending
      modifies this
      ensures State() == Next(old(State()), Rejected(k))
    {
      pending, failed := pending - {k}, failed + {k};
    }

    /** The listener of `consumer-closed-notification`. */
    method OnClosedNotification(k: nat)
      modifies this, view
      ensures State() == Next(old(State()), Deliver(Closed(k)))
    {
      log := log + [Closed(k)];
      if k in pending {
        missed := missed + {k};
      }
      if k in consumers {
        view.RemovedMediaConsumer(k);
      }
    }
  }
}
