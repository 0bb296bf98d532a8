/**
 A whole browser: `connect` and the notification handlers work through one and the same log,
 so what is dropped can be told from the log alone.
 */
module Browsers {
  import opened Base
  import opened RoomModel
  import opened RoomInvariant
  import RoomLog
  import R = RemoteClients
  import S = Sessions
  import M = MediasoupServices

  datatype Browser = Browser(session: S.Session, replica: M.Replica)

  /** A step of the session, or a `consume` call of the browser that resolves or rejects. */
  datatype Act = InSession(act: S.Act) | Finish(consumer: nat) | Fail(consumer: nat)

  predicate Can(c: nat, ids: S.Ids, b: Browser, a: Act) {
    match a
    case InSession(x) => S.Can(c, ids, b.session, x)
    case Finish(k) => k in b.replica.pending
    case Fail(k) => k in b.replica.pending
  }

  /** A message goes to the handlers; `connect` resumes before the next message is handled. */
  function Handled(c: nat, ids: S.Ids, b: Browser): Browser
    requires Indexed(b.session.room) && Named(b.session.room) && S.Can(c, ids, b.session, S.Handle)
  {
    var s := S.Do(c, ids, b.session, S.Handle);
    var r := M.Receive(b.replica, b.session.room.clients[c].log[b.session.handled]);
    Browser(s, if S.Receiving(s) then r.(receiving := true) else r)
  }

  function Do(c: nat, ids: S.Ids, b: Browser, a: Act): Browser
    requires Indexed(b.session.room) && Named(b.session.room) && Can(c, ids, b, a)
  {
    match a
    case InSession(x) =>
      if x.Handle? then Handled(c, ids, b) else b.(session := S.Do(c, ids, b.session, x))
    case Finish(k) => b.(replica := M.OnConsumed(b.replica, k))
    case Fail(k) => b.(replica := M.Next(b.replica, M.Rejected(k)))
  }

  /** Position `a` of the log lies before the later of the two transport responses. */
  ghost predicate Early(ids: S.Ids, log: seq<Message>, a: nat) {
    !(S.Heard(log, a, ids.snd) && S.Heard(log, a, ids.rcv))
  }

  /** Consumer `k` was announced early among the first `n` messages. */
  ghost predicate AnnouncedEarly(ids: S.Ids, log: seq<Message>, n: nat, k: nat) {
    exists a: nat :: a < n && a < |log| && log[a].Created? && log[a].consumer == k && Early(ids, log, a)
  }

  // ---------- the invariant ----------

  /** The replica is at the session's place in the log. */
  ghost predicate Coupled(c: nat, ids: S.Ids, b: Browser)
    requires c < |b.session.room.clients| && b.session.handled <= |b.session.room.clients[c].log|
  {
    var log := b.session.room.clients[c].log;
    && b.replica.log == log[..b.session.handled]
    && b.replica.receiving == S.Receiving(b.session)
    && forall k: nat :: k in b.replica.dropped <==> AnnouncedEarly(ids, log, b.session.handled, k)
  }

  ghost predicate Inv(c: nat, ids: S.Ids, b: Browser) {
    && S.Inv(c, ids, b.session) && S.Fresh(ids) && Reached(b.session.room)
    && Coupled(c, ids, b) && M.Faithful(b.replica)
  }

  lemma EarlyStill(ids: S.Ids, log: seq<Message>, log': seq<Message>, n: nat, k: nat)
    requires log <= log' && n <= |log|
    ensures AnnouncedEarly(ids, log', n, k) <==> AnnouncedEarly(ids, log, n, k)
  {
    forall a: nat | a < n ensures Early(ids, log', a) <==> Early(ids, log, a) {
      S.HeardStill(log, log', a, ids.snd);
      S.HeardStill(log, log', a, ids.rcv);
    }
    hide Early;
    if AnnouncedEarly(ids, log, n, k) {
      var a: nat :| a < n && a < |log| && log[a].Created? && log[a].consumer == k && Early(ids, log, a);
      assert log'[a] == log[a];
    }
    if AnnouncedEarly(ids, log', n, k) {
      var a: nat :| a < n && a < |log'| && log'[a].Created? && log'[a].consumer == k && Early(ids, log', a);
      assert log'[a] == log[a];
    }
  }

  lemma EarlyNext(ids: S.Ids, log: seq<Message>, n: nat, k: nat)
    requires n < |log|
    ensures AnnouncedEarly(ids, log, n + 1, k) <==>
            AnnouncedEarly(ids, log, n, k) || (log[n].Created? && log[n].consumer == k && Early(ids, log, n))
  {
    hide Early;
  }

  /** The room moves on; the browser does not. */
  lemma RoomMoved(c: nat, ids: S.Ids, b: Browser, s: S.Session)
    requires c < |b.session.room.clients| && b.session.handled <= |b.session.room.clients[c].log| && Coupled(c, ids, b)
    requires c < |s.room.clients| && b.session.room.clients[c].log <= s.room.clients[c].log
    requires s.handled == b.session.handled && S.Receiving(s) == S.Receiving(b.session)
    ensures Coupled(c, ids, b.(session := s))
  {
    var log, log' := b.session.room.clients[c].log, s.room.clients[c].log;
    forall k: nat ensures AnnouncedEarly(ids, log', s.handled, k) <==> AnnouncedEarly(ids, log, s.handled, k) {
      EarlyStill(ids, log, log', s.handled, k);
    }
    hide AnnouncedEarly;
    assert log'[..s.handled] == log[..s.handled];
  }

  /** What the step of the session does to the room is a step of the room. */
  lemma SessionGrows(c: nat, ids: S.Ids, s: S.Session, x: S.Act)
    requires S.Inv(c, ids, s) && S.Fresh(ids) && Reached(s.room) && S.Can(c, ids, s, x)
    ensures var s' := S.Do(c, ids, s, x);
            && S.Inv(c, ids, s') && Reached(s'.room)
            && |s.room.clients| <= |s'.room.clients| && c < |s.room.clients|
            && s.room.clients[c].log <= s'.room.clients[c].log
  {
    S.DoOk(c, ids, s, x);
    assert c < |s.room.clients| && S.RoomOk(s.room);
    hide Coherent, Drained, Indexed, Named, Reached, Enabled, S.Inv, S.InStep, S.StageOk, S.NotOurs, S.Resume;
    if x.Elsewhere? {
      StepGrows(s.room, x.event, c);
    } else if x.Take? {
      StepGrows(s.room, S.EventOf(c, s.sent[s.taken]), c);
    }
    hide Step;
  }

  lemma StepGrows(s: Room, e: Event, c: nat)
    requires S.RoomOk(s) && Reached(s) && Enabled(s, e) && c < |s.clients|
    ensures Reached(Step(s, e)) && |s.clients| <= |Step(s, e).clients| && s.clients[c].log <= Step(s, e).clients[c].log
  {
    S.GrowsOnly(s, e);
    hide Coherent, Drained, Indexed, Named, Reached, Enabled, Step;
    Then(s, e, Step(s, e));
  }

  lemma SessionOk(c: nat, ids: S.Ids, b: Browser, x: S.Act)
    requires Inv(c, ids, b) && S.Can(c, ids, b.session, x) && !x.Handle?
    ensures Inv(c, ids, Do(c, ids, b, InSession(x)))
  {
    var s' := S.Do(c, ids, b.session, x);
    assert S.Receiving(s') == S.Receiving(b.session) && s'.handled == b.session.handled by {
      hide S.Inv, Reached, M.Faithful, Coupled, Step, Indexed, Named, Enabled;
    }
    Counts(c, ids, b.session);
    hide S.Inv, Reached, M.Faithful, S.Do, S.Can, S.Receiving, Coupled;
    SessionGrows(c, ids, b.session, x);
    RoomMoved(c, ids, b, s');
  }

  lemma Counts(c: nat, ids: S.Ids, s: S.Session)
    requires S.Inv(c, ids, s)
    ensures c < |s.room.clients| && s.handled <= |s.room.clients[c].log|
    ensures Indexed(s.room) && Named(s.room)
  {
    hide Coherent, Drained, S.StageOk;
  }

  lemma HandleKeepsLog(c: nat, ids: S.Ids, s: S.Session)
    requires Indexed(s.room) && Named(s.room) && S.Can(c, ids, s, S.Handle)
    ensures var s' := S.Do(c, ids, s, S.Handle);
            && s'.room == s.room && s'.handled == s.handled + 1
            && (S.Receiving(s) ==> S.Receiving(s'))
            && (!s.room.clients[c].log[s.handled].Response? ==> S.Receiving(s') == S.Receiving(s))
  {
    hide Indexed, Named;
  }

  /** While the receiving transport is not set, everything handled so far is early. */
  lemma ReceivingIsLate(c: nat, ids: S.Ids, s: S.Session)
    requires S.Inv(c, ids, s)
    ensures c < |s.room.clients| && (S.Receiving(s) <==> !Early(ids, s.room.clients[c].log, s.handled))
  {
    hide Coherent, Drained, Indexed, Named, S.RoomOk, S.FromScript, S.Heard;
  }

  lemma HandledOk(c: nat, ids: S.Ids, b: Browser)
    requires Inv(c, ids, b) && S.Can(c, ids, b.session, S.Handle)
    ensures Inv(c, ids, Do(c, ids, b, InSession(S.Handle)))
  {
    var s := b.session;
    Counts(c, ids, s);
    var m := s.room.clients[c].log[s.handled];
    hide S.Inv, Reached, M.Faithful, S.Do, Early, AnnouncedEarly, M.Receive, Coupled, Indexed, Named;
    SessionGrows(c, ids, s, S.Handle);
    HandleKeepsLog(c, ids, s);
    ReceivingIsLate(c, ids, s);
    M.ReceiveFaithful(b.replica, m);
    FlagFaithful(M.Receive(b.replica, m));
    HandledCoupled(c, ids, b);
  }

  lemma FlagFaithful(r: M.Replica)
    requires M.Faithful(r)
    ensures M.Faithful(r.(receiving := true))
  {
    hide R.Agree, R.Shows, RoomLog.Replay;
    var v, r1 := RoomLog.Replay(r.log), r.(receiving := true);
    if v.ok {
      assert M.Sorted(v, r1);
      forall c, t ensures R.Shows(r1.screen, c, t) <==> M.Live(v, r1, c, t) {
        assert R.Shows(r.screen, c, t) <==> M.Live(v, r, c, t);
      }
    }
  }

  lemma HandledCoupled(c: nat, ids: S.Ids, b: Browser)
    requires Indexed(b.session.room) && Named(b.session.room) && S.Can(c, ids, b.session, S.Handle)
    requires c < |b.session.room.clients| && Coupled(c, ids, b)
    requires S.Receiving(b.session) <==> !Early(ids, b.session.room.clients[c].log, b.session.handled)
    requires var s' := S.Do(c, ids, b.session, S.Handle);
             && s'.room == b.session.room && s'.handled == b.session.handled + 1
             && (S.Receiving(b.session) ==> S.Receiving(s'))
             && (!b.session.room.clients[c].log[b.session.handled].Response? ==>
                S.Receiving(s') == S.Receiving(b.session))
    ensures Coupled(c, ids, Handled(c, ids, b))
  {
    var log, n := b.session.room.clients[c].log, b.session.handled;
    var b' := Handled(c, ids, b);
    assert log[..n + 1] == log[..n] + [log[n]];
    hide S.Do, Indexed, Named, S.Receiving, Early, R.Removed;
    forall k: nat ensures AnnouncedEarly(ids, log, n + 1, k) <==>
        AnnouncedEarly(ids, log, n, k) || (log[n].Created? && log[n].consumer == k && Early(ids, log, n))
    {
      EarlyNext(ids, log, n, k);
    }
    hide AnnouncedEarly;
  }

  lemma FinishOk(c: nat, ids: S.Ids, b: Browser, k: nat)
    requires Inv(c, ids, b) && k in b.replica.pending
    ensures Inv(c, ids, b.(replica := M.OnConsumed(b.replica, k)))
  {
    hide S.Inv, Reached, M.Faithful, AnnouncedEarly, Indexed, Named, R.Added;
    LogIsOk(c, ids, b);
    M.ConsumedFaithful(b.replica, k);
    InvCounts(c, ids, b);
  }

  lemma FailOk(c: nat, ids: S.Ids, b: Browser, k: nat)
    requires Inv(c, ids, b) && k in b.replica.pending
    ensures Inv(c, ids, b.(replica := M.Next(b.replica, M.Rejected(k))))
  {
    hide S.Inv, Reached, M.Faithful, AnnouncedEarly, Indexed, Named;
    FailFaithful(b.replica, k);
    InvCounts(c, ids, b);
  }

  lemma FailFaithful(r: M.Replica, k: nat)
    requires M.Faithful(r) && k in r.pending
    ensures M.Faithful(M.Next(r, M.Rejected(k)))
  {
    hide R.Agree, R.Shows, RoomLog.Replay;
  }

  /** What was handled makes sense, as it begins a log that does. */
  lemma LogIsOk(c: nat, ids: S.Ids, b: Browser)
    requires Inv(c, ids, b)
    ensures RoomLog.Replay(b.replica.log).ok
  {
    Counts(c, ids, b.session);
    var log := b.session.room.clients[c].log;
    ReachedLog(b.session.room, c);
    hide S.Inv, Reached, M.Faithful, AnnouncedEarly, Indexed, Named;
    PrefixOk(log, b.session.handled);
  }

  lemma ReachedLog(s: Room, c: nat)
    requires Reached(s) && c < |s.clients|
    ensures RoomLog.Told(s.consumers, s.clients[c])
  {
    hide Coherent, Drained, Indexed, Named, RoomLog.Told;
    var es :| Possible(es) && After(es) == s;
    RoomLog.LogRefinesState(es);
  }

  lemma {:induction false} PrefixOk(log: seq<Message>, n: nat)
    requires n <= |log| && RoomLog.Replay(log).ok
    ensures RoomLog.Replay(log[..n]).ok
    decreases |log|
  {
    if n == |log| {
      assert log[..n] == log;
    } else {
      assert log[..|log| - 1][..n] == log[..n];
      PrefixOk(log[..|log| - 1], n);
    }
  }

  lemma DoOk(c: nat, ids: S.Ids, b: Browser, a: Act)
    requires Inv(c, ids, b) && Can(c, ids, b, a)
    ensures Indexed(b.session.room) && Named(b.session.room) && Inv(c, ids, Do(c, ids, b, a))
  {
    hide Inv, S.Can, Handled, S.Do, M.OnConsumed, M.Next;
    assert Indexed(b.session.room) && Named(b.session.room) by { InvCounts(c, ids, b); }
    match a {
      case InSession(x) =>
        if x.Handle? {
          HandledOk(c, ids, b);
        } else {
          SessionOk(c, ids, b, x);
        }
      case Finish(k) => FinishOk(c, ids, b, k);
      case Fail(k) => FailOk(c, ids, b, k);
    }
  }

  lemma InvCounts(c: nat, ids: S.Ids, b: Browser)
    requires Inv(c, ids, b)
    ensures c < |b.session.room.clients| && b.session.handled <= |b.session.room.clients[c].log|
    ensures Indexed(b.session.room) && Named(b.session.room)
  {
    Counts(c, ids, b.session);
  }

  // ---------- runs ----------

  /** A browser whose client record was just added to a reachable room. */
  ghost predicate Starts(c: nat, b: Browser) {
    && b.replica == M.Fresh
    && exists before, id :: RoomInvariant.Possible(before) && c == |RoomInvariant.After(before).clients|
                            && b.session == S.Start(before, id)
  }

  lemma StartOk(c: nat, ids: S.Ids, b: Browser)
    requires Starts(c, b) && S.Fresh(ids)
    ensures Inv(c, ids, b)
  {
    hide S.Inv, Coherent, Drained, Indexed, Named, Reached, M.Faithful;
    var before, id :| RoomInvariant.Possible(before) && c == |RoomInvariant.After(before).clients|
                      && b.session == S.Start(before, id);
    S.StartOk(before, id, ids);
    StartReached(before, id);
    FreshFaithful();
    Counts(c, ids, b.session);
    hide RoomInvariant.Possible, RoomInvariant.After, S.Start;
    assert b.session.handled == 0 && !S.Receiving(b.session);
    assert b.session.room.clients[c].log[..0] == [];
  }

  lemma StartReached(before: seq<Event>, id: ClientId)
    requires RoomInvariant.Possible(before)
    ensures Reached(S.Start(before, id).room)
    ensures S.Start(before, id).handled == 0 && !S.Receiving(S.Start(before, id))
  {
    assert Reached(RoomInvariant.After(before));
    hide Coherent, Drained, Indexed, Named, Reached;
    Then(RoomInvariant.After(before), Add(id), S.Start(before, id).room);
  }

  lemma FreshFaithful()
    ensures M.Faithful(M.Fresh)
  {
  }

  /** The browser got here by a run from its start. */
  ghost predicate Runs(c: nat, ids: S.Ids, start: Browser, acts: seq<Act>, b: Browser)
    decreases |acts|
  {
    if acts == [] then Starts(c, start) && S.Fresh(ids) && b == start
    else
      var a := acts[|acts| - 1];
      exists b0 :: Runs(c, ids, start, acts[..|acts| - 1], b0) && Indexed(b0.session.room) && Named(b0.session.room)
                   && Can(c, ids, b0, a) && b == Do(c, ids, b0, a)
  }

  lemma {:induction false} RunOk(c: nat, ids: S.Ids, start: Browser, acts: seq<Act>, b: Browser)
    requires Runs(c, ids, start, acts, b)
    ensures Inv(c, ids, b)
    decreases |acts|
  {
    hide Inv, Can, Do, Starts, Indexed, Named;
    if acts == [] {
      StartOk(c, ids, b);
    } else {
      var init, a := acts[..|acts| - 1], acts[|acts| - 1];
      var b0 :| Runs(c, ids, start, init, b0) && Indexed(b0.session.room) && Named(b0.session.room)
                && Can(c, ids, b0, a) && b == Do(c, ids, b0, a);
      RunOk(c, ids, start, init, b0);
      DoOk(c, ids, b0, a);
    }
  }

  /**
   Dropped exactly when early: over any run of a browser that follows `connect`, the
   created-notification at position `a` of what it has handled is dropped if and only if it
   comes before the later of the responses to the two transport requests.
   */
  lemma DroppedExactlyWhenEarly(c: nat, ids: S.Ids, start: Browser, acts: seq<Act>, b: Browser, a: nat)
    requires Runs(c, ids, start, acts, b) && a < b.session.handled
    ensures c < |b.session.room.clients| && a < |b.session.room.clients[c].log|
    ensures var log := b.session.room.clients[c].log;
            log[a].Created? ==> (log[a].consumer in b.replica.dropped <==> Early(ids, log, a))
  {
    hide Runs, S.Inv, Reached, M.Faithful, Indexed, Named, Early;
    RunOk(c, ids, start, acts, b);
    InvCounts(c, ids, b);
    ReachedLog(b.session.room, c);
    var log := b.session.room.clients[c].log;
    if log[a].Created? {
      var k := log[a].consumer;
      assert k in b.replica.dropped <==> AnnouncedEarly(ids, log, b.session.handled, k);
      if AnnouncedEarly(ids, log, b.session.handled, k) {
        var d: nat :| d < b.session.handled && d < |log| && log[d].Created? && log[d].consumer == k
            && Early(ids, log, d);
        CreatedOnce(log, a, d);
      }
    }
  }

  lemma CreatedOnce(log: seq<Message>, a: nat, d: nat)
    requires RoomLog.Replay(log).ok && a < |log| && d < |log|
    requires log[a].Created? && log[d].Created? && log[a].consumer == log[d].consumer
    ensures a == d
  {
    if a < d {
      RoomLog.SensibleLog(log, a, d);
    } else if d < a {
      RoomLog.SensibleLog(log, d, a);
    }
  }

  /**
   End to end in terms of the log.  Once a connected browser has handled everything the room
   sent it and no `consume` is in flight, its screen shows exactly the room's consumers for it
   if and only if each of them was announced after both transport responses and was consumed
   without failing, and none was closed while it was being consumed.
   */
  lemma EndToEnd(c: nat, ids: S.Ids, start: Browser, acts: seq<Act>, b: Browser)
    requires Runs(c, ids, start, acts, b) && b.replica.pending == map[]
    requires c < |b.session.room.clients| && !b.session.room.clients[c].closed
    requires b.session.handled == |b.session.room.clients[c].log|
    ensures var room, r := b.session.room, b.replica;
            M.Mirrors(r.screen, room, c) <==>
            && (forall k: nat :: k in room.clients[c].consumers && k < |room.consumers| ==>
                  !AnnouncedEarly(ids, room.clients[c].log, |room.clients[c].log|, k) && k !in r.failed)
            && (forall k :: k in r.missed ==> k !in r.consumers)
  {
    hide Runs, S.Inv, Reached, Indexed, Named, Early, AnnouncedEarly, RoomLog.Picture, RoomLog.Replay, R.Agree,
        R.Shows, M.Sorted, M.ScreenOk;
    RunOk(c, ids, start, acts, b);
    LogIsOk(c, ids, b);
    var room, r := b.session.room, b.replica;
    ReachedLog(room, c);
    assert room.clients[c].log[..b.session.handled] == room.clients[c].log;
    M.MirrorsExactly(room, c, r);
    hide M.Mirrors, RoomLog.Told;
  }
}
