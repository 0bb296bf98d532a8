/**
 The observer's registries of observed clients and observed SFUs: an entry outlives its web
 socket for a grace period, within which a reconnect carries on with the same source.
 Both registries are this machine; that of the SFUs asks for one query field only and
 forgets the web socket on disconnect.
 */
module ObservedSources {
  import opened Base

  datatype Flavour = Clients | Sfus

  type Id = string

  /** The mandatory part of a query string; a missing field and an empty one are both "". */
  datatype Query = Query(id: Id, roomId: string, callId: string)

  /** `source` and `decoder` are numbered in the order of their creation. */
  datatype Entry = Entry(source: nat, decoder: nat, disconnected: Option<int>, webSocket: Option<nat>)

  datatype Socket = Socket(id: Id, closed: bool)

  /** `sources` says of every source ever created whether it is closed; `sockets` are the
      accepted web sockets, `refused` counts the others. */
  datatype Registry = Registry(entries: map<Id, Entry>, sources: seq<bool>, sockets: seq<Socket>, refused: nat)

  const Empty := Registry(map[], [], [], 0)

  datatype Event =
    | Accept(query: Query)
    | SocketClosed(socket: nat, now: int)
    | SourceClosed(source: nat)
    | Check(now: int)

  /** A web socket closes once; the clock is past its epoch, so that a time is truthy. */
  predicate Enabled(s: Registry, e: Event) {
    match e
    case Accept(_) => true
    case SocketClosed(n, now) => n < |s.sockets| && !s.sockets[n].closed && 0 < now
    case SourceClosed(i) => i < |s.sources|
    case Check(now) => 0 < now
  }

  predicate Complete(f: Flavour, q: Query) {
    q.id != "" && (f.Clients? ==> q.roomId != "" && q.callId != "")
  }

  predicate Truthy(t: Option<int>) {
    t.Some? && t.value != 0
  }

  function Setup(s: Registry, id: Id): Registry
    requires id in s.entries
  {
    s.(entries := s.entries[id := s.entries[id].(webSocket := Some(|s.sockets|), disconnected := None)],
       sockets := s.sockets + [Socket(id, false)])
  }

  function Accepted(f: Flavour, s: Registry, q: Query): Registry {
    if !Complete(f, q) then s.(refused := s.refused + 1)
    else if q.id in s.entries then Setup(s, q.id)
    else
      var n := |s.sources|;
      Setup(s.(entries := s.entries[q.id := Entry(n, n, None, None)], sources := s.sources + [false]), q.id)
  }

  function Disconnected(f: Flavour, s: Registry, id: Id, now: int): Registry {
    if id !in s.entries || Truthy(s.entries[id].disconnected) then s
    else
      var e := s.entries[id].(disconnected := Some(now));
      s.(entries := s.entries[id := if f.Sfus? then e.(webSocket := None) else e])
  }

  predicate Expired(max: int, e: Entry, now: int) {
    Truthy(e.disconnected) && max < now - e.disconnected.value
  }

  function CloseSource(sources: seq<bool>, i: nat): seq<bool> {
    if i < |sources| then sources[i := true] else sources
  }

  /** The expired entries leave and their sources close; nothing else changes. */
  function Swept(max: int, s: Registry, now: int): Registry {
    s.(entries := map id | id in s.entries && !Expired(max, s.entries[id], now) :: s.entries[id],
       sources := seq(|s.sources|, i requires 0 <= i < |s.sources| =>
                        s.sources[i] || exists id ::
                          id in s.entries && Expired(max, s.entries[id], now) && s.entries[id].source == i))
  }

  function Step(f: Flavour, max: int, s: Registry, e: Event): Registry
    requires Enabled(s, e)
  {
    match e
    case Accept(q) => Accepted(f, s, q)
    case SocketClosed(n, now) =>
      Disconnected(f, s.(sockets := s.sockets[n := s.sockets[n].(closed := true)]), s.sockets[n].id, now)
    case SourceClosed(i) => s.(sources := CloseSource(s.sources, i))
    case Check(now) => Swept(max, s, now)
  }

  // ---------- the invariant ----------

  ghost predicate Latest(sockets: seq<Socket>, id: Id, n: nat) {
    && n < |sockets| && sockets[n].id == id
    && forall m :: n < m < |sockets| ==> sockets[m].id != id
  }

  ghost predicate EntryOk(f: Flavour, s: Registry, id: Id, e: Entry) {
    && e.source < |s.sources| && e.decoder == e.source
    && (e.disconnected.Some? ==> 0 < e.disconnected.value)
    && (e.webSocket.Some? ==> Latest(s.sockets, id, e.webSocket.value))
    && (e.disconnected.None? ==> e.webSocket.Some? && !s.sockets[e.webSocket.value].closed)
    && (f.Sfus? ==> (e.webSocket.None? <==> e.disconnected.Some?))
    && (f.Clients? ==> e.webSocket.Some?)
  }

  /** Every source is registered under one id, or closed. */
  ghost predicate Accounted(s: Registry) {
    && (forall a, b | a in s.entries && b in s.entries && s.entries[a].source == s.entries[b].source :: a == b)
    && (forall i :: 0 <= i < |s.sources| ==> s.sources[i] || RegisteredSource(s, i))
  }

  ghost predicate RegisteredSource(s: Registry, i: nat) {
    exists id :: id in s.entries && s.entries[id].source == i
  }

  ghost predicate Inv(f: Flavour, s: Registry) {
    && (forall id :: id in s.entries ==> EntryOk(f, s, id, s.entries[id]))
    && Accounted(s)
  }

  lemma AcceptedOk(f: Flavour, s: Registry, q: Query)
    requires Inv(f, s)
    ensures Inv(f, Accepted(f, s, q))
  {
    var s' := Accepted(f, s, q);
    assert forall id :: id in s.entries ==> s.entries[id].source < |s.sources|;
    AcceptedAccounted(f, s, q);
    hide Accounted;
    forall id | id in s'.entries ensures EntryOk(f, s', id, s'.entries[id]) {
      if id in s.entries {
        assert EntryOk(f, s, id, s.entries[id]);
      }
    }
  }

  lemma AcceptedAccounted(f: Flavour, s: Registry, q: Query)
    requires Accounted(s) && forall id :: id in s.entries ==> s.entries[id].source < |s.sources|
    ensures Accounted(Accepted(f, s, q))
  {
    var s' := Accepted(f, s, q);
    forall i | 0 <= i < |s'.sources| ensures s'.sources[i] || RegisteredSource(s', i) {
      if i < |s.sources| {
        if !s.sources[i] {
          var id :| id in s.entries && s.entries[id].source == i;
          assert s'.entries[id].source == i;
        }
      } else {
        assert s'.entries[q.id].source == i;
      }
    }
  }

  lemma SocketClosedOk(f: Flavour, max: int, s: Registry, n: nat, now: int)
    requires Inv(f, s) && Enabled(s, SocketClosed(n, now))
    ensures Inv(f, Step(f, max, s, SocketClosed(n, now)))
  {
    var s' := Step(f, max, s, SocketClosed(n, now));
    forall i | 0 <= i < |s'.sources| ensures s'.sources[i] || RegisteredSource(s', i) {
      if !s.sources[i] {
        var id :| id in s.entries && s.entries[id].source == i;
        assert s'.entries[id].source == i;
      }
    }
    forall id | id in s'.entries ensures EntryOk(f, s', id, s'.entries[id]) {
      assert EntryOk(f, s, id, s.entries[id]);
    }
  }

  lemma SweptOk(f: Flavour, max: int, s: Registry, now: int)
    requires Inv(f, s)
    ensures Inv(f, Swept(max, s, now))
  {
    var s' := Swept(max, s, now);
    forall i | 0 <= i < |s'.sources| ensures s'.sources[i] || RegisteredSource(s', i) {
      if !s.sources[i] {
        var id :| id in s.entries && s.entries[id].source == i;
        assert id in s'.entries ==> s'.entries[id].source == i;
      }
    }
    forall id | id in s'.entries ensures EntryOk(f, s', id, s'.entries[id]) {
      assert EntryOk(f, s, id, s.entries[id]);
    }
  }

  lemma StepOk(f: Flavour, max: int, s: Registry, e: Event)
    requires Inv(f, s) && Enabled(s, e)
    ensures Inv(f, Step(f, max, s, e))
  {
    match e {
      case Accept(q) => AcceptedOk(f, s, q);
      case SocketClosed(n, now) => SocketClosedOk(f, max, s, n, now);
      case SourceClosed(i) =>
        var s' := Step(f, max, s, e);
        forall id | id in s'.entries ensures EntryOk(f, s', id, s'.entries[id]) {
          assert EntryOk(f, s, id, s.entries[id]);
        }
        assert forall j: nat :: RegisteredSource(s, j) ==> RegisteredSource(s', j);
      case Check(now) => SweptOk(f, max, s, now);
    }
  }

  // ---------- runs ----------

  ghost predicate Possible(f: Flavour, max: int, es: seq<Event>)
    decreases |es|, 0
  {
    es == [] || (Possible(f, max, es[..|es| - 1]) && Enabled(After(f, max, es[..|es| - 1]), es[|es| - 1]))
  }

  ghost function After(f: Flavour, max: int, es: seq<Event>): Registry
    requires Possible(f, max, es)
    decreases |es|, 1
  {
    if es == [] then Empty else Step(f, max, After(f, max, es[..|es| - 1]), es[|es| - 1])
  }

  lemma {:induction false} RunOk(f: Flavour, max: int, es: seq<Event>)
    requires Possible(f, max, es)
    ensures Inv(f, After(f, max, es))
    decreases |es|
  {
    if es != [] {
      RunOk(f, max, es[..|es| - 1]);
      StepOk(f, max, After(f, max, es[..|es| - 1]), es[|es| - 1]);
      hide Inv, Step;
    }
  }

  lemma LastEvent(f: Flavour, max: int, es: seq<Event>)
    requires Possible(f, max, es) && es != []
    ensures Possible(f, max, es[..|es| - 1]) && Enabled(After(f, max, es[..|es| - 1]), es[|es| - 1])
    ensures After(f, max, es) == Step(f, max, After(f, max, es[..|es| - 1]), es[|es| - 1])
  {
  }

  /** The event connects or reconnects `id`. */
  predicate SetsUp(f: Flavour, e: Event, id: Id) {
    e.Accept? && Complete(f, e.query) && e.query.id == id
  }

  predicate Connects(f: Flavour, es: seq<Event>, a: nat, id: Id) {
    a < |es| && SetsUp(f, es[a], id)
  }

  ghost predicate LastConnect(f: Flavour, es: seq<Event>, a: nat, id: Id) {
    Connects(f, es, a, id) && forall b: nat :: a < b < |es| ==> !Connects(f, es, b, id)
  }

  /** The time at which an event closes a socket of `id`, the current or an earlier one. */
  function ClosingTime(s: Registry, e: Event, id: Id): Option<int> {
    if e.SocketClosed? && e.socket < |s.sockets| && s.sockets[e.socket].id == id then Some(e.now) else None
  }

  /** The closing times along a run. */
  ghost function ClosingTimes(f: Flavour, max: int, es: seq<Event>, id: Id): (ts: seq<Option<int>>)
    requires Possible(f, max, es)
    ensures |ts| == |es|
    decreases |es|
  {
    if es == [] then []
    else ClosingTimes(f, max, es[..|es| - 1], id) + [ClosingTime(After(f, max, es[..|es| - 1]), es[|es| - 1], id)]
  }

  /** `t` is the first time after position `a`, or undefined if there is none. */
  ghost predicate FirstAfter(ts: seq<Option<int>>, a: nat, t: Option<int>) {
    if t.None? then forall b :: a < b < |ts| ==> ts[b].None?
    else exists b :: a < b < |ts| && ts[b] == t && forall c :: a < c < b ==> ts[c].None?
  }

  lemma FirstAfterMore(ts: seq<Option<int>>, x: Option<int>, a: nat, t: Option<int>)
    requires FirstAfter(ts, a, t) && a < |ts|
    ensures FirstAfter(ts + [x], a, if t.Some? then t else x)
  {
    var ts' := ts + [x];
    if t.Some? {
      var b :| a < b < |ts| && ts[b] == t && forall c :: a < c < b ==> ts[c].None?;
      assert ts'[b] == t && forall c :: a < c < b ==> ts'[c].None?;
    } else if x.Some? {
      assert ts'[|ts|] == x && forall c :: a < c < |ts| ==> ts'[c].None?;
    }
  }

  /**
   `disconnected` is the time of the first close of a socket of the id since the entry was
   last set up, and undefined if there was none.
   */
  lemma {:induction false} DisconnectedIsFirstClose(f: Flavour, max: int, es: seq<Event>, id: Id, a: nat)
    requires Possible(f, max, es) && LastConnect(f, es, a, id) && id in After(f, max, es).entries
    ensures FirstAfter(ClosingTimes(f, max, es, id), a, After(f, max, es).entries[id].disconnected)
    decreases |es|
  {
    var init, e := es[..|es| - 1], es[|es| - 1];
    LastEvent(f, max, es);
    if a < |init| {
      EarlierConnect(f, es, init, a, id);
      var s := After(f, max, init);
      StillEntry(f, max, s, e, id);
      DisconnectedIsFirstClose(f, max, init, id, a);
      RunOk(f, max, init);
      assert EntryOk(f, s, id, s.entries[id]);
      hide Possible, After, Inv, Step, EntryOk, FirstAfter;
      FirstAfterMore(ClosingTimes(f, max, init, id), ClosingTime(s, e, id), a, s.entries[id].disconnected);
    } else {
      hide Inv;
    }
  }

  lemma EarlierConnect(f: Flavour, es: seq<Event>, init: seq<Event>, a: nat, id: Id)
    requires es != [] && init == es[..|es| - 1] && LastConnect(f, es, a, id) && a < |init|
    ensures LastConnect(f, init, a, id) && !SetsUp(f, es[|es| - 1], id)
  {
    assert !Connects(f, es, |init|, id);
    forall b: nat | a < b < |init| ensures !Connects(f, init, b, id) {
      assert !Connects(f, es, b, id);
    }
  }

  /** An entry that is there and was not just set up was there before. */
  lemma StillEntry(f: Flavour, max: int, s: Registry, e: Event, id: Id)
    requires Enabled(s, e) && id in Step(f, max, s, e).entries && !SetsUp(f, e, id)
    ensures id in s.entries
    ensures Step(f, max, s, e).entries[id].source == s.entries[id].source
    ensures Step(f, max, s, e).entries[id].decoder == s.entries[id].decoder
    ensures var t, t' := s.entries[id].disconnected, Step(f, max, s, e).entries[id].disconnected;
            t' == if Truthy(t) || ClosingTime(s, e, id).None? then t else ClosingTime(s, e, id)
  {
  }

  /** While `disconnected` is undefined, the entry's socket is the latest one accepted for
      its id and has not closed; a client's entry keeps it, an SFU's has it only as long. */
  lemma ConnectedIsOpen(f: Flavour, max: int, es: seq<Event>, id: Id)
    requires Possible(f, max, es) && id in After(f, max, es).entries
    ensures var s := After(f, max, es);
            var e := s.entries[id];
            && (e.disconnected.None? ==> e.webSocket.Some? && Latest(s.sockets, id, e.webSocket.value)
                                         && !s.sockets[e.webSocket.value].closed)
            && (f.Sfus? ==> (e.webSocket.None? <==> e.disconnected.Some?))
            && (f.Clients? ==> e.webSocket.Some? && Latest(s.sockets, id, e.webSocket.value))
  {
    RunOk(f, max, es);
    var s := After(f, max, es);
    assert EntryOk(f, s, id, s.entries[id]);
  }

  // ---------- who is accepted ----------

  /**
   What accepting a socket does.  An SFU has to give its id, a client its id, room and call; who
   does not is refused, and nothing else happens.  Anybody else is connected on a new open socket,
   a known id with the source and decoder it has, an unknown one with new ones; no other entry,
   source or socket is touched.
   */
  lemma AcceptedExactly(f: Flavour, max: int, es: seq<Event>, q: Query)
    requires Possible(f, max, es)
    ensures var s, s' := After(f, max, es), Step(f, max, After(f, max, es), Accept(q));
            var given := match f case Sfus => q.id != "" case Clients => q.id != "" && q.roomId != "" && q.callId != "";
            && s'.refused == s.refused + (if given then 0 else 1)
            && (!given ==> s'.entries == s.entries && s'.sources == s.sources && s'.sockets == s.sockets)
            && (given ==>
                  && s'.entries.Keys == s.entries.Keys + {q.id} && s'.sockets == s.sockets + [Socket(q.id, false)]
                  && s'.entries[q.id].webSocket == Some(|s.sockets|) && s'.entries[q.id].disconnected.None?
                  && (forall id :: id in s.entries && id != q.id ==> s'.entries[id] == s.entries[id])
                  && (if q.id in s.entries then
                        && s'.sources == s.sources
                        && s'.entries[q.id].source == s.entries[q.id].source
                        && s'.entries[q.id].decoder == s.entries[q.id].decoder
                      else
                        && s'.sources == s.sources + [false]
                        && s'.entries[q.id].source == |s.sources|
                        && (forall id :: id in s.entries ==> s.entries[id].decoder != s'.entries[q.id].decoder)))
  {
    RunOk(f, max, es);
    var s := After(f, max, es);
    assert forall id :: id in s.entries ==> EntryOk(f, s, id, s.entries[id]);
    hide Possible, After, Inv;
  }

  // ---------- the grace period ----------

  /** Every event has a time, which never goes back; closes and checks read it. */
  ghost predicate Clocked(es: seq<Event>, times: seq<int>) {
    && |times| == |es|
    && (forall b, c :: 0 <= b < c < |es| ==> times[b] <= times[c])
    && (forall b :: 0 <= b < |es| && es[b].SocketClosed? ==> times[b] == es[b].now)
    && (forall b :: 0 <= b < |es| && es[b].Check? ==> times[b] == es[b].now)
  }

  /** After the close at position `b` the id reconnects within the limit, or the run ends within it. */
  ghost predicate GapWithin(f: Flavour, max: int, es: seq<Event>, times: seq<int>, id: Id, b: nat)
    requires b < |es| == |times|
  {
    || (exists r: nat :: b < r && Connects(f, es, r, id) && times[r] - times[b] <= max)
    || times[|es| - 1] - times[b] <= max
  }

  /** No disconnection of the id lasts longer than the limit; checks play no part in it. */
  ghost predicate GapsWithin(f: Flavour, max: int, es: seq<Event>, times: seq<int>, id: Id)
    requires Possible(f, max, es) && Clocked(es, times)
  {
    forall b: nat :: b < |es| && ClosingTimes(f, max, es, id)[b].Some? ==> GapWithin(f, max, es, times, id, b)
  }

  /**
   Whole-run grace period: if no disconnection of a client lasts longer than the limit, no
   schedule of checks removes it, whenever they come and however many, and it keeps its source
   and its decoder from the moment it first connects.
   */
  lemma GracePeriod(f: Flavour, max: int, es: seq<Event>, times: seq<int>, id: Id, n: nat)
    requires Possible(f, max, es) && Clocked(es, times) && GapsWithin(f, max, es, times, id)
    requires n <= |es| && Possible(f, max, es[..n]) && id in After(f, max, es[..n]).entries
    ensures id in After(f, max, es).entries
    ensures After(f, max, es).entries[id].source == After(f, max, es[..n]).entries[id].source
    ensures After(f, max, es).entries[id].decoder == After(f, max, es[..n]).entries[id].decoder
  {
    WithinIsBridged(f, max, es, times, id);
    KeptWhileBridged(f, max, es, id, n);
  }

  lemma WithinIsBridged(f: Flavour, max: int, es: seq<Event>, times: seq<int>, id: Id)
    requires Possible(f, max, es) && Clocked(es, times) && GapsWithin(f, max, es, times, id)
    ensures GapsBridged(f, max, es, id)
  {
    var ts := ClosingTimes(f, max, es, id);
    TimesAreClock(f, max, es, id);
    hide Possible, After, ClosingTimes;
    forall b: nat, c: nat | b < c < |es| && ts[b].Some? && es[c].Check? && max < es[c].now - ts[b].value
      ensures exists r: nat :: b < r < c && Connects(f, es, r, id)
    {
      assert GapWithin(f, max, es, times, id, b);
      var r: nat :| b < r && Connects(f, es, r, id) && times[r] - times[b] <= max;
      assert r < c;
    }
  }

  lemma {:induction false} TimesAreClock(f: Flavour, max: int, es: seq<Event>, id: Id)
    requires Possible(f, max, es)
    ensures forall b :: 0 <= b < |es| && ClosingTimes(f, max, es, id)[b].Some? ==>
              es[b].SocketClosed? && ClosingTimes(f, max, es, id)[b].value == es[b].now
    decreases |es|
  {
    if es != [] {
      TimesAreClock(f, max, es[..|es| - 1], id);
    }
  }

  /**
   And not a moment longer: if the first close since a client was last set up is followed by
   more than the limit without a reconnect, then a check at the end of that gap is possible,
   keeps to the clock, and removes the client.
   */
  lemma LongGapIsFatal(f: Flavour, max: int, es: seq<Event>, times: seq<int>, id: Id, a: nat, b: nat, now: int)
    requires Possible(f, max, es) && Clocked(es, times) && id in After(f, max, es).entries
    requires LastConnect(f, es, a, id) && IsFirst(ClosingTimes(f, max, es, id), a, b)
    requires times[|es| - 1] <= now && max < now - times[b] && 0 < now
    ensures var fs := es + [Check(now)];
            Possible(f, max, fs) && Clocked(fs, times + [now]) && id !in After(f, max, fs).entries
  {
    TimesAreClock(f, max, es, id);
    assert Overdue(ClosingTimes(f, max, es, id), a, max, now);
    hide Overdue, ClosingTimes, Possible, After, LastConnect, Swept, Clocked;
    RemovedExactlyWhenOverdue(f, max, es, id, a, now);
    OneMore(f, max, es, Check(now));
    ClockedMore(es, times, now);
  }

  lemma ClockedMore(es: seq<Event>, times: seq<int>, now: int)
    requires Clocked(es, times) && (es != [] ==> times[|es| - 1] <= now)
    ensures Clocked(es + [Check(now)], times + [now])
  {
  }

  /** Every close of `id`'s sockets is followed by a reconnect before any check that comes
      more than the limit later. */
  ghost predicate GapsBridged(f: Flavour, max: int, es: seq<Event>, id: Id)
    requires Possible(f, max, es)
  {
    var ts := ClosingTimes(f, max, es, id);
    forall b: nat, c: nat | b < c < |es| && ts[b].Some? && es[c].Check? && max < es[c].now - ts[b].value
      :: exists r: nat :: b < r < c && Connects(f, es, r, id)
  }

  lemma {:induction false} KeptWhileBridged(f: Flavour, max: int, es: seq<Event>, id: Id, n: nat)
    requires Possible(f, max, es) && GapsBridged(f, max, es, id)
    requires n <= |es| && Possible(f, max, es[..n]) && id in After(f, max, es[..n]).entries
    ensures id in After(f, max, es).entries
    ensures After(f, max, es).entries[id].source == After(f, max, es[..n]).entries[id].source
    ensures After(f, max, es).entries[id].decoder == After(f, max, es[..n]).entries[id].decoder
    decreases |es|
  {
    if n == |es| {
      assert es[..n] == es;
    } else {
      var init, e := es[..|es| - 1], es[|es| - 1];
      LastEvent(f, max, es);
      assert init[..n] == es[..n];
      BridgedBefore(f, max, es, init, id);
      KeptWhileBridged(f, max, init, id, n);
      var s := After(f, max, init);
      if e.Check? && Expired(max, s.entries[id], e.now) {
        NotExpired(f, max, es, init, id);
      } else {
        hide Possible, After, Inv;
        KeepsEntry(f, max, s, e, id);
      }
    }
  }

  lemma KeepsEntry(f: Flavour, max: int, s: Registry, e: Event, id: Id)
    requires Enabled(s, e) && id in s.entries && !(e.Check? && Expired(max, s.entries[id], e.now))
    ensures id in Step(f, max, s, e).entries
    ensures Step(f, max, s, e).entries[id].source == s.entries[id].source
    ensures Step(f, max, s, e).entries[id].decoder == s.entries[id].decoder
  {
  }

  lemma BridgedBefore(f: Flavour, max: int, es: seq<Event>, init: seq<Event>, id: Id)
    requires Possible(f, max, es) && es != [] && init == es[..|es| - 1] && GapsBridged(f, max, es, id)
    ensures Possible(f, max, init) && GapsBridged(f, max, init, id)
  {
    var ts := ClosingTimes(f, max, es, id);
    var ts0 := ClosingTimes(f, max, init, id);
    assert ts[..|init|] == ts0;
    hide Possible, After, ClosingTimes;
    forall b: nat, c: nat | b < c < |init| && ts0[b].Some? && init[c].Check? && max < init[c].now - ts0[b].value
      ensures exists r: nat :: b < r < c && Connects(f, init, r, id)
    {
      assert ts[b] == ts0[b] && es[c] == init[c];
      var r: nat :| b < r < c && Connects(f, es, r, id);
      assert Connects(f, init, r, id);
    }
  }

  /** An entry was set up some time, and no later than it was last set up. */
  lemma {:induction false} WasSetUp(f: Flavour, max: int, es: seq<Event>, id: Id) returns (a: nat)
    requires Possible(f, max, es) && id in After(f, max, es).entries
    ensures LastConnect(f, es, a, id)
    decreases |es|
  {
    LastEvent(f, max, es);
    var init, e := es[..|es| - 1], es[|es| - 1];
    if SetsUp(f, e, id) {
      a := |init|;
    } else {
      StillEntry(f, max, After(f, max, init), e, id);
      a := WasSetUp(f, max, init, id);
      hide Possible, After;
      assert Connects(f, es, a, id);
      forall b: nat | a < b < |es| ensures !Connects(f, es, b, id) {
        assert b < |init| ==> !Connects(f, init, b, id);
      }
    }
  }

  lemma NotExpired(f: Flavour, max: int, es: seq<Event>, init: seq<Event>, id: Id)
    requires Possible(f, max, es) && es != [] && init == es[..|es| - 1] && Possible(f, max, init)
    requires GapsBridged(f, max, es, id) && id in After(f, max, init).entries && es[|es| - 1].Check?
    ensures !Expired(max, After(f, max, init).entries[id], es[|es| - 1].now)
  {
    var a := WasSetUp(f, max, init, id);
    DisconnectedIsFirstClose(f, max, init, id, a);
    var ts := ClosingTimes(f, max, init, id);
    assert ClosingTimes(f, max, es, id)[..|init|] == ts;
    var t := After(f, max, init).entries[id].disconnected;
    hide Possible, After, ClosingTimes;
    if t.Some? {
      var b :| a < b < |ts| && ts[b] == t;
      forall r: nat | b < r < |init| ensures !Connects(f, es, r, id) {
        assert !Connects(f, init, r, id);
      }
      assert ClosingTimes(f, max, es, id)[b] == t;
    }
  }

  /**
   A close that is delivered only after the reconnect starts the clock on a connected client:
   it is then removed by the first check after the limit although its socket is open.
   */
  lemma LateCloseExpires(f: Flavour, max: int, q: Query, t: int)
    requires Complete(f, q) && 0 < t && 0 <= max
    ensures var es := [Accept(q), Accept(q), SocketClosed(0, t)];
            && Possible(f, max, es)
            && var s := After(f, max, es);
               && q.id in s.entries && |s.sockets| == 2 && s.sockets[1] == Socket(q.id, false)
               && Enabled(s, Check(t + max + 1))
               && q.id !in Step(f, max, s, Check(t + max + 1)).entries
  {
    var e0, e1, e2 := Accept(q), Accept(q), SocketClosed(0, t);
    assert [e0, e1, e2] == [] + [e0] + [e1] + [e2];
    OneMore(f, max, [], e0);
    OneMore(f, max, [] + [e0], e1);
    OneMore(f, max, [] + [e0] + [e1], e2);
  }

  lemma OneMore(f: Flavour, max: int, es: seq<Event>, e: Event)
    requires Possible(f, max, es) && Enabled(After(f, max, es), e)
    ensures Possible(f, max, es + [e]) && After(f, max, es + [e]) == Step(f, max, After(f, max, es), e)
  {
    assert (es + [e])[..|es|] == es;
  }

  /** A check removes an id if and only if the first close of its sockets since it was last
      set up lies further back than the limit. */
  lemma RemovedExactlyWhenOverdue(f: Flavour, max: int, es: seq<Event>, id: Id, a: nat, now: int)
    requires Possible(f, max, es) && LastConnect(f, es, a, id) && id in After(f, max, es).entries
    ensures id !in Swept(max, After(f, max, es), now).entries <==> Overdue(ClosingTimes(f, max, es, id), a, max, now)
  {
    var s := After(f, max, es);
    DisconnectedIsFirstClose(f, max, es, id, a);
    RunOk(f, max, es);
    assert EntryOk(f, s, id, s.entries[id]);
    var t := s.entries[id].disconnected;
    FirstIsOverdue(ClosingTimes(f, max, es, id), a, t, max, now);
    hide Possible, After, ClosingTimes, Inv, FirstAfter, Overdue;
  }

  ghost predicate IsFirst(ts: seq<Option<int>>, a: nat, b: nat) {
    a < b < |ts| && ts[b].Some? && forall c :: a < c < b ==> ts[c].None?
  }

  /** The first time after position `a` is more than the limit ago. */
  ghost predicate Overdue(ts: seq<Option<int>>, a: nat, max: int, now: int) {
    exists b: nat :: IsFirst(ts, a, b) && max < now - ts[b].value
  }

  lemma FirstIsOverdue(ts: seq<Option<int>>, a: nat, t: Option<int>, max: int, now: int)
    requires FirstAfter(ts, a, t)
    ensures Overdue(ts, a, max, now) <==> t.Some? && max < now - t.value
  {
    if t.Some? {
      var b :| a < b < |ts| && ts[b] == t && forall c :: a < c < b ==> ts[c].None?;
      assert IsFirst(ts, a, b);
    }
  }

  // ---------- the sweep and the sources ----------

  /** Over any run every source is registered under exactly one id, or closed. */
  lemma EverySourceAccountedFor(f: Flavour, max: int, es: seq<Event>, i: nat)
    requires Possible(f, max, es) && i < |After(f, max, es).sources|
    ensures var s := After(f, max, es);
            && (s.sources[i] || exists id :: id in s.entries && s.entries[id].source == i)
            && (forall a, b | a in s.entries && b in s.entries && s.entries[a].source == i && s.entries[b].source == i
                  :: a == b)
  {
    RunOk(f, max, es);
    hide Possible, After;
  }

  /** The registry closes a source when it removes its entry, and never while it is registered. */
  lemma {:induction false} RegisteredIsNotClosed(f: Flavour, max: int, es: seq<Event>, id: Id)
    requires Possible(f, max, es) && id in After(f, max, es).entries
    ensures var s := After(f, max, es);
            s.entries[id].source < |s.sources| &&
            (s.sources[s.entries[id].source] ==> SourceClosed(s.entries[id].source) in es)
    decreases |es|
  {
    LastEvent(f, max, es);
    RunOk(f, max, es[..|es| - 1]);
    RunOk(f, max, es);
    var init, e := es[..|es| - 1], es[|es| - 1];
    var s := After(f, max, init);
    if id in s.entries {
      RegisteredIsNotClosed(f, max, init, id);
      SourceKept(f, max, s, e, id);
    } else {
      SourceNew(f, max, s, e, id);
    }
    assert es == init + [e];
    hide Possible, After, Step, Inv, Enabled;
  }

  lemma SourceNew(f: Flavour, max: int, s: Registry, e: Event, id: Id)
    requires Enabled(s, e) && id !in s.entries && id in Step(f, max, s, e).entries
    ensures var s' := Step(f, max, s, e); s'.entries[id].source == |s.sources| && s'.sources == s.sources + [false]
  {
  }

  lemma SourceKept(f: Flavour, max: int, s: Registry, e: Event, id: Id)
    requires Inv(f, s) && Enabled(s, e) && id in s.entries && id in Step(f, max, s, e).entries
    ensures var s', i := Step(f, max, s, e), s.entries[id].source;
            && s'.entries[id].source == i && i < |s.sources| && i < |s'.sources|
            && (s'.sources[i] ==> s.sources[i] || e == SourceClosed(i))
  {
    assert EntryOk(f, s, id, s.entries[id]);
  }

  /**
   A check at a time removes exactly the entries whose `disconnected` is set and further back than
   the limit, leaves all others as they are, and closes exactly the sources of those it removes.
   */
  lemma SweptExactly(max: int, s: Registry, now: int)
    ensures var s' := Swept(max, s, now);
            && (forall id :: id in s'.entries ==> id in s.entries && s'.entries[id] == s.entries[id])
            && (forall id :: id in s.entries ==>
                  var t := s.entries[id].disconnected;
                  (id !in s'.entries <==> t.Some? && t.value != 0 && now - t.value > max))
            && |s'.sources| == |s.sources| && s'.sockets == s.sockets && s'.refused == s.refused
            && (forall i :: 0 <= i < |s.sources| ==>
                  (s'.sources[i] <==>
                    (s.sources[i] || exists id :: id in s.entries.Keys - s'.entries.Keys && s.entries[id].source == i)))
  {
    var s' := Swept(max, s, now);
    forall i | 0 <= i < |s.sources|
      ensures s'.sources[i] <==>
                (s.sources[i] || exists id :: id in s.entries.Keys - s'.entries.Keys && s.entries[id].source == i)
    {
      if id :| id in s.entries && Expired(max, s.entries[id], now) && s.entries[id].source == i {
        assert id in s.entries.Keys - s'.entries.Keys;
      }
    }
  }

  /** Source `i` belongs to an expired entry that a sweep has already visited. */
  ghost predicate ClosedFor(max: int, s: Registry, now: int, left: set<Id>, i: nat) {
    exists id :: id in s.entries && id !in left && Expired(max, s.entries[id], now) && s.entries[id].source == i
  }

  lemma ClosedForNext(max: int, s: Registry, now: int, left: set<Id>, id: Id)
    requires id in left && left <= s.entries.Keys
    ensures forall i: nat :: ClosedFor(max, s, now, left - {id}, i) <==>
              ClosedFor(max, s, now, left, i) || (Expired(max, s.entries[id], now) && s.entries[id].source == i)
  {
    forall i: nat ensures ClosedFor(max, s, now, left - {id}, i) <==>
        ClosedFor(max, s, now, left, i) || (Expired(max, s.entries[id], now) && s.entries[id].source == i)
    {
      if ClosedFor(max, s, now, left, i) {
        var a :| a in s.entries && a !in left && Expired(max, s.entries[a], now) && s.entries[a].source == i;
        assert a !in left - {id};
      }
      if Expired(max, s.entries[id], now) && s.entries[id].source == i {
        assert id !in left - {id};
      }
    }
  }

  // ---------- the object ----------

  /** Either registry; `max` is `maxDisconnectingTimeInMs`. */
  class ObservedRegistry {
    const flavour: Flavour
    const max: int
    var entries: map<Id, Entry>
    var sources: seq<bool>
    var sockets: seq<Socket>
    var refused: nat

    ghost function State(): Registry
      reads this
    {
      Registry(entries, sources, sockets, refused)
    }

    constructor (flavour: Flavour, max: int)
      ensures State() == Empty && this.flavour == flavour && this.max == max
    {
      this.flavour, this.max := flavour, max;
      entries, sources, sockets, refused := map[], [], [], 0;
    }

    method AcceptSocket(q: Query)
      modifies this
      ensures State() == Step(flavour, max, old(State()), Accept(q))
      ensures q.id == "" || (flavour == Clients && (q.roomId == "" || q.callId == "")) ==>
                && refused == old(refused) + 1 && entries == old(entries)
                && sources == old(sources) && sockets == old(sockets)
      ensures q.id != "" && (flavour == Sfus || (q.roomId != "" && q.callId != "")) ==>
                && refused == old(refused) && sockets == old(sockets) + [Socket(q.id, false)]
                && q.id in entries && entries[q.id].webSocket == Some(|old(sockets)|)
                && entries[q.id].disconnected.None? && entries - {q.id} == old(entries) - {q.id}
      ensures q.id in old(entries) && q.id in entries ==>
                entries[q.id].source == old(entries)[q.id].source && entries[q.id].decoder == old(entries)[q.id].decoder
    {
      if q.id == "" || (flavour.Clients? && (q.roomId == "" || q.callId == "")) {
        refused := refused + 1;
        return;
      }
      if q.id in entries {
        SetUpEntry(q.id);
        return;
      }
      var source := |sources|;
      sources := sources + [false];
      entries := entries[q.id := Entry(source, source, None, None)];
      SetUpEntry(q.id);
    }

    method SetUpEntry(id: Id)
      requires id in entries
      modifies this
      ensures State() == Setup(old(State()), id)
    {
      var socket := |sockets|;
      sockets := sockets + [Socket(id, false)];
      entries := entries[id := entries[id].(webSocket := Some(socket))];
      entries := entries[id := entries[id].(disconnected := None)];
    }

    /** The `close` listener of an accepted socket. */
    method OnSocketClosed(n: nat, now: int)
      requires n < |sockets|
      modifies this
      ensures State() ==
              Disconnected(flavour, old(State()).(sockets := old(sockets)[n := old(sockets)[n].(closed := true)]),
                                      old(sockets)[n].id, now)
    {
      sockets := sockets[n := sockets[n].(closed := true)];
      Disconnect(sockets[n].id, now);
    }

    method Disconnect(id: Id, now: int)
      modifies this
      ensures State() == Disconnected(flavour, old(State()), id, now)
    {
      if id !in entries || Truthy(entries[id].disconnected) {
        return;
      }
      entries := entries[id := entries[id].(disconnected := Some(now))];
      if flavour.Sfus? {
        entries := entries[id := entries[id].(webSocket := None)];
      }
    }

    /** Closes `source` unless it is closed. */
    method Remove(id: Id)
      requires id in entries
      modifies this
      ensures State() ==
              old(State()).(entries := old(entries) - {id},
          sources := CloseSource(old(sources), old(entries)[id].source))
    {
      var source := entries[id].source;
      entries := entries - {id};
      if source < |sources| && !sources[source] {
        sources := sources[source := true];
      }
    }

    /** The sweep, over a snapshot of the map's values in whatever order. */
    method CheckAll(now: int)
      modifies this
      ensures State() == Swept(max, old(State()), now)
    {
      ghost var was := State();
      var left := entries.Keys;
      while left != {}
        invariant left <= was.entries.Keys && left <= entries.Keys <= was.entries.Keys
        invariant forall id :: id in entries ==> entries[id] == was.entries[id]
        invariant forall id :: id in was.entries && id !in left ==>
                  (id in entries <==> !Expired(max, was.entries[id], now))
        invariant |sources| == |was.sources| && sockets == was.sockets && refused == was.refused
        invariant forall i :: 0 <= i < |sources| ==>
                    (sources[i] <==> was.sources[i] || ClosedFor(max, was, now, left, i))
        decreases |left|
      {
        var id :| id in left;
        ClosedForNext(max, was, now, left, id);
        left := left - {id};
        if Truthy(entries[id].disconnected) {
          if max < now - entries[id].disconnected.value {
            Remove(id);
          }
        }
      }
      assert forall i :: 0 <= i < |sources| ==> (sources[i] <==> Swept(max, was, now).sources[i]);
      assert sources == Swept(max, was, now).sources;
      assert entries == Swept(max, was, now).entries;
    }
  }
}
