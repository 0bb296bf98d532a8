/**
 What exactly stays open: nothing on a closed router, and of a departed client what was not
 its current transport when it left, or was still being created.
 */
module RoomLeftovers {
  import opened Base
  import opened RoomModel
  import opened RoomInvariant
  import opened RoomTeardown

  // ---------- transports, step by step ----------

  /** Transports are neither closed nor given away; new ones are open, on an open router. */
  ghost predicate Opens(s: Room, s': Room) {
    && s'.routerClosed == s.routerClosed
    && |s.clients| <= |s'.clients| && |s.transports| <= |s'.transports|
    && (forall c :: 0 <= c < |s.clients| ==> s'.clients[c].closed == s.clients[c].closed)
    && (forall t :: 0 <= t < |s.transports| ==> s'.transports[t] == s.transports[t])
    && (forall t :: |s.transports| <= t < |s'.transports| ==> s'.transports[t].open && !s.routerClosed)
  }

  lemma OpensTrans(a: Room, b: Room, c: Room)
    requires Opens(a, b) && Opens(b, c)
    ensures Opens(a, c)
  {
  }

  lemma AdvanceOpens(s: Room, h: nat, cursor: nat)
    requires Indexed(s) && h < |s.handlers| && cursor <= |s.entries|
    ensures Opens(s, Advance(s, h, cursor))
  {
    hide Visit;
  }

  lemma QuietOpens(s: Room, e: Event)
    requires Indexed(s) && Named(s) && Enabled(s, e)
    requires !e.SocketClosed? && !e.Resumed? && !e.AskJoin?
    ensures Opens(s, Step(s, e))
  {
    hide Step, Indexed, Named, Enabled;
    QuietStep(s, e);
  }

  lemma JoinOpens(s: Room, c: nat, id: RequestId)
    requires Coherent(s) && Indexed(s) && c < |s.clients|
    ensures Opens(s, DoAskJoin(s, c, id))
  {
    JoiningOk(s, c, id);
    assert Opens(s, Joining(s, c, id)) by { hide Coherent, Indexed; }
    hide Coherent, Advance, Opens;
    AdvanceOpens(Joining(s, c, id), |s.handlers|, 0);
    OpensTrans(s, Joining(s, c, id), DoAskJoin(s, c, id));
  }

  lemma ProducedOpens(s: Room, h: nat)
    requires Coherent(s) && Indexed(s) && h in s.tasks && s.tasks[h].Publishing?
    ensures Opens(s, DoProduced(s, h))
  {
    RegisterOk(s, h);
    CoherentIsIndexed(Register(s, h));
    assert Opens(s, Register(s, h)) && Register(s, h).handlers == s.handlers by { hide Coherent; }
    hide Coherent, Advance, Register, Opens;
    AdvanceOpens(Register(s, h), h, 0);
    OpensTrans(s, Register(s, h), DoProduced(s, h));
  }

  lemma SettledOpens(s: Room, h: nat)
    requires Indexed(s) && Named(s) && h in s.tasks && CanResume(s, s.tasks[h])
    requires s.tasks[h].Opening? || s.tasks[h].Replying? || s.tasks[h].Awaiting?
    ensures Opens(s, DoResumed(s, h))
  {
    hide ConsumeFrom;
  }

  lemma StepOpens(s: Room, e: Event)
    requires Coherent(s) && Indexed(s) && Named(s) && Enabled(s, e) && !e.SocketClosed?
    ensures Opens(s, Step(s, e))
  {
    match e {
      case AskJoin(c, id) => hide DoAskJoin, Opens; JoinOpens(s, c, id);
      case Resumed(h) =>
        hide Opens;
        if s.tasks[h].Publishing? {
          hide DoProduced;
          ProducedOpens(s, h);
        } else if s.tasks[h].Between? {
          hide Coherent, Advance;
          AdvanceOpens(s, h, s.tasks[h].cursor);
        } else {
          hide Coherent, DoResumed;
          SettledOpens(s, h);
        }
      case _ => hide Coherent, Step, Opens; QuietOpens(s, e);
    }
  }

  /** A closed router has no open transport. */
  ghost predicate Sealed(s: Room) {
    s.routerClosed ==> forall t :: 0 <= t < |s.transports| ==> !s.transports[t].open
  }

  /** Client `c` has closed; of its transports the two current ones are closed, and others only
      if the router is. */
  ghost predicate Departs(s: Room, s': Room, c: nat) {
    && c < |s.clients| && |s'.clients| == |s.clients| && |s'.transports| == |s.transports|
    && (s.routerClosed ==> s'.routerClosed)
    && (forall d :: 0 <= d < |s.clients| ==> s'.clients[d].closed == (s.clients[d].closed || d == c))
    && (forall t :: 0 <= t < |s.transports| ==>
          && s'.transports[t].owner == s.transports[t].owner
          && s'.transports[t].open == (s.transports[t].open && !s'.routerClosed
                                       && Some(t) !in {s.clients[c].snd, s.clients[c].rcv}))
  }

  lemma DepartedDeparts(s: Room, c: nat)
    requires Coherent(s) && Drained(s) && Sealed(s) && c < |s.clients|
    ensures Indexed(s) && Departs(s, Departed(s, c), c)
  {
    DepartedOk(s, c);
    DepartedShape(s, c);
    hide Coherent, Drained, Departed, Indexed;
  }

  lemma ClosingDeparts(s: Room, s1: Room, c: nat)
    requires Departs(s, s1, c) && Coherent(s1) && Drained(s1)
    ensures Owned(s1) && Departs(s, CloseRoom(s1), c)
  {
    CoherentIsIndexed(s1);
    CloseRoomOk(s1);
    hide Coherent, Drained, Indexed, Named;
    if !s1.routerClosed {
      hide CloseRoom;
    }
  }

  /** A departure closes the client's two current transports, and all if it closes the router. */
  lemma ClosedDeparts(s: Room, c: nat)
    requires Coherent(s) && Drained(s) && Sealed(s) && c < |s.clients|
    ensures Indexed(s) && Departs(s, DoSocketClosed(s, c), c)
  {
    DepartedOk(s, c);
    hide Coherent, Drained, Departs, CloseRoom, Sealed;
    DepartedDeparts(s, c);
    ClosingDeparts(s, Departed(s, c), c);
  }

  lemma StepSealed(s: Room, e: Event)
    requires Coherent(s) && Drained(s) && Indexed(s) && Named(s) && Enabled(s, e) && Sealed(s)
    ensures Sealed(Step(s, e))
  {
    if e.SocketClosed? {
      ClosedDeparts(s, e.client);
      hide Coherent, Drained, Indexed, Named, DoSocketClosed;
    } else {
      StepOpens(s, e);
      hide Coherent, Drained, Indexed, Named, Step, Enabled;
    }
  }

  lemma {:induction false} RunSealed(es: seq<Event>)
    requires Possible(es)
    ensures Sealed(After(es))
    decreases |es|
  {
    hide Coherent, Drained, Indexed, Named, Step, Enabled;
    if es != [] {
      RunSealed(es[..|es| - 1]);
      hide Sealed;
      StepSealed(After(es[..|es| - 1]), es[|es| - 1]);
    }
  }

  /** In every reachable state a closed router has nothing open: no transport, no producer, no
      consumer. */
  lemma ClosedRouterHasNothing(es: seq<Event>)
    requires Possible(es) && After(es).routerClosed
    ensures var s := After(es);
            && (forall t :: 0 <= t < |s.transports| ==> !s.transports[t].open)
            && (forall p :: 0 <= p < |s.producers| ==> !s.producers[p].open)
            && (forall k :: 0 <= k < |s.consumers| ==> !s.consumers[k].open)
  {
    RunSealed(es);
    hide Coherent, Indexed, Named, Step, Enabled;
  }

  // ---------- what is left of a departed client ----------

  /** Transport `t` of client `q`, which left in state `was`, is not closed by that: it was open
      without being current, or was made later. */
  ghost predicate Spared(was: Room, q: nat, t: nat) {
    q < |was.clients| && (t < |was.transports| ==>
      was.transports[t].open && was.clients[q].snd != Some(t) && was.clients[q].rcv != Some(t))
  }

  /** The transports of `q`, which left in state `was`, that are open are the spared ones. */
  ghost predicate OnlySpared(was: Room, s: Room, q: nat) {
    && q < |s.clients| && s.clients[q].closed && |was.transports| <= |s.transports|
    && forall t :: 0 <= t < |s.transports| && s.transports[t].owner == q ==>
         s.transports[t].open == (!s.routerClosed && Spared(was, q, t))
  }

  lemma OpensSpared(was: Room, s: Room, s': Room, q: nat)
    requires OnlySpared(was, s, q) && Opens(s, s') && q < |was.clients|
    ensures OnlySpared(was, s', q)
  {
  }

  /** Another client's departure leaves `q`'s transports to the router. */
  lemma DepartsSpared(was: Room, s: Room, s': Room, q: nat, c: nat)
    requires OnlySpared(was, s, q) && Departs(s, s', c) && c != q
    requires forall t :: 0 <= t < |s.transports| && Some(t) in {s.clients[c].snd, s.clients[c].rcv} ==>
             s.transports[t].owner == c
    ensures OnlySpared(was, s', q)
  {
  }

  lemma DepartingSpared(was: Room, s': Room, q: nat)
    requires Departs(was, s', q)
    ensures OnlySpared(was, s', q)
  {
  }

  lemma OwnSides(s: Room, c: nat)
    requires Coherent(s) && c < |s.clients|
    ensures forall t :: 0 <= t < |s.transports| && Some(t) in {s.clients[c].snd, s.clients[c].rcv} ==>
            s.transports[t].owner == c
  {
    assert ClientOk(s.transports, c, s.clients[c]);
  }

  lemma StepSpared(was: Room, s: Room, e: Event, q: nat)
    requires Coherent(s) && Drained(s) && Indexed(s) && Named(s) && Enabled(s, e) && Sealed(s)
    requires OnlySpared(was, s, q) && q < |was.clients|
    ensures OnlySpared(was, Step(s, e), q)
  {
    if e.SocketClosed? {
      OwnSides(s, e.client);
      assert e.client != q;
      hide Coherent, Drained, Indexed, Named, OnlySpared, Sealed, Departs, DoSocketClosed;
      ClosedDeparts(s, e.client);
      DepartsSpared(was, s, Step(s, e), q, e.client);
    } else {
      hide Drained, Indexed, Named, OnlySpared, Sealed, Step, Enabled, Opens, Coherent;
      StepOpens(s, e);
      OpensSpared(was, s, Step(s, e), q);
    }
  }

  /** Event `n` of the run is the departure of client `q`. */
  ghost predicate LeavesAt(es: seq<Event>, n: nat, q: nat) {
    n < |es| && Possible(es[..n]) && es[n] == SocketClosed(q) && Enabled(After(es[..n]), es[n])
  }

  /**
   What a departure leaves open.  Ever after client `q` has left, a transport of its own is open
   if and only if the router is and the transport was not one of its two current ones then: it
   had been replaced as such, or was still being created.
   */
  lemma {:induction false} SparedStayOpen(es: seq<Event>, n: nat, q: nat)
    requires Possible(es) && LeavesAt(es, n, q)
    ensures OnlySpared(After(es[..n]), After(es), q)
    decreases |es|
  {
    hide Coherent, Drained, Indexed, Named, Sealed, OnlySpared, Departs;
    var init := es[..|es| - 1];
    var was := After(es[..n]);
    if n == |es| - 1 {
      RunSealed(init);
      ClosedDeparts(was, q);
      DepartingSpared(was, After(es), q);
    } else {
      assert init[..n] == es[..n];
      RunSealed(init);
      hide Step, Enabled;
      assert LeavesAt(init, n, q);
      SparedStayOpen(init, n, q);
      StepSpared(was, After(init), es[|es| - 1], q);
    }
  }

  // ---------- consumers ----------

  /** A consumer closes with its transport or after its producer, and for no other reason. */
  ghost predicate Lively(s: Room) {
    forall k :: 0 <= k < |s.consumers| && !s.consumers[k].open ==> !Fed(s, s.consumers[k])
  }

  /** The consumer's transport and its producer are open. */
  ghost predicate Fed(s: Room, co: Consumer) {
    && co.transport < |s.transports| && s.transports[co.transport].open
    && co.info.producer < |s.producers| && s.producers[co.info.producer].open
  }

  /** Every consumer is on a transport of the room and of a producer of it. */
  ghost predicate Placed(s: Room) {
    forall k :: 0 <= k < |s.consumers| ==>
      s.consumers[k].transport < |s.transports| && s.consumers[k].info.producer < |s.producers|
  }

  lemma CoherentIsPlaced(s: Room)
    requires MediaOk(s)
    ensures Placed(s)
  {
    forall k | 0 <= k < |s.consumers|
      ensures s.consumers[k].transport < |s.transports| && s.consumers[k].info.producer < |s.producers|
    {
      assert ConsumerOk(s.clients, s.transports, |s.producers|, k, s.consumers[k]);
    }
  }

  /** No consumer closes, and no transport or producer opens again. */
  ghost predicate Feeds(s: Room, s': Room) {
    && |s.transports| <= |s'.transports| && |s.producers| <= |s'.producers| && |s.consumers| <= |s'.consumers|
    && (forall t :: 0 <= t < |s.transports| && s'.transports[t].open ==> s.transports[t].open)
    && (forall p :: 0 <= p < |s.producers| && s'.producers[p].open ==> s.producers[p].open)
    && (forall k :: 0 <= k < |s.consumers| ==> s'.consumers[k] == s.consumers[k])
    && (forall k :: |s.consumers| <= k < |s'.consumers| ==> s'.consumers[k].open)
  }

  lemma FeedsTrans(a: Room, b: Room, c: Room)
    requires Feeds(a, b) && Feeds(b, c)
    ensures Feeds(a, c)
  {
  }

  lemma FeedsLively(s: Room, s': Room)
    requires Feeds(s, s') && Lively(s) && Placed(s)
    ensures Lively(s')
  {
  }

  lemma AdvanceFeeds(s: Room, h: nat, cursor: nat)
    requires Indexed(s) && h < |s.handlers| && cursor <= |s.entries|
    ensures Feeds(s, Advance(s, h, cursor))
  {
    hide Visit;
  }

  lemma QuietFeeds(s: Room, e: Event)
    requires Indexed(s) && Named(s) && Enabled(s, e)
    requires !e.SocketClosed? && !e.Resumed? && !e.AskJoin? && !e.ConsumerLost?
    ensures Feeds(s, Step(s, e))
  {
    hide Step, Indexed, Named, Enabled;
    QuietStep(s, e);
  }

  lemma JoinFeeds(s: Room, c: nat, id: RequestId)
    requires Coherent(s) && Indexed(s) && c < |s.clients|
    ensures Feeds(s, DoAskJoin(s, c, id))
  {
    JoiningOk(s, c, id);
    assert Feeds(s, Joining(s, c, id)) by { hide Coherent, Indexed; }
    hide Coherent, Advance, Feeds;
    AdvanceFeeds(Joining(s, c, id), |s.handlers|, 0);
    FeedsTrans(s, Joining(s, c, id), DoAskJoin(s, c, id));
  }

  lemma ProducedFeeds(s: Room, h: nat)
    requires Coherent(s) && Indexed(s) && h in s.tasks && s.tasks[h].Publishing?
    ensures Feeds(s, DoProduced(s, h))
  {
    RegisterOk(s, h);
    CoherentIsIndexed(Register(s, h));
    assert Feeds(s, Register(s, h)) && Register(s, h).handlers == s.handlers by { hide Coherent; }
    hide Coherent, Advance, Register, Feeds;
    AdvanceFeeds(Register(s, h), h, 0);
    FeedsTrans(s, Register(s, h), DoProduced(s, h));
  }

  lemma SettledFeeds(s: Room, h: nat)
    requires Indexed(s) && Named(s) && h in s.tasks
    requires s.tasks[h].Opening? || s.tasks[h].Replying? || s.tasks[h].Awaiting?
    ensures Feeds(s, DoResumed(s, h))
  {
    hide ConsumeFrom;
  }

  lemma ResumedFeeds(s: Room, h: nat)
    requires Coherent(s) && Indexed(s) && Named(s) && h in s.tasks
    ensures Feeds(s, DoResumed(s, h))
  {
    hide Feeds;
    if s.tasks[h].Publishing? {
      hide DoProduced;
      ProducedFeeds(s, h);
    } else if s.tasks[h].Between? {
      hide Coherent, Advance;
      AdvanceFeeds(s, h, s.tasks[h].cursor);
    } else {
      hide Coherent, DoResumed;
      SettledFeeds(s, h);
    }
  }

  /** The one consumer this closes has lost its producer. */
  lemma LostLively(s: Room, k: nat)
    requires Owned(s) && Enabled(s, ConsumerLost(k)) && Lively(s)
    ensures Lively(CloseConsumer(s, k))
  {
    assert s.consumers[k].owner < |s.clients|;
    hide Owned;
  }

  lemma DepartedLively(s: Room, c: nat)
    requires Coherent(s) && Drained(s) && Lively(s) && c < |s.clients|
    ensures Indexed(s) && Lively(Departed(s, c))
  {
    DepartedOk(s, c);
    DepartedShape(s, c);
    hide Coherent, Drained, Departed, Indexed;
  }

  lemma ClosedLively(s: Room, c: nat)
    requires Coherent(s) && Drained(s) && Lively(s) && c < |s.clients|
    ensures Indexed(s) && Lively(DoSocketClosed(s, c))
  {
    DepartedOk(s, c);
    DepartedLively(s, c);
    hide Coherent, Drained, Departed, Indexed, CloseRoom;
    CloseRoomOk(Departed(s, c));
    if NobodyLeft(Departed(s, c).entries) && Departed(s, c).routerClosed {
      AlreadyClosed(Departed(s, c));
    }
  }

  lemma AlreadyClosed(s: Room)
    requires s.routerClosed && Owned(s)
    ensures CloseRoom(s) == s
  {
  }

  lemma StepLively(s: Room, e: Event)
    requires Coherent(s) && Drained(s) && Indexed(s) && Named(s) && Enabled(s, e) && Lively(s)
    ensures Lively(Step(s, e))
  {
    CoherentIsPlaced(s);
    hide Lively, Feeds, Placed;
    match e {
      case SocketClosed(c) => hide DoSocketClosed, Coherent, Drained; ClosedLively(s, c);
      case ConsumerLost(k) => hide Coherent, Drained, CloseConsumer; LostLively(s, k);
      case AskJoin(c, id) => hide Drained, DoAskJoin; JoinFeeds(s, c, id); FeedsLively(s, Step(s, e));
      case Resumed(h) => hide Coherent, Drained, DoResumed; ResumedFeeds(s, h); FeedsLively(s, Step(s, e));
      case _ => hide Coherent, Drained, Step; QuietFeeds(s, e); FeedsLively(s, Step(s, e));
    }
  }

  lemma {:induction false} RunLively(es: seq<Event>)
    requires Possible(es)
    ensures Lively(After(es))
    decreases |es|
  {
    hide Coherent, Drained, Indexed, Named, Step, Enabled;
    if es != [] {
      RunLively(es[..|es| - 1]);
      hide Lively;
      StepLively(After(es[..|es| - 1]), es[|es| - 1]);
    }
  }

  /** In every reachable state whose closings have cascaded a consumer is open if and only if
      its transport and its producer are. */
  lemma OpenExactlyWhenFed(es: seq<Event>, k: nat)
    requires Possible(es) && Cascaded(After(es)) && k < |After(es).consumers|
    ensures After(es).consumers[k].open <==> Fed(After(es), After(es).consumers[k])
  {
    RunLively(es);
    hide Coherent, Indexed, Named, Step, Enabled;
  }

  /**
   ... so what a departed client still consumes is what it consumed on its spared transports, as
   long as it is produced and the router is open.
   */
  lemma SparedConsumersStayOpen(es: seq<Event>, n: nat, q: nat, k: nat)
    requires Possible(es) && LeavesAt(es, n, q) && Cascaded(After(es))
    requires k < |After(es).consumers| && After(es).consumers[k].owner == q
    ensures var s, co := After(es), After(es).consumers[k];
            && co.transport < |s.transports| && co.info.producer < |s.producers|
            && (co.open <==>
                  !s.routerClosed && Spared(After(es[..n]), q, co.transport) && s.producers[co.info.producer].open)
  {
    OpenExactlyWhenFed(es, k);
    SparedStayOpen(es, n, q);
    var s := After(es);
    assert ConsumerOk(s.clients, s.transports, |s.producers|, k, s.consumers[k]);
    hide Coherent, Drained, Indexed, Named, Possible, After;
  }
}
