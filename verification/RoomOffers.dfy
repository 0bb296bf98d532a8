/**
 What is due to whom, and that no step of the room forgets it: once attended to, a due
 consumer is held, still owed by a suspended handler, or was given up by a handler whose
 `consume` rejected.
 */
module RoomOffers {
  import opened Base
  import opened RoomModel
  import opened RoomInvariant

  /** The client in slot `i` has sent its capabilities and has a receiving transport, and the
      client in slot `j` has an open producer in its slot `m`. */
  ghost predicate Due(s: Room, i: nat, j: nat, m: nat)
    requires Indexed(s)
  {
    && i < |s.entries| && j < |s.entries| && i != j
    && s.entries[i].Entry? && s.entries[j].Entry?
    && s.clients[s.entries[i].client].capable && s.clients[s.entries[i].client].rcv.Some?
    && m < |s.clients[s.entries[j].client].producers.order|
    && s.clients[s.entries[j].client].producers.order[m] in s.clients[s.entries[j].client].producers.present
  }

  ghost predicate Pending(s: Room, i: nat, j: nat, m: nat)
    requires Indexed(s) && Due(s, i, j, m)
  {
    exists h :: h in s.tasks && Covers(s, h, i, j, m)
  }

  ghost predicate Served(s: Room, i: nat, j: nat, m: nat)
    requires Indexed(s) && Due(s, i, j, m)
  {
    Holds(s, s.entries[i].client, s.clients[s.entries[j].client].producers.order[m])
  }

  ghost predicate GivenUp(s: Room, i: nat, j: nat, m: nat)
    requires Indexed(s) && Due(s, i, j, m)
  {
    (s.entries[i].client, s.clients[s.entries[j].client].producers.order[m]) in s.lost
  }

  ghost predicate Attended(s: Room, i: nat, j: nat, m: nat)
    requires Indexed(s) && Due(s, i, j, m)
  {
    Served(s, i, j, m) || Pending(s, i, j, m) || GivenUp(s, i, j, m)
  }

  /** What was attended to and is still due is still attended to. */
  ghost predicate Keeps(s: Room, s': Room)
    requires Indexed(s) && Indexed(s')
  {
    forall i, j, m :: Due(s, i, j, m) && Attended(s, i, j, m) && Due(s', i, j, m) ==> Attended(s', i, j, m)
  }

  /** What is due in the second state was due in the first. */
  ghost predicate SameDues(s: Room, s': Room)
    requires Indexed(s) && Indexed(s')
  {
    forall i, j, m :: Due(s', i, j, m) ==> Due(s, i, j, m)
  }

  /** Everything due to client `c` is attended to. */
  ghost predicate CaresFor(s: Room, c: nat)
    requires Indexed(s)
  {
    forall i: nat, j: nat, m: nat | Due(s, i, j, m) && s.entries[i].client == c :: Attended(s, i, j, m)
  }

  /** The producer in slot `m` of the client in slot `j` was registered between the two states. */
  ghost predicate Fresh(s: Room, s': Room, j: nat, m: nat) {
    && j < |s'.entries| && s'.entries[j].Entry? && s'.entries[j].client < |s'.clients|
    && m < |s'.clients[s'.entries[j].client].producers.order|
    && s'.clients[s'.entries[j].client].producers.order[m] == |s.producers|
  }

  /** Everything due of a producer registered since the first state is attended to. */
  ghost predicate Offers(s: Room, s': Room)
    requires Indexed(s')
  {
    forall i: nat, j: nat, m: nat | Due(s', i, j, m) && Fresh(s, s', j, m) :: Attended(s', i, j, m)
  }

  lemma CaresOn(s: Room, s': Room, c: nat)
    requires Indexed(s) && Indexed(s') && Keeps(s, s') && SameDues(s, s') && s'.entries == s.entries && CaresFor(s, c)
    ensures CaresFor(s', c)
  {
    hide Indexed, Attended;
    forall i: nat, j: nat, m: nat | Due(s', i, j, m) && s'.entries[i].client == c ensures Attended(s', i, j, m) {
      assert Due(s, i, j, m) && Attended(s, i, j, m);
    }
  }

  lemma OffersOn(s: Room, s1: Room, s': Room)
    requires Indexed(s1) && Indexed(s') && Keeps(s1, s') && SameDues(s1, s') && Offers(s, s1)
    requires s'.entries == s1.entries && |s'.clients| == |s1.clients|
    requires forall c :: 0 <= c < |s1.clients| ==> s'.clients[c].producers == s1.clients[c].producers
    ensures Offers(s, s')
  {
    hide Indexed, Due, Attended;
    forall i: nat, j: nat, m: nat | Due(s', i, j, m) && Fresh(s, s', j, m) ensures Attended(s', i, j, m) {
      assert Due(s1, i, j, m) && Fresh(s, s1, j, m);
      assert Attended(s1, i, j, m);
    }
  }

  lemma KeepsTrans(a: Room, b: Room, c: Room)
    requires Indexed(a) && Indexed(b) && Indexed(c) && Keeps(a, b) && Keeps(b, c) && SameDues(b, c)
    ensures Keeps(a, c)
  {
    hide Indexed, Due, Attended;
  }

  // ---------- steps that leave the map of clients and the producers alone ----------

  /** What wanting and covering are about stays the same; holdings only grow. */
  ghost predicate Extends(s: Room, s': Room) {
    && s'.entries == s.entries && |s'.clients| == |s.clients|
    && s.handlers <= s'.handlers && s.lost <= s'.lost && s.consumers <= s'.consumers
    && (forall c :: 0 <= c < |s.clients| ==>
          && s'.clients[c].id == s.clients[c].id
          && (Ready(s.clients[c]) ==> Ready(s'.clients[c]))
          && s'.clients[c].producers == s.clients[c].producers
          && s.clients[c].consumers <= s'.clients[c].consumers)
  }

  ghost predicate OthersKept(s: Room, s': Room, h: nat) {
    forall g :: g in s.tasks && g != h ==> g in s'.tasks && s'.tasks[g] == s.tasks[g]
  }

  lemma HoldsGrows(s: Room, s': Room, c: nat, p: nat)
    requires Extends(s, s') && c < |s.clients| && Holds(s, c, p)
    ensures Holds(s', c, p)
  {
    var k :| k in s.clients[c].consumers && k < |s.consumers| && s.consumers[k].info.producer == p;
    assert k in s'.clients[c].consumers && s'.consumers[k].info.producer == p;
  }

  lemma CarryOne(s: Room, s': Room, h: nat, i: nat, j: nat, m: nat)
    requires Indexed(s) && Indexed(s') && Extends(s, s') && OthersKept(s, s', h)
    requires Due(s, i, j, m) && Attended(s, i, j, m) && Due(s', i, j, m)
    requires h in s.tasks && Covers(s, h, i, j, m) ==> Attended(s', i, j, m)
    ensures Attended(s', i, j, m)
  {
    if Served(s, i, j, m) {
      HoldsGrows(s, s', s.entries[i].client, s.clients[s.entries[j].client].producers.order[m]);
    } else if Pending(s, i, j, m) {
      var g :| g in s.tasks && Covers(s, g, i, j, m);
      if g != h {
        assert Covers(s', g, i, j, m);
      }
    }
  }

  lemma Carry(s: Room, s': Room, h: nat)
    requires Indexed(s) && Indexed(s') && Extends(s, s') && OthersKept(s, s', h)
    requires forall i, j, m | Due(s, i, j, m) && Due(s', i, j, m) && h in s.tasks && Covers(s, h, i, j, m)
               :: Attended(s', i, j, m)
    ensures Keeps(s, s')
  {
    forall i: nat, j: nat, m: nat | Due(s, i, j, m) && Attended(s, i, j, m) && Due(s', i, j, m)
      ensures Attended(s', i, j, m)
    {
      CarryOne(s, s', h, i, j, m);
    }
  }

  // ---------- the loops make progress without forgetting ----------

  /** Scanning a client's producers from slot `k` leaves no producer at or after it behind. */
  lemma ScanCovers(s: Room, s': Room, h: nat, cursor: nat, i: nat, j: nat, k: nat, m: nat)
    requires Indexed(s) && Indexed(s') && Extends(s, s') && Due(s, i, j, m) && Due(s', i, j, m)
    requires k <= m && h in s'.tasks
    requires s'.tasks[h] == ConsumeFrom(s, cursor, s.entries[j].client, s.entries[i].client, k)
    ensures Served(s', i, j, m) || Covers(s', h, i, j, m)
  {
    var prod, cons := s.entries[j].client, s.entries[i].client;
    var r := NextProducer(s.consumers, s.clients[prod].producers, s.clients[cons], k);
    if m < r {
      HoldsGrows(s, s', cons, s.clients[prod].producers.order[m]);
    }
  }

  lemma StillDue(s: Room, s': Room, i: nat, j: nat, m: nat)
    requires Indexed(s) && Indexed(s') && Extends(s, s') && Due(s, i, j, m)
    ensures Due(s', i, j, m)
  {
  }

  /** Where `_consumeClient` works once the loop has reached a slot. */
  lemma VisitAt(s: Room, h: nat, i: nat, j: nat)
    requires TableOk(s) && h < |s.handlers| && s.handlers[h].client < |s.clients|
    requires i < |s.entries| && j < |s.entries| && s.entries[i].Entry? && s.entries[j].Entry?
    requires s.clients[s.handlers[h].client].id == s.entries[if s.handlers[h].request.JoinCall? then i else j].id
    ensures var n := if s.handlers[h].request.JoinCall? then j else i;
            Visit(s, h, n) == ConsumeFrom(s, n + 1, s.entries[j].client, s.entries[i].client, 0)
  {
    hide ConsumeFrom;
    assert Find(s.entries, s.entries[i].id) == i;
    assert Find(s.entries, s.entries[j].id) == j;
  }

  lemma VisitCursor(s: Room, h: nat, n: nat)
    requires TableOk(s) && h < |s.handlers| && s.handlers[h].client < |s.clients|
    requires n < |s.entries| && s.entries[n].Entry?
    ensures var task := Visit(s, h, n); (task.Between? || task.Awaiting?) && task.cursor == n + 1
  {
  }

  lemma AdvanceTask(s: Room, h: nat, cursor: nat)
    requires Indexed(s) && h < |s.handlers| && cursor <= |s.entries|
    ensures var i := NextEntry(s.entries, s.clients[s.handlers[h].client].id, cursor);
            var s' := Advance(s, h, cursor);
            && s'.entries == s.entries && s'.handlers == s.handlers && |s'.clients| == |s.clients|
            && (i < |s.entries| ==> s'.clients == s.clients && h in s'.tasks && s'.tasks[h] == Visit(s, h, i))
  {
    hide Visit;
  }

  /** A loop that is still to reach the pair's slot covers the pair. */
  lemma OuterCovers(s: Room, h: nat, i: nat, j: nat, m: nat)
    requires h in s.tasks && h < |s.handlers| && s.handlers[h].client < |s.clients|
    requires i < |s.entries| && j < |s.entries| && s.entries[i].Entry? && s.entries[j].Entry?
    requires s.tasks[h].Between? || s.tasks[h].Awaiting?
    requires CoversOuter(s, s.handlers[h].request, s.clients[s.handlers[h].client].id, s.tasks[h].cursor, i, j)
    ensures Covers(s, h, i, j, m)
  {
  }

  /** Moving the outer loop on leaves no slot at or after its cursor behind. */
  lemma AdvanceCovers(s: Room, h: nat, cursor: nat, i: nat, j: nat, m: nat)
    requires Coherent(s) && Indexed(s) && h < |s.handlers| && Loops(s.handlers[h].request) && cursor <= |s.entries|
    requires Due(s, i, j, m)
    requires CoversOuter(s, s.handlers[h].request, s.clients[s.handlers[h].client].id, cursor, i, j)
    ensures var s' := Advance(s, h, cursor);
            Indexed(s') && Extends(s, s') && Due(s', i, j, m)
            && (Served(s', i, j, m) || (h in s'.tasks && Covers(s', h, i, j, m)))
  {
    hide Advance, Visit, Extends, ConsumeFrom, Served, Indexed, Covers;
    var s' := Advance(s, h, cursor);
    AdvanceExtends(s, h, cursor);
    StillDue(s, s', i, j, m);
    AdvanceReaches(s, h, cursor, i, j);
    hide Coherent;
    var n := NextEntry(s.entries, s.clients[s.handlers[h].client].id, cursor);
    AdvanceTask(s, h, cursor);
    if n == if s.handlers[h].request.JoinCall? then j else i {
      ScanCovers(s, s', h, n + 1, i, j, 0, m);
    } else {
      hide Due;
      OuterCovers(s', h, i, j, m);
    }
  }

  /** The iterator does not jump over a slot it has to visit. */
  lemma AdvanceReaches(s: Room, h: nat, cursor: nat, i: nat, j: nat)
    requires TableOk(s) && h < |s.handlers| && s.handlers[h].client < |s.clients| && cursor <= |s.entries|
    requires i < |s.entries| && j < |s.entries| && i != j && s.entries[i].Entry? && s.entries[j].Entry?
    requires CoversOuter(s, s.handlers[h].request, s.clients[s.handlers[h].client].id, cursor, i, j)
    ensures var n := NextEntry(s.entries, s.clients[s.handlers[h].client].id, cursor);
            var at := if s.handlers[h].request.JoinCall? then j else i;
            && n <= at
            && (Visit(s, h, n).Between? || Visit(s, h, n).Awaiting?) && Visit(s, h, n).cursor == n + 1
            && (n == at ==> Visit(s, h, n) == ConsumeFrom(s, n + 1, s.entries[j].client, s.entries[i].client, 0))
  {
    var n := NextEntry(s.entries, s.clients[s.handlers[h].client].id, cursor);
    assert s.entries[i].id != s.entries[j].id;
    VisitCursor(s, h, n);
    if n == if s.handlers[h].request.JoinCall? then j else i {
      VisitAt(s, h, i, j);
    }
  }

  lemma AdvanceExtends(s: Room, h: nat, cursor: nat)
    requires Coherent(s) && Indexed(s) && h < |s.handlers| && Loops(s.handlers[h].request) && cursor <= |s.entries|
    ensures var s' := Advance(s, h, cursor);
            Coherent(s') && Indexed(s') && Extends(s, s') && OthersKept(s, s', h)
  {
    AdvanceOk(s, h, cursor);
    CoherentIsIndexed(Advance(s, h, cursor));
  }

  lemma AdvanceKeeps(s: Room, h: nat)
    requires Coherent(s) && Indexed(s) && h in s.tasks && s.tasks[h].Between?
    ensures var s' := Advance(s, h, s.tasks[h].cursor); Indexed(s') && Keeps(s, s') && SameDues(s, s')
  {
    var cursor := s.tasks[h].cursor;
    var s' := Advance(s, h, cursor);
    AdvanceExtends(s, h, cursor);
    forall i: nat, j: nat, m: nat | Due(s, i, j, m) && Due(s', i, j, m) && Covers(s, h, i, j, m)
      ensures Attended(s', i, j, m)
    {
      AdvanceCovers(s, h, cursor, i, j, m);
    }
    Carry(s, s', h);
    AdvanceDues(s, h, cursor);
  }

  /** A loop changes nothing that being due is about. */
  lemma AdvanceDues(s: Room, h: nat, cursor: nat)
    requires Indexed(s) && h < |s.handlers| && cursor <= |s.entries| && Indexed(Advance(s, h, cursor))
    ensures SameDues(s, Advance(s, h, cursor))
  {
    hide Visit;
  }

  lemma JoinSound(s: Room, c: nat, id: RequestId)
    requires Coherent(s) && c < |s.clients|
    ensures var s1 := Joining(s, c, id);
            var s2 := Suspend(s1, |s.handlers|, Between(0));
            Coherent(s1) && Indexed(s1) && Coherent(s2) && Indexed(s2)
  {
    JoiningOk(s, c, id);
    hide MediaOk, ClientsOk;
    SuspendOk(Joining(s, c, id), |s.handlers|, Between(0));
    CoherentIsIndexed(Suspend(Joining(s, c, id), |s.handlers|, Between(0)));
  }

  /** A join request that arrives when its client is ready owes that client everything. */
  lemma JoinArmed(s: Room, c: nat, id: RequestId)
    requires Coherent(s) && Indexed(s) && c < |s.clients|
    ensures var s2 := Suspend(Joining(s, c, id), |s.handlers|, Between(0));
            Indexed(s2) && Keeps(s, s2) && CaresFor(s2, c)
  {
    JoinSound(s, c, id);
    EntryIds(s);
    hide Coherent, Indexed, Due, Attended;
    var s2 := Suspend(Joining(s, c, id), |s.handlers|, Between(0));
    forall i: nat, j: nat, m: nat | Due(s, i, j, m) && Attended(s, i, j, m) && Due(s2, i, j, m)
      ensures Attended(s2, i, j, m)
    {
      JoinStill(s, c, id, i, j, m);
    }
    forall i: nat, j: nat, m: nat | Due(s2, i, j, m) && s2.entries[i].client == c ensures Attended(s2, i, j, m) {
      JoinOwes(s, c, id, i, j, m);
    }
  }

  lemma JoinStill(s: Room, c: nat, id: RequestId, i: nat, j: nat, m: nat)
    requires Indexed(s) && c < |s.clients| && |s.handlers| !in s.tasks
    requires Indexed(Suspend(Joining(s, c, id), |s.handlers|, Between(0)))
    requires Due(s, i, j, m) && Attended(s, i, j, m)
             && Due(Suspend(Joining(s, c, id), |s.handlers|, Between(0)), i, j, m)
    ensures Attended(Suspend(Joining(s, c, id), |s.handlers|, Between(0)), i, j, m)
  {
    AttendedStill(s, Suspend(Joining(s, c, id), |s.handlers|, Between(0)), i, j, m);
  }

  lemma JoinOwes(s: Room, c: nat, id: RequestId, i: nat, j: nat, m: nat)
    requires Indexed(s) && c < |s.clients|
    requires Indexed(Suspend(Joining(s, c, id), |s.handlers|, Between(0)))
    requires Due(Suspend(Joining(s, c, id), |s.handlers|, Between(0)), i, j, m) && s.entries[i].client == c
    requires s.clients[c].id == s.entries[i].id
    ensures Attended(Suspend(Joining(s, c, id), |s.handlers|, Between(0)), i, j, m)
  {
    assert Covers(Suspend(Joining(s, c, id), |s.handlers|, Between(0)), |s.handlers|, i, j, m);
  }

  lemma EntryIds(s: Room)
    requires Coherent(s)
    ensures forall i :: 0 <= i < |s.entries| && s.entries[i].Entry? ==>
              s.entries[i].client < |s.clients| && s.clients[s.entries[i].client].id == s.entries[i].id
    ensures |s.handlers| !in s.tasks
  {
    hide ClientsOk, MediaOk;
    assert forall i :: 0 <= i < |s.entries| ==> EntryOk(s.clients, s.entries[i]);
  }

  /** Attention survives when ids, slots, holdings and suspended handlers do. */
  lemma AttendedStill(s: Room, s': Room, i: nat, j: nat, m: nat)
    requires Indexed(s) && Indexed(s') && Due(s, i, j, m) && Due(s', i, j, m) && Attended(s, i, j, m)
    requires s'.entries[i] == s.entries[i] && s'.entries[j] == s.entries[j]
    requires |s.clients| <= |s'.clients| && s.handlers <= s'.handlers && s.lost <= s'.lost
    requires forall c :: 0 <= c < |s.clients| ==> s'.clients[c].id == s.clients[c].id
    requires s'.clients[s.entries[j].client].producers.order[m] == s.clients[s.entries[j].client].producers.order[m]
    requires forall g :: g in s.tasks && !s.tasks[g].Publishing? ==> g in s'.tasks && s'.tasks[g] == s.tasks[g]
    requires Served(s, i, j, m) ==> Served(s', i, j, m)
    ensures Attended(s', i, j, m)
  {
    if Pending(s, i, j, m) {
      var g :| g in s.tasks && Covers(s, g, i, j, m);
      assert Covers(s', g, i, j, m);
    }
  }

  /** A join serves, or owes, its client everything that is due to it. */
  lemma JoinKeeps(s: Room, c: nat, id: RequestId)
    requires Coherent(s) && Indexed(s) && c < |s.clients|
    ensures var s' := DoAskJoin(s, c, id);
            Indexed(s') && Keeps(s, s') && CaresFor(s', c)
  {
    JoinSound(s, c, id);
    JoinArmed(s, c, id);
    hide Coherent, Keeps, SameDues, CaresFor;
    var h := |s.handlers|;
    var s2 := Suspend(Joining(s, c, id), h, Between(0));
    AdvanceKeeps(s2, h);
    SameAdvance(Joining(s, c, id), s2, h, 0);
    AdvanceTask(s2, h, 0);
    KeepsTrans(s, s2, DoAskJoin(s, c, id));
    CaresOn(s2, DoAskJoin(s, c, id), c);
  }

  lemma RegisterSound(s: Room, h: nat)
    requires Coherent(s) && Indexed(s) && h in s.tasks && s.tasks[h].Publishing?
    ensures var s1 := Register(s, h);
            var s2 := Suspend(s1, h, Between(0));
            Coherent(s1) && Indexed(s1) && Coherent(s2) && Indexed(s2)
  {
    RegisterOk(s, h);
    var s1 := Register(s, h);
    RegisterShape(s, h);
    hide TableOk, ClientsOk, MediaOk, Register;
    SuspendOk(s1, h, Between(0));
    hide Coherent;
    CoherentIsIndexed(s1);
    CoherentIsIndexed(Suspend(s1, h, Between(0)));
  }

  lemma RegisterShape(s: Room, h: nat)
    requires Indexed(s) && h in s.tasks && s.tasks[h].Publishing?
    ensures var s1 := Register(s, h);
            && s1.entries == s.entries && s1.handlers == s.handlers && s1.tasks == s.tasks && s1.lost == s.lost
            && s1.handlers[h].request.CreateProducer?
            && |s1.clients| == |s.clients|
            && forall c :: 0 <= c < |s.clients| ==> s1.clients[c].id == s.clients[c].id
  {
  }

  ghost predicate RegisterSafe(s: Room, h: nat)
    requires Indexed(s) && h in s.tasks && s.tasks[h].Publishing?
  {
    Indexed(Register(s, h)) && Indexed(Suspend(Register(s, h), h, Between(0)))
  }

  /** A fresh producer is owed to everybody by the handler that made it. */
  lemma RegisterOffers(s: Room, h: nat, i: nat, j: nat, m: nat)
    requires Coherent(s) && Indexed(s) && h in s.tasks && s.tasks[h].Publishing? && RegisterSafe(s, h)
    requires var s2 := Suspend(Register(s, h), h, Between(0)); Due(s2, i, j, m) && Fresh(s, s2, j, m)
    ensures Covers(Suspend(Register(s, h), h, Between(0)), h, i, j, m)
  {
    RegisterShape(s, h);
    EntryIds(s);
    FreshIsOwn(s, h, j, m);
    hide Coherent, Indexed, Register;
  }

  lemma FreshIsOwn(s: Room, h: nat, j: nat, m: nat)
    requires Coherent(s) && Indexed(s) && h in s.tasks && s.tasks[h].Publishing?
    requires Fresh(s, Register(s, h), j, m) && j < |s.entries|
    ensures s.entries[j].Entry? && s.entries[j].client == s.handlers[h].client
  {
    var q := s.entries[j].client;
    CoherentIsIndexed(s);
    hide Coherent;
    assert forall x :: 0 <= x < |s.clients[q].producers.order| ==> s.clients[q].producers.order[x] < |s.producers|;
    hide Named;
  }

  /** Registering a producer takes nothing from what was attended to. */
  lemma RegisterStill(s: Room, h: nat, i: nat, j: nat, m: nat)
    requires Coherent(s) && Indexed(s) && h in s.tasks && s.tasks[h].Publishing? && RegisterSafe(s, h)
    requires Due(s, i, j, m) && Attended(s, i, j, m) && Due(Suspend(Register(s, h), h, Between(0)), i, j, m)
    ensures Attended(Suspend(Register(s, h), h, Between(0)), i, j, m)
  {
    RegisterShape(s, h);
    RegisterServes(s, h, i, j, m);
    hide Coherent, Indexed, Register, Due;
    AttendedStill(s, Suspend(Register(s, h), h, Between(0)), i, j, m);
  }

  lemma RegisterServes(s: Room, h: nat, i: nat, j: nat, m: nat)
    requires Indexed(s) && h in s.tasks && s.tasks[h].Publishing? && RegisterSafe(s, h)
    requires Due(s, i, j, m) && Due(Suspend(Register(s, h), h, Between(0)), i, j, m)
    ensures Register(s, h).clients[s.entries[j].client].producers.order[m]
         == s.clients[s.entries[j].client].producers.order[m]
    ensures Served(s, i, j, m) ==> Served(Suspend(Register(s, h), h, Between(0)), i, j, m)
  {
  }

  lemma RegisterArmed(s: Room, h: nat)
    requires Coherent(s) && Indexed(s) && h in s.tasks && s.tasks[h].Publishing?
    ensures var s2 := Suspend(Register(s, h), h, Between(0));
            Indexed(s2) && Keeps(s, s2) && Offers(s, s2)
  {
    RegisterSound(s, h);
    var s2 := Suspend(Register(s, h), h, Between(0));
    hide Coherent, Indexed, Register, Due, Attended, Fresh;
    assert RegisterSafe(s, h);
    forall i: nat, j: nat, m: nat | Due(s, i, j, m) && Attended(s, i, j, m) && Due(s2, i, j, m)
      ensures Attended(s2, i, j, m)
    {
      RegisterStill(s, h, i, j, m);
    }
    forall i: nat, j: nat, m: nat | Due(s2, i, j, m) && Fresh(s, s2, j, m) ensures Attended(s2, i, j, m) {
      RegisterOffers(s, h, i, j, m);
      CoveredIsAttended(s2, h, i, j, m);
    }
  }

  lemma CoveredIsAttended(s: Room, h: nat, i: nat, j: nat, m: nat)
    requires Indexed(s) && Due(s, i, j, m) && h in s.tasks && Covers(s, h, i, j, m)
    ensures Attended(s, i, j, m)
  {
  }

  /** A produce handler serves, or owes, its new producer to everybody to whom it is due. */
  lemma ProducedKeeps(s: Room, h: nat)
    requires Coherent(s) && Indexed(s) && h in s.tasks && s.tasks[h].Publishing?
    ensures var s' := DoProduced(s, h);
            Indexed(s') && Keeps(s, s') && Offers(s, s')
  {
    hide Coherent, Keeps, SameDues, Register, Offers;
    RegisterSound(s, h);
    RegisterArmed(s, h);
    var s1 := Register(s, h);
    var s2 := Suspend(s1, h, Between(0));
    AdvanceKeeps(s2, h);
    SameAdvance(s1, s2, h, 0);
    AdvanceRegistries(s2, h, 0);
    KeepsTrans(s, s2, DoProduced(s, h));
    OffersOn(s, s2, DoProduced(s, h));
  }

  lemma AdvanceRegistries(s: Room, h: nat, cursor: nat)
    requires Indexed(s) && h < |s.handlers| && cursor <= |s.entries|
    ensures var s' := Advance(s, h, cursor);
            && s'.entries == s.entries && |s'.clients| == |s.clients|
            && forall c :: 0 <= c < |s.clients| ==> s'.clients[c].producers == s.clients[c].producers
  {
    hide Visit;
  }

  lemma ConsumedSound(s: Room, h: nat)
    requires Coherent(s) && Indexed(s) && Named(s) && h in s.tasks && s.tasks[h].Awaiting?
    ensures Coherent(Hold(s, h)) && Indexed(Hold(s, h)) && Indexed(DoConsumed(s, h))
  {
    HoldOk(s, h);
    ConsumedOk(s, h);
    hide Coherent, Hold, DoConsumed;
    CoherentIsIndexed(Hold(s, h));
    CoherentIsIndexed(DoConsumed(s, h));
  }

  lemma ConsumedExtends(s: Room, h: nat)
    requires Indexed(s) && Named(s) && h in s.tasks && s.tasks[h].Awaiting? && Indexed(Hold(s, h))
    ensures var s1 := Hold(s, h);
            var s' := DoConsumed(s, h);
            var task := s.tasks[h];
            && Extends(s, s1) && s1.tasks == s.tasks
            && Holds(s1, task.cons, s.clients[task.prod].producers.order[task.k])
            && Extends(s, s') && OthersKept(s, s', h)
            && s' == Suspend(s1, h, ConsumeFrom(s1, task.cursor, task.prod, task.cons, task.k + 1))
  {
    HoldExtends(s, h);
    var task := s.tasks[h];
    var s1 := Hold(s, h);
    hide Hold, ConsumeFrom, Indexed, Named, OthersKept, Holds;
    SuspendExtends(s, s1, h, ConsumeFrom(s1, task.cursor, task.prod, task.cons, task.k + 1));
  }

  lemma SuspendExtends(s: Room, s1: Room, h: nat, task: Task)
    requires Extends(s, s1) && s1.tasks == s.tasks
    ensures Extends(s, Suspend(s1, h, task)) && OthersKept(s, Suspend(s1, h, task), h)
  {
  }

  /** A resolved `consume` settles one debt and the scan goes on from the next producer. */
  lemma ConsumedKeeps(s: Room, h: nat)
    requires Coherent(s) && Indexed(s) && Named(s) && h in s.tasks && s.tasks[h].Awaiting?
    ensures var s' := DoConsumed(s, h); Indexed(s') && Keeps(s, s')
  {
    var s1 := Hold(s, h);
    var s' := DoConsumed(s, h);
    ConsumedSound(s, h);
    ConsumedExtends(s, h);
    forall i: nat, j: nat, m: nat | Due(s, i, j, m) && Due(s', i, j, m) && Covers(s, h, i, j, m)
      ensures Attended(s', i, j, m)
    {
      hide Coherent, Hold, ConsumeFrom, Due, Indexed, Named, Covers, Served, DoConsumed, Extends, OthersKept;
      StillDue(s, s1, i, j, m);
      SettledCovers(s, s1, h, i, j, m);
    }
    hide Coherent, Hold, ConsumeFrom, Due, Indexed, Named, Covers, Served, DoConsumed, Extends, OthersKept;
    Carry(s, s', h);
  }

  lemma HoldExtends(s: Room, h: nat)
    requires Indexed(s) && Named(s) && h in s.tasks && s.tasks[h].Awaiting?
    ensures var s1 := Hold(s, h);
            && Extends(s, s1) && s1.tasks == s.tasks
            && Holds(s1, s.tasks[h].cons, s.clients[s.tasks[h].prod].producers.order[s.tasks[h].k])
  {
    var s1 := Hold(s, h);
    assert |s.consumers| in s1.clients[s.tasks[h].cons].consumers;
    assert s1.consumers[|s.consumers|].info.producer == s.clients[s.tasks[h].prod].producers.order[s.tasks[h].k];
  }

  /** One debt settled: what the handler covered is held, or covered by its new suspension. */
  ghost predicate SameSlots(s: Room, s': Room) {
    && s'.entries == s.entries && s.handlers <= s'.handlers && |s'.clients| == |s.clients|
    && forall c :: 0 <= c < |s.clients| ==> s'.clients[c].id == s.clients[c].id
  }

  lemma SettledCovers(s: Room, s1: Room, h: nat, i: nat, j: nat, m: nat)
    requires Indexed(s) && Coherent(s1) && Indexed(s1) && Extends(s, s1) && s1.tasks == s.tasks
    requires h in s.tasks && s.tasks[h].Awaiting?
    requires Holds(s1, s.tasks[h].cons, s.clients[s.tasks[h].prod].producers.order[s.tasks[h].k])
    requires Due(s, i, j, m) && Due(s1, i, j, m) && Covers(s, h, i, j, m)
    ensures var task := s.tasks[h];
            var s' := Suspend(s1, h, ConsumeFrom(s1, task.cursor, task.prod, task.cons, task.k + 1));
            Indexed(s') && Due(s', i, j, m) ==> Served(s', i, j, m) || Covers(s', h, i, j, m)
  {
    hide Coherent, ConsumeFrom;
    var task := s.tasks[h];
    var s' := Suspend(s1, h, ConsumeFrom(s1, task.cursor, task.prod, task.cons, task.k + 1));
    ConsumeFromCursor(s1, task.cursor, task.prod, task.cons, task.k + 1);
    assert SameSlots(s, s1) && h < |s.handlers| && s.handlers[h].client < |s.clients|;
    if Indexed(s') && Due(s', i, j, m) {
      if CoversOuter(s, s.handlers[h].request, s.clients[s.handlers[h].client].id, task.cursor, i, j) {
        hide Indexed, Due, Served, Extends, Covers;
        OuterCovers(s', h, i, j, m);
      } else {
        assert task.prod == s.entries[j].client && task.cons == s.entries[i].client && task.k <= m;
        hide Covers, CoversOuter;
        if m == task.k {
          hide Indexed;
          assert Served(s', i, j, m);
        } else {
          hide Served;
          ScanCovers(s1, s', h, task.cursor, i, j, task.k + 1, m);
        }
      }
    }
  }

  lemma ConsumeFromCursor(s: Room, cursor: nat, prod: nat, cons: nat, k: nat)
    requires prod < |s.clients| && cons < |s.clients| && k <= |s.clients[prod].producers.order|
    ensures var task := ConsumeFrom(s, cursor, prod, cons, k);
            (task.Between? || task.Awaiting?) && task.cursor == cursor
  {
  }

  /** A rejected `consume` gives up exactly what its handler still owed. */
  lemma RejectedKeeps(s: Room, h: nat)
    requires Indexed(s) && h in s.tasks
    ensures var s' := DoRejected(s, h); Indexed(s') && Keeps(s, s')
  {
    var s' := DoRejected(s, h);
    assert Extends(s, s') && OthersKept(s, s', h) && Indexed(s') by { hide Abandoned; }
    hide Abandoned, Indexed, Extends, OthersKept;
    forall i: nat, j: nat, m: nat | Due(s, i, j, m) && Due(s', i, j, m) && Covers(s, h, i, j, m)
      ensures Attended(s', i, j, m)
    {
      AbandonedHas(s, h, i, j, m);
      assert GivenUp(s', i, j, m);
    }
    Carry(s, s', h);
  }

  lemma AbandonedHas(s: Room, h: nat, i: nat, j: nat, m: nat)
    requires Indexed(s) && h in s.tasks && Due(s, i, j, m) && Covers(s, h, i, j, m)
    ensures (s.entries[i].client, s.clients[s.entries[j].client].producers.order[m]) in Abandoned(s, h)
  {
  }

  // ---------- steps that change who is there or what is open ----------

  lemma AddKeeps(s: Room, id: ClientId)
    requires Coherent(s) && Indexed(s)
    ensures var s' := DoAdd(s, id); Indexed(s') && Keeps(s, s')
  {
    var s' := DoAdd(s, id);
    AddOk(s, id);
    CoherentIsIndexed(s');
    hide Coherent;
    forall i: nat, j: nat, m: nat | Due(s, i, j, m) && Attended(s, i, j, m) && Due(s', i, j, m)
      ensures Attended(s', i, j, m)
    {
      AttendedStill(s, s', i, j, m);
    }
  }

  /** Slots may be vacated and media closed, as long as wanted holdings stay. */
  lemma ClosingKeeps(s: Room, s': Room)
    requires Indexed(s) && Indexed(s')
    requires s'.handlers == s.handlers && s'.tasks == s.tasks && s'.lost == s.lost
    requires |s'.clients| == |s.clients| && |s'.entries| == |s.entries|
    requires forall i :: 0 <= i < |s.entries| && s'.entries[i].Entry? ==> s'.entries[i] == s.entries[i]
    requires forall c :: 0 <= c < |s.clients| ==> && s'.clients[c].id == s.clients[c].id
                                                  && s'.clients[c].producers.order == s.clients[c].producers.order
                                                  && s'.clients[c].producers.present <= s.clients[c].producers.present
    requires forall i, j, m :: Due(s, i, j, m) && Due(s', i, j, m) && Served(s, i, j, m) ==> Served(s', i, j, m)
    ensures Keeps(s, s')
  {
    forall i: nat, j: nat, m: nat | Due(s, i, j, m) && Attended(s, i, j, m) && Due(s', i, j, m)
      ensures Attended(s', i, j, m)
    {
      AttendedStill(s, s', i, j, m);
    }
  }

  /** A consumer of a closed producer is wanted by nobody. */
  lemma ConsumerLostKeeps(s: Room, k: nat)
    requires Coherent(s) && Indexed(s) && Named(s) && Enabled(s, ConsumerLost(k))
    ensures var s' := CloseConsumer(s, k); Indexed(s') && Keeps(s, s')
  {
    CloseConsumerCoherent(s, k);
    CoherentIsIndexed(CloseConsumer(s, k));
    ConsumerLostShape(s, k);
    hide Coherent, Indexed, Named, Keeps, CloseConsumer, Spared, Shrinks;
    assert s.(entries := s.entries, clients := s.clients) == s;
    assert CloseConsumer(s, k).entries == s.entries by { hide Spared; }
    SparedKeeps(s, s.clients, CloseConsumer(s, k));
  }

  lemma ConsumerLostShape(s: Room, k: nat)
    requires Indexed(s) && Named(s) && Enabled(s, ConsumerLost(k))
    ensures Shrinks(s, CloseConsumer(s, k))
    ensures forall q: nat, o: nat :: Spared(s, CloseConsumer(s, k), q, o)
  {
  }

  /** Consumer `q` of client `o` stays open unless its producer closed. */
  ghost predicate Spared(s: Room, s': Room, q: nat, o: nat) {
    q < |s.consumers| && s.consumers[q].open && s.consumers[q].owner == o && ProducerOpen(s, q)
    ==> q < |s'.consumers| && s'.consumers[q].open
  }

  /** Closing keeps what is attended to when it spares the consumers of those who stay. */
  lemma SparedKeeps(s: Room, flagged: seq<Client>, s': Room)
    requires Coherent(s) && Indexed(s) && Coherent(s') && Indexed(s')
    requires |s'.entries| == |s.entries|
    requires forall i :: 0 <= i < |s.entries| && s'.entries[i].Entry? ==> s'.entries[i] == s.entries[i]
    requires |flagged| == |s.clients| && Shrinks(s.(entries := s'.entries, clients := flagged), s')
    requires forall c :: 0 <= c < |s.clients| ==> flagged[c] == s.clients[c].(closed := flagged[c].closed)
    requires forall i: nat, q: nat :: i < |s.entries| && s'.entries[i].Entry? ==> Spared(s, s', q, s.entries[i].client)
    ensures Keeps(s, s')
  {
    hide Coherent, Indexed, Due, Served;
    forall i: nat, j: nat, m: nat | Due(s, i, j, m) && Due(s', i, j, m) && Served(s, i, j, m)
      ensures Served(s', i, j, m)
    {
      DueSlots(s, s', i, j, m);
      assert forall q: nat :: Spared(s, s', q, s.entries[i].client);
      StillServed(s, s', i, j, m);
    }
    ClosingKeeps(s, s');
  }

  lemma DueSlots(s: Room, s': Room, i: nat, j: nat, m: nat)
    requires Indexed(s) && Indexed(s') && Due(s, i, j, m) && Due(s', i, j, m)
    requires |s'.entries| == |s.entries| && |s'.clients| == |s.clients|
    requires forall i :: 0 <= i < |s.entries| && s'.entries[i].Entry? ==> s'.entries[i] == s.entries[i]
    ensures i < |s.entries| && j < |s.entries| && i != j && s'.entries[i].Entry?
    ensures s'.entries[i] == s.entries[i] && s'.entries[j] == s.entries[j]
    ensures s.entries[i].Entry? && s.entries[j].Entry? && s.entries[i].client < |s.clients|
            && s.entries[j].client < |s.clients|
  {
  }

  ghost predicate ProducerOpen(s: Room, k: nat)
    requires k < |s.consumers|
  {
    var p := s.consumers[k].info.producer;
    p < |s.producers| && s.producers[p].open
  }

  lemma StillServed(s: Room, s': Room, i: nat, j: nat, m: nat)
    requires Coherent(s) && Indexed(s) && Indexed(s') && Coherent(s')
    requires Due(s, i, j, m) && Due(s', i, j, m) && Served(s, i, j, m)
    requires s'.entries[i] == s.entries[i] && s'.entries[j] == s.entries[j]
    requires |s'.consumers| == |s.consumers|
    requires s'.clients[s.entries[j].client].producers.order == s.clients[s.entries[j].client].producers.order
    requires forall k :: 0 <= k < |s.consumers| ==>
               && s'.consumers[k].owner == s.consumers[k].owner && s'.consumers[k].info == s.consumers[k].info
               && Spared(s, s', k, s.entries[i].client)
    ensures Served(s', i, j, m)
  {
    hide TableOk, TasksOk;
    var c := s.entries[i].client;
    var p := s.clients[s.entries[j].client].producers.order[m];
    var k :| k in s.clients[c].consumers && k < |s.consumers| && s.consumers[k].info.producer == p;
    assert RegistryOk(s.producers, s.entries[j].client, s.clients[s.entries[j].client].producers);
    assert HoldingsOk(s.consumers, c, s.clients[c].consumers);
    assert ConsumerOk(s'.clients, s'.transports, |s'.producers|, k, s'.consumers[k]);
  }

  lemma ProducerLostKeeps(s: Room, p: nat)
    requires Coherent(s) && Indexed(s) && p < |s.producers|
    ensures var s' := CloseProducer(s, p); Indexed(s') && Keeps(s, s')
  {
    var s' := CloseProducer(s, p);
    CloseProducerCoherent(s, p);
    CoherentIsIndexed(s');
    hide Coherent;
    ClosingKeeps(s, s');
  }

  /** The departing client takes its own consumers along and nobody else's. */
  lemma DepartedKeeps(s: Room, c: nat)
    requires Coherent(s) && Drained(s) && Indexed(s) && c < |s.clients|
    ensures Coherent(Departed(s, c)) && Indexed(Departed(s, c)) && Keeps(s, Departed(s, c))
  {
    var s' := Departed(s, c);
    DepartedOk(s, c);
    DepartedShape(s, c);
    CoherentIsIndexed(s');
    EntryIds(s);
    hide Coherent, Departed, Indexed, Keeps, Shrinks;
    forall i: nat, q: nat | i < |s.entries| && s'.entries[i].Entry? ensures Spared(s, s', q, s.entries[i].client) {
      DepartedSpares(s, c, s.entries[i].client);
    }
    SparedKeeps(s, s.clients[c := s.clients[c].(closed := true)], s');
  }

  /** Another client's consumers are on that client's own transports. */
  lemma DepartedSpares(s: Room, c: nat, o: nat)
    requires Coherent(s) && Drained(s) && Indexed(s) && c < |s.clients| && o != c
    ensures forall k :: 0 <= k < |s.consumers| && s.consumers[k].owner == o && s.consumers[k].open ==>
              k < |Departed(s, c).consumers| && Departed(s, c).consumers[k].open
  {
    DepartedOk(s, c);
    DepartedShape(s, c);
    hide TableOk, TasksOk, Departed;
    assert ClientOk(s.transports, c, s.clients[c]);
    forall k | 0 <= k < |s.consumers| && s.consumers[k].owner == o && s.consumers[k].open
      ensures Departed(s, c).consumers[k].open
    {
      assert ConsumerOk(s.clients, s.transports, |s.producers|, k, s.consumers[k]);
    }
  }

  lemma SocketClosedKeeps(s: Room, c: nat)
    requires Coherent(s) && Drained(s) && Indexed(s) && c < |s.clients|
    ensures var s' := DoSocketClosed(s, c); Indexed(s') && Keeps(s, s')
  {
    DepartedKeeps(s, c);
    SocketClosedOk(s, c);
    CoherentIsIndexed(DoSocketClosed(s, c));
    hide Coherent, Drained;
    assert NobodyLeft(DoSocketClosed(s, c).entries) || DoSocketClosed(s, c) == Departed(s, c);
  }

  // ---------- every step ----------

  lemma AskExtends(s: Room, e: Event)
    requires Indexed(s) && Named(s) && Enabled(s, e)
    requires e.Capabilities? || e.AskCapabilities? || e.AskTransport? || e.AskProducer? || e.AskPause? || e.AskResume?
    ensures Extends(s, Step(s, e)) && OthersKept(s, Step(s, e), |s.handlers|)
    ensures |s.handlers| !in s.tasks
  {
  }

  lemma AskKeeps(s: Room, e: Event)
    requires Coherent(s) && Drained(s) && Indexed(s) && Named(s) && Enabled(s, e)
    requires e.Capabilities? || e.AskCapabilities? || e.AskTransport? || e.AskProducer? || e.AskPause? || e.AskResume?
    ensures Indexed(Step(s, e)) && Keeps(s, Step(s, e))
  {
    StepCoherent(s, e);
    CoherentIsIndexed(Step(s, e));
    AskExtends(s, e);
    hide *;
    Carry(s, Step(s, e), |s.handlers|);
  }

  lemma SettledExtends(s: Room, h: nat)
    requires Indexed(s) && Named(s) && Enabled(s, Resumed(h)) && (s.tasks[h].Opening? || s.tasks[h].Replying?)
    ensures Extends(s, DoResumed(s, h)) && OthersKept(s, DoResumed(s, h), h)
  {
  }

  lemma SettledKeeps(s: Room, h: nat)
    requires Coherent(s) && Indexed(s) && Named(s) && Enabled(s, Resumed(h))
    requires s.tasks[h].Opening? || s.tasks[h].Replying?
    ensures Indexed(DoResumed(s, h)) && Keeps(s, DoResumed(s, h))
  {
    ResumedOk(s, h);
    CoherentIsIndexed(DoResumed(s, h));
    SettledExtends(s, h);
    hide Coherent, DoResumed, Extends, OthersKept, Indexed, Named;
    Carry(s, DoResumed(s, h), h);
  }

  lemma ResumedKeeps(s: Room, h: nat)
    requires Coherent(s) && Drained(s) && Indexed(s) && Named(s) && Enabled(s, Resumed(h))
    ensures Indexed(DoResumed(s, h)) && Keeps(s, DoResumed(s, h))
  {
    hide Coherent, Drained, Keeps, Indexed, Named, DoOpened, DoProduced, Advance, DoConsumed, Reply;
    match s.tasks[h] {
      case Opening => SettledKeeps(s, h);
      case Publishing(_) => ProducedKeeps(s, h);
      case Replying => SettledKeeps(s, h);
      case Between(_) => AdvanceKeeps(s, h);
      case Awaiting(_, _, _, _, _) => ConsumedKeeps(s, h);
    }
  }

  /** What is attended to stays attended to, whatever happens, as long as it is due. */
  lemma StepKeeps(s: Room, e: Event)
    requires Coherent(s) && Drained(s) && Indexed(s) && Named(s) && Enabled(s, e)
    ensures Indexed(Step(s, e)) && Keeps(s, Step(s, e))
  {
    hide Coherent, Drained, Keeps, Indexed, Named, Abandoned;
    match e {
      case Add(id) => AddKeeps(s, id);
      case AskJoin(c, id) => JoinKeeps(s, c, id);
      case SocketClosed(c) => SocketClosedKeeps(s, c);
      case Resumed(h) => ResumedKeeps(s, h);
      case ConsumeRejected(h) => RejectedKeeps(s, h);
      case Failed(h) => FailedKeeps(s, h);
      case ProducerLost(p) => ProducerLostKeeps(s, p);
      case ConsumerLost(k) => ConsumerLostKeeps(s, k);
      case _ => AskKeeps(s, e);
    }
  }

  lemma FailedKeeps(s: Room, h: nat)
    requires Coherent(s) && Indexed(s) && Enabled(s, Failed(h))
    ensures var s' := s.(tasks := s.tasks - {h}); Indexed(s') && Keeps(s, s')
  {
    hide Coherent;
    Carry(s, s.(tasks := s.tasks - {h}), h);
  }
}
