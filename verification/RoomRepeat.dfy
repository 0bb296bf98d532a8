/**
 Joining again: once the mesh is complete, a join that is asked for once more runs through its
 whole loop without consuming anything and is answered.
 */
module RoomRepeat {
  import opened Base
  import opened RoomModel
  import opened RoomInvariant
  import opened RoomMesh
  import opened RoomOffers
  import opened RoomUnique

  /** `n` resumptions of one handler. */
  function Resumptions(h: nat, n: nat): seq<Event> {
    if n == 0 then [] else Resumptions(h, n - 1) + [Resumed(h)]
  }

  lemma NoResumptions(es: seq<Event>, h: nat)
    ensures es + Resumptions(h, 0) == es
  {
  }

  lemma OneMore(es: seq<Event>, h: nat, n: nat)
    ensures es + Resumptions(h, n + 1) == es + Resumptions(h, n) + [Resumed(h)]
  {
  }

  lemma AfterAppend(es: seq<Event>, e: Event)
    requires Possible(es) && Enabled(After(es), e)
    ensures Possible(es + [e]) && After(es + [e]) == Step(After(es), e)
  {
    assert (es + [e])[..|es|] == es;
    hide Coherent, Drained, Step, Enabled, Indexed, Named;
  }

  /** How a loop handler leaves the room when it ends in this state. */
  function Ended(s: Room, h: nat): Room
    requires h < |s.handlers| && s.handlers[h].client < |s.clients|
  {
    var done := s.(tasks := s.tasks - {h});
    if s.handlers[h].request.JoinCall? then Reply(done, h) else done
  }

  /** Only handler `h`'s own task differs: it is suspended between two clients at slot `n` or later. */
  ghost predicate OnlyLooped(s: Room, t: Room, h: nat, n: nat) {
    h in t.tasks && t.tasks[h].Between? && n <= t.tasks[h].cursor && t == s.(tasks := s.tasks[h := t.tasks[h]])
  }

  lemma LoopedSame(s: Room, t: Room, h: nat, n: nat)
    requires Indexed(s) && Indexed(t) && NothingToDo(s, h) && OnlyLooped(s, t, h, n)
    ensures NothingToDo(t, h)
  {
    assert forall i: nat, j: nat :: Attends(t, h, i, j) <==> Attends(s, h, i, j);
    assert forall c, q :: 0 <= c < |s.clients| && 0 <= q < |s.clients| ==> (Satisfied(t, c, q) <==> Satisfied(s, c, q));
    hide Satisfied, Attends, Indexed;
  }

  /** One resumption of a loop with nothing to do. */
  lemma OneResumption(s: Room, t: Room, h: nat, n: nat)
    requires Indexed(s) && NothingToDo(s, h) && h < |s.handlers| && s.handlers[h].client < |s.clients|
    requires Coherent(t) && Indexed(t) && Named(t) && OnlyLooped(s, t, h, n) && Loops(s.handlers[h].request)
    ensures Enabled(t, Resumed(h)) && t.tasks[h].cursor <= |s.entries|
    ensures var t' := Step(t, Resumed(h)); OnlyLooped(s, t', h, n + 1) || t' == Ended(s, h)
  {
    hide Coherent, Named, NothingToDo, Advance, Attends, OnlyLooped, Ended;
    LoopedSame(s, t, h, n);
    LoopedAlike(s, t, h, n);
    ResumedTurns(t, h);
    hide Indexed, Step, Enabled, Suspend;
    Turned(s, t, h, n);
  }

  lemma LoopedAlike(s: Room, t: Room, h: nat, n: nat)
    requires OnlyLooped(s, t, h, n) && Indexed(t)
    ensures h in t.tasks && t.tasks[h].Between? && t.tasks[h].cursor <= |t.entries|
    ensures t.entries == s.entries && t.clients == s.clients && t.handlers == s.handlers
  {
  }

  /** Resuming a loop with nothing to do. */
  lemma ResumedTurns(t: Room, h: nat)
    requires Coherent(t) && Indexed(t) && Named(t) && NothingToDo(t, h)
    requires h in t.tasks && t.tasks[h].Between? && h < |t.handlers| && Loops(t.handlers[h].request)
    requires t.tasks[h].cursor <= |t.entries|
    ensures Enabled(t, Resumed(h)) && t.handlers[h].client < |t.clients|
    ensures var i := NextEntry(t.entries, t.clients[t.handlers[h].client].id, t.tasks[h].cursor);
            Step(t, Resumed(h)) == if i < |t.entries| then Suspend(t, h, Between(i + 1)) else Ended(t, h)
  {
    RepeatIsIdempotent(t, h, t.tasks[h].cursor);
    hide Coherent, Named, NothingToDo, Advance;
  }

  /** What a turn of the loop does to the tasks. */
  lemma Turned(s: Room, t: Room, h: nat, n: nat)
    requires OnlyLooped(s, t, h, n) && h < |s.handlers| && s.handlers[h].client < |s.clients|
    requires t.tasks[h].cursor <= |t.entries|
    ensures var i := NextEntry(t.entries, t.clients[t.handlers[h].client].id, t.tasks[h].cursor);
            && OnlyLooped(s, Suspend(t, h, Between(i + 1)), h, n + 1)
            && Ended(t, h) == Ended(s, h)
  {
    assert s.tasks[h := t.tasks[h]] - {h} == s.tasks - {h};
    var i := NextEntry(t.entries, t.clients[t.handlers[h].client].id, t.tasks[h].cursor);
    assert s.tasks[h := t.tasks[h]][h := Between(i + 1)] == s.tasks[h := Between(i + 1)];
  }

  /** However often the handler is resumed, it is in its loop, further on each time, or ended. */
  lemma {:induction false} LoopedOrEnded(s: Room, es: seq<Event>, h: nat, n: nat)
    requires Indexed(s) && NothingToDo(s, h) && h < |s.handlers| && s.handlers[h].client < |s.clients|
    requires Loops(s.handlers[h].request) && Possible(es) && OnlyLooped(s, After(es), h, 0)
    requires Possible(es + Resumptions(h, n))
    ensures var t := After(es + Resumptions(h, n)); OnlyLooped(s, t, h, n) || t == Ended(s, h)
    decreases n
  {
    hide Coherent, Drained, Indexed, Named, NothingToDo, OnlyLooped, Resumptions, Step, Enabled, Ended, Loops;
    if n == 0 {
      NoResumptions(es, h);
    } else {
      var fs := es + Resumptions(h, n - 1);
      OneMore(es, h, n - 1);
      PossibleBefore(fs, Resumed(h));
      LoopedOrEnded(s, es, h, n - 1);
      hide Possible, After;
      if OnlyLooped(s, After(fs), h, n - 1) {
        OneResumption(s, After(fs), h, n - 1);
      } else {
        EndedIsOver(s, h);
      }
    }
  }

  lemma PossibleBefore(es: seq<Event>, e: Event)
    requires Possible(es + [e])
    ensures Possible(es) && Enabled(After(es), e) && After(es + [e]) == Step(After(es), e)
  {
    assert (es + [e])[..|es|] == es;
    hide Coherent, Drained, Step, Enabled, Indexed, Named;
  }

  lemma EndedIsOver(s: Room, h: nat)
    requires h < |s.handlers| && s.handlers[h].client < |s.clients|
    ensures !Enabled(Ended(s, h), Resumed(h))
  {
  }

  /** And it does end, after one resumption for every slot at most. */
  lemma {:induction false} LoopEnds(s: Room, es: seq<Event>, h: nat, n: nat) returns (m: nat)
    requires Indexed(s) && NothingToDo(s, h) && h < |s.handlers| && s.handlers[h].client < |s.clients|
    requires Loops(s.handlers[h].request) && Possible(es) && OnlyLooped(s, After(es), h, 0)
    requires n <= |s.entries| && Possible(es + Resumptions(h, n)) && OnlyLooped(s, After(es + Resumptions(h, n)), h, n)
    ensures m <= |s.entries| + 1 && Possible(es + Resumptions(h, m)) && After(es + Resumptions(h, m)) == Ended(s, h)
    decreases |s.entries| - n
  {
    hide Coherent, Drained, Indexed, Named, NothingToDo, OnlyLooped, Resumptions, Step, Enabled, Ended, Loops;
    var fs := es + Resumptions(h, n);
    OneResumption(s, After(fs), h, n);
    AfterAppend(fs, Resumed(h));
    OneMore(es, h, n);
    var t := After(es + Resumptions(h, n + 1));
    hide Possible, After;
    if t == Ended(s, h) {
      m := n + 1;
    } else {
      CursorInRange(s, t, h, n + 1);
      m := LoopEnds(s, es, h, n + 1);
    }
  }

  lemma CursorInRange(s: Room, t: Room, h: nat, n: nat)
    requires Indexed(t) && OnlyLooped(s, t, h, n)
    ensures n <= |s.entries|
  {
  }

  // ---------- joining again ----------

  /** With no handler in flight and nothing rejected, a client that joined ready has everything. */
  lemma JoinedHasAll(es: seq<Event>, i: nat, j: nat)
    requires Possible(es) && After(es).tasks == map[]
    requires forall n :: 0 <= n < |es| ==> !es[n].ConsumeRejected?
    requires var s := After(es);
             && i < |s.entries| && j < |s.entries| && i != j && s.entries[i].Entry? && s.entries[j].Entry?
             && s.clients[s.entries[i].client].joinedReady
    ensures Satisfied(After(es), After(es).entries[i].client, After(es).entries[j].client)
  {
    var s := After(es);
    var q := s.entries[j].client;
    assert RegistryOk(s.producers, q, s.clients[q].producers);
    forall p | p in s.clients[q].producers.present ensures Holds(s, s.entries[i].client, p) {
      var m :| 0 <= m < |s.clients[q].producers.order| && s.clients[q].producers.order[m] == p;
      MeshComplete(es, i, j, m);
    }
  }

  /** So if every ready client of the room has asked to join since it was ready, no loop of any
      handler, join or produce, has anything left to do. */
  lemma NobodyLacksAnything(es: seq<Event>, h: nat)
    requires Possible(es) && After(es).tasks == map[] && h < |After(es).handlers|
    requires forall n :: 0 <= n < |es| ==> !es[n].ConsumeRejected?
    requires var s := After(es);
             forall i :: 0 <= i < |s.entries| && s.entries[i].Entry? && Ready(s.clients[s.entries[i].client]) ==>
                           s.clients[s.entries[i].client].joinedReady
    ensures NothingToDo(After(es), h)
  {
    var s := After(es);
    hide Coherent, Drained, Named, Satisfied;
    forall i: nat, j: nat | Attends(s, h, i, j) && Ready(s.clients[s.entries[i].client])
      ensures Satisfied(s, s.entries[i].client, s.entries[j].client)
    {
      JoinedHasAll(es, i, j);
    }
  }

  /** The room right after the repeated request came in. */
  ghost function Again(s: Room, c: nat, id: RequestId): Room {
    s.(handlers := s.handlers + [Handler(c, JoinCall, id)])
  }

  lemma AgainNothingToDo(es: seq<Event>, i: nat, id: RequestId)
    requires Possible(es) && After(es).tasks == map[]
    requires forall n :: 0 <= n < |es| ==> !es[n].ConsumeRejected?
    requires var s := After(es);
             i < |s.entries| && s.entries[i].Entry? && s.clients[s.entries[i].client].joinedReady
    ensures var s := After(es);
            var c := s.entries[i].client;
            && Joining(s, c, id) == Again(s, c, id)
            && Coherent(Again(s, c, id)) && Indexed(Again(s, c, id)) && NothingToDo(Again(s, c, id), |s.handlers|)
  {
    var s := After(es);
    var c := s.entries[i].client;
    assert EntryOk(s.clients, s.entries[i]) && Distinct(s.entries);
    JoiningOk(s, c, id);
    assert Joining(s, c, id) == Again(s, c, id) by {
      assert s.clients[c := s.clients[c].(joinedReady := true)] == s.clients;
    }
    var s1 := Again(s, c, id);
    CoherentIsIndexed(s1);
    forall a: nat, b: nat | Attends(s1, |s.handlers|, a, b)
      ensures Satisfied(s1, s1.entries[a].client, s1.entries[b].client)
    {
      assert a == i;
      JoinedHasAll(es, i, b);
    }
  }

  /**
   A repeated join changes nothing.  In a run without rejections and with no handler in flight,
   let a connected client that joined ready ask to join once more.  However often its handler
   is resumed, it never waits for a `consume`: it is between two clients, and nothing but its
   own task has changed, or it has ended, and all that is left of it is its answer.
   */
  lemma RepeatedJoinChangesNothing(es: seq<Event>, i: nat, id: RequestId, n: nat)
    requires Possible(es) && After(es).tasks == map[]
    requires forall n :: 0 <= n < |es| ==> !es[n].ConsumeRejected?
    requires var s := After(es);
             && i < |s.entries| && s.entries[i].Entry?
             && s.clients[s.entries[i].client].joinedReady && !s.clients[s.entries[i].client].closed
    requires Possible(es + [AskJoin(After(es).entries[i].client, id)] + Resumptions(|After(es).handlers|, n))
    ensures var s := After(es);
            var c := s.entries[i].client;
            var h := |s.handlers|;
            var t := After(es + [AskJoin(c, id)] + Resumptions(h, n));
            OnlyLooped(Again(s, c, id), t, h, n) || t == Reply(Again(s, c, id), h)
  {
    var s := After(es);
    var c := s.entries[i].client;
    var h := |s.handlers|;
    var fs := es + [AskJoin(c, id)];
    FirstRound(es, i, id);
    AgainNothingToDo(es, i, id);
    var s1 := Again(s, c, id);
    EndedIsReply(s, c, id);
    hide Coherent, Drained, Named, Indexed, NothingToDo, Step, Ended, OnlyLooped;
    if OnlyLooped(s1, After(fs), h, 0) {
      LoopedOrEnded(s1, fs, h, n);
    } else {
      if n > 0 {
        EndedNoMore(s1, fs, h, n);
      }
      NoResumptions(fs, h);
    }
  }

  lemma {:induction false} EndedNoMore(s: Room, es: seq<Event>, h: nat, n: nat)
    requires h < |s.handlers| && s.handlers[h].client < |s.clients|
    requires Possible(es) && After(es) == Ended(s, h) && n > 0
    ensures !Possible(es + Resumptions(h, n))
    decreases n
  {
    var fs := es + Resumptions(h, n - 1);
    assert es + Resumptions(h, n) == fs + [Resumed(h)];
    if n == 1 {
      assert fs == es;
      EndedIsOver(s, h);
    } else {
      EndedNoMore(s, es, h, n - 1);
    }
    hide Ended, Enabled, Step, Coherent, Drained, Indexed, Named;
    if Possible(fs + [Resumed(h)]) {
      PossibleBefore(fs, Resumed(h));
    }
  }

  lemma EndedIsReply(s: Room, c: nat, id: RequestId)
    requires c < |s.clients| && s.tasks == map[]
    ensures Ended(Again(s, c, id), |s.handlers|) == Reply(Again(s, c, id), |s.handlers|)
  {
    var s1 := Again(s, c, id);
    assert s1.tasks - {|s.handlers|} == s1.tasks;
  }

  /** The step that brings the request in runs the loop up to its first await. */
  lemma FirstRound(es: seq<Event>, i: nat, id: RequestId)
    requires Possible(es) && After(es).tasks == map[]
    requires forall n :: 0 <= n < |es| ==> !es[n].ConsumeRejected?
    requires var s := After(es);
             && i < |s.entries| && s.entries[i].Entry?
             && s.clients[s.entries[i].client].joinedReady && !s.clients[s.entries[i].client].closed
    ensures var s := After(es);
            var c := s.entries[i].client;
            var h := |s.handlers|;
            && Possible(es + [AskJoin(c, id)])
            && var t := After(es + [AskJoin(c, id)]);
               OnlyLooped(Again(s, c, id), t, h, 0) || t == Ended(Again(s, c, id), h)
  {
    hide Coherent, Drained, Named, NothingToDo, Advance, Again, Joining, OnlyLooped, Ended, DoAskJoin, Possible, After;
    var s := After(es);
    var c := s.entries[i].client;
    AgainNothingToDo(es, i, id);
    AgainTurned(s, c, id);
    AfterAppend(es, AskJoin(c, id));
  }

  lemma AgainTurned(s: Room, c: nat, id: RequestId)
    requires Indexed(s) && c < |s.clients| && s.tasks == map[] && Joining(s, c, id) == Again(s, c, id)
    requires var s1 := Again(s, c, id); Coherent(s1) && Indexed(s1) && NothingToDo(s1, |s.handlers|)
    ensures var s1 := Again(s, c, id);
            var t := DoAskJoin(s, c, id);
            OnlyLooped(s1, t, |s.handlers|, 0) || t == Ended(s1, |s.handlers|)
  {
    hide Coherent, Indexed, NothingToDo, Advance;
    RepeatIsIdempotent(Again(s, c, id), |s.handlers|, 0);
  }

  /** The repeated join is answered after at most one resumption for every slot, and one more. */
  lemma RepeatedJoinIsAnswered(es: seq<Event>, i: nat, id: RequestId) returns (n: nat)
    requires Possible(es) && After(es).tasks == map[]
    requires forall n :: 0 <= n < |es| ==> !es[n].ConsumeRejected?
    requires var s := After(es);
             && i < |s.entries| && s.entries[i].Entry?
             && s.clients[s.entries[i].client].joinedReady && !s.clients[s.entries[i].client].closed
    ensures var s := After(es);
            var c := s.entries[i].client;
            var h := |s.handlers|;
            var fs := es + [AskJoin(c, id)] + Resumptions(h, n);
            n <= |s.entries| + 1 && Possible(fs) && After(fs) == Reply(Again(s, c, id), h)
  {
    var s := After(es);
    var c := s.entries[i].client;
    var h := |s.handlers|;
    var fs := es + [AskJoin(c, id)];
    FirstRound(es, i, id);
    AgainNothingToDo(es, i, id);
    var s1 := Again(s, c, id);
    EndedIsReply(s, c, id);
    hide Coherent, Drained, Named, Indexed, NothingToDo, Step, Ended, OnlyLooped;
    NoResumptions(fs, h);
    if OnlyLooped(s1, After(fs), h, 0) {
      n := LoopEnds(s1, fs, h, 0);
    } else {
      n := 0;
    }
  }
}
