/**
 What every step of a room only adds to: the requests received, the clients' logs, and the
 facts that do not go away again.
 */
module RoomGrowth {
  import opened Base
  import opened RoomModel
  import opened RoomInvariant
  import RoomRequests
  import RoomUnique

  ghost predicate Extends(s: Room, s': Room) {
    && |s.clients| <= |s'.clients|
    && forall c :: 0 <= c < |s.clients| ==>
         && s.clients[c].log <= s'.clients[c].log
         && (s.clients[c].capable ==> s'.clients[c].capable)
         && (s.clients[c].joinedReady ==> s'.clients[c].joinedReady)
  }

  lemma QuietExtends(s: Room, e: Event)
    requires Indexed(s) && Named(s) && Enabled(s, e)
    requires !e.SocketClosed? && !e.Resumed? && !e.AskJoin?
    ensures Extends(s, Step(s, e)) && Step(s, e).handlers == s.handlers + Received(e)
  {
    hide Step, Indexed, Named, Enabled;
    QuietStep(s, e);
  }

  lemma AdvanceExtends(s: Room, h: nat, cursor: nat)
    requires Indexed(s) && h < |s.handlers| && cursor <= |s.entries|
    ensures Extends(s, Advance(s, h, cursor)) && Advance(s, h, cursor).handlers == s.handlers
  {
    hide Visit;
  }

  lemma ResumedExtends(s: Room, h: nat)
    requires Coherent(s) && Indexed(s) && Named(s) && h in s.tasks
    ensures Extends(s, DoResumed(s, h)) && DoResumed(s, h).handlers == s.handlers
  {
    match s.tasks[h] {
      case Publishing(_) => PublishedExtends(s, h); hide Coherent, Extends, DoProduced;
      case Between(cursor) => AdvanceExtends(s, h, cursor); hide Coherent, Extends, Advance;
      case Awaiting(_, _, _, _, _) => HoldExtends(s, h); hide Coherent, ConsumeFrom, Hold;
      case _ => hide Coherent;
    }
  }

  lemma HoldExtends(s: Room, h: nat)
    requires Indexed(s) && Named(s) && h in s.tasks && s.tasks[h].Awaiting?
    ensures Extends(s, Hold(s, h)) && Hold(s, h).handlers == s.handlers
  {
  }

  lemma PublishedExtends(s: Room, h: nat)
    requires Coherent(s) && Indexed(s) && h in s.tasks && s.tasks[h].Publishing?
    ensures Extends(s, DoProduced(s, h)) && DoProduced(s, h).handlers == s.handlers
  {
    RegisterOk(s, h);
    CoherentIsIndexed(Register(s, h));
    RegisterExtends(s, h);
    hide Coherent, Advance, Register;
    AdvanceExtends(Register(s, h), h, 0);
  }

  lemma RegisterExtends(s: Room, h: nat)
    requires Indexed(s) && h in s.tasks && s.tasks[h].Publishing?
    ensures Extends(s, Register(s, h)) && Register(s, h).handlers == s.handlers
  {
  }

  lemma JoinExtends(s: Room, c: nat, id: RequestId)
    requires Coherent(s) && Indexed(s) && c < |s.clients|
    ensures var s' := DoAskJoin(s, c, id);
            && Extends(s, s') && s'.handlers == s.handlers + [Handler(c, JoinCall, id)]
            && (Ready(s.clients[c]) ==> s'.clients[c].joinedReady)
  {
    JoiningOk(s, c, id);
    hide Coherent, Advance;
    AdvanceExtends(Joining(s, c, id), |s.handlers|, 0);
  }

  lemma ClosedExtends(s: Room, c: nat)
    requires Coherent(s) && Drained(s) && c < |s.clients|
    ensures Indexed(s) && Extends(s, DoSocketClosed(s, c)) && DoSocketClosed(s, c).handlers == s.handlers
  {
    hide Coherent, Drained, CloseRoom, Indexed, Named;
    SocketClosedShape(s, c);
    RoomUnique.ClosedOwners(s, c);
    DepartedOk(s, c);
    RoomRequests.DepartedNotifies(s, c);
    CoherentIsIndexed(Departed(s, c));
    RoomRequests.CloseRoomNotifies(Departed(s, c));
  }

  lemma StepExtends(s: Room, e: Event)
    requires Coherent(s) && Drained(s) && Indexed(s) && Named(s) && Enabled(s, e)
    ensures Extends(s, Step(s, e)) && Step(s, e).handlers == s.handlers + Received(e)
  {
    match e {
      case AskJoin(c, id) => JoinExtends(s, c, id);
      case SocketClosed(c) => ClosedExtends(s, c);
      case Resumed(h) => ResumedExtends(s, h);
      case _ => hide Coherent, Drained; QuietExtends(s, e);
    }
  }

  /** All invariants that hold of requests and responses are kept by every step. */
  lemma StepCorrelatedOk(s: Room, e: Event)
    requires Coherent(s) && Drained(s) && Indexed(s) && Named(s) && RoomRequests.Correlated(s) && Enabled(s, e)
    ensures var s' := Step(s, e);
            Coherent(s') && Drained(s') && Indexed(s') && Named(s') && RoomRequests.Correlated(s')
  {
    RoomRequests.StepCorrelated(s, e);
    StepCoherent(s, e);
    StepDrained(s, e);
    hide Coherent, Drained, RoomRequests.Correlated, Step;
    CoherentIsIndexed(Step(s, e));
  }
}
