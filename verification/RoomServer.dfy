/**
 The server as a whole: the directory of rooms, and in each room the room machine.  A room that
 closes is the one thing the two share: its `onClosed` takes its entry out of the directory.
 */
module RoomServers {
  import opened Base
  import opened RoomModel
  import opened RoomInvariant
  import RoomOffers
  import T = RoomTeardown
  import D = Rooms

  /** `rooms` runs parallel to the directory's table of rooms made. */
  datatype Server = Server(directory: D.Directory, rooms: seq<Room>)

  datatype Act = Directing(change: D.Event) | InRoom(room: nat, event: Event)

  const Started := Server(D.Empty, [])

  /** Rooms close by themselves only, and nobody is added to a closed room: a client is added
      as soon as its promise of a room resolves. */
  predicate Can(s: Server, a: Act) {
    match a
    case Directing(e) => !e.CloseRoom? && !e.RouterDied? && D.Enabled(s.directory, e)
    case InRoom(r, e) => r < |s.rooms| && Enabled(s.rooms[r], e) && (e.Add? ==> !s.rooms[r].routerClosed)
  }

  predicate WellFormed(s: Server) {
    |s.directory.made| == |s.rooms| && forall r :: 0 <= r < |s.rooms| ==> Indexed(s.rooms[r]) && Named(s.rooms[r])
  }

  function Do(s: Server, a: Act): Server
    requires WellFormed(s) && Can(s, a)
  {
    match a
    case Directing(e) =>
      Server(D.Step(s.directory, e), if e.RouterCreated? then s.rooms + [NewRoom] else s.rooms)
    case InRoom(r, e) =>
      var room := Step(s.rooms[r], e);
      Server(if room.closings == s.rooms[r].closings then s.directory else D.Step(s.directory, D.CloseRoom(r)),
             s.rooms[r := room])
  }

  // ---------- one room ----------

  /** A room has closed if and only if everybody who was ever in it has left. */
  predicate ClosedWhenLeft(s: Room) {
    && (s.routerClosed <==> NobodyLeft(s.entries) && s.clients != [])
    && s.closings == if s.routerClosed then 1 else 0
  }

  lemma QuietEntries(s: Room, e: Event)
    requires Indexed(s) && Named(s) && Enabled(s, e)
    requires !e.SocketClosed? && !e.Resumed? && !e.AskJoin? && !e.Add?
    ensures Step(s, e).entries == s.entries && |Step(s, e).clients| == |s.clients|
  {
    hide Step, Indexed, Named, Enabled;
    QuietStep(s, e);
  }

  lemma ResumedEntries(s: Room, h: nat)
    requires Coherent(s) && Indexed(s) && Named(s) && h in s.tasks
    ensures DoResumed(s, h).entries == s.entries && |DoResumed(s, h).clients| == |s.clients|
  {
    match s.tasks[h] {
      case Publishing(_) =>
        RegisterOk(s, h);
        CoherentIsIndexed(Register(s, h));
        RoomOffers.RegisterShape(s, h);
        hide Coherent, Register, Advance;
        RoomOffers.AdvanceRegistries(Register(s, h), h, 0);
      case Between(cursor) =>
        hide Coherent, Advance;
        RoomOffers.AdvanceRegistries(s, h, cursor);
      case _ => hide Coherent, ConsumeFrom;
    }
  }

  /** Only arrivals and departures change who is in a room. */
  lemma EntriesStay(s: Room, e: Event)
    requires Coherent(s) && Indexed(s) && Named(s) && Enabled(s, e) && !e.SocketClosed? && !e.Add?
    ensures Step(s, e).entries == s.entries && |Step(s, e).clients| == |s.clients|
  {
    match e {
      case AskJoin(c, id) =>
        JoiningOk(s, c, id);
        hide Coherent, Advance;
        RoomOffers.AdvanceRegistries(Joining(s, c, id), |s.handlers|, 0);
      case Resumed(h) => hide DoResumed; ResumedEntries(s, h);
      case _ => hide Coherent, Step; QuietEntries(s, e);
    }
  }

  lemma AddedStays(s: Room, id: ClientId)
    requires ClosedWhenLeft(s) && !s.routerClosed
    ensures ClosedWhenLeft(DoAdd(s, id))
  {
    var i := Find(s.entries, id);
    assert DoAdd(s, id).entries[if i < |s.entries| then i else |s.entries|].Entry?;
  }

  lemma DepartedClosed(s: Room, c: nat)
    requires Coherent(s) && Drained(s) && c < |s.clients| && ClosedWhenLeft(s)
    ensures Indexed(s) && ClosedWhenLeft(DoSocketClosed(s, c))
    ensures s.routerClosed ==> DoSocketClosed(s, c).routerClosed
  {
    SocketClosedShape(s, c);
    hide Coherent, Drained, Indexed, DoSocketClosed, Departed;
    var i := Find(s.entries, s.clients[c].id);
  }

  lemma StepClosedWhenLeft(s: Room, e: Event)
    requires Coherent(s) && Drained(s) && Indexed(s) && Named(s) && Enabled(s, e) && ClosedWhenLeft(s)
    requires e.Add? ==> !s.routerClosed
    ensures ClosedWhenLeft(Step(s, e)) && (s.routerClosed ==> Step(s, e).routerClosed)
  {
    match e {
      case Add(id) => hide Coherent, Drained, Indexed, Named, DoAdd; AddedStays(s, id);
      case SocketClosed(c) => hide Coherent, Drained, Indexed, Named, DoSocketClosed; DepartedClosed(s, c);
      case _ =>
        EntriesStay(s, e);
        T.RouterStays(s, e);
        hide Coherent, Drained, Indexed, Named, Step, Enabled;
    }
  }

  // ---------- all rooms ----------

  /** Some run of the directory leads here. */
  ghost predicate DirectoryReached(d: D.Directory) {
    exists es :: D.Possible(es) && D.After(es) == d
  }

  /** The directory knows of its rooms what is so. */
  ghost predicate Tracks(s: Server, r: nat)
    requires r < |s.rooms| == |s.directory.made|
  {
    && Reached(s.rooms[r]) && Indexed(s.rooms[r]) && Named(s.rooms[r]) && ClosedWhenLeft(s.rooms[r])
    && s.directory.made[r].open == !s.rooms[r].routerClosed && !s.directory.made[r].died
  }

  ghost predicate Inv(s: Server) {
    && DirectoryReached(s.directory) && |s.directory.made| == |s.rooms|
    && forall r :: 0 <= r < |s.rooms| ==> Tracks(s, r)
  }

  lemma DirectoryStep(d: D.Directory, e: D.Event)
    requires DirectoryReached(d) && D.Enabled(d, e)
    ensures DirectoryReached(D.Step(d, e))
  {
    var es :| D.Possible(es) && D.After(es) == d;
    var fs := es + [e];
    assert fs[..|fs| - 1] == es;
    assert D.After(fs) == D.Step(d, e);
  }

  lemma DirectoryConsistent(d: D.Directory)
    requires DirectoryReached(d)
    ensures D.Consistent(d)
  {
    var es :| D.Possible(es) && D.After(es) == d;
    D.RunConsistent(es);
  }

  lemma NewRoomTracks()
    ensures Reached(NewRoom) && Indexed(NewRoom) && Named(NewRoom) && ClosedWhenLeft(NewRoom)
  {
    assert RoomInvariant.Possible([]) && RoomInvariant.After([]) == NewRoom;
  }

  lemma DirectingOk(s: Server, e: D.Event)
    requires Inv(s) && WellFormed(s) && Can(s, Directing(e))
    ensures Inv(Do(s, Directing(e)))
  {
    hide DirectoryReached, Reached, Indexed, Named, ClosedWhenLeft;
    DirectoryStep(s.directory, e);
    NewRoomTracks();
    var s' := Do(s, Directing(e));
    forall r | 0 <= r < |s'.rooms| ensures Tracks(s', r) {
      if r < |s.rooms| {
        assert Tracks(s, r);
      }
    }
  }

  /** A step of one room. */
  lemma RoomStep(s: Room, e: Event)
    requires Reached(s) && Indexed(s) && Named(s) && ClosedWhenLeft(s) && Enabled(s, e)
    requires e.Add? ==> !s.routerClosed
    ensures var s' := Step(s, e);
            && Reached(s') && Indexed(s') && Named(s') && ClosedWhenLeft(s')
            && (s.routerClosed ==> s'.routerClosed)
  {
    ReachedIsSound(s);
    hide Reached, Coherent, Drained, Indexed, Named, Step, Enabled, ClosedWhenLeft;
    StepClosedWhenLeft(s, e);
    Then(s, e, Step(s, e));
    ReachedIsSound(Step(s, e));
  }

  /** What the directory is told of a room's step. */
  lemma ToldOf(d: D.Directory, room: Room, room': Room, r: nat)
    requires r < |d.made| && d.made[r].open == !room.routerClosed && !d.made[r].died
    requires ClosedWhenLeft(room) && ClosedWhenLeft(room') && (room.routerClosed ==> room'.routerClosed)
    ensures var d' := if room'.closings == room.closings then d else D.Step(d, D.CloseRoom(r));
            && |d'.made| == |d.made| && d'.made[r].open == !room'.routerClosed && !d'.made[r].died
            && forall q :: 0 <= q < |d.made| && q != r ==> d'.made[q] == d.made[q]
  {
  }

  lemma InRoomOk(s: Server, r: nat, e: Event)
    requires Inv(s) && WellFormed(s) && Can(s, InRoom(r, e))
    ensures Inv(Do(s, InRoom(r, e)))
  {
    assert Tracks(s, r);
    assert forall q :: 0 <= q < |s.rooms| ==> Tracks(s, q);
    hide Inv, WellFormed, DirectoryReached, Reached, Indexed, Named, Step, Enabled, ClosedWhenLeft, D.Step;
    RoomStep(s.rooms[r], e);
    ToldOf(s.directory, s.rooms[r], Step(s.rooms[r], e), r);
    DirectoryStep(s.directory, D.CloseRoom(r));
    AllTrack(s, Do(s, InRoom(r, e)), r);
  }

  /** Whoever is not touched is still tracked. */
  lemma AllTrack(s: Server, s': Server, r: nat)
    requires |s.rooms| == |s.directory.made| == |s'.rooms| == |s'.directory.made| && r < |s.rooms|
    requires DirectoryReached(s'.directory) && Tracks(s', r)
    requires forall q :: 0 <= q < |s.rooms| ==> Tracks(s, q)
    requires forall q :: 0 <= q < |s.rooms| && q != r ==>
               s'.rooms[q] == s.rooms[q] && s'.directory.made[q] == s.directory.made[q]
    ensures Inv(s')
  {
    hide DirectoryReached, Reached, Indexed, Named, ClosedWhenLeft;
    forall q | 0 <= q < |s'.rooms| ensures Tracks(s', q) {
      assert Tracks(s, q);
    }
  }

  lemma InvWellFormed(s: Server)
    requires Inv(s)
    ensures WellFormed(s)
  {
    hide DirectoryReached, Reached, Indexed, Named, ClosedWhenLeft;
    forall r | 0 <= r < |s.rooms| ensures Indexed(s.rooms[r]) && Named(s.rooms[r]) {
      assert Tracks(s, r);
    }
  }

  lemma DoOk(s: Server, a: Act)
    requires Inv(s) && WellFormed(s) && Can(s, a)
    ensures Inv(Do(s, a))
  {
    hide Inv, Do, Can, WellFormed;
    match a {
      case Directing(e) => DirectingOk(s, e);
      case InRoom(r, e) => InRoomOk(s, r, e);
    }
  }

  lemma StartedOk()
    ensures Inv(Started)
  {
    assert D.Possible([]) && D.After([]) == D.Empty;
  }

  // ---------- runs ----------

  ghost predicate Possible(acts: seq<Act>)
    decreases |acts|, 0
  {
    acts == [] || (Possible(acts[..|acts| - 1]) && Can(After(acts[..|acts| - 1]), acts[|acts| - 1]))
  }

  ghost function After(acts: seq<Act>): (s: Server)
    requires Possible(acts)
    ensures Inv(s) && WellFormed(s)
    decreases |acts|, 1
  {
    if acts == [] then
      StartedOk();
      Started
    else
      var s := After(acts[..|acts| - 1]);
      DoOk(s, acts[|acts| - 1]);
      InvWellFormed(Do(s, acts[|acts| - 1]));
      Do(s, acts[|acts| - 1])
  }

  /** The directory leads to this room under the id it was made for. */
  predicate Listed(d: D.Directory, r: nat) {
    r < |d.made| && d.made[r].roomId in d.rooms && d.rooms[d.made[r].roomId] == r
  }

  /** What is proved of runs of the directory and of runs of a room holds of every server. */
  lemma EveryPartIsARun(acts: seq<Act>, r: nat)
    requires Possible(acts) && r < |After(acts).rooms|
    ensures Reached(After(acts).rooms[r]) && DirectoryReached(After(acts).directory)
  {
    assert Tracks(After(acts), r);
    hide Reached, DirectoryReached, Possible, After, WellFormed;
  }

  /**
   In every reachable state a room that anybody has entered is in the directory if and only if
   somebody is in it, and once it is not, its `onClosed` has been called exactly once.
   */
  lemma ListedWhileOccupied(acts: seq<Act>, r: nat)
    requires Possible(acts) && r < |After(acts).rooms| && After(acts).rooms[r].clients != []
    ensures var s := After(acts);
            && r < |s.directory.made|
            && (Listed(s.directory, r) <==> !NobodyLeft(s.rooms[r].entries))
            && s.directory.made[r].onClosedCalls == (if NobodyLeft(s.rooms[r].entries) then 1 else 0)
  {
    var s := After(acts);
    assert Tracks(s, r);
    DirectoryConsistent(s.directory);
    hide Possible, After, Reached, DirectoryReached, WellFormed, Inv, Indexed, Named;
  }

  /** The departure of the last client of this room. */
  predicate LastLeaves(s: Server, r: nat, a: Act) {
    && a.InRoom? && a.room == r < |s.rooms| && a.event.SocketClosed? && a.event.client < |s.rooms[r].clients|
    && T.OnlyId(s.rooms[r].entries, s.rooms[r].clients[a.event.client].id)
  }

  /**
   Whatever happens, in the directory or in any room: an entry goes if and only if what happens is
   the departure of the last client of its very room, and otherwise it goes on leading there.
   */
  lemma EntryGoesWithTheLast(acts: seq<Act>, a: Act, id: D.RoomId)
    requires Possible(acts) && Can(After(acts), a) && id in After(acts).directory.rooms
    ensures var s, s' := After(acts), Do(After(acts), a);
            var r := s.directory.rooms[id];
            && (id !in s'.directory.rooms <==> LastLeaves(s, r, a))
            && (id in s'.directory.rooms ==> s'.directory.rooms[id] == r)
  {
    var s := After(acts);
    DirectoryConsistent(s.directory);
    if a.InRoom? {
      assert Tracks(s, a.room);
      hide Possible, After, DirectoryReached, Inv, WellFormed, Reached, Indexed, Named, Step, D.Step, D.Consistent;
      if !s.rooms[a.room].routerClosed {
        RoomCloses(s.rooms[a.room], a.event);
      } else {
        ClosedForGood(s.rooms[a.room], a.event);
      }
      TakesOut(s.directory, a.room, id);
    } else {
      hide Possible, After, DirectoryReached, Inv, WellFormed;
    }
  }

  lemma TakesOut(d: D.Directory, r: nat, id: D.RoomId)
    requires D.Consistent(d) && r < |d.made| && !d.made[r].died && id in d.rooms
    ensures var d' := D.Step(d, D.CloseRoom(r));
            && (id !in d'.rooms <==> d.rooms[id] == r)
            && (id in d'.rooms ==> d'.rooms[id] == d.rooms[id])
            && (d.rooms[id] == r ==> d.made[r].open)
  {
  }

  lemma ClosedForGood(s: Room, e: Event)
    requires Reached(s) && Indexed(s) && Named(s) && Enabled(s, e) && s.routerClosed && ClosedWhenLeft(s)
    requires !e.Add?
    ensures Step(s, e).closings == s.closings
  {
    hide Reached;
    RoomStep(s, e);
    hide Indexed, Named, Step, Enabled;
  }

  /** When a step of an open room closes it. */
  lemma RoomCloses(s: Room, e: Event)
    requires Reached(s) && Indexed(s) && Named(s) && Enabled(s, e) && !s.routerClosed
    ensures Step(s, e).closings != s.closings <==> e.SocketClosed? && T.OnlyId(s.entries, s.clients[e.client].id)
  {
    ReachedIsSound(s);
    hide Reached;
    if e.SocketClosed? {
      T.LastOneOut(s, e.client);
    } else {
      T.RouterStays(s, e);
    }
    hide Coherent, Drained, Indexed, Named, Step;
  }
}
