/**
 One room per room id: `getOrCreateRoom` starts a router at most once at a time, shares it
 with everybody who asks meanwhile, and forgets the room when it closes.
 */
module Rooms {
  type RoomId = string

  datatype Status = Pending | Created(room: nat) | Rejected

  /** A promise in flight or settled; `cleaned` once its `finally` callback has run. */
  datatype Creation = Creation(roomId: RoomId, status: Status, cleaned: bool)

  /** A room and its router; `died` when the router closed behind the room's back. */
  datatype Made = Made(roomId: RoomId, open: bool, died: bool, onClosedCalls: nat)

  datatype Directory = Directory(
    rooms: map<RoomId, nat>,
    creating: map<RoomId, nat>,
    creations: seq<Creation>,
    made: seq<Made>)

  const Empty := Directory(map[], map[], [], [])

  /** What a caller of `getOrCreateRoom` gets: a room, or a promise to share. */
  datatype Answer = Existing(room: nat) | Sharing(creation: nat)

  datatype Event =
    | Request(roomId: RoomId)
    | RouterCreated(creation: nat)
    | RouterRejected(creation: nat)
    | Finally(creation: nat)
    | CloseRoom(room: nat)
    | RouterDied(room: nat)

  predicate Enabled(s: Directory, e: Event) {
    match e
    case Request(_) => true
    case RouterCreated(c) => c < |s.creations| && s.creations[c].status.Pending?
    case RouterRejected(c) => c < |s.creations| && s.creations[c].status.Pending?
    case Finally(c) => c < |s.creations| && !s.creations[c].status.Pending? && !s.creations[c].cleaned
    case CloseRoom(r) => r < |s.made|
    case RouterDied(r) => r < |s.made| && s.made[r].open
  }

  function AnswerTo(s: Directory, id: RoomId): Answer {
    if id in s.rooms then Existing(s.rooms[id])
    else if id in s.creating then Sharing(s.creating[id])
    else Sharing(|s.creations|)
  }

  function Step(s: Directory, e: Event): Directory
    requires Enabled(s, e)
  {
    match e
    case Request(id) =>
      if id in s.rooms || id in s.creating then s
      else s.(creations := s.creations + [Creation(id, Pending, false)],
              creating := s.creating[id := |s.creations|])
    case RouterCreated(c) =>
      var r := |s.made|;
      s.(made := s.made + [Made(s.creations[c].roomId, true, false, 0)],
         rooms := s.rooms[s.creations[c].roomId := r],
         creations := s.creations[c := s.creations[c].(status := Created(r))])
    case RouterRejected(c) =>
      s.(creations := s.creations[c := s.creations[c].(status := Rejected)])
    case Finally(c) =>
      s.(creating := s.creating - {s.creations[c].roomId},
         creations := s.creations[c := s.creations[c].(cleaned := true)])
    case CloseRoom(r) =>
      if !s.made[r].open then s
      else s.(made := s.made[r := s.made[r].(open := false, onClosedCalls := s.made[r].onClosedCalls + 1)],
              rooms := s.rooms - {s.made[r].roomId})
    case RouterDied(r) =>
      s.(made := s.made[r := s.made[r].(open := false, died := true)])
  }

  // ---------- the invariant ----------

  ghost predicate CreationsOk(s: Directory) {
    && (forall id :: id in s.creating ==>
          && s.creating[id] < |s.creations|
          && s.creations[s.creating[id]].roomId == id && !s.creations[s.creating[id]].cleaned)
    && (forall c :: 0 <= c < |s.creations| ==>
          && (!s.creations[c].cleaned ==> s.creations[c].roomId in s.creating && s.creating[s.creations[c].roomId] == c)
          && (s.creations[c].status.Pending? ==> !s.creations[c].cleaned && s.creations[c].roomId !in s.rooms))
  }

  ghost predicate RoomsOk(s: Directory) {
    && (forall id :: id in s.rooms ==>
          && s.rooms[id] < |s.made| && s.made[s.rooms[id]].roomId == id
          && (s.made[s.rooms[id]].open || s.made[s.rooms[id]].died))
    && (forall r :: 0 <= r < |s.made| ==>
          && (s.made[r].open || s.made[r].died ==> s.made[r].roomId in s.rooms && s.rooms[s.made[r].roomId] == r)
          && !(s.made[r].open && s.made[r].died)
          && s.made[r].onClosedCalls == if s.made[r].open || s.made[r].died then 0 else 1)
  }

  ghost predicate Consistent(s: Directory) {
    CreationsOk(s) && RoomsOk(s)
  }

  lemma StepCreationsOk(s: Directory, e: Event)
    requires Consistent(s) && Enabled(s, e)
    ensures CreationsOk(Step(s, e))
  {
  }

  lemma StepRoomsOk(s: Directory, e: Event)
    requires Consistent(s) && Enabled(s, e)
    ensures RoomsOk(Step(s, e))
  {
    if e.RouterCreated? {
      assert CreationsOk(s);
    } else {
      hide CreationsOk;
    }
  }

  lemma StepConsistent(s: Directory, e: Event)
    requires Consistent(s) && Enabled(s, e)
    ensures Consistent(Step(s, e))
  {
    hide CreationsOk, RoomsOk;
    StepCreationsOk(s, e);
    StepRoomsOk(s, e);
  }

  // ---------- runs ----------

  ghost predicate Possible(es: seq<Event>)
    decreases |es|, 0
  {
    es == [] || (Possible(es[..|es| - 1]) && Enabled(After(es[..|es| - 1]), es[|es| - 1]))
  }

  ghost function After(es: seq<Event>): Directory
    requires Possible(es)
    decreases |es|, 1
  {
    if es == [] then Empty else Step(After(es[..|es| - 1]), es[|es| - 1])
  }

  lemma {:induction false} RunConsistent(es: seq<Event>)
    requires Possible(es)
    ensures Consistent(After(es))
    decreases |es|
  {
    if es != [] {
      RunConsistent(es[..|es| - 1]);
      StepConsistent(After(es[..|es| - 1]), es[|es| - 1]);
      hide Consistent, Step;
    }
  }

  /** Something of this id that is being created or open: a promise or a room. */
  datatype Flight = Promise(creation: nat) | Router(room: nat)

  predicate InFlight(s: Directory, id: RoomId, f: Flight) {
    match f
    case Promise(c) => c < |s.creations| && s.creations[c].roomId == id && s.creations[c].status.Pending?
    case Router(r) => r < |s.made| && s.made[r].roomId == id && s.made[r].open
  }

  /** Single flight: at most one router per room id is being created or open. */
  lemma SingleFlight(es: seq<Event>, id: RoomId, f: Flight, g: Flight)
    requires Possible(es) && InFlight(After(es), id, f) && InFlight(After(es), id, g)
    ensures f == g
  {
    RunConsistent(es);
    hide Possible, After;
  }

  /** A map entry is the room made for that id, and it is open unless its router died alone. */
  lemma EntriesAreOpenRooms(es: seq<Event>, id: RoomId)
    requires Possible(es) && id in After(es).rooms
    ensures var s := After(es);
            && s.rooms[id] < |s.made| && s.made[s.rooms[id]].roomId == id
            && (s.made[s.rooms[id]].open <==> !s.made[s.rooms[id]].died)
    ensures (forall n :: 0 <= n < |es| ==> !es[n].RouterDied?) ==> After(es).made[After(es).rooms[id]].open
  {
    RunConsistent(es);
    if forall n :: 0 <= n < |es| ==> !es[n].RouterDied? {
      NobodyDied(es);
    }
  }

  lemma {:induction false} NobodyDied(es: seq<Event>)
    requires Possible(es) && forall n :: 0 <= n < |es| ==> !es[n].RouterDied?
    ensures forall r :: 0 <= r < |After(es).made| ==> !After(es).made[r].died
    decreases |es|
  {
    if es != [] {
      NobodyDied(es[..|es| - 1]);
    }
  }

  /** `onClosed` runs at most once per room, and exactly when `close` found its router open. */
  lemma OnClosedOnce(es: seq<Event>, r: nat)
    requires Possible(es) && r < |After(es).made|
    ensures After(es).made[r].onClosedCalls <= 1
    ensures After(es).made[r].onClosedCalls == 1 <==> !After(es).made[r].open && !After(es).made[r].died
  {
    RunConsistent(es);
    hide Possible, After;
  }

  /** Closing a room removes its own entry and no other, in particular not a newer room's. */
  lemma CloseRemovesOwnEntry(es: seq<Event>, r: nat)
    requires Possible(es) && r < |After(es).made|
    ensures var s := After(es);
            var s' := Step(s, CloseRoom(r));
            && s'.rooms == (if s.made[r].open then s.rooms - {s.made[r].roomId} else s.rooms)
            && (s.made[r].open ==> s.made[r].roomId in s.rooms && s.rooms[s.made[r].roomId] == r)
            && (forall id :: id in s.rooms && s.rooms[id] != r ==> id in s'.rooms && s'.rooms[id] == s.rooms[id])
  {
    RunConsistent(es);
    hide Possible, After;
  }

  /** Creation `c` is of this id, and its `finally` callback has yet to run. */
  predicate Uncleaned(s: Directory, id: RoomId, c: nat) {
    c < |s.creations| && s.creations[c].roomId == id && !s.creations[c].cleaned
  }

  /** A request starts a new creation if and only if the id has no room and every earlier
      creation of it has been cleaned up. */
  lemma StartsAnewExactly(es: seq<Event>, id: RoomId)
    requires Possible(es)
    ensures var s := After(es);
            var anew := AnswerTo(s, id) == Sharing(|s.creations|);
            && (anew <==> id !in s.rooms && forall c: nat :: !Uncleaned(s, id, c))
            && (anew ==> InFlight(Step(s, Request(id)), id, Promise(|s.creations|)))
            && (!anew ==> Step(s, Request(id)) == s)
  {
    RunConsistent(es);
    hide Possible, After;
    var s := After(es);
    if id in s.creating {
      assert Uncleaned(s, id, s.creating[id]);
    }
  }

  /** A failed creation leaves the id retryable: in every later state its clean-up has run or can
      run at once, and from then on it is no obstacle to a new creation. */
  lemma RejectionIsRetryable(es: seq<Event>, c: nat)
    requires Possible(es) && c < |After(es).creations| && After(es).creations[c].status.Rejected?
    ensures var s := After(es);
            && (s.creations[c].cleaned || Enabled(s, Finally(c)))
            && var s1 := if s.creations[c].cleaned then s else Step(s, Finally(c));
               var id := s.creations[c].roomId;
               && s1.creations[c].cleaned && s1.rooms == s.rooms
               && (id !in s.rooms && (forall d: nat :: d != c ==> !Uncleaned(s, id, d)) ==>
                     && AnswerTo(s1, id) == Sharing(|s1.creations|)
                     && InFlight(Step(s1, Request(id)), id, Promise(|s1.creations|)))
  {
    var s := After(es);
    var id := s.creations[c].roomId;
    if s.creations[c].cleaned {
      StartsAnewExactly(es, id);
    } else {
      var fs := es + [Finally(c)];
      assert fs[..|es|] == es;
      StartsAnewExactly(fs, id);
    }
    hide InFlight, AnswerTo;
  }

  /** Whoever asks while a creation is pending shares it; whoever asks later gets its room. */
  lemma RequestsShare(es: seq<Event>, c: nat)
    requires Possible(es) && Enabled(After(es), RouterCreated(c))
    ensures var s := After(es);
            var id := s.creations[c].roomId;
            && AnswerTo(s, id) == Sharing(c) && Step(s, Request(id)) == s
            && var s1 := Step(s, RouterCreated(c));
               && AnswerTo(s1, id) == Existing(|s.made|) && InFlight(s1, id, Router(|s.made|))
               && s1.creations[c].status == Created(|s.made|)
  {
    RunConsistent(es);
    hide Possible, After;
  }

  /**
   Nobody is sent to a foreign room.  Over any run, a request for an id that has a map entry is
   answered with exactly that room, which was made for this very id and is open unless its router
   died; any other request is answered with the promise of a creation of this very id that has yet
   to be cleaned up, an old one if there is one and a new one if not.
   */
  lemma AnsweredRightly(es: seq<Event>, id: RoomId)
    requires Possible(es)
    ensures var s, a := After(es), AnswerTo(After(es), id);
            && (a.Existing? <==> id in s.rooms)
            && (a.Existing? ==>
                  && a.room == s.rooms[id] && a.room < |s.made| && s.made[a.room].roomId == id
                  && (s.made[a.room].open || s.made[a.room].died))
            && (a.Sharing? ==>
                  var s' := Step(s, Request(id));
                  && a.creation < |s'.creations| && s'.creations[a.creation].roomId == id
                  && !s'.creations[a.creation].cleaned
                  && (a.creation < |s.creations| <==> exists c: nat :: Uncleaned(s, id, c)))
  {
    RunConsistent(es);
    hide Possible, After;
    var s := After(es);
    if id !in s.rooms && id in s.creating {
      assert Uncleaned(s, id, s.creating[id]);
    }
  }

  /** A room goes on being the answer to its id for as long as it is open, and a creation for as
      long as it is pending, whatever else happens; the room a creation resolved to is of its id. */
  lemma SharedThroughout(es: seq<Event>, id: RoomId)
    requires Possible(es)
    ensures var s := After(es);
            && (forall r :: 0 <= r < |s.made| && s.made[r].open && s.made[r].roomId == id ==>
                  AnswerTo(s, id) == Existing(r))
            && (forall c :: 0 <= c < |s.creations| && s.creations[c].status.Pending? && s.creations[c].roomId == id ==>
                  AnswerTo(s, id) == Sharing(c))
            && (forall c :: 0 <= c < |s.creations| && s.creations[c].status.Created? ==>
                  && s.creations[c].status.room < |s.made|
                  && s.made[s.creations[c].status.room].roomId == s.creations[c].roomId)
  {
    RunConsistent(es);
    RunResolved(es);
    hide Possible, After;
  }

  /** So whoever asks while a creation is pending, and whoever asks at any time afterwards, as long
      as its room is open, gets that one room. */
  lemma RequestsShareEverAfter(es: seq<Event>, c: nat, more: seq<Event>)
    requires Possible(es) && Enabled(After(es), RouterCreated(c))
    requires Possible(es + [RouterCreated(c)]) && Possible(es + [RouterCreated(c)] + more)
    ensures var s, t := After(es), After(es + [RouterCreated(c)] + more);
            var id, r := s.creations[c].roomId, |s.made|;
            && AnswerTo(s, id) == Sharing(c)
            && r < |t.made| && t.made[r].roomId == id
            && (t.made[r].open ==> AnswerTo(t, id) == Existing(r))
  {
    RequestsShare(es, c);
    var fs := es + [RouterCreated(c)];
    assert fs[..|es|] == es;
    MadeStays(fs, more, |After(es).made|);
    SharedThroughout(fs + more, After(es).creations[c].roomId);
  }

  lemma {:induction false} MadeStays(es: seq<Event>, more: seq<Event>, r: nat)
    requires Possible(es) && Possible(es + more) && r < |After(es).made|
    ensures r < |After(es + more).made| && After(es + more).made[r].roomId == After(es).made[r].roomId
    decreases |more|
  {
    if more == [] {
      assert es + more == es;
    } else {
      assert (es + more)[..|es + more| - 1] == es + more[..|more| - 1];
      MadeStays(es, more[..|more| - 1], r);
    }
  }

  ghost predicate Resolved(s: Directory) {
    forall c :: 0 <= c < |s.creations| && s.creations[c].status.Created? ==>
      && s.creations[c].status.room < |s.made|
      && s.made[s.creations[c].status.room].roomId == s.creations[c].roomId
  }

  lemma {:induction false} RunResolved(es: seq<Event>)
    requires Possible(es)
    ensures Resolved(After(es))
    decreases |es|
  {
    if es != [] {
      RunResolved(es[..|es| - 1]);
    }
  }

  // ---------- the object ----------

  class MediasoupRooms {
    var creatingRooms: map<RoomId, nat>
    var rooms: map<RoomId, nat>
    var creations: seq<Creation>
    var made: seq<Made>

    ghost function State(): Directory
      reads this
    {
      Directory(rooms, creatingRooms, creations, made)
    }

    constructor ()
      ensures State() == Empty
    {
      creatingRooms, rooms, creations, made := map[], map[], [], [];
    }

    method GetOrCreateRoom(id: RoomId) returns (a: Answer)
      modifies this
      ensures State() == Step(old(State()), Request(id)) && a == AnswerTo(old(State()), id)
      ensures id in old(rooms) ==> a == Existing(old(rooms)[id]) && State() == old(State())
      ensures id !in old(rooms) && id in old(creatingRooms) ==>
                a == Sharing(old(creatingRooms)[id]) && State() == old(State())
      ensures id !in old(rooms) && id !in old(creatingRooms) ==>
                && a == Sharing(|old(creations)|) && rooms == old(rooms) && made == old(made)
                && creations == old(creations) + [Creation(id, Pending, false)]
                && creatingRooms == old(creatingRooms)[id := |old(creations)|]
    {
      if id in rooms {
        return Existing(rooms[id]);
      }
      if id in creatingRooms {
        return Sharing(creatingRooms[id]);
      }
      var c := |creations|;
      creations := creations + [Creation(id, Pending, false)];
      creatingRooms := creatingRooms[id := c];
      return Sharing(c);
    }

    /** The `then` callback of a creation. */
    method OnRouter(c: nat) returns (room: nat)
      requires Enabled(State(), RouterCreated(c))
      modifies this
      ensures State() == Step(old(State()), RouterCreated(c)) && room == |old(made)|
    {
      room := |made|;
      made := made + [Made(creations[c].roomId, true, false, 0)];
      rooms := rooms[creations[c].roomId := room];
      creations := creations[c := creations[c].(status := Created(room))];
    }

    /** The `finally` callback of a creation. */
    method OnSettled(c: nat)
      requires Enabled(State(), Finally(c))
      modifies this
      ensures State() == Step(old(State()), Finally(c))
    {
      creatingRooms := creatingRooms - {creations[c].roomId};
      creations := creations[c := creations[c].(cleaned := true)];
    }

    /** `Room.close` together with the `onClosed` it calls. */
    method Close(r: nat)
      requires r < |made|
      modifies this
      ensures State() == Step(old(State()), CloseRoom(r))
    {
      if !made[r].open {
        return;
      }
      made := made[r := made[r].(open := false, onClosedCalls := made[r].onClosedCalls + 1)];
      rooms := rooms - {made[r].roomId};
    }
  }
}
