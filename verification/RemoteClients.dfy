/**
 What a browser shows of the other clients: an insertion-ordered map of media streams, and
 the entries of the store that name the tracks in them.  The two are updated by separate
 calls of the same two callbacks and have to stay in step.
 */
module RemoteClients {
  import opened Base

  type TrackId = nat

  datatype Track = Track(id: TrackId, kind: Kind)

  /** An entry of the store. */
  datatype RemoteClient = RemoteClient(
    clientId: ClientId,
    userId: Option<string>,
    audioTrackId: Option<TrackId>,
    videoTrackId: Option<TrackId>)
  {
    function Named(kind: Kind): Option<TrackId> {
      if kind.Audio? then audioTrackId else videoTrackId
    }
  }

  /** An entry of `remoteClientInfo`. */
  datatype Stream = Stream(clientId: ClientId, userId: Option<string>, tracks: seq<Track>)

  datatype Screen = Screen(store: seq<RemoteClient>, info: seq<Stream>)

  const Blank := Screen([], [])

  // ---------- the reducers ----------

  /** The first position of a key, or the number of keys. */
  function Find<K(==)>(keys: seq<K>, key: K): (r: nat)
    ensures r <= |keys|
    ensures r < |keys| ==> keys[r] == key
    ensures forall j :: 0 <= j < r ==> keys[j] != key
  {
    if keys == [] || keys[0] == key then 0 else 1 + Find(keys[1..], key)
  }

  function Ids(store: seq<RemoteClient>): (r: seq<ClientId>)
    ensures |r| == |store|
    ensures forall i :: 0 <= i < |store| ==> r[i] == store[i].clientId
  {
    seq(|store|, i requires 0 <= i < |store| => store[i].clientId)
  }

  function FindClient(store: seq<RemoteClient>, id: ClientId): (r: nat)
    ensures r <= |store|
    ensures r < |store| ==> store[r].clientId == id
    ensures forall j :: 0 <= j < r ==> store[j].clientId != id
  {
    var r := Find(Ids(store), id);
    assert forall j :: 0 <= j < r ==> store[j].clientId == Ids(store)[j];
    r
  }

  function AddClient(store: seq<RemoteClient>, c: RemoteClient): seq<RemoteClient> {
    if FindClient(store, c.clientId) < |store| then store else store + [c]
  }

  function RemoveClient(store: seq<RemoteClient>, id: ClientId): seq<RemoteClient> {
    if store == [] then []
    else (if store[0].clientId != id then [store[0]] else []) + RemoveClient(store[1..], id)
  }

  /** `setAudioTrackId` and `setVideoTrackId`. */
  function SetTrackId(store: seq<RemoteClient>, id: ClientId, kind: Kind, t: Option<TrackId>): seq<RemoteClient> {
    var i := FindClient(store, id);
    if i == |store| then store
    else if kind.Audio? then store[i := store[i].(audioTrackId := t)]
    else store[i := store[i].(videoTrackId := t)]
  }

  // ---------- streams ----------

  function Keys(info: seq<Stream>): (r: seq<ClientId>)
    ensures |r| == |info|
    ensures forall i :: 0 <= i < |info| ==> r[i] == info[i].clientId
  {
    seq(|info|, i requires 0 <= i < |info| => info[i].clientId)
  }

  function FindStream(info: seq<Stream>, id: ClientId): (r: nat)
    ensures r <= |info|
    ensures r < |info| ==> info[r].clientId == id
    ensures forall j :: 0 <= j < r ==> info[j].clientId != id
  {
    var r := Find(Keys(info), id);
    assert forall j :: 0 <= j < r ==> info[j].clientId == Keys(info)[j];
    r
  }

  function TrackIds(tracks: seq<Track>): (r: seq<TrackId>)
    ensures |r| == |tracks|
    ensures forall i :: 0 <= i < |tracks| ==> r[i] == tracks[i].id
  {
    seq(|tracks|, i requires 0 <= i < |tracks| => tracks[i].id)
  }

  function FindTrack(tracks: seq<Track>, id: TrackId): (r: nat)
    ensures r <= |tracks|
    ensures r < |tracks| ==> tracks[r].id == id
    ensures forall j :: 0 <= j < r ==> tracks[j].id != id
  {
    var r := Find(TrackIds(tracks), id);
    assert forall j :: 0 <= j < r ==> tracks[j].id == TrackIds(tracks)[j];
    r
  }

  /** `MediaStream.addTrack`: a track already in the stream is not added again. */
  function AddTrack(tracks: seq<Track>, t: Track): seq<Track> {
    if FindTrack(tracks, t.id) < |tracks| then tracks else tracks + [t]
  }

  function Cut<T>(s: seq<T>, i: nat): seq<T>
    requires i < |s|
  {
    s[..i] + s[i + 1..]
  }

  // ---------- the callbacks ----------

  function WithStream(info: seq<Stream>, c: ClientId, user: Option<string>): (r: seq<Stream>)
    ensures FindStream(r, c) < |r|
  {
    var r := if FindStream(info, c) < |info| then info else info + [Stream(c, user, [])];
    assert FindStream(info, c) == |info| ==> r[|info|].clientId == c;
    r
  }

  /** `addedMediaConsumer`. */
  function Added(s: Screen, c: ClientId, user: Option<string>, t: Track): Screen {
    var info := WithStream(s.info, c, user);
    var i := FindStream(info, c);
    Screen(SetTrackId(AddClient(s.store, RemoteClient(c, user, None, None)), c, t.kind, Some(t.id)),
           info[i := info[i].(tracks := AddTrack(info[i].tracks, t))])
  }

  /** `removedMediaConsumer` over what is left of its snapshot of the map: the first stream
      that keeps another track ends the loop, a stream that becomes empty does not. */
  function RemovedFrom(s: Screen, snapshot: seq<ClientId>, id: TrackId): Screen
    decreases |snapshot|
  {
    if snapshot == [] then s
    else
      var c := snapshot[0];
      var i := FindStream(s.info, c);
      if i == |s.info| || FindTrack(s.info[i].tracks, id) == |s.info[i].tracks| then RemovedFrom(s, snapshot[1..], id)
      else
        var j := FindTrack(s.info[i].tracks, id);
        var store := SetTrackId(s.store, c, s.info[i].tracks[j].kind, None);
        var tracks := Cut(s.info[i].tracks, j);
        if tracks != [] then Screen(store, s.info[i := s.info[i].(tracks := tracks)])
        else RemovedFrom(Screen(RemoveClient(store, c), Cut(s.info, i)), snapshot[1..], id)
  }

  function Removed(s: Screen, id: TrackId): Screen {
    RemovedFrom(s, Keys(s.info), id)
  }

  // ---------- the invariant ----------

  ghost predicate Distinct(info: seq<Stream>) {
    forall i, j | 0 <= i < j < |info| :: info[i].clientId != info[j].clientId
  }

  ghost predicate TracksOk(tracks: seq<Track>) {
    && tracks != []
    && forall i, j | 0 <= i < j < |tracks| :: tracks[i].id != tracks[j].id
  }

  /** Every track id in a store entry is that of a track of its kind in the stream. */
  ghost predicate NamesTracks(c: RemoteClient, tracks: seq<Track>) {
    forall kind: Kind :: c.Named(kind).Some? ==> Track(c.Named(kind).value, kind) in tracks
  }

  /** Same clients in the same order, no stream empty, and the store names tracks that are there. */
  ghost predicate Agree(s: Screen) {
    && |s.store| == |s.info|
    && (forall i :: 0 <= i < |s.store| ==> s.store[i].clientId == s.info[i].clientId)
    && Distinct(s.info)
    && (forall i :: 0 <= i < |s.info| ==> TracksOk(s.info[i].tracks))
    && (forall i :: 0 <= i < |s.info| ==> NamesTracks(s.store[i], s.info[i].tracks))
  }

  /** Client `c` is shown with track `t`. */
  ghost predicate Shows(s: Screen, c: ClientId, t: Track) {
    Listed(s.info, c, t)
  }

  ghost predicate Listed(info: seq<Stream>, c: ClientId, t: Track) {
    exists i :: 0 <= i < |info| && info[i].clientId == c && t in info[i].tracks
  }

  /** A track has one kind for life. */
  ghost predicate Genuine(s: Screen, t: Track) {
    forall c, u :: Shows(s, c, u) && u.id == t.id ==> u == t
  }

  lemma SameIndex(s: Screen, c: ClientId)
    requires Agree(s)
    ensures FindClient(s.store, c) == FindStream(s.info, c)
  {
    var i, j := FindClient(s.store, c), FindStream(s.info, c);
    assert i < |s.store| ==> s.info[i].clientId == c;
    assert j < |s.info| ==> s.store[j].clientId == c;
  }

  lemma {:induction false} RemoveIsCut(store: seq<RemoteClient>, id: ClientId)
    requires forall i, j | 0 <= i < j < |store| :: store[i].clientId != store[j].clientId
    ensures var i := FindClient(store, id);
            RemoveClient(store, id) == if i < |store| then Cut(store, i) else store
  {
    hide FindClient;
    if store != [] {
      var tail := store[1..];
      RemoveIsCut(tail, id);
      var i, j := FindClient(store, id), FindClient(tail, id);
      if store[0].clientId == id {
        assert i == 0;
        assert forall k :: 0 <= k < |tail| ==> tail[k] == store[k + 1];
        assert forall k :: 0 <= k < |tail| ==> tail[k].clientId != id;
        assert j == |tail|;
        assert Cut(store, 0) == tail;
      } else {
        assert j < |tail| ==> tail[j] == store[j + 1];
        assert i > 0 && (i < |store| ==> tail[i - 1] == store[i]);
        assert i == j + 1;
        assert i < |store| ==> Cut(store, i) == [store[0]] + Cut(tail, j);
        assert [store[0]] + tail == store;
      }
    }
  }

  lemma AddTrackOk(tracks: seq<Track>, t: Track)
    requires tracks == [] || TracksOk(tracks)
    requires forall u :: u in tracks && u.id == t.id ==> u == t
    ensures TracksOk(AddTrack(tracks, t))
    ensures forall u :: u in AddTrack(tracks, t) <==> u in tracks || u == t
  {
    var j := FindTrack(tracks, t.id);
    assert j < |tracks| ==> tracks[j] in tracks;
  }

  /** Where `Added` puts things, with the two lookups resolved. */
  lemma AddedShape(s: Screen, c: ClientId, user: Option<string>, t: Track)
    requires Agree(s)
    ensures var i := FindStream(s.info, c);
            var s' := Added(s, c, user, t);
            && |s'.info| == |s'.store| == (if i < |s.info| then |s.info| else |s.info| + 1)
            && (forall j :: 0 <= j < |s.info| && j != i ==> s'.info[j] == s.info[j] && s'.store[j] == s.store[j])
            && s'.info[i].clientId == c && s'.store[i].clientId == c
            && s'.info[i].tracks == AddTrack(if i < |s.info| then s.info[i].tracks else [], t)
            && s'.store[i].Named(t.kind) == Some(t.id)
            && (forall kind :: kind != t.kind ==>
                  s'.store[i].Named(kind) == if i < |s.info| then s.store[i].Named(kind) else None)
  {
    var i := FindStream(s.info, c);
    SameIndex(s, c);
    var info := WithStream(s.info, c, user);
    var store := AddClient(s.store, RemoteClient(c, user, None, None));
    assert FindStream(info, c) == i by {
      var k := FindStream(info, c);
      if i < |s.info| {
      } else {
        assert forall j :: 0 <= j < i ==> info[j] == s.info[j];
        assert info[i].clientId == c;
      }
    }
    assert FindClient(store, c) == i by {
      var k := FindClient(store, c);
      if i < |s.info| {
      } else {
        assert forall j :: 0 <= j < i ==> store[j] == s.store[j];
        assert store[i].clientId == c;
      }
    }
  }

  lemma AddedAgrees(s: Screen, c: ClientId, user: Option<string>, t: Track)
    requires Agree(s) && Genuine(s, t)
    ensures Agree(Added(s, c, user, t))
  {
    hide Added, AddTrack, FindStream;
    AddedShape(s, c, user, t);
    var i := FindStream(s.info, c);
    var was := if i < |s.info| then s.info[i].tracks else [];
    assert forall u :: u in was ==> Shows(s, c, u);
    AddTrackOk(was, t);
    var s' := Added(s, c, user, t);
    hide Genuine, Shows;
    assert Distinct(s'.info) by { hide TracksOk, NamesTracks; }
    hide Distinct;
    assert NamesTracks(s'.store[i], s'.info[i].tracks) by {
      hide TracksOk;
      if i < |s.info| {
        assert NamesTracks(s.store[i], s.info[i].tracks);
      }
    }
    hide NamesTracks, TracksOk;
  }

  /** `addedMediaConsumer` shows the new track and changes nothing else that is shown. */
  lemma AddedShows(s: Screen, c: ClientId, user: Option<string>, t: Track, c': ClientId, u: Track)
    requires Agree(s) && Genuine(s, t)
    ensures Shows(Added(s, c, user, t), c', u) <==> Shows(s, c', u) || (c' == c && u == t)
  {
    hide Added, AddTrack;
    AddedShape(s, c, user, t);
    var i := FindStream(s.info, c);
    var was := if i < |s.info| then s.info[i].tracks else [];
    assert forall v :: v in was ==> Shows(s, c, v);
    AddTrackOk(was, t);
    var s' := Added(s, c, user, t);
    if Shows(s, c', u) {
      var j :| 0 <= j < |s.info| && s.info[j].clientId == c' && u in s.info[j].tracks;
      assert s'.info[j].clientId == c' && u in s'.info[j].tracks;
    }
    if c' == c && u == t {
      assert u in s'.info[i].tracks;
    }
  }

  // ---------- removing ----------

  /** No track is in two streams. */
  ghost predicate OncePlaced(s: Screen) {
    forall i, j, t, u | 0 <= i < j < |s.info| && t in s.info[i].tracks && u in s.info[j].tracks :: t.id != u.id
  }

  /** What one iteration that finds the track leaves behind. */
  function TakeOut(s: Screen, i: nat, j: nat): Screen
    requires i < |s.info| == |s.store| && j < |s.info[i].tracks|
  {
    var tracks := Cut(s.info[i].tracks, j);
    var entry := if s.info[i].tracks[j].kind.Audio? then s.store[i].(audioTrackId := None)
        else s.store[i].(videoTrackId := None);
    if tracks != [] then Screen(s.store[i := entry], s.info[i := s.info[i].(tracks := tracks)])
    else Screen(Cut(s.store, i), Cut(s.info, i))
  }

  lemma CutTracks(tracks: seq<Track>, j: nat)
    requires TracksOk(tracks) && j < |tracks|
    ensures forall u :: u in Cut(tracks, j) <==> u in tracks && u != tracks[j]
    ensures Cut(tracks, j) == [] || TracksOk(Cut(tracks, j))
  {
    var rest := Cut(tracks, j);
    forall u | u in tracks && u != tracks[j] ensures u in rest {
      var k :| 0 <= k < |tracks| && tracks[k] == u;
      assert rest[if k < j then k else k - 1] == u;
    }
  }

  lemma TakeOutAgrees(s: Screen, i: nat, j: nat)
    requires Agree(s) && i < |s.info| && j < |s.info[i].tracks|
    ensures Agree(TakeOut(s, i, j))
  {
    var was := s.info[i].tracks;
    var tracks := Cut(was, j);
    assert NamesTracks(s.store[i], was);
    CutTracks(was, j);
    hide TracksOk;
    var s' := TakeOut(s, i, j);
    if tracks != [] {
      hide Cut;
      assert forall kind: Kind :: kind != was[j].kind ==> s'.store[i].Named(kind) == s.store[i].Named(kind);
      assert s'.store[i].Named(was[j].kind).None?;
      assert NamesTracks(s'.store[i], tracks);
    } else {
      assert forall k :: 0 <= k < |s'.info| ==> s'.info[k] == s.info[if k < i then k else k + 1];
      assert forall k :: 0 <= k < |s'.info| ==> s'.store[k] == s.store[if k < i then k else k + 1];
    }
  }

  /** One iteration of the loop is `TakeOut` and goes on exactly if the stream got empty. */
  lemma RemovedStep(s: Screen, snapshot: seq<ClientId>, id: TrackId)
    requires Agree(s) && snapshot != []
    ensures var i := FindStream(s.info, snapshot[0]);
            RemovedFrom(s, snapshot, id) ==
            if i == |s.info| then RemovedFrom(s, snapshot[1..], id)
            else
              var j := FindTrack(s.info[i].tracks, id);
              if j == |s.info[i].tracks| then RemovedFrom(s, snapshot[1..], id)
              else if 1 < |s.info[i].tracks| then TakeOut(s, i, j)
              else RemovedFrom(TakeOut(s, i, j), snapshot[1..], id)
  {
    var i := FindStream(s.info, snapshot[0]);
    if i < |s.info| && FindTrack(s.info[i].tracks, id) < |s.info[i].tracks| {
      TakeOutIs(s, i, FindTrack(s.info[i].tracks, id));
      hide Agree, TakeOut, SetTrackId, RemoveClient, Cut;
    }
  }

  lemma TakeOutIs(s: Screen, i: nat, j: nat)
    requires Agree(s) && i < |s.info| && j < |s.info[i].tracks|
    ensures var store := SetTrackId(s.store, s.info[i].clientId, s.info[i].tracks[j].kind, None);
            var tracks := Cut(s.info[i].tracks, j);
            TakeOut(s, i, j) ==
            if tracks != [] then Screen(store, s.info[i := s.info[i].(tracks := tracks)])
            else Screen(RemoveClient(store, s.info[i].clientId), Cut(s.info, i))
  {
    var c := s.info[i].clientId;
    SameIndex(s, c);
    assert FindStream(s.info, c) == i;
    var store := SetTrackId(s.store, c, s.info[i].tracks[j].kind, None);
    assert forall k :: 0 <= k < |store| ==> store[k].clientId == s.store[k].clientId;
    hide NamesTracks, TracksOk;
    assert FindClient(store, c) == i;
    RemoveIsCut(store, c);
    assert Cut(store, i) == Cut(s.store, i);
  }

  lemma {:induction false} RemovedAgrees(s: Screen, snapshot: seq<ClientId>, id: TrackId)
    requires Agree(s)
    ensures Agree(RemovedFrom(s, snapshot, id))
    decreases |snapshot|
  {
    if snapshot != [] {
      RemovedStep(s, snapshot, id);
      var i := FindStream(s.info, snapshot[0]);
      hide RemovedFrom, TakeOut;
      if i == |s.info| || FindTrack(s.info[i].tracks, id) == |s.info[i].tracks| {
        RemovedAgrees(s, snapshot[1..], id);
      } else {
        var j := FindTrack(s.info[i].tracks, id);
        TakeOutAgrees(s, i, j);
        RemovedAgrees(TakeOut(s, i, j), snapshot[1..], id);
      }
    }
  }

  lemma TakeOutShows(s: Screen, i: nat, j: nat, c: ClientId, u: Track)
    requires Agree(s) && i < |s.info| && j < |s.info[i].tracks|
    ensures Shows(TakeOut(s, i, j), c, u) <==> Shows(s, c, u) && !(c == s.info[i].clientId && u == s.info[i].tracks[j])
  {
    var was := s.info[i].tracks;
    var tracks := Cut(was, j);
    var s' := TakeOut(s, i, j);
    CutTracks(was, j);
    hide TracksOk, NamesTracks;
    if tracks != [] {
      hide Cut;
      assert s'.info == s.info[i := s.info[i].(tracks := tracks)];
      hide TakeOut;
      OneStreamShows(s.info, i, tracks, c, u);
    } else {
      assert was == [was[j]] by { assert was[j] in was; hide TakeOut; }
      assert s'.info == Cut(s.info, i);
      hide TakeOut;
      CutShows(s.info, i, c, u);
    }
  }

  lemma OneStreamShows(info: seq<Stream>, i: nat, tracks: seq<Track>, c: ClientId, u: Track)
    requires Distinct(info) && i < |info|
    ensures Listed(info[i := info[i].(tracks := tracks)], c, u)
       <==> if c == info[i].clientId then u in tracks else Listed(info, c, u)
  {
    var info' := info[i := info[i].(tracks := tracks)];
    if Listed(info', c, u) {
      var k :| 0 <= k < |info'| && info'[k].clientId == c && u in info'[k].tracks;
      assert k != i ==> info[k] == info'[k];
    }
    if c == info[i].clientId && u in tracks {
      assert info'[i].clientId == c && u in info'[i].tracks;
    }
    if c != info[i].clientId && Listed(info, c, u) {
      var k :| 0 <= k < |info| && info[k].clientId == c && u in info[k].tracks;
      assert info'[k] == info[k];
    }
  }

  lemma CutShows(info: seq<Stream>, i: nat, c: ClientId, u: Track)
    requires Distinct(info) && i < |info|
    ensures Listed(Cut(info, i), c, u) <==> c != info[i].clientId && Listed(info, c, u)
  {
    var info' := Cut(info, i);
    if Listed(info', c, u) {
      var k :| 0 <= k < |info'| && info'[k].clientId == c && u in info'[k].tracks;
      assert info[if k < i then k else k + 1] == info'[k];
    }
    if c != info[i].clientId && Listed(info, c, u) {
      var k :| 0 <= k < |info| && info[k].clientId == c && u in info[k].tracks;
      assert info'[if k < i then k else k - 1] == info[k];
    }
  }

  ghost predicate Absent(s: Screen, id: TrackId) {
    forall c, u :: Shows(s, c, u) ==> u.id != id
  }

  lemma {:induction false} RemovedNothing(s: Screen, snapshot: seq<ClientId>, id: TrackId)
    requires Absent(s, id)
    ensures RemovedFrom(s, snapshot, id) == s
    decreases |snapshot|
  {
    if snapshot != [] {
      var i := FindStream(s.info, snapshot[0]);
      if i < |s.info| {
        var j := FindTrack(s.info[i].tracks, id);
        assert j < |s.info[i].tracks| ==> Shows(s, s.info[i].clientId, s.info[i].tracks[j]);
      }
      RemovedNothing(s, snapshot[1..], id);
    }
  }

  /** If the track is in one stream only, the loop takes it out of that stream and stops mattering. */
  lemma {:induction false} RemovedIsTakeOut(s: Screen, snapshot: seq<ClientId>, i: nat, j: nat)
    requires Agree(s) && OncePlaced(s) && i < |s.info| && j < |s.info[i].tracks| && s.info[i].clientId in snapshot
    ensures RemovedFrom(s, snapshot, s.info[i].tracks[j].id) == TakeOut(s, i, j)
    decreases |snapshot|
  {
    var t := s.info[i].tracks[j];
    RemovedStep(s, snapshot, t.id);
    var k := FindStream(s.info, snapshot[0]);
    if k < |s.info| && FindTrack(s.info[k].tracks, t.id) < |s.info[k].tracks| {
      assert k == i && FindTrack(s.info[k].tracks, t.id) == j by {
        var l := FindTrack(s.info[k].tracks, t.id);
        assert s.info[k].tracks[l] in s.info[k].tracks && t in s.info[i].tracks;
        assert TracksOk(s.info[i].tracks);
      }
      assert Absent(TakeOut(s, i, j), t.id) by {
        forall c, u | Shows(TakeOut(s, i, j), c, u) ensures u.id != t.id {
          TakeOutShows(s, i, j, c, u);
          OnlyHere(s, i, j, c, u);
        }
      }
      hide Absent, TakeOut;
      RemovedNothing(TakeOut(s, i, j), snapshot[1..], t.id);
    } else {
      assert snapshot[0] != s.info[i].clientId;
      RemovedIsTakeOut(s, snapshot[1..], i, j);
    }
  }

  lemma OnlyHere(s: Screen, i: nat, j: nat, c: ClientId, u: Track)
    requires Agree(s) && OncePlaced(s) && i < |s.info| && j < |s.info[i].tracks| && Shows(s, c, u)
    ensures u.id == s.info[i].tracks[j].id ==> c == s.info[i].clientId && u == s.info[i].tracks[j]
  {
    var k :| 0 <= k < |s.info| && s.info[k].clientId == c && u in s.info[k].tracks;
    assert s.info[i].tracks[j] in s.info[i].tracks;
    assert TracksOk(s.info[k].tracks);
  }

  /** Where a track that is shown is found. */
  lemma Locate(s: Screen, id: TrackId) returns (i: nat, j: nat)
    requires !Absent(s, id)
    ensures i < |s.info| && j < |s.info[i].tracks| && s.info[i].tracks[j].id == id
    ensures s.info[i].clientId in Keys(s.info)
  {
    var c, t :| Shows(s, c, t) && t.id == id;
    i :| 0 <= i < |s.info| && s.info[i].clientId == c && t in s.info[i].tracks;
    j :| 0 <= j < |s.info[i].tracks| && s.info[i].tracks[j] == t;
    assert Keys(s.info)[i] in Keys(s.info);
  }

  /** `removedMediaConsumer` takes that track off the screen and nothing else. */
  lemma RemovedShows(s: Screen, id: TrackId, c: ClientId, u: Track)
    requires Agree(s) && OncePlaced(s)
    ensures Shows(Removed(s, id), c, u) <==> Shows(s, c, u) && u.id != id
  {
    if Absent(s, id) {
      RemovedNothing(s, Keys(s.info), id);
    } else {
      var i, j := Locate(s, id);
      RemovedIsTakeOut(s, Keys(s.info), i, j);
      TakeOutShows(s, i, j, c, u);
      if Shows(s, c, u) {
        OnlyHere(s, i, j, c, u);
      }
    }
  }

  // ---------- when the store names every track ----------

  /** Does the stream have a track of this kind? */
  ghost predicate Carries(tracks: seq<Track>, kind: Kind) {
    exists t :: t in tracks && t.kind == kind
  }

  /** The store names a track of a kind exactly where the stream has one. */
  ghost predicate Exact(s: Screen) {
    && |s.store| == |s.info|
    && forall i, kind: Kind | 0 <= i < |s.info| :: s.store[i].Named(kind).Some? <==> Carries(s.info[i].tracks, kind)
  }

  /** The track with this id is not the only one of its kind in its stream. */
  ghost predicate HasTwin(s: Screen, id: TrackId) {
    exists i, t, u :: 0 <= i < |s.info| && t in s.info[i].tracks && u in s.info[i].tracks && t.id == id
        && u.id != id && t.kind == u.kind
  }

  lemma AddedExact(s: Screen, c: ClientId, user: Option<string>, t: Track)
    requires Agree(s) && Genuine(s, t) && Exact(s)
    ensures Exact(Added(s, c, user, t))
  {
    AddedShape(s, c, user, t);
    var i := FindStream(s.info, c);
    var was := if i < |s.info| then s.info[i].tracks else [];
    assert forall v :: v in was ==> Shows(s, c, v);
    AddTrackOk(was, t);
    var s' := Added(s, c, user, t);
    hide Added, AddTrack, NamesTracks, TracksOk, Distinct;
    forall k, kind: Kind | 0 <= k < |s'.info|
      ensures s'.store[k].Named(kind).Some? <==> Carries(s'.info[k].tracks, kind)
    {
      if k == i {
        assert Carries(s'.info[i].tracks, kind) <==> Carries(was, kind) || kind == t.kind by {
          if Carries(was, kind) {
            var v :| v in was && v.kind == kind;
            assert v in s'.info[i].tracks;
          }
          assert t in s'.info[i].tracks;
        }
      } else {
        assert s'.store[k] == s.store[k] && s'.info[k] == s.info[k];
      }
    }
  }

  /** Removing a track keeps the store exact if and only if it was the stream's only track of
      its kind: the id is cleared although a second one may still be playing. */
  lemma RemovalIsExactUnlessTwin(s: Screen, id: TrackId)
    requires Agree(s) && OncePlaced(s) && Exact(s)
    ensures Exact(Removed(s, id)) <==> !HasTwin(s, id)
  {
    if Absent(s, id) {
      RemovedNothing(s, Keys(s.info), id);
      AbsentNoTwin(s, id);
    } else {
      var i, j := Locate(s, id);
      RemovedIsTakeOut(s, Keys(s.info), i, j);
      TakeOutExact(s, i, j);
      TwinHere(s, i, j);
      hide Agree, OncePlaced, Exact, HasTwin, Carries, TakeOut, RemovedFrom, Cut, Absent;
    }
  }

  lemma AbsentNoTwin(s: Screen, id: TrackId)
    requires Absent(s, id)
    ensures !HasTwin(s, id)
  {
    if HasTwin(s, id) {
      var i, t, u :| 0 <= i < |s.info| && t in s.info[i].tracks && u in s.info[i].tracks && t.id == id
          && u.id != id && t.kind == u.kind;
      assert Shows(s, s.info[i].clientId, t);
    }
  }

  lemma TwinHere(s: Screen, i: nat, j: nat)
    requires Agree(s) && OncePlaced(s) && i < |s.info| && j < |s.info[i].tracks|
    ensures HasTwin(s, s.info[i].tracks[j].id) <==> Carries(Cut(s.info[i].tracks, j), s.info[i].tracks[j].kind)
  {
    var was := s.info[i].tracks;
    if HasTwin(s, was[j].id) {
      TwinPlace(s, i, j);
    }
    assert TracksOk(was);
    CutTracks(was, j);
    hide Cut, Agree, TracksOk, OncePlaced;
    assert was[j] in was;
    if Carries(Cut(was, j), was[j].kind) {
      var u :| u in Cut(was, j) && u.kind == was[j].kind;
      if u.id == was[j].id {
        SameTrack(was, u, j);
      }
    }
  }

  lemma SameTrack(tracks: seq<Track>, u: Track, j: nat)
    requires TracksOk(tracks) && u in tracks && j < |tracks| && u.id == tracks[j].id
    ensures u == tracks[j]
  {
  }

  lemma TwinPlace(s: Screen, i: nat, j: nat)
    requires Agree(s) && OncePlaced(s) && i < |s.info| && j < |s.info[i].tracks| && HasTwin(s, s.info[i].tracks[j].id)
    ensures exists u :: u in s.info[i].tracks && u.id != s.info[i].tracks[j].id && u.kind == s.info[i].tracks[j].kind
  {
    var t0 := s.info[i].tracks[j];
    var k, t, u :| 0 <= k < |s.info| && t in s.info[k].tracks && u in s.info[k].tracks && t.id == t0.id
        && u.id != t0.id && t.kind == u.kind;
    assert Distinct(s.info) && t0 in s.info[i].tracks;
    OnlyHere(s, i, j, s.info[k].clientId, t) by {
      assert Listed(s.info, s.info[k].clientId, t);
    }
    hide Agree, OncePlaced;
    assert k == i;
  }

  lemma TakeOutExact(s: Screen, i: nat, j: nat)
    requires Agree(s) && Exact(s) && i < |s.info| && j < |s.info[i].tracks|
    ensures Exact(TakeOut(s, i, j)) <==> !Carries(Cut(s.info[i].tracks, j), s.info[i].tracks[j].kind)
  {
    var was := s.info[i].tracks;
    var gone := was[j].kind;
    var tracks := Cut(was, j);
    var s' := TakeOut(s, i, j);
    if tracks == [] {
      assert forall k :: 0 <= k < |s'.info| ==> s'.info[k] == s.info[if k < i then k else k + 1];
      assert forall k :: 0 <= k < |s'.info| ==> s'.store[k] == s.store[if k < i then k else k + 1];
    } else {
      assert s'.store[i].Named(gone).None?;
      forall kind: Kind | kind != gone ensures Carries(tracks, kind) <==> Carries(was, kind) {
        if Carries(was, kind) {
          var u :| u in was && u.kind == kind;
          var l :| 0 <= l < |was| && was[l] == u;
          assert tracks[if l < j then l else l - 1] == u;
        }
      }
      forall k, kind: Kind | 0 <= k < |s'.info| && !(k == i && kind == gone)
        ensures s'.store[k].Named(kind).Some? <==> Carries(s'.info[k].tracks, kind)
      {
        assert s.store[k].Named(kind).Some? <==> Carries(s.info[k].tracks, kind);
      }
      assert s'.info[i].tracks == tracks;
    }
  }

  // ---------- runs ----------

  datatype Event = Add(from: ClientId, user: Option<string>, track: Track) | Remove(trackId: TrackId)

  function Step(s: Screen, e: Event): Screen {
    match e
    case Add(c, user, t) => Added(s, c, user, t)
    case Remove(id) => Removed(s, id)
  }

  /** The screen after a run; `Possible` excludes only a track that changes its kind. */
  ghost predicate Possible(es: seq<Event>)
    decreases |es|
  {
    es == [] ||
    var init := es[..|es| - 1];
    var e := es[|es| - 1];
    Possible(init) && (e.Add? ==> Genuine(After(init), e.track))
  }

  function After(es: seq<Event>): Screen
    decreases |es|
  {
    if es == [] then Blank else Step(After(es[..|es| - 1]), es[|es| - 1])
  }

  /** Store and streams agree after every run. */
  lemma {:induction false} StoreAndStreamsAgree(es: seq<Event>)
    requires Possible(es)
    ensures Agree(After(es))
    decreases |es|
  {
    if es != [] {
      var s := After(es[..|es| - 1]);
      StoreAndStreamsAgree(es[..|es| - 1]);
      match es[|es| - 1] {
        case Add(c, user, t) => AddedAgrees(s, c, user, t);
        case Remove(id) => RemovedAgrees(s, Keys(s.info), id);
      }
    }
  }

  // ---------- users ----------

  /** Entry `i` of the store and of the map of streams are of this user. */
  predicate OfUser(s: Screen, i: nat, c: ClientId, user: Option<string>) {
    && i < |s.store| && i < |s.info| && s.store[i].clientId == s.info[i].clientId == c
    && s.store[i].userId == s.info[i].userId == user
  }

  /** A client keeps its user, in the store and in its stream; a new one gets the one it comes with. */
  lemma AddedUsers(s: Screen, c: ClientId, user: Option<string>, t: Track, i: nat)
    requires Agree(s)
    ensures i < |s.info| && s.store[i].userId == s.info[i].userId ==>
              OfUser(Added(s, c, user, t), i, s.store[i].clientId, s.store[i].userId)
    ensures FindStream(s.info, c) == |s.info| ==> OfUser(Added(s, c, user, t), |s.info|, c, user)
  {
    SameIndex(s, c);
    AddedShape(s, c, user, t);
    hide NamesTracks, TracksOk, AddTrack;
  }

  /** Entry `i` after is entry `j` before, as far as client and user go. */
  ghost predicate SameUser(s: Screen, j: nat, s': Screen, i: nat) {
    && j < |s.store| && j < |s.info| && i < |s'.store| && i < |s'.info|
    && s'.store[i].clientId == s.store[j].clientId && s'.store[i].userId == s.store[j].userId
    && s'.info[i].clientId == s.info[j].clientId && s'.info[i].userId == s.info[j].userId
  }

  ghost predicate WasThere(s: Screen, s': Screen, i: nat) {
    exists j: nat :: SameUser(s, j, s', i)
  }

  /** Whoever is left after a removal was there before, as the same user. */
  ghost predicate UsersFrom(s: Screen, s': Screen) {
    forall i: nat :: i < |s'.store| ==> WasThere(s, s', i)
  }

  lemma UsersFromTrans(a: Screen, b: Screen, c: Screen)
    requires UsersFrom(a, b) && UsersFrom(b, c)
    ensures UsersFrom(a, c)
  {
    forall i: nat | i < |c.store| ensures WasThere(a, c, i) {
      assert WasThere(b, c, i);
      var k: nat :| SameUser(b, k, c, i);
      assert WasThere(a, b, k);
      var j: nat :| SameUser(a, j, b, k);
      assert SameUser(a, j, c, i);
    }
  }

  lemma TakeOutUsers(s: Screen, i: nat, j: nat)
    requires Agree(s) && i < |s.info| && j < |s.info[i].tracks|
    ensures UsersFrom(s, TakeOut(s, i, j))
  {
    var s' := TakeOut(s, i, j);
    hide Agree;
    forall k: nat | k < |s'.store| ensures WasThere(s, s', k) {
      assert SameUser(s, if |s'.store| == |s.store| || k < i then k else k + 1, s', k);
    }
  }

  lemma {:induction false} RemovedUsers(s: Screen, snapshot: seq<ClientId>, id: TrackId)
    requires Agree(s)
    ensures UsersFrom(s, RemovedFrom(s, snapshot, id))
    decreases |snapshot|
  {
    if snapshot != [] {
      RemovedStep(s, snapshot, id);
      RemovedUsers(s, snapshot[1..], id);
      var i := FindStream(s.info, snapshot[0]);
      if i < |s.info| {
        var j := FindTrack(s.info[i].tracks, id);
        if j < |s.info[i].tracks| {
          TakeOutUsers(s, i, j);
          TakeOutAgrees(s, i, j);
          RemovedUsers(TakeOut(s, i, j), snapshot[1..], id);
          hide Agree, TakeOut, UsersFrom;
          UsersFromTrans(s, TakeOut(s, i, j), RemovedFrom(TakeOut(s, i, j), snapshot[1..], id));
        }
      }
    } else {
      UsersSame(s);
    }
  }

  lemma UsersSame(s: Screen)
    requires |s.store| == |s.info|
    ensures UsersFrom(s, s)
  {
    forall i: nat | i < |s.store| ensures WasThere(s, s, i) {
      assert SameUser(s, i, s, i);
    }
  }

  /** Some track of the client was added as this user's. */
  ghost predicate CameAs(es: seq<Event>, c: ClientId, user: Option<string>) {
    exists a :: 0 <= a < |es| && es[a].Add? && es[a].from == c && es[a].user == user
  }

  lemma CameAsMore(es: seq<Event>, e: Event, c: ClientId, user: Option<string>)
    ensures CameAs(es + [e], c, user) <==> CameAs(es, c, user) || (e.Add? && e.from == c && e.user == user)
  {
    if CameAs(es, c, user) {
      var a :| 0 <= a < |es| && es[a].Add? && es[a].from == c && es[a].user == user;
      assert (es + [e])[a] == es[a];
    }
    assert (es + [e])[|es|] == e;
  }

  ghost predicate UserOk(s: Screen, es: seq<Event>, i: nat) {
    i < |s.store| && OfUser(s, i, s.store[i].clientId, s.store[i].userId)
    && CameAs(es, s.store[i].clientId, s.store[i].userId)
  }

  lemma AddedUserOk(s: Screen, es: seq<Event>, c: ClientId, user: Option<string>, t: Track, i: nat)
    requires Agree(s) && (i < |s.store| ==> UserOk(s, es, i)) && i < |Added(s, c, user, t).store|
    ensures UserOk(Added(s, c, user, t), es + [Add(c, user, t)], i)
  {
    SameIndex(s, c);
    AddedShape(s, c, user, t);
    AddedUsers(s, c, user, t, i);
    hide Added, AddTrack, Agree;
    if i < |s.store| {
      CameAsMore(es, Add(c, user, t), s.store[i].clientId, s.store[i].userId);
    } else {
      CameAsMore(es, Add(c, user, t), c, user);
    }
    hide CameAs;
  }

  lemma LeftUserOk(s: Screen, s': Screen, es: seq<Event>, id: TrackId, i: nat, j: nat)
    requires SameUser(s, j, s', i) && UserOk(s, es, j)
    ensures UserOk(s', es + [Remove(id)], i)
  {
    CameAsMore(es, Remove(id), s.store[j].clientId, s.store[j].userId);
    hide CameAs;
  }

  /** Over any run store and streams agree on a client's user, and it is one that the client's
      tracks came with. */
  lemma {:induction false} UsersAsAdded(es: seq<Event>, i: nat)
    requires Possible(es) && i < |After(es).store|
    ensures var s := After(es);
            i < |s.info| && OfUser(s, i, s.store[i].clientId, s.store[i].userId)
            && CameAs(es, s.store[i].clientId, s.store[i].userId)
    decreases |es|
  {
    var init, e := es[..|es| - 1], es[|es| - 1];
    var s := After(init);
    assert es == init + [e];
    StoreAndStreamsAgree(init);
    hide Agree, CameAs, OfUser, Genuine, Added, Removed;
    match e {
      case Add(c, user, t) =>
        if i < |s.store| {
          UsersAsAdded(init, i);
        }
        AddedUserOk(s, init, c, user, t, i);
        OfUserInfo(After(es), i);
      case Remove(id) =>
        RemovedUsersOf(s, id);
        assert WasThere(s, After(es), i);
        var j: nat :| SameUser(s, j, After(es), i);
        UsersAsAdded(init, j);
        LeftUserOk(s, After(es), init, id, i, j);
        OfUserInfo(After(es), i);
    }
  }

  lemma OfUserInfo(s: Screen, i: nat)
    requires i < |s.store| && OfUser(s, i, s.store[i].clientId, s.store[i].userId)
    ensures i < |s.info|
  {
  }

  lemma RemovedUsersOf(s: Screen, id: TrackId)
    requires Agree(s)
    ensures UsersFrom(s, Removed(s, id))
  {
    RemovedUsers(s, Keys(s.info), id);
  }

  // ---------- a track that is forgotten ----------

  /** Two tracks of one kind: the store forgets the one that stays. */
  lemma SecondTrackIsForgotten(c: ClientId)
    ensures var es := [Add(c, None, Track(0, Audio)), Add(c, None, Track(1, Audio)), Remove(1)];
            && Possible(es)
            && Shows(After(es), c, Track(0, Audio))
            && |After(es).store| == 1 && After(es).store[0].audioTrackId == None
  {
    var t0, t1 := Track(0, Audio), Track(1, Audio);
    var e0, e1, e2 := Add(c, None, t0), Add(c, None, t1), Remove(1);
    assert [e0, e1, e2] == [] + [e0] + [e1] + [e2];
    AddedGenuine(c, t0, t1);
    TwoAdded(c);
    hide Added, Removed, Genuine, Shows;
    AfterAppend([], e0);
    AfterAppend([] + [e0], e1);
    AfterAppend([] + [e0] + [e1], e2);
  }

  lemma AfterAppend(es: seq<Event>, e: Event)
    ensures After(es + [e]) == Step(After(es), e)
    ensures Possible(es + [e]) <==> Possible(es) && (e.Add? ==> Genuine(After(es), e.track))
  {
    assert (es + [e])[..|es|] == es;
  }

  lemma AddedGenuine(c: ClientId, t: Track, u: Track)
    requires t.id != u.id
    ensures Genuine(Blank, t) && Genuine(Added(Blank, c, None, t), u)
  {
    forall c', v | Shows(Added(Blank, c, None, t), c', v) ensures v.id != u.id {
      AddedShows(Blank, c, None, t, c', v);
    }
  }

  lemma TwoAdded(c: ClientId)
    ensures var s' := Removed(Added(Added(Blank, c, None, Track(0, Audio)), c, None, Track(1, Audio)), 1);
            && Shows(s', c, Track(0, Audio))
            && |s'.store| == 1 && s'.store[0].audioTrackId == None
  {
    hide Added, Agree, OncePlaced, Genuine, Removed, TakeOut, Shows;
    var t0, t1 := Track(0, Audio), Track(1, Audio);
    var s1 := Added(Blank, c, None, t0);
    var s2 := Added(s1, c, None, t1);
    BlankAgrees();
    AddedGenuine(c, t0, t1);
    AddedShape(Blank, c, None, t0);
    AddedAgrees(Blank, c, None, t0);
    assert s1.info[0].tracks == [t0];
    assert FindStream(s1.info, c) == 0;
    AddedShape(s1, c, None, t1);
    AddedAgrees(s1, c, None, t1);
    assert FindTrack(s1.info[0].tracks, 1) == 1;
    assert s2.info[0].tracks == [t0, t1];
    hide AddTrack, FindTrack, FindStream;
    SecondTaken(s2, c);
  }

  lemma BlankAgrees()
    ensures Agree(Blank)
  {
  }

  lemma SecondTaken(s: Screen, c: ClientId)
    requires Agree(s) && |s.info| == 1 && |s.store| == 1 && s.info[0].clientId == c
    requires s.info[0].tracks == [Track(0, Audio), Track(1, Audio)]
    ensures Shows(Removed(s, 1), c, Track(0, Audio))
    ensures |Removed(s, 1).store| == 1 && Removed(s, 1).store[0].audioTrackId == None
  {
    hide Agree, RemovedFrom, FindTrack, FindStream;
    assert Keys(s.info) == [c];
    RemovedIsTakeOut(s, [c], 0, 1);
    assert s.info[0].tracks[..1] + s.info[0].tracks[2..] == [Track(0, Audio)];
    var s' := TakeOut(s, 0, 1);
    assert s'.info[0].tracks == [Track(0, Audio)];
    assert Track(0, Audio) in s'.info[0].tracks && s'.info[0].clientId == c;
  }

  /** The two entries differ at most in the track id of this kind. */
  predicate SameBut(a: RemoteClient, b: RemoteClient, kind: Kind) {
    && b.clientId == a.clientId && b.userId == a.userId
    && (kind == Audio || b.audioTrackId == a.audioTrackId) && (kind == Video || b.videoTrackId == a.videoTrackId)
  }

  // ---------- the component ----------

  class RemoteClientsView {
    var store: seq<RemoteClient>
    var info: seq<Stream>

    ghost function State(): Screen
      reads this
    {
      Screen(store, info)
    }

    constructor ()
      ensures State() == Blank
    {
      store, info := [], [];
    }

    method SetNamed(c: ClientId, kind: Kind, t: Option<TrackId>)
      modifies this
      ensures store == SetTrackId(old(store), c, kind, t) && info == old(info)
      ensures |store| == |old(store)|
      ensures forall i :: 0 <= i < |store| ==>
                if old(store)[i].clientId == c && forall j :: 0 <= j < i ==> old(store)[j].clientId != c
                then store[i].Named(kind) == t && SameBut(old(store)[i], store[i], kind)
                else store[i] == old(store)[i]
    {
      var i := FindClient(store, c);
      if i == |store| {
        return;
      }
      if kind.Audio? {
        store := store[i := store[i].(audioTrackId := t)];
      } else {
        store := store[i := store[i].(videoTrackId := t)];
      }
    }

    /** The list of known clients the listener captured is empty, so `add` is always dispatched. */
    method AddedMediaConsumer(c: ClientId, user: Option<string>, t: Track)
      modifies this
      ensures State() == Added(old(State()), c, user, t)
    {
      store := AddClient(store, RemoteClient(c, user, None, None));
      var i := FindStream(info, c);
      if i == |info| {
        info := info + [Stream(c, user, [])];
        assert info[i].clientId == c;
        assert FindStream(info, c) == i;
      }
      info := info[i := info[i].(tracks := AddTrack(info[i].tracks, t))];
      SetNamed(c, t.kind, Some(t.id));
    }

    method RemovedMediaConsumer(id: TrackId)
      modifies this
      ensures State() == Removed(old(State()), id)
    {
      var snapshot := Keys(info);
      var n := 0;
      assert snapshot[0..] == snapshot;
      while n < |snapshot|
        invariant n <= |snapshot|
        invariant RemovedFrom(State(), snapshot[n..], id) == Removed(old(State()), id)
      {
        var c := snapshot[n];
        ghost var s := State();
        assert snapshot[n..][0] == c && snapshot[n..][1..] == snapshot[n + 1..];
        n := n + 1;
        var i := FindStream(info, c);
        if i == |info| {
          continue;
        }
        var j := FindTrack(info[i].tracks, id);
        if j == |info[i].tracks| {
          continue;
        }
        SetNamed(c, info[i].tracks[j].kind, None);
        info := info[i := info[i].(tracks := Cut(info[i].tracks, j))];
        if 0 < |info[i].tracks| {
          return;
        }
        info := Cut(info, i);
        assert info == Cut(s.info, i);
        store := RemoveClient(store, c);
      }
    }
  }
}
