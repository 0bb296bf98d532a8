/**
 Call summaries: round by round the evaluator remembers the largest number of participants of
 every call in the storage, and reports it when the call ends.
 */
module CallsEvaluators {
  type CallId = string

  /** A call in the storage, with the number of its clients. */
  datatype Stored = Stored(callId: CallId, participants: nat)

  /** What one evaluation is given; an ended call without an id has the id "". */
  datatype Round = Round(ended: seq<CallId>, storage: seq<Stored>)

  datatype Report = Report(callId: CallId, maxParticipants: nat)

  datatype State = State(summaries: map<CallId, nat>, reports: seq<Report>)

  const Initial := State(map[], [])

  /** Reporting ended calls, in order. */
  function ReportEnded(s: State, ended: seq<CallId>): State
    decreases |ended|
  {
    if ended == [] then s
    else
      var s1 := ReportEnded(s, ended[..|ended| - 1]);
      var id := ended[|ended| - 1];
      if id == "" || id !in s1.summaries then s1
      else State(s1.summaries - {id}, s1.reports + [Report(id, s1.summaries[id])])
  }

  function Max(a: nat, b: nat): nat {
    if a < b then b else a
  }

  /** Updating the summaries from the storage. */
  function Update(m: map<CallId, nat>, storage: seq<Stored>): map<CallId, nat>
    decreases |storage|
  {
    if storage == [] then m
    else
      var m1 := Update(m, storage[..|storage| - 1]);
      var c := storage[|storage| - 1];
      m1[c.callId := Max(if c.callId in m1 then m1[c.callId] else 0, c.participants)]
  }

  function Step(s: State, r: Round): State {
    var s1 := ReportEnded(s, r.ended);
    s1.(summaries := Update(s1.summaries, r.storage))
  }

  function After(rs: seq<Round>): State
    decreases |rs|
  {
    if rs == [] then Initial else Step(After(rs[..|rs| - 1]), rs[|rs| - 1])
  }

  // ---------- one round ----------

  predicate Ends(r: Round, id: CallId) {
    id != "" && id in r.ended
  }

  predicate Stores(r: Round, id: CallId) {
    exists k :: 0 <= k < |r.storage| && r.storage[k].callId == id
  }

  /** The reports about one call. */
  function About(reports: seq<Report>, id: CallId): seq<Report>
    decreases |reports|
  {
    if reports == [] then []
    else
      About(reports[..|reports| - 1], id) + if reports[|reports| - 1].callId == id then [reports[|reports| - 1]] else []
  }

  lemma AboutAppend(reports: seq<Report>, r: Report, id: CallId)
    ensures About(reports + [r], id) == About(reports, id) + if r.callId == id then [r] else []
  {
    assert (reports + [r])[..|reports|] == reports;
  }

  /** What reporting the calls of `ended` makes of one call. */
  ghost predicate Reported(s: State, s': State, ended: seq<CallId>, id: CallId) {
    var ends := id != "" && id in ended;
    && (id in s'.summaries <==> id in s.summaries && !ends)
    && (id in s'.summaries ==> s'.summaries[id] == s.summaries[id])
    && About(s'.reports, id) == About(s.reports, id)
         + if ends && id in s.summaries then [Report(id, s.summaries[id])] else []
  }

  lemma ReportedMore(s: State, s1: State, init: seq<CallId>, last: CallId, id: CallId)
    requires Reported(s, s1, init, id)
    ensures last == "" || last !in s1.summaries ==> Reported(s, s1, init + [last], id)
    ensures last != "" && last in s1.summaries ==>
              var s' := State(s1.summaries - {last}, s1.reports + [Report(last, s1.summaries[last])]);
              Reported(s, s', init + [last], id)
  {
    if last != "" && last in s1.summaries {
      AboutAppend(s1.reports, Report(last, s1.summaries[last]), id);
    }
    hide About;
  }

  /** An ended call with a summary is reported once, with that summary, which is then gone. */
  lemma {:induction false} ReportEndedFor(s: State, ended: seq<CallId>, id: CallId)
    ensures Reported(s, ReportEnded(s, ended), ended, id)
    decreases |ended|
  {
    if ended != [] {
      var init, last := ended[..|ended| - 1], ended[|ended| - 1];
      ReportEndedFor(s, init, id);
      assert ended == init + [last];
      hide Reported, About;
      ReportedMore(s, ReportEnded(s, init), init, last, id);
    }
  }

  /** `m` is the largest participant count of the call in the storage. */
  ghost predicate IsLargest(storage: seq<Stored>, id: CallId, m: nat) {
    && (exists k :: 0 <= k < |storage| && storage[k] == Stored(id, m))
    && (forall k :: 0 <= k < |storage| && storage[k].callId == id ==> storage[k].participants <= m)
  }

  lemma {:induction false} UpdateFor(m: map<CallId, nat>, storage: seq<Stored>, id: CallId)
    ensures var m' := Update(m, storage);
            var stored := exists k :: 0 <= k < |storage| && storage[k].callId == id;
            && (id in m' <==> id in m || stored)
            && (id in m' && !stored ==> m'[id] == m[id])
            && (stored ==> exists n :: IsLargest(storage, id, n) && m'[id] == Max(if id in m then m[id] else 0, n))
    decreases |storage|
  {
    if storage != [] {
      var init, c := storage[..|storage| - 1], storage[|storage| - 1];
      UpdateFor(m, init, id);
      assert storage == init + [c];
      if exists k :: 0 <= k < |init| && init[k].callId == id {
        var k :| 0 <= k < |init| && init[k].callId == id;
        assert storage[k].callId == id;
        var n :| IsLargest(init, id, n) && Update(m, init)[id] == Max(if id in m then m[id] else 0, n);
        LargestMore(init, c, id, n);
        assert IsLargest(storage, id, if c.callId == id then Max(n, c.participants) else n);
      } else if c.callId == id {
        assert storage[|init|] == c;
        assert IsLargest(storage, id, c.participants);
      }
    }
  }

  lemma LargestMore(init: seq<Stored>, c: Stored, id: CallId, n: nat)
    requires IsLargest(init, id, n)
    ensures IsLargest(init + [c], id, if c.callId == id then Max(n, c.participants) else n)
  {
    var k :| 0 <= k < |init| && init[k] == Stored(id, n);
    assert (init + [c])[k] == Stored(id, n);
    assert (init + [c])[|init|] == c;
  }

  // ---------- runs ----------

  /** The last round in which the call ended, or the beginning. */
  function Since(rs: seq<Round>, id: CallId): (k: nat)
    ensures k == 0 || (k < |rs| && Ends(rs[k], id))
    ensures forall j :: k < j < |rs| ==> !Ends(rs[j], id)
    decreases |rs|
  {
    if rs == [] then 0
    else if Ends(rs[|rs| - 1], id) then |rs| - 1
    else Since(rs[..|rs| - 1], id)
  }

  /** The call was stored in some round from `k` on. */
  ghost predicate SeenFrom(rs: seq<Round>, id: CallId, k: nat) {
    exists j :: k <= j < |rs| && Stores(rs[j], id)
  }

  /** `m` is the largest participant count of the call in all rounds from `k` on. */
  ghost predicate IsPeak(rs: seq<Round>, id: CallId, k: nat, m: nat) {
    && (exists j :: k <= j < |rs| && Stored(id, m) in rs[j].storage)
    && (forall j, c :: k <= j < |rs| && c in rs[j].storage && c.callId == id ==> c.participants <= m)
  }

  lemma LargestIsPeak(rs: seq<Round>, id: CallId, n: nat)
    requires rs != [] && IsLargest(rs[|rs| - 1].storage, id, n)
    ensures IsPeak(rs, id, |rs| - 1, n)
  {
    var storage := rs[|rs| - 1].storage;
    forall j, c | |rs| - 1 <= j < |rs| && c in rs[j].storage && c.callId == id ensures c.participants <= n {
      var k :| 0 <= k < |storage| && storage[k] == c;
    }
  }

  /** A peak so far and a largest count in the last round make a peak. */
  lemma PeakMore(rs: seq<Round>, init: seq<Round>, id: CallId, k: nat, m: nat, n: nat)
    requires rs != [] && init == rs[..|rs| - 1] && k <= |init|
    requires IsPeak(init, id, k, m) && IsPeak(rs, id, |init|, n)
    ensures IsPeak(rs, id, k, Max(m, n))
  {
    var j :| k <= j < |init| && Stored(id, m) in init[j].storage;
    assert Stored(id, m) in rs[j].storage;
    forall j, c | k <= j < |rs| && c in rs[j].storage && c.callId == id ensures c.participants <= Max(m, n) {
      if j < |init| {
        assert c in init[j].storage;
      }
    }
  }

  lemma InStorage(r: Round, c: Stored)
    requires c in r.storage
    ensures Stores(r, c.callId)
  {
    var i :| 0 <= i < |r.storage| && r.storage[i] == c;
    assert r.storage[i].callId == c.callId;
  }

  lemma PeakStays(rs: seq<Round>, init: seq<Round>, id: CallId, k: nat, m: nat)
    requires rs != [] && init == rs[..|rs| - 1] && IsPeak(init, id, k, m) && !Stores(rs[|rs| - 1], id)
    ensures IsPeak(rs, id, k, m)
  {
    var j :| k <= j < |init| && Stored(id, m) in init[j].storage;
    assert Stored(id, m) in rs[j].storage;
    forall c | c in rs[|rs| - 1].storage ensures Stores(rs[|rs| - 1], c.callId) {
      InStorage(rs[|rs| - 1], c);
    }
    hide Stores;
    forall j, c | k <= j < |rs| && c in rs[j].storage && c.callId == id ensures c.participants <= m {
      if j < |init| {
        assert c in init[j].storage;
      }
    }
  }

  lemma SeenMore(rs: seq<Round>, init: seq<Round>, id: CallId, k: nat)
    requires rs != [] && init == rs[..|rs| - 1] && k <= |init|
    ensures SeenFrom(rs, id, k) <==> SeenFrom(init, id, k) || Stores(rs[|rs| - 1], id)
  {
    if SeenFrom(init, id, k) {
      var j :| k <= j < |init| && Stores(init[j], id);
      assert Stores(rs[j], id);
    }
    if SeenFrom(rs, id, k) {
      var j :| k <= j < |rs| && Stores(rs[j], id);
      assert j < |init| ==> Stores(init[j], id);
    }
    assert Stores(rs[|rs| - 1], id) ==> SeenFrom(rs, id, k);
  }

  /** A round in which the call is stored. */
  lemma StoredPeak(rs: seq<Round>, init: seq<Round>, id: CallId, seen: bool, was: nat, n: nat)
    requires rs != [] && init == rs[..|rs| - 1] && Stores(rs[|rs| - 1], id) && IsLargest(rs[|rs| - 1].storage, id, n)
    requires seen <==> SeenFrom(init, id, Since(init, id))
    requires seen ==> IsPeak(init, id, Since(init, id), was)
    ensures var k := Since(rs, id);
            && SeenFrom(rs, id, k)
            && IsPeak(rs, id, k, Max(if seen && !Ends(rs[|rs| - 1], id) then was else 0, n))
  {
    LargestIsPeak(rs, id, n);
    assert SeenFrom(rs, id, |init|);
    var k := Since(rs, id);
    hide IsPeak, IsLargest, Stores;
    if !Ends(rs[|rs| - 1], id) {
      assert k == Since(init, id) <= |init|;
      SeenMore(rs, init, id, k);
      if seen {
        PeakMore(rs, init, id, k, was, n);
      } else {
        PeakAlone(rs, init, id, k, n);
      }
    }
  }

  /** A round in which it is not. */
  lemma UnstoredPeak(rs: seq<Round>, init: seq<Round>, id: CallId, seen: bool, was: nat)
    requires rs != [] && init == rs[..|rs| - 1] && !Stores(rs[|rs| - 1], id)
    requires seen <==> SeenFrom(init, id, Since(init, id))
    requires seen ==> IsPeak(init, id, Since(init, id), was)
    ensures var k := Since(rs, id);
            && (SeenFrom(rs, id, k) <==> seen && !Ends(rs[|rs| - 1], id))
            && (SeenFrom(rs, id, k) ==> IsPeak(rs, id, k, was))
  {
    var k := Since(rs, id);
    hide IsPeak, Stores;
    if !Ends(rs[|rs| - 1], id) {
      assert k == Since(init, id) <= |init|;
      SeenMore(rs, init, id, k);
      if seen {
        PeakStays(rs, init, id, k, was);
      }
    }
  }

  /**
   Summaries refine a fold over the run: a call has a summary exactly if it was stored since
   the last round in which it ended, that round included, and the summary is then the largest
   participant count in all those rounds.
   */
  lemma {:induction false} SummaryIsPeak(rs: seq<Round>, id: CallId)
    ensures var m := After(rs).summaries;
            && (id in m <==> SeenFrom(rs, id, Since(rs, id)))
            && (id in m ==> IsPeak(rs, id, Since(rs, id), m[id]))
    decreases |rs|
  {
    if rs != [] {
      var init, r := rs[..|rs| - 1], rs[|rs| - 1];
      var s := After(init);
      SummaryIsPeak(init, id);
      ReportEndedFor(s, r.ended, id);
      UpdateFor(ReportEnded(s, r.ended).summaries, r.storage, id);
      hide ReportEnded, Update, About, Since, SeenFrom, IsPeak, IsLargest;
      var was := if id in s.summaries then s.summaries[id] else 0;
      if Stores(r, id) {
        var n :| IsLargest(r.storage, id, n)
                 && After(rs).summaries[id] == Max(if id in s.summaries && !Ends(r, id) then s.summaries[id] else 0, n);
        hide Stores, Ends;
        StoredPeak(rs, init, id, id in s.summaries, was, n);
      } else {
        hide Stores, Ends;
        UnstoredPeak(rs, init, id, id in s.summaries, was);
      }
    }
  }

  lemma PeakAlone(rs: seq<Round>, init: seq<Round>, id: CallId, k: nat, n: nat)
    requires rs != [] && init == rs[..|rs| - 1] && k <= |init|
    requires IsPeak(rs, id, |init|, n) && !SeenFrom(init, id, k)
    ensures IsPeak(rs, id, k, n)
  {
    forall j, c | k <= j < |init| && c in rs[j].storage ensures Stores(init[j], c.callId) {
      InStorage(init[j], c);
    }
    hide Stores;
    assert forall j, c | k <= j < |init| && c in rs[j].storage :: c.callId != id;
  }

  /**
   A round in which a call ends reports it exactly once if it was seen since it last ended,
   with the largest participant count since then, and not at all otherwise.
   */
  lemma EndedIsReportedOnce(rs: seq<Round>, r: Round, id: CallId)
    requires Ends(r, id)
    ensures var before, after := About(After(rs).reports, id), About(Step(After(rs), r).reports, id);
            if SeenFrom(rs, id, Since(rs, id))
            then exists m :: IsPeak(rs, id, Since(rs, id), m) && after == before + [Report(id, m)]
            else after == before
  {
    SummaryIsPeak(rs, id);
    ReportEndedFor(After(rs), r.ended, id);
    hide IsPeak, SeenFrom, About, Update;
  }

  /** Only the rounds in which it ends report a call. */
  lemma OnlyEndsReport(s: State, r: Round, id: CallId)
    requires !Ends(r, id)
    ensures About(Step(s, r).reports, id) == About(s.reports, id)
  {
    ReportEndedFor(s, r.ended, id);
  }

  /** An ended call is forgotten if and only if that round's storage no longer has it. */
  lemma EndedIsForgottenExactly(s: State, r: Round, id: CallId)
    requires Ends(r, id)
    ensures id !in Step(s, r).summaries <==> !Stores(r, id)
  {
    ReportEndedFor(s, r.ended, id);
    UpdateFor(ReportEnded(s, r.ended).summaries, r.storage, id);
  }

  /** Calls that end are out of that round's storage. */
  ghost predicate Tidy(rs: seq<Round>, id: CallId) {
    forall j :: 0 <= j < |rs| && Ends(rs[j], id) ==> !Stores(rs[j], id)
  }

  /** Then the summaries are those of exactly the calls seen and not ended since. */
  lemma TidyKeys(rs: seq<Round>, id: CallId)
    requires Tidy(rs, id)
    ensures id in After(rs).summaries <==> exists k: nat :: SeenAndNotEnded(rs, id, k)
  {
    SummaryIsPeak(rs, id);
    hide After, IsPeak, Stores, Ends;
    var since := Since(rs, id);
    if SeenFrom(rs, id, since) {
      var k :| since <= k < |rs| && Stores(rs[k], id);
      NotEndedSince(rs, id, k);
    }
    if k: nat :| SeenAndNotEnded(rs, id, k) {
      assert since <= k && Stores(rs[k], id);
    }
  }

  /** Stored in round `k` and not ended in it or later. */
  ghost predicate SeenAndNotEnded(rs: seq<Round>, id: CallId, k: nat) {
    k < |rs| && Stores(rs[k], id) && forall j :: k <= j < |rs| ==> !Ends(rs[j], id)
  }

  lemma NotEndedSince(rs: seq<Round>, id: CallId, k: nat)
    requires Tidy(rs, id) && Since(rs, id) <= k < |rs| && Stores(rs[k], id)
    ensures SeenAndNotEnded(rs, id, k)
  {
    hide Stores, Ends;
  }

  // ---------- the object ----------

  /** The evaluator and the summaries it captures. */
  class CallsEvaluator {
    var callSummaries: map<CallId, nat>
    var reports: seq<Report>

    ghost function Now(): State
      reads this
    {
      State(callSummaries, reports)
    }

    constructor ()
      ensures Now() == Initial
    {
      callSummaries, reports := map[], [];
    }

    method Evaluate(r: Round)
      modifies this
      ensures Now() == Step(old(Now()), r)
    {
      ghost var was := Now();
      var i := 0;
      while i < |r.ended|
        invariant i <= |r.ended|
        invariant Now() == ReportEnded(was, r.ended[..i])
      {
        var id := r.ended[i];
        assert r.ended[..i + 1][..i] == r.ended[..i];
        i := i + 1;
        if id == "" {
          continue;
        }
        if id !in callSummaries {
          continue;
        }
        reports := reports + [Report(id, callSummaries[id])];
        callSummaries := callSummaries - {id};
      }
      assert r.ended[..i] == r.ended;
      ghost var mid := Now();
      i := 0;
      while i < |r.storage|
        invariant i <= |r.storage|
        invariant reports == mid.reports && callSummaries == Update(mid.summaries, r.storage[..i])
      {
        var c := r.storage[i];
        assert r.storage[..i + 1][..i] == r.storage[..i];
        var known := if c.callId in callSummaries then callSummaries[c.callId] else 0;
        callSummaries := callSummaries[c.callId := Max(known, c.participants)];
        i := i + 1;
      }
      assert r.storage[..i] == r.storage;
    }
  }
}
