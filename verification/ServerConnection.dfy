/**
 The browser's connection to the room server: messages sent before the socket is there are
 buffered and flushed by a timer; requests are promises that responses settle; connecting
 retries a bounded number of times.
 */
module ServerConnections {
  import opened Base

  type Message = string

  datatype Config = Config(maxBufferSize: int, maxBufferTimeInMs: int)

  datatype Buffered = Buffered(message: Message, timestamp: int)

  /** `timers` counts the pending flush timers, `timerSet` says that the field is set; the
      lists of dropped messages are history. */
  datatype Channel = Channel(
    open: bool,
    timerSet: bool,
    timers: nat,
    buffer: seq<Buffered>,
    wire: seq<Message>,
    droppedForSize: seq<Message>,
    droppedForAge: seq<Message>)

  const Fresh := Channel(false, false, 0, [], [], [], [])

  datatype Event =
    | Send(message: Message, now: int)
    | Installed
    | TimerFired(now: int)

  predicate Enabled(s: Channel, e: Event) {
    match e
    case Send(_, _) => true
    case Installed => !s.open
    case TimerFired(_) => 0 < s.timers
  }

  predicate Expired(cfg: Config, b: Buffered, now: int) {
    0 < cfg.maxBufferTimeInMs && cfg.maxBufferTimeInMs < now - b.timestamp
  }

  function Messages(buffer: seq<Buffered>): (ms: seq<Message>)
    ensures |ms| == |buffer| && forall i :: 0 <= i < |ms| ==> ms[i] == buffer[i].message
  {
    seq(|buffer|, i requires 0 <= i < |buffer| => buffer[i].message)
  }

  /** The messages of the buffer that are not too old, in order. */
  function Unexpired(cfg: Config, buffer: seq<Buffered>, now: int): seq<Message>
    decreases |buffer|
  {
    if buffer == [] then []
    else
      var last := buffer[|buffer| - 1];
      Unexpired(cfg, buffer[..|buffer| - 1], now) + if Expired(cfg, last, now) then [] else [last.message]
  }

  function TooOld(cfg: Config, buffer: seq<Buffered>, now: int): seq<Message>
    decreases |buffer|
  {
    if buffer == [] then []
    else
      var last := buffer[|buffer| - 1];
      TooOld(cfg, buffer[..|buffer| - 1], now) + if Expired(cfg, last, now) then [last.message] else []
  }

  predicate HasSpace(cfg: Config, buffer: seq<Buffered>) {
    cfg.maxBufferSize < 0 || |buffer| < cfg.maxBufferSize
  }

  function Step(cfg: Config, s: Channel, e: Event): Channel
    requires Enabled(s, e)
  {
    match e
    case Send(m, now) =>
      if s.open then s.(wire := s.wire + [m])
      else
        var s1 := if HasSpace(cfg, s.buffer) then s.(buffer := s.buffer + [Buffered(m, now)])
                  else s.(droppedForSize := s.droppedForSize + [m]);
        if s.timerSet then s1 else s1.(timerSet := true, timers := s.timers + 1)
    case Installed => s.(open := true)
    case TimerFired(now) =>
      if !s.open then s
      else s.(timers := s.timers - 1,
              buffer := [],
              wire := s.wire + Unexpired(cfg, s.buffer, now),
              droppedForAge := s.droppedForAge + TooOld(cfg, s.buffer, now))
  }

  // ---------- runs ----------

  ghost predicate Possible(cfg: Config, es: seq<Event>)
    decreases |es|, 0
  {
    es == [] || (Possible(cfg, es[..|es| - 1]) && Enabled(After(cfg, es[..|es| - 1]), es[|es| - 1]))
  }

  ghost function After(cfg: Config, es: seq<Event>): Channel
    requires Possible(cfg, es)
    decreases |es|, 1
  {
    if es == [] then Fresh else Step(cfg, After(cfg, es[..|es| - 1]), es[|es| - 1])
  }

  /** Everything passed to `sendMessage`, in order. */
  function Sent(es: seq<Event>): seq<Buffered>
    decreases |es|
  {
    if es == [] then []
    else
      var e := es[|es| - 1];
      Sent(es[..|es| - 1]) + if e.Send? then [Buffered(e.message, e.now)] else []
  }

  lemma SentAppend(es: seq<Event>, e: Event)
    ensures Sent(es + [e]) == Sent(es) + if e.Send? then [Buffered(e.message, e.now)] else []
  {
    assert (es + [e])[..|es|] == es;
  }

  // ---------- nothing is stranded, nothing is lost twice ----------

  ghost predicate TimersOk(cfg: Config, s: Channel) {
    && s.timers <= 1
    && (!s.open ==> (s.timers == 1 <==> s.timerSet))
    && (s.buffer != [] ==> s.timers == 1)
    && (0 <= cfg.maxBufferSize ==> |s.buffer| <= cfg.maxBufferSize)
  }

  /** No stranded message: in every reachable state. */
  lemma {:induction false} NothingStranded(cfg: Config, es: seq<Event>)
    requires Possible(cfg, es)
    ensures TimersOk(cfg, After(cfg, es))
    decreases |es|
  {
    if es != [] {
      NothingStranded(cfg, es[..|es| - 1]);
    }
  }

  /** Once a timer has fired with the socket there, nothing is ever buffered again. */
  lemma {:induction false} FlushedForGood(cfg: Config, es: seq<Event>, n: nat)
    requires Possible(cfg, es) && n < |es| && es[n].TimerFired? && Possible(cfg, es[..n]) && After(cfg, es[..n]).open
    ensures After(cfg, es).open && After(cfg, es).buffer == [] && After(cfg, es).timers == 0
    decreases |es|
  {
    NothingStranded(cfg, es[..|es| - 1]);
    if n < |es| - 1 {
      assert es[..|es| - 1][..n] == es[..n];
      FlushedForGood(cfg, es[..|es| - 1], n);
    }
  }

  lemma {:induction false} FlushSplits(cfg: Config, buffer: seq<Buffered>, now: int)
    ensures multiset(Unexpired(cfg, buffer, now)) + multiset(TooOld(cfg, buffer, now)) == multiset(Messages(buffer))
    decreases |buffer|
  {
    hide Expired, Messages;
    if buffer == [] {
      assert Messages(buffer) == [];
    } else {
      var init, last := buffer[..|buffer| - 1], buffer[|buffer| - 1];
      FlushSplits(cfg, init, now);
      assert Messages(buffer) == Messages(init) + [last.message];
      OneMoreSplits(Unexpired(cfg, init, now), TooOld(cfg, init, now), Messages(init), last.message);
      hide Unexpired, TooOld;
    }
  }

  /** One more message may go to either side. */
  lemma OneMoreSplits(a: seq<Message>, b: seq<Message>, all: seq<Message>, m: Message)
    requires multiset(a) + multiset(b) == multiset(all)
    ensures multiset(a + [m]) + multiset(b + []) == multiset(all + [m])
    ensures multiset(a + []) + multiset(b + [m]) == multiset(all + [m])
  {
    assert a + [] == a && b + [] == b;
  }

  /** Where the messages are: on the wire, buffered, or dropped for one reason or the other. */
  function Everywhere(s: Channel): multiset<Message> {
    multiset(s.wire) + multiset(Messages(s.buffer)) + multiset(s.droppedForSize) + multiset(s.droppedForAge)
  }

  lemma StepConserves(cfg: Config, s: Channel, e: Event)
    requires Enabled(s, e)
    ensures Everywhere(Step(cfg, s, e)) == Everywhere(s) + if e.Send? then multiset{e.message} else multiset{}
  {
    match e {
      case Send(m, now) =>
        if !s.open && HasSpace(cfg, s.buffer) {
          assert Messages(s.buffer + [Buffered(m, now)]) == Messages(s.buffer) + [m];
        }
      case Installed =>
      case TimerFired(now) =>
        if s.open {
          FlushSplits(cfg, s.buffer, now);
          hide Unexpired, TooOld;
        }
    }
  }

  /** Conservation: every message sent is on the wire, buffered, or dropped for one reason. */
  lemma {:induction false} Conservation(cfg: Config, es: seq<Event>)
    requires Possible(cfg, es)
    ensures multiset(Messages(Sent(es))) == Everywhere(After(cfg, es))
    decreases |es|
  {
    if es != [] {
      var init, e := es[..|es| - 1], es[|es| - 1];
      Conservation(cfg, init);
      StepConserves(cfg, After(cfg, init), e);
      hide Everywhere, Step;
      MessagesAppend(Sent(init), e);
    }
  }

  /** With both limits off nothing is dropped. */
  lemma {:induction false} NoLimitsNoDrops(cfg: Config, es: seq<Event>)
    requires Possible(cfg, es) && cfg == Config(-1, -1)
    ensures After(cfg, es).droppedForSize == [] && After(cfg, es).droppedForAge == []
    decreases |es|
  {
    if es != [] {
      var s := After(cfg, es[..|es| - 1]);
      NoLimitsNoDrops(cfg, es[..|es| - 1]);
      if es[|es| - 1].TimerFired? {
        NoneTooOld(cfg, s.buffer, es[|es| - 1].now);
      }
    }
  }

  lemma {:induction false} NoneTooOld(cfg: Config, buffer: seq<Buffered>, now: int)
    requires cfg.maxBufferTimeInMs <= 0
    ensures TooOld(cfg, buffer, now) == [] && Unexpired(cfg, buffer, now) == Messages(buffer)
    decreases |buffer|
  {
    if buffer != [] {
      NoneTooOld(cfg, buffer[..|buffer| - 1], now);
      assert Messages(buffer) == Messages(buffer[..|buffer| - 1]) + [buffer[|buffer| - 1].message];
    }
  }

  lemma {:induction false} FlushConcat(cfg: Config, a: seq<Buffered>, b: seq<Buffered>, now: int)
    ensures Unexpired(cfg, a + b, now) == Unexpired(cfg, a, now) + Unexpired(cfg, b, now)
    ensures TooOld(cfg, a + b, now) == TooOld(cfg, a, now) + TooOld(cfg, b, now)
    decreases |b|
  {
    if b == [] {
      assert a + b == a;
    } else {
      assert (a + b)[..|a + b| - 1] == a + b[..|b| - 1];
      FlushConcat(cfg, a, b[..|b| - 1], now);
    }
  }

  /**
   What a flush sends: of the buffered messages, in order, each one that has waited no longer than
   the limit, or all of them if the limit is not positive; and it drops exactly the others.
   */
  lemma FlushSendsExactly(cfg: Config, before: seq<Buffered>, b: Buffered, after: seq<Buffered>, now: int)
    ensures var sent := cfg.maxBufferTimeInMs <= 0 || now <= b.timestamp + cfg.maxBufferTimeInMs;
            && Unexpired(cfg, before + [b] + after, now)
               == Unexpired(cfg, before, now) + (if sent then [b.message] else []) + Unexpired(cfg, after, now)
            && TooOld(cfg, before + [b] + after, now)
               == TooOld(cfg, before, now) + (if sent then [] else [b.message]) + TooOld(cfg, after, now)
    ensures Unexpired(cfg, [], now) == [] && TooOld(cfg, [], now) == []
  {
    FlushConcat(cfg, before + [b], after, now);
    FlushConcat(cfg, before, [b], now);
    assert [b][..0] == [];
  }

  // ---------- the shape of the wire ----------

  /** When the socket was installed, and when a timer first fired after that. */
  function InstalledAt(es: seq<Event>): (n: nat)
    ensures n <= |es| && (n < |es| ==> es[n].Installed?)
    ensures forall i :: 0 <= i < n ==> !es[i].Installed?
  {
    if es == [] || es[0].Installed? then 0 else 1 + InstalledAt(es[1..])
  }

  function FlushedAt(es: seq<Event>, from: nat): (n: nat)
    requires from <= |es|
    ensures from <= n <= |es| && (n < |es| ==> es[n].TimerFired?)
    ensures forall i :: from <= i < n ==> !es[i].TimerFired?
    decreases |es| - from
  {
    if from == |es| || es[from].TimerFired? then from else FlushedAt(es, from + 1)
  }

  /** The messages that fit into the buffer: the first ones. */
  function Kept(cfg: Config, sent: seq<Buffered>): seq<Buffered> {
    if cfg.maxBufferSize < 0 || |sent| <= cfg.maxBufferSize then sent else sent[..cfg.maxBufferSize]
  }

  /** The expected wire: direct sends, then the flushed buffer, then direct sends again. */
  function ExpectedWire(cfg: Config, es: seq<Event>): seq<Message> {
    var o := InstalledAt(es);
    var f := FlushedAt(es, o);
    var kept := Kept(cfg, Sent(es[..o]));
    Messages(Sent(es[o..f]))
    + (if f < |es| then Unexpired(cfg, kept, es[f].now) else [])
    + Messages(Sent(es[f..]))
  }

  function ExpectedBuffer(cfg: Config, es: seq<Event>): seq<Buffered> {
    var o := InstalledAt(es);
    if FlushedAt(es, o) < |es| then [] else Kept(cfg, Sent(es[..o]))
  }

  lemma InstalledAtAppend(es: seq<Event>, e: Event)
    ensures InstalledAt(es + [e]) ==
            if InstalledAt(es) < |es| then InstalledAt(es) else if e.Installed? then |es| else |es| + 1
  {
    var fs, n := es + [e], InstalledAt(es + [e]);
    assert forall i :: 0 <= i < |es| ==> fs[i] == es[i];
    assert fs[|es|] == e;
  }

  lemma FlushedAtAppend(es: seq<Event>, e: Event, from: nat)
    requires from <= |es|
    ensures FlushedAt(es + [e], from) ==
            if FlushedAt(es, from) < |es| then FlushedAt(es, from) else if e.TimerFired? then |es| else |es| + 1
  {
    var fs, n := es + [e], FlushedAt(es + [e], from);
    assert forall i :: 0 <= i < |es| ==> fs[i] == es[i];
    assert fs[|es|] == e;
  }

  /** Direct sends overtake the buffer, and that is the only reordering there is. */
  lemma {:induction false} WireShape(cfg: Config, es: seq<Event>)
    requires Possible(cfg, es)
    ensures var s := After(cfg, es);
            && s.open == (InstalledAt(es) < |es|)
            && s.buffer == ExpectedBuffer(cfg, es)
            && s.wire == ExpectedWire(cfg, es)
    decreases |es|
  {
    if es != [] {
      var init, e := es[..|es| - 1], es[|es| - 1];
      assert es == init + [e];
      WireShape(cfg, init);
      NothingStranded(cfg, init);
      if InstalledAt(init) == |init| {
        ShapeBefore(cfg, init, e);
      } else {
        ShapeAfter(cfg, init, e);
      }
    }
  }

  lemma ShapeBefore(cfg: Config, es: seq<Event>, e: Event)
    requires Possible(cfg, es) && Enabled(After(cfg, es), e) && InstalledAt(es) == |es|
    requires After(cfg, es).buffer == ExpectedBuffer(cfg, es) && After(cfg, es).wire == ExpectedWire(cfg, es)
    requires !After(cfg, es).open && TimersOk(cfg, After(cfg, es))
    ensures var s := Step(cfg, After(cfg, es), e);
            && s.open == (InstalledAt(es + [e]) < |es + [e]|)
            && s.buffer == ExpectedBuffer(cfg, es + [e]) && s.wire == ExpectedWire(cfg, es + [e])
  {
    var fs := es + [e];
    InstalledAtAppend(es, e);
    SentAppend(es, e);
    assert es[..|es|] == es && es[|es|..] == [] && fs[..|es|] == es && fs[..|fs|] == fs && fs[|fs|..] == [];
    if e.Installed? {
      assert fs[|es|..] == [e];
      SentAppend([], e);
      FlushedAtAppend(es, e, |es|);
    }
  }

  lemma ShapeAfter(cfg: Config, es: seq<Event>, e: Event)
    requires Possible(cfg, es) && Enabled(After(cfg, es), e) && InstalledAt(es) < |es|
    requires After(cfg, es).buffer == ExpectedBuffer(cfg, es) && After(cfg, es).wire == ExpectedWire(cfg, es)
    requires After(cfg, es).open
    ensures var s := Step(cfg, After(cfg, es), e);
            && s.open == (InstalledAt(es + [e]) < |es + [e]|)
            && s.buffer == ExpectedBuffer(cfg, es + [e]) && s.wire == ExpectedWire(cfg, es + [e])
  {
    var fs, o := es + [e], InstalledAt(es);
    var f := FlushedAt(es, o);
    InstalledAtAppend(es, e);
    FlushedAtAppend(es, e, o);
    assert fs[..o] == es[..o];
    if f < |es| {
      ShapeFlushed(cfg, es, e);
      EmptyFlush(cfg);
      hide Unexpired, Sent, Kept;
    } else {
      if e.TimerFired? {
        ShapeFlush(cfg, es, e);
      } else {
        ShapeOvertaking(cfg, es, e);
      }
      hide Unexpired, Sent, Kept;
    }
  }

  lemma EmptyFlush(cfg: Config)
    ensures forall now :: Unexpired(cfg, [], now) == []
  {
  }

  /** After the flush a direct send goes to the end of the wire. */
  lemma ShapeFlushed(cfg: Config, es: seq<Event>, e: Event)
    requires InstalledAt(es) < |es| && FlushedAt(es, InstalledAt(es)) < |es|
    ensures ExpectedWire(cfg, es + [e]) == ExpectedWire(cfg, es) + if e.Send? then [e.message] else []
    ensures ExpectedBuffer(cfg, es + [e]) == []
  {
    var o := InstalledAt(es);
    var f := FlushedAt(es, o);
    InstalledAtAppend(es, e);
    FlushedAtAppend(es, e, o);
    Slices(es, e, o, f);
    SentAppend(es[f..], e);
    MessagesAppend(Sent(es[f..]), e);
    hide Sent, Unexpired, Kept, Messages, InstalledAt, FlushedAt;
    Associates(Messages(Sent(es[o..f])), Unexpired(cfg, Kept(cfg, Sent(es[..o])), es[f].now),
               Messages(Sent(es[f..])), if e.Send? then [e.message] else []);
  }

  lemma Slices(es: seq<Event>, e: Event, o: nat, f: nat)
    requires o <= f < |es|
    ensures var fs := es + [e];
            fs[..o] == es[..o] && fs[o..f] == es[o..f] && fs[f..] == es[f..] + [e] && fs[f] == es[f]
  {
  }

  lemma Associates(a: seq<Message>, b: seq<Message>, c: seq<Message>, d: seq<Message>)
    ensures a + b + c + d == a + b + (c + d)
  {
  }

  /** The flush appends what is left of the buffer. */
  lemma ShapeFlush(cfg: Config, es: seq<Event>, e: Event)
    requires InstalledAt(es) < |es| && FlushedAt(es, InstalledAt(es)) == |es| && e.TimerFired?
    ensures ExpectedWire(cfg, es + [e]) == ExpectedWire(cfg, es) + Unexpired(cfg, ExpectedBuffer(cfg, es), e.now)
    ensures ExpectedBuffer(cfg, es + [e]) == []
  {
    var fs, o := es + [e], InstalledAt(es);
    InstalledAtAppend(es, e);
    FlushedAtAppend(es, e, o);
    assert fs[..o] == es[..o] && es[|es|..] == [] && es[o..|es|] == es[o..];
    assert Sent([]) == [] && Messages([]) == [];
    assert fs[o..|es|] == es[o..] && fs[|es|..] == [e];
    SentAppend([], e);
    hide Sent, Unexpired, Kept, InstalledAt, FlushedAt;
  }

  /** Before the flush a direct send overtakes the buffer. */
  lemma ShapeOvertaking(cfg: Config, es: seq<Event>, e: Event)
    requires InstalledAt(es) < |es| && FlushedAt(es, InstalledAt(es)) == |es| && !e.TimerFired?
    ensures ExpectedWire(cfg, es + [e]) == ExpectedWire(cfg, es) + (if e.Send? then [e.message] else [])
    ensures ExpectedBuffer(cfg, es + [e]) == ExpectedBuffer(cfg, es)
  {
    hide ExpectedWire, ExpectedBuffer, InstalledAt, FlushedAt, Kept, Sent, Messages;
    var fs, o := es + [e], InstalledAt(es);
    InstalledAtAppend(es, e);
    FlushedAtAppend(es, e, o);
    assert fs[..o] == es[..o] && fs[o..] == es[o..] + [e];
    UnflushedWire(cfg, es);
    UnflushedWire(cfg, fs);
    MessagesSentAppend(es[o..], e);
  }

  lemma MessagesSentAppend(es: seq<Event>, e: Event)
    ensures Messages(Sent(es + [e])) == Messages(Sent(es)) + if e.Send? then [e.message] else []
  {
    SentAppend(es, e);
    MessagesAppend(Sent(es), e);
    hide Sent;
    assert Messages(Sent(es)) + [] == Messages(Sent(es));
  }

  lemma UnflushedWire(cfg: Config, es: seq<Event>)
    requires InstalledAt(es) < |es| && FlushedAt(es, InstalledAt(es)) == |es|
    ensures ExpectedWire(cfg, es) == Messages(Sent(es[InstalledAt(es)..]))
    ensures ExpectedBuffer(cfg, es) == Kept(cfg, Sent(es[..InstalledAt(es)]))
  {
    var o := InstalledAt(es);
    assert es[o..|es|] == es[o..] && es[|es|..] == [];
    assert Sent([]) == [] && Messages([]) == [];
    hide Kept, InstalledAt, FlushedAt;
    assert Messages(Sent(es[o..])) + [] + [] == Messages(Sent(es[o..]));
  }

  lemma MessagesAppend(bs: seq<Buffered>, e: Event)
    ensures e.Send? ==> Messages(bs + [Buffered(e.message, e.now)]) == Messages(bs) + [e.message]
    ensures Messages(bs + []) == Messages(bs)
  {
    assert bs + [] == bs;
  }

  // ---------- connecting ----------

  /** The chain of attempts behind one `connect`: `retried` counts from zero. */
  datatype Connecting =
    | Attempting(retried: nat)
    | Waiting(retried: nat)
    | Connected(retried: nat)
    | GivenUp(retried: nat)

  datatype Outcome = Opens | Fails | TimerRings

  function Continue(maxRetry: int, c: Connecting, o: Outcome): Connecting {
    match (c, o)
    case (Attempting(n), Opens) => Connected(n)
    case (Attempting(n), Fails) => if 0 < maxRetry && maxRetry < n then GivenUp(n) else Waiting(n)
    case (Waiting(n), TimerRings) => Attempting(n + 1)
    case _ => c
  }

  function Attempts(c: Connecting): nat {
    c.retried + 1
  }

  function Connect(maxRetry: int, os: seq<Outcome>): Connecting
    decreases |os|
  {
    if os == [] then Attempting(0) else Continue(maxRetry, Connect(maxRetry, os[..|os| - 1]), os[|os| - 1])
  }

  /** At most `maxRetry + 2` sockets are tried, and giving up takes exactly that many; without
      a positive limit nobody ever gives up. */
  lemma {:induction false} RetryBound(maxRetry: int, os: seq<Outcome>)
    ensures var c := Connect(maxRetry, os);
            && (0 < maxRetry ==> Attempts(c) <= maxRetry + 2)
            && (0 < maxRetry && c.Waiting? ==> Attempts(c) <= maxRetry + 1)
            && (c.GivenUp? ==> 0 < maxRetry && Attempts(c) == maxRetry + 2)
    decreases |os|
  {
    if os != [] {
      RetryBound(maxRetry, os[..|os| - 1]);
    }
  }

  /** `n` attempts that fail, each followed by its retry timer. */
  function AllFail(n: nat): seq<Outcome> {
    if n == 0 then [] else AllFail(n - 1) + [Fails, TimerRings]
  }

  /** The bound is reached: if every attempt fails, all `maxRetry + 2` of them are made. */
  lemma {:induction false} AllAttemptsFail(maxRetry: nat, n: nat)
    requires 0 < maxRetry && n <= maxRetry + 1
    ensures Connect(maxRetry, AllFail(n)) == Attempting(n)
    ensures n == maxRetry + 1 ==> Connect(maxRetry, AllFail(n) + [Fails]) == GivenUp(n)
  {
    if n > 0 {
      AllAttemptsFail(maxRetry, n - 1);
      var os := AllFail(n - 1);
      assert AllFail(n)[..|AllFail(n)| - 1] == os + [Fails];
      assert (os + [Fails])[..|os|] == os;
    }
    assert (AllFail(n) + [Fails])[..|AllFail(n)|] == AllFail(n);
  }

  // ---------- when a connection is established ----------

  /** The outcomes that count: those that come while no attempt is in progress, and timers that
      come while one is, do not.  (With an even number an attempt is in progress.) */
  function Counting(os: seq<Outcome>): seq<Outcome>
    decreases |os|
  {
    if os == [] then []
    else
      var counted, o := Counting(os[..|os| - 1]), os[|os| - 1];
      if (|counted| % 2 == 0) == o.TimerRings? then counted else counted + [o]
  }

  /** All attempts so far failed and were followed by their timers, and another one is allowed. */
  ghost predicate InProgress(maxRetry: int, os: seq<Outcome>, n: nat) {
    Counting(os) == AllFail(n) && (0 < maxRetry ==> n <= maxRetry + 1)
  }

  lemma {:induction false} AllFailShape(n: nat)
    ensures |AllFail(n)| == 2 * n
    ensures forall i :: 0 <= i < 2 * n ==> AllFail(n)[i] == if i % 2 == 0 then Fails else TimerRings
  {
    if n > 0 {
      AllFailShape(n - 1);
    }
  }

  /** What the chain of attempts is, told from the outcomes that count. */
  ghost predicate Told(maxRetry: int, c: Connecting, counted: seq<Outcome>) {
    match c
    case Attempting(n) => counted == AllFail(n) && (0 < maxRetry ==> n <= maxRetry + 1)
    case Waiting(n) => counted == AllFail(n) + [Fails] && (0 < maxRetry ==> n <= maxRetry)
    case Connected(n) => AllFail(n) + [Opens] <= counted
    case GivenUp(n) => AllFail(n) + [Fails] <= counted && 0 < maxRetry && n == maxRetry + 1
  }

  lemma {:induction false} ConnectIsTold(maxRetry: int, os: seq<Outcome>)
    ensures Told(maxRetry, Connect(maxRetry, os), Counting(os))
    decreases |os|
  {
    if os != [] {
      var init, o := os[..|os| - 1], os[|os| - 1];
      ConnectIsTold(maxRetry, init);
      AllFailShape(Connect(maxRetry, init).retried);
      RetryBound(maxRetry, init);
    }
  }

  /** What the counted outcomes look like in each case. */
  lemma ToldLengths(maxRetry: int, c: Connecting, counted: seq<Outcome>)
    requires Told(maxRetry, c, counted)
    ensures c.Attempting? ==> |counted| == 2 * c.retried
    ensures c.Waiting? ==> |counted| == 2 * c.retried + 1
    ensures c.Connected? ==> |counted| > 2 * c.retried && counted[2 * c.retried] == Opens
    ensures c.GivenUp? ==> |counted| > 2 * c.retried && 0 < maxRetry && c.retried == maxRetry + 1
  {
    AllFailShape(c.retried);
    if c.Connected? {
      assert counted[2 * c.retried] == (AllFail(c.retried) + [Opens])[2 * c.retried];
    }
  }

  /** An attempt is in progress exactly when the outcomes so far say so. */
  lemma InProgressExactly(maxRetry: int, os: seq<Outcome>, n: nat)
    ensures Connect(maxRetry, os) == Attempting(n) <==> InProgress(maxRetry, os, n)
  {
    ConnectIsTold(maxRetry, os);
    ToldLengths(maxRetry, Connect(maxRetry, os), Counting(os));
    AllFailShape(n);
    hide Connect, Counting, AllFail;
  }

  lemma {:induction false} ConnectContinues(maxRetry: int, os: seq<Outcome>, more: seq<Outcome>)
    requires Connect(maxRetry, os).Connected? || Connect(maxRetry, os).GivenUp?
    ensures Connect(maxRetry, os + more) == Connect(maxRetry, os)
    decreases |more|
  {
    if more == [] {
      assert os + more == os;
    } else {
      assert (os + more)[..|os + more| - 1] == os + more[..|more| - 1];
      ConnectContinues(maxRetry, os, more[..|more| - 1]);
    }
  }

  /** The attempt numbered `n` opens its socket, as outcome `a`. */
  ghost predicate OpensAt(maxRetry: int, os: seq<Outcome>, a: nat, n: nat) {
    a < |os| && os[a].Opens? && InProgress(maxRetry, os[..a], n)
  }

  /**
   Established exactly when a socket opens: the chain of attempts is connected by its attempt `n`
   if and only if some socket opened when, of the outcomes that count, `n` attempts had failed,
   each followed by its timer, and `n` was within the limit; and then nothing changes it any more.
   */
  lemma ConnectedExactly(maxRetry: int, os: seq<Outcome>, n: nat)
    ensures Connect(maxRetry, os) == Connected(n) <==> exists a: nat :: OpensAt(maxRetry, os, a, n)
  {
    if a: nat :| OpensAt(maxRetry, os, a, n) {
      InProgressExactly(maxRetry, os[..a], n);
      var now := os[..a + 1];
      assert now[..a] == os[..a];
      assert Connect(maxRetry, now) == Connected(n);
      ConnectContinues(maxRetry, now, os[a + 1..]);
      assert now + os[a + 1..] == os;
    }
    if Connect(maxRetry, os) == Connected(n) {
      var a := OpenedAt(maxRetry, os, n);
    }
  }

  lemma {:induction false} OpenedAt(maxRetry: int, os: seq<Outcome>, n: nat) returns (a: nat)
    requires Connect(maxRetry, os) == Connected(n)
    ensures OpensAt(maxRetry, os, a, n)
    decreases |os|
  {
    var init := os[..|os| - 1];
    if Connect(maxRetry, init) == Connected(n) {
      a := OpenedAt(maxRetry, init, n);
      assert init[..a] == os[..a];
    } else {
      a := |init|;
      assert os[..a] == init;
      InProgressExactly(maxRetry, init, n);
    }
  }

  /** In particular: a socket that opens after any number of failures within the limit is the
      connection, whatever comes later. */
  lemma ConnectedForGood(maxRetry: int, n: nat, more: seq<Outcome>)
    requires 0 < maxRetry ==> n <= maxRetry + 1
    ensures Connect(maxRetry, AllFail(n) + [Opens] + more) == Connected(n)
  {
    CountingAllFail(n);
    var os := AllFail(n) + [Opens] + more;
    assert os[..|AllFail(n)|] == AllFail(n);
    assert OpensAt(maxRetry, os, |AllFail(n)|, n);
    ConnectedExactly(maxRetry, os, n);
  }

  lemma CountingMore(os: seq<Outcome>, o: Outcome)
    ensures Counting(os + [o]) ==
            if (|Counting(os)| % 2 == 0) == o.TimerRings? then Counting(os) else Counting(os) + [o]
  {
    assert (os + [o])[..|os|] == os;
  }

  lemma {:induction false} CountingAllFail(n: nat)
    ensures Counting(AllFail(n)) == AllFail(n)
  {
    if n > 0 {
      var os := AllFail(n - 1);
      CountingAllFail(n - 1);
      AllFailShape(n - 1);
      assert AllFail(n) == os + [Fails] + [TimerRings];
      assert |os| % 2 == 0;
      hide AllFail, Counting;
      var failed := os + [Fails];
      CountingMore(os, Fails);
      assert Counting(failed) == failed;
      CountingMore(failed, TimerRings);
    }
  }

  // ---------- connecting and sending ----------

  /** The connection: its channel, and the chain of attempts of the one `connect` that took
      effect, if any. */
  datatype Link = Link(channel: Channel, chain: Option<Connecting>)

  datatype LinkEvent = Dial | Happens(outcome: Outcome) | Use(event: Event)

  const Unlinked := Link(Fresh, None)

  predicate CanHappen(l: Link, e: LinkEvent) {
    match e
    case Dial => true
    case Happens(_) => l.chain.Some?
    case Use(x) => !x.Installed? && Enabled(l.channel, x)
  }

  /** `connect` does nothing if it was called before; the socket is installed in the step that
      connects the chain. */
  function Proceed(cfg: Config, maxRetry: int, l: Link, e: LinkEvent): Link
    requires CanHappen(l, e)
  {
    match e
    case Dial => if l.channel.open || l.chain.Some? then l else l.(chain := Some(Attempting(0)))
    case Happens(o) =>
      var c := Continue(maxRetry, l.chain.value, o);
      Link(if c.Connected? && !l.channel.open then Step(cfg, l.channel, Installed) else l.channel, Some(c))
    case Use(x) => l.(channel := Step(cfg, l.channel, x))
  }

  ghost predicate LinkPossible(cfg: Config, maxRetry: int, es: seq<LinkEvent>)
    decreases |es|, 0
  {
    es == [] || (LinkPossible(cfg, maxRetry, es[..|es| - 1])
                 && CanHappen(LinkAfter(cfg, maxRetry, es[..|es| - 1]), es[|es| - 1]))
  }

  ghost function LinkAfter(cfg: Config, maxRetry: int, es: seq<LinkEvent>): Link
    requires LinkPossible(cfg, maxRetry, es)
    decreases |es|, 1
  {
    if es == [] then Unlinked
    else Proceed(cfg, maxRetry, LinkAfter(cfg, maxRetry, es[..|es| - 1]), es[|es| - 1])
  }

  /** What became of the attempts, in order. */
  function Outcomes(es: seq<LinkEvent>): seq<Outcome>
    decreases |es|
  {
    if es == [] then []
    else Outcomes(es[..|es| - 1]) + if es[|es| - 1].Happens? then [es[|es| - 1].outcome] else []
  }

  /** What the channel goes through: its own events, and the installation of the socket. */
  ghost function ChannelRun(cfg: Config, maxRetry: int, es: seq<LinkEvent>): seq<Event>
    requires LinkPossible(cfg, maxRetry, es)
    decreases |es|
  {
    if es == [] then []
    else
      var init, e := es[..|es| - 1], es[|es| - 1];
      var was, now := LinkAfter(cfg, maxRetry, init).channel.open, LinkAfter(cfg, maxRetry, es).channel.open;
      ChannelRun(cfg, maxRetry, init)
      + if e.Use? then [e.event] else if now && !was then [Installed] else []
  }

  /** The link, the run of its channel and the outcomes of its attempts belong together. */
  ghost predicate Linked(cfg: Config, maxRetry: int, l: Link, run: seq<Event>, os: seq<Outcome>) {
    && Possible(cfg, run) && l.channel == After(cfg, run)
    && (if l.chain.Some? then l.chain.value == Connect(maxRetry, os) else os == [])
    && (l.channel.open <==> l.chain.Some? && l.chain.value.Connected?)
  }

  lemma RunMore(cfg: Config, run: seq<Event>, e: Event)
    requires Possible(cfg, run) && Enabled(After(cfg, run), e)
    ensures Possible(cfg, run + [e]) && After(cfg, run + [e]) == Step(cfg, After(cfg, run), e)
  {
    assert (run + [e])[..|run|] == run;
  }

  lemma ConnectMore(maxRetry: int, os: seq<Outcome>, o: Outcome)
    ensures Connect(maxRetry, os + [o]) == Continue(maxRetry, Connect(maxRetry, os), o)
  {
    assert (os + [o])[..|os|] == os;
  }

  lemma HappensLinked(cfg: Config, maxRetry: int, l: Link, run: seq<Event>, os: seq<Outcome>, o: Outcome)
    requires Linked(cfg, maxRetry, l, run, os) && CanHappen(l, Happens(o))
    ensures var l' := Proceed(cfg, maxRetry, l, Happens(o));
            Linked(cfg, maxRetry, l', run + (if l'.channel.open && !l.channel.open then [Installed] else []), os + [o])
  {
    assert run + [] == run;
    ConnectMore(maxRetry, os, o);
    if !l.channel.open {
      RunMore(cfg, run, Installed);
    }
    hide Possible, After, Connect;
  }

  lemma UseLinked(cfg: Config, maxRetry: int, l: Link, run: seq<Event>, os: seq<Outcome>, x: Event)
    requires Linked(cfg, maxRetry, l, run, os) && CanHappen(l, Use(x))
    ensures Linked(cfg, maxRetry, Proceed(cfg, maxRetry, l, Use(x)), run + [x], os)
  {
    RunMore(cfg, run, x);
    hide Possible, After, Connect;
  }

  lemma DialLinked(cfg: Config, maxRetry: int, l: Link, run: seq<Event>, os: seq<Outcome>)
    requires Linked(cfg, maxRetry, l, run, os)
    ensures Linked(cfg, maxRetry, Proceed(cfg, maxRetry, l, Dial), run, os)
  {
    hide Possible, After;
  }

  lemma {:induction false} RunLinked(cfg: Config, maxRetry: int, es: seq<LinkEvent>)
    requires LinkPossible(cfg, maxRetry, es)
    ensures Linked(cfg, maxRetry, LinkAfter(cfg, maxRetry, es), ChannelRun(cfg, maxRetry, es), Outcomes(es))
    ensures LinkAfter(cfg, maxRetry, es).chain.Some? <==> Dial in es
    decreases |es|
  {
    if es != [] {
      var init, e := es[..|es| - 1], es[|es| - 1];
      assert es == init + [e];
      RunLinked(cfg, maxRetry, init);
      var l, run, os := LinkAfter(cfg, maxRetry, init), ChannelRun(cfg, maxRetry, init), Outcomes(init);
      assert run + [] == run && os + [] == os;
      match e {
        case Dial => DialLinked(cfg, maxRetry, l, run, os);
        case Happens(o) => HappensLinked(cfg, maxRetry, l, run, os, o);
        case Use(x) => UseLinked(cfg, maxRetry, l, run, os, x);
      }
      hide Linked, Step, Continue;
    }
  }

  /**
   The connection as a whole.  Over any order of `connect` calls, outcomes of attempts and
   messages, the channel has its socket if and only if `connect` was called and an attempt opened
   while it was in progress; and the channel goes through one of its own runs, so all that is
   proved of those holds of the connection.
   */
  lemma OpenExactlyWhenEstablished(cfg: Config, maxRetry: int, es: seq<LinkEvent>)
    requires LinkPossible(cfg, maxRetry, es)
    ensures var l, run := LinkAfter(cfg, maxRetry, es), ChannelRun(cfg, maxRetry, es);
            && Possible(cfg, run) && l.channel == After(cfg, run)
            && (l.channel.open <==>
                  Dial in es && exists a: nat, n: nat :: OpensAt(maxRetry, Outcomes(es), a, n))
  {
    RunLinked(cfg, maxRetry, es);
    var l, os := LinkAfter(cfg, maxRetry, es), Outcomes(es);
    hide LinkPossible, LinkAfter, ChannelRun, Possible, After, Outcomes;
    if l.channel.open {
      var n := l.chain.value.retried;
      ConnectedExactly(maxRetry, os, n);
      assert Connect(maxRetry, os) == Connected(n);
      var a: nat :| OpensAt(maxRetry, os, a, n);
    }
    if a: nat, n: nat :| OpensAt(maxRetry, os, a, n) {
      ConnectedExactly(maxRetry, os, n);
    }
  }

  // ---------- the object ----------

  class ServerConnection {
    const config: Config
    const maxRetry: int
    var ws: bool
    var timer: bool
    var pending: nat
    var buffer: seq<Buffered>
    var wire: seq<Message>
    var chain: Option<Connecting>
    ghost var droppedForSize: seq<Message>
    ghost var droppedForAge: seq<Message>

    ghost function State(): Channel
      reads this
    {
      Channel(ws, timer, pending, buffer, wire, droppedForSize, droppedForAge)
    }

    ghost function WithChain(): Link
      reads this
    {
      Link(State(), chain)
    }

    constructor (config: Config, maxRetry: int)
      ensures State() == Fresh && WithChain() == Unlinked && this.config == config && this.maxRetry == maxRetry
    {
      this.config, this.maxRetry, chain := config, maxRetry, None;
      ws, timer, pending, buffer, wire := false, false, 0, [], [];
      droppedForSize, droppedForAge := [], [];
    }

    /** `connect`: nothing if there is a socket, or a chain of attempts already. */
    method Connect()
      modifies `chain
      ensures WithChain() == Proceed(config, maxRetry, old(WithChain()), Dial)
      ensures chain == if old(!ws && chain.None?) then Some(Attempting(0)) else old(chain)
    {
      if ws || chain.Some? {
        return;
      }
      chain := Some(Attempting(0));
    }

    /** The current attempt's socket opened: it becomes the connection's. */
    method OnOpen()
      requires chain.Some? && chain.value.Attempting?
      modifies this
      ensures WithChain() == Proceed(config, maxRetry, old(WithChain()), Happens(Opens))
      ensures ws && chain == Some(Connected(old(chain).value.retried)) && buffer == old(buffer) && wire == old(wire)
    {
      chain, ws := Some(Connected(chain.value.retried)), true;
    }

    /** It failed: give up, or wait for the next. */
    method OnError()
      requires chain.Some? && chain.value.Attempting?
      modifies `chain
      ensures WithChain() == Proceed(config, maxRetry, old(WithChain()), Happens(Fails))
      ensures chain.value.GivenUp? <==> 0 < maxRetry < old(chain).value.retried
    {
      var retried := chain.value.retried;
      if 0 < maxRetry && maxRetry < retried {
        chain := Some(GivenUp(retried));
        return;
      }
      chain := Some(Waiting(retried));
    }

    /** The timer of the next attempt. */
    method OnRetry()
      requires chain.Some? && chain.value.Waiting?
      modifies `chain
      ensures WithChain() == Proceed(config, maxRetry, old(WithChain()), Happens(TimerRings))
      ensures chain == Some(Attempting(old(chain).value.retried + 1))
    {
      chain := Some(Attempting(chain.value.retried + 1));
    }

    method SendMessage(message: Message, now: int)
      modifies this
      ensures State() == Step(config, old(State()), Send(message, now)) && chain == old(chain)
      ensures old(ws) ==> wire == old(wire) + [message] && buffer == old(buffer) && pending == old(pending)
      ensures !old(ws) ==>
                && wire == old(wire) && pending == old(pending) + (if old(timer) then 0 else 1)
                && buffer == old(buffer) + if config.maxBufferSize < 0 || |old(buffer)| < config.maxBufferSize
                                           then [Buffered(message, now)] else []
    {
      if !ws {
        if config.maxBufferSize < 0 || |buffer| < config.maxBufferSize {
          buffer := buffer + [Buffered(message, now)];
        } else {
          droppedForSize := droppedForSize + [message];
        }
        if !timer {
          timer, pending := true, pending + 1;
        }
        return;
      }
      wire := wire + [message];
    }

    /** The flush timer's callback: start over, or send what is not too old. */
    method OnTimer(now: int)
      requires 0 < pending
      modifies this
      ensures State() == Step(config, old(State()), TimerFired(now)) && chain == old(chain)
    {
      pending := pending - 1;
      if !ws {
        timer, pending := timer, pending + 1;
        return;
      }
      var unsent := buffer;
      buffer := [];
      ghost var before := State();
      var i := 0;
      while i < |unsent|
        invariant i <= |unsent| && ws && chain == old(chain)
        invariant wire == before.wire + Unexpired(config, unsent[..i], now)
        invariant droppedForAge == before.droppedForAge + TooOld(config, unsent[..i], now)
        invariant State() == before.(wire := wire, droppedForAge := droppedForAge)
      {
        assert unsent[..i + 1][..i] == unsent[..i];
        if 0 < config.maxBufferTimeInMs && config.maxBufferTimeInMs < now - unsent[i].timestamp {
          droppedForAge := droppedForAge + [unsent[i].message];
        } else {
          SendMessage(unsent[i].message, now);
        }
        i := i + 1;
      }
      assert unsent[..i] == unsent;
    }
  }
}
