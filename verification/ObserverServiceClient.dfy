/**
 The client of the observer service: samples go to the current socket in order, wait in a
 buffer while there is none, and a lost socket is replaced by a bounded sequence of attempts.
 */
module ObserverServiceClients {
  import opened Base

  /** A sample as the encoder returned it. */
  type Encoded = string

  /** One socket of an attempt sequence: `Failed` once its reconnect listener has run. */
  datatype Attempt = Trying | Failed | Opened

  /** The attempt sequence in progress, if any: `tried` is the number of the latest attempt. */
  datatype Phase = Idle | Attempting(tried: nat) | Waiting(tried: nat)

  /** `socket` is what the current socket, if any, was handed, `lost` what earlier ones were.
      `accepted`, `failures` and `rejections` are history, and so is `sequences`, except that it
      lets the environment call `connect` only once. */
  datatype Client = Client(
    closed: bool,
    canConnect: bool,
    phase: Phase,
    timers: nat,
    attempts: seq<Attempt>,
    buffer: seq<Encoded>,
    socket: Option<seq<Encoded>>,
    lost: seq<seq<Encoded>>,
    accepted: seq<Encoded>,
    sequences: nat,
    failures: nat,
    rejections: nat)

  const Fresh := Client(false, true, Idle, 0, [], [], None, [], [], 0, 0, 0)

  const MAX_RETRIED := 10
  const PRIVATE_USE_CODES := 4000

  datatype Event =
    | Connect
    | SocketDown(socket: nat)
    | RetryTimer
    | SocketOpen
    | SocketClosed(code: int)
    | Send(sample: Encoded)
    | Close
    /** `disconnect` resuming once no sequence is in progress. */
    | Disconnect

  predicate Enabled(s: Client, e: Event) {
    match e
    case Connect => s.sequences == 0
    case SocketDown(k) => k < |s.attempts|
    case RetryTimer => 0 < s.timers && s.phase.Waiting?
    case SocketOpen => s.phase.Attempting? && s.attempts != [] && s.attempts[|s.attempts| - 1].Trying?
    case SocketClosed(_) => s.socket.Some?
    case Send(_) => true
    case Close => true
    case Disconnect => s.phase.Idle?
  }

  /** What all sockets were handed so far, one entry each. */
  function Handed(s: Client): seq<seq<Encoded>> {
    s.lost + if s.socket.Some? then [s.socket.value] else []
  }

  /** `connect`: throws when closed, shares a pending sequence, or starts one. */
  function Start(s: Client): Client {
    if s.closed || !s.phase.Idle? then s
    else s.(canConnect := true, phase := Attempting(0), attempts := s.attempts + [Trying],
            sequences := s.sequences + 1, failures := 0)
  }

  /** The reconnect listener of an attempt's socket; it runs at most once per socket. */
  function Down(s: Client, k: nat): Client
    requires k < |s.attempts|
  {
    if !s.attempts[k].Trying? || !s.phase.Attempting? then s
    else
      var s1 := s.(attempts := s.attempts[k := Failed], failures := s.failures + 1);
      if MAX_RETRIED < s.phase.tried then s1.(phase := Idle, rejections := s.rejections + 1)
      else s1.(phase := Waiting(s.phase.tried), timers := s.timers + 1)
  }

  function Step(reconnect: bool, s: Client, e: Event): Client
    requires Enabled(s, e)
  {
    match e
    case Connect => Start(s)
    case SocketDown(k) => Down(s, k)
    case RetryTimer =>
      s.(timers := s.timers - 1, phase := Attempting(s.phase.tried + 1), attempts := s.attempts + [Trying])
    case SocketOpen =>
      s.(attempts := s.attempts[|s.attempts| - 1 := Opened], phase := Idle, lost := Handed(s), socket := Some([]))
    case SocketClosed(code) =>
      var s1 := s.(lost := Handed(s), socket := None);
      if !s.canConnect || s.closed then s1
      else if !reconnect || PRIVATE_USE_CODES <= code then s1.(closed := true)
      else Start(s1)
    case Send(x) =>
      if s.closed then s
      else if s.socket.None? then s.(buffer := s.buffer + [x], accepted := s.accepted + [x])
      else s.(socket := Some(s.socket.value + s.buffer + [x]), buffer := [], accepted := s.accepted + [x])
    case Close => s.(closed := true)
    case Disconnect => s.(canConnect := false)
  }

  // ---------- the invariant ----------

  function Flatten(ss: seq<seq<Encoded>>): seq<Encoded>
    decreases |ss|
  {
    if ss == [] then [] else Flatten(ss[..|ss| - 1]) + ss[|ss| - 1]
  }

  ghost predicate Retries(s: Client) {
    && s.timers == (if s.phase.Waiting? then 1 else 0)
    && (forall k :: 0 <= k < |s.attempts| ==> (s.attempts[k].Trying? <==> s.phase.Attempting? && k == |s.attempts| - 1))
    && (s.phase.Attempting? ==> s.attempts != [] && s.phase.tried <= MAX_RETRIED + 1 && s.failures == s.phase.tried)
    && (s.phase.Waiting? ==> s.phase.tried <= MAX_RETRIED && s.failures == s.phase.tried + 1)
    && (s.socket.Some? ==> s.phase.Idle?)
    && (s.sequences == 0 ==> s.socket.None? && s.phase.Idle?)
    && s.failures <= MAX_RETRIED + 2
  }

  /** Everything accepted was handed to a socket or is buffered, once and in order. */
  ghost predicate InOrder(s: Client) {
    Flatten(Handed(s)) + s.buffer == s.accepted
  }

  lemma StepRetries(reconnect: bool, s: Client, e: Event)
    requires Retries(s) && Enabled(s, e)
    ensures Retries(Step(reconnect, s, e))
  {
  }

  lemma OpenedInOrder(s: Client)
    requires InOrder(s) && Enabled(s, SocketOpen)
    ensures InOrder(Step(true, s, SocketOpen)) && InOrder(Step(false, s, SocketOpen))
  {
    assert (Handed(s) + [[]])[..|Handed(s)|] == Handed(s);
    hide Handed;
  }

  lemma LostInOrder(reconnect: bool, s: Client, code: int)
    requires InOrder(s) && Enabled(s, SocketClosed(code))
    ensures InOrder(Step(reconnect, s, SocketClosed(code)))
  {
    assert Handed(Step(reconnect, s, SocketClosed(code))) == Handed(s);
    hide Flatten, Handed;
  }

  lemma SentInOrder(s: Client, x: Encoded)
    requires InOrder(s)
    ensures InOrder(Step(true, s, Send(x))) && InOrder(Step(false, s, Send(x)))
  {
    if !s.closed && s.socket.Some? {
      var now := s.socket.value + s.buffer + [x];
      assert (s.lost + [s.socket.value])[..|s.lost|] == s.lost;
      assert (s.lost + [now])[..|s.lost|] == s.lost;
      assert Flatten(s.lost + [now]) == Flatten(s.lost) + now;
    }
  }

  lemma StepInOrder(reconnect: bool, s: Client, e: Event)
    requires InOrder(s) && Enabled(s, e)
    ensures InOrder(Step(reconnect, s, e))
  {
    match e {
      case SocketOpen => OpenedInOrder(s); hide InOrder, Handed;
      case SocketClosed(code) => LostInOrder(reconnect, s, code); hide InOrder, Handed, Start;
      case Send(x) => SentInOrder(s, x); hide InOrder, Handed;
      case _ => hide Flatten;
    }
  }

  // ---------- runs ----------

  ghost predicate Possible(reconnect: bool, es: seq<Event>)
    decreases |es|, 0
  {
    es == [] || (Possible(reconnect, es[..|es| - 1]) && Enabled(After(reconnect, es[..|es| - 1]), es[|es| - 1]))
  }

  ghost function After(reconnect: bool, es: seq<Event>): Client
    requires Possible(reconnect, es)
    decreases |es|, 1
  {
    if es == [] then Fresh else Step(reconnect, After(reconnect, es[..|es| - 1]), es[|es| - 1])
  }

  lemma {:induction false} RunOk(reconnect: bool, es: seq<Event>)
    requires Possible(reconnect, es)
    ensures Retries(After(reconnect, es)) && InOrder(After(reconnect, es))
    decreases |es|
  {
    if es != [] {
      var s, e := After(reconnect, es[..|es| - 1]), es[|es| - 1];
      RunOk(reconnect, es[..|es| - 1]);
      StepRetries(reconnect, s, e);
      StepInOrder(reconnect, s, e);
      hide Retries, InOrder, Step;
    }
  }

  /** The samples offered while the client was not closed. */
  ghost function Accepted(reconnect: bool, es: seq<Event>): seq<Encoded>
    requires Possible(reconnect, es)
    decreases |es|
  {
    if es == [] then []
    else
      var e := es[|es| - 1];
      Accepted(reconnect, es[..|es| - 1])
      + if e.Send? && !After(reconnect, es[..|es| - 1]).closed then [e.sample] else []
  }

  /** Exactly once, first in first out: over any run of opens, closes, reconnects and sends,
      what all sockets were handed, followed by the buffer, is what was accepted, in order. */
  lemma {:induction false} ExactlyOnceInOrder(reconnect: bool, es: seq<Event>)
    requires Possible(reconnect, es)
    ensures var s := After(reconnect, es);
            Flatten(Handed(s)) + s.buffer == Accepted(reconnect, es)
    decreases |es|
  {
    AcceptedIs(reconnect, es);
    RunOk(reconnect, es);
  }

  lemma AcceptedStep(reconnect: bool, s: Client, e: Event)
    requires Enabled(s, e)
    ensures Step(reconnect, s, e).accepted == s.accepted + if e.Send? && !s.closed then [e.sample] else []
  {
  }

  lemma {:induction false} AcceptedIs(reconnect: bool, es: seq<Event>)
    requires Possible(reconnect, es)
    ensures After(reconnect, es).accepted == Accepted(reconnect, es)
    decreases |es|
  {
    if es != [] {
      AcceptedIs(reconnect, es[..|es| - 1]);
      hide Retries, InOrder, Start, Down;
      AcceptedStep(reconnect, After(reconnect, es[..|es| - 1]), es[|es| - 1]);
    }
  }

  /** How many sockets the latest attempt sequence has made so far, counted along the run. */
  ghost function Tried(reconnect: bool, es: seq<Event>): nat
    requires Possible(reconnect, es)
    decreases |es|
  {
    if es == [] then 0
    else
      var s, s' := After(reconnect, es[..|es| - 1]), After(reconnect, es);
      if s'.sequences != s.sequences then 1
      else Tried(reconnect, es[..|es| - 1]) + if |s'.attempts| == |s.attempts| then 0 else 1
  }

  ghost predicate LastFailed(attempts: seq<Attempt>, n: nat) {
    n <= |attempts| && forall k :: |attempts| - n <= k < |attempts| ==> attempts[k].Failed?
  }

  /** The sockets of the latest sequence failed one after the other up to the current one. */
  ghost predicate OneByOne(s: Client, n: nat) {
    && n <= |s.attempts|
    && (s.phase.Attempting? ==> n == s.phase.tried + 1 && LastFailed(s.attempts[..|s.attempts| - 1], n - 1))
    && (s.phase.Waiting? ==> n == s.phase.tried + 1 && LastFailed(s.attempts, n))
    && (s.phase.Idle? && 0 < n ==> s.attempts[|s.attempts| - 1].Opened? || (n == 12 && LastFailed(s.attempts, n)))
    && n <= 12
  }

  lemma DownOneByOne(s: Client, k: nat, n: nat)
    requires Retries(s) && k < |s.attempts| && OneByOne(s, n)
    ensures OneByOne(Down(s, k), n)
  {
    var s' := Down(s, k);
    if s.attempts[k].Trying? && s.phase.Attempting? {
      assert s'.attempts[..|s.attempts| - 1] == s.attempts[..|s.attempts| - 1];
      assert LastFailed(s'.attempts, n) by {
        var before := s.attempts[..|s.attempts| - 1];
        forall i | |s'.attempts| - n <= i < |s'.attempts| ensures s'.attempts[i].Failed? {
          assert i < |before| ==> before[i].Failed?;
        }
      }
    }
  }

  lemma StepOneByOne(reconnect: bool, s: Client, e: Event, n: nat)
    requires Retries(s) && Enabled(s, e) && OneByOne(s, n)
    ensures var s' := Step(reconnect, s, e);
            OneByOne(s', if s'.sequences != s.sequences then 1 else n + if |s'.attempts| == |s.attempts| then 0 else 1)
  {
    if e.SocketDown? {
      DownOneByOne(s, e.socket, n);
      hide OneByOne, Retries;
    } else if e.RetryTimer? {
      var s' := Step(reconnect, s, e);
      assert s'.attempts[..|s'.attempts| - 1] == s.attempts;
    }
  }

  lemma {:induction false} RunOneByOne(reconnect: bool, es: seq<Event>)
    requires Possible(reconnect, es)
    ensures OneByOne(After(reconnect, es), Tried(reconnect, es))
    decreases |es|
  {
    if es != [] {
      RunOk(reconnect, es[..|es| - 1]);
      RunOneByOne(reconnect, es[..|es| - 1]);
      StepOneByOne(reconnect, After(reconnect, es[..|es| - 1]), es[|es| - 1], Tried(reconnect, es[..|es| - 1]));
      hide OneByOne, Retries, InOrder, Step;
    }
  }

  /** One `connect` makes at most 12 attempts, and it rejects in the very step in which all 12
      have failed, and in no other. */
  lemma TwelveAttempts(reconnect: bool, es: seq<Event>, e: Event)
    requires Possible(reconnect, es) && Enabled(After(reconnect, es), e)
    ensures var s := After(reconnect, es);
            var s' := Step(reconnect, s, e);
            && Tried(reconnect, es) <= 12
            && (s'.rejections > s.rejections <==>
                  Tried(reconnect, es) == 12 && !LastFailed(s.attempts, 12) && LastFailed(s'.attempts, 12))
            && s'.timers <= 1
  {
    RunOk(reconnect, es);
    RunOneByOne(reconnect, es);
    var s := After(reconnect, es);
    var n := Tried(reconnect, es);
    StepRetries(reconnect, s, e);
    hide After, Possible, Tried, InOrder;
    RejectsWhenAllFailed(reconnect, s, e, n);
  }

  lemma RejectsWhenAllFailed(reconnect: bool, s: Client, e: Event, n: nat)
    requires Retries(s) && Enabled(s, e) && OneByOne(s, n)
    ensures var s' := Step(reconnect, s, e);
            s'.rejections > s.rejections <==> n == 12 && !LastFailed(s.attempts, 12) && LastFailed(s'.attempts, 12)
  {
    var s' := Step(reconnect, s, e);
    assert LastFailed(s'.attempts, 12) ==> s'.attempts[|s'.attempts| - 1].Failed?;
    if !s.phase.Attempting? {
      assert s'.attempts == s.attempts || s'.attempts[|s'.attempts| - 1].Trying?;
    } else {
      assert s.attempts[|s.attempts| - 1].Trying?;
      if s'.rejections > s.rejections {
        var before := s.attempts[..|s.attempts| - 1];
        assert LastFailed(before, 11);
        forall k | |s'.attempts| - 12 <= k < |s'.attempts| ensures s'.attempts[k].Failed? {
          assert k < |before| ==> before[k].Failed?;
        }
      }
    }
  }

  /** Both an error and a close on one socket cost one retry only. */
  lemma OneRetryPerSocket(reconnect: bool, es: seq<Event>, k: nat)
    requires Possible(reconnect, es) && k < |After(reconnect, es).attempts|
    ensures var s := After(reconnect, es);
            Down(Down(s, k), k) == Down(s, k)
            && (Down(s, k) != s ==> s.phase.Attempting? && k == |s.attempts| - 1)
  {
    RunOk(reconnect, es);
  }

  lemma ClosedStep(reconnect: bool, s: Client, e: Event)
    requires s.closed && Enabled(s, e)
    ensures var s' := Step(reconnect, s, e); s'.closed && s'.sequences == s.sequences
  {
  }

  /** Once closed, always closed, and no new sequence of attempts begins. */
  lemma {:induction false} ClosedForGood(reconnect: bool, es: seq<Event>, n: nat)
    requires Possible(reconnect, es) && n <= |es| && Possible(reconnect, es[..n]) && After(reconnect, es[..n]).closed
    ensures After(reconnect, es).closed
    ensures After(reconnect, es).sequences == After(reconnect, es[..n]).sequences
    decreases |es|
  {
    if n < |es| {
      assert es[..|es| - 1][..n] == es[..n];
      ClosedForGood(reconnect, es[..|es| - 1], n);
      hide Retries, InOrder, Down, Start;
      ClosedStep(reconnect, After(reconnect, es[..|es| - 1]), es[|es| - 1]);
    } else {
      assert es[..n] == es;
    }
  }

  // ---------- the flags as history ----------

  /** The last step of the run began a sequence of attempts. */
  ghost predicate Begins(reconnect: bool, es: seq<Event>)
    requires Possible(reconnect, es)
  {
    es != [] && After(reconnect, es).sequences > After(reconnect, es[..|es| - 1]).sequences
  }

  /** A `disconnect` came after the last step that began a sequence. */
  ghost predicate Disconnected(reconnect: bool, es: seq<Event>)
    requires Possible(reconnect, es)
    decreases |es|
  {
    es != [] && (es[|es| - 1].Disconnect? || (!Begins(reconnect, es) && Disconnected(reconnect, es[..|es| - 1])))
  }

  /** The client was closed, or it lost a socket that it had not disconnected itself, and was not
      to reconnect or the code was one for private use. */
  ghost predicate Ended(reconnect: bool, es: seq<Event>)
    requires Possible(reconnect, es)
    decreases |es|
  {
    es != [] &&
    var init, e := es[..|es| - 1], es[|es| - 1];
    || Ended(reconnect, init) || e.Close?
    || (e.SocketClosed? && !Disconnected(reconnect, init) && (!reconnect || 4000 <= e.code))
  }

  /** A socket was opened and has not been lost since. */
  ghost predicate Attached(es: seq<Event>)
    decreases |es|
  {
    es != [] && (es[|es| - 1].SocketOpen? || (!es[|es| - 1].SocketClosed? && Attached(es[..|es| - 1])))
  }

  lemma {:induction false} FlagsAreHistory(reconnect: bool, es: seq<Event>)
    requires Possible(reconnect, es)
    ensures var s := After(reconnect, es);
            && (s.canConnect <==> !Disconnected(reconnect, es))
            && (s.closed <==> Ended(reconnect, es))
            && (s.socket.Some? <==> Attached(es))
    decreases |es|
  {
    if es != [] {
      var init, e := es[..|es| - 1], es[|es| - 1];
      FlagsAreHistory(reconnect, init);
      RunOk(reconnect, init);
      hide InOrder, Down;
      FlagsStep(reconnect, After(reconnect, init), e);
      hide Retries, Step;
    }
  }

  /** How one step moves the flags. */
  lemma FlagsStep(reconnect: bool, s: Client, e: Event)
    requires Retries(s) && Enabled(s, e)
    ensures var s' := Step(reconnect, s, e);
            var begins := s'.sequences > s.sequences;
            var ends := e.SocketClosed? && s.canConnect && (!reconnect || 4000 <= e.code);
            && (s'.canConnect <==> !e.Disconnect? && (begins || s.canConnect))
            && (s'.closed <==> s.closed || e.Close? || ends)
            && (s'.socket.Some? <==> e.SocketOpen? || (s.socket.Some? && !e.SocketClosed?))
  {
  }

  /**
   When a sequence of attempts begins, told from the run alone: at the `connect` of a client that
   was not closed, and at the loss of a socket if the client is to reconnect, the close code is
   not one for private use, nobody has disconnected since the last sequence began, and the client
   was not closed.  It begins with one new socket, and no other step begins one.
   */
  lemma BeginsExactly(reconnect: bool, es: seq<Event>, e: Event)
    requires Possible(reconnect, es) && Enabled(After(reconnect, es), e)
    ensures var s, s' := After(reconnect, es), Step(reconnect, After(reconnect, es), e);
            var lost := e.SocketClosed? && reconnect && e.code < 4000 && !Disconnected(reconnect, es);
            var begins := !Ended(reconnect, es) && (e.Connect? || lost);
            && s'.sequences == s.sequences + (if begins then 1 else 0)
            && (begins ==> s'.attempts == s.attempts + [Trying] && s'.phase == Attempting(0))
  {
    FlagsAreHistory(reconnect, es);
    RunOk(reconnect, es);
    hide Possible, After, InOrder, Disconnected, Ended, Attached;
  }

  /** Losing the socket starts a new sequence exactly if the client wants to reconnect, was not
      disconnected or closed, and the close code is not in the private-use range. */
  lemma ReconnectsExactly(reconnect: bool, es: seq<Event>, code: int)
    requires Possible(reconnect, es) && Attached(es)
    ensures Enabled(After(reconnect, es), SocketClosed(code))
    ensures var s, s' := After(reconnect, es), Step(reconnect, After(reconnect, es), SocketClosed(code));
            && s'.socket.None?
            && (s'.sequences == s.sequences + 1 <==>
                  reconnect && code < 4000 && !Disconnected(reconnect, es) && !Ended(reconnect, es))
            && (s'.closed <==>
                  Ended(reconnect, es) || (!Disconnected(reconnect, es) && (!reconnect || 4000 <= code)))
  {
    FlagsAreHistory(reconnect, es);
    BeginsExactly(reconnect, es, SocketClosed(code));
    hide Possible, After, Retries, Disconnected, Ended, Attached;
  }

  /** A sample is refused by a closed client, waits while there is no socket, and otherwise reaches
      the current socket at once, behind everything that waited. */
  lemma SentAtOnce(reconnect: bool, es: seq<Event>, x: Encoded)
    requires Possible(reconnect, es)
    ensures var s, s' := After(reconnect, es), Step(reconnect, After(reconnect, es), Send(x));
            && (Ended(reconnect, es) ==> s' == s)
            && (!Ended(reconnect, es) && !Attached(es) ==> Handed(s') == Handed(s) && s'.buffer == s.buffer + [x])
            && (!Ended(reconnect, es) && Attached(es) ==>
                  && s.socket.Some? && s'.buffer == [] && s'.lost == s.lost
                  && s'.socket == Some(s.socket.value + s.buffer + [x]))
  {
    FlagsAreHistory(reconnect, es);
    hide Possible, After, Disconnected, Ended, Attached;
  }

  // ---------- the object ----------

  class ObserverServiceClient {
    const reconnect: bool
    var closed: bool
    var canConnect: bool
    var phase: Phase
    var timers: nat
    var attempts: seq<Attempt>
    var buffer: seq<Encoded>
    var socket: Option<seq<Encoded>>
    var lost: seq<seq<Encoded>>
    ghost var accepted: seq<Encoded>
    ghost var sequences: nat
    ghost var failures: nat
    ghost var rejections: nat

    ghost function State(): Client
      reads this
    {
      Client(closed, canConnect, phase, timers, attempts, buffer, socket, lost, accepted, sequences, failures,
          rejections)
    }

    constructor (reconnect: bool)
      ensures State() == Fresh && this.reconnect == reconnect
    {
      this.reconnect := reconnect;
      closed, canConnect, phase, timers, attempts := false, true, Idle, 0, [];
      buffer, socket, lost, accepted, sequences, failures, rejections := [], None, [], [], 0, 0, 0;
    }

    /** `thrown` when the client is closed; a sequence in progress is shared. */
    method StartConnecting() returns (thrown: bool)
      modifies this
      ensures State() == Start(old(State())) && thrown == old(closed)
      ensures old(!closed && phase.Idle?) ==>
                && canConnect && phase == Attempting(0) && attempts == old(attempts) + [Trying]
                && !closed && socket == old(socket) && buffer == old(buffer)
      ensures old(closed || !phase.Idle?) ==> State() == old(State())
    {
      if closed {
        return true;
      }
      thrown := false;
      if !phase.Idle? {
        return;
      }
      canConnect, phase, attempts := true, Attempting(0), attempts + [Trying];
      sequences, failures := sequences + 1, 0;
    }

    /** The listener for `error` and `close` of a socket that is still being opened. */
    method OnSocketDown(k: nat)
      requires k < |attempts|
      modifies this
      ensures State() == Step(reconnect, old(State()), SocketDown(k))
    {
      if !attempts[k].Trying? || !phase.Attempting? {
        return;
      }
      attempts := attempts[k := Failed];
      failures := failures + 1;
      if MAX_RETRIED < phase.tried {
        phase, rejections := Idle, rejections + 1;
      } else {
        phase, timers := Waiting(phase.tried), timers + 1;
      }
    }

    method OnRetryTimer()
      requires Enabled(State(), RetryTimer)
      modifies this
      ensures State() == Step(reconnect, old(State()), RetryTimer)
    {
      timers, phase, attempts := timers - 1, Attempting(phase.tried + 1), attempts + [Trying];
    }

    method OnOpen()
      requires Enabled(State(), SocketOpen)
      modifies this
      ensures State() == Step(reconnect, old(State()), SocketOpen)
    {
      attempts := attempts[|attempts| - 1 := Opened];
      phase := Idle;
      Retire();
      socket := Some([]);
    }

    /** The current socket, if any, becomes an earlier one. */
    method Retire()
      modifies this
      ensures State() == old(State()).(lost := Handed(old(State())), socket := None)
    {
      if socket.Some? {
        lost := lost + [socket.value];
        socket := None;
      }
    }

    method OnClosed(code: int)
      requires socket.Some?
      modifies this
      ensures State() == Step(reconnect, old(State()), SocketClosed(code))
    {
      Retire();
      if !canConnect || closed {
        return;
      }
      var selfClosed := PRIVATE_USE_CODES <= code;
      if !reconnect || selfClosed {
        Shut();
        return;
      }
      var thrown := StartConnecting();
    }

    /** `close`. */
    method Shut()
      modifies this
      ensures State() == Step(reconnect, old(State()), Close) && State() == old(State()).(closed := true)
    {
      if closed {
        return;
      }
      closed := true;
    }

    /** `disconnect`, once no sequence is in progress; the socket's own close event comes later. */
    method StopConnecting() returns (thrown: bool)
      requires phase.Idle?
      modifies this
      ensures thrown == old(closed)
      ensures State() == if thrown then old(State()) else Step(reconnect, old(State()), Disconnect)
      ensures State() == old(State()).(canConnect := old(closed && canConnect))
    {
      if closed {
        return true;
      }
      canConnect := false;
      return false;
    }

    /** `send`: `thrown` when the client is closed. */
    method SendSample(x: Encoded) returns (thrown: bool)
      modifies this
      ensures State() == Step(reconnect, old(State()), Send(x)) && thrown == old(closed)
      ensures old(!closed && socket.Some?) ==>
                buffer == [] && socket == Some(old(socket).value + old(buffer) + [x]) && lost == old(lost)
      ensures old(!closed && socket.None?) ==> buffer == old(buffer) + [x] && socket.None? && lost == old(lost)
    {
      if closed {
        return true;
      }
      accepted := accepted + [x];
      if socket.None? {
        buffer := buffer + [x];
        return false;
      }
      ghost var was, waiting := socket.value, buffer;
      assert was + waiting[..0] == was;
      if 0 < |buffer| {
        var i := 0;
        while i < |buffer|
          invariant buffer == waiting && i <= |waiting| && socket == Some(was + waiting[..i])
          invariant State() == old(State()).(accepted := old(accepted) + [x], socket := socket)
        {
          assert was + waiting[..i + 1] == was + waiting[..i] + [waiting[i]];
          socket := Some(socket.value + [buffer[i]]);
          i := i + 1;
        }
        assert waiting[..|waiting|] == waiting;
        buffer := [];
      }
      assert socket.value == was + waiting;
      socket := Some(socket.value + [x]);
      return false;
    }
  }
}
