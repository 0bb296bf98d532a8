/**
 A client's events: messages out through its web socket, messages in to the listeners of
 their type, and a closed flag that ends both for good.
 */
module ClientEventsModel {
  type EventName = string

  /** A message as far as dispatching goes: data that does not parse, that parses to `null`, or
      that parses to something with a type, which is "" where the original finds none. */
  datatype Data = Unparsable | Null | Parsed(messageType: EventName, body: string)

  datatype Listener = Listener(event: EventName, id: nat, once: bool)

  /** One call of a listener. */
  datatype Call = Call(listener: Listener, data: Data)

  /** `listeners` in the order of registration; `sent` is what the socket was handed, `calls`
      what listeners were called with, and `thrown` counts exceptions, all three history. */
  datatype Channel = Channel(closed: bool, listeners: seq<Listener>, sent: seq<string>, calls: seq<Call>, thrown: nat)

  const Open := Channel(false, [], [], [], 0)

  const CLOSE: EventName := "close"

  datatype Event =
    | Send(message: string)
    | On(listener: Listener)
    | Off(event: EventName, id: nat)
    | Receive(data: Data)
    | Close

  /** The listeners of one event, in order. */
  function Of(ls: seq<Listener>, event: EventName): seq<Listener>
    decreases |ls|
  {
    if ls == [] then [] else (if ls[0].event == event then [ls[0]] else []) + Of(ls[1..], event)
  }

  function CallsOf(ls: seq<Listener>, data: Data): (cs: seq<Call>)
    ensures |cs| == |ls|
    ensures forall i :: 0 <= i < |ls| ==> cs[i] == Call(ls[i], data)
  {
    if ls == [] then [] else [Call(ls[0], data)] + CallsOf(ls[1..], data)
  }

  /** Listeners registered with `once` go when they are called. */
  function AfterEmit(ls: seq<Listener>, event: EventName): seq<Listener>
    decreases |ls|
  {
    if ls == [] then []
    else (if ls[0].event == event && ls[0].once then [] else [ls[0]]) + AfterEmit(ls[1..], event)
  }

  /** `_emit`: every listener of the event is called, in order. */
  function Emit(c: Channel, event: EventName, data: Data): Channel {
    c.(listeners := AfterEmit(c.listeners, event), calls := c.calls + CallsOf(Of(c.listeners, event), data))
  }

  /** Removes the listener of the event with this id, the latest if it is registered twice. */
  function Removed(ls: seq<Listener>, event: EventName, id: nat): seq<Listener>
    decreases |ls|
  {
    if ls == [] then []
    else
      var init, last := ls[..|ls| - 1], ls[|ls| - 1];
      if last.event == event && last.id == id then init else Removed(init, event, id) + [last]
  }

  function Step(c: Channel, e: Event): Channel {
    match e
    case Send(m) => if c.closed then c else c.(sent := c.sent + [m])
    case On(l) => c.(listeners := c.listeners + [l])
    case Off(event, id) => c.(listeners := Removed(c.listeners, event, id))
    case Receive(data) =>
      if data.Null? then c.(thrown := c.thrown + 1)
      else if data.Unparsable? || data.messageType == "" || Of(c.listeners, data.messageType) == [] then c
      else Emit(c, data.messageType, data)
    case Close =>
      if c.closed then c
      else Emit(c.(closed := true), CLOSE, Unparsable).(listeners := [])
  }

  function After(c: Channel, es: seq<Event>): Channel
    decreases |es|
  {
    if es == [] then c else Step(After(c, es[..|es| - 1]), es[|es| - 1])
  }

  // ---------- what the closed flag gates ----------

  /** The messages among the events, in order. */
  function Sends(es: seq<Event>): seq<string>
    decreases |es|
  {
    if es == [] then []
    else Sends(es[..|es| - 1]) + if es[|es| - 1].Send? then [es[|es| - 1].message] else []
  }

  lemma {:induction false} OpenPart(c: Channel, es: seq<Event>)
    requires !c.closed && Close !in es
    ensures !After(c, es).closed && After(c, es).sent == c.sent + Sends(es)
    decreases |es|
  {
    hide Removed, Of, AfterEmit, CallsOf;
    if es != [] {
      var init := es[..|es| - 1];
      assert es[|es| - 1] in es && forall e :: e in init ==> e in es;
      OpenPart(c, init);
    }
  }

  lemma {:induction false} ClosedPart(c: Channel, es: seq<Event>)
    requires c.closed
    ensures After(c, es).closed && After(c, es).sent == c.sent
    ensures c.listeners == [] && (forall e :: e in es ==> !e.On?) ==>
              After(c, es).listeners == [] && After(c, es).calls == c.calls
    decreases |es|
  {
    if es != [] {
      var init := es[..|es| - 1];
      assert es[|es| - 1] in es && forall e :: e in init ==> e in es;
      ClosedPart(c, init);
    }
  }

  lemma {:induction false} AfterConcat(c: Channel, a: seq<Event>, b: seq<Event>)
    ensures After(c, a + b) == After(After(c, a), b)
    decreases |b|
  {
    if b == [] {
      assert a + b == a;
    } else {
      assert (a + b)[..|a + b| - 1] == a + b[..|b| - 1];
      AfterConcat(c, a, b[..|b| - 1]);
    }
  }

  /**
   Closing ends it.  Around the first close: the socket was handed exactly the messages sent
   before it, in order; the listeners of `close` were called once each, in the order they
   were registered, whatever else is closed later; and unless a listener is registered
   afterwards, no listener is ever called again.
   */
  lemma CloseEndsIt(before: seq<Event>, after: seq<Event>)
    requires Close !in before
    ensures var was, now := After(Open, before), After(Open, before + [Close] + after);
            && now.closed
            && now.sent == Sends(before)
            && ((forall e :: e in after ==> !e.On?) ==>
                  && now.listeners == []
                  && now.calls == was.calls + CallsOf(Of(was.listeners, CLOSE), Unparsable))
  {
    OpenPart(Open, before);
    var was := After(Open, before);
    AfterConcat(Open, before, [Close]);
    AfterConcat(Open, before + [Close], after);
    assert [Close][..0] == [];
    assert After(was, [Close]) == Step(was, Close);
    hide After, CallsOf, Of, AfterEmit;
    ClosedPart(Step(was, Close), after);
  }

  /** A message calls exactly the listeners of its type, if it has one: a listener is called if
      and only if it is registered for that type.  Data that parses to `null` throws instead. */
  lemma DispatchedExactly(c: Channel, data: Data, l: Listener)
    ensures var c' := Step(c, Receive(data));
            && |c.calls| <= |c'.calls| && c'.calls[..|c.calls|] == c.calls
            && (Call(l, data) in c'.calls[|c.calls|..] <==>
                  data.Parsed? && data.messageType != "" && l in c.listeners && l.event == data.messageType)
            && (c'.thrown == c.thrown + if data.Null? then 1 else 0)
  {
    var c' := Step(c, Receive(data));
    if data.Parsed? {
      OfIs(c.listeners, data.messageType);
      var ls := Of(c.listeners, data.messageType);
      CalledAre(ls, data, l);
      hide Of, CallsOf;
      if data.messageType != "" && ls != [] {
        assert c'.calls[|c.calls|..] == CallsOf(ls, data);
      }
    }
  }

  lemma CalledAre(ls: seq<Listener>, data: Data, l: Listener)
    ensures Call(l, data) in CallsOf(ls, data) <==> l in ls
  {
    var cs := CallsOf(ls, data);
    if l in ls {
      var i :| 0 <= i < |ls| && ls[i] == l;
      assert cs[i] == Call(l, data);
    }
  }

  /** A message whose type is `close` calls the close listeners of an open channel, which stays
      open; those registered with `once` are then gone when the channel really closes. */
  lemma TypedCloseIsNoClose(c: Channel, body: string)
    requires !c.closed && Of(c.listeners, CLOSE) != []
    ensures var c' := Step(c, Receive(Parsed(CLOSE, body)));
            && !c'.closed && c'.calls == c.calls + CallsOf(Of(c.listeners, CLOSE), Parsed(CLOSE, body))
            && forall l :: l in Of(c'.listeners, CLOSE) <==> l in Of(c.listeners, CLOSE) && !l.once
  {
    EmittedAre(c.listeners, CLOSE);
    OfIs(c.listeners, CLOSE);
    OfIs(AfterEmit(c.listeners, CLOSE), CLOSE);
  }

  lemma {:induction false} EmittedAre(ls: seq<Listener>, event: EventName)
    ensures forall l :: l in AfterEmit(ls, event) <==> l in ls && !(l.event == event && l.once)
    decreases |ls|
  {
    if ls != [] {
      assert ls == [ls[0]] + ls[1..];
      EmittedAre(ls[1..], event);
    }
  }

  lemma {:induction false} OfIs(ls: seq<Listener>, event: EventName)
    ensures forall l :: l in Of(ls, event) <==> l in ls && l.event == event
    decreases |ls|
  {
    if ls != [] {
      assert ls == [ls[0]] + ls[1..];
      OfIs(ls[1..], event);
    }
  }

  /**
   Emission is in the order of registration: wherever a listener stands, it is called after those
   before it and before those after it, once, if it is the event's; and it is then gone if and
   only if it is the event's and was registered with `once`.
   */
  lemma EmittedInOrder(before: seq<Listener>, l: Listener, after: seq<Listener>, event: EventName)
    ensures Of(before + [l] + after, event)
         == Of(before, event) + (if l.event == event then [l] else []) + Of(after, event)
    ensures AfterEmit(before + [l] + after, event)
         == AfterEmit(before, event) + (if l.event == event && l.once then [] else [l]) + AfterEmit(after, event)
    ensures Of([], event) == [] && AfterEmit([], event) == []
  {
    OfConcat(before + [l], after, event);
    OfConcat(before, [l], event);
    AfterEmitConcat(before + [l], after, event);
    AfterEmitConcat(before, [l], event);
    OneEmitted(l, event);
    hide Of, AfterEmit;
  }

  lemma OneEmitted(l: Listener, event: EventName)
    ensures Of([l], event) == if l.event == event then [l] else []
    ensures AfterEmit([l], event) == if l.event == event && l.once then [] else [l]
    ensures Of([], event) == [] && AfterEmit([], event) == []
  {
  }

  lemma {:induction false} OfConcat(a: seq<Listener>, b: seq<Listener>, event: EventName)
    ensures Of(a + b, event) == Of(a, event) + Of(b, event)
    decreases |a|
  {
    if a == [] {
      assert a + b == b;
    } else {
      assert (a + b)[1..] == a[1..] + b;
      OfConcat(a[1..], b, event);
    }
  }

  lemma {:induction false} AfterEmitConcat(a: seq<Listener>, b: seq<Listener>, event: EventName)
    ensures AfterEmit(a + b, event) == AfterEmit(a, event) + AfterEmit(b, event)
    decreases |a|
  {
    if a == [] {
      assert a + b == b;
    } else {
      assert (a + b)[1..] == a[1..] + b;
      AfterEmitConcat(a[1..], b, event);
    }
  }

  /** `off` takes out the latest listener with the event and the id, and no other. */
  lemma {:induction false} OffTakesOutTheLatest(before: seq<Listener>, l: Listener, after: seq<Listener>)
    requires forall m :: m in after ==> m.event != l.event || m.id != l.id
    ensures Removed(before + [l] + after, l.event, l.id) == before + after
    ensures Removed(after, l.event, l.id) == after
    decreases |after|
  {
    var all := before + [l] + after;
    if after == [] {
      assert all[..|all| - 1] == before && before + after == before;
    } else {
      var init := after[..|after| - 1];
      assert all[..|all| - 1] == before + [l] + init;
      OffTakesOutTheLatest(before, l, init);
      assert before + after == before + init + [after[|after| - 1]];
    }
  }

  // ---------- the object ----------

  class ClientEvents {
    var closed: bool
    var listeners: seq<Listener>
    ghost var sent: seq<string>
    ghost var calls: seq<Call>
    ghost var thrown: nat

    ghost function State(): Channel
      reads this
    {
      Channel(closed, listeners, sent, calls, thrown)
    }

    constructor ()
      ensures State() == Open
    {
      closed, listeners, sent, calls, thrown := false, [], [], [], 0;
    }

    method SendMessage(m: string)
      modifies this
      ensures State() == Step(old(State()), Send(m))
      ensures sent == old(sent) + if old(closed) then [] else [m]
    {
      if closed {
        return;
      }
      sent := sent + [m];
    }

    method AddListener(l: Listener)
      modifies this
      ensures State() == Step(old(State()), On(l)) && listeners == old(listeners) + [l]
    {
      listeners := listeners + [l];
    }

    method RemoveListener(event: EventName, id: nat)
      modifies this
      ensures State() == Step(old(State()), Off(event, id))
    {
      listeners := Removed(listeners, event, id);
    }

    /** The emitter: listeners are called from a copy of the list. */
    method EmitEvent(event: EventName, data: Data)
      modifies this
      ensures State() == Emit(old(State()), event, data)
    {
      hide Of, AfterEmit;
      var ls := Of(listeners, event);
      var i := 0;
      while i < |ls|
        invariant i <= |ls|
        invariant calls == old(calls) + CallsOf(ls, data)[..i]
        invariant closed == old(closed) && listeners == old(listeners) && sent == old(sent) && thrown == old(thrown)
      {
        calls := calls + [Call(ls[i], data)];
        i := i + 1;
      }
      listeners := AfterEmit(listeners, event);
    }

    /** `exception` where the original dereferences `null`. */
    method OnMessage(data: Data) returns (exception: bool)
      modifies this
      ensures State() == Step(old(State()), Receive(data)) && exception == data.Null?
    {
      if data.Null? {
        thrown := thrown + 1;
        return true;
      }
      exception := false;
      if data.Unparsable? || data.messageType == "" {
        return;
      }
      if 0 < |Of(listeners, data.messageType)| {
        EmitEvent(data.messageType, data);
        return;
      }
    }

    method Shut()
      modifies this
      ensures State() == Step(old(State()), Close)
      ensures closed && sent == old(sent) && (!old(closed) ==> listeners == [])
    {
      if closed {
        return;
      }
      closed := true;
      EmitEvent(CLOSE, Unparsable);
      while listeners != []
        invariant closed
        invariant State() == Emit(old(State()).(closed := true), CLOSE, Unparsable).(listeners := listeners)
        decreases |listeners|
      {
        FewerLeft(listeners, listeners[0].event);
        listeners := Without(listeners, listeners[0].event);
      }
    }
  }

  /** `removeAllListeners` of one event. */
  function Without(ls: seq<Listener>, event: EventName): (r: seq<Listener>)
    ensures |r| <= |ls|
    decreases |ls|
  {
    if ls == [] then [] else (if ls[0].event == event then [] else [ls[0]]) + Without(ls[1..], event)
  }

  lemma FewerLeft(ls: seq<Listener>, event: EventName)
    requires ls != [] && ls[0].event == event
    ensures |Without(ls, event)| < |ls|
  {
  }
}
