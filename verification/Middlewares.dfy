/**
 A chain of middlewares: each request is walked through the list by its own visitor, and a
 middleware goes on by calling `next`, at any moment and any number of times.
 */
module Middlewares {

  /** One request's walk: `input` is what every middleware of it is given, `ran` the
      middlewares run so far, and `failures` counts the `next` calls that were turned down. */
  datatype Visitor<T> = Visitor(input: T, lastVisited: int, ran: seq<nat>, failures: nat)

  /** `Begin` is a request, `Next(r, i)` a call of the `next` that middleware `i` got for request `r`. */
  datatype Event<T> = Begin(input: T) | Next(request: nat, caller: nat)

  /** `visitMiddleware` for a list of `n` middlewares. */
  function Visit<T>(n: nat, v: Visitor<T>, index: nat): Visitor<T> {
    if index != v.lastVisited + 1 then v.(failures := v.failures + 1)
    else if n <= index then v.(lastVisited := index)
    else v.(lastVisited := index, ran := v.ran + [index])
  }

  function Begun<T>(n: nat, input: T): Visitor<T> {
    Visit(n, Visitor(input, -1, [], 0), 0)
  }

  /** Only a middleware that was run has a `next` to call. */
  predicate Enabled<T>(vs: seq<Visitor<T>>, e: Event<T>) {
    e.Next? ==> e.request < |vs| && e.caller in vs[e.request].ran
  }

  function Step<T>(n: nat, vs: seq<Visitor<T>>, e: Event<T>): seq<Visitor<T>>
    requires Enabled(vs, e)
  {
    match e
    case Begin(x) => vs + [Begun(n, x)]
    case Next(r, i) => vs[r := Visit(n, vs[r], i + 1)]
  }

  ghost predicate Possible<T>(n: nat, es: seq<Event<T>>)
    decreases |es|, 0
  {
    es == [] || (Possible(n, es[..|es| - 1]) && Enabled(After(n, es[..|es| - 1]), es[|es| - 1]))
  }

  ghost function After<T>(n: nat, es: seq<Event<T>>): seq<Visitor<T>>
    requires Possible(n, es)
    decreases |es|, 1
  {
    if es == [] then [] else Step(n, After(n, es[..|es| - 1]), es[|es| - 1])
  }

  /** The middlewares run so far are the first ones of the list, in order, each once. */
  ghost predicate IsPrefix(n: nat, ran: seq<nat>, lastVisited: int) {
    && 0 <= lastVisited <= n
    && |ran| == (if lastVisited < n then lastVisited + 1 else n)
    && forall k :: 0 <= k < |ran| ==> ran[k] == k
  }

  ghost predicate Called<T>(es: seq<Event<T>>, r: nat, i: nat) {
    Next(r, i) in es
  }

  /** A middleware's `next` has been called exactly if the walk has gone past it. */
  ghost predicate Walked<T>(n: nat, es: seq<Event<T>>, v: Visitor<T>, r: nat) {
    && IsPrefix(n, v.ran, v.lastVisited)
    && forall i: nat :: Called(es, r, i) <==> i < v.lastVisited
  }

  lemma CalledMore<T>(es: seq<Event<T>>, e: Event<T>, r: nat, i: nat)
    ensures Called(es + [e], r, i) <==> Called(es, r, i) || e == Next(r, i)
  {
  }

  lemma {:induction false} RequestsExist<T>(n: nat, es: seq<Event<T>>, r: nat, i: nat)
    requires Possible(n, es) && Called(es, r, i)
    ensures r < |After(n, es)|
    decreases |es|
  {
    var init, e := es[..|es| - 1], es[|es| - 1];
    assert es == init + [e];
    CalledMore(init, e, r, i);
    if Called(init, r, i) {
      RequestsExist(n, init, r, i);
    }
  }

  lemma NextWalked<T>(n: nat, es: seq<Event<T>>, e: Event<T>, v: Visitor<T>, r: nat)
    requires Walked(n, es, v, r) && (e.Next? && e.request == r ==> e.caller in v.ran)
    ensures Walked(n, es + [e], if e.Next? && e.request == r then Visit(n, v, e.caller + 1) else v, r)
  {
    forall i: nat ensures Called(es + [e], r, i) <==> Called(es, r, i) || e == Next(r, i) {
      CalledMore(es, e, r, i);
    }
    hide Called;
  }

  lemma BegunWalked<T>(n: nat, es: seq<Event<T>>, input: T, r: nat)
    requires forall i: nat :: !Called(es, r, i)
    ensures Walked(n, es, Begun(n, input), r)
  {
    hide Called;
  }

  lemma {:induction false} RunWalked<T>(n: nat, es: seq<Event<T>>, r: nat)
    requires Possible(n, es) && r < |After(n, es)|
    ensures Walked(n, es, After(n, es)[r], r)
    decreases |es|
  {
    var init, e := es[..|es| - 1], es[|es| - 1];
    assert es == init + [e];
    var vs := After(n, init);
    if r < |vs| {
      RunWalked(n, init, r);
      NextWalked(n, init, e, vs[r], r);
      hide Walked;
    } else {
      forall i: nat ensures !Called(es, r, i) {
        CalledMore(init, e, r, i);
        if Called(init, r, i) {
          RequestsExist(n, init, r, i);
        }
      }
      hide Called, Walked;
      BegunWalked(n, es, e.input, r);
    }
  }

  /**
   Middleware order: whatever the middlewares do, those run for one request are always the
   first ones of the list, in order and each once.
   */
  lemma RunInOrderOnce<T>(n: nat, es: seq<Event<T>>, r: nat)
    requires Possible(n, es) && r < |After(n, es)|
    ensures var ran := After(n, es)[r].ran;
            |ran| <= n && forall k :: 0 <= k < |ran| ==> ran[k] == k
  {
    RunWalked(n, es, r);
  }

  /**
   A call of `next` runs the following middleware, or ends the list, if and only if it is the
   first such call by that middleware for that request; a surplus call fails and runs nothing.
   */
  lemma OnlyTheFirstNextCounts<T>(n: nat, es: seq<Event<T>>, r: nat, i: nat)
    requires Possible(n, es) && Enabled(After(n, es), Next(r, i))
    ensures var v, v' := After(n, es)[r], Step(n, After(n, es), Next(r, i))[r];
            if Called(es, r, i) then v' == v.(failures := v.failures + 1)
            else v'.failures == v.failures && v'.ran == v.ran + (if i + 1 < n then [i + 1] else [])
  {
    RunWalked(n, es, r);
    hide Possible, After, Called;
    var v := After(n, es)[r];
    var k :| 0 <= k < |v.ran| && v.ran[k] == i;
  }

  // ---------- independence ----------

  /** The callers of the `next` calls of one request, in order. */
  function Calls<T>(es: seq<Event<T>>, r: nat): seq<nat>
    decreases |es|
  {
    if es == [] then []
    else
      var e := es[|es| - 1];
      Calls(es[..|es| - 1], r) + if e.Next? && e.request == r then [e.caller] else []
  }

  /** One request alone. */
  function Alone<T>(n: nat, input: T, calls: seq<nat>): Visitor<T>
    decreases |calls|
  {
    if calls == [] then Begun(n, input)
    else Visit(n, Alone(n, input, calls[..|calls| - 1]), calls[|calls| - 1] + 1)
  }

  lemma {:induction false} NoCallsYet<T>(n: nat, es: seq<Event<T>>, r: nat)
    requires Possible(n, es) && |After(n, es)| <= r
    ensures Calls(es, r) == []
    decreases |es|
  {
    if es != [] {
      NoCallsYet(n, es[..|es| - 1], r);
    }
  }

  /** Requests do not affect each other: each is where its own calls alone would take it, and
      every middleware of it is given the request's own input. */
  lemma {:induction false} RequestsAreIndependent<T>(n: nat, es: seq<Event<T>>, r: nat)
    requires Possible(n, es) && r < |After(n, es)|
    ensures After(n, es)[r] == Alone(n, After(n, es)[r].input, Calls(es, r))
    decreases |es|
  {
    var init, e := es[..|es| - 1], es[|es| - 1];
    var vs := After(n, init);
    assert After(n, es) == Step(n, vs, e);
    if r < |vs| {
      RequestsAreIndependent(n, init, r);
      hide After, Possible;
      if e.Next? && e.request == r {
        AloneMore(n, vs[r].input, Calls(init, r), e.caller);
        hide Alone;
      } else {
        assert Calls(es, r) == Calls(init, r);
      }
    } else {
      NoCallsYet(n, init, r);
      hide After, Possible;
    }
  }

  lemma AloneMore<T>(n: nat, input: T, calls: seq<nat>, i: nat)
    ensures Alone(n, input, calls + [i]) == Visit(n, Alone(n, input, calls), i + 1)
  {
    assert (calls + [i])[..|calls|] == calls;
  }

  // ---------- the objects ----------

  /** What `createVisitor` captures. */
  class RequestVisitor<T> {
    const count: nat
    const input: T
    var lastVisited: int
    ghost var ran: seq<nat>
    ghost var failures: nat

    ghost function State(): Visitor<T>
      reads this
    {
      Visitor(input, lastVisited, ran, failures)
    }

    constructor (count: nat, input: T)
      ensures this.count == count && State() == Visitor(input, -1, [], 0)
    {
      this.count, this.input := count, input;
      lastVisited, ran, failures := -1, [], 0;
    }

    /** `ok` is false where the original throws; `run` says whether a middleware is called. */
    method VisitMiddleware(index: nat) returns (ok: bool, run: bool)
      modifies this
      ensures State() == Visit(count, old(State()), index)
      ensures ok <==> index == old(lastVisited) + 1
      ensures run <==> ok && index < count
    {
      if index != lastVisited + 1 {
        failures := failures + 1;
        return false, false;
      }
      lastVisited := index;
      if count <= index {
        return true, false;
      }
      ran := ran + [index];
      return true, true;
    }
  }

  /** The function `createProcessor` returns: a visitor of its own for every request. */
  class Processor<T> {
    const count: nat

    constructor (count: nat)
      ensures this.count == count
    {
      this.count := count;
    }

    method Process(input: T) returns (visitor: RequestVisitor<T>)
      ensures fresh(visitor) && visitor.count == count && visitor.State() == Begun(count, input)
    {
      visitor := new RequestVisitor(count, input);
      var ok, run := visitor.VisitMiddleware(0);
    }
  }
}
