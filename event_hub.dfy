/** The renderer's event hub: a map from event names to lists of
    listeners, with `on`, `off`, `once`, `emit` and `clear`. Listeners are
    identified by value; what a callback does when it runs is outside the
    model, except for the wrapper `once` registers, which removes itself
    from the live list before calling its callback. */
module EventHub {
  import opened Common

  /** A listener: a callback, or the fresh wrapper closure `once` makes
      around one, told apart from every other wrapper by its token. */
  datatype Handler = Callback(id: nat) | OnceWrapper(token: nat, callback: nat)

  /** The callback that runs when the listener is invoked. */
  function Invoked(h: Handler): nat
  {
    if h.Callback? then h.id else h.callback
  }

  /** `indexOf` then `splice(index, 1)`: the first copy of `h` goes, and
      nothing changes when there is none. */
  function RemoveFirst(hs: seq<Handler>, h: Handler): seq<Handler>
  {
    if hs == [] then []
    else if hs[0] == h then hs[1..]
    else [hs[0]] + RemoveFirst(hs[1..], h)
  }

  /** Removing takes out exactly one copy when there is one. */
  lemma RemoveFirstRemovesOne(hs: seq<Handler>, h: Handler)
    ensures h !in hs ==> RemoveFirst(hs, h) == hs
    ensures h in hs ==>
      |RemoveFirst(hs, h)| == |hs| - 1 && multiset(RemoveFirst(hs, h)) == multiset(hs) - multiset{h}
  {
    if h in hs {
      RemovePresent(hs, h);
    } else {
      RemoveAbsent(hs, h);
    }
  }

  lemma {:induction false} RemoveAbsent(hs: seq<Handler>, h: Handler)
    requires h !in hs
    ensures RemoveFirst(hs, h) == hs
  {
    if hs != [] {
      assert h !in hs[1..];
      RemoveAbsent(hs[1..], h);
      assert hs == [hs[0]] + hs[1..];
    }
  }

  lemma {:induction false} RemovePresent(hs: seq<Handler>, h: Handler)
    requires h in hs
    ensures |RemoveFirst(hs, h)| == |hs| - 1
    ensures multiset(RemoveFirst(hs, h)) == multiset(hs) - multiset{h}
  {
    assert hs == [hs[0]] + hs[1..];
    if hs[0] != h {
      var tail := hs[1..];
      assert h in tail;
      RemovePresent(tail, h);
      var r := RemoveFirst(tail, h);
      assert multiset(RemoveFirst(hs, h)) == multiset{hs[0]} + multiset(r);
      assert multiset(tail) == multiset(r) + multiset{h};
      assert multiset(hs) == multiset{hs[0]} + multiset(tail);
    }
  }

  /** `off` undoes an `on` of a listener that was not registered yet. */
  lemma {:induction false} RemoveFirstUndoesAppend(hs: seq<Handler>, h: Handler)
    requires h !in hs
    ensures RemoveFirst(hs + [h], h) == hs
  {
    if hs != [] {
      assert (hs + [h])[1..] == hs[1..] + [h];
      RemoveFirstUndoesAppend(hs[1..], h);
    }
  }

  /** The callbacks one emit invokes, and the listener list it leaves. */
  datatype Emission = Emission(calls: seq<nat>, remaining: seq<Handler>)

  /** The list after index `k` of a `forEach` over the live list: the
      listener there, when the index is still inside the list and holds a
      once wrapper, has removed itself. */
  function StepList(hs: seq<Handler>, k: nat): seq<Handler>
  {
    if k < |hs| && hs[k].OnceWrapper? then RemoveFirst(hs, hs[k]) else hs
  }

  /** The callback index `k` invokes: none once the index is past the
      current end of the list. */
  function StepCalls(hs: seq<Handler>, k: nat): seq<nat>
  {
    if k < |hs| then [Invoked(hs[k])] else []
  }

  /** The live list after the first `k` indices of the iteration. */
  function ListAfter(hs: seq<Handler>, k: nat): seq<Handler>
  {
    if k == 0 then hs else StepList(ListAfter(hs, k - 1), k - 1)
  }

  /** The callbacks the first `k` indices of the iteration invoke. */
  function CallsUpTo(hs: seq<Handler>, k: nat): seq<nat>
  {
    if k == 0 then [] else CallsUpTo(hs, k - 1) + StepCalls(ListAfter(hs, k - 1), k - 1)
  }

  /** A whole emit: `forEach` visits the indices below the length the list
      had when the iteration began. */
  function Emitted(hs: seq<Handler>): Emission
  {
    Emission(CallsUpTo(hs, |hs|), ListAfter(hs, |hs|))
  }

  /** The callbacks of a list, in order. */
  function Invocations(hs: seq<Handler>): (cs: seq<nat>)
    ensures |cs| == |hs|
    ensures forall i :: 0 <= i < |hs| ==> cs[i] == Invoked(hs[i])
  {
    seq(|hs|, i requires 0 <= i < |hs| => Invoked(hs[i]))
  }

  /** Without once wrappers an emit invokes every listener once, in order,
      and leaves the list as it was. */
  lemma PlainEmitCallsAll(hs: seq<Handler>)
    requires forall i :: 0 <= i < |hs| ==> hs[i].Callback?
    ensures Emitted(hs) == Emission(Invocations(hs), hs)
  {
    PlainPrefix(hs, |hs|);
  }

  lemma {:induction false} PlainPrefix(hs: seq<Handler>, k: nat)
    requires k <= |hs|
    requires forall i :: 0 <= i < |hs| ==> hs[i].Callback?
    ensures ListAfter(hs, k) == hs && CallsUpTo(hs, k) == Invocations(hs)[..k]
  {
    if k > 0 {
      PlainPrefix(hs, k - 1);
      assert Invocations(hs)[..k] == Invocations(hs)[..k - 1] + [Invoked(hs[k - 1])];
    }
  }

  /** A once wrapper followed by a callback: the wrapper's splice moves the
      callback to the index the iteration has just passed, so that emit
      never invokes it, although it stays registered. */
  lemma OnceSkipsNextListener()
    ensures Emitted([OnceWrapper(0, 1), Callback(2)]) == Emission([1], [Callback(2)])
  {
    var hs := [OnceWrapper(0, 1), Callback(2)];
    assert RemoveFirst(hs, hs[0]) == [Callback(2)];
    assert ListAfter(hs, 1) == [Callback(2)];
    assert CallsUpTo(hs, 1) == [1];
    assert StepCalls([Callback(2)], 1) == [];
  }

  /** The once wrappers of a list. */
  function OnceWrappers(hs: seq<Handler>): (ws: multiset<Handler>)
    ensures ws <= multiset(hs)
  {
    if hs == [] then multiset{}
    else
      assert hs == [hs[0]] + hs[1..];
      (if hs[0].OnceWrapper? then multiset{hs[0]} else multiset{}) + OnceWrappers(hs[1..])
  }

  /** The emit the hub evidently intends: iterate over a copy of the list
      taken when the emit begins, while the wrappers remove themselves from
      the live list. */
  function SnapshotEmitted(snapshot: seq<Handler>, live: seq<Handler>): Emission
  {
    if snapshot == [] then Emission([], live)
    else
      var h := snapshot[0];
      var next := if h.OnceWrapper? then RemoveFirst(live, h) else live;
      var rest := SnapshotEmitted(snapshot[1..], next);
      Emission([Invoked(h)] + rest.calls, rest.remaining)
  }

  /** Iterating over a copy invokes every listener of the copy once, in
      order. */
  lemma {:induction false} SnapshotCallsAll(snapshot: seq<Handler>, live: seq<Handler>)
    ensures SnapshotEmitted(snapshot, live).calls == Invocations(snapshot)
  {
    if snapshot != [] {
      var h := snapshot[0];
      var next := if h.OnceWrapper? then RemoveFirst(live, h) else live;
      SnapshotCallsAll(snapshot[1..], next);
      assert Invocations(snapshot) == [Invoked(h)] + Invocations(snapshot[1..]);
    }
  }

  /** Iterating over a copy removes exactly one copy of each once wrapper
      from the live list and keeps everything else. */
  lemma {:induction false} SnapshotRemovesWrappers(snapshot: seq<Handler>, live: seq<Handler>)
    requires OnceWrappers(snapshot) <= multiset(live)
    ensures multiset(SnapshotEmitted(snapshot, live).remaining) == multiset(live) - OnceWrappers(snapshot)
  {
    if snapshot != [] {
      var h := snapshot[0];
      var next := if h.OnceWrapper? then RemoveFirst(live, h) else live;
      var wrapper := if h.OnceWrapper? then multiset{h} else multiset{};
      SnapshotStep(snapshot, live);
      SnapshotRemovesWrappers(snapshot[1..], next);
      MinusTwice(multiset(live), wrapper, OnceWrappers(snapshot[1..]));
    }
  }

  lemma MinusTwice(a: multiset<Handler>, b: multiset<Handler>, c: multiset<Handler>)
    ensures (a - b) - c == a - (b + c)
  {
    assert forall x :: ((a - b) - c)[x] == (a - (b + c))[x];
  }

  /** One wrapper leaves the live list and the copy's rest still fits. */
  lemma SnapshotStep(snapshot: seq<Handler>, live: seq<Handler>)
    requires snapshot != [] && OnceWrappers(snapshot) <= multiset(live)
    ensures var h := snapshot[0];
      var next := if h.OnceWrapper? then RemoveFirst(live, h) else live;
      var wrapper := if h.OnceWrapper? then multiset{h} else multiset{};
      && OnceWrappers(snapshot) == wrapper + OnceWrappers(snapshot[1..])
      && multiset(next) == multiset(live) - wrapper
      && wrapper <= multiset(live)
      && OnceWrappers(snapshot[1..]) <= multiset(next)
  {
    var h := snapshot[0];
    RemoveFirstRemovesOne(live, h);
    if h.OnceWrapper? {
      assert h in OnceWrappers(snapshot);
      assert h in multiset(live);
    }
  }

  /** With the copy, the listener skipped above is invoked. */
  lemma SnapshotInvokesNextListener()
    ensures SnapshotEmitted([OnceWrapper(0, 1), Callback(2)], [OnceWrapper(0, 1), Callback(2)])
      == Emission([1, 2], [Callback(2)])
  {
    var hs := [OnceWrapper(0, 1), Callback(2)];
    assert RemoveFirst(hs, hs[0]) == [Callback(2)];
    assert hs[1..] == [Callback(2)];
  }

  /** Every once wrapper of the list has a token below `bound`. */
  predicate TokensBelow(hs: seq<Handler>, bound: nat)
  {
    forall h :: h in hs && h.OnceWrapper? ==> h.token < bound
  }

  lemma RemoveFirstKeepsTokensBelow(hs: seq<Handler>, h: Handler, bound: nat)
    requires TokensBelow(hs, bound)
    ensures TokensBelow(RemoveFirst(hs, h), bound)
  {
    var r := RemoveFirst(hs, h);
    RemoveFirstRemovesOne(hs, h);
    forall x | x in r
      ensures x in hs
    {
      assert multiset(r)[x] > 0;
    }
  }

  lemma UpdateTwice(m: map<string, seq<Handler>>, key: string, a: seq<Handler>, b: seq<Handler>)
    ensures m[key := a][key := b] == m[key := b]
  {
  }

  class Hub {
    var events: map<string, seq<Handler>>
    /** The token the next once wrapper gets. */
    var nextToken: nat

    /** Every registered once wrapper has a token below `nextToken`, so a
        new wrapper differs from every listener already registered. */
    predicate Valid()
      reads this
    {
      forall e :: e in events ==> TokensBelow(events[e], nextToken)
    }

    constructor()
      ensures Valid() && events == map[] && nextToken == 0
    {
      events := map[];
      nextToken := 0;
    }

    function Listeners(event: string): seq<Handler>
      reads this
    {
      if event in events then events[event] else []
    }

    /** `on`: the listener goes to the end of the event's list, which is
        created when missing. */
    method On(event: string, h: Handler)
      requires Valid()
      requires h.OnceWrapper? ==> h.token < nextToken
      modifies this
      ensures Valid()
      ensures events == old(events)[event := old(Listeners(event)) + [h]]
      ensures nextToken == old(nextToken)
    {
      events := events[event := Listeners(event) + [h]];
    }

    /** `off`: the first copy of the listener leaves the event's list; an
        unknown event is left alone. */
    method Off(event: string, h: Handler)
      requires Valid()
      modifies this
      ensures Valid()
      ensures event in old(events) ==> events == old(events)[event := RemoveFirst(old(events)[event], h)]
      ensures event !in old(events) ==> events == old(events)
      ensures nextToken == old(nextToken)
    {
      if event in events {
        var callbacks := events[event];
        var remaining := RemoveFirst(callbacks, h);
        RemoveFirstKeepsTokensBelow(callbacks, h, nextToken);
        events := events[event := remaining];
      }
    }

    /** `once`: registers a fresh wrapper around the callback. */
    method Once(event: string, callback: nat)
      requires Valid()
      modifies this
      ensures Valid()
      ensures events == old(events)[event := old(Listeners(event)) + [OnceWrapper(old(nextToken), callback)]]
      ensures nextToken == old(nextToken) + 1
      ensures OnceWrapper(old(nextToken), callback) !in old(Listeners(event))
    {
      var wrapper := OnceWrapper(nextToken, callback);
      nextToken := nextToken + 1;
      On(event, wrapper);
    }

    /** `emit`: `forEach` over the event's live list. */
    method Emit(event: string) returns (calls: seq<nat>)
      requires Valid()
      modifies this
      ensures Valid()
      ensures event !in old(events) ==> calls == [] && events == old(events)
      ensures event in old(events) ==>
        var e := Emitted(old(events)[event]);
        calls == e.calls && events == old(events)[event := e.remaining]
      ensures nextToken == old(nextToken)
    {
      calls := [];
      if event in events {
        ghost var start := events[event];
        var len := |events[event]|;
        ghost var list := events[event];
        var k := 0;
        while k < len
          invariant Valid() && nextToken == old(nextToken)
          invariant events == old(events)[event := list]
          invariant k <= len
          invariant list == ListAfter(start, k) && calls == CallsUpTo(start, k)
        {
          var invoked := InvokeAt(event, k);
          UpdateTwice(old(events), event, list, StepList(list, k));
          calls := calls + invoked;
          list := StepList(list, k);
          k := k + 1;
        }
      }
    }

    /** One index of the `forEach`: the listener there, if any, is invoked,
        and a once wrapper first removes itself. */
    method InvokeAt(event: string, k: nat) returns (invoked: seq<nat>)
      requires Valid() && event in events
      modifies this
      ensures Valid() && nextToken == old(nextToken)
      ensures event in events && events == old(events)[event := StepList(old(events)[event], k)]
      ensures invoked == StepCalls(old(events)[event], k)
    {
      invoked := [];
      var live := events[event];
      if k < |live| {
        var h := live[k];
        if h.OnceWrapper? {
          Off(event, h);
        }
        invoked := [Invoked(h)];
      }
    }

    /** `clear`: drops one event's list, or every list when no event, or
        the empty string, is given. */
    method Clear(event: Option<string>)
      requires Valid()
      modifies this
      ensures Valid()
      ensures event.Some? && event.value != "" ==> events == old(events) - {event.value}
      ensures event.None? || event.value == "" ==> events == map[]
      ensures nextToken == old(nextToken)
    {
      if event.Some? && event.value != "" {
        events := events - {event.value};
      } else {
        events := map[];
      }
    }
  }
}
