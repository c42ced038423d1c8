/** InMemoryEventBus: handlers registered per event type, synchronous publication and an event history. */
module EventBuses {
  import opened OrderEvents

  /** An event handler, compared by identity as Python compares objects without `__eq__`.
      What `handle` does is outside the bus; `handles` is the type `handles_event` returns. */
  class Handler {
    const handles: EventKind

    constructor (handles: EventKind)
      ensures this.handles == handles
    {
      this.handles := handles;
    }
  }

  /** `list.remove`: drops the first occurrence of `h`, or nothing when `h` is absent. */
  function RemoveFirst(s: seq<Handler>, h: Handler): (r: seq<Handler>)
    ensures h !in s ==> r == s
    ensures |r| == if h in s then |s| - 1 else |s|
  {
    if s == [] then []
    else if s[0] == h then s[1..]
    else [s[0]] + RemoveFirst(s[1..], h)
  }

  /** The position of the first `h` in `s`, which `list.remove` deletes. */
  function FirstPosition(s: seq<Handler>, h: Handler): (i: nat)
    requires h in s
    ensures i < |s| && s[i] == h && h !in s[..i]
  {
    if s[0] == h then 0
    else
      var j := FirstPosition(s[1..], h);
      assert s[..j + 1] == [s[0]] + s[1..][..j];
      1 + j
  }

  /** Removing `h` cuts out its first occurrence, and the others keep their order. */
  lemma {:induction false} RemoveFirstCutsFirstOccurrence(s: seq<Handler>, h: Handler)
    requires h in s
    ensures RemoveFirst(s, h) == s[..FirstPosition(s, h)] + s[FirstPosition(s, h) + 1..]
  {
    if s[0] != h {
      var j := FirstPosition(s[1..], h);
      RemoveFirstCutsFirstOccurrence(s[1..], h);
      assert s[..j + 1] == [s[0]] + s[1..][..j];
      assert s[j + 2..] == s[1..][j + 1..];
    }
  }

  /** Taking one `h` out of a list split around it leaves the multiset of the two sides. */
  lemma CutOneCopy(front: seq<Handler>, h: Handler, back: seq<Handler>)
    ensures multiset(front + [h] + back) - multiset{h} == multiset(front + back)
  {
    assert multiset(front + [h] + back) == multiset(front) + multiset{h} + multiset(back);
  }

  /** Removing `h` takes out exactly one copy of it and keeps every other handler. */
  lemma RemoveFirstTakesOneCopy(s: seq<Handler>, h: Handler)
    requires h in s
    ensures multiset(RemoveFirst(s, h)) == multiset(s) - multiset{h}
  {
    RemoveFirstCutsFirstOccurrence(s, h);
    var i := FirstPosition(s, h);
    var front, back := s[..i], s[i + 1..];
    assert s == front + [h] + back;
    assert RemoveFirst(s, h) == front + back;
    CutOneCopy(front, h, back);
  }

  /** Subscribing a handler not yet in the list and unsubscribing it restores the list. */
  lemma {:induction false} UnsubscribeUndoesSubscribe(s: seq<Handler>, h: Handler)
    requires h !in s
    ensures RemoveFirst(s + [h], h) == s
  {
    if s != [] {
      assert (s + [h])[1..] == s[1..] + [h];
      UnsubscribeUndoesSubscribe(s[1..], h);
      assert s == [s[0]] + s[1..];
    }
  }

  /** The handlers of `hs` that raise, in the order they were invoked. */
  function Failing(hs: seq<Handler>, fails: Handler -> bool): (r: seq<Handler>)
    ensures |r| <= |hs|
    ensures forall i :: 0 <= i < |r| ==> r[i] in hs && fails(r[i])
    ensures forall i :: 0 <= i < |hs| && fails(hs[i]) ==> hs[i] in r
  {
    if hs == [] then []
    else Failing(hs[..|hs| - 1], fails) + (if fails(hs[|hs| - 1]) then [hs[|hs| - 1]] else [])
  }

  /** When no handler raises there are no failures. */
  lemma NoneFailing(hs: seq<Handler>, fails: Handler -> bool)
    requires forall i :: 0 <= i < |hs| ==> !fails(hs[i])
    ensures Failing(hs, fails) == []
  {
  }

  /** A handler that raises does not stop the others: when only one of them raises, the failures
      are that one alone, and every handler was still invoked. */
  lemma {:induction false} OneFailureIsolated(hs: seq<Handler>, fails: Handler -> bool, bad: Handler)
    requires forall h :: fails(h) <==> h == bad
    requires bad in hs && forall i, j :: 0 <= i < j < |hs| ==> hs[i] != hs[j]
    ensures Failing(hs, fails) == [bad]
  {
    var last := hs[|hs| - 1];
    var init := hs[..|hs| - 1];
    assert hs == init + [last];
    if last == bad {
      assert bad !in init;
      NoneFailing(init, fails);
    } else {
      assert bad in init;
      OneFailureIsolated(init, fails, bad);
    }
  }

  class InMemoryEventBus {
    /** `_handlers`: the handler list of each event type that has one. */
    var handlers: map<EventKind, seq<Handler>>
    /** `_event_history`: every published event, oldest first. */
    var history: seq<DomainEvent>

    /** A new bus has no handlers and an empty history. */
    constructor ()
      ensures handlers == map[] && history == []
    {
      handlers := map[];
      history := [];
    }

    /** The list of type `t`, empty when the type has none, as `dict.get(t, [])` gives it. */
    function HandlersFor(t: EventKind): (r: seq<Handler>)
      reads this`handlers
      ensures t in handlers ==> r == handlers[t]
      ensures t !in handlers ==> r == []
    {
      if t in handlers then handlers[t] else []
    }

    /** `subscribe`: the handler goes last in the list of the type it handles, even when it is
        already there; no other list changes. */
    method Subscribe(h: Handler)
      modifies this`handlers
      ensures HandlersFor(h.handles) == old(HandlersFor(h.handles)) + [h]
      ensures forall t :: t != h.handles ==> HandlersFor(t) == old(HandlersFor(t))
      ensures handlers.Keys == old(handlers.Keys) + {h.handles}
    {
      var t := h.handles;
      handlers := handlers[t := HandlersFor(t) + [h]];
    }

    /** `unsubscribe`: removes the first occurrence of the handler, and does nothing to the list
        when the handler is not in it. Reading the `defaultdict` leaves an entry for the type. */
    method Unsubscribe(h: Handler)
      modifies this`handlers
      ensures HandlersFor(h.handles) == RemoveFirst(old(HandlersFor(h.handles)), h)
      ensures |HandlersFor(h.handles)| == if h in old(HandlersFor(h.handles))
        then |old(HandlersFor(h.handles))| - 1 else |old(HandlersFor(h.handles))|
      ensures forall t :: t != h.handles ==> HandlersFor(t) == old(HandlersFor(t))
      ensures handlers.Keys == old(handlers.Keys) + {h.handles}
    {
      var t := h.handles;
      var hs := HandlersFor(t);
      if h in hs {
        hs := RemoveFirst(hs, h);
      }
      handlers := handlers[t := hs];
    }

    /** `publish_sync`: records the event, then invokes every handler registered for exactly its
        type, in subscription order. `fails` says which handlers raise on this event; a raising
        handler is reported in `failed` and the loop goes on with the next one. */
    method PublishSync(event: DomainEvent, fails: Handler -> bool) returns (invoked: seq<Handler>, failed: seq<Handler>)
      modifies this`history
      ensures history == old(history) + [event]
      ensures invoked == HandlersFor(Kind(event))
      ensures failed == Failing(invoked, fails)
    {
      history := history + [event];
      var hs := HandlersFor(Kind(event));
      invoked := [];
      failed := [];
      var i := 0;
      while i < |hs|
        invariant 0 <= i <= |hs|
        invariant invoked == hs[..i]
        invariant failed == Failing(hs[..i], fails)
      {
        var h := hs[i];
        invoked := invoked + [h];
        if fails(h) {
          failed := failed + [h];
        }
        assert hs[..i + 1][..i] == hs[..i];
        i := i + 1;
      }
      assert hs[..|hs|] == hs;
    }

    /** `get_event_history`: a copy of the history, which a value sequence is. */
    function GetEventHistory(): (r: seq<DomainEvent>)
      reads this`history
      ensures |r| == |history| && forall i :: 0 <= i < |r| ==> r[i] == history[i]
    {
      history
    }

    /** `clear_history`: the history becomes empty; the handlers stay. */
    method ClearHistory()
      modifies this`history
      ensures history == []
    {
      history := [];
    }

    /** `get_handler_count`: the length of the type's list, 0 when it has none. */
    function GetHandlerCount(t: EventKind): (n: nat)
      reads this`handlers
      ensures n == |HandlersFor(t)|
      ensures t !in handlers ==> n == 0
    {
      if t in handlers then |handlers[t]| else 0
    }
  }
}
