/**
 * The chat client's global event bus: a table from event names to the list
 * of callbacks registered for them, in registration order.
 *
 * Callbacks are identified by a number (JavaScript compares them by
 * reference). What a callback does when it is called is given as the list of
 * registrations it makes on the bus, so that a dispatch can be seen to call
 * only the callbacks registered before it started.
 */
module EventBus {
  import opened Common

  type Callback = nat
  type Events = map<string, seq<Callback>>

  /** The callbacks an event would call now; an event never registered has none. */
  function Callbacks(events: Events, event: string): seq<Callback>
  {
    if event in events then events[event] else []
  }

  /** The list without any occurrence of `cb`, the other callbacks kept in order. */
  function FilterOut(s: seq<Callback>, cb: Callback): (r: seq<Callback>)
    ensures |r| <= |s|
  {
    if s == [] then []
    else (if s[0] == cb then [] else [s[0]]) + FilterOut(s[1..], cb)
  }

  lemma {:induction false} FilterOutMembership(s: seq<Callback>, cb: Callback, x: Callback)
    ensures x in FilterOut(s, cb) <==> x in s && x != cb
  {
    if s != [] {
      FilterOutMembership(s[1..], cb, x);
      assert s == [s[0]] + s[1..];
    }
  }

  /** Filtering distributes over concatenation, so the survivors keep their relative order. */
  lemma {:induction false} FilterOutAppend(a: seq<Callback>, b: seq<Callback>, cb: Callback)
    ensures FilterOut(a + b, cb) == FilterOut(a, cb) + FilterOut(b, cb)
  {
    if a == [] {
      assert a + b == b;
    } else {
      assert (a + b)[1..] == a[1..] + b;
      FilterOutAppend(a[1..], b, cb);
    }
  }

  /** A list without `cb` is left as it is. */
  lemma {:induction false} FilterOutAbsent(s: seq<Callback>, cb: Callback)
    requires cb !in s
    ensures FilterOut(s, cb) == s
  {
    if s != [] {
      FilterOutAbsent(s[1..], cb);
      assert s == [s[0]] + s[1..];
    }
  }

  /** The table after `$on(event, cb)`. */
  function Registered(events: Events, event: string, cb: Callback): Events
  {
    events[event := Callbacks(events, event) + [cb]]
  }

  /** The table after `$off(event)` (no callback) or `$off(event, cb)`. */
  function Removed(events: Events, event: string, cb: Option<Callback>): Events
  {
    if event !in events then events
    else if cb.None? then events[event := []]
    else events[event := FilterOut(events[event], cb.value)]
  }

  /** The table after the registrations in `regs`, made one after another. */
  function RegisterAll(events: Events, regs: seq<(string, Callback)>): Events
  {
    if regs == [] then events
    else
      var last := regs[|regs| - 1];
      Registered(RegisterAll(events, regs[..|regs| - 1]), last.0, last.1)
  }

  /** What callback `cb` registers when it is called. */
  function Reaction(reactions: map<Callback, seq<(string, Callback)>>, cb: Callback): seq<(string, Callback)>
  {
    if cb in reactions then reactions[cb] else []
  }

  /** The registrations made by calling `calls` in order. */
  function Reactions(calls: seq<Callback>, reactions: map<Callback, seq<(string, Callback)>>): seq<(string, Callback)>
  {
    if calls == [] then []
    else Reactions(calls[..|calls| - 1], reactions) + Reaction(reactions, calls[|calls| - 1])
  }

  lemma {:induction false} RegisterAllAppend(events: Events, a: seq<(string, Callback)>, b: seq<(string, Callback)>)
    ensures RegisterAll(events, a + b) == RegisterAll(RegisterAll(events, a), b)
  {
    if b == [] {
      assert a + b == a;
    } else {
      assert (a + b)[..|a + b| - 1] == a + b[..|b| - 1];
      RegisterAllAppend(events, a, b[..|b| - 1]);
    }
  }

  /** `$on` appends to the event's list and leaves every other event alone. */
  lemma OnAppends(events: Events, event: string, cb: Callback, other: string)
    ensures Callbacks(Registered(events, event, cb), event) == Callbacks(events, event) + [cb]
    ensures other != event ==> Callbacks(Registered(events, event, cb), other) == Callbacks(events, other)
  {
  }

  /**
   * `$off(event, cb)` leaves no `cb` in the event's list and keeps every other
   * callback; `$off(event)` empties it; neither touches other events.
   */
  lemma OffRemoves(events: Events, event: string, cb: Callback, other: string, x: Callback)
    ensures x in Callbacks(Removed(events, event, Some(cb)), event) <==> x in Callbacks(events, event) && x != cb
    ensures Callbacks(Removed(events, event, None), event) == []
    ensures other != event ==> Callbacks(Removed(events, event, Some(cb)), other) == Callbacks(events, other)
    ensures other != event ==> Callbacks(Removed(events, event, None), other) == Callbacks(events, other)
  {
    if event in events {
      FilterOutMembership(events[event], cb, x);
    }
  }

  /** `$off` of an event never registered changes nothing. */
  lemma OffUnregisteredIsNoOp(events: Events, event: string, cb: Option<Callback>)
    requires event !in events
    ensures Removed(events, event, cb) == events
  {
  }

  /** Registering `cb` and then removing it gives the list that removing it alone gives. */
  lemma OffUndoesOn(events: Events, event: string, cb: Callback)
    ensures Callbacks(Removed(Registered(events, event, cb), event, Some(cb)), event)
      == Callbacks(Removed(events, event, Some(cb)), event)
  {
    FilterOutAppend(Callbacks(events, event), [cb], cb);
    assert FilterOut([cb], cb) == [];
  }

  /** When `cb` was not registered, registering and removing it restores the list. */
  lemma OffAfterOnRestores(events: Events, event: string, cb: Callback)
    requires cb !in Callbacks(events, event)
    ensures Callbacks(Removed(Registered(events, event, cb), event, Some(cb)), event) == Callbacks(events, event)
  {
    OffUndoesOn(events, event, cb);
    if event in events {
      FilterOutAbsent(events[event], cb);
    }
  }

  class Bus {
    var events: Events

    constructor ()
      ensures events == map[]
    {
      events := map[];
    }

    /** `$on`: returns the bus itself. */
    method On(event: string, cb: Callback) returns (self: Bus)
      modifies this
      ensures self == this
      ensures events == Registered(old(events), event, cb)
    {
      if event !in events {
        events := events[event := []];
      }
      events := events[event := events[event] + [cb]];
      self := this;
    }

    /** `$off`: returns the bus itself. */
    method Off(event: string, cb: Option<Callback>) returns (self: Bus)
      modifies this
      ensures self == this
      ensures events == Removed(old(events), event, cb)
    {
      self := this;
      if event !in events {
        return;
      }
      if cb.None? {
        events := events[event := []];
        return;
      }
      events := events[event := FilterOut(events[event], cb.value)];
    }

    /**
     * `$emit`: calls, in order, the callbacks registered when the dispatch
     * starts; `calls` lists them. Registrations the callbacks make are kept
     * but do not join this dispatch.
     */
    method Emit(event: string, reactions: map<Callback, seq<(string, Callback)>>) returns (self: Bus, calls: seq<Callback>)
      modifies this
      ensures self == this
      ensures calls == Callbacks(old(events), event)
      ensures events == RegisterAll(old(events), Reactions(calls, reactions))
    {
      self := this;
      calls := [];
      if event !in events {
        return;
      }
      var cbs := events[event];
      var i := 0;
      while i < |cbs|
        invariant 0 <= i <= |cbs|
        invariant calls == cbs[..i]
        invariant events == RegisterAll(old(events), Reactions(calls, reactions))
      {
        var cb := cbs[i];
        var regs := Reaction(reactions, cb);
        ghost var start := events;
        var j := 0;
        while j < |regs|
          invariant 0 <= j <= |regs|
          invariant events == RegisterAll(start, regs[..j])
        {
          assert regs[..j + 1][..j] == regs[..j];
          var _ := On(regs[j].0, regs[j].1);
          j := j + 1;
        }
        assert regs[..j] == regs;
        RegisterAllAppend(old(events), Reactions(calls, reactions), regs);
        assert (calls + [cb])[..|calls + [cb]| - 1] == calls;
        calls := calls + [cb];
        i := i + 1;
        assert calls == cbs[..i];
      }
      assert cbs[..i] == cbs;
    }
  }
}
