/**
 * The chat client's registry of named timers. Each name owns at most one
 * browser timer; setting a name again first cancels the timer it owned.
 *
 * The browser's timer service is modelled by `pending`, the ids of the timers
 * it will still fire, and `nextNativeId`, the id it hands out next. Names keep
 * the order in which they were (last) set, as a JavaScript Map does.
 */
module TimerRegistry {
  import opened Common

  /** The names the client uses. */
  const TOKEN_RENEWAL: string := "tokenRenewal"
  const HEARTBEAT_HTTP: string := "heartbeatHttp"
  const HEARTBEAT_WS: string := "heartbeatWs"
  const RECONNECT: string := "reconnect"
  const CONNECTION_STABLE: string := "connectionStable"

  /** A callback: which handler runs and the value it was bound to. */
  datatype Task = Task(handler: string, arg: int)

  datatype Timer = Timer(id: nat, isInterval: bool, callback: Task, delay: int, createdAt: int)

  /** `names` without `name`, order kept. */
  function Without(names: seq<string>, name: string): (r: seq<string>)
    ensures forall x :: x in r <==> x in names && x != name
    ensures NoDuplicates(names) ==> NoDuplicates(r)
    ensures name !in names ==> r == names
  {
    if names == [] then []
    else
      var rest := Without(names[1..], name);
      if names[0] == name then rest
      else
        assert NoDuplicates(names) ==> names[0] !in names[1..];
        [names[0]] + rest
  }

  /** The browser timer a name owns, as a set with at most one id. */
  function OwnedId(timers: map<string, Timer>, name: string): set<nat>
  {
    if name in timers then {timers[name].id} else {}
  }

  /** Every id the registry owns. */
  function OwnedIds(timers: map<string, Timer>): set<nat>
  {
    set n | n in timers :: timers[n].id
  }

  class TimerManager {
    var timers: map<string, Timer>
    var order: seq<string>
    var pending: set<nat>
    var nextNativeId: nat

    ghost predicate Valid()
      reads this
    {
      NoDuplicates(order)
      && (forall n :: n in order <==> n in timers)
      && (forall n :: n in timers ==> timers[n].id < nextNativeId)
      && (forall id :: id in pending ==> id < nextNativeId)
    }

    constructor ()
      ensures Valid() && timers == map[] && order == [] && pending == {} && nextNativeId == 1
    {
      timers := map[];
      order := [];
      pending := {};
      nextNativeId := 1;
    }

    /** Cancels the timer `name` owns; says whether there was one. */
    method Clear(name: string) returns (removed: bool)
      requires Valid()
      modifies this
      ensures Valid()
      ensures removed == (name in old(timers))
      ensures timers == old(timers) - {name}
      ensures order == Without(old(order), name)
      ensures pending == old(pending) - OwnedId(old(timers), name)
      ensures nextNativeId == old(nextNativeId)
    {
      if name in timers {
        pending := pending - {timers[name].id};
        timers := timers - {name};
        order := Without(order, name);
        removed := true;
      } else {
        assert name !in order;
        removed := false;
      }
    }

    /** Starts a browser timer for `name`, cancelling the one it owned, and returns the new timer's id. */
    method Set(name: string, callback: Task, delay: int, isInterval: bool, now: int) returns (timerId: nat)
      requires Valid()
      modifies this
      ensures Valid()
      ensures timerId !in old(pending) && timerId == old(nextNativeId)
      ensures timers == old(timers)[name := Timer(timerId, isInterval, callback, delay, now)]
      ensures order == Without(old(order), name) + [name]
      ensures pending == (old(pending) - OwnedId(old(timers), name)) + {timerId}
      ensures nextNativeId == old(nextNativeId) + 1
    {
      var _ := Clear(name);
      assert name !in timers && name !in order;
      timerId := nextNativeId;
      nextNativeId := nextNativeId + 1;
      pending := pending + {timerId};
      timers := timers[name := Timer(timerId, isInterval, callback, delay, now)];
      order := order + [name];
    }

    method SetTimeout(name: string, callback: Task, delay: int, now: int) returns (timerId: nat)
      requires Valid()
      modifies this
      ensures Valid()
      ensures timerId !in old(pending) && timerId == old(nextNativeId)
      ensures timers == old(timers)[name := Timer(timerId, false, callback, delay, now)]
      ensures order == Without(old(order), name) + [name]
      ensures pending == (old(pending) - OwnedId(old(timers), name)) + {timerId}
      ensures nextNativeId == old(nextNativeId) + 1
    {
      timerId := Set(name, callback, delay, false, now);
    }

    method SetInterval(name: string, callback: Task, delay: int, now: int) returns (timerId: nat)
      requires Valid()
      modifies this
      ensures Valid()
      ensures timerId !in old(pending) && timerId == old(nextNativeId)
      ensures timers == old(timers)[name := Timer(timerId, true, callback, delay, now)]
      ensures order == Without(old(order), name) + [name]
      ensures pending == (old(pending) - OwnedId(old(timers), name)) + {timerId}
      ensures nextNativeId == old(nextNativeId) + 1
    {
      timerId := Set(name, callback, delay, true, now);
    }

    /** Cancels every owned timer, in name order, then forgets all names. */
    method ClearAll()
      requires Valid()
      modifies this
      ensures Valid()
      ensures timers == map[] && order == []
      ensures pending == old(pending) - OwnedIds(old(timers))
      ensures nextNativeId == old(nextNativeId)
    {
      var remaining := pending;
      var i := 0;
      while i < |order|
        invariant 0 <= i <= |order|
        invariant remaining == pending - set k | 0 <= k < i :: timers[order[k]].id
      {
        remaining := remaining - {timers[order[i]].id};
        i := i + 1;
        assert (set k | 0 <= k < i :: timers[order[k]].id) == (set k | 0 <= k < i - 1 :: timers[order[k]].id) + {timers[order[i - 1]].id};
      }
      assert (set k | 0 <= k < |order| :: timers[order[k]].id) == OwnedIds(timers) by {
        forall n | n in timers ensures timers[n].id in (set k | 0 <= k < |order| :: timers[order[k]].id) {
          var k :| 0 <= k < |order| && order[k] == n;
        }
      }
      pending := remaining;
      timers := map[];
      order := [];
    }

    predicate Has(name: string)
      reads this
    {
      name in timers
    }

    function Get(name: string): Option<Timer>
      reads this
    {
      if name in timers then Some(timers[name]) else None
    }

    function GetNames(): seq<string>
      reads this
    {
      order
    }

    function Size(): nat
      reads this
    {
      |timers|
    }

    /** Milliseconds since `name` was set, or 0 when it owns no timer. */
    function GetRuntime(name: string, now: int): int
      reads this
    {
      if name in timers then now - timers[name].createdAt else 0
    }
  }

  /** getNames lists exactly the names the registry holds, each once, so size() is its length. */
  lemma SizeIsNameCount(tm: TimerManager)
    requires tm.Valid()
    ensures forall n :: n in tm.GetNames() <==> tm.Has(n)
    ensures tm.Size() == |tm.GetNames()|
  {
    NoDuplicatesCard(tm.order);
    assert (set x | x in tm.order) == tm.timers.Keys;
  }

  /** Setting a name twice leaves it owning only the second timer, listed once, last. */
  method SetTwiceKeepsLatest(name: string, first: Task, second: Task) returns (tm: TimerManager)
    ensures fresh(tm) && tm.Valid()
    ensures tm.timers == map[name := Timer(2, true, second, 200, 10)]
    ensures tm.order == [name] && tm.pending == {2}
  {
    tm := new TimerManager();
    var a := tm.SetTimeout(name, first, 100, 0);
    var b := tm.SetInterval(name, second, 200, 10);
    assert Without([name], name) == [];
  }
}
