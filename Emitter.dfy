/**
 * The observer registry: `EventEmitter` of src/raft/emitter.ts, a
 * dictionary from event name to the ordered list of registered callbacks.
 * Callbacks are opaque identities; what a callback does when invoked is
 * outside the model, so `Emit` returns the callbacks it invokes, in order.
 */
module Emitter {

  type CallbackId = nat

  /** `callbacks.filter(cb => cb !== callback)`: every occurrence of `callback` dropped, the rest kept with their multiplicities. */
  function Without(callbacks: seq<CallbackId>, callback: CallbackId): (kept: seq<CallbackId>)
    ensures multiset(kept) == multiset(callbacks)[callback := 0]
  {
    if callbacks == [] then []
    else
      assert callbacks == [callbacks[0]] + callbacks[1..];
      (if callbacks[0] == callback then [] else [callbacks[0]]) + Without(callbacks[1..], callback)
  }

  /** Filtering works piecewise, so the survivors keep their relative order. */
  lemma {:induction false} WithoutConcat(s: seq<CallbackId>, t: seq<CallbackId>, callback: CallbackId)
    ensures Without(s + t, callback) == Without(s, callback) + Without(t, callback)
  {
    if s == [] {
      assert s + t == t;
    } else {
      var head := if s[0] == callback then [] else [s[0]];
      assert (s + t)[0] == s[0];
      assert (s + t)[1..] == s[1..] + t;
      WithoutConcat(s[1..], t, callback);
      calc {
        Without(s + t, callback);
        head + Without(s[1..] + t, callback);
        head + (Without(s[1..], callback) + Without(t, callback));
        (head + Without(s[1..], callback)) + Without(t, callback);
        Without(s, callback) + Without(t, callback);
      }
    }
  }

  /** Removing a callback that is not registered leaves the list as it was. */
  lemma {:induction false} WithoutAbsent(s: seq<CallbackId>, callback: CallbackId)
    requires callback !in s
    ensures Without(s, callback) == s
  {
    if s != [] {
      WithoutAbsent(s[1..], callback);
    }
  }

  /** `off` undoes any number of `on` calls for the same callback, whatever was registered before. */
  lemma OffAfterOn(s: seq<CallbackId>, callback: CallbackId, times: nat)
    ensures Without(s + seq(times, _ => callback), callback) == Without(s, callback)
  {
    var added := seq(times, _ => callback);
    WithoutConcat(s, added, callback);
    assert multiset(Without(added, callback)) == multiset{};
  }

  class EventEmitter {
    var events: map<string, seq<CallbackId>>

    /** The callbacks registered for `eventName`, in registration order. */
    function Listeners(eventName: string): (callbacks: seq<CallbackId>)
      reads this
    {
      if eventName in events then events[eventName] else []
    }

    constructor ()
      ensures events == map[]
    {
      events := map[];
    }

    /** `on`: append `callback` to the event's list, creating the list if absent; no deduplication. */
    method On(eventName: string, callback: CallbackId)
      modifies this
      ensures events == old(events)[eventName := old(Listeners(eventName)) + [callback]]
      ensures multiset(Listeners(eventName))[callback] == multiset(old(Listeners(eventName)))[callback] + 1
      ensures forall e :: e != eventName ==> Listeners(e) == old(Listeners(e))
    {
      if eventName !in events {
        events := events[eventName := []];
      }
      events := events[eventName := events[eventName] + [callback]];
    }

    /** `off`: remove every occurrence of `callback` from an existing list; unknown events are left alone. */
    method Off(eventName: string, callback: CallbackId)
      modifies this
      ensures eventName in old(events) ==> events == old(events)[eventName := Without(old(events)[eventName], callback)]
      ensures eventName !in old(events) ==> events == old(events)
      ensures callback !in Listeners(eventName)
      ensures forall e :: e != eventName ==> Listeners(e) == old(Listeners(e))
    {
      if eventName in events {
        events := events[eventName := Without(events[eventName], callback)];
      }
    }

    /** `emit`: invoke the event's callbacks one by one, in registration order, once per entry. */
    method Emit(eventName: string) returns (invoked: seq<CallbackId>)
      ensures invoked == Listeners(eventName)
    {
      invoked := [];
      if eventName in events {
        var callbacks := events[eventName];
        var i := 0;
        while i < |callbacks|
          invariant 0 <= i <= |callbacks|
          invariant invoked == callbacks[..i]
        {
          invoked := invoked + [callbacks[i]];
          i := i + 1;
        }
        assert callbacks[..|callbacks|] == callbacks;
      }
    }
  }
}
