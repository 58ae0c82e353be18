/**
 * `Observers`: the ordered list of listeners an observation notifies.
 *
 * A listener is a Swift closure; here it is identified by a number, and
 * calling it is recorded as a `Call` of that listener with the value.
 */
module Observers {

  /** Identity of a registered closure. */
  type Listener = nat

  /** One invocation of `listener` with `value`. */
  datatype Call<T> = Call(listener: Listener, value: T)

  /** Every listener called once with `value`, in registration order. */
  function Fanout<T>(listeners: seq<Listener>, value: T): (calls: seq<Call<T>>)
    ensures |calls| == |listeners|
    ensures forall i :: 0 <= i < |listeners| ==> calls[i] == Call(listeners[i], value)
  {
    seq(|listeners|, i requires 0 <= i < |listeners| => Call(listeners[i], value))
  }

  /** Fanning out to a list extended by one listener adds one call for it at the end. */
  lemma FanoutAppend<T>(listeners: seq<Listener>, l: Listener, value: T)
    ensures Fanout(listeners + [l], value) == Fanout(listeners, value) + [Call(l, value)]
  {
  }

  class Observers<T> {
    var observers: seq<Listener>

    /** `init()`: no listeners. */
    constructor ()
      ensures observers == []
    {
      observers := [];
    }

    /** `addObserver(_:)`: `observer` is called after every earlier listener. */
    method AddObserver(observer: Listener)
      modifies this
      ensures observers == old(observers) + [observer]
    {
      observers := observers + [observer];
    }

    /** `receive(value:)`: calls each listener once with `value`, in order; the list itself is left as it is. */
    method Receive(value: T) returns (calls: seq<Call<T>>)
      ensures calls == Fanout(observers, value)
    {
      calls := [];
      for i := 0 to |observers|
        invariant calls == Fanout(observers[..i], value)
      {
        FanoutAppend(observers[..i], observers[i], value);
        assert observers[..i + 1] == observers[..i] + [observers[i]];
        calls := calls + [Call(observers[i], value)];
      }
      assert observers[..|observers|] == observers;
    }
  }
}
