/**
 * EventChannel: an ordered list of listeners. subscribe appends, unsubscribe
 * removes the first equal listener, emit calls every listener in order.
 * A listener's callback is outside the model; `throws` says which
 * listeners' onEvent throws, which ends emit after that call.
 */
module Events {

  /** List.remove(Object): the first equal element, if any, is removed. */
  function RemoveFirst<L(==)>(s: seq<L>, x: L): (r: seq<L>)
    ensures x !in s ==> r == s
    ensures x in s ==> |r| == |s| - 1
    ensures multiset(r) == multiset(s) - multiset{x}
  {
    if s == [] then []
    else
      assert s == [s[0]] + s[1..];
      if s[0] == x then s[1..] else [s[0]] + RemoveFirst(s[1..], x)
  }

  /** The removal happens at the first occurrence: what precedes it is kept, what follows shifts down by one. */
  lemma {:induction false} RemoveFirstAt<L>(s: seq<L>, x: L, k: nat)
    requires k < |s| && s[k] == x && x !in s[..k]
    ensures RemoveFirst(s, x) == s[..k] + s[k + 1..]
  {
    if k > 0 {
      assert s[0] != x by { assert s[0] == s[..k][0]; }
      assert s[1..][..k - 1] == s[1..k];
      assert x !in s[1..][..k - 1];
      RemoveFirstAt(s[1..], x, k - 1);
      assert s[..k] == [s[0]] + s[1..k];
      assert s[1..][k..] == s[k + 1..];
    }
  }

  class EventChannel<T, L(==)> {
    var listeners: seq<L>

    /** A new channel has no listeners. */
    constructor ()
      ensures listeners == []
    {
      listeners := [];
    }

    /** subscribe: appended at the end, duplicates allowed. */
    method Subscribe(listener: L)
      modifies this
      ensures listeners == old(listeners) + [listener]
    {
      listeners := listeners + [listener];
    }

    /** unsubscribe: the first equal listener goes; an absent one changes nothing. */
    method Unsubscribe(listener: L)
      modifies this
      ensures listeners == RemoveFirst(old(listeners), listener)
    {
      listeners := RemoveFirst(listeners, listener);
    }

    /** isEmpty. */
    predicate IsEmpty()
      reads this
      ensures IsEmpty() <==> |listeners| == 0
    {
      listeners == []
    }

    /**
     * emit: onEvent(data) on each listener in subscription order, stopping
     * after the first one that throws. Returns the calls made and whether
     * an exception left emit. The list is not changed: Emit modifies nothing.
     */
    method Emit(data: T, throws: L -> bool) returns (calls: seq<(L, T)>, thrown: bool)
      ensures thrown <==> exists i :: 0 <= i < |listeners| && throws(listeners[i])
      ensures !thrown ==> |calls| == |listeners|
      ensures |calls| <= |listeners|
      ensures forall i :: 0 <= i < |calls| ==> calls[i] == (listeners[i], data)
      ensures forall i :: 0 <= i < |calls| - 1 ==> !throws(listeners[i])
      ensures thrown ==> |calls| >= 1 && throws(listeners[|calls| - 1])
    {
      calls := [];
      thrown := false;
      if listeners == [] {
        return;
      }
      for i := 0 to |listeners|
        invariant |calls| == i
        invariant forall j :: 0 <= j < i ==> calls[j] == (listeners[j], data) && !throws(listeners[j])
      {
        calls := calls + [(listeners[i], data)];
        if throws(listeners[i]) {
          thrown := true;
          return;
        }
      }
    }
  }

  /** Subscribing then unsubscribing a listener not yet present restores the list. */
  lemma SubscribeUnsubscribe<L>(s: seq<L>, x: L)
    requires x !in s
    ensures RemoveFirst(s + [x], x) == s
  {
    RemoveFirstAt(s + [x], x, |s|);
    assert (s + [x])[..|s|] == s;
  }

  /** With a duplicate subscription, unsubscribing once leaves the later copy. */
  lemma UnsubscribeDuplicate<L>(s: seq<L>, x: L)
    requires x !in s
    ensures RemoveFirst(s + [x, x], x) == s + [x]
  {
    RemoveFirstAt(s + [x, x], x, |s|);
    assert (s + [x, x])[..|s|] == s;
  }
}
