/**
 * The shared key-press publisher: handlers subscribe into one class-level list
 * and each key press is delivered to them in subscription order.
 */
module KeyNotifier {
  /** A subscribed callable, by identity; the same handler may appear twice. */
  type Handler = nat

  /**
   * The handlers one `notify` call reaches: each in order, up to and including
   * the first one that raises, after which the loop is abandoned.
   */
  function Delivered(handlers: seq<Handler>, raising: set<Handler>): seq<Handler>
  {
    if handlers == [] then []
    else if handlers[0] in raising then [handlers[0]]
    else [handlers[0]] + Delivered(handlers[1..], raising)
  }

  /** Delivery reaches a prefix of the list, everything before the first raiser and the raiser itself. */
  lemma {:induction false} DeliveredIsPrefix(handlers: seq<Handler>, raising: set<Handler>)
    ensures var d := Delivered(handlers, raising);
      |d| <= |handlers| && d == handlers[..|d|]
    ensures forall k :: 0 <= k < |Delivered(handlers, raising)| - 1 ==> handlers[k] !in raising
    ensures |Delivered(handlers, raising)| < |handlers| ==>
      Delivered(handlers, raising) != [] && handlers[|Delivered(handlers, raising)| - 1] in raising
    ensures (forall k :: 0 <= k < |handlers| ==> handlers[k] !in raising) ==> Delivered(handlers, raising) == handlers
  {
    if handlers != [] && handlers[0] !in raising {
      DeliveredIsPrefix(handlers[1..], raising);
    }
  }

  /**
   * The program keeps one `event_handlers` list on the class itself, shared
   * by every use; here it is the field of one notifier object, which stands
   * for that single list.
   */
  class KeyPressedNotifier {
    var handlers: seq<Handler>

    constructor ()
      ensures handlers == []
    {
      handlers := [];
    }

    /** Appends; duplicates are kept and nothing is ever removed. */
    method Subscribe(handler: Handler)
      modifies this
      ensures handlers == old(handlers) + [handler]
    {
      handlers := handlers + [handler];
    }

    /**
     * Calls each handler once, in order. `raising` are the handlers that raise
     * on this key: the first of them ends delivery, and its exception is
     * swallowed. The list itself is not changed.
     */
    method Notify(key: int, raising: set<Handler>) returns (called: seq<Handler>)
      ensures called == Delivered(handlers, raising)
      ensures handlers == [] ==> called == []
    {
      called := [];
      var i := 0;
      while i < |handlers|
        invariant 0 <= i <= |handlers|
        invariant called == handlers[..i]
        invariant forall k :: 0 <= k < i ==> handlers[k] !in raising
        invariant Delivered(handlers, raising) == called + Delivered(handlers[i..], raising)
      {
        called := called + [handlers[i]];
        if handlers[i] in raising {
          assert Delivered(handlers[i..], raising) == [handlers[i]];
          return;
        }
        assert handlers[i..][1..] == handlers[i + 1..];
        i := i + 1;
      }
    }
  }
}
