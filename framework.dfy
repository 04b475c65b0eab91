/**
 * Stand-ins for the two framework objects the widget touches: Angular's
 * EventEmitter, reduced to the events it has emitted, and an RxJS
 * Subscription, reduced to the number of times it was unsubscribed.
 */
module Framework {

  class EventEmitter {
    var emitted: seq<string>

    constructor ()
      ensures emitted == []
    {
      emitted := [];
    }

    method Emit(event: string)
      modifies this
      ensures emitted == old(emitted) + [event]
    {
      emitted := emitted + [event];
    }
  }

  class Subscription {
    var unsubscribeCalls: nat

    constructor ()
      ensures unsubscribeCalls == 0
    {
      unsubscribeCalls := 0;
    }

    method Unsubscribe()
      modifies this
      ensures unsubscribeCalls == old(unsubscribeCalls) + 1
    {
      unsubscribeCalls := unsubscribeCalls + 1;
    }
  }
}
