/** The objects of relayer/types/types.go that are updated in place: route messages, and the cache
    that files them under keys compared, as Go compares them, by the identity of the big.Int. */
module RelayObjects {
  import opened RelayTypes

  /** The big.Int a message's Sn points to. Nothing writes to it, and its identity matters. */
  class SnObject {
    const value: nat

    constructor (value: nat)
      ensures this.value == value
    {
      this.value := value;
    }
  }

  datatype MessageKey = MessageKey(sn: SnObject, src: Nid, dst: Nid, eventType: string)

  class RouteMessage {
    const message: Message
    /** The object message.Sn points to. */
    const sn: SnObject
    var retry: uint8
    var processing: bool
    var lastTry: Instant

    constructor (message: Message, sn: SnObject)
      ensures this.message == message && this.sn == sn && Value() == Fresh(message)
    {
      this.message := message;
      this.sn := sn;
      retry := 0;
      processing := false;
      lastTry := Zero;
    }

    /** A route message decoded from the store. */
    constructor Decoded(route: Route, sn: SnObject)
      ensures this.message == route.msg && this.sn == sn && Value() == route
    {
      this.message := route.msg;
      this.sn := sn;
      retry := route.retry;
      processing := route.processing;
      lastTry := route.lastTry;
    }

    function Value(): Route
      reads this
    {
      Route(message, retry, processing, lastTry)
    }

    function Key(): MessageKey {
      MessageKey(sn, message.src, message.dst, message.eventType)
    }

    method IncrementRetry(now: int)
      modifies this
      ensures Value() == RelayTypes.IncrementRetry(old(Value()), now)
    {
      retry := (retry + 1) % 256;
      AddNextTry(now);
    }

    method AddNextTry(now: int)
      modifies this`lastTry
      ensures lastTry == At(now + BackoffDelay(retry))
    {
      lastTry := At(now + BackoffDelay(retry));
    }

    method ToggleProcessing()
      modifies this`processing
      ensures Value() == RelayTypes.ToggleProcessing(old(Value()))
    {
      processing := !processing;
    }
  }

  class MessageCache {
    var messages: map<MessageKey, RouteMessage>

    constructor ()
      ensures messages == map[]
    {
      messages := map[];
    }

    method Add(r: RouteMessage)
      modifies this
      ensures messages == old(messages)[r.Key() := r]
    {
      messages := messages[r.Key() := r];
    }

    method Remove(key: MessageKey)
      modifies this
      ensures messages == old(messages) - {key}
    {
      messages := messages - {key};
    }

    method Get(key: MessageKey) returns (r: Option<RouteMessage>)
      ensures r == if key in messages then Some(messages[key]) else None
    {
      r := if key in messages then Some(messages[key]) else None;
    }
  }

  /** What reading a stored message gives: an object of its own, with a number object of its own. */
  method Decode(route: Route) returns (copy: RouteMessage)
    ensures fresh(copy) && fresh(copy.sn) && copy.Value() == route && copy.message == route.msg && copy.sn.value == route.msg.sn
  {
    var sn := new SnObject(route.msg.sn);
    copy := new RouteMessage.Decoded(route, sn);
  }
}
