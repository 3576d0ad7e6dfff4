/**
 The objects between an application and the broker: publisher, subscriber, request handler, request sender and the
 response side of the transaction interface, in place. What they hand to the broker is recorded, in order.
 */
module Endpoints {
  import opened Common
  import opened Frames
  import opened Json
  import opened Wire
  import opened ResponsePromises
  import Base64
  import Clock
  import Promise
  import PromiseTheorems

  datatype Effect =
    | Published(channel: Channel, wire: Bytes)    // IMessageBroker::publish
    | Pushed(queue: Channel, wire: Bytes)         // IMessageBroker::send_request
    | Registered(id: Id)                          // a promise has entered m_on_response_callbacks

  class Outbox {
    var effects: seq<Effect>

    constructor ()
      ensures effects == []
    {
      effects := [];
    }

    method Add(e: Effect)
      modifies this
      ensures effects == old(effects) + [e]
    {
      effects := effects + [e];
    }
  }

  class Publisher {
    const outbox: Outbox

    constructor (outbox: Outbox)
      ensures this.outbox == outbox
    {
      this.outbox := outbox;
    }

    method Publish(channel: Channel, message: Bytes)
      modifies outbox
      ensures outbox.effects == old(outbox.effects) + [Published(channel, Base64.Encode(message))]
    {
      outbox.Add(Published(channel, Base64.Encode(message)));
    }
  }

  class Subscriber {
    var given: seq<(Channel, Bytes)>   // what the on_message callback has been called with

    constructor ()
      ensures given == []
    {
      given := [];
    }

    /** False where the decoder throws. */
    method OnMessage(channel: Channel, wire: Bytes) returns (ok: bool)
      modifies this
      ensures ok <==> Base64.Decode(wire).Some?
      ensures given == old(given) + if ok then [(channel, Base64.Decode(wire).value)] else []
    {
      match Base64.Decode(wire) {
        case Some(message) =>
          given := given + [(channel, message)];
          ok := true;
        case None =>
          ok := false;
      }
    }
  }

  /** A subscriber's callback gets the bytes that the publisher was given. */
  method PublishAndReceive(publisher: Publisher, subscriber: Subscriber, channel: Channel, message: Bytes) returns (ok: bool)
    modifies publisher.outbox, subscriber
    ensures ok && subscriber.given == old(subscriber.given) + [(channel, message)]
  {
    publisher.Publish(channel, message);
    var last := publisher.outbox.effects[|publisher.outbox.effects| - 1];
    Base64.RoundTrip(message);
    ok := subscriber.OnMessage(last.channel, last.wire);
  }

  datatype Handling = Dropped | Malformed | Replied

  class RequestHandler {
    const publisher: Publisher
    var onRequest: (Channel, Bytes) -> Bytes    // m_on_request_callback

    constructor (publisher: Publisher)
      ensures this.publisher == publisher
    {
      this.publisher := publisher;
      onRequest := (_, _) => [];
    }

    method SetOnRequestCallback(callback: (Channel, Bytes) -> Bytes)
      modifies this
      ensures onRequest == callback
    {
      onRequest := callback;
    }

    /** on_message at time now. Malformed stands for the exceptions of the JSON and base64 decoders. */
    method OnMessage(channel: Channel, wire: Bytes, now: int) returns (handling: Handling)
      modifies publisher.outbox
      ensures handling != Replied ==> publisher.outbox.effects == old(publisher.outbox.effects)
      ensures match DecodeRequest(wire)
        case None => handling != Replied
        case Some(f) =>
          if f.validUntilMs.Some? && Clock.ToMs(now) > f.validUntilMs.value then handling == Dropped
          else handling == Replied
               && publisher.outbox.effects == old(publisher.outbox.effects)
                  + [Published(f.responseChannel, EncodeResponse(Response(f.id, onRequest(channel, f.payload))))]
    {
      var parsed := Parse(wire);
      if parsed == None {
        return Malformed;
      }
      var message := parsed.value;
      var header := Wire.Member(message, HEADER);
      if header == None {
        return Malformed;
      }
      var deadline := Wire.Member(header.value, VALID_UNTIL);
      if deadline != None {
        if !deadline.value.Num? {
          return Malformed;
        }
        if Clock.ToMs(now) > deadline.value.number {
          return Dropped;
        }
      }
      var id := StringAt(header.value, ID);
      var responseChannel := StringAt(header.value, RESPONSE_CHANNEL);
      var encoded := StringAt(message, PAYLOAD);
      if id == None || responseChannel == None || encoded == None {
        return Malformed;
      }
      var payload := Base64.Decode(encoded.value);
      if payload == None {
        return Malformed;
      }
      var responsePayload := onRequest(channel, payload.value);
      var response := Set(Empty, HEADER, Obj(Set(Empty, ID, Str(id.value))));
      response := Set(response, PAYLOAD, Str(Base64.Encode(responsePayload)));
      publisher.Publish(responseChannel.value, Text(Obj(response)));
      handling := Replied;
    }
  }

  /** The interface's map from request ids to waiting promises, and its response channel. */
  class TransactionInterface {
    const responseChannel: Channel
    const outbox: Outbox
    var onResponseCallbacks: map<Id, ResponsePromise>

    constructor (responseChannel: Channel, outbox: Outbox)
      ensures this.responseChannel == responseChannel && this.outbox == outbox && onResponseCallbacks == map[]
    {
      this.responseChannel := responseChannel;
      this.outbox := outbox;
      onResponseCallbacks := map[];
    }

    /** The register lambda. */
    method Register(id: Id, promise: ResponsePromise)
      modifies this, outbox
      ensures onResponseCallbacks == old(onResponseCallbacks)[id := promise]
      ensures outbox.effects == old(outbox.effects) + [Registered(id)]
    {
      onResponseCallbacks := onResponseCallbacks[id := promise];
      outbox.Add(Registered(id));
    }

    /** The unregister lambda, called by the promise's destructor. */
    method Unregister(id: Id)
      modifies this
      ensures onResponseCallbacks == old(onResponseCallbacks) - {id}
    {
      onResponseCallbacks := onResponseCallbacks - {id};
    }

    /**
     The callback of the response channel's subscriber at time now, including the subscriber's decoding. The promise
     found is the only object that changes.
     */
    method OnResponseMessage(wire: Bytes, now: int) returns (ghost called: Option<ResponsePromise>)
      modifies match DecodeResponse(wire)
               case Some(f) => if f.id in onResponseCallbacks then {onResponseCallbacks[f.id]} else {}
               case None => {}
      ensures called == match DecodeResponse(wire)
        case Some(f) => (if f.id in onResponseCallbacks then Some(onResponseCallbacks[f.id]) else None)
        case None => None
      ensures called.Some? ==>
        PromiseTheorems.Continue(
          old(called.value.State()), ResponseSteps(old(called.value.State()), DecodeResponse(wire).value.payload, now))
        == Some(called.value.State())
      ensures called.Some? ==>
        && called.value.readers == old(called.value.readers) && called.value.resultRead == old(called.value.resultRead)
        && if now > called.value.validUntil then called.value.State() == old(called.value.State())
           else !called.value.locked && called.value.response == DecodeResponse(wire).value.payload
    {
      called := None;
      match DecodeResponse(wire) {
        case None =>
        case Some(f) =>
          if f.id in onResponseCallbacks {
            called := Some(onResponseCallbacks[f.id]);
            onResponseCallbacks[f.id].OnResponse(f.payload, now);
          }
      }
    }
  }

  class RequestSender {
    const interface: TransactionInterface

    constructor (interface: TransactionInterface)
      ensures this.interface == interface
    {
      this.interface := interface;
    }

    /** now is the clock's reading and id the fresh UUID that the call draws. */
    method SendRequest(channel: Channel, message: Bytes, timeout: int, now: int, id: Id) returns (promise: ResponsePromise)
      modifies interface, interface.outbox
      ensures fresh(promise) && promise.State() == Promise.Fresh(now + timeout)
      ensures interface.onResponseCallbacks == old(interface.onResponseCallbacks)[id := promise]
      ensures interface.outbox.effects == old(interface.outbox.effects)
        + [Registered(id)]
        + [Pushed(channel, EncodeRequest(Request(id, interface.responseChannel, Some(Clock.ToMs(now + timeout)), message)))]
    {
      var header := Empty;
      header := Set(header, RESPONSE_CHANNEL, Str(interface.responseChannel));
      header := Set(header, ID, Str(id));
      var validUntil := now + timeout;
      var validUntilMs := Clock.ToMs(validUntil);
      header := Set(header, VALID_UNTIL, Num(validUntilMs));
      var data := Set(Empty, HEADER, Obj(header));
      data := Set(data, PAYLOAD, Str(Base64.Encode(message)));
      promise := new ResponsePromise(validUntil);
      interface.Register(id, promise);
      interface.outbox.Add(Pushed(channel, Text(Obj(data))));
    }
  }

  /** The request's way to the handler; no reply means that it was dropped as expired. */
  method SendAndHandle(
      sender: RequestSender, handler: RequestHandler, channel: Channel, message: Bytes, timeout: int, sentAt: int, handledAt: int, id: Id)
      returns (promise: ResponsePromise, reply: Option<Bytes>)
    requires Base62(id) && Base62(sender.interface.responseChannel)
    modifies sender.interface, sender.interface.outbox, handler.publisher.outbox
    ensures fresh(promise) && promise.State() == Promise.Fresh(sentAt + timeout)
    ensures sender.interface.onResponseCallbacks == old(sender.interface.onResponseCallbacks)[id := promise]
    ensures reply == if Clock.Expired(handledAt, Clock.ToMs(sentAt + timeout)) then None
                     else Some(EncodeResponse(Response(id, handler.onRequest(channel, message))))
  {
    RequestRoundTrip(Request(id, sender.interface.responseChannel, Some(Clock.ToMs(sentAt + timeout)), message));
    hide EncodeRequest, EncodeResponse, DecodeRequest, Clock.ToMs;
    promise := sender.SendRequest(channel, message, timeout, sentAt, id);
    var sent := sender.interface.outbox.effects[|sender.interface.outbox.effects| - 1];
    var handling := handler.OnMessage(sent.queue, sent.wire, handledAt);
    reply := None;
    if handling == Replied {
      reply := Some(handler.publisher.outbox.effects[|handler.publisher.outbox.effects| - 1].wire);
    }
  }

  /**
   One request from end to end: what the awaiting caller gets is what the callback set at the handler made of exactly the
   bytes that were sent, if the response arrives by the deadline; and a request that its handler drops could not have been
   answered in time.
   */
  method RoundTrip(
      sender: RequestSender, handler: RequestHandler, callback: (Channel, Bytes) -> Bytes, channel: Channel, message: Bytes,
      timeout: int, sentAt: int, handledAt: int, answeredAt: int, id: Id)
      returns (resolution: Option<Promise.Resolution>)
    requires Base62(id) && Base62(sender.interface.responseChannel) && sentAt <= handledAt <= answeredAt
    modifies sender.interface, sender.interface.outbox, handler, handler.publisher.outbox
    ensures resolution == Some(
      if answeredAt <= sentAt + timeout then Promise.Answer(callback(channel, message)) else Promise.Timeout)
  {
    handler.SetOnRequestCallback(callback);
    hide EncodeResponse, DecodeResponse, Clock.ToMs, Clock.Expired, PromiseTheorems.Continue, ResponseSteps, AwaitSteps;
    var promise, reply := SendAndHandle(sender, handler, channel, message, timeout, sentAt, handledAt, id);
    if reply.Some? {
      ResponseRoundTrip(Response(id, handler.onRequest(channel, message)));
      ghost var called := sender.interface.OnResponseMessage(reply.value, answeredAt);
      assert called == Some(promise);
    } else {
      Clock.FilterIsSound(handledAt, sentAt + timeout);
    }
    resolution := promise.Await(0, if answeredAt <= sentAt + timeout then sentAt + timeout else answeredAt);
  }
}
