/** The reference-counting broker, in place. */
module MessageBroker {
  import opened Common
  import opened Subscriptions

  /** A connector that records the calls it gets. */
  class ConnectorLog {
    var trace: seq<Call>

    constructor ()
      ensures trace == []
    {
      trace := [];
    }

    method Record(call: Call)
      modifies this
      ensures trace == old(trace) + [call]
    {
      trace := trace + [call];
    }
  }

  class MessageBroker {
    const connector: ConnectorLog
    var channelSubscriptions: Counts
    var queueSubscriptions: Counts
    var eventCallbacks: seq<Callback>
    var transactionCallbacks: seq<Callback>
    ghost var wrapped: bool

    /** The broker as a value. */
    ghost function State(): (b: Broker)
      reads this, connector
    {
      Broker(channelSubscriptions, queueSubscriptions, connector.trace, wrapped)
    }

    constructor (log: ConnectorLog)
      ensures connector == log
      ensures State() == Broker(map[], map[], log.trace, false)
      ensures eventCallbacks == [] && transactionCallbacks == []
    {
      connector := log;
      channelSubscriptions := map[];
      queueSubscriptions := map[];
      eventCallbacks := [];
      transactionCallbacks := [];
      wrapped := false;
    }

    method Subscribe(c: Channel)
      modifies `channelSubscriptions, `wrapped, connector
      ensures State() == Acquire(old(State()), Event, c)
    {
      channelSubscriptions := channelSubscriptions[c := Up(Get(channelSubscriptions, c))];
      wrapped := wrapped || channelSubscriptions[c] == 0;
      if channelSubscriptions[c] == 1 {
        connector.Record(Open(Event, c));
      }
    }

    method Unsubscribe(c: Channel)
      modifies `channelSubscriptions, `wrapped, connector
      ensures State() == Release(old(State()), Event, c)
    {
      channelSubscriptions := channelSubscriptions[c := Down(Get(channelSubscriptions, c))];
      wrapped := wrapped || channelSubscriptions[c] == SIZE_T - 1;
      if channelSubscriptions[c] == 0 {
        channelSubscriptions := channelSubscriptions - {c};
        connector.Record(Close(Event, c));
      }
    }

    /** The result is false where the source throws; the increment stays. */
    method Listen(q: Channel) returns (accepted: bool)
      modifies `queueSubscriptions, `wrapped, connector
      ensures State() == Acquire(old(State()), Transaction, q)
      ensures accepted <==> !Throws(old(State()), Transaction, q)
    {
      queueSubscriptions := queueSubscriptions[q := Up(Get(queueSubscriptions, q))];
      wrapped := wrapped || queueSubscriptions[q] == 0;
      if queueSubscriptions[q] == 1 {
        connector.Record(Open(Transaction, q));
        accepted := true;
      } else {
        accepted := false;
      }
    }

    method StopListening(q: Channel)
      modifies `queueSubscriptions, `wrapped, connector
      ensures State() == Release(old(State()), Transaction, q)
    {
      queueSubscriptions := queueSubscriptions[q := Down(Get(queueSubscriptions, q))];
      wrapped := wrapped || queueSubscriptions[q] == SIZE_T - 1;
      if queueSubscriptions[q] == 0 {
        queueSubscriptions := queueSubscriptions - {q};
        connector.Record(Close(Transaction, q));
      }
    }

    method RegisterEventCallback(id: Bytes, manager: nat)
      modifies `eventCallbacks
      ensures eventCallbacks == old(eventCallbacks) + [Callback(id, manager)]
    {
      eventCallbacks := eventCallbacks + [Callback(id, manager)];
    }

    method RegisterTransactionCallback(id: Bytes, manager: nat)
      modifies `transactionCallbacks
      ensures transactionCallbacks == old(transactionCallbacks) + [Callback(id, manager)]
    {
      transactionCallbacks := transactionCallbacks + [Callback(id, manager)];
    }

    method RemoveEventCallback(id: Bytes)
      modifies `eventCallbacks
      ensures eventCallbacks == WithoutId(old(eventCallbacks), id)
    {
      eventCallbacks := RemoveIf(eventCallbacks, id);
    }

    method RemoveTransactionCallback(id: Bytes)
      modifies `transactionCallbacks
      ensures transactionCallbacks == WithoutId(old(transactionCallbacks), id)
    {
      transactionCallbacks := RemoveIf(transactionCallbacks, id);
    }

    /** std::list::remove_if. */
    static method RemoveIf(cs: seq<Callback>, id: Bytes) returns (kept: seq<Callback>)
      ensures kept == WithoutId(cs, id)
    {
      kept := [];
      for k := 0 to |cs|
        invariant kept == WithoutId(cs[..k], id)
      {
        assert cs[..k + 1][..k] == cs[..k];
        if cs[k].id != id {
          kept := kept + [cs[k]];
        }
      }
      assert cs[..|cs|] == cs;
    }
  }
}
