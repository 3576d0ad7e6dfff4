/** The manager of one interface's handlers, in place. */
module MessageHandlerManager {
  import opened Common
  import opened Subscriptions
  import opened MessageBroker
  import SubscriptionSteps

  class MessageHandlerManager {
    const kind: Kind
    const broker: MessageBroker
    var channelSubscriptions: Index

    constructor (kind: Kind, broker: MessageBroker)
      ensures this.kind == kind && this.broker == broker && channelSubscriptions == map[]
    {
      this.kind := kind;
      this.broker := broker;
      channelSubscriptions := map[];
    }

    /** What RepeatRejected and ListenRejected name is an exception in the source. */
    method AddMessageHandler(c: Channel, h: Handler) returns (outcome: Outcome)
      modifies this, broker`channelSubscriptions, broker`queueSubscriptions, broker`wrapped, broker.connector
      ensures Refuses(kind, old(channelSubscriptions), c) ==>
        outcome == RepeatRejected && channelSubscriptions == old(channelSubscriptions) && broker.State() == old(broker.State())
      ensures !Refuses(kind, old(channelSubscriptions), c) ==>
        && channelSubscriptions == Added(old(channelSubscriptions), c, h)
        && (h !in ListAt(old(channelSubscriptions), c) ==>
              channelSubscriptions == old(channelSubscriptions)[c := ListAt(old(channelSubscriptions), c) + [h]])
        && (if c in old(channelSubscriptions) then outcome == Done && broker.State() == old(broker.State())
            else outcome == (if Throws(old(broker.State()), kind, c) then ListenRejected else Done)
                 && broker.State() == Acquire(old(broker.State()), kind, c))
    {
      var isNewChannel := c !in channelSubscriptions;
      if isNewChannel {
        channelSubscriptions := channelSubscriptions[c := []];
      }
      if !isNewChannel && kind == Transaction {
        return RepeatRejected;
      }
      if h !in channelSubscriptions[c] {
        channelSubscriptions := channelSubscriptions[c := channelSubscriptions[c] + [h]];
      }
      outcome := Done;
      if isNewChannel {
        match kind {
          case Event => broker.Subscribe(c);
          case Transaction =>
            var accepted := broker.Listen(c);
            if !accepted {
              outcome := ListenRejected;
            }
        }
      }
    }

    method RemoveMessageHandler(c: Channel, h: Handler)
      modifies this, broker`channelSubscriptions, broker`queueSubscriptions, broker`wrapped, broker.connector
      ensures channelSubscriptions == Removed(old(channelSubscriptions), c, h)
      ensures broker.State()
        == if Empties(old(channelSubscriptions), c, h) then Release(old(broker.State()), kind, c) else old(broker.State())
    {
      if c !in channelSubscriptions {
        return;
      }
      var subscribers := Without(channelSubscriptions[c], h);
      if subscribers != [] {
        channelSubscriptions := channelSubscriptions[c := subscribers];
        return;
      }
      channelSubscriptions := channelSubscriptions - {c};
      match kind {
        case Event => broker.Unsubscribe(c);
        case Transaction => broker.StopListening(c);
      }
    }

    /** The walk over the map visits the channels in an order of the map's choosing. */
    method RemoveMessageHandlerEverywhere(h: Handler) returns (ghost walk: seq<Channel>)
      modifies this, broker`channelSubscriptions, broker`queueSubscriptions, broker`wrapped, broker.connector
      ensures WalkOf(walk, old(channelSubscriptions))
      ensures channelSubscriptions == RemovedAll(old(channelSubscriptions), h, walk)
      ensures broker.State() == ReleaseAll(old(broker.State()), kind, Emptied(old(channelSubscriptions), h, walk))
    {
      var emptyChannels: seq<Channel> := [];
      var todo := channelSubscriptions.Keys;
      walk := [];
      while todo != {}
        invariant NoDup(walk) && (forall c :: c in walk <==> c in old(channelSubscriptions) && c !in todo)
        invariant forall c :: c in todo ==> c in old(channelSubscriptions)
        invariant channelSubscriptions == RemovedAll(old(channelSubscriptions), h, walk)
        invariant emptyChannels == Emptied(old(channelSubscriptions), h, walk)
        invariant broker.State() == old(broker.State())
        decreases todo
      {
        var c :| c in todo;
        todo := todo - {c};
        SubscriptionSteps.WalkLeavesTheRest(old(channelSubscriptions), h, walk, c);
        assert (walk + [c])[..|walk|] == walk;
        walk := walk + [c];
        var subscribers := Without(channelSubscriptions[c], h);
        if subscribers == [] {
          emptyChannels := emptyChannels + [c];
          channelSubscriptions := channelSubscriptions - {c};
        } else {
          channelSubscriptions := channelSubscriptions[c := subscribers];
        }
      }
      ReleaseEach(emptyChannels);
    }

    /** The loop over empty_channels. */
    method ReleaseEach(cs: seq<Channel>)
      modifies broker`channelSubscriptions, broker`queueSubscriptions, broker`wrapped, broker.connector
      ensures broker.State() == ReleaseAll(old(broker.State()), kind, cs)
    {
      for k := 0 to |cs|
        invariant broker.State() == ReleaseAll(old(broker.State()), kind, cs[..k])
      {
        assert cs[..k + 1][..k] == cs[..k];
        match kind {
          case Event => broker.Unsubscribe(cs[k]);
          case Transaction => broker.StopListening(cs[k]);
        }
      }
      assert cs[..|cs|] == cs;
    }

    /** The handlers called for one message, in order. */
    method OnMessage(c: Channel) returns (called: seq<Handler>)
      ensures called == ListAt(channelSubscriptions, c)
    {
      called := [];
      if c in channelSubscriptions {
        var subscribers := channelSubscriptions[c];
        for k := 0 to |subscribers|
          invariant called == subscribers[..k]
        {
          called := called + [subscribers[k]];
        }
      }
    }

    /** std::remove_if and erase. */
    static method Without(hs: seq<Handler>, h: Handler) returns (kept: seq<Handler>)
      ensures kept == Drop(hs, h)
    {
      kept := [];
      for k := 0 to |hs|
        invariant kept == Drop(hs[..k], h)
      {
        assert hs[..k + 1][..k] == hs[..k];
        if hs[k] != h {
          kept := kept + [hs[k]];
        }
      }
      assert hs[..|hs|] == hs;
    }
  }
}
