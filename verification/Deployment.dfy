/**
 Several managers on one broker. Every method does in place what Subscriptions.Apply says, so what is proved of the runs
 of actions holds for the objects.
 */
module Deployment {
  import opened Common
  import opened Subscriptions
  import opened MessageBroker
  import opened MessageHandlerManager
  import SubscriptionSteps
  import SubscriptionTheorems

  /** The part of an interface that owns a manager: the id of its callback, and whether it still exists. */
  datatype Owner = Owner(id: Bytes, attached: bool)

  class Deployment {
    const broker: MessageBroker
    var managers: seq<MessageHandlerManager>
    var owners: seq<Owner>

    ghost predicate Valid()
      reads this, managers
    {
      && |owners| == |managers|
      && (forall i :: 0 <= i < |managers| ==> managers[i].broker == broker)
      && (forall i, j :: 0 <= i < j < |managers| ==> managers[i] != managers[j])
    }

    ghost function ManagerAt(i: nat): Manager
      requires i < |managers| == |owners|
      reads this, managers
    {
      Manager(managers[i].kind, managers[i].channelSubscriptions, owners[i].id, owners[i].attached)
    }

    /** All three layers as one value. */
    ghost function View(): System
      requires Valid()
      reads this, managers, broker, broker.connector
    {
      System(seq(|managers|, i requires 0 <= i < |managers| == |owners| reads this, managers => ManagerAt(i)),
             broker.State(), broker.eventCallbacks, broker.transactionCallbacks)
    }

    constructor ()
      ensures Valid() && Inv(View()) && View() == Init()
      ensures fresh(broker) && fresh(broker.connector) && managers == []
    {
      var log := new ConnectorLog();
      broker := new MessageBroker(log);
      managers := [];
      owners := [];
      new;
      hide Inv;
      SubscriptionSteps.InitInv();
      assert View() == Init();
    }

    /** EventInterface and TransactionInterface construct a manager and register its on_message. */
    method Attach(kind: Kind, id: Bytes)
      requires Valid() && Inv(View()) && Enabled(View(), Subscriptions.Attach(kind, id))
      modifies this, broker`eventCallbacks, broker`transactionCallbacks
      ensures Valid() && Inv(View()) && old(managers) <= managers && fresh(managers[|old(managers)|..])
      ensures View() == Apply(old(View()), Subscriptions.Attach(kind, id))
    {
      hide Inv;
      var manager := new MessageHandlerManager(kind, broker);
      match kind {
        case Event => broker.RegisterEventCallback(id, |managers|);
        case Transaction => broker.RegisterTransactionCallback(id, |managers|);
      }
      managers := managers + [manager];
      owners := owners + [Owner(id, true)];
      assert View().managers == Apply(old(View()), Subscriptions.Attach(kind, id)).managers;
      SubscriptionSteps.StepKeepsInv(old(View()), Subscriptions.Attach(kind, id));
    }

    /** Their destructors remove the callback. What the manager still holds is not released at the broker. */
    method Detach(i: nat)
      requires Valid() && Inv(View()) && Enabled(View(), Subscriptions.Detach(i))
      modifies `owners, broker`eventCallbacks, broker`transactionCallbacks
      ensures Valid() && Inv(View())
      ensures View() == Apply(old(View()), Subscriptions.Detach(i))
    {
      hide Inv;
      match managers[i].kind {
        case Event => broker.RemoveEventCallback(owners[i].id);
        case Transaction => broker.RemoveTransactionCallback(owners[i].id);
      }
      owners := owners[i := Owner(owners[i].id, false)];
      assert View().managers == Apply(old(View()), Subscriptions.Detach(i)).managers;
      SubscriptionSteps.StepKeepsInv(old(View()), Subscriptions.Detach(i));
    }

    method Add(i: nat, c: Channel, h: Handler) returns (outcome: Outcome)
      requires Valid() && Inv(View()) && Enabled(View(), Subscriptions.Add(i, c, h))
      modifies managers[i], broker`channelSubscriptions, broker`queueSubscriptions, broker`wrapped, broker.connector
      ensures Valid() && Inv(View())
      ensures View() == Apply(old(View()), Subscriptions.Add(i, c, h))
      ensures outcome == OutcomeOf(old(View()), Subscriptions.Add(i, c, h))
    {
      hide Inv;
      outcome := managers[i].AddMessageHandler(c, h);
      assert View().managers == Apply(old(View()), Subscriptions.Add(i, c, h)).managers;
      SubscriptionSteps.StepKeepsInv(old(View()), Subscriptions.Add(i, c, h));
    }

    method Remove(i: nat, c: Channel, h: Handler)
      requires Valid() && Inv(View()) && Enabled(View(), Subscriptions.Remove(i, c, h))
      modifies managers[i], broker`channelSubscriptions, broker`queueSubscriptions, broker`wrapped, broker.connector
      ensures Valid() && Inv(View())
      ensures View() == Apply(old(View()), Subscriptions.Remove(i, c, h))
    {
      hide Inv;
      managers[i].RemoveMessageHandler(c, h);
      assert View().managers == Apply(old(View()), Subscriptions.Remove(i, c, h)).managers;
      SubscriptionSteps.StepKeepsInv(old(View()), Subscriptions.Remove(i, c, h));
    }

    method RemoveEverywhere(i: nat, h: Handler) returns (ghost walk: seq<Channel>)
      requires Valid() && Inv(View()) && InUse(View(), i)
      modifies managers[i], broker`channelSubscriptions, broker`queueSubscriptions, broker`wrapped, broker.connector
      ensures Valid() && Inv(View())
      ensures Enabled(old(View()), RemoveAll(i, h, walk))
      ensures View() == Apply(old(View()), RemoveAll(i, h, walk))
    {
      hide Inv;
      walk := managers[i].RemoveMessageHandlerEverywhere(h);
      assert View().managers == Apply(old(View()), RemoveAll(i, h, walk)).managers;
      SubscriptionSteps.StepKeepsInv(old(View()), RemoveAll(i, h, walk));
    }

    /** One manager's on_message: its handlers, in order. */
    method CallHandlers(i: nat, c: Channel) returns (deliveries: seq<Delivery>)
      requires i < |managers|
      ensures deliveries == Handed(i, ListAt(managers[i].channelSubscriptions, c))
    {
      var called := managers[i].OnMessage(c);
      deliveries := [];
      for k := 0 to |called|
        invariant deliveries == Handed(i, called[..k])
      {
        assert called[..k + 1][..k] == called[..k];
        deliveries := deliveries + [Delivery(i, called[k])];
      }
      assert called[..|called|] == called;
    }

    /** The fan-out of one message of the connector: the broker's loop over its callbacks, and what they call. */
    method FanOut(kind: Kind, c: Channel) returns (deliveries: seq<Delivery>)
      requires Valid()
      ensures deliveries == Delivered(View(), kind, c)
    {
      var callbacks := if kind == Event then broker.eventCallbacks else broker.transactionCallbacks;
      ghost var values := View().managers;
      assert |values| == |managers| && forall i :: 0 <= i < |managers| ==> values[i].subs == managers[i].channelSubscriptions;
      deliveries := [];
      for j := 0 to |callbacks|
        invariant deliveries == Fanned(values, callbacks[..j], c)
      {
        assert callbacks[..j + 1][..j] == callbacks[..j];
        var i := callbacks[j].manager;
        if i < |managers| {
          var more := CallHandlers(i, c);
          deliveries := deliveries + more;
        }
      }
      assert callbacks[..|callbacks|] == callbacks;
    }

    /** One message of the connector calls exactly the handlers subscribed to its channel, each once. */
    method OnMessage(kind: Kind, c: Channel) returns (deliveries: seq<Delivery>)
      requires Valid() && Inv(View())
      ensures NoDup(deliveries) && forall d :: d in deliveries <==> SubscriptionTheorems.Subscribed(View(), kind, c, d)
      ensures SubscriptionTheorems.Sorted(View().managers, c, deliveries)
    {
      hide Inv, Delivered, SubscriptionTheorems.Subscribed, SubscriptionTheorems.Sorted;
      deliveries := FanOut(kind, c);
      SubscriptionTheorems.DeliveryInState(View(), kind, c);
    }
  }
}
