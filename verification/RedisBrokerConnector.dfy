/** The whole connector: the constructor's and the destructor's order of effects on its two halves. */
module RedisBrokerConnector {
  import opened Atomic
  import opened Common
  import opened EventHalf
  import opened QueueHalf
  import Handshake
  import QueueWorker

  type Channel = Bytes

  class RedisBrokerConnector {
    const events: EventHalf
    const queues: QueueHalf

    ghost predicate Valid()
      reads this, events, events.redis, events.isRunning, queues, queues.redis, queues.isRunning
    {
      && Handshake.Inv(events.View()) && QueueWorker.Inv(queues.View())
      && events.technicalChannel == queues.technicalChannel && events.isRunning == queues.isRunning
    }

    /** Between construction and destruction, with no call in progress. */
    ghost predicate Open()
      reads this, events, events.redis, events.isRunning, queues, queues.redis, queues.isRunning
    {
      && Valid() && events.owner == Handshake.Started && events.caller == Handshake.Idle
      && queues.owner == QueueWorker.Started && (queues.worker == QueueWorker.AtLoop || queues.worker == QueueWorker.AtPop)
    }

    constructor (technicalChannel: Channel, channels: RedisChannels, lists: RedisLists)
      requires channels.commands == [] && channels.live == {} && channels.replies == []
      modifies channels, lists
      ensures Open() && fresh(events) && fresh(queues) && fresh(events.isRunning) && events.redis == channels && queues.redis == lists
      ensures events.technicalChannel == technicalChannel
      ensures channels.live == {technicalChannel} && queues.queueSubscriptions == [technicalChannel]
    {
      var isRunning := new AtomicBool(true);
      events := new EventHalf(technicalChannel, channels, isRunning);
      queues := new QueueHalf(technicalChannel, lists, isRunning);
      new;
      Handshake.InitInv(technicalChannel);
      QueueWorker.InitInv(technicalChannel, lists.lists);
      hide Handshake.Inv, QueueWorker.Inv;
      StartUp();
    }

    /** The two loops that wait for the threads, and the clearing of the flag. */
    method StartUp()
      requires Valid() && events.owner == Handshake.Starting && events.caller == Handshake.Idle
      requires queues.owner == QueueWorker.Starting && queues.worker == QueueWorker.AtLoop
      modifies events, events.redis, queues, queues.redis
      ensures Open()
      ensures events.redis.live == {events.technicalChannel} && queues.queueSubscriptions == old(queues.queueSubscriptions)
    {
      hide Handshake.Inv, QueueWorker.Inv;
      ghost var awaited := events.AwaitAlive();
      ghost var started := queues.StartUp();
      ghost var cleared := events.ClearStatus();
    }

    method Subscribe(c: Channel)
      requires Open() && c != events.technicalChannel
      modifies events, events.redis
      ensures Open() && events.redis.live == old(events.redis.live) + {c}
    {
      hide Handshake.Inv, QueueWorker.Inv;
      ghost var ls := events.Call(Handshake.Subscribe(c));
    }

    method Unsubscribe(c: Channel)
      requires Open() && c != events.technicalChannel
      modifies events, events.redis
      ensures Open() && events.redis.live == old(events.redis.live) - {c}
    {
      hide Handshake.Inv, QueueWorker.Inv;
      ghost var ls := events.Call(Handshake.Unsubscribe(c));
    }

    method Listen(q: Channel)
      requires Open() && q != events.technicalChannel
      modifies queues, queues.redis
      ensures Open() && queues.queueSubscriptions == old(queues.queueSubscriptions) + [q]
    {
      ghost var before := queues.View();
      queues.Listen(q);
      QueueWorker.ContinueKeepsInv(before, CallSteps(QueueWorker.Listen(q)));
    }

    method StopListening(q: Channel)
      requires Open() && q != events.technicalChannel
      modifies queues, queues.redis
      ensures Open() && queues.queueSubscriptions == QueueWorker.Without(old(queues.queueSubscriptions), q)
      ensures forall u, v ::
        old(queues.queueSubscriptions) == u + [q] + v && q !in u && q !in v ==> queues.queueSubscriptions == u + v
    {
      ghost var before := queues.View();
      queues.StopListening(q);
      QueueWorker.ContinueKeepsInv(before, CallSteps(QueueWorker.StopListening(q)));
    }

    /** The destructor returns: both threads have ended. */
    method Destroy()
      requires Open()
      modifies events, events.redis, events.isRunning, queues, queues.redis
      ensures Valid() && !events.isRunning.value && events.worker == Handshake.Exited && queues.worker == QueueWorker.Exited
      ensures events.owner == Handshake.Joined && queues.owner == QueueWorker.Joined
    {
      hide Handshake.Inv, QueueWorker.Inv;
      ghost var eventsBefore, queuesBefore := events.View(), queues.View();
      events.isRunning.value := false;
      ghost var stopEvents := events.SignalStop(eventsBefore);
      ghost var stopQueues := queues.SignalStop(queuesBefore);
      ghost var joinEvents := events.Join();
      ghost var joinQueues := queues.Join();
    }
  }
}
