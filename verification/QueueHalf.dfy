/**
 The queue half of RedisBrokerConnector, in place. Each method does what its thread does between two points at which
 it holds no lock, and returns the steps of the QueueWorker module that it amounts to.
 */
module QueueHalf {
  import opened Atomic
  import opened Common
  import opened QueueWorker
  import QueueWorkerTheorems

  /** The lists of the Redis server that this connector and others work on. */
  class RedisLists {
    var lists: Lists

    constructor ()
      ensures lists == map[]
    {
      lists := map[];
    }

    method LPush(key: Channel, value: Message)
      modifies this
      ensures lists == old(lists)[key := [value] + At(old(lists), key)]
    {
      lists := lists[key := [value] + At(lists, key)];
    }

    method RPush(key: Channel, value: Message)
      modifies this
      ensures lists == old(lists)[key := At(old(lists), key) + [value]]
    {
      lists := lists[key := At(lists, key) + [value]];
    }

    /** The right end of the first list that is not empty; nothing when BRPOP would block. */
    method BRPop(keys: seq<Channel>) returns (popped: Option<(Channel, Message)>)
      modifies this
      ensures popped.Some? <==> Ready(keys, old(lists)).Some?
      ensures popped == None ==> lists == old(lists) && forall k :: 0 <= k < |keys| ==> At(lists, keys[k]) == []
      ensures popped.Some? ==> exists k: nat :: QueueWorkerTheorems.ServesKey(keys, old(lists), k) && keys[k] == popped.value.0
      ensures popped.Some? ==>
        var (q, x) := popped.value; var l := At(old(lists), q);
        q == Ready(keys, old(lists)).value && l != [] && x == Right(l) && lists == old(lists)[q := l[..|l| - 1]]
    {
      for k := 0 to |keys|
        invariant lists == old(lists)
        invariant Ready(keys, lists) == Ready(keys[k..], lists)
        invariant forall j :: 0 <= j < k ==> At(lists, keys[j]) == []
      {
        var l := At(lists, keys[k]);
        assert keys[k..][1..] == keys[k + 1..];
        if l != [] {
          assert QueueWorkerTheorems.ServesKey(keys, old(lists), k);
          lists := lists[keys[k] := l[..|l| - 1]];
          return Some((keys[k], Right(l)));
        }
      }
      popped := None;
    }
  }

  class QueueHalf {
    const technicalChannel: Channel
    const redis: RedisLists
    const isRunning: AtomicBool
    var queueSubscriptions: seq<Channel>
    var queueSubscriptionsChanged: bool
    var queueThreadAlive: bool
    var queues: seq<Channel>                    // the worker's local list
    var delivered: seq<(Channel, Message)>      // the calls of m_on_queue_callback
    var worker: WorkerPc                        // where the worker thread is
    ghost var owner: OwnerPc
    ghost var sent: Lists
    ghost var popped: Lists

    /** The half as a value, while nobody holds the lock. */
    ghost function View(): State
      reads this, redis, isRunning
    {
      State(technicalChannel, isRunning.value, queueSubscriptions, queueSubscriptionsChanged, Free, queueThreadAlive, queues,
                  worker, NoUpdate, owner, redis.lists, sent, popped)
    }

    /** The server's lists may already hold requests; they count as sent. */
    constructor (technicalChannel: Channel, redis: RedisLists, isRunning: AtomicBool)
      requires isRunning.value
      ensures this.redis == redis && this.isRunning == isRunning && this.technicalChannel == technicalChannel
      ensures View() == Init(technicalChannel, redis.lists) && delivered == []
    {
      this.technicalChannel := technicalChannel;
      this.redis := redis;
      this.isRunning := isRunning;
      queueSubscriptions := [technicalChannel];
      queueSubscriptionsChanged := true;
      queueThreadAlive := false;
      queues := [];
      delivered := [];
      worker, owner := AtLoop, Starting;
      sent := map q | q in redis.lists :: Reverse(redis.lists[q]);
      popped := map[];
    }

    method NotifyQueueSubscriptionChange()
      modifies redis
      ensures redis.lists == WithToken(old(View())).lists
    {
      redis.RPush(technicalChannel, []);
    }

    method SendRequest(queue: Channel, message: Message)
      requires queue != technicalChannel
      modifies redis, `sent
      ensures Enabled(old(View()), Send(queue, message)) && View() == Apply(old(View()), Send(queue, message))
    {
      redis.LPush(queue, message);
      sent := sent[queue := At(sent, queue) + [message]];
    }

    method Listen(queue: Channel)
      requires owner == Started && queue != technicalChannel
      modifies redis, `queueSubscriptions, `queueSubscriptionsChanged
      ensures Continue(old(View()), CallSteps(Op.Listen(queue))) == Some(View())
      ensures queueSubscriptions == old(queueSubscriptions) + [queue]
    {
      CallRuns(View(), Op.Listen(queue));
      queueSubscriptions := queueSubscriptions + [queue];
      queueSubscriptionsChanged := true;
      NotifyQueueSubscriptionChange();
    }

    method StopListening(queue: Channel)
      requires owner == Started && queue != technicalChannel
      modifies redis, `queueSubscriptions, `queueSubscriptionsChanged
      ensures Continue(old(View()), CallSteps(Op.StopListening(queue))) == Some(View())
      ensures queueSubscriptions == Without(old(queueSubscriptions), queue)
      ensures forall q :: q in queueSubscriptions <==> q in old(queueSubscriptions) && q != queue
      ensures forall u, v :: old(queueSubscriptions) == u + [queue] + v && queue !in u && queue !in v ==> queueSubscriptions == u + v
    {
      CallRuns(View(), Op.StopListening(queue));
      forall u, v | queueSubscriptions == u + [queue] + v && queue !in u && queue !in v
        ensures Without(queueSubscriptions, queue) == u + v
      {
        QueueWorkerTheorems.RemovalKeepsOrder(u, v, queue);
      }
      WithoutMembers(queueSubscriptions, queue);
      queueSubscriptions := Remove(queueSubscriptions, queue);
      queueSubscriptionsChanged := true;
      NotifyQueueSubscriptionChange();
    }

    /** std::list::remove. */
    static method Remove(s: seq<Channel>, c: Channel) returns (kept: seq<Channel>)
      ensures kept == Without(s, c)
    {
      kept := [];
      var k := |s|;
      while k > 0
        invariant 0 <= k <= |s| && kept == Without(s[k..], c)
      {
        k := k - 1;
        assert s[k..][1..] == s[k + 1..] && s[k..][0] == s[k];
        if s[k] != c {
          kept := [s[k]] + kept;
        }
      }
      assert s[0..] == s;
    }

    /** The locked part of one turn of the worker's loop: refresh the local list if the subscriptions have changed. */
    method Refresh()
      requires worker == AtLoop && isRunning.value
      modifies `queues, `queueSubscriptionsChanged, `worker
      ensures Continue(old(View()), RefreshSteps(old(queueSubscriptionsChanged))) == Some(View())
      ensures worker == AtPop && !queueSubscriptionsChanged
      ensures queues == if old(queueSubscriptionsChanged) then queueSubscriptions else old(queues)
    {
      RefreshRuns(View());
      if queueSubscriptionsChanged {
        queues := queueSubscriptions;
        queueSubscriptionsChanged := false;
      }
      worker := AtPop;
    }

    /** After brpop: tokens are dropped, messages go to the callback. */
    method Dispatch(queue: Channel, text: Message)
      modifies `queueThreadAlive, `delivered, `worker, `popped
      ensures queueThreadAlive && worker == AtLoop
      ensures popped == if queue == technicalChannel then old(popped) else old(popped)[queue := At(old(popped), queue) + [text]]
      ensures delivered == old(delivered) + if queue == technicalChannel then [] else [(queue, text)]
    {
      queueThreadAlive := true;
      worker := AtLoop;
      if queue != technicalChannel {
        popped := popped[queue := At(popped, queue) + [text]];
        delivered := delivered + [(queue, text)];
      }
    }

    /** The rest of the turn: brpop and dispatch. False when brpop blocks. */
    method PopAndDispatch() returns (returned: bool)
      requires worker == AtPop
      modifies redis, `queueThreadAlive, `delivered, `worker, `popped
      ensures returned <==> Enabled(old(View()), Pop)
      ensures !returned ==> View() == old(View()) && delivered == old(delivered)
      ensures returned ==>
        var q := Ready(queues, old(redis.lists)).value; var l := At(old(redis.lists), q);
        && l != [] && View() == Served(old(View()), q)
        && delivered == old(delivered) + if q == technicalChannel then [] else [(q, Right(l))]
    {
      ghost var start := View();
      assert Enabled(start, Pop) <==> Ready(queues, redis.lists).Some?;
      hide Ready, Enabled;
      var message := redis.BRPop(queues);
      returned := message.Some?;
      if returned {
        Dispatch(message.value.0, message.value.1);
      }
    }

    /** One turn of the worker's loop. False when brpop blocks: then nothing is left in any queue of the list. */
    method Turn() returns (returned: bool, ghost ls: seq<Label>)
      requires worker == AtLoop && isRunning.value && Inv(View())
      modifies redis, `queues, `queueSubscriptionsChanged, `queueThreadAlive, `delivered, `worker, `popped
      ensures Continue(old(View()), ls) == Some(View()) && Inv(View())
      ensures if returned then worker == AtLoop && queueThreadAlive
                               && Total(queueSubscriptions, redis.lists) < Total(queueSubscriptions, old(redis.lists))
              else worker == AtPop && redis.lists == old(redis.lists) && queues == queueSubscriptions
                   && forall q :: q in queueSubscriptions ==> At(redis.lists, q) == []
      ensures old(delivered) <= delivered
      ensures Booked(old(popped), popped, delivered[|old(delivered)|..], technicalChannel)
    {
      hide Inv, Continue, RefreshSteps, PopSteps, Booked, Ready, Total;
      ls := RefreshSteps(queueSubscriptionsChanged);
      ghost var start, n := View(), |delivered|;
      Refresh();
      ContinueKeepsInv(start, ls);
      UpToDate(View());
      NothingPopped(popped, delivered[n..], technicalChannel);
      ghost var ready, lists, before := Ready(queues, redis.lists), redis.lists, View();
      returned := PopAndDispatch();
      if !returned {
        NothingReady(queues, redis.lists);
        return;
      }
      PopRuns(before);
      ghost var q := ready.value;
      ghost var x := Right(At(lists, q));
      ReadyIsNonEmpty(queues, lists);
      TotalShrinks(queues, lists, q);
      if q != technicalChannel {
        assert delivered[n..] == [] + [(q, x)];
        BookedPop(old(popped), old(popped), [], technicalChannel, q, x);
      } else {
        assert delivered[n..] == [];
      }
      Concatenate(start, ls, PopSteps(q == technicalChannel));
      ls := ls + PopSteps(q == technicalChannel);
      ContinueKeepsInv(start, ls);
    }

    /**
     The worker's loop, up to the point at which it has exited or brpop blocks with nothing left to serve: then each queue of
     the list is empty, and everything that left it was given to the callback in the order in which it was sent.
     */
    method Work() returns (ghost ls: seq<Label>)
      requires worker == AtLoop && Inv(View())
      modifies redis, `queues, `queueSubscriptionsChanged, `queueThreadAlive, `delivered, `worker, `popped
      ensures Continue(old(View()), ls) == Some(View())
      ensures Inv(View()) && worker == if isRunning.value then AtPop else Exited
      ensures isRunning.value ==> queues == queueSubscriptions && forall q :: q in queueSubscriptions ==> At(redis.lists, q) == []
      ensures old(delivered) <= delivered
      ensures Booked(old(popped), popped, delivered[|old(delivered)|..], technicalChannel)
    {
      hide Inv, Continue, Booked, Total;
      ls := [];
      ghost var start, n := View(), |delivered|;
      NothingPopped(popped, delivered[n..], technicalChannel);
      NoSteps(start);
      while isRunning.value
        invariant worker == AtLoop && Inv(View()) && Continue(start, ls) == Some(View())
        invariant old(delivered) <= delivered && Booked(old(popped), popped, delivered[n..], technicalChannel)
        decreases Total(queueSubscriptions, redis.lists)
      {
        ghost var books, calls, m := popped, delivered[n..], |delivered|;
        var returned, turn := Turn();
        assert delivered[n..] == calls + delivered[m..];
        BookedTwice(old(popped), books, popped, calls, delivered[m..], technicalChannel);
        Concatenate(start, ls, turn);
        ls := ls + turn;
        if !returned {
          return;
        }
      }
      Exits(View());
      Concatenate(start, ls, [Check]);
      ls := ls + [Check];
      worker := Exited;
      ContinueKeepsInv(start, ls);
    }

    /** The end of the constructor: wake tokens until the worker has shown a sign of life. */
    method StartUp() returns (ghost ls: seq<Label>)
      requires owner == Starting && worker == AtLoop && Inv(View())
      modifies redis, `queues, `queueSubscriptionsChanged, `queueThreadAlive, `delivered, `worker, `popped, `owner
      ensures Continue(old(View()), ls) == Some(View()) && Inv(View())
      ensures owner == Started && queueThreadAlive && worker == AtLoop
    {
      hide Inv, Continue, Booked, Total;
      ghost var start := View();
      ls := [];
      NoSteps(start);
      while !queueThreadAlive
        invariant owner == Starting && worker == AtLoop && Inv(View()) && Continue(start, ls) == Some(View())
        decreases !queueThreadAlive
      {
        OneStep(View(), Nudge);
        NotifyQueueSubscriptionChange();
        Concatenate(start, ls, [Nudge]);
        ls := ls + [Nudge];
        ContinueKeepsInv(start, ls);
        RunningAtStart(View());
        TechIsListed(View());
        var returned, turn := Turn();
        Concatenate(start, ls, turn);
        ls := ls + turn;
      }
      OneStep(View(), Start);
      Concatenate(start, ls, [Start]);
      ls := ls + [Start];
      owner := Started;
      ContinueKeepsInv(start, ls);
    }

    /** The destructor's first part, after m_is_running has been cleared in the given state: push a token. */
    method SignalStop(ghost before: State) returns (ghost ls: seq<Label>)
      requires before.owner == Started && before.updater == NoUpdate && Inv(before) && View() == before.(running := false)
      modifies redis, `owner
      ensures Continue(before, ls) == Some(View()) && Inv(View())
      ensures owner == Notified
    {
      hide Inv, Continue;
      OneStep(before, Stop);
      owner := Stopping;
      OneStep(View(), Notify);
      NotifyQueueSubscriptionChange();
      owner := Notified;
      Concatenate(before, [Stop], [Notify]);
      ls := [Stop] + [Notify];
      ContinueKeepsInv(before, ls);
    }

    /** Its second part: the worker, which is in front of its loop or in brpop, runs to its end, and the join returns. */
    method Join() returns (ghost ls: seq<Label>)
      requires owner == Notified && !isRunning.value && (worker == AtLoop || worker == AtPop) && Inv(View())
      modifies redis, `queueThreadAlive, `delivered, `worker, `popped, `owner
      ensures Continue(old(View()), ls) == Some(View()) && Inv(View())
      ensures owner == Joined && worker == Exited
      ensures |delivered| <= |old(delivered)| + 1
    {
      hide Inv, Continue, PopSteps, Ready, Served;
      ghost var start := View();
      ls := [];
      NoSteps(start);
      if worker == AtPop {
        ls := LastPop();
      }
      ghost var last := View();
      ExitsAndJoins(last);
      Concatenate(start, ls, [Check] + [Label.Join]);
      ls := ls + ([Check] + [Label.Join]);
      worker := Exited;
      owner := Joined;
      ContinueKeepsInv(start, ls);
    }

    /** The one brpop that may still be under way has the destructor's token to return with. */
    method LastPop() returns (ghost ls: seq<Label>)
      requires owner == Notified && worker == AtPop && Inv(View())
      modifies redis, `queueThreadAlive, `delivered, `worker, `popped
      ensures Continue(old(View()), ls) == Some(View()) && worker == AtLoop && View().updater == NoUpdate
      ensures |delivered| <= |old(delivered)| + 1
    {
      hide Inv, Continue, PopSteps, Ready, Served;
      TokenWaits(View());
      PopRuns(View());
      ServedIsAtLoop(View(), Ready(queues, redis.lists).value);
      ls := PopSteps(Ready(queues, redis.lists).value == technicalChannel);
      var returned := PopAndDispatch();
    }
  }

  function Texts(calls: seq<(Channel, Message)>, q: Channel): seq<Message> {
    if calls == [] then [] else Texts(calls[..|calls| - 1], q) + if calls[|calls| - 1].0 == q then [calls[|calls| - 1].1] else []
  }

  /** One listen or stop_listening call. */
  function CallSteps(op: Op): seq<Label> {
    [Begin(op)] + [Mutate] + [Flag] + [Push] + [End]
  }

  lemma CallRuns(s: State, op: Op)
    requires s.owner == Started && s.updater == NoUpdate && s.lock == Free && op.queue != s.tech
    ensures Continue(s, CallSteps(op)) == Some(WithToken(s).(subs := Do(op, s.subs), changed := true))
  {
    hide Do, Ready;
    NoSteps(s);
    hide Continue;
    var s1 := s.(lock := ByUpdater, updater := Begun(op));
    var s2 := s1.(subs := Do(op, s.subs), updater := Mutated(op));
    var s3 := s2.(changed := true, updater := Flagged(op));
    var s4 := WithToken(s3).(updater := Pushed(op));
    assert Apply(s, Begin(op)) == s1;
    assert Apply(s1, Mutate) == s2;
    assert Apply(s2, Flag) == s3;
    assert Apply(s3, Push) == s4;
    assert Apply(s4, End) == WithToken(s).(subs := Do(op, s.subs), changed := true);
    assert [] + [Begin(op)] == [Begin(op)];
    Extend(s, [], Begin(op));
    Extend(s, [Begin(op)], Mutate);
    Extend(s, [Begin(op)] + [Mutate], Flag);
    Extend(s, [Begin(op)] + [Mutate] + [Flag], Push);
    Extend(s, [Begin(op)] + [Mutate] + [Flag] + [Push], End);
  }

  function RefreshSteps(changed: bool): seq<Label> {
    if changed then [Check] + [Lock] + [Copy] + [Clear] + [Unlock] else [Check] + [Lock] + [Copy] + [Unlock]
  }

  lemma RefreshBegins(s: State)
    requires s.worker == AtLoop && s.running && s.lock == Free
    ensures Continue(s, [Check] + [Lock]) == Some(s.(worker := InLock, lock := ByWorker))
  {
    hide Ready, Do;
    assert [] + [Check] == [Check];
    Extend(s, [], Check);
    Extend(s, [Check], Lock);
  }

  lemma RefreshRuns(s: State)
    requires s.worker == AtLoop && s.running && s.lock == Free
    ensures Continue(s, RefreshSteps(s.changed))
      == Some(s.(snapshot := if s.changed then s.subs else s.snapshot, changed := false, worker := AtPop))
  {
    RefreshBegins(s);
    hide Ready, Do, Continue;
    var s2 := s.(worker := InLock, lock := ByWorker);
    Extend(s, [Check] + [Lock], Copy);
    if s.changed {
      var s3 := s2.(snapshot := s.subs, worker := Copied);
      assert Apply(s2, Copy) == s3;
      Extend(s, [Check] + [Lock] + [Copy], Clear);
      assert Apply(s3, Clear) == s3.(changed := false, worker := Unlocking);
      Extend(s, [Check] + [Lock] + [Copy] + [Clear], Unlock);
    } else {
      Extend(s, [Check] + [Lock] + [Copy], Unlock);
    }
  }

  function PopSteps(token: bool): seq<Label> {
    if token then [Pop] + [MarkAlive] else [Pop] + [MarkAlive] + [Deliver]
  }

  /** The state after the token or message at the right end of q has been served. */
  function Served(s: State, q: Channel): State
    requires At(s.lists, q) != []
  {
    Take(s, q).(alive := true, worker := AtLoop)
  }

  lemma PopRuns(s: State)
    requires Enabled(s, Pop)
    ensures var q := Ready(s.snapshot, s.lists).value;
      At(s.lists, q) != [] && Continue(s, PopSteps(q == s.tech)) == Some(Served(s, q))
  {
    var q := Ready(s.snapshot, s.lists).value;
    ReadyIsNonEmpty(s.snapshot, s.lists);
    TakeKeepsTech(s, q);
    OneStep(s, Pop);
    hide Ready, Take, Do;
    var s1 := Take(s, q).(worker := Popped(q, Right(At(s.lists, q))));
    assert Continue(s, [Pop]) == Some(s1);
    hide Continue;
    var s2 := s1.(alive := true, worker := if q == s.tech then AtLoop else Delivering(q, Right(At(s.lists, q))));
    assert Enabled(s1, MarkAlive) && Apply(s1, MarkAlive) == s2;
    assert q != s.tech ==> Enabled(s2, Deliver) && Apply(s2, Deliver) == s2.(worker := AtLoop);
    hide Apply, Enabled, Right, At;
    Extend(s, [Pop], MarkAlive);
    if q != s.tech {
      Extend(s, [Pop] + [MarkAlive], Deliver);
    }
  }

  lemma TakeKeepsTech(s: State, q: Channel)
    requires At(s.lists, q) != []
    ensures Take(s, q).tech == s.tech
  {
  }

  /** Popping adds to the books of each queue just what the callback is given from it. */
  ghost predicate Booked(
      before: Lists, after: Lists, calls: seq<(Channel, Message)>, tech: Channel)
  {
    forall q :: q != tech ==> At(after, q) == At(before, q) + Texts(calls, q)
  }

  lemma NothingPopped(books: Lists, calls: seq<(Channel, Message)>, tech: Channel)
    requires calls == []
    ensures Booked(books, books, calls, tech)
  {
  }

  lemma BookedPop(
      before: Lists, after: Lists, calls: seq<(Channel, Message)>, tech: Channel,
      q: Channel, x: Message)
    requires Booked(before, after, calls, tech)
    ensures Booked(before, after[q := At(after, q) + [x]], calls + [(q, x)], tech)
  {
    assert (calls + [(q, x)])[..|calls|] == calls;
    forall c | c != tech ensures At(after[q := At(after, q) + [x]], c) == At(before, c) + Texts(calls + [(q, x)], c) {
      assert At(after, c) == At(before, c) + Texts(calls, c);
    }
  }

  lemma {:induction false} TextsConcatenate(a: seq<(Channel, Message)>, b: seq<(Channel, Message)>, q: Channel)
    ensures Texts(a + b, q) == Texts(a, q) + Texts(b, q)
  {
    if b == [] {
      assert a + b == a;
    } else {
      assert (a + b)[..|a + b| - 1] == a + b[..|b| - 1];
      TextsConcatenate(a, b[..|b| - 1], q);
    }
  }

  lemma BookedTwice(
      before: Lists, between: Lists, after: Lists,
      first: seq<(Channel, Message)>, second: seq<(Channel, Message)>, tech: Channel)
    requires Booked(before, between, first, tech) && Booked(between, after, second, tech)
    ensures Booked(before, after, first + second, tech)
  {
    forall q | q != tech ensures At(after, q) == At(before, q) + Texts(first + second, q) {
      assert At(between, q) == At(before, q) + Texts(first, q);
      assert At(after, q) == At(between, q) + Texts(second, q);
      TextsConcatenate(first, second, q);
      Regroup(At(before, q), Texts(first, q), Texts(second, q));
      hide At, Texts, Booked;
    }
  }

  lemma Regroup<T>(a: seq<T>, b: seq<T>, c: seq<T>)
    ensures a + b + c == a + (b + c)
  {
  }

  lemma NoSteps(s: State)
    ensures Continue(s, []) == Some(s)
  {
  }

  lemma OneStep(s: State, l: Label)
    requires Enabled(s, l)
    ensures Continue(s, [l]) == Some(Apply(s, l))
  {
    Extend(s, [], l);
    assert [] + [l] == [l];
  }

  lemma RunningAtStart(s: State)
    requires Inv(s) && s.owner == Starting
    ensures s.running
  {
  }

  lemma TechIsListed(s: State)
    requires Inv(s)
    ensures s.tech in s.subs
  {
  }

  lemma TokenWaits(s: State)
    requires Inv(s) && s.owner == Notified && s.worker == AtPop
    ensures Ready(s.snapshot, s.lists).Some?
  {
  }

  lemma ExitsAndJoins(s: State)
    requires s.worker == AtLoop && !s.running && s.owner == Notified
    ensures Continue(s, [Check] + [Label.Join]) == Some(s.(worker := Exited, owner := Joined))
  {
    Exits(s);
    Extend(s, [Check], Label.Join);
  }

  lemma ServedIsAtLoop(s: State, q: Channel)
    requires At(s.lists, q) != []
    ensures Served(s, q).worker == AtLoop
  {
  }

  lemma Exits(s: State)
    requires s.worker == AtLoop && !s.running
    ensures Continue(s, [Check]) == Some(s.(worker := Exited))
  {
    Extend(s, [], Check);
    assert [] + [Check] == [Check];
  }

  /** After a refresh with no call in progress the local list is the subscription list. */
  lemma UpToDate(s: State)
    requires Inv(s) && !s.changed && s.updater == NoUpdate
    ensures s.snapshot == s.subs
  {
  }

  function Total(keys: seq<Channel>, lists: Lists): nat {
    if keys == [] then 0 else |At(lists, keys[0])| + Total(keys[1..], lists)
  }

  lemma {:induction false} TotalShrinks(keys: seq<Channel>, lists: Lists, q: Channel)
    requires At(lists, q) != []
    ensures var after := Total(keys, lists[q := At(lists, q)[..|At(lists, q)| - 1]]);
      if q in keys then after < Total(keys, lists) else after == Total(keys, lists)
  {
    if keys != [] {
      TotalShrinks(keys[1..], lists, q);
    }
  }

  lemma {:induction false} NothingReady(keys: seq<Channel>, lists: Lists)
    requires Ready(keys, lists) == None
    ensures forall q :: q in keys ==> At(lists, q) == []
  {
    if keys != [] {
      NothingReady(keys[1..], lists);
    }
  }
}
