/**
 The event half of RedisBrokerConnector, in place. A method that waits for another thread lets that thread take its
 steps, and returns the steps of the Handshake module that it amounts to.
 */
module EventHalf {
  import opened Atomic
  import opened Common
  import opened Handshake
  import opened HandshakeTheorems

  /** The server's end of the subscriber connection. */
  class RedisChannels {
    var commands: seq<Op>
    var live: set<Channel>
    var replies: seq<Reply>

    constructor ()
      ensures commands == [] && live == {} && replies == []
    {
      commands := [];
      live := {};
      replies := [];
    }

    method Send(op: Op)
      modifies `commands
      ensures commands == old(commands) + [op]
    {
      commands := commands + [op];
    }

    method Process()
      requires commands != []
      modifies this
      ensures commands == old(commands)[1..]
      ensures live == Do(old(commands)[0], old(live))
      ensures replies == old(replies) + [Ack]
    {
      match commands[0] {
        case Subscribe(c) => live := live + {c};
        case Unsubscribe(c) => live := live - {c};
      }
      replies := replies + [Ack];
      commands := commands[1..];
    }

    method Publish(c: Channel, m: Bytes)
      modifies `replies
      ensures replies == if c in live then old(replies) + [Message(c, m)] else old(replies)
    {
      if c in live {
        replies := replies + [Message(c, m)];
      }
    }
  }

  class EventHalf {
    const technicalChannel: Channel
    const redis: RedisChannels
    const isRunning: AtomicBool
    var subscriptionStatusChanged: bool
    var subscriberThreadAlive: bool
    var handed: seq<(Channel, Bytes)>      // the calls of m_on_subscribe_callback
    var worker: WorkerPc                   // where the subscriber thread is
    var caller: CallerPc                   // where the thread in subscribe or unsubscribe is
    ghost var owner: OwnerPc
    ghost var confirmed: set<Channel>
    ghost var accepted: seq<(Channel, Bytes)>

    ghost function View(): State
      reads this, redis, isRunning
    {
      State(technicalChannel, isRunning.value, subscriptionStatusChanged, subscriberThreadAlive, redis.commands, redis.live,
            redis.replies, worker, caller, owner, confirmed, accepted, handed)
    }

    constructor (technicalChannel: Channel, redis: RedisChannels, isRunning: AtomicBool)
      requires isRunning.value
      requires redis.commands == [] && redis.live == {} && redis.replies == []
      modifies redis
      ensures this.redis == redis && this.isRunning == isRunning && this.technicalChannel == technicalChannel
      ensures View() == Init(technicalChannel)
    {
      this.technicalChannel := technicalChannel;
      this.redis := redis;
      this.isRunning := isRunning;
      subscriptionStatusChanged, subscriberThreadAlive := false, false;
      handed := [];
      worker, caller, owner := AtLoop, Idle, Starting;
      confirmed, accepted := {}, [];
      new;
      redis.Send(Op.Subscribe(technicalChannel));
    }

    method NotifyEventSubscriptionChange()
      modifies redis`replies
      ensures redis.replies == Published(old(View()), technicalChannel, []).replies
    {
      redis.Publish(technicalChannel, []);
    }

    method Publish(c: Channel, m: Bytes)
      modifies redis`replies, `accepted
      ensures View() == Apply(old(View()), Label.Publish(c, m))
    {
      redis.Publish(c, m);
      if c in redis.live && c != technicalChannel {
        accepted := accepted + [(c, m)];
      }
    }

    /** The next step of the subscriber thread. */
    method WorkerStep() returns (ghost l: Label)
      requires worker != Exited && worker != WorkerThrew && (worker == Consuming ==> redis.replies != [])
      modifies redis`replies, `subscriptionStatusChanged, `subscriberThreadAlive, `handed, `worker
      ensures WorkerLabel(l) && Enabled(old(View()), l) && View() == Apply(old(View()), l)
    {
      match worker {
        case AtLoop =>
          l := Check;
          worker := if isRunning.value then Consuming else Exited;
        case Consuming =>
          l := Consume;
          var reply := redis.replies[0];
          redis.replies := redis.replies[1..];
          match reply {
            case Ack => worker := InMeta;
            case Message(c, m) => worker := if c == technicalChannel then Marking else Handing(c, m);
          }
        case InMeta =>
          l := Test;
          worker := if subscriptionStatusChanged then WorkerThrew else Setting;
        case Setting =>
          l := Set;
          subscriptionStatusChanged := true;
          worker := Marking;
        case Handing(c, m) =>
          l := Hand;
          handed := handed + [(c, m)];
          worker := Marking;
        case Marking =>
          l := Mark;
          subscriberThreadAlive := true;
          worker := AtLoop;
      }
    }

    /**
     subscribe or unsubscribe: when it returns, the server has carried it out, and the flag is clear again. The exception
     for a flag that is already set is never thrown.
     */
    method Call(op: Op) returns (ghost ls: seq<Label>)
      requires owner == Started && caller == Idle && op.channel != technicalChannel && Inv(View())
      modifies redis, `subscriptionStatusChanged, `subscriberThreadAlive, `handed, `worker, `caller, `confirmed
      ensures Continue(old(View()), ls) == Some(View()) && Inv(View())
      ensures caller == Idle && !subscriptionStatusChanged && redis.live == Do(op, old(redis.live))
    {
      hide Inv, Continue;
      ghost var start := View();
      BetweenCalls(start);
      AskRuns(start, op);
      ls := AskSteps(op);
      redis.Send(op);
      NotifyEventSubscriptionChange();
      caller := Spinning(op);
      ContinueKeepsInv(start, ls);
      ghost var waiting := Spin();
      Concatenate(start, ls, waiting);
      ls := ls + waiting;
      SeeAndClear(View());
      Concatenate(start, ls, [See] + [Clear]);
      ls := ls + ([See] + [Clear]);
      subscriptionStatusChanged := false;
      confirmed := Do(op, confirmed);
      caller := Idle;
      ContinueKeepsInv(start, ls);
      BetweenCalls(View());
    }

    /** The busy wait, while the server and the subscriber thread go on. */
    method Spin() returns (ghost ls: seq<Label>)
      requires owner == Started && caller.Spinning? && Inv(View())
      modifies redis, `subscriptionStatusChanged, `subscriberThreadAlive, `handed, `worker
      ensures Continue(old(View()), ls) == Some(View()) && Inv(View())
      ensures subscriptionStatusChanged
    {
      hide Inv, Continue;
      ghost var start := View();
      ls := [];
      NoSteps(start);
      while !subscriptionStatusChanged
        invariant owner == Started && caller == old(caller) && Inv(View()) && Continue(start, ls) == Some(View())
        decreases |redis.commands|, if subscriptionStatusChanged then 0 else StepsToFlag(View())
      {
        ghost var before := View();
        ghost var l := Process;
        if redis.commands != [] {
          redis.Process();
        } else {
          CanStep(before);
          StepsToFlagIsPositive(before) by { assert Answered(before); }
          l := WorkerStep();
          AnsweredCountsDown(before, l) by { assert Answered(before); }
        }
        Extend(start, ls, l);
        ls := ls + [l];
        StepKeepsInv(before, l);
      }
    }

    /** The subscriber thread's loop, up to the point at which it has exited or consume blocks. */
    method Work() returns (ghost ls: seq<Label>)
      requires Inv(View())
      modifies redis`replies, `subscriptionStatusChanged, `subscriberThreadAlive, `handed, `worker
      ensures Continue(old(View()), ls) == Some(View()) && Inv(View())
      ensures worker == Exited || (worker == Consuming && redis.replies == [])
      ensures worker == Consuming ==> handed == accepted
    {
      hide Inv, Continue;
      ghost var start := View();
      ls := [];
      NoSteps(start);
      NeverThrown(start);
      while worker != Exited && !(worker == Consuming && redis.replies == [])
        invariant worker != WorkerThrew && Inv(View()) && Continue(start, ls) == Some(View())
        invariant redis.commands == old(redis.commands) && redis.live == old(redis.live)
        decreases 5 * |redis.replies| + Place(worker)
      {
        ghost var before := View();
        ghost var l := WorkerStep();
        Extend(start, ls, l);
        ls := ls + [l];
        StepKeepsInv(before, l);
        NeverThrown(View());
      }
      if worker == Consuming {
        NothingLeft(View());
      }
    }

    /** The constructor's loop: messages on the technical channel until the subscriber thread has shown a sign of life. */
    method AwaitAlive() returns (ghost ls: seq<Label>)
      requires owner == Starting && Inv(View())
      modifies redis, `subscriptionStatusChanged, `subscriberThreadAlive, `handed, `worker
      ensures Continue(old(View()), ls) == Some(View()) && Inv(View())
      ensures subscriberThreadAlive
    {
      hide Inv, Continue;
      ghost var start := View();
      ls := [];
      NoSteps(start);
      while !subscriberThreadAlive
        invariant owner == Starting && Inv(View()) && Continue(start, ls) == Some(View())
        decreases !subscriberThreadAlive
      {
        ghost var before := View();
        NotifyEventSubscriptionChange();
        Extend(start, ls, Label.Nudge);
        ls := ls + [Label.Nudge];
        StepKeepsInv(before, Label.Nudge);
        if redis.commands != [] {
          ghost var waiting := View();
          OneCommand(waiting);
          redis.Process();
          Extend(start, ls, Process);
          ls := ls + [Process];
          StepKeepsInv(waiting, Process);
        }
        ghost var work := Work();
        Concatenate(start, ls, work);
        ls := ls + work;
        AliveAfterWork(View());
      }
    }

    /** The end of the constructor. */
    method ClearStatus() returns (ghost ls: seq<Label>)
      requires owner == Starting && subscriberThreadAlive && Inv(View())
      modifies `subscriptionStatusChanged, `owner, `confirmed
      ensures Continue(old(View()), ls) == Some(View()) && Inv(View())
      ensures owner == Started && !subscriptionStatusChanged && redis.live == {technicalChannel}
    {
      ghost var start := View();
      ls := [] + [Label.Start];
      Extend(start, [], Label.Start);
      subscriptionStatusChanged := false;
      owner := Started;
      confirmed := {technicalChannel};
      StepKeepsInv(start, Label.Start);
    }

    /** The destructor's first part, after m_is_running has been cleared in the given state: publish a token. */
    method SignalStop(ghost before: State) returns (ghost ls: seq<Label>)
      requires before.owner == Started && before.caller == Idle && Inv(before) && View() == before.(running := false)
      modifies redis`replies, `owner
      ensures Continue(before, ls) == Some(View()) && Inv(View())
      ensures owner == Notified
    {
      hide Inv;
      Extend(before, [], Stop);
      owner := Stopping;
      hide Continue;
      Extend(before, [] + [Stop], Notify);
      NotifyEventSubscriptionChange();
      owner := Notified;
      ls := [] + [Stop] + [Notify];
      ContinueKeepsInv(before, ls);
    }

    /** Its second part: the subscriber thread runs to its end, and the join returns. */
    method Join() returns (ghost ls: seq<Label>)
      requires owner == Notified && !isRunning.value && Inv(View())
      modifies redis`replies, `subscriptionStatusChanged, `subscriberThreadAlive, `handed, `worker, `owner
      ensures Continue(old(View()), ls) == Some(View()) && Inv(View())
      ensures owner == Joined && worker == Exited
    {
      hide Inv, Continue;
      ghost var start := View();
      ls := Work();
      MustHaveExited(View());
      ghost var before := View();
      Extend(start, ls, Label.Join);
      ls := ls + [Label.Join];
      owner := Joined;
      StepKeepsInv(before, Label.Join);
    }
  }

  lemma {:induction false} Concatenate(s: State, first: seq<Label>, second: seq<Label>)
    requires Continue(s, first).Some? && Continue(Continue(s, first).value, second).Some?
    ensures Continue(s, first + second) == Continue(Continue(s, first).value, second)
  {
    hide Apply, Enabled;
    if second == [] {
      assert first + second == first;
    } else {
      Concatenate(s, first, second[..|second| - 1]);
      assert (first + second)[..|first + second| - 1] == first + second[..|second| - 1];
    }
  }

  lemma NoSteps(s: State)
    ensures Continue(s, []) == Some(s)
  {
  }

  lemma BetweenCalls(s: State)
    requires Inv(s) && s.caller == Idle && s.owner == Started
    ensures !s.flag && s.live == s.confirmed
  {
  }

  /** The first part of a call: up to the busy wait. */
  function AskSteps(op: Op): seq<Label> {
    [Enter(op)] + [TestFlag] + [Ask] + [NotifyCall]
  }

  lemma AskAndNotify(s: State, ls: seq<Label>, t: State, op: Op)
    requires Continue(s, ls) == Some(t) && t.caller == Tested(op)
    ensures Continue(s, ls + [Ask] + [NotifyCall])
      == Some(Published(t.(commands := t.commands + [op]), t.tech, []).(caller := Spinning(op)))
  {
    Extend(s, ls, Ask);
    Extend(s, ls + [Ask], NotifyCall);
  }

  lemma AskRuns(s: State, op: Op)
    requires s.owner == Started && s.caller == Idle && !s.flag && op.channel != s.tech
    ensures Continue(s, AskSteps(op))
      == Some(Published(s.(commands := s.commands + [op]), s.tech, []).(caller := Spinning(op)))
  {
    assert [] + [Enter(op)] == [Enter(op)];
    Extend(s, [], Enter(op));
    Extend(s, [Enter(op)], TestFlag);
    assert Continue(s, [Enter(op)] + [TestFlag]).Some?;
    AskAndNotify(s, [Enter(op)] + [TestFlag], Continue(s, [Enter(op)] + [TestFlag]).value, op);
  }

  lemma SeeAndClear(s: State)
    requires s.caller.Spinning? && s.flag
    ensures Continue(s, [See] + [Clear])
      == Some(s.(flag := false, confirmed := Do(s.caller.op, s.confirmed), caller := Idle))
  {
    assert [] + [See] == [See];
    Extend(s, [], See);
    Extend(s, [See], Clear);
  }

  lemma CanStep(s: State)
    requires Inv(s) && s.caller.Spinning? && s.commands == [] && !s.flag
    ensures s.worker != Exited && s.worker != WorkerThrew && (s.worker == Consuming ==> s.replies != [])
  {
  }

  lemma NeverThrown(s: State)
    requires Inv(s)
    ensures s.worker != WorkerThrew
  {
  }

  lemma NothingLeft(s: State)
    requires Inv(s) && s.worker == Consuming && s.replies == []
    ensures s.handed == s.accepted
  {
  }

  lemma OneCommand(s: State)
    requires Inv(s) && s.commands != []
    ensures |s.commands| == 1
  {
  }

  lemma AliveAfterWork(s: State)
    requires Inv(s) && s.owner == Starting && s.commands == []
    requires s.worker == Exited || (s.worker == Consuming && s.replies == [])
    ensures s.alive
  {
  }

  lemma MustHaveExited(s: State)
    requires Inv(s) && s.owner == Notified && (s.worker == Exited || (s.worker == Consuming && s.replies == []))
    ensures s.worker == Exited
  {
  }

  /** How far the subscriber thread is from its next consume. */
  function Place(w: WorkerPc): nat {
    match w
    case InMeta => 4
    case Setting => 3
    case Handing(_, _) => 3
    case Marking => 2
    case AtLoop => 1
    case _ => 0
  }
}
