/**
 The subscriber worker of the Redis connector and the acknowledgement handshake of subscribe and unsubscribe, as a
 step system: the worker thread, the thread that holds m_subscription_lock, the thread that constructs and destroys
 the connector, and the server's end of the subscriber connection.
 */
module Handshake {
  import opened Common

  type Channel = Bytes

  datatype Op = Subscribe(channel: Channel) | Unsubscribe(channel: Channel)

  /** What the server sends on the subscriber connection: acknowledgements and messages, in one FIFO stream. */
  datatype Reply = Ack | Message(channel: Channel, text: Bytes)

  datatype WorkerPc =
    | AtLoop                              // testing m_is_running
    | Consuming                           // calling, or blocked in, consume
    | InMeta                              // on_meta, testing m_subscription_status_changed
    | Setting                             // on_meta, past the test
    | Handing(channel: Channel, text: Bytes)  // on_message, before the callback
    | Marking                             // before setting m_subscriber_thread_alive
    | Exited
    | WorkerThrew                         // "subscriptions / unsunscriptions must be mutexed!"

  /** The call that holds m_subscription_lock, if there is one. */
  datatype CallerPc =
    | Idle
    | Entered(op: Op)                     // testing m_subscription_status_changed
    | Tested(op: Op)
    | Asked(op: Op)                       // the command is sent, the nudge is not
    | Spinning(op: Op)
    | Clearing(op: Op)
    | CallerThrew

  datatype OwnerPc = Starting | Started | Stopping | Notified | Joined

  datatype State = State(
    tech: Channel,                        // m_technical_channel
    running: bool,                        // m_is_running
    flag: bool,                           // m_subscription_status_changed
    alive: bool,                          // m_subscriber_thread_alive
    commands: seq<Op>,                    // sent to the server, not yet processed
    live: set<Channel>,                   // the server's subscriptions of this connection
    replies: seq<Reply>,                  // sent by the server, not yet consumed
    worker: WorkerPc,
    caller: CallerPc,
    owner: OwnerPc,
    confirmed: set<Channel>,              // history: what the returned calls add up to
    accepted: seq<(Channel, Bytes)>,      // history: user messages published on a live channel
    handed: seq<(Channel, Bytes)>)        // history: user messages given to the callback

  datatype Label =
    // worker
    | Check | Consume | Test | Set | Hand | Mark
    // the thread in subscribe or unsubscribe
    | Enter(op: Op) | TestFlag | Ask | NotifyCall | See | Clear
    // owner
    | Nudge | Start | Stop | Notify | Join
    // server
    | Process | Publish(channel: Channel, text: Bytes)

  /** The constructor up to the start of the thread: the technical channel's subscription has been asked for. */
  function Init(tech: Channel): State {
    State(tech, true, false, false, [Subscribe(tech)], {}, [], AtLoop, Idle, Starting, {}, [], [])
  }

  function Do(op: Op, channels: set<Channel>): set<Channel> {
    match op
    case Subscribe(c) => channels + {c}
    case Unsubscribe(c) => channels - {c}
  }

  /** PUBLISH reaches this connection exactly when the channel is subscribed at that moment. */
  function Published(s: State, c: Channel, m: Bytes): State {
    if c in s.live then
      s.(replies := s.replies + [Message(c, m)],
         accepted := if c == s.tech then s.accepted else s.accepted + [(c, m)])
    else s
  }

  predicate Enabled(s: State, l: Label) {
    match l
    case Check => s.worker == AtLoop
    case Consume => s.worker == Consuming && s.replies != []
    case Test => s.worker == InMeta
    case Set => s.worker == Setting
    case Hand => s.worker.Handing?
    case Mark => s.worker == Marking
    // the technical channel's name is a fresh UUID: no application subscribes to it or unsubscribes from it
    case Enter(op) => s.owner == Started && s.caller == Idle && op.channel != s.tech
    case TestFlag => s.caller.Entered?
    case Ask => s.caller.Tested?
    case NotifyCall => s.caller.Asked?
    case See => s.caller.Spinning? && s.flag
    case Clear => s.caller.Clearing?
    // the loop's test of the alive flag comes before its publish, so the flag may have been set in between
    case Nudge => s.owner == Starting
    case Start => s.owner == Starting && s.alive
    // a connector is not destroyed while a call on it is in progress
    case Stop => s.owner == Started && s.caller == Idle
    case Notify => s.owner == Stopping
    case Join => s.owner == Notified && s.worker == Exited
    case Process => s.commands != []
    case Publish(_, _) => true
  }

  function Apply(s: State, l: Label): State
    requires Enabled(s, l)
  {
    match l
    case Check => s.(worker := if s.running then Consuming else Exited)
    case Consume =>
      s.(replies := s.replies[1..],
         worker := match s.replies[0]
                   case Ack => InMeta
                   case Message(c, m) => if c == s.tech then Marking else Handing(c, m))
    case Test => s.(worker := if s.flag then WorkerThrew else Setting)
    case Set => s.(flag := true, worker := Marking)
    case Hand => s.(handed := s.handed + [(s.worker.channel, s.worker.text)], worker := Marking)
    case Mark => s.(alive := true, worker := AtLoop)
    case Enter(op) => s.(caller := Entered(op))
    case TestFlag => s.(caller := if s.flag then CallerThrew else Tested(s.caller.op))
    case Ask => s.(commands := s.commands + [s.caller.op], caller := Asked(s.caller.op))
    case NotifyCall => Published(s, s.tech, []).(caller := Spinning(s.caller.op))
    case See => s.(caller := Clearing(s.caller.op))
    case Clear => s.(flag := false, confirmed := Do(s.caller.op, s.confirmed), caller := Idle)
    case Nudge => Published(s, s.tech, [])
    case Start => s.(flag := false, confirmed := {s.tech}, owner := Started)
    case Stop => s.(running := false, owner := Stopping)
    case Notify => Published(s, s.tech, []).(owner := Notified)
    case Join => s.(owner := Joined)
    case Process => s.(commands := s.commands[1..], live := Do(s.commands[0], s.live), replies := s.replies + [Ack])
    case Publish(c, m) => Published(s, c, m)
  }

  function Continue(s: State, ls: seq<Label>): Option<State> {
    if ls == [] then Some(s)
    else
      var prev := Continue(s, ls[..|ls| - 1]);
      if prev.Some? && Enabled(prev.value, ls[|ls| - 1]) then Some(Apply(prev.value, ls[|ls| - 1])) else None
  }

  /** The states that some interleaving reaches after construction has begun. */
  function Run(tech: Channel, ls: seq<Label>): Option<State> {
    Continue(Init(tech), ls)
  }

  function One(b: bool): nat {
    if b then 1 else 0
  }

  function Acks(replies: seq<Reply>): nat {
    if replies == [] then 0 else One(replies[0] == Ack) + Acks(replies[1..])
  }

  /** Acknowledgements on their way, wherever they are, and the flag's value. */
  function Outstanding(s: State): nat {
    |s.commands| + Acks(s.replies) + One(s.worker == InMeta || s.worker == Setting) + One(s.flag)
  }

  /** The call that is waiting for its acknowledgement; the constructor waits for the one of the technical channel. */
  function Pending(s: State): Option<Op> {
    if s.owner == Starting then Some(Subscribe(s.tech))
    else if s.caller.Asked? || s.caller.Spinning? || s.caller.Clearing? then Some(s.caller.op)
    else None
  }

  ghost predicate CountInv(s: State) {
    && Outstanding(s) == One(Pending(s).Some?)
    && (s.caller.Clearing? ==> s.flag)
    && s.worker != WorkerThrew && s.caller != CallerThrew
  }

  /** The server has done what it was asked for, or has not yet seen the one pending command. */
  ghost predicate LiveInv(s: State) {
    && (match Pending(s)
        case None => s.live == s.confirmed
        case Some(op) => if s.commands == [] then s.live == Do(op, s.confirmed) else s.commands == [op] && s.live == s.confirmed)
    && (s.owner == Starting ==> s.confirmed == {})
    && (s.owner != Starting ==> s.tech in s.confirmed)
  }

  ghost predicate OwnerInv(s: State) {
    && (s.running <==> s.owner == Starting || s.owner == Started)
    && (s.owner == Starting || !s.running ==> s.caller == Idle)
    && (s.caller != Idle && s.caller != CallerThrew ==> s.caller.op.channel != s.tech)
    && (s.worker == Exited ==> !s.running)
    && (s.owner == Joined ==> s.worker == Exited)
    // before the first acknowledgement nothing else can arrive
    && (s.owner == Starting && !s.flag ==>
          && !s.alive
          && (s.commands != [] ==> s.replies == [] && (s.worker == AtLoop || s.worker == Consuming))
          && (s.replies != [] && s.replies[0] != Ack ==> s.worker == InMeta || s.worker == Setting)
          && s.worker != Marking && !s.worker.Handing?)
    && (s.owner == Starting && s.flag && !s.alive ==> s.worker == Marking)
    && (s.owner == Notified && s.worker == Consuming ==> s.replies != [])
  }

  function UserMessages(replies: seq<Reply>, tech: Channel): seq<(Channel, Bytes)> {
    if replies == [] then []
    else
      (if replies[0].Message? && replies[0].channel != tech then [(replies[0].channel, replies[0].text)] else [])
      + UserMessages(replies[1..], tech)
  }

  function InHand(w: WorkerPc): seq<(Channel, Bytes)> {
    if w.Handing? then [(w.channel, w.text)] else []
  }

  /** Handed over, in hand, still in the stream: together the accepted messages, in order. */
  ghost predicate StreamInv(s: State) {
    s.accepted == s.handed + InHand(s.worker) + UserMessages(s.replies, s.tech)
  }

  ghost predicate Inv(s: State) {
    CountInv(s) && LiveInv(s) && OwnerInv(s) && StreamInv(s)
  }

  lemma InitInv(tech: Channel)
    ensures Inv(Init(tech))
  {
  }

  lemma {:induction false} AcksAppend(a: seq<Reply>, r: Reply)
    ensures Acks(a + [r]) == Acks(a) + One(r == Ack)
  {
    if a == [] {
      assert a + [r] == [r] && [r][1..] == [];
    } else {
      assert (a + [r])[1..] == a[1..] + [r];
      AcksAppend(a[1..], r);
    }
  }

  lemma {:induction false} UserMessagesAppend(a: seq<Reply>, r: Reply, tech: Channel)
    ensures UserMessages(a + [r], tech)
      == UserMessages(a, tech) + if r.Message? && r.channel != tech then [(r.channel, r.text)] else []
  {
    if a == [] {
      assert a + [r] == [r] && [r][1..] == [];
    } else {
      assert (a + [r])[1..] == a[1..] + [r];
      UserMessagesAppend(a[1..], r, tech);
    }
  }

  predicate WorkerLabel(l: Label) {
    l.Check? || l.Consume? || l.Test? || l.Set? || l.Hand? || l.Mark?
  }

  predicate CallerLabel(l: Label) {
    l.Enter? || l.TestFlag? || l.Ask? || l.NotifyCall? || l.See? || l.Clear?
  }

  // ---- the acknowledgement count ----

  lemma PublishedKeepsCount(s: State, c: Channel, m: Bytes)
    ensures Acks(Published(s, c, m).replies) == Acks(s.replies)
  {
    AcksAppend(s.replies, Message(c, m));
    hide Acks;
  }

  lemma WorkerKeepsCount(s: State, l: Label)
    requires CountInv(s) && Enabled(s, l) && WorkerLabel(l)
    ensures CountInv(Apply(s, l))
  {
  }

  lemma CallerKeepsCount(s: State, l: Label)
    requires CountInv(s) && OwnerInv(s) && Enabled(s, l) && CallerLabel(l)
    ensures CountInv(Apply(s, l))
  {
    PublishedKeepsCount(s, s.tech, []);
    hide Acks;
  }

  lemma OthersKeepCount(s: State, l: Label)
    requires CountInv(s) && OwnerInv(s) && Enabled(s, l) && !WorkerLabel(l) && !CallerLabel(l)
    ensures CountInv(Apply(s, l))
  {
    AcksAppend(s.replies, Ack);
    PublishedKeepsCount(s, s.tech, []);
    if l.Publish? {
      PublishedKeepsCount(s, l.channel, l.text);
    }
    hide Acks;
  }

  lemma StepKeepsCount(s: State, l: Label)
    requires CountInv(s) && OwnerInv(s) && Enabled(s, l)
    ensures CountInv(Apply(s, l))
  {
    hide CountInv, OwnerInv, Apply, Enabled;
    if WorkerLabel(l) {
      WorkerKeepsCount(s, l);
    } else if CallerLabel(l) {
      CallerKeepsCount(s, l);
    } else {
      OthersKeepCount(s, l);
    }
  }

  // ---- the server's subscriptions ----

  lemma WorkerKeepsLive(s: State, l: Label)
    requires LiveInv(s) && Enabled(s, l) && WorkerLabel(l)
    ensures LiveInv(Apply(s, l))
  {
    hide Do;
  }

  lemma CallerKeepsLive(s: State, l: Label)
    requires CountInv(s) && LiveInv(s) && OwnerInv(s) && Enabled(s, l) && CallerLabel(l)
    ensures LiveInv(Apply(s, l))
  {
    hide Acks;
  }

  lemma OthersKeepLive(s: State, l: Label)
    requires CountInv(s) && LiveInv(s) && OwnerInv(s) && Enabled(s, l) && !WorkerLabel(l) && !CallerLabel(l)
    ensures LiveInv(Apply(s, l))
  {
    hide Acks;
  }

  lemma StepKeepsLive(s: State, l: Label)
    requires CountInv(s) && LiveInv(s) && OwnerInv(s) && Enabled(s, l)
    ensures LiveInv(Apply(s, l))
  {
    hide CountInv, LiveInv, OwnerInv, Apply, Enabled;
    if WorkerLabel(l) {
      WorkerKeepsLive(s, l);
    } else if CallerLabel(l) {
      CallerKeepsLive(s, l);
    } else {
      OthersKeepLive(s, l);
    }
  }

  // ---- the owner ----

  lemma WorkerKeepsOwner(s: State, l: Label)
    requires CountInv(s) && OwnerInv(s) && Enabled(s, l) && WorkerLabel(l)
    ensures OwnerInv(Apply(s, l))
  {
  }

  lemma CallerKeepsOwner(s: State, l: Label)
    requires CountInv(s) && OwnerInv(s) && Enabled(s, l) && CallerLabel(l)
    ensures OwnerInv(Apply(s, l))
  {
    hide Acks, Do;
  }

  lemma OthersKeepOwner(s: State, l: Label)
    requires CountInv(s) && LiveInv(s) && OwnerInv(s) && Enabled(s, l) && !WorkerLabel(l) && !CallerLabel(l)
    ensures OwnerInv(Apply(s, l))
  {
  }

  lemma StepKeepsOwner(s: State, l: Label)
    requires CountInv(s) && LiveInv(s) && OwnerInv(s) && Enabled(s, l)
    ensures OwnerInv(Apply(s, l))
  {
    hide CountInv, LiveInv, OwnerInv, Apply, Enabled;
    if WorkerLabel(l) {
      WorkerKeepsOwner(s, l);
    } else if CallerLabel(l) {
      CallerKeepsOwner(s, l);
    } else {
      OthersKeepOwner(s, l);
    }
  }

  // ---- the event stream ----

  lemma PublishedKeepsStream(s: State, c: Channel, m: Bytes)
    requires StreamInv(s)
    ensures var t := Published(s, c, m);
      && t.tech == s.tech && t.handed == s.handed && t.worker == s.worker
      && t.accepted == s.handed + InHand(s.worker) + UserMessages(t.replies, s.tech)
  {
    UserMessagesAppend(s.replies, Message(c, m), s.tech);
    hide UserMessages, InHand;
  }

  lemma ConsumeKeepsStream(s: State)
    requires StreamInv(s) && Enabled(s, Consume)
    ensures StreamInv(Apply(s, Consume))
  {
    var t := Apply(s, Consume);
    assert UserMessages(s.replies, s.tech) == InHand(t.worker) + UserMessages(t.replies, s.tech);
    assert InHand(s.worker) == [];
    hide Apply, Enabled, UserMessages, InHand;
  }

  lemma HandKeepsStream(s: State)
    requires StreamInv(s) && Enabled(s, Hand)
    ensures StreamInv(Apply(s, Hand))
  {
    var t := Apply(s, Hand);
    assert t.handed == s.handed + InHand(s.worker) && InHand(t.worker) == [];
    assert t.accepted == s.accepted && t.replies == s.replies && t.tech == s.tech;
    hide Apply, Enabled, UserMessages, InHand;
  }

  lemma ProcessKeepsStream(s: State)
    requires StreamInv(s) && Enabled(s, Process)
    ensures StreamInv(Apply(s, Process))
  {
    UserMessagesAppend(s.replies, Ack, s.tech);
    hide UserMessages, InHand, Do;
  }

  predicate MovesEvents(l: Label) {
    l.Consume? || l.Hand? || l.Process? || l.Publish? || l.Nudge? || l.Notify? || l.NotifyCall?
  }

  lemma OthersLeaveStream(s: State, l: Label)
    requires Enabled(s, l) && !MovesEvents(l)
    ensures var t := Apply(s, l);
      && t.tech == s.tech && t.accepted == s.accepted && t.handed == s.handed && t.replies == s.replies
      && InHand(t.worker) == InHand(s.worker)
  {
    hide Do;
  }

  lemma StepKeepsStream(s: State, l: Label)
    requires StreamInv(s) && Enabled(s, l)
    ensures StreamInv(Apply(s, l))
  {
    match l {
      case Publish(c, m) => PublishedKeepsStream(s, c, m);
      case Nudge => PublishedKeepsStream(s, s.tech, []);
      case Notify => PublishedKeepsStream(s, s.tech, []);
      case NotifyCall => PublishedKeepsStream(s, s.tech, []);
      case Consume =>
        hide StreamInv, Apply;
        ConsumeKeepsStream(s);
      case Hand =>
        hide StreamInv, Apply;
        HandKeepsStream(s);
      case Process =>
        hide StreamInv, Apply;
        ProcessKeepsStream(s);
      case _ =>
        OthersLeaveStream(s, l);
        hide Apply;
    }
    hide Published, UserMessages, InHand, Enabled;
  }

  lemma StepKeepsInv(s: State, l: Label)
    requires Inv(s) && Enabled(s, l)
    ensures Inv(Apply(s, l))
  {
    hide CountInv, LiveInv, OwnerInv, StreamInv, Apply, Enabled;
    StepKeepsCount(s, l);
    StepKeepsLive(s, l);
    StepKeepsOwner(s, l);
    StepKeepsStream(s, l);
  }

  lemma {:induction false} ContinueKeepsInv(s: State, ls: seq<Label>)
    requires Inv(s) && Continue(s, ls).Some?
    ensures Inv(Continue(s, ls).value)
  {
    hide Inv, Apply, Enabled;
    if ls != [] {
      ContinueKeepsInv(s, ls[..|ls| - 1]);
      StepKeepsInv(Continue(s, ls[..|ls| - 1]).value, ls[|ls| - 1]);
    }
  }

  /** Every reachable state satisfies the invariant. */
  lemma RunInv(tech: Channel, ls: seq<Label>)
    requires Run(tech, ls).Some?
    ensures Inv(Run(tech, ls).value)
  {
    InitInv(tech);
    ContinueKeepsInv(Init(tech), ls);
  }

  lemma Extend(s: State, ls: seq<Label>, l: Label)
    requires Continue(s, ls).Some? && Enabled(Continue(s, ls).value, l)
    ensures Continue(s, ls + [l]) == Some(Apply(Continue(s, ls).value, l))
  {
    hide Apply, Enabled;
    assert (ls + [l])[..|ls + [l]| - 1] == ls;
  }
}

/** What every interleaving of the subscriber worker with the other threads guarantees. */
module HandshakeTheorems {
  import opened Common
  import opened Handshake

  /**
   The one-bit handshake: after construction the acknowledgements on their way and the flag add up to one while a call
   waits for its answer and to zero otherwise, in particular whenever m_subscription_lock is free.
   */
  lemma OutstandingIsOneBit(tech: Channel, ls: seq<Label>)
    requires Run(tech, ls).Some? && Run(tech, ls).value.owner != Starting
    ensures var s := Run(tech, ls).value;
      && Outstanding(s) == (if s.caller.Asked? || s.caller.Spinning? || s.caller.Clearing? then 1 else 0)
      && (s.caller == Idle ==> Outstanding(s) == 0 && !s.flag)
  {
    RunInv(tech, ls);
  }

  /** None of the three "must be mutexed" exceptions is ever thrown. */
  lemma NothingThrows(tech: Channel, ls: seq<Label>)
    requires Run(tech, ls).Some?
    ensures var s := Run(tech, ls).value;
      && s.worker != WorkerThrew && s.caller != CallerThrew
      && (s.worker == InMeta || s.caller.Entered? ==> !s.flag)
  {
    RunInv(tech, ls);
  }

  /** A call that is about to return has been carried out by the server. */
  lemma ReturnIsConfirmed(tech: Channel, ls: seq<Label>)
    requires Run(tech, ls).Some? && Enabled(Run(tech, ls).value, Clear)
    ensures var s := Run(tech, ls).value;
      && s.commands == [] && (s.caller.op.channel in s.live <==> s.caller.op.Subscribe?)
      && Outstanding(Apply(s, Clear)) == 0
  {
    RunInv(tech, ls);
  }

  /** The subscriptions that the calls of a run add up to, in the order in which they took the lock. */
  function Net(tech: Channel, ls: seq<Label>): set<Channel> {
    if ls == [] then {}
    else
      var before := Net(tech, ls[..|ls| - 1]);
      match ls[|ls| - 1]
      case Start => {tech}
      case Enter(op) => Do(op, before)
      case _ => before
  }

  /** The calls made so far, the one in progress included. */
  function Called(s: State): set<Channel>
    requires s.caller != CallerThrew
  {
    if s.caller == Idle then s.confirmed else Do(s.caller.op, s.confirmed)
  }

  lemma CallerFollowsNet(s: State, l: Label)
    requires Inv(s) && Enabled(s, l) && CallerLabel(l)
    ensures var t := Apply(s, l);
      t.tech == s.tech && t.caller != CallerThrew && s.caller != CallerThrew
      && Called(t) == if l.Enter? then Do(l.op, Called(s)) else Called(s)
  {
    hide LiveInv, StreamInv, Acks, Do;
  }

  lemma OthersFollowNet(s: State, l: Label)
    requires Inv(s) && Enabled(s, l) && !CallerLabel(l)
    ensures var t := Apply(s, l);
      t.tech == s.tech && t.caller != CallerThrew && s.caller != CallerThrew
      && Called(t) == if l == Start then {s.tech} else Called(s)
  {
    hide LiveInv, StreamInv, Acks, Do;
  }

  lemma {:induction false} NetIsConfirmed(tech: Channel, ls: seq<Label>)
    requires Run(tech, ls).Some?
    ensures var s := Run(tech, ls).value; s.caller != CallerThrew && s.tech == tech && Net(tech, ls) == Called(s)
  {
    RunInv(tech, ls);
    if ls != [] {
      var init, l := ls[..|ls| - 1], ls[|ls| - 1];
      NetIsConfirmed(tech, init);
      RunInv(tech, init);
      hide Inv, Apply, Enabled, Do, Called;
      if CallerLabel(l) {
        CallerFollowsNet(Run(tech, init).value, l);
      } else {
        OthersFollowNet(Run(tech, init).value, l);
      }
    }
  }

  /** Between calls the server's subscriptions are the technical channel and what the calls so far add up to. */
  lemma LiveIsNetOfCalls(tech: Channel, ls: seq<Label>)
    requires Run(tech, ls).Some? && Run(tech, ls).value.owner != Starting && Run(tech, ls).value.caller == Idle
    ensures Run(tech, ls).value.live == Net(tech, ls) && tech in Net(tech, ls)
  {
    RunInv(tech, ls);
    NetIsConfirmed(tech, ls);
  }

  /**
   Lossless, in-order events: what was published on a live channel is handed to the callback in that order, and a
   message published on a confirmed channel that no call is about to give up is among them.
   */
  lemma EventsAreHandedInOrder(tech: Channel, ls: seq<Label>, c: Channel, m: Bytes)
    requires Run(tech, ls).Some? && c != tech
    ensures var s := Run(tech, ls).value;
      && s.handed <= s.accepted
      && (s.worker == Consuming && s.replies == [] ==> s.handed == s.accepted)
      && (c in s.confirmed && Pending(s) != Some(Unsubscribe(c)) ==>
            Apply(s, Publish(c, m)).accepted == s.accepted + [(c, m)])
  {
    RunInv(tech, ls);
    NetIsConfirmed(tech, ls);
    hide Run;
  }

  function WorkerSteps(ls: seq<Label>): nat {
    if ls == [] then 0 else WorkerSteps(ls[..|ls| - 1]) + if WorkerLabel(ls[|ls| - 1]) then 1 else 0
  }

  function Consumes(ls: seq<Label>): nat {
    if ls == [] then 0 else Consumes(ls[..|ls| - 1]) + if ls[|ls| - 1] == Consume then 1 else 0
  }

  function AckIndex(replies: seq<Reply>): nat {
    if replies == [] || replies[0] == Ack then 0 else 1 + AckIndex(replies[1..])
  }

  lemma {:induction false} AckIndexAppend(a: seq<Reply>, r: Reply)
    requires Acks(a) > 0
    ensures AckIndex(a + [r]) == AckIndex(a)
  {
    if a[0] != Ack {
      assert (a + [r])[1..] == a[1..] + [r];
      AckIndexAppend(a[1..], r);
    }
  }

  /** How many worker steps at most are left until the flag is set, once the server has answered. */
  function StepsToFlag(s: State): nat {
    match s.worker
    case Setting => 1
    case InMeta => 2
    case Consuming => 3 + 4 * AckIndex(s.replies)
    case AtLoop => 4 + 4 * AckIndex(s.replies)
    case Marking => 5 + 4 * AckIndex(s.replies)
    case Handing(_, _) => 6 + 4 * AckIndex(s.replies)
    case _ => 0
  }

  /** A caller spins and the server has answered. */
  ghost predicate Answered(s: State) {
    Inv(s) && s.caller.Spinning? && s.commands == [] && !s.flag
  }

  lemma AnsweredIsNotBlocked(s: State) returns (l: Label)
    requires Answered(s)
    ensures Enabled(s, l) && WorkerLabel(l)
  {
    match s.worker {
      case AtLoop => l := Check;
      case Consuming => l := Consume;
      case InMeta => l := Test;
      case Setting => l := Set;
      case Handing(_, _) => l := Hand;
      case Marking => l := Mark;
    }
  }

  lemma AnsweredCountsDown(s: State, l: Label)
    requires Answered(s) && Enabled(s, l)
    ensures var t := Apply(s, l);
      && t.caller.Spinning? && t.owner == Started
      && (!t.flag ==> Answered(t) && StepsToFlag(t) + (if WorkerLabel(l) then 1 else 0) <= StepsToFlag(s))
  {
    StepKeepsInv(s, l);
    if s.worker != InMeta && s.worker != Setting {
      match l {
        case Publish(c, m) => AckIndexAppend(s.replies, Message(c, m));
        case _ =>
      }
    }
  }

  /**
   The spin ends: once the server has answered, the flag is set after a number of worker steps that is known at
   that moment, whatever is published meanwhile; and until then the worker is never blocked.
   */
  lemma {:induction false} SpinEnds(s: State, ls: seq<Label>)
    requires Answered(s) && Continue(s, ls).Some? && See !in ls
    ensures var t := Continue(s, ls).value;
      && t.caller.Spinning? && t.owner == Started
      && (t.flag || (Answered(t) && WorkerSteps(ls) + StepsToFlag(t) <= StepsToFlag(s)))
    ensures WorkerSteps(ls) >= StepsToFlag(s) ==> Continue(s, ls).value.flag
  {
    if ls != [] {
      var init := ls[..|ls| - 1];
      SpinEnds(s, init);
      var prev := Continue(s, init).value;
      if prev.flag {
        FlagStays(prev, ls[|ls| - 1]);
      } else {
        AnsweredCountsDown(prev, ls[|ls| - 1]);
      }
      hide Apply, Enabled, Answered;
      var t := Continue(s, ls).value;
      if !t.flag {
        StepsToFlagIsPositive(t);
      }
    } else {
      StepsToFlagIsPositive(s);
    }
  }

  lemma StepsToFlagIsPositive(s: State)
    requires Answered(s)
    ensures StepsToFlag(s) > 0
  {
  }

  lemma FlagStays(s: State, l: Label)
    requires s.caller.Spinning? && s.flag && Enabled(s, l) && l != See && s.owner == Started
    ensures Apply(s, l).caller.Spinning? && Apply(s, l).flag && Apply(s, l).owner == Started
  {
  }

  /** How many steps the worker has left once m_is_running is false. */
  function Rank(w: WorkerPc): nat {
    match w
    case Exited => 0
    case WorkerThrew => 0
    case AtLoop => 1
    case Marking => 2
    case Setting => 3
    case Handing(_, _) => 3
    case InMeta => 4
    case Consuming => 5
  }

  lemma StepCountsDown(s: State, l: Label)
    requires !s.running && Enabled(s, l)
    ensures var t := Apply(s, l);
      && !t.running
      && Rank(t.worker) + (if WorkerLabel(l) then 1 else 0) <= Rank(s.worker)
      && (if t.worker == Consuming then 1 else 0) + (if l == Consume then 1 else 0) <= if s.worker == Consuming then 1 else 0
  {
  }

  /**
   Shutdown, part one: once m_is_running is cleared, whatever the other threads do, every worker step counts down
   to the exit, and at most one of them is a consume.
   */
  lemma {:induction false} ShutdownCountsDown(s: State, ls: seq<Label>)
    requires !s.running && Continue(s, ls).Some?
    ensures var t := Continue(s, ls).value;
      !t.running && WorkerSteps(ls) + Rank(t.worker) <= Rank(s.worker)
      && Consumes(ls) + (if t.worker == Consuming then 1 else 0) <= if s.worker == Consuming then 1 else 0
  {
    if ls != [] {
      ShutdownCountsDown(s, ls[..|ls| - 1]);
      hide Apply, Enabled, Rank;
      StepCountsDown(Continue(s, ls[..|ls| - 1]).value, ls[|ls| - 1]);
    }
  }

  /**
   Shutdown, part two: once the destructor has also published on the technical channel, the worker is never blocked
   before its exit; and when it has exited, the join returns.
   */
  lemma ShutdownIsNeverBlocked(tech: Channel, ls: seq<Label>) returns (l: Label)
    requires Run(tech, ls).Some? && Run(tech, ls).value.owner == Notified
    ensures Enabled(Run(tech, ls).value, l)
    ensures if Run(tech, ls).value.worker == Exited then l == Join else WorkerLabel(l)
  {
    var s := Run(tech, ls).value;
    RunInv(tech, ls);
    hide Run;
    match s.worker {
      case AtLoop => l := Check;
      case Consuming => l := Consume;
      case InMeta => l := Test;
      case Setting => l := Set;
      case Handing(_, _) => l := Hand;
      case Marking => l := Mark;
      case Exited => l := Join;
    }
  }
}
