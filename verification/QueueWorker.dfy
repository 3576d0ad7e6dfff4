/**
 The queue worker of the Redis connector as a step system: the worker thread, the threads calling listen and
 stop_listening, the thread that constructs and destroys the connector, and other clients of the same Redis.
 A Redis list is a sequence whose left end is index 0.
 */
module QueueWorker {
  import opened Common

  type Channel = Bytes
  type Message = Bytes

  type Lists = map<Channel, seq<Message>>

  datatype Op = Listen(queue: Channel) | StopListening(queue: Channel)

  /** Program points of the worker thread's loop. */
  datatype WorkerPc =
    | AtLoop                                    // testing m_is_running
    | AtLock                                    // waiting for m_queue_subscription_lock
    | InLock                                    // testing m_queue_subscriptions_changed
    | Copied                                    // snapshot taken, flag not yet cleared
    | Unlocking
    | AtPop                                     // calling, or blocked in, brpop
    | Popped(queue: Channel, message: Message)  // before setting m_queue_thread_alive
    | Delivering(queue: Channel, message: Message)
    | Exited

  /** Program points of the listen or stop_listening call that holds the lock, if there is one. */
  datatype UpdaterPc = NoUpdate | Begun(op: Op) | Mutated(op: Op) | Flagged(op: Op) | Pushed(op: Op)

  /** The thread that owns the connector: constructor, then destructor. */
  datatype OwnerPc = Starting | Started | Stopping | Notified | Joined

  datatype Holder = Free | ByWorker | ByUpdater

  datatype State = State(
    tech: Channel,            // m_technical_channel
    running: bool,            // m_is_running
    subs: seq<Channel>,       // m_queue_subscriptions
    changed: bool,            // m_queue_subscriptions_changed
    lock: Holder,             // m_queue_subscription_lock
    alive: bool,              // m_queue_thread_alive
    snapshot: seq<Channel>,   // the worker's local list
    worker: WorkerPc,
    updater: UpdaterPc,
    owner: OwnerPc,
    lists: Lists,
    sent: Lists,    // history: what was ever pushed to a user queue, oldest first
    popped: Lists)  // history: what was ever popped from it, by whomever

  datatype Label =
    // worker
    | Check | Lock | Copy | Clear | Unlock | Pop | MarkAlive | Deliver
    // updater
    | Begin(op: Op) | Mutate | Flag | Push | End
    // owner
    | Nudge | Start | Stop | Notify | Join
    // other clients: LPUSH of a request, BRPOP by a competing consumer
    | Send(queue: Channel, message: Message) | Steal(queue: Channel)

  function At<T>(m: map<Channel, seq<T>>, c: Channel): seq<T> {
    if c in m then m[c] else []
  }

  /** The constructor up to the start of the thread. The server may already hold requests. */
  function Init(tech: Channel, lists: Lists): State {
    State(tech, true, [tech], true, Free, false, [], AtLoop, NoUpdate, Starting, lists, map q | q in lists :: Reverse(lists[q]),
          map[])
  }

  function Without(s: seq<Channel>, c: Channel): seq<Channel> {
    if s == [] then [] else (if s[0] == c then [] else [s[0]]) + Without(s[1..], c)
  }

  /** The effect of one call on the subscription list: push_back, or std::list::remove. */
  function Do(op: Op, subs: seq<Channel>): seq<Channel> {
    match op
    case Listen(q) => subs + [q]
    case StopListening(q) => Without(subs, q)
  }

  /** The key BRPOP serves: the first in argument order whose list is not empty. */
  function Ready(keys: seq<Channel>, lists: Lists): Option<Channel> {
    if keys == [] then None
    else if At(lists, keys[0]) != [] then Some(keys[0])
    else Ready(keys[1..], lists)
  }

  function Right<T>(s: seq<T>): T
    requires s != []
  {
    s[|s| - 1]
  }

  /** rpush of a wake token. */
  function WithToken(s: State): State {
    s.(lists := s.lists[s.tech := At(s.lists, s.tech) + [[]]])
  }

  /** BRPOP takes from the right end. */
  function Take(s: State, c: Channel): State
    requires At(s.lists, c) != []
  {
    var l := At(s.lists, c);
    s.(lists := s.lists[c := l[..|l| - 1]],
       popped := if c == s.tech then s.popped else s.popped[c := At(s.popped, c) + [Right(l)]])
  }

  predicate WorkerLabel(l: Label) {
    l.Check? || l.Lock? || l.Copy? || l.Clear? || l.Unlock? || l.Pop? || l.MarkAlive? || l.Deliver?
  }

  predicate Enabled(s: State, l: Label) {
    match l
    case Check => s.worker == AtLoop
    case Lock => s.worker == AtLock && s.lock == Free
    case Copy => s.worker == InLock
    case Clear => s.worker == Copied
    case Unlock => s.worker == Unlocking
    case Pop => s.worker == AtPop && Ready(s.snapshot, s.lists).Some?
    case MarkAlive => s.worker.Popped?
    case Deliver => s.worker.Delivering?
    // the technical channel's name is a fresh UUID: no application listens or sends on it
    case Begin(op) => s.owner == Started && s.updater == NoUpdate && s.lock == Free && op.queue != s.tech
    case Mutate => s.updater.Begun?
    case Flag => s.updater.Mutated?
    case Push => s.updater.Flagged?
    case End => s.updater.Pushed?
    // the loop's test of the alive flag comes before its push, so the flag may have been set in between
    case Nudge => s.owner == Starting
    case Start => s.owner == Starting && s.alive
    // a connector is not destroyed while a call on it is in progress
    case Stop => s.owner == Started && s.updater == NoUpdate
    case Notify => s.owner == Stopping
    case Join => s.owner == Notified && s.worker == Exited
    case Send(q, _) => q != s.tech
    case Steal(q) => q != s.tech && At(s.lists, q) != []
  }

  function Apply(s: State, l: Label): State
    requires Enabled(s, l)
  {
    match l
    case Check => s.(worker := if s.running then AtLock else Exited)
    case Lock => s.(lock := ByWorker, worker := InLock)
    case Copy => if s.changed then s.(snapshot := s.subs, worker := Copied) else s.(worker := Unlocking)
    case Clear => s.(changed := false, worker := Unlocking)
    case Unlock => s.(lock := Free, worker := AtPop)
    case Pop =>
      var q := Ready(s.snapshot, s.lists).value;
      ReadyIsNonEmpty(s.snapshot, s.lists);
      Take(s, q).(worker := Popped(q, Right(At(s.lists, q))))
    case MarkAlive =>
      s.(alive := true, worker := if s.worker.queue == s.tech then AtLoop else Delivering(s.worker.queue, s.worker.message))
    case Deliver => s.(worker := AtLoop)
    case Begin(op) => s.(lock := ByUpdater, updater := Begun(op))
    case Mutate => s.(subs := Do(s.updater.op, s.subs), updater := Mutated(s.updater.op))
    case Flag => s.(changed := true, updater := Flagged(s.updater.op))
    case Push => WithToken(s).(updater := Pushed(s.updater.op))
    case End => s.(lock := Free, updater := NoUpdate)
    case Nudge => WithToken(s)
    case Start => s.(owner := Started)
    case Stop => s.(running := false, owner := Stopping)
    case Notify => WithToken(s).(owner := Notified)
    case Join => s.(owner := Joined)
    case Send(q, m) =>
      s.(lists := s.lists[q := [m] + At(s.lists, q)], sent := s.sent[q := At(s.sent, q) + [m]])
    case Steal(q) => Take(s, q)
  }

  lemma {:induction false} ReadyIsNonEmpty(keys: seq<Channel>, lists: Lists)
    requires Ready(keys, lists).Some?
    ensures Ready(keys, lists).value in keys && At(lists, Ready(keys, lists).value) != []
  {
    if At(lists, keys[0]) == [] {
      ReadyIsNonEmpty(keys[1..], lists);
    }
  }

  function Continue(s: State, ls: seq<Label>): Option<State> {
    if ls == [] then Some(s)
    else
      var prev := Continue(s, ls[..|ls| - 1]);
      if prev.Some? && Enabled(prev.value, ls[|ls| - 1]) then Some(Apply(prev.value, ls[|ls| - 1])) else None
  }

  /** The states that some interleaving reaches after construction has begun. */
  function Run(tech: Channel, lists: Lists, ls: seq<Label>): Option<State> {
    Continue(Init(tech, lists), ls)
  }

  function Tokens(s: State): nat {
    |At(s.lists, s.tech)|
  }

  ghost predicate LockInv(s: State) {
    && (s.lock == ByWorker <==> s.worker == InLock || s.worker == Copied || s.worker == Unlocking)
    && (s.lock == ByUpdater <==> s.updater != NoUpdate)
    && (s.updater != NoUpdate ==> s.updater.op.queue != s.tech)
  }

  /** The technical channel is the first key, once, of the list and of every snapshot. */
  ghost predicate TechFirst(keys: seq<Channel>, tech: Channel) {
    keys != [] && keys[0] == tech && tech !in keys[1..]
  }

  ghost predicate KeysInv(s: State) {
    && TechFirst(s.subs, s.tech)
    && (s.snapshot == [] ==> s.changed && !s.alive && (s.worker == AtLoop || s.worker == AtLock || s.worker == InLock))
    && (s.snapshot != [] ==> TechFirst(s.snapshot, s.tech))
  }

  /**
   How the snapshot, the list, the flag and the tokens are related. A cleared flag means that the snapshot is up to
   date, save for a change in progress; a set flag in front of brpop means that a token is waiting there, save for
   a change whose token is about to be pushed.
   */
  ghost predicate WakeInv(s: State) {
    && (!s.changed ==>
          match s.updater
          case NoUpdate => s.snapshot == s.subs
          case Begun(_) => s.snapshot == s.subs
          case Mutated(op) => s.subs == Do(op, s.snapshot)
          case _ => false)
    && (s.worker == Copied ==> s.snapshot == s.subs)
    && (s.worker == Unlocking ==> !s.changed)
    && (s.worker == AtPop && s.changed && Tokens(s) == 0 ==> s.updater.Flagged? && s.subs == Do(s.updater.op, s.snapshot))
  }

  /** A call past its change of the list has made it. */
  ghost predicate UpdateInv(s: State) {
    s.updater.Mutated? || s.updater.Flagged? || s.updater.Pushed? ==>
      (s.updater.op.queue in s.subs <==> s.updater.op.Listen?)
  }

  ghost predicate OwnerInv(s: State) {
    && (s.running <==> s.owner == Starting || s.owner == Started)
    && (s.owner != Starting ==> s.alive)
    && (!s.running ==> s.updater == NoUpdate)
    && (s.worker == Exited ==> !s.running)
    && (s.owner == Joined ==> s.worker == Exited)
    && (s.owner == Notified && BeforePop(s.worker) ==> Tokens(s) > 0)
  }

  predicate BeforePop(w: WorkerPc) {
    w == AtLock || w == InLock || w == Copied || w == Unlocking || w == AtPop
  }

  function Reverse<T>(s: seq<T>): seq<T> {
    if s == [] then [] else Reverse(s[1..]) + [s[0]]
  }

  /** The books of one queue: popped first, then what is still queued, is what was sent. */
  ghost predicate FifoAt(s: State, q: Channel) {
    At(s.sent, q) == At(s.popped, q) + Reverse(At(s.lists, q))
  }

  /** Redis serves every user queue in FIFO order. */
  ghost predicate FifoInv(s: State) {
    forall q {:trigger FifoAt(s, q)} :: q != s.tech ==> FifoAt(s, q)
  }

  ghost predicate Inv(s: State) {
    LockInv(s) && KeysInv(s) && WakeInv(s) && UpdateInv(s) && OwnerInv(s) && FifoInv(s)
  }

  lemma InitInv(tech: Channel, lists: Lists)
    ensures Inv(Init(tech, lists))
  {
  }

  lemma {:induction false} WithoutKeepsTechFirst(keys: seq<Channel>, tech: Channel, c: Channel)
    requires TechFirst(keys, tech) && c != tech
    ensures TechFirst(Without(keys, c), tech)
  {
    WithoutMembers(keys[1..], c);
    assert Without(keys, c) == [tech] + Without(keys[1..], c);
    assert Without(keys, c)[1..] == Without(keys[1..], c);
  }

  lemma {:induction false} WithoutMembers(keys: seq<Channel>, c: Channel)
    ensures forall x :: x in Without(keys, c) <==> x in keys && x != c
  {
    if keys != [] {
      WithoutMembers(keys[1..], c);
    }
  }

  lemma DoKeepsTechFirst(op: Op, keys: seq<Channel>, tech: Channel)
    requires TechFirst(keys, tech) && op.queue != tech
    ensures TechFirst(Do(op, keys), tech)
  {
    match op
    case Listen(q) => assert (keys + [q])[1..] == keys[1..] + [q];
    case StopListening(q) => WithoutKeepsTechFirst(keys, tech, q);
  }

  lemma {:induction false} ReverseAppend<T>(s: seq<T>, x: T)
    ensures Reverse(s + [x]) == [x] + Reverse(s)
  {
    if s == [] {
      assert [] + [x] == [x];
    } else {
      assert (s + [x])[1..] == s[1..] + [x];
      ReverseAppend(s[1..], x);
    }
  }

  /** What Send and the pops do to the books of one queue. */
  lemma FifoGrows(sent: seq<Message>, popped: seq<Message>, list: seq<Message>, m: Message)
    requires sent == popped + Reverse(list)
    ensures sent + [m] == popped + Reverse([m] + list)
  {
    assert ([m] + list)[1..] == list;
  }

  lemma FifoShrinks(sent: seq<Message>, popped: seq<Message>, list: seq<Message>)
    requires sent == popped + Reverse(list) && list != []
    ensures sent == popped + [Right(list)] + Reverse(list[..|list| - 1])
  {
    hide Reverse;
    var rest, x := list[..|list| - 1], Right(list);
    assert list == rest + [x];
    ReverseAppend(rest, x);
    assert popped + ([x] + Reverse(rest)) == popped + [x] + Reverse(rest);
  }

  lemma SendKeepsFifo(s: State, c: Channel, m: Message, q: Channel)
    requires c != s.tech && FifoAt(s, q)
    ensures FifoAt(Apply(s, Send(c, m)), q)
  {
    FifoGrows(At(s.sent, q), At(s.popped, q), At(s.lists, q), m);
    hide Reverse;
  }

  lemma TakeKeepsFifo(s: State, c: Channel, q: Channel)
    requires At(s.lists, c) != [] && q != s.tech && FifoAt(s, q)
    ensures FifoAt(Take(s, c), q)
  {
    if q == c {
      FifoShrinks(At(s.sent, q), At(s.popped, q), At(s.lists, q));
    }
    hide Reverse, Right;
  }

  lemma PopTakes(s: State)
    requires Enabled(s, Pop)
    ensures At(s.lists, Ready(s.snapshot, s.lists).value) != []
    ensures var t := Apply(s, Pop); var u := Take(s, Ready(s.snapshot, s.lists).value);
      t.tech == s.tech && t.sent == u.sent && t.popped == u.popped && t.lists == u.lists
  {
    ReadyIsNonEmpty(s.snapshot, s.lists);
    hide Ready, Right;
  }

  predicate MovesMessages(l: Label) {
    l.Send? || l.Steal? || l.Pop?
  }

  /** Apart from tokens, the other steps leave the lists and the books alone. */
  lemma OthersLeaveBooks(s: State, l: Label, q: Channel)
    requires Enabled(s, l) && !MovesMessages(l) && q != s.tech
    ensures var t := Apply(s, l);
      t.sent == s.sent && t.popped == s.popped && At(t.lists, q) == At(s.lists, q)
  {
    TokensLeaveUserQueues(s, q);
    hide Ready, Do, At, WithToken, Take;
    if WorkerLabel(l) {
      WorkerLeavesLists(s, l);
    } else {
      OthersLeaveLists(s, l);
    }
    hide Apply, Enabled;
  }

  lemma WorkerLeavesLists(s: State, l: Label)
    requires Enabled(s, l) && WorkerLabel(l) && l != Pop
    ensures var t := Apply(s, l); t.sent == s.sent && t.popped == s.popped && t.lists == s.lists
  {
    hide Ready, Do, At, WithToken, Take;
  }

  lemma OthersLeaveLists(s: State, l: Label)
    requires Enabled(s, l) && !WorkerLabel(l) && !MovesMessages(l)
    ensures var t := Apply(s, l);
      t.sent == s.sent && t.popped == s.popped && (t.lists == s.lists || t.lists == WithToken(s).lists)
  {
    hide Ready, Do, At, Take;
  }

  lemma TokensLeaveUserQueues(s: State, q: Channel)
    requires q != s.tech
    ensures At(WithToken(s).lists, q) == At(s.lists, q)
    ensures WithToken(s).sent == s.sent && WithToken(s).popped == s.popped
  {
  }

  lemma StepKeepsTech(s: State, l: Label)
    requires Enabled(s, l)
    ensures Apply(s, l).tech == s.tech
  {
    hide Ready, Do, At;
  }

  lemma StepKeepsFifoAt(s: State, l: Label, q: Channel)
    requires q != s.tech && FifoAt(s, q) && Enabled(s, l)
    ensures FifoAt(Apply(s, l), q)
  {
    match l {
      case Send(c, m) =>
        hide Apply, FifoAt;
        SendKeepsFifo(s, c, m, q);
      case Steal(c) =>
        assert Apply(s, l) == Take(s, c);
        hide Apply, FifoAt, Take;
        TakeKeepsFifo(s, c, q);
      case Pop =>
        PopTakes(s);
        TakeKeepsFifo(s, Ready(s.snapshot, s.lists).value, q);
        hide Apply, Enabled, Ready, Take, Reverse;
      case _ =>
        OthersLeaveBooks(s, l, q);
        hide Apply, Enabled, Reverse;
    }
  }

  lemma StepKeepsFifo(s: State, l: Label)
    requires FifoInv(s) && Enabled(s, l)
    ensures FifoInv(Apply(s, l))
  {
    StepKeepsTech(s, l);
    hide FifoAt, Apply, Enabled;
    forall q | q != s.tech ensures FifoAt(Apply(s, l), q) {
      assert FifoAt(s, q);
      StepKeepsFifoAt(s, l, q);
    }
  }

  lemma WorkerKeepsKeys(s: State, l: Label)
    requires LockInv(s) && KeysInv(s) && WakeInv(s) && OwnerInv(s) && Enabled(s, l) && WorkerLabel(l)
    ensures LockInv(Apply(s, l)) && KeysInv(Apply(s, l))
  {
    hide Ready, Reverse, Without, Do;
  }

  lemma OthersKeepKeys(s: State, l: Label)
    requires LockInv(s) && KeysInv(s) && Enabled(s, l) && !WorkerLabel(l)
    ensures LockInv(Apply(s, l)) && KeysInv(Apply(s, l))
  {
    hide Ready, Reverse, Without, Do;
    if l == Mutate {
      DoKeepsTechFirst(s.updater.op, s.subs, s.tech);
    }
    hide TechFirst;
  }

  lemma StepKeepsKeys(s: State, l: Label)
    requires LockInv(s) && KeysInv(s) && WakeInv(s) && OwnerInv(s) && Enabled(s, l)
    ensures LockInv(Apply(s, l)) && KeysInv(Apply(s, l))
  {
    hide LockInv, KeysInv, WakeInv, OwnerInv, Apply, Enabled;
    if WorkerLabel(l) {
      WorkerKeepsKeys(s, l);
    } else {
      OthersKeepKeys(s, l);
    }
  }

  lemma WorkerKeepsWake(s: State, l: Label)
    requires LockInv(s) && KeysInv(s) && WakeInv(s) && Enabled(s, l) && WorkerLabel(l)
    ensures WakeInv(Apply(s, l))
  {
    hide Ready, Reverse, Without, Do;
  }

  predicate UpdaterLabel(l: Label) {
    l.Begin? || l.Mutate? || l.Flag? || l.Push? || l.End?
  }

  lemma UpdaterKeepsWake(s: State, l: Label)
    requires LockInv(s) && WakeInv(s) && OwnerInv(s) && Enabled(s, l) && UpdaterLabel(l)
    ensures WakeInv(Apply(s, l))
  {
    hide Ready, Reverse, Without, Do, Take;
  }

  lemma OthersKeepWake(s: State, l: Label)
    requires LockInv(s) && WakeInv(s) && Enabled(s, l) && !WorkerLabel(l) && !UpdaterLabel(l)
    ensures WakeInv(Apply(s, l))
  {
    hide Ready, Reverse, Without, Do;
  }

  lemma StepKeepsWake(s: State, l: Label)
    requires LockInv(s) && KeysInv(s) && WakeInv(s) && OwnerInv(s) && Enabled(s, l)
    ensures WakeInv(Apply(s, l))
  {
    hide LockInv, KeysInv, WakeInv, OwnerInv, Apply, Enabled;
    if WorkerLabel(l) {
      WorkerKeepsWake(s, l);
    } else if UpdaterLabel(l) {
      UpdaterKeepsWake(s, l);
    } else {
      OthersKeepWake(s, l);
    }
  }

  lemma StepKeepsUpdate(s: State, l: Label)
    requires LockInv(s) && UpdateInv(s) && Enabled(s, l)
    ensures UpdateInv(Apply(s, l))
  {
    hide Ready, Reverse;
    if l == Mutate && s.updater.op.StopListening? {
      WithoutMembers(s.subs, s.updater.op.queue);
    }
  }

  lemma StepKeepsOwner(s: State, l: Label)
    requires LockInv(s) && OwnerInv(s) && Enabled(s, l)
    ensures OwnerInv(Apply(s, l))
  {
    hide Ready, Reverse, Without, Do;
  }

  lemma StepKeepsInv(s: State, l: Label)
    requires Inv(s) && Enabled(s, l)
    ensures Inv(Apply(s, l))
  {
    hide LockInv, KeysInv, WakeInv, UpdateInv, OwnerInv, FifoInv, Apply, Enabled;
    StepKeepsKeys(s, l);
    StepKeepsUpdate(s, l);
    StepKeepsWake(s, l);
    StepKeepsOwner(s, l);
    StepKeepsFifo(s, l);
  }

  lemma {:induction false} ContinueKeepsInv(s: State, ls: seq<Label>)
    requires Inv(s) && Continue(s, ls).Some?
    ensures Inv(Continue(s, ls).value)
  {
    hide Inv, Apply, Enabled;
    if ls != [] {
      ContinueKeepsInv(s, ls[..|ls| - 1]);
      StepKeepsInv(Continue(s, ls[..|ls| - 1]).value, ls[|ls| - 1]);
    }
  }

  /** Every reachable state satisfies the invariant. */
  lemma RunInv(tech: Channel, lists: Lists, ls: seq<Label>)
    requires Run(tech, lists, ls).Some?
    ensures Inv(Run(tech, lists, ls).value)
  {
    InitInv(tech, lists);
    ContinueKeepsInv(Init(tech, lists), ls);
  }

  lemma Extend(s: State, ls: seq<Label>, l: Label)
    requires Continue(s, ls).Some? && Enabled(Continue(s, ls).value, l)
    ensures Continue(s, ls + [l]) == Some(Apply(Continue(s, ls).value, l))
  {
    hide Apply, Enabled;
    assert (ls + [l])[..|ls + [l]| - 1] == ls;
  }

  lemma {:induction false} Concatenate(s: State, first: seq<Label>, second: seq<Label>)
    requires Continue(s, first).Some? && Continue(Continue(s, first).value, second).Some?
    ensures Continue(s, first + second) == Continue(Continue(s, first).value, second)
  {
    hide Apply, Enabled;
    if second == [] {
      assert first + second == first;
    } else {
      Concatenate(s, first, second[..|second| - 1]);
      assert (first + second)[..|first + second| - 1] == first + second[..|second| - 1];
    }
  }
}
