/**
 The queue worker together with the handler manager of one transaction interface: what becomes of each message.
 A message popped by the worker is handled, dropped as expired, or finds no handler.
 */
module QueueConsumer {
  import opened Common
  import opened QueueWorker
  import QueueWorkerTheorems

  /** An add_message_handler or remove_message_handler call that holds the manager's lock. */
  datatype CallPc = NoCall | Before(op: Op) | During(op: Op) | After(op: Op)

  datatype Consumer = Consumer(
    w: QueueWorker.State,
    entries: set<Channel>,              // keys of m_channel_subscriptions
    call: CallPc,
    // history
    overlapped: bool,                   // a stop for the message in the worker's hands has overlapped with it
    handled: Lists,
    dropped: Lists,  // by the expiry filter
    stopped: Lists,  // no handler, and a stop for the queue had overlapped
    vanished: Lists, // no handler, although no stop had overlapped
    stolen: Lists)   // taken by competing consumers

  datatype Step =
    | AddEntry(queue: Channel) | RemoveEntry(queue: Channel) | Return
    | Base(l: QueueWorker.Label)
    | Dispatch(expired: bool)           // on_message, with the outcome of the handler's expiry test

  function Init(tech: Channel, lists: Lists): Consumer {
    Consumer(QueueWorker.Init(tech, lists), {}, NoCall, false, map[], map[], map[], map[], map[])
  }

  predicate Carries(w: WorkerPc, q: Channel) {
    (w.Popped? || w.Delivering?) && w.queue == q
  }

  predicate BaseAllowed(s: Consumer, l: QueueWorker.Label) {
    match l
    case Begin(op) => s.call == Before(op)
    case Stop => s.call == NoCall
    case Deliver => false
    case _ => true
  }

  predicate Enabled(s: Consumer, l: Step) {
    match l
    case AddEntry(q) => s.call == NoCall && s.w.owner == Started && q !in s.entries && q != s.w.tech
    case RemoveEntry(q) => s.call == NoCall && s.w.owner == Started && q in s.entries
    case Return => s.call.After?
    case Base(l) => BaseAllowed(s, l) && QueueWorker.Enabled(s.w, l)
    // on_message takes the manager's lock, too
    case Dispatch(_) => s.call == NoCall && QueueWorker.Enabled(s.w, Deliver)
  }

  function Add<T>(m: map<Channel, seq<T>>, q: Channel, x: T): map<Channel, seq<T>> {
    m[q := At(m, q) + [x]]
  }

  function ApplyBase(s: Consumer, l: QueueWorker.Label): Consumer
    requires Enabled(s, Base(l))
  {
    var t := s.(w := QueueWorker.Apply(s.w, l));
    match l
    case Begin(op) => t.(call := During(op))
    case End => t.(call := After(s.w.updater.op))
    case Pop => t.(overlapped := s.call != NoCall && s.call.op == StopListening(t.w.worker.queue))
    case Steal(q) => t.(stolen := Add(s.stolen, q, Right(At(s.w.lists, q))))
    case _ => t
  }

  function Apply(s: Consumer, l: Step): Consumer
    requires Enabled(s, l)
  {
    match l
    case AddEntry(q) => s.(entries := s.entries + {q}, call := Before(Listen(q)))
    case RemoveEntry(q) =>
      s.(entries := s.entries - {q}, call := Before(StopListening(q)), overlapped := s.overlapped || Carries(s.w.worker, q))
    case Return => s.(call := NoCall)
    case Base(l) => ApplyBase(s, l)
    case Dispatch(expired) =>
      var q, m := s.w.worker.queue, s.w.worker.message;
      var t := s.(w := QueueWorker.Apply(s.w, Deliver));
      if q in s.entries then
        if expired then t.(dropped := Add(s.dropped, q, m)) else t.(handled := Add(s.handled, q, m))
      else if s.overlapped then t.(stopped := Add(s.stopped, q, m))
      else t.(vanished := Add(s.vanished, q, m))
  }

  function Continue(s: Consumer, ls: seq<Step>): Option<Consumer> {
    if ls == [] then Some(s)
    else
      var prev := Continue(s, ls[..|ls| - 1]);
      if prev.Some? && Enabled(prev.value, ls[|ls| - 1]) then Some(Apply(prev.value, ls[|ls| - 1])) else None
  }

  function Run(tech: Channel, lists: Lists, ls: seq<Step>): Option<Consumer> {
    Continue(Init(tech, lists), ls)
  }

  /** The call at the manager and the call at the connector are the same call. */
  ghost predicate CallInv(s: Consumer) {
    && (s.w.updater != NoUpdate ==> s.call == During(s.w.updater.op))
    && (s.call.During? ==> s.w.updater != NoUpdate && s.w.updater.op == s.call.op)
    && (s.call != NoCall ==> s.w.owner == Started && s.call.op.queue != s.w.tech)
    && s.w.tech !in s.entries
  }

  /** The manager has inserted or erased its entry, and the connector has not yet followed. */
  predicate Ahead(s: Consumer, op: Op) {
    s.call == Before(op) || (s.call == During(op) && s.w.updater == Begun(op))
  }

  ghost predicate Agrees(s: Consumer, q: Channel) {
    if Ahead(s, Listen(q)) then q in s.entries && q !in s.w.subs
    else if Ahead(s, StopListening(q)) then q !in s.entries && q in s.w.subs
    else q in s.entries <==> q in s.w.subs
  }

  /** Entries and subscriptions agree, but for the queue of a call that is half done. */
  ghost predicate AgreeInv(s: Consumer) {
    forall q {:trigger Agrees(s, q)} :: q != s.w.tech ==> Agrees(s, q)
  }

  /** The message in the worker's hands still has its handler, or a stop has overlapped. */
  ghost predicate HandInv(s: Consumer) {
    && (s.w.worker.Delivering? ==> s.w.worker.queue != s.w.tech)
    && (forall q :: q != s.w.tech && Carries(s.w.worker, q) ==> q in s.entries || s.overlapped)
    && (forall q :: At(s.vanished, q) == [])
  }

  predicate InHand(w: WorkerPc, q: Channel, x: Message) {
    Carries(w, q) && w.message == x
  }

  function One(b: bool): nat {
    if b then 1 else 0
  }

  function Count(m: Lists, q: Channel, x: Message): nat {
    multiset(At(m, q))[x]
  }

  /** How many of the messages x popped from q can be found, wherever they are. */
  function Accounted(s: Consumer, q: Channel, x: Message): nat {
    Count(s.handled, q, x) + Count(s.dropped, q, x) + Count(s.stopped, q, x) + Count(s.vanished, q, x)
      + Count(s.stolen, q, x) + One(InHand(s.w.worker, q, x))
  }

  ghost predicate ConservedInv(s: Consumer) {
    forall q, x {:trigger Accounted(s, q, x)} :: q != s.w.tech ==> Count(s.w.popped, q, x) == Accounted(s, q, x)
  }

  ghost predicate Inv(s: Consumer) {
    QueueWorker.Inv(s.w) && CallInv(s) && AgreeInv(s) && HandInv(s) && ConservedInv(s)
  }

  lemma BaseStep(s: Consumer, l: Step)
    requires QueueWorker.Inv(s.w) && Enabled(s, l)
    ensures QueueWorker.Inv(Apply(s, l).w)
  {
    hide QueueWorker.Inv, QueueWorker.Apply, QueueWorker.Enabled;
    match l {
      case Base(b) => QueueWorker.StepKeepsInv(s.w, b);
      case Dispatch(_) => QueueWorker.StepKeepsInv(s.w, Deliver);
      case _ =>
    }
  }

  /** What a step of the connector other than a change of the list or the begin or end of a call leaves alone. */
  lemma WorkerLeaves(s: QueueWorker.State, l: QueueWorker.Label)
    requires QueueWorker.Enabled(s, l) && !l.Begin? && l != Mutate && l != End
    ensures var t := QueueWorker.Apply(s, l);
      && t.tech == s.tech && t.subs == s.subs
      && (t.updater == NoUpdate <==> s.updater == NoUpdate) && (t.updater.Begun? <==> s.updater.Begun?)
      && (t.updater != NoUpdate ==> t.updater.op == s.updater.op)
      && (s.owner == Started && !l.Stop? ==> t.owner == Started)
  {
    hide Ready, Do;
  }

  /** The calls, the entries and the list are as before. */
  ghost predicate SameCalls(s: Consumer, t: Consumer) {
    && t.w.tech == s.w.tech && t.w.subs == s.w.subs && t.entries == s.entries && t.call == s.call
    && (t.w.updater == NoUpdate <==> s.w.updater == NoUpdate) && (t.w.updater.Begun? <==> s.w.updater.Begun?)
    && (t.w.updater != NoUpdate ==> t.w.updater.op == s.w.updater.op)
    && (s.call != NoCall && s.w.owner == Started ==> t.w.owner == Started)
  }

  predicate ChangesCalls(l: Step) {
    match l
    case Base(b) => b.Begin? || b == Mutate || b == End
    case Dispatch(_) => false
    case _ => true
  }

  lemma OtherStepsLeaveCalls(s: Consumer, l: Step)
    requires Enabled(s, l) && !ChangesCalls(l)
    ensures SameCalls(s, Apply(s, l))
  {
    var b := if l.Base? then l.l else Deliver;
    OtherStepsKeepBooks(s, l, b);
    WorkerLeaves(s.w, b);
    hide QueueWorker.Apply, QueueWorker.Enabled, Apply, Enabled;
  }

  /** What the connector's steps add to the books here. */
  lemma BaseIsPlain(s: Consumer, b: QueueWorker.Label)
    requires Enabled(s, Base(b)) && !b.Begin? && b != End
    ensures b != Deliver && QueueWorker.Enabled(s.w, b) && (b.Stop? ==> s.call == NoCall)
    ensures var t := Apply(s, Base(b));
      t == s.(w := QueueWorker.Apply(s.w, b), overlapped := t.overlapped, stolen := t.stolen)
  {
    hide QueueWorker.Apply, QueueWorker.Enabled, Add, Right, At;
  }

  lemma OtherStepsKeepBooks(s: Consumer, l: Step, b: QueueWorker.Label)
    requires Enabled(s, l) && !ChangesCalls(l) && b == if l.Base? then l.l else Deliver
    ensures QueueWorker.Enabled(s.w, b) && (b.Stop? ==> s.call == NoCall)
    ensures var t := Apply(s, l); t.w == QueueWorker.Apply(s.w, b) && t.entries == s.entries && t.call == s.call
  {
    hide QueueWorker.Apply, QueueWorker.Enabled;
    if l.Base? {
      BaseIsPlain(s, b);
      hide Apply, Enabled;
    } else {
      hide ApplyBase, Add;
    }
  }

  lemma SameCallsKeep(s: Consumer, t: Consumer)
    requires CallInv(s) && AgreeInv(s) && SameCalls(s, t)
    ensures CallInv(t) && AgreeInv(t)
  {
    forall q | q != t.w.tech ensures Agrees(t, q) {
      assert Agrees(s, q);
    }
  }

  lemma ManagerKeeps(s: Consumer, l: Step)
    requires CallInv(s) && AgreeInv(s) && Enabled(s, l) && !l.Base? && !l.Dispatch?
    ensures CallInv(Apply(s, l)) && AgreeInv(Apply(s, l))
  {
    hide QueueWorker.Apply, QueueWorker.Enabled;
    var t := Apply(s, l);
    assert t.w == s.w;
    assert CallInv(t);
    forall q | q != t.w.tech ensures Agrees(t, q) {
      assert Agrees(s, q);
    }
  }

  lemma BeginKeeps(s: Consumer, op: Op)
    requires CallInv(s) && AgreeInv(s) && Enabled(s, Base(Begin(op)))
    ensures CallInv(Apply(s, Base(Begin(op)))) && AgreeInv(Apply(s, Base(Begin(op))))
  {
    var t := Apply(s, Base(Begin(op)));
    assert t == s.(w := s.w.(lock := ByUpdater, updater := Begun(op)), call := During(op));
    hide QueueWorker.Apply, QueueWorker.Enabled, Apply, Enabled;
    forall q | q != t.w.tech ensures Agrees(t, q) {
      assert Agrees(s, q);
    }
  }

  lemma EndKeeps(s: Consumer)
    requires CallInv(s) && AgreeInv(s) && Enabled(s, Base(End))
    ensures CallInv(Apply(s, Base(End))) && AgreeInv(Apply(s, Base(End)))
  {
    var t := Apply(s, Base(End));
    assert t == s.(w := s.w.(lock := Free, updater := NoUpdate), call := After(s.w.updater.op));
    assert s.w.updater.Pushed?;
    hide QueueWorker.Apply, QueueWorker.Enabled, Apply, Enabled;
    forall q | q != t.w.tech ensures Agrees(t, q) {
      assert Agrees(s, q);
    }
  }

  lemma MutateKeeps(s: Consumer)
    requires CallInv(s) && AgreeInv(s) && Enabled(s, Base(Mutate))
    ensures CallInv(Apply(s, Base(Mutate))) && AgreeInv(Apply(s, Base(Mutate)))
  {
    var t := Apply(s, Base(Mutate));
    var op := s.w.updater.op;
    assert s.w.updater == Begun(op);
    assert t == s.(w := s.w.(subs := Do(op, s.w.subs), updater := Mutated(op)));
    hide QueueWorker.Apply, QueueWorker.Enabled, Apply, Enabled;
    WithoutMembers(s.w.subs, op.queue);
    hide Without;
    forall q | q != t.w.tech ensures Agrees(t, q) {
      assert Agrees(s, q);
    }
  }

  lemma CallsKept(s: Consumer, l: Step)
    requires CallInv(s) && AgreeInv(s) && Enabled(s, l)
    ensures CallInv(Apply(s, l)) && AgreeInv(Apply(s, l))
  {
    hide QueueWorker.Apply, QueueWorker.Enabled, Apply, Enabled, CallInv, AgreeInv, SameCalls;
    if !ChangesCalls(l) {
      OtherStepsLeaveCalls(s, l);
      SameCallsKeep(s, Apply(s, l));
    } else if l.Base? {
      match l.l {
        case Begin(op) => BeginKeeps(s, op);
        case End => EndKeeps(s);
        case Mutate => MutateKeeps(s);
      }
    } else {
      ManagerKeeps(s, l);
    }
  }

  /** A message popped from q has its handler, or its queue is being stopped. */
  lemma PopIsCovered(s: Consumer, q: Channel)
    requires QueueWorker.Inv(s.w) && AgreeInv(s) && CallInv(s) && Enabled(s, Base(Pop))
    requires q == Ready(s.w.snapshot, s.w.lists).value && q != s.w.tech
    ensures q in s.entries || (s.call != NoCall && s.call.op == StopListening(q))
  {
    QueueWorkerTheorems.StalePop(s.w);
    assert Agrees(s, q);
    hide QueueWorker.Inv, Ready;
  }

  /** What a pop does, in the terms of this module. */
  lemma PopEffect(s: Consumer)
    requires Enabled(s, Base(Pop))
    ensures Ready(s.w.snapshot, s.w.lists).Some?
    ensures
      var q := Ready(s.w.snapshot, s.w.lists).value;
      var t := Apply(s, Base(Pop));
      && At(s.w.lists, q) != [] && t.w.tech == s.w.tech && s.w.worker == AtPop
      && t.w.worker == Popped(q, Right(At(s.w.lists, q)))
      && t == s.(w := t.w, overlapped := s.call != NoCall && s.call.op == StopListening(q))
      && t.w.popped == if q == s.w.tech then s.w.popped else Add(s.w.popped, q, Right(At(s.w.lists, q)))
  {
    ReadyIsNonEmpty(s.w.snapshot, s.w.lists);
    hide Ready;
  }

  lemma PopKeepsHand(s: Consumer)
    requires Inv(s) && Enabled(s, Base(Pop))
    ensures HandInv(Apply(s, Base(Pop)))
  {
    PopEffect(s);
    var q := Ready(s.w.snapshot, s.w.lists).value;
    if q != s.w.tech {
      PopIsCovered(s, q);
    }
    hide QueueWorker.Inv, QueueWorker.Enabled, QueueWorker.Apply, Apply, Enabled, Ready, AgreeInv, ConservedInv;
  }

  lemma ManagerKeepsHand(s: Consumer, l: Step)
    requires HandInv(s) && Enabled(s, l) && !l.Base? && !l.Dispatch?
    ensures HandInv(Apply(s, l))
  {
    hide QueueWorker.Apply, QueueWorker.Enabled;
    assert Apply(s, l).w == s.w;
  }

  lemma DispatchKeepsHand(s: Consumer, expired: bool)
    requires HandInv(s) && Enabled(s, Dispatch(expired))
    ensures HandInv(Apply(s, Dispatch(expired)))
  {
    var t := Apply(s, Dispatch(expired));
    assert Carries(s.w.worker, s.w.worker.queue);
    assert t.w == s.w.(worker := AtLoop);
    hide QueueWorker.Apply, QueueWorker.Enabled;
  }

  lemma BaseKeepsHandInv(s: Consumer, b: QueueWorker.Label)
    requires HandInv(s) && Enabled(s, Base(b)) && b != Pop
    ensures HandInv(Apply(s, Base(b)))
  {
    var t := Apply(s, Base(b));
    QueueWorker.StepKeepsTech(s.w, b);
    assert t.entries == s.entries && t.overlapped == s.overlapped && t.vanished == s.vanished
      && t.w == QueueWorker.Apply(s.w, b) by { hide QueueWorker.Apply, QueueWorker.Enabled; }
    OnlyUserMessagesAreDelivered(s.w, b);
    forall q | q != t.w.tech && Carries(t.w.worker, q) ensures q in t.entries || t.overlapped {
      StillCarries(s.w, b, q);
      hide QueueWorker.Apply, QueueWorker.Enabled;
      assert Carries(s.w.worker, q);
    }
  }

  lemma StillCarries(s: QueueWorker.State, l: QueueWorker.Label, q: Channel)
    requires QueueWorker.Enabled(s, l) && l != Pop && Carries(QueueWorker.Apply(s, l).worker, q)
    ensures Carries(s.worker, q)
  {
    hide Ready, Do;
  }

  lemma OnlyUserMessagesAreDelivered(s: QueueWorker.State, l: QueueWorker.Label)
    requires QueueWorker.Enabled(s, l) && (s.worker.Delivering? ==> s.worker.queue != s.tech)
    ensures var t := QueueWorker.Apply(s, l); t.worker.Delivering? ==> t.worker.queue != t.tech
  {
    hide Ready, Do;
  }

  lemma HandKept(s: Consumer, l: Step)
    requires Inv(s) && Enabled(s, l)
    ensures HandInv(Apply(s, l))
  {
    if l == Base(Pop) {
      PopKeepsHand(s);
    } else {
      hide QueueWorker.Apply, QueueWorker.Enabled, Apply, Enabled, HandInv, QueueWorker.Inv, CallInv, AgreeInv, ConservedInv;
      match l {
        case Base(b) => BaseKeepsHandInv(s, b);
        case Dispatch(expired) => DispatchKeepsHand(s, expired);
        case _ => ManagerKeepsHand(s, l);
      }
    }
  }

  /** A step of the connector that pops nothing and delivers nothing. */
  lemma HandAndPoppedStay(s: QueueWorker.State, l: QueueWorker.Label, q: Channel, x: Message)
    requires QueueWorker.Enabled(s, l) && l != Pop && !l.Steal? && l != Deliver && q != s.tech
    ensures var t := QueueWorker.Apply(s, l);
      Count(t.popped, q, x) == Count(s.popped, q, x) && InHand(t.worker, q, x) == InHand(s.worker, q, x)
  {
    hide Ready, Do;
  }

  lemma SameBooks(s: Consumer, b: QueueWorker.Label)
    requires Enabled(s, Base(b)) && b != Pop && !b.Steal?
    ensures b != Deliver && QueueWorker.Enabled(s.w, b)
    ensures var t := Apply(s, Base(b));
      && t.w == QueueWorker.Apply(s.w, b) && t.w.tech == s.w.tech && t.handled == s.handled && t.dropped == s.dropped
      && t.stopped == s.stopped && t.vanished == s.vanished && t.stolen == s.stolen
  {
    QueueWorker.StepKeepsTech(s.w, b);
    hide QueueWorker.Apply, QueueWorker.Enabled;
  }

  lemma BaseKeepsConserved(s: Consumer, b: QueueWorker.Label)
    requires ConservedInv(s) && Enabled(s, Base(b)) && b != Pop && !b.Steal?
    ensures ConservedInv(Apply(s, Base(b)))
  {
    var t := Apply(s, Base(b));
    SameBooks(s, b);
    hide QueueWorker.Apply, QueueWorker.Enabled, Apply, Enabled, InHand, Count;
    forall q, x | q != t.w.tech ensures Count(t.w.popped, q, x) == Accounted(t, q, x) {
      HandAndPoppedStay(s.w, b, q, x);
      assert Count(s.w.popped, q, x) == Accounted(s, q, x);
    }
  }

  lemma AddedOne(m: Lists, c: Channel, y: Message, q: Channel, x: Message)
    ensures Count(Add(m, c, y), q, x) == Count(m, q, x) + One(q == c && x == y)
  {
  }

  lemma StealEffect(s: Consumer, c: Channel)
    requires Enabled(s, Base(Steal(c)))
    ensures At(s.w.lists, c) != [] && c != s.w.tech
    ensures var t := Apply(s, Base(Steal(c))); var y := Right(At(s.w.lists, c));
      && t == s.(w := t.w, stolen := Add(s.stolen, c, y))
      && t.w.popped == Add(s.w.popped, c, y) && t.w.worker == s.w.worker && t.w.tech == s.w.tech
  {
  }

  lemma StealKeepsConserved(s: Consumer, c: Channel)
    requires ConservedInv(s) && Enabled(s, Base(Steal(c)))
    ensures ConservedInv(Apply(s, Base(Steal(c))))
  {
    var t := Apply(s, Base(Steal(c)));
    StealEffect(s, c);
    var y := Right(At(s.w.lists, c));
    hide QueueWorker.Apply, QueueWorker.Enabled, Apply, Enabled, Count, Add, InHand;
    forall q, x | q != t.w.tech ensures Count(t.w.popped, q, x) == Accounted(t, q, x) {
      assert Count(s.w.popped, q, x) == Accounted(s, q, x);
      AddedOne(s.w.popped, c, y, q, x);
      AddedOne(s.stolen, c, y, q, x);
    }
  }

  lemma PopKeepsConserved(s: Consumer)
    requires ConservedInv(s) && Enabled(s, Base(Pop))
    ensures ConservedInv(Apply(s, Base(Pop)))
  {
    var t := Apply(s, Base(Pop));
    PopEffect(s);
    var c := Ready(s.w.snapshot, s.w.lists).value;
    var y := Right(At(s.w.lists, c));
    hide QueueWorker.Apply, QueueWorker.Enabled, Apply, Enabled, Ready, Count, Add;
    forall q, x | q != t.w.tech ensures Count(t.w.popped, q, x) == Accounted(t, q, x) {
      assert Count(s.w.popped, q, x) == Accounted(s, q, x);
      AddedOne(s.w.popped, c, y, q, x);
    }
  }

  /** Where a dispatched message goes. */
  lemma DispatchEffect(s: Consumer, expired: bool)
    requires Enabled(s, Dispatch(expired))
    ensures s.w.worker.Delivering?
    ensures var t := Apply(s, Dispatch(expired)); var c, y := s.w.worker.queue, s.w.worker.message;
      && t.w == s.w.(worker := AtLoop) && t.stolen == s.stolen
      && t.handled == (if c in s.entries && !expired then Add(s.handled, c, y) else s.handled)
      && t.dropped == (if c in s.entries && expired then Add(s.dropped, c, y) else s.dropped)
      && t.stopped == (if c !in s.entries && s.overlapped then Add(s.stopped, c, y) else s.stopped)
      && t.vanished == (if c !in s.entries && !s.overlapped then Add(s.vanished, c, y) else s.vanished)
  {
    assert QueueWorker.Apply(s.w, Deliver) == s.w.(worker := AtLoop);
    hide Add, QueueWorker.Apply;
  }

  lemma DispatchMovesOne(s: Consumer, expired: bool, q: Channel, x: Message)
    requires Enabled(s, Dispatch(expired)) && s.w.worker.Delivering?
    ensures var t := Apply(s, Dispatch(expired)); var c, y := s.w.worker.queue, s.w.worker.message;
      Count(t.handled, q, x) + Count(t.dropped, q, x) + Count(t.stopped, q, x) + Count(t.vanished, q, x)
      == Count(s.handled, q, x) + Count(s.dropped, q, x) + Count(s.stopped, q, x) + Count(s.vanished, q, x)
         + One(q == c && x == y)
  {
    var c, y := s.w.worker.queue, s.w.worker.message;
    DispatchEffect(s, expired);
    hide QueueWorker.Apply, QueueWorker.Enabled, Apply, Enabled, Count, Add;
    if c in s.entries {
      if expired {
        AddedOne(s.dropped, c, y, q, x);
      } else {
        AddedOne(s.handled, c, y, q, x);
      }
    } else if s.overlapped {
      AddedOne(s.stopped, c, y, q, x);
    } else {
      AddedOne(s.vanished, c, y, q, x);
    }
  }

  lemma DispatchKeepsConserved(s: Consumer, expired: bool)
    requires ConservedInv(s) && Enabled(s, Dispatch(expired))
    ensures ConservedInv(Apply(s, Dispatch(expired)))
  {
    var t := Apply(s, Dispatch(expired));
    DispatchEffect(s, expired);
    hide QueueWorker.Apply, QueueWorker.Enabled, Apply, Enabled, Count, Add;
    forall q, x | q != t.w.tech ensures Count(t.w.popped, q, x) == Accounted(t, q, x) {
      assert Count(s.w.popped, q, x) == Accounted(s, q, x);
      DispatchMovesOne(s, expired, q, x);
    }
  }

  lemma ConservedKept(s: Consumer, l: Step)
    requires ConservedInv(s) && Enabled(s, l)
    ensures ConservedInv(Apply(s, l))
  {
    match l {
      case Base(b) =>
        hide QueueWorker.Apply, QueueWorker.Enabled, Apply, Enabled, ConservedInv;
        if b == Pop {
          PopKeepsConserved(s);
        } else if b.Steal? {
          StealKeepsConserved(s, b.queue);
        } else {
          BaseKeepsConserved(s, b);
        }
      case Dispatch(expired) =>
        hide QueueWorker.Apply, QueueWorker.Enabled, Apply, Enabled, ConservedInv;
        DispatchKeepsConserved(s, expired);
      case _ =>
        hide QueueWorker.Apply, QueueWorker.Enabled;
        var t := Apply(s, l);
        forall q, x | q != t.w.tech ensures Count(t.w.popped, q, x) == Accounted(t, q, x) {
          assert Count(s.w.popped, q, x) == Accounted(s, q, x);
        }
    }
  }

  lemma StepKeepsInv(s: Consumer, l: Step)
    requires Inv(s) && Enabled(s, l)
    ensures Inv(Apply(s, l))
  {
    hide QueueWorker.Inv, CallInv, AgreeInv, HandInv, ConservedInv, Apply, Enabled;
    BaseStep(s, l);
    CallsKept(s, l);
    HandKept(s, l);
    ConservedKept(s, l);
  }

  lemma {:induction false} ContinueKeepsInv(s: Consumer, ls: seq<Step>)
    requires Inv(s) && Continue(s, ls).Some?
    ensures Inv(Continue(s, ls).value)
  {
    hide Inv, Apply, Enabled;
    if ls != [] {
      ContinueKeepsInv(s, ls[..|ls| - 1]);
      StepKeepsInv(Continue(s, ls[..|ls| - 1]).value, ls[|ls| - 1]);
    }
  }

  lemma RunInv(tech: Channel, lists: Lists, ls: seq<Step>)
    requires Run(tech, lists, ls).Some?
    ensures Inv(Run(tech, lists, ls).value)
  {
    QueueWorker.InitInv(tech, lists);
    assert Inv(Init(tech, lists)) by { hide QueueWorker.Inv; }
    ContinueKeepsInv(Init(tech, lists), ls);
  }
}

/** What becomes of every request of a queue, over all its competing consumers. */
module QueueConsumerTheorems {
  import opened Common
  import opened QueueConsumer
  import opened QueueWorker

  lemma {:induction false} ReverseIsPermutation<T>(s: seq<T>)
    ensures multiset(Reverse(s)) == multiset(s)
  {
    if s != [] {
      ReverseIsPermutation(s[1..]);
      assert s == [s[0]] + s[1..];
    }
  }

  /**
   Conservation: what was sent to a queue is still queued, or was handled, dropped as expired, taken by a competing
   consumer, is in the worker's hands, or found no handler because a stop of that queue had overlapped with its way
   from the pop to the dispatch. Nothing else ever happens to a message.
   */
  lemma Conservation(tech: Channel, lists: Lists, ls: seq<Step>, q: Channel)
    requires QueueConsumer.Run(tech, lists, ls).Some? && q != QueueConsumer.Run(tech, lists, ls).value.w.tech
    ensures var s := QueueConsumer.Run(tech, lists, ls).value;
      && At(s.vanished, q) == []
      && multiset(At(s.w.sent, q)) == multiset(At(s.w.lists, q)) + Accepted(s, q)
  {
    var s := QueueConsumer.Run(tech, lists, ls).value;
    QueueConsumer.RunInv(tech, lists, ls);
    hide QueueConsumer.Run;
    assert At(s.vanished, q) == [];
    assert FifoAt(s.w, q);
    ReverseIsPermutation(At(s.w.lists, q));
    PoppedIsAccepted(s, q);
    hide *;
  }

  /** What has left queue q: handled, dropped as expired, stopped, taken by others, or in the worker's hands. */
  function Accepted(s: Consumer, q: Channel): multiset<Message> {
    multiset(At(s.handled, q)) + multiset(At(s.dropped, q)) + multiset(At(s.stopped, q)) + multiset(At(s.stolen, q))
      + if Carries(s.w.worker, q) then multiset{s.w.worker.message} else multiset{}
  }

  lemma PoppedIsAccepted(s: Consumer, q: Channel)
    requires QueueConsumer.Inv(s) && q != s.w.tech
    ensures multiset(At(s.w.popped, q)) == Accepted(s, q)
  {
    forall x ensures multiset(At(s.w.popped, q))[x] == Accepted(s, q)[x] {
      assert Count(s.w.popped, q, x) == Accounted(s, q, x);
      assert At(s.vanished, q) == [];
      hide QueueConsumer.Inv, At;
    }
    hide *;
  }

  /** The connector's part of a run. */
  function Project(ls: seq<Step>): seq<QueueWorker.Label> {
    if ls == [] then []
    else
      var rest := Project(ls[..|ls| - 1]);
      match ls[|ls| - 1]
      case Base(b) => rest + [b]
      case Dispatch(_) => rest + [Deliver]
      case _ => rest
  }

  lemma OneMoreLabel(tech: Channel, lists: Lists, ls: seq<QueueWorker.Label>, l: QueueWorker.Label)
    requires QueueWorker.Run(tech, lists, ls).Some? && QueueWorker.Enabled(QueueWorker.Run(tech, lists, ls).value, l)
    ensures QueueWorker.Run(tech, lists, ls + [l]) == Some(QueueWorker.Apply(QueueWorker.Run(tech, lists, ls).value, l))
  {
    hide QueueWorker.Apply, QueueWorker.Enabled;
    assert (ls + [l])[..|ls + [l]| - 1] == ls;
  }

  lemma ConnectorPart(s: Consumer, l: Step)
    requires QueueConsumer.Enabled(s, l)
    ensures l.Base? ==> QueueWorker.Enabled(s.w, l.l) && QueueConsumer.Apply(s, l).w == QueueWorker.Apply(s.w, l.l)
    ensures l.Dispatch? ==> QueueWorker.Enabled(s.w, Deliver) && QueueConsumer.Apply(s, l).w == QueueWorker.Apply(s.w, Deliver)
    ensures !l.Base? && !l.Dispatch? ==> QueueConsumer.Apply(s, l).w == s.w
  {
    hide QueueWorker.Apply, QueueWorker.Enabled;
  }

  /** Every run of the consumer is a run of the queue worker, so the worker's guarantees hold here, too. */
  lemma {:induction false} ConsumerRunsAreWorkerRuns(tech: Channel, lists: Lists, ls: seq<Step>)
    requires QueueConsumer.Run(tech, lists, ls).Some?
    ensures QueueWorker.Run(tech, lists, Project(ls)) == Some(QueueConsumer.Run(tech, lists, ls).value.w)
  {
    if ls != [] {
      var init, l := ls[..|ls| - 1], ls[|ls| - 1];
      ConsumerRunsAreWorkerRuns(tech, lists, init);
      var s := QueueConsumer.Run(tech, lists, init).value;
      assert QueueConsumer.Run(tech, lists, ls) == Some(QueueConsumer.Apply(s, l)) by {
        hide QueueConsumer.Apply, QueueConsumer.Enabled;
      }
      assert QueueConsumer.Enabled(s, l) by {
        hide QueueConsumer.Apply, QueueConsumer.Enabled;
      }
      hide QueueWorker.Run, QueueConsumer.Run, QueueWorker.Apply, QueueWorker.Enabled;
      ConnectorPart(s, l);
      hide QueueConsumer.Apply, QueueConsumer.Enabled;
      match l {
        case Base(b) => OneMoreLabel(tech, lists, Project(init), b);
        case Dispatch(_) => OneMoreLabel(tech, lists, Project(init), Deliver);
        case _ =>
      }
    }
  }

  /**
   A handler call that adds a queue returns with the queue subscribed at the connector, and one that removes it
   returns with it unsubscribed: between calls, entries and subscriptions are the same set.
   */
  lemma EntriesAreSubscribed(tech: Channel, lists: Lists, ls: seq<Step>, q: Channel)
    requires QueueConsumer.Run(tech, lists, ls).Some? && q != QueueConsumer.Run(tech, lists, ls).value.w.tech
    requires QueueConsumer.Run(tech, lists, ls).value.call == NoCall
    ensures var s := QueueConsumer.Run(tech, lists, ls).value; q in s.entries <==> q in s.w.subs
  {
    var s := QueueConsumer.Run(tech, lists, ls).value;
    QueueConsumer.RunInv(tech, lists, ls);
    hide QueueConsumer.Run;
    assert Agrees(s, q);
  }

  lemma OneMoreStep(s: Consumer, ls: seq<Step>, l: Step)
    requires QueueConsumer.Continue(s, ls).Some? && QueueConsumer.Enabled(QueueConsumer.Continue(s, ls).value, l)
    ensures QueueConsumer.Continue(s, ls + [l]) == Some(QueueConsumer.Apply(QueueConsumer.Continue(s, ls).value, l))
  {
    hide QueueConsumer.Apply, QueueConsumer.Enabled;
    assert (ls + [l])[..|ls + [l]| - 1] == ls;
  }

  /** The steps of one add or remove call that changes its queue's entry and meets no other thread. */
  function CallSteps(op: Op): seq<Step> {
    [if op.Listen? then AddEntry(op.queue) else RemoveEntry(op.queue)]
      + [Base(Begin(op))] + [Base(Mutate)] + [Base(Flag)] + [Base(Push)] + [Base(End)] + [Return]
  }

  /** Nothing is in progress, and op would change the manager's entry. */
  predicate Ripe(s: Consumer, op: Op) {
    && s.call == NoCall && s.w.owner == Started && s.w.updater == NoUpdate && s.w.lock == Free && op.queue != s.w.tech
    && (op.queue in s.entries <==> op.StopListening?)
  }

  /** The manager's part of the call. */
  function Entered(s: Consumer, op: Op): Consumer {
    if op.Listen? then s.(entries := s.entries + {op.queue})
    else s.(entries := s.entries - {op.queue}, overlapped := s.overlapped || Carries(s.w.worker, op.queue))
  }

  /** Its first part: up to the change of the connector's list. */
  lemma CallBegins(s: Consumer, op: Op)
    requires Ripe(s, op)
    ensures
      QueueConsumer.Continue(s, [if op.Listen? then AddEntry(op.queue) else RemoveEntry(op.queue)] + [Base(Begin(op))] + [Base(Mutate)])
      == Some(Entered(s, op).(call := During(op),
                              w := s.w.(lock := ByUpdater, updater := Mutated(op), subs := Do(op, s.w.subs))))
  {
    var first := if op.Listen? then AddEntry(op.queue) else RemoveEntry(op.queue);
    var s1 := Entered(s, op).(call := Before(op));
    assert QueueConsumer.Apply(s, first) == s1;
    var s2 := s1.(w := s1.w.(lock := ByUpdater, updater := Begun(op)), call := During(op));
    assert QueueConsumer.Apply(s1, Base(Begin(op))) == s2;
    assert QueueConsumer.Apply(s2, Base(Mutate)) == s2.(w := s2.w.(updater := Mutated(op), subs := Do(op, s.w.subs)));
    hide Do, Entered;
    OneMoreStep(s, [], first);
    assert [] + [first] == [first];
    OneMoreStep(s, [first], Base(Begin(op)));
    OneMoreStep(s, [first] + [Base(Begin(op))], Base(Mutate));
  }

  /** Flag, token and return. */
  lemma CallEnds(s: Consumer, op: Op)
    requires s.w.updater == Mutated(op)
    ensures QueueConsumer.Continue(s, [Base(Flag)] + [Base(Push)] + [Base(End)] + [Return])
      == Some(s.(w := WithToken(s.w).(changed := true, updater := NoUpdate, lock := Free), call := NoCall))
  {
    FlagAndPush(s, op);
    var s5 := s.(w := WithToken(s.w).(changed := true, updater := Pushed(op)));
    var s6 := s5.(w := s5.w.(lock := Free, updater := NoUpdate), call := After(op));
    hide WithToken, Do, Ready, QueueConsumer.Continue;
    assert QueueConsumer.Enabled(s5, Base(End)) && QueueConsumer.Apply(s5, Base(End)) == s6;
    assert QueueConsumer.Enabled(s6, Return) && QueueConsumer.Apply(s6, Return) == s6.(call := NoCall);
    hide QueueConsumer.Apply, QueueConsumer.Enabled;
    OneMoreStep(s, [Base(Flag)] + [Base(Push)], Base(End));
    OneMoreStep(s, [Base(Flag)] + [Base(Push)] + [Base(End)], Return);
  }

  lemma FlagAndPush(s: Consumer, op: Op)
    requires s.w.updater == Mutated(op)
    ensures QueueConsumer.Continue(s, [Base(Flag)] + [Base(Push)])
      == Some(s.(w := WithToken(s.w).(changed := true, updater := Pushed(op))))
  {
    hide Do, Ready;
    var s4 := s.(w := s.w.(changed := true, updater := Flagged(op)));
    assert QueueConsumer.Apply(s, Base(Flag)) == s4;
    assert QueueConsumer.Apply(s4, Base(Push)) == s4.(w := WithToken(s4.w).(updater := Pushed(op)));
    assert [] + [Base(Flag)] == [Base(Flag)];
    OneMoreStep(s, [], Base(Flag));
    OneMoreStep(s, [Base(Flag)], Base(Push));
  }

  lemma {:induction false} ContinueConcat(s: Consumer, a: seq<Step>, b: seq<Step>)
    requires QueueConsumer.Continue(s, a).Some?
    ensures QueueConsumer.Continue(s, a + b) == QueueConsumer.Continue(QueueConsumer.Continue(s, a).value, b)
  {
    hide QueueConsumer.Apply, QueueConsumer.Enabled;
    if b == [] {
      assert a + b == a;
    } else {
      ContinueConcat(s, a, b[..|b| - 1]);
      assert (a + b)[..|a + b| - 1] == a + b[..|b| - 1];
    }
  }

  /** A whole call. */
  lemma CallRuns(s: Consumer, op: Op)
    requires Ripe(s, op)
    ensures QueueConsumer.Continue(s, CallSteps(op))
      == Some(Entered(s, op).(w := WithToken(s.w).(subs := Do(op, s.w.subs), changed := true)))
  {
    CallBegins(s, op);
    var first := [if op.Listen? then AddEntry(op.queue) else RemoveEntry(op.queue)] + [Base(Begin(op))] + [Base(Mutate)];
    var t := QueueConsumer.Continue(s, first).value;
    CallEnds(t, op);
    var second := [Base(Flag)] + [Base(Push)] + [Base(End)] + [Return];
    hide QueueConsumer.Continue, Do;
    ContinueConcat(s, first, second);
    assert CallSteps(op) == first + second;
  }

  /**
   A message can lose its handler to a stop that was not in progress when it was popped: whenever the worker holds a
   message of q and no call is under way, a remove_message_handler call for q can overtake the dispatch.
   */
  lemma StopOvertakesDispatch(s: Consumer, q: Channel, m: Message)
    requires Ripe(s, StopListening(q)) && s.w.worker == Popped(q, m)
    ensures var t := QueueConsumer.Continue(s, CallSteps(StopListening(q)) + [Base(MarkAlive)] + [Dispatch(false)]);
      t.Some? && t.value.stopped == Add(s.stopped, q, m)
  {
    var ls := CallSteps(StopListening(q));
    CallRuns(s, StopListening(q));
    var s7 := QueueConsumer.Continue(s, ls).value;
    assert s7.w.worker == Popped(q, m) && s7.w.tech == s.w.tech && s7.call == NoCall && q !in s7.entries && s7.overlapped
      && s7.stopped == s.stopped;
    hide *;
    TooLate(s7, q, m);
    ContinueConcat(s, ls, [Base(MarkAlive)] + [Dispatch(false)]);
    assert ls + ([Base(MarkAlive)] + [Dispatch(false)]) == ls + [Base(MarkAlive)] + [Dispatch(false)];
  }

  /** The rest of the worker's turn when the handler has gone meanwhile. */
  lemma TooLate(s: Consumer, q: Channel, m: Message)
    requires s.w.worker == Popped(q, m) && q != s.w.tech && s.call == NoCall && q !in s.entries && s.overlapped
    ensures var t := QueueConsumer.Continue(s, [Base(MarkAlive)] + [Dispatch(false)]);
      t.Some? && t.value.stopped == Add(s.stopped, q, m)
  {
    var s1 := s.(w := s.w.(alive := true, worker := Delivering(q, m)));
    assert QueueConsumer.Apply(s, Base(MarkAlive)) == s1;
    assert [] + [Base(MarkAlive)] == [Base(MarkAlive)];
    OneMoreStep(s, [], Base(MarkAlive));
    OneMoreStep(s, [Base(MarkAlive)], Dispatch(false));
  }
}
