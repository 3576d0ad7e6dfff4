/**
 One connector with its broker and all the managers on it: what becomes of each request of a queue when any number of
 transaction interfaces come and go. The connector carries out the broker's calls in the order in which they are made; a
 message that the worker dispatches goes through the broker's fan-out.
 */
module BrokerConsumer {
  import opened Common
  import Connector = QueueWorker
  import ConnectorTheorems = QueueWorkerTheorems
  import Layers
  import LostMessages
  import Managers = Subscriptions
  import ManagerSteps = SubscriptionSteps
  import Theorems = SubscriptionTheorems
  import opened QueueConsumer
  import QueueConsumerTheorems

  type Channel = Bytes

  datatype Consumers = Consumers(
    w: Connector.State,
    system: Managers.System,
    begun: nat,        // how many of the broker's calls on queues the connector has begun
    // history
    overlapped: bool,  // of the message in the worker's hands: a stop was under way at its pop, or its last handler has gone since
    reached: Connector.Lists,
    stopped: Connector.Lists,   // no handler, overlapped
    stranded: Connector.Lists,  // no handler: its queue was left behind by a destroyed interface
    vanished: Connector.Lists,  // no handler, for neither reason
    stolen: Connector.Lists)    // taken by competing consumers

  datatype Event =
    | Manage(a: Managers.Action)       // a manager's call up to the connector
    | Work(l: Connector.Label)
    | FanOut                           // the dispatch of the message in the worker's hands

  function Init(tech: Channel, lists: Connector.Lists): Consumers {
    Consumers(Connector.Init(tech, lists), Managers.Init(), 0, false, map[], map[], map[], map[], map[])
  }

  /** The calls on queues that the broker has made at the connector. */
  function Calls(s: Consumers): seq<Connector.Op> {
    Layers.QueueCalls(s.system.broker.trace)
  }

  ghost predicate Enabled(s: Consumers, e: Event) {
    match e
    // no application uses the technical channel: its name is a fresh UUID
    case Manage(a) => Managers.Enabled(s.system, a) && Layers.Avoids(Managers.Apply(s.system, a).broker.trace, s.w.tech)
    case Work(l) =>
      && Connector.Enabled(s.w, l) && l != Connector.Deliver
      && (l.Begin? ==> s.begun < |Calls(s)| && l.op == Calls(s)[s.begun])
    case FanOut => Connector.Enabled(s.w, Connector.Deliver)
  }

  /** A stop of q has been asked for, and the connector has not yet completed it. */
  ghost predicate StopUnderWay(s: Consumers, q: Channel) {
    || (s.begun <= |Calls(s)| && Connector.StopListening(q) in Calls(s)[s.begun..])
    || (s.w.updater != Connector.NoUpdate && s.w.updater.op == Connector.StopListening(q))
  }

  /** Some destroyed manager held q to the end. */
  ghost predicate IsStranded(s: Managers.System, q: Channel) {
    Theorems.Stranded(s.managers, Managers.Transaction, q) != {}
  }

  ghost function FannedOut(s: Consumers): Consumers
    requires Enabled(s, FanOut)
  {
    var q, m := s.w.worker.queue, s.w.worker.message;
    var t := s.(w := Connector.Apply(s.w, Connector.Deliver));
    if Managers.Delivered(s.system, Managers.Transaction, q) != [] then t.(reached := Add(s.reached, q, m))
    else if s.overlapped then t.(stopped := Add(s.stopped, q, m))
    else if IsStranded(s.system, q) then t.(stranded := Add(s.stranded, q, m))
    else t.(vanished := Add(s.vanished, q, m))
  }

  /** The action takes the last handler of the message in the worker's hands away. */
  ghost predicate Bereaves(s: Consumers, t: Managers.System) {
    exists q :: Carries(s.w.worker, q) && Theorems.Listened(s.system, q) && !Theorems.Listened(t, q)
  }

  ghost function Worked(s: Consumers, l: Connector.Label): Consumers
    requires Enabled(s, Work(l))
  {
    var t := s.(w := Connector.Apply(s.w, l));
    match l
    case Begin(_) => t.(begun := s.begun + 1)
    case Pop => t.(overlapped := StopUnderWay(s, t.w.worker.queue))
    case Steal(q) => t.(stolen := Add(s.stolen, q, Connector.Right(Connector.At(s.w.lists, q))))
    case _ => t
  }

  ghost function Apply(s: Consumers, e: Event): Consumers
    requires Enabled(s, e)
  {
    match e
    case Manage(a) =>
      var system := Managers.Apply(s.system, a);
      s.(system := system, overlapped := s.overlapped || Bereaves(s, system))
    case Work(l) => Worked(s, l)
    case FanOut => FannedOut(s)
  }

  ghost function Run(tech: Channel, lists: Connector.Lists, es: seq<Event>): Option<Consumers> {
    if es == [] then Some(Init(tech, lists))
    else
      var prev := Run(tech, lists, es[..|es| - 1]);
      if prev.Some? && Enabled(prev.value, es[|es| - 1]) then Some(Apply(prev.value, es[|es| - 1])) else None
  }

  // ---- both parts of a run are runs ----

  function WorkerPart(es: seq<Event>): seq<Connector.Label> {
    if es == [] then []
    else
      WorkerPart(es[..|es| - 1]) +
      match es[|es| - 1]
      case Manage(_) => []
      case Work(l) => [l]
      case FanOut => [Connector.Deliver]
  }

  function ManagerPart(es: seq<Event>): seq<Managers.Action> {
    if es == [] then []
    else ManagerPart(es[..|es| - 1]) + if es[|es| - 1].Manage? then [es[|es| - 1].a] else []
  }

  lemma ManageEffect(s: Consumers, a: Managers.Action)
    requires Enabled(s, Manage(a))
    ensures Managers.Enabled(s.system, a)
    ensures var t := Apply(s, Manage(a));
      && t == s.(system := Managers.Apply(s.system, a), overlapped := s.overlapped || Bereaves(s, t.system))
      && Layers.Avoids(t.system.broker.trace, s.w.tech)
  {
    hide Managers.Apply, Managers.Enabled, Bereaves, Layers.Avoids;
  }

  lemma WorkEffect(s: Consumers, l: Connector.Label)
    requires Enabled(s, Work(l))
    ensures Connector.Enabled(s.w, l) && l != Connector.Deliver
    ensures l.Begin? ==> s.begun < |Calls(s)| && l.op == Calls(s)[s.begun]
    ensures var t := Apply(s, Work(l));
      && t == s.(w := Connector.Apply(s.w, l), begun := t.begun, overlapped := t.overlapped, stolen := t.stolen)
      && t.begun == (if l.Begin? then s.begun + 1 else s.begun)
      && (l != Connector.Pop ==> t.overlapped == s.overlapped) && (!l.Steal? ==> t.stolen == s.stolen)
  {
    hide Connector.Apply, Connector.Enabled, StopUnderWay, Calls, Add;
  }

  lemma FanOutEffect(s: Consumers)
    requires Enabled(s, FanOut)
    ensures Connector.Enabled(s.w, Connector.Deliver) && s.w.worker.Delivering?
    ensures var t := Apply(s, FanOut);
      var q, m := s.w.worker.queue, s.w.worker.message;
      var reaches := Managers.Delivered(s.system, Managers.Transaction, q) != [];
      && t == s.(w := s.w.(worker := Connector.AtLoop), reached := t.reached, stopped := t.stopped, stranded := t.stranded,
                 vanished := t.vanished)
      && t.w == Connector.Apply(s.w, Connector.Deliver)
      && t.reached == (if reaches then Add(s.reached, q, m) else s.reached)
      && t.stopped == (if !reaches && s.overlapped then Add(s.stopped, q, m) else s.stopped)
      && t.stranded == (if !reaches && !s.overlapped && IsStranded(s.system, q) then Add(s.stranded, q, m) else s.stranded)
      && t.vanished == (if !reaches && !s.overlapped && !IsStranded(s.system, q) then Add(s.vanished, q, m) else s.vanished)
  {
    assert Connector.Apply(s.w, Connector.Deliver) == s.w.(worker := Connector.AtLoop);
    hide Connector.Apply, Managers.Delivered, IsStranded, Add;
  }

  /** A run of the whole is a run of the connector and a run of the managers, so what is proved of both holds here, too. */
  lemma {:induction false} RunsArePartRuns(tech: Channel, lists: Connector.Lists, es: seq<Event>)
    requires Run(tech, lists, es).Some?
    ensures Connector.Run(tech, lists, WorkerPart(es)) == Some(Run(tech, lists, es).value.w)
    ensures Managers.Run(ManagerPart(es)) == Some(Run(tech, lists, es).value.system)
  {
    if es != [] {
      var init, e := es[..|es| - 1], es[|es| - 1];
      RunsArePartRuns(tech, lists, init);
      var s := Run(tech, lists, init).value;
      hide Enabled, Apply, Connector.Apply, Connector.Enabled, Managers.Apply, Managers.Enabled;
      match e {
        case Manage(a) =>
          ManageEffect(s, a);
          ManagerSteps.OneMoreAction(Managers.Init(), ManagerPart(init), a);
          assert WorkerPart(init) + [] == WorkerPart(init);
        case Work(l) =>
          WorkEffect(s, l);
          Connector.Extend(Connector.Init(tech, lists), WorkerPart(init), l);
          assert ManagerPart(init) + [] == ManagerPart(init);
        case FanOut =>
          FanOutEffect(s);
          Connector.Extend(Connector.Init(tech, lists), WorkerPart(init), Connector.Deliver);
          assert ManagerPart(init) + [] == ManagerPart(init);
      }
    }
  }

  // ---- the connector follows the broker ----

  lemma {:induction false} CallsGrow(trace: seq<Managers.Call>, more: seq<Managers.Call>)
    ensures Layers.QueueCalls(trace) <= Layers.QueueCalls(trace + more)
  {
    if more == [] {
      assert trace + more == trace;
    } else {
      CallsGrow(trace, more[..|more| - 1]);
      assert (trace + more)[..|trace + more| - 1] == trace + more[..|more| - 1];
    }
  }

  lemma {:induction false} ReleasesExtend(b: Managers.Broker, kind: Managers.Kind, cs: seq<Channel>)
    ensures b.trace <= Managers.ReleaseAll(b, kind, cs).trace
  {
    if cs != [] {
      ReleasesExtend(b, kind, cs[..|cs| - 1]);
    }
  }

  lemma ActionExtends(s: Managers.System, a: Managers.Action)
    requires Managers.Enabled(s, a)
    ensures s.broker.trace <= Managers.Apply(s, a).broker.trace
  {
    if a.RemoveAll? {
      var m := s.managers[a.manager];
      ReleasesExtend(s.broker, m.kind, Managers.Emptied(m.subs, a.handler, a.order));
      hide Managers.ReleaseAll, Managers.Emptied, Managers.RemovedAll;
    }
  }

  /** The calls begun are the first of the broker's calls, in their order. */
  ghost predicate Follows(s: Consumers, es: seq<Event>) {
    && s.begun <= |Calls(s)| && Layers.Begun(WorkerPart(es)) == Calls(s)[..s.begun]
    && Layers.Avoids(s.system.broker.trace, s.w.tech)
  }

  lemma BegunAppends(ls: seq<Connector.Label>, l: Connector.Label)
    ensures Layers.Begun(ls + [l]) == if l.Begin? then Layers.Begun(ls) + [l.op] else Layers.Begun(ls)
  {
    assert (ls + [l])[..|ls + [l]| - 1] == ls;
    assert Layers.Begun(ls) + [] == Layers.Begun(ls);
  }

  lemma SameTrace(s: Consumers, t: Consumers)
    requires t.system == s.system
    ensures Calls(t) == Calls(s)
  {
  }

  lemma InitFollows(tech: Channel, lists: Connector.Lists)
    ensures Follows(Init(tech, lists), [])
  {
    assert Layers.QueueCalls([]) == [];
  }

  lemma ManageFollows(s: Consumers, es: seq<Event>, a: Managers.Action)
    requires Follows(s, es) && Enabled(s, Manage(a))
    ensures Follows(Apply(s, Manage(a)), es + [Manage(a)])
  {
    var t := Apply(s, Manage(a));
    assert (es + [Manage(a)])[..|es|] == es;
    assert WorkerPart(es + [Manage(a)]) == WorkerPart(es) + [] == WorkerPart(es);
    ManageEffect(s, a);
    ActionExtends(s.system, a);
    hide Enabled, Apply, Managers.Apply, Managers.Enabled, Layers.QueueCalls, Layers.Avoids, Layers.Begun, WorkerPart, Bereaves;
    var more := t.system.broker.trace[|s.system.broker.trace|..];
    CallsGrow(s.system.broker.trace, more);
    assert t.system.broker.trace == s.system.broker.trace + more;
  }

  lemma WorkFollows(s: Consumers, es: seq<Event>, l: Connector.Label)
    requires Follows(s, es) && Enabled(s, Work(l))
    ensures Follows(Apply(s, Work(l)), es + [Work(l)])
  {
    assert WorkerPart(es + [Work(l)]) == WorkerPart(es) + [l] by {
      assert (es + [Work(l)])[..|es|] == es;
    }
    WorkEffect(s, l);
    SameTrace(s, Apply(s, Work(l)));
    BegunAppends(WorkerPart(es), l);
    Connector.StepKeepsTech(s.w, l);
    hide Enabled, Apply, Connector.Apply, Connector.Enabled, Layers.QueueCalls, Layers.Avoids, Layers.Begun, WorkerPart;
    hide Calls;
    if l.Begin? {
      OneMoreBegun(Calls(s), s.begun);
    }
  }

  lemma OneMoreBegun(calls: seq<Connector.Op>, n: nat)
    requires n < |calls|
    ensures calls[..n] + [calls[n]] == calls[..n + 1]
  {
  }

  lemma FanOutFollows(s: Consumers, es: seq<Event>)
    requires Follows(s, es) && Enabled(s, FanOut)
    ensures Follows(Apply(s, FanOut), es + [FanOut])
  {
    assert (es + [FanOut])[..|es|] == es;
    assert WorkerPart(es + [FanOut]) == WorkerPart(es) + [Connector.Deliver];
    FanOutEffect(s);
    BegunAppends(WorkerPart(es), Connector.Deliver);
    hide Enabled, Apply, Connector.Apply, Connector.Enabled, Layers.QueueCalls, Layers.Avoids, Layers.Begun, WorkerPart;
  }

  lemma {:induction false} RunFollows(tech: Channel, lists: Connector.Lists, es: seq<Event>)
    requires Run(tech, lists, es).Some?
    ensures Follows(Run(tech, lists, es).value, es)
  {
    hide Enabled, Apply, Follows, Init;
    if es == [] {
      InitFollows(tech, lists);
    } else {
      var init, e := es[..|es| - 1], es[|es| - 1];
      RunFollows(tech, lists, init);
      assert es == init + [e];
      match e {
        case Manage(a) => ManageFollows(Run(tech, lists, init).value, init, a);
        case Work(l) => WorkFollows(Run(tech, lists, init).value, init, l);
        case FanOut => FanOutFollows(Run(tech, lists, init).value, init);
      }
    }
  }

  // ---- a popped message has a handler, or a reason not to have one ----

  lemma {:induction false} StaysListed(begun: seq<Connector.Op>, pending: seq<Connector.Op>, tech: Channel, q: Channel)
    requires q in Layers.ListAfter(begun, tech) && Connector.StopListening(q) !in pending
    ensures q in Layers.ListAfter(begun + pending, tech)
  {
    if pending == [] {
      assert begun + pending == begun;
    } else {
      var init, op := pending[..|pending| - 1], pending[|pending| - 1];
      assert pending == init + [op];
      StaysListed(begun, init, tech, q);
      Layers.ListAfterAppends(begun + init, op, tech);
      assert begun + pending == begun + init + [op];
      Connector.WithoutMembers(Layers.ListAfter(begun + init, tech), op.queue);
    }
  }

  lemma ListedIsSettled(w: Connector.State, q: Channel)
    requires q in w.subs && (w.updater != Connector.NoUpdate ==> w.updater.op != Connector.StopListening(q))
    ensures q in Layers.Settled(w)
  {
    if w.updater.Begun? {
      Connector.WithoutMembers(w.subs, w.updater.op.queue);
    }
  }

  lemma StaysCalled(calls: seq<Connector.Op>, n: nat, tech: Channel, q: Channel)
    requires n <= |calls| && q in Layers.ListAfter(calls[..n], tech) && Connector.StopListening(q) !in calls[n..]
    ensures q in Layers.ListAfter(calls, tech)
  {
    assert calls[..n] + calls[n..] == calls;
    StaysListed(calls[..n], calls[n..], tech, q);
  }

  /** A queue that is in the connector's list, with no stop under way, is held by a manager, or was to the end of one. */
  lemma SubscribedIsHeld(tech: Channel, lists: Connector.Lists, es: seq<Event>, q: Channel)
    requires Run(tech, lists, es).Some?
    requires var s := Run(tech, lists, es).value; q in s.w.subs && q != s.w.tech && !StopUnderWay(s, q)
    ensures var s := Run(tech, lists, es).value; Theorems.Listened(s.system, q) || IsStranded(s.system, q)
  {
    var s := Run(tech, lists, es).value;
    RunsArePartRuns(tech, lists, es);
    RunFollows(tech, lists, es);
    ConnectorTheorems.TechIsFixed(Connector.Init(tech, lists), WorkerPart(es));
    assert s.w.tech == tech;
    ListedIsSettled(s.w, q);
    hide Run, Connector.Run, Connector.Continue, Connector.Init, Managers.Run, Theorems.Listened, IsStranded;
    hide Layers.Settled, Layers.ListAfter, Layers.Begun, Layers.QueueCalls, Layers.Avoids;
    Layers.ListIsListAfter(tech, lists, WorkerPart(es));
    StaysCalled(Calls(s), s.begun, tech, q);
    CalledIsHeld(ManagerPart(es), tech, q);
  }

  lemma CalledIsHeld(run: seq<Managers.Action>, tech: Channel, q: Channel)
    requires Managers.Run(run).Some? && q != tech
    requires var trace := Managers.Run(run).value.broker.trace;
      Layers.Avoids(trace, tech) && q in Layers.ListAfter(Layers.QueueCalls(trace), tech)
    ensures var s := Managers.Run(run).value; Theorems.Listened(s, q) || IsStranded(s, q)
  {
    var s := Managers.Run(run).value;
    Theorems.ThreeLayersAgree(run, Managers.Transaction, q);
    hide Managers.Run;
    Layers.ListAfterTrace(s.broker.trace, tech);
    var i :| i in Theorems.HolderSet(s.managers, Managers.Transaction, q);
    Theorems.ListenersExist(s, q);
    assert i in Theorems.Listeners(s, q) || i in Theorems.Stranded(s.managers, Managers.Transaction, q);
  }

  /** So is one from which a message is popped. */
  lemma PopIsCovered(tech: Channel, lists: Connector.Lists, es: seq<Event>, q: Channel)
    requires Run(tech, lists, es).Some?
    requires var s := Run(tech, lists, es).value;
      Connector.Enabled(s.w, Connector.Pop) && q == Connector.Ready(s.w.snapshot, s.w.lists).value && q != s.w.tech
    ensures var s := Run(tech, lists, es).value; StopUnderWay(s, q) || Theorems.Listened(s.system, q) || IsStranded(s.system, q)
  {
    var s := Run(tech, lists, es).value;
    RunsArePartRuns(tech, lists, es);
    ConnectorTheorems.NoStalePop(tech, lists, WorkerPart(es));
    if q in s.w.subs && !StopUnderWay(s, q) {
      hide Run, Connector.Enabled;
      SubscribedIsHeld(tech, lists, es, q);
    }
  }

  /** The message in the worker's hands has a handler, or a reason not to. */
  ghost predicate HandInv(s: Consumers) {
    && (s.w.worker.Delivering? ==> s.w.worker.queue != s.w.tech)
    && (forall q :: q != s.w.tech && Carries(s.w.worker, q) ==> s.overlapped || Theorems.Listened(s.system, q) || IsStranded(s.system, q))
    && (forall q :: Connector.At(s.vanished, q) == [])
  }

  lemma ManageKeepsHand(s: Consumers, a: Managers.Action)
    requires HandInv(s) && Enabled(s, Manage(a))
    ensures HandInv(Apply(s, Manage(a)))
  {
    var t := Apply(s, Manage(a));
    ManageEffect(s, a);
    forall q | q != t.w.tech && Carries(t.w.worker, q) ensures t.overlapped || Theorems.Listened(t.system, q) || IsStranded(t.system, q) {
      if !s.overlapped && !Theorems.Listened(s.system, q) {
        var i: nat :| i in Theorems.Stranded(s.system.managers, Managers.Transaction, q);
        Theorems.StepStrands(s.system, a, i, Managers.Transaction, q);
        assert i in Theorems.Stranded(t.system.managers, Managers.Transaction, q);
      }
      hide Apply, Enabled, Managers.Apply, Managers.Enabled, Theorems.Listened;
    }
  }

  /** What is delivered is a user message, and until the next pop it is the same. */
  lemma WorkKeepsHand(s: Consumers, l: Connector.Label)
    requires HandInv(s) && Enabled(s, Work(l)) && l != Connector.Pop
    ensures HandInv(Apply(s, Work(l)))
  {
    var t := Apply(s, Work(l));
    WorkEffect(s, l);
    Connector.StepKeepsTech(s.w, l);
    OnlyUserMessagesAreDelivered(s.w, l);
    hide Apply, Enabled, Connector.Apply, Connector.Enabled, Theorems.Listened, IsStranded;
    forall q | q != t.w.tech && Carries(t.w.worker, q) ensures t.overlapped || Theorems.Listened(t.system, q) || IsStranded(t.system, q) {
      StillCarries(s.w, l, q);
    }
  }

  lemma FanOutKeepsHand(s: Consumers)
    requires HandInv(s) && Enabled(s, FanOut) && Managers.Inv(s.system)
    ensures HandInv(Apply(s, FanOut))
  {
    var t := Apply(s, FanOut);
    FanOutEffect(s);
    var q := s.w.worker.queue;
    Theorems.DeliveredCount(s.system, q);
    Theorems.ListenersExist(s.system, q);
    Theorems.FewerElements(Theorems.Listeners(s.system, q), {});
    hide Theorems.Listened;
    hide Apply, Enabled, Connector.Apply, Connector.Enabled, IsStranded, Managers.Inv, Managers.Delivered, Theorems.Listeners;
    assert Carries(s.w.worker, q);
  }

  /** What a pop does. */
  lemma PopEffect(s: Consumers)
    requires Enabled(s, Work(Connector.Pop))
    ensures Connector.Ready(s.w.snapshot, s.w.lists).Some?
    ensures var q := Connector.Ready(s.w.snapshot, s.w.lists).value; var t := Apply(s, Work(Connector.Pop));
      && Connector.At(s.w.lists, q) != [] && t.w.tech == s.w.tech && s.w.worker == Connector.AtPop
      && t.w.worker == Connector.Popped(q, Connector.Right(Connector.At(s.w.lists, q)))
      && t == s.(w := t.w, overlapped := StopUnderWay(s, q))
      && t.w.popped == if q == s.w.tech then s.w.popped else Add(s.w.popped, q, Connector.Right(Connector.At(s.w.lists, q)))
  {
    Connector.ReadyIsNonEmpty(s.w.snapshot, s.w.lists);
    hide Connector.Ready, StopUnderWay;
  }

  lemma {:induction false} RunHand(tech: Channel, lists: Connector.Lists, es: seq<Event>)
    requires Run(tech, lists, es).Some?
    ensures HandInv(Run(tech, lists, es).value)
  {
    if es == [] {
      assert HandInv(Init(tech, lists));
    } else {
      hide Apply, Enabled, HandInv, Init;
      var init, e := es[..|es| - 1], es[|es| - 1];
      RunHand(tech, lists, init);
      var s := Run(tech, lists, init).value;
      match e {
        case Manage(a) => ManageKeepsHand(s, a);
        case Work(l) =>
          if l == Connector.Pop {
            PopKeepsHand(tech, lists, init);
          } else {
            WorkKeepsHand(s, l);
          }
        case FanOut =>
          RunsArePartRuns(tech, lists, init);
          ManagerSteps.RunInv(ManagerPart(init));
          FanOutKeepsHand(s);
      }
    }
  }

  lemma PopKeepsHand(tech: Channel, lists: Connector.Lists, es: seq<Event>)
    requires Run(tech, lists, es).Some? && HandInv(Run(tech, lists, es).value)
    requires Enabled(Run(tech, lists, es).value, Work(Connector.Pop))
    ensures HandInv(Apply(Run(tech, lists, es).value, Work(Connector.Pop)))
  {
    var s := Run(tech, lists, es).value;
    PopEffect(s);
    WorkEffect(s, Connector.Pop);
    var q := Connector.Ready(s.w.snapshot, s.w.lists).value;
    if q != s.w.tech {
      PopIsCovered(tech, lists, es, q);
    }
    hide Run, Apply, Enabled, Connector.Apply, Connector.Enabled, Connector.Ready, StopUnderWay, Theorems.Listened, IsStranded;
  }

  // ---- conservation ----

  /** How many of the messages x popped from q can be found, wherever they are. */
  function Found(s: Consumers, q: Channel, x: Connector.Message): nat {
    Dispatched(s, q, x) + Count(s.stolen, q, x) + One(InHand(s.w.worker, q, x))
  }

  ghost predicate AllFound(s: Consumers) {
    forall q, x {:trigger Found(s, q, x)} :: q != s.w.tech ==> Count(s.w.popped, q, x) == Found(s, q, x)
  }

  lemma HandEmptied(s: Consumers, q: Channel, x: Connector.Message)
    requires s.w.worker.Delivering?
    ensures InHand(s.w.worker, q, x) <==> q == s.w.worker.queue && x == s.w.worker.message
    ensures !InHand(Connector.AtLoop, q, x)
  {
  }

  /** The four lists of dispatched messages, of which a fan-out extends exactly one. */
  function Dispatched(s: Consumers, q: Channel, x: Connector.Message): nat {
    Count(s.reached, q, x) + Count(s.stopped, q, x) + Count(s.stranded, q, x) + Count(s.vanished, q, x)
  }

  lemma FanOutExtendsOne(s: Consumers, q: Channel, x: Connector.Message)
    requires Enabled(s, FanOut) && s.w.worker.Delivering?
    ensures Dispatched(Apply(s, FanOut), q, x)
      == Dispatched(s, q, x) + One(q == s.w.worker.queue && x == s.w.worker.message)
  {
    FanOutEffect(s);
    var c, y := s.w.worker.queue, s.w.worker.message;
    var reaches := Managers.Delivered(s.system, Managers.Transaction, c) != [];
    hide Apply, Enabled, Connector.Apply, Connector.Enabled, Managers.Delivered, IsStranded, Count, Add, One;
    if reaches {
      AddedOne(s.reached, c, y, q, x);
    } else if s.overlapped {
      AddedOne(s.stopped, c, y, q, x);
    } else if IsStranded(s.system, c) {
      AddedOne(s.stranded, c, y, q, x);
    } else {
      AddedOne(s.vanished, c, y, q, x);
    }
  }

  lemma FanOutMovesOne(s: Consumers, q: Channel, x: Connector.Message)
    requires Enabled(s, FanOut)
    ensures Found(Apply(s, FanOut), q, x) == Found(s, q, x)
  {
    FanOutEffect(s);
    var t := Apply(s, FanOut);
    assert t.stolen == s.stolen && t.w.worker == Connector.AtLoop;
    HandEmptied(s, q, x);
    hide Apply, Enabled, Count, InHand;
    FanOutExtendsOne(s, q, x);
  }

  lemma StealMovesOne(s: Consumers, c: Channel, q: Channel, x: Connector.Message)
    requires Enabled(s, Work(Connector.Steal(c)))
    ensures var t := Apply(s, Work(Connector.Steal(c)));
      && t.w.tech == s.w.tech
      && Found(t, q, x) - Count(t.w.popped, q, x) == Found(s, q, x) - Count(s.w.popped, q, x)
  {
    var t := Apply(s, Work(Connector.Steal(c)));
    WorkEffect(s, Connector.Steal(c));
    assert Connector.At(s.w.lists, c) != [] && c != s.w.tech;
    var y := Connector.Right(Connector.At(s.w.lists, c));
    assert t.stolen == Add(s.stolen, c, y) && t.w.popped == Add(s.w.popped, c, y) && t.w.worker == s.w.worker;
    hide Apply, Enabled, Connector.Apply, Connector.Enabled, Count, Add;
    AddedOne(s.stolen, c, y, q, x);
    AddedOne(s.w.popped, c, y, q, x);
  }

  lemma PopMovesOne(s: Consumers, q: Channel, x: Connector.Message)
    requires Enabled(s, Work(Connector.Pop)) && q != s.w.tech
    ensures var t := Apply(s, Work(Connector.Pop));
      && t.w.tech == s.w.tech
      && Found(t, q, x) - Count(t.w.popped, q, x) == Found(s, q, x) - Count(s.w.popped, q, x)
  {
    PopEffect(s);
    var c := Connector.Ready(s.w.snapshot, s.w.lists).value;
    var y := Connector.Right(Connector.At(s.w.lists, c));
    hide Apply, Enabled, Connector.Apply, Connector.Enabled, Connector.Ready, Count, Add, StopUnderWay;
    AddedOne(s.w.popped, c, y, q, x);
  }

  lemma WorkMovesNone(s: Consumers, l: Connector.Label, q: Channel, x: Connector.Message)
    requires Enabled(s, Work(l)) && l != Connector.Pop && !l.Steal? && q != s.w.tech
    ensures var t := Apply(s, Work(l));
      t.w.tech == s.w.tech && Found(t, q, x) == Found(s, q, x) && Count(t.w.popped, q, x) == Count(s.w.popped, q, x)
  {
    WorkEffect(s, l);
    Connector.StepKeepsTech(s.w, l);
    HandAndPoppedStay(s.w, l, q, x);
    hide Apply, Enabled, Connector.Apply, Connector.Enabled, Count, InHand;
  }

  lemma StepFinds(s: Consumers, e: Event, q: Channel, x: Connector.Message)
    requires AllFound(s) && Enabled(s, e) && q != Apply(s, e).w.tech
    ensures Count(Apply(s, e).w.popped, q, x) == Found(Apply(s, e), q, x)
  {
    hide Apply, Enabled, Count, Found, Connector.Apply, Connector.Enabled;
    match e {
      case Manage(a) =>
        ManageEffect(s, a);
        assert Count(s.w.popped, q, x) == Found(s, q, x);
        assert Found(Apply(s, e), q, x) == Found(s, q, x) by { SameBooksFound(s, Apply(s, e), q, x); }
      case Work(l) =>
        WorkEffect(s, l);
        Connector.StepKeepsTech(s.w, l);
        assert Count(s.w.popped, q, x) == Found(s, q, x);
        if l == Connector.Pop {
          PopMovesOne(s, q, x);
        } else if l.Steal? {
          StealMovesOne(s, l.queue, q, x);
        } else {
          WorkMovesNone(s, l, q, x);
        }
      case FanOut =>
        FanOutEffect(s);
        assert Count(s.w.popped, q, x) == Found(s, q, x);
        FanOutMovesOne(s, q, x);
    }
  }

  lemma SameBooksFound(s: Consumers, t: Consumers, q: Channel, x: Connector.Message)
    requires t == s.(system := t.system, overlapped := t.overlapped)
    ensures Found(t, q, x) == Found(s, q, x)
  {
  }

  lemma {:induction false} RunFinds(tech: Channel, lists: Connector.Lists, es: seq<Event>)
    requires Run(tech, lists, es).Some?
    ensures AllFound(Run(tech, lists, es).value)
  {
    if es == [] {
      assert AllFound(Init(tech, lists));
    } else {
      hide Init;
      var init, e := es[..|es| - 1], es[|es| - 1];
      RunFinds(tech, lists, init);
      var s := Run(tech, lists, init).value;
      hide Apply, Enabled, Count, Found;
      forall q, x | q != Apply(s, e).w.tech ensures Count(Apply(s, e).w.popped, q, x) == Found(Apply(s, e), q, x) {
        StepFinds(s, e, q, x);
      }
    }
  }

  /** What has left queue q: to some handler, to none for either reason, to other consumers, or into the worker's hands. */
  function Left(s: Consumers, q: Channel): multiset<Connector.Message> {
    multiset(Connector.At(s.reached, q)) + multiset(Connector.At(s.stopped, q)) + multiset(Connector.At(s.stranded, q))
      + multiset(Connector.At(s.stolen, q)) + if Carries(s.w.worker, q) then multiset{s.w.worker.message} else multiset{}
  }

  lemma FoundIsLeft(s: Consumers, q: Channel)
    requires AllFound(s) && q != s.w.tech && Connector.At(s.vanished, q) == []
    ensures multiset(Connector.At(s.w.popped, q)) == Left(s, q)
  {
    forall x ensures multiset(Connector.At(s.w.popped, q))[x] == Left(s, q)[x] {
      assert Count(s.w.popped, q, x) == Found(s, q, x);
      hide AllFound, Connector.At;
    }
    hide *;
  }

  /**
   Conservation for a whole deployment: what was sent to a queue is still queued, or went to a handler of some manager, was
   taken by another consumer, is in the worker's hands, or found no handler. It found none because a stop of the queue was
   under way at its pop, because its last handler went away between pop and dispatch, or because an interface that
   was listening to the queue had been destroyed; no message finds none for any other reason.
   */
  lemma Conservation(tech: Channel, lists: Connector.Lists, es: seq<Event>, q: Channel)
    requires Run(tech, lists, es).Some? && q != tech
    ensures var s := Run(tech, lists, es).value;
      && Connector.At(s.vanished, q) == []
      && multiset(Connector.At(s.w.sent, q)) == multiset(Connector.At(s.w.lists, q)) + Left(s, q)
  {
    var s := Run(tech, lists, es).value;
    RunsArePartRuns(tech, lists, es);
    RunHand(tech, lists, es);
    RunFinds(tech, lists, es);
    ConnectorTheorems.TechIsFixed(Connector.Init(tech, lists), WorkerPart(es));
    ConnectorTheorems.QueueIsFifo(tech, lists, WorkerPart(es), q);
    assert Connector.At(s.vanished, q) == [];
    assert s.w.tech == tech;
    hide Run, Connector.Run, Connector.Continue, HandInv, Left, Connector.At, Connector.Reverse, AllFound;
    FoundIsLeft(s, q);
    QueueConsumerTheorems.ReverseIsPermutation(Connector.At(s.w.lists, q));
  }

  /**
   Where a dispatched message goes, in every run: to each handler that an existing manager has subscribed to its queue, once,
   and to nobody exactly when no existing manager holds the queue.
   */
  lemma FanOutIsExact(tech: Channel, lists: Connector.Lists, es: seq<Event>)
    requires Run(tech, lists, es).Some? && Enabled(Run(tech, lists, es).value, FanOut)
    ensures var s := Run(tech, lists, es).value; var q, m := s.w.worker.queue, s.w.worker.message;
      var ds := Managers.Delivered(s.system, Managers.Transaction, q);
      && NoDup(ds) && (forall d :: d in ds <==> Theorems.Subscribed(s.system, Managers.Transaction, q, d))
      && (Apply(s, FanOut).reached == Add(s.reached, q, m) <==> Theorems.Listened(s.system, q))
  {
    var s := Run(tech, lists, es).value;
    RunsArePartRuns(tech, lists, es);
    ManagerSteps.RunInv(ManagerPart(es));
    hide Run, Connector.Run, Managers.Run;
    FanOutEffect(s);
    var q, m := s.w.worker.queue, s.w.worker.message;
    Theorems.DeliveryInState(s.system, Managers.Transaction, q);
    Theorems.DeliveredCount(s.system, q);
    Theorems.ListenersExist(s.system, q);
    Theorems.FewerElements(Theorems.Listeners(s.system, q), {});
    LostMessages.AddIsVisible(s.reached, q, m);
    hide Apply, Enabled, Connector.Apply, Managers.Inv, Managers.Delivered, Add, Theorems.Listeners, Theorems.Subscribed,
      Managers.Registered, Theorems.Sorted;
  }
}
