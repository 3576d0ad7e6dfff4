/**
 Managers, broker and connector together: when the connector has carried out the calls that the broker has made, in their
 order, what is subscribed at the server and in the connector's list is what the managers hold.
 */
module Layers {
  import opened Common
  import opened Subscriptions
  import Handshake
  import HandshakeTheorems
  import QueueWorker
  import SubscriptionSteps
  import SubscriptionTheorems

  /** The subscribe and unsubscribe calls among the broker's calls, and the listen and stop_listening calls. */
  function EventCalls(trace: seq<Call>): seq<Handshake.Op> {
    if trace == [] then []
    else
      EventCalls(trace[..|trace| - 1]) +
      match trace[|trace| - 1]
      case Open(Event, c) => [Handshake.Subscribe(c)]
      case Close(Event, c) => [Handshake.Unsubscribe(c)]
      case _ => []
  }

  function QueueCalls(trace: seq<Call>): seq<QueueWorker.Op> {
    if trace == [] then []
    else
      QueueCalls(trace[..|trace| - 1]) +
      match trace[|trace| - 1]
      case Open(Transaction, c) => [QueueWorker.Listen(c)]
      case Close(Transaction, c) => [QueueWorker.StopListening(c)]
      case _ => []
  }

  /** No manager uses the technical channel: its name is a fresh UUID. */
  ghost predicate Avoids(trace: seq<Call>, tech: Channel) {
    forall i :: 0 <= i < |trace| ==> trace[i].channel != tech
  }

  // ---- events ----

  /** The calls of a run of the connector, in the order in which they took the lock. */
  function Entered(ls: seq<Handshake.Label>): seq<Handshake.Op> {
    if ls == [] then []
    else Entered(ls[..|ls| - 1]) + if ls[|ls| - 1].Enter? then [ls[|ls| - 1].op] else []
  }

  function SetAfter(ops: seq<Handshake.Op>, tech: Channel): set<Channel> {
    if ops == [] then {tech} else Handshake.Do(ops[|ops| - 1], SetAfter(ops[..|ops| - 1], tech))
  }

  lemma SetAfterAppends(ops: seq<Handshake.Op>, op: Handshake.Op, tech: Channel)
    ensures SetAfter(ops + [op], tech) == Handshake.Do(op, SetAfter(ops, tech))
  {
    assert (ops + [op])[..|ops|] == ops;
  }

  lemma OwnerOnlyStarts(s: Handshake.State, l: Handshake.Label)
    requires Handshake.Enabled(s, l)
    ensures Handshake.Apply(s, l).owner == Handshake.Starting <==> s.owner == Handshake.Starting && l != Handshake.Start
    ensures l == Handshake.Start ==> s.owner == Handshake.Starting
    ensures l.Enter? ==> s.owner != Handshake.Starting
  {
    hide Handshake.Do;
  }

  /** What the calls add up to is the set of the step system's history. */
  lemma {:induction false} NetIsSetAfter(tech: Channel, ls: seq<Handshake.Label>)
    requires Handshake.Run(tech, ls).Some?
    ensures if Handshake.Run(tech, ls).value.owner == Handshake.Starting then Entered(ls) == []
            else HandshakeTheorems.Net(tech, ls) == SetAfter(Entered(ls), tech)
  {
    if ls != [] {
      var init, l := ls[..|ls| - 1], ls[|ls| - 1];
      NetIsSetAfter(tech, init);
      OwnerOnlyStarts(Handshake.Run(tech, init).value, l);
      hide Handshake.Apply, Handshake.Enabled, Handshake.Do;
      if l.Enter? {
        SetAfterAppends(Entered(init), l.op, tech);
      } else {
        assert Entered(init) + [] == Entered(init);
      }
    }
  }

  lemma {:induction false} SetAfterTrace(trace: seq<Call>, tech: Channel)
    requires Avoids(trace, tech)
    ensures SetAfter(EventCalls(trace), tech) == {tech} + Opened(trace, Event)
  {
    if trace != [] {
      var init := trace[..|trace| - 1];
      SetAfterTrace(init, tech);
      assert trace[|trace| - 1].channel != tech;
      match trace[|trace| - 1] {
        case Open(Event, c) => SetAfterAppends(EventCalls(init), Handshake.Subscribe(c), tech);
        case Close(Event, c) => SetAfterAppends(EventCalls(init), Handshake.Unsubscribe(c), tech);
        case _ => assert EventCalls(init) + [] == EventCalls(init);
      }
    }
  }

  // A holder is a manager that holds the channel, or one that was destroyed while it held it.

  /**
   Events: when the connector's subscribe and unsubscribe calls are the broker's and none is in progress, the server's
   subscriptions are the technical channel and exactly the channels that some event manager holds.
   */
  lemma ServerFollowsManagers(run: seq<Action>, tech: Channel, ls: seq<Handshake.Label>, c: Channel)
    requires Run(run).Some? && Avoids(Run(run).value.broker.trace, tech)
    requires Handshake.Run(tech, ls).Some? && Entered(ls) == EventCalls(Run(run).value.broker.trace)
    requires var t := Handshake.Run(tech, ls).value; t.owner != Handshake.Starting && t.caller == Handshake.Idle
    ensures c in Handshake.Run(tech, ls).value.live
      <==> c == tech || exists i :: i in SubscriptionTheorems.HolderSet(Run(run).value.managers, Event, c)
  {
    SubscriptionTheorems.ThreeLayersAgree(run, Event, c);
    SetAfterTrace(Run(run).value.broker.trace, tech);
    NetIsSetAfter(tech, ls);
    HandshakeTheorems.LiveIsNetOfCalls(tech, ls);
    hide *;
  }

  // ---- queues ----

  function Begun(ls: seq<QueueWorker.Label>): seq<QueueWorker.Op> {
    if ls == [] then []
    else Begun(ls[..|ls| - 1]) + if ls[|ls| - 1].Begin? then [ls[|ls| - 1].op] else []
  }

  function ListAfter(ops: seq<QueueWorker.Op>, tech: Channel): seq<Channel> {
    if ops == [] then [tech] else QueueWorker.Do(ops[|ops| - 1], ListAfter(ops[..|ops| - 1], tech))
  }

  lemma ListAfterAppends(ops: seq<QueueWorker.Op>, op: QueueWorker.Op, tech: Channel)
    ensures ListAfter(ops + [op], tech) == QueueWorker.Do(op, ListAfter(ops, tech))
  {
    assert (ops + [op])[..|ops|] == ops;
  }

  /** The list once the call in progress has made its change. */
  function Settled(s: QueueWorker.State): seq<Channel> {
    if s.updater.Begun? then QueueWorker.Do(s.updater.op, s.subs) else s.subs
  }

  lemma UpdaterSettles(s: QueueWorker.State, l: QueueWorker.Label)
    requires QueueWorker.Enabled(s, l) && QueueWorker.UpdaterLabel(l)
    ensures Settled(QueueWorker.Apply(s, l)) == if l.Begin? then QueueWorker.Do(l.op, Settled(s)) else Settled(s)
  {
    hide QueueWorker.Do, QueueWorker.Ready, QueueWorker.Take;
  }

  lemma OthersSettle(s: QueueWorker.State, l: QueueWorker.Label)
    requires QueueWorker.Enabled(s, l) && !QueueWorker.UpdaterLabel(l)
    ensures var t := QueueWorker.Apply(s, l); t.subs == s.subs && t.updater == s.updater
  {
    hide QueueWorker.Do, QueueWorker.Ready, QueueWorker.At;
  }

  lemma {:induction false} ListIsListAfter(tech: Channel, lists: QueueWorker.Lists, ls: seq<QueueWorker.Label>)
    requires QueueWorker.Run(tech, lists, ls).Some?
    ensures Settled(QueueWorker.Run(tech, lists, ls).value) == ListAfter(Begun(ls), tech)
  {
    if ls != [] {
      var init, l := ls[..|ls| - 1], ls[|ls| - 1];
      ListIsListAfter(tech, lists, init);
      hide QueueWorker.Apply, QueueWorker.Enabled, QueueWorker.Do;
      if QueueWorker.UpdaterLabel(l) {
        UpdaterSettles(QueueWorker.Run(tech, lists, init).value, l);
      } else {
        OthersSettle(QueueWorker.Run(tech, lists, init).value, l);
      }
      if l.Begin? {
        ListAfterAppends(Begun(init), l.op, tech);
      } else {
        assert Begun(init) + [] == Begun(init);
      }
    }
  }

  lemma {:induction false} WithoutKeepsNoDup(s: seq<Channel>, c: Channel)
    requires NoDup(s)
    ensures NoDup(QueueWorker.Without(s, c))
  {
    if s != [] {
      WithoutKeepsNoDup(s[1..], c);
      QueueWorker.WithoutMembers(s[1..], c);
      assert s[0] !in s[1..];
      FirstKeepsNoDup(s[0], QueueWorker.Without(s[1..], c));
    }
  }

  lemma FirstKeepsNoDup(c: Channel, s: seq<Channel>)
    requires NoDup(s) && c !in s
    ensures NoDup([c] + s)
  {
  }

  /** One call on a list that has no queue twice. */
  lemma DoKeepsNoDup(op: QueueWorker.Op, s: seq<Channel>)
    requires NoDup(s) && (op.Listen? ==> op.queue !in s)
    ensures NoDup(QueueWorker.Do(op, s))
    ensures forall c :: c in QueueWorker.Do(op, s) <==> if c == op.queue then op.Listen? else c in s
  {
    if op.StopListening? {
      WithoutKeepsNoDup(s, op.queue);
      QueueWorker.WithoutMembers(s, op.queue);
    }
  }

  /** The broker opens no queue twice, so the list has none twice. */
  lemma {:induction false} ListAfterTrace(trace: seq<Call>, tech: Channel)
    requires Avoids(trace, tech) && WellPaired(trace)
    ensures NoDup(ListAfter(QueueCalls(trace), tech))
    ensures forall c :: c in ListAfter(QueueCalls(trace), tech) <==> c == tech || c in Opened(trace, Transaction)
  {
    if trace != [] {
      var init, last := trace[..|trace| - 1], trace[|trace| - 1];
      ListAfterTrace(init, tech);
      assert last.channel != tech;
      hide QueueWorker.Do;
      if last.kind == Transaction {
        var op := if last.Open? then QueueWorker.Listen(last.channel) else QueueWorker.StopListening(last.channel);
        assert QueueCalls(trace) == QueueCalls(init) + [op];
        ListAfterAppends(QueueCalls(init), op, tech);
        DoKeepsNoDup(op, ListAfter(QueueCalls(init), tech));
      } else {
        assert QueueCalls(trace) == QueueCalls(init) + [] == QueueCalls(init);
      }
    }
  }

  /**
   Queues: when the connector's listen and stop_listening calls are the broker's and none is in progress, its list has
   the technical channel and exactly the queues that some transaction manager holds, none of them twice.
   */
  lemma ListFollowsManagers(
      run: seq<Action>, tech: Channel, lists: QueueWorker.Lists, ls: seq<QueueWorker.Label>, c: Channel)
    requires Run(run).Some? && Avoids(Run(run).value.broker.trace, tech)
    requires QueueWorker.Run(tech, lists, ls).Some? && Begun(ls) == QueueCalls(Run(run).value.broker.trace)
    requires QueueWorker.Run(tech, lists, ls).value.updater == QueueWorker.NoUpdate
    ensures var subs := QueueWorker.Run(tech, lists, ls).value.subs;
      && NoDup(subs)
      && (c in subs <==> c == tech || exists i :: i in SubscriptionTheorems.HolderSet(Run(run).value.managers, Transaction, c))
  {
    SubscriptionTheorems.ThreeLayersAgree(run, Transaction, c);
    ListAfterTrace(Run(run).value.broker.trace, tech);
    ListIsListAfter(tech, lists, ls);
    assert Settled(QueueWorker.Run(tech, lists, ls).value) == QueueWorker.Run(tech, lists, ls).value.subs;
    hide *;
  }
}
