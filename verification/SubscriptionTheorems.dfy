/** What holds after any run of actions on any number of managers that share a broker. */
module SubscriptionTheorems {
  import opened Common
  import opened Subscriptions
  import opened SubscriptionSteps

  // ---- the three layers agree ----

  ghost function HolderSet(managers: seq<Manager>, kind: Kind, c: Channel): set<nat> {
    set i: nat | i < |managers| && managers[i].kind == kind && c in managers[i].subs
  }

  lemma OneElementMore(a: set<nat>, b: set<nat>, n: nat, more: bool)
    requires n !in a && forall i: nat :: i in b <==> i in a || (more && i == n)
    ensures |b| == |a| + One(more)
  {
    assert b == a + if more then {n} else {};
  }

  lemma LastHolder(before: seq<Manager>, last: Manager, kind: Kind, c: Channel)
    ensures |HolderSet(before + [last], kind, c)| == |HolderSet(before, kind, c)| + One(last.kind == kind && c in last.subs)
  {
    var n, more := |before|, last.kind == kind && c in last.subs;
    forall i: nat ensures i in HolderSet(before + [last], kind, c) <==> i in HolderSet(before, kind, c) || (more && i == n) {
      if i < n {
        assert (before + [last])[i] == before[i];
      }
    }
    assert n !in HolderSet(before, kind, c);
    hide HolderSet;
    OneElementMore(HolderSet(before, kind, c), HolderSet(before + [last], kind, c), n, more);
  }

  lemma {:induction false} HoldersIsCardinality(managers: seq<Manager>, kind: Kind, c: Channel)
    ensures Holders(managers, kind, c) == |HolderSet(managers, kind, c)|
  {
    if managers == [] {
      assert HolderSet(managers, kind, c) == {};
    } else {
      var n := |managers| - 1;
      HoldersIsCardinality(managers[..n], kind, c);
      LastHolder(managers[..n], managers[n], kind, c);
      assert managers == managers[..n] + [managers[n]];
      hide HolderSet;
    }
  }

  /**
   Three-layer agreement, in every run, with or without rejected calls: the broker's count for a channel is the number
   of managers that hold it or were destroyed holding it; there is a count exactly for the channels held; the connector's live set, which is what
   the calls that reached it leave open, is the same set; those calls open nothing twice and close nothing that is not
   open; and no size_t ever wrapped around.
   */
  lemma ThreeLayersAgree(run: seq<Action>, kind: Kind, c: Channel)
    requires Run(run).Some?
    ensures var s := Run(run).value;
      && Get(CountsOf(s.broker, kind), c) == |HolderSet(s.managers, kind, c)|
      && (c in CountsOf(s.broker, kind) <==> exists i :: i in HolderSet(s.managers, kind, c))
      && (c in Opened(s.broker.trace, kind) <==> exists i :: i in HolderSet(s.managers, kind, c))
      && WellPaired(s.broker.trace) && !s.broker.wrapped
  {
    RunInv(run);
    var s := Run(run).value;
    hide Run;
    assert Agrees(s.broker, s.managers, kind, c);
    HoldersIsCardinality(s.managers, kind, c);
    assert |HolderSet(s.managers, kind, c)| > 0 ==> exists i :: i in HolderSet(s.managers, kind, c);
  }

  /** The decrement of an unsubscribe or stop_listening finds a count of at least one, in every reachable state. */
  lemma ReleaseNeverUnderflows(run: seq<Action>, i: nat, c: Channel, h: Handler)
    requires Run(run).Some? && Enabled(Run(run).value, Remove(i, c, h))
    requires Empties(Run(run).value.managers[i].subs, c, h)
    ensures var s := Run(run).value; Get(CountsOf(s.broker, s.managers[i].kind), c) >= 1
  {
    RunInv(run);
    var s := Run(run).value;
    hide Run;
    assert Agrees(s.broker, s.managers, s.managers[i].kind, c);
    HolderCounts(s.managers, i, s.managers[i].kind, c);
    hide *;
  }

  lemma HolderCounts(managers: seq<Manager>, i: nat, kind: Kind, c: Channel)
    requires i < |managers| && managers[i].kind == kind && c in managers[i].subs
    ensures Holders(managers, kind, c) >= 1
  {
    HoldersAfterUpdate(managers, i, managers[i].(subs := map[]), kind, c);
  }

  // ---- rejected calls ----

  /**
   A listen is rejected exactly when the queue is new to the manager and some manager, or one destroyed while it held the
   queue, already holds it. The exception
   leaves the manager's entry and the increment behind, and the connector is not called.
   */
  lemma RejectedListenLeavesEntry(s: System, i: nat, c: Channel, h: Handler)
    requires Inv(s) && Enabled(s, Add(i, c, h))
    ensures OutcomeOf(s, Add(i, c, h)) == ListenRejected
      <==> s.managers[i].kind == Transaction && c !in s.managers[i].subs && HolderSet(s.managers, Transaction, c) != {}
    ensures OutcomeOf(s, Add(i, c, h)) == ListenRejected ==>
      var t := Apply(s, Add(i, c, h));
      && t.managers[i].subs == s.managers[i].subs[c := [h]]
      && Get(t.broker.queues, c) == Get(s.broker.queues, c) + 1
      && t.broker.trace == s.broker.trace
  {
    assert Agrees(s.broker, s.managers, Transaction, c);
    HoldersIsCardinality(s.managers, Transaction, c);
    HoldersBound(s.managers, Transaction, c);
    if s.managers[i].kind == Transaction && c !in s.managers[i].subs {
      HolderIsMissing(s.managers, i, Transaction, c);
      NoWrap(Get(s.broker.queues, c));
      assert [] + [h] == [h];
    }
    assert HolderSet(s.managers, Transaction, c) == {} <==> |HolderSet(s.managers, Transaction, c)| == 0;
  }

  lemma HolderIsMissing(managers: seq<Manager>, i: nat, kind: Kind, c: Channel)
    requires i < |managers| && c !in managers[i].subs
    ensures Holders(managers, kind, c) < |managers|
  {
    var m := managers[i].(kind := kind, subs := managers[i].subs[c := []]);
    HoldersAfterUpdate(managers, i, m, kind, c);
    HoldersBound(managers[i := m], kind, c);
  }

  // ---- the index refines its history ----

  ghost predicate Holds(s: System, i: nat, c: Channel, h: Handler) {
    i < |s.managers| && h in ListAt(s.managers[i].subs, c)
  }

  /** Whether the last action that affected handler h on channel c of manager i was an add. */
  ghost predicate LastWasAdd(run: seq<Action>, i: nat, c: Channel, h: Handler)
    requires Run(run).Some?
  {
    if run == [] then false
    else
      var init, a := run[..|run| - 1], run[|run| - 1];
      if a == Add(i, c, h) && OutcomeOf(Run(init).value, a) != RepeatRejected then true
      else if a == Remove(i, c, h) || (a.RemoveAll? && a.manager == i && a.handler == h) then false
      else LastWasAdd(init, i, c, h)
  }

  lemma AddEffect(s: System, a: Action, i: nat, c: Channel, h: Handler)
    requires Inv(s) && Enabled(s, a) && a.Add?
    ensures Holds(Apply(s, a), i, c, h) <==> Holds(s, i, c, h) || (a == Add(i, c, h) && OutcomeOf(s, a) != RepeatRejected)
  {
  }

  lemma RemoveEffect(s: System, a: Action, i: nat, c: Channel, h: Handler)
    requires Inv(s) && Enabled(s, a) && a.Remove?
    ensures Holds(Apply(s, a), i, c, h) <==> Holds(s, i, c, h) && a != Remove(i, c, h)
  {
    if a.manager == i && a.channel == c && c in s.managers[i].subs {
      assert Shape(s.managers[i]);
      DropMembers(s.managers[i].subs[c], a.handler);
    }
    hide Drop, Inv;
  }

  lemma {:induction false} DropTwice(hs: seq<Handler>, h: Handler)
    ensures Drop(Drop(hs, h), h) == Drop(hs, h)
  {
    if hs != [] {
      var rest := Drop(hs[..|hs| - 1], h);
      DropTwice(hs[..|hs| - 1], h);
      if hs[|hs| - 1] != h {
        assert (rest + [hs[|hs| - 1]])[..|rest|] == rest;
      } else {
        assert rest + [] == rest;
      }
    }
  }

  lemma RemovedChannel(subs: Index, h: Handler, x: Channel, c: Channel)
    ensures if x == c
            then (c in Removed(subs, x, h) <==> c in subs && Drop(subs[c], h) != [])
                 && ListAt(Removed(subs, x, h), c) == Drop(ListAt(subs, c), h)
            else (c in Removed(subs, x, h) <==> c in subs) && ListAt(Removed(subs, x, h), c) == ListAt(subs, c)
  {
    assert Drop([], h) == [];
  }

  /** What a walk does to one channel, whatever the order and however often it comes by. */
  lemma {:induction false} WalkedChannel(subs: Index, h: Handler, order: seq<Channel>, c: Channel)
    ensures if c in order
            then (c in RemovedAll(subs, h, order) <==> c in subs && Drop(subs[c], h) != [])
                 && ListAt(RemovedAll(subs, h, order), c) == Drop(ListAt(subs, c), h)
            else (c in RemovedAll(subs, h, order) <==> c in subs) && ListAt(RemovedAll(subs, h, order), c) == ListAt(subs, c)
  {
    if order != [] {
      var init := order[..|order| - 1];
      assert order == init + [order[|order| - 1]];
      WalkedChannel(subs, h, init, c);
      RemovedChannel(RemovedAll(subs, h, init), h, order[|order| - 1], c);
      DropTwice(ListAt(subs, c), h);
      hide Drop, Removed;
    }
  }

  lemma RemoveAllEffect(s: System, a: Action, i: nat, c: Channel, h: Handler)
    requires Inv(s) && Enabled(s, a) && a.RemoveAll?
    ensures Holds(Apply(s, a), i, c, h) <==> Holds(s, i, c, h) && !(a.manager == i && a.handler == h)
  {
    var subs := s.managers[a.manager].subs;
    WalkedChannel(subs, a.handler, a.order, c);
    assert Shape(s.managers[a.manager]);
    if c in subs {
      DropMembers(subs[c], a.handler);
    }
    assert Apply(s, a).managers == s.managers[a.manager := s.managers[a.manager].(subs := RemovedAll(subs, a.handler, a.order))];
    hide Apply, Enabled, Inv, Drop, RemovedAll;
  }

  lemma AttachAndDetachEffect(s: System, a: Action, i: nat, c: Channel, h: Handler)
    requires Enabled(s, a) && (a.Attach? || a.Detach?)
    ensures Holds(Apply(s, a), i, c, h) <==> Holds(s, i, c, h)
  {
  }

  /** Handler h is in channel c's list exactly when the last action that affected the two was an add. */
  lemma {:induction false} IndexRefinesHistory(run: seq<Action>, i: nat, c: Channel, h: Handler)
    requires Run(run).Some?
    ensures Holds(Run(run).value, i, c, h) <==> LastWasAdd(run, i, c, h)
  {
    if run != [] {
      var init, a := run[..|run| - 1], run[|run| - 1];
      IndexRefinesHistory(init, i, c, h);
      RunInv(init);
      var s := Run(init).value;
      hide Inv, Apply, Enabled, OutcomeOf, Holds;
      match a {
        case Add(_, _, _) => AddEffect(s, a, i, c, h);
        case Remove(_, _, _) => RemoveEffect(s, a, i, c, h);
        case RemoveAll(_, _, _) => RemoveAllEffect(s, a, i, c, h);
        case _ => AttachAndDetachEffect(s, a, i, c, h);
      }
    }
  }

  lemma {:induction false} ContinueConcat(s: System, a: seq<Action>, b: seq<Action>)
    requires Continue(s, a).Some?
    ensures Continue(s, a + b) == Continue(Continue(s, a).value, b)
  {
    hide Apply, Enabled;
    if b == [] {
      assert a + b == a;
    } else {
      ContinueConcat(s, a, b[..|b| - 1]);
      assert (a + b)[..|a + b| - 1] == a + b[..|b| - 1];
    }
  }

  /**
   A repeated add on a transaction manager: it throws exactly when the history has left some handler on the channel, and
   then it is as if it had never been called, now and in every continuation.
   */
  lemma RepeatChangesNothing(before: seq<Action>, i: nat, c: Channel, h: Handler, after: seq<Action>)
    requires Run(before).Some? && Enabled(Run(before).value, Add(i, c, h))
    ensures OutcomeOf(Run(before).value, Add(i, c, h)) == RepeatRejected
      <==> Run(before).value.managers[i].kind == Transaction && exists g :: LastWasAdd(before, i, c, g)
    ensures OutcomeOf(Run(before).value, Add(i, c, h)) == RepeatRejected ==>
      Run(before + [Add(i, c, h)] + after) == Run(before + after)
  {
    var s, a := Run(before).value, Add(i, c, h);
    RunInv(before);
    assert Shape(s.managers[i]);
    if c in s.managers[i].subs {
      IndexRefinesHistory(before, i, c, s.managers[i].subs[c][0]);
      assert LastWasAdd(before, i, c, s.managers[i].subs[c][0]);
    }
    forall g | LastWasAdd(before, i, c, g) ensures c in s.managers[i].subs {
      IndexRefinesHistory(before, i, c, g);
    }
    if OutcomeOf(s, a) == RepeatRejected {
      assert Apply(s, a) == s;
      hide Inv, Shape, Apply, Enabled, OutcomeOf, LastWasAdd;
      OneMoreAction(Init(), before, a);
      ContinueConcat(Init(), before + [a], after);
      ContinueConcat(Init(), before, after);
    }
  }

  /** Lists are never empty and never name a handler twice; a transaction list has exactly one entry. */
  lemma ListsKeepTheirShape(run: seq<Action>, i: nat, c: Channel)
    requires Run(run).Some? && i < |Run(run).value.managers| && c in Run(run).value.managers[i].subs
    ensures var m := Run(run).value.managers[i];
      m.subs[c] != [] && NoDup(m.subs[c]) && (m.kind == Transaction ==> |m.subs[c]| == 1)
  {
    RunInv(run);
    assert Shape(Run(run).value.managers[i]);
  }

  // ---- delivery ----

  /** Handler d.handler is subscribed to channel c at manager d.manager, which exists and is of the given kind. */
  ghost predicate Subscribed(s: System, kind: Kind, c: Channel, d: Delivery) {
    && Registered(s, kind, d.manager)
    && d.handler in ListAt(s.managers[d.manager].subs, c)
  }

  lemma {:induction false} HandedAt(i: nat, hs: seq<Handler>)
    ensures |Handed(i, hs)| == |hs|
    ensures forall k :: 0 <= k < |hs| ==> Handed(i, hs)[k] == Delivery(i, hs[k])
  {
    if hs != [] {
      HandedAt(i, hs[..|hs| - 1]);
    }
  }

  /** Earlier callback first, and for one manager, earlier subscription first. */
  ghost predicate Precedes(managers: seq<Manager>, c: Channel, d: Delivery, e: Delivery) {
    || d.manager < e.manager
    || (d.manager == e.manager < |managers|
        && exists a, b :: 0 <= a < b < |ListAt(managers[d.manager].subs, c)|
             && ListAt(managers[d.manager].subs, c)[a] == d.handler && ListAt(managers[d.manager].subs, c)[b] == e.handler)
  }

  ghost predicate Sorted(managers: seq<Manager>, c: Channel, ds: seq<Delivery>) {
    forall p, q :: 0 <= p < q < |ds| ==> Precedes(managers, c, ds[p], ds[q])
  }

  ghost predicate Serves(managers: seq<Manager>, callbacks: seq<Callback>, c: Channel, d: Delivery) {
    d.manager < |managers| && d.handler in ListAt(managers[d.manager].subs, c)
    && exists j :: 0 <= j < |callbacks| && callbacks[j].manager == d.manager
  }

  lemma {:induction false} FannedMembers(managers: seq<Manager>, callbacks: seq<Callback>, c: Channel, d: Delivery)
    ensures d in Fanned(managers, callbacks, c) <==> Serves(managers, callbacks, c, d)
  {
    if callbacks != [] {
      var n := |callbacks| - 1;
      var i := callbacks[n].manager;
      FannedMembers(managers, callbacks[..n], c, d);
      if i < |managers| {
        HandedMembers(i, ListAt(managers[i].subs, c), d);
      }
      assert callbacks == callbacks[..n] + [callbacks[n]];
      assert Serves(managers, callbacks, c, d)
        <==> Serves(managers, callbacks[..n], c, d) || (d.manager == i < |managers| && d.handler in ListAt(managers[i].subs, c));
      hide Serves, Handed;
    }
  }

  lemma HandedMembers(i: nat, hs: seq<Handler>, d: Delivery)
    ensures d in Handed(i, hs) <==> d.manager == i && d.handler in hs
  {
    HandedAt(i, hs);
    if d.manager == i && d.handler in hs {
      var k :| 0 <= k < |hs| && hs[k] == d.handler;
      assert Handed(i, hs)[k] == d;
    }
  }

  lemma HandedIsSorted(managers: seq<Manager>, i: nat, c: Channel)
    requires i < |managers|
    ensures Sorted(managers, c, Handed(i, ListAt(managers[i].subs, c)))
  {
    HandedAt(i, ListAt(managers[i].subs, c));
  }

  lemma {:induction false} FannedIsSorted(managers: seq<Manager>, callbacks: seq<Callback>, c: Channel)
    requires InOrder(callbacks)
    ensures Sorted(managers, c, Fanned(managers, callbacks, c))
  {
    if callbacks != [] {
      var n := |callbacks| - 1;
      var i := callbacks[n].manager;
      FannedIsSorted(managers, callbacks[..n], c);
      if i < |managers| {
        var a, b := Fanned(managers, callbacks[..n], c), Handed(i, ListAt(managers[i].subs, c));
        HandedIsSorted(managers, i, c);
        forall d | d in a ensures d.manager < i {
          FannedMembers(managers, callbacks[..n], c, d);
          var j :| 0 <= j < n && callbacks[j].manager == d.manager;
        }
        forall d | d in b ensures d.manager == i {
          HandedMembers(i, ListAt(managers[i].subs, c), d);
        }
        SortedConcat(managers, c, a, b);
      }
    }
  }

  lemma SortedConcat(managers: seq<Manager>, c: Channel, a: seq<Delivery>, b: seq<Delivery>)
    requires Sorted(managers, c, a) && Sorted(managers, c, b)
    requires forall d, e :: d in a && e in b ==> d.manager < e.manager
    ensures Sorted(managers, c, a + b)
  {
    var s := a + b;
    forall p, q | 0 <= p < q < |s| ensures Precedes(managers, c, s[p], s[q]) {
      if q < |a| {
        assert Precedes(managers, c, a[p], a[q]);
      } else if p >= |a| {
        assert Precedes(managers, c, b[p - |a|], b[q - |a|]);
      } else {
        assert s[p] in a && s[q] in b;
      }
    }
  }

  /**
   Delivery refines the subscription relation: one message on channel c calls exactly the handlers that existing managers
   have subscribed to it, each of them once, in the order in which the callbacks were registered and then in the order of subscription.
   */
  lemma DeliveryIsExact(run: seq<Action>, kind: Kind, c: Channel)
    requires Run(run).Some?
    ensures var s := Run(run).value; var ds := Delivered(s, kind, c);
      && NoDup(ds)
      && (forall d :: d in ds <==> Subscribed(s, kind, c, d))
      && Sorted(s.managers, c, ds)
  {
    RunInv(run);
    var s := Run(run).value;
    hide Run;
    DeliveryInState(s, kind, c);
  }

  lemma DeliveryInState(s: System, kind: Kind, c: Channel)
    requires Inv(s)
    ensures var ds := Delivered(s, kind, c);
      && NoDup(ds)
      && (forall d :: d in ds <==> Subscribed(s, kind, c, d))
      && Sorted(s.managers, c, ds)
  {
    var ds := Delivered(s, kind, c);
    assert CallbacksOk(s, kind);
    FannedIsSorted(s.managers, Callbacks(s, kind), c);
    forall p, q | 0 <= p < q < |ds| ensures ds[p] != ds[q] {
      assert Precedes(s.managers, c, ds[p], ds[q]);
      if ds[p].manager == ds[q].manager {
        assert Shape(s.managers[ds[p].manager]);
      }
    }
    forall d ensures d in ds <==> Subscribed(s, kind, c, d) {
      FannedMembers(s.managers, Callbacks(s, kind), c, d);
      ServedIsSubscribed(s, kind, c, d);
    }
  }

  lemma ServedIsSubscribed(s: System, kind: Kind, c: Channel, d: Delivery)
    requires Inv(s)
    ensures Serves(s.managers, Callbacks(s, kind), c, d) <==> Subscribed(s, kind, c, d)
  {
    var cs := Callbacks(s, kind);
    assert CallbacksOk(s, kind);
    if Serves(s.managers, cs, c, d) {
      var j :| 0 <= j < |cs| && cs[j].manager == d.manager;
      assert CallbackOf(s, kind, cs[j]);
    }
    if Subscribed(s, kind, c, d) {
      assert Shape(s.managers[d.manager]);
      var own := Callback(s.managers[d.manager].id, d.manager);
      assert CallbackOf(s, kind, own);
      var j :| 0 <= j < |cs| && cs[j] == own;
    }
  }

  // ---- interfaces destroyed while their managers hold handlers ----

  /** Two transaction interfaces, the first of them with a handler on queue q. */
  function Listening(q: Channel, a: Bytes, b: Bytes): System {
    System([Manager(Transaction, map[q := [1]], a, true), Manager(Transaction, map[], b, true)],
           Broker(map[], map[q := 1], [Open(Transaction, q)], false), [], [Callback(a, 0), Callback(b, 1)])
  }

  lemma TwoAttached(a: Bytes, b: Bytes)
    requires a != b
    ensures Continue(Init(), [Attach(Transaction, a)] + [Attach(Transaction, b)])
      == Some(System([Manager(Transaction, map[], a, true), Manager(Transaction, map[], b, true)], Init().broker, [],
                     [Callback(a, 0), Callback(b, 1)]))
  {
    var m1, m2 := Manager(Transaction, map[], a, true), Manager(Transaction, map[], b, true);
    var s1 := System([m1], Init().broker, [], [Callback(a, 0)]);
    assert [] + [m1] == [m1] && [] + [Callback(a, 0)] == [Callback(a, 0)];
    assert Apply(Init(), Attach(Transaction, a)) == s1;
    OneMoreAction(Init(), [], Attach(Transaction, a));
    assert [] + [Attach(Transaction, a)] == [Attach(Transaction, a)];
    OneMoreAction(Init(), [Attach(Transaction, a)], Attach(Transaction, b));
    assert [m1] + [m2] == [m1, m2] && [Callback(a, 0)] + [Callback(b, 1)] == [Callback(a, 0), Callback(b, 1)];
  }

  lemma FirstListens(q: Channel, a: Bytes, b: Bytes)
    requires a != b
    ensures Run([Attach(Transaction, a)] + [Attach(Transaction, b)] + [Add(0, q, 1)]) == Some(Listening(q, a, b))
    ensures Enabled(Listening(q, a, b), Add(1, q, 2)) && OutcomeOf(Listening(q, a, b), Add(1, q, 2)) == ListenRejected
  {
    var s2 := System([Manager(Transaction, map[], a, true), Manager(Transaction, map[], b, true)], Init().broker, [],
                     [Callback(a, 0), Callback(b, 1)]);
    var s3 := Listening(q, a, b);
    TwoAttached(a, b);
    assert Apply(s2, Add(0, q, 1)) == s3 by {
      assert [] + [1] == [1] && [] + [Open(Transaction, q)] == [Open(Transaction, q)];
      assert s2.managers[0 := s3.managers[0]] == s3.managers;
      assert Acquire(s2.broker, Transaction, q) == s3.broker;
    }
    OneMoreAction(Init(), [Attach(Transaction, a)] + [Attach(Transaction, b)], Add(0, q, 1));
  }

  /** The destroyed managers of a kind that held channel c to the end. */
  ghost function Stranded(managers: seq<Manager>, kind: Kind, c: Channel): set<nat> {
    set i | i in HolderSet(managers, kind, c) && !managers[i].attached
  }

  /** In a run, manager i was destroyed at a moment at which it held c. */
  ghost predicate DestroyedHolding(run: seq<Action>, i: nat, kind: Kind, c: Channel)
    requires Run(run).Some?
  {
    run != []
    && var init, a := run[..|run| - 1], run[|run| - 1];
       DestroyedHolding(init, i, kind, c) || (a == Detach(i) && i in HolderSet(Run(init).value.managers, kind, c))
  }

  lemma StepStrands(s: System, a: Action, i: nat, kind: Kind, c: Channel)
    requires Enabled(s, a)
    ensures i in Stranded(Apply(s, a).managers, kind, c)
      <==> i in Stranded(s.managers, kind, c) || (a == Detach(i) && i in HolderSet(s.managers, kind, c))
  {
    hide Added, Removed, RemovedAll, Emptied, WithoutId;
  }

  /** A channel is stranded by exactly the managers that were destroyed while they held it. */
  lemma {:induction false} StrandedIffDestroyedHolding(run: seq<Action>, i: nat, kind: Kind, c: Channel)
    requires Run(run).Some?
    ensures i in Stranded(Run(run).value.managers, kind, c) <==> DestroyedHolding(run, i, kind, c)
  {
    hide Apply, Enabled, Stranded, HolderSet;
    if run == [] {
      NothingStranded(i, kind, c);
    } else {
      StrandedIffDestroyedHolding(run[..|run| - 1], i, kind, c);
      StepStrands(Run(run[..|run| - 1]).value, run[|run| - 1], i, kind, c);
    }
  }

  lemma NothingStranded(i: nat, kind: Kind, c: Channel)
    ensures i !in Stranded(Init().managers, kind, c)
  {
  }

  lemma {:induction false} StrandedForever(s: System, after: seq<Action>, i: nat, kind: Kind, c: Channel)
    requires Continue(s, after).Some? && i in Stranded(s.managers, kind, c)
    ensures i in Stranded(Continue(s, after).value.managers, kind, c)
  {
    hide Apply, Enabled, Stranded, HolderSet;
    if after != [] {
      StrandedForever(s, after[..|after| - 1], i, kind, c);
      StepStrands(Continue(s, after[..|after| - 1]).value, after[|after| - 1], i, kind, c);
    }
  }

  /** Every listen on q of a manager that does not hold q is rejected; event channels of that name are not concerned. */
  ghost predicate RefusesNewListeners(s: System, q: Channel) {
    forall j: nat, h: Handler :: Enabled(s, Add(j, q, h)) && q !in s.managers[j].subs ==>
      OutcomeOf(s, Add(j, q, h)) == if s.managers[j].kind == Transaction then ListenRejected else Done
  }

  lemma HeldQueueRefuses(s: System, i: nat, q: Channel)
    requires Inv(s) && i in HolderSet(s.managers, Transaction, q)
    ensures RefusesNewListeners(s, q)
  {
    hide Inv, HolderSet;
    forall j: nat, h: Handler | Enabled(s, Add(j, q, h)) && q !in s.managers[j].subs
      ensures OutcomeOf(s, Add(j, q, h)) == if s.managers[j].kind == Transaction then ListenRejected else Done
    {
      RejectedListenLeavesEntry(s, j, q, h);
    }
  }

  /**
   A queue that a destroyed interface was listening to is never free again: from then on, in every continuation, the
   connector listens to it, and a listen of any manager that is new to it is rejected.
   */
  lemma StrandedQueueIsNeverFree(run: seq<Action>, after: seq<Action>, i: nat, q: Channel)
    requires Run(run + after).Some? && Run(run).Some? && DestroyedHolding(run, i, Transaction, q)
    ensures var s := Run(run + after).value;
      q in Opened(s.broker.trace, Transaction) && RefusesNewListeners(s, q)
  {
    StrandedIffDestroyedHolding(run, i, Transaction, q);
    ContinueConcat(Init(), run, after);
    StrandedForever(Run(run).value, after, i, Transaction, q);
    ThreeLayersAgree(run + after, Transaction, q);
    RunInv(run + after);
    assert i in HolderSet(Run(run + after).value.managers, Transaction, q);
    hide Run, Continue, Inv, DestroyedHolding, HolderSet, RefusesNewListeners;
    HeldQueueRefuses(Run(run + after).value, i, q);
  }

  /** And after the first of the two interfaces is destroyed. */
  function Bereft(q: Channel, a: Bytes, b: Bytes): System {
    Listening(q, a, b).(
      managers := [Manager(Transaction, map[q := [1]], a, false), Manager(Transaction, map[], b, true)],
      transactionCallbacks := [Callback(b, 1)])
  }

  lemma DetachBereaves(q: Channel, a: Bytes, b: Bytes)
    requires a != b
    ensures Enabled(Listening(q, a, b), Detach(0)) && Apply(Listening(q, a, b), Detach(0)) == Bereft(q, a, b)
  {
    var s := Listening(q, a, b);
    assert s.managers[0 := Bereft(q, a, b).managers[0]] == Bereft(q, a, b).managers;
    var none: seq<Callback> := [];
    assert s.transactionCallbacks[..1] == [Callback(a, 0)] && [Callback(a, 0)][..0] == none;
    assert WithoutId(none, a) == none;
    assert WithoutId([Callback(a, 0)], a) == none + none == none;
    assert none + [Callback(b, 1)] == [Callback(b, 1)];
  }

  lemma BereftDeliversNothing(q: Channel, a: Bytes, b: Bytes)
    ensures Delivered(Bereft(q, a, b), Transaction, q) == []
  {
    var ds := Delivered(Bereft(q, a, b), Transaction, q);
    if ds != [] {
      FannedMembers(Bereft(q, a, b).managers, [Callback(b, 1)], q, ds[0]);
    }
  }

  /** A run of that kind: nobody gets what is sent to the queue, and the next listen is rejected. */
  lemma DestroyedListenerBlocksQueue(q: Channel, a: Bytes, b: Bytes)
    requires a != b
    ensures var run := [Attach(Transaction, a)] + [Attach(Transaction, b)] + [Add(0, q, 1)] + [Detach(0)];
      && Run(run).Some? && Enabled(Run(run).value, Add(1, q, 2))
      && q in Opened(Run(run).value.broker.trace, Transaction) && Delivered(Run(run).value, Transaction, q) == []
      && OutcomeOf(Run(run).value, Add(1, q, 2)) == ListenRejected
  {
    var first := [Attach(Transaction, a)] + [Attach(Transaction, b)] + [Add(0, q, 1)];
    FirstListens(q, a, b);
    DetachBereaves(q, a, b);
    BereftDeliversNothing(q, a, b);
    OneMoreAction(Init(), first, Detach(0));
    assert OutcomeOf(Bereft(q, a, b), Add(1, q, 2)) == OutcomeOf(Listening(q, a, b), Add(1, q, 2));
    assert q in Opened([Open(Transaction, q)], Transaction);
    hide Continue, Apply, Delivered, WithoutId;
  }

  /** The connector's live channels are exactly those on which a message reaches a handler, and the stranded ones. */
  lemma LiveIffDelivered(run: seq<Action>, kind: Kind, c: Channel)
    requires Run(run).Some?
    ensures var s := Run(run).value;
      c in Opened(s.broker.trace, kind) <==> Delivered(s, kind, c) != [] || exists i :: i in Stranded(s.managers, kind, c)
  {
    ThreeLayersAgree(run, kind, c);
    DeliveryIsExact(run, kind, c);
    RunInv(run);
    var s := Run(run).value;
    hide Run, Delivered;
    if i: nat :| i in HolderSet(s.managers, kind, c) {
      if s.managers[i].attached {
        assert Shape(s.managers[i]);
        assert Subscribed(s, kind, c, Delivery(i, s.managers[i].subs[c][0]));
      } else {
        assert i in Stranded(s.managers, kind, c);
      }
    }
    if Delivered(s, kind, c) != [] {
      var d := Delivered(s, kind, c)[0];
      assert d in Delivered(s, kind, c);
      assert d.manager in HolderSet(s.managers, kind, c);
    }
  }

  // ---- one handler for each transaction channel, unless a listen was rejected ----

  lemma {:induction false} NoDupCardinality<T>(s: seq<T>)
    requires NoDup(s)
    ensures |(set x | x in s)| == |s|
  {
    if s != [] {
      var rest, last := s[..|s| - 1], s[|s| - 1];
      NoDupCardinality(rest);
      assert s == rest + [last];
      assert (set x | x in s) == (set x | x in rest) + {last};
      assert last !in rest;
    }
  }

  /** The one handler of manager i on a transaction channel. */
  ghost function OnlyDelivery(s: System, c: Channel, i: nat): Delivery
    requires ShapeInv(s) && i in HolderSet(s.managers, Transaction, c)
  {
    assert Shape(s.managers[i]);
    Delivery(i, s.managers[i].subs[c][0])
  }

  ghost function OnlyDeliveries(s: System, c: Channel, of: set<nat>): set<Delivery>
    requires ShapeInv(s) && of <= HolderSet(s.managers, Transaction, c)
  {
    set i | i in of :: OnlyDelivery(s, c, i)
  }

  lemma {:induction false} MappedCardinality(s: System, c: Channel, of: set<nat>)
    requires ShapeInv(s) && of <= HolderSet(s.managers, Transaction, c)
    ensures |OnlyDeliveries(s, c, of)| == |of|
    decreases |of|
  {
    if of != {} {
      var i :| i in of;
      MappedCardinality(s, c, of - {i});
      assert OnlyDeliveries(s, c, of) == OnlyDeliveries(s, c, of - {i}) + {OnlyDelivery(s, c, i)};
      forall j | j in of - {i} ensures OnlyDelivery(s, c, j) != OnlyDelivery(s, c, i) {
        assert OnlyDelivery(s, c, j).manager == j;
      }
    } else {
      assert OnlyDeliveries(s, c, of) == {};
    }
  }

  /** The managers on queue q that still exist. */
  ghost function Listeners(s: System, q: Channel): set<nat> {
    HolderSet(s.managers, Transaction, q) - Stranded(s.managers, Transaction, q)
  }

  lemma DeliveredIsListeners(s: System, q: Channel, d: Delivery)
    requires ShapeInv(s)
    ensures Subscribed(s, Transaction, q, d) <==> d in OnlyDeliveries(s, q, Listeners(s, q))
  {
    if Subscribed(s, Transaction, q, d) {
      assert Shape(s.managers[d.manager]);
      assert d.manager in Listeners(s, q) && d == OnlyDelivery(s, q, d.manager);
    }
    if i: nat :| i in Listeners(s, q) && d == OnlyDelivery(s, q, i) {
      assert Shape(s.managers[i]);
    }
  }

  lemma DeliveredCount(s: System, q: Channel)
    requires Inv(s)
    ensures |Delivered(s, Transaction, q)| == |Listeners(s, q)|
  {
    var ds := Delivered(s, Transaction, q);
    DeliveryInState(s, Transaction, q);
    MappedCardinality(s, q, Listeners(s, q));
    forall d ensures d in ds <==> d in OnlyDeliveries(s, q, Listeners(s, q)) {
      DeliveredIsListeners(s, q, d);
    }
    hide Delivered, Inv, OnlyDeliveries, Subscribed, Listeners;
    NoDupCardinality(ds);
    assert (set d | d in ds) == OnlyDeliveries(s, q, Listeners(s, q));
  }

  /** A request is given to as many handlers as the broker has counted listeners for its queue, stranded ones apart. */
  lemma RequestsGoToEveryListener(run: seq<Action>, q: Channel)
    requires Run(run).Some?
    ensures var s := Run(run).value;
      |Delivered(s, Transaction, q)| + |Stranded(s.managers, Transaction, q)| == Get(s.broker.queues, q)
  {
    RunInv(run);
    var s := Run(run).value;
    DeliveredCount(s, q);
    assert Agrees(s.broker, s.managers, Transaction, q);
    HoldersIsCardinality(s.managers, Transaction, q);
    hide Run, Delivered, Inv;
    assert HolderSet(s.managers, Transaction, q) == Listeners(s, q) + Stranded(s.managers, Transaction, q);
  }

  /** A listen on q of a manager that does not hold q yet. */
  ghost predicate FirstListen(s: System, a: Action, q: Channel) {
    && a.Add? && a.channel == q
    && Registered(s, Transaction, a.manager) && q !in s.managers[a.manager].subs
  }

  /** Only such a listen adds a listener, whatever its outcome. */
  lemma StepListeners(s: System, a: Action, q: Channel)
    requires Enabled(s, a)
    ensures if FirstListen(s, a, q) then Listeners(Apply(s, a), q) == Listeners(s, q) + {a.manager} && a.manager !in Listeners(s, q)
            else Listeners(Apply(s, a), q) <= Listeners(s, q)
    ensures a.Add? && !FirstListen(s, a, q) ==> Listeners(Apply(s, a), q) == Listeners(s, q)
  {
    var t := Apply(s, a);
    forall i: nat ensures i in Listeners(t, q) ==> i in Listeners(s, q) || (FirstListen(s, a, q) && i == a.manager) {
      ListenersAt(s, a, q, i);
    }
    forall i: nat | a.Add? ensures i in Listeners(t, q) <==> i in Listeners(s, q) || (FirstListen(s, a, q) && i == a.manager) {
      ListenersAt(s, a, q, i);
    }
    hide Apply, Enabled;
  }

  lemma ListenersAt(s: System, a: Action, q: Channel, i: nat)
    requires Enabled(s, a)
    ensures i in Listeners(Apply(s, a), q) ==> i in Listeners(s, q) || (FirstListen(s, a, q) && i == a.manager)
    ensures a.Add? ==>
      (i in Listeners(Apply(s, a), q) <==> i in Listeners(s, q) || (FirstListen(s, a, q) && i == a.manager))
  {
    if a.RemoveAll? {
      WalkedChannel(s.managers[a.manager].subs, a.handler, a.order, q);
    }
    hide RemovedAll, Emptied, Drop, WithoutId;
  }

  /** What one listen does to the requests on its queue: one more delivery if the manager is new to it, rejected or not. */
  lemma ListenAddsOneDelivery(run: seq<Action>, i: nat, q: Channel, h: Handler)
    requires Run(run).Some? && Enabled(Run(run).value, Add(i, q, h)) && Run(run).value.managers[i].kind == Transaction
    ensures var s := Run(run).value;
      |Delivered(Apply(s, Add(i, q, h)), Transaction, q)|
        == |Delivered(s, Transaction, q)| + if q in s.managers[i].subs then 0 else 1
  {
    RunInv(run);
    var s := Run(run).value;
    StepKeepsInv(s, Add(i, q, h));
    StepListeners(s, Add(i, q, h), q);
    DeliveredCount(s, q);
    DeliveredCount(Apply(s, Add(i, q, h)), q);
    hide Inv, Apply, Delivered, Listeners;
  }

  /** Some manager that still exists holds queue q. */
  ghost predicate Listened(s: System, q: Channel) {
    exists j: nat :: Registered(s, Transaction, j) && q in s.managers[j].subs
  }

  /** A listen of a manager that is new to the queue, while some manager that still exists holds it. */
  ghost predicate Overlaps(s: System, a: Action, q: Channel) {
    FirstListen(s, a, q) && Listened(s, q)
  }

  lemma ListenersExist(s: System, q: Channel)
    ensures Listeners(s, q) != {} <==> Listened(s, q)
  {
    if j: nat :| Registered(s, Transaction, j) && q in s.managers[j].subs {
      assert j in Listeners(s, q);
    }
    if Listeners(s, q) != {} {
      var j: nat :| j in Listeners(s, q);
      assert Registered(s, Transaction, j) && q in s.managers[j].subs;
    }
  }

  /**
   Exactly when a step makes the requests on a queue go to a second handler: it is a listen of a manager new to the queue,
   made while some manager that still exists holds it.
   */
  lemma SecondHandlerIff(run: seq<Action>, a: Action, q: Channel)
    requires Run(run).Some? && Enabled(Run(run).value, a) && |Delivered(Run(run).value, Transaction, q)| <= 1
    ensures var s := Run(run).value; |Delivered(Apply(s, a), Transaction, q)| >= 2 <==> Overlaps(s, a, q)
    ensures Overlaps(Run(run).value, a, q) ==> OutcomeOf(Run(run).value, a) == ListenRejected
  {
    RunInv(run);
    var s := Run(run).value;
    hide Run;
    if Overlaps(s, a, q) {
      OverlapIsRejected(s, a, q);
    }
    StepKeepsInv(s, a);
    StepListeners(s, a, q);
    ListenersExist(s, q);
    DeliveredCount(s, q);
    DeliveredCount(Apply(s, a), q);
    hide Inv, Apply, Enabled, Delivered, Listeners, OutcomeOf, Registered;
    FewerElements(Listeners(Apply(s, a), q), Listeners(s, q));
  }

  lemma OverlapIsRejected(s: System, a: Action, q: Channel)
    requires Inv(s) && Enabled(s, a) && Overlaps(s, a, q)
    ensures OutcomeOf(s, a) == ListenRejected
  {
    var j: nat :| Registered(s, Transaction, j) && q in s.managers[j].subs;
    assert j in HolderSet(s.managers, Transaction, q);
    RejectedListenLeavesEntry(s, a.manager, q, a.handler);
  }

  lemma FewerElements(a: set<nat>, b: set<nat>)
    ensures a <= b ==> |a| <= |b|
    ensures |a| == 0 <==> a == {}
    ensures |b| == 0 <==> b == {}
  {
    if a <= b {
      assert b == a + (b - a);
    }
  }

  /** A rejected listen after which a request still goes to one handler: the earlier holder has been destroyed. */
  lemma RejectedListenDeliversOnce(q: Channel, a: Bytes, b: Bytes)
    requires a != b
    ensures var run := [Attach(Transaction, a)] + [Attach(Transaction, b)] + [Add(0, q, 1)] + [Detach(0)];
      && Run(run).Some? && Enabled(Run(run).value, Add(1, q, 2))
      && OutcomeOf(Run(run).value, Add(1, q, 2)) == ListenRejected
      && |Delivered(Apply(Run(run).value, Add(1, q, 2)), Transaction, q)| == 1
  {
    var run := [Attach(Transaction, a)] + [Attach(Transaction, b)] + [Add(0, q, 1)] + [Detach(0)];
    DestroyedListenerBlocksQueue(q, a, b);
    assert Run(run).value == Bereft(q, a, b) by {
      FirstListens(q, a, b);
      DetachBereaves(q, a, b);
      OneMoreAction(Init(), [Attach(Transaction, a)] + [Attach(Transaction, b)] + [Add(0, q, 1)], Detach(0));
    }
    ListenAddsOneDelivery(run, 1, q, 2);
    hide Run, Delivered, Apply;
  }

  /** In no state along the run do the requests on q go to two handlers. */
  ghost predicate OneHandlerThroughout(run: seq<Action>, q: Channel)
    requires Run(run).Some?
  {
    |Delivered(Run(run).value, Transaction, q)| <= 1 && (run == [] || OneHandlerThroughout(run[..|run| - 1], q))
  }

  ghost predicate NoOverlap(run: seq<Action>, q: Channel)
    requires Run(run).Some?
  {
    run == [] || (!Overlaps(Run(run[..|run| - 1]).value, run[|run| - 1], q) && NoOverlap(run[..|run| - 1], q))
  }

  /**
   A request goes to at most one handler, all along a run, if and only if the run has no listen of a manager new to the queue
   while another manager that still exists holds it.
   */
  lemma {:induction false} OneHandlerIff(run: seq<Action>, q: Channel)
    requires Run(run).Some?
    ensures OneHandlerThroughout(run, q) <==> NoOverlap(run, q)
  {
    hide Apply, Enabled, Overlaps, Delivered;
    if run == [] {
      NothingDelivered(q);
    } else {
      var init := run[..|run| - 1];
      OneHandlerIff(init, q);
      if OneHandlerThroughout(init, q) {
        SecondHandlerIff(init, run[|run| - 1], q);
      }
    }
  }

  lemma NothingDelivered(q: Channel)
    ensures Delivered(Init(), Transaction, q) == []
  {
  }

  ghost predicate NothingRejected(run: seq<Action>)
    requires Run(run).Some?
  {
    run == [] || (NothingRejected(run[..|run| - 1]) && OutcomeOf(Run(run[..|run| - 1]).value, run[|run| - 1]) != ListenRejected)
  }

  lemma AcceptedKeepsOne(s: System, a: Action, q: Channel)
    requires Inv(s) && Enabled(s, a) && OutcomeOf(s, a) != ListenRejected && Get(s.broker.queues, q) <= 1
    ensures Get(Apply(s, a).broker.queues, q) <= 1
  {
    match a {
      case RemoveAll(i, h, order) =>
        WalkIsRemoves(s, i, h, order);
        RemovesKeepOne(s, i, h, order, q);
      case Remove(i, c, h) => RemoveKeepsOne(s, i, c, h, q);
      case _ =>
    }
  }

  lemma RemoveKeepsOne(s: System, i: nat, c: Channel, h: Handler, q: Channel)
    requires AgreeInv(s) && Enabled(s, Remove(i, c, h)) && Get(s.broker.queues, q) <= 1
    ensures Get(Apply(s, Remove(i, c, h)).broker.queues, q) <= 1
  {
    RemoveKeepsAgree(s, i, c, h);
    var t := Apply(s, Remove(i, c, h));
    assert Agrees(s.broker, s.managers, Transaction, q);
    assert Agrees(t.broker, t.managers, Transaction, q);
    ReindexHolders(s, i, Removed(s.managers[i].subs, c, h), Transaction, q);
  }

  lemma {:induction false} RemovesKeepOne(s: System, i: nat, h: Handler, order: seq<Channel>, q: Channel)
    requires AgreeInv(s) && Continue(s, Removes(i, h, order)).Some? && Get(s.broker.queues, q) <= 1
    ensures Get(Continue(s, Removes(i, h, order)).value.broker.queues, q) <= 1
  {
    if order != [] {
      var init, c := order[..|order| - 1], order[|order| - 1];
      assert Removes(i, h, order)[..|Removes(i, h, order)| - 1] == Removes(i, h, init);
      RemovesKeepOne(s, i, h, init, q);
      RemovesKeepAgree(s, i, h, init);
      hide AgreeInv, Apply, Enabled;
      RemoveKeepsOne(Continue(s, Removes(i, h, init)).value, i, c, h, q);
    }
  }

  /** In a run in which no listen was rejected, a request never goes to more than one handler. */
  lemma {:induction false} OneHandlerUnlessRejected(run: seq<Action>, q: Channel)
    requires Run(run).Some? && NothingRejected(run)
    ensures var s := Run(run).value; Get(s.broker.queues, q) <= 1 && |Delivered(s, Transaction, q)| <= 1
  {
    RequestsGoToEveryListener(run, q);
    if run != [] {
      var init := run[..|run| - 1];
      OneHandlerUnlessRejected(init, q);
      RunInv(init);
      hide Inv, Apply, Enabled, OutcomeOf, Delivered;
      AcceptedKeepsOne(Run(init).value, run[|run| - 1], q);
    }
  }

  /** With a rejected listen it does: both handlers would be given the request. */
  lemma RejectedListenDeliversTwice(q: Channel, a: Bytes, b: Bytes)
    requires a != b
    ensures var run := [Attach(Transaction, a)] + [Attach(Transaction, b)] + [Add(0, q, 1)];
      && Run(run).Some? && Enabled(Run(run).value, Add(1, q, 2))
      && OutcomeOf(Run(run).value, Add(1, q, 2)) == ListenRejected
      && Delivered(Apply(Run(run).value, Add(1, q, 2)), Transaction, q) == [Delivery(0, 1)] + [Delivery(1, 2)]
  {
    FirstListens(q, a, b);
    DeliversTwice(q, a, b);
    hide Apply, Delivered, Continue;
  }

  lemma HandedToOne(i: nat, h: Handler)
    ensures Handed(i, [h]) == [Delivery(i, h)]
  {
    HandedAt(i, [h]);
  }

  lemma FannedAppends(managers: seq<Manager>, cs: seq<Callback>, last: Callback, c: Channel)
    requires last.manager < |managers|
    ensures Fanned(managers, [], c) == []
    ensures Fanned(managers, cs + [last], c)
      == Fanned(managers, cs, c) + Handed(last.manager, ListAt(managers[last.manager].subs, c))
  {
    assert (cs + [last])[..|cs + [last]| - 1] == cs;
  }

  lemma TwoListeners(s: System, q: Channel, a: Bytes, b: Bytes)
    requires |s.managers| == 2 && ListAt(s.managers[0].subs, q) == [1] && ListAt(s.managers[1].subs, q) == [2]
    requires s.transactionCallbacks == [Callback(a, 0)] + [Callback(b, 1)]
    ensures Delivered(s, Transaction, q) == [Delivery(0, 1)] + [Delivery(1, 2)]
  {
    var none: seq<Callback> := [];
    assert none + [Callback(a, 0)] == [Callback(a, 0)];
    FannedAppends(s.managers, none, Callback(a, 0), q);
    FannedAppends(s.managers, [Callback(a, 0)], Callback(b, 1), q);
    HandedToOne(0, 1);
    HandedToOne(1, 2);
    hide Fanned, Handed, ListAt;
  }

  lemma DeliversTwice(q: Channel, a: Bytes, b: Bytes)
    requires Enabled(Listening(q, a, b), Add(1, q, 2))
    ensures Delivered(Apply(Listening(q, a, b), Add(1, q, 2)), Transaction, q) == [Delivery(0, 1)] + [Delivery(1, 2)]
  {
    var t := Apply(Listening(q, a, b), Add(1, q, 2));
    assert ListAt(t.managers[0].subs, q) == [1] && ListAt(t.managers[1].subs, q) == [2] && |t.managers| == 2;
    assert t.transactionCallbacks == [Callback(a, 0)] + [Callback(b, 1)];
    hide Apply, Enabled, Listening, Delivered, ListAt;
    TwoListeners(t, q, a, b);
  }

  // ---- remove everywhere ----

  predicate AllClose(trace: seq<Call>, kind: Kind) {
    forall k :: 0 <= k < |trace| ==> trace[k].Close? && trace[k].kind == kind
  }

  /** One closing more. */
  lemma ClosedOnceMore(before: seq<Call>, rest: seq<Call>, kind: Kind, c: Channel)
    requires WellPaired(before + rest + [Close(kind, c)])
    ensures WellPaired(before + rest) && c in Opened(before + rest, kind)
    ensures Opened(before + rest + [Close(kind, c)], kind) == Opened(before + rest, kind) - {c}
  {
    var trace := before + rest;
    assert (trace + [Close(kind, c)])[..|trace|] == trace;
  }

  /** Without openings, a well-paired trace closes each channel once, and just those that are no longer open. */
  lemma {:induction false} ClosedOnce(before: seq<Call>, more: seq<Call>, kind: Kind)
    requires WellPaired(before + more) && AllClose(more, kind)
    ensures NoDup(more)
    ensures forall c :: Close(kind, c) in more <==> c in Opened(before, kind) && c !in Opened(before + more, kind)
    ensures forall c :: c in Opened(before + more, kind) ==> c in Opened(before, kind)
  {
    hide WellPaired, Opened;
    if more == [] {
      assert before + more == before;
    } else {
      var rest, c := more[..|more| - 1], more[|more| - 1].channel;
      assert more == rest + [Close(kind, c)];
      assert before + more == before + rest + [Close(kind, c)];
      ClosedOnceMore(before, rest, kind, c);
      ClosedOnce(before, rest, kind);
      assert Close(kind, c) !in rest;
    }
  }

  function Other(kind: Kind): Kind {
    if kind == Event then Transaction else Event
  }

  /** Removing h at manager i, channel by channel, in any order and with repetitions. */
  lemma {:induction false} RemovesEffect(s: System, i: nat, h: Handler, order: seq<Channel>)
    requires InUse(s, i)
    ensures Continue(s, Removes(i, h, order)).Some?
    ensures var t := Continue(s, Removes(i, h, order)).value; var kind := s.managers[i].kind;
      && t == WithSubs(s, i, RemovedAll(s.managers[i].subs, h, order)).(broker := t.broker)
      && CountsOf(t.broker, Other(kind)) == CountsOf(s.broker, Other(kind))
      && s.broker.trace <= t.broker.trace && AllClose(t.broker.trace[|s.broker.trace|..], kind)
  {
    if order == [] {
      assert WithSubs(s, i, s.managers[i].subs) == s;
    } else {
      var init, c := order[..|order| - 1], order[|order| - 1];
      RemovesEffect(s, i, h, init);
      var t := Continue(s, Removes(i, h, init)).value;
      OneMoreAction(s, Removes(i, h, init), Remove(i, c, h));
      assert Removes(i, h, order) == Removes(i, h, init) + [Remove(i, c, h)];
      hide Continue, Removes, RemovedAll;
      RemoveEffectOnBooks(t, i, c, h);
      assert RemovedAll(s.managers[i].subs, h, order) == Removed(RemovedAll(s.managers[i].subs, h, init), c, h) by {
        RemovedAllStep(s.managers[i].subs, h, order);
      }
    }
  }

  lemma RemovedAllStep(subs: Index, h: Handler, order: seq<Channel>)
    requires order != []
    ensures RemovedAll(subs, h, order) == Removed(RemovedAll(subs, h, order[..|order| - 1]), order[|order| - 1], h)
  {
  }

  lemma RemoveEffectOnBooks(s: System, i: nat, c: Channel, h: Handler)
    requires InUse(s, i)
    ensures Enabled(s, Remove(i, c, h))
    ensures var t := Apply(s, Remove(i, c, h)); var kind := s.managers[i].kind;
      && t == WithSubs(s, i, Removed(s.managers[i].subs, c, h)).(broker := t.broker)
      && CountsOf(t.broker, Other(kind)) == CountsOf(s.broker, Other(kind))
      && (t.broker.trace == s.broker.trace || t.broker.trace == s.broker.trace + [Close(kind, c)])
  {
  }

  /**
   Remove everywhere is a fold: remove_message_handler(h), walking the index in any order, leaves the same managers, the
   same counts and the same live channels as remove_message_handler(c, h) for the channels of any list that covers
   them, in any order; and either way each channel that goes down is released exactly once.
   */
  lemma RemoveEverywhereIsFold(s: System, i: nat, h: Handler, walk: seq<Channel>, others: seq<Channel>)
    requires Inv(s) && Enabled(s, RemoveAll(i, h, walk))
    requires forall c :: c in s.managers[i].subs ==> c in others
    ensures Continue(s, Removes(i, h, others)).Some?
    ensures var t, u := Apply(s, RemoveAll(i, h, walk)), Continue(s, Removes(i, h, others)).value;
      && t.managers == u.managers && t.broker.topics == u.broker.topics && t.broker.queues == u.broker.queues
      && t.eventCallbacks == u.eventCallbacks && t.transactionCallbacks == u.transactionCallbacks
      && (forall k :: Opened(t.broker.trace, k) == Opened(u.broker.trace, k))
      && ReleasedOnce(s, t, s.managers[i].kind) && ReleasedOnce(s, u, s.managers[i].kind)
  {
    WalkIsRemoves(s, i, h, walk);
    RemovesEffect(s, i, h, walk);
    RemovesEffect(s, i, h, others);
    RemovesKeepAgree(s, i, h, walk);
    RemovesKeepAgree(s, i, h, others);
    var t, u := Apply(s, RemoveAll(i, h, walk)), Continue(s, Removes(i, h, others)).value;
    var subs, kind := s.managers[i].subs, s.managers[i].kind;
    assert t == Continue(s, Removes(i, h, walk)).value;
    assert WalkOf(walk, subs);
    assert RemovedAll(subs, h, walk) == RemovedAll(subs, h, others) by {
      WalksAgree(subs, h, walk, others);
    }
    hide Continue, Apply, Enabled, Removes, RemovedAll;
    assert t.managers == u.managers;
    SameManagersSameBooks(t, u);
    ReleasedOnceByRemoves(s, t, kind);
    ReleasedOnceByRemoves(s, u, kind);
  }

  /** The calls since s release exactly the channels that are no longer open, each once. */
  ghost predicate ReleasedOnce(s: System, t: System, kind: Kind) {
    && s.broker.trace <= t.broker.trace
    && var more := t.broker.trace[|s.broker.trace|..];
    && AllClose(more, kind) && NoDup(more)
    && forall c :: Close(kind, c) in more <==> c in Opened(s.broker.trace, kind) && c !in Opened(t.broker.trace, kind)
  }

  lemma ReleasedOnceByRemoves(s: System, t: System, kind: Kind)
    requires AgreeInv(t) && s.broker.trace <= t.broker.trace && AllClose(t.broker.trace[|s.broker.trace|..], kind)
    ensures ReleasedOnce(s, t, kind)
  {
    var more := t.broker.trace[|s.broker.trace|..];
    assert t.broker.trace == s.broker.trace + more;
    ClosedOnce(s.broker.trace, more, kind);
  }

  lemma WalksAgree(subs: Index, h: Handler, walk: seq<Channel>, others: seq<Channel>)
    requires forall c :: c in subs ==> c in walk && c in others
    ensures RemovedAll(subs, h, walk) == RemovedAll(subs, h, others)
  {
    var a, b := RemovedAll(subs, h, walk), RemovedAll(subs, h, others);
    forall c ensures (c in a <==> c in b) && ListAt(a, c) == ListAt(b, c) {
      WalkedChannel(subs, h, walk, c);
      WalkedChannel(subs, h, others, c);
    }
    hide RemovedAll;
    assert forall c :: c in a ==> a[c] == ListAt(a, c) && b[c] == ListAt(b, c);
  }

  lemma SameBooks(t: System, u: System, k: Kind)
    requires AgreeInv(t) && AgreeInv(u) && t.managers == u.managers
    ensures CountsOf(t.broker, k) == CountsOf(u.broker, k)
    ensures Opened(t.broker.trace, k) == Opened(u.broker.trace, k)
  {
    hide Opened, Holders, CountsOf;
    var a, b := CountsOf(t.broker, k), CountsOf(u.broker, k);
    forall c ensures (c in a <==> c in b) && Get(a, c) == Get(b, c)
      && (c in Opened(t.broker.trace, k) <==> c in Opened(u.broker.trace, k))
    {
      assert Agrees(t.broker, t.managers, k, c);
      assert Agrees(u.broker, u.managers, k, c);
    }
    assert forall c :: c in a ==> a[c] == Get(a, c) && b[c] == Get(b, c);
  }

  lemma SameManagersSameBooks(t: System, u: System)
    requires AgreeInv(t) && AgreeInv(u) && t.managers == u.managers
    ensures t.broker.topics == u.broker.topics && t.broker.queues == u.broker.queues
    ensures forall k :: Opened(t.broker.trace, k) == Opened(u.broker.trace, k)
  {
    hide Holders;
    forall k ensures CountsOf(t.broker, k) == CountsOf(u.broker, k) && Opened(t.broker.trace, k) == Opened(u.broker.trace, k) {
      SameBooks(t, u, k);
    }
    assert CountsOf(t.broker, Event) == CountsOf(u.broker, Event);
    assert CountsOf(t.broker, Transaction) == CountsOf(u.broker, Transaction);
  }
}
