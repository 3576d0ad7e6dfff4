/** In which order a manager calls the handlers of a channel: the order in which they were subscribed. */
module SubscriptionOrder {
  import opened Common
  import opened Subscriptions
  import opened SubscriptionSteps
  import opened SubscriptionTheorems

  // ---- remove_if keeps the order of what it keeps ----

  lemma {:induction false} DropConcat(u: seq<Handler>, v: seq<Handler>, h: Handler)
    ensures Drop(u + v, h) == Drop(u, h) + Drop(v, h)
  {
    if v == [] {
      assert u + v == u;
    } else {
      assert (u + v)[..|u + v| - 1] == u + v[..|v| - 1];
      DropConcat(u, v[..|v| - 1], h);
    }
  }

  lemma {:induction false} DropAbsent(hs: seq<Handler>, h: Handler)
    requires h !in hs
    ensures Drop(hs, h) == hs
  {
    if hs != [] {
      var init, last := hs[..|hs| - 1], hs[|hs| - 1];
      assert hs == init + [last];
      DropAbsent(init, h);
      assert Drop(hs, h) == Drop(init, h) + [last];
      hide Drop;
    }
  }

  /** What stands before h and what stands after it stay in their order. */
  lemma DropKeepsOrder(u: seq<Handler>, v: seq<Handler>, h: Handler)
    ensures Drop(u + [h] + v, h) == Drop(u, h) + Drop(v, h)
    ensures h !in u ==> Drop(u, h) == u
    ensures h !in u && h !in v ==> Drop(u + [h] + v, h) == u + v
  {
    DropConcat(u + [h], v, h);
    DropConcat(u, [h], h);
    assert [h][..0] == [];
    assert Drop([h], h) == [];
    assert Drop(u, h) + [] == Drop(u, h);
    if h !in u {
      DropAbsent(u, h);
    }
    if h !in v {
      DropAbsent(v, h);
    }
  }

  // ---- since when a handler has been subscribed ----

  /** The place in the run of the add that has made h held by manager i on channel c and has not been undone since. */
  ghost function HeldSince(run: seq<Action>, i: nat, c: Channel, h: Handler): nat
    requires Run(run).Some?
  {
    if run == [] then 0
    else if LastWasAdd(run[..|run| - 1], i, c, h) then HeldSince(run[..|run| - 1], i, c, h)
    else |run| - 1
  }

  lemma {:induction false} PrefixRuns(run: seq<Action>, n: nat)
    requires Run(run).Some? && n <= |run|
    ensures Run(run[..n]).Some?
  {
    if n < |run| {
      PrefixRuns(run[..|run| - 1], n);
      assert run[..|run| - 1][..n] == run[..n];
    } else {
      assert run[..n] == run;
    }
  }

  lemma NewlyHeld(run: seq<Action>, i: nat, c: Channel, h: Handler)
    requires Run(run).Some? && LastWasAdd(run, i, c, h)
    ensures run != []
    ensures LastWasAdd(run[..|run| - 1], i, c, h) || run[|run| - 1] == Add(i, c, h)
  {
    hide OutcomeOf;
  }

  /** After j actions of the run, h is held. */
  ghost predicate HeldAt(run: seq<Action>, i: nat, c: Channel, h: Handler, j: nat) {
    j <= |run| && Run(run[..j]).Some? && LastWasAdd(run[..j], i, c, h)
  }

  lemma HeldAtInit(run: seq<Action>, i: nat, c: Channel, h: Handler, j: nat)
    requires j < |run|
    ensures HeldAt(run[..|run| - 1], i, c, h, j) == HeldAt(run, i, c, h, j)
  {
    assert run[..|run| - 1][..j] == run[..j];
    hide Run, LastWasAdd;
  }

  lemma HeldAtEnd(run: seq<Action>, i: nat, c: Channel, h: Handler)
    requires Run(run).Some?
    ensures HeldAt(run, i, c, h, |run|) == LastWasAdd(run, i, c, h)
    ensures run != [] ==>
      Run(run[..|run| - 1]).Some? && HeldAt(run, i, c, h, |run| - 1) == LastWasAdd(run[..|run| - 1], i, c, h)
  {
    assert run[..|run|] == run;
    hide LastWasAdd;
  }

  /** That is what it is: an add of h to c at i, when h was not held, and at every later moment h is held. */
  lemma {:induction false} HeldSinceIs(run: seq<Action>, i: nat, c: Channel, h: Handler)
    requires Run(run).Some? && LastWasAdd(run, i, c, h)
    ensures var k := HeldSince(run, i, c, h);
      && k < |run| && run[k] == Add(i, c, h) && !HeldAt(run, i, c, h, k)
      && forall j :: k < j <= |run| ==> HeldAt(run, i, c, h, j)
  {
    hide *;
    NewlyHeld(run, i, c, h);
    HeldAtEnd(run, i, c, h);
    HeldSinceStep(run, i, c, h);
    var init := run[..|run| - 1];
    if LastWasAdd(init, i, c, h) {
      HeldSinceIs(init, i, c, h);
      HeldLonger(run, init, i, c, h, HeldSince(init, i, c, h));
    }
  }

  lemma HeldSinceStep(run: seq<Action>, i: nat, c: Channel, h: Handler)
    requires run != [] && Run(run).Some?
    ensures Run(run[..|run| - 1]).Some?
    ensures HeldSince(run, i, c, h)
      == if LastWasAdd(run[..|run| - 1], i, c, h) then HeldSince(run[..|run| - 1], i, c, h) else |run| - 1
  {
    hide LastWasAdd;
  }

  lemma HeldLonger(run: seq<Action>, init: seq<Action>, i: nat, c: Channel, h: Handler, k: nat)
    requires run != [] && init == run[..|run| - 1]
    requires k < |init| && HeldAt(run, i, c, h, |run|) && !HeldAt(init, i, c, h, k)
    requires forall j :: k < j <= |init| ==> HeldAt(init, i, c, h, j)
    ensures !HeldAt(run, i, c, h, k)
    ensures forall j :: k < j <= |run| ==> HeldAt(run, i, c, h, j)
  {
    hide *;
    HeldAtInit(run, i, c, h, k);
    forall j | k < j < |run| ensures HeldAt(run, i, c, h, j) {
      HeldAtInit(run, i, c, h, j);
    }
  }

  // ---- the lists are in that order ----

  ghost predicate InAddOrder(run: seq<Action>, i: nat, c: Channel, hs: seq<Handler>)
    requires Run(run).Some?
  {
    forall a, b :: 0 <= a < b < |hs| ==> HeldSince(run, i, c, hs[a]) < HeldSince(run, i, c, hs[b])
  }

  lemma {:induction false} DropInOrder(run: seq<Action>, i: nat, c: Channel, hs: seq<Handler>, h: Handler)
    requires Run(run).Some? && InAddOrder(run, i, c, hs)
    ensures InAddOrder(run, i, c, Drop(hs, h))
  {
    hide HeldSince;
    if hs != [] {
      var init, last := hs[..|hs| - 1], hs[|hs| - 1];
      DropInOrder(run, i, c, init, h);
      DropMembers(init, h);
      var kept := Drop(init, h);
      forall a | 0 <= a < |kept| ensures HeldSince(run, i, c, kept[a]) < HeldSince(run, i, c, last) {
        assert kept[a] in init;
      }
    }
  }

  /** What one action makes of one list. */
  lemma ListAfter(s: System, a: Action, i: nat, c: Channel)
    requires Enabled(s, a) && i < |s.managers|
    ensures var t := Apply(s, a); var hs := ListAt(s.managers[i].subs, c);
      && i < |t.managers|
      && ListAt(t.managers[i].subs, c) ==
        if a.Add? && a.manager == i && a.channel == c && OutcomeOf(s, a) != RepeatRejected && a.handler !in hs then hs + [a.handler]
        else if (a.Remove? && a.manager == i && a.channel == c) || (a.RemoveAll? && a.manager == i) then Drop(hs, a.handler)
        else hs
  {
    if a.RemoveAll? && a.manager == i {
      WalkedChannel(s.managers[i].subs, a.handler, a.order, c);
    }
    hide RemovedAll, Emptied, WithoutId;
  }

  /** Handlers that were held before have been held since the same add, and one that was not since this one. */
  lemma OneMoreSince(run: seq<Action>, i: nat, c: Channel, hs: seq<Handler>)
    requires run != [] && Run(run).Some? && InAddOrder(run[..|run| - 1], i, c, hs)
    requires forall h :: h in hs ==> LastWasAdd(run[..|run| - 1], i, c, h)
    ensures InAddOrder(run, i, c, hs)
    ensures forall h :: h in hs ==> HeldSince(run, i, c, h) < |run| - 1
  {
    forall h | h in hs ensures HeldSince(run, i, c, h) == HeldSince(run[..|run| - 1], i, c, h) < |run| - 1 {
      HeldSinceIs(run[..|run| - 1], i, c, h);
    }
    hide LastWasAdd, Run;
  }

  lemma AppendedInOrder(run: seq<Action>, i: nat, c: Channel, hs: seq<Handler>, h: Handler)
    requires Run(run).Some? && run != [] && InAddOrder(run, i, c, hs)
    requires forall g :: g in hs ==> HeldSince(run, i, c, g) < |run| - 1
    requires HeldSince(run, i, c, h) == |run| - 1
    ensures InAddOrder(run, i, c, hs + [h])
  {
    hide HeldSince, Run;
    var all := hs + [h];
    forall a, b | 0 <= a < b < |all| ensures HeldSince(run, i, c, all[a]) < HeldSince(run, i, c, all[b]) {
      assert all[a] == hs[a] && hs[a] in hs;
    }
  }

  /**
   In every run, the handlers in the list of a channel stand in the order of the adds that have made them held and have
   not been undone since.
   */
  lemma {:induction false} ListsAreInAddOrder(run: seq<Action>, i: nat, c: Channel)
    requires Run(run).Some? && i < |Run(run).value.managers|
    ensures InAddOrder(run, i, c, ListAt(Run(run).value.managers[i].subs, c))
  {
    if run != [] {
      var init, a := run[..|run| - 1], run[|run| - 1];
      var s := Run(init).value;
      assert Run(run) == Some(Apply(s, a)) && Enabled(s, a);
      if i < |s.managers| {
        ListsAreInAddOrder(init, i, c);
        ListAfter(s, a, i, c);
        var hs := ListAt(s.managers[i].subs, c);
        forall h ensures h in hs <==> LastWasAdd(init, i, c, h) {
          IndexRefinesHistory(init, i, c, h);
        }
        hide Run, Apply, Enabled, ListAt, InAddOrder, LastWasAdd, OutcomeOf;
        OneMoreSince(run, i, c, hs);
        if a.Add? && a.handler !in hs {
          SinceNow(run, i, c, a.handler);
          AppendedInOrder(run, i, c, hs, a.handler);
        }
        if a.Remove? || a.RemoveAll? {
          DropInOrder(run, i, c, hs, a.handler);
        }
      } else {
        NewManagerIsEmpty(s, a, i);
      }
    }
  }

  lemma SinceNow(run: seq<Action>, i: nat, c: Channel, h: Handler)
    requires run != [] && Run(run).Some? && !LastWasAdd(run[..|run| - 1], i, c, h)
    ensures HeldSince(run, i, c, h) == |run| - 1
  {
    hide LastWasAdd;
  }

  lemma NewManagerIsEmpty(s: System, a: Action, i: nat)
    requires Enabled(s, a) && |s.managers| <= i < |Apply(s, a).managers|
    ensures Apply(s, a).managers[i].subs == map[]
  {
    hide RemovedAll, Emptied, WithoutId;
  }

  /** Earlier callback first, and for one manager, earlier subscription first. */
  ghost predicate Before(run: seq<Action>, c: Channel, d: Delivery, e: Delivery)
    requires Run(run).Some?
  {
    d.manager < e.manager
    || (d.manager == e.manager && HeldSince(run, d.manager, c, d.handler) < HeldSince(run, e.manager, c, e.handler))
  }

  /**
   The order of delivery, over the history: one message calls the handlers of the managers in the order in which their
   callbacks were registered, and the handlers of one manager in the order in which they were subscribed.
   */
  lemma DeliveryFollowsSubscription(run: seq<Action>, kind: Kind, c: Channel, p: nat, q: nat)
    requires Run(run).Some? && p < q < |Delivered(Run(run).value, kind, c)|
    ensures var ds := Delivered(Run(run).value, kind, c); Before(run, c, ds[p], ds[q])
  {
    DeliveryIsExact(run, kind, c);
    var s := Run(run).value;
    var d, e := Delivered(s, kind, c)[p], Delivered(s, kind, c)[q];
    assert Precedes(s.managers, c, d, e);
    if d.manager == e.manager {
      ListsAreInAddOrder(run, d.manager, c);
      hide HeldSince, Run, Delivered, LastWasAdd;
    }
  }
}
