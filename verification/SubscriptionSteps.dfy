/** Every action on the managers keeps the invariant of the three layers. */
module SubscriptionSteps {
  import opened Common
  import opened Subscriptions

  lemma OpenedAfterOpen(trace: seq<Call>, kind: Kind, c: Channel, k: Kind)
    ensures Opened(trace + [Open(kind, c)], k) == Opened(trace, k) + if k == kind then {c} else {}
    ensures WellPaired(trace) && c !in Opened(trace, kind) ==> WellPaired(trace + [Open(kind, c)])
  {
    assert (trace + [Open(kind, c)])[..|trace|] == trace;
  }

  lemma OpenedAfterClose(trace: seq<Call>, kind: Kind, c: Channel, k: Kind)
    ensures Opened(trace + [Close(kind, c)], k) == Opened(trace, k) - if k == kind then {c} else {}
    ensures WellPaired(trace) && c in Opened(trace, kind) ==> WellPaired(trace + [Close(kind, c)])
  {
    assert (trace + [Close(kind, c)])[..|trace|] == trace;
  }

  /** One more holder of (kind, c), and no other change. */
  ghost predicate OneMore(before: seq<Manager>, after: seq<Manager>, kind: Kind, c: Channel) {
    && |after| == |before|
    && forall k, x :: Holders(after, k, x) == Holders(before, k, x) + One(k == kind && x == c)
  }

  lemma NoWrap(n: nat)
    requires n + 1 < SIZE_T
    ensures Up(n) == n + 1 && Down(n + 1) == n
  {
  }

  /** What one acquisition does to the books of channel (k, x). */
  lemma AcquireEffect(b: Broker, kind: Kind, c: Channel, k: Kind, x: Channel)
    requires Get(CountsOf(b, kind), c) + 1 < SIZE_T
    ensures var t := Acquire(b, kind, c); var here := k == kind && x == c;
      && Get(CountsOf(t, k), x) == Get(CountsOf(b, k), x) + One(here)
      && (x in CountsOf(t, k) <==> x in CountsOf(b, k) || here)
      && (x in Opened(t.trace, k) <==> x in Opened(b.trace, k) || (here && Get(CountsOf(b, kind), c) == 0))
      && t.wrapped == b.wrapped
      && (WellPaired(b.trace) && (Get(CountsOf(b, kind), c) == 0 ==> c !in Opened(b.trace, kind)) ==> WellPaired(t.trace))
  {
    NoWrap(Get(CountsOf(b, kind), c));
    OpenedAfterOpen(b.trace, kind, c, k);
    hide Opened, WellPaired, Up;
  }

  lemma AcquireAgrees(b: Broker, before: seq<Manager>, after: seq<Manager>, kind: Kind, c: Channel)
    requires forall k, x :: Agrees(b, before, k, x)
    requires WellPaired(b.trace) && !b.wrapped && |before| < SIZE_T
    requires OneMore(before, after, kind, c)
    ensures forall k, x :: Agrees(Acquire(b, kind, c), after, k, x)
    ensures WellPaired(Acquire(b, kind, c).trace) && !Acquire(b, kind, c).wrapped
  {
    HoldersBound(after, kind, c);
    assert Agrees(b, before, kind, c);
    assert Holders(after, kind, c) == Holders(before, kind, c) + 1;
    AcquireEffect(b, kind, c, kind, c);
    hide Opened, Holders, WellPaired, Acquire, Get, CountsOf;
    forall k, x ensures Agrees(Acquire(b, kind, c), after, k, x) {
      assert Agrees(b, before, k, x);
      AcquireEffect(b, kind, c, k, x);
      assert Holders(after, k, x) == Holders(before, k, x) + One(k == kind && x == c);
    }
  }

  lemma ReleaseAgrees(b: Broker, before: seq<Manager>, after: seq<Manager>, kind: Kind, c: Channel)
    requires forall k, x :: Agrees(b, before, k, x)
    requires WellPaired(b.trace) && !b.wrapped && |before| < SIZE_T
    requires OneMore(after, before, kind, c)
    ensures forall k, x :: Agrees(Release(b, kind, c), after, k, x)
    ensures WellPaired(Release(b, kind, c).trace) && !Release(b, kind, c).wrapped
  {
    var t := Release(b, kind, c);
    HoldersBound(before, kind, c);
    assert Agrees(b, before, kind, c);
    assert Holders(before, kind, c) == Holders(after, kind, c) + 1;
    NoWrap(Holders(after, kind, c));
    hide Opened, Holders, WellPaired, Down;
    OpenedAfterClose(b.trace, kind, c, kind);
    forall k, x ensures Agrees(t, after, k, x) {
      assert Agrees(b, before, k, x);
      OpenedAfterClose(b.trace, kind, c, k);
      assert Holders(before, k, x) == Holders(after, k, x) + One(k == kind && x == c);
    }
  }

  lemma ReindexHolders(s: System, i: nat, subs: Index, k: Kind, x: Channel)
    requires i < |s.managers|
    ensures Holders(WithSubs(s, i, subs).managers, k, x) + One(s.managers[i].kind == k && x in s.managers[i].subs)
      == Holders(s.managers, k, x) + One(s.managers[i].kind == k && x in subs)
  {
    HoldersAfterUpdate(s.managers, i, s.managers[i].(subs := subs), k, x);
  }

  lemma SameKeysAgree(s: System, i: nat, subs: Index)
    requires i < |s.managers| && AgreeInv(s) && forall x :: x in subs <==> x in s.managers[i].subs
    ensures AgreeInv(WithSubs(s, i, subs))
  {
    var t := WithSubs(s, i, subs);
    forall k, x ensures Agrees(t.broker, t.managers, k, x) {
      assert Agrees(s.broker, s.managers, k, x);
      ReindexHolders(s, i, subs, k, x);
    }
  }

  lemma AddKeepsAgree(s: System, i: nat, c: Channel, h: Handler)
    requires AgreeInv(s) && Enabled(s, Add(i, c, h))
    ensures AgreeInv(Apply(s, Add(i, c, h)))
  {
    var m := s.managers[i];
    var subs := Added(m.subs, c, h);
    if c in m.subs {
      SameKeysAgree(s, i, subs);
    } else {
      var t := WithSubs(s, i, subs);
      forall k, x ensures Holders(t.managers, k, x) == Holders(s.managers, k, x) + One(k == m.kind && x == c) {
        ReindexHolders(s, i, subs, k, x);
      }
      assert OneMore(s.managers, t.managers, m.kind, c);
      AcquireAgrees(s.broker, s.managers, t.managers, m.kind, c);
    }
  }

  lemma RemoveKeepsAgree(s: System, i: nat, c: Channel, h: Handler)
    requires AgreeInv(s) && Enabled(s, Remove(i, c, h))
    ensures AgreeInv(Apply(s, Remove(i, c, h)))
  {
    var m := s.managers[i];
    var subs := Removed(m.subs, c, h);
    if Empties(m.subs, c, h) {
      var t := WithSubs(s, i, subs);
      forall k, x ensures Holders(s.managers, k, x) == Holders(t.managers, k, x) + One(k == m.kind && x == c) {
        ReindexHolders(s, i, subs, k, x);
      }
      assert OneMore(t.managers, s.managers, m.kind, c);
      ReleaseAgrees(s.broker, s.managers, t.managers, m.kind, c);
    } else {
      SameKeysAgree(s, i, subs);
    }
  }

  lemma AttachKeepsAgree(s: System, kind: Kind, id: Bytes)
    requires AgreeInv(s) && Enabled(s, Attach(kind, id))
    ensures AgreeInv(Apply(s, Attach(kind, id)))
  {
    var t := Apply(s, Attach(kind, id));
    assert t.managers[..|s.managers|] == s.managers;
    forall k, x ensures Agrees(t.broker, t.managers, k, x) {
      assert Agrees(s.broker, s.managers, k, x);
    }
  }

  lemma DetachKeepsAgree(s: System, i: nat)
    requires AgreeInv(s) && Enabled(s, Detach(i))
    ensures AgreeInv(Apply(s, Detach(i)))
  {
    var t := Apply(s, Detach(i));
    forall k, x ensures Agrees(t.broker, t.managers, k, x) {
      assert Agrees(s.broker, s.managers, k, x);
      HoldersAfterUpdate(s.managers, i, s.managers[i].(attached := false), k, x);
    }
  }

  // ---- remove_message_handler(h) is remove_message_handler(c, h) for every channel ----

  function Removes(i: nat, h: Handler, order: seq<Channel>): seq<Action> {
    if order == [] then [] else Removes(i, h, order[..|order| - 1]) + [Remove(i, order[|order| - 1], h)]
  }

  lemma {:induction false} WalkLeavesTheRest(subs: Index, h: Handler, order: seq<Channel>, c: Channel)
    requires c !in order
    ensures ListAt(RemovedAll(subs, h, order), c) == ListAt(subs, c)
    ensures c in RemovedAll(subs, h, order) <==> c in subs
  {
    if order != [] {
      assert order == order[..|order| - 1] + [order[|order| - 1]];
      WalkLeavesTheRest(subs, h, order[..|order| - 1], c);
    }
  }

  /** The state after the first part of a walk, when each emptied channel is released at once. */
  function Walked(s: System, i: nat, h: Handler, order: seq<Channel>): System
    requires i < |s.managers|
  {
    var m := s.managers[i];
    WithSubs(s, i, RemovedAll(m.subs, h, order)).(broker := ReleaseAll(s.broker, m.kind, Emptied(m.subs, h, order)))
  }

  lemma WalkStep(s: System, i: nat, h: Handler, init: seq<Channel>, c: Channel)
    requires InUse(s, i) && c !in init
    ensures Apply(Walked(s, i, h, init), Remove(i, c, h)) == Walked(s, i, h, init + [c])
  {
    var m := s.managers[i];
    WalkLeavesTheRest(m.subs, h, init, c);
    assert (init + [c])[..|init|] == init;
    var t := Walked(s, i, h, init);
    var es := Emptied(m.subs, h, init);
    assert t.managers[i] == m.(subs := RemovedAll(m.subs, h, init));
    assert Empties(t.managers[i].subs, c, h) == Empties(m.subs, c, h);
    assert RemovedAll(m.subs, h, init + [c]) == Removed(RemovedAll(m.subs, h, init), c, h);
    assert Emptied(m.subs, h, init + [c]) == es + if Empties(m.subs, c, h) then [c] else [];
    assert (es + [c])[..|es|] == es;
    assert ReleaseAll(s.broker, m.kind, es + [c]) == Release(ReleaseAll(s.broker, m.kind, es), m.kind, c);
    assert es + [] == es;
    hide RemovedAll, Removed, Emptied, Empties, ReleaseAll, Release;
  }

  lemma OneMoreAction(s: System, run: seq<Action>, a: Action)
    requires Continue(s, run).Some? && Enabled(Continue(s, run).value, a)
    ensures Continue(s, run + [a]) == Some(Apply(Continue(s, run).value, a))
  {
    hide Apply, Enabled;
    assert (run + [a])[..|run + [a]| - 1] == run;
  }

  /** Collecting the emptied channels first and releasing them afterwards makes no difference. */
  lemma {:induction false} WalkIsRemoves(s: System, i: nat, h: Handler, order: seq<Channel>)
    requires InUse(s, i) && NoDup(order)
    ensures Continue(s, Removes(i, h, order)) == Some(Walked(s, i, h, order))
  {
    if order == [] {
      assert WithSubs(s, i, s.managers[i].subs) == s;
    } else {
      var init, c := order[..|order| - 1], order[|order| - 1];
      assert order == init + [c];
      assert Removes(i, h, order) == Removes(i, h, init) + [Remove(i, c, h)];
      WalkIsRemoves(s, i, h, init);
      assert Enabled(Walked(s, i, h, init), Remove(i, c, h));
      hide Walked, Apply, Enabled, Continue, Removes;
      WalkStep(s, i, h, init, c);
      OneMoreAction(s, Removes(i, h, init), Remove(i, c, h));
    }
  }

  lemma {:induction false} RemovesKeepAgree(s: System, i: nat, h: Handler, order: seq<Channel>)
    requires AgreeInv(s) && Continue(s, Removes(i, h, order)).Some?
    ensures AgreeInv(Continue(s, Removes(i, h, order)).value)
  {
    if order != [] {
      var init, c := order[..|order| - 1], order[|order| - 1];
      assert Removes(i, h, order)[..|Removes(i, h, order)| - 1] == Removes(i, h, init);
      hide AgreeInv, Apply, Enabled;
      RemovesKeepAgree(s, i, h, init);
      RemoveKeepsAgree(Continue(s, Removes(i, h, init)).value, i, c, h);
    }
  }

  lemma StepKeepsAgree(s: System, a: Action)
    requires AgreeInv(s) && Enabled(s, a)
    ensures AgreeInv(Apply(s, a))
  {
    hide AgreeInv;
    match a {
      case Attach(kind, id) => AttachKeepsAgree(s, kind, id);
      case Detach(i) => DetachKeepsAgree(s, i);
      case Add(i, c, h) => AddKeepsAgree(s, i, c, h);
      case Remove(i, c, h) => RemoveKeepsAgree(s, i, c, h);
      case RemoveAll(i, h, order) =>
        WalkIsRemoves(s, i, h, order);
        RemovesKeepAgree(s, i, h, order);
    }
  }

  // ---- the shape of the lists ----

  lemma AddKeepsShape(m: Manager, c: Channel, h: Handler)
    requires Shape(m) && m.attached && !Refuses(m.kind, m.subs, c)
    ensures Shape(m.(subs := Added(m.subs, c, h)))
  {
  }

  lemma RemoveKeepsShape(m: Manager, c: Channel, h: Handler)
    requires Shape(m)
    ensures Shape(m.(subs := Removed(m.subs, c, h)))
  {
    if c in m.subs {
      DropMembers(m.subs[c], h);
    }
  }

  lemma {:induction false} WalkKeepsShape(m: Manager, h: Handler, order: seq<Channel>)
    requires Shape(m)
    ensures Shape(m.(subs := RemovedAll(m.subs, h, order)))
  {
    if order != [] {
      WalkKeepsShape(m, h, order[..|order| - 1]);
      RemoveKeepsShape(m.(subs := RemovedAll(m.subs, h, order[..|order| - 1])), order[|order| - 1], h);
      hide Shape;
    }
  }

  lemma StepKeepsShape(s: System, a: Action)
    requires ShapeInv(s) && Enabled(s, a)
    ensures ShapeInv(Apply(s, a))
  {
    match a {
      case Attach(kind, id) =>
      case Detach(i) =>
      case Add(i, c, h) =>
        if !Refuses(s.managers[i].kind, s.managers[i].subs, c) {
          AddKeepsShape(s.managers[i], c, h);
        }
        hide Shape, Added;
      case Remove(i, c, h) =>
        RemoveKeepsShape(s.managers[i], c, h);
        hide Shape, Removed;
      case RemoveAll(i, h, order) =>
        WalkKeepsShape(s.managers[i], h, order);
        hide Shape, RemovedAll;
    }
  }

  // ---- the callbacks ----

  lemma {:induction false} WithoutIdMembers(cs: seq<Callback>, id: Bytes)
    ensures forall x :: x in WithoutId(cs, id) <==> x in cs && x.id != id
  {
    if cs != [] {
      WithoutIdMembers(cs[..|cs| - 1], id);
      assert cs == cs[..|cs| - 1] + [cs[|cs| - 1]];
    }
  }

  lemma AppendKeepsOrder(cs: seq<Callback>, last: Callback)
    requires InOrder(cs) && forall x :: x in cs ==> x.manager < last.manager
    ensures InOrder(cs + [last])
  {
  }

  lemma {:induction false} WithoutIdKeepsOrder(cs: seq<Callback>, id: Bytes)
    requires InOrder(cs)
    ensures InOrder(WithoutId(cs, id))
  {
    if cs != [] {
      var rest, last := cs[..|cs| - 1], cs[|cs| - 1];
      WithoutIdKeepsOrder(rest, id);
      WithoutIdMembers(rest, id);
      forall x | x in WithoutId(rest, id) ensures x.manager < last.manager {
        var j :| 0 <= j < |rest| && rest[j] == x;
        assert cs[j].manager < cs[|cs| - 1].manager;
      }
      AppendKeepsOrder(WithoutId(rest, id), last);
      assert WithoutId(rest, id) + [] == WithoutId(rest, id);
      hide InOrder;
    }
  }

  lemma AttachKeepsCallbacks(s: System, kind: Kind, id: Bytes)
    requires CallbackInv(s) && Enabled(s, Attach(kind, id))
    ensures CallbackInv(Apply(s, Attach(kind, id)))
  {
    var t := Apply(s, Attach(kind, id));
    var own := Callback(id, |s.managers|);
    assert t.managers == s.managers + [Manager(kind, map[], id, true)];
    assert forall k :: Callbacks(t, k) == Callbacks(s, k) + if k == kind then [own] else [];
    hide Apply, Enabled, Callbacks;
    forall k ensures CallbacksOk(t, k) {
      assert CallbacksOk(s, k);
      assert forall cb :: CallbackOf(t, k, cb) <==> CallbackOf(s, k, cb) || (k == kind && cb == own);
      forall cb | cb in Callbacks(s, k) ensures cb.manager < |s.managers| {
        assert CallbackOf(s, k, cb);
      }
    }
  }

  lemma DetachKeepsCallbacks(s: System, i: nat)
    requires CallbackInv(s) && Enabled(s, Detach(i))
    ensures CallbackInv(Apply(s, Detach(i)))
  {
    var t := Apply(s, Detach(i));
    var m := s.managers[i];
    WithoutIdMembers(Callbacks(s, m.kind), m.id);
    WithoutIdKeepsOrder(Callbacks(s, m.kind), m.id);
    assert t.managers == s.managers[i := m.(attached := false)];
    assert forall k :: Callbacks(t, k) == if k == m.kind then WithoutId(Callbacks(s, k), m.id) else Callbacks(s, k);
    hide Apply, Enabled, Callbacks, WithoutId, InOrder;
    forall k ensures CallbacksOk(t, k) {
      assert CallbacksOk(s, k);
      forall cb ensures CallbackOf(t, k, cb) <==> cb in Callbacks(t, k) {
        assert CallbackOf(t, k, cb) <==> CallbackOf(s, k, cb) && cb.manager != i;
        assert CallbackOf(s, k, cb) <==> cb in Callbacks(s, k);
      }
    }
  }

  lemma SameManagersKeepCallbacks(s: System, t: System)
    requires CallbackInv(s) && |t.managers| == |s.managers|
    requires t.eventCallbacks == s.eventCallbacks && t.transactionCallbacks == s.transactionCallbacks
    requires forall i :: 0 <= i < |s.managers| ==> t.managers[i] == s.managers[i].(subs := t.managers[i].subs)
    ensures CallbackInv(t)
  {
    forall k ensures CallbacksOk(t, k) {
      assert CallbacksOk(s, k);
      assert forall cb :: CallbackOf(t, k, cb) <==> CallbackOf(s, k, cb);
    }
  }

  lemma StepKeepsCallbacks(s: System, a: Action)
    requires CallbackInv(s) && Enabled(s, a)
    ensures CallbackInv(Apply(s, a))
  {
    if a.Attach? {
      AttachKeepsCallbacks(s, a.kind, a.id);
    } else if a.Detach? {
      DetachKeepsCallbacks(s, a.manager);
    } else {
      SameManagersKeepCallbacks(s, Apply(s, a));
    }
  }

  lemma StepKeepsInv(s: System, a: Action)
    requires Inv(s) && Enabled(s, a)
    ensures Inv(Apply(s, a))
  {
    hide AgreeInv, ShapeInv, CallbackInv, Apply, Enabled;
    StepKeepsAgree(s, a);
    StepKeepsShape(s, a);
    StepKeepsCallbacks(s, a);
  }

  lemma InitInv()
    ensures Inv(Init())
  {
    forall k, c ensures Agrees(Init().broker, Init().managers, k, c) {
    }
  }

  lemma {:induction false} ContinueKeepsInv(s: System, run: seq<Action>)
    requires Inv(s) && Continue(s, run).Some?
    ensures Inv(Continue(s, run).value)
  {
    hide Inv, Apply, Enabled;
    if run != [] {
      ContinueKeepsInv(s, run[..|run| - 1]);
      StepKeepsInv(Continue(s, run[..|run| - 1]).value, run[|run| - 1]);
    }
  }

  /** Every state that a run of successful and rejected actions reaches satisfies the invariant. */
  lemma RunInv(run: seq<Action>)
    requires Run(run).Some?
    ensures Inv(Run(run).value)
  {
    InitInv();
    ContinueKeepsInv(Init(), run);
  }
}
