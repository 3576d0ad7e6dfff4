/** What every interleaving of the queue worker with the other threads guarantees. */
module QueueWorkerTheorems {
  import opened Common
  import opened QueueWorker

  /** BRPOP is never called without keys, and the technical channel is always the first. */
  lemma KeysAreNeverEmpty(tech: Channel, lists: Lists, ls: seq<Label>)
    requires Run(tech, lists, ls).Some? && Run(tech, lists, ls).value.worker == AtPop
    ensures var s := Run(tech, lists, ls).value; s.snapshot != [] && s.snapshot[0] == tech
  {
    RunInv(tech, lists, ls);
    TechIsFixed(Init(tech, lists), ls);
  }

  lemma {:induction false} TechIsFixed(s: State, ls: seq<Label>)
    requires Continue(s, ls).Some?
    ensures Continue(s, ls).value.tech == s.tech
  {
    hide Apply, Enabled;
    if ls != [] {
      TechIsFixed(s, ls[..|ls| - 1]);
      StepKeepsTech(Continue(s, ls[..|ls| - 1]).value, ls[|ls| - 1]);
    }
  }

  /**
   No lost wake-up: a worker at or blocked in brpop with an outdated snapshot will be woken. The flag is set, and a
   token waits or the updater, still holding the lock, is about to push one; between its change of the list and
   the setting of the flag that updater holds the lock, too.
   */
  lemma NoLostWakeUp(tech: Channel, lists: Lists, ls: seq<Label>)
    requires Run(tech, lists, ls).Some?
    requires var s := Run(tech, lists, ls).value; s.worker == AtPop && s.snapshot != s.subs
    ensures var s := Run(tech, lists, ls).value;
      || (s.changed && Tokens(s) > 0)
      || (s.lock == ByUpdater && (s.updater.Mutated? || (s.updater.Flagged? && s.changed)))
    ensures var s := Run(tech, lists, ls).value;
      s.updater == NoUpdate ==> Enabled(s, Pop) && Ready(s.snapshot, s.lists) == Some(s.tech)
  {
    RunInv(tech, lists, ls);
  }

  /** A token is served before any user message. */
  lemma UserPopMeansNoToken(s: State)
    requires Inv(s) && Enabled(s, Pop) && Ready(s.snapshot, s.lists).value != s.tech
    ensures Tokens(s) == 0
  {
  }

  /**
   No stale pop, exactly: a message comes from a subscribed queue, or the stop_listening call for that very queue
   is in progress, between its change of the list and its wake token.
   */
  lemma NoStalePop(tech: Channel, lists: Lists, ls: seq<Label>)
    requires Run(tech, lists, ls).Some? && Enabled(Run(tech, lists, ls).value, Pop)
    ensures var s := Run(tech, lists, ls).value; var q := Ready(s.snapshot, s.lists).value;
      || q == s.tech
      || q in s.subs
      || s.updater == Mutated(StopListening(q)) || s.updater == Flagged(StopListening(q))
  {
    var s := Run(tech, lists, ls).value;
    RunInv(tech, lists, ls);
    hide Run;
    StalePop(s);
  }

  lemma StalePop(s: State)
    requires Inv(s) && Enabled(s, Pop)
    ensures var q := Ready(s.snapshot, s.lists).value;
      || q == s.tech
      || q in s.subs
      || s.updater == Mutated(StopListening(q)) || s.updater == Flagged(StopListening(q))
  {
    var q := Ready(s.snapshot, s.lists).value;
    ReadyIsNonEmpty(s.snapshot, s.lists);
    if q != s.tech {
      UserPopMeansNoToken(s);
      hide Ready, FifoInv;
      if s.updater.Mutated? || s.updater.Flagged? {
        if s.updater.op.StopListening? {
          WithoutMembers(s.snapshot, s.updater.op.queue);
        }
      }
    }
  }

  /** Queue q is unsubscribed and out of the worker's sight, and nobody is about to subscribe to it. */
  ghost predicate Quiet(s: State, q: Channel) {
    && q != s.tech && q !in s.subs
    && (s.updater != NoUpdate ==> s.updater.op != Listen(q))
    && (!s.changed || s.worker == Unlocking || (s.worker == AtPop && Tokens(s) == 0) ==> q !in s.snapshot)
  }

  lemma StopMakesQuiet(s: State, q: Channel)
    requires Inv(s) && s.updater == Pushed(StopListening(q))
    ensures Quiet(s, q)
  {
  }

  lemma WorkerKeepsQuiet(s: State, l: Label, q: Channel)
    requires Inv(s) && Quiet(s, q) && Enabled(s, l) && WorkerLabel(l)
    ensures Quiet(Apply(s, l), q)
  {
    hide Ready, Reverse, FifoInv, UpdateInv, OwnerInv, Do;
  }

  lemma ChangeKeepsQuiet(s: State, q: Channel)
    requires Inv(s) && Quiet(s, q) && Enabled(s, Mutate)
    ensures Quiet(Apply(s, Mutate), q)
  {
    hide Ready, Reverse, FifoInv, OwnerInv;
    if s.updater.op.StopListening? {
      WithoutMembers(s.subs, s.updater.op.queue);
    }
    hide Without;
  }

  lemma OthersKeepQuiet(s: State, l: Label, q: Channel)
    requires Inv(s) && Quiet(s, q) && Enabled(s, l) && !WorkerLabel(l) && l != Mutate && l != Begin(Listen(q))
    ensures Quiet(Apply(s, l), q)
  {
    hide Ready, Reverse, FifoInv, UpdateInv, OwnerInv, KeysInv, Do;
  }

  lemma StepKeepsQuiet(s: State, l: Label, q: Channel)
    requires Inv(s) && Quiet(s, q) && Enabled(s, l) && l != Begin(Listen(q))
    ensures Quiet(Apply(s, l), q)
  {
    hide Inv, Quiet, Apply, Enabled;
    if WorkerLabel(l) {
      WorkerKeepsQuiet(s, l, q);
    } else if l == Mutate {
      ChangeKeepsQuiet(s, q);
    } else {
      OthersKeepQuiet(s, l, q);
    }
  }

  lemma QuietMeansNoPop(s: State, q: Channel)
    requires Inv(s) && Quiet(s, q)
    ensures Enabled(s, Pop) ==> Ready(s.snapshot, s.lists).value != q
  {
    if Enabled(s, Pop) {
      ReadyIsNonEmpty(s.snapshot, s.lists);
      if Ready(s.snapshot, s.lists).value == q {
        UserPopMeansNoToken(s);
      }
    }
  }

  /**
   Once stop_listening(q) has pushed its token, and until some listen(q) begins, the worker pops nothing from q.
   */
  lemma {:induction false} StoppedQueueIsNotPopped(s: State, ls: seq<Label>, q: Channel)
    requires Inv(s) && s.updater == Pushed(StopListening(q))
    requires Continue(s, ls).Some? && Begin(Listen(q)) !in ls
    ensures Quiet(Continue(s, ls).value, q)
    ensures var t := Continue(s, ls).value; Enabled(t, Pop) ==> Ready(t.snapshot, t.lists).value != q
  {
    if ls == [] {
      StopMakesQuiet(s, q);
      QuietMeansNoPop(s, q);
    } else {
      var init := ls[..|ls| - 1];
      var prev := Continue(s, init).value;
      StoppedQueueIsNotPopped(s, init, q);
      ContinueKeepsInv(s, ls);
      ContinueKeepsInv(s, init);
      hide Inv, Quiet, Enabled, Apply;
      StepKeepsQuiet(prev, ls[|ls| - 1], q);
      QuietMeansNoPop(Continue(s, ls).value, q);
    }
  }

  /** How many steps the worker has left once m_is_running is false. */
  function Rank(w: WorkerPc): nat {
    match w
    case Exited => 0
    case AtLoop => 1
    case Delivering(_, _) => 2
    case Popped(_, _) => 3
    case AtPop => 4
    case Unlocking => 5
    case Copied => 6
    case InLock => 7
    case AtLock => 8
  }

  function WorkerSteps(ls: seq<Label>): nat {
    if ls == [] then 0 else WorkerSteps(ls[..|ls| - 1]) + if WorkerLabel(ls[|ls| - 1]) then 1 else 0
  }

  function Pops(ls: seq<Label>): nat {
    if ls == [] then 0 else Pops(ls[..|ls| - 1]) + if ls[|ls| - 1] == Pop then 1 else 0
  }

  lemma StepCountsDown(s: State, l: Label)
    requires !s.running && Enabled(s, l)
    ensures var t := Apply(s, l);
      && !t.running
      && Rank(t.worker) + (if WorkerLabel(l) then 1 else 0) <= Rank(s.worker)
      && (if BeforePop(t.worker) then 1 else 0) + (if l == Pop then 1 else 0) <= if BeforePop(s.worker) then 1 else 0
  {
    hide Ready;
  }

  /**
   Shutdown, part one: once m_is_running is cleared, whatever the other threads do, every worker step counts down
   to the exit, and at most one of them is a further brpop.
   */
  lemma {:induction false} ShutdownCountsDown(s: State, ls: seq<Label>)
    requires !s.running && Continue(s, ls).Some?
    ensures var t := Continue(s, ls).value;
      !t.running && WorkerSteps(ls) + Rank(t.worker) <= Rank(s.worker)
      && Pops(ls) + (if BeforePop(t.worker) then 1 else 0) <= if BeforePop(s.worker) then 1 else 0
  {
    if ls != [] {
      ShutdownCountsDown(s, ls[..|ls| - 1]);
      hide Apply, Enabled, Rank, BeforePop;
      StepCountsDown(Continue(s, ls[..|ls| - 1]).value, ls[|ls| - 1]);
    }
  }

  /**
   Shutdown, part two: once the destructor has also pushed its token, the worker is never blocked before its exit;
   and when it has exited, the join returns.
   */
  lemma ShutdownIsNeverBlocked(tech: Channel, lists: Lists, ls: seq<Label>) returns (l: Label)
    requires Run(tech, lists, ls).Some? && Run(tech, lists, ls).value.owner == Notified
    ensures Enabled(Run(tech, lists, ls).value, l)
    ensures if Run(tech, lists, ls).value.worker == Exited then l == Join else WorkerLabel(l)
  {
    var s := Run(tech, lists, ls).value;
    RunInv(tech, lists, ls);
    hide Run, FifoInv;
    match s.worker {
      case AtLoop => l := Check;
      case AtLock => l := Lock;
      case InLock => l := Copy;
      case Copied => l := Clear;
      case Unlocking => l := Unlock;
      case AtPop => l := Pop;
      case Popped(_, _) => l := MarkAlive;
      case Delivering(_, _) => l := Deliver;
      case Exited => l := Join;
    }
  }

  /** User queues are FIFO over all competing consumers, and no message is lost or duplicated by the broker. */
  lemma QueueIsFifo(tech: Channel, lists: Lists, ls: seq<Label>, q: Channel)
    requires Run(tech, lists, ls).Some? && q != tech
    ensures var s := Run(tech, lists, ls).value;
      At(s.popped, q) <= At(s.sent, q) && At(s.sent, q) == At(s.popped, q) + Reverse(At(s.lists, q))
  {
    RunInv(tech, lists, ls);
    TechIsFixed(Init(tech, lists), ls);
    hide Run, Reverse, At;
    assert FifoAt(Run(tech, lists, ls).value, q);
  }

  // ---- what std::list::remove and the choice of BRPOP come to ----

  lemma {:induction false} WithoutConcat(u: seq<Channel>, v: seq<Channel>, c: Channel)
    ensures Without(u + v, c) == Without(u, c) + Without(v, c)
  {
    if u == [] {
      assert u + v == v && Without(u, c) + Without(v, c) == Without(v, c);
    } else {
      assert (u + v)[1..] == u[1..] + v && (u + v)[0] == u[0];
      WithoutConcat(u[1..], v, c);
      var first := if u[0] == c then [] else [u[0]];
      assert first + (Without(u[1..], c) + Without(v, c)) == first + Without(u[1..], c) + Without(v, c);
    }
  }

  lemma {:induction false} WithoutAbsent(s: seq<Channel>, c: Channel)
    requires c !in s
    ensures Without(s, c) == s
  {
    if s != [] {
      WithoutAbsent(s[1..], c);
      assert s == [s[0]] + s[1..];
    }
  }

  /**
   std::list::remove takes each occurrence out where it stands, and nothing else: what is before it and what is after it
   stay in their order. In particular a queue that occurs once leaves the two parts around it as they are.
   */
  lemma RemovalKeepsOrder(u: seq<Channel>, v: seq<Channel>, c: Channel)
    ensures Without(u + [c] + v, c) == Without(u, c) + Without(v, c)
    ensures c !in u && c !in v ==> Without(u + [c] + v, c) == u + v
    ensures c !in u ==> Without(u, c) == u
  {
    WithoutConcat(u + [c], v, c);
    WithoutConcat(u, [c], c);
    assert [c][1..] == [];
    assert Without([c], c) == [] + Without([], c) == [];
    assert Without(u, c) + [] == Without(u, c);
    if c !in u {
      WithoutAbsent(u, c);
    }
    if c !in v {
      WithoutAbsent(v, c);
    }
  }

  /** BRPOP serves keys[k] exactly when its list has something and the lists of all keys before it have nothing. */
  ghost predicate ServesKey(keys: seq<Channel>, lists: Lists, k: nat) {
    k < |keys| && At(lists, keys[k]) != [] && forall j :: 0 <= j < k ==> At(lists, keys[j]) == []
  }

  lemma {:induction false} ReadyIsFirst(keys: seq<Channel>, lists: Lists, k: nat)
    requires ServesKey(keys, lists, k)
    ensures Ready(keys, lists) == Some(keys[k])
  {
    if k > 0 {
      assert At(lists, keys[0]) == [];
      assert forall j :: 0 <= j < k - 1 ==> keys[1..][j] == keys[j + 1];
      ReadyIsFirst(keys[1..], lists, k - 1);
    }
  }

  lemma {:induction false} SomeKeyServed(keys: seq<Channel>, lists: Lists) returns (k: nat)
    requires Ready(keys, lists).Some?
    ensures ServesKey(keys, lists, k)
  {
    if At(lists, keys[0]) != [] {
      k := 0;
    } else {
      var rest := SomeKeyServed(keys[1..], lists);
      k := rest + 1;
      forall j | 0 <= j < k ensures At(lists, keys[j]) == [] {
        if j > 0 {
          assert keys[1..][j - 1] == keys[j];
        }
      }
    }
  }

  /** The key that BRPOP serves: the first in argument order whose list has something; it blocks when all are empty. */
  lemma ServedKeyIff(keys: seq<Channel>, lists: Lists, q: Channel)
    ensures Ready(keys, lists) == Some(q) <==> exists k: nat :: ServesKey(keys, lists, k) && keys[k] == q
    ensures Ready(keys, lists) == None <==> forall k :: 0 <= k < |keys| ==> At(lists, keys[k]) == []
  {
    if Ready(keys, lists).Some? {
      var k := SomeKeyServed(keys, lists);
      ReadyIsFirst(keys, lists, k);
    } else if i :| 0 <= i < |keys| && At(lists, keys[i]) != [] {
      NoneReady(keys, lists, i);
    }
    forall k: nat | ServesKey(keys, lists, k) ensures Ready(keys, lists) == Some(keys[k]) {
      ReadyIsFirst(keys, lists, k);
    }
    hide Ready;
  }

  lemma {:induction false} NoneReady(keys: seq<Channel>, lists: Lists, i: nat)
    requires i < |keys| && At(lists, keys[i]) != []
    ensures Ready(keys, lists).Some?
  {
    if i > 0 && At(lists, keys[0]) == [] {
      assert keys[1..][i - 1] == keys[i];
      NoneReady(keys[1..], lists, i - 1);
    }
  }
}
