/** When a popped message finds no handler, exactly. */
module LostMessages {
  import opened Common
  import opened QueueConsumer
  import opened QueueConsumerTheorems
  import opened QueueWorker

  datatype Change = Unchanged | LastAdded | LastRemoved

  /** The last manager call of a run that changed the entry of queue q. */
  function LastChange(ls: seq<Step>, q: Channel): Change {
    if ls == [] then Unchanged
    else if ls[|ls| - 1] == AddEntry(q) then LastAdded
    else if ls[|ls| - 1] == RemoveEntry(q) then LastRemoved
    else LastChange(ls[..|ls| - 1], q)
  }

  /** Spelled out: a removal of q after which q is not added again. */
  lemma {:induction false} LastChangeIsRemoval(ls: seq<Step>, q: Channel)
    ensures LastChange(ls, q) == LastRemoved
      <==> exists j :: 0 <= j < |ls| && ls[j] == RemoveEntry(q) && AddEntry(q) !in ls[j..]
  {
    if ls != [] {
      var n := |ls| - 1;
      var init := ls[..n];
      LastChangeIsRemoval(init, q);
      assert ls == init + [ls[n]];
      if ls[n] == RemoveEntry(q) {
        assert ls[n..] == [RemoveEntry(q)];
      } else if ls[n] != AddEntry(q) {
        forall j | 0 <= j < n ensures AddEntry(q) in ls[j..] <==> AddEntry(q) in init[j..] {
          assert ls[j..] == init[j..] + [ls[n]];
        }
      } else {
        forall j | 0 <= j < |ls| ensures AddEntry(q) in ls[j..] {
          assert ls[j..][n - j] == ls[n];
        }
      }
    }
  }

  lemma {:induction false} LastChangeAppends(a: seq<Step>, b: seq<Step>, q: Channel)
    ensures LastChange(a + b, q) == if LastChange(b, q) == Unchanged then LastChange(a, q) else LastChange(b, q)
  {
    if b == [] {
      assert a + b == a;
    } else {
      assert (a + b)[..|a + b| - 1] == a + b[..|b| - 1];
      LastChangeAppends(a, b[..|b| - 1], q);
    }
  }

  lemma BaseKeepsEntries(s: Consumer, b: QueueWorker.Label)
    requires QueueConsumer.Enabled(s, Base(b))
    ensures QueueConsumer.Apply(s, Base(b)).entries == s.entries
  {
    hide QueueWorker.Apply, QueueWorker.Enabled, BaseAllowed, Add;
  }

  lemma DispatchKeepsEntries(s: Consumer, expired: bool)
    requires QueueConsumer.Enabled(s, Dispatch(expired))
    ensures QueueConsumer.Apply(s, Dispatch(expired)).entries == s.entries
  {
    hide QueueWorker.Apply, QueueWorker.Enabled, Add;
  }

  lemma StepChangesEntries(s: Consumer, l: Step, q: Channel)
    requires QueueConsumer.Enabled(s, l)
    ensures q in QueueConsumer.Apply(s, l).entries
      <==> if l == AddEntry(q) then true else if l == RemoveEntry(q) then false else q in s.entries
    ensures QueueConsumer.Apply(s, l).w.tech == s.w.tech
  {
    hide QueueWorker.Apply, QueueWorker.Enabled;
    if l.Base? {
      ConnectorPart(s, l);
      QueueWorker.StepKeepsTech(s.w, l.l);
      BaseKeepsEntries(s, l.l);
      hide QueueConsumer.Apply, QueueConsumer.Enabled;
    } else if l.Dispatch? {
      ConnectorPart(s, l);
      QueueWorker.StepKeepsTech(s.w, Deliver);
      DispatchKeepsEntries(s, l.expired);
      hide QueueConsumer.Apply, QueueConsumer.Enabled;
    }
  }

  /** The manager holds queue q exactly when the last call that changed its entry was an add. */
  lemma {:induction false} EntriesAreLastAdds(tech: Channel, lists: Lists, ls: seq<Step>, q: Channel)
    requires QueueConsumer.Run(tech, lists, ls).Some?
    ensures var s := QueueConsumer.Run(tech, lists, ls).value; s.w.tech == tech && (q in s.entries <==> LastChange(ls, q) == LastAdded)
  {
    hide QueueConsumer.Apply, QueueConsumer.Enabled;
    if ls != [] {
      var init := ls[..|ls| - 1];
      EntriesAreLastAdds(tech, lists, init, q);
      StepChangesEntries(QueueConsumer.Run(tech, lists, init).value, ls[|ls| - 1], q);
    }
  }

  /** What dispatching the message in the worker's hands does: it reaches its handler, or it is lost. */
  predicate Lost(s: Consumer, expired: bool)
    requires QueueConsumer.Enabled(s, Dispatch(expired))
  {
    QueueConsumer.Apply(s, Dispatch(expired)).stopped == Add(s.stopped, s.w.worker.queue, s.w.worker.message)
  }

  predicate Reached(s: Consumer, expired: bool)
    requires QueueConsumer.Enabled(s, Dispatch(expired))
  {
    var t := QueueConsumer.Apply(s, Dispatch(expired));
    if expired then t.dropped == Add(s.dropped, s.w.worker.queue, s.w.worker.message)
    else t.handled == Add(s.handled, s.w.worker.queue, s.w.worker.message)
  }

  lemma AddIsVisible(m: Lists, q: Channel, x: Message)
    ensures Add(m, q, x) != m
  {
    assert |At(Add(m, q, x), q)| == |At(m, q)| + 1;
  }

  lemma DispatchByEntry(s: Consumer, expired: bool)
    requires HandInv(s) && QueueConsumer.Enabled(s, Dispatch(expired))
    ensures Lost(s, expired) <==> s.w.worker.queue !in s.entries
    ensures Reached(s, expired) <==> s.w.worker.queue in s.entries
  {
    var q, m := s.w.worker.queue, s.w.worker.message;
    DispatchEffect(s, expired);
    assert Carries(s.w.worker, q);
    AddIsVisible(s.stopped, q, m);
    AddIsVisible(s.dropped, q, m);
    AddIsVisible(s.handled, q, m);
    hide QueueWorker.Apply, QueueWorker.Enabled, QueueConsumer.Apply, QueueConsumer.Enabled, Add;
  }

  /**
   Exactly when a message finds no handler: in every run in which a dispatch is enabled, the message is lost if and only if
   the last add or remove of its queue is not an add; otherwise it reaches its handler, or the handler's expiry test.
   */
  lemma NoHandlerIff(tech: Channel, lists: Lists, ls: seq<Step>, expired: bool)
    requires QueueConsumer.Run(tech, lists, ls).Some?
    requires QueueConsumer.Enabled(QueueConsumer.Run(tech, lists, ls).value, Dispatch(expired))
    ensures var s := QueueConsumer.Run(tech, lists, ls).value;
      && (Lost(s, expired) <==> LastChange(ls, s.w.worker.queue) != LastAdded)
      && (Reached(s, expired) <==> LastChange(ls, s.w.worker.queue) == LastAdded)
  {
    QueueConsumer.RunInv(tech, lists, ls);
    EntriesAreLastAdds(tech, lists, ls, QueueConsumer.Run(tech, lists, ls).value.w.worker.queue);
    DispatchByEntry(QueueConsumer.Run(tech, lists, ls).value, expired);
    hide *;
  }

  /** Until its next pop the worker's hands hold what they held, or nothing. */
  lemma {:induction false} SameMessage(s: Consumer, ls: seq<Step>, q: Channel)
    requires QueueConsumer.Continue(s, ls).Some? && Base(Pop) !in ls
    requires Carries(QueueConsumer.Continue(s, ls).value.w.worker, q)
    ensures Carries(s.w.worker, q)
  {
    hide QueueConsumer.Apply, QueueConsumer.Enabled, Carries;
    if ls != [] {
      var init, l := ls[..|ls| - 1], ls[|ls| - 1];
      assert ls == init + [l];
      var prev := QueueConsumer.Continue(s, init).value;
      ConnectorPart(prev, l);
      hide QueueWorker.Apply, QueueWorker.Enabled;
      if l.Base? {
        StillCarries(prev.w, l.l, q);
      } else if l.Dispatch? {
        StillCarries(prev.w, Deliver, q);
      }
      SameMessage(s, init, q);
    }
  }

  /** When a message is popped from q outside any stop of q, the manager holds q. */
  lemma PoppedIsHeld(s: Consumer, q: Channel)
    requires QueueConsumer.Inv(s) && QueueConsumer.Enabled(s, Base(Pop)) && q != s.w.tech
    requires q == Ready(s.w.snapshot, s.w.lists).value && (s.call != NoCall ==> s.call.op != StopListening(q))
    ensures q in s.entries
  {
    PopIsCovered(s, q);
  }

  /**
   Exactly when a message that was popped outside any stop of its queue is lost: if and only if a remove call for the
   queue comes after the pop and no add call for it comes after that. So being popped during a stop is not necessary.
   Here s0 is the state at the pop and s the state in front of the dispatch.
   */
  lemma LostAfterPopIff(
      tech: Channel, lists: Lists, before: seq<Step>, s0: Consumer, after: seq<Step>, s: Consumer, q: Channel, expired: bool)
    requires QueueConsumer.Run(tech, lists, before) == Some(s0)
    requires QueueConsumer.Run(tech, lists, before + [Base(Pop)] + after) == Some(s) && Base(Pop) !in after
    requires QueueConsumer.Enabled(s, Dispatch(expired)) && q == s.w.worker.queue
    requires s0.call == NoCall || s0.call.op != StopListening(q)
    ensures Lost(s, expired) <==> exists j :: 0 <= j < |after| && after[j] == RemoveEntry(q) && AddEntry(q) !in after[j..]
  {
    HeldAtPop(tech, lists, before, s0, after, s, q, expired);
    NoHandlerIff(tech, lists, before + [Base(Pop)] + after, expired);
    hide QueueConsumer.Run, QueueConsumer.Enabled, Lost, Reached;
    LastChangeAppends(before, [Base(Pop)], q);
    LastChangeAppends(before + [Base(Pop)], after, q);
    LastChangeIsRemoval(after, q);
  }

  /** A message popped outside any stop of its queue had its handler at the pop. */
  lemma HeldAtPop(
      tech: Channel, lists: Lists, before: seq<Step>, s0: Consumer, after: seq<Step>, s: Consumer, q: Channel, expired: bool)
    requires QueueConsumer.Run(tech, lists, before) == Some(s0)
    requires QueueConsumer.Run(tech, lists, before + [Base(Pop)] + after) == Some(s) && Base(Pop) !in after
    requires QueueConsumer.Enabled(s, Dispatch(expired)) && q == s.w.worker.queue
    requires s0.call == NoCall || s0.call.op != StopListening(q)
    ensures LastChange(before, q) == LastAdded
  {
    assert s.w.worker.Delivering?;
    QueueConsumer.RunInv(tech, lists, before + [Base(Pop)] + after);
    DeliversUserMessages(s);
    hide QueueConsumer.Inv, QueueConsumer.Enabled, QueueConsumer.Run;
    assert Carries(s.w.worker, q);
    QueueConsumer.RunInv(tech, lists, before);
    PoppedQueue(tech, lists, before, after, q);
    EntriesAreLastAdds(tech, lists, before, q);
    EntriesAreLastAdds(tech, lists, before + [Base(Pop)] + after, q);
    PoppedIsHeld(s0, q);
  }

  lemma DeliversUserMessages(s: Consumer)
    requires QueueConsumer.Inv(s) && s.w.worker.Delivering?
    ensures s.w.worker.queue != s.w.tech
  {
    hide QueueWorker.Inv;
  }

  /** A prefix of a run is a run, and its next step was enabled. */
  lemma {:induction false} PrefixRuns(s: Consumer, a: seq<Step>, b: seq<Step>)
    requires QueueConsumer.Continue(s, a + b).Some?
    ensures QueueConsumer.Continue(s, a).Some?
    ensures QueueConsumer.Continue(QueueConsumer.Continue(s, a).value, b) == QueueConsumer.Continue(s, a + b)
    ensures b != [] ==> QueueConsumer.Enabled(QueueConsumer.Continue(s, a).value, b[0])
  {
    hide QueueConsumer.Apply, QueueConsumer.Enabled;
    if b == [] {
      assert a + b == a;
    } else {
      assert (a + b)[..|a + b| - 1] == a + b[..|b| - 1];
      PrefixRuns(s, a, b[..|b| - 1]);
    }
  }

  /** The message in hand at the end is the one popped in the middle. */
  lemma PoppedQueue(tech: Channel, lists: Lists, before: seq<Step>, after: seq<Step>, q: Channel)
    requires QueueConsumer.Run(tech, lists, before + [Base(Pop)] + after).Some? && Base(Pop) !in after
    requires Carries(QueueConsumer.Run(tech, lists, before + [Base(Pop)] + after).value.w.worker, q)
    requires QueueConsumer.Run(tech, lists, before).Some?
    ensures var s0 := QueueConsumer.Run(tech, lists, before).value;
      QueueConsumer.Enabled(s0, Base(Pop)) && Ready(s0.w.snapshot, s0.w.lists) == Some(q)
  {
    var init := QueueConsumer.Init(tech, lists);
    PrefixRuns(init, before + [Base(Pop)], after);
    PrefixRuns(init, before, [Base(Pop)]);
    var s0 := QueueConsumer.Run(tech, lists, before).value;
    var s1 := QueueConsumer.Run(tech, lists, before + [Base(Pop)]).value;
    assert (before + [Base(Pop)])[..|before|] == before;
    assert s1 == QueueConsumer.Apply(s0, Base(Pop));
    SameMessage(s1, after, q);
    PopEffect(s0);
  }
}

/** A run from the start of a connector in which a message loses its handler although no stop was under way at its pop. */
module OvertakenRun {
  import opened Common
  import opened QueueConsumer
  import opened QueueConsumerTheorems
  import opened QueueWorker
  import LostMessages
  import QueueHalf

  function Steps(ls: seq<QueueWorker.Label>): seq<Step> {
    if ls == [] then [] else Steps(ls[..|ls| - 1]) + [Base(ls[|ls| - 1])]
  }

  /** The labels that concern the connector only. */
  predicate Plain(l: QueueWorker.Label) {
    !l.Begin? && !l.End? && !l.Stop? && !l.Deliver? && !l.Pop? && !l.Steal?
  }

  lemma PlainStep(s: Consumer, l: QueueWorker.Label)
    requires Plain(l) && QueueWorker.Enabled(s.w, l)
    ensures QueueConsumer.Enabled(s, Base(l)) && QueueConsumer.Apply(s, Base(l)) == s.(w := QueueWorker.Apply(s.w, l))
  {
    hide QueueWorker.Apply, QueueWorker.Enabled;
  }

  /** A run of the connector alone is a run of the consumer. */
  lemma {:induction false} Lift(s: Consumer, ls: seq<QueueWorker.Label>)
    requires (forall l :: l in ls ==> Plain(l)) && QueueWorker.Continue(s.w, ls).Some?
    ensures QueueConsumer.Continue(s, Steps(ls)) == Some(s.(w := QueueWorker.Continue(s.w, ls).value))
  {
    if ls == [] {
      assert s.(w := s.w) == s;
    } else {
      var init, l := ls[..|ls| - 1], ls[|ls| - 1];
      Lift(s, init);
      var t := s.(w := QueueWorker.Continue(s.w, init).value);
      hide QueueWorker.Apply, QueueWorker.Enabled, QueueConsumer.Apply, QueueConsumer.Enabled;
      PlainStep(t, l);
      OneMoreStep(s, Steps(init), Base(l));
    }
  }

  lemma LiftOne(s: Consumer, l: QueueWorker.Label)
    requires Plain(l) && QueueWorker.Enabled(s.w, l)
    ensures QueueConsumer.Continue(s, [Base(l)]) == Some(s.(w := QueueWorker.Apply(s.w, l)))
  {
    hide QueueWorker.Apply, QueueWorker.Enabled;
    PlainStep(s, l);
    OneMoreStep(s, [], Base(l));
    assert [] + [Base(l)] == [Base(l)];
  }

  /** The worker in front of its loop takes its snapshot. */
  lemma Refreshes(s: Consumer) returns (ls: seq<Step>)
    requires s.w.worker == AtLoop && s.w.running && s.w.lock == Free
    ensures QueueConsumer.Continue(s, ls)
      == Some(s.(w := s.w.(snapshot := if s.w.changed then s.w.subs else s.w.snapshot, changed := false, worker := AtPop)))
  {
    QueueHalf.RefreshRuns(s.w);
    Lift(s, QueueHalf.RefreshSteps(s.w.changed));
    ls := Steps(QueueHalf.RefreshSteps(s.w.changed));
  }

  /** It pops, with no call under way. */
  lemma Pops(s: Consumer, q: Channel)
    requires s.w.worker == AtPop && s.call == NoCall && Ready(s.w.snapshot, s.w.lists) == Some(q)
    ensures At(s.w.lists, q) != []
    ensures QueueConsumer.Continue(s, [Base(Pop)])
      == Some(s.(overlapped := false, w := Take(s.w, q).(worker := Popped(q, Right(At(s.w.lists, q))))))
  {
    ReadyIsNonEmpty(s.w.snapshot, s.w.lists);
    PopEffect(s);
    OneMoreStep(s, [], Base(Pop));
    assert [] + [Base(Pop)] == [Base(Pop)];
    assert QueueWorker.Apply(s.w, Pop) == Take(s.w, q).(worker := Popped(q, Right(At(s.w.lists, q))));
    hide Ready, Take, Right, At;
  }

  /** One turn that serves a wake token. */
  lemma TokenTurn(s: Consumer) returns (ls: seq<Step>, t: Consumer)
    requires s.w.worker == AtLoop && s.w.running && s.w.lock == Free && s.call == NoCall && s.w.changed
    requires s.w.subs != [] && s.w.subs[0] == s.w.tech && At(s.w.lists, s.w.tech) == [[]]
    ensures QueueConsumer.Continue(s, ls) == Some(t)
    ensures t == s.(overlapped := false,
                    w := s.w.(snapshot := s.w.subs, changed := false, alive := true, lists := s.w.lists[s.w.tech := []]))
  {
    var refresh := Refreshes(s);
    var s1 := s.(w := s.w.(snapshot := s.w.subs, changed := false, worker := AtPop));
    var s2 := s1.(overlapped := false, w := s1.w.(lists := s.w.lists[s.w.tech := []], worker := Popped(s.w.tech, [])));
    Pops(s1, s.w.tech);
    assert QueueConsumer.Continue(s1, [Base(Pop)]) == Some(s2);
    LiftOne(s2, MarkAlive);
    t := s2.(w := s2.w.(alive := true, worker := AtLoop));
    assert QueueWorker.Apply(s2.w, MarkAlive) == t.w;
    hide QueueConsumer.Continue, QueueWorker.Apply;
    ContinueConcat(s, refresh, [Base(Pop)]);
    ContinueConcat(s, refresh + [Base(Pop)], [Base(MarkAlive)]);
    ls := refresh + [Base(Pop)] + [Base(MarkAlive)];
  }

  /** Where the run is after its first turn. */
  function Awake(tech: Channel): Consumer {
    QueueConsumer.Init(tech, map[]).(w := QueueWorker.Init(tech, map[]).(
      snapshot := [tech], changed := false, alive := true, owner := Started, lists := map[tech := []]))
  }

  /** The connector after the constructor's first token. */
  function Nudged(tech: Channel): QueueWorker.State {
    QueueWorker.Init(tech, map[]).(lists := map[tech := [[]]])
  }

  lemma NudgedConnector(tech: Channel)
    ensures var w := QueueWorker.Init(tech, map[]); QueueWorker.Enabled(w, Nudge) && QueueWorker.Apply(w, Nudge) == Nudged(tech)
  {
    var token: seq<Message> := [[]];
    assert [] + token == token;
  }

  lemma AwakeConnector(tech: Channel)
    ensures At(Nudged(tech).lists, tech) == [[]]
    ensures var w := Nudged(tech).(snapshot := Nudged(tech).subs, changed := false, alive := true,
                                   lists := Nudged(tech).lists[tech := []]);
      QueueWorker.Enabled(w, Start) && QueueWorker.Apply(w, Start) == Awake(tech).w
  {
    assert Nudged(tech).lists[tech := []] == Awake(tech).w.lists;
  }

  /** From construction to the first turn after it. */
  lemma Starts(tech: Channel) returns (ls: seq<Step>, t: Consumer)
    ensures QueueConsumer.Run(tech, map[], ls) == Some(t) && t == Awake(tech)
  {
    var s := QueueConsumer.Init(tech, map[]);
    var s1 := s.(w := Nudged(tech));
    NudgedConnector(tech);
    AwakeConnector(tech);
    t := Awake(tech);
    assert s.(w := t.w) == t;
    hide QueueWorker.Apply, QueueWorker.Enabled, At, Awake, QueueConsumer.Continue;
    LiftOne(s, Nudge);
    var turn, s2 := TokenTurn(s1);
    hide Nudged;
    LiftOne(s2, Start);
    hide QueueConsumer.Init, QueueWorker.Init;
    ContinueConcat(s, [Base(Nudge)], turn);
    ContinueConcat(s, [Base(Nudge)] + turn, [Base(Start)]);
    ls := [Base(Nudge)] + turn + [Base(Start)];
  }

  /** And after a listen call and a request. */
  function Asked(tech: Channel, q: Channel, m: Message): Consumer {
    var s := Awake(tech);
    s.(entries := {q}, w := s.w.(subs := [tech, q], changed := true, lists := map[tech := [[]], q := [m]],
                                 sent := map[q := [m]]))
  }

  /** The connector after the call and the request. */
  lemma AskedConnector(tech: Channel, q: Channel, m: Message)
    requires q != tech
    ensures var w := WithToken(Awake(tech).w).(subs := [tech] + [q], changed := true);
      QueueWorker.Enabled(w, Send(q, m)) && QueueWorker.Apply(w, Send(q, m)) == Asked(tech, q, m).w
  {
    var token: seq<Message> := [[]];
    assert [] + token == token && [m] + [] == [m] && [] + [m] == [m];
    assert WithToken(Awake(tech).w).lists == map[tech := token];
  }

  lemma AskRuns(tech: Channel, q: Channel, m: Message)
    requires q != tech
    ensures QueueConsumer.Continue(Awake(tech), CallSteps(Listen(q)) + [Base(Send(q, m))]) == Some(Asked(tech, q, m))
  {
    var s := Awake(tech);
    CallRuns(s, Listen(q));
    var s1 := Entered(s, Listen(q)).(w := WithToken(s.w).(subs := [tech] + [q], changed := true));
    assert s1.(w := Asked(tech, q, m).w) == Asked(tech, q, m);
    AskedConnector(tech, q, m);
    hide QueueWorker.Apply, QueueWorker.Enabled, WithToken, Awake, Asked, Entered, CallSteps;
    LiftOne(s1, Send(q, m));
    hide QueueConsumer.Continue;
    ContinueConcat(s, CallSteps(Listen(q)), [Base(Send(q, m))]);
  }

  /** A listen call, a request, and the turn that picks up the change. */
  lemma Subscribes(tech: Channel, q: Channel, m: Message) returns (ls: seq<Step>, t: Consumer)
    requires q != tech
    ensures QueueConsumer.Continue(Awake(tech), ls) == Some(t)
    ensures Ripe(t, StopListening(q)) && t.w.worker == AtLoop && t.w.running && !t.w.changed
    ensures t.w.snapshot == [tech, q] && At(t.w.lists, tech) == [] && At(t.w.lists, q) == [m]
  {
    AskRuns(tech, q, m);
    var turn;
    turn, t := TokenTurn(Asked(tech, q, m));
    hide QueueConsumer.Continue, CallSteps;
    ContinueConcat(Awake(tech), CallSteps(Listen(q)) + [Base(Send(q, m))], turn);
    ls := CallSteps(Listen(q)) + [Base(Send(q, m))] + turn;
  }

  /** A run that ends with a message of q just popped, the manager holding q, and no call under way. */
  lemma PoppedOutsideAnyStop(tech: Channel, q: Channel, m: Message) returns (before: seq<Step>)
    requires q != tech
    ensures QueueConsumer.Run(tech, map[], before + [Base(Pop)]).Some?
    ensures QueueConsumer.Run(tech, map[], before).Some? && QueueConsumer.Run(tech, map[], before).value.call == NoCall
    ensures var t := QueueConsumer.Run(tech, map[], before + [Base(Pop)]).value;
      Ripe(t, StopListening(q)) && t.w.worker == Popped(q, m)
  {
    var init := QueueConsumer.Init(tech, map[]);
    var start, s := Starts(tech);
    var subscribe, s1 := Subscribes(tech, q, m);
    var refresh := Refreshes(s1);
    var s2 := s1.(w := s1.w.(worker := AtPop));
    assert s1.w.(snapshot := s1.w.snapshot, changed := false, worker := AtPop) == s2.w;
    assert Ready([tech, q], s2.w.lists) == Some(q) by {
      assert [tech, q][1..] == [q];
    }
    Pops(s2, q);
    hide QueueConsumer.Continue, Ready;
    ContinueConcat(init, start, subscribe);
    ContinueConcat(init, start + subscribe, refresh);
    before := start + subscribe + refresh;
    ContinueConcat(init, before, [Base(Pop)]);
  }

  /**
   The counterexample, from the start: a run in which a message is popped while no call is under way, and is
   nevertheless lost, to a stop that begins after the pop.
   */
  lemma LostWithoutAStopAtItsPop(tech: Channel, q: Channel, m: Message) returns (before: seq<Step>, after: seq<Step>)
    requires q != tech
    ensures QueueConsumer.Run(tech, map[], before).Some? && QueueConsumer.Run(tech, map[], before).value.call == NoCall
    ensures QueueConsumer.Run(tech, map[], before + [Base(Pop)]).Some?
    ensures QueueConsumer.Run(tech, map[], before + [Base(Pop)]).value.w.worker == Popped(q, m)
    ensures var t := QueueConsumer.Run(tech, map[], before + [Base(Pop)] + after); t.Some? && m in At(t.value.stopped, q)
  {
    before := PoppedOutsideAnyStop(tech, q, m);
    var init := QueueConsumer.Init(tech, map[]);
    var s := QueueConsumer.Run(tech, map[], before + [Base(Pop)]).value;
    StopOvertakesDispatch(s, q, m);
    after := CallSteps(StopListening(q)) + [Base(MarkAlive)] + [Dispatch(false)];
    hide QueueConsumer.Continue, CallSteps;
    ContinueConcat(init, before + [Base(Pop)], after);
    var stopped := At(s.stopped, q) + [m];
    assert stopped[|stopped| - 1] == m;
  }
}
