/** What every interleaving of awaits and responses guarantees about one promise. */
module PromiseTheorems {
  import opened Common
  import opened Promise

  /** A step together with the clock reading it is taken at. */
  datatype Event = Event(now: int, step: Label)

  function Continue(p: State, es: seq<Event>): Option<State> {
    if es == [] then Some(p)
    else
      var prev := Continue(p, es[..|es| - 1]);
      var e := es[|es| - 1];
      if prev.Some? && Enabled(prev.value, e.now, e.step) then Some(Apply(prev.value, e.now, e.step)) else None
  }

  /** The states that some interleaving reaches from the constructor. */
  function Run(validUntil: int, es: seq<Event>): Option<State> {
    Continue(Fresh(validUntil), es)
  }

  lemma Extend(p: State, es: seq<Event>, e: Event)
    requires Continue(p, es).Some? && Enabled(Continue(p, es).value, e.now, e.step)
    ensures Continue(p, es + [e]) == Some(Apply(Continue(p, es).value, e.now, e.step))
  {
    assert (es + [e])[..|es|] == es;
  }

  lemma {:induction false} RunsKeepInv(p: State, es: seq<Event>)
    requires Inv(p) && Continue(p, es).Some?
    ensures Inv(Continue(p, es).value)
  {
    if es != [] {
      var init := es[..|es| - 1];
      RunsKeepInv(p, init);
      StepKeepsInv(Continue(p, init).value, es[|es| - 1].now, es[|es| - 1].step);
    }
  }

  lemma RunInv(validUntil: int, es: seq<Event>)
    requires Run(validUntil, es).Some?
    ensures Inv(Run(validUntil, es).value)
  {
    FreshInv(validUntil);
    RunsKeepInv(Fresh(validUntil), es);
  }

  /** At most one accepted response: permits are conserved, and no unlock ever hits an unlocked mutex. */
  lemma PermitConservation(validUntil: int, es: seq<Event>)
    requires Run(validUntil, es).Some? && |Run(validUntil, es).value.accepted| <= 1
    ensures var p := Run(validUntil, es).value;
      !p.misused && |Takers(p)| + (if p.locked then 0 else 1) == p.releases <= 1
  {
    RunInv(validUntil, es);
  }

  /** Every Answer carries the accepted response, and at most one reader gets it. */
  lemma AnswersAreTheAcceptedResponse(validUntil: int, es: seq<Event>, r: Reader, r': Reader)
    requires Run(validUntil, es).Some? && |Run(validUntil, es).value.accepted| <= 1
    requires var p := Run(validUntil, es).value; r in Takers(p) && r' in Takers(p)
    ensures var p := Run(validUntil, es).value; r == r' && p.accepted == [p.response]
    ensures var p := Run(validUntil, es).value; p.readers[r].Returned? ==> p.readers[r].resolution == Answer(p.accepted[0])
  {
    RunInv(validUntil, es);
    var p := Run(validUntil, es).value;
    TakerMeansReleased(p, r);
    var others := Takers(p) - {r};
    assert |others| == |Takers(p)| - 1 == 0;
    assert r' !in others;
  }

  /** An unlock misuses the mutex exactly when an earlier release has not been taken by a reader yet. */
  lemma UnlockMisusesIff(validUntil: int, es: seq<Event>, now: int)
    requires Run(validUntil, es).Some? && !Run(validUntil, es).value.misused
    requires Enabled(Run(validUntil, es).value, now, Unlock)
    ensures var p := Run(validUntil, es).value; Apply(p, now, Unlock).misused <==> |Takers(p)| < p.releases
  {
    RunInv(validUntil, es);
  }

  /** Two responses before the first read do misuse it, so the promise depends on at-most-once delivery. */
  lemma TwoResponsesMisuse(m: Bytes, m': Bytes)
    ensures var es := ([Event(0, Accept(m))] + [Event(0, Store)] + [Event(0, Unlock)])
                      + [Event(0, Accept(m'))] + [Event(0, Store)] + [Event(0, Unlock)];
      Run(0, es).Some? && Run(0, es).value.misused
  {
    var e3 := [Event(0, Accept(m))] + [Event(0, Store)] + [Event(0, Unlock)];
    FirstResponse(m);
    var p3 := Run(0, e3).value;
    Extend(Fresh(0), e3, Event(0, Accept(m')));
    Extend(Fresh(0), e3 + [Event(0, Accept(m'))], Event(0, Store));
    Extend(Fresh(0), e3 + [Event(0, Accept(m'))] + [Event(0, Store)], Event(0, Unlock));
  }

  lemma FirstResponse(m: Bytes)
    ensures Run(0, [Event(0, Accept(m))] + [Event(0, Store)] + [Event(0, Unlock)])
      == Some(Fresh(0).(locked := false, response := m, accepted := [m], releases := 1))
  {
    var e1 := [Event(0, Accept(m))];
    assert [] + e1 == e1 && [] + [m] == [m];
    Extend(Fresh(0), [], Event(0, Accept(m)));
    Extend(Fresh(0), e1, Event(0, Store));
    Extend(Fresh(0), e1 + [Event(0, Store)], Event(0, Unlock));
  }

  /** An await that has not yet left try_lock_until, or has not even begun. */
  predicate NotDecided(p: State, r: Reader) {
    r in p.readers ==> p.readers[r] == Checking || p.readers[r] == Waiting
  }

  predicate GaveUp(p: State, r: Reader) {
    r in p.readers && (p.readers[r] == Expired || p.readers[r] == MarkedExpired || p.readers[r] == Returned(Timeout))
  }

  /** What no step takes back. */
  ghost predicate Grows(p: State, q: State) {
    && p.accepted <= q.accepted && p.releases <= q.releases && Takers(p) <= Takers(q)
    && (p.resultRead ==> q.resultRead) && p.validUntil == q.validUntil
  }

  lemma StepGrows(p: State, now: int, l: Label)
    requires Enabled(p, now, l)
    ensures Grows(p, Apply(p, now, l))
  {
  }

  lemma {:induction false} HistoryGrows(p: State, es: seq<Event>)
    requires Continue(p, es).Some?
    ensures Grows(p, Continue(p, es).value)
  {
    if es != [] {
      var init := es[..|es| - 1];
      HistoryGrows(p, init);
      StepGrows(Continue(p, init).value, es[|es| - 1].now, es[|es| - 1].step);
    }
  }

  lemma OnlyGiveUpTimesOut(p: State, now: int, l: Label, r: Reader)
    requires Enabled(p, now, l) && !GaveUp(p, r) && GaveUp(Apply(p, now, l), r)
    ensures l == GiveUp(r) && p.validUntil <= now && p.locked
  {
  }

  /**
   A release before an await attempt ends is not lost, even when the await starts after the deadline: if such
   an await gave up, then some other reader had taken the permit.
   */
  lemma {:induction false} ReleaseIsNotLost(p: State, es: seq<Event>, r: Reader)
    requires Inv(p) && p.releases >= 1 && NotDecided(p, r)
    requires Continue(p, es).Some? && |Continue(p, es).value.accepted| <= 1
    requires GaveUp(Continue(p, es).value, r)
    ensures exists r' :: r' in Takers(Continue(p, es).value) && r' != r
  {
    if es != [] {
      var init := es[..|es| - 1];
      var prev := Continue(p, init).value;
      var q := Continue(p, es).value;
      RunsKeepInv(p, init);
      HistoryGrows(p, init);
      StepGrows(prev, es[|es| - 1].now, es[|es| - 1].step);
      hide Apply, Enabled, GaveUp, NotDecided;
      if GaveUp(prev, r) {
        ReleaseIsNotLost(p, init, r);
        var r' :| r' in Takers(prev) && r' != r;
        assert r' in Takers(q);
      } else {
        OnlyGiveUpTimesOut(prev, es[|es| - 1].now, es[|es| - 1].step, r);
        assert |Takers(prev)| >= 1;
        var r' :| r' in Takers(prev);
        assert r' in Takers(q) && r' != r;
      }
    }
  }

  /** With a release nobody has taken, a waiting await can finish with an answer and cannot give up, at any time. */
  lemma ReleasedPermitIsAvailable(p: State, r: Reader, now: int)
    requires Inv(p) && |p.accepted| <= 1 && p.releases >= 1 && Takers(p) == {} && At(p, r, Waiting)
    ensures Enabled(p, now, TryLock(r)) && !Enabled(p, now, GiveUp(r))
  {
  }

  predicate NotLetIn(p: State, r: Reader) {
    r in p.readers ==> p.readers[r] == Checking || p.readers[r] == Refused
  }

  lemma ReadKeepsOut(p: State, now: int, l: Label, r: Reader)
    requires p.resultRead && NotLetIn(p, r) && Enabled(p, now, l)
    ensures NotLetIn(Apply(p, now, l), r)
  {
  }

  /** Once one read has completed, every await that starts later is refused. */
  lemma {:induction false} LaterReadsAreRefused(p: State, es: seq<Event>, done: Reader, r: Reader)
    requires Inv(p) && done in p.readers && p.readers[done].Returned?
    requires r in p.readers ==> p.readers[r] == Checking
    requires Continue(p, es).Some?
    ensures var q := Continue(p, es).value; r in q.readers ==> q.readers[r] == Checking || q.readers[r] == Refused
  {
    if es != [] {
      var init := es[..|es| - 1];
      LaterReadsAreRefused(p, init, done, r);
      HistoryGrows(p, init);
      var prev := Continue(p, init).value;
      assert prev.resultRead && NotLetIn(prev, r);
      hide Apply, Enabled, Inv, Grows;
      ReadKeepsOut(prev, es[|es| - 1].now, es[|es| - 1].step, r);
    }
  }

  /** Clock readings along the run do not decrease. */
  ghost predicate ClockRuns(es: seq<Event>) {
    forall i, j :: 0 <= i < j < |es| ==> es[i].now <= es[j].now
  }

  /** A Timeout is honest: it is only returned once the deadline has come. */
  lemma {:induction false} TimeoutIsNotEarly(validUntil: int, es: seq<Event>, r: Reader)
    requires Run(validUntil, es).Some? && ClockRuns(es) && GaveUp(Run(validUntil, es).value, r)
    ensures es != [] && validUntil <= es[|es| - 1].now
  {
    if es == [] {
      assert false;
    } else {
      var init := es[..|es| - 1];
      HistoryGrows(Fresh(validUntil), init);
      var prev := Run(validUntil, init).value;
      assert prev.validUntil == validUntil;
      hide Apply, Enabled, GaveUp, Grows;
      if GaveUp(prev, r) {
        TimeoutIsNotEarly(validUntil, init, r);
      } else {
        OnlyGiveUpTimesOut(prev, es[|es| - 1].now, es[|es| - 1].step, r);
      }
    }
  }

  lemma OnlyAcceptAccepts(p: State, now: int, l: Label)
    requires Enabled(p, now, l)
    ensures Apply(p, now, l).accepted == p.accepted + if l.Accept? then [l.m] else []
    ensures l.Accept? ==> now <= p.validUntil
  {
  }

  /** And an accepted response came no later than the deadline. */
  lemma {:induction false} AcceptedInTime(validUntil: int, es: seq<Event>)
    requires Run(validUntil, es).Some? && Run(validUntil, es).value.accepted != []
    ensures exists i :: 0 <= i < |es| && es[i].step.Accept? && es[i].now <= validUntil
                        && es[i].step.m == Run(validUntil, es).value.accepted[0]
  {
    if es != [] {
      var init := es[..|es| - 1];
      HistoryGrows(Fresh(validUntil), init);
      var last := es[|es| - 1];
      assert Run(validUntil, init).value.validUntil == validUntil;
      OnlyAcceptAccepts(Run(validUntil, init).value, last.now, last.step);
      hide Apply, Enabled, Grows;
      if Run(validUntil, init).value.accepted != [] {
        AcceptedInTime(validUntil, init);
        var i :| 0 <= i < |init| && init[i].step.Accept? && init[i].now <= validUntil
                 && init[i].step.m == Run(validUntil, init).value.accepted[0];
        assert es[i] == init[i];
      } else {
        assert es[|es| - 1] == last;
      }
    }
  }

  // ---- refused awaits, and the end of the process ----

  /** Some reader has completed a read as far as setting m_result_read. */
  ghost predicate Marked(es: seq<Event>) {
    exists i :: 0 <= i < |es| && es[i].step.Mark?
  }

  ghost predicate AnyStarted(es: seq<Event>) {
    exists i :: 0 <= i < |es| && es[i].step.Start?
  }

  /** The then call of r has gone on to start its thread. */
  ghost predicate Started(es: seq<Event>, r: Reader) {
    exists i :: 0 <= i < |es| && es[i].step == Start(r)
  }

  /** Reader r tests m_result_read after a completed read. */
  ghost predicate TestsTooLate(es: seq<Event>, r: Reader) {
    exists j :: 0 <= j < |es| && es[j].step == Check(r) && Marked(es[..j])
  }

  /** A thread started by then tests m_result_read after a completed read. */
  ghost predicate ReadOvertakesThen(es: seq<Event>) {
    exists j :: 0 <= j < |es| && es[j].step.Check? && Started(es[..j], es[j].step.r) && Marked(es[..j])
  }

  /** A second call of then has gone on to start its thread. */
  ghost predicate SecondThen(es: seq<Event>) {
    exists j :: 0 <= j < |es| && es[j].step.Start? && AnyStarted(es[..j])
  }

  lemma MarkedAppends(es: seq<Event>, e: Event)
    ensures Marked(es + [e]) <==> Marked(es) || e.step.Mark?
    ensures AnyStarted(es + [e]) <==> AnyStarted(es) || e.step.Start?
  {
    var all := es + [e];
    assert all[|es|] == e && forall i :: 0 <= i < |es| ==> all[i] == es[i];
    if i :| 0 <= i < |es| && es[i].step.Mark? {
      assert all[i].step.Mark?;
    }
    if i :| 0 <= i < |es| && es[i].step.Start? {
      assert all[i].step.Start?;
    }
  }

  lemma StartedAppends(es: seq<Event>, e: Event, r: Reader)
    ensures Started(es + [e], r) <==> Started(es, r) || e.step == Start(r)
  {
    var all := es + [e];
    assert all[|es|] == e && forall i :: 0 <= i < |es| ==> all[i] == es[i];
    if i :| 0 <= i < |es| && es[i].step == Start(r) {
      assert all[i].step == Start(r);
    }
  }

  lemma TestsTooLateAppends(es: seq<Event>, e: Event, r: Reader)
    ensures TestsTooLate(es + [e], r) <==> TestsTooLate(es, r) || (e.step == Check(r) && Marked(es))
  {
    var all := es + [e];
    assert all[..|es|] == es && all[|es|] == e;
    assert forall j :: 0 <= j < |es| ==> all[j] == es[j] && all[..j] == es[..j];
    hide Marked;
    if j :| 0 <= j < |es| && es[j].step == Check(r) && Marked(es[..j]) {
      assert all[j].step == Check(r) && Marked(all[..j]);
    }
  }

  lemma OvertakesAppends(es: seq<Event>, e: Event)
    ensures ReadOvertakesThen(es + [e]) <==> ReadOvertakesThen(es) || (e.step.Check? && Started(es, e.step.r) && Marked(es))
  {
    var all := es + [e];
    assert all[..|es|] == es && all[|es|] == e;
    assert forall j :: 0 <= j < |es| ==> all[j] == es[j] && all[..j] == es[..j];
    hide Marked, Started;
    if j :| 0 <= j < |es| && es[j].step.Check? && Started(es[..j], es[j].step.r) && Marked(es[..j]) {
      assert all[j].step.Check? && Started(all[..j], all[j].step.r) && Marked(all[..j]);
    }
  }

  lemma SecondAppends(es: seq<Event>, e: Event)
    ensures SecondThen(es + [e]) <==> SecondThen(es) || (e.step.Start? && AnyStarted(es))
  {
    var all := es + [e];
    assert all[..|es|] == es && all[|es|] == e;
    assert forall j :: 0 <= j < |es| ==> all[j] == es[j] && all[..j] == es[..j];
    hide AnyStarted;
    if j :| 0 <= j < |es| && es[j].step.Start? && AnyStarted(es[..j]) {
      assert all[j].step.Start? && AnyStarted(all[..j]);
    }
  }

  lemma CheckRefuses(p: State, now: int, l: Label, r: Reader)
    requires Enabled(p, now, l)
    ensures At(Apply(p, now, l), r, Refused) <==> At(p, r, Refused) || (l == Check(r) && p.resultRead)
  {
  }

  /** What a step does to the members that decide about refusals and about the end of the process. */
  lemma StepDecides(p: State, now: int, l: Label)
    requires Enabled(p, now, l)
    ensures var q := Apply(p, now, l);
      && (q.resultRead <==> p.resultRead || l.Mark?)
      && q.thenThread == (if l.Start? && p.thenThread == None then Some(l.r) else p.thenThread)
      && (q.terminated <==> p.terminated || (l.Start? && p.thenThread.Some?)
                            || (l.Check? && p.resultRead && p.thenThread == Some(l.r)))
  {
  }

  /** An await is refused exactly when it tests m_result_read after some reader's completed read. */
  lemma {:induction false} RefusedIff(validUntil: int, es: seq<Event>, r: Reader)
    requires Run(validUntil, es).Some?
    ensures var p := Run(validUntil, es).value;
      (p.resultRead <==> Marked(es)) && (At(p, r, Refused) <==> TestsTooLate(es, r))
  {
    if es != [] {
      var init, last := es[..|es| - 1], es[|es| - 1];
      assert es == init + [last];
      RefusedIff(validUntil, init, r);
      StepDecides(Run(validUntil, init).value, last.now, last.step);
      CheckRefuses(Run(validUntil, init).value, last.now, last.step, r);
      MarkedAppends(init, last);
      TestsTooLateAppends(init, last, r);
      hide Apply, Enabled, At, Marked, TestsTooLate;
    }
  }

  /** m_then_thread belongs to the only call of then that has started a thread. */
  lemma {:induction false} ThreadIsTheOneStarted(validUntil: int, es: seq<Event>, r: Reader)
    requires Run(validUntil, es).Some?
    ensures var p := Run(validUntil, es).value;
      && (p.thenThread.Some? <==> AnyStarted(es))
      && (p.thenThread == Some(r) ==> Started(es, r))
      && (Started(es, r) && !SecondThen(es) ==> p.thenThread == Some(r))
  {
    if es != [] {
      var init, last := es[..|es| - 1], es[|es| - 1];
      assert es == init + [last];
      ThreadIsTheOneStarted(validUntil, init, r);
      StepDecides(Run(validUntil, init).value, last.now, last.step);
      MarkedAppends(init, last);
      StartedAppends(init, last, r);
      SecondAppends(init, last);
      hide Apply, Enabled, At, AnyStarted, Started, SecondThen;
    }
  }

  /**
   The process ends exactly when a second call of then starts a thread, since the first one's is still joinable, or when
   the thread of a then finds that another read has been completed, since its await's exception leaves the thread.
   */
  lemma {:induction false} ThenEndsTheProcessIff(validUntil: int, es: seq<Event>)
    requires Run(validUntil, es).Some?
    ensures Run(validUntil, es).value.terminated <==> SecondThen(es) || ReadOvertakesThen(es)
  {
    if es != [] {
      var init, last := es[..|es| - 1], es[|es| - 1];
      assert es == init + [last];
      ThenEndsTheProcessIff(validUntil, init);
      SecondAppends(init, last);
      OvertakesAppends(init, last);
      var r := if last.step.Check? then last.step.r else 0;
      StepDecides(Run(validUntil, init).value, last.now, last.step);
      RefusedIff(validUntil, init, r);
      ThreadIsTheOneStarted(validUntil, init, r);
      hide Apply, Enabled, At, Marked, AnyStarted, Started, SecondThen, ReadOvertakesThen, TestsTooLate;
    }
  }

  /** Both happen. Two calls of then before any read: */
  lemma SecondThenEndsTheProcess(validUntil: int)
    ensures var es := [Event(0, BeginThen(0))] + [Event(0, Start(0))] + [Event(0, BeginThen(1))] + [Event(0, Start(1))];
      Run(validUntil, es).Some? && Run(validUntil, es).value.terminated && !Run(validUntil, es).value.resultRead
  {
    var p := Fresh(validUntil);
    var first := [Event(0, BeginThen(0))] + [Event(0, Start(0))];
    OneThen(validUntil);
    Extend(p, first, Event(0, BeginThen(1)));
    Extend(p, first + [Event(0, BeginThen(1))], Event(0, Start(1)));
  }

  lemma OneThen(validUntil: int)
    ensures Run(validUntil, [Event(0, BeginThen(0))] + [Event(0, Start(0))])
      == Some(Fresh(validUntil).(thenThread := Some(0), readers := map[0 := Checking]))
  {
    assert [] + [Event(0, BeginThen(0))] == [Event(0, BeginThen(0))];
    Extend(Fresh(validUntil), [], Event(0, BeginThen(0)));
    Extend(Fresh(validUntil), [Event(0, BeginThen(0))], Event(0, Start(0)));
    var readers: map<Reader, ReaderPc> := map[];
    assert readers[0 := Applying][0 := Checking] == map[0 := Checking];
  }

  /** And one call of then whose thread is overtaken by an await, here one that times out: */
  lemma OvertakenThenEndsTheProcess(validUntil: int)
    ensures var es := ([Event(0, BeginThen(0))] + [Event(0, Start(0))])
                      + ([Event(0, Begin(1))] + [Event(0, Check(1))] + [Event(validUntil, GiveUp(1))] + [Event(validUntil, Mark(1))])
                      + [Event(validUntil, Check(0))];
      Run(validUntil, es).Some? && Run(validUntil, es).value.terminated && At(Run(validUntil, es).value, 0, Refused)
  {
    var first := [Event(0, BeginThen(0))] + [Event(0, Start(0))];
    OneThen(validUntil);
    var p := Run(validUntil, first).value;
    var e1, e2, e3, e4 := Event(0, Begin(1)), Event(0, Check(1)), Event(validUntil, GiveUp(1)), Event(validUntil, Mark(1));
    assert [] + [e1] == [e1];
    Extend(p, [], e1);
    Extend(p, [e1], e2);
    Extend(p, [e1] + [e2], e3);
    Extend(p, [e1] + [e2] + [e3], e4);
    ContinueConcat(Fresh(validUntil), first, [e1] + [e2] + [e3] + [e4]);
    Extend(Fresh(validUntil), first + ([e1] + [e2] + [e3] + [e4]), Event(validUntil, Check(0)));
  }

  lemma {:induction false} ContinueConcat(p: State, first: seq<Event>, second: seq<Event>)
    requires Continue(p, first).Some?
    ensures Continue(p, first + second) == Continue(Continue(p, first).value, second)
  {
    hide Apply, Enabled;
    if second == [] {
      assert first + second == first;
    } else {
      ContinueConcat(p, first, second[..|second| - 1]);
      assert (first + second)[..|first + second| - 1] == first + second[..|second| - 1];
    }
  }
}
