/** The deadline of a request, from the call of send_request to the filter, the response and the timeout. */
module ProtocolDeadlines {
  import opened Common
  import opened Frames
  import opened Protocol
  import opened ProtocolInv
  import opened ProtocolFrames
  import opened ProtocolTheorems
  import Clock
  import ProtocolDispatchSteps
  import ProtocolWorkerSteps
  import Promise
  import PromiseTheorems

  /** What the clock shows after a schedule that begins at now. */
  function ClockAfter(now: int, ls: seq<Label>): int {
    if ls == [] then now
    else if ls[|ls| - 1].Tick? then ls[|ls| - 1].now
    else ClockAfter(now, ls[..|ls| - 1])
  }

  lemma OnlyTicksMoveTheClock(k: Codec, filtering: bool, s: State, l: Label)
    requires Enabled(s.core, l)
    ensures Step(k, filtering, s, l).core.now == if l.Tick? then l.now else s.core.now
    ensures s.core.now <= Step(k, filtering, s, l).core.now
  {
    hide ClientEnabled, WorkerEnabled, DispatchEnabled, Record, Promise.Apply, Promise.Enabled;
    if l.Dispatch? {
      ProtocolDispatchSteps.ApplyLeaves(k, s.core, l.rc, l.dispatch);
      hide DispatchApply;
    }
  }

  lemma {:induction false} ClockIs(k: Codec, filtering: bool, now: int, ls: seq<Label>)
    requires Run(k, filtering, now, ls).Some?
    ensures Run(k, filtering, now, ls).value.core.now == ClockAfter(now, ls)
  {
    if ls != [] {
      var init := ls[..|ls| - 1];
      ClockIs(k, filtering, now, init);
      OnlyTicksMoveTheClock(k, filtering, Run(k, filtering, now, init).value, ls[|ls| - 1]);
      hide Step, Enabled;
    }
  }

  lemma {:induction false} PrefixRuns(k: Codec, filtering: bool, now: int, ls: seq<Label>, n: nat)
    requires Run(k, filtering, now, ls).Some? && n <= |ls|
    ensures Run(k, filtering, now, ls[..n]).Some?
  {
    hide Step, Enabled;
    if n < |ls| {
      PrefixRuns(k, filtering, now, ls[..|ls| - 1], n);
      assert ls[..|ls| - 1][..n] == ls[..n];
    } else {
      assert ls[..n] == ls;
    }
  }

  /** The arguments of one call of send_request. */
  datatype Sending = Sending(id: Id, rc: Channel, channel: Channel, payload: Bytes, timeout: int, addr: Addr)

  function CreateOf(r: Sending): Label {
    Client(Create(r.id, r.rc, r.channel, r.payload, r.timeout, r.addr))
  }

  /** What send_request has noted down, with the deadline d. */
  ghost predicate Noted(c: Core, r: Sending, d: int) {
    && r.id in c.sends && c.sends[r.id] == SendRecord(r.channel, r.payload, r.rc, d, r.addr, c.sends[r.id].pc)
    && r.addr in c.promises && c.promises[r.addr].id == r.id && c.promises[r.addr].p.validUntil == d
  }

  lemma CreateNotes(k: Codec, filtering: bool, s: State, r: Sending)
    requires Enabled(s.core, CreateOf(r))
    ensures Noted(Step(k, filtering, s, CreateOf(r)).core, r, s.core.now + r.timeout)
  {
  }

  /** The record stays, and the invariant keeps the promise with it. */
  lemma StaysNoted(k: Codec, filtering: bool, s: State, l: Label, r: Sending, d: int)
    requires Enabled(s.core, l) && Noted(s.core, r, d) && SendsInv(Step(k, filtering, s, l).core)
    ensures Noted(Step(k, filtering, s, l).core, r, d)
  {
    StepExtends(k, filtering, s, l);
    hide Step, Enabled;
    assert SendOk(Step(k, filtering, s, l).core, r.id);
  }

  lemma {:induction false} NotedAfter(k: Codec, filtering: bool, now: int, ls: seq<Label>, i: nat, r: Sending)
    requires Faithful(k) && Run(k, filtering, now, ls).Some? && i < |ls| && ls[i] == CreateOf(r)
    ensures Noted(Run(k, filtering, now, ls).value.core, r, ClockAfter(now, ls[..i]) + r.timeout)
  {
    var init := ls[..|ls| - 1];
    var s := Run(k, filtering, now, init).value;
    if i == |ls| - 1 {
      ClockIs(k, filtering, now, init);
      CreateNotes(k, filtering, s, r);
      hide Step, Enabled, Faithful;
    } else {
      NotedAfter(k, filtering, now, init, i, r);
      assert init[..i] == ls[..i];
      RunInv(k, filtering, now, ls);
      assert SendsInv(Run(k, filtering, now, ls).value.core);
      hide Inv, SendsInv, Faithful;
      assert Enabled(s.core, ls[|ls| - 1]) && Run(k, filtering, now, ls).value == Step(k, filtering, s, ls[|ls| - 1]) by {
        hide Step, Enabled;
      }
      StaysNoted(k, filtering, s, ls[|ls| - 1], r, ClockAfter(now, ls[..i]) + r.timeout);
    }
  }

  /**
   In every run, the deadline of a request, in its record and in its promise, is the clock's reading at its send_request plus
   the timeout given to it, from then on.
   */
  lemma DeadlineIsTimeoutAfterCreation(k: Codec, filtering: bool, now: int, ls: seq<Label>, i: nat, r: Sending)
    requires Faithful(k) && Run(k, filtering, now, ls).Some? && i < |ls| && ls[i] == CreateOf(r)
    ensures var c := Run(k, filtering, now, ls).value.core; var d := ClockAfter(now, ls[..i]) + r.timeout;
      && r.id in c.sends && c.sends[r.id].validUntil == d
      && r.addr in c.promises && c.promises[r.addr].id == r.id && c.promises[r.addr].p.validUntil == d
  {
    NotedAfter(k, filtering, now, ls, i, r);
    hide Run, Faithful;
  }

  // ---- what happens to one promise ----

  /** The promise at address a takes step l at the present clock, or stays as it is. */
  ghost predicate TakesOrStays(c: Core, c': Core, a: Addr, l: Promise.Label) {
    && a in c.promises && a in c'.promises
    && (c'.promises[a].p == c.promises[a].p
        || (Promise.Enabled(c.promises[a].p, c.now, l) && c'.promises[a].p == Promise.Apply(c.promises[a].p, c.now, l)))
  }

  /** The dispatcher of rc hands a response to the promise at address a. */
  predicate RespondsTo(c: Core, l: Label, a: Addr) {
    l.Dispatch? && l.dispatch == Respond && l.rc in c.interfaces
    && c.interfaces[l.rc].dispatcher.Calling? && c.interfaces[l.rc].dispatcher.addr == a
  }

  lemma ClientOnPromise(k: Codec, c: Core, l: ClientStep, a: Addr) returns (pl: Promise.Label)
    requires ClientEnabled(c, l) && a in c.promises
    ensures TakesOrStays(c, ClientApply(k, c, l), a, pl) && !pl.Accept?
  {
    hide Promise.Apply, Promise.Enabled;
    pl := if l.Read? then l.step else Promise.Store;
  }

  lemma DispatchOnPromise(k: Codec, c: Core, rc: Channel, l: DispatchStep, a: Addr) returns (pl: Promise.Label)
    requires DispatchEnabled(c, rc, l) && a in c.promises
    ensures TakesOrStays(c, DispatchApply(k, c, rc, l), a, pl)
    ensures pl.Accept? ==> RespondsTo(c, Dispatch(rc, l), a) || DispatchApply(k, c, rc, l).promises[a].p == c.promises[a].p
    ensures pl.Accept? || pl.Store? || pl.Unlock?
  {
    pl := Promise.Store;
    match l {
      case Respond =>
        if c.interfaces[rc].dispatcher.addr == a {
          pl := Promise.Accept(c.interfaces[rc].dispatcher.frame.payload);
        }
      case Release => pl := Promise.Unlock;
      case _ =>
    }
    hide Promise.Apply;
  }

  /** Any step of the system, seen from one promise. */
  lemma OnPromise(k: Codec, filtering: bool, s: State, l: Label, a: Addr) returns (pl: Promise.Label)
    requires Enabled(s.core, l) && a in s.core.promises
    ensures TakesOrStays(s.core, Step(k, filtering, s, l).core, a, pl)
    ensures pl.Accept? ==>
      RespondsTo(s.core, l, a) || Step(k, filtering, s, l).core.promises[a].p == s.core.promises[a].p
  {
    hide ClientApply, ClientEnabled, WorkerApply, WorkerEnabled, DispatchApply, DispatchEnabled, Record, Promise.Apply,
      Promise.Enabled;
    pl := Promise.Store;
    match l {
      case Tick(_) =>
      case Client(step) => pl := ClientOnPromise(k, s.core, step, a);
      case Consume(w, step) => ProtocolWorkerSteps.WorkerStepLeaves(k, filtering, s, w, step);
      case Dispatch(rc, step) => pl := DispatchOnPromise(k, s.core, rc, step, a);
    }
  }

  lemma OnlyAcceptAccepts(p: Promise.State, now: int, l: Promise.Label)
    requires Promise.Enabled(p, now, l)
    ensures Promise.Apply(p, now, l).validUntil == p.validUntil
    ensures l.Accept? ==> now <= p.validUntil
    ensures !l.Accept? ==> Promise.Apply(p, now, l).accepted == p.accepted
  {
  }

  // ---- answers are in time ----

  /** The j-th step hands a response to the promise at address a, no later than d. */
  ghost predicate AcceptsInTime(k: Codec, filtering: bool, now: int, ls: seq<Label>, j: nat, a: Addr, d: int) {
    && j < |ls| && Run(k, filtering, now, ls[..j]).Some?
    && RespondsTo(Run(k, filtering, now, ls[..j]).value.core, ls[j], a) && ClockAfter(now, ls[..j]) <= d
  }

  lemma StillAccepts(k: Codec, filtering: bool, now: int, ls: seq<Label>, j: nat, a: Addr, d: int)
    requires ls != [] && AcceptsInTime(k, filtering, now, ls[..|ls| - 1], j, a, d)
    ensures AcceptsInTime(k, filtering, now, ls, j, a, d)
  {
    assert ls[..|ls| - 1][..j] == ls[..j];
    hide Run, ClockAfter, RespondsTo;
  }

  lemma LastAccepts(k: Codec, filtering: bool, now: int, ls: seq<Label>, a: Addr)
    requires ls != [] && Run(k, filtering, now, ls).Some?
    requires var s := Run(k, filtering, now, ls[..|ls| - 1]); s.Some? && Enabled(s.value.core, ls[|ls| - 1])
    requires var c := Run(k, filtering, now, ls[..|ls| - 1]).value.core; var c' := Run(k, filtering, now, ls).value.core;
      a in c.promises && a in c'.promises && c.promises[a].p.accepted == [] && c'.promises[a].p.accepted != []
    ensures var c := Run(k, filtering, now, ls[..|ls| - 1]).value.core;
      AcceptsInTime(k, filtering, now, ls, |ls| - 1, a, c.promises[a].p.validUntil)
  {
    var init, l := ls[..|ls| - 1], ls[|ls| - 1];
    var s := Run(k, filtering, now, init).value;
    assert Run(k, filtering, now, ls).value == Step(k, filtering, s, l) by {
      hide Step, Enabled;
    }
    ClockIs(k, filtering, now, init);
    hide Run, ClockAfter, Step, Enabled;
    var pl := OnPromise(k, filtering, s, l, a);
    var p := s.core.promises[a].p;
    if Promise.Enabled(p, s.core.now, pl) {
      OnlyAcceptAccepts(p, s.core.now, pl);
    }
    hide Promise.Apply, Promise.Enabled, RespondsTo;
  }

  lemma NewPromiseIsFresh(k: Codec, filtering: bool, s: State, l: Label, a: Addr)
    requires Enabled(s.core, l) && a !in s.core.promises && a in Step(k, filtering, s, l).core.promises
    ensures Step(k, filtering, s, l).core.promises[a].p.accepted == []
    ensures Step(k, filtering, s, l).core.promises[a].p.readers == map[]
  {
    hide Promise.Apply, Promise.Enabled, WorkerEnabled, Record, DispatchApply;
    match l {
      case Consume(w, step) => ProtocolWorkerSteps.WorkerStepLeaves(k, filtering, s, w, step);
      case Dispatch(rc, step) =>
        DispatchMakesNoPromise(k, s.core, rc, step, a);
        hide DispatchEnabled, DispatchApply, ClientApply, ClientEnabled, WorkerApply;
      case _ =>
    }
  }

  lemma DispatchMakesNoPromise(k: Codec, c: Core, rc: Channel, l: DispatchStep, a: Addr)
    requires DispatchEnabled(c, rc, l) && a in DispatchApply(k, c, rc, l).promises
    ensures a in c.promises
  {
    hide Promise.Apply;
  }

  lemma {:induction false} AcceptedIsInTime(k: Codec, filtering: bool, now: int, ls: seq<Label>, a: Addr)
    requires Run(k, filtering, now, ls).Some? && a in Run(k, filtering, now, ls).value.core.promises
    requires Run(k, filtering, now, ls).value.core.promises[a].p.accepted != []
    ensures exists j :: AcceptsInTime(k, filtering, now, ls, j, a, Run(k, filtering, now, ls).value.core.promises[a].p.validUntil)
  {
    if ls != [] {
      var init, l := ls[..|ls| - 1], ls[|ls| - 1];
      var s, t := Run(k, filtering, now, init).value, Run(k, filtering, now, ls).value;
      assert Enabled(s.core, l) && t == Step(k, filtering, s, l) by {
        hide Step, Enabled;
      }
      if a !in s.core.promises {
        NewPromiseIsFresh(k, filtering, s, l, a);
      } else {
        DeadlineStaysPut(k, filtering, s, l, a);
        hide Step, Enabled, Run, AcceptsInTime;
        var d := t.core.promises[a].p.validUntil;
        if s.core.promises[a].p.accepted != [] {
          AcceptedIsInTime(k, filtering, now, init, a);
          var j :| AcceptsInTime(k, filtering, now, init, j, a, d);
          StillAccepts(k, filtering, now, ls, j, a, d);
        } else {
          LastAccepts(k, filtering, now, ls, a);
        }
      }
    }
  }

  lemma DeadlineStaysPut(k: Codec, filtering: bool, s: State, l: Label, a: Addr)
    requires Enabled(s.core, l) && a in s.core.promises
    ensures a in Step(k, filtering, s, l).core.promises
    ensures Step(k, filtering, s, l).core.promises[a].p.validUntil == s.core.promises[a].p.validUntil
  {
    var pl := OnPromise(k, filtering, s, l, a);
    hide Step, Enabled;
    if Promise.Enabled(s.core.promises[a].p, s.core.now, pl) {
      OnlyAcceptAccepts(s.core.promises[a].p, s.core.now, pl);
    }
    hide Promise.Apply, Promise.Enabled;
  }

  lemma AnsweredHasAccepted(k: Codec, filtering: bool, now: int, ls: seq<Label>, a: Addr, reader: Promise.Reader, m: Bytes)
    requires Faithful(k) && Run(k, filtering, now, ls).Some? && a in Run(k, filtering, now, ls).value.core.promises
    requires Promise.At(Run(k, filtering, now, ls).value.core.promises[a].p, reader, Promise.Returned(Promise.Answer(m)))
    ensures Run(k, filtering, now, ls).value.core.promises[a].p.accepted != []
  {
    RunInv(k, filtering, now, ls);
    var s := Run(k, filtering, now, ls).value;
    hide Run, Faithful;
    assert PromiseInv(s, a);
    hide Inv;
    assert reader in Promise.Takers(s.core.promises[a].p);
  }

  /**
   An Answer is in time: a reader has it only if the response was handed to the promise when the clock showed at most the time
   of send_request plus its timeout.
   */
  lemma AnswerIsInTime(
      k: Codec, filtering: bool, now: int, ls: seq<Label>, i: nat, r: Sending, d: int, reader: Promise.Reader, m: Bytes)
    requires Faithful(k) && Run(k, filtering, now, ls).Some? && i < |ls| && ls[i] == CreateOf(r)
    requires d == ClockAfter(now, ls[..i]) + r.timeout
    requires var c := Run(k, filtering, now, ls).value.core;
      r.addr in c.promises && Promise.At(c.promises[r.addr].p, reader, Promise.Returned(Promise.Answer(m)))
    ensures exists j :: AcceptsInTime(k, filtering, now, ls, j, r.addr, d)
  {
    AnsweredHasAccepted(k, filtering, now, ls, r.addr, reader, m);
    DeadlineIsTimeoutAfterCreation(k, filtering, now, ls, i, r);
    hide Run, Faithful, AcceptsInTime;
    AcceptedIsInTime(k, filtering, now, ls, r.addr);
  }

  // ---- timeouts are not early ----

  ghost predicate HonestAt(c: Core, a: Addr, reader: Promise.Reader) {
    a in c.promises && PromiseTheorems.GaveUp(c.promises[a].p, reader) ==> c.promises[a].p.validUntil <= c.now
  }

  lemma StepStaysHonest(k: Codec, filtering: bool, s: State, l: Label, a: Addr, reader: Promise.Reader)
    requires Enabled(s.core, l) && HonestAt(s.core, a, reader)
    ensures HonestAt(Step(k, filtering, s, l).core, a, reader)
  {
    var t := Step(k, filtering, s, l);
    OnlyTicksMoveTheClock(k, filtering, s, l);
    if a in s.core.promises {
      var p := s.core.promises[a].p;
      var pl := OnPromise(k, filtering, s, l, a);
      DeadlineStaysPut(k, filtering, s, l, a);
      hide Step, Enabled;
      if t.core.promises[a].p != p && PromiseTheorems.GaveUp(t.core.promises[a].p, reader) && !PromiseTheorems.GaveUp(p, reader) {
        PromiseTheorems.OnlyGiveUpTimesOut(p, s.core.now, pl, reader);
      }
      hide Promise.Apply, Promise.Enabled, PromiseTheorems.GaveUp;
    } else if a in t.core.promises {
      NewPromiseIsFresh(k, filtering, s, l, a);
      hide Step, Enabled;
    }
  }

  lemma {:induction false} RunIsHonest(k: Codec, filtering: bool, now: int, ls: seq<Label>, a: Addr, reader: Promise.Reader)
    requires Run(k, filtering, now, ls).Some?
    ensures HonestAt(Run(k, filtering, now, ls).value.core, a, reader)
  {
    hide Step, Enabled;
    if ls != [] {
      RunIsHonest(k, filtering, now, ls[..|ls| - 1], a, reader);
      hide HonestAt;
      StepStaysHonest(k, filtering, Run(k, filtering, now, ls[..|ls| - 1]).value, ls[|ls| - 1], a, reader);
    }
  }

  /** A Timeout is not early: a reader gives up only when the clock shows at least the time of send_request plus its timeout. */
  lemma TimeoutIsNotEarly(k: Codec, filtering: bool, now: int, ls: seq<Label>, i: nat, r: Sending, reader: Promise.Reader)
    requires Faithful(k) && Run(k, filtering, now, ls).Some? && i < |ls| && ls[i] == CreateOf(r)
    requires var c := Run(k, filtering, now, ls).value.core;
      r.addr in c.promises && PromiseTheorems.GaveUp(c.promises[r.addr].p, reader)
    ensures ClockAfter(now, ls[..i]) + r.timeout <= ClockAfter(now, ls)
  {
    DeadlineIsTimeoutAfterCreation(k, filtering, now, ls, i, r);
    RunIsHonest(k, filtering, now, ls, r.addr, reader);
    ClockIs(k, filtering, now, ls);
    hide Run, Faithful, PromiseTheorems.GaveUp;
  }

  // ---- and the filter goes by the same deadline ----

  /**
   The handler's filter, in every run: a worker at the filter drops its request exactly when filtering is on and the clock,
   in whole milliseconds, is past the time of send_request plus its timeout, in whole milliseconds.
   */
  lemma FilterGoesByTheDeadline(k: Codec, filtering: bool, now: int, ls: seq<Label>, i: nat, r: Sending, w: Worker)
    requires Faithful(k) && Run(k, filtering, now, ls).Some? && i < |ls| && ls[i] == CreateOf(r)
    requires var c := Run(k, filtering, now, ls).value.core;
      WorkerEnabled(c, w, Filter) && WorkId(k, c.workers[w]) == Some(r.id)
    ensures var s := Run(k, filtering, now, ls).value; var t := Step(k, filtering, s, Consume(w, Filter)).core;
      w !in t.workers
      <==> filtering && Clock.ToMs(ClockAfter(now, ls)) > Clock.ToMs(ClockAfter(now, ls[..i]) + r.timeout)
  {
    DeadlineIsTimeoutAfterCreation(k, filtering, now, ls, i, r);
    ClockIs(k, filtering, now, ls);
    RunInv(k, filtering, now, ls);
    var s := Run(k, filtering, now, ls).value;
    assert WorkerInv(k, s, w);
    hide Run, Faithful, Inv, Clock.ToMs;
  }
}
