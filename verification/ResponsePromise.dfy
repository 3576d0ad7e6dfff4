/** The promise object, in place. Each call is a run of the steps of the Promise module. */
module ResponsePromises {
  import opened Common
  import Promise
  import opened PromiseTheorems

  /** What a call of then does: throw, start its thread, or end the process. */
  datatype ThenOutcome = AlreadyRead | ThreadStarted | ProcessEnds

  class ResponsePromise {
    const validUntil: int
    var locked: bool             // m_timeout_mutex
    var response: Bytes          // m_response
    var resultRead: bool         // m_result_read
    var thenThread: Option<Promise.Reader>  // m_then_thread, when it is joinable
    ghost var readers: map<Promise.Reader, Promise.ReaderPc>
    ghost var accepted: seq<Bytes>
    ghost var releases: nat
    ghost var misused: bool
    ghost var terminated: bool

    /** The promise as a value, outside of on_response. */
    ghost function State(): Promise.State
      reads this
    {
      Promise.State.State(validUntil, locked, response, resultRead, thenThread, readers, Promise.Outside, accepted, releases,
                          misused, terminated)
    }

    constructor (validUntil: int)
      ensures this.validUntil == validUntil && State() == Promise.Fresh(validUntil)
    {
      this.validUntil := validUntil;
      locked := true;
      response := [];
      resultRead := false;
      thenThread := None;
      readers := map[];
      accepted := [];
      releases := 0;
      misused := false;
      terminated := false;
    }

    /**
     await, called by reader r; now is the time at which try_lock_until returns. No resolution stands for
     ResultAlreadyReadException.
     */
    method Await(ghost r: Promise.Reader, now: int) returns (resolution: Option<Promise.Resolution>)
      requires r !in readers
      requires !resultRead && locked ==> validUntil <= now
      modifies this
      ensures Continue(old(State()), AwaitSteps(old(State()), r, now)) == Some(State())
      ensures response == old(response)
      ensures resolution == if old(resultRead) then None
                            else Some(if old(locked) then Promise.Timeout else Promise.Answer(response))
      ensures r in readers && readers[r] == if resolution == None then Promise.Refused else Promise.Returned(resolution.value)
    {
      AwaitRuns(State(), r, now);
      readers := readers[r := Promise.Checking];
      resolution := Read(r, now);
    }

    /** The body of await. */
    method Read(ghost r: Promise.Reader, now: int) returns (resolution: Option<Promise.Resolution>)
      requires Promise.At(State(), r, Promise.Checking)
      requires !resultRead && locked ==> validUntil <= now
      modifies `locked, `resultRead, `readers, `terminated
      ensures State() == AfterRead(old(State()), r)
      ensures resolution == if old(resultRead) then None
                            else Some(if old(locked) then Promise.Timeout else Promise.Answer(response))
    {
      if resultRead {
        readers := readers[r := Promise.Refused];
        terminated := terminated || thenThread == Some(r);
        return None;
      }
      if !locked {
        locked := true;
        resultRead := true;
        resolution := Some(Promise.Answer(response));
      } else {
        resultRead := true;
        resolution := Some(Promise.Timeout);
      }
      readers := readers[r := Promise.Returned(resolution.value)];
    }

    /**
     then: it throws after a completed read. Otherwise a thread r begins an await, as one more reader, and becomes
     m_then_thread; if an earlier call has left a thread there, assigning to it calls std::terminate.
     */
    method Then(r: Promise.Reader) returns (outcome: ThenOutcome)
      requires r !in readers
      modifies `readers, `thenThread, `terminated
      ensures outcome == if resultRead then AlreadyRead else if old(thenThread) == None then ThreadStarted else ProcessEnds
      ensures outcome == AlreadyRead ==> State() == old(State())
      ensures outcome != AlreadyRead ==> Continue(old(State()), ThenSteps(r)) == Some(State())
      ensures outcome == ThreadStarted ==> Promise.At(State(), r, Promise.Checking) && thenThread == Some(r)
      ensures terminated <==> old(terminated) || outcome == ProcessEnds
    {
      if resultRead {
        return AlreadyRead;
      }
      ThenRuns(State(), r);
      if thenThread == None {
        thenThread := Some(r);
        readers := readers[r := Promise.Checking];
        outcome := ThreadStarted;
      } else {
        readers := readers[r := Promise.Ended];
        terminated := true;
        outcome := ProcessEnds;
      }
    }

    /**
     The thread of then: it awaits, and the callback gets what the await has returned. No resolution means that another
     await has completed in the meantime; its exception leaves the thread's function, which ends the process. When that
     happens is PromiseTheorems.ThenEndsTheProcessIff.
     */
    method RunThen(now: int) returns (given: Option<Promise.Resolution>)
      requires thenThread.Some? && Promise.At(State(), thenThread.value, Promise.Checking)
      requires !resultRead && locked ==> validUntil <= now
      modifies `locked, `resultRead, `readers, `terminated
      ensures Continue(old(State()), ReadSteps(old(State()), thenThread.value, now)) == Some(State())
      ensures given == if old(resultRead) then None
                       else Some(if old(locked) then Promise.Timeout else Promise.Answer(response))
      ensures terminated <==> old(terminated) || given == None
    {
      ReadRuns(State(), thenThread.value, now);
      given := Read(thenThread.value, now);
    }

    /** on_response, at time now. */
    method OnResponse(message: Bytes, now: int)
      modifies this
      ensures Continue(old(State()), ResponseSteps(old(State()), message, now)) == Some(State())
      ensures if now > validUntil then State() == old(State())
              else !locked && response == message && accepted == old(accepted) + [message]
                   && (misused <==> old(misused) || !old(locked))
      ensures readers == old(readers) && resultRead == old(resultRead)
    {
      ResponseRuns(State(), message, now);
      hide Continue, ResponseSteps;
      if now > validUntil {
        return;
      }
      response := message;
      misused := misused || !locked;
      locked := false;
      accepted := accepted + [message];
      releases := releases + 1;
    }
  }

  /** The steps of the body of await, when it meets no other thread. */
  function ReadSteps(p: Promise.State, r: Promise.Reader, now: int): seq<Event> {
    if p.resultRead then [Event(now, Promise.Check(r))]
    else
      [Event(now, Promise.Check(r))] + [Event(now, if p.locked then Promise.GiveUp(r) else Promise.TryLock(r))]
      + [Event(now, Promise.Mark(r))] + [Event(now, Promise.Return(r))]
  }

  function AwaitSteps(p: Promise.State, r: Promise.Reader, now: int): seq<Event> {
    [Event(now, Promise.Begin(r))] + ReadSteps(p, r, now)
  }

  function ThenSteps(r: Promise.Reader): seq<Event> {
    [Event(0, Promise.BeginThen(r))] + [Event(0, Promise.Start(r))]
  }

  lemma ThenRuns(p: Promise.State, r: Promise.Reader)
    requires r !in p.readers && !p.resultRead
    ensures Continue(p, ThenSteps(r))
      == Some(if p.thenThread == None then p.(thenThread := Some(r), readers := p.readers[r := Promise.Checking])
              else p.(terminated := true, readers := p.readers[r := Promise.Ended]))
  {
    var e1, e2 := Event(0, Promise.BeginThen(r)), Event(0, Promise.Start(r));
    assert [] + [e1] == [e1];
    Extend(p, [], e1);
    Extend(p, [e1], e2);
    var q := Continue(p, [e1] + [e2]).value;
    assert q.readers == p.readers[r := q.readers[r]];
  }

  /** The state after the body of await. */
  function AfterRead(p: Promise.State, r: Promise.Reader): Promise.State {
    if p.resultRead then
      p.(readers := p.readers[r := Promise.Refused], terminated := p.terminated || p.thenThread == Some(r))
    else
      p.(locked := true, resultRead := true,
         readers := p.readers[r := Promise.Returned(if p.locked then Promise.Timeout else Promise.Answer(p.response))])
  }

  lemma LeavesTheLock(p: Promise.State, r: Promise.Reader, now: int)
    requires p.locked ==> p.validUntil <= now
    ensures var p2 := p.(readers := p.readers[r := Promise.Waiting]);
      var l := if p.locked then Promise.GiveUp(r) else Promise.TryLock(r);
      && Promise.Enabled(p2, now, l)
      && Promise.Apply(p2, now, l)
         == p.(locked := true, readers := p.readers[r := if p.locked then Promise.Expired else Promise.Locked])
  {
    assert p.readers[r := Promise.Waiting][r := Promise.Expired] == p.readers[r := Promise.Expired];
    assert p.readers[r := Promise.Waiting][r := Promise.Locked] == p.readers[r := Promise.Locked];
  }

  lemma OneStep(p: Promise.State, now: int, l: Promise.Label)
    requires Promise.Enabled(p, now, l)
    ensures Continue(p, [Event(now, l)]) == Some(Promise.Apply(p, now, l))
  {
    assert [] + [Event(now, l)] == [Event(now, l)];
    Extend(p, [], Event(now, l));
  }

  /** The reader's test, and its way out of try_lock_until. */
  lemma CheckAndLock(p: Promise.State, r: Promise.Reader, now: int)
    requires Promise.At(p, r, Promise.Checking) && !p.resultRead && (p.locked ==> p.validUntil <= now)
    ensures Continue(p, [Event(now, Promise.Check(r))] + [Event(now, if p.locked then Promise.GiveUp(r) else Promise.TryLock(r))])
      == Some(p.(locked := true, readers := p.readers[r := if p.locked then Promise.Expired else Promise.Locked]))
  {
    OneStep(p, now, Promise.Check(r));
    LeavesTheLock(p, r, now);
    assert Promise.Apply(p, now, Promise.Check(r)) == p.(readers := p.readers[r := Promise.Waiting]);
    hide Promise.Apply, Promise.Enabled, Continue;
    Extend(p, [Event(now, Promise.Check(r))], Event(now, if p.locked then Promise.GiveUp(r) else Promise.TryLock(r)));
  }

  lemma ReadRuns(p: Promise.State, r: Promise.Reader, now: int)
    requires Promise.At(p, r, Promise.Checking) && (!p.resultRead && p.locked ==> p.validUntil <= now)
    ensures Continue(p, ReadSteps(p, r, now)) == Some(AfterRead(p, r))
  {
    if p.resultRead {
      OneStep(p, now, Promise.Check(r));
      hide Continue;
    } else {
      hide Continue, Promise.Apply, Promise.Enabled;
      CheckAndLock(p, r, now);
      var p3 := p.(locked := true, readers := p.readers[r := if p.locked then Promise.Expired else Promise.Locked]);
      MarkAndReturn(p3, r, now);
      assert p3.readers[r := AfterRead(p, r).readers[r]] == AfterRead(p, r).readers;
      var e2 := Event(now, Promise.Check(r));
      var e3 := Event(now, if p.locked then Promise.GiveUp(r) else Promise.TryLock(r));
      var e4, e5 := Event(now, Promise.Mark(r)), Event(now, Promise.Return(r));
      ContinueConcat(p, [e2] + [e3], [e4] + [e5]);
      assert [e2] + [e3] + ([e4] + [e5]) == ReadSteps(p, r, now);
    }
  }

  lemma MarkAndReturn(p: Promise.State, r: Promise.Reader, now: int)
    requires Promise.At(p, r, Promise.Locked) || Promise.At(p, r, Promise.Expired)
    ensures Continue(p, [Event(now, Promise.Mark(r))] + [Event(now, Promise.Return(r))])
      == Some(p.(resultRead := true,
                 readers := p.readers[r := Promise.Returned(
                   if p.readers[r] == Promise.Locked then Promise.Answer(p.response) else Promise.Timeout)]))
  {
    var e4, e5 := Event(now, Promise.Mark(r)), Event(now, Promise.Return(r));
    assert [] + [e4] == [e4];
    Extend(p, [], e4);
    Extend(p, [e4], e5);
    var q := Continue(p, [e4] + [e5]).value;
    assert q.readers == p.readers[r := q.readers[r]];
  }

  lemma AwaitRuns(p: Promise.State, r: Promise.Reader, now: int)
    requires r !in p.readers && (!p.resultRead && p.locked ==> p.validUntil <= now)
    ensures Continue(p, AwaitSteps(p, r, now)) == Some(AfterRead(p.(readers := p.readers[r := Promise.Checking]), r))
  {
    var p1 := p.(readers := p.readers[r := Promise.Checking]);
    assert [] + [Event(now, Promise.Begin(r))] == [Event(now, Promise.Begin(r))];
    Extend(p, [], Event(now, Promise.Begin(r)));
    assert ReadSteps(p1, r, now) == ReadSteps(p, r, now);
    ReadRuns(p1, r, now);
    hide Continue;
    ContinueConcat(p, [Event(now, Promise.Begin(r))], ReadSteps(p, r, now));
  }

  function ResponseSteps(p: Promise.State, m: Bytes, now: int): seq<Event> {
    if now > p.validUntil then [Event(now, Promise.Ignore(m))]
    else [Event(now, Promise.Accept(m))] + [Event(now, Promise.Store)] + [Event(now, Promise.Unlock)]
  }

  lemma ResponseRuns(p: Promise.State, m: Bytes, now: int)
    requires p.responder == Promise.Outside
    ensures Continue(p, ResponseSteps(p, m, now))
      == Some(if now > p.validUntil then p
              else p.(locked := false, response := m, accepted := p.accepted + [m], releases := p.releases + 1,
                      misused := p.misused || !p.locked))
  {
    if now > p.validUntil {
      assert [] + [Event(now, Promise.Ignore(m))] == [Event(now, Promise.Ignore(m))];
      Extend(p, [], Event(now, Promise.Ignore(m)));
    } else {
      var e1, e2, e3 := Event(now, Promise.Accept(m)), Event(now, Promise.Store), Event(now, Promise.Unlock);
      var p1 := p.(responder := Promise.Storing(m), accepted := p.accepted + [m]);
      var p2 := p1.(response := m, responder := Promise.Unlocking);
      var p3 := p2.(locked := false, responder := Promise.Outside, releases := p.releases + 1, misused := p.misused || !p.locked);
      assert Promise.Enabled(p, now, e1.step) && Promise.Apply(p, now, e1.step) == p1;
      assert Promise.Enabled(p1, now, e2.step) && Promise.Apply(p1, now, e2.step) == p2;
      assert Promise.Enabled(p2, now, e3.step) && Promise.Apply(p2, now, e3.step) == p3;
      hide Promise.Apply, Promise.Enabled;
      assert [] + [e1] == [e1];
      Extend(p, [], e1);
      hide Continue;
      Extend(p, [e1], e2);
      Extend(p, [e1] + [e2], e3);
    }
  }
}
