/** What holds in every run of the request/response protocol. */
module ProtocolTheorems {
  import opened Common
  import opened Frames
  import opened Protocol
  import opened ProtocolInv
  import opened ProtocolFrames
  import ProtocolClientSteps
  import ProtocolWorkerSteps
  import ProtocolDispatchSteps
  import Promise

  lemma InitInv(k: Codec, filtering: bool, now: int)
    ensures Inv(k, filtering, Init(now))
  {
  }

  lemma StepKeepsInv(k: Codec, filtering: bool, s: State, l: Label)
    requires Faithful(k) && Inv(k, filtering, s) && Enabled(s.core, l)
    ensures Inv(k, filtering, Step(k, filtering, s, l))
  {
    hide Inv, Faithful;
    match l {
      case Tick(now) => ProtocolClientSteps.TickKeeps(k, filtering, s, now);
      case Client(step) => ProtocolClientSteps.ClientStepKeepsInv(k, filtering, s, step);
      case Consume(w, step) => ProtocolWorkerSteps.WorkerStepKeepsInv(k, filtering, s, w, step);
      case Dispatch(rc, step) => ProtocolDispatchSteps.DispatchStepKeepsInv(k, filtering, s, rc, step);
    }
  }

  lemma {:induction false} ContinueKeepsInv(k: Codec, filtering: bool, s: State, ls: seq<Label>)
    requires Faithful(k) && Inv(k, filtering, s) && Continue(k, filtering, s, ls).Some?
    ensures Inv(k, filtering, Continue(k, filtering, s, ls).value)
  {
    hide Inv, Step, Enabled, Faithful;
    if ls != [] {
      var init := ls[..|ls| - 1];
      ContinueKeepsInv(k, filtering, s, init);
      StepKeepsInv(k, filtering, Continue(k, filtering, s, init).value, ls[|ls| - 1]);
    }
  }

  /** Every reachable state satisfies the invariant. */
  lemma RunInv(k: Codec, filtering: bool, now: int, ls: seq<Label>)
    requires Faithful(k) && Run(k, filtering, now, ls).Some?
    ensures Inv(k, filtering, Run(k, filtering, now, ls).value)
  {
    hide Inv, Continue;
    InitInv(k, filtering, now);
    ContinueKeepsInv(k, filtering, Init(now), ls);
  }

  lemma {:induction false} ContinueExtends(k: Codec, filtering: bool, s: State, ls: seq<Label>)
    requires Continue(k, filtering, s, ls).Some?
    ensures Extends(s, Continue(k, filtering, s, ls).value)
  {
    if ls != [] {
      var init := ls[..|ls| - 1];
      ContinueExtends(k, filtering, s, init);
      var prev := Continue(k, filtering, s, init).value;
      StepExtends(k, filtering, prev, ls[|ls| - 1]);
      hide Step, Enabled;
    }
  }

  lemma StepExtends(k: Codec, filtering: bool, s: State, l: Label)
    requires Enabled(s.core, l)
    ensures Extends(s, Step(k, filtering, s, l))
  {
    hide ClientApply, ClientEnabled, WorkerApply, WorkerEnabled, DispatchApply, DispatchEnabled, WorkerRecord, DispatchRecord;
    match l {
      case Tick(_) =>
      case Client(step) => ProtocolClientSteps.ClientStepExtends(k, s, step);
      case Consume(w, step) => ProtocolWorkerSteps.WorkerStepLeaves(k, filtering, s, w, step);
      case Dispatch(rc, step) => ProtocolDispatchSteps.DispatchStepLeaves(k, s, rc, step);
    }
  }

  lemma RecordsAppear(k: Codec, c: Core, l: Label, id: Id)
    requires Enabled(c, l) && id in Apply(k, true, c, l).sends && id !in c.sends
    ensures l.Client? && l.client.Create? && l.client.id == id
    ensures var r := Apply(k, true, c, l).sends[id];
      l == Client(Create(id, r.responseChannel, r.channel, r.payload, l.client.timeout, r.addr))
  {
    hide Promise.Apply, Promise.Enabled;
    if l.Dispatch? {
      ProtocolDispatchSteps.ApplyLeaves(k, c, l.rc, l.dispatch);
      hide DispatchApply;
    }
  }

  /** A send record repeats the arguments of its send_request call. */
  lemma {:induction false} RecordsAreRequests(k: Codec, filtering: bool, now: int, ls: seq<Label>, id: Id)
    requires Run(k, filtering, now, ls).Some? && id in Run(k, filtering, now, ls).value.core.sends
    ensures var r := Run(k, filtering, now, ls).value.core.sends[id];
      exists i, timeout ::
        0 <= i < |ls| && ls[i] == Client(Create(id, r.responseChannel, r.channel, r.payload, timeout, r.addr))
  {
    var init := ls[..|ls| - 1];
    var last := ls[|ls| - 1];
    var prev := Run(k, filtering, now, init).value;
    var r := Run(k, filtering, now, ls).value.core.sends[id];
    hide Step, Enabled;
    if id in prev.core.sends {
      RecordsAreRequests(k, filtering, now, init, id);
      StepExtends(k, filtering, prev, last);
      var i, timeout :| 0 <= i < |init| && init[i] == Client(Create(id, r.responseChannel, r.channel, r.payload, timeout, r.addr));
      assert ls[i] == init[i];
    } else {
      NewRecord(k, filtering, prev, last, id);
      assert ls[|ls| - 1] == Client(Create(id, r.responseChannel, r.channel, r.payload, last.client.timeout, r.addr));
    }
  }

  lemma NewRecord(k: Codec, filtering: bool, s: State, l: Label, id: Id)
    requires Enabled(s.core, l) && id in Step(k, filtering, s, l).core.sends && id !in s.core.sends
    ensures l.Client? && l.client.Create? && l.client.id == id
    ensures var r := Step(k, filtering, s, l).core.sends[id];
      l == Client(Create(id, r.responseChannel, r.channel, r.payload, l.client.timeout, r.addr))
  {
    if l.Consume? {
      ProtocolWorkerSteps.WorkerStepLeaves(k, filtering, s, l.w, l.work);
    }
    hide WorkerApply, WorkerEnabled, ClientApply, ClientEnabled, DispatchApply, DispatchEnabled, Record;
    RecordsAppear(k, s.core, l, id);
  }

  /**
   End-to-end correlation: an Answer is what the one callback run for this very request returned, and that run
   saw exactly the channel and payload given to send_request.
   */
  lemma Correlation(k: Codec, filtering: bool, now: int, ls: seq<Label>, id: Id, r: Promise.Reader, m: Bytes)
    requires Faithful(k) && Run(k, filtering, now, ls).Some?
    requires var c := Run(k, filtering, now, ls).value.core;
      id in c.sends && c.sends[id].addr in c.promises
      && Promise.At(c.promises[c.sends[id].addr].p, r, Promise.Returned(Promise.Answer(m)))
    ensures exists i, timeout, rc, ch, payload, addr ::
      && 0 <= i < |ls| && ls[i] == Client(Create(id, rc, ch, payload, timeout, addr))
      && CallRecord(id, ch, payload, m) in Run(k, filtering, now, ls).value.hist.calls
    ensures forall call :: call in Run(k, filtering, now, ls).value.hist.calls && call.id == id ==> call.result == m
  {
    var s := Run(k, filtering, now, ls).value;
    RunInv(k, filtering, now, ls);
    RecordsAreRequests(k, filtering, now, ls, id);
    hide Run;
    AnswerIsACall(k, filtering, s, id, r, m);
    var rec := s.core.sends[id];
    var i, timeout :| 0 <= i < |ls| && ls[i] == Client(Create(id, rec.responseChannel, rec.channel, rec.payload, timeout, rec.addr));
  }

  lemma AnswerIsACall(k: Codec, filtering: bool, s: State, id: Id, r: Promise.Reader, m: Bytes)
    requires Inv(k, filtering, s) && id in s.core.sends && s.core.sends[id].addr in s.core.promises
    requires Promise.At(s.core.promises[s.core.sends[id].addr].p, r, Promise.Returned(Promise.Answer(m)))
    ensures CallOf(s.core, id, m) in s.hist.calls
    ensures forall call :: call in s.hist.calls && call.id == id ==> call.result == m
  {
    var a := s.core.sends[id].addr;
    assert PromiseInv(s, a) && SendOk(s.core, id);
    var p := s.core.promises[a].p;
    assert p.accepted == [m];
    var rec := CallOf(s.core, id, m);
    var i :| 0 <= i < |s.hist.calls| && s.hist.calls[i] == rec;
    forall call | call in s.hist.calls && call.id == id ensures call.result == m {
      var j :| 0 <= j < |s.hist.calls| && s.hist.calls[j] == call;
      assert CallsDistinct(s, i, j) && CallsDistinct(s, j, i);
    }
  }

  /**
   At most once: no request id has two callback runs, none is handed to on_response twice, and so no promise ever
   unlocks an unlocked mutex.
   */
  lemma AtMostOnce(k: Codec, filtering: bool, now: int, ls: seq<Label>)
    requires Faithful(k) && Run(k, filtering, now, ls).Some?
    ensures var s := Run(k, filtering, now, ls).value;
      && (forall i, j :: 0 <= i < j < |s.hist.calls| ==> s.hist.calls[i].id != s.hist.calls[j].id)
      && NoDup(s.hist.responded)
      && (forall a :: a in s.core.promises ==>
            !s.core.promises[a].p.misused && |s.core.promises[a].p.accepted| <= 1 && s.core.promises[a].p.releases <= 1)
  {
    var s := Run(k, filtering, now, ls).value;
    RunInv(k, filtering, now, ls);
    hide Run;
    forall i: nat, j: nat | i < j < |s.hist.calls| ensures s.hist.calls[i].id != s.hist.calls[j].id {
      assert CallsDistinct(s, i, j);
    }
    forall a | a in s.core.promises
      ensures !s.core.promises[a].p.misused && |s.core.promises[a].p.accepted| <= 1 && s.core.promises[a].p.releases <= 1
    {
      assert PromiseInv(s, a);
    }
  }

  /**
   Registry lifetime: each id in the map leads to a live promise created for that id, and whenever a dispatcher
   is inside on_response, the promise it is inside of is alive and belongs to the response it carries.
   */
  lemma RegistryIsSafe(k: Codec, filtering: bool, now: int, ls: seq<Label>, rc: Channel)
    requires Faithful(k) && Run(k, filtering, now, ls).Some? && rc in Run(k, filtering, now, ls).value.core.interfaces
    ensures var c := Run(k, filtering, now, ls).value.core;
      && (forall id :: id in c.interfaces[rc].registry ==>
            && AliveAt(c, c.interfaces[rc].registry[id])
            && c.promises[c.interfaces[rc].registry[id]].id == id)
      && var d := c.interfaces[rc].dispatcher;
         (d.Calling? || d.Storing? || d.Releasing? ==> AliveAt(c, d.addr) && c.promises[d.addr].id == d.frame.id)
  {
    var s := Run(k, filtering, now, ls).value;
    RunInv(k, filtering, now, ls);
    hide Run;
    assert DispatcherInv(k, s, rc);
    forall id | id in s.core.interfaces[rc].registry
      ensures AliveAt(s.core, s.core.interfaces[rc].registry[id])
      ensures s.core.promises[s.core.interfaces[rc].registry[id]].id == id
    {
      assert Waiting(s.core, rc, id) && SendOk(s.core, id);
    }
  }

  /** Every frame decodes, and every response is published to a channel that its interface receives. */
  lemma NothingBreaks(k: Codec, filtering: bool, now: int, ls: seq<Label>)
    requires Faithful(k) && Run(k, filtering, now, ls).Some?
    ensures !Run(k, filtering, now, ls).value.hist.broken
  {
    RunInv(k, filtering, now, ls);
  }

  /** While a promise is alive, its id is in the map of its interface, whose channel is confirmed at the broker. */
  lemma AlivePromiseIsReachable(k: Codec, filtering: bool, now: int, ls: seq<Label>, id: Id)
    requires Faithful(k) && Run(k, filtering, now, ls).Some?
    requires var c := Run(k, filtering, now, ls).value.core; Owned(c, id)
    ensures var c := Run(k, filtering, now, ls).value.core; var r := c.sends[id];
      && Confirmed(c, r.responseChannel) && id in c.interfaces[r.responseChannel].registry
      && c.interfaces[r.responseChannel].registry[id] == r.addr
  {
    var s := Run(k, filtering, now, ls).value;
    RunInv(k, filtering, now, ls);
    hide Run;
    assert RegisteredAlive(s.core, id) && SendOk(s.core, id);
    assert Waiting(s.core, s.core.sends[id].responseChannel, id);
  }

  /** The promise that request id waits at: still registered exactly as long as it is alive. */
  ghost predicate Answerable(c: Core, id: Id) {
    && id in c.sends && c.sends[id].pc == Sent && Confirmed(c, c.sends[id].responseChannel)
    && c.sends[id].addr in c.promises && c.promises[c.sends[id].addr].id == id
    && (id in c.interfaces[c.sends[id].responseChannel].registry <==> c.promises[c.sends[id].addr].alive)
  }

  /**
   Whatever is in flight can still be answered: the response channel of a queued request and of a published response
   is confirmed, and its id is registered there unless its promise has been destroyed.
   */
  lemma InFlightIsAnswerable(k: Codec, filtering: bool, now: int, ls: seq<Label>, ch: Channel, rc: Channel, i: nat)
    requires Faithful(k) && Run(k, filtering, now, ls).Some?
    ensures var c := Run(k, filtering, now, ls).value.core;
      i < |Queue(c, ch)| ==> k.decodeRequest(Queue(c, ch)[i]).Some? && Answerable(c, k.decodeRequest(Queue(c, ch)[i]).value.id)
    ensures var c := Run(k, filtering, now, ls).value.core;
      i < |Stream(c, rc)| ==>
        && k.decodeResponse(Stream(c, rc)[i]).Some? && Answerable(c, k.decodeResponse(Stream(c, rc)[i]).value.id)
        && c.sends[k.decodeResponse(Stream(c, rc)[i]).value.id].responseChannel == rc
  {
    var s := Run(k, filtering, now, ls).value;
    RunInv(k, filtering, now, ls);
    hide Run;
    if i < |Queue(s.core, ch)| {
      assert QueueOk(k, s, ch, i);
      SentIsAnswerable(k, filtering, s, RequestId(k, Queue(s.core, ch)[i]));
    }
    if i < |Stream(s.core, rc)| {
      assert StreamOk(k, s, rc, i);
      SentIsAnswerable(k, filtering, s, ResponseId(k, Stream(s.core, rc)[i]));
    }
  }

  lemma SentIsAnswerable(k: Codec, filtering: bool, s: State, id: Id)
    requires Inv(k, filtering, s) && id in s.core.sends && s.core.sends[id].pc == Sent
    ensures Answerable(s.core, id)
  {
    assert SendOk(s.core, id);
    assert RegisteredAlive(s.core, id) ==> Waiting(s.core, s.core.sends[id].responseChannel, id);
    assert Waiting(s.core, s.core.sends[id].responseChannel, id) ==> RegisteredAlive(s.core, id);
  }
}
