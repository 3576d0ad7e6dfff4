/**
 No response is lost, in any interleaving: what becomes of a published response, and when it has become of it.
 */
module ProtocolFates {
  import opened Common
  import opened Frames
  import opened Protocol
  import opened ProtocolInv
  import opened ProtocolFrames
  import opened ProtocolTheorems
  import ProtocolClientSteps
  import ProtocolDispatchSteps
  import ProtocolPlaces
  import ProtocolWorkerSteps
  import Promise

  /** The promise of request id has been destroyed. */
  ghost predicate Destroyed(c: Core, id: Id) {
    id in c.sends && c.sends[id].pc == Sent && c.sends[id].addr in c.promises && !c.promises[c.sends[id].addr].alive
  }

  /** An unclaimed response's promise has been destroyed; a delivered one has been handed to on_response. */
  ghost predicate FateOk(s: State, id: Id) {
    && (StageIs(s, id, Done(Unclaimed)) ==> Destroyed(s.core, id))
    && (StageIs(s, id, Done(Delivered)) ==> id in s.hist.responded)
  }

  ghost predicate FatesInv(s: State) {
    forall id {:trigger FateOk(s, id)} :: FateOk(s, id)
  }

  // ---- where a token can go ----

  /** The moves of a token that the step l can make. */
  ghost predicate Moves(s: State, l: Label, id: Id, a: Stage, b: Stage) {
    match l
    case Consume(w, Pop(_)) => a == Queued && b == AtWorker(w)
    case Consume(w, Abandon) => a == AtWorker(w) && b == Done(NoHandler)
    case Consume(w, Filter) => a == AtWorker(w) && b == Done(DroppedAsExpired)
    case Consume(w, Publish) => a == AtWorker(w) && b == InStream
    case Dispatch(rc, Take) => a == InStream && b == Dispatching
    case Dispatch(rc, Find) =>
      a == Dispatching && b == Done(Unclaimed)
      && id in s.core.sends && s.core.sends[id].pc == Sent && s.core.sends[id].responseChannel == rc && !Waiting(s.core, rc, id)
    case Dispatch(rc, Leave) => a == Dispatching && b == Done(Delivered) && id in s.hist.responded
    case _ => false
  }

  ghost predicate StaysOrMoves(s: State, t: State, l: Label, id: Id) {
    id in s.hist.stage ==>
      id in t.hist.stage && (t.hist.stage[id] == s.hist.stage[id] || Moves(s, l, id, s.hist.stage[id], t.hist.stage[id]))
  }

  lemma PopMovesToken(k: Codec, filtering: bool, s: State, w: Worker, ch: Channel, id: Id)
    requires QueuesInv(k, s) && WorkerEnabled(s.core, w, Pop(ch))
    ensures StaysOrMoves(s, ProtocolWorkerSteps.After(k, filtering, s, w, Pop(ch)), Consume(w, Pop(ch)), id)
  {
    assert QueueOk(k, s, ch, 0);
    hide QueuesInv;
  }

  lemma WorkerMovesToken(k: Codec, filtering: bool, s: State, w: Worker, l: WorkerStep, id: Id)
    requires WorkersInv(k, s) && WorkerEnabled(s.core, w, l) && !l.Pop?
    ensures StaysOrMoves(s, ProtocolWorkerSteps.After(k, filtering, s, w, l), Consume(w, l), id)
  {
    assert WorkerInv(k, s, w);
    hide WorkersInv;
  }

  lemma DispatchMovesToken(k: Codec, filtering: bool, s: State, rc: Channel, l: DispatchStep, id: Id)
    requires Inv(k, filtering, s) && DispatchEnabled(s.core, rc, l)
    ensures StaysOrMoves(s, ProtocolDispatchSteps.After(k, s, rc, l), Dispatch(rc, l), id)
  {
    assert DispatcherInv(k, s, rc);
    if l == Take {
      assert StreamOk(k, s, rc, 0);
    }
    hide Inv, DispatchApply;
  }

  lemma ClientMovesNoToken(k: Codec, filtering: bool, s: State, l: ClientStep, id: Id)
    requires HistoryInv(filtering, s) && ClientEnabled(s.core, l)
    ensures StaysOrMoves(s, Step(k, filtering, s, Client(l)), Client(l), id)
  {
    hide ClientApply, Promise.Enabled;
  }

  lemma TokenMoves(k: Codec, filtering: bool, s: State, l: Label, id: Id)
    requires Inv(k, filtering, s) && Enabled(s.core, l)
    ensures StaysOrMoves(s, Step(k, filtering, s, l), l, id)
  {
    hide StaysOrMoves, QueuesInv, WorkersInv, HistoryInv, ClientApply, ClientEnabled, WorkerApply, WorkerEnabled, DispatchApply,
      DispatchEnabled, WorkerRecord, DispatchRecord;
    match l {
      case Tick(now) =>
        assert StaysOrMoves(s, Step(k, filtering, s, l), l, id) by { TickMovesNoToken(k, filtering, s, now, id); }
      case Client(step) => ClientMovesNoToken(k, filtering, s, step, id);
      case Consume(w, Pop(ch)) => PopMovesToken(k, filtering, s, w, ch, id);
      case Consume(w, step) => WorkerMovesToken(k, filtering, s, w, step, id);
      case Dispatch(rc, step) =>
        hide Inv;
        DispatchMovesToken(k, filtering, s, rc, step, id);
    }
  }

  lemma TickMovesNoToken(k: Codec, filtering: bool, s: State, now: int, id: Id)
    requires s.core.now <= now
    ensures StaysOrMoves(s, Step(k, filtering, s, Tick(now)), Tick(now), id)
  {
  }

  lemma NewToken(k: Codec, filtering: bool, s: State, l: Label, id: Id)
    requires Enabled(s.core, l) && Inv(k, filtering, s) && id !in s.hist.stage
    ensures id in Step(k, filtering, s, l).hist.stage ==> StageIs(Step(k, filtering, s, l), id, Queued)
  {
    match l {
      case Consume(w, step) =>
        NoNewTokenAtWorker(k, filtering, s, w, step, id);
        hide Inv, WorkerApply, WorkerRecord;
      case Dispatch(rc, step) =>
        NoNewTokenAtDispatcher(k, filtering, s, rc, step, id);
        hide Inv, DispatchApply, DispatchRecord;
      case _ =>
        hide Inv, ClientApply, ClientEnabled;
    }
  }

  lemma NoNewTokenAtWorker(k: Codec, filtering: bool, s: State, w: Worker, l: WorkerStep, id: Id)
    requires Inv(k, filtering, s) && WorkerEnabled(s.core, w, l) && id !in s.hist.stage
    ensures id !in WorkerRecord(k, filtering, s.core, s.hist, w, l).stage
  {
    if l.Pop? {
      assert QueueOk(k, s, l.channel, 0);
    } else {
      assert WorkerInv(k, s, w);
    }
    hide Inv;
  }

  lemma NoNewTokenAtDispatcher(k: Codec, filtering: bool, s: State, rc: Channel, l: DispatchStep, id: Id)
    requires Inv(k, filtering, s) && DispatchEnabled(s.core, rc, l) && id !in s.hist.stage
    ensures id !in DispatchRecord(k, s.core, s.hist, rc, l).stage
  {
    assert DispatcherInv(k, s, rc);
    if l == Take {
      assert StreamOk(k, s, rc, 0);
    }
    hide Inv;
  }

  // ---- destroyed promises stay destroyed ----

  lemma ClientKeepsDestroyed(k: Codec, c: Core, l: ClientStep, id: Id)
    requires ClientEnabled(c, l) && Destroyed(c, id)
    ensures Destroyed(ClientApply(k, c, l), id)
  {
    hide Promise.Apply, Promise.Enabled;
  }

  lemma DispatchKeepsDestroyed(k: Codec, c: Core, rc: Channel, l: DispatchStep, id: Id)
    requires DispatchEnabled(c, rc, l) && Destroyed(c, id)
    ensures Destroyed(DispatchApply(k, c, rc, l), id)
  {
    hide Promise.Apply, Promise.Enabled;
  }

  lemma StepKeepsDestroyed(k: Codec, filtering: bool, s: State, l: Label, id: Id)
    requires Enabled(s.core, l) && Destroyed(s.core, id)
    ensures Destroyed(Step(k, filtering, s, l).core, id)
  {
    hide ClientApply, ClientEnabled, WorkerApply, WorkerEnabled, DispatchApply, DispatchEnabled, Record;
    match l {
      case Tick(_) =>
      case Client(step) =>
        ClientKeepsDestroyed(k, s.core, step, id);
        hide Destroyed;
      case Consume(w, step) => ProtocolWorkerSteps.WorkerStepLeaves(k, filtering, s, w, step);
      case Dispatch(rc, step) =>
        DispatchKeepsDestroyed(k, s.core, rc, step, id);
        hide Destroyed;
    }
  }

  lemma RespondedGrows(k: Codec, filtering: bool, s: State, l: Label)
    requires Enabled(s.core, l)
    ensures s.hist.responded <= Step(k, filtering, s, l).hist.responded
  {
    hide ClientApply, ClientEnabled, WorkerApply, DispatchApply;
  }

  /** An unregistered promise of a sent request is destroyed. */
  lemma NotWaitingIsDestroyed(k: Codec, filtering: bool, s: State, rc: Channel, id: Id)
    requires Inv(k, filtering, s) && id in s.core.sends && s.core.sends[id].pc == Sent
    requires s.core.sends[id].responseChannel == rc && !Waiting(s.core, rc, id)
    ensures Destroyed(s.core, id)
  {
    assert SendOk(s.core, id);
    assert !RegisteredAlive(s.core, id);
  }

  lemma FateKept(k: Codec, filtering: bool, s: State, l: Label, id: Id)
    requires Inv(k, filtering, s) && FateOk(s, id) && Enabled(s.core, l)
    ensures FateOk(Step(k, filtering, s, l), id)
  {
    var t := Step(k, filtering, s, l);
    TokenMoves(k, filtering, s, l, id);
    RespondedGrows(k, filtering, s, l);
    if id !in s.hist.stage {
      NewToken(k, filtering, s, l, id);
    } else {
      if l.Dispatch? && l.dispatch == Find && StageIs(t, id, Done(Unclaimed)) && !StageIs(s, id, Done(Unclaimed)) {
        NotWaitingIsDestroyed(k, filtering, s, l.rc, id);
      }
      if Destroyed(s.core, id) {
        StepKeepsDestroyed(k, filtering, s, l, id);
      }
    }
    hide Inv, Step, Enabled, Destroyed, Waiting;
  }

  lemma FatesKept(k: Codec, filtering: bool, s: State, l: Label)
    requires Inv(k, filtering, s) && FatesInv(s) && Enabled(s.core, l)
    ensures FatesInv(Step(k, filtering, s, l))
  {
    hide Inv, Step, Enabled, FateOk;
    forall id ensures FateOk(Step(k, filtering, s, l), id) {
      assert FateOk(s, id);
      FateKept(k, filtering, s, l, id);
    }
  }

  lemma {:induction false} ContinueKeepsFates(k: Codec, filtering: bool, s: State, ls: seq<Label>)
    requires Faithful(k) && Inv(k, filtering, s) && FatesInv(s) && Continue(k, filtering, s, ls).Some?
    ensures FatesInv(Continue(k, filtering, s, ls).value)
  {
    hide Inv, FatesInv, Step, Enabled, Faithful;
    if ls != [] {
      var init := ls[..|ls| - 1];
      ContinueKeepsFates(k, filtering, s, init);
      ContinueKeepsInv(k, filtering, s, init);
      FatesKept(k, filtering, Continue(k, filtering, s, init).value, ls[|ls| - 1]);
    }
  }

  /**
   In every run, a response that found no entry in the map belongs to a destroyed promise, and a delivered one was
   handed to on_response.
   */
  lemma FatesAreHonest(k: Codec, filtering: bool, now: int, ls: seq<Label>, id: Id)
    requires Faithful(k) && Run(k, filtering, now, ls).Some?
    ensures var s := Run(k, filtering, now, ls).value;
      && (StageIs(s, id, Done(Unclaimed)) ==> Destroyed(s.core, id))
      && (StageIs(s, id, Done(Delivered)) ==> id in s.hist.responded)
  {
    InitInv(k, filtering, now);
    assert FatesInv(Init(now));
    ContinueKeepsFates(k, filtering, Init(now), ls);
    hide Run, Inv, Faithful;
    assert Run(k, filtering, now, ls) == Continue(k, filtering, Init(now), ls) by { RunIsContinue(k, filtering, now, ls); }
    assert FateOk(Run(k, filtering, now, ls).value, id);
  }

  lemma RunIsContinue(k: Codec, filtering: bool, now: int, ls: seq<Label>)
    ensures Run(k, filtering, now, ls) == Continue(k, filtering, Init(now), ls)
  {
  }

  // ---- a published response is never dropped ----

  ghost predicate Published(s: State, id: Id) {
    StageIs(s, id, InStream) || StageIs(s, id, Dispatching) || StageIs(s, id, Done(Unclaimed)) || StageIs(s, id, Done(Delivered))
  }

  /** Once published, a response is neither dropped as expired nor without handler, whatever happens afterwards. */
  lemma {:induction false} PublishedIsNeverDropped(k: Codec, filtering: bool, s: State, ls: seq<Label>, id: Id)
    requires Faithful(k) && Inv(k, filtering, s) && Published(s, id) && Continue(k, filtering, s, ls).Some?
    ensures Published(Continue(k, filtering, s, ls).value, id)
  {
    hide Inv, Step, Enabled, Faithful;
    if ls != [] {
      var init := ls[..|ls| - 1];
      PublishedIsNeverDropped(k, filtering, s, init, id);
      ContinueKeepsInv(k, filtering, s, init);
      TokenMoves(k, filtering, Continue(k, filtering, s, init).value, ls[|ls| - 1], id);
    }
  }

  // ---- and is handed over in its turn ----

  /** At position j of rc's stream, with at most n more returns of rc's dispatcher to wait for. */
  ghost predicate WaitsAt(k: Codec, c: Core, rc: Channel, id: Id, j: nat, n: nat) {
    && rc in c.interfaces && j < |Stream(c, rc)| && ResponseIdOr(k, Stream(c, rc)[j]) == Some(id)
    && j + (if c.interfaces[rc].dispatcher.Idle? then 1 else 2) <= n
  }

  /** The response to request id is done with after at most n more returns of rc's dispatcher. */
  ghost predicate Within(k: Codec, s: State, rc: Channel, id: Id, n: nat) {
    && id in s.core.sends && s.core.sends[id].responseChannel == rc
    && (|| StageIs(s, id, Done(Delivered)) || StageIs(s, id, Done(Unclaimed))
        || (n >= 1 && StageIs(s, id, Dispatching))
        || (StageIs(s, id, InStream) && exists j: nat {:trigger WaitsAt(k, s.core, rc, id, j, n)} :: WaitsAt(k, s.core, rc, id, j, n)))
  }

  function Returns(ls: seq<Label>, rc: Channel): nat {
    if ls == [] then 0 else Returns(ls[..|ls| - 1], rc) + if ls[|ls| - 1] == Dispatch(rc, Leave) then 1 else 0
  }

  function Minus(n: nat, d: nat): nat {
    if d <= n then n - d else 0
  }

  /** Only rc's own dispatcher moves rc's dispatcher. */
  lemma ClientLeavesDispatcher(k: Codec, c: Core, l: ClientStep, rc: Channel)
    requires ClientEnabled(c, l) && rc in c.interfaces
    ensures var c' := ClientApply(k, c, l); rc in c'.interfaces && c'.interfaces[rc].dispatcher == c.interfaces[rc].dispatcher
  {
    hide Promise.Apply, Promise.Enabled;
  }

  lemma OthersLeaveDispatcher(k: Codec, filtering: bool, s: State, l: Label, rc: Channel)
    requires Enabled(s.core, l) && rc in s.core.interfaces && (l.Dispatch? ==> l.rc != rc)
    ensures var c' := Step(k, filtering, s, l).core;
      rc in c'.interfaces && c'.interfaces[rc].dispatcher == s.core.interfaces[rc].dispatcher
  {
    hide ClientApply, ClientEnabled, WorkerApply, WorkerEnabled, DispatchApply, DispatchEnabled, Record, WorkerRecord, DispatchRecord;
    match l {
      case Tick(_) =>
      case Client(step) => ClientLeavesDispatcher(k, s.core, step, rc);
      case Consume(w, step) => ProtocolWorkerSteps.WorkerStepLeaves(k, filtering, s, w, step);
      case Dispatch(rc', step) => ProtocolDispatchSteps.DispatchStepLeaves(k, s, rc', step);
    }
  }

  /** A waiting response under a step of anyone but rc's dispatcher. */
  lemma WaitsUnderOthers(k: Codec, filtering: bool, s: State, l: Label, rc: Channel, id: Id, j: nat, n: nat)
    requires Enabled(s.core, l) && WaitsAt(k, s.core, rc, id, j, n) && (l.Dispatch? ==> l.rc != rc)
    ensures WaitsAt(k, Step(k, filtering, s, l).core, rc, id, j, n)
  {
    OthersLeaveDispatcher(k, filtering, s, l, rc);
    ProtocolPlaces.StreamsMove(k, filtering, s, l, rc);
    var t := Step(k, filtering, s, l);
    assert l != Dispatch(rc, Take);
    hide Step, Enabled;
    assert Stream(t.core, rc)[j] == Stream(s.core, rc)[j];
  }

  /** And under a step of rc's dispatcher that takes nothing. */
  lemma WaitsUnderOwn(k: Codec, s: State, rc: Channel, l: DispatchStep, id: Id, j: nat, n: nat)
    requires DispatchEnabled(s.core, rc, l) && l != Take && WaitsAt(k, s.core, rc, id, j, n)
    ensures WaitsAt(k, ProtocolDispatchSteps.After(k, s, rc, l).core, rc, id, j, if l == Leave then Minus(n, 1) else n)
  {
    var t := ProtocolDispatchSteps.After(k, s, rc, l);
    ProtocolDispatchSteps.DispatchStepLeaves(k, s, rc, l);
    assert !s.core.interfaces[rc].dispatcher.Idle?;
    assert l == Leave ==> t.core.interfaces[rc].dispatcher.Idle?;
    hide DispatchApply, DispatchRecord, DispatchEnabled;
  }

  /** The dispatcher takes the head of the stream: the response itself, or one before it. */
  lemma WaitsUnderTake(k: Codec, filtering: bool, s: State, rc: Channel, id: Id, j: nat, n: nat)
    requires Inv(k, filtering, s) && DispatchEnabled(s.core, rc, Take) && WaitsAt(k, s.core, rc, id, j, n) && StageIs(s, id, InStream)
    ensures var t := ProtocolDispatchSteps.After(k, s, rc, Take);
      if j == 0 then StageIs(t, id, Dispatching) else StageIs(t, id, InStream) && WaitsAt(k, t.core, rc, id, j - 1, n)
  {
    ProtocolDispatchSteps.TakeMoves(k, s, rc);
    assert StreamDistinct(k, s.core, rc, 0, j);
    var t := ProtocolDispatchSteps.After(k, s, rc, Take);
    assert rc in t.core.interfaces;
    hide Inv, ProtocolDispatchSteps.After;
    if j > 0 {
      assert Stream(t.core, rc)[j - 1] == Stream(s.core, rc)[j];
    }
  }

  /** The dispatcher at work on id's response returns from it. */
  lemma ReturnsFromIt(k: Codec, filtering: bool, s: State, rc: Channel, id: Id)
    requires Inv(k, filtering, s) && DispatchEnabled(s.core, rc, Leave) && StageIs(s, id, Dispatching)
    requires id in s.core.sends && s.core.sends[id].responseChannel == rc
    ensures StageIs(ProtocolDispatchSteps.After(k, s, rc, Leave), id, Done(Delivered))
  {
    assert DispatcherInv(k, s, rc);
    hide Inv;
  }

  lemma WithinKeptInStream(k: Codec, filtering: bool, s: State, l: Label, rc: Channel, id: Id, n: nat)
    requires Inv(k, filtering, s) && Enabled(s.core, l) && Within(k, s, rc, id, n) && StageIs(s, id, InStream)
    ensures Within(k, Step(k, filtering, s, l), rc, id, if l == Dispatch(rc, Leave) then Minus(n, 1) else n)
  {
    var t := Step(k, filtering, s, l);
    var m := if l == Dispatch(rc, Leave) then Minus(n, 1) else n;
    StepExtends(k, filtering, s, l);
    TokenMoves(k, filtering, s, l, id);
    var j: nat :| WaitsAt(k, s.core, rc, id, j, n);
    if l.Dispatch? && l.rc == rc {
      if l.dispatch == Take {
        WaitsUnderTake(k, filtering, s, rc, id, j, n);
        assert t == ProtocolDispatchSteps.After(k, s, rc, Take);
        hide Inv, Step, Enabled, ProtocolDispatchSteps.After, WaitsAt;
        if j > 0 {
          assert WaitsAt(k, t.core, rc, id, j - 1, m);
        } else {
          assert n >= 1 by { AtLeastOne(k, s.core, rc, id, j, n); }
        }
      } else {
        WaitsUnderOwn(k, s, rc, l.dispatch, id, j, n);
        hide Inv, Step, Enabled, WaitsAt;
        assert WaitsAt(k, t.core, rc, id, j, m);
      }
    } else {
      WaitsUnderOthers(k, filtering, s, l, rc, id, j, n);
      hide Inv, Step, Enabled, WaitsAt;
      assert WaitsAt(k, t.core, rc, id, j, m);
    }
  }

  lemma AtLeastOne(k: Codec, c: Core, rc: Channel, id: Id, j: nat, n: nat)
    requires WaitsAt(k, c, rc, id, j, n)
    ensures n >= 1
  {
  }

  lemma WithinKept(k: Codec, filtering: bool, s: State, l: Label, rc: Channel, id: Id, n: nat)
    requires Inv(k, filtering, s) && Enabled(s.core, l) && Within(k, s, rc, id, n)
    ensures Within(k, Step(k, filtering, s, l), rc, id, if l == Dispatch(rc, Leave) then Minus(n, 1) else n)
  {
    if StageIs(s, id, InStream) {
      WithinKeptInStream(k, filtering, s, l, rc, id, n);
    } else {
      StepExtends(k, filtering, s, l);
      TokenMoves(k, filtering, s, l, id);
      if StageIs(s, id, Dispatching) && l == Dispatch(rc, Leave) {
        ReturnsFromIt(k, filtering, s, rc, id);
        assert Step(k, filtering, s, l) == ProtocolDispatchSteps.After(k, s, rc, Leave);
      }
      hide Inv, Step, Enabled, WaitsAt, ProtocolDispatchSteps.After;
    }
  }

  lemma {:induction false} WithinCountsDown(k: Codec, filtering: bool, s: State, ls: seq<Label>, rc: Channel, id: Id, n: nat)
    requires Faithful(k) && Inv(k, filtering, s) && Within(k, s, rc, id, n) && Continue(k, filtering, s, ls).Some?
    ensures Within(k, Continue(k, filtering, s, ls).value, rc, id, Minus(n, Returns(ls, rc)))
  {
    hide Inv, Step, Enabled, Faithful, Within;
    if ls != [] {
      var init := ls[..|ls| - 1];
      WithinCountsDown(k, filtering, s, init, rc, id, n);
      ContinueKeepsInv(k, filtering, s, init);
      WithinKept(k, filtering, Continue(k, filtering, s, init).value, ls[|ls| - 1], rc, id, Minus(n, Returns(init, rc)));
    }
  }

  /** With nothing left to wait for, the response is done with. */
  lemma WithinNothing(k: Codec, s: State, rc: Channel, id: Id)
    requires Within(k, s, rc, id, 0)
    ensures StageIs(s, id, Done(Delivered)) || StageIs(s, id, Done(Unclaimed))
  {
  }

  /**
   No lost response. Take any reachable state, any response in rc's stream, at position i, and any continuation at all: as
   soon as rc's dispatcher has returned i + 1 times, once more if it was busy at the start, the response has been handed
   to its promise's on_response, or that promise has been destroyed.
   */
  lemma NoResponseIsLost(k: Codec, filtering: bool, now: int, before: seq<Label>, after: seq<Label>, rc: Channel, i: nat)
    requires Faithful(k) && Run(k, filtering, now, before).Some?
    requires i < |Stream(Run(k, filtering, now, before).value.core, rc)|
    requires Continue(k, filtering, Run(k, filtering, now, before).value, after).Some?
    requires var c := Run(k, filtering, now, before).value.core;
      rc in c.interfaces && Returns(after, rc) >= i + if c.interfaces[rc].dispatcher.Idle? then 1 else 2
    ensures var s := Run(k, filtering, now, before).value; var t := Continue(k, filtering, s, after).value;
      && k.decodeResponse(Stream(s.core, rc)[i]).Some?
      && var id := k.decodeResponse(Stream(s.core, rc)[i]).value.id;
         id in t.hist.responded || Destroyed(t.core, id)
  {
    var s := Run(k, filtering, now, before).value;
    RunInv(k, filtering, now, before);
    InitInv(k, filtering, now);
    assert FatesInv(Init(now));
    RunIsContinue(k, filtering, now, before);
    ContinueKeepsFates(k, filtering, Init(now), before);
    hide Run;
    assert StreamOk(k, s, rc, i);
    var id := ResponseId(k, Stream(s.core, rc)[i]);
    var n := i + if s.core.interfaces[rc].dispatcher.Idle? then 1 else 2;
    assert WaitsAt(k, s.core, rc, id, i, n);
    assert Within(k, s, rc, id, n);
    hide Inv, FatesInv, Within, Continue, StreamOk;
    WithinCountsDown(k, filtering, s, after, rc, id, n);
    ContinueKeepsFates(k, filtering, s, after);
    var t := Continue(k, filtering, s, after).value;
    WithinNothing(k, t, rc, id);
    assert FateOk(t, id) by { FatesHold(t, id); }
  }

  lemma FatesHold(s: State, id: Id)
    requires FatesInv(s)
    ensures FateOk(s, id)
  {
  }
}
