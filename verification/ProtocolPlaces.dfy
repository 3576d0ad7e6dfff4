/** Every request id is a conserved token: it is in exactly one place. */
module ProtocolPlaces {
  import opened Common
  import opened Frames
  import opened Protocol
  import opened ProtocolInv
  import opened ProtocolFrames
  import opened ProtocolTheorems
  import ProtocolDispatchSteps
  import ProtocolWorkerSteps
  import Promise

  ghost predicate InQueue(k: Codec, c: Core, ch: Channel, id: Id) {
    exists i :: 0 <= i < |Queue(c, ch)| && RequestIdOr(k, Queue(c, ch)[i]) == Some(id)
  }

  ghost predicate InResponses(k: Codec, c: Core, rc: Channel, id: Id) {
    exists i :: 0 <= i < |Stream(c, rc)| && ResponseIdOr(k, Stream(c, rc)[i]) == Some(id)
  }

  /** A token that should be in a queue or a stream really is there. */
  ghost predicate Located(k: Codec, s: State) {
    && (forall id {:trigger StageIs(s, id, Queued)} :: StageIs(s, id, Queued) ==>
          id in s.core.sends && InQueue(k, s.core, s.core.sends[id].channel, id))
    && (forall id {:trigger StageIs(s, id, InStream)} :: StageIs(s, id, InStream) ==>
          id in s.core.sends && InResponses(k, s.core, s.core.sends[id].responseChannel, id))
  }

  lemma QueueEntered(k: Codec, filtering: bool, s: State, l: Label, id: Id)
    requires Enabled(s.core, l) && StageIs(Step(k, filtering, s, l), id, Queued)
    ensures StageIs(s, id, Queued) || l == Client(Send(id))
  {
    hide ClientApply, ClientEnabled, WorkerApply, DispatchApply;
  }

  lemma StreamEntered(k: Codec, filtering: bool, s: State, l: Label, id: Id)
    requires Enabled(s.core, l) && StageIs(Step(k, filtering, s, l), id, InStream)
    ensures StageIs(s, id, InStream)
         || (l.Consume? && l.work == Publish && s.core.workers[l.w].frame.id == id
             && Confirmed(s.core, s.core.workers[l.w].frame.responseChannel))
  {
    hide ClientApply, ClientEnabled, WorkerApply, DispatchApply;
  }

  /** A queue or a stream after a step: longer at the end, shorter at the front, or the same. */
  lemma QueuesMove(k: Codec, filtering: bool, s: State, l: Label, ch: Channel)
    requires Enabled(s.core, l)
    ensures var c := s.core; var c' := Step(k, filtering, s, l).core;
      || Queue(c', ch) == Queue(c, ch)
      || (l.Client? && l.client.Send? && ch == c.sends[l.client.id].channel
          && Queue(c', ch) == Queue(c, ch) + [k.encodeRequest(FrameOf(l.client.id, c.sends[l.client.id]))])
      || (l.Consume? && l.work == Pop(ch) && Queue(c, ch) != [] && Queue(c', ch) == Queue(c, ch)[1..])
  {
    hide Record, DispatchApply, DispatchEnabled;
    if l.Dispatch? {
      ProtocolDispatchSteps.DispatchStepLeaves(k, s, l.rc, l.dispatch);
    }
  }

  lemma StreamsMove(k: Codec, filtering: bool, s: State, l: Label, rc: Channel)
    requires Enabled(s.core, l)
    ensures var c := s.core; var c' := Step(k, filtering, s, l).core;
      || Stream(c', rc) == Stream(c, rc)
      || (l.Consume? && l.work == Publish && rc == c.workers[l.w].frame.responseChannel
          && var wk := c.workers[l.w];
             Stream(c', rc) == Stream(c, rc) + [k.encodeResponse(Response(wk.frame.id, wk.result))])
      || (l == Dispatch(rc, Take) && Stream(c, rc) != [] && Stream(c', rc) == Stream(c, rc)[1..])
  {
    hide Record, ClientApply, ClientEnabled, WorkerApply, WorkerEnabled, DispatchApply, DispatchEnabled;
    match l {
      case Tick(_) =>
      case Client(step) => StreamsMoveClient(k, s.core, step, rc);
      case Consume(w, step) => StreamsMoveWorker(k, filtering, s.core, w, step, rc);
      case Dispatch(rc', step) => StreamsMoveDispatch(k, s.core, rc', step, rc);
    }
  }

  lemma StreamsMoveClient(k: Codec, c: Core, l: ClientStep, rc: Channel)
    requires ClientEnabled(c, l)
    ensures Stream(ClientApply(k, c, l), rc) == Stream(c, rc)
  {
    hide Promise.Apply, Promise.Enabled;
  }

  lemma StreamsMoveWorker(k: Codec, filtering: bool, c: Core, w: Worker, l: WorkerStep, rc: Channel)
    requires WorkerEnabled(c, w, l)
    ensures var c' := WorkerApply(k, filtering, c, w, l);
      || Stream(c', rc) == Stream(c, rc)
      || (l == Publish && c.workers[w].Answered? && rc == c.workers[w].frame.responseChannel
          && Stream(c', rc) == Stream(c, rc) + [k.encodeResponse(Response(c.workers[w].frame.id, c.workers[w].result))])
  {
  }

  lemma StreamsMoveDispatch(k: Codec, c: Core, rc: Channel, l: DispatchStep, rc': Channel)
    requires DispatchEnabled(c, rc, l)
    ensures var c' := DispatchApply(k, c, rc, l);
      if l == Take && rc' == rc then Stream(c, rc) != [] && Stream(c', rc) == Stream(c, rc)[1..]
      else Stream(c', rc') == Stream(c, rc')
  {
    if l == Take {
    } else {
      ProtocolDispatchSteps.ApplyLeaves(k, c, rc, l);
      hide DispatchApply, DispatchEnabled;
    }
  }

  lemma LocatedKept(k: Codec, filtering: bool, s: State, l: Label)
    requires Faithful(k) && Inv(k, filtering, s) && Located(k, s) && Enabled(s.core, l)
    ensures Located(k, Step(k, filtering, s, l))
  {
    var s' := Step(k, filtering, s, l);
    StepExtends(k, filtering, s, l);
    StepKeepsInv(k, filtering, s, l);
    hide Step, Enabled, Inv, Faithful;
    forall id | StageIs(s', id, Queued)
      ensures id in s'.core.sends && InQueue(k, s'.core, s'.core.sends[id].channel, id)
    {
      QueuedStaysLocated(k, filtering, s, l, id);
    }
    forall id | StageIs(s', id, InStream)
      ensures id in s'.core.sends && InResponses(k, s'.core, s'.core.sends[id].responseChannel, id)
    {
      StreamedStaysLocated(k, filtering, s, l, id);
    }
  }

  lemma QueuedStaysLocated(k: Codec, filtering: bool, s: State, l: Label, id: Id)
    requires Faithful(k) && Inv(k, filtering, s) && Located(k, s) && Enabled(s.core, l)
    requires StageIs(Step(k, filtering, s, l), id, Queued)
    ensures var c' := Step(k, filtering, s, l).core; id in c'.sends && InQueue(k, c', c'.sends[id].channel, id)
  {
    var s' := Step(k, filtering, s, l);
    StepExtends(k, filtering, s, l);
    QueueEntered(k, filtering, s, l, id);
    if l == Client(Send(id)) {
      assert SendOk(s.core, id);
      SendFills(k, s, id);
    } else {
      var ch := s.core.sends[id].channel;
      QueuesMove(k, filtering, s, l, ch);
      var i :| 0 <= i < |Queue(s.core, ch)| && RequestIdOr(k, Queue(s.core, ch)[i]) == Some(id);
      if Queue(s'.core, ch) == Queue(s.core, ch) || Queue(s'.core, ch) != Queue(s.core, ch)[1..] {
        assert Queue(s'.core, ch)[i] == Queue(s.core, ch)[i];
      } else if l.Consume? && l.work == Pop(ch) {
        ProtocolWorkerSteps.PopMoves(k, s, l.w, ch);
        assert i > 0;
        assert Queue(s'.core, ch)[i - 1] == Queue(s.core, ch)[i];
      }
    }
  }

  lemma SendFills(k: Codec, s: State, id: Id)
    requires Faithful(k) && ClientEnabled(s.core, Send(id)) && SendOk(s.core, id)
    ensures var c' := ClientApply(k, s.core, Send(id)); id in c'.sends && InQueue(k, c', c'.sends[id].channel, id)
  {
    var c' := ClientApply(k, s.core, Send(id));
    var ch := s.core.sends[id].channel;
    var wire := k.encodeRequest(FrameOf(id, s.core.sends[id]));
    assert k.decodeRequest(wire) == Some(FrameOf(id, s.core.sends[id]));
    assert Queue(c', ch)[|Queue(s.core, ch)|] == wire;
  }

  lemma StreamedStaysLocated(k: Codec, filtering: bool, s: State, l: Label, id: Id)
    requires Faithful(k) && Inv(k, filtering, s) && Located(k, s) && Enabled(s.core, l)
    requires StageIs(Step(k, filtering, s, l), id, InStream)
    ensures var c' := Step(k, filtering, s, l).core; id in c'.sends && InResponses(k, c', c'.sends[id].responseChannel, id)
  {
    var s' := Step(k, filtering, s, l);
    StepExtends(k, filtering, s, l);
    StreamEntered(k, filtering, s, l, id);
    if StageIs(s, id, InStream) {
      var rc := s.core.sends[id].responseChannel;
      StreamsMove(k, filtering, s, l, rc);
      var i :| 0 <= i < |Stream(s.core, rc)| && ResponseIdOr(k, Stream(s.core, rc)[i]) == Some(id);
      if l == Dispatch(rc, Take) {
        ProtocolDispatchSteps.TakeMoves(k, s, rc);
        assert i > 0;
        assert Stream(s'.core, rc) == Stream(s.core, rc)[1..] ==> Stream(s'.core, rc)[i - 1] == Stream(s.core, rc)[i];
      }
      if Stream(s'.core, rc) != Stream(s.core, rc)[1..] || l != Dispatch(rc, Take) {
        assert Stream(s'.core, rc)[i] == Stream(s.core, rc)[i];
      }
    } else {
      assert WorkerInv(k, s, l.w);
      PublishFills(k, s, l.w);
    }
  }

  lemma PublishFills(k: Codec, s: State, w: Worker)
    requires Faithful(k) && WorkerEnabled(s.core, w, Publish) && WorkerInv(k, s, w) && SendsInv(s.core)
    ensures var c' := ProtocolWorkerSteps.After(k, true, s, w, Publish).core; var f := s.core.workers[w].frame;
      f.id in c'.sends && InResponses(k, c', c'.sends[f.id].responseChannel, f.id)
  {
    var f := s.core.workers[w].frame;
    ProtocolWorkerSteps.PublishReachesStream(k, s, w);
    ProtocolWorkerSteps.WorkerStepLeaves(k, true, s, w, Publish);
    var c' := ProtocolWorkerSteps.After(k, true, s, w, Publish).core;
    hide SendsInv, Faithful, WorkerApply;
    assert Stream(c', f.responseChannel)[|Stream(s.core, f.responseChannel)|]
        == k.encodeResponse(Response(f.id, s.core.workers[w].result));
  }

  lemma {:induction false} ContinueKeepsLocated(k: Codec, filtering: bool, s: State, ls: seq<Label>)
    requires Faithful(k) && Inv(k, filtering, s) && Located(k, s) && Continue(k, filtering, s, ls).Some?
    ensures Located(k, Continue(k, filtering, s, ls).value)
  {
    hide Inv, Located, Step, Enabled, Faithful;
    if ls != [] {
      var init := ls[..|ls| - 1];
      ContinueKeepsLocated(k, filtering, s, init);
      ContinueKeepsInv(k, filtering, s, init);
      LocatedKept(k, filtering, Continue(k, filtering, s, init).value, ls[|ls| - 1]);
    }
  }

  datatype Place =
    | QueuedAt(channel: Channel, i: nat)
    | AtHandler(w: Worker)
    | StreamedAt(rc: Channel, i: nat)
    | AtDispatcher(rc: Channel)
    | Finished(fate: Fate)

  /** The dispatcher still has to do something for id; one that only gives the lock back does not. */
  predicate Carries(k: Codec, s: State, d: Dispatcher, id: Id) {
    DispatchId(k, d) == Some(id) && (d.Leaving? ==> id in s.hist.responded)
  }

  ghost predicate Holds(k: Codec, s: State, id: Id, p: Place) {
    match p
    case QueuedAt(ch, i) => i < |Queue(s.core, ch)| && RequestIdOr(k, Queue(s.core, ch)[i]) == Some(id)
    case AtHandler(w) => w in s.core.workers && WorkId(k, s.core.workers[w]) == Some(id)
    case StreamedAt(rc, i) => i < |Stream(s.core, rc)| && ResponseIdOr(k, Stream(s.core, rc)[i]) == Some(id)
    case AtDispatcher(rc) => rc in s.core.interfaces && Carries(k, s, s.core.interfaces[rc].dispatcher, id)
    case Finished(fate) => StageIs(s, id, Done(fate))
  }

  /** The channel a place is on has to be the request's own. */
  ghost predicate OwnChannel(c: Core, id: Id, p: Place)
    requires id in c.sends
  {
    match p
    case QueuedAt(ch, _) => ch == c.sends[id].channel
    case StreamedAt(rc, _) => rc == c.sends[id].responseChannel
    case AtDispatcher(rc) => rc == c.sends[id].responseChannel
    case _ => true
  }

  function StageOf(p: Place): Stage {
    match p
    case QueuedAt(_, _) => Queued
    case AtHandler(w) => AtWorker(w)
    case StreamedAt(_, _) => InStream
    case AtDispatcher(_) => Dispatching
    case Finished(fate) => Done(fate)
  }

  /** A place holds a token only if the token's stage says so. */
  lemma HoldsMeansStage(k: Codec, filtering: bool, s: State, id: Id, p: Place)
    requires Inv(k, filtering, s) && Holds(k, s, id, p)
    ensures StageIs(s, id, StageOf(p)) && id in s.core.sends && OwnChannel(s.core, id, p)
  {
    match p
    case QueuedAt(ch, i) => assert QueueOk(k, s, ch, i);
    case AtHandler(w) => assert WorkerInv(k, s, w);
    case StreamedAt(rc, i) => assert StreamOk(k, s, rc, i);
    case AtDispatcher(rc) => assert DispatcherInv(k, s, rc);
    case Finished(fate) =>
  }

  lemma PlacesCoincide(k: Codec, filtering: bool, s: State, id: Id, p: Place, p': Place)
    requires Inv(k, filtering, s) && Holds(k, s, id, p) && Holds(k, s, id, p')
    ensures p == p'
  {
    HoldsMeansStage(k, filtering, s, id, p);
    HoldsMeansStage(k, filtering, s, id, p');
    match p
    case QueuedAt(ch, i) =>
      assert QueueDistinct(k, s.core, ch, i, p'.i) && QueueDistinct(k, s.core, ch, p'.i, i);
    case StreamedAt(rc, i) =>
      assert StreamDistinct(k, s.core, rc, i, p'.i) && StreamDistinct(k, s.core, rc, p'.i, i);
    case _ =>
  }

  lemma SomePlace(k: Codec, filtering: bool, s: State, id: Id) returns (p: Place)
    requires Inv(k, filtering, s) && Located(k, s) && id in s.hist.stage
    ensures Holds(k, s, id, p)
  {
    assert StageIs(s, id, s.hist.stage[id]);
    var r := s.core.sends[id];
    match s.hist.stage[id] {
      case Queued =>
        var i :| 0 <= i < |Queue(s.core, r.channel)| && RequestIdOr(k, Queue(s.core, r.channel)[i]) == Some(id);
        p := QueuedAt(r.channel, i);
      case AtWorker(w) =>
        p := AtHandler(w);
      case InStream =>
        var i :| 0 <= i < |Stream(s.core, r.responseChannel)| && ResponseIdOr(k, Stream(s.core, r.responseChannel)[i]) == Some(id);
        p := StreamedAt(r.responseChannel, i);
      case Dispatching =>
        assert DispatcherInv(k, s, r.responseChannel);
        p := AtDispatcher(r.responseChannel);
      case Done(fate) =>
        p := Finished(fate);
    }
  }

  /**
   Conservation: in every reachable state, a request that has been sent is in exactly one place: one position of
   one queue, one handler, one position of one response stream, one dispatcher, or at one of its ends.
   */
  lemma ExactlyOnePlace(k: Codec, filtering: bool, now: int, ls: seq<Label>, id: Id)
    requires Faithful(k) && Run(k, filtering, now, ls).Some?
    requires var c := Run(k, filtering, now, ls).value.core; id in c.sends && c.sends[id].pc == Sent
    ensures var s := Run(k, filtering, now, ls).value;
      exists p :: Holds(k, s, id, p) && (forall p' :: Holds(k, s, id, p') ==> p' == p)
  {
    var s := Run(k, filtering, now, ls).value;
    InitInv(k, filtering, now);
    assert Located(k, Init(now));
    ContinueKeepsLocated(k, filtering, Init(now), ls);
    RunInv(k, filtering, now, ls);
    var p := SomePlace(k, filtering, s, id);
    hide Run, Inv, Located, Holds;
    forall p' | Holds(k, s, id, p') ensures p' == p {
      PlacesCoincide(k, filtering, s, id, p, p');
    }
  }

  /** And one that has not been sent is nowhere. */
  lemma UnsentIsNowhere(k: Codec, filtering: bool, now: int, ls: seq<Label>, id: Id, p: Place)
    requires Faithful(k) && Run(k, filtering, now, ls).Some?
    requires var c := Run(k, filtering, now, ls).value.core; id !in c.sends || c.sends[id].pc != Sent
    ensures !Holds(k, Run(k, filtering, now, ls).value, id, p)
  {
    var s := Run(k, filtering, now, ls).value;
    RunInv(k, filtering, now, ls);
    if Holds(k, s, id, p) {
      HoldsMeansStage(k, filtering, s, id, p);
    }
  }
}
