/** The steps of the queue workers and request handlers keep the invariant. */
module ProtocolWorkerSteps {
  import opened Common
  import opened Frames
  import opened Protocol
  import opened ProtocolInv
  import opened ProtocolFrames
  import Clock

  function After(k: Codec, filtering: bool, s: State, w: Worker, l: WorkerStep): State
    requires WorkerEnabled(s.core, w, l)
  {
    State(WorkerApply(k, filtering, s.core, w, l), WorkerRecord(k, filtering, s.core, s.hist, w, l))
  }

  /** A publication appends to one stream, and changes nothing else of any interface. */
  lemma PublishLeaves(k: Codec, filtering: bool, s: State, w: Worker)
    requires WorkerEnabled(s.core, w, Publish)
    ensures var s' := After(k, filtering, s, w, Publish);
      SameRegistries(s.core, s'.core) && SameDispatchers(s, s') && s'.core.interfaces.Keys == s.core.interfaces.Keys
  {
  }

  /** Everything but queues, workers, streams and calls: a worker step concerns none of it. */
  lemma WorkerStepLeaves(k: Codec, filtering: bool, s: State, w: Worker, l: WorkerStep)
    requires WorkerEnabled(s.core, w, l)
    ensures var s' := After(k, filtering, s, w, l);
      && Extends(s, s') && s'.core.sends == s.core.sends && s'.core.promises == s.core.promises && s'.core.now == s.core.now
      && SameRegistries(s.core, s'.core) && SameDispatchers(s, s') && s'.core.interfaces.Keys == s.core.interfaces.Keys
      && (l != Publish ==> s'.core.interfaces == s.core.interfaces)
      && (!l.Pop? ==> s'.core.queues == s.core.queues)
      && (!l.Call? ==> s'.hist.calls == s.hist.calls)
      && s'.hist.responded == s.hist.responded
      && s'.core.workers - {w} == s.core.workers - {w}
  {
    if l == Publish {
      PublishLeaves(k, filtering, s, w);
      hide SameRegistries, SameDispatchers;
    }
  }

  /** The parts of the invariant a token's move between these stages cannot touch. */
  lemma RestKept(k: Codec, filtering: bool, s: State, w: Worker, l: WorkerStep)
    requires WorkerEnabled(s.core, w, l)
    requires SendsInv(s.core) && RegistryInv(s.core) && DispatchersInv(k, s) && RespondedInv(s) && PromisesInv(s)
    requires var s' := After(k, filtering, s, w, l);
      SameStage(s, s', Dispatching) && KeepsStage(s, s', Done(Unclaimed)) && KeepsStage(s, s', Done(Delivered))
    ensures var s' := After(k, filtering, s, w, l);
      SendsInv(s'.core) && RegistryInv(s'.core) && DispatchersInv(k, s') && RespondedInv(s') && PromisesInv(s')
  {
    var s' := After(k, filtering, s, w, l);
    WorkerStepLeaves(k, filtering, s, w, l);
    hide After, WorkerEnabled, DispatchersInv, RespondedInv, SendsInv, RegistryInv, PromisesInv;
    hide Extends, SameStage, KeepsStage;
    SendsFrame(s.core, s'.core);
    RegistryFrame(s.core, s'.core);
    DispatchersFrame(k, s, s');
    RespondedFrame(s, s');
    PromisesFrame(s, s');
  }

  lemma PopMoves(k: Codec, s: State, w: Worker, ch: Channel)
    requires WorkerEnabled(s.core, w, Pop(ch)) && QueuesInv(k, s)
    ensures var id := RequestIdOr(k, Queue(s.core, ch)[0]);
      id.Some? && Moved(s, After(k, true, s, w, Pop(ch)), id.value, Queued, AtWorker(w))
  {
    assert QueueOk(k, s, ch, 0);
  }

  lemma PopKeepsQueues(k: Codec, s: State, w: Worker, ch: Channel)
    requires WorkerEnabled(s.core, w, Pop(ch)) && QueuesInv(k, s)
    ensures QueuesInv(k, After(k, true, s, w, Pop(ch)))
  {
    var s' := After(k, true, s, w, Pop(ch));
    PopMoves(k, s, w, ch);
    WorkerStepLeaves(k, true, s, w, Pop(ch));
    var id := RequestIdOr(k, Queue(s.core, ch)[0]).value;
    assert QueueOk(k, s, ch, 0);
    forall c, i: nat ensures QueueOk(k, s', c, i) {
      var j := if c == ch then i + 1 else i;
      assert QueueOk(k, s, c, j) && QueueDistinct(k, s.core, ch, 0, j);
      if i < |Queue(s'.core, c)| {
        assert Queue(s'.core, c)[i] == Queue(s.core, c)[j];
        FrameStable(s, s', c, k.decodeRequest(Queue(s.core, c)[j]).value);
        assert RequestId(k, Queue(s.core, c)[j]) != id;
      }
    }
    forall c, i: nat, j: nat ensures QueueDistinct(k, s'.core, c, i, j) {
      if c == ch {
        assert QueueDistinct(k, s.core, c, i + 1, j + 1);
      } else {
        assert QueueDistinct(k, s.core, c, i, j);
      }
    }
  }

  lemma PopKeepsHistory(k: Codec, filtering: bool, s: State, w: Worker, ch: Channel)
    requires WorkerEnabled(s.core, w, Pop(ch)) && QueuesInv(k, s) && HistoryInv(filtering, s)
    ensures HistoryInv(filtering, After(k, filtering, s, w, Pop(ch)))
  {
    assert QueueOk(k, s, ch, 0);
  }

  lemma PopKeepsWorkers(k: Codec, s: State, w: Worker, ch: Channel)
    requires WorkerEnabled(s.core, w, Pop(ch)) && QueuesInv(k, s) && WorkersInv(k, s) && CallsInv(s)
    requires forall id :: id in s.hist.expired ==> !StageIs(s, id, Queued)
    ensures WorkersInv(k, After(k, true, s, w, Pop(ch)))
  {
    var s' := After(k, true, s, w, Pop(ch));
    PopMoves(k, s, w, ch);
    WorkerStepLeaves(k, true, s, w, Pop(ch));
    var wire := Queue(s.core, ch)[0];
    var id := RequestIdOr(k, wire).value;
    assert QueueOk(k, s, ch, 0);
    FrameStable(s, s', ch, k.decodeRequest(wire).value);
    forall i | 0 <= i < |s.hist.calls| ensures s.hist.calls[i].id != id {
      assert CallOk(s, i);
    }
    forall w' | w' != w ensures SameStage(s, s', AtWorker(w')) {
      MovedKeeps(s, s', id, Queued, AtWorker(w), AtWorker(w'));
    }
    forall x | StageIs(s', x, AtWorker(w)) ensures x == id {
      assert x != id ==> StageIs(s, x, AtWorker(w));
    }
    hide WorkersInv, Extends, Moved, After;
    WorkersFrameBut(k, s, s', w);
  }

  lemma PopKeeps(k: Codec, filtering: bool, s: State, w: Worker, ch: Channel)
    requires Inv(k, filtering, s) && WorkerEnabled(s.core, w, Pop(ch))
    ensures Inv(k, filtering, After(k, filtering, s, w, Pop(ch)))
  {
    var s' := After(k, filtering, s, w, Pop(ch));
    assert s' == After(k, true, s, w, Pop(ch));
    assert forall id :: id in s.hist.expired ==> !StageIs(s, id, Queued);
    hide QueuesInv, WorkersInv, StreamsInv, DispatchersInv, CallsInv, RespondedInv, SendsInv, RegistryInv, HistoryInv, PromisesInv;
    hide After, WorkerEnabled;
    PopKeepsQueues(k, s, w, ch);
    PopKeepsWorkers(k, s, w, ch);
    PopKeepsHistory(k, filtering, s, w, ch);
    PopMoves(k, s, w, ch);
    WorkerStepLeaves(k, filtering, s, w, Pop(ch));
    var id := RequestIdOr(k, Queue(s.core, ch)[0]).value;
    MoveLeavesOthers(s, s', id, Queued, AtWorker(w));
    assert SameStreams(s, s');
    hide Moved, SameStage, KeepsStage, Extends, SameStreams, StageIs;
    RestKept(k, filtering, s, w, Pop(ch));
    StreamsFrame(k, s, s');
    CallsFrame(s, s');
  }

  /** A request leaves worker w for good: to nowhere, or into a response stream. */
  lemma LeaveKeepsWorkers(k: Codec, filtering: bool, s: State, w: Worker, l: WorkerStep, id: Id, to: Stage)
    requires WorkerEnabled(s.core, w, l) && WorkersInv(k, s) && !to.AtWorker? && !l.Call?
    requires w in s.core.workers && WorkId(k, s.core.workers[w]) == Some(id)
    requires var s' := After(k, filtering, s, w, l);
      w !in s'.core.workers && Moved(s, s', id, AtWorker(w), to) && s'.hist.expired <= s.hist.expired + {id}
    ensures WorkersInv(k, After(k, filtering, s, w, l))
  {
    var s' := After(k, filtering, s, w, l);
    WorkerStepLeaves(k, filtering, s, w, l);
    forall w' | w' != w ensures SameStage(s, s', AtWorker(w')) {
      MovedKeeps(s, s', id, AtWorker(w), to, AtWorker(w'));
    }
    forall x ensures !StageIs(s', x, AtWorker(w)) {
      assert StageIs(s, x, AtWorker(w)) ==> x == id;
    }
    hide WorkersInv, Extends, After, WorkerEnabled;
    WorkersFrameBut(k, s, s', w);
  }

  /** The rest of the invariant when a request is dropped at worker w. */
  lemma DropKeeps(k: Codec, filtering: bool, s: State, w: Worker, l: WorkerStep, id: Id, to: Stage)
    requires Inv(k, filtering, s) && WorkerEnabled(s.core, w, l) && (l == Abandon || l == Filter)
    requires to == Done(NoHandler) || to == Done(DroppedAsExpired)
    requires w in s.core.workers && WorkId(k, s.core.workers[w]) == Some(id)
    requires var s' := After(k, filtering, s, w, l);
      && w !in s'.core.workers && Moved(s, s', id, AtWorker(w), to) && s'.hist.expired <= s.hist.expired + {id}
      && HistoryInv(filtering, s')
    ensures Inv(k, filtering, After(k, filtering, s, w, l))
  {
    var s' := After(k, filtering, s, w, l);
    hide QueuesInv, WorkersInv, StreamsInv, DispatchersInv, CallsInv, RespondedInv, SendsInv, RegistryInv, HistoryInv, PromisesInv;
    hide After, WorkerEnabled;
    WorkerStepLeaves(k, filtering, s, w, l);
    LeaveKeepsWorkers(k, filtering, s, w, l, id, to);
    MoveLeavesOthers(s, s', id, AtWorker(w), to);
    assert SameStreams(s, s');
    hide Moved, SameStage, KeepsStage, Extends, SameStreams, StageIs;
    RestKept(k, filtering, s, w, l);
    QueuesFrame(k, s, s');
    StreamsFrame(k, s, s');
    CallsFrame(s, s');
  }

  lemma AbandonKeeps(k: Codec, filtering: bool, s: State, w: Worker)
    requires Inv(k, filtering, s) && WorkerEnabled(s.core, w, Abandon)
    ensures Inv(k, filtering, After(k, filtering, s, w, Abandon))
  {
    assert WorkerInv(k, s, w);
    var id := WorkId(k, s.core.workers[w]).value;
    assert HistoryInv(filtering, After(k, filtering, s, w, Abandon)) by {
      hide QueuesInv, WorkersInv, StreamsInv, DispatchersInv, CallsInv, RespondedInv, SendsInv, RegistryInv, PromisesInv;
    }
    hide Inv;
    DropKeeps(k, filtering, s, w, Abandon, id, Done(NoHandler));
  }

  lemma FilterKeepsHistory(k: Codec, filtering: bool, s: State, w: Worker)
    requires WorkerEnabled(s.core, w, Filter) && WorkerInv(k, s, w) && HistoryInv(filtering, s)
    ensures HistoryInv(filtering, After(k, filtering, s, w, Filter))
  {
    var f := k.decodeRequest(s.core.workers[w].wire).value;
    if FrameExpired(s.core.now, f) {
      Clock.FilterIsSound(s.core.now, s.core.sends[f.id].validUntil);
    }
  }

  /** The request passes the filter (or there is none): it stays with worker w. */
  lemma KeepKeepsWorkers(k: Codec, filtering: bool, s: State, w: Worker)
    requires WorkerEnabled(s.core, w, Filter) && WorkersInv(k, s) && WorkerInv(k, s, w)
    requires w in After(k, filtering, s, w, Filter).core.workers
    ensures WorkersInv(k, After(k, filtering, s, w, Filter))
  {
    var s' := After(k, filtering, s, w, Filter);
    var f := k.decodeRequest(s.core.workers[w].wire).value;
    WorkerStepLeaves(k, filtering, s, w, Filter);
    FrameStable(s, s', s.core.workers[w].channel, f);
    assert WorkerInv(k, s', w);
    assert WorkId(k, s'.core.workers[w]) == WorkId(k, s.core.workers[w]);
    assert s'.hist.stage == s.hist.stage && s'.hist.expired <= s.hist.expired + {f.id};
    assert forall x :: StageIs(s', x, AtWorker(w)) ==> StageIs(s, x, AtWorker(w));
    assert forall w' :: SameStage(s, s', AtWorker(w'));
    hide Extends, After, WorkerEnabled, WorkerInv;
    WorkersFrameBut(k, s, s', w);
  }

  lemma FilterKeeps(k: Codec, filtering: bool, s: State, w: Worker)
    requires Inv(k, filtering, s) && WorkerEnabled(s.core, w, Filter)
    ensures Inv(k, filtering, After(k, filtering, s, w, Filter))
  {
    hide QueuesInv, StreamsInv, DispatchersInv, CallsInv, RespondedInv, SendsInv, RegistryInv, PromisesInv, HistoryInv;
    var s' := After(k, filtering, s, w, Filter);
    assert WorkerInv(k, s, w);
    var f := k.decodeRequest(s.core.workers[w].wire).value;
    FilterKeepsHistory(k, filtering, s, w);
    if w !in s'.core.workers {
      hide Inv;
      DropKeeps(k, filtering, s, w, Filter, f.id, Done(DroppedAsExpired));
    } else {
      KeepKeepsWorkers(k, filtering, s, w);
      assert s'.hist.stage == s.hist.stage;
      assert forall stage :: SameStage(s, s', stage);
      WorkerStepLeaves(k, filtering, s, w, Filter);
      hide After, WorkerEnabled, WorkersInv;
      RestKept(k, filtering, s, w, Filter);
      QueuesFrame(k, s, s');
      StreamsFrame(k, s, s');
      CallsFrame(s, s');
    }
  }

  lemma CallKeepsCalls(k: Codec, s: State, w: Worker, result: Bytes)
    requires WorkerEnabled(s.core, w, Call(result)) && WorkerInv(k, s, w) && CallsInv(s)
    ensures CallsInv(After(k, true, s, w, Call(result)))
  {
    var s' := After(k, true, s, w, Call(result));
    forall i: nat ensures CallOk(s', i) {
      assert CallOk(s, i);
    }
    forall i: nat, j: nat ensures CallsDistinct(s', i, j) {
      assert CallsDistinct(s, i, j);
    }
  }

  lemma CallKeepsWorkers(k: Codec, s: State, w: Worker, result: Bytes)
    requires WorkerEnabled(s.core, w, Call(result)) && WorkersInv(k, s) && WorkerInv(k, s, w)
    ensures WorkersInv(k, After(k, true, s, w, Call(result)))
  {
    var s' := After(k, true, s, w, Call(result));
    var f := s.core.workers[w].frame;
    WorkerStepLeaves(k, true, s, w, Call(result));
    FrameStable(s, s', s.core.workers[w].channel, f);
    assert s'.hist.calls[|s.hist.calls|] == CallOf(s'.core, f.id, result);
    assert WorkerInv(k, s', w);
    forall id | !StageIs(s, id, AtWorker(w)) && NotCalled(s, id) ensures NotCalled(s', id) {
      assert id != f.id;
    }
    assert forall x :: StageIs(s', x, AtWorker(w)) ==> StageIs(s, x, AtWorker(w));
    assert forall w' :: SameStage(s, s', AtWorker(w'));
    hide Extends, After, WorkerEnabled, WorkerInv, NotCalled;
    WorkersFrameBut(k, s, s', w);
  }

  lemma CallKeeps(k: Codec, filtering: bool, s: State, w: Worker, result: Bytes)
    requires Inv(k, filtering, s) && WorkerEnabled(s.core, w, Call(result))
    ensures Inv(k, filtering, After(k, filtering, s, w, Call(result)))
  {
    hide QueuesInv, StreamsInv, DispatchersInv, CallsInv, RespondedInv, SendsInv, RegistryInv, PromisesInv, HistoryInv;
    var s' := After(k, filtering, s, w, Call(result));
    assert s' == After(k, true, s, w, Call(result));
    assert WorkerInv(k, s, w);
    assert s'.hist == s.hist.(calls := s'.hist.calls);
    assert forall stage :: SameStage(s, s', stage);
    CallKeepsCalls(k, s, w, result);
    CallKeepsWorkers(k, s, w, result);
    WorkerStepLeaves(k, filtering, s, w, Call(result));
    hide After, WorkerEnabled, WorkersInv, WorkerInv;
    RestKept(k, filtering, s, w, Call(result));
    QueuesFrame(k, s, s');
    StreamsFrame(k, s, s');
    HistoryFrame(filtering, s, s');
  }

  /** What a worker is about to publish: a confirmed channel, a decodable frame. */
  lemma PublishReachesStream(k: Codec, s: State, w: Worker)
    requires Faithful(k) && WorkerEnabled(s.core, w, Publish) && WorkerInv(k, s, w) && SendsInv(s.core)
    ensures var wk := s.core.workers[w]; var f := wk.frame; var s' := After(k, true, s, w, Publish);
      && Confirmed(s.core, f.responseChannel)
      && Stream(s'.core, f.responseChannel) == Stream(s.core, f.responseChannel) + [k.encodeResponse(Response(f.id, wk.result))]
      && (forall rc :: rc != f.responseChannel ==> Stream(s'.core, rc) == Stream(s.core, rc))
      && k.decodeResponse(k.encodeResponse(Response(f.id, wk.result))) == Some(Response(f.id, wk.result))
      && Moved(s, s', f.id, AtWorker(w), InStream)
  {
    assert SendOk(s.core, s.core.workers[w].frame.id);
  }

  lemma PublishKeepsStreams(k: Codec, s: State, w: Worker)
    requires Faithful(k) && WorkerEnabled(s.core, w, Publish) && WorkerInv(k, s, w) && SendsInv(s.core) && StreamsInv(k, s)
    ensures StreamsInv(k, After(k, true, s, w, Publish))
  {
    var s' := After(k, true, s, w, Publish);
    var wk := s.core.workers[w];
    var f := wk.frame;
    PublishReachesStream(k, s, w);
    WorkerStepLeaves(k, true, s, w, Publish);
    hide SendsInv, WorkerEnabled, After, Faithful;
    forall rc, i: nat ensures StreamOk(k, s', rc, i) {
      assert StreamOk(k, s, rc, i);
      if i < |Stream(s.core, rc)| {
        assert Stream(s'.core, rc)[i] == Stream(s.core, rc)[i];
        StreamFrame(k, s, s', rc, Stream(s.core, rc)[i]);
      } else if i < |Stream(s'.core, rc)| {
        assert rc == f.responseChannel;
        AnswerStable(s, s', rc, Response(f.id, wk.result));
      }
    }
    forall rc, i: nat, j: nat ensures StreamDistinct(k, s'.core, rc, i, j) {
      assert StreamDistinct(k, s.core, rc, i, j) && StreamOk(k, s, rc, i);
      if i < j < |Stream(s'.core, rc)| {
        assert Stream(s'.core, rc)[i] == Stream(s.core, rc)[i];
      }
    }
  }

  lemma PublishKeepsHistory(k: Codec, filtering: bool, s: State, w: Worker)
    requires Faithful(k) && WorkerEnabled(s.core, w, Publish) && WorkerInv(k, s, w) && SendsInv(s.core) && HistoryInv(filtering, s)
    ensures HistoryInv(filtering, After(k, filtering, s, w, Publish))
  {
    PublishReachesStream(k, s, w);
  }

  lemma PublishKeeps(k: Codec, filtering: bool, s: State, w: Worker)
    requires Faithful(k) && Inv(k, filtering, s) && WorkerEnabled(s.core, w, Publish)
    ensures Inv(k, filtering, After(k, filtering, s, w, Publish))
  {
    hide QueuesInv, StreamsInv, DispatchersInv, CallsInv, RespondedInv, SendsInv, RegistryInv, PromisesInv, HistoryInv, Faithful;
    var s' := After(k, filtering, s, w, Publish);
    assert s' == After(k, true, s, w, Publish) && w !in s'.core.workers && s'.hist.expired == s.hist.expired;
    assert WorkerInv(k, s, w);
    var id := s.core.workers[w].frame.id;
    PublishReachesStream(k, s, w);
    PublishKeepsStreams(k, s, w);
    PublishKeepsHistory(k, filtering, s, w);
    WorkerStepLeaves(k, filtering, s, w, Publish);
    hide After, WorkerEnabled, WorkersInv, WorkerInv;
    LeaveKeepsWorkers(k, filtering, s, w, Publish, id, InStream);
    MoveLeavesOthers(s, s', id, AtWorker(w), InStream);
    hide Moved, SameStage, KeepsStage, Extends, StageIs;
    RestKept(k, filtering, s, w, Publish);
    QueuesFrame(k, s, s');
    CallsFrame(s, s');
  }

  lemma WorkerStepKeepsInv(k: Codec, filtering: bool, s: State, w: Worker, l: WorkerStep)
    requires Faithful(k) && Inv(k, filtering, s) && Enabled(s.core, Consume(w, l))
    ensures Inv(k, filtering, Step(k, filtering, s, Consume(w, l)))
  {
    hide Inv, Faithful;
    match l {
      case Pop(ch) => PopKeeps(k, filtering, s, w, ch);
      case Abandon => AbandonKeeps(k, filtering, s, w);
      case Filter => FilterKeeps(k, filtering, s, w);
      case Call(result) => CallKeeps(k, filtering, s, w, result);
      case Publish => PublishKeeps(k, filtering, s, w);
    }
  }
}
