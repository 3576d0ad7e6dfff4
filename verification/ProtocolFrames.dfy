/** When a step leaves one kind of place alone, the invariant of that place survives it. */
module ProtocolFrames {
  import opened Common
  import opened Frames
  import opened Protocol
  import opened ProtocolInv
  import Promise

  /** What no step takes back: send records up to their progress, callback runs, confirmed interfaces, promises. */
  ghost predicate Extends(s: State, s': State) {
    && (forall id :: id in s.core.sends ==>
          && id in s'.core.sends
          && s'.core.sends[id] == s.core.sends[id].(pc := s'.core.sends[id].pc)
          && (s.core.sends[id].pc == Sent ==> s'.core.sends[id].pc == Sent))
    && s.hist.calls <= s'.hist.calls
    && s.core.now <= s'.core.now
    && (forall id :: id in s.hist.stage ==> id in s'.hist.stage)
  }

  ghost predicate SameStage(s: State, s': State, stage: Stage) {
    forall id :: StageIs(s, id, stage) <==> StageIs(s', id, stage)
  }

  ghost predicate KeepsStage(s: State, s': State, stage: Stage) {
    forall id :: StageIs(s, id, stage) ==> StageIs(s', id, stage)
  }

  lemma FrameStable(s: State, s': State, ch: Channel, f: Request)
    requires Extends(s, s') && GoodFrame(s.core, ch, f)
    ensures GoodFrame(s'.core, ch, f)
  {
  }

  lemma AnswerStable(s: State, s': State, rc: Channel, f: Response)
    requires Extends(s, s') && GoodAnswer(s, rc, f)
    ensures GoodAnswer(s', rc, f)
  {
    assert CallOf(s'.core, f.id, f.payload) == CallOf(s.core, f.id, f.payload);
  }

  ghost predicate SamePromise(c: Core, c': Core, a: Addr)
    requires a in c.promises && a in c'.promises
  {
    c'.promises[a] == c.promises[a].(p := c'.promises[a].p) && c'.promises[a].p.validUntil == c.promises[a].p.validUntil
  }

  /** Same promises except for what goes on inside them. */
  ghost predicate SamePromises(c: Core, c': Core) {
    && c'.promises.Keys == c.promises.Keys
    && (forall a :: a in c.promises ==> SamePromise(c, c', a))
  }

  /** Same registries, and nothing is unconfirmed; an interface may have been added. */
  ghost predicate SameRegistries(c: Core, c': Core) {
    && (forall rc :: rc in c.interfaces ==>
          && rc in c'.interfaces
          && c'.interfaces[rc].registry == c.interfaces[rc].registry
          && (c.interfaces[rc].confirmed ==> c'.interfaces[rc].confirmed))
    && (forall rc :: rc in c'.interfaces && rc !in c.interfaces ==> c'.interfaces[rc].registry == map[])
  }

  lemma SendsFrame(c: Core, c': Core)
    requires SendsInv(c) && c'.sends == c.sends && SamePromises(c, c') && SameRegistries(c, c')
    requires forall rc :: rc in c'.interfaces ==> rc in c.interfaces || Base62(rc)
    ensures SendsInv(c')
  {
    forall id | id in c'.sends ensures SendOk(c', id) {
      assert SendOk(c, id);
    }
    forall a | a in c'.promises ensures PromiseOwned(c', a) {
      assert PromiseOwned(c, a);
    }
  }

  lemma RegistryFrame(c: Core, c': Core)
    requires RegistryInv(c) && c'.sends == c.sends && SamePromises(c, c') && SameRegistries(c, c')
    ensures RegistryInv(c')
  {
    forall rc, id | Waiting(c', rc, id)
      ensures RegisteredAlive(c', id) && c'.sends[id].responseChannel == rc && c'.interfaces[rc].registry[id] == c'.sends[id].addr
    {
      assert Waiting(c, rc, id);
    }
    forall id | RegisteredAlive(c', id) ensures Waiting(c', c'.sends[id].responseChannel, id) {
      assert RegisteredAlive(c, id);
    }
  }

  lemma QueuesFrame(k: Codec, s: State, s': State)
    requires QueuesInv(k, s) && Extends(s, s') && s'.core.queues == s.core.queues && KeepsStage(s, s', Queued)
    ensures QueuesInv(k, s')
  {
    forall ch, i: nat ensures QueueOk(k, s', ch, i) {
      assert QueueOk(k, s, ch, i);
      if i < |Queue(s.core, ch)| {
        FrameStable(s, s', ch, k.decodeRequest(Queue(s.core, ch)[i]).value);
      }
    }
    forall ch, i: nat, j: nat ensures QueueDistinct(k, s'.core, ch, i, j) {
      assert QueueDistinct(k, s.core, ch, i, j);
    }
  }

  lemma WorkerFrame(k: Codec, s: State, s': State, w: Worker)
    requires w in s.core.workers && WorkerInv(k, s, w) && Extends(s, s')
    requires w in s'.core.workers && s'.core.workers[w] == s.core.workers[w]
    requires KeepsStage(s, s', AtWorker(w))
    requires forall id :: StageIs(s, id, AtWorker(w)) && NotCalled(s, id) ==> NotCalled(s', id)
    requires forall id :: StageIs(s, id, AtWorker(w)) && s.core.workers[w].Popped? && id !in s.hist.expired ==> id !in s'.hist.expired
    ensures WorkerInv(k, s', w)
  {
    match s.core.workers[w]
    case Popped(ch, wire) => FrameStable(s, s', ch, k.decodeRequest(wire).value);
    case Kept(ch, f) => FrameStable(s, s', ch, f);
    case Answered(ch, f, result) =>
      FrameStable(s, s', ch, f);
      assert CallOf(s'.core, f.id, result) == CallOf(s.core, f.id, result);
  }

  /** The workers other than w are as they were; w itself is accounted for by the last two requirements. */
  lemma WorkersFrameBut(k: Codec, s: State, s': State, w: Worker)
    requires WorkersInv(k, s) && Extends(s, s') && s'.core.workers - {w} == s.core.workers - {w}
    requires forall w' :: w' != w ==> SameStage(s, s', AtWorker(w'))
    requires forall id :: !StageIs(s, id, AtWorker(w)) && NotCalled(s, id) ==> NotCalled(s', id)
    requires forall id :: !StageIs(s, id, AtWorker(w)) && id in s'.hist.expired ==> id in s.hist.expired
    requires w in s'.core.workers ==> WorkerInv(k, s', w)
    requires forall id :: StageIs(s', id, AtWorker(w)) ==> w in s'.core.workers && WorkId(k, s'.core.workers[w]) == Some(id)
    ensures WorkersInv(k, s')
  {
    forall w' | w' in s'.core.workers ensures WorkerInv(k, s', w') {
      if w' != w {
        assert w' in s'.core.workers - {w} && s'.core.workers[w'] == (s'.core.workers - {w})[w'];
        assert SameStage(s, s', AtWorker(w')) && WorkerInv(k, s, w');
        WorkerFrame(k, s, s', w');
      }
    }
    forall id, w' | StageIs(s', id, AtWorker(w')) ensures w' in s'.core.workers && WorkId(k, s'.core.workers[w']) == Some(id) {
      if w' != w {
        assert SameStage(s, s', AtWorker(w'));
        assert StageIs(s, id, AtWorker(w'));
        assert w' in s.core.workers - {w} && s.core.workers[w'] == (s.core.workers - {w})[w'];
      }
    }
  }

  lemma WorkersFrame(k: Codec, s: State, s': State)
    requires WorkersInv(k, s) && Extends(s, s') && s'.core.workers == s.core.workers
    requires s'.hist.calls == s.hist.calls && s'.hist.expired == s.hist.expired
    requires forall w :: SameStage(s, s', AtWorker(w))
    ensures WorkersInv(k, s')
  {
    forall w | w in s'.core.workers ensures WorkerInv(k, s', w) {
      assert SameStage(s, s', AtWorker(w)) && WorkerInv(k, s, w);
      WorkerFrame(k, s, s', w);
    }
    forall id, w | StageIs(s', id, AtWorker(w)) ensures w in s'.core.workers && WorkId(k, s'.core.workers[w]) == Some(id) {
      assert SameStage(s, s', AtWorker(w));
      assert StageIs(s, id, AtWorker(w));
    }
  }

  lemma StreamFrame(k: Codec, s: State, s': State, rc: Channel, wire: Bytes)
    requires GoodResponse(k, s, rc, wire) && Extends(s, s')
    ensures GoodResponse(k, s', rc, wire)
  {
    AnswerStable(s, s', rc, k.decodeResponse(wire).value);
  }

  /** Same streams, except that a new interface may have appeared with an empty one. */
  ghost predicate SameStreams(s: State, s': State) {
    forall rc {:trigger Stream(s.core, rc)} {:trigger Stream(s'.core, rc)} :: Stream(s'.core, rc) == Stream(s.core, rc)
  }

  lemma StreamsFrame(k: Codec, s: State, s': State)
    requires StreamsInv(k, s) && Extends(s, s') && SameStreams(s, s') && KeepsStage(s, s', InStream)
    ensures StreamsInv(k, s')
  {
    forall rc, i: nat ensures StreamOk(k, s', rc, i) {
      assert StreamOk(k, s, rc, i);
      if i < |Stream(s.core, rc)| {
        StreamFrame(k, s, s', rc, Stream(s.core, rc)[i]);
      }
    }
    forall rc, i: nat, j: nat ensures StreamDistinct(k, s'.core, rc, i, j) {
      assert StreamDistinct(k, s.core, rc, i, j);
    }
  }

  /** The parts of the state the dispatcher of rc relies on are as they were. */
  ghost predicate DispatcherUntouched(s: State, s': State, rc: Channel) {
    && rc in s.core.interfaces && rc in s'.core.interfaces
    && s'.core.interfaces[rc].dispatcher == s.core.interfaces[rc].dispatcher
    && (HoldsLock(s.core.interfaces[rc].dispatcher) ==> s'.core.interfaces[rc].registry == s.core.interfaces[rc].registry)
    && var d := s.core.interfaces[rc].dispatcher;
       (d.Calling? || d.Storing? || d.Releasing?) && d.addr in s.core.promises ==>
         && d.addr in s'.core.promises
         && s'.core.promises[d.addr].p.accepted == s.core.promises[d.addr].p.accepted
         && s'.core.promises[d.addr].p.responder == s.core.promises[d.addr].p.responder
  }

  lemma DispatcherFrame(k: Codec, s: State, s': State, rc: Channel)
    requires rc in s.core.interfaces && DispatcherInv(k, s, rc) && DispatcherUntouched(s, s', rc) && Extends(s, s')
    requires var id := DispatchId(k, s.core.interfaces[rc].dispatcher);
      id.Some? ==>
        && (forall stage :: StageIs(s, id.value, stage) ==> StageIs(s', id.value, stage))
        && (id.value in s.hist.responded <==> id.value in s'.hist.responded)
    ensures DispatcherInv(k, s', rc)
  {
    match s.core.interfaces[rc].dispatcher
    case Idle =>
    case Taken(wire) => StreamFrame(k, s, s', rc, wire);
    case Locked(f) => AnswerStable(s, s', rc, f);
    case Calling(f, addr) => AnswerStable(s, s', rc, f);
    case Storing(f, addr) => AnswerStable(s, s', rc, f);
    case Releasing(f, addr) => AnswerStable(s, s', rc, f);
    case Leaving(f) => AnswerStable(s, s', rc, f);
  }

  lemma DispatchersFrame(k: Codec, s: State, s': State)
    requires DispatchersInv(k, s) && Extends(s, s')
    requires forall rc :: rc in s.core.interfaces ==> DispatcherUntouched(s, s', rc)
    requires forall rc :: rc in s'.core.interfaces && rc !in s.core.interfaces ==> s'.core.interfaces[rc].dispatcher == Idle
    requires SameStage(s, s', Dispatching) && KeepsStage(s, s', Done(Unclaimed)) && s'.hist.responded == s.hist.responded
    ensures DispatchersInv(k, s')
  {
    forall rc | rc in s'.core.interfaces ensures DispatcherInv(k, s', rc) {
      if rc in s.core.interfaces {
        assert DispatcherUntouched(s, s', rc) && DispatcherInv(k, s, rc);
        DispatcherFrameByStage(k, s, s', rc);
      }
    }
    forall id | StageIs(s', id, Dispatching)
      ensures id in s'.core.sends && s'.core.sends[id].responseChannel in s'.core.interfaces
      ensures DispatchId(k, s'.core.interfaces[s'.core.sends[id].responseChannel].dispatcher) == Some(id)
    {
      assert StageIs(s, id, Dispatching);
      assert DispatcherUntouched(s, s', s.core.sends[id].responseChannel);
    }
  }

  lemma DispatcherFrameByStage(k: Codec, s: State, s': State, rc: Channel)
    requires rc in s.core.interfaces && DispatcherInv(k, s, rc) && DispatcherUntouched(s, s', rc) && Extends(s, s')
    requires SameStage(s, s', Dispatching) && KeepsStage(s, s', Done(Unclaimed)) && s'.hist.responded == s.hist.responded
    ensures DispatcherInv(k, s', rc)
  {
    var id := DispatchId(k, s.core.interfaces[rc].dispatcher);
    if id.Some? {
      assert StageIs(s, id.value, Dispatching) || StageIs(s, id.value, Done(Unclaimed));
      DispatcherFrame(k, s, s', rc);
    }
  }

  /** The token of id is where it was. */
  ghost predicate SameToken(s: State, s': State, id: Id) {
    && (forall stage :: StageIs(s, id, stage) <==> StageIs(s', id, stage))
    && (id in s.hist.responded <==> id in s'.hist.responded)
  }

  /** The dispatchers other than rc's are as they were; rc's is accounted for by the last two requirements. */
  lemma DispatchersFrameBut(k: Codec, s: State, s': State, rc: Channel)
    requires DispatchersInv(k, s) && Extends(s, s') && rc in s.core.interfaces
    requires s'.core.sends == s.core.sends && s'.core.interfaces.Keys == s.core.interfaces.Keys
    requires forall rc' :: rc' in s.core.interfaces && rc' != rc ==> DispatcherUntouched(s, s', rc')
    requires forall id :: id in s.core.sends && s.core.sends[id].responseChannel != rc ==> SameToken(s, s', id)
    requires forall id :: id in s'.hist.stage ==> id in s.core.sends
    requires DispatcherInv(k, s', rc)
    requires forall id :: StageIs(s', id, Dispatching) && id in s.core.sends && s.core.sends[id].responseChannel == rc ==>
               DispatchId(k, s'.core.interfaces[rc].dispatcher) == Some(id)
    ensures DispatchersInv(k, s')
  {
    forall rc' | rc' in s'.core.interfaces ensures DispatcherInv(k, s', rc') {
      if rc' != rc {
        assert DispatcherUntouched(s, s', rc') && DispatcherInv(k, s, rc');
        var id := DispatchId(k, s.core.interfaces[rc'].dispatcher);
        assert id.Some? ==> SameToken(s, s', id.value);
        DispatcherFrame(k, s, s', rc');
      }
    }
    forall id | StageIs(s', id, Dispatching)
      ensures id in s'.core.sends && s'.core.sends[id].responseChannel in s'.core.interfaces
      ensures DispatchId(k, s'.core.interfaces[s'.core.sends[id].responseChannel].dispatcher) == Some(id)
    {
      var rc' := s.core.sends[id].responseChannel;
      if rc' != rc {
        assert SameToken(s, s', id);
        assert StageIs(s, id, Dispatching);
        assert DispatcherUntouched(s, s', rc');
      }
    }
  }

  lemma CallsFrame(s: State, s': State)
    requires CallsInv(s) && Extends(s, s') && s'.hist.calls == s.hist.calls
    requires forall id :: StageIs(s', id, Queued) && id in s.hist.stage ==> StageIs(s, id, Queued)
    ensures CallsInv(s')
  {
    forall i: nat ensures CallOk(s', i) {
      assert CallOk(s, i);
    }
    forall i: nat, j: nat ensures CallsDistinct(s', i, j) {
      assert CallsDistinct(s, i, j);
    }
  }

  lemma RespondedFrame(s: State, s': State)
    requires RespondedInv(s) && s'.hist.responded == s.hist.responded
    requires KeepsStage(s, s', Dispatching) && KeepsStage(s, s', Done(Delivered))
    ensures RespondedInv(s')
  {
    forall id ensures RespondedOk(s', id) {
      assert RespondedOk(s, id);
    }
  }

  lemma PromiseFrame(s: State, s': State, a: Addr)
    requires a in s.core.promises && PromiseInv(s, a) && Extends(s, s')
    requires a in s'.core.promises && s'.core.promises[a].id == s.core.promises[a].id
    requires s'.core.promises[a].p == s.core.promises[a].p
    requires forall id :: id in s.hist.responded ==> id in s'.hist.responded
    requires s.core.promises[a].p.responder != Promise.Outside && s.core.promises[a].id in s.core.sends ==>
      var rc := s.core.sends[s.core.promises[a].id].responseChannel;
      rc in s.core.interfaces ==>
        rc in s'.core.interfaces && s'.core.interfaces[rc].dispatcher == s.core.interfaces[rc].dispatcher
    ensures PromiseInv(s', a)
  {
    var o := s.core.promises[a];
    if o.p.accepted != [] {
      assert CallOf(s'.core, o.id, o.p.accepted[0]) == CallOf(s.core, o.id, o.p.accepted[0]);
    }
  }

  /** Only the dispatcher of rc moved, and it was not inside any promise but possibly the one at addr. */
  lemma PromisesFrameBut(s: State, s': State, rc: Channel, addr: Option<Addr>)
    requires PromisesInv(s) && Extends(s, s') && rc in s.core.interfaces
    requires s'.core.promises.Keys == s.core.promises.Keys
    requires forall a :: a in s.core.promises && Some(a) != addr ==> s'.core.promises[a] == s.core.promises[a]
    requires s'.core.interfaces.Keys == s.core.interfaces.Keys
    requires forall rc' :: rc' in s.core.interfaces && rc' != rc ==> s'.core.interfaces[rc'].dispatcher == s.core.interfaces[rc'].dispatcher
    requires s.hist.responded <= s'.hist.responded
    requires var d := s.core.interfaces[rc].dispatcher; d.Storing? || d.Releasing? ==> addr == Some(d.addr)
    requires addr.Some? && addr.value in s'.core.promises ==> PromiseInv(s', addr.value)
    ensures PromisesInv(s')
  {
    forall a | a in s'.core.promises ensures PromiseInv(s', a) {
      if Some(a) != addr {
        assert PromiseInv(s, a);
        PromiseFrame(s, s', a);
      }
    }
  }

  ghost predicate SameDispatchers(s: State, s': State) {
    forall rc :: rc in s.core.interfaces ==>
      rc in s'.core.interfaces && s'.core.interfaces[rc].dispatcher == s.core.interfaces[rc].dispatcher
  }

  lemma PromisesFrame(s: State, s': State)
    requires PromisesInv(s) && Extends(s, s') && SameDispatchers(s, s')
    requires s'.core.promises == s.core.promises && s.hist.responded <= s'.hist.responded
    ensures PromisesInv(s')
  {
    forall a | a in s'.core.promises ensures PromiseInv(s', a) {
      assert PromiseInv(s, a);
      PromiseFrame(s, s', a);
    }
  }

  lemma HistoryFrame(filtering: bool, s: State, s': State)
    requires HistoryInv(filtering, s) && Extends(s, s') && s'.hist.stage == s.hist.stage
    requires s'.hist.broken == s.hist.broken && s'.hist.expired == s.hist.expired
    requires forall id :: id in s'.core.sends && s'.core.sends[id].pc == Sent ==> id in s.core.sends && s.core.sends[id].pc == Sent
    ensures HistoryInv(filtering, s')
  {
  }

  /** Exactly one token moved. */
  ghost predicate Moved(s: State, s': State, id: Id, from: Stage, to: Stage) {
    StageIs(s, id, from) && s'.hist.stage == s.hist.stage[id := to]
  }

  lemma MovedKeeps(s: State, s': State, id: Id, from: Stage, to: Stage, other: Stage)
    requires Moved(s, s', id, from, to) && other != from
    ensures KeepsStage(s, s', other) && (other != to ==> SameStage(s, s', other))
  {
  }

  /** What a token's move between two stages means for the stages the frame lemmas ask about. */
  lemma MoveLeavesOthers(s: State, s': State, id: Id, from: Stage, to: Stage)
    requires Moved(s, s', id, from, to) && from != to
    requires from == Queued || from.AtWorker?
    requires to.AtWorker? || to == Done(NoHandler) || to == Done(DroppedAsExpired) || to == InStream
    ensures SameStage(s, s', Dispatching) && KeepsStage(s, s', InStream)
    ensures KeepsStage(s, s', Done(Unclaimed)) && KeepsStage(s, s', Done(Delivered))
    ensures from != Queued ==> KeepsStage(s, s', Queued)
    ensures forall x :: StageIs(s', x, Queued) && x in s.hist.stage ==> StageIs(s, x, Queued)
  {
  }
}
