/** The inductive invariant of the request/response protocol, one named part per kind of place a request can be in. */
module ProtocolInv {
  import opened Common
  import opened Frames
  import opened Protocol
  import Promise

  /** f is the frame of a request that has been sent on channel ch. */
  ghost predicate GoodFrame(c: Core, ch: Channel, f: Request) {
    f.id in c.sends && c.sends[f.id].pc == Sent && c.sends[f.id].channel == ch && f == FrameOf(f.id, c.sends[f.id])
  }

  ghost predicate GoodRequest(k: Codec, c: Core, ch: Channel, wire: Bytes) {
    k.decodeRequest(wire).Some? && GoodFrame(c, ch, k.decodeRequest(wire).value)
  }

  function RequestId(k: Codec, wire: Bytes): Id
    requires k.decodeRequest(wire).Some?
  {
    k.decodeRequest(wire).value.id
  }

  function RequestIdOr(k: Codec, wire: Bytes): Option<Id> {
    match k.decodeRequest(wire) case None => None case Some(f) => Some(f.id)
  }

  /** The one callback run that can have produced result m for request id. */
  function CallOf(c: Core, id: Id, m: Bytes): CallRecord
    requires id in c.sends
  {
    CallRecord(id, c.sends[id].channel, c.sends[id].payload, m)
  }

  /** f answers a request that came from interface rc, with what a callback returned for it. */
  ghost predicate GoodAnswer(s: State, rc: Channel, f: Response) {
    && f.id in s.core.sends && s.core.sends[f.id].pc == Sent && s.core.sends[f.id].responseChannel == rc
    && CallOf(s.core, f.id, f.payload) in s.hist.calls
  }

  ghost predicate GoodResponse(k: Codec, s: State, rc: Channel, wire: Bytes) {
    k.decodeResponse(wire).Some? && GoodAnswer(s, rc, k.decodeResponse(wire).value)
  }

  function ResponseId(k: Codec, wire: Bytes): Id
    requires k.decodeResponse(wire).Some?
  {
    k.decodeResponse(wire).value.id
  }

  ghost predicate StageIs(s: State, id: Id, stage: Stage) {
    id in s.hist.stage && s.hist.stage[id] == stage
  }

  ghost predicate SendOk(c: Core, id: Id) {
    && id in c.sends
    && var r := c.sends[id];
       && Base62(id) && Base62(r.responseChannel) && Confirmed(c, r.responseChannel)
       && r.addr in c.promises && c.promises[r.addr].id == id && c.promises[r.addr].p.validUntil == r.validUntil
       && (r.pc != Sent ==> c.promises[r.addr].alive)
  }

  ghost predicate PromiseOwned(c: Core, a: Addr) {
    a in c.promises && c.promises[a].id in c.sends && c.sends[c.promises[a].id].addr == a
  }

  /** Every send has its own promise and a confirmed response channel; every promise belongs to a send. */
  ghost predicate SendsInv(c: Core) {
    && (forall id {:trigger SendOk(c, id)} :: id in c.sends ==> SendOk(c, id))
    && (forall a {:trigger PromiseOwned(c, a)} :: a in c.promises ==> PromiseOwned(c, a))
    && (forall rc :: rc in c.interfaces ==> Base62(rc))
  }

  /** id is a key of interface rc's map of waiting promises. */
  ghost predicate Waiting(c: Core, rc: Channel, id: Id) {
    rc in c.interfaces && id in c.interfaces[rc].registry
  }

  ghost predicate RegisteredAlive(c: Core, id: Id) {
    id in c.sends && c.sends[id].pc != Created && AliveAt(c, c.sends[id].addr)
  }

  /** The map of waiting promises holds exactly the registered promises that are still alive. */
  ghost predicate RegistryInv(c: Core) {
    && (forall rc, id {:trigger Waiting(c, rc, id)} :: Waiting(c, rc, id) ==>
          RegisteredAlive(c, id) && c.sends[id].responseChannel == rc && c.interfaces[rc].registry[id] == c.sends[id].addr)
    && (forall id {:trigger RegisteredAlive(c, id)} :: RegisteredAlive(c, id) ==> Waiting(c, c.sends[id].responseChannel, id))
  }

  ghost predicate QueueOk(k: Codec, s: State, ch: Channel, i: nat) {
    i < |Queue(s.core, ch)| ==>
      && GoodRequest(k, s.core, ch, Queue(s.core, ch)[i])
      && StageIs(s, RequestId(k, Queue(s.core, ch)[i]), Queued)
  }

  ghost predicate QueueDistinct(k: Codec, c: Core, ch: Channel, i: nat, j: nat) {
    i < j < |Queue(c, ch)| ==> RequestIdOr(k, Queue(c, ch)[i]) != RequestIdOr(k, Queue(c, ch)[j])
  }

  ghost predicate QueuesInv(k: Codec, s: State) {
    && (forall ch, i: nat {:trigger QueueOk(k, s, ch, i)} :: QueueOk(k, s, ch, i))
    && (forall ch, i: nat, j: nat {:trigger QueueDistinct(k, s.core, ch, i, j)} :: QueueDistinct(k, s.core, ch, i, j))
  }

  ghost predicate NotCalled(s: State, id: Id) {
    forall i :: 0 <= i < |s.hist.calls| ==> s.hist.calls[i].id != id
  }

  ghost predicate WorkerInv(k: Codec, s: State, w: Worker)
    requires w in s.core.workers
  {
    match s.core.workers[w]
    case Popped(ch, wire) =>
      && GoodRequest(k, s.core, ch, wire) && StageIs(s, RequestId(k, wire), AtWorker(w))
      && NotCalled(s, RequestId(k, wire)) && RequestId(k, wire) !in s.hist.expired
    case Kept(ch, f) =>
      GoodFrame(s.core, ch, f) && StageIs(s, f.id, AtWorker(w)) && NotCalled(s, f.id)
    case Answered(ch, f, result) =>
      GoodFrame(s.core, ch, f) && StageIs(s, f.id, AtWorker(w)) && CallOf(s.core, f.id, result) in s.hist.calls
  }

  ghost predicate WorkersInv(k: Codec, s: State) {
    && (forall w {:trigger WorkerInv(k, s, w)} :: w in s.core.workers ==> WorkerInv(k, s, w))
    && (forall id, w {:trigger StageIs(s, id, AtWorker(w))} :: StageIs(s, id, AtWorker(w)) ==>
          w in s.core.workers && WorkId(k, s.core.workers[w]) == Some(id))
  }

  function Stream(c: Core, rc: Channel): seq<Bytes> {
    if rc in c.interfaces then c.interfaces[rc].stream else []
  }

  ghost predicate StreamOk(k: Codec, s: State, rc: Channel, i: nat) {
    i < |Stream(s.core, rc)| ==>
      && GoodResponse(k, s, rc, Stream(s.core, rc)[i])
      && StageIs(s, ResponseId(k, Stream(s.core, rc)[i]), InStream)
  }

  ghost predicate StreamDistinct(k: Codec, c: Core, rc: Channel, i: nat, j: nat) {
    i < j < |Stream(c, rc)| ==> ResponseIdOr(k, Stream(c, rc)[i]) != ResponseIdOr(k, Stream(c, rc)[j])
  }

  ghost predicate StreamsInv(k: Codec, s: State) {
    && (forall rc, i: nat {:trigger StreamOk(k, s, rc, i)} :: StreamOk(k, s, rc, i))
    && (forall rc, i: nat, j: nat {:trigger StreamDistinct(k, s.core, rc, i, j)} :: StreamDistinct(k, s.core, rc, i, j))
  }

  function ResponseIdOr(k: Codec, wire: Bytes): Option<Id> {
    match k.decodeResponse(wire) case None => None case Some(f) => Some(f.id)
  }

  /** A request at its registered, live promise, which has not accepted anything yet. */
  ghost predicate AtPromise(s: State, rc: Channel, f: Response, addr: Addr) {
    && GoodAnswer(s, rc, f) && StageIs(s, f.id, Dispatching) && f.id in s.hist.responded
    && rc in s.core.interfaces && f.id in s.core.interfaces[rc].registry && s.core.interfaces[rc].registry[f.id] == addr
    && addr in s.core.promises
  }

  ghost predicate DispatcherInv(k: Codec, s: State, rc: Channel)
    requires rc in s.core.interfaces
  {
    match s.core.interfaces[rc].dispatcher
    case Idle => true
    case Taken(wire) =>
      && GoodResponse(k, s, rc, wire) && StageIs(s, ResponseId(k, wire), Dispatching)
      && ResponseId(k, wire) !in s.hist.responded
    case Locked(f) => GoodAnswer(s, rc, f) && StageIs(s, f.id, Dispatching) && f.id !in s.hist.responded
    case Calling(f, addr) => AtPromise(s, rc, f, addr) && s.core.promises[addr].p.accepted == []
    case Storing(f, addr) =>
      && AtPromise(s, rc, f, addr) && s.core.promises[addr].p.accepted == [f.payload]
      && s.core.promises[addr].p.responder == Promise.Storing(f.payload)
    case Releasing(f, addr) =>
      && AtPromise(s, rc, f, addr) && s.core.promises[addr].p.accepted == [f.payload]
      && s.core.promises[addr].p.responder == Promise.Unlocking
    case Leaving(f) =>
      && GoodAnswer(s, rc, f)
      && StageIs(s, f.id, if f.id in s.hist.responded then Dispatching else Done(Unclaimed))
  }

  function DispatchId(k: Codec, d: Dispatcher): Option<Id> {
    match d
    case Idle => None
    case Taken(wire) => ResponseIdOr(k, wire)
    case Locked(f) => Some(f.id)
    case Calling(f, _) => Some(f.id)
    case Storing(f, _) => Some(f.id)
    case Releasing(f, _) => Some(f.id)
    case Leaving(f) => Some(f.id)
  }

  ghost predicate DispatchersInv(k: Codec, s: State) {
    && (forall rc {:trigger DispatcherInv(k, s, rc)} :: rc in s.core.interfaces ==> DispatcherInv(k, s, rc))
    && (forall id {:trigger StageIs(s, id, Dispatching)} :: StageIs(s, id, Dispatching) ==>
          && id in s.core.sends && s.core.sends[id].responseChannel in s.core.interfaces
          && DispatchId(k, s.core.interfaces[s.core.sends[id].responseChannel].dispatcher) == Some(id))
  }

  ghost predicate CallOk(s: State, i: nat) {
    i < |s.hist.calls| ==>
      && var r := s.hist.calls[i];
      && r.id in s.core.sends && r.channel == s.core.sends[r.id].channel && r.payload == s.core.sends[r.id].payload
      && r.id in s.hist.stage && !StageIs(s, r.id, Queued)
  }

  ghost predicate CallsDistinct(s: State, i: nat, j: nat) {
    i < j < |s.hist.calls| ==> s.hist.calls[i].id != s.hist.calls[j].id
  }

  ghost predicate CallsInv(s: State) {
    && (forall i: nat {:trigger CallOk(s, i)} :: CallOk(s, i))
    && (forall i: nat, j: nat {:trigger CallsDistinct(s, i, j)} :: CallsDistinct(s, i, j))
  }

  ghost predicate RespondedOk(s: State, id: Id) {
    id in s.hist.responded ==> StageIs(s, id, Dispatching) || StageIs(s, id, Done(Delivered))
  }

  ghost predicate RespondedInv(s: State) {
    (forall id {:trigger RespondedOk(s, id)} :: RespondedOk(s, id)) && NoDup(s.hist.responded)
  }

  /** A promise's responder is at work only while its interface's dispatcher is inside on_response. */
  ghost predicate PromiseInv(s: State, a: Addr)
    requires a in s.core.promises
  {
    var o := s.core.promises[a];
    && Promise.Inv(o.p) && |o.p.accepted| <= 1
    && (o.p.accepted != [] ==>
          o.id in s.hist.responded && o.id in s.core.sends && CallOf(s.core, o.id, o.p.accepted[0]) in s.hist.calls)
    && (o.p.responder != Promise.Outside ==>
          && o.id in s.core.sends && s.core.sends[o.id].responseChannel in s.core.interfaces
          && var d := s.core.interfaces[s.core.sends[o.id].responseChannel].dispatcher;
             (d.Storing? || d.Releasing?) && d.addr == a && d.frame.id == o.id)
  }

  ghost predicate PromisesInv(s: State) {
    forall a {:trigger PromiseInv(s, a)} :: a in s.core.promises ==> PromiseInv(s, a)
  }

  ghost predicate HistoryInv(filtering: bool, s: State) {
    && !s.hist.broken
    && (forall id :: id in s.hist.stage <==> id in s.core.sends && s.core.sends[id].pc == Sent)
    && (forall id :: id in s.hist.expired ==>
          && id in s.core.sends && s.core.now > s.core.sends[id].validUntil
          && id in s.hist.stage && s.hist.stage[id] != Queued
          && (filtering ==> s.hist.stage[id] == Done(DroppedAsExpired)))
  }

  ghost predicate Inv(k: Codec, filtering: bool, s: State) {
    && SendsInv(s.core) && RegistryInv(s.core) && QueuesInv(k, s) && WorkersInv(k, s) && StreamsInv(k, s)
    && DispatchersInv(k, s) && CallsInv(s) && RespondedInv(s) && PromisesInv(s) && HistoryInv(filtering, s)
  }
}
