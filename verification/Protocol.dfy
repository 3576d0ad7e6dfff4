/**
 The request/response protocol as a distributed step system: senders, FIFO queues, competing request handlers,
 response channels, the registries of waiting promises and the promises themselves, interleaved step by step.
 */
module Protocol {
  import opened Common
  import opened Frames
  import Clock
  import Promise

  type Addr = nat      // where a promise lives
  type Worker = nat    // the queue worker thread of one consumer

  /** How far one send_request call has come. */
  datatype SendPc = Created | Registered | Sent

  datatype SendRecord = SendRecord(
    channel: Channel, payload: Bytes, responseChannel: Channel, validUntil: int, addr: Addr, pc: SendPc)

  /** A request in the hands of a queue worker. */
  datatype Work =
    | Popped(channel: Channel, wire: Bytes)
    | Kept(channel: Channel, frame: Request)            // not expired, callback not yet run
    | Answered(channel: Channel, frame: Request, result: Bytes)  // callback has returned

  /** The response callback of one transaction interface, run by its subscriber thread. */
  datatype Dispatcher =
    | Idle
    | Taken(wire: Bytes)
    // from here on m_on_response_callbacks_lock is held
    | Locked(frame: Response)
    | Calling(frame: Response, addr: Addr)              // found in the map, on_response entered
    | Storing(frame: Response, addr: Addr)              // deadline test passed
    | Releasing(frame: Response, addr: Addr)            // m_response assigned
    | Leaving(frame: Response)

  /** One TransactionInterface: response channel confirmed or not, map of waiting promises, in-flight responses. */
  datatype Interface = Interface(
    confirmed: bool, registry: map<Id, Addr>, stream: seq<Bytes>, dispatcher: Dispatcher)

  datatype Object = Object(id: Id, alive: bool, p: Promise.State)

  datatype Core = Core(
    now: int,
    interfaces: map<Channel, Interface>,
    sends: map<Id, SendRecord>,
    promises: map<Addr, Object>,
    queues: map<Channel, seq<Bytes>>,   // oldest request first
    workers: map<Worker, Work>)

  datatype Fate = DroppedAsExpired | NoHandler | Delivered | Unclaimed

  /** Where the token of a request id is. */
  datatype Stage = Queued | AtWorker(w: Worker) | InStream | Dispatching | Done(fate: Fate)

  /** One run of the user's request callback. */
  datatype CallRecord = CallRecord(id: Id, channel: Channel, payload: Bytes, result: Bytes)

  /** What is recorded about the run; no step's guard looks at it. */
  datatype History = History(
    stage: map<Id, Stage>,
    calls: seq<CallRecord>,
    responded: seq<Id>,   // on_response invocations
    expired: set<Id>,     // ids the expiry test found expired
    broken: bool)         // a frame did not decode, or a response was published to a channel nobody receives

  datatype State = State(core: Core, hist: History)

  /** What an application thread does through a transaction interface, a request sender or a promise. */
  datatype ClientStep =
    | Open(rc: Channel) | Confirm(rc: Channel)
    | Create(id: Id, rc: Channel, channel: Channel, payload: Bytes, timeout: int, addr: Addr)
    | Register(id: Id) | Send(id: Id)
    | Read(id: Id, step: Promise.Label)
    | Destroy(id: Id)

  /** What a queue worker thread does with one request. */
  datatype WorkerStep = Pop(channel: Channel) | Abandon | Filter | Call(result: Bytes) | Publish

  /** What a subscriber thread does with one response. */
  datatype DispatchStep = Take | Claim | Find | Respond | Store | Release | Leave

  datatype Label =
    | Tick(now: int)
    | Client(client: ClientStep)
    | Consume(w: Worker, work: WorkerStep)
    | Dispatch(rc: Channel, dispatch: DispatchStep)

  function Init(now: int): State {
    State(Core(now, map[], map[], map[], map[], map[]), History(map[], [], [], {}, false))
  }

  function Queue(c: Core, ch: Channel): seq<Bytes> {
    if ch in c.queues then c.queues[ch] else []
  }

  /** The frame send_request builds: the deadline goes on the wire in milliseconds. */
  function FrameOf(id: Id, s: SendRecord): Request {
    Request(id, s.responseChannel, Some(Clock.ToMs(s.validUntil)), s.payload)
  }

  predicate FrameExpired(now: int, f: Request) {
    f.validUntilMs.Some? && Clock.Expired(now, f.validUntilMs.value)
  }

  predicate HoldsLock(d: Dispatcher) {
    !d.Idle? && !d.Taken?
  }

  predicate ReaderStep(l: Promise.Label) {
    l.BeginThen? || l.Start? || l.Begin? || l.Check? || l.TryLock? || l.GiveUp? || l.Mark? || l.Return?
  }

  /** The destructor joins the then thread, and nobody destroys a promise in the middle of an await. */
  predicate NoReaderInside(p: Promise.State) {
    forall r :: r in p.readers ==> Promise.Done(p.readers[r])
  }

  predicate ClientEnabled(c: Core, l: ClientStep) {
    match l
    case Open(rc) => rc !in c.interfaces && Base62(rc)
    case Confirm(rc) => rc in c.interfaces && !c.interfaces[rc].confirmed
    case Create(id, rc, _, _, _, addr) =>
      rc in c.interfaces && c.interfaces[rc].confirmed && id !in c.sends && Base62(id) && addr !in c.promises
    case Register(id) =>
      id in c.sends && c.sends[id].pc == Created && LockFree(c, c.sends[id].responseChannel)
    case Send(id) => id in c.sends && c.sends[id].pc == Registered
    case Read(id, step) => Owned(c, id) && ReaderStep(step) && Promise.Enabled(c.promises[c.sends[id].addr].p, c.now, step)
    case Destroy(id) =>
      Owned(c, id) && NoReaderInside(c.promises[c.sends[id].addr].p) && LockFree(c, c.sends[id].responseChannel)
  }

  /** m_on_response_callbacks_lock of interface rc is free. */
  predicate LockFree(c: Core, rc: Channel) {
    rc in c.interfaces && !HoldsLock(c.interfaces[rc].dispatcher)
  }

  /** send_request has returned this promise, and it has not been destroyed. */
  predicate Owned(c: Core, id: Id) {
    id in c.sends && c.sends[id].pc == Sent && AliveAt(c, c.sends[id].addr)
  }

  predicate AliveAt(c: Core, a: Addr) {
    a in c.promises && c.promises[a].alive
  }

  function ClientApply(k: Codec, c: Core, l: ClientStep): Core
    requires ClientEnabled(c, l)
  {
    match l
    case Open(rc) => c.(interfaces := c.interfaces[rc := Interface(false, map[], [], Idle)])
    case Confirm(rc) => c.(interfaces := c.interfaces[rc := c.interfaces[rc].(confirmed := true)])
    case Create(id, rc, ch, payload, timeout, addr) =>
      c.(sends := c.sends[id := SendRecord(ch, payload, rc, c.now + timeout, addr, Created)],
         promises := c.promises[addr := Object(id, true, Promise.Fresh(c.now + timeout))])
    case Register(id) =>
      var rc := c.sends[id].responseChannel;
      var i := c.interfaces[rc];
      c.(sends := c.sends[id := c.sends[id].(pc := Registered)],
         interfaces := c.interfaces[rc := i.(registry := i.registry[id := c.sends[id].addr])])
    case Send(id) =>
      var r := c.sends[id];
      c.(sends := c.sends[id := r.(pc := Sent)],
         queues := c.queues[r.channel := Queue(c, r.channel) + [k.encodeRequest(FrameOf(id, r))]])
    case Read(id, step) =>
      var addr := c.sends[id].addr;
      WithPromise(c, addr, Promise.Apply(c.promises[addr].p, c.now, step))
    case Destroy(id) =>
      var r := c.sends[id];
      var i := c.interfaces[r.responseChannel];
      c.(interfaces := c.interfaces[r.responseChannel := i.(registry := i.registry - {id})],
         promises := c.promises[r.addr := c.promises[r.addr].(alive := false)])
  }

  predicate WorkerEnabled(c: Core, w: Worker, l: WorkerStep) {
    match l
    case Pop(ch) => w !in c.workers && Queue(c, ch) != []
    case Abandon => w in c.workers && c.workers[w].Popped?
    case Filter => w in c.workers && c.workers[w].Popped?
    case Call(_) => w in c.workers && c.workers[w].Kept?
    case Publish => w in c.workers && c.workers[w].Answered?
  }

  function WorkerApply(k: Codec, filtering: bool, c: Core, w: Worker, l: WorkerStep): Core
    requires WorkerEnabled(c, w, l)
  {
    match l
    case Pop(ch) =>
      c.(queues := c.queues[ch := Queue(c, ch)[1..]], workers := c.workers[w := Popped(ch, Queue(c, ch)[0])])
    case Abandon => c.(workers := c.workers - {w})
    case Filter =>
      // RequestHandler::on_message up to the callback; without filtering, the deadline is ignored
      (match k.decodeRequest(c.workers[w].wire)
       case None => c.(workers := c.workers - {w})
       case Some(f) =>
         if filtering && FrameExpired(c.now, f) then c.(workers := c.workers - {w})
         else c.(workers := c.workers[w := Kept(c.workers[w].channel, f)]))
    case Call(result) => c.(workers := c.workers[w := Answered(c.workers[w].channel, c.workers[w].frame, result)])
    case Publish =>
      var f := c.workers[w].frame;
      var idle := c.(workers := c.workers - {w});
      if Confirmed(c, f.responseChannel) then
        var i := c.interfaces[f.responseChannel];
        idle.(interfaces := c.interfaces[f.responseChannel :=
          i.(stream := i.stream + [k.encodeResponse(Response(f.id, c.workers[w].result))])])
      else
        idle
  }

  /** The broker delivers what is published on rc: the subscription has been acknowledged. */
  predicate Confirmed(c: Core, rc: Channel) {
    rc in c.interfaces && c.interfaces[rc].confirmed
  }

  predicate DispatchEnabled(c: Core, rc: Channel, l: DispatchStep) {
    && rc in c.interfaces
    && var d := c.interfaces[rc].dispatcher;
       match l
       case Take => d.Idle? && c.interfaces[rc].stream != []
       case Claim => d.Taken?
       case Find => d.Locked?
       case Respond => d.Calling? && d.addr in c.promises && c.promises[d.addr].p.responder.Outside?
       case Store => d.Storing? && d.addr in c.promises && c.promises[d.addr].p.responder.Storing?
       case Release => d.Releasing? && d.addr in c.promises && c.promises[d.addr].p.responder.Unlocking?
       case Leave => d.Leaving?
  }

  function DispatchApply(k: Codec, c: Core, rc: Channel, l: DispatchStep): Core
    requires DispatchEnabled(c, rc, l)
  {
    var i := c.interfaces[rc];
    match l
    case Take => c.(interfaces := c.interfaces[rc := i.(stream := i.stream[1..], dispatcher := Taken(i.stream[0]))])
    case Claim =>
      WithDispatcher(c, rc, match k.decodeResponse(i.dispatcher.wire) case None => Idle case Some(f) => Locked(f))
    case Find =>
      var f := i.dispatcher.frame;
      WithDispatcher(c, rc, if f.id in i.registry then Calling(f, i.registry[f.id]) else Leaving(f))
    case Respond =>
      var Calling(f, addr) := i.dispatcher;
      var p := c.promises[addr].p;
      if c.now > p.validUntil then WithDispatcher(c, rc, Leaving(f))
      else WithDispatcher(WithPromise(c, addr, Promise.Apply(p, c.now, Promise.Accept(f.payload))), rc, Storing(f, addr))
    case Store =>
      var Storing(f, addr) := i.dispatcher;
      WithDispatcher(WithPromise(c, addr, Promise.Apply(c.promises[addr].p, c.now, Promise.Store)), rc, Releasing(f, addr))
    case Release =>
      var Releasing(f, addr) := i.dispatcher;
      WithDispatcher(WithPromise(c, addr, Promise.Apply(c.promises[addr].p, c.now, Promise.Unlock)), rc, Leaving(f))
    case Leave => WithDispatcher(c, rc, Idle)
  }

  function WithDispatcher(c: Core, rc: Channel, d: Dispatcher): Core
    requires rc in c.interfaces
  {
    c.(interfaces := c.interfaces[rc := c.interfaces[rc].(dispatcher := d)])
  }

  function WithPromise(c: Core, addr: Addr, p: Promise.State): Core
    requires addr in c.promises
  {
    c.(promises := c.promises[addr := c.promises[addr].(p := p)])
  }

  predicate Enabled(c: Core, l: Label) {
    match l
    case Tick(now) => c.now <= now
    case Client(step) => ClientEnabled(c, step)
    case Consume(w, step) => WorkerEnabled(c, w, step)
    case Dispatch(rc, step) => DispatchEnabled(c, rc, step)
  }

  function Apply(k: Codec, filtering: bool, c: Core, l: Label): Core
    requires Enabled(c, l)
  {
    match l
    case Tick(now) => c.(now := now)
    case Client(step) => ClientApply(k, c, step)
    case Consume(w, step) => WorkerApply(k, filtering, c, w, step)
    case Dispatch(rc, step) => DispatchApply(k, c, rc, step)
  }

  /** The id a worker's wire or frame carries. */
  function WorkId(k: Codec, wk: Work): Option<Id> {
    match wk
    case Popped(_, wire) => (match k.decodeRequest(wire) case None => None case Some(f) => Some(f.id))
    case Kept(_, f) => Some(f.id)
    case Answered(_, f, _) => Some(f.id)
  }

  function Move(h: History, id: Option<Id>, stage: Stage): History {
    match id
    case None => h.(broken := true)
    case Some(id) => h.(stage := h.stage[id := stage])
  }

  function WorkerRecord(k: Codec, filtering: bool, c: Core, h: History, w: Worker, l: WorkerStep): History
    requires WorkerEnabled(c, w, l)
  {
    match l
    case Pop(ch) => Move(h, WorkId(k, Popped(ch, Queue(c, ch)[0])), AtWorker(w))
    case Abandon => Move(h, WorkId(k, c.workers[w]), Done(NoHandler))
    case Filter =>
      (match k.decodeRequest(c.workers[w].wire)
       case None => h.(broken := true)
       case Some(f) =>
         if FrameExpired(c.now, f) then
           var marked := h.(expired := h.expired + {f.id});
           if filtering then Move(marked, Some(f.id), Done(DroppedAsExpired)) else marked
         else h)
    case Call(result) =>
      h.(calls := h.calls + [CallRecord(c.workers[w].frame.id, c.workers[w].channel, c.workers[w].frame.payload, result)])
    case Publish =>
      var f := c.workers[w].frame;
      if Confirmed(c, f.responseChannel) then Move(h, Some(f.id), InStream) else h.(broken := true)
  }

  function DispatchRecord(k: Codec, c: Core, h: History, rc: Channel, l: DispatchStep): History
    requires DispatchEnabled(c, rc, l)
  {
    match l
    case Take =>
      (match k.decodeResponse(c.interfaces[rc].stream[0])
       case None => h.(broken := true)
       case Some(f) => Move(h, Some(f.id), Dispatching))
    case Find =>
      var f := c.interfaces[rc].dispatcher.frame;
      if f.id in c.interfaces[rc].registry then h.(responded := h.responded + [f.id])
      else Move(h, Some(f.id), Done(Unclaimed))
    case Leave =>
      var f := c.interfaces[rc].dispatcher.frame;
      if f.id in h.responded then Move(h, Some(f.id), Done(Delivered)) else h
    case _ => h
  }

  function Record(k: Codec, filtering: bool, c: Core, h: History, l: Label): History
    requires Enabled(c, l)
  {
    match l
    case Tick(_) => h
    case Client(step) => if step.Send? then Move(h, Some(step.id), Queued) else h
    case Consume(w, step) => WorkerRecord(k, filtering, c, h, w, step)
    case Dispatch(rc, step) => DispatchRecord(k, c, h, rc, step)
  }

  function Step(k: Codec, filtering: bool, s: State, l: Label): State
    requires Enabled(s.core, l)
  {
    State(Apply(k, filtering, s.core, l), Record(k, filtering, s.core, s.hist, l))
  }

  /** The state a schedule leads to from s, if each of its labels is enabled when its turn comes. */
  function Continue(k: Codec, filtering: bool, s: State, ls: seq<Label>): Option<State> {
    if ls == [] then Some(s)
    else
      var prev := Continue(k, filtering, s, ls[..|ls| - 1]);
      if prev.Some? && Enabled(prev.value.core, ls[|ls| - 1]) then
        Some(Step(k, filtering, prev.value, ls[|ls| - 1]))
      else None
  }

  /** The runs of the whole system. */
  function Run(k: Codec, filtering: bool, now: int, ls: seq<Label>): Option<State> {
    Continue(k, filtering, Init(now), ls)
  }
}
