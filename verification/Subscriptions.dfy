/**
 The three layers of subscription bookkeeping as values: a manager's index, the broker's reference counts, and the
 calls that reach the connector. The classes of MessageHandlerManager, MessageBroker and Deployment are proved against
 these functions.
 */
module Subscriptions {
  import opened Common

  type Channel = Bytes

  /** The identity of a message handler object. */
  type Handler = nat

  datatype Kind = Event | Transaction

  /** m_channel_subscriptions of one manager. */
  type Index = map<Channel, seq<Handler>>

  /** std::remove_if and erase: the list without h, in the same order. */
  function Drop(hs: seq<Handler>, h: Handler): seq<Handler> {
    if hs == [] then [] else Drop(hs[..|hs| - 1], h) + (if hs[|hs| - 1] == h then [] else [hs[|hs| - 1]])
  }

  function ListAt(subs: Index, c: Channel): seq<Handler> {
    if c in subs then subs[c] else []
  }

  predicate Refuses(kind: Kind, subs: Index, c: Channel) {
    c in subs && kind == Transaction
  }

  function Added(subs: Index, c: Channel, h: Handler): Index {
    var hs := ListAt(subs, c);
    subs[c := if h in hs then hs else hs + [h]]
  }

  /** Removing h empties the list of c. */
  predicate Empties(subs: Index, c: Channel, h: Handler) {
    c in subs && Drop(subs[c], h) == []
  }

  function Removed(subs: Index, c: Channel, h: Handler): Index {
    if c !in subs then subs
    else if Empties(subs, c, h) then subs - {c}
    else subs[c := Drop(subs[c], h)]
  }

  /** The walk over the index, which visits the channels in the order given. */
  function RemovedAll(subs: Index, h: Handler, order: seq<Channel>): Index {
    if order == [] then subs else Removed(RemovedAll(subs, h, order[..|order| - 1]), order[|order| - 1], h)
  }

  /** The walk's empty_channels. */
  function Emptied(subs: Index, h: Handler, order: seq<Channel>): seq<Channel> {
    if order == [] then []
    else
      var c := order[|order| - 1];
      Emptied(subs, h, order[..|order| - 1]) + if Empties(subs, c, h) then [c] else []
  }

  /** The number of values of a size_t. */
  const SIZE_T: int := 0x1_0000_0000_0000_0000

  type Counts = map<Channel, nat>

  /** A call on the connector: subscribe or listen, unsubscribe or stop_listening. */
  datatype Call = Open(kind: Kind, channel: Channel) | Close(kind: Kind, channel: Channel)

  datatype Broker = Broker(
    topics: Counts,       // m_channel_subscriptions
    queues: Counts,       // m_queue_subscriptions
    trace: seq<Call>,     // history: the calls that reached the connector
    wrapped: bool)        // history: whether a size_t ever wrapped around

  function CountsOf(b: Broker, kind: Kind): Counts {
    if kind == Event then b.topics else b.queues
  }

  function WithCounts(b: Broker, kind: Kind, m: Counts): Broker {
    if kind == Event then b.(topics := m) else b.(queues := m)
  }

  /** operator[] of a map that has no entry for c default-constructs a zero. */
  function Get(m: Counts, c: Channel): nat {
    if c in m then m[c] else 0
  }

  function Up(n: nat): nat {
    (n + 1) % SIZE_T
  }

  function Down(n: nat): nat {
    (n + SIZE_T - 1) % SIZE_T
  }

  /** subscribe, and listen up to its throw. */
  function Acquire(b: Broker, kind: Kind, c: Channel): Broker {
    var n := Up(Get(CountsOf(b, kind), c));
    WithCounts(b, kind, CountsOf(b, kind)[c := n])
      .(trace := if n == 1 then b.trace + [Open(kind, c)] else b.trace, wrapped := b.wrapped || n == 0)
  }

  /** listen throws when the queue is already listened to; subscribe never does. */
  predicate Throws(b: Broker, kind: Kind, c: Channel) {
    kind == Transaction && Up(Get(b.queues, c)) != 1
  }

  /** unsubscribe and stop_listening. */
  function Release(b: Broker, kind: Kind, c: Channel): Broker {
    var n := Down(Get(CountsOf(b, kind), c));
    WithCounts(b, kind, if n == 0 then CountsOf(b, kind) - {c} else CountsOf(b, kind)[c := n])
      .(trace := if n == 0 then b.trace + [Close(kind, c)] else b.trace, wrapped := b.wrapped || n == SIZE_T - 1)
  }

  function ReleaseAll(b: Broker, kind: Kind, cs: seq<Channel>): Broker {
    if cs == [] then b else Release(ReleaseAll(b, kind, cs[..|cs| - 1]), kind, cs[|cs| - 1])
  }

  /**
   One interface's manager, with the id of the callback that the interface registered for it. Of a destroyed one
   (attached is false) subs is what it held in the end, which nobody will release at the broker any more.
   */
  datatype Manager = Manager(kind: Kind, subs: Index, id: Bytes, attached: bool)

  /** An entry of m_event_callbacks or m_transaction_callbacks: the manager whose on_message it calls. */
  datatype Callback = Callback(id: Bytes, manager: nat)

  datatype System = System(
    managers: seq<Manager>, broker: Broker, eventCallbacks: seq<Callback>, transactionCallbacks: seq<Callback>)

  datatype Action =
    | Attach(kind: Kind, id: Bytes)                 // an interface is constructed
    | Detach(manager: nat)                          // and destroyed
    | Add(manager: nat, channel: Channel, handler: Handler)
    | Remove(manager: nat, channel: Channel, handler: Handler)
    | RemoveAll(manager: nat, handler: Handler, order: seq<Channel>)

  datatype Outcome = Done | RepeatRejected | ListenRejected

  function Callbacks(s: System, kind: Kind): seq<Callback> {
    if kind == Event then s.eventCallbacks else s.transactionCallbacks
  }

  function WithCallbacks(s: System, kind: Kind, cs: seq<Callback>): System {
    if kind == Event then s.(eventCallbacks := cs) else s.(transactionCallbacks := cs)
  }

  function WithoutId(cs: seq<Callback>, id: Bytes): seq<Callback> {
    if cs == [] then []
    else WithoutId(cs[..|cs| - 1], id) + if cs[|cs| - 1].id == id then [] else [cs[|cs| - 1]]
  }

  /** An order in which an unordered_map may be walked. */
  ghost predicate WalkOf(order: seq<Channel>, subs: Index) {
    NoDup(order) && forall c :: c in order <==> c in subs
  }

  predicate InUse(s: System, i: nat) {
    i < |s.managers| && s.managers[i].attached
  }

  ghost predicate Enabled(s: System, a: Action) {
    match a
    // callback ids are fresh UUIDs; that many managers do not fit into memory
    case Attach(_, id) => |s.managers| + 1 < SIZE_T && forall m :: m in s.managers ==> m.id != id
    case Detach(i) => InUse(s, i)
    case Add(i, _, _) => InUse(s, i)
    case Remove(i, _, _) => InUse(s, i)
    case RemoveAll(i, _, order) => InUse(s, i) && WalkOf(order, s.managers[i].subs)
  }

  function WithSubs(s: System, i: nat, subs: Index): System
    requires i < |s.managers|
  {
    s.(managers := s.managers[i := s.managers[i].(subs := subs)])
  }

  function OutcomeOf(s: System, a: Action): Outcome
    requires Enabled(s, a)
  {
    match a
    case Add(i, c, _) =>
      var m := s.managers[i];
      if Refuses(m.kind, m.subs, c) then RepeatRejected
      else if c !in m.subs && Throws(s.broker, m.kind, c) then ListenRejected
      else Done
    case _ => Done
  }

  function Apply(s: System, a: Action): System
    requires Enabled(s, a)
  {
    match a
    case Attach(kind, id) =>
      var t := s.(managers := s.managers + [Manager(kind, map[], id, true)]);
      WithCallbacks(t, kind, Callbacks(s, kind) + [Callback(id, |s.managers|)])
    case Detach(i) =>
      var m := s.managers[i];
      WithCallbacks(s.(managers := s.managers[i := m.(attached := false)]), m.kind, WithoutId(Callbacks(s, m.kind), m.id))
    case Add(i, c, h) =>
      var m := s.managers[i];
      if Refuses(m.kind, m.subs, c) then s
      else
        var t := WithSubs(s, i, Added(m.subs, c, h));
        if c in m.subs then t else t.(broker := Acquire(s.broker, m.kind, c))
    case Remove(i, c, h) =>
      var m := s.managers[i];
      var t := WithSubs(s, i, Removed(m.subs, c, h));
      if Empties(m.subs, c, h) then t.(broker := Release(s.broker, m.kind, c)) else t
    case RemoveAll(i, h, order) =>
      var m := s.managers[i];
      WithSubs(s, i, RemovedAll(m.subs, h, order)).(broker := ReleaseAll(s.broker, m.kind, Emptied(m.subs, h, order)))
  }

  function Init(): System {
    System([], Broker(map[], map[], [], false), [], [])
  }

  ghost function Continue(s: System, run: seq<Action>): Option<System> {
    if run == [] then Some(s)
    else
      var prev := Continue(s, run[..|run| - 1]);
      if prev.Some? && Enabled(prev.value, run[|run| - 1]) then Some(Apply(prev.value, run[|run| - 1])) else None
  }

  /** What a run of actions, successful or rejected, leads to. */
  ghost function Run(run: seq<Action>): Option<System> {
    Continue(Init(), run)
  }

  /** One delivery: which manager called which handler. */
  datatype Delivery = Delivery(manager: nat, handler: Handler)

  /** on_message of one manager. */
  function Handed(i: nat, hs: seq<Handler>): seq<Delivery> {
    if hs == [] then [] else Handed(i, hs[..|hs| - 1]) + [Delivery(i, hs[|hs| - 1])]
  }

  /** The broker's fan-out of one message on channel c to the callbacks, and theirs to the handlers. */
  function Fanned(managers: seq<Manager>, callbacks: seq<Callback>, c: Channel): seq<Delivery> {
    if callbacks == [] then []
    else
      var i := callbacks[|callbacks| - 1].manager;
      Fanned(managers, callbacks[..|callbacks| - 1], c)
        + if i < |managers| then Handed(i, ListAt(managers[i].subs, c)) else []
  }

  function Delivered(s: System, kind: Kind, c: Channel): seq<Delivery> {
    Fanned(s.managers, Callbacks(s, kind), c)
  }

  // ---- the invariant ----

  function One(b: bool): nat {
    if b then 1 else 0
  }

  /** The number of managers of a kind that hold channel c. */
  function Holders(managers: seq<Manager>, kind: Kind, c: Channel): nat {
    if managers == [] then 0
    else
      var m := managers[|managers| - 1];
      Holders(managers[..|managers| - 1], kind, c) + One(m.kind == kind && c in m.subs)
  }

  /** The channels that a trace of calls leaves open. */
  function Opened(trace: seq<Call>, kind: Kind): set<Channel> {
    if trace == [] then {}
    else
      var before := Opened(trace[..|trace| - 1], kind);
      match trace[|trace| - 1]
      case Open(k, c) => if k == kind then before + {c} else before
      case Close(k, c) => if k == kind then before - {c} else before
  }

  /** Nothing is opened that is open, and nothing is closed that is not. */
  predicate WellPaired(trace: seq<Call>) {
    trace == []
    || (WellPaired(trace[..|trace| - 1])
        && match trace[|trace| - 1]
           case Open(k, c) => c !in Opened(trace[..|trace| - 1], k)
           case Close(k, c) => c in Opened(trace[..|trace| - 1], k))
  }

  ghost predicate Agrees(b: Broker, managers: seq<Manager>, kind: Kind, c: Channel) {
    var n := Holders(managers, kind, c);
    && Get(CountsOf(b, kind), c) == n
    && (c in CountsOf(b, kind) <==> n > 0)
    && (c in Opened(b.trace, kind) <==> n > 0)
  }

  /** The three layers agree. */
  ghost predicate AgreeInv(s: System) {
    && (forall k, c {:trigger Agrees(s.broker, s.managers, k, c)} :: Agrees(s.broker, s.managers, k, c))
    && WellPaired(s.broker.trace) && !s.broker.wrapped && |s.managers| < SIZE_T
  }

  ghost predicate ListShape(kind: Kind, hs: seq<Handler>) {
    hs != [] && NoDup(hs) && (kind == Transaction ==> |hs| == 1)
  }

  ghost predicate Shape(m: Manager) {
    forall c :: c in m.subs ==> ListShape(m.kind, m.subs[c])
  }

  ghost predicate ShapeInv(s: System) {
    forall i :: 0 <= i < |s.managers| ==> Shape(s.managers[i])
  }

  ghost predicate Registered(s: System, kind: Kind, i: nat) {
    i < |s.managers| && s.managers[i].kind == kind && s.managers[i].attached
  }

  /** A callback belongs to an interface in use. */
  ghost predicate CallbackOf(s: System, kind: Kind, cb: Callback) {
    Registered(s, kind, cb.manager) && s.managers[cb.manager].id == cb.id
  }

  ghost predicate InOrder(cs: seq<Callback>) {
    forall j, k :: 0 <= j < k < |cs| ==> cs[j].manager < cs[k].manager
  }

  /** The callbacks of a kind are those of the interfaces in use, one each, in the order of registration. */
  ghost predicate CallbacksOk(s: System, kind: Kind) {
    && InOrder(Callbacks(s, kind))
    && (forall cb {:trigger CallbackOf(s, kind, cb)} :: CallbackOf(s, kind, cb) <==> cb in Callbacks(s, kind))
  }

  ghost predicate CallbackInv(s: System) {
    && CallbacksOk(s, Event) && CallbacksOk(s, Transaction)
    && forall i, j :: 0 <= i < j < |s.managers| ==> s.managers[i].id != s.managers[j].id
  }

  ghost predicate Inv(s: System) {
    AgreeInv(s) && ShapeInv(s) && CallbackInv(s)
  }

  lemma {:induction false} HoldersAfterUpdate(managers: seq<Manager>, i: nat, m: Manager, kind: Kind, c: Channel)
    requires i < |managers|
    ensures Holders(managers[i := m], kind, c)
      == Holders(managers, kind, c) - One(managers[i].kind == kind && c in managers[i].subs) + One(m.kind == kind && c in m.subs)
  {
    var n := |managers| - 1;
    if i < n {
      assert managers[i := m][..n] == managers[..n][i := m];
      HoldersAfterUpdate(managers[..n], i, m, kind, c);
    } else {
      assert managers[i := m][..n] == managers[..n];
    }
  }

  lemma {:induction false} HoldersBound(managers: seq<Manager>, kind: Kind, c: Channel)
    ensures Holders(managers, kind, c) <= |managers|
  {
    if managers != [] {
      HoldersBound(managers[..|managers| - 1], kind, c);
    }
  }

  lemma {:induction false} DropMembers(hs: seq<Handler>, h: Handler)
    requires NoDup(hs)
    ensures NoDup(Drop(hs, h)) && |Drop(hs, h)| <= |hs|
    ensures forall x :: x in Drop(hs, h) <==> x in hs && x != h
  {
    if hs != [] {
      var rest, last := hs[..|hs| - 1], hs[|hs| - 1];
      DropMembers(rest, h);
      assert hs == rest + [last];
      assert last !in rest;
    }
  }
}
