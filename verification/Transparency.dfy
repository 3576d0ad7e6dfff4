/**
 The expiry filter is transparent: a system whose handlers drop expired requests and one whose handlers process
 everything can bring about exactly the same promises. The processed-although-expired requests are zombies; taking
 them out of a state of the system without filter gives a state of the system with it.
 */
module Transparency {
  import opened Common
  import opened Frames
  import opened Protocol
  import opened ProtocolInv
  import opened ProtocolFrames
  import opened ProtocolTheorems
  import Promise

  /** A request past the filter although it was found expired. */
  predicate WorkZombie(wk: Work, z: set<Id>) {
    !wk.Popped? && wk.frame.id in z
  }

  predicate WireZombie(k: Codec, wire: Bytes, z: set<Id>) {
    var id := ResponseIdOr(k, wire);
    id.Some? && id.value in z
  }

  predicate DispatchZombie(k: Codec, d: Dispatcher, z: set<Id>) {
    var id := DispatchId(k, d);
    id.Some? && id.value in z
  }

  function Survivors(k: Codec, stream: seq<Bytes>, z: set<Id>): seq<Bytes> {
    if stream == [] then []
    else
      var init := Survivors(k, stream[..|stream| - 1], z);
      var last := stream[|stream| - 1];
      if WireZombie(k, last, z) then init else init + [last]
  }

  function StripInterface(k: Codec, i: Interface, z: set<Id>): Interface {
    i.(stream := Survivors(k, i.stream, z), dispatcher := if DispatchZombie(k, i.dispatcher, z) then Idle else i.dispatcher)
  }

  function StripInterfaces(k: Codec, m: map<Channel, Interface>, z: set<Id>): map<Channel, Interface> {
    map rc | rc in m :: StripInterface(k, m[rc], z)
  }

  function StripWorkers(m: map<Worker, Work>, z: set<Id>): map<Worker, Work> {
    map w | w in m && !WorkZombie(m[w], z) :: m[w]
  }

  /** The state without its zombies. */
  function Strip(k: Codec, c: Core, z: set<Id>): Core {
    c.(interfaces := StripInterfaces(k, c.interfaces, z), workers := StripWorkers(c.workers, z))
  }

  lemma StripUpdate(k: Codec, m: map<Channel, Interface>, rc: Channel, i: Interface, z: set<Id>)
    ensures StripInterfaces(k, m[rc := i], z) == StripInterfaces(k, m, z)[rc := StripInterface(k, i, z)]
  {
  }

  lemma StripWorkersUpdate(m: map<Worker, Work>, w: Worker, wk: Work, z: set<Id>)
    ensures StripWorkers(m[w := wk], z) == if WorkZombie(wk, z) then StripWorkers(m, z) - {w} else StripWorkers(m, z)[w := wk]
  {
  }

  lemma StripWorkersRemove(m: map<Worker, Work>, w: Worker, z: set<Id>)
    ensures StripWorkers(m - {w}, z) == StripWorkers(m, z) - {w}
  {
  }

  lemma SurvivorsAppend(k: Codec, stream: seq<Bytes>, wire: Bytes, z: set<Id>)
    ensures Survivors(k, stream + [wire], z) == Survivors(k, stream, z) + if WireZombie(k, wire, z) then [] else [wire]
  {
    assert (stream + [wire])[..|stream|] == stream;
  }

  lemma {:induction false} SurvivorsHead(k: Codec, stream: seq<Bytes>, z: set<Id>)
    requires stream != []
    ensures Survivors(k, stream, z) == (if WireZombie(k, stream[0], z) then [] else [stream[0]]) + Survivors(k, stream[1..], z)
  {
    if |stream| == 1 {
      assert stream[..0] == [] && stream[1..] == [];
    } else {
      var init := stream[..|stream| - 1];
      SurvivorsHead(k, init, z);
      assert init[1..] == stream[1..][..|stream[1..]| - 1];
    }
  }

  /** Marking an id nothing in the stream carries changes nothing. */
  lemma {:induction false} SurvivorsUnmarked(k: Codec, stream: seq<Bytes>, z: set<Id>, id: Id)
    requires forall i :: 0 <= i < |stream| ==> ResponseIdOr(k, stream[i]) != Some(id)
    ensures Survivors(k, stream, z + {id}) == Survivors(k, stream, z)
  {
    if stream != [] {
      assert stream[|stream| - 1] == stream[..][|stream| - 1];
      SurvivorsUnmarked(k, stream[..|stream| - 1], z, id);
    }
  }

  lemma {:induction false} SurvivorsNone(k: Codec, stream: seq<Bytes>)
    ensures Survivors(k, stream, {}) == stream
  {
    if stream != [] {
      SurvivorsNone(k, stream[..|stream| - 1]);
      assert stream == stream[..|stream| - 1] + [stream[|stream| - 1]];
    }
  }

  lemma StripClientEnabled(k: Codec, c: Core, z: set<Id>, l: ClientStep)
    requires ClientEnabled(c, l)
    ensures ClientEnabled(Strip(k, c, z), l)
  {
    hide Promise.Enabled;
  }

  /** Zombies change nothing for the application threads. */
  lemma StripClient(k: Codec, c: Core, z: set<Id>, l: ClientStep)
    requires ClientEnabled(c, l)
    ensures ClientEnabled(Strip(k, c, z), l)
    ensures ClientApply(k, Strip(k, c, z), l) == Strip(k, ClientApply(k, c, l), z)
  {
    StripClientEnabled(k, c, z, l);
    hide Promise.Apply, Promise.Enabled;
    match l {
      case Open(rc) =>
        StripUpdate(k, c.interfaces, rc, Interface(false, map[], [], Idle), z);
      case Confirm(rc) =>
        StripUpdate(k, c.interfaces, rc, c.interfaces[rc].(confirmed := true), z);
      case Register(id) =>
        var rc := c.sends[id].responseChannel;
        var i := c.interfaces[rc];
        StripUpdate(k, c.interfaces, rc, i.(registry := i.registry[id := c.sends[id].addr]), z);
      case Destroy(id) =>
        var rc := c.sends[id].responseChannel;
        var i := c.interfaces[rc];
        StripUpdate(k, c.interfaces, rc, i.(registry := i.registry - {id}), z);
      case _ =>
    }
  }

  /** Nor for the handlers of the other requests. */
  lemma StripWorker(k: Codec, c: Core, z: set<Id>, w: Worker, l: WorkerStep)
    requires Faithful(k) && WorkerEnabled(c, w, l) && l != Filter
    requires w in c.workers ==> !WorkZombie(c.workers[w], z)
    requires l == Publish ==> Base62(c.workers[w].frame.id)
    ensures WorkerEnabled(Strip(k, c, z), w, l)
    ensures WorkerApply(k, true, Strip(k, c, z), w, l) == Strip(k, WorkerApply(k, false, c, w, l), z)
  {
    match l {
      case Pop(ch) => StripWorkersUpdate(c.workers, w, Popped(ch, Queue(c, ch)[0]), z);
      case Abandon => StripWorkersRemove(c.workers, w, z);
      case Call(result) =>
        StripWorkersUpdate(c.workers, w, Answered(c.workers[w].channel, c.workers[w].frame, result), z);
      case Publish =>
        StripWorkersRemove(c.workers, w, z);
        var f := c.workers[w].frame;
        var wire := k.encodeResponse(Response(f.id, c.workers[w].result));
        assert k.decodeResponse(wire) == Some(Response(f.id, c.workers[w].result));
        if Confirmed(c, f.responseChannel) {
          var i := c.interfaces[f.responseChannel];
          SurvivorsAppend(k, i.stream, wire, z);
          StripUpdate(k, c.interfaces, f.responseChannel, i.(stream := i.stream + [wire]), z);
        }
    }
  }

  lemma StripZombieStream(k: Codec, m: map<Channel, Interface>, rc: Channel, wire: Bytes, z: set<Id>)
    requires rc in m && WireZombie(k, wire, z)
    ensures StripInterfaces(k, m[rc := m[rc].(stream := m[rc].stream + [wire])], z) == StripInterfaces(k, m, z)
  {
    SurvivorsAppend(k, m[rc].stream, wire, z);
    StripUpdate(k, m, rc, m[rc].(stream := m[rc].stream + [wire]), z);
    assert StripInterfaces(k, m, z)[rc := StripInterface(k, m[rc], z)] == StripInterfaces(k, m, z);
  }

  /** A zombie's own steps are invisible. */
  lemma StripZombieWorker(k: Codec, c: Core, z: set<Id>, w: Worker, l: WorkerStep)
    requires Faithful(k) && WorkerEnabled(c, w, l) && w in c.workers && WorkZombie(c.workers[w], z)
    requires Base62(c.workers[w].frame.id)
    ensures Strip(k, WorkerApply(k, false, c, w, l), z) == Strip(k, c, z)
  {
    assert StripWorkers(c.workers, z) - {w} == StripWorkers(c.workers, z);
    var f := c.workers[w].frame;
    if l.Call? {
      StripWorkersUpdate(c.workers, w, Answered(c.workers[w].channel, f, l.result), z);
    } else {
      StripWorkersRemove(c.workers, w, z);
      var wire := k.encodeResponse(Response(f.id, c.workers[w].result));
      assert k.decodeResponse(wire) == Some(Response(f.id, c.workers[w].result));
      if Confirmed(c, f.responseChannel) {
        StripZombieStream(k, c.interfaces, f.responseChannel, wire, z);
      }
      hide StripInterfaces, StripWorkers, Faithful;
    }
  }

  /** Nothing but worker w's own request carries id. */
  ghost predicate OnlyAt(k: Codec, c: Core, w: Worker, id: Id) {
    && (forall rc, i :: rc in c.interfaces && 0 <= i < |c.interfaces[rc].stream| ==>
          ResponseIdOr(k, c.interfaces[rc].stream[i]) != Some(id))
    && (forall rc :: rc in c.interfaces ==> DispatchId(k, c.interfaces[rc].dispatcher) != Some(id))
    && (forall w' :: w' in c.workers && w' != w && !c.workers[w'].Popped? ==> c.workers[w'].frame.id != id)
  }

  lemma StripMark(k: Codec, c: Core, z: set<Id>, w: Worker, id: Id)
    requires OnlyAt(k, c, w, id) && w !in c.workers
    ensures Strip(k, c, z + {id}) == Strip(k, c, z)
  {
    forall rc | rc in c.interfaces ensures StripInterface(k, c.interfaces[rc], z + {id}) == StripInterface(k, c.interfaces[rc], z) {
      SurvivorsUnmarked(k, c.interfaces[rc].stream, z, id);
    }
    assert StripInterfaces(k, c.interfaces, z + {id}) == StripInterfaces(k, c.interfaces, z);
    assert StripWorkers(c.workers, z + {id}) == StripWorkers(c.workers, z);
  }

  /** The filter step: the request survives in both systems, or is dropped in one and becomes a zombie in the other. */
  lemma StripFilter(k: Codec, c: Core, z: set<Id>, w: Worker)
    requires WorkerEnabled(c, w, Filter) && k.decodeRequest(c.workers[w].wire).Some?
    requires var f := k.decodeRequest(c.workers[w].wire).value; f.id !in z && OnlyAt(k, c, w, f.id)
    ensures WorkerEnabled(Strip(k, c, z), w, Filter)
    ensures var f := k.decodeRequest(c.workers[w].wire).value;
      WorkerApply(k, true, Strip(k, c, z), w, Filter)
        == Strip(k, WorkerApply(k, false, c, w, Filter), if FrameExpired(c.now, f) then z + {f.id} else z)
  {
    var f := k.decodeRequest(c.workers[w].wire).value;
    var kept := Kept(c.workers[w].channel, f);
    if FrameExpired(c.now, f) {
      var gone := c.(workers := c.workers - {w});
      StripMark(k, gone, z, w, f.id);
      StripWorkersRemove(c.workers, w, z);
      StripWorkersUpdate(gone.workers, w, kept, z + {f.id});
      assert gone.workers[w := kept] == c.workers[w := kept];
      assert StripWorkers(gone.workers, z + {f.id}) - {w} == StripWorkers(gone.workers, z + {f.id});
    } else {
      StripWorkersUpdate(c.workers, w, kept, z);
    }
  }

  /** Whatever a dispatcher makes of its own interface, stripping looks at that interface alone. */
  lemma StripOne(k: Codec, c: Core, z: set<Id>, rc: Channel, i: Interface)
    ensures Strip(k, c.(interfaces := c.interfaces[rc := i]), z)
         == Strip(k, c, z).(interfaces := Strip(k, c, z).interfaces[rc := StripInterface(k, i, z)])
  {
    StripUpdate(k, c.interfaces, rc, i, z);
  }

  lemma StripTake(k: Codec, c: Core, z: set<Id>, rc: Channel)
    requires DispatchEnabled(c, rc, Take) && !WireZombie(k, c.interfaces[rc].stream[0], z)
    ensures DispatchEnabled(Strip(k, c, z), rc, Take)
    ensures DispatchApply(k, Strip(k, c, z), rc, Take) == Strip(k, DispatchApply(k, c, rc, Take), z)
  {
    var i := c.interfaces[rc];
    SurvivorsHead(k, i.stream, z);
    var i' := i.(stream := i.stream[1..], dispatcher := Taken(i.stream[0]));
    StripOne(k, c, z, rc, i');
    var j := StripInterface(k, i, z);
    assert j.stream[1..] == Survivors(k, i.stream[1..], z);
    assert StripInterface(k, i', z) == j.(stream := j.stream[1..], dispatcher := Taken(j.stream[0]));
  }

  lemma StripOutside(k: Codec, c: Core, z: set<Id>, rc: Channel, l: DispatchStep)
    requires DispatchEnabled(c, rc, l) && !DispatchZombie(k, c.interfaces[rc].dispatcher, z)
    requires l == Claim || l == Find || l == Leave
    requires l == Claim ==> k.decodeResponse(c.interfaces[rc].dispatcher.wire).Some?
    ensures DispatchEnabled(Strip(k, c, z), rc, l)
    ensures DispatchApply(k, Strip(k, c, z), rc, l) == Strip(k, DispatchApply(k, c, rc, l), z)
  {
    var c' := DispatchApply(k, c, rc, l);
    StripOne(k, c, z, rc, c'.interfaces[rc]);
    assert c'.interfaces == c.interfaces[rc := c'.interfaces[rc]];
  }

  lemma StripDispatcher(k: Codec, c: Core, z: set<Id>, rc: Channel, d: Dispatcher)
    requires rc in c.interfaces && !DispatchZombie(k, d, z)
    ensures rc in Strip(k, c, z).interfaces && Strip(k, WithDispatcher(c, rc, d), z) == WithDispatcher(Strip(k, c, z), rc, d)
  {
    StripOne(k, c, z, rc, c.interfaces[rc].(dispatcher := d));
    hide DispatchZombie, Survivors;
  }

  lemma StripPromise(k: Codec, c: Core, z: set<Id>, addr: Addr, p: Promise.State)
    requires addr in c.promises
    ensures addr in Strip(k, c, z).promises && Strip(k, WithPromise(c, addr, p), z) == WithPromise(Strip(k, c, z), addr, p)
  {
  }

  lemma StripRespond(k: Codec, c: Core, z: set<Id>, rc: Channel)
    requires DispatchEnabled(c, rc, Respond) && !DispatchZombie(k, c.interfaces[rc].dispatcher, z)
    ensures DispatchEnabled(Strip(k, c, z), rc, Respond)
    ensures DispatchApply(k, Strip(k, c, z), rc, Respond) == Strip(k, DispatchApply(k, c, rc, Respond), z)
  {
    var Calling(f, addr) := c.interfaces[rc].dispatcher;
    var p := c.promises[addr].p;
    assert Strip(k, c, z).interfaces[rc].dispatcher == c.interfaces[rc].dispatcher;
    hide Promise.Apply, Promise.Enabled;
    if c.now > p.validUntil {
      StripDispatcher(k, c, z, rc, Leaving(f));
      hide Strip, WithDispatcher, WithPromise, DispatchZombie;
    } else {
      var q := Promise.Apply(p, c.now, Promise.Accept(f.payload));
      StripPromise(k, c, z, addr, q);
      StripDispatcher(k, WithPromise(c, addr, q), z, rc, Storing(f, addr));
      hide DispatchZombie, StripInterfaces, StripWorkers;
    }
  }

  lemma StripStore(k: Codec, c: Core, z: set<Id>, rc: Channel, l: DispatchStep)
    requires DispatchEnabled(c, rc, l) && !DispatchZombie(k, c.interfaces[rc].dispatcher, z)
    requires l == Store || l == Release
    ensures DispatchEnabled(Strip(k, c, z), rc, l)
    ensures DispatchApply(k, Strip(k, c, z), rc, l) == Strip(k, DispatchApply(k, c, rc, l), z)
  {
    hide Promise.Apply, Promise.Enabled;
    var c' := DispatchApply(k, c, rc, l);
    StripOne(k, c.(promises := c'.promises), z, rc, c'.interfaces[rc]);
    assert c'.interfaces == c.interfaces[rc := c'.interfaces[rc]];
  }

  /** The dispatcher handles a response that is not a zombie. */
  lemma StripDispatch(k: Codec, c: Core, z: set<Id>, rc: Channel, l: DispatchStep)
    requires DispatchEnabled(c, rc, l) && !DispatchZombie(k, c.interfaces[rc].dispatcher, z)
    requires l == Take ==> !WireZombie(k, c.interfaces[rc].stream[0], z)
    requires l == Claim ==> k.decodeResponse(c.interfaces[rc].dispatcher.wire).Some?
    ensures DispatchEnabled(Strip(k, c, z), rc, l)
    ensures DispatchApply(k, Strip(k, c, z), rc, l) == Strip(k, DispatchApply(k, c, rc, l), z)
  {
    hide DispatchEnabled, DispatchApply, Strip;
    match l {
      case Take => StripTake(k, c, z, rc);
      case Claim => StripOutside(k, c, z, rc, l);
      case Find => StripOutside(k, c, z, rc, l);
      case Leave => StripOutside(k, c, z, rc, l);
      case Respond => StripRespond(k, c, z, rc);
      case _ => StripStore(k, c, z, rc, l);
    }
  }

  /** The dispatcher handles a zombie: its deadline has passed, so no promise notices. */
  lemma StripZombieDispatch(k: Codec, c: Core, z: set<Id>, rc: Channel, l: DispatchStep)
    requires DispatchEnabled(c, rc, l)
    requires if l == Take then WireZombie(k, c.interfaces[rc].stream[0], z) else DispatchZombie(k, c.interfaces[rc].dispatcher, z)
    requires l == Respond ==> c.now > c.promises[c.interfaces[rc].dispatcher.addr].p.validUntil
    requires l != Store && l != Release
    ensures Strip(k, DispatchApply(k, c, rc, l), z) == Strip(k, c, z)
  {
    var i := c.interfaces[rc];
    var c' := DispatchApply(k, c, rc, l);
    var i' := c'.interfaces[rc];
    assert c'.interfaces == c.interfaces[rc := i'] && c'.promises == c.promises;
    StripOne(k, c, z, rc, i');
    if l == Take {
      SurvivorsHead(k, i.stream, z);
      assert Survivors(k, i.stream, z) == Survivors(k, i.stream[1..], z);
    }
    assert StripInterface(k, i', z) == StripInterface(k, i, z);
    assert StripInterfaces(k, c.interfaces, z)[rc := StripInterface(k, i, z)] == StripInterfaces(k, c.interfaces, z);
  }
}
