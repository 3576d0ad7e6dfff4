/** The steps of the response dispatchers keep the invariant. */
module ProtocolDispatchSteps {
  import opened Common
  import opened Frames
  import opened Protocol
  import opened ProtocolInv
  import opened ProtocolFrames
  import Promise

  function After(k: Codec, s: State, rc: Channel, l: DispatchStep): State
    requires DispatchEnabled(s.core, rc, l)
  {
    State(DispatchApply(k, s.core, rc, l), DispatchRecord(k, s.core, s.hist, rc, l))
  }

  ghost predicate InPromise(l: DispatchStep) { l.Respond? || l.Store? || l.Release? }

  lemma ApplyLeaves(k: Codec, c: Core, rc: Channel, l: DispatchStep)
    requires DispatchEnabled(c, rc, l)
    ensures var c' := DispatchApply(k, c, rc, l);
      && c' == c.(interfaces := c'.interfaces, promises := c'.promises)
      && (exists i :: c'.interfaces == c.interfaces[rc := i] && i.registry == c.interfaces[rc].registry
                      && i.confirmed == c.interfaces[rc].confirmed && (l != Take ==> i.stream == c.interfaces[rc].stream))
      && (!InPromise(l) ==> c'.promises == c.promises)
  {
    hide Promise.Apply, Promise.Enabled;
    var i := DispatchApply(k, c, rc, l).interfaces[rc];
    assert DispatchApply(k, c, rc, l).interfaces == c.interfaces[rc := i];
  }

  lemma RecordLeaves(k: Codec, c: Core, h: History, rc: Channel, l: DispatchStep)
    requires DispatchEnabled(c, rc, l)
    ensures var h' := DispatchRecord(k, c, h, rc, l);
      && h'.calls == h.calls && h'.expired == h.expired && h.responded <= h'.responded
      && (l != Find ==> h'.responded == h.responded) && (InPromise(l) ==> h' == h)
      && (forall id :: id in h.stage ==> id in h'.stage)
  {
  }

  /** What no step of rc's dispatcher changes. */
  ghost predicate Leaves(s: State, s': State, rc: Channel) {
    && Extends(s, s') && s'.core.sends == s.core.sends && s'.core.queues == s.core.queues
    && s'.core.workers == s.core.workers && s'.core.now == s.core.now
    && s'.hist.calls == s.hist.calls && s'.hist.expired == s.hist.expired && s.hist.responded <= s'.hist.responded
    && SameRegistries(s.core, s'.core) && s'.core.interfaces.Keys == s.core.interfaces.Keys
    && (forall rc' :: rc' in s.core.interfaces && rc' != rc ==> s'.core.interfaces[rc'] == s.core.interfaces[rc'])
  }

  lemma DispatchStepLeaves(k: Codec, s: State, rc: Channel, l: DispatchStep)
    requires DispatchEnabled(s.core, rc, l)
    ensures var s' := After(k, s, rc, l);
      && Leaves(s, s', rc)
      && (!InPromise(l) ==> s'.core.promises == s.core.promises)
      && (l != Take ==> SameStreams(s, s'))
      && (l != Find ==> s'.hist.responded == s.hist.responded)
  {
    ApplyLeaves(k, s.core, rc, l);
    RecordLeaves(k, s.core, s.hist, rc, l);
    hide DispatchApply, DispatchRecord, DispatchEnabled;
  }

  lemma DispatchStepInPromise(k: Codec, s: State, rc: Channel, l: DispatchStep)
    requires DispatchEnabled(s.core, rc, l) && InPromise(l)
    ensures var s' := After(k, s, rc, l); var a := s.core.interfaces[rc].dispatcher.addr;
      && SamePromises(s.core, s'.core)
      && (forall b :: b in s.core.promises && b != a ==> s'.core.promises[b] == s.core.promises[b])
      && s'.hist == s.hist
  {
    var d := s.core.interfaces[rc].dispatcher;
    var p := s.core.promises[d.addr].p;
    match l {
      case Respond =>
        if s.core.now <= p.validUntil {
          Promise.DeadlineStays(p, s.core.now, Promise.Accept(d.frame.payload));
        }
      case Store => Promise.DeadlineStays(p, s.core.now, Promise.Store);
      case Release => Promise.DeadlineStays(p, s.core.now, Promise.Unlock);
    }
    hide Promise.Apply;
  }

  /** Queues, workers, streams, calls and histories do not depend on where the dispatcher is. */
  lemma RestKept(k: Codec, filtering: bool, s: State, rc: Channel, l: DispatchStep)
    requires DispatchEnabled(s.core, rc, l) && l != Take
    requires SendsInv(s.core) && RegistryInv(s.core) && QueuesInv(k, s) && WorkersInv(k, s) && StreamsInv(k, s) && CallsInv(s)
    requires var s' := After(k, s, rc, l);
      forall stage :: stage != Dispatching && !stage.Done? ==> SameStage(s, s', stage)
    ensures var s' := After(k, s, rc, l);
      SendsInv(s'.core) && RegistryInv(s'.core) && QueuesInv(k, s') && WorkersInv(k, s') && StreamsInv(k, s') && CallsInv(s')
  {
    var s' := After(k, s, rc, l);
    DispatchStepLeaves(k, s, rc, l);
    if InPromise(l) {
      DispatchStepInPromise(k, s, rc, l);
    }
    assert SameStage(s, s', Queued) && SameStage(s, s', InStream);
    assert forall w :: SameStage(s, s', AtWorker(w));
    assert SamePromises(s.core, s'.core);
    hide After, DispatchEnabled, SendsInv, RegistryInv, QueuesInv, WorkersInv, StreamsInv, CallsInv, Extends;
    SendsFrame(s.core, s'.core);
    RegistryFrame(s.core, s'.core);
    QueuesFrame(k, s, s');
    WorkersFrame(k, s, s');
    StreamsFrame(k, s, s');
    CallsFrame(s, s');
  }

  /** Two interfaces are never inside the same promise. */
  lemma PromisesDiffer(c: Core, rc: Channel, id: Id, rc': Channel, id': Id)
    requires SendsInv(c) && RegistryInv(c) && rc != rc' && Waiting(c, rc, id) && Waiting(c, rc', id')
    ensures c.interfaces[rc].registry[id] != c.interfaces[rc'].registry[id']
  {
    assert SendOk(c, id) && SendOk(c, id');
  }

  lemma OtherPromiseUntouched(k: Codec, s: State, rc: Channel, l: DispatchStep, rc': Channel)
    requires DispatchEnabled(s.core, rc, l) && InPromise(l) && rc' in s.core.interfaces && rc' != rc
    requires SendsInv(s.core) && RegistryInv(s.core) && DispatcherInv(k, s, rc) && DispatcherInv(k, s, rc')
    requires var d' := s.core.interfaces[rc'].dispatcher; d'.Calling? || d'.Storing? || d'.Releasing?
    ensures s.core.interfaces[rc'].dispatcher.addr != s.core.interfaces[rc].dispatcher.addr
  {
    var d := s.core.interfaces[rc].dispatcher;
    var d' := s.core.interfaces[rc'].dispatcher;
    assert d.Calling? || d.Storing? || d.Releasing?;
    assert Waiting(s.core, rc, d.frame.id) && Waiting(s.core, rc', d'.frame.id);
    hide SendsInv, RegistryInv, DispatchEnabled;
    PromisesDiffer(s.core, rc, d.frame.id, rc', d'.frame.id);
  }

  /** While rc's dispatcher moves, the others find what they rely on unchanged. */
  lemma OthersUntouched(k: Codec, s: State, rc: Channel, l: DispatchStep, rc': Channel)
    requires DispatchEnabled(s.core, rc, l) && rc' in s.core.interfaces && rc' != rc
    requires SendsInv(s.core) && RegistryInv(s.core) && DispatcherInv(k, s, rc) && DispatcherInv(k, s, rc')
    ensures DispatcherUntouched(s, After(k, s, rc, l), rc')
  {
    hide After, SendsInv, RegistryInv, DispatcherInv;
    DispatchStepLeaves(k, s, rc, l);
    if InPromise(l) {
      DispatchStepInPromise(k, s, rc, l);
      var d' := s.core.interfaces[rc'].dispatcher;
      if d'.Calling? || d'.Storing? || d'.Releasing? {
        OtherPromiseUntouched(k, s, rc, l, rc');
      }
    }
  }

  /** The dispatchers' invariant after a step of rc's, from what the step makes of rc's own dispatcher. */
  lemma DispatchersKept(k: Codec, filtering: bool, s: State, rc: Channel, l: DispatchStep, id: Id)
    requires Inv(k, filtering, s) && DispatchEnabled(s.core, rc, l)
    requires id in s.core.sends && s.core.sends[id].responseChannel == rc
    requires var s' := After(k, s, rc, l);
      && (forall x :: x != id ==> SameToken(s, s', x)) && (forall x :: x in s'.hist.stage ==> x in s.core.sends)
      && DispatcherInv(k, s', rc)
      && (forall x :: StageIs(s', x, Dispatching) && x in s.core.sends && s.core.sends[x].responseChannel == rc ==>
            DispatchId(k, s'.core.interfaces[rc].dispatcher) == Some(x))
    ensures DispatchersInv(k, After(k, s, rc, l))
  {
    var s' := After(k, s, rc, l);
    DispatchStepLeaves(k, s, rc, l);
    hide After, SendsInv, RegistryInv, QueuesInv, WorkersInv, StreamsInv, CallsInv, Extends, PromisesInv, RespondedInv, HistoryInv;
    hide DispatchEnabled;
    assert DispatchEnabled(s.core, rc, l);
    assert DispatcherInv(k, s, rc);
    forall rc' | rc' in s.core.interfaces && rc' != rc ensures DispatcherUntouched(s, s', rc') {
      assert DispatcherInv(k, s, rc');
      hide DispatcherInv, DispatchersInv;
      OthersUntouched(k, s, rc, l, rc');
    }
    hide DispatchersInv, DispatcherInv, SameToken;
    DispatchersFrameBut(k, s, s', rc);
  }

  lemma PromisesKeptOutside(k: Codec, s: State, rc: Channel, l: DispatchStep)
    requires PromisesInv(s) && DispatchEnabled(s.core, rc, l) && !InPromise(l)
    ensures PromisesInv(After(k, s, rc, l))
  {
    var s' := After(k, s, rc, l);
    DispatchStepLeaves(k, s, rc, l);
    assert !s.core.interfaces[rc].dispatcher.Storing? && !s.core.interfaces[rc].dispatcher.Releasing?;
    hide After, DispatchEnabled, PromisesInv, Extends, PromiseInv;
    PromisesFrameBut(s, s', rc, None);
  }

  lemma TakeMoves(k: Codec, s: State, rc: Channel)
    requires DispatchEnabled(s.core, rc, Take) && StreamsInv(k, s)
    ensures var wire := Stream(s.core, rc)[0]; var s' := After(k, s, rc, Take);
      && GoodResponse(k, s, rc, wire) && Moved(s, s', ResponseId(k, wire), InStream, Dispatching)
      && s'.hist == s.hist.(stage := s'.hist.stage)
      && s'.core.interfaces[rc].dispatcher == Taken(wire) && s'.core.interfaces.Keys == s.core.interfaces.Keys
      && Stream(s'.core, rc) == Stream(s.core, rc)[1..]
      && (forall rc' :: rc' != rc ==> Stream(s'.core, rc') == Stream(s.core, rc'))
  {
    assert StreamOk(k, s, rc, 0);
  }

  lemma TakeKeepsStreams(k: Codec, s: State, rc: Channel)
    requires DispatchEnabled(s.core, rc, Take) && StreamsInv(k, s)
    ensures StreamsInv(k, After(k, s, rc, Take))
  {
    var s' := After(k, s, rc, Take);
    TakeMoves(k, s, rc);
    DispatchStepLeaves(k, s, rc, Take);
    var id := ResponseId(k, Stream(s.core, rc)[0]);
    hide After, DispatchEnabled;
    forall c, i: nat ensures StreamOk(k, s', c, i) {
      var j := if c == rc then i + 1 else i;
      assert StreamOk(k, s, c, j) && StreamDistinct(k, s.core, rc, 0, j);
      if i < |Stream(s'.core, c)| {
        assert Stream(s'.core, c)[i] == Stream(s.core, c)[j];
        StreamFrame(k, s, s', c, Stream(s.core, c)[j]);
        assert ResponseId(k, Stream(s.core, c)[j]) != id;
      }
    }
    forall c, i: nat, j: nat ensures StreamDistinct(k, s'.core, c, i, j) {
      if c == rc {
        assert StreamDistinct(k, s.core, c, i + 1, j + 1);
      } else {
        assert StreamDistinct(k, s.core, c, i, j);
      }
    }
  }

  /** The dispatchers after Take: rc's holds the response, whose token is now with it. */
  lemma TakeKeepsDispatchers(k: Codec, filtering: bool, s: State, rc: Channel)
    requires Inv(k, filtering, s) && DispatchEnabled(s.core, rc, Take)
    ensures DispatchersInv(k, After(k, s, rc, Take))
  {
    var s' := After(k, s, rc, Take);
    TakeMoves(k, s, rc);
    DispatchStepLeaves(k, s, rc, Take);
    var wire := Stream(s.core, rc)[0];
    var id := ResponseId(k, wire);
    assert RespondedOk(s, id);
    assert s.core.interfaces[rc].dispatcher == Idle;
    assert forall x :: x in s.hist.stage ==> x in s.core.sends;
    hide QueuesInv, WorkersInv, StreamsInv, CallsInv, RespondedInv, SendsInv, RegistryInv, PromisesInv, HistoryInv, After, DispatchEnabled;
    StreamFrame(k, s, s', rc, wire);
    forall x | x != id ensures SameToken(s, s', x) {}
    assert DispatcherInv(k, s', rc);
    forall x | StageIs(s', x, Dispatching) && x in s.core.sends && s.core.sends[x].responseChannel == rc
      ensures DispatchId(k, s'.core.interfaces[rc].dispatcher) == Some(x)
    {
      assert x != id ==> StageIs(s, x, Dispatching);
    }
    hide Inv, DispatchersInv, DispatcherInv, SameToken, Leaves, Moved;
    DispatchersKept(k, filtering, s, rc, Take, id);
  }

  lemma TakeKeepsHistory(k: Codec, filtering: bool, s: State, rc: Channel)
    requires DispatchEnabled(s.core, rc, Take) && StreamsInv(k, s) && HistoryInv(filtering, s)
    ensures HistoryInv(filtering, After(k, s, rc, Take))
  {
    TakeMoves(k, s, rc);
    DispatchStepLeaves(k, s, rc, Take);
    hide After, DispatchEnabled, StreamsInv;
  }

  lemma TakeKeeps(k: Codec, filtering: bool, s: State, rc: Channel)
    requires Inv(k, filtering, s) && DispatchEnabled(s.core, rc, Take)
    ensures Inv(k, filtering, After(k, s, rc, Take))
  {
    hide QueuesInv, WorkersInv, StreamsInv, DispatchersInv, CallsInv, RespondedInv, SendsInv, RegistryInv, PromisesInv, HistoryInv;
    var s' := After(k, s, rc, Take);
    assert Stream(s.core, rc) != [];
    hide After, DispatchEnabled;
    TakeKeepsDispatchers(k, filtering, s, rc);
    TakeKeepsHistory(k, filtering, s, rc);
    TakeKeepsStreams(k, s, rc);
    PromisesKeptOutside(k, s, rc, Take);
    TakeMoves(k, s, rc);
    DispatchStepLeaves(k, s, rc, Take);
    var id := ResponseId(k, Stream(s.core, rc)[0]);
    forall stage | stage != InStream && stage != Dispatching ensures SameStage(s, s', stage) {
      MovedKeeps(s, s', id, InStream, Dispatching, stage);
    }
    MovedKeeps(s, s', id, InStream, Dispatching, Dispatching);
    SendsFrame(s.core, s'.core);
    RegistryFrame(s.core, s'.core);
    QueuesFrame(k, s, s');
    WorkersFrame(k, s, s');
    CallsFrame(s, s');
    RespondedFrame(s, s');
  }

  /** The frame rc's dispatcher is busy with. */
  ghost predicate Busy(k: Codec, s: State, rc: Channel, id: Id) {
    rc in s.core.interfaces && DispatchId(k, s.core.interfaces[rc].dispatcher) == Some(id)
    && id in s.core.sends && s.core.sends[id].responseChannel == rc
  }

  /** Steps of a busy dispatcher that leave its token where it is. */
  lemma StayKeepsDispatchers(k: Codec, filtering: bool, s: State, rc: Channel, l: DispatchStep, id: Id)
    requires Inv(k, filtering, s) && DispatchEnabled(s.core, rc, l) && Busy(k, s, rc, id)
    requires var s' := After(k, s, rc, l);
      && s'.hist.stage == s.hist.stage
      && (s'.hist.responded == s.hist.responded || s'.hist.responded == s.hist.responded + [id])
      && DispatcherInv(k, s', rc) && DispatchId(k, s'.core.interfaces[rc].dispatcher) == Some(id)
    ensures DispatchersInv(k, After(k, s, rc, l))
  {
    var s' := After(k, s, rc, l);
    assert forall x :: x in s.hist.stage ==> x in s.core.sends;
    hide QueuesInv, WorkersInv, StreamsInv, CallsInv, RespondedInv, SendsInv, RegistryInv, PromisesInv, HistoryInv, After, DispatchEnabled;
    forall x | x != id ensures SameToken(s, s', x) {}
    forall x | StageIs(s', x, Dispatching) && x in s.core.sends && s.core.sends[x].responseChannel == rc ensures x == id {
      assert StageIs(s, x, Dispatching);
    }
    hide Inv, DispatchersInv, DispatcherInv, SameToken;
    DispatchersKept(k, filtering, s, rc, l, id);
  }

  /** And steps that end the token's way, at this dispatcher. */
  lemma EndKeepsDispatchers(k: Codec, filtering: bool, s: State, rc: Channel, l: DispatchStep, id: Id, fate: Fate)
    requires Inv(k, filtering, s) && DispatchEnabled(s.core, rc, l) && Busy(k, s, rc, id)
    requires var s' := After(k, s, rc, l);
      && Moved(s, s', id, Dispatching, Done(fate)) && s'.hist.responded == s.hist.responded && DispatcherInv(k, s', rc)
    ensures DispatchersInv(k, After(k, s, rc, l))
  {
    var s' := After(k, s, rc, l);
    assert forall x :: x in s.hist.stage ==> x in s.core.sends;
    hide QueuesInv, WorkersInv, StreamsInv, CallsInv, RespondedInv, SendsInv, RegistryInv, PromisesInv, HistoryInv, After, DispatchEnabled;
    forall x | x != id ensures SameToken(s, s', x) {}
    forall x | x in s.core.sends && s.core.sends[x].responseChannel == rc ensures StageIs(s, x, Dispatching) ==> x == id {}
    assert forall x :: StageIs(s', x, Dispatching) ==> x != id && StageIs(s, x, Dispatching);
    hide Inv, DispatchersInv, DispatcherInv, SameToken, Moved;
    DispatchersKept(k, filtering, s, rc, l, id);
  }

  /** The rest of the invariant for a step that leaves the stage map alone. */
  lemma StayKeeps(k: Codec, filtering: bool, s: State, rc: Channel, l: DispatchStep)
    requires Inv(k, filtering, s) && DispatchEnabled(s.core, rc, l) && l != Take
    requires var s' := After(k, s, rc, l);
      && s'.hist.stage == s.hist.stage && s'.hist.broken == s.hist.broken
      && DispatchersInv(k, s') && RespondedInv(s') && PromisesInv(s')
    ensures Inv(k, filtering, After(k, s, rc, l))
  {
    hide QueuesInv, WorkersInv, StreamsInv, DispatchersInv, CallsInv, RespondedInv, SendsInv, RegistryInv, PromisesInv, HistoryInv;
    var s' := After(k, s, rc, l);
    assert forall stage :: SameStage(s, s', stage);
    DispatchStepLeaves(k, s, rc, l);
    hide After, DispatchEnabled;
    RestKept(k, filtering, s, rc, l);
    HistoryFrame(filtering, s, s');
  }

  lemma ClaimKeeps(k: Codec, filtering: bool, s: State, rc: Channel)
    requires Inv(k, filtering, s) && DispatchEnabled(s.core, rc, Claim)
    ensures Inv(k, filtering, After(k, s, rc, Claim))
  {
    hide QueuesInv, WorkersInv, StreamsInv, CallsInv, RespondedInv, SendsInv, RegistryInv, PromisesInv, HistoryInv;
    var s' := After(k, s, rc, Claim);
    assert DispatcherInv(k, s, rc);
    var f := k.decodeResponse(s.core.interfaces[rc].dispatcher.wire).value;
    DispatchStepLeaves(k, s, rc, Claim);
    AnswerStable(s, s', rc, f);
    assert s'.core.interfaces[rc].dispatcher == Locked(f) && s'.hist == s.hist;
    assert DispatcherInv(k, s', rc) && Busy(k, s, rc, f.id);
    PromisesKeptOutside(k, s, rc, Claim);
    hide After, DispatchEnabled, Inv, DispatchersInv, DispatcherInv;
    StayKeepsDispatchers(k, filtering, s, rc, Claim, f.id);
    assert RespondedInv(s') by {
      assert RespondedInv(s) by { InvParts(k, filtering, s); }
      RespondedFrame(s, s');
    }
    StayKeeps(k, filtering, s, rc, Claim);
  }

  lemma InvParts(k: Codec, filtering: bool, s: State)
    requires Inv(k, filtering, s)
    ensures RespondedInv(s) && PromisesInv(s) && DispatchersInv(k, s) && SendsInv(s.core) && RegistryInv(s.core)
    ensures HistoryInv(filtering, s)
  {
    hide QueuesInv, WorkersInv, StreamsInv, DispatchersInv, CallsInv, RespondedInv, SendsInv, RegistryInv, PromisesInv, HistoryInv;
  }

  /** What Find knows: if the id is in the map, the promise there is live and has accepted nothing yet. */
  lemma FoundPromise(k: Codec, filtering: bool, s: State, rc: Channel)
    requires Inv(k, filtering, s) && DispatchEnabled(s.core, rc, Find)
    requires s.core.interfaces[rc].dispatcher.frame.id in s.core.interfaces[rc].registry
    ensures var f := s.core.interfaces[rc].dispatcher.frame; var a := s.core.interfaces[rc].registry[f.id];
      && GoodAnswer(s, rc, f) && StageIs(s, f.id, Dispatching) && f.id !in s.hist.responded
      && AliveAt(s.core, a) && s.core.promises[a].id == f.id && s.core.promises[a].p.accepted == []
  {
    var f := s.core.interfaces[rc].dispatcher.frame;
    assert DispatcherInv(k, s, rc);
    assert Waiting(s.core, rc, f.id);
    assert SendOk(s.core, f.id);
    assert PromiseInv(s, s.core.sends[f.id].addr);
  }

  lemma FindKeeps(k: Codec, filtering: bool, s: State, rc: Channel)
    requires Inv(k, filtering, s) && DispatchEnabled(s.core, rc, Find)
    ensures Inv(k, filtering, After(k, s, rc, Find))
  {
    hide QueuesInv, WorkersInv, StreamsInv, CallsInv, RespondedInv, SendsInv, RegistryInv, PromisesInv, HistoryInv;
    var s' := After(k, s, rc, Find);
    assert DispatcherInv(k, s, rc);
    var f := s.core.interfaces[rc].dispatcher.frame;
    DispatchStepLeaves(k, s, rc, Find);
    AnswerStable(s, s', rc, f);
    PromisesKeptOutside(k, s, rc, Find);
    assert Busy(k, s, rc, f.id);
    if f.id in s.core.interfaces[rc].registry {
      FoundPromise(k, filtering, s, rc);
      assert s'.hist == s.hist.(responded := s.hist.responded + [f.id]);
      assert DispatcherInv(k, s', rc) && DispatchId(k, s'.core.interfaces[rc].dispatcher) == Some(f.id);
      FindKeepsResponded(s, s', f.id) by { InvParts(k, filtering, s); }
      hide After, DispatchEnabled, Inv, DispatchersInv, DispatcherInv;
      StayKeepsDispatchers(k, filtering, s, rc, Find, f.id);
      StayKeeps(k, filtering, s, rc, Find);
    } else {
      assert Moved(s, s', f.id, Dispatching, Done(Unclaimed)) && s'.hist == s.hist.(stage := s'.hist.stage);
      assert DispatcherInv(k, s', rc);
      hide After, DispatchEnabled, Inv, DispatchersInv, DispatcherInv;
      EndKeeps(k, filtering, s, rc, Find, f.id, Unclaimed);
    }
  }

  lemma FindKeepsResponded(s: State, s': State, id: Id)
    requires RespondedInv(s) && id !in s.hist.responded && StageIs(s, id, Dispatching)
    requires s'.hist == s.hist.(responded := s.hist.responded + [id])
    ensures RespondedInv(s')
  {
    forall x ensures RespondedOk(s', x) {
      assert RespondedOk(s, x);
    }
  }

  /** A token reaches its end at this dispatcher: handed over, or nobody waiting for it. */
  lemma EndKeeps(k: Codec, filtering: bool, s: State, rc: Channel, l: DispatchStep, id: Id, fate: Fate)
    requires Inv(k, filtering, s) && DispatchEnabled(s.core, rc, l) && Busy(k, s, rc, id) && (l == Find || l == Leave)
    requires (id in s.hist.responded <==> fate == Delivered) && fate != DroppedAsExpired
    requires var s' := After(k, s, rc, l);
      && Moved(s, s', id, Dispatching, Done(fate)) && s'.hist == s.hist.(stage := s'.hist.stage) && DispatcherInv(k, s', rc)
    ensures Inv(k, filtering, After(k, s, rc, l))
  {
    hide QueuesInv, WorkersInv, StreamsInv, DispatchersInv, CallsInv, RespondedInv, SendsInv, RegistryInv, PromisesInv, HistoryInv;
    var s' := After(k, s, rc, l);
    EndKeepsDispatchers(k, filtering, s, rc, l, id, fate);
    PromisesKeptOutside(k, s, rc, l);
    DispatchStepLeaves(k, s, rc, l);
    hide After, DispatchEnabled, DispatcherInv;
    forall stage | stage != Dispatching && stage != Done(fate) ensures SameStage(s, s', stage) {
      MovedKeeps(s, s', id, Dispatching, Done(fate), stage);
    }
    RestKept(k, filtering, s, rc, l);
    EndKeepsResponded(s, s', id, fate);
    EndKeepsHistory(filtering, s, s', id, fate);
  }

  lemma EndKeepsResponded(s: State, s': State, id: Id, fate: Fate)
    requires RespondedInv(s) && Moved(s, s', id, Dispatching, Done(fate)) && s'.hist.responded == s.hist.responded
    requires id in s.hist.responded <==> fate == Delivered
    ensures RespondedInv(s')
  {
    forall x ensures RespondedOk(s', x) {
      assert RespondedOk(s, x);
    }
  }

  lemma EndKeepsHistory(filtering: bool, s: State, s': State, id: Id, fate: Fate)
    requires HistoryInv(filtering, s) && Moved(s, s', id, Dispatching, Done(fate))
    requires s'.hist == s.hist.(stage := s'.hist.stage) && s'.core.sends == s.core.sends && s'.core.now == s.core.now
    ensures HistoryInv(filtering, s')
  {
  }

  lemma LeaveKeeps(k: Codec, filtering: bool, s: State, rc: Channel)
    requires Inv(k, filtering, s) && DispatchEnabled(s.core, rc, Leave)
    ensures Inv(k, filtering, After(k, s, rc, Leave))
  {
    hide QueuesInv, WorkersInv, StreamsInv, CallsInv, RespondedInv, SendsInv, RegistryInv, PromisesInv, HistoryInv;
    var s' := After(k, s, rc, Leave);
    assert DispatcherInv(k, s, rc);
    var f := s.core.interfaces[rc].dispatcher.frame;
    DispatchStepLeaves(k, s, rc, Leave);
    assert Busy(k, s, rc, f.id) && DispatcherInv(k, s', rc);
    if f.id in s.hist.responded {
      assert Moved(s, s', f.id, Dispatching, Done(Delivered)) && s'.hist == s.hist.(stage := s'.hist.stage);
      hide After, DispatchEnabled, Inv, DispatchersInv, DispatcherInv;
      EndKeeps(k, filtering, s, rc, Leave, f.id, Delivered);
    } else {
      assert s'.hist == s.hist && StageIs(s, f.id, Done(Unclaimed));
      assert s'.core.interfaces[rc].dispatcher == Idle;
      PromisesKeptOutside(k, s, rc, Leave);
      hide After, DispatchEnabled, DispatcherInv;
      UnclaimedLeaveKeepsDispatchers(k, filtering, s, rc, f.id);
      hide Inv, DispatchersInv;
      assert RespondedInv(s') by {
        assert RespondedInv(s) by { InvParts(k, filtering, s); }
        RespondedFrame(s, s');
      }
      StayKeeps(k, filtering, s, rc, Leave);
    }
  }

  lemma UnclaimedLeaveKeepsDispatchers(k: Codec, filtering: bool, s: State, rc: Channel, id: Id)
    requires Inv(k, filtering, s) && DispatchEnabled(s.core, rc, Leave) && Busy(k, s, rc, id)
    requires StageIs(s, id, Done(Unclaimed))
    requires var s' := After(k, s, rc, Leave); s'.hist == s.hist && s'.core.interfaces[rc].dispatcher == Idle
    ensures DispatchersInv(k, After(k, s, rc, Leave))
  {
    var s' := After(k, s, rc, Leave);
    DispatchStepLeaves(k, s, rc, Leave);
    assert forall x :: x in s.hist.stage ==> x in s.core.sends;
    hide QueuesInv, WorkersInv, StreamsInv, CallsInv, RespondedInv, SendsInv, RegistryInv, PromisesInv, HistoryInv, After, DispatchEnabled;
    assert DispatcherInv(k, s', rc);
    forall x | x != id ensures SameToken(s, s', x) {}
    forall x | x in s.core.sends && s.core.sends[x].responseChannel == rc ensures StageIs(s, x, Dispatching) ==> x == id {}
    assert forall x :: StageIs(s', x, Dispatching) ==> x != id && StageIs(s, x, Dispatching);
    hide Inv, DispatchersInv, DispatcherInv, SameToken;
    DispatchersKept(k, filtering, s, rc, Leave, id);
  }

  /** rc's dispatcher is inside the promise that belongs to the response it carries. */
  ghost predicate ItsPromise(s: State, rc: Channel) {
    && rc in s.core.interfaces
    && var d := s.core.interfaces[rc].dispatcher;
       (d.Calling? || d.Storing? || d.Releasing?)
       && d.addr in s.core.promises && s.core.promises[d.addr].id == d.frame.id && PromiseInv(s, d.addr)
  }

  /** What one step of on_response has to leave behind. */
  ghost predicate Inside(k: Codec, s: State, s': State, rc: Channel)
    requires ItsPromise(s, rc)
  {
    var d := s.core.interfaces[rc].dispatcher;
    && d.addr in s'.core.promises && PromiseInv(s', d.addr)
    && rc in s'.core.interfaces && DispatcherInv(k, s', rc)
    && DispatchId(k, s'.core.interfaces[rc].dispatcher) == Some(d.frame.id)
  }

  lemma AtItsPromise(k: Codec, filtering: bool, s: State, rc: Channel, l: DispatchStep)
    requires Inv(k, filtering, s) && DispatchEnabled(s.core, rc, l) && InPromise(l)
    ensures ItsPromise(s, rc) && DispatcherInv(k, s, rc)
    ensures var d := s.core.interfaces[rc].dispatcher; AtPromise(s, rc, d.frame, d.addr)
  {
    var d := s.core.interfaces[rc].dispatcher;
    assert DispatcherInv(k, s, rc);
    assert Waiting(s.core, rc, d.frame.id) && SendOk(s.core, d.frame.id);
    assert PromiseInv(s, d.addr);
  }

  lemma InsideRespondLate(k: Codec, s: State, rc: Channel)
    requires DispatchEnabled(s.core, rc, Respond) && DispatcherInv(k, s, rc) && ItsPromise(s, rc)
    requires s.core.now > s.core.promises[s.core.interfaces[rc].dispatcher.addr].p.validUntil
    ensures Inside(k, s, After(k, s, rc, Respond), rc)
  {
    var s' := After(k, s, rc, Respond);
    assert Extends(s, s');
    AnswerStable(s, s', rc, s.core.interfaces[rc].dispatcher.frame);
    hide Extends, Promise.Inv, GoodAnswer;
  }

  lemma InsideRespond(k: Codec, s: State, rc: Channel)
    requires DispatchEnabled(s.core, rc, Respond) && DispatcherInv(k, s, rc) && ItsPromise(s, rc)
    ensures Inside(k, s, After(k, s, rc, Respond), rc)
  {
    var s' := After(k, s, rc, Respond);
    var d := s.core.interfaces[rc].dispatcher;
    var p := s.core.promises[d.addr].p;
    if s.core.now > p.validUntil {
      InsideRespondLate(k, s, rc);
      hide Inside, After;
    } else {
      assert Extends(s, s');
      AnswerStable(s, s', rc, d.frame);
      hide Extends, Promise.Inv, GoodAnswer;
      Promise.StepKeepsInv(p, s.core.now, Promise.Accept(d.frame.payload));
    }
  }

  lemma InsideStore(k: Codec, s: State, rc: Channel)
    requires DispatchEnabled(s.core, rc, Store) && DispatcherInv(k, s, rc) && ItsPromise(s, rc)
    ensures Inside(k, s, After(k, s, rc, Store), rc)
  {
    var s' := After(k, s, rc, Store);
    var d := s.core.interfaces[rc].dispatcher;
    var p := s.core.promises[d.addr].p;
    assert Extends(s, s');
    AnswerStable(s, s', rc, d.frame);
    hide Extends, Promise.Inv, GoodAnswer;
    Promise.StepKeepsInv(p, s.core.now, Promise.Store);
  }

  lemma InsideRelease(k: Codec, s: State, rc: Channel)
    requires DispatchEnabled(s.core, rc, Release) && DispatcherInv(k, s, rc) && ItsPromise(s, rc)
    ensures Inside(k, s, After(k, s, rc, Release), rc)
  {
    var s' := After(k, s, rc, Release);
    var d := s.core.interfaces[rc].dispatcher;
    var p := s.core.promises[d.addr].p;
    assert Extends(s, s');
    AnswerStable(s, s', rc, d.frame);
    hide Extends, Promise.Inv, GoodAnswer;
    Promise.StepKeepsInv(p, s.core.now, Promise.Unlock);
  }

  lemma InPromiseKeeps(k: Codec, filtering: bool, s: State, rc: Channel, l: DispatchStep)
    requires Inv(k, filtering, s) && DispatchEnabled(s.core, rc, l) && InPromise(l)
    ensures Inv(k, filtering, After(k, s, rc, l))
  {
    hide QueuesInv, WorkersInv, StreamsInv, DispatchersInv, CallsInv, RespondedInv, SendsInv, RegistryInv, PromisesInv, HistoryInv;
    var s' := After(k, s, rc, l);
    var d := s.core.interfaces[rc].dispatcher;
    DispatchStepLeaves(k, s, rc, l);
    DispatchStepInPromise(k, s, rc, l);
    AtItsPromise(k, filtering, s, rc, l);
    match l {
      case Respond => InsideRespond(k, s, rc);
      case Store => InsideStore(k, s, rc);
      case Release => InsideRelease(k, s, rc);
    }
    assert Busy(k, s, rc, d.frame.id);
    assert RespondedInv(s') by { RespondedFrame(s, s'); }
    hide After, DispatchEnabled, DispatcherInv, PromiseInv, AtPromise;
    PromisesFrameBut(s, s', rc, Some(d.addr));
    hide Inv;
    StayKeepsDispatchers(k, filtering, s, rc, l, d.frame.id);
    StayKeeps(k, filtering, s, rc, l);
  }

  lemma DispatchStepKeepsInv(k: Codec, filtering: bool, s: State, rc: Channel, l: DispatchStep)
    requires Inv(k, filtering, s) && Enabled(s.core, Dispatch(rc, l))
    ensures Inv(k, filtering, Step(k, filtering, s, Dispatch(rc, l)))
  {
    hide Inv, DispatchEnabled;
    match l {
      case Take => TakeKeeps(k, filtering, s, rc);
      case Claim => ClaimKeeps(k, filtering, s, rc);
      case Find => FindKeeps(k, filtering, s, rc);
      case Leave => LeaveKeeps(k, filtering, s, rc);
      case _ => InPromiseKeeps(k, filtering, s, rc, l);
    }
  }
}
