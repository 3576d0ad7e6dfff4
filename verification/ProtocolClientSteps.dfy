/** The steps of the application threads, and the passing of time, keep the invariant. */
module ProtocolClientSteps {
  import opened Common
  import opened Frames
  import opened Protocol
  import opened ProtocolInv
  import opened ProtocolFrames
  import Promise

  lemma QuietKeeps(k: Codec, filtering: bool, s: State, s': State)
    requires QueuesInv(k, s) && WorkersInv(k, s) && StreamsInv(k, s) && DispatchersInv(k, s) && CallsInv(s) && RespondedInv(s)
    requires HistoryInv(filtering, s)
    requires Extends(s, s') && s'.hist == s.hist
    requires s'.core.queues == s.core.queues && s'.core.workers == s.core.workers && SameStreams(s, s')
    requires forall rc :: rc in s.core.interfaces ==> DispatcherUntouched(s, s', rc)
    requires forall rc :: rc in s'.core.interfaces && rc !in s.core.interfaces ==> s'.core.interfaces[rc].dispatcher == Idle
    requires forall id :: id in s'.core.sends && s'.core.sends[id].pc == Sent ==> id in s.core.sends && s.core.sends[id].pc == Sent
    ensures QueuesInv(k, s') && WorkersInv(k, s') && StreamsInv(k, s') && DispatchersInv(k, s') && CallsInv(s') && RespondedInv(s')
    ensures HistoryInv(filtering, s')
  {
    hide QueuesInv, WorkersInv, StreamsInv, DispatchersInv, CallsInv, RespondedInv, HistoryInv;
    hide Extends, DispatcherUntouched, SameStreams;
    QueuesFrame(k, s, s');
    WorkersFrame(k, s, s');
    StreamsFrame(k, s, s');
    DispatchersFrame(k, s, s');
    CallsFrame(s, s');
    RespondedFrame(s, s');
    HistoryFrame(filtering, s, s');
  }

  lemma TickKeeps(k: Codec, filtering: bool, s: State, now: int)
    requires Inv(k, filtering, s) && s.core.now <= now
    ensures Inv(k, filtering, State(s.core.(now := now), s.hist))
  {
    hide QueuesInv, WorkersInv, StreamsInv, DispatchersInv, CallsInv, RespondedInv, PromisesInv, SendsInv, RegistryInv, HistoryInv;
    var s' := State(s.core.(now := now), s.hist);
    SendsFrame(s.core, s'.core);
    RegistryFrame(s.core, s'.core);
    QuietKeeps(k, filtering, s, s');
    PromisesFrame(s, s');
  }

  lemma OpenKeeps(k: Codec, filtering: bool, s: State, rc: Channel)
    requires Inv(k, filtering, s) && ClientEnabled(s.core, Open(rc))
    ensures Inv(k, filtering, State(ClientApply(k, s.core, Open(rc)), s.hist))
  {
    hide QueuesInv, WorkersInv, StreamsInv, DispatchersInv, CallsInv, RespondedInv, PromisesInv, SendsInv, RegistryInv, HistoryInv;
    var s' := State(ClientApply(k, s.core, Open(rc)), s.hist);
    SendsFrame(s.core, s'.core);
    RegistryFrame(s.core, s'.core);
    QuietKeeps(k, filtering, s, s');
    PromisesFrame(s, s');
  }

  lemma ConfirmKeeps(k: Codec, filtering: bool, s: State, rc: Channel)
    requires Inv(k, filtering, s) && ClientEnabled(s.core, Confirm(rc))
    ensures Inv(k, filtering, State(ClientApply(k, s.core, Confirm(rc)), s.hist))
  {
    hide QueuesInv, WorkersInv, StreamsInv, DispatchersInv, CallsInv, RespondedInv, PromisesInv, SendsInv, RegistryInv, HistoryInv;
    var s' := State(ClientApply(k, s.core, Confirm(rc)), s.hist);
    SendsFrame(s.core, s'.core);
    RegistryFrame(s.core, s'.core);
    QuietKeeps(k, filtering, s, s');
    PromisesFrame(s, s');
  }

  lemma CreateKeepsRecords(k: Codec, c: Core, l: ClientStep)
    requires SendsInv(c) && RegistryInv(c) && l.Create? && ClientEnabled(c, l)
    ensures SendsInv(ClientApply(k, c, l)) && RegistryInv(ClientApply(k, c, l))
  {
    var c' := ClientApply(k, c, l);
    forall x | x in c'.sends ensures SendOk(c', x) {
      assert x in c.sends ==> SendOk(c, x);
    }
    forall a | a in c'.promises ensures PromiseOwned(c', a) {
      assert a in c.promises ==> PromiseOwned(c, a);
    }
    forall rc, x | Waiting(c', rc, x)
      ensures RegisteredAlive(c', x) && c'.sends[x].responseChannel == rc && c'.interfaces[rc].registry[x] == c'.sends[x].addr
    {
      assert Waiting(c, rc, x) ==> RegisteredAlive(c, x) && SendOk(c, x);
    }
    forall x | RegisteredAlive(c', x) ensures Waiting(c', c'.sends[x].responseChannel, x) {
      assert RegisteredAlive(c, x) ==> Waiting(c, c.sends[x].responseChannel, x);
    }
  }

  lemma CreateKeeps(k: Codec, filtering: bool, s: State, l: ClientStep)
    requires Inv(k, filtering, s) && l.Create? && ClientEnabled(s.core, l)
    ensures Inv(k, filtering, State(ClientApply(k, s.core, l), s.hist))
  {
    hide QueuesInv, WorkersInv, StreamsInv, DispatchersInv, CallsInv, RespondedInv, SendsInv, RegistryInv, HistoryInv;
    var s' := State(ClientApply(k, s.core, l), s.hist);
    CreateKeepsRecords(k, s.core, l);
    QuietKeeps(k, filtering, s, s');
    Promise.FreshInv(s.core.now + l.timeout);
    forall a | a in s'.core.promises ensures PromiseInv(s', a) {
      assert a in s.core.promises ==> PromiseInv(s, a);
      if a != l.addr {
        PromiseFrame(s, s', a);
      }
    }
  }

  lemma RegisterKeepsRecords(k: Codec, c: Core, id: Id)
    requires SendsInv(c) && RegistryInv(c) && ClientEnabled(c, Register(id))
    ensures SendsInv(ClientApply(k, c, Register(id))) && RegistryInv(ClientApply(k, c, Register(id)))
  {
    var c' := ClientApply(k, c, Register(id));
    forall x | x in c'.sends ensures SendOk(c', x) {
      assert x in c.sends ==> SendOk(c, x);
    }
    forall a | a in c'.promises ensures PromiseOwned(c', a) {
      assert a in c.promises ==> PromiseOwned(c, a);
    }
    forall rc, x | Waiting(c', rc, x)
      ensures RegisteredAlive(c', x) && c'.sends[x].responseChannel == rc && c'.interfaces[rc].registry[x] == c'.sends[x].addr
    {
      assert Waiting(c, rc, x) ==> RegisteredAlive(c, x) && SendOk(c, x);
    }
    forall x | RegisteredAlive(c', x) ensures Waiting(c', c'.sends[x].responseChannel, x) {
      assert RegisteredAlive(c, x) ==> Waiting(c, c.sends[x].responseChannel, x);
    }
  }

  lemma RegisterKeeps(k: Codec, filtering: bool, s: State, id: Id)
    requires Inv(k, filtering, s) && ClientEnabled(s.core, Register(id))
    ensures Inv(k, filtering, State(ClientApply(k, s.core, Register(id)), s.hist))
  {
    hide QueuesInv, WorkersInv, StreamsInv, DispatchersInv, CallsInv, RespondedInv, SendsInv, RegistryInv, HistoryInv, PromisesInv;
    var s' := State(ClientApply(k, s.core, Register(id)), s.hist);
    RegisterKeepsRecords(k, s.core, id);
    QuietKeeps(k, filtering, s, s');
    PromisesFrame(s, s');
  }

  lemma DestroyKeepsRecords(k: Codec, c: Core, id: Id)
    requires SendsInv(c) && RegistryInv(c) && ClientEnabled(c, Destroy(id))
    ensures SendsInv(ClientApply(k, c, Destroy(id))) && RegistryInv(ClientApply(k, c, Destroy(id)))
  {
    var c' := ClientApply(k, c, Destroy(id));
    assert SendOk(c, id);
    forall x | x in c'.sends ensures SendOk(c', x) {
      assert x in c.sends ==> SendOk(c, x);
    }
    forall a | a in c'.promises ensures PromiseOwned(c', a) {
      assert a in c.promises ==> PromiseOwned(c, a);
    }
    forall rc, x | Waiting(c', rc, x)
      ensures RegisteredAlive(c', x) && c'.sends[x].responseChannel == rc && c'.interfaces[rc].registry[x] == c'.sends[x].addr
    {
      assert Waiting(c, rc, x) ==> RegisteredAlive(c, x) && SendOk(c, x);
    }
    forall x | RegisteredAlive(c', x) ensures Waiting(c', c'.sends[x].responseChannel, x) {
      assert RegisteredAlive(c, x) ==> Waiting(c, c.sends[x].responseChannel, x);
    }
  }

  lemma DestroyKeeps(k: Codec, filtering: bool, s: State, id: Id)
    requires Inv(k, filtering, s) && ClientEnabled(s.core, Destroy(id))
    ensures Inv(k, filtering, State(ClientApply(k, s.core, Destroy(id)), s.hist))
  {
    hide QueuesInv, WorkersInv, StreamsInv, DispatchersInv, CallsInv, RespondedInv, SendsInv, RegistryInv, HistoryInv;
    var s' := State(ClientApply(k, s.core, Destroy(id)), s.hist);
    DestroyKeepsRecords(k, s.core, id);
    QuietKeeps(k, filtering, s, s');
    forall a | a in s'.core.promises ensures PromiseInv(s', a) {
      assert a in s.core.promises ==> PromiseInv(s, a);
      PromiseFrame(s, s', a);
    }
  }

  lemma ReadKeepsPromises(k: Codec, s: State, id: Id, step: Promise.Label)
    requires PromisesInv(s) && ClientEnabled(s.core, Read(id, step))
    ensures PromisesInv(State(ClientApply(k, s.core, Read(id, step)), s.hist))
    ensures SamePromises(s.core, ClientApply(k, s.core, Read(id, step)))
    ensures var a := s.core.sends[id].addr; var p' := ClientApply(k, s.core, Read(id, step)).promises[a].p;
      p'.accepted == s.core.promises[a].p.accepted && p'.responder == s.core.promises[a].p.responder
  {
    hide Promise.Enabled, Promise.Apply, Promise.Inv;
    var s' := State(ClientApply(k, s.core, Read(id, step)), s.hist);
    var addr := s.core.sends[id].addr;
    var p := s.core.promises[addr].p;
    assert PromiseInv(s, addr);
    Promise.ReadersLeaveResponder(p, s.core.now, step);
    Promise.StepKeepsInv(p, s.core.now, step);
    forall a | a in s'.core.promises ensures PromiseInv(s', a) {
      assert PromiseInv(s, a);
      if a != addr {
        PromiseFrame(s, s', a);
      }
    }
  }

  lemma ReadKeeps(k: Codec, filtering: bool, s: State, id: Id, step: Promise.Label)
    requires Inv(k, filtering, s) && ClientEnabled(s.core, Read(id, step))
    ensures Inv(k, filtering, State(ClientApply(k, s.core, Read(id, step)), s.hist))
  {
    hide QueuesInv, WorkersInv, StreamsInv, DispatchersInv, CallsInv, RespondedInv, SendsInv, RegistryInv, HistoryInv, PromisesInv;
    hide Promise.Enabled, Promise.Apply;
    var s' := State(ClientApply(k, s.core, Read(id, step)), s.hist);
    ReadKeepsPromises(k, s, id, step);
    SendsFrame(s.core, s'.core);
    RegistryFrame(s.core, s'.core);
    QuietKeeps(k, filtering, s, s');
  }

  lemma SendKeepsRecords(k: Codec, c: Core, id: Id)
    requires SendsInv(c) && RegistryInv(c) && ClientEnabled(c, Send(id))
    ensures SendsInv(ClientApply(k, c, Send(id))) && RegistryInv(ClientApply(k, c, Send(id)))
  {
    var c' := ClientApply(k, c, Send(id));
    forall x | x in c'.sends ensures SendOk(c', x) {
      assert x in c.sends ==> SendOk(c, x);
    }
    forall a | a in c'.promises ensures PromiseOwned(c', a) {
      assert a in c.promises ==> PromiseOwned(c, a);
    }
    forall rc, x | Waiting(c', rc, x)
      ensures RegisteredAlive(c', x) && c'.sends[x].responseChannel == rc && c'.interfaces[rc].registry[x] == c'.sends[x].addr
    {
      assert Waiting(c, rc, x) ==> RegisteredAlive(c, x) && SendOk(c, x);
    }
    forall x | RegisteredAlive(c', x) ensures Waiting(c', c'.sends[x].responseChannel, x) {
      assert RegisteredAlive(c, x) ==> Waiting(c, c.sends[x].responseChannel, x);
    }
  }

  function AfterSend(k: Codec, s: State, id: Id): State
    requires ClientEnabled(s.core, Send(id))
  {
    State(ClientApply(k, s.core, Send(id)), Move(s.hist, Some(id), Queued))
  }

  lemma SendKeepsQueues(k: Codec, s: State, id: Id)
    requires Faithful(k) && QueuesInv(k, s) && SendsInv(s.core) && ClientEnabled(s.core, Send(id)) && id !in s.hist.stage
    ensures QueuesInv(k, AfterSend(k, s, id))
  {
    var s' := AfterSend(k, s, id);
    var r := s.core.sends[id];
    var wire := k.encodeRequest(FrameOf(id, r));
    assert SendOk(s.core, id);
    assert k.decodeRequest(wire) == Some(FrameOf(id, r));
    forall ch, i: nat ensures QueueOk(k, s', ch, i) {
      assert QueueOk(k, s, ch, i);
      if i < |Queue(s.core, ch)| {
        assert Queue(s'.core, ch)[i] == Queue(s.core, ch)[i];
        FrameStable(s, s', ch, k.decodeRequest(Queue(s.core, ch)[i]).value);
      }
    }
    forall ch, i: nat, j: nat ensures QueueDistinct(k, s'.core, ch, i, j) {
      assert QueueDistinct(k, s.core, ch, i, j) && QueueOk(k, s, ch, i);
      if i < j < |Queue(s'.core, ch)| {
        assert Queue(s'.core, ch)[i] == Queue(s.core, ch)[i];
      }
    }
  }

  lemma SendKeepsHistory(k: Codec, filtering: bool, s: State, id: Id)
    requires HistoryInv(filtering, s) && ClientEnabled(s.core, Send(id))
    ensures HistoryInv(filtering, AfterSend(k, s, id)) && id !in s.hist.stage
  {
  }

  lemma SendKeeps(k: Codec, filtering: bool, s: State, id: Id)
    requires Faithful(k) && Inv(k, filtering, s) && ClientEnabled(s.core, Send(id))
    ensures Inv(k, filtering, AfterSend(k, s, id))
  {
    var s' := AfterSend(k, s, id);
    hide QueuesInv, WorkersInv, StreamsInv, DispatchersInv, CallsInv, RespondedInv, SendsInv, RegistryInv, HistoryInv, PromisesInv;
    SendKeepsRecords(k, s.core, id);
    SendKeepsHistory(k, filtering, s, id);
    SendKeepsQueues(k, s, id);
    assert forall x, stage :: x != id ==> (StageIs(s, x, stage) <==> StageIs(s', x, stage));
    WorkersFrame(k, s, s');
    StreamsFrame(k, s, s');
    DispatchersFrame(k, s, s');
    CallsFrame(s, s');
    RespondedFrame(s, s');
    PromisesFrame(s, s');
  }

  lemma ClientStepExtends(k: Codec, s: State, l: ClientStep)
    requires ClientEnabled(s.core, l)
    ensures Extends(s, State(ClientApply(k, s.core, l), if l.Send? then Move(s.hist, Some(l.id), Queued) else s.hist))
  {
    hide Promise.Apply, Promise.Enabled;
  }

  lemma ClientStepKeepsInv(k: Codec, filtering: bool, s: State, l: ClientStep)
    requires Faithful(k) && Inv(k, filtering, s) && Enabled(s.core, Client(l))
    ensures Inv(k, filtering, Step(k, filtering, s, Client(l)))
  {
    hide Inv;
    match l {
      case Open(rc) => OpenKeeps(k, filtering, s, rc);
      case Confirm(rc) => ConfirmKeeps(k, filtering, s, rc);
      case Create(_, _, _, _, _, _) => CreateKeeps(k, filtering, s, l);
      case Register(id) => RegisterKeeps(k, filtering, s, id);
      case Send(id) => SendKeeps(k, filtering, s, id);
      case Read(id, step) => ReadKeeps(k, filtering, s, id, step);
      case Destroy(id) => DestroyKeeps(k, filtering, s, id);
    }
  }
}
