/** The two systems, with and without the expiry filter, simulate each other. */
module TransparencyTheorems {
  import opened Common
  import opened Frames
  import opened Protocol
  import opened ProtocolInv
  import opened ProtocolFrames
  import opened ProtocolTheorems
  import opened Transparency
  import ProtocolWorkerSteps
  import ProtocolDispatchSteps
  import ProtocolDrain
  import Promise

  ghost predicate Unanswered(c: Core, id: Id) {
    id in c.sends && c.sends[id].addr in c.promises && c.promises[c.sends[id].addr].p.accepted == []
  }

  /** No promise of a request found expired has accepted a response. */
  ghost predicate NeverAnswered(s: State) {
    forall id {:trigger Unanswered(s.core, id)} :: id in s.hist.expired ==> Unanswered(s.core, id)
  }

  lemma ClientKeepsUnanswered(k: Codec, s: State, l: ClientStep, id: Id)
    requires ClientEnabled(s.core, l) && SendsInv(s.core) && Unanswered(s.core, id)
    ensures Unanswered(ClientApply(k, s.core, l), id)
  {
    assert SendOk(s.core, id);
    if l.Read? {
      var p := s.core.promises[s.core.sends[l.id].addr].p;
      Promise.ReadersLeaveResponder(p, s.core.now, l.step);
    }
    hide Promise.Apply, Promise.Enabled;
  }

  /** Marking happens at a worker, and a request at a worker has not been answered yet. */
  lemma FilterMarksUnanswered(k: Codec, filtering: bool, s: State, w: Worker)
    requires Inv(k, filtering, s) && WorkerEnabled(s.core, w, Filter)
    ensures k.decodeRequest(s.core.workers[w].wire).Some?
    ensures var id := RequestId(k, s.core.workers[w].wire); Unanswered(s.core, id) && id !in s.hist.expired && OnlyAt(k, s.core, w, id)
  {
    assert WorkerInv(k, s, w);
    var id := RequestId(k, s.core.workers[w].wire);
    assert SendOk(s.core, id) && RespondedOk(s, id);
    assert PromiseInv(s, s.core.sends[id].addr);
    forall rc, i | rc in s.core.interfaces && 0 <= i < |s.core.interfaces[rc].stream|
      ensures ResponseIdOr(k, s.core.interfaces[rc].stream[i]) != Some(id)
    {
      assert StreamOk(k, s, rc, i);
    }
    forall rc | rc in s.core.interfaces ensures DispatchId(k, s.core.interfaces[rc].dispatcher) != Some(id) {
      assert DispatcherInv(k, s, rc);
    }
    forall w' | w' in s.core.workers && w' != w && !s.core.workers[w'].Popped? ensures s.core.workers[w'].frame.id != id {
      assert WorkerInv(k, s, w');
    }
  }

  /** A request found expired is past its promise's deadline. */
  lemma ExpiredIsLate(k: Codec, filtering: bool, s: State, rc: Channel)
    requires Inv(k, filtering, s) && DispatchEnabled(s.core, rc, Respond)
    requires s.core.interfaces[rc].dispatcher.frame.id in s.hist.expired
    ensures s.core.now > s.core.promises[s.core.interfaces[rc].dispatcher.addr].p.validUntil
  {
    var d := s.core.interfaces[rc].dispatcher;
    assert DispatcherInv(k, s, rc);
    assert Waiting(s.core, rc, d.frame.id) && SendOk(s.core, d.frame.id);
  }

  lemma DispatchKeepsUnanswered(k: Codec, filtering: bool, s: State, rc: Channel, l: DispatchStep, id: Id)
    requires Inv(k, filtering, s) && DispatchEnabled(s.core, rc, l) && id in s.hist.expired && Unanswered(s.core, id)
    ensures Unanswered(DispatchApply(k, s.core, rc, l), id)
  {
    if ProtocolDispatchSteps.InPromise(l) {
      var d := s.core.interfaces[rc].dispatcher;
      ProtocolDispatchSteps.AtItsPromise(k, filtering, s, rc, l);
      ProtocolDispatchSteps.DispatchStepInPromise(k, s, rc, l);
      ProtocolDispatchSteps.DispatchStepLeaves(k, s, rc, l);
      assert SendOk(s.core, id);
      if l == Respond && d.frame.id == id {
        ExpiredIsLate(k, filtering, s, rc);
      }
      hide Inv;
      ProtocolDrain.InsideEffect(k, s, rc, l);
      hide DispatchApply, DispatchEnabled;
    } else {
      ProtocolDispatchSteps.ApplyLeaves(k, s.core, rc, l);
    }
  }

  lemma NeverAnsweredKept(k: Codec, filtering: bool, s: State, l: Label)
    requires Inv(k, filtering, s) && NeverAnswered(s) && Enabled(s.core, l)
    ensures NeverAnswered(Step(k, filtering, s, l))
  {
    var s' := Step(k, filtering, s, l);
    forall id | id in s'.hist.expired ensures Unanswered(s'.core, id) {
      assert id in s.hist.expired ==> Unanswered(s.core, id);
      match l {
        case Tick(_) =>
        case Client(step) =>
          assert SendsInv(s.core);
          hide Inv, ClientApply, ClientEnabled;
          ClientKeepsUnanswered(k, s, step, id);
        case Consume(w, step) =>
          ProtocolWorkerSteps.WorkerStepLeaves(k, filtering, s, w, step);
          if step == Filter {
            FilterMarksUnanswered(k, filtering, s, w);
          }
          hide Inv;
        case Dispatch(rc, step) =>
          ProtocolDispatchSteps.DispatchStepLeaves(k, s, rc, step);
          DispatchKeepsUnanswered(k, filtering, s, rc, step, id);
          hide Inv, DispatchApply, DispatchEnabled;
      }
    }
  }

  /** The steps that only concern zombies. */
  predicate Invisible(k: Codec, c: Core, z: set<Id>, l: Label)
    requires Enabled(c, l)
  {
    match l
    case Consume(w, step) => w in c.workers && WorkZombie(c.workers[w], z)
    case Dispatch(rc, step) =>
      if step == Take then WireZombie(k, c.interfaces[rc].stream[0], z) else DispatchZombie(k, c.interfaces[rc].dispatcher, z)
    case _ => false
  }

  lemma WorkIsBase62(k: Codec, filtering: bool, s: State, w: Worker)
    requires Inv(k, filtering, s) && w in s.core.workers && !s.core.workers[w].Popped?
    ensures Base62(s.core.workers[w].frame.id)
  {
    assert WorkerInv(k, s, w);
    assert SendOk(s.core, s.core.workers[w].frame.id);
  }

  lemma WorkerForward(k: Codec, s: State, w: Worker, l: WorkerStep)
    requires Faithful(k) && Inv(k, false, s) && WorkerEnabled(s.core, w, l)
    requires !(w in s.core.workers && WorkZombie(s.core.workers[w], s.hist.expired))
    ensures WorkerEnabled(Strip(k, s.core, s.hist.expired), w, l)
    ensures var s' := ProtocolWorkerSteps.After(k, false, s, w, l);
      WorkerApply(k, true, Strip(k, s.core, s.hist.expired), w, l) == Strip(k, s'.core, s'.hist.expired)
  {
    if l == Filter {
      FilterMarksUnanswered(k, false, s, w);
      hide Inv, Strip, OnlyAt, Faithful;
      StripFilter(k, s.core, s.hist.expired, w);
    } else {
      if l == Publish {
        WorkIsBase62(k, false, s, w);
      }
      hide Inv, Strip, Faithful;
      StripWorker(k, s.core, s.hist.expired, w, l);
    }
  }

  lemma WorkerInvisible(k: Codec, s: State, w: Worker, l: WorkerStep)
    requires Faithful(k) && Inv(k, false, s) && WorkerEnabled(s.core, w, l)
    requires w in s.core.workers && WorkZombie(s.core.workers[w], s.hist.expired)
    ensures var s' := ProtocolWorkerSteps.After(k, false, s, w, l);
      Strip(k, s'.core, s'.hist.expired) == Strip(k, s.core, s.hist.expired)
  {
    WorkIsBase62(k, false, s, w);
    hide Inv, Strip, Faithful;
    StripZombieWorker(k, s.core, s.hist.expired, w, l);
  }

  lemma DispatchForward(k: Codec, s: State, rc: Channel, l: DispatchStep)
    requires Inv(k, false, s) && DispatchEnabled(s.core, rc, l) && !Invisible(k, s.core, s.hist.expired, Dispatch(rc, l))
    ensures DispatchEnabled(Strip(k, s.core, s.hist.expired), rc, l)
    ensures DispatchApply(k, Strip(k, s.core, s.hist.expired), rc, l) == Strip(k, DispatchApply(k, s.core, rc, l), s.hist.expired)
  {
    assert DispatcherInv(k, s, rc);
    hide Inv, Strip, DispatchApply;
    StripDispatch(k, s.core, s.hist.expired, rc, l);
  }

  lemma DispatchInvisible(k: Codec, s: State, rc: Channel, l: DispatchStep)
    requires Inv(k, false, s) && NeverAnswered(s)
    requires DispatchEnabled(s.core, rc, l) && Invisible(k, s.core, s.hist.expired, Dispatch(rc, l))
    ensures Strip(k, DispatchApply(k, s.core, rc, l), s.hist.expired) == Strip(k, s.core, s.hist.expired)
  {
    var d := s.core.interfaces[rc].dispatcher;
    if ProtocolDispatchSteps.InPromise(l) {
      ProtocolDispatchSteps.AtItsPromise(k, false, s, rc, l);
      assert SendOk(s.core, d.frame.id) && Unanswered(s.core, d.frame.id);
      assert Waiting(s.core, rc, d.frame.id);
      if l == Respond {
        ExpiredIsLate(k, false, s, rc);
      }
      assert l != Store && l != Release;
    }
    hide Inv, Strip, DispatchApply, NeverAnswered;
    StripZombieDispatch(k, s.core, s.hist.expired, rc, l);
  }

  /**
   One step of the system without filter: invisible once the zombies are taken out, or the same step of the
   system with filter.
   */
  lemma ForwardStep(k: Codec, s: State, l: Label)
    requires Faithful(k) && Inv(k, false, s) && NeverAnswered(s) && Enabled(s.core, l)
    ensures var s' := Step(k, false, s, l); var c := Strip(k, s.core, s.hist.expired); var c' := Strip(k, s'.core, s'.hist.expired);
      if Invisible(k, s.core, s.hist.expired, l) then c' == c else Enabled(c, l) && Apply(k, true, c, l) == c'
  {
    match l {
      case Tick(_) =>
      case Client(step) =>
        hide Inv, Strip, Faithful, ClientApply, ClientEnabled;
        StripClient(k, s.core, s.hist.expired, step);
      case Consume(w, step) =>
        hide Inv, Strip, Faithful, WorkerApply, WorkerEnabled;
        if Invisible(k, s.core, s.hist.expired, l) {
          WorkerInvisible(k, s, w, step);
        } else {
          WorkerForward(k, s, w, step);
        }
      case Dispatch(rc, step) =>
        ProtocolDispatchSteps.DispatchStepLeaves(k, s, rc, step);
        hide Inv, Strip, Faithful, DispatchApply, DispatchEnabled;
        if Invisible(k, s.core, s.hist.expired, l) {
          DispatchInvisible(k, s, rc, step);
        } else {
          DispatchForward(k, s, rc, step);
        }
    }
  }

  lemma RunExtends(k: Codec, filtering: bool, now: int, ls: seq<Label>, more: seq<Label>)
    requires Run(k, filtering, now, ls).Some?
    ensures Run(k, filtering, now, ls + more) == Continue(k, filtering, Run(k, filtering, now, ls).value, more)
  {
    ProtocolDrain.ContinueConcat(k, filtering, Init(now), ls, more);
  }

  lemma {:induction false} ContinueKeepsNeverAnswered(k: Codec, filtering: bool, s: State, ls: seq<Label>)
    requires Faithful(k) && Inv(k, filtering, s) && NeverAnswered(s) && Continue(k, filtering, s, ls).Some?
    ensures NeverAnswered(Continue(k, filtering, s, ls).value)
  {
    hide Inv, NeverAnswered, Step, Enabled, Faithful;
    if ls != [] {
      var init := ls[..|ls| - 1];
      ContinueKeepsNeverAnswered(k, filtering, s, init);
      ContinueKeepsInv(k, filtering, s, init);
      NeverAnsweredKept(k, filtering, Continue(k, filtering, s, init).value, ls[|ls| - 1]);
    }
  }

  /** Whatever the handler finds expired, the promise refuses: an expired request is never answered, filter or not. */
  lemma ExpiredIsNeverAnswered(k: Codec, filtering: bool, now: int, ls: seq<Label>, id: Id)
    requires Faithful(k) && Run(k, filtering, now, ls).Some? && id in Run(k, filtering, now, ls).value.hist.expired
    ensures var c := Run(k, filtering, now, ls).value.core;
      Unanswered(c, id) && var p := c.promises[c.sends[id].addr].p; p.locked && Promise.Takers(p) == {}
  {
    var s := Run(k, filtering, now, ls).value;
    InitInv(k, filtering, now);
    assert NeverAnswered(Init(now));
    RunInv(k, filtering, now, ls);
    ContinueKeepsNeverAnswered(k, filtering, Init(now), ls);
    assert Unanswered(s.core, id);
    assert PromiseInv(s, s.core.sends[id].addr);
  }

  /** The schedule without the steps that handle requests found expired, which are those the filter makes impossible. */
  ghost function WithoutZombies(k: Codec, now: int, ls: seq<Label>): seq<Label>
    requires Run(k, false, now, ls).Some?
  {
    if ls == [] then []
    else
      var s := Run(k, false, now, ls[..|ls| - 1]).value;
      WithoutZombies(k, now, ls[..|ls| - 1])
        + if Invisible(k, s.core, s.hist.expired, ls[|ls| - 1]) then [] else [ls[|ls| - 1]]
  }

  /**
   Every run without filter, freed of its zombies, is a run with filter: for every schedule, leaving out the steps that handle
   expired requests gives a schedule of the system with filter, and it ends in the same state but for the zombies.
   */
  lemma {:induction false} UnfilteredIsFiltered(k: Codec, now: int, ls: seq<Label>)
    requires Faithful(k) && Run(k, false, now, ls).Some?
    ensures var s := Run(k, false, now, ls).value; var t := Run(k, true, now, WithoutZombies(k, now, ls));
      t.Some? && t.value.core == Strip(k, s.core, s.hist.expired)
  {
    if ls == [] {
      assert Strip(k, Init(now).core, {}) == Init(now).core;
    } else {
      var init := ls[..|ls| - 1];
      var l := ls[|ls| - 1];
      var prev := Run(k, false, now, init).value;
      UnfilteredIsFiltered(k, now, init);
      RunInv(k, false, now, init);
      assert NeverAnswered(prev) by {
        InitInv(k, false, now);
        assert NeverAnswered(Init(now));
        hide Inv, NeverAnswered, Step, Enabled, Faithful;
        ContinueKeepsNeverAnswered(k, false, Init(now), init);
      }
      hide Inv, NeverAnswered, Strip, Apply, Enabled, Faithful, Invisible;
      ForwardStep(k, prev, l);
      var shorter := WithoutZombies(k, now, init);
      if !Invisible(k, prev.core, prev.hist.expired, l) {
        var t := Run(k, true, now, shorter).value;
        ProtocolDrain.ContinueOne(k, true, t, l);
        RunExtends(k, true, now, shorter, [l]);
      } else {
        assert WithoutZombies(k, now, ls) == shorter + [] == shorter;
      }
    }
  }

  /** No zombie at a worker or a dispatcher; there may be some in the response streams. */
  ghost predicate Clean(k: Codec, s: State) {
    && (forall w :: w in s.core.workers ==> !WorkZombie(s.core.workers[w], s.hist.expired))
    && (forall rc :: rc in s.core.interfaces ==> !DispatchZombie(k, s.core.interfaces[rc].dispatcher, s.hist.expired))
  }

  lemma CleanEnabled(k: Codec, s: State, l: Label)
    requires Clean(k, s) && Enabled(Strip(k, s.core, s.hist.expired), l)
    requires l.Dispatch? ==> l.dispatch != Take
    ensures Enabled(s.core, l) && !Invisible(k, s.core, s.hist.expired, l)
  {
    assert StripWorkers(s.core.workers, s.hist.expired) == s.core.workers;
    hide Promise.Enabled, Promise.Apply;
  }

  lemma CleanKeptByClient(k: Codec, c: Core, z: set<Id>, l: ClientStep, rc: Channel)
    requires ClientEnabled(c, l) && rc in ClientApply(k, c, l).interfaces
    requires rc in c.interfaces ==> !DispatchZombie(k, c.interfaces[rc].dispatcher, z)
    ensures !DispatchZombie(k, ClientApply(k, c, l).interfaces[rc].dispatcher, z)
  {
    hide Promise.Apply, Promise.Enabled;
  }

  lemma CleanKeptByWorker(k: Codec, s: State, w: Worker, l: WorkerStep)
    requires Inv(k, false, s) && Clean(k, s) && WorkerEnabled(s.core, w, l)
    requires ProtocolWorkerSteps.After(k, false, s, w, l).hist.expired == s.hist.expired
    ensures Clean(k, ProtocolWorkerSteps.After(k, false, s, w, l))
  {
    var s' := ProtocolWorkerSteps.After(k, false, s, w, l);
    ProtocolWorkerSteps.WorkerStepLeaves(k, false, s, w, l);
    if l == Filter {
      FilterMarksUnanswered(k, false, s, w);
    }
    hide Inv, Extends;
    assert w in s'.core.workers ==> !WorkZombie(s'.core.workers[w], s.hist.expired);
    hide WorkerApply, WorkerRecord, WorkerEnabled, ProtocolWorkerSteps.After;
    forall w' | w' in s'.core.workers && w' != w ensures !WorkZombie(s'.core.workers[w'], s.hist.expired) {
      assert w' in s'.core.workers - {w} && s'.core.workers[w'] == (s'.core.workers - {w})[w'];
      assert w' in s.core.workers - {w} && s.core.workers[w'] == (s.core.workers - {w})[w'];
    }
  }

  lemma CleanKeptByDispatch(k: Codec, c: Core, z: set<Id>, rc: Channel, l: DispatchStep)
    requires DispatchEnabled(c, rc, l) && !DispatchZombie(k, c.interfaces[rc].dispatcher, z)
    requires l == Take ==> !WireZombie(k, c.interfaces[rc].stream[0], z)
    ensures rc in DispatchApply(k, c, rc, l).interfaces && !DispatchZombie(k, DispatchApply(k, c, rc, l).interfaces[rc].dispatcher, z)
  {
    hide Promise.Apply, Promise.Enabled;
  }

  lemma CleanKept(k: Codec, s: State, l: Label)
    requires Inv(k, false, s) && Clean(k, s) && Enabled(s.core, l) && !Invisible(k, s.core, s.hist.expired, l)
    requires Step(k, false, s, l).hist.expired == s.hist.expired
    ensures Clean(k, Step(k, false, s, l))
  {
    match l {
      case Tick(_) =>
        hide Inv;
      case Client(step) =>
        hide Inv, ClientApply, ClientEnabled;
        var c' := ClientApply(k, s.core, step);
        forall rc | rc in c'.interfaces ensures !DispatchZombie(k, c'.interfaces[rc].dispatcher, s.hist.expired) {
          CleanKeptByClient(k, s.core, s.hist.expired, step, rc);
        }
        ClientLeavesWorkers(k, s.core, step);
      case Consume(w, step) =>
        hide Inv, Clean, WorkerApply, WorkerRecord, WorkerEnabled;
        CleanKeptByWorker(k, s, w, step);
      case Dispatch(rc, step) =>
        ProtocolDispatchSteps.DispatchStepLeaves(k, s, rc, step);
        CleanKeptByDispatch(k, s.core, s.hist.expired, rc, step);
        hide Inv, DispatchApply, DispatchEnabled, DispatchRecord, Extends, SameRegistries;
    }
  }

  lemma ClientLeavesWorkers(k: Codec, c: Core, l: ClientStep)
    requires ClientEnabled(c, l)
    ensures ClientApply(k, c, l).workers == c.workers
  {
  }

  /** A state of the system without filter that stands for state c of the system with it. */
  ghost predicate StandsFor(k: Codec, s: State, c: Core) {
    Inv(k, false, s) && NeverAnswered(s) && Clean(k, s) && Strip(k, s.core, s.hist.expired) == c
  }

  /** Handling a zombie at the head of a stream only shortens the stream. */
  lemma ZombieHandled(k: Codec, s: State, t: State, rc: Channel)
    requires Inv(k, false, s) && NeverAnswered(s) && Clean(k, s) && rc in s.core.interfaces && s.core.interfaces[rc].dispatcher.Idle?
    requires Stream(s.core, rc) != [] && WireZombie(k, Stream(s.core, rc)[0], s.hist.expired)
    requires k.decodeResponse(Stream(s.core, rc)[0]).Some? && ProtocolDrain.Handled(k, s, t, rc)
    ensures NeverAnswered(t) && Clean(k, t) && Strip(k, t.core, t.hist.expired) == Strip(k, s.core, s.hist.expired)
    ensures t.core.interfaces[rc].dispatcher.Idle?
  {
    var z := s.hist.expired;
    var i := s.core.interfaces[rc];
    var i' := i.(stream := i.stream[1..]);
    assert ProtocolDrain.Late(s.core, ProtocolDrain.Head(k, s.core, rc));
    assert t.core == s.core.(interfaces := s.core.interfaces[rc := i']);
    hide Inv;
    StripOne(k, s.core, z, rc, i');
    SurvivorsHead(k, i.stream, z);
    assert Survivors(k, i.stream, z) == Survivors(k, i.stream[1..], z);
    assert StripInterface(k, i', z) == StripInterface(k, i, z);
    assert StripInterfaces(k, s.core.interfaces, z)[rc := StripInterface(k, i, z)] == StripInterfaces(k, s.core.interfaces, z);
    forall id | id in t.hist.expired ensures Unanswered(t.core, id) {
      assert Unanswered(s.core, id);
    }
  }

  /** The zombies at the head of rc's stream can be worked off unnoticed. */
  lemma {:induction false} Flush(k: Codec, s: State, rc: Channel) returns (ls: seq<Label>, t: State)
    requires Faithful(k) && Inv(k, false, s) && NeverAnswered(s) && Clean(k, s)
    requires rc in s.core.interfaces && s.core.interfaces[rc].dispatcher.Idle?
    requires Survivors(k, Stream(s.core, rc), s.hist.expired) != []
    ensures Continue(k, false, s, ls) == Some(t) && StandsFor(k, t, Strip(k, s.core, s.hist.expired))
    ensures rc in t.core.interfaces && t.core.interfaces[rc].dispatcher.Idle?
    ensures Stream(t.core, rc) != [] && !WireZombie(k, Stream(t.core, rc)[0], t.hist.expired)
    decreases |Stream(s.core, rc)|
  {
    assert Stream(s.core, rc) != [];
    if !WireZombie(k, Stream(s.core, rc)[0], s.hist.expired) {
      ls, t := [], s;
    } else {
      hide Inv, NeverAnswered, Clean, Strip, Continue, Faithful;
      var ls1, t1 := ProtocolDrain.DrainOne(k, false, s, rc);
      ZombieHandled(k, s, t1, rc);
      assert Stream(t1.core, rc) == Stream(s.core, rc)[1..] && t1.hist.expired == s.hist.expired;
      SurvivorsHead(k, Stream(s.core, rc), s.hist.expired);
      var ls2;
      ls2, t := Flush(k, t1, rc);
      ls := ls1 + ls2;
      ProtocolDrain.ContinueConcat(k, false, s, ls1, ls2);
    }
  }

  /** A visible step is taken by both systems alike. */
  lemma SameStep(k: Codec, s: State, l: Label) returns (t: State)
    requires Faithful(k) && Inv(k, false, s) && NeverAnswered(s) && Enabled(s.core, l)
    requires !Invisible(k, s.core, s.hist.expired, l)
    ensures t == Step(k, false, s, l) && Continue(k, false, s, [l]) == Some(t) && Inv(k, false, t) && NeverAnswered(t)
    ensures var c := Strip(k, s.core, s.hist.expired);
      Enabled(c, l) && Strip(k, t.core, t.hist.expired) == Apply(k, true, c, l)
  {
    t := Step(k, false, s, l);
    hide Inv, NeverAnswered, Strip, Enabled, Step, Faithful;
    ForwardStep(k, s, l);
    ProtocolDrain.ContinueOne(k, false, s, l);
    StepKeepsInv(k, false, s, l);
    NeverAnsweredKept(k, false, s, l);
  }

  lemma TakeBackward(k: Codec, s: State, c: Core, rc: Channel) returns (ls: seq<Label>, t: State)
    requires Faithful(k) && StandsFor(k, s, c) && DispatchEnabled(c, rc, Take)
    ensures Continue(k, false, s, ls) == Some(t) && StandsFor(k, t, Apply(k, true, c, Dispatch(rc, Take)))
  {
    assert rc in s.core.interfaces && s.core.interfaces[rc].dispatcher.Idle?;
    assert c.interfaces[rc].stream == Survivors(k, Stream(s.core, rc), s.hist.expired);
    hide Inv, NeverAnswered, Clean, Strip, Continue, Faithful, Step, Apply;
    var ls1, t1 := Flush(k, s, rc);
    var l := Dispatch(rc, Take);
    t := SameStep(k, t1, l);
    CleanKept(k, t1, l) by { TakeMarksNothing(k, t1, rc); }
    ls := ls1 + [l];
    ProtocolDrain.ContinueConcat(k, false, s, ls1, [l]);
  }

  lemma TakeMarksNothing(k: Codec, s: State, rc: Channel)
    requires DispatchEnabled(s.core, rc, Take)
    ensures Step(k, false, s, Dispatch(rc, Take)).hist.expired == s.hist.expired
  {
  }

  /** The step that marks a request as expired, and is a drop in the system with filter. */
  lemma MarkStep(k: Codec, s: State, w: Worker) returns (t: State)
    requires Faithful(k) && Inv(k, false, s) && NeverAnswered(s) && WorkerEnabled(s.core, w, Filter)
    requires ProtocolWorkerSteps.After(k, false, s, w, Filter).hist.expired != s.hist.expired
    ensures Continue(k, false, s, [Consume(w, Filter)]) == Some(t) && Inv(k, false, t) && NeverAnswered(t)
    ensures var c := Strip(k, s.core, s.hist.expired);
      Enabled(c, Consume(w, Filter)) && Strip(k, t.core, t.hist.expired) == Apply(k, true, c, Consume(w, Filter))
    ensures k.decodeRequest(s.core.workers[w].wire).Some?
    ensures var f := k.decodeRequest(s.core.workers[w].wire).value;
      && t.core.workers == s.core.workers[w := Kept(s.core.workers[w].channel, f)]
      && t.core.interfaces == s.core.interfaces && t.hist.expired == s.hist.expired + {f.id}
      && f.id == RequestId(k, s.core.workers[w].wire)
  {
    MarkEffect(k, s, w);
    assert !Invisible(k, s.core, s.hist.expired, Consume(w, Filter));
    hide Inv, NeverAnswered, Strip, Continue, Faithful, WorkerApply, WorkerRecord, Invisible;
    t := SameStep(k, s, Consume(w, Filter));
    assert t == ProtocolWorkerSteps.After(k, false, s, w, Filter);
  }

  /** The request is dropped here and there becomes a zombie, which leaves the worker at once. */
  lemma DropBackward(k: Codec, s: State, c: Core, w: Worker) returns (ls: seq<Label>, t: State)
    requires Faithful(k) && StandsFor(k, s, c) && WorkerEnabled(s.core, w, Filter)
    requires ProtocolWorkerSteps.After(k, false, s, w, Filter).hist.expired != s.hist.expired
    ensures Enabled(c, Consume(w, Filter))
    ensures Continue(k, false, s, ls) == Some(t) && StandsFor(k, t, Apply(k, true, c, Consume(w, Filter)))
  {
    FilterMarksUnanswered(k, false, s, w);
    assert w in s.core.workers && s.core.workers[w].Popped?;
    assert Inv(k, false, s) && NeverAnswered(s) && Clean(k, s) && Strip(k, s.core, s.hist.expired) == c;
    hide *;
    var t1 := MarkStep(k, s, w);
    var rest, t2;
    rest, t2, t := ZombieSteps(k, t1, w);
    ls := [Consume(w, Filter)] + rest;
    ProtocolDrain.ContinueConcat(k, false, s, [Consume(w, Filter)], rest);
    DropLeavesClean(k, s, w, t1.core.workers[w], t1, t2.core.workers[w], t2, t);
    StandsIn(k, t, Apply(k, true, c, Consume(w, Filter)));
  }

  lemma StandsIn(k: Codec, s: State, c: Core)
    requires Inv(k, false, s) && NeverAnswered(s) && Clean(k, s) && Strip(k, s.core, s.hist.expired) == c
    ensures StandsFor(k, s, c)
  {
  }

  /** A kept request that has expired is answered and published, and nobody sees it. */
  lemma ZombieSteps(k: Codec, s: State, w: Worker) returns (ls: seq<Label>, t1: State, t: State)
    requires Faithful(k) && Inv(k, false, s) && NeverAnswered(s)
    requires w in s.core.workers && s.core.workers[w].Kept? && s.core.workers[w].frame.id in s.hist.expired
    ensures Continue(k, false, s, ls) == Some(t) && Inv(k, false, t) && NeverAnswered(t)
    ensures Strip(k, t.core, t.hist.expired) == Strip(k, s.core, s.hist.expired)
    ensures t1.core.workers == s.core.workers[w := Answered(s.core.workers[w].channel, s.core.workers[w].frame, [])]
    ensures t.core.workers == t1.core.workers - {w} && t.hist.expired == s.hist.expired
    ensures t.core.interfaces.Keys == s.core.interfaces.Keys
    ensures forall rc :: rc in s.core.interfaces ==> t.core.interfaces[rc].dispatcher == s.core.interfaces[rc].dispatcher
  {
    hide Inv, NeverAnswered, Strip, Continue, Faithful, WorkerApply, WorkerRecord;
    CallEffect(k, s, w, []);
    t1 := ZombieStep(k, s, w, Call([]));
    assert t1 == ProtocolWorkerSteps.After(k, false, s, w, Call([]));
    PublishEffect(k, t1, w);
    t := ZombieStep(k, t1, w, Publish);
    assert t == ProtocolWorkerSteps.After(k, false, t1, w, Publish);
    ls := [Consume(w, Call([]))] + [Consume(w, Publish)];
    hide Step, ProtocolWorkerSteps.After;
    ProtocolDrain.ContinueConcat(k, false, s, [Consume(w, Call([]))], [Consume(w, Publish)]);
  }

  /** Without filtering, an expired request is kept and marked. */
  lemma MarkEffect(k: Codec, s: State, w: Worker)
    requires WorkerEnabled(s.core, w, Filter)
    requires ProtocolWorkerSteps.After(k, false, s, w, Filter).hist.expired != s.hist.expired
    ensures k.decodeRequest(s.core.workers[w].wire).Some?
    ensures var t := ProtocolWorkerSteps.After(k, false, s, w, Filter);
      && t.core.workers == s.core.workers[w := Kept(s.core.workers[w].channel, k.decodeRequest(s.core.workers[w].wire).value)]
      && t.core.interfaces == s.core.interfaces && t.hist.expired == s.hist.expired + {RequestId(k, s.core.workers[w].wire)}
  {
  }

  lemma CallEffect(k: Codec, s: State, w: Worker, result: Bytes)
    requires WorkerEnabled(s.core, w, Call(result))
    ensures var t := ProtocolWorkerSteps.After(k, false, s, w, Call(result));
      && t.core.workers == s.core.workers[w := Answered(s.core.workers[w].channel, s.core.workers[w].frame, result)]
      && t.core.interfaces == s.core.interfaces && t.hist.expired == s.hist.expired
  {
  }

  lemma PublishEffect(k: Codec, s: State, w: Worker)
    requires WorkerEnabled(s.core, w, Publish)
    ensures var t := ProtocolWorkerSteps.After(k, false, s, w, Publish);
      && t.core.workers == s.core.workers - {w} && t.hist.expired == s.hist.expired
      && t.core.interfaces.Keys == s.core.interfaces.Keys
      && forall rc :: rc in s.core.interfaces ==> t.core.interfaces[rc].dispatcher == s.core.interfaces[rc].dispatcher
  {
  }

  lemma ZombieStep(k: Codec, s: State, w: Worker, l: WorkerStep) returns (t: State)
    requires Faithful(k) && Inv(k, false, s) && NeverAnswered(s) && WorkerEnabled(s.core, w, l)
    requires w in s.core.workers && WorkZombie(s.core.workers[w], s.hist.expired)
    ensures t == Step(k, false, s, Consume(w, l)) && Continue(k, false, s, [Consume(w, l)]) == Some(t)
    ensures Inv(k, false, t) && NeverAnswered(t)
    ensures Strip(k, t.core, t.hist.expired) == Strip(k, s.core, s.hist.expired)
  {
    t := Step(k, false, s, Consume(w, l));
    hide Inv, NeverAnswered, Strip, Faithful;
    ForwardStep(k, s, Consume(w, l));
    ProtocolDrain.ContinueOne(k, false, s, Consume(w, l));
    StepKeepsInv(k, false, s, Consume(w, l));
    NeverAnsweredKept(k, false, s, Consume(w, l));
  }

  lemma DropLeavesClean(k: Codec, s: State, w: Worker, kept: Work, t1: State, answered: Work, t2: State, t: State)
    requires Clean(k, s) && w in s.core.workers && s.core.workers[w].Popped? && k.decodeRequest(s.core.workers[w].wire).Some?
    requires var id := RequestId(k, s.core.workers[w].wire); OnlyAt(k, s.core, w, id) && t.hist.expired == s.hist.expired + {id}
    requires t1.core.workers == s.core.workers[w := kept] && t2.core.workers == t1.core.workers[w := answered]
    requires t.core.workers == t2.core.workers - {w}
    requires t.core.interfaces.Keys == s.core.interfaces.Keys
    requires forall rc :: rc in s.core.interfaces ==> t.core.interfaces[rc].dispatcher == s.core.interfaces[rc].dispatcher
    ensures Clean(k, t)
  {
  }

  /** Every step of the system with filter is matched by the system without. */
  lemma BackwardStep(k: Codec, s: State, c: Core, l: Label) returns (ls: seq<Label>, t: State)
    requires Faithful(k) && StandsFor(k, s, c) && Enabled(c, l)
    ensures Continue(k, false, s, ls) == Some(t) && StandsFor(k, t, Apply(k, true, c, l))
  {
    if l.Dispatch? && l.dispatch == Take {
      hide StandsFor, Faithful;
      ls, t := TakeBackward(k, s, c, l.rc);
    } else {
      CleanEnabled(k, s, l);
      if Step(k, false, s, l).hist.expired != s.hist.expired {
        OnlyFilterMarks(k, s, l);
        hide StandsFor, Faithful;
        ls, t := DropBackward(k, s, c, l.w);
      } else {
        hide Inv, NeverAnswered, Clean, Strip, Continue, Faithful, Step, Apply, Enabled, Invisible;
        ls := [l];
        t := SameStep(k, s, l);
        CleanKept(k, s, l);
      }
    }
  }

  lemma OnlyFilterMarks(k: Codec, s: State, l: Label)
    requires Enabled(s.core, l) && Step(k, false, s, l).hist.expired != s.hist.expired
    ensures l.Consume? && l.work == Filter
  {
    hide ClientApply, WorkerApply, DispatchApply;
  }

  /** Every run with filter is a run without filter whose zombies have been taken out. */
  lemma {:induction false} FilteredIsUnfiltered(k: Codec, now: int, ls: seq<Label>) returns (ls': seq<Label>, t: State)
    requires Faithful(k) && Run(k, true, now, ls).Some?
    ensures Run(k, false, now, ls') == Some(t) && StandsFor(k, t, Run(k, true, now, ls).value.core)
  {
    if ls == [] {
      ls', t := [], Init(now);
      InitInv(k, false, now);
      assert Strip(k, Init(now).core, {}) == Init(now).core;
    } else {
      var init := ls[..|ls| - 1];
      var ls1, t1 := FilteredIsUnfiltered(k, now, init);
      hide StandsFor, Apply, Enabled, Faithful;
      var ls2;
      ls2, t := BackwardStep(k, t1, Run(k, true, now, init).value.core, ls[|ls| - 1]);
      RunExtends(k, false, now, ls1, ls2);
      ls' := ls1 + ls2;
    }
  }

  /** The clock, the send records and the promises with everything their readers got are as given. */
  ghost predicate Reaches(k: Codec, filtering: bool, start: int, now: int, sends: map<Id, SendRecord>, promises: map<Addr, Object>) {
    exists ls :: Run(k, filtering, start, ls).Some? &&
      var c := Run(k, filtering, start, ls).value.core; c.now == now && c.sends == sends && c.promises == promises
  }

  /**
   The expiry filter is transparent: what can happen to the promises, down to each reader's Answer or Timeout, is
   the same whether or not the handlers drop expired requests.
   */
  lemma FilterIsTransparent(k: Codec, start: int, now: int, sends: map<Id, SendRecord>, promises: map<Addr, Object>)
    requires Faithful(k)
    ensures Reaches(k, true, start, now, sends, promises) <==> Reaches(k, false, start, now, sends, promises)
  {
    if Reaches(k, false, start, now, sends, promises) {
      var ls :| Run(k, false, start, ls).Some? &&
        var c := Run(k, false, start, ls).value.core; c.now == now && c.sends == sends && c.promises == promises;
      UnfilteredIsFiltered(k, start, ls);
      var filtered := Run(k, true, start, WithoutZombies(k, start, ls)).value.core;
      assert filtered.promises == promises;
    }
    if Reaches(k, true, start, now, sends, promises) {
      var ls :| Run(k, true, start, ls).Some? &&
        var c := Run(k, true, start, ls).value.core; c.now == now && c.sends == sends && c.promises == promises;
      var ls', t := FilteredIsUnfiltered(k, start, ls);
      assert t.core.promises == promises;
    }
  }
}
