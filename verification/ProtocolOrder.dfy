/** Queues and response streams are first in, first out, in every interleaving. */
module ProtocolOrder {
  import opened Common
  import opened Frames
  import opened Protocol
  import opened ProtocolInv
  import opened ProtocolFrames
  import Promise
  import ProtocolDispatchSteps

  // ---- queues ----

  /** The request that the label puts into queue ch, if it does. */
  function Puts(k: Codec, c: Core, l: Label, ch: Channel): seq<Bytes>
    requires Enabled(c, l)
  {
    if l.Client? && l.client.Send? && c.sends[l.client.id].channel == ch then
      [k.encodeRequest(FrameOf(l.client.id, c.sends[l.client.id]))]
    else []
  }

  predicate IsPop(l: Label, ch: Channel) {
    l.Consume? && l.work == Pop(ch)
  }

  lemma ClientOnQueue(k: Codec, filtering: bool, c: Core, l: ClientStep, ch: Channel)
    requires ClientEnabled(c, l)
    ensures Queue(ClientApply(k, c, l), ch) == Queue(c, ch) + Puts(k, c, Client(l), ch)
  {
    hide Promise.Apply, Promise.Enabled;
  }

  lemma WorkerOnQueue(k: Codec, filtering: bool, c: Core, w: Worker, l: WorkerStep, ch: Channel)
    requires WorkerEnabled(c, w, l)
    ensures l == Pop(ch) ==> Queue(c, ch) != [] && WorkerApply(k, filtering, c, w, l).workers[w] == Popped(ch, Queue(c, ch)[0])
    ensures Queue(WorkerApply(k, filtering, c, w, l), ch) == if l == Pop(ch) then Queue(c, ch)[1..] else Queue(c, ch)
  {
  }

  lemma StepOnQueue(k: Codec, filtering: bool, s: State, l: Label, ch: Channel)
    requires Enabled(s.core, l)
    ensures IsPop(l, ch) ==> Queue(s.core, ch) != []
    ensures Queue(Step(k, filtering, s, l).core, ch)
      == if IsPop(l, ch) then Queue(s.core, ch)[1..] else Queue(s.core, ch) + Puts(k, s.core, l, ch)
  {
    hide ClientApply, ClientEnabled, WorkerApply, WorkerEnabled, DispatchApply, DispatchEnabled, Record, Puts;
    match l {
      case Tick(_) => NoPuts(k, s.core, l, ch);
      case Client(step) => ClientOnQueue(k, filtering, s.core, step, ch);
      case Consume(w, step) =>
        NoPuts(k, s.core, l, ch);
        WorkerOnQueue(k, filtering, s.core, w, step, ch);
      case Dispatch(rc, step) =>
        NoPuts(k, s.core, l, ch);
        ProtocolDispatchSteps.ApplyLeaves(k, s.core, rc, step);
    }
  }

  lemma NoPuts(k: Codec, c: Core, l: Label, ch: Channel)
    requires Enabled(c, l) && !l.Client?
    ensures Puts(k, c, l, ch) == []
  {
    hide Enabled;
  }

  /** What a run has sent to queue ch, oldest first. */
  ghost function SentTo(k: Codec, filtering: bool, now: int, ls: seq<Label>, ch: Channel): seq<Bytes>
    requires Run(k, filtering, now, ls).Some?
  {
    if ls == [] then []
    else
      SentTo(k, filtering, now, ls[..|ls| - 1], ch)
        + Puts(k, Run(k, filtering, now, ls[..|ls| - 1]).value.core, ls[|ls| - 1], ch)
  }

  /** How often a worker has popped from it. */
  function Pops(ls: seq<Label>, ch: Channel): nat {
    if ls == [] then 0 else Pops(ls[..|ls| - 1], ch) + if IsPop(ls[|ls| - 1], ch) then 1 else 0
  }

  /**
   Queues are FIFO over all competing workers: in every run the queue holds what has been sent to it, in that order,
   without as many of the oldest as have been popped.
   */
  lemma {:induction false} RequestsAreFifo(k: Codec, filtering: bool, now: int, ls: seq<Label>, ch: Channel)
    requires Run(k, filtering, now, ls).Some?
    ensures Pops(ls, ch) <= |SentTo(k, filtering, now, ls, ch)|
    ensures Queue(Run(k, filtering, now, ls).value.core, ch) == SentTo(k, filtering, now, ls, ch)[Pops(ls, ch)..]
  {
    if ls == [] {
      assert Queue(Init(now).core, ch) == [];
    } else {
      var init, l := ls[..|ls| - 1], ls[|ls| - 1];
      RequestsAreFifo(k, filtering, now, init, ch);
      var s := Run(k, filtering, now, init).value;
      assert Enabled(s.core, l) && Run(k, filtering, now, ls).value == Step(k, filtering, s, l) by {
        hide Step, Enabled;
      }
      StepOnQueue(k, filtering, s, l, ch);
      NothingPutByPop(k, s.core, l, ch);
      hide Step, Enabled, Run, Queue, Puts, IsPop;
      MoveSuffix(SentTo(k, filtering, now, init, ch), Pops(init, ch), Puts(k, s.core, l, ch));
    }
  }

  lemma NothingPutByPop(k: Codec, c: Core, l: Label, ch: Channel)
    requires Enabled(c, l)
    ensures IsPop(l, ch) ==> Puts(k, c, l, ch) == []
  {
    hide Enabled;
  }

  lemma MoveSuffix(all: seq<Bytes>, n: nat, more: seq<Bytes>)
    requires n <= |all|
    ensures (all + more)[n..] == all[n..] + more
    ensures all[n..] != [] ==> n < |all| && all[n..][1..] == all[n + 1..] && all[n..][0] == all[n]
    ensures all + [] == all
  {
  }

  /** So the n-th pop, from whichever worker, is given the n-th request sent. */
  lemma PopsInOrder(k: Codec, filtering: bool, now: int, ls: seq<Label>, w: Worker, ch: Channel)
    requires Run(k, filtering, now, ls).Some? && Enabled(Run(k, filtering, now, ls).value.core, Consume(w, Pop(ch)))
    ensures Pops(ls, ch) < |SentTo(k, filtering, now, ls, ch)|
    ensures var s := Run(k, filtering, now, ls).value;
      Step(k, filtering, s, Consume(w, Pop(ch))).core.workers[w] == Popped(ch, SentTo(k, filtering, now, ls, ch)[Pops(ls, ch)])
  {
    var s := Run(k, filtering, now, ls).value;
    RequestsAreFifo(k, filtering, now, ls, ch);
    WorkerOnQueue(k, filtering, s.core, w, Pop(ch), ch);
    hide Run, SentTo, Pops, Record, WorkerApply;
  }

  // ---- response streams ----

  /** The response that the label publishes on rc, if it does and the subscription is confirmed. */
  function Publishes(k: Codec, c: Core, l: Label, rc: Channel): seq<Bytes>
    requires Enabled(c, l)
  {
    if l.Consume? && l.work == Publish && c.workers[l.w].frame.responseChannel == rc && Confirmed(c, rc) then
      [k.encodeResponse(Response(c.workers[l.w].frame.id, c.workers[l.w].result))]
    else []
  }

  lemma WorkerOnStream(k: Codec, filtering: bool, c: Core, w: Worker, l: WorkerStep, rc: Channel)
    requires WorkerEnabled(c, w, l)
    ensures Stream(WorkerApply(k, filtering, c, w, l), rc) == Stream(c, rc) + Publishes(k, c, Consume(w, l), rc)
  {
  }

  lemma ClientOnStream(k: Codec, c: Core, l: ClientStep, rc: Channel)
    requires ClientEnabled(c, l)
    ensures Stream(ClientApply(k, c, l), rc) == Stream(c, rc)
  {
    hide Promise.Apply, Promise.Enabled;
  }

  lemma DispatchOnStream(k: Codec, c: Core, rc: Channel, l: DispatchStep, rc': Channel)
    requires DispatchEnabled(c, rc, l)
    ensures var c' := DispatchApply(k, c, rc, l);
      if l == Take && rc' == rc then
        && Stream(c, rc) != [] && Stream(c', rc) == Stream(c, rc)[1..]
        && rc in c'.interfaces && c'.interfaces[rc].dispatcher == Taken(Stream(c, rc)[0])
      else Stream(c', rc') == Stream(c, rc')
  {
    if l != Take {
      ProtocolDispatchSteps.ApplyLeaves(k, c, rc, l);
      hide DispatchApply, DispatchEnabled;
    }
  }

  lemma NoPublication(k: Codec, c: Core, l: Label, rc: Channel)
    requires Enabled(c, l) && !l.Consume?
    ensures Publishes(k, c, l, rc) == []
  {
    hide Enabled;
  }

  lemma StepOnStream(k: Codec, filtering: bool, s: State, l: Label, rc: Channel)
    requires Enabled(s.core, l)
    ensures l == Dispatch(rc, Take) ==> Stream(s.core, rc) != []
    ensures Stream(Step(k, filtering, s, l).core, rc)
      == if l == Dispatch(rc, Take) then Stream(s.core, rc)[1..] else Stream(s.core, rc) + Publishes(k, s.core, l, rc)
  {
    hide ClientApply, ClientEnabled, WorkerApply, WorkerEnabled, DispatchApply, DispatchEnabled, Record, Publishes;
    match l {
      case Tick(_) => NoPublication(k, s.core, l, rc);
      case Client(step) =>
        NoPublication(k, s.core, l, rc);
        ClientOnStream(k, s.core, step, rc);
      case Consume(w, step) => WorkerOnStream(k, filtering, s.core, w, step, rc);
      case Dispatch(rc', step) =>
        NoPublication(k, s.core, l, rc);
        DispatchOnStream(k, s.core, rc', step, rc);
    }
  }

  /** What a run has published on rc, oldest first. */
  ghost function PublishedOn(k: Codec, filtering: bool, now: int, ls: seq<Label>, rc: Channel): seq<Bytes>
    requires Run(k, filtering, now, ls).Some?
  {
    if ls == [] then []
    else
      PublishedOn(k, filtering, now, ls[..|ls| - 1], rc)
        + Publishes(k, Run(k, filtering, now, ls[..|ls| - 1]).value.core, ls[|ls| - 1], rc)
  }

  function Takes(ls: seq<Label>, rc: Channel): nat {
    if ls == [] then 0 else Takes(ls[..|ls| - 1], rc) + if ls[|ls| - 1] == Dispatch(rc, Take) then 1 else 0
  }

  /** So are the response streams, over all publishing workers. */
  lemma {:induction false} ResponsesAreFifo(k: Codec, filtering: bool, now: int, ls: seq<Label>, rc: Channel)
    requires Run(k, filtering, now, ls).Some?
    ensures Takes(ls, rc) <= |PublishedOn(k, filtering, now, ls, rc)|
    ensures Stream(Run(k, filtering, now, ls).value.core, rc) == PublishedOn(k, filtering, now, ls, rc)[Takes(ls, rc)..]
  {
    if ls == [] {
      assert Stream(Init(now).core, rc) == [];
    } else {
      var init, l := ls[..|ls| - 1], ls[|ls| - 1];
      ResponsesAreFifo(k, filtering, now, init, rc);
      var s := Run(k, filtering, now, init).value;
      assert Enabled(s.core, l) && Run(k, filtering, now, ls).value == Step(k, filtering, s, l) by {
        hide Step, Enabled;
      }
      StepOnStream(k, filtering, s, l, rc);
      if l == Dispatch(rc, Take) {
        NoPublication(k, s.core, l, rc);
      }
      hide Step, Enabled, Run, Stream, Publishes;
      MoveSuffix(PublishedOn(k, filtering, now, init, rc), Takes(init, rc), Publishes(k, s.core, l, rc));
    }
  }

  /** And the n-th response taken is the n-th published. */
  lemma TakesInOrder(k: Codec, filtering: bool, now: int, ls: seq<Label>, rc: Channel)
    requires Run(k, filtering, now, ls).Some? && Enabled(Run(k, filtering, now, ls).value.core, Dispatch(rc, Take))
    ensures Takes(ls, rc) < |PublishedOn(k, filtering, now, ls, rc)|
    ensures var s := Run(k, filtering, now, ls).value; var c' := Step(k, filtering, s, Dispatch(rc, Take)).core;
      rc in c'.interfaces && c'.interfaces[rc].dispatcher == Taken(PublishedOn(k, filtering, now, ls, rc)[Takes(ls, rc)])
  {
    var s := Run(k, filtering, now, ls).value;
    ResponsesAreFifo(k, filtering, now, ls, rc);
    DispatchOnStream(k, s.core, rc, Take, rc);
    hide Run, PublishedOn, Takes, Record, DispatchApply;
  }
}
