/** Progress of the subscriber threads: one with work can always go on, and going on hands over the responses waited for. */
module ProtocolDrain {
  import opened Common
  import opened Frames
  import opened Protocol
  import opened ProtocolInv
  import opened ProtocolFrames
  import opened ProtocolTheorems
  import ProtocolDispatchSteps
  import Promise

  lemma {:induction false} ContinueConcat(k: Codec, filtering: bool, s: State, a: seq<Label>, b: seq<Label>)
    requires Continue(k, filtering, s, a).Some?
    ensures Continue(k, filtering, s, a + b) == Continue(k, filtering, Continue(k, filtering, s, a).value, b)
  {
    hide Step, Enabled;
    if b == [] {
      assert a + b == a;
    } else {
      ContinueConcat(k, filtering, s, a, b[..|b| - 1]);
      assert (a + b)[..|a + b| - 1] == a + b[..|b| - 1];
    }
  }

  lemma ContinueOne(k: Codec, filtering: bool, s: State, l: Label)
    requires Enabled(s.core, l)
    ensures Continue(k, filtering, s, [l]) == Some(Step(k, filtering, s, l))
  {
    hide Step, Enabled;
    assert [l][..0] == [];
  }

  /** One more step of rc's dispatcher at the end of a schedule. */
  lemma Go(k: Codec, filtering: bool, s: State, ls: seq<Label>, t: State, rc: Channel, l: DispatchStep) returns (t': State)
    requires Faithful(k) && Inv(k, filtering, t) && Continue(k, filtering, s, ls) == Some(t)
    requires DispatchEnabled(t.core, rc, l)
    ensures t' == ProtocolDispatchSteps.After(k, t, rc, l) && Inv(k, filtering, t')
    ensures Continue(k, filtering, s, ls + [Dispatch(rc, l)]) == Some(t')
  {
    t' := ProtocolDispatchSteps.After(k, t, rc, l);
    StepKeepsInv(k, filtering, t, Dispatch(rc, l));
    ContinueOne(k, filtering, t, Dispatch(rc, l));
    ContinueConcat(k, filtering, s, ls, [Dispatch(rc, l)]);
  }

  /** A dispatcher that is not idle, or has something to take, can take a step. */
  lemma DispatcherIsNeverStuck(k: Codec, filtering: bool, s: State, rc: Channel) returns (l: DispatchStep)
    requires Inv(k, filtering, s) && rc in s.core.interfaces
    requires !s.core.interfaces[rc].dispatcher.Idle? || s.core.interfaces[rc].stream != []
    ensures DispatchEnabled(s.core, rc, l)
  {
    assert DispatcherInv(k, s, rc);
    var d := s.core.interfaces[rc].dispatcher;
    match d {
      case Idle => l := Take;
      case Taken(_) => l := Claim;
      case Locked(_) => l := Find;
      case Calling(f, a) =>
        assert PromiseInv(s, a);
        assert Waiting(s.core, rc, f.id) && SendOk(s.core, f.id);
        l := Respond;
      case Storing(_, _) => l := Store;
      case Releasing(_, _) => l := Release;
      case Leaving(_) => l := Leave;
    }
  }

  /** The response at the head of rc's stream. */
  function Head(k: Codec, c: Core, rc: Channel): Response
    requires Stream(c, rc) != [] && k.decodeResponse(Stream(c, rc)[0]).Some?
  {
    k.decodeResponse(Stream(c, rc)[0]).value
  }

  /** The deadline of the promise f would be handed to has passed. */
  predicate Late(c: Core, f: Response) {
    f.id in c.sends && c.now > c.sends[f.id].validUntil
  }

  /** The effect of handling the response at the head of rc's stream. */
  ghost predicate Handled(k: Codec, s: State, s': State, rc: Channel)
    requires Stream(s.core, rc) != [] && k.decodeResponse(Stream(s.core, rc)[0]).Some?
  {
    var f := Head(k, s.core, rc);
    && s'.core == s.core.(interfaces := s'.core.interfaces, promises := s'.core.promises)
    && s'.core.interfaces == s.core.interfaces[rc := s.core.interfaces[rc].(stream := Stream(s.core, rc)[1..])]
    && (Late(s.core, f) || !Waiting(s.core, rc, f.id) ==> s'.core.promises == s.core.promises)
    && (Waiting(s.core, rc, f.id) ==> f.id in s'.hist.responded)
    && (Waiting(s.core, rc, f.id) && !Late(s.core, f) ==>
          var a := s.core.interfaces[rc].registry[f.id];
          a in s'.core.promises && s'.core.promises[a].p.accepted == [f.payload] && s'.core.promises[a].p.releases == 1)
    && s'.hist.expired == s.hist.expired
    && s.hist.responded <= s'.hist.responded
  }

  function WithInterface(c: Core, rc: Channel, i: Interface): Core {
    c.(interfaces := c.interfaces[rc := i])
  }

  lemma Overwrite(c: Core, rc: Channel, i: Interface, j: Interface)
    ensures WithInterface(WithInterface(c, rc, i), rc, j) == WithInterface(c, rc, j)
  {
  }

  /** The effect of a step of rc's dispatcher that stays outside the promises. */
  lemma OutsideEffect(k: Codec, s: State, rc: Channel, l: DispatchStep)
    requires DispatchEnabled(s.core, rc, l) && (l == Take || l == Claim || l == Find || l == Leave)
    requires l == Claim ==> k.decodeResponse(s.core.interfaces[rc].dispatcher.wire).Some?
    ensures var t := ProtocolDispatchSteps.After(k, s, rc, l); var i := s.core.interfaces[rc];
      && t.core == WithInterface(s.core, rc,
           match l
           case Take => i.(stream := i.stream[1..], dispatcher := Taken(i.stream[0]))
           case Claim => i.(dispatcher := Locked(k.decodeResponse(i.dispatcher.wire).value))
           case Find =>
             var f := i.dispatcher.frame;
             i.(dispatcher := if f.id in i.registry then Calling(f, i.registry[f.id]) else Leaving(f))
           case _ => i.(dispatcher := Idle))
      && t.hist.expired == s.hist.expired
      && t.hist.responded == if l == Find && i.dispatcher.frame.id in i.registry then s.hist.responded + [i.dispatcher.frame.id]
                             else s.hist.responded
  {
  }

  /** The effect of a step inside on_response. */
  lemma InsideEffect(k: Codec, s: State, rc: Channel, l: DispatchStep)
    requires DispatchEnabled(s.core, rc, l) && ProtocolDispatchSteps.InPromise(l)
    ensures var t := ProtocolDispatchSteps.After(k, s, rc, l); var i := s.core.interfaces[rc]; var d := i.dispatcher;
      && t.hist == s.hist
      && t.core.interfaces == s.core.interfaces[rc := t.core.interfaces[rc]]
      && t.core == s.core.(interfaces := t.core.interfaces, promises := t.core.promises)
      && d.addr in t.core.promises && d.addr in s.core.promises
      && var p := s.core.promises[d.addr].p; var q := t.core.promises[d.addr].p;
         if l == Store then
           q.accepted == p.accepted && q.releases == p.releases && q.responder == Promise.Unlocking
           && t.core.interfaces[rc] == i.(dispatcher := Releasing(d.frame, d.addr))
         else if l == Release then
           q.accepted == p.accepted && q.releases == p.releases + 1
           && t.core.interfaces[rc] == i.(dispatcher := Leaving(d.frame))
         else if s.core.now > p.validUntil then
           t.core.promises == s.core.promises && t.core.interfaces[rc] == i.(dispatcher := Leaving(d.frame))
         else
           q.accepted == p.accepted + [d.frame.payload] && q.releases == p.releases
           && q.responder == Promise.Storing(d.frame.payload)
           && t.core.interfaces[rc] == i.(dispatcher := Storing(d.frame, d.addr))
  {
  }

  /** Take, claim and look up the head of the stream. */
  lemma DrainToFind(k: Codec, filtering: bool, s: State, rc: Channel) returns (ls: seq<Label>, t: State)
    requires Faithful(k) && Inv(k, filtering, s) && rc in s.core.interfaces
    requires s.core.interfaces[rc].dispatcher.Idle? && Stream(s.core, rc) != []
    ensures k.decodeResponse(Stream(s.core, rc)[0]).Some?
    ensures Continue(k, filtering, s, ls) == Some(t) && Inv(k, filtering, t)
    ensures var f := Head(k, s.core, rc); var i := s.core.interfaces[rc];
      && t.core == WithInterface(s.core, rc, i.(stream := i.stream[1..],
           dispatcher := if Waiting(s.core, rc, f.id) then Calling(f, i.registry[f.id]) else Leaving(f)))
      && (Waiting(s.core, rc, f.id) ==> f.id in t.hist.responded)
      && t.hist.expired == s.hist.expired && s.hist.responded <= t.hist.responded
  {
    assert StreamOk(k, s, rc, 0);
    hide Inv, Continue, Step, Enabled, ProtocolDispatchSteps.After, Faithful;
    ls := [];
    assert Continue(k, filtering, s, ls) == Some(s) by { ContinueNone(k, filtering, s); }
    var t1 := Go(k, filtering, s, ls, s, rc, Take);
    OutsideEffect(k, s, rc, Take);
    ls := ls + [Dispatch(rc, Take)];
    var t2 := Go(k, filtering, s, ls, t1, rc, Claim);
    OutsideEffect(k, t1, rc, Claim);
    Overwrite(s.core, rc, t1.core.interfaces[rc], t2.core.interfaces[rc]);
    ls := ls + [Dispatch(rc, Claim)];
    t := Go(k, filtering, s, ls, t2, rc, Find);
    OutsideEffect(k, t2, rc, Find);
    Overwrite(s.core, rc, t2.core.interfaces[rc], t.core.interfaces[rc]);
    ls := ls + [Dispatch(rc, Find)];
  }

  lemma ContinueNone(k: Codec, filtering: bool, s: State)
    ensures Continue(k, filtering, s, []) == Some(s)
  {
  }

  lemma CallingCanRespond(k: Codec, filtering: bool, s: State, rc: Channel)
    requires Inv(k, filtering, s) && rc in s.core.interfaces && s.core.interfaces[rc].dispatcher.Calling?
    ensures var d := s.core.interfaces[rc].dispatcher;
      && DispatchEnabled(s.core, rc, Respond) && d.frame.id in s.core.sends && d.addr == s.core.sends[d.frame.id].addr
      && Late(s.core, d.frame) == (s.core.now > s.core.promises[d.addr].p.validUntil)
      && s.core.promises[d.addr].p.accepted == [] && s.core.promises[d.addr].p.releases == 0
  {
    var d := s.core.interfaces[rc].dispatcher;
    assert DispatcherInv(k, s, rc);
    assert PromiseInv(s, d.addr) && Waiting(s.core, rc, d.frame.id) && SendOk(s.core, d.frame.id);
  }

  /** A promise that has accepted the response: the rest of on_response. */
  lemma DrainAccepted(k: Codec, filtering: bool, s: State, ls0: seq<Label>, t0: State, rc: Channel) returns (ls: seq<Label>, t: State)
    requires Faithful(k) && Inv(k, filtering, t0) && Continue(k, filtering, s, ls0) == Some(t0)
    requires DispatchEnabled(t0.core, rc, Store)
    ensures Continue(k, filtering, s, ls) == Some(t) && Inv(k, filtering, t) && t.hist == t0.hist
    ensures var i := t0.core.interfaces[rc]; var a := i.dispatcher.addr;
      && t.core == WithInterface(t0.core, rc, i.(dispatcher := Leaving(i.dispatcher.frame))).(promises := t.core.promises)
      && a in t.core.promises && a in t0.core.promises
      && t.core.promises[a].p.accepted == t0.core.promises[a].p.accepted
      && t.core.promises[a].p.releases == t0.core.promises[a].p.releases + 1
  {
    var i := t0.core.interfaces[rc];
    hide Inv, Continue, Step, Enabled, ProtocolDispatchSteps.After, Faithful;
    var t1 := Go(k, filtering, s, ls0, t0, rc, Store);
    InsideEffect(k, t0, rc, Store);
    ls := ls0 + [Dispatch(rc, Store)];
    t := Go(k, filtering, s, ls, t1, rc, Release);
    InsideEffect(k, t1, rc, Release);
    Overwrite(t0.core, rc, t1.core.interfaces[rc], t.core.interfaces[rc]);
    ls := ls + [Dispatch(rc, Release)];
  }

  /** Entering on_response: a late response is dropped there, any other one is accepted. */
  lemma RespondEffect(k: Codec, filtering: bool, s: State, rc: Channel)
    requires Inv(k, filtering, s) && rc in s.core.interfaces && s.core.interfaces[rc].dispatcher.Calling?
    ensures DispatchEnabled(s.core, rc, Respond)
    ensures var t := ProtocolDispatchSteps.After(k, s, rc, Respond); var i := s.core.interfaces[rc]; var d := i.dispatcher;
      && t.hist == s.hist
      && if Late(s.core, d.frame) then t.core == WithInterface(s.core, rc, i.(dispatcher := Leaving(d.frame)))
         else
           && t.core == WithInterface(s.core, rc, i.(dispatcher := Storing(d.frame, d.addr))).(promises := t.core.promises)
           && d.addr in t.core.promises
           && t.core.promises[d.addr].p.accepted == [d.frame.payload] && t.core.promises[d.addr].p.releases == 0
  {
    CallingCanRespond(k, filtering, s, rc);
    hide Inv, ProtocolDispatchSteps.After, Late, DispatchEnabled;
    InsideEffect(k, s, rc, Respond);
  }

  /** on_response has been gone through from s to t by rc's dispatcher. */
  ghost predicate WentThrough(s: State, t: State, rc: Channel)
    requires rc in s.core.interfaces && s.core.interfaces[rc].dispatcher.Calling?
  {
    var i := s.core.interfaces[rc];
    var Calling(f, a) := i.dispatcher;
    && t.hist == s.hist
    && t.core == WithInterface(s.core, rc, i.(dispatcher := Leaving(f))).(promises := t.core.promises)
    && if Late(s.core, f) then t.core.promises == s.core.promises
       else a in t.core.promises && t.core.promises[a].p.accepted == [f.payload] && t.core.promises[a].p.releases == 1
  }

  /** The way through on_response, from its entry to the return of the lock. */
  lemma DrainResponse(k: Codec, filtering: bool, s: State, ls0: seq<Label>, t0: State, rc: Channel) returns (ls: seq<Label>, t: State)
    requires Faithful(k) && Inv(k, filtering, t0) && rc in t0.core.interfaces && t0.core.interfaces[rc].dispatcher.Calling?
    requires Continue(k, filtering, s, ls0) == Some(t0)
    ensures Continue(k, filtering, s, ls) == Some(t) && Inv(k, filtering, t) && WentThrough(t0, t, rc)
  {
    var d := t0.core.interfaces[rc].dispatcher;
    hide Inv, Continue, Step, Enabled, ProtocolDispatchSteps.After, Faithful, Late, DispatchEnabled;
    RespondEffect(k, filtering, t0, rc);
    t := Go(k, filtering, s, ls0, t0, rc, Respond);
    ls := ls0 + [Dispatch(rc, Respond)];
    if !Late(t0.core, d.frame) {
      var t1 := t;
      StoringCanStore(k, filtering, t1, rc);
      ls, t := DrainAccepted(k, filtering, s, ls, t1, rc);
      Overwrite(t0.core, rc, t1.core.interfaces[rc], t.core.interfaces[rc]);
    }
  }

  lemma StoringCanStore(k: Codec, filtering: bool, s: State, rc: Channel)
    requires Inv(k, filtering, s) && rc in s.core.interfaces && s.core.interfaces[rc].dispatcher.Storing?
    ensures DispatchEnabled(s.core, rc, Store)
  {
    assert DispatcherInv(k, s, rc);
  }

  /** What handling f, the head of rc's stream, does to the promises and the history. */
  ghost predicate Answered(k: Codec, s: State, t: State, rc: Channel, f: Response) {
    && (Late(s.core, f) || !Waiting(s.core, rc, f.id) ==> t.core.promises == s.core.promises)
    && (Waiting(s.core, rc, f.id) ==> f.id in t.hist.responded)
    && (Waiting(s.core, rc, f.id) && !Late(s.core, f) ==>
          var a := s.core.interfaces[rc].registry[f.id];
          a in t.core.promises && t.core.promises[a].p.accepted == [f.payload] && t.core.promises[a].p.releases == 1)
    && t.hist.expired == s.hist.expired
    && s.hist.responded <= t.hist.responded
  }

  /** All but the return of the lock. */
  lemma DrainToLeave(k: Codec, filtering: bool, s: State, rc: Channel) returns (ls: seq<Label>, t: State)
    requires Faithful(k) && Inv(k, filtering, s) && rc in s.core.interfaces
    requires s.core.interfaces[rc].dispatcher.Idle? && Stream(s.core, rc) != []
    ensures k.decodeResponse(Stream(s.core, rc)[0]).Some?
    ensures Continue(k, filtering, s, ls) == Some(t) && Inv(k, filtering, t)
    ensures var f := Head(k, s.core, rc); var i := s.core.interfaces[rc];
      && t.core == WithInterface(s.core, rc, i.(stream := i.stream[1..], dispatcher := Leaving(f))).(promises := t.core.promises)
      && Answered(k, s, t, rc, f)
  {
    var t1;
    ls, t1 := DrainToFind(k, filtering, s, rc);
    var f := Head(k, s.core, rc);
    hide Inv, Continue, Step, Enabled, ProtocolDispatchSteps.After, Faithful;
    t := t1;
    if Waiting(s.core, rc, f.id) {
      ls, t := DrainResponse(k, filtering, s, ls, t1, rc);
      Overwrite(s.core, rc, t1.core.interfaces[rc], t.core.interfaces[rc]);
    }
  }

  /** With the return of the lock the response is handled. */
  lemma LeaveHandles(k: Codec, s: State, t2: State, t: State, rc: Channel)
    requires Stream(s.core, rc) != [] && k.decodeResponse(Stream(s.core, rc)[0]).Some?
    requires rc in s.core.interfaces && s.core.interfaces[rc].dispatcher.Idle? && rc in t2.core.interfaces
    requires var f := Head(k, s.core, rc); var i := s.core.interfaces[rc];
      && t2.core == WithInterface(s.core, rc, i.(stream := i.stream[1..], dispatcher := Leaving(f))).(promises := t2.core.promises)
      && Answered(k, s, t2, rc, f)
    requires t.core == WithInterface(t2.core, rc, t2.core.interfaces[rc].(dispatcher := Idle))
    requires t.hist.expired == t2.hist.expired && t.hist.responded == t2.hist.responded
    ensures Handled(k, s, t, rc)
  {
    hide Late, Waiting, Head;
  }

  /** rc's dispatcher handles the response at the head of its stream, from idle to idle. */
  lemma DrainOne(k: Codec, filtering: bool, s: State, rc: Channel) returns (ls: seq<Label>, t: State)
    requires Faithful(k) && Inv(k, filtering, s) && rc in s.core.interfaces
    requires s.core.interfaces[rc].dispatcher.Idle? && Stream(s.core, rc) != []
    ensures k.decodeResponse(Stream(s.core, rc)[0]).Some?
    ensures Continue(k, filtering, s, ls) == Some(t) && Inv(k, filtering, t) && Handled(k, s, t, rc)
  {
    var t2;
    ls, t2 := DrainToLeave(k, filtering, s, rc);
    assert DispatchEnabled(t2.core, rc, Leave);
    hide Inv, Continue, Step, Enabled, ProtocolDispatchSteps.After, Faithful, Late, Waiting, Head, DispatchEnabled, Answered,
      Handled;
    t := Go(k, filtering, s, ls, t2, rc, Leave);
    OutsideEffect(k, t2, rc, Leave);
    LeaveHandles(k, s, t2, t, rc);
    ls := ls + [Dispatch(rc, Leave)];
  }

  /**
   From any reachable state with an idle subscriber thread, the schedule that runs that thread alone for as long as there
   are responses hands every response whose promise is still registered to that promise. What holds in every other
   interleaving is ProtocolFates.NoResponseIsLost.
   */
  lemma {:induction false} DrainDelivers(k: Codec, filtering: bool, s: State, rc: Channel) returns (ls: seq<Label>, t: State)
    requires Faithful(k) && Inv(k, filtering, s) && rc in s.core.interfaces && s.core.interfaces[rc].dispatcher.Idle?
    ensures Continue(k, filtering, s, ls) == Some(t) && Inv(k, filtering, t) && Stream(t.core, rc) == []
    ensures s.hist.responded <= t.hist.responded
    ensures forall i, id ::
      0 <= i < |Stream(s.core, rc)| && ResponseIdOr(k, Stream(s.core, rc)[i]) == Some(id) && Waiting(s.core, rc, id)
      ==> id in t.hist.responded
    decreases |Stream(s.core, rc)|
  {
    if Stream(s.core, rc) == [] {
      ls, t := [], s;
    } else {
      var ls1, t1 := DrainOne(k, filtering, s, rc);
      hide Inv, Continue;
      assert Stream(t1.core, rc) == Stream(s.core, rc)[1..];
      var ls2;
      ls2, t := DrainDelivers(k, filtering, t1, rc);
      ls := ls1 + ls2;
      ContinueConcat(k, filtering, s, ls1, ls2);
      forall i, id | 0 <= i < |Stream(s.core, rc)| && ResponseIdOr(k, Stream(s.core, rc)[i]) == Some(id)
                     && Waiting(s.core, rc, id)
        ensures id in t.hist.responded
      {
        if i > 0 {
          assert Stream(t1.core, rc)[i - 1] == Stream(s.core, rc)[i];
          assert Waiting(t1.core, rc, id);
        }
      }
    }
  }
}
