/**
 ResponsePromise as a step system. Any number of threads may call await and then, whose thread awaits too, and responders
 call on_response one after the other; every access to the shared members is one step.
 */
module Promise {
  import opened Common

  type Reader = nat

  datatype Resolution = Answer(message: Bytes) | Timeout

  /** The program counter of one call of await, or of one call of then followed by its thread's await. */
  datatype ReaderPc =
    | Applying                 // then has passed its tests, the thread is not yet in m_then_thread
    | Ended                    // assigning to m_then_thread has called std::terminate
    | Checking                 // before the test of m_result_read
    | Waiting                  // inside try_lock_until
    | Locked | Expired         // try_lock_until has returned true, false
    | MarkedLocked | MarkedExpired  // m_result_read has been set
    | Returned(resolution: Resolution)
    | Refused                  // ResultAlreadyReadException

  /** The program counter of on_response. */
  datatype ResponderPc =
    | Outside
    | Storing(message: Bytes)  // deadline test passed, m_response not yet assigned
    | Unlocking

  datatype State = State(
    validUntil: int,
    locked: bool,              // m_timeout_mutex
    response: Bytes,           // m_response
    resultRead: bool,          // m_result_read
    thenThread: Option<Reader>,  // m_then_thread, joinable from then until the destructor
    readers: map<Reader, ReaderPc>,
    responder: ResponderPc,
    accepted: seq<Bytes>,      // history: messages that passed the deadline test, oldest first
    releases: nat,             // history: executions of m_timeout_mutex.unlock()
    misused: bool,             // history: an unlock found the mutex unlocked
    terminated: bool)          // history: std::terminate has been called; the source takes none of the later steps

  /** BeginThen is a call of then that passes its tests, Start its assignment to m_then_thread. */
  datatype Label =
    | BeginThen(r: Reader) | Start(r: Reader)
    | Begin(r: Reader) | Check(r: Reader) | TryLock(r: Reader) | GiveUp(r: Reader) | Mark(r: Reader) | Return(r: Reader)
    | Ignore(m: Bytes) | Accept(m: Bytes) | Store | Unlock

  /** The constructor locks the mutex: the promise starts without a permit. */
  function Fresh(validUntil: int): State {
    State(validUntil, true, [], false, None, map[], Outside, [], 0, false, false)
  }

  predicate At(p: State, r: Reader, pc: ReaderPc) {
    r in p.readers && p.readers[r] == pc
  }

  predicate Enabled(p: State, now: int, l: Label) {
    match l
    case BeginThen(r) => r !in p.readers && !p.resultRead
    case Start(r) => At(p, r, Applying)
    case Begin(r) => r !in p.readers
    case Check(r) => At(p, r, Checking)
    case TryLock(r) => At(p, r, Waiting) && !p.locked
    // try_lock_until gives up only when the deadline has come and the mutex is still taken
    case GiveUp(r) => At(p, r, Waiting) && p.locked && p.validUntil <= now
    case Mark(r) => At(p, r, Locked) || At(p, r, Expired)
    case Return(r) => At(p, r, MarkedLocked) || At(p, r, MarkedExpired)
    case Ignore(m) => p.responder == Outside && now > p.validUntil
    case Accept(m) => p.responder == Outside && now <= p.validUntil
    case Store => p.responder.Storing?
    case Unlock => p.responder == Unlocking
  }

  function Apply(p: State, now: int, l: Label): State
    requires Enabled(p, now, l)
  {
    match l
    case BeginThen(r) => p.(readers := p.readers[r := Applying])
    case Start(r) =>
      // assigning to a std::thread that is joinable ends the process
      if p.thenThread.Some? then p.(terminated := true, readers := p.readers[r := Ended])
      else p.(thenThread := Some(r), readers := p.readers[r := Checking])
    case Begin(r) => p.(readers := p.readers[r := Checking])
    case Check(r) =>
      // so does an exception that leaves the thread's function
      p.(readers := p.readers[r := if p.resultRead then Refused else Waiting],
         terminated := p.terminated || (p.resultRead && p.thenThread == Some(r)))
    case TryLock(r) => p.(locked := true, readers := p.readers[r := Locked])
    case GiveUp(r) => p.(readers := p.readers[r := Expired])
    case Mark(r) =>
      p.(resultRead := true, readers := p.readers[r := if p.readers[r] == Locked then MarkedLocked else MarkedExpired])
    case Return(r) =>
      p.(readers := p.readers[r := Returned(if p.readers[r] == MarkedLocked then Answer(p.response) else Timeout)])
    case Ignore(m) => p
    case Accept(m) => p.(responder := Storing(m), accepted := p.accepted + [m])
    case Store => p.(response := p.responder.message, responder := Unlocking)
    case Unlock =>
      p.(locked := false, responder := Outside, releases := p.releases + 1, misused := p.misused || !p.locked)
  }

  /** A reader that took the permit, whether or not it has returned yet. */
  predicate TookPermit(pc: ReaderPc) {
    pc == Locked || pc == MarkedLocked || (pc.Returned? && pc.resolution.Answer?)
  }

  ghost function Takers(p: State): set<Reader> {
    set r | r in p.readers && TookPermit(p.readers[r])
  }

  /** The readers that have finished a read. */
  predicate Done(pc: ReaderPc) {
    pc.Returned? || pc.Refused?
  }

  ghost predicate Conserved(p: State) {
    !p.misused ==> |Takers(p)| + (if p.locked then 0 else 1) == p.releases
  }

  ghost predicate ReadersInv(p: State) {
    forall r :: r in p.readers ==>
      match p.readers[r]
      case MarkedLocked => p.resultRead
      case MarkedExpired => p.resultRead
      case Returned(res) => p.resultRead && (res.Answer? && |p.accepted| <= 1 ==> p.accepted == [res.message])
      case _ => true
  }

  ghost predicate ResponderInv(p: State) {
    && p.releases + (if p.responder == Outside then 0 else 1) == |p.accepted|
    && (|p.accepted| <= 1 ==> !p.misused)
    && match p.responder
       case Outside => p.accepted != [] ==> p.response == p.accepted[|p.accepted| - 1]
       case Storing(m) => p.accepted != [] && m == p.accepted[|p.accepted| - 1]
       case Unlocking => p.accepted != [] && p.response == p.accepted[|p.accepted| - 1]
  }

  ghost predicate Inv(p: State) {
    ReadersInv(p) && ResponderInv(p) && Conserved(p)
  }

  lemma FreshInv(validUntil: int)
    ensures Inv(Fresh(validUntil))
  {
    assert Takers(Fresh(validUntil)) == {};
  }

  /** With at most one accepted message, a reader holding the permit means that message has been released. */
  lemma TakerMeansReleased(p: State, r: Reader)
    requires Inv(p) && |p.accepted| <= 1 && r in Takers(p)
    ensures p.releases == 1 && p.responder == Outside && p.accepted == [p.response]
  {
    assert |Takers(p)| >= 1 by { assert Takers(p) == {r} + (Takers(p) - {r}); }
  }

  /** Only a successful try_lock_until adds a taker, and nothing takes one away. */
  lemma TakersAfter(p: State, now: int, l: Label)
    requires Enabled(p, now, l)
    ensures Takers(Apply(p, now, l)) == if l.TryLock? then Takers(p) + {l.r} else Takers(p)
    ensures l.TryLock? ==> l.r !in Takers(p)
  {
  }

  lemma StepKeepsConserved(p: State, now: int, l: Label)
    requires Conserved(p) && Enabled(p, now, l)
    ensures Conserved(Apply(p, now, l))
  {
    TakersAfter(p, now, l);
    hide Takers;
  }

  lemma StepKeepsResponder(p: State, now: int, l: Label)
    requires ResponderInv(p) && Conserved(p) && Enabled(p, now, l)
    ensures ResponderInv(Apply(p, now, l))
  {
    hide Takers;
    if l == Unlock && |p.accepted| <= 1 {
      assert p.releases == 0 && p.locked;
    }
  }

  /** While at most one message has been accepted, nobody has an answer before it is accepted. */
  lemma NoEarlyAnswer(p: State, r: Reader)
    requires Inv(p) && p.accepted == [] && r in p.readers
    ensures !TookPermit(p.readers[r])
  {
    if TookPermit(p.readers[r]) {
      TakerMeansReleased(p, r);
    }
  }

  lemma ReturnKeepsReaders(p: State, now: int, r: Reader)
    requires Inv(p) && Enabled(p, now, Return(r))
    ensures ReadersInv(Apply(p, now, Return(r)))
  {
    if r in Takers(p) && |p.accepted| <= 1 {
      TakerMeansReleased(p, r);
    }
    hide Conserved, ResponderInv;
  }

  lemma AcceptKeepsReaders(p: State, now: int, m: Bytes)
    requires Inv(p) && Enabled(p, now, Accept(m))
    ensures ReadersInv(Apply(p, now, Accept(m)))
  {
    if p.accepted == [] {
      forall r | r in p.readers ensures !TookPermit(p.readers[r]) {
        NoEarlyAnswer(p, r);
      }
    }
    hide Conserved, ResponderInv, Takers;
  }

  lemma OthersKeepReaders(p: State, now: int, l: Label)
    requires ReadersInv(p) && Enabled(p, now, l) && !l.Return? && !l.Accept?
    ensures ReadersInv(Apply(p, now, l))
  {
  }

  lemma StepKeepsReaders(p: State, now: int, l: Label)
    requires Inv(p) && Enabled(p, now, l)
    ensures ReadersInv(Apply(p, now, l))
  {
    hide Conserved, ResponderInv, ReadersInv, Apply, Enabled;
    match l {
      case Return(r) => ReturnKeepsReaders(p, now, r);
      case Accept(m) => AcceptKeepsReaders(p, now, m);
      case _ => OthersKeepReaders(p, now, l);
    }
  }

  /** Every step keeps the permit count and the readers' and responder's local facts. */
  lemma StepKeepsInv(p: State, now: int, l: Label)
    requires Inv(p) && Enabled(p, now, l)
    ensures Inv(Apply(p, now, l))
  {
    hide ReadersInv, ResponderInv, Conserved, Apply, Enabled;
    StepKeepsReaders(p, now, l);
    StepKeepsResponder(p, now, l);
    StepKeepsConserved(p, now, l);
  }

  /** And the deadline is nobody's to change. */
  lemma DeadlineStays(p: State, now: int, l: Label)
    requires Enabled(p, now, l)
    ensures Apply(p, now, l).validUntil == p.validUntil
  {
  }

  /** What readers do does not concern the responder. */
  lemma ReadersLeaveResponder(p: State, now: int, l: Label)
    requires Enabled(p, now, l) && (l.BeginThen? || l.Start? || l.Begin? || l.Check? || l.TryLock? || l.GiveUp? || l.Mark? || l.Return?)
    ensures var q := Apply(p, now, l);
      q.validUntil == p.validUntil && q.accepted == p.accepted && q.responder == p.responder
  {
  }
}
