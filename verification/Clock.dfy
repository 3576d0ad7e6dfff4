/**
 The deadline arithmetic shared by RequestSender, RequestHandler and ResponsePromise. Time points are
 counted in clock ticks from the epoch; the wire carries whole milliseconds.
 */
module Clock {

  // std::chrono::system_clock counts nanoseconds.
  const TICKS_PER_MS := 1_000_000

  /** duration_cast<milliseconds>: truncation toward zero, also before the epoch. */
  function ToMs(t: int): (ms: int)
    ensures 0 <= t ==> ms * TICKS_PER_MS <= t < (ms + 1) * TICKS_PER_MS
    ensures t <= 0 ==> (ms - 1) * TICKS_PER_MS < t <= ms * TICKS_PER_MS
  {
    if 0 <= t then t / TICKS_PER_MS else -((-t) / TICKS_PER_MS)
  }

  /** The request handler's test on the millisecond header field. */
  predicate Expired(now: int, validUntilMs: int) {
    ToMs(now) > validUntilMs
  }

  /** A millisecond is a million nanoseconds, and what is left over counts for nothing on either side of the epoch. */
  lemma ToMsCountsMillions(ms: int, rest: int)
    requires 0 <= ms && 0 <= rest < 1_000_000
    ensures ToMs(ms * 1_000_000 + rest) == ms && ToMs(-(ms * 1_000_000 + rest)) == -ms
  {
  }

  lemma ToMsIsMonotone(a: int, b: int)
    requires a <= b
    ensures ToMs(a) <= ToMs(b)
  {
  }

  /** Whatever the handler drops, the promise would refuse too: truncation never expires a request early. */
  lemma FilterIsSound(now: int, validUntil: int)
    requires Expired(now, ToMs(validUntil))
    ensures now > validUntil
  {
    if now <= validUntil {
      ToMsIsMonotone(now, validUntil);
    }
  }

  /** Once expired, always expired: the clock does not run backwards. */
  lemma ExpiryIsStable(now: int, later: int, validUntil: int)
    requires now <= later && Expired(now, ToMs(validUntil))
    ensures Expired(later, ToMs(validUntil)) && later > validUntil
  {
    FilterIsSound(now, validUntil);
    ToMsIsMonotone(now, later);
  }

  /**
   The slack of the filter, exactly. A kept request can be a whole millisecond or more past its deadline
   only when deadline and clock lie on different sides of the epoch, both within one millisecond of it.
   */
  lemma KeptLateIff(now: int, validUntil: int)
    ensures (!Expired(now, ToMs(validUntil)) && now - validUntil >= TICKS_PER_MS)
       <==> (-TICKS_PER_MS < validUntil < 0 < now < TICKS_PER_MS && now - validUntil >= TICKS_PER_MS)
  {
    if !Expired(now, ToMs(validUntil)) && now - validUntil >= TICKS_PER_MS {
      if 0 <= validUntil || now <= 0 {
        assert false;
      }
    }
  }

  /** After the epoch a kept request is less than one millisecond past its deadline. */
  lemma KeptIsNearlyOnTime(now: int, validUntil: int)
    requires 0 <= validUntil && !Expired(now, ToMs(validUntil))
    ensures now < validUntil + TICKS_PER_MS
  {
    KeptLateIff(now, validUntil);
  }

  /** The bound does fail across the epoch: here by almost a second millisecond. */
  lemma KeptCanBeLateAcrossTheEpoch()
    ensures !Expired(900_000, ToMs(-900_000)) && 900_000 - (-900_000) >= TICKS_PER_MS
  {
    KeptLateIff(900_000, -900_000);
  }
}
