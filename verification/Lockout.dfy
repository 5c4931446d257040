/** The lockout after wrong PINs: when it may move, and how slowly guesses can come. */
module Lockout {
  import opened Basics
  import opened Auth
  import opened AuthEffects
  import opened Systems
  import opened SystemInvariants

  function Pow2(n: nat): nat {
    if n == 0 then 1 else 2 * Pow2(n - 1)
  }

  lemma {:induction false} ShiftIsPower(n: nat)
    ensures ShiftLeft(1, n) == Pow2(n)
  {
    if n > 0 {
      ShiftIsPower(n - 1);
    }
  }

  lemma {:induction false} PowerGrows(m: nat, n: nat)
    requires m <= n
    ensures Pow2(m) <= Pow2(n)
    decreases n - m
  {
    if m < n {
      PowerGrows(m, n - 1);
    }
  }

  /** The n-th wrong PIN in a row locks for min(60, 2^n) seconds. */
  lemma BackoffIsClampedPower(n: nat)
    requires n >= 1
    ensures Backoff(n) == SECOND * Min(60, Pow2(n))
  {
    var k := Min(n - 1, 5);
    ShiftIsPower(k);
    hide ShiftLeft;
    assert Backoff(n) == SECOND * Min(60, 2 * Pow2(k));
    assert Pow2(5) == 32 && Pow2(6) == 64;
    hide Backoff;
    if n <= 6 {
      assert Pow2(n) == 2 * Pow2(n - 1);
    } else {
      PowerGrows(6, n);
    }
  }

  lemma BackoffGrows(m: nat, n: nat)
    requires 1 <= m <= n
    ensures Backoff(m) <= Backoff(n)
  {
    BackoffIsClampedPower(m);
    BackoffIsClampedPower(n);
    PowerGrows(m, n);
  }

  // The lockout is determined by the wrong PINs recorded since the last reset.
  ghost predicate LockInv(s: Sys) {
    && 0 <= s.now
    && |s.failures| == s.auth.pinFailures
    && (s.failures == [] ==> s.auth.lockedUntil == NEVER)
    && (s.failures != [] ==>
          && s.failures[|s.failures| - 1] <= s.now
          && s.auth.lockedUntil == s.failures[|s.failures| - 1] + Backoff(|s.failures|))
  }

  // How a step moves the clock, the recorded failures and the lockout.
  ghost predicate LockMoves(s: Sys, s': Sys) {
    && s.now <= s'.now
    && (|| (s'.failures == s.failures && s'.auth.pinFailures == s.auth.pinFailures && s'.auth.lockedUntil == s.auth.lockedUntil)
        || (s'.failures == [] && s'.auth.pinFailures == 0 && s'.auth.lockedUntil == NEVER)
        || (&& s'.failures == s.failures + [s'.now] && s'.auth.pinFailures == s.auth.pinFailures + 1
            && s'.auth.lockedUntil == s'.now + Backoff(s.auth.pinFailures + 1)))
  }

  ghost predicate NextLock(a: AuthState, now: Time, r: (AuthState, Call, Effect)) {
    var (a', _, effect) := r;
    match effect
    case FailureRecorded => a'.pinFailures == a.pinFailures + 1 && a'.lockedUntil == now + Backoff(a.pinFailures + 1)
    case FailuresReset => a'.pinFailures == 0 && a'.lockedUntil == NEVER
    case _ => a'.pinFailures == a.pinFailures && a'.lockedUntil == a.lockedUntil
  }

  lemma NextLockMoves(matches: Verifier, a: AuthState, hashes: seq<PinHash>, call: Call, c: Choice)
    ensures NextLock(a, c.now, Next(matches, a, hashes, call, c))
  {
    hide Backoff;
    if call.Unlock? && call.stage.Redeeming? {
      RedeemEffect(a, call.ticket, c.now, c.random);
    }
    hide RedeemUnlockTicket;
  }

  lemma StepLockMoves(matches: Verifier, s: Sys, e: Event)
    ensures LockMoves(s, Step(matches, s, e))
  {
    hide Backoff;
    if Enabled(matches, s, e) {
      if e.Advance? {
        NextLockMoves(matches, s.auth, s.hashes, s.calls[e.id], e.choice);
        hide Next, Call.Done;
      } else {
        EnvironmentMoves(matches, s, e);
        hide VerifyNonce, Auth.GenerateChallenge, Auth.SweepExpired, Auth.ValidateToken;
      }
    }
  }

  lemma LockStep(matches: Verifier, s: Sys, e: Event)
    requires LockInv(s)
    ensures LockInv(Step(matches, s, e))
  {
    StepLockMoves(matches, s, e);
    hide Step, Backoff;
  }

  lemma {:induction false} LockRun(matches: Verifier, s: Sys, es: seq<Event>)
    requires LockInv(s)
    ensures LockInv(Run(matches, s, es))
    decreases |es|
  {
    if es != [] {
      LockStep(matches, s, es[0]);
      LockRun(matches, Step(matches, s, es[0]), es[1..]);
    }
  }

  /** In every reachable state, no step moves the lockout back, unless it resets the failures. */
  lemma LockoutNeverMovesBack(matches: Verifier, hashes: seq<PinHash>, readFails: bool, now: Time, es: seq<Event>, e: Event)
    requires 0 <= now
    ensures var s := Run(matches, Boot(hashes, readFails, now), es);
            var s' := Step(matches, s, e);
            s.auth.lockedUntil <= s'.auth.lockedUntil || (s'.failures == [] && s'.auth.pinFailures == 0)
  {
    LockRun(matches, Boot(hashes, readFails, now), es);
    var s := Run(matches, Boot(hashes, readFails, now), es);
    StepLockMoves(matches, s, e);
    if s.failures != [] {
      BackoffGrows(|s.failures|, |s.failures| + 1);
    }
    assert Backoff(1) >= 0 by { BackoffIsClampedPower(1); }
    hide Backoff, Step;
  }

  /** In every reachable state the rate check refuses exactly while the n-th wrong PIN in a row is less than
      min(60, 2^n) seconds old. */
  lemma LimitedExactlyWhileLocked(matches: Verifier, hashes: seq<PinHash>, readFails: bool, start: Time, es: seq<Event>, now: Time)
    requires 0 <= start && Run(matches, Boot(hashes, readFails, start), es).now <= now
    ensures var s := Run(matches, Boot(hashes, readFails, start), es);
            var n := |s.failures|;
            RateLimited(s.auth, now) <==> n > 0 && now - s.failures[n - 1] < SECOND * Min(60, Pow2(n))
  {
    LockRun(matches, Boot(hashes, readFails, start), es);
    var s := Run(matches, Boot(hashes, readFails, start), es);
    if s.failures != [] {
      BackoffIsClampedPower(|s.failures|);
    }
  }

  // ---- Which schedules space the wrong PINs ----

  // A call that is about to record a failure.
  predicate Recording(call: Call) {
    if call.Unlock? then call.stage.RecordingFailure? else call.step.RecordingWrongPin?
  }

  // A call that has passed the rate check and may still record a failure.
  predicate PastCheck(call: Call) {
    if call.Unlock? then call.stage.Redeeming? || call.stage.ReadingHash? || call.stage.RecordingFailure?
    else call.step.RecordingWrongPin?
  }

  predicate RecordsFailure(matches: Verifier, s: Sys, e: Event) {
    Enabled(matches, s, e) && e.Advance? && Recording(s.calls[e.id])
  }

  // No failure is recorded while another call stands between its rate check and its verdict.
  predicate Unovertaken(matches: Verifier, s: Sys, es: seq<Event>)
    decreases |es|
  {
    es != [] ==>
      && (RecordsFailure(matches, s, es[0]) ==>
            forall id :: id in s.calls && id != es[0].id ==> !PastCheck(s.calls[id]))
      && Unovertaken(matches, Step(matches, s, es[0]), es[1..])
  }

  // At most one call at a time stands between its rate check and its verdict.
  predicate OnePastCheck(s: Sys) {
    forall id, other :: id in s.calls && other in s.calls && PastCheck(s.calls[id]) && PastCheck(s.calls[other]) ==> id == other
  }

  predicate OneAtATime(matches: Verifier, s: Sys, es: seq<Event>)
    decreases |es|
  {
    OnePastCheck(s) && (es != [] ==> OneAtATime(matches, Step(matches, s, es[0]), es[1..]))
  }

  // Unlock and SetPIN calls are serialised: one starts only when every earlier one has ended.
  predicate Serialised(matches: Verifier, s: Sys, es: seq<Event>)
    decreases |es|
  {
    es != [] ==>
      && (es[0].CallUnlock? || es[0].CallSetPin? ==> forall id :: id in s.calls ==> s.calls[id].Done())
      && Serialised(matches, Step(matches, s, es[0]), es[1..])
  }

  ghost predicate Spaced(failures: seq<Time>) {
    forall i :: 1 <= i < |failures| ==> failures[i - 1] + Backoff(i) <= failures[i]
  }

  ghost predicate SpacedInv(s: Sys) {
    && (forall id :: id in s.calls && PastCheck(s.calls[id]) ==> s.auth.lockedUntil <= s.now)
    && Spaced(s.failures)
  }

  ghost predicate CheckMoves(a: AuthState, now: Time, call: Call, r: (AuthState, Call, Effect)) {
    var (a', call', effect) := r;
    && (PastCheck(call') ==> PastCheck(call) || a.lockedUntil <= now)
    && (PastCheck(call') ==> !effect.FailureRecorded?)
    && (effect.FailureRecorded? <==> Recording(call))
    && (call.Done() ==> call'.Done())
    && (PastCheck(call) ==> !call.Done())
    && (Recording(call) ==> PastCheck(call) && !PastCheck(call'))
  }

  lemma NextCheckMoves(matches: Verifier, a: AuthState, hashes: seq<PinHash>, call: Call, c: Choice)
    ensures CheckMoves(a, c.now, call, Next(matches, a, hashes, call, c))
  {
    hide RedeemUnlockTicket;
  }

  lemma SpacedAround(matches: Verifier, s: Sys, e: Event)
    requires LockInv(s) && SpacedInv(s) && Enabled(matches, s, e) && !e.Advance?
    ensures SpacedInv(Step(matches, s, e))
  {
    EnvironmentMoves(matches, s, e);
    StepLockMoves(matches, s, e);
    hide Step, DrawsTokens, LockInv, Spaced, Backoff;
  }

  lemma SpacedAdvance(matches: Verifier, s: Sys, id: nat, c: Choice)
    requires LockInv(s) && SpacedInv(s) && Enabled(matches, s, Advance(id, c))
    requires Recording(s.calls[id]) ==> forall other :: other in s.calls && other != id ==> !PastCheck(s.calls[other])
    ensures SpacedInv(Advanced(matches, s, id, c))
  {
    NextCheckMoves(matches, s.auth, s.hashes, s.calls[id], c);
    NextLockMoves(matches, s.auth, s.hashes, s.calls[id], c);
    hide Next, Call.Done, PastCheck, Recording, Backoff;
  }

  lemma {:induction false} SpacedRun(matches: Verifier, s: Sys, es: seq<Event>)
    requires LockInv(s) && SpacedInv(s) && Unovertaken(matches, s, es)
    ensures LockInv(Run(matches, s, es)) && SpacedInv(Run(matches, s, es))
    decreases |es|
  {
    if es != [] {
      LockStep(matches, s, es[0]);
      if Enabled(matches, s, es[0]) {
        if es[0].Advance? {
          SpacedAdvance(matches, s, es[0].id, es[0].choice);
        } else {
          SpacedAround(matches, s, es[0]);
        }
      }
      hide LockInv, SpacedInv, Enabled;
      SpacedRun(matches, Step(matches, s, es[0]), es[1..]);
    }
  }

  /** One call past the rate check at a time suffices: then no call is overtaken. */
  lemma {:induction false} OneAtATimeIsUnovertaken(matches: Verifier, s: Sys, es: seq<Event>)
    requires OneAtATime(matches, s, es)
    ensures Unovertaken(matches, s, es)
    decreases |es|
  {
    if es != [] {
      hide Step;
      OneAtATimeIsUnovertaken(matches, Step(matches, s, es[0]), es[1..]);
    }
  }

  predicate OneRunning(s: Sys) {
    forall id, other :: id in s.calls && other in s.calls && !s.calls[id].Done() && !s.calls[other].Done() ==> id == other
  }

  lemma OneRunningStep(matches: Verifier, s: Sys, e: Event)
    requires OneRunning(s)
    requires e.CallUnlock? || e.CallSetPin? ==> forall id :: id in s.calls ==> s.calls[id].Done()
    ensures OneRunning(Step(matches, s, e))
  {
    if Enabled(matches, s, e) {
      if e.Advance? {
        NextCheckMoves(matches, s.auth, s.hashes, s.calls[e.id], e.choice);
        hide Next, Call.Done, PastCheck, Recording;
      } else {
        EnvironmentMoves(matches, s, e);
        hide Step, DrawsTokens;
      }
    }
  }

  /** Serialising the calls suffices for one past the rate check at a time. */
  lemma {:induction false} SerialisedIsOneAtATime(matches: Verifier, s: Sys, es: seq<Event>)
    requires OneRunning(s) && Serialised(matches, s, es)
    ensures OneAtATime(matches, s, es)
    decreases |es|
  {
    if es != [] {
      OneRunningStep(matches, s, es[0]);
      hide Step;
      SerialisedIsOneAtATime(matches, Step(matches, s, es[0]), es[1..]);
    }
  }

  // The least number of seconds from the first to the n-th wrong PIN.
  function Floor(n: nat): int
    requires n >= 1
  {
    if n <= 6 then Pow2(n) - 2 else 60 * n - 298
  }

  // The sum of the delays set by the first n - 1 wrong PINs.
  function Delays(n: nat): Time
    requires n >= 1
  {
    if n == 1 then 0 else Delays(n - 1) + Backoff(n - 1)
  }

  lemma {:induction false} DelaysAddUp(n: nat)
    requires n >= 1
    ensures Delays(n) == SECOND * Floor(n)
    ensures n <= 6 ==> Delays(n) == SECOND * (Pow2(n) - 2)
    ensures n >= 6 ==> Delays(n) == SECOND * (60 * n - 298)
  {
    assert Pow2(1) == 2 && Pow2(5) == 32 && Pow2(6) == 64;
    if n > 1 {
      DelaysAddUp(n - 1);
      BackoffIsClampedPower(n - 1);
      if n <= 6 {
        PowerGrows(n - 1, 5);
      } else {
        PowerGrows(6, n - 1);
      }
    }
  }

  lemma {:induction false} SpacedSpan(failures: seq<Time>, n: nat)
    requires Spaced(failures) && 1 <= n <= |failures|
    ensures failures[n - 1] - failures[0] >= Delays(n)
  {
    if n > 1 {
      SpacedSpan(failures, n - 1);
      assert failures[n - 2] + Backoff(n - 1) <= failures[n - 1];
    }
  }

  /** When no call is overtaken between its rate check and its verdict, the n-th wrong PIN since the last reset
      comes at least 2^n - 2 seconds after the first for n <= 6, and at least 60n - 298 seconds after it for n >= 6.
      Calls may overlap in every other way. */
  lemma UnovertakenGuessesAreSlow(matches: Verifier, hashes: seq<PinHash>, readFails: bool, now: Time, es: seq<Event>, n: nat)
    requires 0 <= now && Unovertaken(matches, Boot(hashes, readFails, now), es)
    requires 1 <= n <= |Run(matches, Boot(hashes, readFails, now), es).failures|
    ensures var failures := Run(matches, Boot(hashes, readFails, now), es).failures;
            && (n <= 6 ==> failures[n - 1] - failures[0] >= SECOND * (Pow2(n) - 2))
            && (n >= 6 ==> failures[n - 1] - failures[0] >= SECOND * (60 * n - 298))
  {
    SpacedRun(matches, Boot(hashes, readFails, now), es);
    SpacedSpan(Run(matches, Boot(hashes, readFails, now), es).failures, n);
    DelaysAddUp(n);
  }

  /** The same when at most one call at a time is between its rate check and its verdict. */
  lemma GuessesOneAtATimeAreSlow(matches: Verifier, hashes: seq<PinHash>, readFails: bool, now: Time, es: seq<Event>, n: nat)
    requires 0 <= now && OneAtATime(matches, Boot(hashes, readFails, now), es)
    requires 1 <= n <= |Run(matches, Boot(hashes, readFails, now), es).failures|
    ensures var failures := Run(matches, Boot(hashes, readFails, now), es).failures;
            && (n <= 6 ==> failures[n - 1] - failures[0] >= SECOND * (Pow2(n) - 2))
            && (n >= 6 ==> failures[n - 1] - failures[0] >= SECOND * (60 * n - 298))
  {
    OneAtATimeIsUnovertaken(matches, Boot(hashes, readFails, now), es);
    UnovertakenGuessesAreSlow(matches, hashes, readFails, now, es, n);
  }

  /** The same when Unlock and SetPIN calls are serialised. */
  lemma SerialGuessesAreSlow(matches: Verifier, hashes: seq<PinHash>, readFails: bool, now: Time, es: seq<Event>, n: nat)
    requires 0 <= now && Serialised(matches, Boot(hashes, readFails, now), es)
    requires 1 <= n <= |Run(matches, Boot(hashes, readFails, now), es).failures|
    ensures var failures := Run(matches, Boot(hashes, readFails, now), es).failures;
            && (n <= 6 ==> failures[n - 1] - failures[0] >= SECOND * (Pow2(n) - 2))
            && (n >= 6 ==> failures[n - 1] - failures[0] >= SECOND * (60 * n - 298))
  {
    SerialisedIsOneAtATime(matches, Boot(hashes, readFails, now), es);
    GuessesOneAtATimeAreSlow(matches, hashes, readFails, now, es, n);
  }
}
