/** A client that guesses as fast as the lockout lets it: the bound on serialised guesses is met with equality. */
module Guesses {
  import opened Basics
  import opened Auth
  import opened Systems
  import opened SystemInvariants
  import opened Lockout
  import opened Outcomes
  import opened SoloCalls
  import Overtaking

  // A server with one stored hash and no call in flight; the tokens from `token` on and the call ids from `id` on
  // are unused.
  ghost predicate AtRest(s: Sys, h: PinHash, token: nat, id: nat) {
    && s.hashes == [h] && s.auth.pinConfigured && s.auth.nonces == map[] && s.auth.sessions == map[]
    && (forall k :: k in s.issued ==> k.Token? && k.number < token)
    && (forall i :: i in s.calls ==> i < id && s.calls[i].Done())
    && LockInv(s)
  }

  function TakeTicket(nonce: Token, ticket: Token, t: Time): seq<Event> {
    [GenerateChallenge(t, Some(nonce)), VerifyChallenge(nonce, Readings(t, t, t), Some(ticket))]
  }

  lemma NonceGivesTicket(a: AuthState, nonce: Token, ticket: Token, t: Time)
    requires a.pinConfigured && a.nonces == map[]
    ensures var (a', out) := Auth.GenerateChallenge(a, t, Some(nonce));
            && out == Challenge(nonce)
            && VerifyNonce(a', nonce, Readings(t, t, t), Some(ticket))
               == (a.(tickets := Unexpired(a.tickets, t)[ticket := t + NONCE_TTL]), Ticket(ticket))
  {
    assert Unexpired(map[], t) == map[];
    assert map[nonce := t + NONCE_TTL] - {nonce} == map[];
    hide Unexpired;
  }

  lemma TicketIsTaken(matches: Verifier, s: Sys, nonce: Token, ticket: Token, t: Time)
    requires s.auth.pinConfigured && s.auth.nonces == map[] && s.now <= t
    requires nonce !in s.issued && ticket !in s.issued && nonce != ticket
    ensures var s' := Run(matches, s, TakeTicket(nonce, ticket, t));
            && s' == s.(auth := s.auth.(tickets := Unexpired(s.auth.tickets, t)[ticket := t + NONCE_TTL]),
                        now := t, issued := s.issued + {nonce} + {ticket}, generated := s.generated + 1)
            && s' == Step(matches, Step(matches, s, TakeTicket(nonce, ticket, t)[0]), TakeTicket(nonce, ticket, t)[1])
  {
    var es := TakeTicket(nonce, ticket, t);
    NonceGivesTicket(s.auth, nonce, ticket, t);
    FirstStep(matches, s, es);
    FirstStep(matches, Step(matches, s, es[0]), es[1..]);
    hide Run, VerifyNonce, Auth.GenerateChallenge, Unexpired;
    assert Run(matches, Step(matches, Step(matches, s, es[0]), es[1]), []) == Step(matches, Step(matches, s, es[0]), es[1]) by {
      NoSteps(matches, Step(matches, Step(matches, s, es[0]), es[1]));
    }
  }

  lemma NoSteps(matches: Verifier, s: Sys)
    ensures Run(matches, s, []) == s
  {
  }

  // Two tickets taken at the start.
  function TwoTaken(): seq<Event> {
    TakeTicket(Token(0), Token(1), 0) + TakeTicket(Token(2), Token(3), 0)
  }

  lemma TwoTakenRun(matches: Verifier, h: PinHash)
    ensures var s := Run(matches, Boot([h], false, 0), TwoTaken());
            && AtRest(s, h, 4, 0) && s.now == 0 && s.auth.lockedUntil == NEVER && s.failures == []
            && s.auth.tickets == map[Token(1) := NONCE_TTL, Token(3) := NONCE_TTL]
  {
    var boot := Boot([h], false, 0);
    TicketIsTaken(matches, boot, Token(0), Token(1), 0);
    var s := Run(matches, boot, TakeTicket(Token(0), Token(1), 0));
    assert Unexpired(map[], 0) == map[];
    assert s.auth.tickets == map[Token(1) := NONCE_TTL];
    assert Unexpired(s.auth.tickets, 0) == s.auth.tickets;
    TicketIsTaken(matches, s, Token(2), Token(3), 0);
    RunConcat(matches, boot, TakeTicket(Token(0), Token(1), 0), TakeTicket(Token(2), Token(3), 0));
    hide Run, Unexpired;
  }

  // One guess: take a ticket, and redeem it with a wrong PIN.
  function Guess(id: nat, token: nat, pin: Pin, t: Time): seq<Event> {
    TakeTicket(Token(token), Token(token + 1), t) + WholeUnlock(id, Token(token + 1), pin, t, Some(Token(token + 2)))
  }

  // A wrong PIN for a live ticket, while nothing is locked, leaves the server at rest.
  lemma WrongPinLeavesAtRest(matches: Verifier, s: Sys, h: PinHash, token: nat, id: nat, ticket: Token, pin: Pin, t: Time)
    requires AtRest(s, h, token, id) && !matches(pin, h)
    requires s.now <= t && s.auth.lockedUntil <= t && ticket in s.auth.tickets && t <= s.auth.tickets[ticket]
    ensures var s' := Run(matches, s, WholeUnlock(id, ticket, pin, t, Some(Token(token))));
            && AtRest(s', h, token + 1, id + 1) && s'.now == t
            && id in s'.calls && s'.calls[id].Unlock? && s'.calls[id].stage == Replied(WrongPin)
            && s'.failures == s.failures + [t]
            && s'.auth.tickets == s.auth.tickets - {ticket}
            && t < s'.auth.lockedUntil
  {
    var random := Some(Token(token));
    var unlock := WholeUnlock(id, ticket, pin, t, random);
    LockRun(matches, s, unlock);
    hide Run, LockInv;
    assert Unexpired(s.auth.sessions, t) == map[];
    assert Buys(s.auth, ticket, Choice(t, random, false, None)) && Current(s.hashes) == h;
    WrongUnlockAlone(matches, s, id, ticket, pin, t, random);
    UnlockAlone(matches, s, id, ticket, pin, t, random);
    Overtaking.BackoffIsPositive(s.auth.pinFailures + 1);
    hide Backoff, Buys, Unexpired, Current;
  }

  // So does an Unlock that gets no verdict: it is rate-limited, or its ticket is not there.
  lemma NoVerdictLeavesAtRest(matches: Verifier, s: Sys, h: PinHash, token: nat, id: nat, ticket: Token, pin: Pin, t: Time)
    requires AtRest(s, h, token, id) && s.now <= t
    requires RateLimited(s.auth, t) || ticket !in s.auth.tickets
    ensures var s' := Run(matches, s, WholeUnlock(id, ticket, pin, t, None));
            && AtRest(s', h, token, id + 1) && s'.now == t && s'.auth == s.auth
            && id in s'.calls && s'.calls[id].Unlock?
            && s'.calls[id].stage == Replied(if RateLimited(s.auth, t) then RateLimitedUnlock else TicketRefused)
  {
    UnlockAlone(matches, s, id, ticket, pin, t, None);
    LockRun(matches, s, WholeUnlock(id, ticket, pin, t, None));
    hide Run, LockInv;
    assert ticket !in s.auth.tickets ==> s.auth.tickets - {ticket} == s.auth.tickets;
  }

  lemma {:induction false} AloneIsSerialised(matches: Verifier, s: Sys, id: nat, t: Time, random: Option<Token>, i: nat)
    requires i <= 6
    ensures Serialised(matches, s, Alone(id, t, random, i))
    decreases 6 - i
  {
    if i < 6 {
      var es := Alone(id, t, random, i);
      assert es[0] == Advance(id, Steady(t, random)[i]) && es[1..] == Alone(id, t, random, i + 1);
      hide Step;
      AloneIsSerialised(matches, Step(matches, s, es[0]), id, t, random, i + 1);
    }
  }

  lemma {:induction false} SerialisedConcat(matches: Verifier, s: Sys, es: seq<Event>, more: seq<Event>)
    requires Serialised(matches, s, es) && Serialised(matches, Run(matches, s, es), more)
    ensures Serialised(matches, s, es + more)
    decreases |es|
  {
    hide Step;
    if es == [] {
      assert es + more == more;
    } else {
      assert (es + more)[0] == es[0] && (es + more)[1..] == es[1..] + more;
      SerialisedConcat(matches, Step(matches, s, es[0]), es[1..], more);
    }
  }

  lemma TakingIsSerialised(matches: Verifier, s: Sys, nonce: Token, ticket: Token, t: Time)
    ensures Serialised(matches, s, TakeTicket(nonce, ticket, t))
  {
    var es := TakeTicket(nonce, ticket, t);
    var s1 := Step(matches, s, es[0]);
    assert es[1..][1..] == [];
    hide Step;
    assert Serialised(matches, s1, es[1..]);
  }

  predicate AllDone(s: Sys) {
    forall i :: i in s.calls ==> s.calls[i].Done()
  }

  lemma GuessIsSerialised(matches: Verifier, s: Sys, id: nat, token: nat, pin: Pin, t: Time)
    requires AllDone(Run(matches, s, TakeTicket(Token(token), Token(token + 1), t)))
    ensures Serialised(matches, s, Guess(id, token, pin, t))
  {
    var take, unlock := TakeTicket(Token(token), Token(token + 1), t), WholeUnlock(id, Token(token + 1), pin, t, Some(Token(token + 2)));
    assert unlock[1..] == Alone(id, t, Some(Token(token + 2)), 0);
    var s1 := Run(matches, s, take);
    hide Step, Run;
    TakingIsSerialised(matches, s, Token(token), Token(token + 1), t);
    AloneIsSerialised(matches, Step(matches, s1, unlock[0]), id, t, Some(Token(token + 2)), 0);
    SerialisedConcat(matches, s, take, unlock);
  }

  lemma OneGuess(matches: Verifier, s: Sys, h: PinHash, token: nat, id: nat, pin: Pin, t: Time)
    requires AtRest(s, h, token, id) && !matches(pin, h) && s.now <= t && s.auth.lockedUntil <= t
    ensures var s' := Run(matches, s, Guess(id, token, pin, t));
            AtRest(s', h, token + 3, id + 1) && s'.now == t && s'.failures == s.failures + [t]
    ensures Serialised(matches, s, Guess(id, token, pin, t))
  {
    var nonce, ticket := Token(token), Token(token + 1);
    TicketIsTaken(matches, s, nonce, ticket, t);
    var s1 := Run(matches, s, TakeTicket(nonce, ticket, t));
    assert AtRest(s1, h, token + 2, id);
    assert AllDone(s1);
    hide Run, AtRest, AllDone;
    GuessIsSerialised(matches, s, id, token, pin, t);
    RunConcat(matches, s, TakeTicket(nonce, ticket, t), WholeUnlock(id, ticket, pin, t, Some(Token(token + 2))));
    WrongPinLeavesAtRest(matches, s1, h, token + 2, id, ticket, pin, t);
  }

  ghost predicate Tight(failures: seq<Time>) {
    forall i :: 1 <= i < |failures| ==> failures[i] == failures[i - 1] + Backoff(i)
  }

  // The next guess can come exactly when the delay set by the last one has passed.
  lemma NextGuessAt(s: Sys, h: PinHash, token: nat, id: nat)
    requires AtRest(s, h, token, id)
    requires s.now == if s.failures != [] then s.failures[|s.failures| - 1] else 0
    ensures s.now <= s.auth.lockedUntil
    ensures s.failures != [] ==> s.auth.lockedUntil == s.failures[|s.failures| - 1] + Backoff(|s.failures|)
  {
    if s.failures != [] {
      Overtaking.BackoffIsPositive(|s.failures|);
    }
    hide Backoff;
  }

  lemma {:induction false} FastestRun(matches: Verifier, h: PinHash, pin: Pin, n: nat) returns (es: seq<Event>)
    requires !matches(pin, h)
    ensures var boot := Boot([h], false, 0); var s := Run(matches, boot, es);
            && Serialised(matches, boot, es)
            && AtRest(s, h, 3 * n, n) && |s.failures| == n && Tight(s.failures)
            && s.now == if n > 0 then s.failures[n - 1] else 0
  {
    var boot := Boot([h], false, 0);
    if n == 0 {
      es := [];
    } else {
      var before := FastestRun(matches, h, pin, n - 1);
      var s := Run(matches, boot, before);
      var t := s.auth.lockedUntil;
      NextGuessAt(s, h, 3 * (n - 1), n - 1);
      hide Run, AtRest, Backoff;
      OneGuess(matches, s, h, 3 * (n - 1), n - 1, pin, t);
      es := before + Guess(n - 1, 3 * (n - 1), pin, t);
      RunConcat(matches, boot, before, Guess(n - 1, 3 * (n - 1), pin, t));
      SerialisedConcat(matches, boot, before, Guess(n - 1, 3 * (n - 1), pin, t));
    }
  }

  lemma {:induction false} TightSpan(failures: seq<Time>, n: nat)
    requires Tight(failures) && 1 <= n <= |failures|
    ensures failures[n - 1] - failures[0] == Delays(n)
  {
    if n > 1 {
      TightSpan(failures, n - 1);
    }
  }

  /** The bound on serialised guesses cannot be improved: for every n some run meets it with equality. */
  lemma FloorIsMet(matches: Verifier, h: PinHash, pin: Pin, n: nat) returns (es: seq<Event>)
    requires n >= 1 && !matches(pin, h)
    ensures Serialised(matches, Boot([h], false, 0), es)
    ensures var failures := Run(matches, Boot([h], false, 0), es).failures;
            && |failures| == n
            && (n <= 6 ==> failures[n - 1] - failures[0] == SECOND * (Pow2(n) - 2))
            && (n >= 6 ==> failures[n - 1] - failures[0] == SECOND * (60 * n - 298))
  {
    es := FastestRun(matches, h, pin, n);
    TightSpan(Run(matches, Boot([h], false, 0), es).failures, n);
    DelaysAddUp(n);
  }
}
