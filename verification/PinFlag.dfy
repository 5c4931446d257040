/** The in-memory "PIN configured" flag against the stored PIN hash. */
module PinFlag {
  import opened Basics
  import opened Auth
  import opened AuthEffects
  import opened Systems
  import opened SystemInvariants

  predicate BetweenStoreAndFlag(call: Call) {
    call.SetPin? && call.step.Flagging?
  }

  // An Unlock call that has redeemed its ticket.
  predicate PastRedeem(call: Call) {
    call.Unlock? && !call.stage.CheckingLimit? && !call.stage.Redeeming?
    && !(call.stage.Replied? && (call.stage.reply.RateLimitedUnlock? || call.stage.reply.TicketRefused?))
  }

  ghost predicate FlagInv(s: Sys) {
    && (s.auth.pinConfigured ==> s.hashes != [])
    && (s.auth.tickets != map[] ==> s.auth.pinConfigured)
    && (forall id :: id in s.calls && PastRedeem(s.calls[id]) ==> s.auth.pinConfigured)
    && (forall id :: id in s.calls && s.calls[id].SetPin? && (s.calls[id].step.Flagging? || s.calls[id].step.Invalidating?) ==>
          s.hashes != [])
  }

  // How one step of a call touches the flag, the hashes and the tickets.
  ghost predicate FlagMoves(a: AuthState, hashes: seq<PinHash>, call: Call, r: (AuthState, Call, Effect)) {
    var (a', call', effect) := r;
    && call'.Unlock? == call.Unlock?
    && a'.tickets.Keys <= a.tickets.Keys
    && (PastRedeem(call') ==> PastRedeem(call) || a.tickets != map[])
    && (BetweenStoreAndFlag(call) ==> a'.pinConfigured)
    && (!BetweenStoreAndFlag(call) ==> a'.pinConfigured == a.pinConfigured)
    && (effect.HashStored? ==> BetweenStoreAndFlag(call'))
    && (call'.SetPin? && call'.step.Flagging? ==> effect.HashStored?)
    && (call'.SetPin? && call'.step.Invalidating? ==> BetweenStoreAndFlag(call))
  }

  lemma RedeemFlagMoves(matches: Verifier, a: AuthState, hashes: seq<PinHash>, u: Call, c: Choice)
    requires u.Unlock? && u.stage.Redeeming?
    ensures FlagMoves(a, hashes, u, UnlockNext(matches, a, hashes, u, c))
  {
    RedeemEffect(a, u.ticket, c.now, c.random);
    hide RedeemUnlockTicket;
  }

  lemma NextFlagMoves(matches: Verifier, a: AuthState, hashes: seq<PinHash>, call: Call, c: Choice)
    requires !call.Done()
    ensures FlagMoves(a, hashes, call, Next(matches, a, hashes, call, c))
  {
    if call.Unlock? && call.stage.Redeeming? {
      RedeemFlagMoves(matches, a, hashes, call, c);
    }
    hide RedeemUnlockTicket;
  }

  // The same for the whole state, without the step function.
  ghost predicate FlagSteps(s: Sys, id: nat, s': Sys) {
    && id in s.calls && id in s'.calls && s'.calls == s.calls[id := s'.calls[id]]
    && s'.calls[id].Unlock? == s.calls[id].Unlock?
    && s'.auth.tickets.Keys <= s.auth.tickets.Keys
    && (PastRedeem(s'.calls[id]) ==> PastRedeem(s.calls[id]) || s.auth.tickets != map[])
    && (BetweenStoreAndFlag(s.calls[id]) ==> s'.auth.pinConfigured)
    && (!BetweenStoreAndFlag(s.calls[id]) ==> s'.auth.pinConfigured == s.auth.pinConfigured)
    && s.hashes <= s'.hashes
    && (s'.hashes == s.hashes || BetweenStoreAndFlag(s'.calls[id]))
    && (BetweenStoreAndFlag(s'.calls[id]) ==> s'.hashes != [])
    && (s'.calls[id].SetPin? && s'.calls[id].step.Invalidating? ==> BetweenStoreAndFlag(s.calls[id]))
  }

  lemma AdvancedFlagSteps(matches: Verifier, s: Sys, id: nat, c: Choice)
    requires Enabled(matches, s, Advance(id, c))
    ensures FlagSteps(s, id, Advanced(matches, s, id, c))
  {
    NextFlagMoves(matches, s.auth, s.hashes, s.calls[id], c);
    hide Next, PastRedeem, Call.Done;
  }

  lemma FlagAdvance(s: Sys, id: nat, s': Sys)
    requires FlagInv(s) && FlagSteps(s, id, s')
    ensures FlagInv(s')
  {
    hide PastRedeem;
  }

  lemma FlagAround(matches: Verifier, s: Sys, e: Event)
    requires FlagInv(s) && Enabled(matches, s, e) && !e.Advance?
    ensures FlagInv(Step(matches, s, e))
  {
    EnvironmentMoves(matches, s, e);
    var s' := Step(matches, s, e);
    assert s'.auth.tickets != map[] ==> s'.auth.pinConfigured by {
      if e.VerifyChallenge? {
        VerifyNonceEffect(s.auth, e.nonce, e.clock, e.random);
        hide VerifyNonce;
      } else if e.GenerateChallenge? {
        GenerateEffect(s.auth, e.now, e.random);
      }
    }
    assert Surrounds(s, e, s');
    hide Step, DrawsTokens;
  }

  lemma FlagStep(matches: Verifier, s: Sys, e: Event)
    requires FlagInv(s)
    ensures FlagInv(Step(matches, s, e))
  {
    if Enabled(matches, s, e) {
      if e.Advance? {
        AdvancedFlagSteps(matches, s, e.id, e.choice);
        FlagAdvance(s, e.id, Advanced(matches, s, e.id, e.choice));
        hide FlagInv, Advanced;
      } else {
        FlagAround(matches, s, e);
      }
    }
  }

  lemma {:induction false} FlagRun(matches: Verifier, s: Sys, es: seq<Event>)
    requires FlagInv(s)
    ensures FlagInv(Run(matches, s, es))
    decreases |es|
  {
    if es != [] {
      FlagStep(matches, s, es[0]);
      FlagRun(matches, Step(matches, s, es[0]), es[1..]);
    }
  }

  // ---- The flag and the storage, exactly ----

  // A SetPIN call that has set the flag, and one that has stored its hash.
  predicate HasFlagged(call: Call) {
    call.SetPin? && (call.step.Invalidating? || call.step == Answered(PinSet))
  }

  predicate HasStored(call: Call) {
    HasFlagged(call) || BetweenStoreAndFlag(call)
  }

  predicate SomeFlagged(s: Sys) {
    exists id :: id in s.calls && HasFlagged(s.calls[id])
  }

  predicate SomeStored(s: Sys) {
    exists id :: id in s.calls && HasStored(s.calls[id])
  }

  predicate SomeBetween(s: Sys) {
    exists id :: id in s.calls && BetweenStoreAndFlag(s.calls[id])
  }

  // `atStart` and `flagged` tell whether the database held a hash at the start, and whether the start-up read found it.
  ghost predicate ExactInv(s: Sys, atStart: bool, flagged: bool) {
    && (s.auth.pinConfigured <==> flagged || SomeFlagged(s))
    && (s.hashes != [] <==> atStart || SomeStored(s))
  }

  // One step of a call: it flags exactly from its flag step on, and has stored exactly from its store step on.
  ghost predicate Progresses(s: Sys, id: nat, s': Sys) {
    && id in s.calls && id in s'.calls && s'.calls == s.calls[id := s'.calls[id]]
    && (HasFlagged(s'.calls[id]) <==> HasFlagged(s.calls[id]) || BetweenStoreAndFlag(s.calls[id]))
    && s'.auth.pinConfigured == (s.auth.pinConfigured || BetweenStoreAndFlag(s.calls[id]))
    && (HasStored(s.calls[id]) ==> HasStored(s'.calls[id]))
    && (s'.hashes == s.hashes || HasStored(s'.calls[id]))
    && s.hashes <= s'.hashes
    && (HasStored(s'.calls[id]) ==> HasStored(s.calls[id]) || s'.hashes != [])
  }

  ghost predicate NextProgresses(a: AuthState, call: Call, r: (AuthState, Call, Effect)) {
    var (a', call', effect) := r;
    && (HasFlagged(call') <==> HasFlagged(call) || BetweenStoreAndFlag(call))
    && a'.pinConfigured == (a.pinConfigured || BetweenStoreAndFlag(call))
    && (HasStored(call') <==> HasStored(call) || effect.HashStored?)
  }

  lemma UnlockProgresses(matches: Verifier, a: AuthState, hashes: seq<PinHash>, u: Call, c: Choice)
    requires u.Unlock?
    ensures NextProgresses(a, u, UnlockNext(matches, a, hashes, u, c))
  {
    if u.stage.Redeeming? {
      RedeemEffect(a, u.ticket, c.now, c.random);
      hide RedeemUnlockTicket;
    } else {
      hide RedeemUnlockTicket;
    }
  }

  lemma SetPinProgresses(matches: Verifier, a: AuthState, hashes: seq<PinHash>, p: Call, c: Choice)
    requires p.SetPin?
    ensures NextProgresses(a, p, SetPinNext(matches, a, hashes, p, c))
  {
  }

  lemma CallNextProgresses(matches: Verifier, a: AuthState, hashes: seq<PinHash>, call: Call, c: Choice)
    ensures NextProgresses(a, call, Next(matches, a, hashes, call, c))
  {
    hide NextProgresses, UnlockNext, SetPinNext;
    if call.Unlock? {
      UnlockProgresses(matches, a, hashes, call, c);
    } else {
      SetPinProgresses(matches, a, hashes, call, c);
    }
  }

  lemma AdvancedProgresses(matches: Verifier, s: Sys, id: nat, c: Choice)
    requires id in s.calls
    ensures Progresses(s, id, Advanced(matches, s, id, c))
  {
    CallNextProgresses(matches, s.auth, s.hashes, s.calls[id], c);
    hide Next, HasFlagged, HasStored, BetweenStoreAndFlag;
  }

  lemma ExactAdvance(s: Sys, id: nat, s': Sys, atStart: bool, flagged: bool)
    requires ExactInv(s, atStart, flagged) && Progresses(s, id, s')
    ensures ExactInv(s', atStart, flagged)
  {
    assert HasFlagged(s.calls[id]) ==> HasFlagged(s'.calls[id]);
    assert BetweenStoreAndFlag(s.calls[id]) ==> HasFlagged(s'.calls[id]);
    hide HasFlagged, BetweenStoreAndFlag;
    forall other | other in s.calls && other != id ensures s'.calls[other] == s.calls[other] {
    }
    hide HasStored;
    KeepWitness(s, id, s');
  }

  lemma KeepWitness(s: Sys, id: nat, s': Sys)
    requires Progresses(s, id, s')
    ensures SomeFlagged(s') <==> SomeFlagged(s) || BetweenStoreAndFlag(s.calls[id])
    ensures SomeStored(s') <==> SomeStored(s) || HasStored(s'.calls[id])
  {
    hide HasFlagged, HasStored, BetweenStoreAndFlag;
    if SomeFlagged(s) {
      var other :| other in s.calls && HasFlagged(s.calls[other]);
      assert other in s'.calls && HasFlagged(s'.calls[other]);
    }
    if SomeFlagged(s') {
      var other :| other in s'.calls && HasFlagged(s'.calls[other]);
      assert other in s.calls && (other != id ==> HasFlagged(s.calls[other]));
    }
    if SomeStored(s) {
      var other :| other in s.calls && HasStored(s.calls[other]);
      assert other in s'.calls && HasStored(s'.calls[other]);
    }
    if SomeStored(s') {
      var other :| other in s'.calls && HasStored(s'.calls[other]);
      assert other in s.calls && (other != id ==> HasStored(s.calls[other]));
    }
  }

  lemma ExactAround(matches: Verifier, s: Sys, e: Event, atStart: bool, flagged: bool)
    requires ExactInv(s, atStart, flagged) && Enabled(matches, s, e) && !e.Advance?
    ensures ExactInv(Step(matches, s, e), atStart, flagged)
  {
    EnvironmentMoves(matches, s, e);
    var s' := Step(matches, s, e);
    hide Step, DrawsTokens;
    assert forall id :: id in s.calls ==> id in s'.calls && s'.calls[id] == s.calls[id];
    assert forall id :: id in s'.calls && id !in s.calls ==> !HasFlagged(s'.calls[id]) && !HasStored(s'.calls[id]);
    hide HasFlagged, HasStored;
    if SomeFlagged(s) {
      var id :| id in s.calls && HasFlagged(s.calls[id]);
      assert HasFlagged(s'.calls[id]);
    }
    if SomeStored(s) {
      var id :| id in s.calls && HasStored(s.calls[id]);
      assert HasStored(s'.calls[id]);
    }
  }

  lemma {:induction false} ExactRun(matches: Verifier, s: Sys, es: seq<Event>, atStart: bool, flagged: bool)
    requires ExactInv(s, atStart, flagged)
    ensures ExactInv(Run(matches, s, es), atStart, flagged)
    decreases |es|
  {
    if es != [] {
      if Enabled(matches, s, es[0]) {
        if es[0].Advance? {
          AdvancedProgresses(matches, s, es[0].id, es[0].choice);
          ExactAdvance(s, es[0].id, Advanced(matches, s, es[0].id, es[0].choice), atStart, flagged);
        } else {
          ExactAround(matches, s, es[0], atStart, flagged);
        }
      }
      hide ExactInv, Advanced;
      ExactRun(matches, Step(matches, s, es[0]), es[1..], atStart, flagged);
    }
  }

  /** In every reachable state: the flag is set if and only if the start-up read found a hash or some SetPIN has
      set the flag, and a hash is stored if and only if one was there at the start or some SetPIN has stored one. */
  lemma FlagAndStorageExactly(matches: Verifier, hashes: seq<PinHash>, readFails: bool, now: Time, es: seq<Event>)
    ensures var s := Run(matches, Boot(hashes, readFails, now), es);
            && (s.auth.pinConfigured <==> (hashes != [] && !readFails) || SomeFlagged(s))
            && (s.hashes != [] <==> hashes != [] || SomeStored(s))
  {
    ExactRun(matches, Boot(hashes, readFails, now), es, hashes != [], hashes != [] && !readFails);
  }

  /** The flag never claims a hash that is not stored. It misses a stored one if and only if no SetPIN has set the
      flag, and either a hash was there at the start and the start-up read failed, or none was there and some
      SetPIN stands between its store and its flag step. */
  lemma FlagAgreesWithStorage(matches: Verifier, hashes: seq<PinHash>, readFails: bool, now: Time, es: seq<Event>)
    ensures var s := Run(matches, Boot(hashes, readFails, now), es);
            && (s.auth.pinConfigured ==> s.hashes != [])
            && ((s.auth.pinConfigured <==> s.hashes != []) <==>
                SomeFlagged(s) || (if hashes != [] then !readFails else !SomeBetween(s)))
  {
    FlagAndStorageExactly(matches, hashes, readFails, now, es);
    var s := Run(matches, Boot(hashes, readFails, now), es);
    hide Run, HasFlagged;
    if SomeFlagged(s) {
      var id :| id in s.calls && HasFlagged(s.calls[id]);
      assert HasStored(s.calls[id]);
    }
    if SomeBetween(s) {
      var id :| id in s.calls && BetweenStoreAndFlag(s.calls[id]);
      assert HasStored(s.calls[id]);
    }
    if SomeStored(s) && !SomeFlagged(s) {
      var id :| id in s.calls && HasStored(s.calls[id]);
      assert BetweenStoreAndFlag(s.calls[id]);
    }
  }

  /** What it means for a client: in every reachable state, the answer to a live challenge, when there is room and
      entropy, is a session without any PIN if and only if the start-up read did not find a hash and no SetPIN has
      set the flag since. Else it is a ticket. */
  lemma SessionWithoutPinExactly(matches: Verifier, hashes: seq<PinHash>, readFails: bool, start: Time, es: seq<Event>,
                                 nonce: Token, clock: Readings, random: Option<Token>)
    requires random.Some?
    requires var a := Run(matches, Boot(hashes, readFails, start), es).auth;
             && nonce in a.nonces && clock.first <= a.nonces[nonce]
             && |Unexpired(a.sessions, clock.second)| < MAX_SESSIONS
    ensures var s := Run(matches, Boot(hashes, readFails, start), es);
            var out := VerifyNonce(s.auth, nonce, clock, random).1;
            && (out.Session? <==> (hashes == [] || readFails) && !SomeFlagged(s))
            && (out.Ticket? <==> !out.Session?)
  {
    FlagAndStorageExactly(matches, hashes, readFails, start, es);
    hide Run, Unexpired, SomeFlagged, SomeStored;
  }

  lemma FirstChallenge(now: Time)
    ensures Auth.GenerateChallenge(EMPTY, now, Some(Token(1)))
         == (EMPTY.(nonces := map[Token(1) := now + NONCE_TTL]), Challenge(Token(1)))
  {
    assert Unexpired(map[], now) == map[];
  }

  lemma FirstSession(now: Time)
    ensures VerifyNonce(EMPTY.(nonces := map[Token(1) := now + NONCE_TTL]), Token(1), Readings(now, now, now), Some(Token(2)))
         == (EMPTY.(sessions := map[Token(2) := now + SESSION_TTL]), Session(Token(2), now + SESSION_TTL))
  {
    assert map[Token(1) := now + NONCE_TTL] - {Token(1)} == map[];
    assert Unexpired(map[], now) == map[];
  }

  function FirstLogin(now: Time): seq<Event> {
    [GenerateChallenge(now, Some(Token(1))), VerifyChallenge(Token(1), Readings(now, now, now), Some(Token(2)))]
  }

  // A server whose flag is not set gives its first client a session.
  lemma FirstLoginRun(matches: Verifier, hashes: seq<PinHash>, readFails: bool, now: Time)
    requires hashes == [] || readFails
    ensures var s := Run(matches, Boot(hashes, readFails, now), FirstLogin(now));
            && s.hashes == hashes && s.calls == map[] && s.now == now
            && s.auth == EMPTY.(sessions := map[Token(2) := now + SESSION_TTL]) && s.minted == map[Token(2) := Direct]
  {
    var boot, es := Boot(hashes, readFails, now), FirstLogin(now);
    FirstChallenge(now);
    FirstSession(now);
    TwoThen(matches, boot, es, []);
    hide VerifyNonce, Auth.GenerateChallenge, Run;
    var s1 := Step(matches, boot, es[0]);
    assert s1 == boot.(auth := EMPTY.(nonces := map[Token(1) := now + NONCE_TTL]), issued := {Token(1)}, generated := 1);
  }

  /** Such a state: a server on a database that holds a hash starts with a failing read, and the first challenge
      answered opens a session without a PIN. */
  lemma FailedReadOpensWithoutPin(matches: Verifier, h: PinHash, now: Time)
    ensures var s := Run(matches, Boot([h], true, now), FirstLogin(now));
            && s.hashes == [h] && !s.auth.pinConfigured
            && Token(2) in s.auth.sessions && s.minted == map[Token(2) := Direct]
  {
    FirstLoginRun(matches, [h], true, now);
  }

  /** In every reachable state an Unlock call leaves by "no PIN configured" only if its own read of the hash failed. */
  lemma NoPinExitNeedsStorageFault(matches: Verifier, hashes: seq<PinHash>, readFails: bool, now: Time, es: seq<Event>, id: nat, c: Choice)
    requires var s := Run(matches, Boot(hashes, readFails, now), es);
             && Enabled(matches, s, Advance(id, c))
             && s.calls[id].Unlock? && s.calls[id].stage.ReadingHash?
    ensures var s := Run(matches, Boot(hashes, readFails, now), es);
            var call := Step(matches, s, Advance(id, c)).calls[id];
            call.stage == Revoking(s.calls[id].stage.token, true) <==> c.storageFails
  {
    FlagRun(matches, Boot(hashes, readFails, now), es);
    var s := Run(matches, Boot(hashes, readFails, now), es);
    assert PastRedeem(s.calls[id]);
  }
}
