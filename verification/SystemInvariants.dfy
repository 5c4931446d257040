/** What every step of the server keeps, and so what holds in every reachable state. */
module SystemInvariants {
  import opened Basics
  import opened Auth
  import opened AuthEffects
  import opened Systems

  // Every token in a map was drawn, and every live session was minted.
  ghost predicate TokensKnown(s: Sys) {
    && s.auth.sessions.Keys <= s.minted.Keys <= s.issued
    && s.auth.nonces.Keys <= s.issued
    && s.auth.tickets.Keys <= s.issued
  }

  // A call holds only a token it minted itself.
  ghost predicate HoldersMinted(s: Sys) {
    forall id :: id in s.calls && s.calls[id].Held().Some? ==>
      s.calls[id].Held().value in s.minted && s.minted[s.calls[id].Held().value] == ByUnlock(id)
  }

  // A token minted by an Unlock call is held by that call, or the call has ended without delivering it.
  ghost predicate Accounted(s: Sys, t: Token)
    requires t in s.minted
  {
    match s.minted[t]
    case Direct => true
    case ByUnlock(id) =>
      && id in s.calls && s.calls[id].Unlock?
      && (s.calls[id].Held() == Some(t) || (s.calls[id].Done() && t !in s.auth.sessions))
  }

  ghost predicate MintedAccounted(s: Sys) {
    forall t :: t in s.minted ==> Accounted(s, t)
  }

  ghost predicate FateInv(s: Sys) {
    TokensKnown(s) && HoldersMinted(s) && MintedAccounted(s)
  }

  // One step of a call keeps its token, mints one, or gives it up by ending with the token out of the map.
  ghost predicate CallMoves(a: AuthState, call: Call, random: Option<Token>, r: (AuthState, Call, Effect)) {
    var (a', call', effect) := r;
    && call'.Unlock? == call.Unlock?
    && (call.Done() ==> call'.Done())
    && a'.nonces == a.nonces && a'.tickets.Keys <= a.tickets.Keys
    && (effect.Minted? ==>
         && call.Unlock? && random == Some(effect.token) && call.Held() == None && call'.Held() == Some(effect.token)
         && !call.Done()
         && a'.sessions.Keys <= a.sessions.Keys + {effect.token})
    && (!effect.Minted? ==>
         && a'.sessions.Keys <= a.sessions.Keys
         && (call'.Held() == call.Held()
             || (call.Held().Some? && call'.Held() == None && call'.Done() && call.Held().value !in a'.sessions)))
  }

  lemma RedeemMoves(matches: Verifier, a: AuthState, hashes: seq<PinHash>, u: Call, c: Choice)
    requires u.Unlock? && u.stage.Redeeming?
    ensures CallMoves(a, u, c.random, UnlockNext(matches, a, hashes, u, c))
  {
    RedeemEffect(a, u.ticket, c.now, c.random);
    hide RedeemUnlockTicket;
    var (a', out) := RedeemUnlockTicket(a, u.ticket, c.now, c.random);
    assert a'.tickets.Keys <= a.tickets.Keys;
    assert UnlockNext(matches, a, hashes, u, c).0 == a';
  }

  lemma UnlockMoves(matches: Verifier, a: AuthState, hashes: seq<PinHash>, u: Call, c: Choice)
    requires u.Unlock?
    ensures CallMoves(a, u, c.random, UnlockNext(matches, a, hashes, u, c))
  {
    if u.stage.Redeeming? {
      RedeemMoves(matches, a, hashes, u, c);
    } else {
      hide RedeemUnlockTicket;
    }
  }

  lemma NextMoves(matches: Verifier, a: AuthState, hashes: seq<PinHash>, call: Call, c: Choice)
    ensures CallMoves(a, call, c.random, Next(matches, a, hashes, call, c))
  {
    if call.Unlock? {
      UnlockMoves(matches, a, hashes, call, c);
    }
  }


  // A call that has only just been made.
  predicate Blank(call: Call) {
    if call.Unlock? then call.stage.CheckingLimit? && call.version.None?
    else call.checked.None? && (call.step.ReadingOldHash? || (call.step.Answered? && !call.step.answer.PinSet?))
  }

  // What an event that is no call's step can do: start a call, mint one session without PIN, shrink maps, draw tokens.
  ghost predicate Surrounds(s: Sys, e: Event, s': Sys) {
    && s'.hashes == s.hashes && s'.barrier == s.barrier && s'.failures == s.failures
    && s'.auth.pinConfigured == s.auth.pinConfigured
    && s'.auth.pinFailures == s.auth.pinFailures && s'.auth.lockedUntil == s.auth.lockedUntil
    && (if e.CallUnlock? || e.CallSetPin? then
          e.id !in s.calls && e.id in s'.calls && Blank(s'.calls[e.id]) && s'.calls == s.calls[e.id := s'.calls[e.id]]
        else s'.calls == s.calls)
  }

  ghost predicate DrawsTokens(s: Sys, random: Option<Token>, s': Sys) {
    && s'.issued == Draw(s.issued, random)
    && s'.auth.nonces.Keys <= Draw(s.auth.nonces.Keys, random)
    && s'.auth.tickets.Keys <= Draw(s.auth.tickets.Keys, random)
    && (|| (s'.minted == s.minted && s'.auth.sessions.Keys <= s.auth.sessions.Keys)
        || (&& random.Some? && random.value !in s.issued && !s.auth.pinConfigured
            && s'.minted == s.minted[random.value := Direct]
            && s'.auth.sessions.Keys <= s.auth.sessions.Keys + {random.value}))
  }

  function Random(e: Event): Option<Token> {
    match e
    case GenerateChallenge(_, random) => random
    case VerifyChallenge(_, _, random) => random
    case _ => None
  }

  lemma GenerateMoves(matches: Verifier, s: Sys, e: Event)
    requires Enabled(matches, s, e) && e.GenerateChallenge?
    ensures Surrounds(s, e, Step(matches, s, e))
    ensures DrawsTokens(s, Random(e), Step(matches, s, e))
  {
    GenerateEffect(s.auth, e.now, e.random);
    hide Auth.GenerateChallenge;
  }

  // A challenge answered, without the step function.
  lemma VerifyStep(matches: Verifier, s: Sys, e: Event)
    requires Enabled(matches, s, e) && e.VerifyChallenge?
    ensures var (a', out) := VerifyNonce(s.auth, e.nonce, e.clock, e.random);
            && Step(matches, s, e)
               == s.(auth := a', now := e.clock.third, issued := Draw(s.issued, e.random),
                     minted := if out.Session? then s.minted[out.token := Direct] else s.minted)
            && Fresh(s, e.random)
  {
    hide VerifyNonce;
  }

  lemma VerifyMoves(matches: Verifier, s: Sys, e: Event)
    requires Enabled(matches, s, e) && e.VerifyChallenge?
    ensures Surrounds(s, e, Step(matches, s, e))
    ensures DrawsTokens(s, Random(e), Step(matches, s, e))
  {
    VerifyStep(matches, s, e);
    VerifyNonceEffect(s.auth, e.nonce, e.clock, e.random);
    hide VerifyNonce, Step, Enabled;
  }

  lemma EnvironmentMoves(matches: Verifier, s: Sys, e: Event)
    requires Enabled(matches, s, e) && !e.Advance?
    ensures Surrounds(s, e, Step(matches, s, e))
    ensures DrawsTokens(s, Random(e), Step(matches, s, e))
  {
    match e
    case GenerateChallenge(_, _) => GenerateMoves(matches, s, e);
    case VerifyChallenge(_, _, _) => VerifyMoves(matches, s, e);
    case SweepExpired(now) =>
      SweepEffect(s.auth, now);
      hide Auth.SweepExpired;
    case ValidateToken(token, now) =>
      ValidateEffect(s.auth, token, now);
      hide Auth.ValidateToken;
    case CallUnlock(_, _, _) =>
    case CallSetPin(_, token, _, _, now) =>
      ValidateEffect(s.auth, token, now);
      hide Auth.ValidateToken;
  }

  lemma FateAround(s: Sys, e: Event, s': Sys)
    requires FateInv(s) && Surrounds(s, e, s') && DrawsTokens(s, Random(e), s')
    ensures FateInv(s')
  {
  }

  // A step of call `id` that mints the token t.
  ghost predicate CallMints(s: Sys, id: nat, t: Token, s': Sys) {
    && id in s.calls && s.calls[id].Unlock? && s.calls[id].Held() == None && !s.calls[id].Done()
    && t !in s.issued && s'.issued == s.issued + {t}
    && id in s'.calls && s'.calls == s.calls[id := s'.calls[id]]
    && s'.calls[id].Unlock? && s'.calls[id].Held() == Some(t)
    && s'.minted == s.minted[t := ByUnlock(id)]
    && s'.auth.sessions.Keys <= s.auth.sessions.Keys + {t}
    && s'.auth.nonces.Keys <= s.auth.nonces.Keys
    && s'.auth.tickets.Keys <= s.auth.tickets.Keys
  }

  // A step of call `id` that mints nothing.
  ghost predicate CallKeeps(s: Sys, id: nat, s': Sys) {
    && id in s.calls && s.issued <= s'.issued
    && id in s'.calls && s'.calls == s.calls[id := s'.calls[id]]
    && s'.calls[id].Unlock? == s.calls[id].Unlock?
    && (|| s'.calls[id].Held() == s.calls[id].Held()
        || (&& s.calls[id].Held().Some? && s'.calls[id].Held() == None
            && s'.calls[id].Done() && s.calls[id].Held().value !in s'.auth.sessions))
    && (s.calls[id].Done() ==> s'.calls[id].Done())
    && s'.minted == s.minted
    && s'.auth.sessions.Keys <= s.auth.sessions.Keys
    && s'.auth.nonces.Keys <= s.auth.nonces.Keys
    && s'.auth.tickets.Keys <= s.auth.tickets.Keys
  }

  lemma AdvancedMoves(matches: Verifier, s: Sys, id: nat, c: Choice)
    requires id in s.calls && Fresh(s, c.random)
    ensures var effect := Next(matches, s.auth, s.hashes, s.calls[id], c).2;
            if effect.Minted? then CallMints(s, id, effect.token, Advanced(matches, s, id, c))
            else CallKeeps(s, id, Advanced(matches, s, id, c))
  {
    NextMoves(matches, s.auth, s.hashes, s.calls[id], c);
    hide Next, Call.Held, Call.Done;
  }

  lemma FateMint(s: Sys, id: nat, t: Token, s': Sys)
    requires FateInv(s) && CallMints(s, id, t, s')
    ensures FateInv(s')
  {
    hide Call.Held, Call.Done;
    assert t !in s.minted;
    forall u | u in s'.minted ensures Accounted(s', u) {
      if u != t {
        assert Accounted(s, u);
      }
    }
  }

  lemma FateKeep(s: Sys, id: nat, s': Sys)
    requires FateInv(s) && CallKeeps(s, id, s')
    ensures FateInv(s')
  {
    hide Call.Held, Call.Done;
    forall u | u in s'.minted ensures Accounted(s', u) {
      assert Accounted(s, u);
    }
  }

  lemma FateStep(matches: Verifier, s: Sys, e: Event)
    requires FateInv(s)
    ensures FateInv(Step(matches, s, e))
  {
    if Enabled(matches, s, e) {
      if e.Advance? {
        var effect := Next(matches, s.auth, s.hashes, s.calls[e.id], e.choice).2;
        AdvancedMoves(matches, s, e.id, e.choice);
        hide *;
        if effect.Minted? {
          FateMint(s, e.id, effect.token, Advanced(matches, s, e.id, e.choice));
        } else {
          FateKeep(s, e.id, Advanced(matches, s, e.id, e.choice));
        }
      } else {
        EnvironmentMoves(matches, s, e);
        FateAround(s, e, Step(matches, s, e));
      }
    }
  }

  lemma BootFate(hashes: seq<PinHash>, readFails: bool, now: Time)
    ensures FateInv(Boot(hashes, readFails, now))
  {
  }

  lemma {:induction false} FateRun(matches: Verifier, s: Sys, es: seq<Event>)
    requires FateInv(s)
    ensures FateInv(Run(matches, s, es))
    decreases |es|
  {
    if es != [] {
      FateStep(matches, s, es[0]);
      FateRun(matches, Step(matches, s, es[0]), es[1..]);
    }
  }

  // A token that was minted and has left the session map.
  ghost predicate Gone(s: Sys, t: Token) {
    t in s.minted && t !in s.auth.sessions
  }

  lemma GoneStep(matches: Verifier, s: Sys, e: Event, t: Token)
    requires FateInv(s) && Gone(s, t)
    ensures Gone(Step(matches, s, e), t)
  {
    if Enabled(matches, s, e) {
      if e.Advance? {
        var effect := Next(matches, s.auth, s.hashes, s.calls[e.id], e.choice).2;
        AdvancedMoves(matches, s, e.id, e.choice);
        hide Advanced, Next, Call.Held, Call.Done;
      } else {
        EnvironmentMoves(matches, s, e);
        hide Step;
      }
    }
  }

  /** A session token that has left the map never comes back. */
  lemma {:induction false} GoneForEver(matches: Verifier, s: Sys, es: seq<Event>, t: Token)
    requires FateInv(s) && Gone(s, t)
    ensures Gone(Run(matches, s, es), t)
    decreases |es|
  {
    if es != [] {
      FateStep(matches, s, es[0]);
      GoneStep(matches, s, es[0], t);
      GoneForEver(matches, Step(matches, s, es[0]), es[1..], t);
    }
  }

  /** The fate of every session token minted by an Unlock call, in every reachable state: its own call holds it
      and is still running, or that call handed it to its caller, or it has left the map, for ever. No other
      call holds it or delivered it. */
  lemma TokenFate(matches: Verifier, hashes: seq<PinHash>, readFails: bool, now: Time, es: seq<Event>, t: Token, id: nat)
    requires var s := Run(matches, Boot(hashes, readFails, now), es);
             t in s.minted && s.minted[t] == ByUnlock(id)
    ensures var s := Run(matches, Boot(hashes, readFails, now), es);
            && id in s.calls
            && (|| (s.calls[id].Held() == Some(t) && !s.calls[id].Done())
                || (s.calls[id].Held() == Some(t) && s.calls[id].Delivered())
                || forall later :: t !in Run(matches, s, later).auth.sessions)
            && forall other :: other in s.calls && other != id ==> s.calls[other].Held() != Some(t)
  {
    BootFate(hashes, readFails, now);
    FateRun(matches, Boot(hashes, readFails, now), es);
    var s := Run(matches, Boot(hashes, readFails, now), es);
    assert Accounted(s, t);
    if s.calls[id].Held() != Some(t) {
      forall later ensures t !in Run(matches, s, later).auth.sessions {
        GoneForEver(matches, s, later, t);
      }
    }
  }

  /** When no call is in flight, every live session was handed to a client. */
  lemma NoOrphanSessions(matches: Verifier, hashes: seq<PinHash>, readFails: bool, now: Time, es: seq<Event>, t: Token)
    requires var s := Run(matches, Boot(hashes, readFails, now), es);
             t in s.auth.sessions && forall id :: id in s.calls ==> s.calls[id].Done()
    ensures var s := Run(matches, Boot(hashes, readFails, now), es);
            && t in s.minted
            && (s.minted[t].ByUnlock? ==>
                  && s.minted[t].id in s.calls
                  && s.calls[s.minted[t].id].Delivered()
                  && s.calls[s.minted[t].id].stage.reply.token == t)
  {
    BootFate(hashes, readFails, now);
    FateRun(matches, Boot(hashes, readFails, now), es);
    assert Accounted(Run(matches, Boot(hashes, readFails, now), es), t);
  }
}
