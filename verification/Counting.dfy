/** Conservation: every ticket and every session is paid for by a challenge, and the cap on live sessions holds. */
module Counting {
  import opened Basics
  import opened Auth
  import opened AuthEffects
  import opened Systems
  import opened SystemInvariants

  ghost predicate CountInv(s: Sys) {
    && |s.auth.nonces| + |s.auth.tickets| + |s.minted| <= s.generated
    && |s.auth.sessions| <= MAX_SESSIONS
  }

  lemma DrawnSize(m: map<Token, Origin>, t: Token, origin: Origin)
    ensures |m[t := origin]| <= |m| + 1
  {
    var m' := m[t := origin];
    assert m'.Keys == m.Keys + {t};
    assert |m'.Keys| <= |m.Keys| + 1;
  }

  lemma CountVerify(matches: Verifier, s: Sys, e: Event)
    requires CountInv(s) && Enabled(matches, s, e) && e.VerifyChallenge?
    ensures CountInv(Step(matches, s, e))
  {
    var r := VerifyNonce(s.auth, e.nonce, e.clock, e.random);
    VerifyNonceEffect(s.auth, e.nonce, e.clock, e.random);
    RemovalSize(s.auth.nonces, e.nonce);
    if r.1.Session? {
      DrawnSize(s.minted, r.1.token, Direct);
    }
    hide VerifyNonce;
  }

  lemma CountAround(matches: Verifier, s: Sys, e: Event)
    requires CountInv(s) && Enabled(matches, s, e) && !e.Advance? && !e.VerifyChallenge?
    ensures CountInv(Step(matches, s, e))
  {
    match e
    case GenerateChallenge(now, random) =>
      GenerateEffect(s.auth, now, random);
      hide Auth.GenerateChallenge;
    case SweepExpired(now) =>
      SweepEffect(s.auth, now);
      hide Auth.SweepExpired;
    case ValidateToken(token, now) =>
      ValidateEffect(s.auth, token, now);
      hide Auth.ValidateToken;
    case CallUnlock(_, _, _) =>
    case CallSetPin(_, token, _, _, now) =>
      ValidateEffect(s.auth, token, now);
      hide Auth.ValidateToken;
  }

  lemma RedeemAdvances(matches: Verifier, s: Sys, id: nat, c: Choice)
    requires id in s.calls && s.calls[id].Unlock? && s.calls[id].stage.Redeeming?
    ensures var (a', out) := RedeemUnlockTicket(s.auth, s.calls[id].ticket, c.now, c.random);
            var s' := Advanced(matches, s, id, c);
            && s'.auth == a' && s'.generated == s.generated
            && s'.minted == if out.Session? then s.minted[out.token := ByUnlock(id)] else s.minted
  {
    hide RedeemUnlockTicket;
  }

  lemma CountRedeem(matches: Verifier, s: Sys, id: nat, c: Choice)
    requires CountInv(s) && id in s.calls && s.calls[id].Unlock? && s.calls[id].stage.Redeeming?
    ensures CountInv(Advanced(matches, s, id, c))
  {
    var ticket := s.calls[id].ticket;
    var (a', out) := RedeemUnlockTicket(s.auth, ticket, c.now, c.random);
    RedeemAdvances(matches, s, id, c);
    RedeemEffect(s.auth, ticket, c.now, c.random);
    RemovalSize(s.auth.tickets, ticket);
    if out.Session? {
      DrawnSize(s.minted, out.token, ByUnlock(id));
    }
    hide RedeemUnlockTicket, Advanced;
  }

  lemma OtherNextShrinks(matches: Verifier, a: AuthState, hashes: seq<PinHash>, call: Call, c: Choice)
    requires call.Unlock? ==> !call.stage.Redeeming?
    ensures var (a', call', effect) := Next(matches, a, hashes, call, c);
            a'.nonces == a.nonces && a'.tickets == a.tickets && !effect.Minted?
            && (a'.sessions == a.sessions || a'.sessions == map[] || exists t :: a'.sessions == a.sessions - {t})
  {
    hide RedeemUnlockTicket;
  }

  lemma CountAdvance(matches: Verifier, s: Sys, id: nat, c: Choice)
    requires CountInv(s) && Enabled(matches, s, Advance(id, c))
    ensures CountInv(Advanced(matches, s, id, c))
  {
    if s.calls[id].Unlock? && s.calls[id].stage.Redeeming? {
      CountRedeem(matches, s, id, c);
    } else {
      OtherNextShrinks(matches, s.auth, s.hashes, s.calls[id], c);
      forall t ensures |s.auth.sessions - {t}| <= |s.auth.sessions| {
        RemovalSize(s.auth.sessions, t);
      }
      hide Next;
    }
  }

  lemma CountStep(matches: Verifier, s: Sys, e: Event)
    requires CountInv(s)
    ensures CountInv(Step(matches, s, e))
  {
    if Enabled(matches, s, e) {
      hide CountInv;
      if e.Advance? {
        CountAdvance(matches, s, e.id, e.choice);
      } else if e.VerifyChallenge? {
        CountVerify(matches, s, e);
      } else {
        CountAround(matches, s, e);
      }
    }
  }

  lemma {:induction false} CountRun(matches: Verifier, s: Sys, es: seq<Event>)
    requires CountInv(s)
    ensures CountInv(Run(matches, s, es))
    decreases |es|
  {
    if es != [] {
      CountStep(matches, s, es[0]);
      CountRun(matches, Step(matches, s, es[0]), es[1..]);
    }
  }

  /** In every reachable state the live nonces, the live tickets and the sessions ever minted together
      never outnumber the challenges generated. */
  lemma ChallengesAreConserved(matches: Verifier, hashes: seq<PinHash>, readFails: bool, now: Time, es: seq<Event>)
    ensures var s := Run(matches, Boot(hashes, readFails, now), es);
            |s.auth.nonces| + |s.auth.tickets| + |s.minted| <= s.generated
  {
    CountRun(matches, Boot(hashes, readFails, now), es);
  }

  /** The session map never holds more than the cap, sessions pending in running calls included. */
  lemma SessionCapHolds(matches: Verifier, hashes: seq<PinHash>, readFails: bool, now: Time, es: seq<Event>)
    ensures |Run(matches, Boot(hashes, readFails, now), es).auth.sessions| <= 20
  {
    CountRun(matches, Boot(hashes, readFails, now), es);
  }

  /** A live ticket, or a live nonce when no PIN is set, is refused for lack of room exactly when the room
      is taken by sessions that have not expired. */
  lemma CapacityRefusalIsExact(matches: Verifier, hashes: seq<PinHash>, readFails: bool, start: Time, es: seq<Event>,
                               k: Token, clock: Readings, random: Option<Token>)
    requires clock.first <= clock.second
    ensures var a := Run(matches, Boot(hashes, readFails, start), es).auth;
            var full := |set t | t in a.sessions && clock.second <= a.sessions[t]| == 20;
            && (k in a.tickets && clock.second <= a.tickets[k] ==>
                  (RedeemUnlockTicket(a, k, clock.second, random).1 == Failed(TooManySessions) <==> full))
            && (k in a.nonces && clock.first <= a.nonces[k] && !a.pinConfigured ==>
                  (VerifyNonce(a, k, clock, random).1 == Failed(TooManySessions) <==> full))
  {
    CountRun(matches, Boot(hashes, readFails, start), es);
    var a := Run(matches, Boot(hashes, readFails, start), es).auth;
    AuthEffects.CapacityRefusalIsExact(a.(tickets := a.tickets - {k}), clock.second, random);
    AuthEffects.CapacityRefusalIsExact(a.(nonces := a.nonces - {k}), clock.second, random);
    hide Mint, Run;
  }

  /** Right after the sweeper has run, no map holds an expired token, and every live one is still there. */
  lemma NothingExpiredAfterSweep(matches: Verifier, s: Sys, now: Time, k: Token)
    requires Enabled(matches, s, Event.SweepExpired(now))
    ensures var a' := Step(matches, s, Event.SweepExpired(now)).auth;
            && KeptWhileLive(a'.sessions, s.auth.sessions, now, k)
            && KeptWhileLive(a'.nonces, s.auth.nonces, now, k)
            && KeptWhileLive(a'.tickets, s.auth.tickets, now, k)
            && (forall t :: t in a'.sessions ==> now <= a'.sessions[t])
            && (forall t :: t in a'.nonces ==> now <= a'.nonces[t])
            && (forall t :: t in a'.tickets ==> now <= a'.tickets[t])
  {
    var a' := Step(matches, s, Event.SweepExpired(now)).auth;
    forall t ensures KeptWhileLive(a'.sessions, s.auth.sessions, now, t) && KeptWhileLive(a'.nonces, s.auth.nonces, now, t)
                     && KeptWhileLive(a'.tickets, s.auth.tickets, now, t) {
      SweptExactly(s.auth, now, t);
    }
    hide Step, Enabled;
  }

  // Whether the event is a challenge answer that consumes the live nonce n, in time or not.
  predicate ConsumesNonce(matches: Verifier, s: Sys, e: Event, n: Token) {
    Enabled(matches, s, e) && e.VerifyChallenge? && e.nonce == n && n in s.auth.nonces
  }

  // Whether the event is the step of an Unlock call that consumes the live ticket t.
  predicate ConsumesTicket(matches: Verifier, s: Sys, e: Event, t: Token) {
    Enabled(matches, s, e) && e.Advance? && s.calls[e.id].Unlock? && s.calls[e.id].stage.Redeeming?
    && s.calls[e.id].ticket == t && t in s.auth.tickets
  }

  function NonceUses(matches: Verifier, s: Sys, es: seq<Event>, n: Token): nat
    decreases |es|
  {
    if es == [] then 0
    else (if ConsumesNonce(matches, s, es[0], n) then 1 else 0) + NonceUses(matches, Step(matches, s, es[0]), es[1..], n)
  }

  function TicketUses(matches: Verifier, s: Sys, es: seq<Event>, t: Token): nat
    decreases |es|
  {
    if es == [] then 0
    else (if ConsumesTicket(matches, s, es[0], t) then 1 else 0) + TicketUses(matches, Step(matches, s, es[0]), es[1..], t)
  }

  // A token that was drawn and is no longer a live nonce, or ticket, does not become one again.
  lemma SpentStaysSpent(matches: Verifier, s: Sys, e: Event, k: Token)
    requires FateInv(s) && k in s.issued
    ensures FateInv(Step(matches, s, e)) && k in Step(matches, s, e).issued
    ensures k !in s.auth.nonces ==> k !in Step(matches, s, e).auth.nonces
    ensures k !in s.auth.tickets ==> k !in Step(matches, s, e).auth.tickets
  {
    FateStep(matches, s, e);
    if Enabled(matches, s, e) {
      if e.Advance? {
        AdvancedMoves(matches, s, e.id, e.choice);
        hide Advanced, Next, Call.Held, Call.Done, FateInv;
      } else {
        EnvironmentMoves(matches, s, e);
        hide Step, FateInv;
      }
    }
  }

  lemma NonceConsumed(matches: Verifier, s: Sys, e: Event, n: Token)
    requires FateInv(s) && ConsumesNonce(matches, s, e, n)
    ensures n !in Step(matches, s, e).auth.nonces
  {
    VerifyNonceEffect(s.auth, n, e.clock, e.random);
    hide VerifyNonce;
  }

  lemma TicketConsumed(matches: Verifier, s: Sys, e: Event, t: Token)
    requires FateInv(s) && ConsumesTicket(matches, s, e, t)
    ensures t !in Step(matches, s, e).auth.tickets
  {
    RedeemEffect(s.auth, t, e.choice.now, e.choice.random);
    hide RedeemUnlockTicket;
  }

  lemma {:induction false} NonceUsesBound(matches: Verifier, s: Sys, es: seq<Event>, n: Token)
    requires FateInv(s)
    ensures NonceUses(matches, s, es, n) <= 1
    ensures n in s.issued && n !in s.auth.nonces ==> NonceUses(matches, s, es, n) == 0
    decreases |es|
  {
    if es != [] {
      FateStep(matches, s, es[0]);
      if n in s.issued {
        SpentStaysSpent(matches, s, es[0], n);
      }
      if ConsumesNonce(matches, s, es[0], n) {
        NonceConsumed(matches, s, es[0], n);
      }
      NonceUsesBound(matches, Step(matches, s, es[0]), es[1..], n);
    }
  }

  lemma {:induction false} TicketUsesBound(matches: Verifier, s: Sys, es: seq<Event>, t: Token)
    requires FateInv(s)
    ensures TicketUses(matches, s, es, t) <= 1
    ensures t in s.issued && t !in s.auth.tickets ==> TicketUses(matches, s, es, t) == 0
    decreases |es|
  {
    if es != [] {
      FateStep(matches, s, es[0]);
      if t in s.issued {
        SpentStaysSpent(matches, s, es[0], t);
      }
      if ConsumesTicket(matches, s, es[0], t) {
        TicketConsumed(matches, s, es[0], t);
      }
      TicketUsesBound(matches, Step(matches, s, es[0]), es[1..], t);
    }
  }

  /** In a whole run, whatever the interleaving, each nonce and each unlock ticket is consumed at most once. */
  lemma OneShot(matches: Verifier, hashes: seq<PinHash>, readFails: bool, now: Time, es: seq<Event>, k: Token)
    ensures NonceUses(matches, Boot(hashes, readFails, now), es, k) <= 1
    ensures TicketUses(matches, Boot(hashes, readFails, now), es, k) <= 1
  {
    BootFate(hashes, readFails, now);
    NonceUsesBound(matches, Boot(hashes, readFails, now), es, k);
    TicketUsesBound(matches, Boot(hashes, readFails, now), es, k);
  }
}
