/** Changing the PIN is a barrier: whatever calls were in flight, a session that survives the change
    was opened with the new PIN or a later one. */
module PinBarrier {
  import opened Basics
  import opened Auth
  import opened Systems
  import opened SystemInvariants

  // What a call's own state says about the stored hashes.
  ghost predicate CallOk(matches: Verifier, hashes: seq<PinHash>, configured: bool, call: Call) {
    if call.Unlock? then
      && (call.version.Some? ==> 1 <= call.version.value <= |hashes|)
      && (call.stage.CheckingLimit? || call.stage.Redeeming? || call.stage.ReadingHash? ==> call.version.None?)
      && (call.stage.ResettingFailures? || call.Delivered() ==>
            call.version.Some? && matches(call.pin, hashes[call.version.value - 1]))
    else
      && (call.step.Flagging? || call.step.Invalidating? ==>
            1 <= call.step.version <= |hashes| && matches(call.wanted, hashes[call.step.version - 1]))
      && (call.step.Invalidating? ==> configured)
  }

  // A live session read no PIN hash older than the barrier, and was not opened without a PIN after it.
  ghost predicate Standing(s: Sys, t: Token) {
    && t in s.minted
    && match s.minted[t]
       case Direct => s.barrier == 0
       case ByUnlock(id) =>
         && id in s.calls && s.calls[id].Unlock?
         && (s.calls[id].version.Some? ==> s.barrier <= s.calls[id].version.value)
  }

  ghost predicate BarrierInv(matches: Verifier, s: Sys) {
    && s.barrier <= |s.hashes|
    && (s.barrier > 0 ==> s.auth.pinConfigured)
    && (forall id :: id in s.calls ==> CallOk(matches, s.hashes, s.auth.pinConfigured, s.calls[id]))
    && (forall t :: t in s.auth.sessions ==> Standing(s, t))
  }

  // What a call's step does to the stored hashes, the flag and the version it has read.
  ghost predicate HashMoves(hashes: seq<PinHash>, a: AuthState, call: Call, r: (AuthState, Call, Effect)) {
    var (a', call', effect) := r;
    && (a.pinConfigured ==> a'.pinConfigured)
    && call'.Unlock? == call.Unlock?
    && (call.Unlock? ==> call'.version == call.version || call'.version == Some(|hashes|))
    && (effect.SessionsInvalidated? ==>
          a'.sessions == map[] && a.pinConfigured && effect.version <= |hashes|
          && call.SetPin? && call.step == Invalidating(effect.version))
  }

  function NewHashes(hashes: seq<PinHash>, effect: Effect): seq<PinHash> {
    if effect.HashStored? then hashes + [effect.hash] else hashes
  }

  lemma RedeemOk(matches: Verifier, a: AuthState, hashes: seq<PinHash>, u: Call, c: Choice)
    requires u.Unlock? && u.stage.Redeeming? && CallOk(matches, hashes, a.pinConfigured, u)
    ensures var r := UnlockNext(matches, a, hashes, u, c);
            HashMoves(hashes, a, u, r) && CallOk(matches, hashes, r.0.pinConfigured, r.1) && !r.2.HashStored?
  {
    AuthEffects.RedeemEffect(a, u.ticket, c.now, c.random);
    hide RedeemUnlockTicket;
  }

  lemma UnlockOk(matches: Verifier, a: AuthState, hashes: seq<PinHash>, u: Call, c: Choice)
    requires u.Unlock? && CallOk(matches, hashes, a.pinConfigured, u)
    ensures var r := UnlockNext(matches, a, hashes, u, c);
            HashMoves(hashes, a, u, r) && CallOk(matches, hashes, r.0.pinConfigured, r.1) && !r.2.HashStored?
  {
    if u.stage.Redeeming? {
      RedeemOk(matches, a, hashes, u, c);
    } else {
      hide RedeemUnlockTicket;
    }
  }

  lemma SetPinOk(matches: Verifier, a: AuthState, hashes: seq<PinHash>, p: Call, c: Choice)
    requires p.SetPin? && CallOk(matches, hashes, a.pinConfigured, p)
    requires c.hash.Some? ==> matches(p.wanted, c.hash.value)
    ensures var r := SetPinNext(matches, a, hashes, p, c);
            HashMoves(hashes, a, p, r) && CallOk(matches, NewHashes(hashes, r.2), r.0.pinConfigured, r.1)
  {
  }

  lemma OthersStayOk(matches: Verifier, hashes: seq<PinHash>, hashes': seq<PinHash>, configured: bool, configured': bool, call: Call)
    requires CallOk(matches, hashes, configured, call)
    requires hashes <= hashes' && (configured ==> configured')
    ensures CallOk(matches, hashes', configured', call)
  {
  }

  lemma CallsStayOk(matches: Verifier, s: Sys, id: nat, s': Sys)
    requires forall other :: other in s.calls ==> CallOk(matches, s.hashes, s.auth.pinConfigured, s.calls[other])
    requires s.hashes <= s'.hashes && (s.auth.pinConfigured ==> s'.auth.pinConfigured)
    requires id in s'.calls && s'.calls == s.calls[id := s'.calls[id]]
    requires CallOk(matches, s'.hashes, s'.auth.pinConfigured, s'.calls[id])
    ensures forall other :: other in s'.calls ==> CallOk(matches, s'.hashes, s'.auth.pinConfigured, s'.calls[other])
  {
    hide CallOk;
    forall other | other in s'.calls ensures CallOk(matches, s'.hashes, s'.auth.pinConfigured, s'.calls[other]) {
      if other != id {
        OthersStayOk(matches, s.hashes, s'.hashes, s.auth.pinConfigured, s'.auth.pinConfigured, s.calls[other]);
      }
    }
  }

  // A call that reads a hash reads the current one, which is no older than the barrier.
  lemma StandingKeep(s: Sys, id: nat, s': Sys)
    requires forall t :: t in s.auth.sessions ==> Standing(s, t)
    requires CallKeeps(s, id, s') && s'.barrier == s.barrier <= |s.hashes|
    requires s.calls[id].Unlock? ==>
               s'.calls[id].version == s.calls[id].version || s'.calls[id].version == Some(|s.hashes|)
    ensures forall t :: t in s'.auth.sessions ==> Standing(s', t)
  {
    hide Call.Held, Call.Done;
    forall t | t in s'.auth.sessions ensures Standing(s', t) {
      assert Standing(s, t);
    }
  }

  lemma StandingMint(s: Sys, id: nat, m: Token, s': Sys)
    requires forall t :: t in s.auth.sessions ==> Standing(s, t)
    requires s.minted.Keys <= s.issued
    requires CallMints(s, id, m, s') && s'.barrier == s.barrier && s'.calls[id].version == None
    ensures forall t :: t in s'.auth.sessions ==> Standing(s', t)
  {
    hide Call.Held, Call.Done;
    forall t | t in s'.auth.sessions ensures Standing(s', t) {
      if t != m {
        assert Standing(s, t);
      }
    }
  }

  lemma BarrierAdvance(matches: Verifier, s: Sys, id: nat, c: Choice)
    requires TokensKnown(s) && BarrierInv(matches, s)
    requires Enabled(matches, s, Advance(id, c))
    ensures BarrierInv(matches, Advanced(matches, s, id, c))
  {
    var s' := Advanced(matches, s, id, c);
    var r := Next(matches, s.auth, s.hashes, s.calls[id], c);
    assert CallOk(matches, s.hashes, s.auth.pinConfigured, s.calls[id]);
    if s.calls[id].Unlock? {
      UnlockOk(matches, s.auth, s.hashes, s.calls[id], c);
    } else {
      SetPinOk(matches, s.auth, s.hashes, s.calls[id], c);
    }
    AdvancedMoves(matches, s, id, c);
    assert s'.hashes == NewHashes(s.hashes, r.2) && s'.auth == r.0 && s'.calls == s.calls[id := r.1];
    assert r.2.Minted? ==> s'.calls[id].version == None by {
      assert r.2.Minted? ==> s'.calls[id].stage.ReadingHash?;
    }
    assert HashMoves(s.hashes, s.auth, s.calls[id], r);
    hide Next, UnlockNext, SetPinNext, CallMints, CallKeeps, CallOk, Standing, NewHashes;
    CallsStayOk(matches, s, id, s');
    if r.2.Minted? {
      StandingMint(s, id, r.2.token, s');
    } else if !r.2.SessionsInvalidated? {
      StandingKeep(s, id, s');
    }
  }

  lemma BarrierAround(matches: Verifier, s: Sys, e: Event, s': Sys)
    requires BarrierInv(matches, s) && Surrounds(s, e, s') && DrawsTokens(s, Random(e), s')
    ensures BarrierInv(matches, s')
  {
    forall t | t in s'.auth.sessions ensures Standing(s', t) {
      if t in s.auth.sessions {
        assert Standing(s, t);
      }
    }
  }

  lemma BarrierStep(matches: Verifier, s: Sys, e: Event)
    requires FateInv(s) && BarrierInv(matches, s)
    ensures BarrierInv(matches, Step(matches, s, e)) && FateInv(Step(matches, s, e))
    ensures s.barrier <= Step(matches, s, e).barrier
  {
    FateStep(matches, s, e);
    if Enabled(matches, s, e) {
      if e.Advance? {
        BarrierAdvance(matches, s, e.id, e.choice);
      } else {
        EnvironmentMoves(matches, s, e);
        BarrierAround(matches, s, e, Step(matches, s, e));
      }
      hide BarrierInv, Next;
    }
  }

  lemma {:induction false} BarrierRun(matches: Verifier, s: Sys, es: seq<Event>)
    requires FateInv(s) && BarrierInv(matches, s)
    ensures FateInv(Run(matches, s, es)) && BarrierInv(matches, Run(matches, s, es))
    ensures s.barrier <= Run(matches, s, es).barrier
    decreases |es|
  {
    if es != [] {
      BarrierStep(matches, s, es[0]);
      BarrierRun(matches, Step(matches, s, es[0]), es[1..]);
    }
  }

  // The session was opened with a PIN that matches a stored hash of version v or later.
  ghost predicate OpenedWith(matches: Verifier, s: Sys, t: Token, v: nat) {
    && t in s.minted && s.minted[t].ByUnlock?
    && s.minted[t].id in s.calls
    && var call := s.calls[s.minted[t].id];
       && call.Unlock?
       && (call.version.Some? ==> v <= call.version.value)
       && (call.Delivered() ==>
             && call.version.Some? && 1 <= call.version.value <= |s.hashes|
             && matches(call.pin, s.hashes[call.version.value - 1]))
  }

  /** Once a SetPIN has invalidated the sessions, in every later state of every interleaving, each live session
      comes from an Unlock whose PIN check, once made, used the hash that this SetPIN stored or a later one;
      no session opened without a PIN is left. */
  lemma PinChangeIsABarrier(matches: Verifier, hashes: seq<PinHash>, readFails: bool, now: Time,
                            before: seq<Event>, id: nat, c: Choice, after: seq<Event>)
    requires var s := Run(matches, Boot(hashes, readFails, now), before);
             && Enabled(matches, s, Advance(id, c))
             && s.calls[id].SetPin? && s.calls[id].step.Invalidating?
    ensures var s := Run(matches, Boot(hashes, readFails, now), before);
            var v := s.calls[id].step.version;
            var s' := Run(matches, Boot(hashes, readFails, now), before + [Advance(id, c)] + after);
            && 1 <= v <= |s.hashes| && matches(s.calls[id].wanted, s.hashes[v - 1])
            && forall t :: t in s'.auth.sessions ==> OpenedWith(matches, s', t, v)
  {
    var boot := Boot(hashes, readFails, now);
    BootFate(hashes, readFails, now);
    BarrierRun(matches, boot, before);
    var s := Run(matches, boot, before);
    var v := s.calls[id].step.version;
    assert CallOk(matches, s.hashes, s.auth.pinConfigured, s.calls[id]);
    var s1 := Step(matches, s, Advance(id, c));
    assert v <= s1.barrier;
    BarrierStep(matches, s, Advance(id, c));
    BarrierRun(matches, s1, after);
    RunConcat(matches, boot, before, [Advance(id, c)] + after);
    assert before + [Advance(id, c)] + after == before + ([Advance(id, c)] + after);
    assert ([Advance(id, c)] + after)[1..] == after;
    var s' := Run(matches, s1, after);
    assert s' == Run(matches, boot, before + [Advance(id, c)] + after);
    SurvivorsOpenedWith(matches, s', v);
  }

  /** After a PIN change, another SetPIN gets past the interceptor only with a live session opened with that PIN or
      a later one. */
  lemma LaterChangesNeedTheNewPin(matches: Verifier, hashes: seq<PinHash>, readFails: bool, now: Time,
                                  before: seq<Event>, id: nat, c: Choice, after: seq<Event>, e: Event)
    requires var s := Run(matches, Boot(hashes, readFails, now), before);
             && Enabled(matches, s, Advance(id, c))
             && s.calls[id].SetPin? && s.calls[id].step.Invalidating?
    requires var s' := Run(matches, Boot(hashes, readFails, now), before + [Advance(id, c)] + after);
             e.CallSetPin? && Enabled(matches, s', e) && Step(matches, s', e).calls[e.id].step != Answered(Unauthorized)
    ensures var v := Run(matches, Boot(hashes, readFails, now), before).calls[id].step.version;
            var s' := Run(matches, Boot(hashes, readFails, now), before + [Advance(id, c)] + after);
            && e.token in s'.auth.sessions && e.now <= s'.auth.sessions[e.token]
            && OpenedWith(matches, s', e.token, v)
  {
    PinChangeIsABarrier(matches, hashes, readFails, now, before, id, c, after);
    var s' := Run(matches, Boot(hashes, readFails, now), before + [Advance(id, c)] + after);
    SetPinNeedsASession(matches, s', e);
    hide Step, Run, OpenedWith;
  }

  lemma SetPinNeedsASession(matches: Verifier, s: Sys, e: Event)
    requires e.CallSetPin? && Enabled(matches, s, e)
    ensures Step(matches, s, e).calls[e.id].SetPin?
    ensures Step(matches, s, e).calls[e.id].step != Answered(Unauthorized)
            <==> e.token in s.auth.sessions && e.now <= s.auth.sessions[e.token]
  {
  }

  lemma SurvivorsOpenedWith(matches: Verifier, s: Sys, v: nat)
    requires BarrierInv(matches, s) && 1 <= v <= s.barrier
    ensures forall t :: t in s.auth.sessions ==> OpenedWith(matches, s, t, v)
  {
    forall t | t in s.auth.sessions ensures OpenedWith(matches, s, t, v) {
      assert Standing(s, t);
      var call := s.calls[s.minted[t].id];
      assert CallOk(matches, s.hashes, s.auth.pinConfigured, call);
    }
  }
}
