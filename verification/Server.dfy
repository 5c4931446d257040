/** The Unlock and SetPIN handlers as the sequences of calls they are, each proved to be one call's run of
    the transition system in which no other call moves. */
module Servers {
  import opened Basics
  import opened Auth
  import opened AuthManagers
  import opened Systems

  /** Runs one call on its own until it is done or the choices are used up. */
  function RunCall(matches: Verifier, a: AuthState, hashes: seq<PinHash>, call: Call, cs: seq<Choice>, i: nat): (AuthState, seq<PinHash>, Call)
    requires i <= |cs|
    decreases |cs| - i
  {
    if call.Done() || i == |cs| then (a, hashes, call)
    else
      var (a', call', effect) := Next(matches, a, hashes, call, cs[i]);
      RunCall(matches, a', if effect.HashStored? then hashes + [effect.hash] else hashes, call', cs, i + 1)
  }

  lemma RunOne(matches: Verifier, a: AuthState, hashes: seq<PinHash>, call: Call, cs: seq<Choice>, i: nat)
    requires i < |cs| && !call.Done()
    ensures var (a', call', effect) := Next(matches, a, hashes, call, cs[i]);
            var hashes' := if effect.HashStored? then hashes + [effect.hash] else hashes;
            && RunCall(matches, a, hashes, call, cs, i) == RunCall(matches, a', hashes', call', cs, i + 1)
            && (call'.Done() ==> RunCall(matches, a, hashes, call, cs, i) == (a', hashes', call'))
  {
    hide Next, Call.Done;
  }

  class Server {
    const auth: AuthManager
    const matches: Verifier
    var hashes: seq<PinHash>

    constructor (matches: Verifier, auth: AuthManager, hashes: seq<PinHash>, readFails: bool)
      requires auth.View() == EMPTY
      modifies auth
      ensures this.auth == auth && this.matches == matches && this.hashes == hashes
      ensures forall now: Time :: auth.View() == Boot(hashes, readFails, now).auth
    {
      this.matches := matches;
      this.auth := auth;
      this.hashes := hashes;
      new;
      var stored := GetPinHash(readFails);
      if stored.Some? {
        auth.SetPinConfigured(true);
      }
    }

    /** Reads the current hash; a failing read and a missing hash look the same. */
    method GetPinHash(fails: bool) returns (r: Option<PinHash>)
      ensures r == if fails || hashes == [] then None else Some(hashes[|hashes| - 1])
    {
      if fails || |hashes| == 0 {
        return None;
      }
      return Some(hashes[|hashes| - 1]);
    }

    method HasPin(fails: bool) returns (has: bool)
      ensures has <==> !fails && hashes != []
    {
      var stored := GetPinHash(fails);
      return stored.Some?;
    }

    method Unlock(ticket: Token, pin: Pin, cs: seq<Choice>) returns (reply: UnlockReply)
      requires |cs| >= 5
      modifies auth
      ensures var r := RunCall(matches, old(auth.View()), hashes, Systems.Unlock(ticket, pin, None, CheckingLimit), cs, 0);
              r.0 == auth.View() && r.1 == hashes && r.2.Unlock? && r.2.stage == Replied(reply)
    {
      hide RunCall, RedeemUnlockTicket, Backoff, Call.Held;
      ghost var call := Systems.Unlock(ticket, pin, None, CheckingLimit);
      RunOne(matches, auth.View(), hashes, call, cs, 0);
      var limited := auth.CheckPinRateLimit(cs[0].now);
      if limited {
        return RateLimitedUnlock;
      }
      call := call.(stage := Redeeming);
      RunOne(matches, auth.View(), hashes, call, cs, 1);
      var out := auth.RedeemUnlockTicket(ticket, cs[1].now, cs[1].random);
      if !out.Session? {
        return TicketRefused;
      }
      reply := CheckPin(call.(stage := ReadingHash(out.token, out.expiresAt)), out.token, out.expiresAt, pin, cs);
    }

    /** The end of Unlock: verify the PIN, and give the session out or take it back. */
    method CheckPin(ghost reading: Call, token: Token, expiresAt: Time, pin: Pin, cs: seq<Choice>) returns (reply: UnlockReply)
      requires |cs| >= 5 && reading.Unlock? && reading.pin == pin && reading.stage == ReadingHash(token, expiresAt)
      modifies auth
      ensures var r := RunCall(matches, old(auth.View()), hashes, reading, cs, 2);
              r.0 == auth.View() && r.1 == hashes && r.2.Unlock? && r.2.stage == Replied(reply)
    {
      hide RunCall, RedeemUnlockTicket, Backoff, Call.Held;
      RunOne(matches, auth.View(), hashes, reading, cs, 2);
      var stored := GetPinHash(cs[2].storageFails);
      if stored.None? {
        RunOne(matches, auth.View(), hashes, reading.(stage := Revoking(token, true)), cs, 3);
        auth.RevokeSession(token);
        return NoPinConfigured;
      }
      ghost var call := reading.(version := Some(|hashes|));
      if !matches(pin, stored.value) {
        RunOne(matches, auth.View(), hashes, call.(stage := RecordingFailure(token)), cs, 3);
        auth.RecordPinFailure(cs[3].now);
        RunOne(matches, auth.View(), hashes, call.(stage := Revoking(token, false)), cs, 4);
        auth.RevokeSession(token);
        return WrongPin;
      }
      RunOne(matches, auth.View(), hashes, call.(stage := ResettingFailures(token, expiresAt)), cs, 3);
      auth.ResetPinFailures();
      return Granted(token, expiresAt);
    }

    /** The handler proper: the interceptor has validated the caller's token. */
    method SetPin(current: Pin, wanted: Pin, cs: seq<Choice>) returns (answer: SetPinReply)
      requires |cs| >= 6
      modifies auth, this`hashes
      ensures var r := RunCall(matches, old(auth.View()), old(hashes), NewSetPin(true, current, wanted), cs, 0);
              r.0 == auth.View() && r.1 == hashes && r.2.SetPin? && r.2.step == Answered(answer)
    {
      ghost var call := NewSetPin(true, current, wanted);
      if !ValidPin(wanted) {
        return BadNewPin;
      }
      hide RunCall;
      RunOne(matches, auth.View(), hashes, call, cs, 0);
      var i := 1;
      var existing := GetPinHash(cs[0].storageFails);
      if existing.Some? {
        call := call.(checked := Some(|hashes|), step := CheckingOldPin(existing.value));
        RunOne(matches, auth.View(), hashes, call, cs, 1);
        var limited := auth.CheckPinRateLimit(cs[1].now);
        if limited {
          return RateLimitedSetPin;
        }
        if !matches(current, existing.value) {
          call := call.(step := RecordingWrongPin);
          RunOne(matches, auth.View(), hashes, call, cs, 2);
          auth.RecordPinFailure(cs[2].now);
          return WrongCurrentPin;
        }
        call := call.(step := ResettingBeforeStore);
        RunOne(matches, auth.View(), hashes, call, cs, 2);
        auth.ResetPinFailures();
        i := 3;
      }
      answer := StorePin(call.(step := Storing), cs, i);
    }

    /** The end of SetPIN: store the new hash, set the flag, drop every session. */
    method StorePin(ghost storing: Call, cs: seq<Choice>, i: nat) returns (answer: SetPinReply)
      requires i + 2 < |cs| && storing.SetPin? && storing.step == Storing
      modifies auth, this`hashes
      ensures var r := RunCall(matches, old(auth.View()), old(hashes), storing, cs, i);
              r.0 == auth.View() && r.1 == hashes && r.2.SetPin? && r.2.step == Answered(answer)
    {
      hide RunCall;
      RunOne(matches, auth.View(), hashes, storing, cs, i);
      if cs[i].hash.None? || cs[i].storageFails {
        return InternalError;
      }
      ghost var call := storing.(step := Flagging(|hashes| + 1));
      hashes := hashes + [cs[i].hash.value];
      RunOne(matches, auth.View(), hashes, call, cs, i + 1);
      auth.SetPinConfigured(true);
      call := call.(step := Invalidating(|hashes|));
      RunOne(matches, auth.View(), hashes, call, cs, i + 2);
      auth.InvalidateAllSessions();
      return PinSet;
    }
  }

  function Advances(id: nat, cs: seq<Choice>, i: nat): seq<Event>
    requires i <= |cs|
    decreases |cs| - i
  {
    if i == |cs| then [] else [Advance(id, cs[i])] + Advances(id, cs, i + 1)
  }

  // The environment plays by the rules while the call runs: the clock, the random tokens, the new hash.
  predicate Feasible(matches: Verifier, s: Sys, id: nat, cs: seq<Choice>, i: nat)
    requires i <= |cs| && id in s.calls
    decreases |cs| - i
  {
    s.calls[id].Done() || i == |cs| ||
    (Enabled(matches, s, Advance(id, cs[i])) && Feasible(matches, Advanced(matches, s, id, cs[i]), id, cs, i + 1))
  }

  /** A handler run on its own is the run of the transition system that advances only its call. */
  lemma {:induction false} SoloRun(matches: Verifier, s: Sys, id: nat, cs: seq<Choice>, i: nat)
    requires i <= |cs| && id in s.calls && Feasible(matches, s, id, cs, i)
    ensures var s' := Run(matches, s, Advances(id, cs, i));
            id in s'.calls && (s'.auth, s'.hashes, s'.calls[id]) == RunCall(matches, s.auth, s.hashes, s.calls[id], cs, i)
    decreases |cs| - i
  {
    if i < |cs| {
      var es := Advances(id, cs, i);
      assert es[0] == Advance(id, cs[i]) && es[1..] == Advances(id, cs, i + 1);
      if s.calls[id].Done() {
        assert Step(matches, s, es[0]) == s;
        SoloRun(matches, s, id, cs, i + 1);
      } else {
        hide Next;
        assert Step(matches, s, es[0]) == Advanced(matches, s, id, cs[i]);
        SoloRun(matches, Advanced(matches, s, id, cs[i]), id, cs, i + 1);
      }
    }
  }
}
