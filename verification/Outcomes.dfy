/** What the Unlock and SetPIN handlers do, from call to reply, when no other call interferes. */
module Outcomes {
  import opened Basics
  import opened Auth
  import opened Systems
  import opened Servers

  predicate LiveTicket(a: AuthState, ticket: Token, now: Time) {
    ticket in a.tickets && now <= a.tickets[ticket]
  }

  /** A ticket buys a session when it is live, the unexpired sessions leave room, and a token can be drawn. */
  predicate Buys(a: AuthState, ticket: Token, c: Choice) {
    LiveTicket(a, ticket, c.now) && |Unexpired(a.sessions, c.now)| < MAX_SESSIONS && c.random.Some?
  }

  // The sessions that are left after a redemption that brings none.
  function SessionsSeen(a: AuthState, ticket: Token, now: Time): Expiries {
    if LiveTicket(a, ticket, now) then Unexpired(a.sessions, now) else a.sessions
  }

  lemma Redemption(a: AuthState, ticket: Token, c: Choice)
    ensures var (a', out) := RedeemUnlockTicket(a, ticket, c.now, c.random);
            && (out.Session? <==> Buys(a, ticket, c))
            && (out.Session? ==> c.random == Some(out.token) && out.expiresAt == c.now + SESSION_TTL)
            && a' == a.(tickets := a.tickets - {ticket},
                        sessions := if out.Session? then SessionsSeen(a, ticket, c.now)[out.token := out.expiresAt]
                                    else SessionsSeen(a, ticket, c.now))
  {
    if ticket !in a.tickets {
      assert a.tickets - {ticket} == a.tickets;
    }
    hide Unexpired;
  }

  predicate Readable(hashes: seq<PinHash>, c: Choice) {
    hashes != [] && !c.storageFails
  }

  function Current(hashes: seq<PinHash>): PinHash
    requires hashes != []
  {
    hashes[|hashes| - 1]
  }

  function NewUnlock(ticket: Token, pin: Pin): Call {
    Unlock(ticket, pin, None, CheckingLimit)
  }

  /** Which reply an Unlock gives: five cases, each with its exact condition. */
  ghost predicate RepliesRightly(matches: Verifier, a: AuthState, hashes: seq<PinHash>, ticket: Token, pin: Pin,
                                 cs: seq<Choice>, reply: UnlockReply)
    requires |cs| >= 5
  {
    var limited, bought := cs[0].now < a.lockedUntil, Buys(a, ticket, cs[1]);
    && (reply.RateLimitedUnlock? <==> limited)
    && (reply.TicketRefused? <==> !limited && !bought)
    && (reply.NoPinConfigured? <==> !limited && bought && !Readable(hashes, cs[2]))
    && (reply.WrongPin? <==> !limited && bought && Readable(hashes, cs[2]) && !matches(pin, Current(hashes)))
    && (reply.Granted? <==> !limited && bought && Readable(hashes, cs[2]) && matches(pin, Current(hashes)))
    && (reply.Granted? ==> reply == Granted(cs[1].random.value, cs[1].now + SESSION_TTL))
  }

  /** What an Unlock leaves behind: the ticket is gone unless the call was rate-limited, a session is there only
      if the reply grants it, and the lockout moves only with a verdict on the PIN. */
  ghost predicate LeavesRightly(a: AuthState, ticket: Token, cs: seq<Choice>, reply: UnlockReply, a': AuthState)
    requires |cs| >= 5
  {
    && (reply.RateLimitedUnlock? ==> a' == a)
    && (!reply.RateLimitedUnlock? ==>
          && a'.tickets == a.tickets - {ticket} && a'.nonces == a.nonces && a'.pinConfigured == a.pinConfigured
          && (reply.Granted? ==>
                && a'.sessions == Unexpired(a.sessions, cs[1].now)[reply.token := reply.expiresAt]
                && a'.pinFailures == 0 && a'.lockedUntil == NEVER)
          && (!reply.Granted? ==> a'.sessions == SessionsSeen(a, ticket, cs[1].now))
          && (reply.WrongPin? ==>
                && a'.pinFailures == a.pinFailures + 1
                && a'.lockedUntil == cs[3].now + Backoff(a.pinFailures + 1))
          && (reply.TicketRefused? || reply.NoPinConfigured? ==>
                a'.pinFailures == a.pinFailures && a'.lockedUntil == a.lockedUntil))
  }

  lemma RevocationRestores(m: Expiries, token: Token, at: Time)
    requires token !in m
    ensures m[token := at] - {token} == m
  {
  }

  // The part of Unlock after the ticket has bought a session.
  lemma CheckedOutcome(matches: Verifier, a: AuthState, hashes: seq<PinHash>, call: Call, cs: seq<Choice>, m: Expiries)
    requires |cs| >= 5 && call.Unlock? && call.stage.ReadingHash?
    requires call.stage.token !in m && a.sessions == m[call.stage.token := call.stage.expiresAt]
    ensures var (a', hashes', call') := RunCall(matches, a, hashes, call, cs, 2);
            && hashes' == hashes && call'.Unlock? && call'.stage.Replied?
            && var reply := call'.stage.reply;
               && (reply.NoPinConfigured? <==> !Readable(hashes, cs[2]))
               && (reply.WrongPin? <==> Readable(hashes, cs[2]) && !matches(call.pin, Current(hashes)))
               && (reply.Granted? || reply.WrongPin? || reply.NoPinConfigured?)
               && (reply.Granted? ==> reply == Granted(call.stage.token, call.stage.expiresAt)
                                      && a' == ResetPinFailures(a))
               && (reply.WrongPin? ==> a' == RecordPinFailure(a, cs[3].now).(sessions := m))
               && (reply.NoPinConfigured? ==> a' == a.(sessions := m))
  {
    hide RunCall, RedeemUnlockTicket, SetPinNext, Call.Held, Backoff;
    var token, expiresAt := call.stage.token, call.stage.expiresAt;
    RevocationRestores(m, token, expiresAt);
    RunOne(matches, a, hashes, call, cs, 2);
    if !Readable(hashes, cs[2]) {
      RunOne(matches, a, hashes, call.(stage := Revoking(token, true)), cs, 3);
    } else if matches(call.pin, Current(hashes)) {
      RunOne(matches, a, hashes, call.(version := Some(|hashes|), stage := ResettingFailures(token, expiresAt)), cs, 3);
    } else {
      var wrong := call.(version := Some(|hashes|), stage := RecordingFailure(token));
      RunOne(matches, a, hashes, wrong, cs, 3);
      RunOne(matches, RecordPinFailure(a, cs[3].now), hashes, wrong.(stage := Revoking(token, false)), cs, 4);
    }
  }

  /** The whole of Unlock. The token drawn is a new one. */
  lemma UnlockOutcome(matches: Verifier, a: AuthState, hashes: seq<PinHash>, ticket: Token, pin: Pin, cs: seq<Choice>)
    requires |cs| >= 5 && (cs[1].random.Some? ==> cs[1].random.value !in a.sessions)
    ensures var (a', hashes', call) := RunCall(matches, a, hashes, NewUnlock(ticket, pin), cs, 0);
            && hashes' == hashes && call.Unlock? && call.stage.Replied?
            && RepliesRightly(matches, a, hashes, ticket, pin, cs, call.stage.reply)
            && LeavesRightly(a, ticket, cs, call.stage.reply, a')
  {
    hide RunCall, RedeemUnlockTicket, SetPinNext, Call.Held, Backoff, Readable, Current, Buys, Unexpired;
    var call := NewUnlock(ticket, pin);
    RunOne(matches, a, hashes, call, cs, 0);
    if !RateLimited(a, cs[0].now) {
      RunOne(matches, a, hashes, call.(stage := Redeeming), cs, 1);
      Redemption(a, ticket, cs[1]);
      var (a1, out) := RedeemUnlockTicket(a, ticket, cs[1].now, cs[1].random);
      if out.Session? {
        BoughtIsLive(a, ticket, cs[1]);
        CheckedOutcome(matches, a1, hashes, call.(stage := ReadingHash(out.token, out.expiresAt)), cs, Unexpired(a.sessions, cs[1].now));
      }
      hide UnlockNext;
    }
  }

  lemma BoughtIsLive(a: AuthState, ticket: Token, c: Choice)
    requires Buys(a, ticket, c) && c.random.value !in a.sessions
    ensures LiveTicket(a, ticket, c.now) && c.random.value !in Unexpired(a.sessions, c.now)
  {
  }

  /** Which answer a SetPIN gives once the caller's token has been validated. The rest are internal errors. */
  ghost predicate AnswersRightly(matches: Verifier, a: AuthState, hashes: seq<PinHash>, current: Pin, wanted: Pin,
                                 cs: seq<Choice>, answer: SetPinReply)
    requires |cs| >= 6
  {
    var asks := Readable(hashes, cs[0]);
    var refused := asks && (cs[1].now < a.lockedUntil || !matches(current, Current(hashes)));
    && (answer.BadNewPin? <==> !ValidPin(wanted))
    && (answer.RateLimitedSetPin? <==> ValidPin(wanted) && asks && cs[1].now < a.lockedUntil)
    && (answer.WrongCurrentPin? <==>
          ValidPin(wanted) && asks && cs[1].now >= a.lockedUntil && !matches(current, Current(hashes)))
    && (answer.PinSet? <==> ValidPin(wanted) && !refused && Stores(cs[if asks then 3 else 1]))
    && !answer.Unauthorized?
  }

  /** What a SetPIN leaves behind: all of the change or none of it. */
  ghost predicate ChangesRightly(a: AuthState, hashes: seq<PinHash>, asks: bool, cs: seq<Choice>, answer: SetPinReply,
                                 a': AuthState, hashes': seq<PinHash>)
    requires |cs| >= 6
  {
    && a'.nonces == a.nonces && a'.tickets == a.tickets
    && (answer.PinSet? ==>
          && cs[if asks then 3 else 1].hash.Some? && hashes' == hashes + [cs[if asks then 3 else 1].hash.value]
          && a'.pinConfigured && a'.sessions == map[])
    && (!answer.PinSet? ==> hashes' == hashes && a'.sessions == a.sessions && a'.pinConfigured == a.pinConfigured)
    && (answer.WrongCurrentPin? ==>
          a'.pinFailures == a.pinFailures + 1 && a'.lockedUntil == cs[2].now + Backoff(a.pinFailures + 1))
    && (asks && (answer.PinSet? || answer.InternalError?) ==> a'.pinFailures == 0 && a'.lockedUntil == NEVER)
    && (answer.BadNewPin? || answer.RateLimitedSetPin? || (!asks && (answer.PinSet? || answer.InternalError?)) ==>
          a'.pinFailures == a.pinFailures && a'.lockedUntil == a.lockedUntil)
  }

  /** The whole of SetPIN. */
  lemma SetPinOutcome(matches: Verifier, a: AuthState, hashes: seq<PinHash>, current: Pin, wanted: Pin, cs: seq<Choice>)
    requires |cs| >= 6
    ensures var (a', hashes', call) := RunCall(matches, a, hashes, NewSetPin(true, current, wanted), cs, 0);
            && call.SetPin? && call.step.Answered?
            && AnswersRightly(matches, a, hashes, current, wanted, cs, call.step.answer)
            && ChangesRightly(a, hashes, Readable(hashes, cs[0]), cs, call.step.answer, a', hashes')
  {
    hide RunCall, UnlockNext, Backoff, Current;
    var call := NewSetPin(true, current, wanted);
    if !ValidPin(wanted) {
      NothingRuns(matches, a, hashes, call, cs);
    } else {
      ReadingOutcome(matches, a, hashes, call, cs);
      if !Readable(hashes, cs[0]) {
        StoringOutcome(matches, a, hashes, call.(step := Storing), cs, 1);
      } else if matches(current, Current(hashes)) {
        StoringOutcome(matches, ResetPinFailures(a), hashes, call.(checked := Some(|hashes|), step := Storing), cs, 3);
      }
    }
  }

  // SetPIN up to the point where it stores the hash.
  lemma ReadingOutcome(matches: Verifier, a: AuthState, hashes: seq<PinHash>, call: Call, cs: seq<Choice>)
    requires |cs| >= 6 && call.SetPin? && call.step.ReadingOldHash?
    ensures var read := call.(checked := Some(|hashes|));
            RunCall(matches, a, hashes, call, cs, 0) ==
            if !Readable(hashes, cs[0]) then RunCall(matches, a, hashes, call.(step := Storing), cs, 1)
            else if RateLimited(a, cs[1].now) then (a, hashes, read.(step := Answered(RateLimitedSetPin)))
            else if matches(call.current, Current(hashes)) then
              RunCall(matches, ResetPinFailures(a), hashes, read.(step := Storing), cs, 3)
            else (RecordPinFailure(a, cs[2].now), hashes, read.(step := Answered(WrongCurrentPin)))
  {
    hide RunCall, UnlockNext, Backoff;
    var read := call.(checked := Some(|hashes|));
    RunOne(matches, a, hashes, call, cs, 0);
    if Readable(hashes, cs[0]) {
      RunOne(matches, a, hashes, read.(step := CheckingOldPin(Current(hashes))), cs, 1);
      if !RateLimited(a, cs[1].now) {
        if matches(call.current, Current(hashes)) {
          RunOne(matches, a, hashes, read.(step := ResettingBeforeStore), cs, 2);
        } else {
          RunOne(matches, a, hashes, read.(step := RecordingWrongPin), cs, 2);
        }
      }
    }
  }

  lemma NothingRuns(matches: Verifier, a: AuthState, hashes: seq<PinHash>, call: Call, cs: seq<Choice>)
    requires call.Done()
    ensures RunCall(matches, a, hashes, call, cs, 0) == (a, hashes, call)
  {
  }

  // The end of SetPIN: either everything happens or nothing does.
  lemma StoringOutcome(matches: Verifier, a: AuthState, hashes: seq<PinHash>, call: Call, cs: seq<Choice>, i: nat)
    requires i + 2 < |cs| && call.SetPin? && call.step.Storing?
    ensures var (a', hashes', call') := RunCall(matches, a, hashes, call, cs, i);
            && call'.SetPin? && call'.step.Answered?
            && (if Stores(cs[i]) then
                  && call'.step.answer.PinSet? && hashes' == hashes + [cs[i].hash.value]
                  && a' == a.(pinConfigured := true, sessions := map[])
                else
                  call'.step.answer.InternalError? && hashes' == hashes && a' == a)
  {
    hide RunCall, UnlockNext;
    RunOne(matches, a, hashes, call, cs, i);
    if Stores(cs[i]) {
      var hashes' := hashes + [cs[i].hash.value];
      RunOne(matches, a, hashes', call.(step := Flagging(|hashes'|)), cs, i + 1);
      RunOne(matches, SetPinConfigured(a, true), hashes', call.(step := Invalidating(|hashes'|)), cs, i + 2);
    }
  }

  predicate Stores(c: Choice) {
    c.hash.Some? && !c.storageFails
  }

  /** The round trip of a PIN: after a SetPIN has succeeded, an Unlock that buys a session and can read the hash opens
      if and only if its PIN matches the hash that this SetPIN was given, and its session is then the only one. */
  lemma NewPinDecides(matches: Verifier, a: AuthState, hashes: seq<PinHash>, current: Pin, wanted: Pin, cs: seq<Choice>,
                      ticket: Token, pin: Pin, us: seq<Choice>)
    requires |cs| >= 6 && |us| >= 5
    requires var (a', hashes', change) := RunCall(matches, a, hashes, NewSetPin(true, current, wanted), cs, 0);
             && change.SetPin? && change.step == Answered(PinSet)
             && a'.lockedUntil <= us[0].now && Buys(a', ticket, us[1]) && !us[2].storageFails
    ensures var given := cs[if Readable(hashes, cs[0]) then 3 else 1].hash;
            var (a', hashes', _) := RunCall(matches, a, hashes, NewSetPin(true, current, wanted), cs, 0);
            var (a2, _, unlock) := RunCall(matches, a', hashes', NewUnlock(ticket, pin), us, 0);
            && given.Some? && unlock.Unlock? && unlock.stage.Replied?
            && (unlock.stage.reply.Granted? <==> matches(pin, given.value))
            && (unlock.stage.reply.WrongPin? <==> !matches(pin, given.value))
            && (unlock.stage.reply.Granted? ==> a2.sessions.Keys == {us[1].random.value})
            && (unlock.stage.reply.WrongPin? ==> a2.sessions == map[])
  {
    var (a', hashes', change) := RunCall(matches, a, hashes, NewSetPin(true, current, wanted), cs, 0);
    SetPinOutcome(matches, a, hashes, current, wanted, cs);
    assert a'.sessions == map[] && Unexpired(a'.sessions, us[1].now) == map[];
    UnlockOutcome(matches, a', hashes', ticket, pin, us);
    assert Readable(hashes', us[2]) && Current(hashes') == cs[if Readable(hashes, cs[0]) then 3 else 1].hash.value;
    hide RunCall, Backoff, Readable, Current, Buys, Unexpired;
  }

  /** SetPIN refuses a new PIN as malformed if and only if it does not have four to six characters or one of them is
      not a digit. */
  lemma BadNewPinExactly(matches: Verifier, a: AuthState, hashes: seq<PinHash>, current: Pin, wanted: Pin, cs: seq<Choice>)
    requires |cs| >= 6
    ensures var call := RunCall(matches, a, hashes, NewSetPin(true, current, wanted), cs, 0).2;
            && call.SetPin? && call.step.Answered?
            && (call.step.answer == BadNewPin <==> |wanted| < 4 || |wanted| > 6 || exists i :: 0 <= i < |wanted| && wanted[i] !in "0123456789")
  {
    SetPinOutcome(matches, a, hashes, current, wanted, cs);
    hide RunCall;
    forall i | 0 <= i < |wanted| ensures wanted[i] in "0123456789" <==> '0' <= wanted[i] <= '9' {
      DigitsAreTen(wanted[i]);
    }
  }

  lemma DigitsAreTen(c: char)
    ensures c in "0123456789" <==> '0' <= c <= '9'
  {
    if '0' <= c <= '9' {
      var k := c as int - '0' as int;
      assert "0123456789"[k] == c;
    }
  }
}
