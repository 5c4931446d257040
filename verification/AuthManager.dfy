/** The manager of the authentication state, as an object whose methods change its fields in place. */
module AuthManagers {
  import opened Basics
  import opened Auth

  /** The manager object: the fields that the operations change under its mutex. */
  class AuthManager {
    var nonces: Expiries
    var sessions: Expiries
    var unlockTickets: Expiries
    var pinConfigured: bool
    var pinFailures: nat
    var pinLockedUntil: Time

    ghost function View(): AuthState
      reads this
    {
      AuthState(nonces, unlockTickets, sessions, pinConfigured, pinFailures, pinLockedUntil)
    }

    constructor ()
      ensures View() == EMPTY
    {
      nonces, sessions, unlockTickets := map[], map[], map[];
      pinConfigured, pinFailures, pinLockedUntil := false, 0, NEVER;
    }

    /** The deletion loop over one expiring map. */
    static method Sweep(m: Expiries, now: Time) returns (swept: Expiries)
      ensures swept == Unexpired(m, now)
    {
      swept := m;
      var pending := m.Keys;
      while pending != {}
        invariant pending <= m.Keys
        invariant forall k :: k in swept ==> k in m && swept[k] == m[k]
        invariant forall k :: k in m ==> (k in swept <==> k in pending || !Expired(m[k], now))
      {
        var k :| k in pending;
        if now > swept[k] {
          swept := swept - {k};
        }
        pending := pending - {k};
      }
    }

    method GenerateChallenge(now: Time, random: Option<Token>) returns (out: Output)
      modifies this
      ensures (View(), out) == Auth.GenerateChallenge(old(View()), now, random)
    {
      if random.None? {
        return Failed(NoEntropy);
      }
      nonces := Sweep(nonces, now);
      nonces := nonces[random.value := now + NONCE_TTL];
      return Challenge(random.value);
    }

    method VerifyNonce(nonce: Token, clock: Readings, random: Option<Token>) returns (out: Output)
      modifies this
      ensures (View(), out) == Auth.VerifyNonce(old(View()), nonce, clock, random)
    {
      if nonce !in nonces {
        return Failed(NonceNotFound);
      }
      var expiresAt := nonces[nonce];
      if clock.first > expiresAt {
        nonces := nonces - {nonce};
        return Failed(NonceExpired);
      }
      nonces := nonces - {nonce};
      if pinConfigured {
        unlockTickets := Sweep(unlockTickets, clock.second);
        if random.None? {
          return Failed(NoEntropy);
        }
        unlockTickets := unlockTickets[random.value := clock.third + NONCE_TTL];
        return Ticket(random.value);
      }
      sessions := Sweep(sessions, clock.second);
      if |sessions| >= MAX_SESSIONS {
        return Failed(TooManySessions);
      }
      if random.None? {
        return Failed(NoEntropy);
      }
      sessions := sessions[random.value := clock.second + SESSION_TTL];
      return Session(random.value, clock.second + SESSION_TTL);
    }

    method RedeemUnlockTicket(ticket: Token, now: Time, random: Option<Token>) returns (out: Output)
      modifies this
      ensures (View(), out) == Auth.RedeemUnlockTicket(old(View()), ticket, now, random)
    {
      if ticket !in unlockTickets {
        return Failed(TicketUnknown);
      }
      var expiresAt := unlockTickets[ticket];
      unlockTickets := unlockTickets - {ticket};
      if now > expiresAt {
        return Failed(TicketExpired);
      }
      sessions := Sweep(sessions, now);
      if |sessions| >= MAX_SESSIONS {
        return Failed(TooManySessions);
      }
      if random.None? {
        return Failed(NoEntropy);
      }
      sessions := sessions[random.value := now + SESSION_TTL];
      return Session(random.value, now + SESSION_TTL);
    }

    method ValidateToken(token: Token, now: Time) returns (ok: bool)
      modifies this
      ensures (View(), Answer(ok)) == Auth.ValidateToken(old(View()), token, now)
    {
      if token !in sessions {
        return false;
      }
      if now > sessions[token] {
        sessions := sessions - {token};
        return false;
      }
      return true;
    }

    method RevokeSession(token: Token)
      modifies this
      ensures View() == Auth.RevokeSession(old(View()), token)
    {
      sessions := sessions - {token};
    }

    method InvalidateAllSessions()
      modifies this
      ensures View() == Auth.InvalidateAllSessions(old(View()))
    {
      sessions := map[];
    }

    method SweepExpired(now: Time)
      modifies this
      ensures View() == Auth.SweepExpired(old(View()), now)
    {
      sessions := Sweep(sessions, now);
      nonces := Sweep(nonces, now);
      unlockTickets := Sweep(unlockTickets, now);
    }

    method SetPinConfigured(configured: bool)
      modifies this
      ensures View() == Auth.SetPinConfigured(old(View()), configured)
    {
      pinConfigured := configured;
    }

    method RecordPinFailure(now: Time)
      modifies this
      ensures View() == Auth.RecordPinFailure(old(View()), now)
    {
      pinFailures := pinFailures + 1;
      var backoff := LOCKOUT_BASE * ShiftLeft(1, Min(pinFailures - 1, 5));
      if backoff > LOCKOUT_MAX {
        backoff := LOCKOUT_MAX;
      }
      pinLockedUntil := now + backoff;
    }

    method ResetPinFailures()
      modifies this
      ensures View() == Auth.ResetPinFailures(old(View()))
    {
      pinFailures := 0;
      pinLockedUntil := NEVER;
    }

    method CheckPinRateLimit(now: Time) returns (limited: bool)
      ensures limited == RateLimited(View(), now)
    {
      return now < pinLockedUntil;
    }
  }
}
