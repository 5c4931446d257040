/** What the operations that consume or mint a token do to the three maps. */
module AuthEffects {
  import opened Basics
  import opened Auth

  // The only session that can appear is the one just minted; nothing else but the session map changes.
  ghost predicate MintsAtMost(a: AuthState, r: (AuthState, Output), random: Option<Token>) {
    var (a', out) := r;
    && a'.pinConfigured == a.pinConfigured && a'.pinFailures == a.pinFailures && a'.lockedUntil == a.lockedUntil
    && (out.Session? ==> random == Some(out.token) && a'.sessions.Keys <= a.sessions.Keys + {out.token})
    && (!out.Session? ==> a'.sessions.Keys <= a.sessions.Keys)
    && (|a.sessions| <= MAX_SESSIONS ==> |a'.sessions| <= MAX_SESSIONS)
  }

  lemma MintEffect(a: AuthState, now: Time, random: Option<Token>)
    ensures MintsAtMost(a, Mint(a, now, random), random)
    ensures Mint(a, now, random).0.nonces == a.nonces
    ensures Mint(a, now, random).0.tickets == a.tickets
    ensures !Mint(a, now, random).1.Ticket?
  {
    UnexpiredIsSmaller(a.sessions, now);
  }

  lemma RemovalSize(m: Expiries, k: Token)
    ensures |m - {k}| == |m| - if k in m then 1 else 0
    ensures k !in m ==> m - {k} == m
  {
    assert (m - {k}).Keys == m.Keys - {k};
    assert |(m - {k}).Keys| == |m.Keys - {k}|;
    assert |m| == |m.Keys|;
  }

  lemma GiveTicketEffect(a: AuthState, now: Time, at: Time, random: Option<Token>)
    ensures var (a', out) := GiveTicket(a, now, at, random);
            && a' == a.(tickets := a'.tickets)
            && !out.Session?
            && (out.Ticket? ==> random == Some(out.ticket) && a'.tickets.Keys <= a.tickets.Keys + {out.ticket}
                                && |a'.tickets| <= |a.tickets| + 1)
            && (!out.Ticket? ==> a'.tickets.Keys <= a.tickets.Keys && |a'.tickets| <= |a.tickets|)
  {
    UnexpiredIsSmaller(a.tickets, now);
  }

  // A challenge answer costs its nonce and yields at most one ticket or one session.
  lemma VerifyNonceEffect(a: AuthState, nonce: Token, clock: Readings, random: Option<Token>)
    ensures var (a', out) := VerifyNonce(a, nonce, clock, random);
            && MintsAtMost(a, (a', out), random)
            && a'.nonces == a.nonces - {nonce}
            && (out.Session? ==> nonce in a.nonces && !a.pinConfigured && a'.tickets == a.tickets)
            && (out.Ticket? ==> nonce in a.nonces && a.pinConfigured && random == Some(out.ticket)
                                && a'.tickets.Keys <= a.tickets.Keys + {out.ticket} && |a'.tickets| <= |a.tickets| + 1)
            && (!out.Ticket? ==> a'.tickets.Keys <= a.tickets.Keys && |a'.tickets| <= |a.tickets|)
  {
    hide Mint, GiveTicket;
    RemovalSize(a.nonces, nonce);
    var spent := a.(nonces := a.nonces - {nonce});
    MintEffect(spent, clock.second, random);
    GiveTicketEffect(spent, clock.second, clock.third, random);
  }

  // A redemption costs its ticket, whatever the outcome.
  lemma RedeemEffect(a: AuthState, ticket: Token, now: Time, random: Option<Token>)
    ensures var (a', out) := RedeemUnlockTicket(a, ticket, now, random);
            && MintsAtMost(a, (a', out), random)
            && a'.nonces == a.nonces
            && a'.tickets == a.tickets - {ticket}
            && (out.Session? ==> ticket in a.tickets)
  {
    hide Mint;
    RemovalSize(a.tickets, ticket);
    MintEffect(a.(tickets := a.tickets - {ticket}), now, random);
  }

  lemma GenerateEffect(a: AuthState, now: Time, random: Option<Token>)
    ensures var (a', out) := GenerateChallenge(a, now, random);
            && a' == a.(nonces := a'.nonces)
            && (out.Challenge? ==> random == Some(out.nonce) && a'.nonces.Keys <= a.nonces.Keys + {out.nonce}
                                   && |a'.nonces| <= |a.nonces| + 1)
            && (!out.Challenge? ==> a' == a)
  {
    UnexpiredIsSmaller(a.nonces, now);
  }

  lemma ValidateEffect(a: AuthState, token: Token, now: Time)
    ensures var (a', out) := ValidateToken(a, token, now);
            && a' == a.(sessions := a'.sessions)
            && a'.sessions.Keys <= a.sessions.Keys && |a'.sessions| <= |a.sessions|
  {
    RemovalSize(a.sessions, token);
  }

  lemma SweepEffect(a: AuthState, now: Time)
    ensures var a' := SweepExpired(a, now);
            && a' == a.(sessions := a'.sessions, nonces := a'.nonces, tickets := a'.tickets)
            && a'.sessions.Keys <= a.sessions.Keys && |a'.sessions| <= |a.sessions|
            && a'.nonces.Keys <= a.nonces.Keys && |a'.nonces| <= |a.nonces|
            && a'.tickets.Keys <= a.tickets.Keys && |a'.tickets| <= |a.tickets|
  {
    UnexpiredIsSmaller(a.sessions, now);
    UnexpiredIsSmaller(a.nonces, now);
    UnexpiredIsSmaller(a.tickets, now);
  }

  // Minting is refused for capacity exactly when the cap is filled by sessions that have not expired.
  lemma CapacityRefusalIsExact(a: AuthState, now: Time, random: Option<Token>)
    requires |a.sessions| <= MAX_SESSIONS
    ensures Mint(a, now, random).1 == Failed(TooManySessions)
       <==> |set k | k in a.sessions && now <= a.sessions[k]| == MAX_SESSIONS
  {
    UnexpiredIsSmaller(a.sessions, now);
    assert Unexpired(a.sessions, now).Keys == set k | k in a.sessions && now <= a.sessions[k];
    assert |Unexpired(a.sessions, now)| == |Unexpired(a.sessions, now).Keys|;
  }

  // ---- Which entries a map holds, point by point ----

  // The entry of k after a sweep: it is kept exactly while it is live.
  ghost predicate KeptWhileLive(kept: Expiries, m: Expiries, now: Time, k: Token) {
    && (k in kept <==> k in m && now <= m[k])
    && (k in kept ==> kept[k] == m[k])
  }

  /** The sweeper keeps, in each of the three maps, exactly the entries that are live, each with its expiry, and
      changes nothing else. */
  lemma SweptExactly(a: AuthState, now: Time, k: Token)
    ensures var a' := SweepExpired(a, now);
            && KeptWhileLive(a'.sessions, a.sessions, now, k)
            && KeptWhileLive(a'.nonces, a.nonces, now, k)
            && KeptWhileLive(a'.tickets, a.tickets, now, k)
            && a'.pinConfigured == a.pinConfigured && a'.pinFailures == a.pinFailures && a'.lockedUntil == a.lockedUntil
  {
  }

  /** Generating a challenge keeps exactly the live nonces beside the new one, which lives for 30 seconds. */
  lemma GeneratedExactly(a: AuthState, now: Time, nonce: Token, k: Token)
    ensures var (a', out) := GenerateChallenge(a, now, Some(nonce));
            && out == Challenge(nonce)
            && nonce in a'.nonces && a'.nonces[nonce] == now + 30_000_000_000
            && (k != nonce ==> KeptWhileLive(a'.nonces, a.nonces, now, k))
            && a' == a.(nonces := a'.nonces)
  {
  }

  /** Answering a live challenge with a PIN set keeps exactly the live tickets beside the new one, which lives for 30
      seconds from the last clock reading; without entropy it only sweeps. */
  lemma TicketGivenExactly(a: AuthState, nonce: Token, clock: Readings, random: Option<Token>, k: Token)
    requires a.pinConfigured && nonce in a.nonces && clock.first <= a.nonces[nonce]
    ensures var (a', out) := VerifyNonce(a, nonce, clock, random);
            && out == (if random.Some? then Ticket(random.value) else Failed(NoEntropy))
            && (random.Some? ==> random.value in a'.tickets && a'.tickets[random.value] == clock.third + 30_000_000_000)
            && (Some(k) != random ==> KeptWhileLive(a'.tickets, a.tickets, clock.second, k))
            && a' == a.(nonces := a.nonces - {nonce}, tickets := a'.tickets)
  {
  }

  /** Minting keeps exactly the live sessions beside the new one, which lives for an hour. */
  lemma MintedExactly(a: AuthState, now: Time, random: Option<Token>, k: Token)
    ensures var (a', out) := Mint(a, now, random);
            && (out.Session? ==> random == Some(out.token) && out.expiresAt == now + 3_600_000_000_000
                                 && out.token in a'.sessions && a'.sessions[out.token] == out.expiresAt)
            && (!(out.Session? && k == out.token) ==> KeptWhileLive(a'.sessions, a.sessions, now, k))
            && a' == a.(sessions := a'.sessions)
  {
  }

  /** A nonce or ticket is refused as unknown, without any effect, if and only if it is not in the map, and as expired
      if and only if it is there past its expiry. */
  lemma RefusedExactly(a: AuthState, k: Token, clock: Readings, now: Time, random: Option<Token>)
    ensures VerifyNonce(a, k, clock, random).1 == Failed(NonceNotFound) <==> k !in a.nonces
    ensures VerifyNonce(a, k, clock, random).1 == Failed(NonceExpired) <==> k in a.nonces && a.nonces[k] < clock.first
    ensures RedeemUnlockTicket(a, k, now, random).1 == Failed(TicketUnknown) <==> k !in a.tickets
    ensures RedeemUnlockTicket(a, k, now, random).1 == Failed(TicketExpired) <==> k in a.tickets && a.tickets[k] < now
    ensures k !in a.nonces ==> VerifyNonce(a, k, clock, random).0 == a
    ensures k !in a.tickets ==> RedeemUnlockTicket(a, k, now, random).0 == a
  {
    MintReasons(a.(nonces := a.nonces - {k}), clock.second, random);
    TicketReasons(a.(nonces := a.nonces - {k}), clock, random);
    MintReasons(a.(tickets := a.tickets - {k}), now, random);
    hide Mint, GiveTicket;
  }

  /** Validating a token removes it exactly when it has expired, and no other. */
  lemma ValidatedExactly(a: AuthState, token: Token, now: Time, k: Token)
    ensures var (a', out) := ValidateToken(a, token, now);
            && out == Answer(token in a.sessions && now <= a.sessions[token])
            && KeptWhileLive(a'.sessions, a.sessions, now, token)
            && (k != token ==> (k in a'.sessions <==> k in a.sessions) && (k in a.sessions ==> a'.sessions[k] == a.sessions[k]))
            && a' == a.(sessions := a'.sessions)
  {
  }

  /** A challenge can be answered up to 30 seconds after it was generated, and no later. */
  lemma ChallengeLifetime(a: AuthState, at: Time, nonce: Token, clock: Readings, random: Option<Token>)
    ensures var a' := GenerateChallenge(a, at, Some(nonce)).0;
            VerifyNonce(a', nonce, clock, random).1 == Failed(NonceExpired) <==> clock.first - at > 30_000_000_000
    ensures var a' := GenerateChallenge(a, at, Some(nonce)).0;
            VerifyNonce(a', nonce, clock, random).1 != Failed(NonceNotFound)
  {
    hide Unexpired, GiveTicket, Mint;
    MintReasons(GenerateChallenge(a, at, Some(nonce)).0.(nonces := GenerateChallenge(a, at, Some(nonce)).0.nonces - {nonce}), clock.second, random);
    TicketReasons(GenerateChallenge(a, at, Some(nonce)).0.(nonces := GenerateChallenge(a, at, Some(nonce)).0.nonces - {nonce}), clock, random);
  }

  lemma MintReasons(a: AuthState, now: Time, random: Option<Token>)
    ensures Mint(a, now, random).1.Session? || Mint(a, now, random).1 == Failed(TooManySessions) || Mint(a, now, random).1 == Failed(NoEntropy)
  {
  }

  lemma TicketReasons(a: AuthState, clock: Readings, random: Option<Token>)
    ensures GiveTicket(a, clock.second, clock.third, random).1.Ticket?
         || GiveTicket(a, clock.second, clock.third, random).1 == Failed(NoEntropy)
  {
  }

  /** A ticket can be redeemed up to 30 seconds after it was given, and no later. */
  lemma TicketLifetime(a: AuthState, nonce: Token, clock: Readings, ticket: Token, now: Time, random: Option<Token>)
    requires VerifyNonce(a, nonce, clock, Some(ticket)).1 == Ticket(ticket)
    ensures var a' := VerifyNonce(a, nonce, clock, Some(ticket)).0;
            RedeemUnlockTicket(a', ticket, now, random).1 == Failed(TicketExpired) <==> now - clock.third > 30_000_000_000
    ensures var a' := VerifyNonce(a, nonce, clock, Some(ticket)).0;
            RedeemUnlockTicket(a', ticket, now, random).1 != Failed(TicketUnknown)
  {
    MintReasons(a.(nonces := a.nonces - {nonce}), clock.second, Some(ticket));
    var a' := VerifyNonce(a, nonce, clock, Some(ticket)).0;
    assert ticket in a'.tickets && a'.tickets[ticket] == clock.third + NONCE_TTL by {
      hide Mint, Unexpired;
    }
    hide VerifyNonce, Mint;
    MintReasons(a'.(tickets := a'.tickets - {ticket}), now, random);
  }

  /** A session is valid up to an hour after it was opened, and no longer. */
  lemma SessionLifetime(a: AuthState, at: Time, random: Option<Token>, now: Time)
    requires Mint(a, at, random).1.Session?
    ensures var (a', out) := Mint(a, at, random);
            ValidateToken(a', out.token, now).1 == Answer(now - at <= 3_600_000_000_000)
  {
    hide Unexpired;
  }
}
