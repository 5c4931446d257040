/** A run in which two interleaved Unlock calls escape the lockout. */
module Race {
  import opened Basics
  import opened Auth
  import opened Systems
  import opened Guesses

  // Both tickets are live, nothing is locked, and two more tokens can be drawn.
  ghost predicate Ready(s: Sys) {
    && s.auth.tickets == map[Token(1) := NONCE_TTL, Token(3) := NONCE_TTL]
    && s.auth.sessions == map[] && s.auth.lockedUntil == NEVER
    && Token(4) !in s.issued && Token(5) !in s.issued
  }

  // Two Unlock calls at the given stages, at instant 0.
  ghost predicate RaceAt(s: Sys, h: PinHash, version: Option<nat>, first: UnlockStage, second: UnlockStage) {
    && s.hashes == [h] && s.now == 0 && s.failures == []
    && s.calls == map[0 := Unlock(Token(1), "", version, first), 1 := Unlock(Token(3), "", version, second)]
  }

  function At0(random: Option<Token>): Choice {
    Choice(0, random, false, None)
  }

  lemma BothStart(matches: Verifier, s: Sys, h: PinHash)
    requires s.hashes == [h] && s.now == 0 && s.failures == [] && s.calls == map[] && Ready(s)
    ensures var s' := Step(matches, Step(matches, s, CallUnlock(0, Token(1), "")), CallUnlock(1, Token(3), ""));
            RaceAt(s', h, None, CheckingLimit, CheckingLimit) && Ready(s')
  {
  }

  lemma BothCheck(matches: Verifier, s: Sys, h: PinHash)
    requires RaceAt(s, h, None, CheckingLimit, CheckingLimit) && Ready(s)
    ensures var s' := Step(matches, Step(matches, s, Advance(0, At0(None))), Advance(1, At0(None)));
            RaceAt(s', h, None, Redeeming, Redeeming) && Ready(s')
  {
  }

  lemma Redemption(a: AuthState, ticket: Token, token: Token)
    requires ticket in a.tickets && a.tickets[ticket] == NONCE_TTL && |a.sessions| < MAX_SESSIONS
    requires forall k :: k in a.sessions ==> a.sessions[k] == SESSION_TTL
    ensures RedeemUnlockTicket(a, ticket, 0, Some(token)) == (Redeemed(a, ticket, token), Session(token, SESSION_TTL))
  {
    assert Unexpired(a.sessions, 0) == a.sessions;
  }

  function Redeemed(a: AuthState, ticket: Token, token: Token): AuthState {
    a.(tickets := a.tickets - {ticket}, sessions := a.sessions[token := SESSION_TTL])
  }

  lemma RedeemStep(matches: Verifier, s: Sys, id: nat, token: Token)
    requires id in s.calls && s.calls[id].Unlock? && s.calls[id].stage.Redeeming?
    requires s.now == 0 && token !in s.issued && |s.auth.sessions| < MAX_SESSIONS
    requires s.calls[id].ticket in s.auth.tickets && s.auth.tickets[s.calls[id].ticket] == NONCE_TTL
    requires forall k :: k in s.auth.sessions ==> s.auth.sessions[k] == SESSION_TTL
    ensures Step(matches, s, Advance(id, At0(Some(token))))
            == s.(auth := Redeemed(s.auth, s.calls[id].ticket, token),
                  calls := s.calls[id := s.calls[id].(stage := ReadingHash(token, SESSION_TTL))],
                  issued := s.issued + {token},
                  minted := s.minted[token := ByUnlock(id)])
  {
    Redemption(s.auth, s.calls[id].ticket, token);
    hide RedeemUnlockTicket;
  }

  lemma FirstRedeems(matches: Verifier, s: Sys, h: PinHash)
    requires RaceAt(s, h, None, Redeeming, Redeeming) && Ready(s)
    ensures var s' := Step(matches, s, Advance(0, At0(Some(Token(4)))));
            && RaceAt(s', h, None, ReadingHash(Token(4), SESSION_TTL), Redeeming)
            && s'.auth.sessions == map[Token(4) := SESSION_TTL]
            && s'.auth.tickets == map[Token(3) := NONCE_TTL]
            && Token(5) !in s'.issued
  {
    hide Step;
    RedeemStep(matches, s, 0, Token(4));
    assert map[Token(1) := NONCE_TTL, Token(3) := NONCE_TTL] - {Token(1)} == map[Token(3) := NONCE_TTL];
  }

  lemma SecondRedeems(matches: Verifier, s: Sys, h: PinHash)
    requires RaceAt(s, h, None, ReadingHash(Token(4), SESSION_TTL), Redeeming)
    requires s.auth.sessions == map[Token(4) := SESSION_TTL]
    requires s.auth.tickets == map[Token(3) := NONCE_TTL]
    requires Token(5) !in s.issued
    ensures RaceAt(Step(matches, s, Advance(1, At0(Some(Token(5))))),
                   h, None, ReadingHash(Token(4), SESSION_TTL), ReadingHash(Token(5), SESSION_TTL))
  {
    hide Step;
    RedeemStep(matches, s, 1, Token(5));
    hide Redeemed;
  }

  lemma BothRedeem(matches: Verifier, s: Sys, h: PinHash)
    requires RaceAt(s, h, None, Redeeming, Redeeming) && Ready(s)
    ensures RaceAt(Step(matches, Step(matches, s, Advance(0, At0(Some(Token(4))))), Advance(1, At0(Some(Token(5))))),
                   h, None, ReadingHash(Token(4), SESSION_TTL), ReadingHash(Token(5), SESSION_TTL))
  {
    hide Step, RaceAt, Ready;
    FirstRedeems(matches, s, h);
    SecondRedeems(matches, Step(matches, s, Advance(0, At0(Some(Token(4))))), h);
  }

  lemma BothRead(matches: Verifier, s: Sys, h: PinHash)
    requires !matches("", h)
    requires RaceAt(s, h, None, ReadingHash(Token(4), SESSION_TTL), ReadingHash(Token(5), SESSION_TTL))
    ensures RaceAt(Step(matches, Step(matches, s, Advance(0, At0(None))), Advance(1, At0(None))),
                   h, Some(1), RecordingFailure(Token(4)), RecordingFailure(Token(5)))
  {
  }

  lemma BothRecord(matches: Verifier, s: Sys, h: PinHash)
    requires RaceAt(s, h, Some(1), RecordingFailure(Token(4)), RecordingFailure(Token(5)))
    ensures Step(matches, Step(matches, s, Advance(0, At0(None))), Advance(1, At0(None))).failures == [0, 0]
  {
    hide Backoff;
  }

  function Both(c: Choice, c': Choice): seq<Event> {
    [Advance(0, c), Advance(1, c')]
  }

  function BothCalls(): seq<Event> {
    [CallUnlock(0, Token(1), ""), CallUnlock(1, Token(3), "")]
    + (Both(At0(None), At0(None))
       + (Both(At0(Some(Token(4))), At0(Some(Token(5))))
          + (Both(At0(None), At0(None)) + Both(At0(None), At0(None)))))
  }

  lemma BothCallsRun(matches: Verifier, s: Sys, h: PinHash)
    requires !matches("", h)
    requires s.hashes == [h] && s.now == 0 && s.failures == [] && s.calls == map[] && Ready(s)
    ensures Run(matches, s, BothCalls()).failures == [0, 0]
  {
    hide Step, RaceAt, Ready, Run;
    var none, race := Both(At0(None), At0(None)), Both(At0(Some(Token(4))), At0(Some(Token(5))));
    var start := [CallUnlock(0, Token(1), ""), CallUnlock(1, Token(3), "")];
    BothStart(matches, s, h);
    TwoThen(matches, s, start, none + (race + (none + none)));
    var s1 := Step(matches, Step(matches, s, start[0]), start[1]);
    BothCheck(matches, s1, h);
    TwoThen(matches, s1, none, race + (none + none));
    var s2 := Step(matches, Step(matches, s1, none[0]), none[1]);
    BothRedeem(matches, s2, h);
    TwoThen(matches, s2, race, none + none);
    var s3 := Step(matches, Step(matches, s2, race[0]), race[1]);
    BothRead(matches, s3, h);
    TwoThen(matches, s3, none, none);
    var s4 := Step(matches, Step(matches, s3, none[0]), none[1]);
    BothRecord(matches, s4, h);
    TwoThen(matches, s4, none, []);
  }

  lemma BothAreReady(matches: Verifier, h: PinHash)
    ensures var s := Run(matches, Boot([h], false, 0), TwoTaken());
            s.hashes == [h] && s.now == 0 && s.failures == [] && s.calls == map[] && Ready(s)
  {
    TwoTakenRun(matches, h);
    hide Run;
    var s := Run(matches, Boot([h], false, 0), TwoTaken());
    assert forall id :: id !in s.calls;
  }

  /** Overtaking happens: in this run two calls that overlap record two wrong PINs at the same instant. */
  lemma RacingGuessesEscapeTheLockout(matches: Verifier, h: PinHash)
    requires !matches("", h)
    ensures Run(matches, Boot([h], false, 0), TwoTaken() + BothCalls()).failures == [0, 0]
  {
    BothAreReady(matches, h);
    hide Run, Ready;
    BothCallsRun(matches, Run(matches, Boot([h], false, 0), TwoTaken()), h);
    RunConcat(matches, Boot([h], false, 0), TwoTaken(), BothCalls());
  }
}
