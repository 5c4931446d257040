/** The server under any interleaving of its handlers. Every locked section of the authentication
    manager and every storage transaction is one step; any number of Unlock and SetPIN calls may
    stand between two of their steps. */
module Systems {
  import opened Basics
  import opened Auth

  type Pin = string

  // A stored hash with its salt.
  datatype PinHash = PinHash(digest: seq<bv8>, salt: seq<bv8>)

  // Whether a PIN matches a stored hash. The password hash itself is not modelled.
  type Verifier = (Pin, PinHash) -> bool

  datatype UnlockReply =
    | Granted(token: Token, expiresAt: Time)
    | RateLimitedUnlock
    | TicketRefused
    | NoPinConfigured
    | WrongPin

  datatype UnlockStage =
    | CheckingLimit
    | Redeeming
    | ReadingHash(token: Token, expiresAt: Time)
    | RecordingFailure(token: Token)
    | Revoking(token: Token, pinMissing: bool)
    | ResettingFailures(token: Token, expiresAt: Time)
    | Replied(reply: UnlockReply)

  datatype SetPinReply =
    | PinSet
    | Unauthorized
    | BadNewPin
    | RateLimitedSetPin
    | WrongCurrentPin
    | InternalError

  datatype SetPinStage =
    | ReadingOldHash
    | CheckingOldPin(stored: PinHash)
    | RecordingWrongPin
    | ResettingBeforeStore
    | Storing
    | Flagging(version: nat)
    | Invalidating(version: nat)
    | Answered(answer: SetPinReply)

  // `version` and `checked` are the version of the PIN hash that the call has read, once it has read one.
  datatype Call =
    | Unlock(ticket: Token, pin: Pin, version: Option<nat>, stage: UnlockStage)
    | SetPin(current: Pin, wanted: Pin, checked: Option<nat>, step: SetPinStage)
  {
    predicate Done() {
      if Unlock? then stage.Replied? else step.Answered?
    }

    // The session token that the call holds or has handed to its caller.
    function Held(): Option<Token> {
      if SetPin? then None
      else match stage
           case ReadingHash(token, _) => Some(token)
           case RecordingFailure(token) => Some(token)
           case Revoking(token, _) => Some(token)
           case ResettingFailures(token, _) => Some(token)
           case Replied(Granted(token, _)) => Some(token)
           case _ => None
    }

    predicate Delivered() {
      Unlock? && stage.Replied? && stage.reply.Granted?
    }
  }

  // Who minted a session: a VerifyChallenge without PIN, answered in the same step, or an Unlock call.
  datatype Origin = Direct | ByUnlock(id: nat)

  datatype Sys = Sys(
    auth: AuthState,
    hashes: seq<PinHash>,      // the PIN hashes stored so far; the last one is current, its version is the length
    calls: map<nat, Call>,     // every call made so far, finished ones included
    now: Time,                 // the latest clock reading
    issued: set<Token>,        // every random token drawn so far
    minted: map<Token, Origin>,// every session token ever minted
    generated: nat,            // the number of challenges generated
    barrier: nat,              // the highest PIN version whose SetPIN has invalidated the sessions
    failures: seq<Time>)       // the instants of the wrong PINs recorded since the last reset

  // What the environment decides in one step of a call.
  datatype Choice = Choice(now: Time, random: Option<Token>, storageFails: bool, hash: Option<PinHash>)

  datatype Event =
    | GenerateChallenge(now: Time, random: Option<Token>)
    | VerifyChallenge(nonce: Token, clock: Readings, random: Option<Token>)
    | ValidateToken(token: Token, now: Time)
    | SweepExpired(now: Time)
    | CallUnlock(id: nat, ticket: Token, pin: Pin)
    | CallSetPin(id: nat, token: Token, current: Pin, wanted: Pin, now: Time)
    | Advance(id: nat, choice: Choice)

  predicate ValidPin(pin: Pin) {
    4 <= |pin| <= 6 && forall i :: 0 <= i < |pin| ==> '0' <= pin[i] <= '9'
  }

  /** A server that has just started on a database holding `hashes`. The start-up read of the PIN hash may fail. */
  function Boot(hashes: seq<PinHash>, readFails: bool, now: Time): Sys {
    Sys(EMPTY.(pinConfigured := hashes != [] && !readFails), hashes, map[], now, {}, map[], 0, 0, [])
  }

  predicate Fresh(s: Sys, random: Option<Token>) {
    random.Some? ==> random.value !in s.issued
  }

  predicate Enabled(matches: Verifier, s: Sys, e: Event) {
    match e
    case GenerateChallenge(now, random) => s.now <= now && Fresh(s, random)
    case VerifyChallenge(_, clock, random) => clock.From(s.now) && Fresh(s, random)
    case ValidateToken(_, now) => s.now <= now
    case SweepExpired(now) => s.now <= now
    case CallUnlock(id, _, _) => id !in s.calls
    case CallSetPin(id, _, _, _, now) => id !in s.calls && s.now <= now
    case Advance(id, c) =>
      && id in s.calls && !s.calls[id].Done()
      && s.now <= c.now && Fresh(s, c.random)
      && (s.calls[id].SetPin? && c.hash.Some? ==> matches(s.calls[id].wanted, c.hash.value))
  }

  // What one step of a call did beyond moving the call and the manager's state.
  datatype Effect =
    | Nothing
    | Minted(token: Token)
    | FailureRecorded
    | FailuresReset
    | HashStored(hash: PinHash)
    | SessionsInvalidated(version: nat)

  /** The next step of an Unlock call, given the manager's state and the stored hashes. */
  function UnlockNext(matches: Verifier, a: AuthState, hashes: seq<PinHash>, u: Call, c: Choice): (AuthState, Call, Effect)
    requires u.Unlock?
  {
    match u.stage
    case CheckingLimit =>
      (a, u.(stage := if RateLimited(a, c.now) then Replied(RateLimitedUnlock) else Redeeming), Nothing)
    case Redeeming =>
      var (a', out) := RedeemUnlockTicket(a, u.ticket, c.now, c.random);
      if out.Session? then
        (a', u.(stage := ReadingHash(out.token, out.expiresAt)), Minted(out.token))
      else
        (a', u.(stage := Replied(TicketRefused)), Nothing)
    case ReadingHash(token, expiresAt) =>
      if c.storageFails || hashes == [] then
        (a, u.(stage := Revoking(token, true)), Nothing)
      else if matches(u.pin, hashes[|hashes| - 1]) then
        (a, u.(version := Some(|hashes|), stage := ResettingFailures(token, expiresAt)), Nothing)
      else
        (a, u.(version := Some(|hashes|), stage := RecordingFailure(token)), Nothing)
    case RecordingFailure(token) =>
      (RecordPinFailure(a, c.now), u.(stage := Revoking(token, false)), FailureRecorded)
    case Revoking(token, pinMissing) =>
      (RevokeSession(a, token), u.(stage := Replied(if pinMissing then NoPinConfigured else WrongPin)), Nothing)
    case ResettingFailures(token, expiresAt) =>
      (ResetPinFailures(a), u.(stage := Replied(Granted(token, expiresAt))), FailuresReset)
    case Replied(_) =>
      (a, u, Nothing)
  }

  /** The next step of a SetPIN call. A failed read of the stored hash counts as "no PIN yet". */
  function SetPinNext(matches: Verifier, a: AuthState, hashes: seq<PinHash>, p: Call, c: Choice): (AuthState, Call, Effect)
    requires p.SetPin?
  {
    match p.step
    case ReadingOldHash =>
      if c.storageFails || hashes == [] then
        (a, p.(step := Storing), Nothing)
      else
        (a, p.(checked := Some(|hashes|), step := CheckingOldPin(hashes[|hashes| - 1])), Nothing)
    case CheckingOldPin(stored) =>
      (a,
       p.(step := if RateLimited(a, c.now) then Answered(RateLimitedSetPin)
                  else if matches(p.current, stored) then ResettingBeforeStore
                  else RecordingWrongPin),
       Nothing)
    case RecordingWrongPin =>
      (RecordPinFailure(a, c.now), p.(step := Answered(WrongCurrentPin)), FailureRecorded)
    case ResettingBeforeStore =>
      (ResetPinFailures(a), p.(step := Storing), FailuresReset)
    case Storing =>
      if c.storageFails || c.hash.None? then
        (a, p.(step := Answered(InternalError)), Nothing)
      else
        (a, p.(step := Flagging(|hashes| + 1)), HashStored(c.hash.value))
    case Flagging(version) =>
      (SetPinConfigured(a, true), p.(step := Invalidating(version)), Nothing)
    case Invalidating(version) =>
      (InvalidateAllSessions(a), p.(step := Answered(PinSet)), SessionsInvalidated(version))
    case Answered(_) =>
      (a, p, Nothing)
  }

  function Next(matches: Verifier, a: AuthState, hashes: seq<PinHash>, call: Call, c: Choice): (AuthState, Call, Effect) {
    if call.Unlock? then UnlockNext(matches, a, hashes, call, c) else SetPinNext(matches, a, hashes, call, c)
  }

  function Draw(issued: set<Token>, random: Option<Token>): set<Token> {
    if random.Some? then issued + {random.value} else issued
  }

  function Advanced(matches: Verifier, s: Sys, id: nat, c: Choice): Sys
    requires id in s.calls
  {
    var (a', call, effect) := Next(matches, s.auth, s.hashes, s.calls[id], c);
    s.(auth := a',
       calls := s.calls[id := call],
       now := c.now,
       issued := Draw(s.issued, c.random),
       minted := if effect.Minted? then s.minted[effect.token := ByUnlock(id)] else s.minted,
       failures := if effect.FailureRecorded? then s.failures + [c.now]
                   else if effect.FailuresReset? then []
                   else s.failures,
       hashes := if effect.HashStored? then s.hashes + [effect.hash] else s.hashes,
       barrier := if effect.SessionsInvalidated? && s.barrier < effect.version then effect.version else s.barrier)
  }

  function NewSetPin(valid: bool, current: Pin, wanted: Pin): Call {
    SetPin(current, wanted, None,
           if !valid then Answered(Unauthorized)
           else if !ValidPin(wanted) then Answered(BadNewPin)
           else ReadingOldHash)
  }

  /** One step. An event that is not enabled changes nothing. */
  function Step(matches: Verifier, s: Sys, e: Event): Sys {
    if !Enabled(matches, s, e) then s else
    match e
    case GenerateChallenge(now, random) =>
      var (a', out) := Auth.GenerateChallenge(s.auth, now, random);
      s.(auth := a', now := now, issued := Draw(s.issued, random),
         generated := if out.Challenge? then s.generated + 1 else s.generated)
    case VerifyChallenge(nonce, clock, random) =>
      var (a', out) := VerifyNonce(s.auth, nonce, clock, random);
      s.(auth := a', now := clock.third, issued := Draw(s.issued, random),
         minted := if out.Session? then s.minted[out.token := Direct] else s.minted)
    case ValidateToken(token, now) =>
      s.(auth := Auth.ValidateToken(s.auth, token, now).0, now := now)
    case SweepExpired(now) =>
      s.(auth := Auth.SweepExpired(s.auth, now), now := now)
    case CallUnlock(id, ticket, pin) =>
      s.(calls := s.calls[id := Unlock(ticket, pin, None, CheckingLimit)])
    case CallSetPin(id, token, current, wanted, now) =>
      var (a', out) := Auth.ValidateToken(s.auth, token, now);
      s.(auth := a', now := now, calls := s.calls[id := NewSetPin(out == Answer(true), current, wanted)])
    case Advance(id, c) => Advanced(matches, s, id, c)
  }

  function Run(matches: Verifier, s: Sys, es: seq<Event>): Sys
    decreases |es|
  {
    if es == [] then s else Run(matches, Step(matches, s, es[0]), es[1..])
  }

  lemma {:induction false} RunConcat(matches: Verifier, s: Sys, es: seq<Event>, more: seq<Event>)
    ensures Run(matches, s, es + more) == Run(matches, Run(matches, s, es), more)
    decreases |es|
  {
    if es == [] {
      assert es + more == more;
    } else {
      assert (es + more)[0] == es[0] && (es + more)[1..] == es[1..] + more;
      RunConcat(matches, Step(matches, s, es[0]), es[1..], more);
    }
  }

  lemma FirstStep(matches: Verifier, s: Sys, es: seq<Event>)
    requires es != []
    ensures Run(matches, s, es) == Run(matches, Step(matches, s, es[0]), es[1..])
  {
  }

  lemma TwoThen(matches: Verifier, s: Sys, two: seq<Event>, rest: seq<Event>)
    requires |two| == 2
    ensures Run(matches, s, two + rest) == Run(matches, Step(matches, Step(matches, s, two[0]), two[1]), rest)
    ensures Run(matches, s, two) == Step(matches, Step(matches, s, two[0]), two[1])
  {
    RunConcat(matches, s, two, rest);
    FirstStep(matches, s, two);
    FirstStep(matches, Step(matches, s, two[0]), two[1..]);
  }
}
