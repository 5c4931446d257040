/** The server's authentication state: one-shot nonces, one-shot unlock tickets,
    session tokens, and the PIN lockout. Each operation is one critical section. */
module Auth {
  import opened Basics

  const NONCE_TTL: Time := 30 * SECOND
  const SESSION_TTL: Time := 3600 * SECOND
  const MAX_SESSIONS: nat := 20
  const LOCKOUT_BASE: Time := 2 * SECOND
  const LOCKOUT_MAX: Time := 60 * SECOND
  const NEVER: Time := 0

  // A token is 32 random bytes in hex; the empty string stands in the place of a token that was not given.
  datatype Token = Token(number: nat) | NoToken
  type Expiries = map<Token, Time>

  datatype Reason =
    | NonceNotFound
    | NonceExpired
    | TicketUnknown
    | TicketExpired
    | TooManySessions
    | NoEntropy

  datatype Output =
    | Unit
    | Challenge(nonce: Token)
    | Ticket(ticket: Token)
    | Session(token: Token, expiresAt: Time)
    | Answer(yes: bool)
    | Failed(reason: Reason)

  // VerifyNonce reads the clock up to three times.
  datatype Readings = Readings(first: Time, second: Time, third: Time) {
    predicate From(now: Time) {
      now <= first <= second <= third
    }
  }

  datatype AuthState = AuthState(
    nonces: Expiries,
    tickets: Expiries,
    sessions: Expiries,
    pinConfigured: bool,
    pinFailures: nat,
    lockedUntil: Time)

  const EMPTY := AuthState(map[], map[], map[], false, 0, NEVER)

  predicate Expired(expiresAt: Time, now: Time) {
    now > expiresAt
  }

  function Unexpired(m: Expiries, now: Time): Expiries {
    map k | k in m && !Expired(m[k], now) :: m[k]
  }

  function GenerateChallenge(a: AuthState, now: Time, random: Option<Token>): (AuthState, Output) {
    match random
    case None => (a, Failed(NoEntropy))
    case Some(nonce) =>
      (a.(nonces := Unexpired(a.nonces, now)[nonce := now + NONCE_TTL]), Challenge(nonce))
  }

  /** Adds a session unless the cap is reached; shared by the two operations that mint sessions. */
  function Mint(a: AuthState, now: Time, random: Option<Token>): (AuthState, Output) {
    var swept := a.(sessions := Unexpired(a.sessions, now));
    if |swept.sessions| >= MAX_SESSIONS then
      (swept, Failed(TooManySessions))
    else
      match random
      case None => (swept, Failed(NoEntropy))
      case Some(token) =>
        (swept.(sessions := swept.sessions[token := now + SESSION_TTL]), Session(token, now + SESSION_TTL))
  }

  /** Adds an unlock ticket: the sweep reads the clock once, the expiry is set from a later reading. */
  function GiveTicket(a: AuthState, now: Time, at: Time, random: Option<Token>): (AuthState, Output) {
    var swept := a.(tickets := Unexpired(a.tickets, now));
    match random
    case None => (swept, Failed(NoEntropy))
    case Some(ticket) =>
      (swept.(tickets := swept.tickets[ticket := at + NONCE_TTL]), Ticket(ticket))
  }

  function VerifyNonce(a: AuthState, nonce: Token, clock: Readings, random: Option<Token>): (AuthState, Output) {
    if nonce !in a.nonces then
      (a, Failed(NonceNotFound))
    else
      var spent := a.(nonces := a.nonces - {nonce});
      if Expired(a.nonces[nonce], clock.first) then
        (spent, Failed(NonceExpired))
      else if a.pinConfigured then
        GiveTicket(spent, clock.second, clock.third, random)
      else
        Mint(spent, clock.second, random)
  }

  function RedeemUnlockTicket(a: AuthState, ticket: Token, now: Time, random: Option<Token>): (AuthState, Output) {
    if ticket !in a.tickets then
      (a, Failed(TicketUnknown))
    else
      var spent := a.(tickets := a.tickets - {ticket});
      if Expired(a.tickets[ticket], now) then
        (spent, Failed(TicketExpired))
      else
        Mint(spent, now, random)
  }

  function ValidateToken(a: AuthState, token: Token, now: Time): (AuthState, Output) {
    if token !in a.sessions then
      (a, Answer(false))
    else if Expired(a.sessions[token], now) then
      (a.(sessions := a.sessions - {token}), Answer(false))
    else
      (a, Answer(true))
  }

  function RevokeSession(a: AuthState, token: Token): AuthState {
    a.(sessions := a.sessions - {token})
  }

  function InvalidateAllSessions(a: AuthState): AuthState {
    a.(sessions := map[])
  }

  function SweepExpired(a: AuthState, now: Time): AuthState {
    a.(sessions := Unexpired(a.sessions, now),
       nonces := Unexpired(a.nonces, now),
       tickets := Unexpired(a.tickets, now))
  }

  function SetPinConfigured(a: AuthState, configured: bool): AuthState {
    a.(pinConfigured := configured)
  }

  function Min(x: int, y: int): int {
    if x < y then x else y
  }

  function ShiftLeft(x: int, n: nat): int {
    if n == 0 then x else 2 * ShiftLeft(x, n - 1)
  }

  /** The delay set by the n-th consecutive wrong PIN: the base shifted at most five places, then clamped. */
  function Backoff(failures: nat): Time
    requires failures >= 1
  {
    var backoff := LOCKOUT_BASE * ShiftLeft(1, Min(failures - 1, 5));
    if backoff > LOCKOUT_MAX then LOCKOUT_MAX else backoff
  }

  function RecordPinFailure(a: AuthState, now: Time): AuthState {
    a.(pinFailures := a.pinFailures + 1, lockedUntil := now + Backoff(a.pinFailures + 1))
  }

  function ResetPinFailures(a: AuthState): AuthState {
    a.(pinFailures := 0, lockedUntil := NEVER)
  }

  predicate RateLimited(a: AuthState, now: Time) {
    now < a.lockedUntil
  }

  /** A sweep never grows a map. */
  lemma {:induction false} UnexpiredIsSmaller(m: Expiries, now: Time)
    ensures |Unexpired(m, now)| <= |m|
    ensures Unexpired(m, now).Keys <= m.Keys
  {
    SubsetIsSmaller(Unexpired(m, now).Keys, m.Keys);
  }

  lemma {:induction false} SubsetIsSmaller<T>(a: set<T>, b: set<T>)
    requires a <= b
    ensures |a| <= |b|
    ensures |a| == |b| ==> a == b
  {
    assert b == a + (b - a);
    assert |b| == |a| + |b - a|;
  }
}
