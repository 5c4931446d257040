/** A reference manager that never deletes an expired entry: it only remembers when each token was
    issued and which tokens were used up, and filters by age when asked. The real manager, whatever
    it sweeps and whenever, answers every request as the ledger does. */
module Ledgers {
  import opened Basics
  import opened Auth

  // The history of one kind of token.
  datatype Book = Book(issued: map<Token, Time>, used: set<Token>) {
    predicate Live(k: Token, ttl: Time, now: Time) {
      k in issued && k !in used && now <= issued[k] + ttl
    }

    function AllLive(ttl: Time, now: Time): set<Token> {
      set k | k in issued && Live(k, ttl, now)
    }

    function Issue(k: Token, now: Time): Book {
      Book(issued[k := now], used)
    }

    function Spend(k: Token): Book {
      if k in issued then Book(issued, used + {k}) else this
    }

    function SpendAll(): Book {
      Book(issued, used + issued.Keys)
    }
  }

  datatype Ledger = Ledger(
    nonces: Book,
    tickets: Book,
    sessions: Book,
    pinConfigured: bool,
    pinFailures: nat,
    lockedUntil: Time)
  {
    predicate Fresh(k: Token) {
      k !in nonces.issued && k !in tickets.issued && k !in sessions.issued
    }
  }

  const BLANK := Ledger(Book(map[], {}), Book(map[], {}), Book(map[], {}), false, 0, NEVER)

  datatype Op =
    | Generate(now: Time, random: Option<Token>)
    | Verify(nonce: Token, clock: Readings, random: Option<Token>)
    | Redeem(ticket: Token, now: Time, random: Option<Token>)
    | Validate(token: Token, now: Time)
    | Revoke(token: Token)
    | InvalidateAll
    | Sweep(now: Time)
    | Configure(configured: bool)
    | Fail(now: Time)
    | Reset
    | CheckLimit(now: Time)
  {
    // The last clock reading of the operation when `start` is the last one before it.
    function EndsAt(start: Time): Time {
      match this
      case Generate(now, _) => now
      case Verify(_, clock, _) => clock.third
      case Redeem(_, now, _) => now
      case Validate(_, now) => now
      case Sweep(now) => now
      case Fail(now) => now
      case CheckLimit(now) => now
      case _ => start
    }

    predicate ReadsForward(start: Time) {
      if Verify? then clock.From(start) else start <= EndsAt(start)
    }

    predicate DrawsFresh(l: Ledger) {
      (Generate? || Verify? || Redeem?) && random.Some? ==> l.Fresh(random.value)
    }
  }

  /** One operation of the real manager. */
  function Act(a: AuthState, op: Op): (AuthState, Output) {
    match op
    case Generate(now, random) => GenerateChallenge(a, now, random)
    case Verify(nonce, clock, random) => VerifyNonce(a, nonce, clock, random)
    case Redeem(ticket, now, random) => RedeemUnlockTicket(a, ticket, now, random)
    case Validate(token, now) => ValidateToken(a, token, now)
    case Revoke(token) => (RevokeSession(a, token), Unit)
    case InvalidateAll => (InvalidateAllSessions(a), Unit)
    case Sweep(now) => (SweepExpired(a, now), Unit)
    case Configure(configured) => (SetPinConfigured(a, configured), Unit)
    case Fail(now) => (RecordPinFailure(a, now), Unit)
    case Reset => (ResetPinFailures(a), Unit)
    case CheckLimit(now) => (a, Answer(RateLimited(a, now)))
  }

  function EnterMint(l: Ledger, now: Time, random: Option<Token>): (Ledger, Output) {
    if |l.sessions.AllLive(SESSION_TTL, now)| >= MAX_SESSIONS then
      (l, Failed(TooManySessions))
    else
      match random
      case None => (l, Failed(NoEntropy))
      case Some(token) => (l.(sessions := l.sessions.Issue(token, now)), Session(token, now + SESSION_TTL))
  }

  function EnterGenerate(l: Ledger, now: Time, random: Option<Token>): (Ledger, Output) {
    match random
    case None => (l, Failed(NoEntropy))
    case Some(nonce) => (l.(nonces := l.nonces.Issue(nonce, now)), Challenge(nonce))
  }

  function EnterTicket(l: Ledger, at: Time, random: Option<Token>): (Ledger, Output) {
    match random
    case None => (l, Failed(NoEntropy))
    case Some(ticket) => (l.(tickets := l.tickets.Issue(ticket, at)), Ticket(ticket))
  }

  function EnterVerify(l: Ledger, nonce: Token, clock: Readings, random: Option<Token>): (Ledger, Output) {
    var spent := l.(nonces := l.nonces.Spend(nonce));
    if !l.nonces.Live(nonce, NONCE_TTL, clock.first) then
      (spent, Failed(NonceNotFound))
    else if l.pinConfigured then
      EnterTicket(spent, clock.third, random)
    else
      EnterMint(spent, clock.second, random)
  }

  function EnterRedeem(l: Ledger, ticket: Token, now: Time, random: Option<Token>): (Ledger, Output) {
    var spent := l.(tickets := l.tickets.Spend(ticket));
    if !l.tickets.Live(ticket, NONCE_TTL, now) then
      (spent, Failed(TicketUnknown))
    else
      EnterMint(spent, now, random)
  }

  /** The same operation on the ledger. Sweeping does nothing here. */
  function Enter(l: Ledger, op: Op): (Ledger, Output) {
    match op
    case Generate(now, random) => EnterGenerate(l, now, random)
    case Verify(nonce, clock, random) => EnterVerify(l, nonce, clock, random)
    case Redeem(ticket, now, random) => EnterRedeem(l, ticket, now, random)
    case Validate(token, now) => (l, Answer(l.sessions.Live(token, SESSION_TTL, now)))
    case Revoke(token) => (l.(sessions := l.sessions.Spend(token)), Unit)
    case InvalidateAll => (l.(sessions := l.sessions.SpendAll()), Unit)
    case Sweep(_) => (l, Unit)
    case Configure(configured) => (l.(pinConfigured := configured), Unit)
    case Fail(now) =>
      (l.(pinFailures := l.pinFailures + 1, lockedUntil := now + Backoff(l.pinFailures + 1)), Unit)
    case Reset => (l.(pinFailures := 0, lockedUntil := NEVER), Unit)
    case CheckLimit(now) => (l, Answer(now < l.lockedUntil))
  }

  // Clients see one status code for an unknown token and for an expired one.
  function Seen(out: Output): Output {
    match out
    case Failed(NonceExpired) => Failed(NonceNotFound)
    case Failed(TicketExpired) => Failed(TicketUnknown)
    case _ => out
  }

  /** Clock readings never go back, and a random token differs from every token issued before. */
  predicate Plausible(l: Ledger, now: Time, ops: seq<Op>)
    decreases |ops|
  {
    ops != [] ==>
      && ops[0].ReadsForward(now)
      && ops[0].DrawsFresh(l)
      && Plausible(Enter(l, ops[0]).0, ops[0].EndsAt(now), ops[1..])
  }

  function Outputs(a: AuthState, ops: seq<Op>): (outs: seq<Output>)
    ensures |outs| == |ops|
    decreases |ops|
  {
    if ops == [] then [] else
    var (a', out) := Act(a, ops[0]);
    [out] + Outputs(a', ops[1..])
  }

  function LedgerOutputs(l: Ledger, ops: seq<Op>): (outs: seq<Output>)
    ensures |outs| == |ops|
    decreases |ops|
  {
    if ops == [] then [] else
    var (l', out) := Enter(l, ops[0]);
    [out] + LedgerOutputs(l', ops[1..])
  }

  // One map of the manager against its history: what is kept is exact, what is missing is used up or too old.
  ghost predicate Tracks(kept: Expiries, book: Book, ttl: Time, now: Time) {
    && (forall k :: k in kept ==> k in book.issued && k !in book.used && kept[k] == book.issued[k] + ttl)
    && (forall k :: k in book.issued && k !in book.used && k !in kept ==> now > book.issued[k] + ttl)
    && book.used <= book.issued.Keys
  }

  lemma SweepTracks(kept: Expiries, book: Book, ttl: Time, start: Time, now: Time)
    requires Tracks(kept, book, ttl, start) && start <= now
    ensures Tracks(Unexpired(kept, now), book, ttl, now)
    ensures |Unexpired(kept, now)| == |book.AllLive(ttl, now)|
  {
    assert Unexpired(kept, now).Keys == book.AllLive(ttl, now);
  }

  lemma LaterTracks(kept: Expiries, book: Book, ttl: Time, start: Time, now: Time)
    requires Tracks(kept, book, ttl, start) && start <= now
    ensures Tracks(kept, book, ttl, now)
  {
  }

  lemma IssueTracks(kept: Expiries, book: Book, ttl: Time, now: Time, k: Token, at: Time)
    requires Tracks(kept, book, ttl, now) && k !in book.issued
    ensures Tracks(kept[k := at + ttl], book.Issue(k, at), ttl, now)
  {
  }

  // Consuming a token succeeds on exactly the live ones, and changes nothing else.
  lemma SpendTracks(kept: Expiries, book: Book, ttl: Time, start: Time, now: Time, k: Token)
    requires Tracks(kept, book, ttl, start) && start <= now
    ensures Tracks(kept - {k}, book.Spend(k), ttl, start)
    ensures k in kept && !Expired(kept[k], now) <==> book.Live(k, ttl, now)
    ensures k !in kept ==> kept - {k} == kept
  {
  }

  ghost predicate Agrees(a: AuthState, l: Ledger, now: Time) {
    && Tracks(a.nonces, l.nonces, NONCE_TTL, now)
    && Tracks(a.tickets, l.tickets, NONCE_TTL, now)
    && Tracks(a.sessions, l.sessions, SESSION_TTL, now)
    && a.pinConfigured == l.pinConfigured
    && a.pinFailures == l.pinFailures
    && a.lockedUntil == l.lockedUntil
  }

  lemma LaterAgrees(a: AuthState, l: Ledger, start: Time, now: Time)
    requires Agrees(a, l, start) && start <= now
    ensures Agrees(a, l, now)
  {
    hide Tracks;
    LaterTracks(a.nonces, l.nonces, NONCE_TTL, start, now);
    LaterTracks(a.tickets, l.tickets, NONCE_TTL, start, now);
    LaterTracks(a.sessions, l.sessions, SESSION_TTL, start, now);
  }

  lemma MintAgrees(a: AuthState, l: Ledger, start: Time, now: Time, random: Option<Token>)
    requires Agrees(a, l, start) && start <= now
    requires random.Some? ==> l.Fresh(random.value)
    ensures Agrees(Mint(a, now, random).0, EnterMint(l, now, random).0, now)
    ensures Seen(Mint(a, now, random).1) == EnterMint(l, now, random).1
  {
    hide Tracks, Unexpired;
    LaterAgrees(a, l, start, now);
    SweepTracks(a.sessions, l.sessions, SESSION_TTL, start, now);
    if random.Some? {
      IssueTracks(Unexpired(a.sessions, now), l.sessions, SESSION_TTL, now, random.value, now);
    }
  }

  lemma TicketAgrees(a: AuthState, l: Ledger, start: Time, now: Time, at: Time, random: Option<Token>)
    requires Agrees(a, l, start) && start <= now <= at
    requires random.Some? ==> l.Fresh(random.value)
    ensures Agrees(GiveTicket(a, now, at, random).0, EnterTicket(l, at, random).0, at)
    ensures Seen(GiveTicket(a, now, at, random).1) == EnterTicket(l, at, random).1
  {
    hide Tracks, Unexpired;
    LaterAgrees(a, l, start, at);
    SweepTracks(a.tickets, l.tickets, NONCE_TTL, start, now);
    LaterTracks(Unexpired(a.tickets, now), l.tickets, NONCE_TTL, now, at);
    if random.Some? {
      IssueTracks(Unexpired(a.tickets, now), l.tickets, NONCE_TTL, at, random.value, at);
    }
  }

  lemma VerifyAgrees(a: AuthState, l: Ledger, start: Time, nonce: Token, clock: Readings, random: Option<Token>)
    requires Agrees(a, l, start) && clock.From(start)
    requires random.Some? ==> l.Fresh(random.value)
    ensures Agrees(VerifyNonce(a, nonce, clock, random).0, EnterVerify(l, nonce, clock, random).0, clock.third)
    ensures Seen(VerifyNonce(a, nonce, clock, random).1) == EnterVerify(l, nonce, clock, random).1
  {
    hide Tracks, Mint, EnterMint, GiveTicket, EnterTicket;
    SpendTracks(a.nonces, l.nonces, NONCE_TTL, start, clock.first, nonce);
    var spent, entered := a.(nonces := a.nonces - {nonce}), l.(nonces := l.nonces.Spend(nonce));
    assert Agrees(spent, entered, start);
    hide Agrees;
    if nonce !in a.nonces || Expired(a.nonces[nonce], clock.first) {
      LaterAgrees(spent, entered, start, clock.third);
    } else if a.pinConfigured {
      TicketAgrees(spent, entered, start, clock.second, clock.third, random);
    } else {
      MintAgrees(spent, entered, start, clock.second, random);
      LaterAgrees(Mint(spent, clock.second, random).0, EnterMint(entered, clock.second, random).0, clock.second, clock.third);
    }
  }

  lemma RedeemAgrees(a: AuthState, l: Ledger, start: Time, ticket: Token, now: Time, random: Option<Token>)
    requires Agrees(a, l, start) && start <= now
    requires random.Some? ==> l.Fresh(random.value)
    ensures Agrees(RedeemUnlockTicket(a, ticket, now, random).0, EnterRedeem(l, ticket, now, random).0, now)
    ensures Seen(RedeemUnlockTicket(a, ticket, now, random).1) == EnterRedeem(l, ticket, now, random).1
  {
    hide Tracks, Mint, EnterMint;
    SpendTracks(a.tickets, l.tickets, NONCE_TTL, start, now, ticket);
    var spent, entered := a.(tickets := a.tickets - {ticket}), l.(tickets := l.tickets.Spend(ticket));
    assert Agrees(spent, entered, start);
    hide Agrees;
    if ticket !in a.tickets || Expired(a.tickets[ticket], now) {
      LaterAgrees(spent, entered, start, now);
    } else {
      MintAgrees(spent, entered, start, now, random);
    }
  }

  lemma GenerateAgrees(a: AuthState, l: Ledger, start: Time, now: Time, random: Option<Token>)
    requires Agrees(a, l, start) && start <= now
    requires random.Some? ==> l.Fresh(random.value)
    ensures Agrees(GenerateChallenge(a, now, random).0, EnterGenerate(l, now, random).0, now)
    ensures Seen(GenerateChallenge(a, now, random).1) == EnterGenerate(l, now, random).1
  {
    hide Tracks, Unexpired;
    LaterAgrees(a, l, start, now);
    SweepTracks(a.nonces, l.nonces, NONCE_TTL, start, now);
    if random.Some? {
      IssueTracks(Unexpired(a.nonces, now), l.nonces, NONCE_TTL, now, random.value, now);
    }
  }

  lemma SweepAgrees(a: AuthState, l: Ledger, start: Time, now: Time)
    requires Agrees(a, l, start) && start <= now
    ensures Agrees(SweepExpired(a, now), l, now)
  {
    hide Tracks, Unexpired;
    SweepTracks(a.nonces, l.nonces, NONCE_TTL, start, now);
    SweepTracks(a.tickets, l.tickets, NONCE_TTL, start, now);
    SweepTracks(a.sessions, l.sessions, SESSION_TTL, start, now);
  }

  lemma SessionOpsAgree(a: AuthState, l: Ledger, start: Time, op: Op)
    requires Agrees(a, l, start)
    requires op.Validate? || op.Revoke? || op.InvalidateAll?
    requires op.ReadsForward(start)
    ensures Agrees(Act(a, op).0, Enter(l, op).0, op.EndsAt(start))
    ensures Seen(Act(a, op).1) == Enter(l, op).1
  {
    var now := op.EndsAt(start);
    LaterAgrees(a, l, start, now);
    if op.InvalidateAll? {
      assert Tracks(map[], l.sessions.SpendAll(), SESSION_TTL, now);
    } else {
      SpendTracks(a.sessions, l.sessions, SESSION_TTL, now, now, op.token);
      assert Tracks(a.sessions, l.sessions, SESSION_TTL, now);
      if op.Validate? && op.token in a.sessions && Expired(a.sessions[op.token], now) {
        assert Tracks(a.sessions - {op.token}, l.sessions, SESSION_TTL, now);
      }
      hide Tracks;
    }
  }

  lemma OneOpAgrees(a: AuthState, l: Ledger, start: Time, op: Op)
    requires Agrees(a, l, start)
    requires op.ReadsForward(start) && op.DrawsFresh(l)
    ensures Agrees(Act(a, op).0, Enter(l, op).0, op.EndsAt(start))
    ensures Seen(Act(a, op).1) == Enter(l, op).1
  {
    hide Tracks;
    match op
    case Verify(nonce, clock, random) =>
      hide Agrees;
      VerifyAgrees(a, l, start, nonce, clock, random);
    case Redeem(ticket, now, random) =>
      hide Agrees;
      RedeemAgrees(a, l, start, ticket, now, random);
    case Generate(now, random) =>
      hide Agrees;
      GenerateAgrees(a, l, start, now, random);
    case Sweep(now) =>
      hide Agrees;
      SweepAgrees(a, l, start, now);
    case Validate(_, _) => SessionOpsAgree(a, l, start, op);
    case Revoke(_) => SessionOpsAgree(a, l, start, op);
    case InvalidateAll => SessionOpsAgree(a, l, start, op);
    case _ =>
      LaterAgrees(a, l, start, op.EndsAt(start));
  }

  /** Over a whole run, wherever its sweeps stand, every answer is the one the ledger gives. */
  lemma {:induction false} RunAgrees(a: AuthState, l: Ledger, now: Time, ops: seq<Op>)
    requires Agrees(a, l, now)
    requires Plausible(l, now, ops)
    ensures forall i :: 0 <= i < |ops| ==> Seen(Outputs(a, ops)[i]) == LedgerOutputs(l, ops)[i]
    decreases |ops|
  {
    if ops != [] {
      hide Agrees, Act, Enter;
      OneOpAgrees(a, l, now, ops[0]);
      RunAgrees(Act(a, ops[0]).0, Enter(l, ops[0]).0, ops[0].EndsAt(now), ops[1..]);
    }
  }

  lemma FreshManagerAgrees(now: Time, ops: seq<Op>)
    requires Plausible(BLANK, now, ops)
    ensures forall i :: 0 <= i < |ops| ==> Seen(Outputs(EMPTY, ops)[i]) == LedgerOutputs(BLANK, ops)[i]
  {
    RunAgrees(EMPTY, BLANK, now, ops);
  }

  function WithoutSweeps(ops: seq<Op>): seq<Op>
    decreases |ops|
  {
    if ops == [] then []
    else (if ops[0].Sweep? then [] else [ops[0]]) + WithoutSweeps(ops[1..])
  }

  // What clients see of a run: the answers to everything but the sweeps.
  function Answers(ops: seq<Op>, outs: seq<Output>): seq<Output>
    requires |ops| == |outs|
    decreases |ops|
  {
    if ops == [] then []
    else (if ops[0].Sweep? then [] else [Seen(outs[0])]) + Answers(ops[1..], outs[1..])
  }

  lemma {:induction false} EarlierStartIsPlausible(l: Ledger, earlier: Time, now: Time, ops: seq<Op>)
    requires Plausible(l, now, ops) && earlier <= now
    ensures Plausible(l, earlier, ops)
    decreases |ops|
  {
    if ops != [] {
      EarlierStartIsPlausible(Enter(l, ops[0]).0, ops[0].EndsAt(earlier), ops[0].EndsAt(now), ops[1..]);
    }
  }

  lemma {:induction false} LedgerIgnoresSweeps(l: Ledger, now: Time, ops: seq<Op>)
    requires Plausible(l, now, ops)
    ensures Plausible(l, now, WithoutSweeps(ops))
    ensures Answers(WithoutSweeps(ops), LedgerOutputs(l, WithoutSweeps(ops))) == Answers(ops, LedgerOutputs(l, ops))
    decreases |ops|
  {
    if ops != [] {
      var (l', out) := Enter(l, ops[0]);
      LedgerIgnoresSweeps(l', ops[0].EndsAt(now), ops[1..]);
      assert LedgerOutputs(l, ops)[1..] == LedgerOutputs(l', ops[1..]);
      if ops[0].Sweep? {
        assert WithoutSweeps(ops) == WithoutSweeps(ops[1..]);
        EarlierStartIsPlausible(l, now, ops[0].EndsAt(now), WithoutSweeps(ops));
      } else {
        var rest := WithoutSweeps(ops[1..]);
        assert WithoutSweeps(ops)[1..] == rest && WithoutSweeps(ops)[0] == ops[0];
        assert LedgerOutputs(l, WithoutSweeps(ops))[1..] == LedgerOutputs(l', rest);
      }
    }
  }

  lemma {:induction false} SameAnswers(ops: seq<Op>, outs: seq<Output>, outs': seq<Output>)
    requires |ops| == |outs| == |outs'|
    requires forall i :: 0 <= i < |ops| ==> Seen(outs[i]) == outs'[i]
    ensures Answers(ops, outs) == Answers(ops, outs')
    decreases |ops|
  {
    if ops != [] {
      assert Seen(Seen(outs[0])) == Seen(outs[0]) == outs'[0];
      SameAnswers(ops[1..], outs[1..], outs'[1..]);
    }
  }

  /** Taking every sweep out of a run, wherever it stood, changes no answer a client sees. */
  lemma SweepsAreUnobservable(a: AuthState, l: Ledger, now: Time, ops: seq<Op>)
    requires Agrees(a, l, now)
    requires Plausible(l, now, ops)
    ensures Answers(WithoutSweeps(ops), Outputs(a, WithoutSweeps(ops))) == Answers(ops, Outputs(a, ops))
  {
    LedgerIgnoresSweeps(l, now, ops);
    RunAgrees(a, l, now, ops);
    SameAnswers(ops, Outputs(a, ops), LedgerOutputs(l, ops));
    RunAgrees(a, l, now, WithoutSweeps(ops));
    SameAnswers(WithoutSweeps(ops), Outputs(a, WithoutSweeps(ops)), LedgerOutputs(l, WithoutSweeps(ops)));
  }
}
